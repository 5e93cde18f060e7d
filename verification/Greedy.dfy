/** Where the engine stops: of all the ends of an item, the first one it tries is the farthest. */
module Greedy {
  import opened Text
  import opened Regex
  import opened SensitiveItems
  import opened Patterns

  // ---------------------------------------------------------------- first ends

  /** The first end that is tried from `i` is at least as far as any other. */
  ghost predicate FarthestFirst(re: Re, s: string, i: nat)
    requires i <= |s|
  {
    forall e :: e in Ends(re, s, i) ==> e <= Ends(re, s, i)[0]
  }

  predicate StrictlyDown(ends: seq<nat>) { forall k, l :: 0 <= k < l < |ends| ==> ends[k] > ends[l] }

  /** Starts are tried in order; the first one from which there is an end decides. */
  lemma {:induction false} FirstOfAll(re: Re, s: string, i: nat, starts: seq<nat>) returns (k: nat)
    requires AllWithin(starts, i, |s|) && EndsFromAll(re, s, i, starts) != []
    ensures k < |starts| && Ends(re, s, starts[k]) != []
    ensures EndsFromAll(re, s, i, starts)[0] == Ends(re, s, starts[k])[0]
    ensures forall l :: 0 <= l < k ==> Ends(re, s, starts[l]) == []
  {
    hide Ends;
    if Ends(re, s, starts[0]) != [] {
      k := 0;
    } else {
      assert EndsFromAll(re, s, i, starts) == EndsFromAll(re, s, i, starts[1..]);
      k := FirstOfAll(re, s, i, starts[1..]);
      k := k + 1;
    }
  }

  lemma {:induction false} EndOfSome(re: Re, s: string, i: nat, starts: seq<nat>, e: nat) returns (k: nat)
    requires AllWithin(starts, i, |s|) && e in EndsFromAll(re, s, i, starts)
    ensures k < |starts| && e in Ends(re, s, starts[k])
  {
    hide Ends;
    if e in Ends(re, s, starts[0]) {
      k := 0;
    } else {
      k := EndOfSome(re, s, i, starts[1..], e);
      k := k + 1;
    }
  }

  /**
   * If from each start the farthest end is tried first, and no later start leads farther than an
   * earlier one that leads anywhere, then the farthest end of all is tried first.
   */
  lemma CatIsFarthest(a: Re, b: Re, s: string, i: nat)
    requires i <= |s|
    requires forall m :: m in Ends(a, s, i) ==> i <= m <= |s| && FarthestFirst(b, s, m)
    requires forall k, l, e: nat ::
      0 <= k < l < |Ends(a, s, i)| ==> Overtakes(b, s, Ends(a, s, i)[k], Ends(a, s, i)[l], e)
    ensures FarthestFirst(Cat(a, b), s, i)
  {
    hide Lang, Ends;
    CatEnds(a, b, s, i);
    var starts, ends := Ends(a, s, i), Ends(Cat(a, b), s, i);
    forall e | e in ends ensures e <= ends[0] {
      var k := FirstOfAll(b, s, i, starts);
      var l := EndOfSome(b, s, i, starts, e);
      EngineIsLang(b, s, starts[l], e);
      var first := Ends(b, s, starts[k])[0];
      assert first in Ends(b, s, starts[k]) && starts[k] in starts && starts[l] in starts;
      EngineIsLang(b, s, starts[k], first);
      if k < l {
        assert Overtakes(b, s, starts[k], starts[l], e) && StartsAt(b, s, starts[k]);
        var e': nat :| e <= e' && Lang(b, s, starts[k], e');
        EngineIsLang(b, s, starts[k], e');
      }
    }
  }

  /** If `re` matches from `m` at all, and from `m'` up to `e`, it matches from `m` up to `e` or farther. */
  ghost predicate Overtakes(re: Re, s: string, m: nat, m': nat, e: nat) {
    StartsAt(re, s, m) && Lang(re, s, m', e) ==> LeadsAsFar(re, s, m, e)
  }

  /** From `m` a match of `re` can end at `e` or farther. */
  ghost predicate LeadsAsFar(re: Re, s: string, m: nat, e: nat) { exists e': nat :: e <= e' && Lang(re, s, m, e') }

  /** The first part ends at one place at most from which the rest goes on. */
  lemma OneWayIsFarthest(a: Re, b: Re, s: string, i: nat, m: nat)
    requires i <= m <= |s| && FarthestFirst(b, s, m)
    requires forall x: nat, e: nat :: Lang(a, s, i, x) && Lang(b, s, x, e) ==> x == m
    ensures FarthestFirst(Cat(a, b), s, i)
  {
    hide Lang, Ends;
    CatEnds(a, b, s, i);
    var starts, ends := Ends(a, s, i), Ends(Cat(a, b), s, i);
    forall e | e in ends ensures e <= ends[0] {
      var k := FirstOfAll(b, s, i, starts);
      var l := EndOfSome(b, s, i, starts, e);
      var first := Ends(b, s, starts[k])[0];
      assert first in Ends(b, s, starts[k]) && starts[k] in starts && starts[l] in starts;
      EngineIsLang(a, s, i, starts[k]);
      EngineIsLang(a, s, i, starts[l]);
      EngineIsLang(b, s, starts[k], first);
      EngineIsLang(b, s, starts[l], e);
    }
  }

  /** Nothing to choose from. */
  lemma NothingIsFarthest(re: Re, s: string, i: nat)
    requires i <= |s| && !StartsAt(re, s, i)
    ensures FarthestFirst(re, s, i)
  {
    hide Lang, Ends;
    var ends := Ends(re, s, i);
    if ends != [] {
      assert ends[0] in ends;
      EngineIsLang(re, s, i, ends[0]);
    }
  }

  lemma DownFromDescends(hi: int, lo: int)
    requires 0 <= lo
    ensures StrictlyDown(DownFrom(hi, lo))
    decreases hi - lo
  {
  }

  lemma RunDescends(cls: CharClass, n: nat, s: string, i: nat)
    requires i <= |s|
    ensures var ends := Ends(AtLeast(cls, n), s, i);
            StrictlyDown(ends) && AllWithin(ends, i, |s|)
  {
    DownFromDescends(RunEnd(cls, s, i), i + n);
  }

  // ---------------------------------------------------------------- runs

  /** A run and an assertion: the longest run that the assertion allows. */
  lemma TailIsFarthest(cls: CharClass, n: nat, s: string, i: nat)
    requires i <= |s|
    ensures FarthestFirst(Cat(AtLeast(cls, n), Boundary), s, i)
  {
    hide Ends;
    var run := AtLeast(cls, n);
    var starts := Ends(run, s, i);
    RunDescends(cls, n, s, i);
    forall m | m in starts ensures i <= m <= |s| && FarthestFirst(Boundary, s, m) {
      EngineIsLang(run, s, i, m);
      AssertionIsFarthest(s, m);
    }
    forall k, l, e: nat | 0 <= k < l < |starts|
      ensures Overtakes(Boundary, s, starts[k], starts[l], e)
    {
      if Lang(Boundary, s, starts[l], e) && StartsAt(Boundary, s, starts[k]) {
        var e': nat :| Lang(Boundary, s, starts[k], e');
        assert e <= e';
      }
    }
    CatIsFarthest(run, Boundary, s, i);
  }

  lemma AssertionIsFarthest(s: string, m: nat)
    requires m <= |s|
    ensures FarthestFirst(Boundary, s, m)
  {
  }

  /** A run that the rest cannot cut short: the rest begins with a character that the run cannot hold. */
  lemma RunThenIsFarthest(cls: CharClass, n: nat, rest: Re, s: string, i: nat)
    requires i <= |s| && forall m :: i <= m <= |s| ==> FarthestFirst(rest, s, m)
    requires forall m: nat, e: nat :: Lang(rest, s, m, e) ==> m < |s| && !In(s[m], cls)
    ensures FarthestFirst(Cat(AtLeast(cls, n), rest), s, i)
  {
    hide Ends;
    var m := RunEnd(cls, s, i);
    forall x: nat, e: nat | Lang(AtLeast(cls, n), s, i, x) && Lang(rest, s, x, e) ensures x == m { }
    OneWayIsFarthest(AtLeast(cls, n), rest, s, i, m);
  }

  /** A fixed part: it ends at one place. */
  lemma FixedThenIsFarthest(a: Re, rest: Re, s: string, i: nat, m: nat)
    requires i <= |s| && forall x: nat :: Lang(a, s, i, x) ==> x == m
    requires m <= |s| ==> FarthestFirst(rest, s, m)
    ensures FarthestFirst(Cat(a, rest), s, i)
  {
    hide Lang, Ends;
    if StartsAt(Cat(a, rest), s, i) {
      var e: nat :| Lang(Cat(a, rest), s, i, e);
      var x := Split(a, rest, s, i, e);
      LangWithin(a, s, i, x);
      OneWayIsFarthest(a, rest, s, i, m);
    } else {
      NothingIsFarthest(Cat(a, rest), s, i);
    }
  }

  lemma FixedParts(s: string, i: nat)
    ensures forall x: nat :: Lang(Boundary, s, i, x) ==> x == i
    ensures forall x: nat :: Lang(NotAfterWord, s, i, x) ==> x == i
    ensures forall cls, x: nat :: Lang(One(cls), s, i, x) ==> x == i + 1
    ensures forall text, ic, x: nat :: Lang(Lit(text, ic), s, i, x) ==> x == i + |text|
    ensures forall cls, n, x: nat :: Lang(Times(cls, n), s, i, x) ==> x == i + n
  {
  }

  // ---------------------------------------------------------------- keys and tokens

  lemma KeyIsFarthest(s: string, i: nat)
    requires i <= |s|
    ensures FarthestFirst(Pattern(OpenAiKey), s, i)
  {
    hide Lang, Ends, Chain, FarthestFirst;
    var p := OPENAI_KEY_PARTS;
    var tail := Cat(p[2], Boundary);
    KeyChain();
    FixedParts(s, i);
    FixedParts(s, i + 3);
    if i + 4 <= |s| { TailIsFarthest(WORD_OR_DASH, 7, s, i + 4); }
    if i + 3 <= |s| { FixedThenIsFarthest(p[1], tail, s, i + 3, i + 4); }
    FixedThenIsFarthest(p[0], Cat(p[1], tail), s, i, i + 3);
    FixedThenIsFarthest(Boundary, Cat(p[0], Cat(p[1], tail)), s, i, i);
  }

  lemma BearerIsFarthest(s: string, i: nat)
    requires i <= |s|
    ensures FarthestFirst(Pattern(Bearer), s, i)
  {
    hide Lang, Ends, Chain, FarthestFirst;
    var p := BEARER_PARTS;
    var tail := Cat(p[2], Boundary);
    BearerChain();
    FixedParts(s, i);
    forall m | i + 6 <= m <= |s| ensures FarthestFirst(tail, s, m) { TailIsFarthest(p[2].cls, 8, s, m); }
    forall m: nat, e: nat | Lang(tail, s, m, e) ensures m < |s| && !In(s[m], SPACES) {
      TailMeans(p[2].cls, 8, IsTokenChar, s, m, e);
    }
    if i + 6 <= |s| { RunThenIsFarthest(SPACES, 1, tail, s, i + 6); }
    FixedThenIsFarthest(p[0], Cat(p[1], tail), s, i, i + 6);
    FixedThenIsFarthest(Boundary, Cat(p[0], Cat(p[1], tail)), s, i, i);
  }

  /** A dot, and what follows. */
  lemma DotThenIsFarthest(rest: Re, s: string, i: nat)
    requires i <= |s| && forall m :: i <= m <= |s| ==> FarthestFirst(rest, s, m)
    ensures FarthestFirst(Cat(Lit(".", false), rest), s, i)
  {
    hide Lang, Ends, FarthestFirst;
    FixedParts(s, i);
    FixedThenIsFarthest(Lit(".", false), rest, s, i, i + 1);
  }

  lemma JwtIsFarthest(s: string, i: nat)
    requires i <= |s|
    ensures FarthestFirst(Pattern(Jwt), s, i)
  {
    hide Lang, Ends, Chain, FarthestFirst;
    var p := JWT_PARTS;
    var last := Cat(p[4], Boundary);
    var second := Cat(p[3], last);
    var middle := Cat(p[2], second);
    var first := Cat(p[1], middle);
    JwtChain();
    forall m | i <= m <= |s| ensures FarthestFirst(last, s, m) { TailIsFarthest(WORD_OR_DASH, 10, s, m); }
    forall m | i <= m <= |s| ensures FarthestFirst(second, s, m) { DotThenIsFarthest(last, s, m); }
    DotsAreOutside(last, s);
    forall m | i <= m <= |s| ensures FarthestFirst(middle, s, m) { RunThenIsFarthest(WORD_OR_DASH, 10, second, s, m); }
    forall m | i <= m <= |s| ensures FarthestFirst(first, s, m) { DotThenIsFarthest(middle, s, m); }
    DotsAreOutside(middle, s);
    RunThenIsFarthest(WORD_OR_DASH, 10, first, s, i);
    FixedParts(s, i);
    FixedThenIsFarthest(Boundary, Cat(p[0], first), s, i, i);
  }

  lemma DotsAreOutside(rest: Re, s: string)
    ensures forall m: nat, e: nat :: Lang(Cat(Lit(".", false), rest), s, m, e) ==> m < |s| && !In(s[m], WORD_OR_DASH)
  {
    hide Lang;
    forall m: nat, e: nat | Lang(Cat(Lit(".", false), rest), s, m, e) ensures m < |s| && !In(s[m], WORD_OR_DASH) {
      CharMeans('.', rest, s, m, e);
    }
  }

  // ---------------------------------------------------------------- emails

  /** The last dot that can be one wins: after it only letters follow, so no earlier dot leads farther. */
  lemma DomainIsFarthest(s: string, i: nat)
    requires i <= |s|
    ensures var p := EMAIL_PARTS; FarthestFirst(Cat(p[2], Cat(p[3], Cat(p[4], Boundary))), s, i)
  {
    hide Lang, Ends, FarthestFirst, WordEdge;
    var p := EMAIL_PARTS;
    var letters := Cat(p[4], Boundary);
    var dot := Cat(p[3], letters);
    var starts := Ends(p[2], s, i);
    RunDescends(p[2].cls, 1, s, i);
    forall m | i <= m <= |s| ensures FarthestFirst(letters, s, m) { TailIsFarthest(LETTERS, 2, s, m); }
    forall m | m in starts ensures i <= m <= |s| && FarthestFirst(dot, s, m) {
      EngineIsLang(p[2], s, i, m);
      LangWithin(p[2], s, i, m);
      DotThenIsFarthest(letters, s, m);
    }
    forall k, l, e: nat | 0 <= k < l < |starts|
      ensures Overtakes(dot, s, starts[k], starts[l], e)
    {
      if Lang(dot, s, starts[l], e) && StartsAt(dot, s, starts[k]) {
        var e': nat :| Lang(dot, s, starts[k], e');
        DottedMeans(s, starts[k], e');
        DottedMeans(s, starts[l], e);
        assert e <= e';
      }
    }
    CatIsFarthest(p[2], dot, s, i);
  }

  lemma DottedMeans(s: string, m: nat, e: nat)
    ensures Lang(Cat(Lit(".", false), Cat(AtLeast(LETTERS, 2), Boundary)), s, m, e) <==>
            m < |s| && s[m] == '.' && m + 3 <= e && All(s, m + 1, e, IsLetter) && WordEdge(s, e)
  {
    hide Lang, WordEdge;
    var letters := Cat(AtLeast(LETTERS, 2), Boundary);
    CharMeans('.', letters, s, m, e);
    TailMeans(LETTERS, 2, IsLetter, s, m + 1, e);
  }

  lemma EmailIsFarthest(s: string, i: nat)
    requires i <= |s|
    ensures FarthestFirst(Pattern(Email), s, i)
  {
    hide Lang, Ends, Chain, FarthestFirst;
    var p := EMAIL_PARTS;
    var domain := Cat(p[2], Cat(p[3], Cat(p[4], Boundary)));
    var sign := Cat(p[1], domain);
    EmailChain();
    forall m | i <= m <= |s| ensures FarthestFirst(sign, s, m) {
      FixedParts(s, m);
      if m + 1 <= |s| { DomainIsFarthest(s, m + 1); }
      FixedThenIsFarthest(p[1], domain, s, m, m + 1);
    }
    forall m: nat, e: nat | Lang(sign, s, m, e) ensures m < |s| && !In(s[m], p[0].cls) {
      CharMeans('@', domain, s, m, e);
    }
    RunThenIsFarthest(p[0].cls, 1, sign, s, i);
    FixedParts(s, i);
    FixedThenIsFarthest(Boundary, Cat(p[0], sign), s, i, i);
  }

  // ---------------------------------------------------------------- order numbers

  const STRETCH := Cat(AtLeast(ALNUM_OR_DASH, 0), Cat(One(DIGITS), Cat(AtLeast(ALNUM_OR_DASH, 0), Boundary)))

  lemma StretchIsFarthest(s: string, i: nat)
    requires i <= |s|
    ensures FarthestFirst(STRETCH, s, i)
  {
    hide Lang, Ends, FarthestFirst;
    var run := AtLeast(ALNUM_OR_DASH, 0);
    var tail := Cat(run, Boundary);
    var digit := Cat(One(DIGITS), tail);
    var starts := Ends(run, s, i);
    RunDescends(ALNUM_OR_DASH, 0, s, i);
    forall m | m in starts ensures i <= m <= |s| && FarthestFirst(digit, s, m) {
      EngineIsLang(run, s, i, m);
      LangWithin(run, s, i, m);
      FixedParts(s, m);
      if m + 1 <= |s| { TailIsFarthest(ALNUM_OR_DASH, 0, s, m + 1); }
      FixedThenIsFarthest(One(DIGITS), tail, s, m, m + 1);
    }
    forall k, l, e: nat | 0 <= k < l < |starts|
      ensures Overtakes(digit, s, starts[k], starts[l], e)
    {
      if Lang(digit, s, starts[l], e) && StartsAt(digit, s, starts[k]) {
        var e': nat :| Lang(digit, s, starts[k], e');
        DigitTailMeans(s, starts[k], e');
        DigitTailMeans(s, starts[l], e);
        if e > e' {
          DigitTailMeans(s, starts[k], e);
          assert Lang(digit, s, starts[k], e);
        }
      }
    }
    CatIsFarthest(run, digit, s, i);
  }

  lemma DigitTailMeans(s: string, m: nat, e: nat)
    ensures Lang(Cat(One(DIGITS), Cat(AtLeast(ALNUM_OR_DASH, 0), Boundary)), s, m, e) <==>
            m < |s| && IsDigit(s[m]) && All(s, m + 1, e, IsOrderChar) && WordEdge(s, e)
  {
    hide Lang, WordEdge;
    OneMeans(DIGITS, Cat(AtLeast(ALNUM_OR_DASH, 0), Boundary), s, m, e);
    TailMeans(ALNUM_OR_DASH, 0, IsOrderChar, s, m + 1, e);
  }

  /** The separator is taken if it can be; without it the stretch would lead no farther. */
  lemma OrderTailIsFarthest(s: string, a: nat)
    requires a <= |s|
    ensures FarthestFirst(Cat(ORDER_PARTS[1], STRETCH), s, a)
  {
    hide Lang, Ends, FarthestFirst;
    var sep := One(CharClass(false, false, false, "-_"));
    SeparatorEnds(s, a);
    var starts := Ends(Maybe(sep), s, a);
    forall m | m in starts ensures a <= m <= |s| && FarthestFirst(STRETCH, s, m) { StretchIsFarthest(s, m); }
    forall k, l, e: nat | 0 <= k < l < |starts|
      ensures Overtakes(STRETCH, s, starts[k], starts[l], e)
    {
      if Lang(STRETCH, s, starts[l], e) && StartsAt(STRETCH, s, starts[k]) {
        StretchMeans(s, a, e);
        StretchMeans(s, a + 1, e);
        var d: nat :| StretchWithDigit(s, a, d, e);
        assert StretchWithDigit(s, a + 1, d, e);
      }
    }
    CatIsFarthest(Maybe(sep), STRETCH, s, a);
  }

  lemma SeparatorEnds(s: string, a: nat)
    requires a <= |s|
    ensures var sep := CharClass(false, false, false, "-_");
            var ends := Ends(Maybe(One(sep)), s, a);
            if a < |s| && (s[a] == '-' || s[a] == '_') then ends == [a + 1, a] else ends == [a]
  {
  }

  /** `order` before `ord`: whatever the short word leads to, the long one does. */
  lemma OrderIsFarthest(s: string, i: nat)
    requires i <= |s|
    ensures FarthestFirst(Pattern(Order), s, i)
  {
    hide Lang, Ends, Chain, FarthestFirst;
    var p := ORDER_PARTS;
    var tail := Cat(p[1], STRETCH);
    OrderChain();
    var starts := Ends(p[0], s, i);
    OrderWordEnds(s, i);
    forall m | m in starts ensures i <= m <= |s| && FarthestFirst(tail, s, m) { OrderTailIsFarthest(s, m); }
    forall k, l, e: nat | 0 <= k < l < |starts|
      ensures Overtakes(tail, s, starts[k], starts[l], e)
    {
      if Lang(tail, s, starts[l], e) && StartsAt(tail, s, starts[k]) {
        OrderTailMeans(s, i + 3, e);
        OrderTailMeans(s, i + 5, e);
        ShortLeadsNoFarther(s, i, e);
      }
    }
    CatIsFarthest(p[0], tail, s, i);
    FixedParts(s, i);
    FixedThenIsFarthest(Boundary, Cat(p[0], tail), s, i, i);
  }

  lemma OrderWordEnds(s: string, i: nat)
    requires i <= |s|
    ensures var ends := Ends(ORDER_PARTS[0], s, i);
            && (forall m :: m in ends ==> i <= m <= |s|)
            && (|ends| > 1 ==> ends == [i + 5, i + 3] && WordAtIgnoringCase(s, i, "order"))
  {
    if |Ends(ORDER_PARTS[0], s, i)| > 1 {
      OrderWords();
      LiteralMeans("ORDER", "order", s, i, i + 5);
      EngineIsLang(Lit("ORDER", true), s, i, i + 5);
    }
  }

  lemma ShortLeadsNoFarther(s: string, i: nat, e: nat)
    requires WordAtIgnoringCase(s, i, "order") && OrderTail(s, i + 3, e)
    ensures OrderTail(s, i + 5, e)
  {
    assert LowerChar(s[i + 3]) == 'e' && LowerChar(s[i + 4]) == 'r';
    var b: nat, d: nat :| (b == i + 3 || (b == i + 4 && (s[i + 3] == '-' || s[i + 3] == '_'))) &&
                          StretchWithDigit(s, b, d, e);
    assert StretchWithDigit(s, i + 5, d, e);
  }

  // ---------------------------------------------------------------- phone numbers

  /** A run, then a fixed number of characters: a longer run leads farther. */
  lemma InternationalDescends(s: string, i: nat)
    requires i <= |s|
    ensures StrictlyDown(Ends(INTERNATIONAL, s, i))
  {
    hide Ends, Chain;
    var digit, run := One(DIGITS), AtLeast(CharClass(false, true, true, "().-"), 7);
    var tail := Cat(run, digit);
    InternationalChain();
    SingleEnds(s, i);
    if i + 2 <= |s| {
      RunDescends(run.cls, 7, s, i + 2);
      DigitEnds(s);
      AllDescend(digit, s, i + 2, Ends(run, s, i + 2));
      CatEnds(run, digit, s, i + 2);
    }
    if i + 1 <= |s| { SingleEnds(s, i + 1); }
    if i + 1 <= |s| { OneDescends(digit, tail, s, i + 1); }
    OneDescends(Lit("+", false), Cat(digit, tail), s, i);
  }

  lemma CatEnds(a: Re, b: Re, s: string, i: nat)
    requires i <= |s|
    ensures Ends(Cat(a, b), s, i) == EndsFromAll(b, s, i, Ends(a, s, i))
  {
  }

  lemma SingleEnds(s: string, i: nat)
    requires i <= |s|
    ensures forall cls :: var ends := Ends(One(cls), s, i); ends == [] || (ends == [i + 1] && i + 1 <= |s|)
    ensures var ends := Ends(Lit("+", false), s, i); ends == [] || (ends == [i + 1] && i + 1 <= |s|)
  {
  }

  lemma DigitEnds(s: string)
    ensures forall m: nat :: m <= |s| ==> Ends(One(DIGITS), s, m) == [m + 1] || Ends(One(DIGITS), s, m) == []
  {
  }

  /** Starts in descending order, and one end at a fixed distance from each, if any. */
  lemma {:induction false} AllDescend(b: Re, s: string, i: nat, starts: seq<nat>)
    requires AllWithin(starts, i, |s|) && StrictlyDown(starts)
    requires forall m: nat :: m <= |s| ==> Ends(b, s, m) == [m + 1] || Ends(b, s, m) == []
    ensures StrictlyDown(EndsFromAll(b, s, i, starts))
    ensures forall e :: e in EndsFromAll(b, s, i, starts) ==> starts != [] && e <= starts[0] + 1
  {
    hide Ends;
    if starts != [] {
      var head, rest := Ends(b, s, starts[0]), EndsFromAll(b, s, i, starts[1..]);
      AllDescend(b, s, i, starts[1..]);
      assert EndsFromAll(b, s, i, starts) == head + rest;
      forall k | 0 <= k < |rest| ensures rest[k] < starts[0] + 1 {
        assert rest[k] in rest;
        assert starts[1..][0] == starts[1];
      }
    }
  }

  /** A part with one end at most. */
  lemma OneDescends(a: Re, rest: Re, s: string, i: nat)
    requires i <= |s| && |Ends(a, s, i)| <= 1
    requires Ends(a, s, i) != [] ==> Ends(a, s, i)[0] <= |s| && StrictlyDown(Ends(rest, s, Ends(a, s, i)[0]))
    ensures StrictlyDown(Ends(Cat(a, rest), s, i))
  {
    hide Ends;
    CatEnds(a, rest, s, i);
    var starts := Ends(a, s, i);
    if starts != [] {
      assert starts == [starts[0]] && EndsFromAll(rest, s, i, starts[1..]) == [];
      assert EndsFromAll(rest, s, i, starts) == Ends(rest, s, starts[0]) + [];
    } else {
      assert EndsFromAll(rest, s, i, starts) == [];
    }
  }

  /** A national number can end at one place only. */
  lemma NationalEndsOnce(s: string, i: nat, x: nat, y: nat)
    requires IsNational(s, i, x) && IsNational(s, i, y)
    ensures x == y
  {
    var a: nat, b: nat :| NationalLayout(s, i, a, b, x);
    var c: nat, d: nat :| NationalLayout(s, i, c, d, y);
    assert a == c && b == d;
  }

  /** The two kinds of numbers begin differently. */
  lemma KindsDiffer(s: string, i: nat, x: nat, y: nat)
    ensures !(IsInternational(s, i, x) && IsNational(s, i, y))
  {
  }

  predicate NeverRising(ends: seq<nat>) { forall k, l :: 0 <= k < l < |ends| ==> ends[k] >= ends[l] }

  /** Ends that never rise, of which an assertion lets some through. */
  lemma AssertedIsFarthest(a: Re, s: string, i: nat)
    requires i <= |s|
    requires NeverRising(Ends(a, s, i))
    ensures FarthestFirst(Cat(a, NotBeforeWord), s, i)
  {
    hide Ends;
    var starts := Ends(a, s, i);
    forall m | m in starts ensures i <= m <= |s| && FarthestFirst(NotBeforeWord, s, m) {
      EngineIsLang(a, s, i, m);
      LangWithin(a, s, i, m);
      LookaheadIsFarthest(s, m);
    }
    forall k, l, e: nat | 0 <= k < l < |starts|
      ensures Overtakes(NotBeforeWord, s, starts[k], starts[l], e)
    {
      if Lang(NotBeforeWord, s, starts[l], e) && StartsAt(NotBeforeWord, s, starts[k]) {
        var e': nat :| Lang(NotBeforeWord, s, starts[k], e');
        assert e <= e';
      }
    }
    CatIsFarthest(a, NotBeforeWord, s, i);
  }

  lemma LookaheadIsFarthest(s: string, m: nat)
    requires m <= |s|
    ensures FarthestFirst(NotBeforeWord, s, m)
  {
  }

  lemma NumberEndsFall(s: string, i: nat)
    requires i <= |s|
    ensures NeverRising(Ends(PHONE_NUMBER, s, i))
  {
    hide INTERNATIONAL, NATIONAL, IsNational, IsInternational, Ends;
    var signed, other := Ends(INTERNATIONAL, s, i), Ends(NATIONAL, s, i);
    EndsOfEither(INTERNATIONAL, NATIONAL, s, i);
    InternationalDescends(s, i);
    forall x: nat | x in signed ensures IsInternational(s, i, x) {
      EngineIsLang(INTERNATIONAL, s, i, x);
      InternationalMeans(s, i, x);
    }
    forall x: nat | x in other ensures IsNational(s, i, x) {
      EngineIsLang(NATIONAL, s, i, x);
      NationalMeans(s, i, x);
    }
    if signed != [] && other != [] {
      assert signed[0] in signed && other[0] in other;
      KindsDiffer(s, i, signed[0], other[0]);
    }
    forall k, l | 0 <= k < l < |other| ensures other[k] == other[l] {
      assert other[k] in other && other[l] in other;
      NationalEndsOnce(s, i, other[k], other[l]);
    }
  }

  lemma EndsOfEither(a: Re, b: Re, s: string, i: nat)
    requires i <= |s|
    ensures Ends(Either(a, b), s, i) == Ends(a, s, i) + Ends(b, s, i)
  {
  }

  lemma PhoneIsFarthest(s: string, i: nat)
    requires i <= |s|
    ensures FarthestFirst(PHONE_RE, s, i)
  {
    hide Lang, Ends, INTERNATIONAL, NATIONAL, FarthestFirst;
    NumberEndsFall(s, i);
    AssertedIsFarthest(PHONE_NUMBER, s, i);
    FixedParts(s, i);
    FixedThenIsFarthest(NotAfterWord, Cat(PHONE_NUMBER, NotBeforeWord), s, i, i);
  }

  // ---------------------------------------------------------------- what a search finds

  lemma PatternIsFarthest(p: Pass, s: string, i: nat)
    requires i <= |s|
    ensures FarthestFirst(Pattern(p), s, i)
  {
    hide Lang, Ends, FarthestFirst, Bounded;
    match p
    case Email => EmailIsFarthest(s, i);
    case Phone => PhoneIsFarthest(s, i);
    case Order => OrderIsFarthest(s, i);
    case OpenAiKey => KeyIsFarthest(s, i);
    case Bearer => BearerIsFarthest(s, i);
    case Jwt => JwtIsFarthest(s, i);
  }

  lemma {:induction false} SearchTakesFirst(re: Re, s: string, from: nat)
    requires from <= |s|
    ensures var f := Search(re, s, from); f.At? ==> Ends(re, s, f.start) != [] && f.end == Ends(re, s, f.start)[0]
    decreases |s| - from
  {
    hide Ends;
    if Ends(re, s, from) == [] && from < |s| { SearchTakesFirst(re, s, from + 1); }
  }

  /** A search of the redactor finds the leftmost item, and of those that start there the longest. */
  lemma SearchIsLeftmostLongest(p: Pass, s: string, from: nat)
    requires from <= |s|
    ensures var f := Search(Pattern(p), s, from);
            if f.At? then
              && from <= f.start < f.end <= |s| && IsItem(p, s, f.start, f.end)
              && (forall i: nat, j: nat :: from <= i < f.start ==> !IsItem(p, s, i, j))
              && (forall j: nat :: IsItem(p, s, f.start, j) ==> j <= f.end)
            else forall i: nat, j: nat :: from <= i ==> !IsItem(p, s, i, j)
  {
    hide Lang, Ends, Pattern, IsItem, Search;
    var f := Search(Pattern(p), s, from);
    SearchIsLeftmost(Pattern(p), s, from);
    forall i: nat, j: nat ensures Lang(Pattern(p), s, i, j) <==> IsItem(p, s, i, j) { ItemIsMatch(p, s, i, j); }
    forall i: nat, j: nat | from <= i && (f.At? ==> i < f.start) ensures !IsItem(p, s, i, j) {
      assert !StartsAt(Pattern(p), s, i);
    }
    if f.At? {
      SearchTakesFirst(Pattern(p), s, from);
      PatternIsFarthest(p, s, f.start);
      forall j: nat | IsItem(p, s, f.start, j) ensures j <= f.end { EngineIsLang(Pattern(p), s, f.start, j); }
      ItemsAreLong(p, s, f.start, f.end);
    }
  }

  lemma ItemsAreLong(p: Pass, s: string, i: nat, j: nat)
    requires IsItem(p, s, i, j)
    ensures i < j
  {
  }

  // ---------------------------------------------------------------- what a pass does

  /** The items that are taken: each the leftmost after the one before it, and the longest there. */
  ghost predicate Taken(p: Pass, s: string, from: nat, spans: seq<Span>)
    decreases spans
  {
    if spans == [] then forall i: nat, j: nat :: from <= i ==> !IsItem(p, s, i, j)
    else
      var x := spans[0];
      && from <= x.start < x.end <= |s| && IsItem(p, s, x.start, x.end)
      && (forall i: nat, j: nat :: from <= i < x.start ==> !IsItem(p, s, i, j))
      && (forall j: nat :: IsItem(p, s, x.start, j) ==> j <= x.end)
      && Taken(p, s, x.end, spans[1..])
  }

  /** `s` from `from` on, with `mark` in place of each span. */
  function Marked(s: string, from: nat, spans: seq<Span>, mark: string): string
    requires from <= |s|
    decreases |spans|
  {
    if spans == [] then s[from..]
    else
      var x := spans[0];
      if from <= x.start <= x.end <= |s|
      then s[from..x.start] + mark + Marked(s, x.end, spans[1..], mark)
      else s[from..]
  }

  /** There is one way to take items. */
  lemma {:induction false} TakenOnce(p: Pass, s: string, from: nat, xs: seq<Span>, ys: seq<Span>)
    requires Taken(p, s, from, xs) && Taken(p, s, from, ys)
    ensures xs == ys
    decreases |xs|
  {
    hide IsItem;
    if xs != [] && ys != [] {
      var x, y := xs[0], ys[0];
      assert x.start == y.start && x.end == y.end;
      TakenOnce(p, s, x.end, xs[1..], ys[1..]);
      assert xs == [x] + xs[1..] && ys == [y] + ys[1..];
    }
  }

  lemma {:induction false} PassTakes(p: Pass, s: string, from: nat)
    requires from <= |s|
    ensures Taken(p, s, from, MatchesFrom(Pattern(p), s, from))
    ensures SubFrom(Pattern(p), Placeholder(p), s, from) ==
            Marked(s, from, MatchesFrom(Pattern(p), s, from), Placeholder(p))
    decreases |s| - from
  {
    hide IsItem, Pattern, Search, Placeholder;
    SearchIsLeftmostLongest(p, s, from);
    var f := Search(Pattern(p), s, from);
    if f.At? {
      PassTakes(p, s, f.end);
      var rest := MatchesFrom(Pattern(p), s, f.end);
      assert MatchesFrom(Pattern(p), s, from) == [Span(f.start, f.end)] + rest;
      assert ([Span(f.start, f.end)] + rest)[1..] == rest;
    }
  }
}
