/**
 * Redaction can leave a phone number.  The phone pattern asks that no word character comes before the
 * number; a replacement can take that character away when the phone pass has already gone by.
 *
 * The exact condition is `PhoneLeftIff`: the input has a phone number glued to a word, which no pass
 * touches, and right before which a match of the phone pass or of a later pass ends.  What a caller can
 * look for beforehand is `RunsOnto`: a sensitive item that runs straight on into a phone number.
 */
module PhoneResidue {
  import opened Text
  import opened Regex
  import opened Patterns
  import opened Redaction

  // ---------------------------------------------------------------- phone numbers, exposed or not

  /** A phone number that no word character follows. */
  ghost predicate PhoneWindow(s: string, i: nat, j: nat) { Lang(PHONE_NUMBER, s, i, j) && !WordAt(s, j) }

  lemma PhoneMatch(s: string, i: nat, j: nat)
    ensures Lang(PHONE_RE, s, i, j) <==> PhoneWindow(s, i, j) && !WordBefore(s, i)
  {
    hide Chain, Lang;
    var inner := Cat(PHONE_NUMBER, NotBeforeWord);
    assert PHONE_RE == Cat(NotAfterWord, inner);
    if Lang(PHONE_RE, s, i, j) {
      var m := Split(NotAfterWord, inner, s, i, j);
      var n := Split(PHONE_NUMBER, NotBeforeWord, s, m, j);
      AssertionsMeet(s, i, m);
      AssertionsMeet(s, n, j);
    }
    if PhoneWindow(s, i, j) && !WordBefore(s, i) {
      AssertionsMeet(s, i, i);
      AssertionsMeet(s, j, j);
      LangWithin(PHONE_NUMBER, s, i, j);
      Concatenate(PHONE_NUMBER, NotBeforeWord, s, i, j, j);
      Concatenate(NotAfterWord, inner, s, i, i, j);
    }
  }

  lemma AssertionsMeet(s: string, i: nat, j: nat)
    ensures Lang(NotAfterWord, s, i, j) <==> i == j <= |s| && !WordBefore(s, i)
    ensures Lang(NotBeforeWord, s, i, j) <==> i == j <= |s| && !WordAt(s, i)
  {
  }

  lemma {:induction false} ChainEnds(parts: seq<Re>, last: Re, s: string, i: nat, j: nat) returns (m: nat)
    requires Lang(Chain(parts, last), s, i, j)
    ensures i <= m <= j && Lang(last, s, m, j)
  {
    if parts == [] {
      m := i;
    } else {
      m := Split(parts[0], Chain(parts[1..], last), s, i, j);
      m := ChainEnds(parts[1..], last, s, m, j);
    }
  }

  lemma PhoneEndsInDigit(s: string, i: nat, j: nat)
    requires Lang(PHONE_NUMBER, s, i, j)
    ensures i < j <= |s| && IsDigit(s[j - 1])
  {
    hide Chain;
    if Lang(INTERNATIONAL, s, i, j) {
      var m := ChainEnds(INTERNATIONAL_PHONE_PARTS, One(DIGITS), s, i, j);
    } else {
      var m := ChainEnds(NATIONAL_PHONE_PARTS, Times(DIGITS, 4), s, i, j);
      assert In(s[j - 1], DIGITS);
    }
  }

  lemma {:induction false} ChainBare(parts: seq<Re>, last: Re)
    requires Bare(last) && forall r :: r in parts ==> Bare(r)
    ensures Bare(Chain(parts, last))
  {
    if parts != [] {
      assert Bare(parts[0]);
      ChainBare(parts[1..], last);
    }
  }

  lemma PhonePartsBare()
    ensures forall r :: r in INTERNATIONAL_PHONE_PARTS ==> Bare(r)
    ensures forall r :: r in NATIONAL_PHONE_PARTS ==> Bare(r)
  {
  }

  lemma PhoneNumberShape()
    ensures Bare(PHONE_NUMBER) && Plain(PHONE_NUMBER)
  {
    hide Chain, Plain, Bare;
    PhonePartsBare();
    PhonePartsPlain();
    ChainBare(INTERNATIONAL_PHONE_PARTS, One(DIGITS)) by { assert Bare(One(DIGITS)) by { SimpleIsBare(); } }
    ChainBare(NATIONAL_PHONE_PARTS, Times(DIGITS, 4)) by { assert Bare(Times(DIGITS, 4)) by { SimpleIsBare(); } }
    ChainPlain(INTERNATIONAL_PHONE_PARTS, One(DIGITS));
    ChainPlain(NATIONAL_PHONE_PARTS, Times(DIGITS, 4));
    EitherShape(INTERNATIONAL, NATIONAL);
  }

  lemma SimpleIsBare()
    ensures Bare(One(DIGITS)) && Bare(Times(DIGITS, 4))
  {
  }

  lemma EitherShape(a: Re, b: Re)
    requires Bare(a) && Bare(b) && Plain(a) && Plain(b)
    ensures Bare(Either(a, b)) && Plain(Either(a, b))
  {
  }

  // ---------------------------------------------------------------- one pass

  /** What pass `p` replaces in `s`. */
  function Replaced(p: Pass, s: string): seq<Span> { Matches(Pattern(p), s) }

  /** Where the offset `i` of `s` is after pass `p`. */
  function Moved(p: Pass, s: string, i: nat): nat {
    var x := i + Shift(Replaced(p, s), |Placeholder(p)|, i);
    if x < 0 then 0 else x
  }

  /** `Kept`, for a whole pass. */
  lemma PassKeeps(p: Pass, s: string, i: nat, n: nat)
    requires n > 0 && i + n <= |s| && Untouched(Replaced(p, s), i, i + n)
    ensures CopiedTo(s, i, n, Apply(p, s), Shift(Replaced(p, s), |Placeholder(p)|, i), EndsMatch(Replaced(p, s), i))
  {
    hide Lang, Pattern, Placeholder, Fenced, MinLength, Avoids, Bracketed, Untouched, EndsMatch, MatchesFrom, Shift,
         SubFrom, CopiedTo;
    PassShape(p);
    assert Apply(p, s) == "" + Apply(p, s);
    Kept(Pattern(p), Placeholder(p), s, 0, "", Apply(p, s), i, n);
  }

  /** `Locate`, for a whole pass and a window that ends in a digit. */
  lemma PassLocates(p: Pass, s: string, x: nat, n: nat) returns (d: int)
    requires n > 0 && BracketFree(Apply(p, s), x, n) && IsDigit(Apply(p, s)[x + n - 1])
    ensures 0 <= x + d && CopiedFrom(Apply(p, s), x, n, s, d) && Untouched(Replaced(p, s), x + d, x + d + n)
    ensures d == -Shift(Replaced(p, s), |Placeholder(p)|, x + d)
  {
    hide Lang, Pattern, Placeholder, Fenced, MinLength, Avoids, Bracketed, Untouched, EndsMatch, MatchesFrom, Shift,
         SubFrom, StartsAt, CopiedFrom;
    var w := Apply(p, s);
    PassShape(p);
    assert w == "" + w;
    var copied;
    copied, d := Locate(Pattern(p), Placeholder(p), s, 0, "", w, x, n);
    if !copied { DigitIsNoPlaceholder(p, w[x + n - 1]); }
  }

  /** A phone number that a pass does not touch is there afterwards, exposed if a match ends right before it. */
  lemma PassKeepsPhone(p: Pass, s: string, i: nat, j: nat)
    requires PhoneWindow(s, i, j) && Untouched(Replaced(p, s), i, j)
    ensures var w, x := Apply(p, s), Moved(p, s, i);
            && PhoneWindow(w, x, x + (j - i)) && (WordAt(w, x) <==> WordAt(s, i))
            && (WordBefore(w, x) <==> WordBefore(s, i) && !EndsMatch(Replaced(p, s), i))
  {
    hide Lang, Pattern, Placeholder, PHONE_NUMBER, Fenced, MinLength, Avoids, Bracketed, Untouched, EndsMatch,
         MatchesFrom, Shift, SubFrom, Bare, OnlyBoundaries, Apply;
    var w, n := Apply(p, s), j - i;
    PhoneEndsInDigit(s, i, j);
    PassKeeps(p, s, i, n);
    var d := Shift(Replaced(p, s), |Placeholder(p)|, i);
    PhoneNumberShape();
    Transfer(PHONE_NUMBER, s, i, n, w, d, i, j);
  }

  /** A bracket-free window of a pass's output that ends in a digit was in its input, untouched. */
  lemma PassTracesWindow(p: Pass, s: string, x: nat, n: nat) returns (d: int)
    requires n > 0 && BracketFree(Apply(p, s), x, n) && IsDigit(Apply(p, s)[x + n - 1])
    ensures 0 <= x + d && CopiedFrom(Apply(p, s), x, n, s, d) && Untouched(Replaced(p, s), x + d, x + d + n)
    ensures d == -Shift(Replaced(p, s), |Placeholder(p)|, x + d)
    ensures WordAt(Apply(p, s), x + n) <==> WordAt(s, x + d + n)
  {
    hide Lang, Pattern, Placeholder, Untouched, EndsMatch, MatchesFrom, Shift, SubFrom, StartsAt, CopiedFrom, Apply,
         Matches;
    d := PassLocates(p, s, x, n);
    CopiedSpan(Apply(p, s), x, n, s, d);
    PassKeeps(p, s, x + d, n);
  }

  lemma CopiedSpan(w: string, i: nat, n: nat, s: string, d: int)
    requires CopiedFrom(w, i, n, s, d) && n > 0
    ensures SameWindow(w, i, n, s, d) && i + d + n <= |s| && s[i + d + n - 1] == w[i + n - 1]
  {
    assert w[i + n - 1] == s[i + n - 1 + d];
  }

  /** A phone number in the output of a pass was in its input, where the pass did not touch it. */
  lemma PassTracesPhone(p: Pass, s: string, x: nat, y: nat) returns (i: nat, j: nat)
    requires PhoneWindow(Apply(p, s), x, y)
    ensures PhoneWindow(s, i, j) && Untouched(Replaced(p, s), i, j)
    ensures Moved(p, s, i) == x && y - x == j - i
  {
    hide Lang, Pattern, Placeholder, PHONE_NUMBER, Apply, Avoids, Untouched, MatchesFrom, Shift, Bare,
         OnlyBoundaries, CopiedFrom, WordAt;
    PhoneEndsInDigit(Apply(p, s), x, y);
    PhoneNumberShape();
    MatchIsBracketFree(PHONE_NUMBER, Apply(p, s), x, y);
    var d := PassTracesWindow(p, s, x, y - x);
    i, j := x + d, y + d;
    CopiedSpan(Apply(p, s), x, y - x, s, d);
    Transfer(PHONE_NUMBER, Apply(p, s), x, y - x, s, d, x, y);
  }

  lemma DigitIsNoPlaceholder(p: Pass, c: char)
    requires IsDigit(c)
    ensures c !in Placeholder(p)
  {
    PlaceholderShape(p);
  }

  // ---------------------------------------------------------------- all passes

  /** Passes `n` and later. */
  function RedactFrom(n: nat, s: string): string
    requires n <= |PASSES|
    decreases |PASSES| - n
  {
    if n == |PASSES| then s else RedactFrom(n + 1, Apply(PASSES[n], s))
  }

  lemma RedactFromStart(s: string)
    ensures RedactFrom(0, s) == RedactText(s)
  {
    hide Apply;
    var a, b := Apply(Email, s), Apply(Phone, Apply(Email, s));
    assert RedactFrom(0, s) == RedactFrom(1, a) == RedactFrom(2, b);
    var c, d := Apply(Order, b), Apply(OpenAiKey, Apply(Order, b));
    assert RedactFrom(2, b) == RedactFrom(3, c) == RedactFrom(4, d);
    assert RedactFrom(4, d) == RedactFrom(5, Apply(Bearer, d)) == RedactFrom(6, Apply(Jwt, Apply(Bearer, d)));
  }

  /** None of the passes from `n` on touches the window from `i`, `len` long, of `s`, wherever it goes. */
  predicate Spared(n: nat, s: string, i: nat, len: nat)
    requires n <= |PASSES|
    decreases |PASSES| - n
  {
    n < |PASSES| ==>
      var p := PASSES[n];
      Untouched(Replaced(p, s), i, i + len) && Spared(n + 1, Apply(p, s), Moved(p, s, i), len)
  }

  /** One of the passes from `n` on ends a match right before what stands at `i` in `s`. */
  predicate Freed(n: nat, s: string, i: nat)
    requires n <= |PASSES|
    decreases |PASSES| - n
  {
    n < |PASSES| &&
    var p := PASSES[n];
    EndsMatch(Replaced(p, s), i) || Freed(n + 1, Apply(p, s), Moved(p, s, i))
  }

  ghost predicate Shows(s: string) { exists i, j :: Lang(PHONE_RE, s, i, j) }

  /** The phone number `s[i..j]` comes through the passes from `n` on, and is exposed in the end. */
  ghost predicate ComesThrough(n: nat, s: string, i: nat, j: nat)
    requires n <= |PASSES|
  {
    PhoneWindow(s, i, j) && i <= j && Spared(n, s, i, j - i) && (WordBefore(s, i) ==> Freed(n, s, i))
  }

  lemma {:induction false} ShowsIffComesThrough(n: nat, s: string)
    requires n <= |PASSES|
    ensures Shows(RedactFrom(n, s)) <==> exists i, j :: ComesThrough(n, s, i, j)
    decreases |PASSES| - n
  {
    hide PhoneWindow, PHONE_RE, Apply, Moved, Replaced, Untouched, EndsMatch, WordBefore;
    if n == |PASSES| {
      forall i: nat, j: nat ensures Lang(PHONE_RE, s, i, j) <==> ComesThrough(n, s, i, j) {
        PhoneMatch(s, i, j);
        if PhoneWindow(s, i, j) { WindowIsOrdered(s, i, j); }
      }
    } else {
      var p := PASSES[n];
      var w := Apply(p, s);
      var next := n + 1;
      ShowsIffComesThrough(next, w);
      if x: nat, y: nat :| ComesThrough(next, w, x, y) {
        var i, j := PassTracesPhone(p, s, x, y);
        PassKeepsPhone(p, s, i, j);
        assert ComesThrough(n, s, i, j);
      }
      if i: nat, j: nat :| ComesThrough(n, s, i, j) {
        PassKeepsPhone(p, s, i, j);
        assert ComesThrough(next, w, Moved(p, s, i), Moved(p, s, i) + (j - i));
      }
    }
  }

  lemma WindowIsOrdered(s: string, i: nat, j: nat)
    requires PhoneWindow(s, i, j)
    ensures i < j <= |s|
  {
    PhoneEndsInDigit(s, i, j);
  }

  /** A phone number right after a word character that is not itself followed by one. */
  ghost predicate GluedAt(s: string, i: nat, j: nat) {
    PhoneWindow(s, i, j) && WordBefore(s, i) && !WordAt(s, i)
  }

  /**
   * The phone number `text[i..j]` is left by redaction: it is glued to a word, no pass touches it, and
   * the phone pass or a later one replaces what ends right before it.
   */
  ghost predicate LeftOver(text: string, i: nat, j: nat) {
    && GluedAt(text, i, j) && i <= j && Spared(0, text, i, j - i)
    && Freed(1, Apply(Email, text), Moved(Email, text, i))
  }

  // ---------------------------------------------------------------- when a phone number is left

  /** What a pass replaces matches its pattern and cuts no word in two. */
  lemma {:induction false} ReplacedMatch(re: Re, s: string, from: nat, k: nat)
    requires from <= |s| && Fenced(re) && MinLength(re) > 0 && k < |MatchesFrom(re, s, from)|
    ensures var m := MatchesFrom(re, s, from)[k];
            Lang(re, s, m.start, m.end) && m.start < m.end && !CutsWord(s, m.end)
    decreases |s| - from
  {
    hide Lang, Fenced, MinLength, Search, Ends, CutsWord, SubFrom, StartsAt;
    SubStep(re, "", s, from);
    SearchIsLeftmost(re, s, from);
    if k > 0 { ReplacedMatch(re, s, Search(re, s, from).end, k - 1); }
  }

  /** A pass leaves nothing untouched that its pattern matches from its start. */
  lemma {:induction false} UntouchedStartsNothing(re: Re, s: string, from: nat, i: nat, n: nat)
    requires from <= i && n > 0 && i + n <= |s| && Fenced(re) && MinLength(re) > 0
    requires Untouched(MatchesFrom(re, s, from), i, i + n)
    ensures !StartsAt(re, s, i)
    decreases |s| - from
  {
    hide Lang, Fenced, MinLength, Search, Ends, CutsWord, SubFrom, StartsAt, MatchesFrom, Untouched, EndsMatch,
         Shift;
    SubStep(re, "", s, from);
    MatchesStep(re, s, from, i, n);
    var f := Search(re, s, from);
    if f.At? && f.start < i + n { UntouchedStartsNothing(re, s, f.end, i, n); }
  }

  lemma ExposedIsTouched(s: string, i: nat, j: nat)
    requires PhoneWindow(s, i, j) && Untouched(Replaced(Phone, s), i, j)
    ensures WordBefore(s, i)
  {
    hide PhoneWindow, PHONE_RE, Untouched, MatchesFrom, Fenced, MinLength, Avoids, WordBefore;
    WindowIsOrdered(s, i, j);
    PhoneMatch(s, i, j);
    PassShape(Phone);
    UntouchedStartsNothing(PHONE_RE, s, 0, i, j - i);
  }

  /** A match that ends right before a phone number glued to a word, and so runs on into it. */
  lemma EndedByMatch(p: Pass, s: string, i: nat) returns (b: nat)
    requires EndsMatch(Replaced(p, s), i)
    ensures b < i && Lang(Pattern(p), s, b, i) && !CutsWord(s, i)
  {
    hide Pattern, Fenced, MinLength, MatchesFrom, Lang, CutsWord;
    PassShape(p);
    var k :| 0 <= k < |Replaced(p, s)| && Replaced(p, s)[k].end == i;
    ReplacedMatch(Pattern(p), s, 0, k);
    b := Replaced(p, s)[k].start;
  }

  lemma {:induction false} FreedStartsNoWord(n: nat, s: string, i: nat, j: nat)
    requires n <= |PASSES| && PhoneWindow(s, i, j) && i <= j && Spared(n, s, i, j - i)
    requires Freed(n, s, i) && WordBefore(s, i)
    ensures !WordAt(s, i)
    decreases |PASSES| - n
  {
    hide PhoneWindow, Apply, Moved, Replaced, Untouched, EndsMatch, WordBefore, WordAt, Pattern, Lang;
    var p := PASSES[n];
    if EndsMatch(Replaced(p, s), i) {
      var b := EndedByMatch(p, s, i);
    } else {
      PassKeepsPhone(p, s, i, j);
      FreedStartsNoWord(n + 1, Apply(p, s), Moved(p, s, i), Moved(p, s, i) + (j - i));
    }
  }

  lemma ComesThroughIffLeftOver(text: string, i: nat, j: nat)
    ensures ComesThrough(0, text, i, j) <==> LeftOver(text, i, j)
  {
    hide PhoneWindow, Apply, Moved, Replaced, Untouched, EndsMatch, WordBefore, WordAt;
    if ComesThrough(0, text, i, j) {
      var a, x := Apply(Email, text), Moved(Email, text, i);
      PassKeepsPhone(Email, text, i, j);
      assert Spared(1, a, x, j - i);
      ExposedIsTouched(a, x, x + (j - i));
      FreedStartsNoWord(0, text, i, j);
    }
  }

  /**
   * Redaction leaves a phone number exactly when the text has one that is glued to a word, that no pass
   * touches, and right before which a match of the phone pass or of a later one ends.
   */
  lemma PhoneLeftIff(text: string)
    ensures NoMatchOf(Phone, RedactText(text)) <==> forall i, j :: !LeftOver(text, i, j)
  {
    hide RedactText, RedactFrom, PHONE_RE, LeftOver, ComesThrough, NoMatchOf, Lang;
    NoMatchMeans(Phone, RedactText(text));
    RedactFromStart(text);
    ShowsIffComesThrough(0, text);
    forall i: nat, j: nat ensures ComesThrough(0, text, i, j) <==> LeftOver(text, i, j) {
      ComesThroughIffLeftOver(text, i, j);
    }
    assert Shows(RedactText(text)) <==> !NoMatchOf(Phone, RedactText(text));
  }

  /** So that is exactly when redacting twice differs from redacting once. */
  lemma StableIff(text: string)
    ensures RedactText(RedactText(text)) == RedactText(text) <==> forall i, j :: !LeftOver(text, i, j)
  {
    hide RedactText, LeftOver, NoMatchOf;
    SecondRedaction(text);
    PhoneLeftIff(text);
  }

  // ---------------------------------------------------------------- what a caller can look for

  /** What pass `p` looks for, the assertions around a phone number apart. */
  function Item(p: Pass): Re { if p == Phone then PHONE_NUMBER else Pattern(p) }

  /** A phone number, an order number, a key or a token that runs straight on into a phone number. */
  ghost predicate RunsOnto(s: string, b: nat, i: nat, j: nat) {
    GluedAt(s, i, j) && exists p: Pass :: p != Email && Lang(Item(p), s, b, i)
  }

  lemma ItemShape(p: Pass)
    ensures Plain(Item(p))
  {
    hide Pattern, PHONE_NUMBER, Plain;
    if p == Phone { PhoneNumberShape(); } else { PatternIsPlain(p); }
  }

  lemma PatternIsPlain(p: Pass)
    requires p != Phone
    ensures Plain(Pattern(p))
  {
    hide Pattern, Plain;
    PatternShape(p);
  }

  lemma ItemIsLong(p: Pass, s: string, b: nat, i: nat)
    requires Lang(Item(p), s, b, i)
    ensures b < i <= |s|
  {
    hide Pattern, Lang, PHONE_NUMBER, MinLength;
    LangWithin(Item(p), s, b, i);
    if p == Phone {
      PhoneEndsInDigit(s, b, i);
    } else {
      PatternShape(p);
      MatchIsLong(Pattern(p), s, b, i);
    }
  }

  lemma ReplacedItem(p: Pass, s: string, i: nat) returns (b: nat)
    requires EndsMatch(Replaced(p, s), i)
    ensures Lang(Item(p), s, b, i) && !CutsWord(s, i)
  {
    hide PHONE_RE, Lang, PHONE_NUMBER, CutsWord, EndsMatch;
    b := EndedByMatch(p, s, i);
    if p == Phone { PhoneMatch(s, b, i); }
  }

  /** No pass makes something run onto a phone number that did not before. */
  lemma PassCreatesNoRunOn(q: Pass, s: string, b: nat, x: nat, y: nat) returns (b': nat, i: nat, j: nat)
    requires RunsOnto(Apply(q, s), b, x, y)
    ensures RunsOnto(s, b', i, j)
  {
    hide Lang, Pattern, Placeholder, PHONE_NUMBER, Apply, Avoids, Untouched, Item, MatchesFrom, Shift, Bare,
         OnlyBoundaries, CopiedFrom, SameWindow;
    var w := Apply(q, s);
    var p: Pass :| p != Email && Lang(Item(p), w, b, x);
    ItemShape(p);
    ItemIsLong(p, w, b, x);
    PhoneEndsInDigit(w, x, y);
    PhoneNumberShape();
    MatchIsBracketFree(Item(p), w, b, x);
    MatchIsBracketFree(PHONE_NUMBER, w, x, y);
    var d := PassTracesWindow(q, s, b, y - b);
    b', i, j := b + d, x + d, y + d;
    CopiedSpan(w, b, y - b, s, d);
    CopiedInside(w, b, y - b, s, d, x);
    Transfer(Item(p), w, b, y - b, s, d, b, x);
    Transfer(PHONE_NUMBER, w, b, y - b, s, d, x, y);
    assert Lang(Item(p), s, b', i);
  }

  lemma CopiedInside(w: string, i: nat, n: nat, s: string, d: int, x: nat)
    requires SameWindow(w, i, n, s, d) && i < x < i + n
    ensures WordBefore(s, x + d) == WordBefore(w, x) && WordAt(s, x + d) == WordAt(w, x)
  {
    assert w[x - 1] == s[x - 1 + d] && w[x] == s[x + d];
  }

  lemma {:induction false} FreedRunsOn(n: nat, s: string, i: nat, j: nat) returns (b: nat, x: nat, y: nat)
    requires 1 <= n <= |PASSES| && PhoneWindow(s, i, j) && i <= j && Spared(n, s, i, j - i)
    requires Freed(n, s, i) && WordBefore(s, i)
    ensures RunsOnto(s, b, x, y)
    decreases |PASSES| - n
  {
    hide PhoneWindow, Apply, Moved, Replaced, Untouched, EndsMatch, WordBefore, WordAt, Lang, Item;
    var p := PASSES[n];
    if EndsMatch(Replaced(p, s), i) {
      b := ReplacedItem(p, s, i);
      x, y := i, j;
    } else {
      PassKeepsPhone(p, s, i, j);
      var x', len := Moved(p, s, i), j - i;
      b, x, y := FreedRunsOn(n + 1, Apply(p, s), x', x' + len);
      b, x, y := PassCreatesNoRunOn(p, s, b, x, y);
    }
  }

  /**
   * A text in which no sensitive item runs straight on into a phone number is left without a phone
   * number, and without any other match; redacting it again changes nothing.
   */
  lemma NothingRunsOn(text: string)
    requires forall b, i, j :: !RunsOnto(text, b, i, j)
    ensures forall p: Pass :: NoMatchOf(p, RedactText(text))
    ensures RedactText(RedactText(text)) == RedactText(text)
  {
    hide RedactText, PhoneWindow, Apply, Moved, Replaced, Untouched, EndsMatch, WordBefore, WordAt, Lang, RunsOnto,
         NoMatchOf;
    if i: nat, j: nat :| LeftOver(text, i, j) {
      PassKeepsPhone(Email, text, i, j);
      var a, x := Apply(Email, text), Moved(Email, text, i);
      ExposedIsTouched(a, x, x + (j - i));
      var b, x', y := FreedRunsOn(1, a, x, x + (j - i));
      b, x', y := PassCreatesNoRunOn(Email, text, b, x', y);
    }
    PhoneLeftIff(text);
    StableIff(text);
    forall p: Pass ensures NoMatchOf(p, RedactText(text)) {
      if p != Phone { NoResidue(p, text); }
    }
  }

  /** In particular a text in which no phone number is glued to a word. */
  lemma NothingGlued(text: string)
    requires forall i, j :: !GluedAt(text, i, j)
    ensures forall p: Pass :: NoMatchOf(p, RedactText(text))
    ensures RedactText(RedactText(text)) == RedactText(text)
  {
    hide RedactText, GluedAt, NoMatchOf;
    NothingRunsOn(text);
  }
}
