/** The six patterns of the redactor, and what each of them matches. */
module Patterns {
  import opened Text
  import opened Regex
  import opened SensitiveItems

  datatype Pass = Email | Phone | Order | OpenAiKey | Bearer | Jwt

  const LETTERS := CharClass(true, false, false, "")
  const DIGITS := CharClass(false, true, false, "")
  const SPACES := CharClass(false, false, true, "")
  const WORD_OR_DASH := CharClass(true, true, false, "_-")
  const ALNUM_OR_DASH := CharClass(true, true, false, "-")

  const PHONE_SEPARATOR := CharClass(false, false, true, "-.")

  const EMAIL_PARTS := [
    AtLeast(CharClass(true, true, false, "._%+-"), 1),
    Lit("@", false),
    AtLeast(CharClass(true, true, false, ".-"), 1),
    Lit(".", false),
    AtLeast(LETTERS, 2)]

  const INTERNATIONAL_PHONE_PARTS := [Lit("+", false), One(DIGITS), AtLeast(CharClass(false, true, true, "().-"), 7)]

  const NATIONAL_PHONE_PARTS := [
    Maybe(Lit("(", false)), Times(DIGITS, 3), Maybe(Lit(")", false)), One(PHONE_SEPARATOR),
    Times(DIGITS, 3), One(PHONE_SEPARATOR)]

  /** `(?<!\w)(?:a|b)(?!\w)` */
  function OutsideWords(a: Re, b: Re): Re { Cat(NotAfterWord, Cat(Either(a, b), NotBeforeWord)) }

  const INTERNATIONAL := Chain(INTERNATIONAL_PHONE_PARTS, One(DIGITS))

  const NATIONAL := Chain(NATIONAL_PHONE_PARTS, Times(DIGITS, 4))

  const PHONE_NUMBER := Either(INTERNATIONAL, NATIONAL)

  const PHONE_RE := OutsideWords(INTERNATIONAL, NATIONAL)

  const ORDER_PARTS := [
    Either(Lit("ORDER", true), Lit("ORD", true)),
    Maybe(One(CharClass(false, false, false, "-_"))),
    AtLeast(ALNUM_OR_DASH, 0),
    One(DIGITS),
    AtLeast(ALNUM_OR_DASH, 0)]

  const OPENAI_KEY_PARTS := [Lit("sk-", false), One(CharClass(true, true, false, "")), AtLeast(WORD_OR_DASH, 7)]

  const BEARER_PARTS := [Lit("Bearer", true), AtLeast(SPACES, 1), AtLeast(CharClass(true, true, false, "._~+/=-"), 8)]

  const JWT_PARTS := [
    AtLeast(WORD_OR_DASH, 10), Lit(".", false), AtLeast(WORD_OR_DASH, 10), Lit(".", false), AtLeast(WORD_OR_DASH, 10)]

  function Parts(p: Pass): seq<Re>
    requires p != Phone
  {
    match p
    case Email => EMAIL_PARTS
    case Order => ORDER_PARTS
    case OpenAiKey => OPENAI_KEY_PARTS
    case Bearer => BEARER_PARTS
    case Jwt => JWT_PARTS
  }

  function Pattern(p: Pass): Re {
    if p == Phone then PHONE_RE else Bounded(Parts(p))
  }

  function Placeholder(p: Pass): string {
    match p
    case Email => "[EMAIL_REDACTED]"
    case Phone => "[PHONE_REDACTED]"
    case Order => "[ORDER_REDACTED]"
    case _ => "[SECRET_REDACTED]"
  }

  /** What pass `p` looks for. */
  ghost predicate IsItem(p: Pass, s: string, i: nat, j: nat) {
    match p
    case Email => IsEmail(s, i, j)
    case Phone => IsPhone(s, i, j)
    case Order => IsOrder(s, i, j)
    case OpenAiKey => IsKey(s, i, j)
    case Bearer => IsBearer(s, i, j)
    case Jwt => IsJwt(s, i, j)
  }

  // ---------------------------------------------------------------- the parts, one by one

  /** A boundary at both ends, and what lies between. */
  lemma BoundedMeans(parts: seq<Re>, inner: Re, s: string, i: nat, j: nat)
    requires Bounded(parts) == Cat(Boundary, inner)
    ensures Lang(Bounded(parts), s, i, j) <==> WordEdge(s, i) && Lang(inner, s, i, j)
  {
    if Lang(Bounded(parts), s, i, j) { var m := Split(Boundary, inner, s, i, j); }
    if WordEdge(s, i) && Lang(inner, s, i, j) {
      LangWithin(inner, s, i, j);
      Concatenate(Boundary, inner, s, i, i, j);
    }
  }

  lemma RunMeans(cls: CharClass, n: nat, f: char -> bool, s: string, i: nat, j: nat)
    requires forall c :: In(c, cls) <==> f(c)
    ensures Lang(AtLeast(cls, n), s, i, j) <==> i + n <= j && All(s, i, j, f)
  {
  }

  /** A run and the boundary after it. */
  lemma TailMeans(cls: CharClass, n: nat, f: char -> bool, s: string, i: nat, j: nat)
    requires forall c :: In(c, cls) <==> f(c)
    ensures Lang(Cat(AtLeast(cls, n), Boundary), s, i, j) <==> i + n <= j && All(s, i, j, f) && WordEdge(s, j)
  {
    var run := AtLeast(cls, n);
    if Lang(Cat(run, Boundary), s, i, j) { var m := Split(run, Boundary, s, i, j); }
    if i + n <= j && All(s, i, j, f) && WordEdge(s, j) { Concatenate(run, Boundary, s, i, j, j); }
  }

  lemma CharMeans(c: char, rest: Re, s: string, i: nat, j: nat)
    ensures Lang(Cat(Lit([c], false), rest), s, i, j) <==> i < |s| && s[i] == c && Lang(rest, s, i + 1, j)
  {
    var lit := Lit([c], false);
    if Lang(Cat(lit, rest), s, i, j) {
      var m := Split(lit, rest, s, i, j);
      assert s[i..m][0] == s[i];
    }
    if i < |s| && s[i] == c && Lang(rest, s, i + 1, j) {
      assert s[i..i + 1] == [c];
      Concatenate(lit, rest, s, i, i + 1, j);
    }
  }

  lemma OneMeans(cls: CharClass, rest: Re, s: string, i: nat, j: nat)
    ensures Lang(Cat(One(cls), rest), s, i, j) <==> i < |s| && In(s[i], cls) && Lang(rest, s, i + 1, j)
  {
    if Lang(Cat(One(cls), rest), s, i, j) { var m := Split(One(cls), rest, s, i, j); }
    if i < |s| && In(s[i], cls) && Lang(rest, s, i + 1, j) { Concatenate(One(cls), rest, s, i, i + 1, j); }
  }

  lemma WordMeans(text: string, word: string, rest: Re, s: string, i: nat, j: nat)
    requires word == Lower(text) && Lower(word) == word
    ensures Lang(Cat(Lit(text, true), rest), s, i, j) <==>
            WordAtIgnoringCase(s, i, word) && Lang(rest, s, i + |word|, j)
  {
    hide Lang;
    var lit, e := Lit(text, true), i + |word|;
    LiteralMeans(text, word, s, i, e);
    if Lang(Cat(lit, rest), s, i, j) {
      var m := Split(lit, rest, s, i, j);
      LiteralLength(text, s, i, m);
    }
    if WordAtIgnoringCase(s, i, word) && Lang(rest, s, e, j) { Concatenate(lit, rest, s, i, e, j); }
  }

  lemma LiteralLength(text: string, s: string, i: nat, m: nat)
    requires Lang(Lit(text, true), s, i, m)
    ensures m == i + |text|
  {
  }

  lemma LiteralMeans(text: string, word: string, s: string, i: nat, e: nat)
    requires word == Lower(text) && e == i + |word|
    ensures Lang(Lit(text, true), s, i, e) <==> WordAtIgnoringCase(s, i, word)
  {
    if e <= |s| {
      var window := s[i..e];
      assert |Lower(window)| == |word| && forall k :: i <= k < e ==> Lower(window)[k - i] == LowerChar(s[k]);
      if WordAtIgnoringCase(s, i, word) { assert Lower(window) == word; }
    }
  }

  lemma MaybeMeans(r: Re, rest: Re, s: string, i: nat, j: nat)
    ensures Lang(Cat(Maybe(r), rest), s, i, j) <==> Lang(rest, s, i, j) || Lang(Cat(r, rest), s, i, j)
  {
    if Lang(Cat(Maybe(r), rest), s, i, j) {
      var m := Split(Maybe(r), rest, s, i, j);
      if i != m { Concatenate(r, rest, s, i, m, j); }
    }
    if Lang(rest, s, i, j) {
      LangWithin(rest, s, i, j);
      Concatenate(Maybe(r), rest, s, i, i, j);
    }
    if Lang(Cat(r, rest), s, i, j) {
      var m := Split(r, rest, s, i, j);
      Concatenate(Maybe(r), rest, s, i, m, j);
    }
  }

  lemma DigitsMean(n: nat, s: string, i: nat, m: nat)
    ensures Lang(Times(DIGITS, n), s, i, m) <==> m == i + n && All(s, i, m, IsDigit)
  {
  }

  lemma TimesMeans(n: nat, rest: Re, s: string, i: nat, j: nat)
    ensures Lang(Cat(Times(DIGITS, n), rest), s, i, j) <==> All(s, i, i + n, IsDigit) && Lang(rest, s, i + n, j)
  {
    hide Lang;
    var run := Times(DIGITS, n);
    DigitsMean(n, s, i, i + n);
    if Lang(Cat(run, rest), s, i, j) {
      var m := Split(run, rest, s, i, j);
      DigitsMean(n, s, i, m);
    }
    if All(s, i, i + n, IsDigit) && Lang(rest, s, i + n, j) {
      LangWithin(rest, s, i + n, j);
      Concatenate(run, rest, s, i, i + n, j);
    }
  }

  // ---------------------------------------------------------------- the patterns

  lemma EmailChain()
    ensures var p := EMAIL_PARTS;
            Pattern(Email) == Cat(Boundary, Cat(p[0], Cat(p[1], Cat(p[2], Cat(p[3], Cat(p[4], Boundary))))))
  {
  }

  lemma EmailMeans(s: string, i: nat, j: nat)
    ensures Lang(Pattern(Email), s, i, j) <==> IsEmail(s, i, j)
  {
    hide Lang, Bounded, Chain, WordEdge, All;
    var p := EMAIL_PARTS;
    var letters := Cat(p[4], Boundary);
    var dot := Cat(p[3], letters);
    var domain := Cat(p[2], dot);
    var sign := Cat(p[1], domain);
    EmailChain();
    BoundedMeans(p, Cat(p[0], sign), s, i, j);
    if Lang(Cat(p[0], sign), s, i, j) && WordEdge(s, i) {
      var a := Split(p[0], sign, s, i, j);
      CharMeans('@', domain, s, a, j);
      var d := Split(p[2], dot, s, a + 1, j);
      CharMeans('.', letters, s, d, j);
      RunMeans(p[0].cls, 1, IsLocalChar, s, i, a);
      RunMeans(p[2].cls, 1, IsDomainChar, s, a + 1, d);
      TailMeans(LETTERS, 2, IsLetter, s, d + 1, j);
      LangWithin(letters, s, d + 1, j);
      assert EmailLayout(s, i, a, d, j);
    }
    if IsEmail(s, i, j) {
      var a: nat, d: nat :| EmailLayout(s, i, a, d, j);
      TailMeans(LETTERS, 2, IsLetter, s, d + 1, j);
      CharMeans('.', letters, s, d, j);
      RunMeans(p[2].cls, 1, IsDomainChar, s, a + 1, d);
      Concatenate(p[2], dot, s, a + 1, d, j);
      CharMeans('@', domain, s, a, j);
      RunMeans(p[0].cls, 1, IsLocalChar, s, i, a);
      Concatenate(p[0], sign, s, i, a, j);
    }
  }

  lemma OrderChain()
    ensures var p := ORDER_PARTS;
            Pattern(Order) == Cat(Boundary, Cat(p[0], Cat(p[1], Cat(p[2], Cat(p[3], Cat(p[4], Boundary))))))
  {
  }

  /** A stretch of letters, digits and dashes with a digit in it, up to a boundary. */
  predicate StretchWithDigit(s: string, b: nat, d: nat, j: nat) {
    All(s, b, j, IsOrderChar) && b <= d < j && IsDigit(s[d]) && WordEdge(s, j)
  }

  lemma StretchMeans(s: string, b: nat, j: nat)
    ensures var run, digit := AtLeast(ALNUM_OR_DASH, 0), One(DIGITS);
            Lang(Cat(run, Cat(digit, Cat(run, Boundary))), s, b, j) <==> exists d: nat :: StretchWithDigit(s, b, d, j)
  {
    hide Lang, WordEdge;
    var run, digit := AtLeast(ALNUM_OR_DASH, 0), One(DIGITS);
    var tail := Cat(run, Boundary);
    if Lang(Cat(run, Cat(digit, tail)), s, b, j) {
      var d := Split(run, Cat(digit, tail), s, b, j);
      OneMeans(DIGITS, tail, s, d, j);
      RunMeans(ALNUM_OR_DASH, 0, IsOrderChar, s, b, d);
      TailMeans(ALNUM_OR_DASH, 0, IsOrderChar, s, d + 1, j);
      assert StretchWithDigit(s, b, d, j);
    }
    if d: nat :| StretchWithDigit(s, b, d, j) {
      RunMeans(ALNUM_OR_DASH, 0, IsOrderChar, s, b, d);
      TailMeans(ALNUM_OR_DASH, 0, IsOrderChar, s, d + 1, j);
      OneMeans(DIGITS, tail, s, d, j);
      Concatenate(run, Cat(digit, tail), s, b, d, j);
    }
  }

  /** From the separator on. */
  ghost predicate OrderTail(s: string, a: nat, j: nat) {
    exists b: nat, d: nat :: (b == a || (b == a + 1 && a < |s| && (s[a] == '-' || s[a] == '_'))) &&
                             StretchWithDigit(s, b, d, j)
  }

  lemma OrderTailMeans(s: string, a: nat, j: nat)
    ensures var p := ORDER_PARTS;
            Lang(Cat(p[1], Cat(p[2], Cat(p[3], Cat(p[4], Boundary)))), s, a, j) <==> OrderTail(s, a, j)
  {
    hide Lang, StretchWithDigit;
    var p, sep := ORDER_PARTS, One(CharClass(false, false, false, "-_"));
    var stretch := Cat(p[2], Cat(p[3], Cat(p[4], Boundary)));
    MaybeMeans(sep, stretch, s, a, j);
    OneMeans(sep.cls, stretch, s, a, j);
    StretchMeans(s, a, j);
    StretchMeans(s, a + 1, j);
    if Lang(stretch, s, a, j) {
      var d: nat :| StretchWithDigit(s, a, d, j);
      assert OrderTail(s, a, j);
    }
  }

  lemma OrderMeans(s: string, i: nat, j: nat)
    ensures Lang(Pattern(Order), s, i, j) <==> IsOrder(s, i, j)
  {
    hide Lang, Chain, OrderTail;
    var p := ORDER_PARTS;
    var tail := Cat(p[1], Cat(p[2], Cat(p[3], Cat(p[4], Boundary))));
    var long, short := Lit("ORDER", true), Lit("ORD", true);
    OrderChain();
    BoundedMeans(p, Cat(p[0], tail), s, i, j);
    EitherMeans(long, short, tail, s, i, j);
    OrderWords();
    WordMeans("ORDER", "order", tail, s, i, j);
    WordMeans("ORD", "ord", tail, s, i, j);
    OrderTailMeans(s, i + 5, j);
    OrderTailMeans(s, i + 3, j);
    OrderLayouts(s, i, j);
  }

  lemma EitherIs(a: Re, b: Re, s: string, i: nat, m: nat)
    ensures Lang(Either(a, b), s, i, m) <==> Lang(a, s, i, m) || Lang(b, s, i, m)
  {
    LangWithin(a, s, i, m);
    LangWithin(b, s, i, m);
  }

  lemma EitherMeans(a: Re, b: Re, rest: Re, s: string, i: nat, j: nat)
    ensures Lang(Cat(Either(a, b), rest), s, i, j) <==> Lang(Cat(a, rest), s, i, j) || Lang(Cat(b, rest), s, i, j)
  {
    hide Lang;
    if Lang(Cat(Either(a, b), rest), s, i, j) {
      var m := Split(Either(a, b), rest, s, i, j);
      EitherIs(a, b, s, i, m);
      if Lang(a, s, i, m) { Concatenate(a, rest, s, i, m, j); } else { Concatenate(b, rest, s, i, m, j); }
    }
    if Lang(Cat(a, rest), s, i, j) {
      var m := Split(a, rest, s, i, j);
      EitherIs(a, b, s, i, m);
      Concatenate(Either(a, b), rest, s, i, m, j);
    }
    if Lang(Cat(b, rest), s, i, j) {
      var m := Split(b, rest, s, i, j);
      EitherIs(a, b, s, i, m);
      Concatenate(Either(a, b), rest, s, i, m, j);
    }
  }

  lemma OrderWords()
    ensures Lower("ORDER") == "order" && Lower("order") == "order" && Lower("ORD") == "ord" && Lower("ord") == "ord"
  {
  }

  lemma OrderLayouts(s: string, i: nat, j: nat)
    ensures IsOrder(s, i, j) <==>
            && WordEdge(s, i)
            && ((WordAtIgnoringCase(s, i, "order") && OrderTail(s, i + 5, j)) ||
                (WordAtIgnoringCase(s, i, "ord") && OrderTail(s, i + 3, j)))
  {
    hide WordAtIgnoringCase, WordEdge, All;
    if WordAtIgnoringCase(s, i, "order") && OrderTail(s, i + 5, j) && WordEdge(s, i) {
      OrderFrom(s, i, i + 5, j);
    }
    if WordAtIgnoringCase(s, i, "ord") && OrderTail(s, i + 3, j) && WordEdge(s, i) {
      OrderFrom(s, i, i + 3, j);
    }
    if IsOrder(s, i, j) {
      var a: nat, b: nat, d: nat :| OrderLayout(s, i, a, b, d, j);
      assert StretchWithDigit(s, b, d, j);
    }
  }

  lemma OrderFrom(s: string, i: nat, a: nat, j: nat)
    requires OrderTail(s, a, j) && WordEdge(s, i)
    requires (a == i + 5 && WordAtIgnoringCase(s, i, "order")) || (a == i + 3 && WordAtIgnoringCase(s, i, "ord"))
    ensures IsOrder(s, i, j)
  {
    hide WordAtIgnoringCase, WordEdge, All;
    var b: nat, d: nat :| (b == a || (b == a + 1 && a < |s| && (s[a] == '-' || s[a] == '_'))) &&
                          StretchWithDigit(s, b, d, j);
    assert OrderLayout(s, i, a, b, d, j);
  }

  lemma KeyChain()
    ensures var p := OPENAI_KEY_PARTS; Pattern(OpenAiKey) == Cat(Boundary, Cat(p[0], Cat(p[1], Cat(p[2], Boundary))))
  {
  }

  lemma KeyMeans(s: string, i: nat, j: nat)
    ensures Lang(Pattern(OpenAiKey), s, i, j) <==> IsKey(s, i, j)
  {
    hide Lang, Chain, WordEdge, All;
    var p := OPENAI_KEY_PARTS;
    var tail := Cat(p[2], Boundary);
    var one := Cat(p[1], tail);
    KeyChain();
    BoundedMeans(p, Cat(p[0], one), s, i, j);
    PrefixMeans("sk-", one, s, i, j);
    OneMeans(p[1].cls, tail, s, i + 3, j);
    TailMeans(WORD_OR_DASH, 7, IsWordOrDash, s, i + 4, j);
    if Lang(tail, s, i + 4, j) { LangWithin(tail, s, i + 4, j); }
  }

  /** A literal of three characters. */
  lemma PrefixMeans(text: string, rest: Re, s: string, i: nat, j: nat)
    requires |text| == 3
    ensures Lang(Cat(Lit(text, false), rest), s, i, j) <==>
            i + 3 <= |s| && s[i] == text[0] && s[i + 1] == text[1] && s[i + 2] == text[2] && Lang(rest, s, i + 3, j)
  {
    var lit := Lit(text, false);
    if Lang(Cat(lit, rest), s, i, j) {
      var m := Split(lit, rest, s, i, j);
      var window := s[i..m];
      assert window == text && window[0] == s[i] && window[1] == s[i + 1] && window[2] == s[i + 2];
    }
    if i + 3 <= |s| && s[i] == text[0] && s[i + 1] == text[1] && s[i + 2] == text[2] && Lang(rest, s, i + 3, j) {
      assert s[i..i + 3] == text;
      Concatenate(lit, rest, s, i, i + 3, j);
    }
  }

  lemma BearerChain()
    ensures var p := BEARER_PARTS; Pattern(Bearer) == Cat(Boundary, Cat(p[0], Cat(p[1], Cat(p[2], Boundary))))
  {
  }

  lemma BearerMeans(s: string, i: nat, j: nat)
    ensures Lang(Pattern(Bearer), s, i, j) <==> IsBearer(s, i, j)
  {
    hide Lang, Chain, WordEdge, All, WordAtIgnoringCase;
    var p := BEARER_PARTS;
    var tail := Cat(p[2], Boundary);
    var rest := Cat(p[1], tail);
    BearerChain();
    BoundedMeans(p, Cat(p[0], rest), s, i, j);
    BearerWord();
    WordMeans("Bearer", "bearer", rest, s, i, j);
    if WordEdge(s, i) && WordAtIgnoringCase(s, i, "bearer") && Lang(rest, s, i + 6, j) {
      var m := Split(p[1], tail, s, i + 6, j);
      RunMeans(SPACES, 1, IsSpace, s, i + 6, m);
      TailMeans(p[2].cls, 8, IsTokenChar, s, m, j);
      LangWithin(tail, s, m, j);
      assert BearerLayout(s, i, m, j);
    }
    if IsBearer(s, i, j) {
      var m: nat :| BearerLayout(s, i, m, j);
      RunMeans(SPACES, 1, IsSpace, s, i + 6, m);
      TailMeans(p[2].cls, 8, IsTokenChar, s, m, j);
      Concatenate(p[1], tail, s, i + 6, m, j);
    }
  }

  lemma BearerWord()
    ensures Lower("Bearer") == "bearer" && Lower("bearer") == "bearer"
  {
  }

  lemma JwtChain()
    ensures var p := JWT_PARTS;
            Pattern(Jwt) == Cat(Boundary, Cat(p[0], Cat(p[1], Cat(p[2], Cat(p[3], Cat(p[4], Boundary))))))
  {
  }

  lemma JwtMeans(s: string, i: nat, j: nat)
    ensures Lang(Pattern(Jwt), s, i, j) <==> IsJwt(s, i, j)
  {
    hide Lang, Chain, WordEdge, All;
    var p, f := JWT_PARTS, IsWordOrDash;
    var last := Cat(p[4], Boundary);
    var second := Cat(p[3], last);
    var middle := Cat(p[2], second);
    var first := Cat(p[1], middle);
    JwtChain();
    BoundedMeans(p, Cat(p[0], first), s, i, j);
    if Lang(Cat(p[0], first), s, i, j) && WordEdge(s, i) {
      var x := Split(p[0], first, s, i, j);
      CharMeans('.', middle, s, x, j);
      var y := Split(p[2], second, s, x + 1, j);
      CharMeans('.', last, s, y, j);
      RunMeans(WORD_OR_DASH, 10, f, s, i, x);
      RunMeans(WORD_OR_DASH, 10, f, s, x + 1, y);
      TailMeans(WORD_OR_DASH, 10, f, s, y + 1, j);
      LangWithin(last, s, y + 1, j);
      assert JwtLayout(s, i, x, y, j);
    }
    if IsJwt(s, i, j) {
      var x: nat, y: nat :| JwtLayout(s, i, x, y, j);
      TailMeans(WORD_OR_DASH, 10, f, s, y + 1, j);
      CharMeans('.', last, s, y, j);
      RunMeans(WORD_OR_DASH, 10, f, s, x + 1, y);
      Concatenate(p[2], second, s, x + 1, y, j);
      CharMeans('.', middle, s, x, j);
      RunMeans(WORD_OR_DASH, 10, f, s, i, x);
      Concatenate(p[0], first, s, i, x, j);
    }
  }

  // ---------------------------------------------------------------- phone numbers

  lemma InternationalChain()
    ensures INTERNATIONAL ==
            Cat(Lit("+", false), Cat(One(DIGITS), Cat(AtLeast(CharClass(false, true, true, "().-"), 7), One(DIGITS))))
  {
    var sign, digit, run := Lit("+", false), One(DIGITS), AtLeast(CharClass(false, true, true, "().-"), 7);
    assert [sign, digit, run][1..] == [digit, run] && [digit, run][1..] == [run] && [run][1..] == [];
    assert Chain([run], digit) == Cat(run, Chain([], digit));
    assert Chain([digit, run], digit) == Cat(digit, Chain([run], digit));
  }

  lemma InternationalMeans(s: string, i: nat, j: nat)
    ensures Lang(INTERNATIONAL, s, i, j) <==> IsInternational(s, i, j)
  {
    hide Lang, Chain, All;
    var digit, run := One(DIGITS), AtLeast(CharClass(false, true, true, "().-"), 7);
    var tail := Cat(run, digit);
    InternationalChain();
    CharMeans('+', Cat(digit, tail), s, i, j);
    OneMeans(DIGITS, tail, s, i + 1, j);
    if Lang(tail, s, i + 2, j) {
      var m := Split(run, digit, s, i + 2, j);
      RunMeans(run.cls, 7, IsPhoneFiller, s, i + 2, m);
      DigitMeans(s, m, j);
    }
    if IsInternational(s, i, j) {
      RunMeans(run.cls, 7, IsPhoneFiller, s, i + 2, j - 1);
      DigitMeans(s, j - 1, j);
      Concatenate(run, digit, s, i + 2, j - 1, j);
    }
  }

  lemma DigitMeans(s: string, i: nat, j: nat)
    ensures Lang(One(DIGITS), s, i, j) <==> j == i + 1 && i < |s| && IsDigit(s[i])
  {
  }

  lemma NationalChain()
    ensures NATIONAL ==
            Cat(Maybe(Lit("(", false)), Cat(Times(DIGITS, 3), Cat(Maybe(Lit(")", false)), Cat(One(PHONE_SEPARATOR),
              Cat(Times(DIGITS, 3), Cat(One(PHONE_SEPARATOR), Times(DIGITS, 4)))))))
  {
    hide Chain;
    var p, last := NATIONAL_PHONE_PARTS, Times(DIGITS, 4);
    ChainFrom(p, last, 0);
    ChainFrom(p, last, 1);
    ChainFrom(p, last, 2);
    ChainFrom(p, last, 3);
    ChainFrom(p, last, 4);
    ChainFrom(p, last, 5);
    ChainOfNone(p[6..], last);
    assert p[0..] == p;
  }

  lemma ChainFrom(parts: seq<Re>, last: Re, k: nat)
    requires k < |parts|
    ensures Chain(parts[k..], last) == Cat(parts[k], Chain(parts[k + 1..], last))
  {
  }

  lemma ChainOfNone(parts: seq<Re>, last: Re)
    requires parts == []
    ensures Chain(parts, last) == last
  {
  }

  /** From the separator on. */
  predicate NationalTail(s: string, b: nat, j: nat) {
    && j == b + 9 <= |s| && IsPhoneSeparator(s[b]) && All(s, b + 1, b + 4, IsDigit) && IsPhoneSeparator(s[b + 4])
    && All(s, b + 5, j, IsDigit)
  }

  lemma NationalTailMeans(s: string, b: nat, j: nat)
    ensures Lang(Cat(One(PHONE_SEPARATOR), Cat(Times(DIGITS, 3), Cat(One(PHONE_SEPARATOR), Times(DIGITS, 4)))), s, b, j)
            <==> NationalTail(s, b, j)
  {
    hide Lang;
    var sep, four := One(PHONE_SEPARATOR), Times(DIGITS, 4);
    OneMeans(PHONE_SEPARATOR, Cat(Times(DIGITS, 3), Cat(sep, four)), s, b, j);
    TimesMeans(3, Cat(sep, four), s, b + 1, j);
    OneMeans(PHONE_SEPARATOR, four, s, b + 4, j);
    DigitsMean(4, s, b + 5, j);
    if b < |s| { SeparatorMeans(s[b]); }
    if b + 4 < |s| { SeparatorMeans(s[b + 4]); }
  }

  lemma SeparatorMeans(c: char)
    ensures In(c, PHONE_SEPARATOR) <==> IsPhoneSeparator(c)
  {
  }

  lemma NationalMeans(s: string, i: nat, j: nat)
    ensures Lang(NATIONAL, s, i, j) <==> IsNational(s, i, j)
  {
    hide Lang, Chain, NationalTail;
    var open, close := Lit("(", false), Lit(")", false);
    var tail := Cat(One(PHONE_SEPARATOR), Cat(Times(DIGITS, 3), Cat(One(PHONE_SEPARATOR), Times(DIGITS, 4))));
    var closed := Cat(Maybe(close), tail);
    NationalChain();
    MaybeMeans(open, Cat(Times(DIGITS, 3), closed), s, i, j);
    CharMeans('(', Cat(Times(DIGITS, 3), closed), s, i, j);
    AreaMeans(closed, s, i, j);
    AreaMeans(closed, s, i + 1, j);
    NationalLayouts(s, i, j);
  }

  /** The area code and what follows. */
  predicate AreaThen(s: string, a: nat, j: nat) {
    && All(s, a, a + 3, IsDigit)
    && (NationalTail(s, a + 3, j) || (a + 3 < |s| && s[a + 3] == ')' && NationalTail(s, a + 4, j)))
  }

  lemma AreaMeans(closed: Re, s: string, a: nat, j: nat)
    requires closed == Cat(Maybe(Lit(")", false)), Cat(One(PHONE_SEPARATOR), Cat(Times(DIGITS, 3),
                         Cat(One(PHONE_SEPARATOR), Times(DIGITS, 4)))))
    ensures Lang(Cat(Times(DIGITS, 3), closed), s, a, j) <==> AreaThen(s, a, j)
  {
    hide Lang, NationalTail, All;
    var tail := closed.second;
    TimesMeans(3, closed, s, a, j);
    MaybeMeans(Lit(")", false), tail, s, a + 3, j);
    CharMeans(')', tail, s, a + 3, j);
    NationalTailMeans(s, a + 3, j);
    NationalTailMeans(s, a + 4, j);
  }

  lemma NationalLayouts(s: string, i: nat, j: nat)
    ensures IsNational(s, i, j) <==> AreaThen(s, i, j) || (i < |s| && s[i] == '(' && AreaThen(s, i + 1, j))
  {
    if AreaThen(s, i, j) { AreaIsNational(s, i, i, j); }
    if i < |s| && s[i] == '(' && AreaThen(s, i + 1, j) { AreaIsNational(s, i, i + 1, j); }
  }

  lemma AreaIsNational(s: string, i: nat, a: nat, j: nat)
    requires AreaThen(s, a, j) && (a == i || (a == i + 1 && i < |s| && s[i] == '('))
    ensures IsNational(s, i, j)
  {
    assert NationalLayout(s, i, a, if NationalTail(s, a + 3, j) then a + 3 else a + 4, j);
  }

  lemma PhoneMeans(s: string, i: nat, j: nat)
    ensures Lang(PHONE_RE, s, i, j) <==> IsPhone(s, i, j)
  {
    hide Lang, INTERNATIONAL, NATIONAL, IsInternational, IsNational;
    var either := Either(INTERNATIONAL, NATIONAL);
    var inner := Cat(either, NotBeforeWord);
    NumberMeans(s, i, j);
    if Lang(PHONE_RE, s, i, j) {
      var m := Split(NotAfterWord, inner, s, i, j);
      var n := Split(either, NotBeforeWord, s, m, j);
      LookaroundMeans(s, i, m);
      LookaroundMeans(s, n, j);
    }
    if IsPhone(s, i, j) {
      LookaroundMeans(s, i, i);
      LookaroundMeans(s, j, j);
      Concatenate(either, NotBeforeWord, s, i, j, j);
      Concatenate(NotAfterWord, inner, s, i, i, j);
    }
  }

  lemma NumberMeans(s: string, i: nat, j: nat)
    ensures Lang(Either(INTERNATIONAL, NATIONAL), s, i, j) <==> IsInternational(s, i, j) || IsNational(s, i, j)
  {
    hide INTERNATIONAL, NATIONAL, IsInternational, IsNational;
    InternationalMeans(s, i, j);
    NationalMeans(s, i, j);
    LangWithin(INTERNATIONAL, s, i, j);
    LangWithin(NATIONAL, s, i, j);
  }

  lemma LookaroundMeans(s: string, i: nat, j: nat)
    ensures Lang(NotAfterWord, s, i, j) <==> i == j <= |s| && !(0 < i && IsWord(s[i - 1]))
    ensures Lang(NotBeforeWord, s, i, j) <==> i == j <= |s| && !(i < |s| && IsWord(s[i]))
  {
  }

  /** Each pattern matches exactly the items it is for. */
  lemma ItemIsMatch(p: Pass, s: string, i: nat, j: nat)
    ensures Lang(Pattern(p), s, i, j) <==> IsItem(p, s, i, j)
  {
    hide Lang, Bounded;
    match p
    case Email => EmailMeans(s, i, j);
    case Phone => PhoneMeans(s, i, j);
    case Order => OrderMeans(s, i, j);
    case OpenAiKey => KeyMeans(s, i, j);
    case Bearer => BearerMeans(s, i, j);
    case Jwt => JwtMeans(s, i, j);
  }
}
