/** Two families of texts in which redaction leaves a phone number. */
module PhoneExamples {
  import opened Text
  import opened Regex
  import opened Patterns
  import opened Redaction
  import opened PhoneResidue

  predicate DigitsFrom(s: string, lo: nat, hi: nat) { hi <= |s| && forall k :: lo <= k < hi ==> IsDigit(s[k]) }

  /** A sign and at least nine digits, from `i` to `j`. */
  predicate SignedNumber(s: string, i: nat, j: nat) { i + 10 <= j <= |s| && s[i] == '+' && DigitsFrom(s, i + 1, j) }

  /** `ORD`, a digit, and a signed number. */
  predicate IsOrderThenPhone(s: string) {
    |s| >= 14 && s[0] == 'O' && s[1] == 'R' && s[2] == 'D' && IsDigit(s[3]) && SignedNumber(s, 4, |s|)
  }

  /** Two signed numbers, the second from `k` on. */
  predicate IsPhoneThenPhone(s: string, k: nat) { k <= |s| && SignedNumber(s, 0, k) && SignedNumber(s, k, |s|) }

  lemma InternationalShape()
    ensures INTERNATIONAL ==
      Cat(Lit("+", false), Cat(One(DIGITS), Cat(AtLeast(CharClass(false, true, true, "().-"), 7), One(DIGITS))))
  {
    var sign, digit, run := Lit("+", false), One(DIGITS), AtLeast(CharClass(false, true, true, "().-"), 7);
    assert [sign, digit, run][1..] == [digit, run] && [digit, run][1..] == [run] && [run][1..] == [];
    assert Chain([run], digit) == Cat(run, Chain([], digit));
    assert Chain([digit, run], digit) == Cat(digit, Chain([run], digit));
  }

  lemma SignedNumberIsPhone(s: string, i: nat, j: nat)
    requires SignedNumber(s, i, j)
    ensures Lang(PHONE_NUMBER, s, i, j)
  {
    var run, last := AtLeast(CharClass(false, true, true, "().-"), 7), One(DIGITS);
    assert Lang(last, s, j - 1, j) && Lang(run, s, i + 2, j - 1) && Lang(One(DIGITS), s, i + 1, i + 2);
    assert s[i..i + 1] == "+";
    assert Lang(Lit("+", false), s, i, i + 1);
    Concatenate(run, last, s, i + 2, j - 1, j);
    Concatenate(One(DIGITS), Cat(run, last), s, i + 1, i + 2, j);
    Concatenate(Lit("+", false), Cat(One(DIGITS), Cat(run, last)), s, i, i + 1, j);
    InternationalShape();
  }

  /** A number holds a sign at its start, if anywhere, and a national one holds none but a separator. */
  lemma NumberNeedsSignOrSeparator(s: string, i: nat, j: nat)
    requires Lang(PHONE_NUMBER, s, i, j)
    ensures i < j <= |s| && forall k :: i < k < j ==> s[k] != '+'
    ensures s[i] == '+' || exists k :: i <= k < j && In(s[k], PHONE_SEPARATOR)
  {
    hide Chain, NATIONAL_PHONE_PARTS;
    PhoneEndsInDigit(s, i, j);
    if Lang(INTERNATIONAL, s, i, j) {
      InternationalShape();
      var digit, run := One(DIGITS), AtLeast(CharClass(false, true, true, "().-"), 7);
      var rest := Cat(digit, Cat(run, digit));
      var m := Split(Lit("+", false), rest, s, i, j);
      assert s[i..m] == "+" && s[i] == s[i..m][0];
      forall k | m <= k < j ensures s[k] != '+' { MatchAvoids(rest, '+', s, m, j, k); }
    } else {
      NationalParts();
      ChainKeeps(NATIONAL_PHONE_PARTS, Times(DIGITS, 4), 3, PHONE_SEPARATOR);
      assert Needs(One(PHONE_SEPARATOR), PHONE_SEPARATOR);
      var k := MatchNeeds(NATIONAL, PHONE_SEPARATOR, s, i, j);
      NationalAvoidsSign();
      forall k | i < k < j ensures s[k] != '+' { MatchAvoids(NATIONAL, '+', s, i, j, k); }
    }
  }

  lemma NationalParts()
    ensures |NATIONAL_PHONE_PARTS| == 6 && NATIONAL_PHONE_PARTS[3] == One(PHONE_SEPARATOR)
    ensures forall r :: r in NATIONAL_PHONE_PARTS ==> Avoids(r, '+')
  {
  }

  lemma NationalAvoidsSign()
    ensures Avoids(NATIONAL, '+')
  {
    hide Chain, NATIONAL_PHONE_PARTS;
    NationalParts();
    assert Avoids(Times(DIGITS, 4), '+');
    ChainAvoids(NATIONAL_PHONE_PARTS, Times(DIGITS, 4), '+');
  }

  /** Nothing for the passes that need an at sign, a dash, a dot or white space. */
  predicate Quiet(s: string) {
    forall k :: 0 <= k < |s| ==> s[k] != '@' && s[k] != '-' && s[k] != '.' && !IsSpace(s[k])
  }

  lemma QuietPass(p: Pass, s: string)
    requires Quiet(s) && p in {Email, OpenAiKey, Bearer, Jwt}
    ensures Apply(p, s) == s
  {
    hide Pattern, Placeholder, Needs;
    PatternShape(p);
    NeedsAbsent(Pattern(p), Tell(p), s);
    SubIdentity(Pattern(p), Placeholder(p), s);
  }

  lemma QuietPlaceholder(p: Pass, s: string, k: nat)
    requires Quiet(s) && k <= |s|
    ensures Quiet(Placeholder(p) + s[k..])
  {
    hide Placeholder, Bracketed;
    var mark := Placeholder(p);
    PlaceholderShape(p);
    assert forall z :: 0 <= z < |mark| ==> mark[z] in mark;
  }

  /** One match, that ends at `k`, and what is left after the pass. */
  lemma OneMatch(p: Pass, s: string, k: nat)
    requires k <= |s| && Search(Pattern(p), s, 0) == Found.At(0, k) && k > 0 && Search(Pattern(p), s, k).Nowhere?
    ensures Apply(p, s) == Placeholder(p) + s[k..]
  {
    hide Pattern, Placeholder, Search;
    var re, placeholder := Pattern(p), Placeholder(p);
    assert SubFrom(re, placeholder, s, k) == s[k..];
    assert SubFrom(re, placeholder, s, 0) == s[0..0] + placeholder + SubFrom(re, placeholder, s, k);
  }

  /** The first match starts at 0 and ends at `k`, if matches from 0 exist and end nowhere else. */
  lemma FirstMatch(re: Re, s: string, k: nat)
    requires Lang(re, s, 0, k) && forall j :: Lang(re, s, 0, j) ==> j == k
    ensures Search(re, s, 0) == Found.At(0, k)
  {
    hide Lang, Ends;
    EngineIsLang(re, s, 0, k);
    var ends := Ends(re, s, 0);
    assert ends != [] && ends[0] in ends;
    EngineIsLang(re, s, 0, ends[0]);
  }

  lemma NoMatchFrom(re: Re, s: string, k: nat)
    requires k <= |s| && forall i, j :: k <= i ==> !Lang(re, s, i, j)
    ensures Search(re, s, k).Nowhere?
  {
    hide Lang, Ends;
    SearchIsLeftmost(re, s, k);
  }

  // ---------------------------------------------------------------- two numbers in a row

  lemma FirstNumberMatches(s: string, k: nat)
    requires IsPhoneThenPhone(s, k)
    ensures Lang(PHONE_RE, s, 0, k) && forall j :: Lang(PHONE_RE, s, 0, j) ==> j == k
  {
    hide Lang, PHONE_RE, PHONE_NUMBER;
    SignedNumberIsPhone(s, 0, k);
    PhoneMatch(s, 0, k);
    forall j: nat | Lang(PHONE_RE, s, 0, j) ensures j == k {
      PhoneMatch(s, 0, j);
      NumberNeedsSignOrSeparator(s, 0, j);
    }
  }

  lemma SecondNumberDoesNotMatch(s: string, k: nat)
    requires IsPhoneThenPhone(s, k)
    ensures forall i, j :: k <= i ==> !Lang(PHONE_RE, s, i, j)
  {
    hide Lang, PHONE_RE, PHONE_NUMBER;
    forall i: nat, j: nat | k <= i ensures !Lang(PHONE_RE, s, i, j) {
      if Lang(PHONE_RE, s, i, j) {
        PhoneMatch(s, i, j);
        NumberNeedsSignOrSeparator(s, i, j);
      }
    }
  }

  lemma OrderStartsWithO(s: string, i: nat, j: nat)
    requires Lang(Pattern(Order), s, i, j)
    ensures i < |s| && LowerChar(s[i]) == 'o'
  {
    var m := Split(Boundary, Chain(ORDER_PARTS, Boundary), s, i, j);
    var n := Split(Either(Lit("ORDER", true), Lit("ORD", true)), Chain(ORDER_PARTS[1..], Boundary), s, m, j);
    if Lang(Lit("ORDER", true), s, m, n) {
      LiteralStarts("ORDER", s, m, n);
    } else {
      LiteralStarts("ORD", s, m, n);
    }
  }

  lemma PhoneThenPhonePasses(s: string, k: nat)
    requires IsPhoneThenPhone(s, k)
    ensures Quiet(s) && Apply(Phone, s) == Placeholder(Phone) + s[k..]
    ensures Apply(Order, Apply(Phone, s)) == Apply(Phone, s)
  {
    hide Pattern, Placeholder, Lang, Search, Apply, Needs, MinLength, Fenced, Plain, NoMatch;
    FirstNumberMatches(s, k);
    SecondNumberDoesNotMatch(s, k);
    assert Pattern(Phone) == PHONE_RE by { PhonePattern(); }
    FirstMatch(PHONE_RE, s, k);
    NoMatchFrom(PHONE_RE, s, k);
    OneMatch(Phone, s, k);
    NoOrderIn(s);
    PassShape(Phone);
    PatternShape(Order);
    PlaceholderHasNoTell(Phone, Order);
    OrderAfterPhone(s);
  }

  lemma PhonePattern()
    ensures Pattern(Phone) == PHONE_RE
  {
  }

  lemma NoOrderIn(s: string)
    requires forall k :: 0 <= k < |s| ==> LowerChar(s[k]) != 'o'
    ensures NoMatch(Pattern(Order), s)
  {
    hide Pattern, Lang;
    forall i: nat, j: nat ensures !Lang(Pattern(Order), s, i, j) {
      if Lang(Pattern(Order), s, i, j) { OrderStartsWithO(s, i, j); }
    }
  }

  lemma OrderAfterPhone(s: string)
    requires NoMatch(Pattern(Order), s)
    ensures Apply(Order, Apply(Phone, s)) == Apply(Phone, s)
  {
    hide Pattern, Placeholder, Lang, Needs, MinLength, Fenced, Plain, NoMatch, Tell;
    PassShape(Phone);
    PatternShape(Order);
    PlaceholderHasNoTell(Phone, Order);
    SubCreatesNoMatch(Pattern(Phone), Pattern(Order), Placeholder(Phone), s, Tell(Order));
    SubIdentity(Pattern(Order), Placeholder(Order), Apply(Phone, s));
  }

  /** A number at the end of a text, after a placeholder, shows. */
  lemma NumberShows(p: Pass, s: string, k: nat)
    requires k <= |s| && SignedNumber(s, k, |s|)
    ensures !NoMatchOf(Phone, Placeholder(p) + s[k..])
  {
    hide Placeholder, PHONE_RE, Lang, NoMatchOf;
    var head := Placeholder(p);
    var w := head + s[k..];
    PlaceholderShape(p);
    assert !IsWord(']');
    assert w[|head| - 1] == ']' && w[|head|] == s[k];
    SignedNumberIsPhone(w, |head|, |w|);
    PhoneMatch(w, |head|, |w|);
    NoMatchMeans(Phone, w);
  }

  /** Of two numbers in a row the phone pass itself takes the first only, and so exposes the second. */
  lemma SecondPhoneSurvives(s: string, k: nat)
    requires IsPhoneThenPhone(s, k)
    ensures RedactText(s) == Placeholder(Phone) + s[k..]
    ensures !NoMatchOf(Phone, RedactText(s)) && RedactText(RedactText(s)) != RedactText(s)
  {
    hide Pattern, Placeholder, Apply, NoMatchOf, Lang;
    var out := Placeholder(Phone) + s[k..];
    PhoneThenPhonePasses(s, k);
    QuietPlaceholder(Phone, s, k);
    QuietPass(Email, s);
    QuietPass(OpenAiKey, out);
    QuietPass(Bearer, out);
    QuietPass(Jwt, out);
    NumberShows(Phone, s, k);
    SecondRedaction(s);
  }

  // ---------------------------------------------------------------- an order number, then a number

  lemma OrderPartsMatch(s: string)
    requires IsOrderThenPhone(s)
    ensures var p := ORDER_PARTS;
            && Lang(p[0], s, 0, 3) && Lang(p[1], s, 3, 3) && Lang(p[2], s, 3, 3)
            && Lang(p[3], s, 3, 4) && Lang(p[4], s, 4, 4)
            && Lang(Boundary, s, 0, 0) && Lang(Boundary, s, 4, 4)
  {
  }

  lemma OrderShape()
    ensures var p := ORDER_PARTS;
            Pattern(Order) == Cat(Boundary, Cat(p[0], Cat(p[1], Cat(p[2], Cat(p[3], Cat(p[4], Boundary))))))
  {
  }

  lemma OrderMatches(s: string)
    requires IsOrderThenPhone(s)
    ensures Lang(Pattern(Order), s, 0, 4)
  {
    hide Lang, Pattern, IsOrderThenPhone;
    OrderPartsMatch(s);
    var p := ORDER_PARTS;
    Concatenate(p[4], Boundary, s, 4, 4, 4);
    Concatenate(p[3], Cat(p[4], Boundary), s, 3, 4, 4);
    Concatenate(p[2], Cat(p[3], Cat(p[4], Boundary)), s, 3, 3, 4);
    Concatenate(p[1], Cat(p[2], Cat(p[3], Cat(p[4], Boundary))), s, 3, 3, 4);
    Concatenate(p[0], Cat(p[1], Cat(p[2], Cat(p[3], Cat(p[4], Boundary)))), s, 0, 3, 4);
    Concatenate(Boundary, Cat(p[0], Cat(p[1], Cat(p[2], Cat(p[3], Cat(p[4], Boundary))))), s, 0, 0, 4);
    OrderShape();
  }

  /** A match holds a digit and no sign, so from the start of such a text it can only end at offset 4. */
  lemma OrderMatchEndsAt4(s: string, j: nat)
    requires IsOrderThenPhone(s) && Lang(Pattern(Order), s, 0, j)
    ensures j == 4
  {
    hide Pattern, ORDER_PARTS, Lang, Needs, Avoids, Fenced, Plain, MinLength;
    PatternShape(Order);
    LangWithin(Pattern(Order), s, 0, j);
    var k := MatchNeeds(Pattern(Order), DIGITS, s, 0, j);
    OrderAvoidsSign();
    if j > 4 { MatchAvoids(Pattern(Order), '+', s, 0, j, 4); }
  }

  lemma OrderPartsAvoidSign()
    ensures forall r :: r in ORDER_PARTS ==> Avoids(r, '+')
  {
  }

  lemma OrderAvoidsSign()
    ensures Avoids(Pattern(Order), '+')
  {
    hide Chain, ORDER_PARTS;
    OrderPartsAvoidSign();
    ChainAvoids(ORDER_PARTS, Boundary, '+');
  }

  lemma OrderPass(s: string)
    requires IsOrderThenPhone(s)
    ensures Apply(Order, s) == Placeholder(Order) + s[4..]
  {
    hide Pattern, Lang, ORDER_PARTS, Search, Placeholder, Apply;
    OrderMatches(s);
    forall j: nat | Lang(Pattern(Order), s, 0, j) ensures j == 4 { OrderMatchEndsAt4(s, j); }
    FirstMatch(Pattern(Order), s, 4);
    forall i: nat, j: nat | 4 <= i ensures !Lang(Pattern(Order), s, i, j) {
      if Lang(Pattern(Order), s, i, j) { OrderStartsWithO(s, i, j); }
    }
    NoMatchFrom(Pattern(Order), s, 4);
    OneMatch(Order, s, 4);
  }

  lemma PhonePassFindsNothing(s: string)
    requires IsOrderThenPhone(s)
    ensures Apply(Phone, s) == s && Quiet(s)
  {
    hide PHONE_RE, Lang, PHONE_NUMBER, Placeholder;
    forall i: nat, j: nat ensures !Lang(PHONE_RE, s, i, j) {
      if Lang(PHONE_RE, s, i, j) {
        PhoneMatch(s, i, j);
        NumberNeedsSignOrSeparator(s, i, j);
      }
    }
    SubIdentity(Pattern(Phone), Placeholder(Phone), s);
  }

  /**
   * An order number run up against an international phone number: the order number is redacted, the
   * phone number stays, and a second redaction would take it away.
   */
  lemma PhoneSurvives(s: string)
    requires IsOrderThenPhone(s)
    ensures RedactText(s) == Placeholder(Order) + s[4..]
    ensures !NoMatchOf(Phone, RedactText(s)) && RedactText(RedactText(s)) != RedactText(s)
  {
    hide Pattern, Placeholder, Apply, NoMatchOf, Lang;
    var out := Placeholder(Order) + s[4..];
    PhonePassFindsNothing(s);
    QuietPlaceholder(Order, s, 4);
    QuietPass(Email, s);
    OrderPass(s);
    QuietPass(OpenAiKey, out);
    QuietPass(Bearer, out);
    QuietPass(Jwt, out);
    NumberShows(Order, s, 4);
    SecondRedaction(s);
  }

  lemma TwoNumbers()
    ensures var s := "+1234567890+1234567890"; IsPhoneThenPhone(s, 11) && s[11..] == "+1234567890"
  {
  }

  lemma OrderAndNumber()
    ensures var s := "ORD1+12345678901"; IsOrderThenPhone(s) && s[4..] == "+12345678901"
  {
  }

  /** So redaction is not idempotent, neither across two passes nor by the phone pass alone. */
  lemma RedactionIsNotIdempotent()
    ensures var once := RedactText("+1234567890+1234567890");
            once == "[PHONE_REDACTED]" + "+1234567890" && RedactText(once) != once
    ensures var once := RedactText("ORD1+12345678901");
            once == "[ORDER_REDACTED]" + "+12345678901" && RedactText(once) != once
  {
    hide RedactText, IsPhoneThenPhone, IsOrderThenPhone;
    TwoNumbers();
    SecondPhoneSurvives("+1234567890+1234567890", 11);
    OrderAndNumber();
    PhoneSurvives("ORD1+12345678901");
  }
}
