/** `BasicTextRedactor.redact_text`: six substitution passes in a fixed order. */
module Redaction {
  import opened Regex
  import opened Patterns

  const PASSES: seq<Pass> := [Email, Phone, Order, OpenAiKey, Bearer, Jwt]

  function Apply(p: Pass, text: string): string { Sub(Pattern(p), Placeholder(p), text) }

  function RedactText(text: string): string {
    Apply(Jwt, Apply(Bearer, Apply(OpenAiKey, Apply(Order, Apply(Phone, Apply(Email, text))))))
  }

  predicate RedactionApplied(text: string) { RedactText(text) != text }

  /** The text after the first `n` passes. */
  function After(n: nat, text: string): string
    requires n <= |PASSES|
  {
    if n == 0 then text else Apply(PASSES[n - 1], After(n - 1, text))
  }

  lemma RedactIsAllPasses(text: string)
    ensures RedactText(text) == After(|PASSES|, text)
  {
    hide Apply;
    assert After(1, text) == Apply(Email, text);
    assert After(2, text) == Apply(Phone, After(1, text));
    assert After(3, text) == Apply(Order, After(2, text));
    assert After(4, text) == Apply(OpenAiKey, After(3, text));
    assert After(5, text) == Apply(Bearer, After(4, text));
  }

  /** Characters without which a pass finds nothing, and which no placeholder has. */
  function Tell(p: Pass): CharClass {
    match p
    case Email => CharClass(false, false, false, "@")
    case Phone => DIGITS
    case Order => DIGITS
    case OpenAiKey => CharClass(false, false, false, "-")
    case Bearer => SPACES
    case Jwt => CharClass(false, false, false, ".")
  }

  lemma PartsPlain(p: Pass)
    requires p != Phone
    ensures forall r :: r in Parts(p) ==> Plain(r)
  {
    hide Plain;
    match p
    case Email => EmailPartsPlain();
    case Order => OrderPartsPlain();
    case OpenAiKey => KeyPartsPlain();
    case Bearer => BearerPartsPlain();
    case Jwt => JwtPartsPlain();
  }

  lemma EmailPartsPlain()
    ensures forall r :: r in EMAIL_PARTS ==> Plain(r)
  {
  }

  lemma KeyPartsPlain()
    ensures forall r :: r in OPENAI_KEY_PARTS ==> Plain(r)
  {
  }

  lemma BearerPartsPlain()
    ensures forall r :: r in BEARER_PARTS ==> Plain(r)
  {
  }

  lemma JwtPartsPlain()
    ensures forall r :: r in JWT_PARTS ==> Plain(r)
  {
  }

  lemma OrderPartsPlain()
    ensures forall r :: r in ORDER_PARTS ==> Plain(r)
  {
  }

  /** The index of the part that `Tell` is read off. */
  function TellPart(p: Pass): nat {
    match p
    case Order => 3
    case OpenAiKey => 0
    case _ => 1
  }

  lemma PartTell(p: Pass)
    requires p != Phone
    ensures TellPart(p) < |Parts(p)| && Needs(Parts(p)[TellPart(p)], Tell(p)) && MinLength(Parts(p)[TellPart(p)]) > 0
  {
    assert '@' in "@" && '-' in "sk-" && '.' in ".";
  }

  lemma PatternShape(p: Pass)
    requires p != Phone
    ensures Fenced(Pattern(p)) && MinLength(Pattern(p)) > 0 && Plain(Pattern(p)) && Needs(Pattern(p), Tell(p))
  {
    hide Bounded, Parts, Plain, Needs, MinLength, Fenced;
    PartsPlain(p);
    PartTell(p);
    BoundedShape(Parts(p), TellPart(p), Tell(p));
  }

  lemma PhoneOf(a: Re, b: Re)
    requires Plain(a) && Plain(b) && MinLength(a) > 0 && MinLength(b) > 0
    ensures var re := OutsideWords(a, b); Fenced(re) && MinLength(re) > 0 && Avoids(re, '[')
  {
    assert MinLength(Either(a, b)) > 0 && MinLength(Cat(Either(a, b), NotBeforeWord)) > 0;
    assert Avoids(Either(a, b), '[') && Avoids(Cat(Either(a, b), NotBeforeWord), '[');
  }

  lemma PhonePartsPlain()
    ensures forall r :: r in INTERNATIONAL_PHONE_PARTS ==> Plain(r)
    ensures forall r :: r in NATIONAL_PHONE_PARTS ==> Plain(r)
    ensures Plain(One(DIGITS)) && Plain(Times(DIGITS, 4))
  {
  }

  lemma PhoneShape()
    ensures Fenced(PHONE_RE) && MinLength(PHONE_RE) > 0 && Avoids(PHONE_RE, '[')
  {
    hide Chain, OutsideWords, Fenced, Plain;
    PhonePartsPlain();
    ChainKeeps(INTERNATIONAL_PHONE_PARTS, One(DIGITS), 1, DIGITS);
    ChainKeeps(NATIONAL_PHONE_PARTS, Times(DIGITS, 4), 1, DIGITS);
    ChainPlain(INTERNATIONAL_PHONE_PARTS, One(DIGITS));
    ChainPlain(NATIONAL_PHONE_PARTS, Times(DIGITS, 4));
    PhoneOf(Chain(INTERNATIONAL_PHONE_PARTS, One(DIGITS)), Chain(NATIONAL_PHONE_PARTS, Times(DIGITS, 4)));
  }

  /** A placeholder is bracketed text of capitals and underscores. */
  lemma PlaceholderShape(p: Pass)
    ensures Bracketed(Placeholder(p))
    ensures forall c :: c in Placeholder(p) ==> 'A' <= c <= 'Z' || c in "_[]"
  {
  }

  lemma PlaceholderHasNoTell(p: Pass, q: Pass)
    ensures forall c :: c in Placeholder(p) ==> !In(c, Tell(q))
  {
    PlaceholderShape(p);
  }

  lemma PassShape(p: Pass)
    ensures Fenced(Pattern(p)) && MinLength(Pattern(p)) > 0 && Avoids(Pattern(p), '[')
    ensures Bracketed(Placeholder(p))
  {
    PlaceholderShape(p);
    if p == Phone { PhoneShape(); } else { PatternShape(p); }
  }

  // ---------------------------------------------------------------- what redaction achieves

  function Position(p: Pass): (k: nat)
    ensures k < |PASSES| && PASSES[k] == p
  {
    match p
    case Email => 0
    case Phone => 1
    case Order => 2
    case OpenAiKey => 3
    case Bearer => 4
    case Jwt => 5
  }

  /** Once its pass is over, a pattern other than the phone one never matches again. */
  lemma {:induction false} CleanAfterPass(k: nat, n: nat, text: string)
    requires k < n <= |PASSES| && PASSES[k] != Phone
    ensures NoMatch(Pattern(PASSES[k]), After(n, text))
  {
    hide Pattern, Placeholder, Tell, NoMatch;
    var p, q := PASSES[k], PASSES[n - 1];
    PatternShape(p);
    PassShape(q);
    PlaceholderHasNoTell(q, p);
    if n == k + 1 {
      SubLeavesNoMatch(Pattern(p), Placeholder(p), After(k, text), Tell(p));
    } else {
      CleanAfterPass(k, n - 1, text);
      SubCreatesNoMatch(Pattern(q), Pattern(p), Placeholder(q), After(n - 1, text), Tell(p));
    }
  }

  /** Nowhere in the text is there what pass `p` looks for. */
  ghost predicate NoMatchOf(p: Pass, text: string) { forall i: nat, j: nat :: !IsItem(p, text, i, j) }

  lemma NoMatchMeans(p: Pass, text: string)
    ensures NoMatchOf(p, text) <==> NoMatch(Pattern(p), text)
  {
    hide Pattern, Lang, IsItem;
    forall i: nat, j: nat ensures Lang(Pattern(p), text, i, j) <==> IsItem(p, text, i, j) {
      ItemIsMatch(p, text, i, j);
    }
  }

  /**
   * No residue: whatever the text, no email, order number, API key, bearer token or JWT is left, not
   * even one that two neighbouring replacements would have brought to a word boundary.
   */
  lemma NoResidue(p: Pass, text: string)
    requires p != Phone
    ensures NoMatchOf(p, RedactText(text))
  {
    hide RedactText, After, Pattern, NoMatchOf, NoMatch;
    RedactIsAllPasses(text);
    CleanAfterPass(Position(p), |PASSES|, text);
    NoMatchMeans(p, RedactText(text));
  }

  /** No pattern but the phone one matches anywhere. */
  ghost predicate CleanText(text: string) { forall p: Pass :: p != Phone ==> NoMatchOf(p, text) }

  lemma RedactedIsClean(text: string)
    ensures CleanText(RedactText(text))
  {
    hide RedactText, NoMatchOf;
    forall p: Pass | p != Phone
      ensures NoMatchOf(p, RedactText(text))
    {
      NoResidue(p, text);
    }
  }

  /**
   * The `redaction_applied` flag is honest: the text is unchanged exactly when nothing in it matches
   * any of the six patterns.  A pass that changed something cannot be undone by a later one.
   */
  lemma UnchangedIffNothingMatches(text: string)
    ensures RedactText(text) == text <==> forall p: Pass :: NoMatchOf(p, text)
  {
    hide RedactText, Pattern, Placeholder, NoMatch, NoMatchOf;
    RedactIsAllPasses(text);
    forall p: Pass ensures NoMatchOf(p, text) <==> NoMatch(Pattern(p), text) { NoMatchMeans(p, text); }
    if forall p: Pass :: NoMatch(Pattern(p), text) {
      UnchangedUpTo(|PASSES|, text);
    }
    if RedactText(text) == text {
      forall p: Pass ensures NoMatch(Pattern(p), text) { UnchangedBy(|PASSES|, text, p); }
    }
  }

  lemma {:induction false} UnchangedUpTo(n: nat, text: string)
    requires n <= |PASSES| && forall p: Pass :: NoMatch(Pattern(p), text)
    ensures After(n, text) == text
  {
    if n > 0 {
      UnchangedUpTo(n - 1, text);
      SubIdentity(Pattern(PASSES[n - 1]), Placeholder(PASSES[n - 1]), text);
    }
  }

  lemma {:induction false} BracketsGrow(n: nat, text: string)
    requires n <= |PASSES|
    ensures Brackets(After(n, text)) >= Brackets(text)
  {
    if n > 0 {
      BracketsGrow(n - 1, text);
      PassShape(PASSES[n - 1]);
      SubBrackets(Pattern(PASSES[n - 1]), Placeholder(PASSES[n - 1]), After(n - 1, text));
    }
  }

  lemma {:induction false} UnchangedBy(n: nat, text: string, p: Pass)
    requires n <= |PASSES| && Brackets(After(n, text)) == Brackets(text) && Position(p) < n
    ensures After(n, text) == text && NoMatch(Pattern(p), text)
  {
    hide Pattern, Placeholder, NoMatch, Brackets;
    var q := PASSES[n - 1];
    BracketsGrow(n - 1, text);
    PassShape(q);
    SubBrackets(Pattern(q), Placeholder(q), After(n - 1, text));
    SubIdentity(Pattern(q), Placeholder(q), After(n - 1, text));
    if n > 1 {
      UnchangedBy(n - 1, text, if p == q then PASSES[0] else p);
    }
  }

  /** An item of some kind is in the text. */
  ghost predicate HasItem(text: string) { exists p: Pass, i: nat, j: nat :: IsItem(p, text, i, j) }

  lemma ChangedIffItem(text: string)
    ensures RedactText(text) != text <==> HasItem(text)
  {
    hide RedactText, IsItem;
    UnchangedIffNothingMatches(text);
    if RedactText(text) != text {
      var p: Pass :| !NoMatchOf(p, text);
    }
    if HasItem(text) {
      var p: Pass, i: nat, j: nat :| IsItem(p, text, i, j);
      assert !NoMatchOf(p, text);
    }
  }

  /**
   * Redacting twice, which the event log does to text the API has redacted already, is not always the
   * same as redacting once.  It is exactly when no phone number shows in the redacted text.
   */
  lemma SecondRedaction(text: string)
    ensures RedactText(RedactText(text)) == RedactText(text) <==> NoMatchOf(Phone, RedactText(text))
  {
    hide RedactText, NoMatchOf;
    UnchangedIffNothingMatches(RedactText(text));
    forall p: Pass | p != Phone ensures NoMatchOf(p, RedactText(text)) { NoResidue(p, text); }
  }

  lemma RedactNonempty(text: string)
    ensures RedactText(text) == "" <==> text == ""
  {
    RedactIsAllPasses(text);
    AfterNonempty(|PASSES|, text);
  }

  lemma {:induction false} AfterNonempty(n: nat, text: string)
    requires n <= |PASSES|
    ensures After(n, text) == "" <==> text == ""
  {
    if n > 0 {
      AfterNonempty(n - 1, text);
      PlaceholderShape(PASSES[n - 1]);
      SubNonempty(Pattern(PASSES[n - 1]), Placeholder(PASSES[n - 1]), After(n - 1, text));
    }
  }
}
