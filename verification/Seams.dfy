/** Where redacted texts meet: joining two clean texts makes no match, if the joint is right. */
module Seams {
  import opened Text
  import opened Regex
  import opened SensitiveItems
  import opened Patterns
  import opened Redaction
  import opened BlockedTokens

  /** Characters that are in no match, a phone number apart, and in no word. */
  const SEALS := "#|:"

  /** A bearer token is `bearer`, white space up to `m`, and the token. */
  lemma BearerShape(s: string, i: nat, j: nat) returns (m: nat)
    requires IsBearer(s, i, j)
    ensures BearerLayout(s, i, m, j)
  {
    m :| BearerLayout(s, i, m, j);
  }

  /** Neither end of an item is white space, and no seal is in it, nor white space but for a bearer token. */
  lemma ItemCharacters(p: Pass, s: string, i: nat, j: nat)
    requires p != Phone && IsItem(p, s, i, j)
    ensures i < j <= |s| && !IsSpace(s[i]) && !IsSpace(s[j - 1])
    ensures forall k :: i <= k < j ==> s[k] !in SEALS && (p != Bearer ==> !IsSpace(s[k]))
  {
    match p
    case Email => EmailCharacters(s, i, j);
    case Order => OrderCharacters(s, i, j);
    case OpenAiKey =>
    case Bearer => BearerCharacters(s, i, j);
    case Jwt => JwtCharacters(s, i, j);
  }

  lemma SolidEnds(p: Pass, s: string, i: nat, j: nat)
    requires p != Phone && IsItem(p, s, i, j)
    ensures i < j <= |s| && !IsSpace(s[i]) && !IsSpace(s[j - 1])
  {
    hide IsItem;
    ItemCharacters(p, s, i, j);
  }

  lemma SealIsOutside(p: Pass, s: string, i: nat, j: nat, k: nat)
    requires p != Phone && IsItem(p, s, i, j) && i <= k < j && j <= |s|
    ensures s[k] !in SEALS
  {
    hide IsItem;
    ItemCharacters(p, s, i, j);
  }

  lemma EmailCharacters(s: string, i: nat, j: nat)
    requires IsEmail(s, i, j)
    ensures i < j <= |s| && forall k :: i <= k < j ==> s[k] !in SEALS && !IsSpace(s[k])
  {
  }

  lemma OrderCharacters(s: string, i: nat, j: nat)
    requires IsOrder(s, i, j)
    ensures i < j <= |s| && forall k :: i <= k < j ==> s[k] !in SEALS && !IsSpace(s[k])
  {
    var a: nat, b: nat, d: nat :| OrderLayout(s, i, a, b, d, j);
  }

  lemma BearerCharacters(s: string, i: nat, j: nat)
    requires IsBearer(s, i, j)
    ensures i < j <= |s| && !IsSpace(s[i]) && !IsSpace(s[j - 1]) && forall k :: i <= k < j ==> s[k] !in SEALS
  {
    var m := BearerShape(s, i, j);
    assert LowerChar(s[i]) == 'b';
  }

  lemma JwtCharacters(s: string, i: nat, j: nat)
    requires IsJwt(s, i, j)
    ensures i < j <= |s| && forall k :: i <= k < j ==> s[k] !in SEALS && !IsSpace(s[k])
  {
  }

  /** An item inside the part `t` of `s` from `lo` on is one of `t`, if the part is not cut out of a word. */
  lemma ItemInPart(p: Pass, s: string, lo: nat, t: string, i: nat, j: nat)
    requires p != Phone && IsItem(p, s, i, j) && lo <= i < j <= lo + |t| <= |s| && s[lo..lo + |t|] == t
    requires i == lo ==> !WordBefore(s, lo)
    requires j == lo + |t| ==> !WordAt(s, j)
    ensures IsItem(p, t, i - lo, j - lo)
  {
    hide Pattern, Lang, MinLength, Avoids, Fenced, Needs, IsItem;
    PatternShape(p);
    ItemIsMatch(p, s, i, j);
    assert forall z {:trigger s[z]} :: lo <= z < lo + |t| ==> s[z] == t[z - lo];
    assert CopiedFrom(s, i, j - i, t, 0 - lo);
    Transfer(Pattern(p), s, i, j - i, t, 0 - lo, i, j);
    ItemIsMatch(p, t, i - lo, j - lo);
  }

  // ---------------------------------------------------------------- seals

  /** The first visible character, if there is one, is a seal. */
  predicate Sealed(s: string) {
    s == "" || if IsSpace(s[0]) then Sealed(s[1..]) else s[0] in SEALS
  }

  /** The last one is. */
  predicate SealedEnd(s: string) {
    s == "" || if IsSpace(s[|s| - 1]) then SealedEnd(s[..|s| - 1]) else s[|s| - 1] in SEALS
  }

  lemma {:induction false} SealBefore(s: string, z: nat) returns (k: nat)
    requires Sealed(s) && z < |s| && !IsSpace(s[z])
    ensures k <= z && s[k] in SEALS
  {
    if IsSpace(s[0]) {
      k := SealBefore(s[1..], z - 1);
      k := k + 1;
    } else {
      k := 0;
    }
  }

  lemma {:induction false} SealAfter(s: string, z: nat) returns (k: nat)
    requires SealedEnd(s) && z < |s| && !IsSpace(s[z])
    ensures z <= k < |s| && s[k] in SEALS
    decreases |s|
  {
    if IsSpace(s[|s| - 1]) {
      k := SealAfter(s[..|s| - 1], z);
    } else {
      k := |s| - 1;
    }
  }

  // ---------------------------------------------------------------- joints

  /** No item crosses a sealed joint. */
  lemma NothingCrosses(p: Pass, a: string, b: string, i: nat, j: nat)
    requires p != Phone && IsItem(p, a + b, i, j) && (SealedEnd(a) || Sealed(b))
    ensures i < j <= |a + b| && (j <= |a| || |a| <= i)
    ensures j == |a| ==> !WordAt(a + b, j)
    ensures i == |a| ==> !WordBefore(a + b, i)
  {
    hide IsItem, SEALS;
    var s := a + b;
    SolidEnds(p, s, i, j);
    if Sealed(b) {
      if i < |a| < j {
        var k := SealBefore(b, j - 1 - |a|);
        SealIsOutside(p, s, i, j, |a| + k);
      }
      if b != "" { FirstIsNoWord(b); }
      if i == |a| { SealIsOutside(p, s, i, j, i); }
    } else {
      if i < |a| < j {
        var k := SealAfter(a, i);
        SealIsOutside(p, s, i, j, k);
      }
      if a != "" { LastIsNoWord(a); }
      if j == |a| { SealIsOutside(p, s, i, j, j - 1); }
    }
  }

  lemma FirstIsNoWord(s: string)
    requires Sealed(s) && s != ""
    ensures !IsWord(s[0]) && (IsSpace(s[0]) || s[0] in SEALS)
  {
  }

  lemma LastIsNoWord(s: string)
    requires SealedEnd(s) && s != ""
    ensures !IsWord(s[|s| - 1]) && (IsSpace(s[|s| - 1]) || s[|s| - 1] in SEALS)
  {
  }

  /** Clean texts with a seal on one side of the joint make a clean text. */
  lemma Joint(a: string, b: string)
    requires CleanText(a) && CleanText(b) && (SealedEnd(a) || Sealed(b))
    ensures CleanText(a + b)
  {
    hide IsItem, Sealed, SealedEnd;
    forall p: Pass, i: nat, j: nat | p != Phone
      ensures !IsItem(p, a + b, i, j)
    {
      if IsItem(p, a + b, i, j) {
        assert NoMatchOf(p, a) && NoMatchOf(p, b);
        NothingCrosses(p, a, b, i, j);
        if j <= |a| { ItemInPart(p, a + b, 0, a, i, j); } else { ItemInPart(p, a + b, |a|, b, i, j); }
      }
    }
  }

  /** `bear`, in any case, at offset `i`. */
  predicate BearAt(s: string, i: int) {
    0 <= i && i + 3 < |s| && s[i] in "bB" && s[i + 1] in "eE" && s[i + 2] in "aA" && s[i + 3] in "rR"
  }

  ghost predicate NoBearer(s: string) { forall i :: !BearAt(s, i) }

  /** Without the word `bearer`, a line can be followed by anything clean. */
  lemma NewLine(a: string, b: string)
    requires CleanText(a) && CleanText(b) && NoBearer(a)
    ensures CleanText(a + "\n" + b)
  {
    hide IsItem;
    var s := a + "\n" + b;
    forall p: Pass, i: nat, j: nat | p != Phone
      ensures !IsItem(p, s, i, j)
    {
      if IsItem(p, s, i, j) {
        assert NoMatchOf(p, a) && NoMatchOf(p, b);
        ItemCharacters(p, s, i, j);
        BreakIsOutside(p, a, b, i, j);
        if j <= |a| { ItemInPart(p, s, 0, a, i, j); } else { ItemInPart(p, s, |a| + 1, b, i, j); }
      }
    }
  }

  lemma BreakIsOutside(p: Pass, a: string, b: string, i: nat, j: nat)
    requires p != Phone && IsItem(p, a + "\n" + b, i, j) && NoBearer(a)
    ensures j <= |a| || |a| < i
  {
    hide IsItem;
    var s := a + "\n" + b;
    assert s[|a|] == '\n' && IsSpace('\n');
    ItemCharacters(p, s, i, j);
    if i <= |a| < j && p == Bearer {
      assert !BearAt(a, i);
      BearLetters(s, i, j);
    }
  }

  lemma BearLetters(s: string, i: nat, j: nat)
    requires IsItem(Bearer, s, i, j)
    ensures BearAt(s, i)
    ensures forall k :: i <= k < i + 4 ==> !IsSpace(s[k])
  {
    var m := BearerShape(s, i, j);
    assert LowerChar(s[i]) == 'b' && LowerChar(s[i + 1]) == 'e' && LowerChar(s[i + 2]) == 'a';
    assert LowerChar(s[i + 3]) == 'r';
  }

  lemma PairlessHasNoBearer(s: string)
    requires NoPair(s, 'b', 'e') || NoPair(s, 'a', 'r')
    ensures NoBearer(s)
  {
  }

  /** A label that ends in white space, and what it labels. */
  lemma NoBearerJoint(a: string, b: string)
    requires NoBearer(a) && NoBearer(b) && a != "" && IsSpace(a[|a| - 1])
    ensures NoBearer(a + b)
  {
    var s := a + b;
    assert IsSpace(s[|a| - 1]);
    forall i ensures !BearAt(s, i) {
      assert !BearAt(a, i) && !BearAt(b, i - |a|);
    }
  }

  // ---------------------------------------------------------------- fixed wording

  /** Printable, and not a dot, a slash, a digit or an at sign. */
  predicate PlainChar(c: char) { ' ' <= c < '.' || '9' < c < '@' || '@' < c }

  /** Plain characters without `c`, and without the letter `d` in either case. */
  predicate Wording(s: string, c: char, d: char) {
    forall k :: 0 <= k < |s| ==> PlainChar(s[k]) && s[k] != c && LowerChar(s[k]) != d
  }

  lemma LetterlessHasNoBearer(s: string, d: char)
    requires d in "bear" && forall k :: 0 <= k < |s| ==> LowerChar(s[k]) != d
    ensures NoBearer(s)
  {
  }

  lemma BearerHasSpace(s: string, i: nat, j: nat)
    requires IsBearer(s, i, j)
    ensures exists k :: 0 <= k < |s| && IsSpace(s[k])
  {
    var m := BearerShape(s, i, j);
    assert IsSpace(s[i + 6]);
  }

  lemma NoBearerIn(s: string, i: nat, j: nat)
    requires forall k :: 0 <= k < |s| ==> PlainChar(s[k])
    requires NoBearer(s) || forall k :: 0 <= k < |s| ==> s[k] != ' '
    ensures !IsBearer(s, i, j)
  {
    hide IsBearer;
    if IsBearer(s, i, j) {
      BearLetters(s, i, j);
      BearerHasSpace(s, i, j);
    }
  }

  /** Plain text without a dash or a `k`, and without the word `bearer` or white space. */
  lemma PlainIsClean(s: string, c: char)
    requires c in "-k" && forall k :: 0 <= k < |s| ==> PlainChar(s[k]) && s[k] != c
    requires NoBearer(s) || forall k :: 0 <= k < |s| ==> s[k] != ' '
    ensures CleanText(s)
  {
    forall p: Pass, i: nat, j: nat | p != Phone ensures !IsItem(p, s, i, j) {
      if p == Bearer { NoBearerIn(s, i, j); }
    }
  }

  lemma WordingIsClean(s: string, c: char, d: char)
    requires c in "-k" && d in "bear " && Wording(s, c, d)
    ensures CleanText(s) && (d != ' ' ==> NoBearer(s))
  {
    hide CleanText, NoBearer;
    if d != ' ' { LetterlessHasNoBearer(s, d); }
    PlainIsClean(s, c);
  }
}
