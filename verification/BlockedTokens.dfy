/** The token rules of the validation report: what must not show in saved text, and how it is scrubbed. */
module BlockedTokens {
  import opened Text
  import opened SensitiveItems
  import opened JsonValues
  import opened EventLog
  import Regex
  import Patterns
  import Redaction

  /** What may not occur inside any text: the blocked member names, except `audio` and `arguments`. */
  const BLOCKED_REPORT_TEXT_TOKENS: seq<string> := [
    "provider_raw_arguments", "tool_call_token", "OPENAI_API_KEY", "tool_arguments", "client_secret",
    "authorization", "Authorization", "audio_bytes", "raw_audio", "sdp"]

  const BLOCKED_REDACTED := "[BLOCKED_REDACTED]"

  /** `re.match(re.escape(token), s[i:], re.IGNORECASE)` */
  predicate TokenAt(token: string, s: string, i: nat) {
    i + |token| <= |s| && forall k :: 0 <= k < |token| ==> LowerChar(s[i + k]) == LowerChar(token[k])
  }

  /** `re.search(re.escape(token), s, re.IGNORECASE)` */
  predicate Mentions(s: string, token: string) {
    exists i :: 0 <= i <= |s| && TokenAt(token, s, i)
  }

  predicate TokenFree(s: string) {
    forall t :: t in BLOCKED_REPORT_TEXT_TOKENS ==> !Mentions(s, t)
  }

  // ---------------------------------------------------------------- texts without a token

  predicate TokenChar(c: char) { IsLetter(c) || c == '_' }

  lemma TokenShape(t: string)
    requires t in BLOCKED_REPORT_TEXT_TOKENS
    ensures |t| >= 3 && forall c :: c in t ==> TokenChar(c)
  {
  }

  lemma {:induction false} TokenWindow(t: string, s: string, i: nat, z: nat)
    requires t in BLOCKED_REPORT_TEXT_TOKENS && TokenAt(t, s, i) && i <= z < i + |t|
    ensures TokenChar(s[z])
  {
    TokenShape(t);
    assert LowerChar(s[i + (z - i)]) == LowerChar(t[z - i]);
    assert t[z - i] in t;
  }

  /** A mention in `a + b` lies in `a`, in `b`, or across a joint of token characters. */
  lemma MentionInJoin(a: string, b: string, t: string)
    requires t in BLOCKED_REPORT_TEXT_TOKENS && Mentions(a + b, t)
    ensures Mentions(a, t) || Mentions(b, t) ||
            (a != "" && b != "" && TokenChar(a[|a| - 1]) && TokenChar(b[0]))
  {
    TokenShape(t);
    var i :| 0 <= i <= |a + b| && TokenAt(t, a + b, i);
    if i + |t| <= |a| {
      assert TokenAt(t, a, i);
    } else if |a| <= i {
      assert forall k {:trigger t[k]} :: 0 <= k < |t| ==> (a + b)[i + k] == b[i - |a| + k];
      assert TokenAt(t, b, i - |a|);
    } else {
      TokenWindow(t, a + b, i, |a| - 1);
      TokenWindow(t, a + b, i, |a|);
    }
  }

  /** Nothing forms across a joint at which one side shows no letter and no underscore. */
  lemma JoinTokenFree(a: string, b: string)
    requires TokenFree(a) && TokenFree(b)
    requires a == "" || b == "" || !TokenChar(a[|a| - 1]) || !TokenChar(b[0])
    ensures TokenFree(a + b)
  {
    forall t | t in BLOCKED_REPORT_TEXT_TOKENS
      ensures !Mentions(a + b, t)
    {
      if Mentions(a + b, t) { MentionInJoin(a, b, t); }
    }
  }

  lemma MentionInSlice(s: string, lo: nat, hi: nat, t: string)
    requires lo <= hi <= |s| && Mentions(s[lo..hi], t)
    ensures Mentions(s, t)
  {
    var i :| 0 <= i <= hi - lo && TokenAt(t, s[lo..hi], i);
    assert TokenAt(t, s, lo + i);
  }

  lemma SliceTokenFree(s: string, lo: nat, hi: nat)
    requires TokenFree(s) && lo <= hi <= |s|
    ensures TokenFree(s[lo..hi])
  {
    forall t | t in BLOCKED_REPORT_TEXT_TOKENS
      ensures !Mentions(s[lo..hi], t)
    {
      if Mentions(s[lo..hi], t) { MentionInSlice(s, lo, hi, t); }
    }
  }

  // ---------------------------------------------------------------- fixed wording

  /** The tokens other than `sdp`, in lower case. */
  const LONG_TOKENS: seq<string> := [
    "provider_raw_arguments", "tool_call_token", "openai_api_key", "tool_arguments", "client_secret",
    "authorization", "audio_bytes", "raw_audio"]

  /** A token in lower case. */
  function Lowered(t: string): string {
    match t
    case "OPENAI_API_KEY" => "openai_api_key"
    case "Authorization" => "authorization"
    case _ => t
  }

  lemma TokenCases(t: string)
    requires t in BLOCKED_REPORT_TEXT_TOKENS
    ensures t == "sdp" || Lowered(t) in LONG_TOKENS
  {
  }

  lemma KeyLowered()
    ensures var t := "OPENAI_API_KEY";
            |Lowered(t)| == |t| && forall k :: 0 <= k < |t| ==> LowerChar(t[k]) == Lowered(t)[k]
  {
  }

  lemma AuthorizationLowered()
    ensures var t := "Authorization";
            |Lowered(t)| == |t| && forall k :: 0 <= k < |t| ==> LowerChar(t[k]) == Lowered(t)[k]
  {
  }

  lemma LoweredLetter(t: string, c: char) returns (k: nat)
    requires c in Lowered(t) && LowerChar(c) == c
    ensures k < |t| && LowerChar(t[k]) == c
  {
    KeyLowered();
    AuthorizationLowered();
    assert t != "OPENAI_API_KEY" && t != "Authorization" ==> Lowered(t) == t;
    hide Lowered;
    k :| 0 <= k < |Lowered(t)| && Lowered(t)[k] == c;
  }

  /** Every long token has one of the four small letters. */
  predicate Hits(a: char, b: char, c: char, d: char) {
    forall t :: t in LONG_TOKENS ==> a in t || b in t || c in t || d in t
  }

  /** `s` has none of the four characters, in either case. */
  predicate Without(s: string, a: char, b: char, c: char, d: char) {
    forall i :: 0 <= i < |s| ==>
      LowerChar(s[i]) != a && LowerChar(s[i]) != b && LowerChar(s[i]) != c && LowerChar(s[i]) != d
  }

  /** Nowhere does `second` follow `first`, in either case. */
  predicate NoPair(s: string, first: char, second: char) {
    forall i :: 0 <= i < |s| - 1 ==> LowerChar(s[i]) == first ==> LowerChar(s[i + 1]) != second
  }

  lemma MentionHasLetter(s: string, t: string, c: char)
    requires Mentions(s, t) && c in Lowered(t) && LowerChar(c) == c
    ensures exists i :: 0 <= i < |s| && LowerChar(s[i]) == c
  {
    var i :| 0 <= i <= |s| && TokenAt(t, s, i);
    var k := LoweredLetter(t, c);
    assert LowerChar(s[i + k]) == LowerChar(t[k]);
  }

  lemma MentionHasPair(s: string, t: string, k: nat)
    requires Mentions(s, t) && k + 1 < |t|
    ensures !NoPair(s, LowerChar(t[k]), LowerChar(t[k + 1]))
  {
    var i :| 0 <= i <= |s| && TokenAt(t, s, i);
    var z := i + k;
    assert LowerChar(s[i + k]) == LowerChar(t[k]) && LowerChar(s[i + (k + 1)]) == LowerChar(t[k + 1]);
    assert LowerChar(s[z]) == LowerChar(t[k]) && LowerChar(s[z + 1]) == LowerChar(t[k + 1]);
  }

  predicate IsLower(c: char) { LowerChar(c) == c }

  /** A text that lacks a letter of each token, and no letter of which makes `dp`, is token-free. */
  lemma LackingIsTokenFree(s: string, a: char, b: char, c: char, d: char)
    requires IsLower(a) && IsLower(b) && IsLower(c) && IsLower(d)
    requires Hits(a, b, c, d) && Without(s, a, b, c, d) && NoPair(s, 'd', 'p')
    ensures TokenFree(s)
  {
    hide BLOCKED_REPORT_TEXT_TOKENS, LONG_TOKENS, Mentions, Lowered;
    forall t | t in BLOCKED_REPORT_TEXT_TOKENS
      ensures !Mentions(s, t)
    {
      if Mentions(s, t) {
        TokenCases(t);
        if t == "sdp" {
          MentionHasPair(s, t, 1);
        } else {
          var l :| (l == a || l == b || l == c || l == d) && l in Lowered(t);
          MentionHasLetter(s, t, l);
        }
      }
    }
  }

  /** Letters that the fixed wording can do without. */
  lemma LetterSets()
    ensures Hits('_', 'z', 'z', 'z') && Hits('l', 'w', 'y', 'z') && Hits('n', 'w', 'y', 'y') && Hits('e', 'u', 'u', 'u')
  {
    hide Hits;
    MarkAndRareLetters();
    CommonLetters();
  }

  lemma MarkAndRareLetters()
    ensures Hits('_', 'z', 'z', 'z') && Hits('l', 'w', 'y', 'z')
  {
  }

  lemma CommonLetters()
    ensures Hits('n', 'w', 'y', 'y') && Hits('e', 'u', 'u', 'u')
  {
  }

  lemma MoreLetterSets()
    ensures Hits('a', 'i', 'i', 'i') && Hits('c', 'k', 'u', 'u') && Hits('k', 't', 'w', 'w') && Hits('p', 't', 'u', 'u')
  {
    hide Hits;
    VowelSets();
    ConsonantSets();
  }

  lemma VowelSets()
    ensures Hits('a', 'i', 'i', 'i') && Hits('c', 'k', 'u', 'u')
  {
  }

  lemma ConsonantSets()
    ensures Hits('k', 't', 'w', 'w') && Hits('p', 't', 'u', 'u')
  {
  }

  /** Prose: no underscore and no `z`. */
  lemma ProseIsTokenFree(s: string)
    requires Without(s, '_', 'z', 'z', 'z') && NoPair(s, 'd', 'p')
    ensures TokenFree(s)
  {
    hide Hits;
    LetterSets();
    LackingIsTokenFree(s, '_', 'z', 'z', 'z');
  }

  // ---------------------------------------------------------------- redaction keeps a text token-free

  lemma PlaceholderIsTokenFree(p: Patterns.Pass)
    ensures TokenFree(Patterns.Placeholder(p))
  {
    hide TokenFree;
    ContactPlaceholders();
    OtherPlaceholders();
  }

  lemma ContactPlaceholders()
    ensures TokenFree("[EMAIL_REDACTED]") && TokenFree("[PHONE_REDACTED]")
  {
    hide TokenFree, Hits;
    LetterSets();
    LackingIsTokenFree("[EMAIL_REDACTED]", 'n', 'w', 'y', 'y');
    LackingIsTokenFree("[PHONE_REDACTED]", 'l', 'w', 'y', 'z');
  }

  lemma OtherPlaceholders()
    ensures TokenFree("[ORDER_REDACTED]") && TokenFree("[SECRET_REDACTED]")
  {
    hide TokenFree, Hits;
    LetterSets();
    LackingIsTokenFree("[ORDER_REDACTED]", 'l', 'w', 'y', 'z');
    LackingIsTokenFree("[SECRET_REDACTED]", 'l', 'w', 'y', 'z');
  }

  /** A substitution pass puts brackets around what it inserts, so it cannot complete a token. */
  lemma BracketedEnd(replacement: string)
    requires Regex.Bracketed(replacement)
    ensures replacement != "" && replacement[0] == '[' && replacement[|replacement| - 1] == ']'
  {
  }

  lemma {:induction false} SubKeepsTokenFree(re: Regex.Re, replacement: string, s: string, from: nat)
    requires from <= |s| && TokenFree(s) && TokenFree(replacement) && Regex.Bracketed(replacement)
    ensures TokenFree(Regex.SubFrom(re, replacement, s, from))
    decreases |s| - from
  {
    hide TokenFree, Regex.Ends, Regex.Search, Regex.Bracketed;
    BracketedEnd(replacement);
    match Regex.Search(re, s, from)
    case Nowhere =>
      SliceTokenFree(s, from, |s|);
      assert s[from..] == s[from..|s|];
    case At(b, e) =>
      if e == from {
        SliceTokenFree(s, from, |s|);
        assert s[from..] == s[from..|s|];
      } else {
        var rest := Regex.SubFrom(re, replacement, s, e);
        SubKeepsTokenFree(re, replacement, s, e);
        SliceTokenFree(s, from, b);
        JoinTokenFree(s[from..b], replacement);
        assert (s[from..b] + replacement)[|s[from..b] + replacement| - 1] == ']';
        JoinTokenFree(s[from..b] + replacement, rest);
      }
  }

  lemma RedactionKeepsTokenFree(text: string)
    requires TokenFree(text)
    ensures TokenFree(Redaction.RedactText(text))
  {
    hide TokenFree;
    Redaction.RedactIsAllPasses(text);
    PassesKeepTokenFree(|Redaction.PASSES|, text);
  }

  lemma {:induction false} PassesKeepTokenFree(n: nat, text: string)
    requires n <= |Redaction.PASSES| && TokenFree(text)
    ensures TokenFree(Redaction.After(n, text))
  {
    hide TokenFree;
    if n > 0 {
      var p := Redaction.PASSES[n - 1];
      PassesKeepTokenFree(n - 1, text);
      PlaceholderIsTokenFree(p);
      Redaction.PlaceholderShape(p);
      SubKeepsTokenFree(Patterns.Pattern(p), Patterns.Placeholder(p), Redaction.After(n - 1, text), 0);
    }
  }

  // ---------------------------------------------------------------- scrubbing

  /** A text that mentions a token is replaced as a whole. */
  function ScrubText(s: string): string { if TokenFree(s) then s else BLOCKED_REDACTED }

  lemma BlockedRedactedIsTokenFree()
    ensures TokenFree(BLOCKED_REDACTED)
  {
    hide TokenFree, Hits;
    LetterSets();
    LackingIsTokenFree("[BLOCKED_REDACTED]", 'n', 'w', 'y', 'y');
  }

  lemma ScrubbedTextIsTokenFree(s: string)
    ensures TokenFree(ScrubText(s))
  {
    BlockedRedactedIsTokenFree();
  }

  /** `re.escape(token)` with `re.IGNORECASE`, as a pattern. */
  function TokenPattern(token: string): Regex.Re { Regex.Lit(token, true) }

  lemma TokenAtIsMatch(s: string, token: string, i: nat)
    requires i + |token| <= |s|
    ensures TokenAt(token, s, i) <==> Regex.Lang(TokenPattern(token), s, i, i + |token|)
  {
  }

  /** The scrubber's two ways of looking for a token, `re.search` and `re.sub`, see the same thing. */
  lemma MentionIsMatch(s: string, token: string)
    ensures Regex.NoMatch(TokenPattern(token), s) <==> !Mentions(s, token)
  {
    if Mentions(s, token) {
      var i :| 0 <= i <= |s| && TokenAt(token, s, i);
      TokenAtIsMatch(s, token, i);
    } else {
      forall i: nat, j: nat ensures !Regex.Lang(TokenPattern(token), s, i, j) {
        if Regex.Lang(TokenPattern(token), s, i, j) { TokenAtIsMatch(s, token, i); }
      }
    }
  }

  /**
   * The string case of `_scrub_blocked_tokens`: after the early return the loop of substitutions has
   * nothing left to replace, so the two together come to `ScrubText`.
   */
  method ScrubString(value: string) returns (scrubbed: string)
    ensures scrubbed == ScrubText(value)
  {
    if exists t :: t in BLOCKED_REPORT_TEXT_TOKENS && Mentions(value, t) {
      return BLOCKED_REDACTED;
    }
    scrubbed := value;
    for i := 0 to |BLOCKED_REPORT_TEXT_TOKENS|
      invariant scrubbed == value
    {
      var token := BLOCKED_REPORT_TEXT_TOKENS[i];
      MentionIsMatch(scrubbed, token);
      Regex.SubIdentity(TokenPattern(token), BLOCKED_REDACTED, scrubbed);
      scrubbed := Regex.Sub(TokenPattern(token), BLOCKED_REDACTED, scrubbed);
    }
  }

  function ScrubJson(v: Json): Json {
    match v
    case JStr(s) => JStr(ScrubText(s))
    case JArr(items) => JArr(seq(|items|, i requires 0 <= i < |items| => ScrubJson(items[i])))
    case JObj(fields) =>
      JObj(seq(|fields|, i requires 0 <= i < |fields| => Field(fields[i].key, ScrubJson(fields[i].value))))
    case _ => v
  }

  // ---------------------------------------------------------------- scanning

  const BLOCKED_REPORT_FIELD_NAME_KEYS: set<string> := {
    "provider_raw_arguments", "tool_call_token", "openai_api_key", "tool_arguments", "client_secret",
    "authorization", "audio_bytes", "raw_audio", "arguments", "audio", "sdp"}

  predicate IsReportKey(key: string) { Normalize(key) in BLOCKED_REPORT_FIELD_NAME_KEYS }

  /** What is blocked in reports, beside what is blocked in events. */
  const MORE_WORDS := ["openai_api_key", "arguments", "tool_arguments", "provider_raw_arguments"]

  lemma MoreWordsHaveNoDash(n: nat)
    requires n < |MORE_WORDS|
    ensures '-' !in MORE_WORDS[n]
  {
  }

  lemma ReportKeyMeaning(key: string)
    ensures IsReportKey(key) <==>
            IsBlockedKey(key) || exists n :: 0 <= n < |MORE_WORDS| && SpellsKey(key, MORE_WORDS[n])
  {
    hide Normalize, SpellsKey;
    forall n | 0 <= n < |MORE_WORDS| ensures Normalize(key) == MORE_WORDS[n] <==> SpellsKey(key, MORE_WORDS[n]) {
      MoreWordsHaveNoDash(n);
      SpellingIsNormal(key, MORE_WORDS[n]);
    }
    assert forall w :: w in BLOCKED_REPORT_FIELD_NAME_KEYS <==> w in BLOCKED_EVENT_KEYS || w in MORE_WORDS;
  }

  /** All of these words but `audio` and `arguments` are looked for in texts. */
  predicate IsTextWord(w: string) { w in BLOCKED_WORDS + MORE_WORDS && w != "audio" && w != "arguments" }

  lemma LongTokensDiffer(w: string)
    requires w in LONG_TOKENS
    ensures w != "audio" && w != "arguments"
  {
    assert |"audio"| == 5 && |"arguments"| == 9 && "arguments"[0] == 'a';
    assert |w| > 5 && (|w| == 9 ==> w[0] == 'r');
  }

  lemma LongTokensAreListed(w: string)
    requires w in LONG_TOKENS
    ensures w in BLOCKED_WORDS + MORE_WORDS
  {
  }

  lemma TextWordsAreTokens(w: string)
    ensures IsTextWord(w) <==> w in LONG_TOKENS || w == "sdp"
  {
    hide LONG_TOKENS;
    if IsTextWord(w) { TextWordIsToken(w); }
    if w in LONG_TOKENS {
      LongTokensDiffer(w);
      LongTokensAreListed(w);
    }
    assert |"sdp"| == 3 && |"audio"| == 5 && |"arguments"| == 9;
  }

  lemma TextWordIsToken(w: string)
    requires IsTextWord(w)
    ensures w in LONG_TOKENS || w == "sdp"
  {
  }

  lemma LongTokensAreTokens(w: string)
    requires w in LONG_TOKENS || w == "sdp"
    ensures exists t :: t in BLOCKED_REPORT_TEXT_TOKENS && Lowered(t) == w
  {
    var tokens := BLOCKED_REPORT_TEXT_TOKENS;
    assert tokens[2] == "OPENAI_API_KEY" && Lowered(tokens[2]) == "openai_api_key";
    var t := if w == "openai_api_key" then "OPENAI_API_KEY" else w;
    assert t in tokens && Lowered(t) == w;
  }

  lemma LoweredToken(t: string)
    requires t in BLOCKED_REPORT_TEXT_TOKENS
    ensures |Lowered(t)| == |t| && forall k :: 0 <= k < |t| ==> LowerChar(t[k]) == Lowered(t)[k]
  {
    KeyLowered();
    AuthorizationLowered();
  }

  lemma TokenIsWord(t: string, s: string, i: nat)
    requires t in BLOCKED_REPORT_TEXT_TOKENS
    ensures TokenAt(t, s, i) <==> WordAtIgnoringCase(s, i, Lowered(t))
    ensures TokenAt(t, s, i) ==> Mentions(s, t)
  {
    hide BLOCKED_REPORT_TEXT_TOKENS, Lowered;
    LoweredToken(t);
    var w := Lowered(t);
    if TokenAt(t, s, i) {
      forall k | i <= k < i + |w| ensures LowerChar(s[k]) == w[k - i] { assert LowerChar(s[i + (k - i)]) == w[k - i]; }
    }
  }

  /** A text is free of tokens exactly if none of these words stands anywhere in it, in any case. */
  lemma TokenFreeMeaning(s: string)
    ensures TokenFree(s) <==> forall w, i: nat :: IsTextWord(w) ==> !WordAtIgnoringCase(s, i, w)
  {
    hide BLOCKED_REPORT_TEXT_TOKENS, LONG_TOKENS, Lowered, TokenAt, WordAtIgnoringCase, IsTextWord;
    if TokenFree(s) {
      forall w, i: nat | IsTextWord(w) ensures !WordAtIgnoringCase(s, i, w) {
        TextWordsAreTokens(w);
        LongTokensAreTokens(w);
        var t :| t in BLOCKED_REPORT_TEXT_TOKENS && Lowered(t) == w;
        TokenIsWord(t, s, i);
        assert !Mentions(s, t);
      }
    } else {
      var t :| t in BLOCKED_REPORT_TEXT_TOKENS && Mentions(s, t);
      var i :| 0 <= i <= |s| && TokenAt(t, s, i);
      TokenIsWord(t, s, i);
      TokenCases(t);
      TextWordsAreTokens(Lowered(t));
      SdpLowered();
    }
  }

  lemma SdpLowered()
    ensures Lowered("sdp") == "sdp"
  {
    assert |"OPENAI_API_KEY"| == 14 && |"Authorization"| == 13;
  }

  /** `_contains_blocked_report_key_or_text` */
  predicate ContainsBlocked(v: Json) {
    match v
    case JStr(s) => !TokenFree(s)
    case JArr(items) => exists i :: 0 <= i < |items| && ContainsBlocked(items[i])
    case JObj(fields) =>
      exists i :: 0 <= i < |fields| && (IsReportKey(fields[i].key) || ContainsBlocked(fields[i].value))
    case _ => false
  }

  /** `_blocked_secret_scan`: two tests, of which the second makes the first superfluous. */
  predicate BlockedSecretScan(v: Json) {
    if BlockedPaths(v, "") != [] then false else !ContainsBlocked(v)
  }

  /** Some member name in the tree is a report key. */
  predicate HasReportKey(v: Json) {
    match v
    case JArr(items) => exists i :: 0 <= i < |items| && HasReportKey(items[i])
    case JObj(fields) =>
      exists i :: 0 <= i < |fields| && (IsReportKey(fields[i].key) || HasReportKey(fields[i].value))
    case _ => false
  }

  lemma {:induction false} EventKeysAreReportKeys(v: Json, prefix: string)
    ensures BlockedPaths(v, prefix) != [] ==> ContainsBlocked(v)
    decreases v, 0
  {
    match v
    case JArr(items) => ItemEventKeys(items, prefix, 0);
    case JObj(fields) => FieldEventKeys(fields, prefix);
    case _ =>
  }

  lemma {:induction false} ItemEventKeys(items: seq<Json>, prefix: string, index: nat)
    ensures ItemPaths(items, prefix, index) != [] ==> exists i :: 0 <= i < |items| && ContainsBlocked(items[i])
    decreases items, 1
  {
    if items != [] {
      EventKeysAreReportKeys(items[0], IndexPath(prefix, index));
      ItemEventKeys(items[1..], prefix, index + 1);
      assert forall i :: 0 <= i < |items[1..]| ==> items[1..][i] == items[i + 1];
    }
  }

  lemma {:induction false} FieldEventKeys(fields: seq<Field>, prefix: string)
    ensures FieldPaths(fields, prefix) != [] ==>
            exists i :: 0 <= i < |fields| && (IsReportKey(fields[i].key) || ContainsBlocked(fields[i].value))
    decreases fields, 1
  {
    if fields != [] {
      EventKeysAreReportKeys(fields[0].value, KeyPath(prefix, fields[0].key));
      FieldEventKeys(fields[1..], prefix);
      assert forall i :: 0 <= i < |fields[1..]| ==> fields[1..][i] == fields[i + 1];
      assert BLOCKED_EVENT_KEYS <= BLOCKED_REPORT_FIELD_NAME_KEYS;
    }
  }

  /** The scan is just the second of its two tests. */
  lemma ScanIsOneTest(v: Json)
    ensures BlockedSecretScan(v) <==> !ContainsBlocked(v)
  {
    EventKeysAreReportKeys(v, "");
  }

  /** Scrubbing leaves nothing for the scan but member names, and those it does not touch. */
  lemma {:induction false} ScrubDefeatsScan(v: Json)
    ensures BlockedSecretScan(ScrubJson(v)) <==> !HasReportKey(v)
  {
    ScanIsOneTest(ScrubJson(v));
    ScrubLeavesKeysOnly(v);
  }

  lemma {:induction false} ScrubLeavesKeysOnly(v: Json)
    ensures ContainsBlocked(ScrubJson(v)) <==> HasReportKey(v)
  {
    match v
    case JStr(s) => ScrubbedTextIsTokenFree(s);
    case JArr(items) =>
      forall i | 0 <= i < |items| ensures ContainsBlocked(ScrubJson(items[i])) <==> HasReportKey(items[i]) {
        ScrubLeavesKeysOnly(items[i]);
      }
      assert forall i :: 0 <= i < |items| ==> ScrubJson(v).items[i] == ScrubJson(items[i]);
    case JObj(fields) =>
      forall i | 0 <= i < |fields|
        ensures ContainsBlocked(ScrubJson(fields[i].value)) <==> HasReportKey(fields[i].value)
      {
        ScrubLeavesKeysOnly(fields[i].value);
      }
      assert forall i ::
        0 <= i < |fields| ==> ScrubJson(v).fields[i] == Field(fields[i].key, ScrubJson(fields[i].value));
    case _ =>
  }
}
