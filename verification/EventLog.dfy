/** The blocked-key rules of the event log, and the redaction of JSON trees. */
module EventLog {
  import opened Text
  import opened JsonValues
  import opened Sorting
  import Redaction

  const BLOCKED_EVENT_KEYS: set<string> :=
    {"raw_audio", "audio", "audio_bytes", "client_secret", "tool_call_token", "authorization", "sdp"}

  function NormalizeChar(c: char): char { if c == '-' then '_' else LowerChar(c) }

  /** `key.lower().replace("-", "_")` */
  function Normalize(key: string): (r: string)
    ensures |r| == |key| && forall i :: 0 <= i < |key| ==> r[i] == NormalizeChar(key[i])
  {
    seq(|key|, i requires 0 <= i < |key| => NormalizeChar(key[i]))
  }

  predicate IsBlockedKey(key: string) { Normalize(key) in BLOCKED_EVENT_KEYS }

  // ---------------------------------------------------------------- specification functions

  /** Every member with a blocked key removed, at every depth. */
  function Sanitize(v: Json): Json
    decreases v, 0
  {
    match v
    case JArr(items) => JArr(SanitizeItems(items))
    case JObj(fields) => JObj(SanitizeFields(fields))
    case _ => v
  }

  function SanitizeItems(items: seq<Json>): (r: seq<Json>)
    ensures |r| == |items|
    decreases items, 1
  {
    if items == [] then [] else [Sanitize(items[0])] + SanitizeItems(items[1..])
  }

  function SanitizeFields(fields: seq<Field>): seq<Field>
    decreases fields, 1
  {
    if fields == [] then []
    else if IsBlockedKey(fields[0].key) then SanitizeFields(fields[1..])
    else [Field(fields[0].key, Sanitize(fields[0].value))] + SanitizeFields(fields[1..])
  }

  function KeyPath(prefix: string, key: string): string {
    if prefix != "" then prefix + "." + key else key
  }

  function IndexPath(prefix: string, index: nat): string { prefix + "[" + Decimal(index) + "]" }

  /** The blocked key paths of `v` in document order, a key before what is below it. */
  function BlockedPaths(v: Json, prefix: string): seq<string>
    decreases v, 0
  {
    match v
    case JArr(items) => ItemPaths(items, prefix, 0)
    case JObj(fields) => FieldPaths(fields, prefix)
    case _ => []
  }

  function ItemPaths(items: seq<Json>, prefix: string, index: nat): seq<string>
    decreases items, 1
  {
    if items == [] then []
    else BlockedPaths(items[0], IndexPath(prefix, index)) + ItemPaths(items[1..], prefix, index + 1)
  }

  function FieldPaths(fields: seq<Field>, prefix: string): seq<string>
    decreases fields, 1
  {
    if fields == [] then []
    else
      var path := KeyPath(prefix, fields[0].key);
      (if IsBlockedKey(fields[0].key) then [path] else []) +
      BlockedPaths(fields[0].value, path) + FieldPaths(fields[1..], prefix)
  }

  /** A blocked key occurs at some depth of `v`. */
  ghost predicate HasBlockedKey(v: Json) { SomeKey(v, IsBlockedKey) }

  /** Every string in the tree redacted, everything else as it was. */
  function RedactJson(v: Json): Json {
    match v
    case JStr(s) => JStr(Redaction.RedactText(s))
    case JArr(items) => JArr(seq(|items|, i requires 0 <= i < |items| => RedactJson(items[i])))
    case JObj(fields) =>
      JObj(seq(|fields|, i requires 0 <= i < |fields| => Field(fields[i].key, RedactJson(fields[i].value))))
    case _ => v
  }

  // ---------------------------------------------------------------- the loops

  lemma StrLeTotalOrder()
    ensures TotalOrder(StrLe)
  {
    forall a, b ensures StrLe(a, b) || StrLe(b, a) { StrLeTotal(a, b); }
    forall a, b | StrLe(a, b) && StrLe(b, a) ensures a == b { StrLeAntisymmetric(a, b); }
    forall a, b, c | StrLe(a, b) && StrLe(b, c) ensures StrLe(a, c) { StrLeTransitive(a, b, c); }
  }

  /** Sorted lists joined and sorted again: `xs` and `below` merge into the paths seen so far. */
  lemma SortedBelow(blocked: seq<string>, paths: seq<string>, rest: multiset<string>, all: multiset<string>)
    requires multiset(blocked) + multiset(paths) + rest == all
    ensures multiset(blocked + Sort(paths, StrLe)) + rest == all
  {
    StrLeTotalOrder();
    SortCorrect(paths, StrLe);
  }

  lemma FieldPathsFrom(fields: seq<Field>, i: nat, prefix: string)
    requires i < |fields|
    ensures var path := KeyPath(prefix, fields[i].key);
            multiset(FieldPaths(fields[i..], prefix)) ==
              multiset(if IsBlockedKey(fields[i].key) then [path] else []) +
              multiset(BlockedPaths(fields[i].value, path)) + multiset(FieldPaths(fields[i + 1..], prefix))
  {
  }

  lemma ItemPathsFrom(items: seq<Json>, i: nat, prefix: string)
    requires i < |items|
    ensures multiset(ItemPaths(items[i..], prefix, i)) ==
              multiset(BlockedPaths(items[i], IndexPath(prefix, i))) +
              multiset(ItemPaths(items[i + 1..], prefix, i + 1))
  {
  }

  lemma NothingLeft(prefix: string, index: nat)
    ensures FieldPaths([], prefix) == [] && ItemPaths([], prefix, index) == [] && Sort([], StrLe) == []
  {
  }

  /**
   * Sorting the paths at every level of the tree comes to one sort of all of them: none is lost and
   * none is listed twice, not even below a key that is itself blocked.
   */
  method FindBlockedEventKeys(v: Json, prefix: string) returns (paths: seq<string>)
    ensures paths == Sort(BlockedPaths(v, prefix), StrLe)
    decreases v
  {
    hide Sort, FieldPaths, ItemPaths, IsBlockedKey, KeyPath, IndexPath;
    StrLeTotalOrder();
    var blocked: seq<string> := [];
    match v
    case JObj(fields) =>
      ghost var all := multiset(FieldPaths(fields, prefix));
      for i := 0 to |fields|
        invariant multiset(blocked) + multiset(FieldPaths(fields[i..], prefix)) == all
      {
        FieldPathsFrom(fields, i, prefix);
        var path := KeyPath(prefix, fields[i].key);
        if IsBlockedKey(fields[i].key) {
          blocked := blocked + [path];
        }
        var below := FindBlockedEventKeys(fields[i].value, path);
        SortedBelow(blocked, BlockedPaths(fields[i].value, path), multiset(FieldPaths(fields[i + 1..], prefix)), all);
        blocked := blocked + below;
      }
      NothingLeft(prefix, 0);
      assert fields[|fields|..] == [];
      SortUnique(blocked, FieldPaths(fields, prefix), StrLe);
      paths := Sort(blocked, StrLe);
    case JArr(items) =>
      ghost var all := multiset(ItemPaths(items, prefix, 0));
      for i := 0 to |items|
        invariant multiset(blocked) + multiset(ItemPaths(items[i..], prefix, i)) == all
      {
        ItemPathsFrom(items, i, prefix);
        var path := IndexPath(prefix, i);
        var below := FindBlockedEventKeys(items[i], path);
        SortedBelow(blocked, BlockedPaths(items[i], path), multiset(ItemPaths(items[i + 1..], prefix, i + 1)), all);
        blocked := blocked + below;
      }
      NothingLeft(prefix, |items|);
      assert items[|items|..] == [];
      SortUnique(blocked, ItemPaths(items, prefix, 0), StrLe);
      paths := Sort(blocked, StrLe);
    case _ =>
      NothingLeft(prefix, 0);
      paths := [];
  }

  /** Sorting neither loses the last path nor makes one up. */
  lemma FoundIffBlocked(v: Json, prefix: string)
    ensures Sort(BlockedPaths(v, prefix), StrLe) == [] <==> BlockedPaths(v, prefix) == []
  {
  }

  /** `_sanitize_mapping`, which fills a new dictionary. */
  method SanitizeMapping(fields: seq<Field>) returns (sanitized: seq<Field>)
    requires DistinctKeys(fields)
    ensures sanitized == SanitizeFields(fields)
  {
    sanitized := [];
    for i := 0 to |fields|
      invariant sanitized + SanitizeFields(fields[i..]) == SanitizeFields(fields)
      invariant forall k :: 0 <= k < |sanitized| ==> exists j :: 0 <= j < i && fields[j].key == sanitized[k].key
    {
      assert fields[i..][0] == fields[i] && fields[i..][1..] == fields[i + 1..];
      if IsBlockedKey(fields[i].key) { continue; }
      PutFresh(sanitized, fields[i].key, Sanitize(fields[i].value));
      sanitized := Put(sanitized, fields[i].key, Sanitize(fields[i].value));
    }
  }

  /** `_redact_value`: the flag says whether anything below was changed. */
  method RedactValue(v: Json) returns (redacted: Json, applied: bool)
    requires WellFormed(v)
    ensures redacted == RedactJson(v)
    ensures applied <==> redacted != v
    decreases v
  {
    hide Redaction.RedactText;
    applied := false;
    match v
    case JStr(s) =>
      redacted := JStr(Redaction.RedactText(s));
      applied := Redaction.RedactionApplied(s);
    case JObj(fields) =>
      var out: seq<Field> := [];
      for i := 0 to |fields|
        invariant out == RedactJson(v).fields[..i]
        invariant applied <==> out != fields[..i]
      {
        var nested, nestedApplied := RedactValue(fields[i].value);
        RedactedKeys(fields, i);
        PutFresh(out, fields[i].key, nested);
        assert fields[..i + 1] == fields[..i] + [fields[i]];
        out := Put(out, fields[i].key, nested);
        applied := applied || nestedApplied;
      }
      redacted := JObj(out);
    case JArr(items) =>
      var out: seq<Json> := [];
      for i := 0 to |items|
        invariant out == RedactJson(v).items[..i]
        invariant applied <==> out != items[..i]
      {
        var item, itemApplied := RedactValue(items[i]);
        assert items[..i + 1] == items[..i] + [items[i]];
        out := out + [item];
        applied := applied || itemApplied;
      }
      redacted := JArr(out);
    case _ =>
      redacted := v;
  }

  lemma RedactedKeys(fields: seq<Field>, i: nat)
    requires DistinctKeys(fields) && i < |fields|
    ensures !HasKey(RedactJson(JObj(fields)).fields[..i], fields[i].key)
  {
  }

  // ---------------------------------------------------------------- which paths are listed

  /** In any case, with a dash or an underscore where `word` has an underscore. */
  predicate SpellsKey(key: string, word: string) {
    |key| == |word| && forall k :: 0 <= k < |key| ==> LowerChar(key[k]) == word[k] || (key[k] == '-' && word[k] == '_')
  }

  const BLOCKED_WORDS :=
    ["audio", "audio_bytes", "authorization", "client_secret", "raw_audio", "sdp", "tool_call_token"]

  lemma SpellingIsNormal(key: string, word: string)
    requires '-' !in word
    ensures Normalize(key) == word <==> SpellsKey(key, word)
  {
    if SpellsKey(key, word) {
      forall k | 0 <= k < |key| ensures Normalize(key)[k] == word[k] { assert word[k] in word; }
    }
    if Normalize(key) == word { assert forall k :: 0 <= k < |key| ==> NormalizeChar(key[k]) == word[k]; }
  }

  lemma BlockedKeyMeaning(key: string)
    ensures IsBlockedKey(key) <==> exists n :: 0 <= n < |BLOCKED_WORDS| && SpellsKey(key, BLOCKED_WORDS[n])
  {
    hide Normalize, SpellsKey;
    forall n | 0 <= n < |BLOCKED_WORDS|
      ensures Normalize(key) == BLOCKED_WORDS[n] <==> SpellsKey(key, BLOCKED_WORDS[n])
    {
      WordsHaveNoDash(n);
      SpellingIsNormal(key, BLOCKED_WORDS[n]);
    }
    assert forall w :: w in BLOCKED_EVENT_KEYS <==> w in BLOCKED_WORDS;
  }

  lemma WordsHaveNoDash(n: nat)
    requires n < |BLOCKED_WORDS|
    ensures '-' !in BLOCKED_WORDS[n]
  {
  }

  /** The position `path` is that of a member with a blocked key. */
  predicate IsBlockedMember(v: Json, path: seq<nat>) {
    path != [] && path[0] < Width(v) &&
    if |path| == 1 then v.JObj? && IsBlockedKey(v.fields[path[0]].key)
    else IsBlockedMember(Child(v, path[0]), path[1..])
  }

  /** A position in words: keys after dots, indices in brackets, and no dot at the beginning. */
  function Spelled(v: Json, path: seq<nat>, prefix: string): string
    decreases path
  {
    if path == [] then prefix
    else
      var step :=
        if v.JObj? && path[0] < |v.fields| then (if prefix == "" then "" else ".") + v.fields[path[0]].key
        else "[" + Decimal(path[0]) + "]";
      Spelled(Child(v, path[0]), path[1..], prefix + step)
  }

  lemma {:induction false} FieldPathsTell(fields: seq<Field>, prefix: string, p: string)
    ensures p in FieldPaths(fields, prefix) <==>
            exists k :: 0 <= k < |fields| && InFieldPaths(fields[k], prefix, p)
  {
    hide BlockedPaths, KeyPath, IsBlockedKey;
    if fields != [] {
      FieldPathsTell(fields[1..], prefix, p);
      assert forall k :: 0 <= k < |fields[1..]| ==> fields[1..][k] == fields[k + 1];
      assert fields == [fields[0]] + fields[1..];
    }
  }

  predicate InFieldPaths(f: Field, prefix: string, p: string) {
    (IsBlockedKey(f.key) && p == KeyPath(prefix, f.key)) || p in BlockedPaths(f.value, KeyPath(prefix, f.key))
  }

  predicate InItemPaths(item: Json, prefix: string, k: nat, p: string) { p in BlockedPaths(item, IndexPath(prefix, k)) }

  lemma {:induction false} ItemPathsTell(items: seq<Json>, prefix: string, i: nat, p: string)
    requires i <= |items|
    ensures p in ItemPaths(items[i..], prefix, i) <==>
            exists k :: i <= k < |items| && InItemPaths(items[k], prefix, k, p)
    decreases |items| - i
  {
    hide BlockedPaths, IndexPath;
    if i < |items| {
      ItemPathsTell(items, prefix, i + 1, p);
      assert items[i..][0] == items[i] && items[i..][1..] == items[i + 1..];
      assert p in ItemPaths(items[i..], prefix, i) <==>
             InItemPaths(items[i], prefix, i, p) || p in ItemPaths(items[i + 1..], prefix, i + 1);
    }
  }

  /** One step down, and the rest of the way. */
  lemma StepDown(v: Json, k: nat, rest: seq<nat>, prefix: string)
    requires k < Width(v)
    ensures var path, child := [k] + rest, Child(v, k);
            var step := if v.JObj? then KeyPath(prefix, v.fields[k].key) else IndexPath(prefix, k);
            && Spelled(v, path, prefix) == Spelled(child, rest, step)
            && (IsBlockedMember(v, path) <==>
                  if rest == [] then v.JObj? && IsBlockedKey(v.fields[k].key) else IsBlockedMember(child, rest))
  {
    var path := [k] + rest;
    assert path[0] == k && path[1..] == rest;
    if !v.JObj? { assert prefix + ("[" + Decimal(k) + "]") == IndexPath(prefix, k); }
    if v.JObj? {
      assert prefix + ((if prefix == "" then "" else ".") + v.fields[k].key) == KeyPath(prefix, v.fields[k].key);
    }
  }

  /** `p` spells out where a blocked key stands. */
  ghost predicate NamesBlocked(v: Json, prefix: string, p: string) {
    exists path: seq<nat> :: IsBlockedMember(v, path) && p == Spelled(v, path, prefix)
  }

  /** Member or item `k`, or something below it, is blocked, and spelled so. */
  ghost predicate BlockedFrom(v: Json, k: nat, prefix: string, p: string)
    requires k < Width(v)
  {
    var step := if v.JObj? then KeyPath(prefix, v.fields[k].key) else IndexPath(prefix, k);
    (v.JObj? && IsBlockedKey(v.fields[k].key) && p == step) || NamesBlocked(Child(v, k), step, p)
  }

  /** The blocked members of a value are its own and those below. */
  lemma NamesBelowOrHere(v: Json, prefix: string, p: string)
    ensures NamesBlocked(v, prefix, p) <==> exists k: nat :: k < Width(v) && BlockedFrom(v, k, prefix, p)
  {
    hide KeyPath, IndexPath, IsBlockedKey;
    if NamesBlocked(v, prefix, p) {
      var path: seq<nat> :| IsBlockedMember(v, path) && p == Spelled(v, path, prefix);
      var k, rest := path[0], path[1..];
      assert path == [k] + rest;
      StepDown(v, k, rest, prefix);
      assert BlockedFrom(v, k, prefix, p);
    }
    if k: nat :| k < Width(v) && BlockedFrom(v, k, prefix, p) {
      var step := if v.JObj? then KeyPath(prefix, v.fields[k].key) else IndexPath(prefix, k);
      if NamesBlocked(Child(v, k), step, p) {
        var rest: seq<nat> :| IsBlockedMember(Child(v, k), rest) && p == Spelled(Child(v, k), rest, step);
        StepDown(v, k, rest, prefix);
        assert IsBlockedMember(v, [k] + rest);
      } else {
        StepDown(v, k, [], prefix);
        assert IsBlockedMember(v, [k] + []);
      }
    }
  }

  lemma {:induction false} PathsAreSpelled(v: Json, prefix: string, p: string)
    ensures p in BlockedPaths(v, prefix) <==> NamesBlocked(v, prefix, p)
  {
    hide NamesBlocked, KeyPath, IndexPath, IsBlockedKey;
    NamesBelowOrHere(v, prefix, p);
    match v
    case JObj(fields) =>
      FieldPathsTell(fields, prefix, p);
      forall k | 0 <= k < |fields|
        ensures BlockedFrom(v, k, prefix, p) <==> InFieldPaths(fields[k], prefix, p)
      {
        PathsAreSpelled(fields[k].value, KeyPath(prefix, fields[k].key), p);
      }
    case JArr(items) =>
      ItemPathsTell(items, prefix, 0, p);
      assert items[0..] == items;
      forall k | 0 <= k < |items|
        ensures BlockedFrom(v, k, prefix, p) <==> InItemPaths(items[k], prefix, k, p)
      {
        PathsAreSpelled(items[k], IndexPath(prefix, k), p);
      }
    case _ =>
  }

  /** The search lists the blocked members by their paths, and nothing else. */
  lemma ListedIffBlocked(v: Json, p: string)
    ensures p in Sort(BlockedPaths(v, ""), StrLe) <==> NamesBlocked(v, "", p)
  {
    hide Sort, BlockedPaths, NamesBlocked;
    StrLeTotalOrder();
    var paths := BlockedPaths(v, "");
    SortCorrect(paths, StrLe);
    assert p in Sort(paths, StrLe) <==> p in multiset(Sort(paths, StrLe));
    assert p in paths <==> p in multiset(paths);
    PathsAreSpelled(v, "", p);
  }

  // ---------------------------------------------------------------- what sanitising achieves

  lemma {:induction false} PathsFindBlockedKeys(v: Json, prefix: string)
    ensures BlockedPaths(v, prefix) == [] <==> !HasBlockedKey(v)
    decreases v, 0
  {
    match v
    case JArr(items) =>
      ItemPathsFindBlockedKeys(items, prefix, 0);
      assert forall i :: 0 <= i < |items| ==> Child(v, i) == items[i];
      SomeKeyBelowOrHere(v, IsBlockedKey);
    case JObj(fields) =>
      FieldPathsFindBlockedKeys(fields, prefix);
      assert forall i :: 0 <= i < |fields| ==> Child(v, i) == fields[i].value && Keys(v)[i] == fields[i].key;
      SomeKeyBelowOrHere(v, IsBlockedKey);
    case _ =>
      SomeKeyBelowOrHere(v, IsBlockedKey);
  }

  lemma {:induction false} ItemPathsFindBlockedKeys(items: seq<Json>, prefix: string, index: nat)
    ensures ItemPaths(items, prefix, index) == [] <==> forall i :: 0 <= i < |items| ==> !HasBlockedKey(items[i])
    decreases items, 1
  {
    if items != [] {
      PathsFindBlockedKeys(items[0], IndexPath(prefix, index));
      ItemPathsFindBlockedKeys(items[1..], prefix, index + 1);
      assert items == [items[0]] + items[1..];
    }
  }

  lemma {:induction false} FieldPathsFindBlockedKeys(fields: seq<Field>, prefix: string)
    ensures FieldPaths(fields, prefix) == [] <==>
            forall i :: 0 <= i < |fields| ==> !IsBlockedKey(fields[i].key) && !HasBlockedKey(fields[i].value)
    decreases fields, 1
  {
    if fields != [] {
      PathsFindBlockedKeys(fields[0].value, KeyPath(prefix, fields[0].key));
      FieldPathsFindBlockedKeys(fields[1..], prefix);
      assert fields == [fields[0]] + fields[1..];
    }
  }

  /** Nothing is found after sanitising. */
  lemma {:induction false} FindAfterSanitize(v: Json, prefix: string)
    ensures BlockedPaths(Sanitize(v), prefix) == []
    decreases v, 0
  {
    match v
    case JArr(items) => FindAfterSanitizeItems(items, prefix, 0);
    case JObj(fields) => FindAfterSanitizeFields(fields, prefix);
    case _ =>
  }

  lemma {:induction false} FindAfterSanitizeItems(items: seq<Json>, prefix: string, index: nat)
    ensures ItemPaths(SanitizeItems(items), prefix, index) == []
    decreases items, 1
  {
    if items != [] {
      FindAfterSanitize(items[0], IndexPath(prefix, index));
      FindAfterSanitizeItems(items[1..], prefix, index + 1);
    }
  }

  lemma {:induction false} FindAfterSanitizeFields(fields: seq<Field>, prefix: string)
    ensures FieldPaths(SanitizeFields(fields), prefix) == []
    decreases fields, 1
  {
    if fields != [] {
      FindAfterSanitize(fields[0].value, KeyPath(prefix, fields[0].key));
      FindAfterSanitizeFields(fields[1..], prefix);
    }
  }

  /** Sanitising changes exactly the values in which something is found. */
  lemma {:induction false} SanitizeIdentityIffNothingFound(v: Json, prefix: string)
    ensures Sanitize(v) == v <==> BlockedPaths(v, prefix) == []
    decreases v, 0
  {
    match v
    case JArr(items) => SanitizeItemsIdentity(items, prefix, 0);
    case JObj(fields) => SanitizeFieldsIdentity(fields, prefix);
    case _ =>
  }

  lemma {:induction false} SanitizeItemsIdentity(items: seq<Json>, prefix: string, index: nat)
    ensures SanitizeItems(items) == items <==> ItemPaths(items, prefix, index) == []
    decreases items, 1
  {
    if items != [] {
      SanitizeIdentityIffNothingFound(items[0], IndexPath(prefix, index));
      SanitizeItemsIdentity(items[1..], prefix, index + 1);
      assert items == [items[0]] + items[1..];
      assert SanitizeItems(items)[1..] == SanitizeItems(items[1..]);
    }
  }

  lemma {:induction false} SanitizeFieldsIdentity(fields: seq<Field>, prefix: string)
    ensures |SanitizeFields(fields)| <= |fields|
    ensures SanitizeFields(fields) == fields <==> FieldPaths(fields, prefix) == []
    decreases fields, 1
  {
    hide IsBlockedKey, KeyPath;
    if fields != [] {
      SanitizeIdentityIffNothingFound(fields[0].value, KeyPath(prefix, fields[0].key));
      SanitizeFieldsIdentity(fields[1..], prefix);
      assert fields == [fields[0]] + fields[1..];
      if !IsBlockedKey(fields[0].key) {
        assert SanitizeFields(fields)[1..] == SanitizeFields(fields[1..]);
      }
    }
  }

  /** Sanitising twice is sanitising once. */
  lemma SanitizeIdempotent(v: Json)
    ensures Sanitize(Sanitize(v)) == Sanitize(v)
  {
    FindAfterSanitize(v, "");
    SanitizeIdentityIffNothingFound(Sanitize(v), "");
  }

  // ---------------------------------------------------------------- what redaction of a tree achieves

  /** How a redacted node may differ from the original: only a string leaf may, and only by `RedactText`. */
  predicate RedactedNode(before: Json, after: Json) {
    match before
    case JStr(s) => after == JStr(Redaction.RedactText(s))
    case JArr(items) => after.JArr? && |after.items| == |items|
    case JObj(fields) => after.JObj? && Keys(after) == Keys(before)
    case _ => after == before
  }

  lemma RedactedHere(v: Json)
    ensures Width(RedactJson(v)) == Width(v) && RedactedNode(v, RedactJson(v))
    ensures forall k :: 0 <= k < Width(v) ==> Child(RedactJson(v), k) == RedactJson(Child(v, k))
  {
    hide Redaction.RedactText;
    if v.JObj? { assert Keys(RedactJson(v)) == Keys(v); }
  }

  /** Redaction keeps the shape: the same paths exist, with the same keys, lengths and other leaves. */
  lemma {:induction false} RedactionKeepsShape(v: Json, path: seq<nat>)
    ensures HasPath(RedactJson(v), path) <==> HasPath(v, path)
    ensures HasPath(v, path) ==> RedactedNode(At(v, path), At(RedactJson(v), path))
    decreases |path|
  {
    hide RedactJson, RedactedNode, Width, Child;
    RedactedHere(v);
    if path != [] && path[0] < Width(v) { RedactionKeepsShape(Child(v, path[0]), path[1..]); }
  }

  /** It does not matter whether an event is sanitised before or after it is redacted. */
  lemma {:induction false} SanitizeCommutesWithRedact(v: Json)
    ensures Sanitize(RedactJson(v)) == RedactJson(Sanitize(v))
    decreases v, 0
  {
    match v
    case JArr(items) => SanitizeItemsCommutes(items);
    case JObj(fields) => SanitizeFieldsCommutes(fields);
    case _ =>
  }

  lemma {:induction false} SanitizeItemsCommutes(items: seq<Json>)
    ensures JArr(SanitizeItems(RedactJson(JArr(items)).items)) == RedactJson(JArr(SanitizeItems(items)))
    decreases items, 1
  {
    if items != [] {
      SanitizeCommutesWithRedact(items[0]);
      SanitizeItemsCommutes(items[1..]);
      assert RedactJson(JArr(items)).items[1..] == RedactJson(JArr(items[1..])).items;
      assert RedactJson(JArr(SanitizeItems(items))).items ==
             [RedactJson(Sanitize(items[0]))] + RedactJson(JArr(SanitizeItems(items[1..]))).items;
    }
  }

  lemma {:induction false} SanitizeFieldsCommutes(fields: seq<Field>)
    ensures JObj(SanitizeFields(RedactJson(JObj(fields)).fields)) == RedactJson(JObj(SanitizeFields(fields)))
    decreases fields, 1
  {
    if fields != [] {
      SanitizeCommutesWithRedact(fields[0].value);
      SanitizeFieldsCommutes(fields[1..]);
      assert RedactJson(JObj(fields)).fields[1..] == RedactJson(JObj(fields[1..])).fields;
      if !IsBlockedKey(fields[0].key) {
        assert RedactJson(JObj(SanitizeFields(fields))).fields ==
               [Field(fields[0].key, RedactJson(Sanitize(fields[0].value)))] +
               RedactJson(JObj(SanitizeFields(fields[1..]))).fields;
      }
    }
  }

  lemma {:induction false} SanitizedWellFormed(v: Json)
    requires WellFormed(v)
    ensures WellFormed(Sanitize(v))
    decreases v, 0
  {
    match v
    case JArr(items) => SanitizedItemsWellFormed(items);
    case JObj(fields) => SanitizeKeepsWellFormed(fields);
    case _ =>
  }

  lemma {:induction false} SanitizedItemsWellFormed(items: seq<Json>)
    requires forall i :: 0 <= i < |items| ==> WellFormed(items[i])
    ensures forall i :: 0 <= i < |items| ==> WellFormed(SanitizeItems(items)[i])
    decreases items, 1
  {
    if items != [] {
      SanitizedWellFormed(items[0]);
      SanitizedItemsWellFormed(items[1..]);
    }
  }

  lemma {:induction false} SanitizeKeepsWellFormed(fields: seq<Field>)
    requires WellFormed(JObj(fields))
    ensures WellFormed(JObj(SanitizeFields(fields)))
    ensures forall k :: HasKey(SanitizeFields(fields), k) ==> HasKey(fields, k)
    decreases fields, 1
  {
    if fields != [] {
      SanitizedWellFormed(fields[0].value);
      var rest := fields[1..];
      assert WellFormed(JObj(rest)) by {
        assert forall i :: 0 <= i < |rest| ==> rest[i] == fields[i + 1];
      }
      SanitizeKeepsWellFormed(rest);
      assert !HasKey(rest, fields[0].key);
      assert !HasKey(SanitizeFields(rest), fields[0].key);
      var out := SanitizeFields(fields);
      forall k | HasKey(out, k) ensures HasKey(fields, k) {
        var i :| 0 <= i < |out| && out[i].key == k;
        if !IsBlockedKey(fields[0].key) && i == 0 {
          assert fields[0].key == k;
        } else {
          assert HasKey(SanitizeFields(rest), k);
          var j :| 0 <= j < |rest| && rest[j].key == k;
          assert fields[j + 1].key == k;
        }
      }
    }
  }
}
