/** The append-only files of the event log: what is written for an event, and what a written line keeps. */
module EventFiles {
  import opened Common
  import opened Text
  import opened JsonValues
  import opened EventLog
  import opened Sorting
  import Redaction

  // ---------------------------------------------------------------- member order

  predicate KeyLe(a: Field, b: Field) { StrLe(a.key, b.key) }

  /** What `json.dumps(…, sort_keys=True)` does to the order of members, at every depth. */
  function SortKeys(v: Json): Json {
    match v
    case JArr(items) => JArr(seq(|items|, i requires 0 <= i < |items| => SortKeys(items[i])))
    case JObj(fields) =>
      JObj(Sort(seq(|fields|, i requires 0 <= i < |fields| => Field(fields[i].key, SortKeys(fields[i].value))), KeyLe))
    case _ => v
  }

  /** The members of each object, at every depth, are in the order of their keys. */
  ghost predicate InOrder(v: Json) {
    match v
    case JArr(items) => forall i :: 0 <= i < |items| ==> InOrder(items[i])
    case JObj(fields) => Ordered(fields, KeyLe) && forall i :: 0 <= i < |fields| ==> InOrder(fields[i].value)
    case _ => true
  }

  /** The members of an object before they are put in order. */
  function Inside(fields: seq<Field>): seq<Field> {
    seq(|fields|, i requires 0 <= i < |fields| => Field(fields[i].key, SortKeys(fields[i].value)))
  }

  lemma KeyOrder()
    ensures TotalPreorder(KeyLe)
  {
    forall a, b ensures KeyLe(a, b) || KeyLe(b, a) { StrLeTotal(a.key, b.key); }
    forall a, b, c | KeyLe(a, b) && KeyLe(b, c) ensures KeyLe(a, c) { StrLeTransitive(a.key, b.key, c.key); }
  }

  /** A sorted object has the members of the original, each of them sorted inside. */
  lemma SortedMembers(fields: seq<Field>)
    ensures var sorted := SortKeys(JObj(fields)).fields;
            && Ordered(sorted, KeyLe) && |sorted| == |fields|
            && (forall f :: f in sorted <==> f in Inside(fields))
  {
    KeyOrder();
    var inside, sorted := Inside(fields), SortKeys(JObj(fields)).fields;
    SortCorrect(inside, KeyLe);
    assert |multiset(sorted)| == |sorted| && |multiset(inside)| == |inside|;
    forall f ensures f in sorted <==> f in inside {
      assert f in sorted <==> f in multiset(sorted);
      assert f in inside <==> f in multiset(inside);
    }
  }

  lemma {:induction false} SortKeysOrders(v: Json)
    ensures InOrder(SortKeys(v))
  {
    match v
    case JArr(items) =>
      forall i | 0 <= i < |items| ensures InOrder(SortKeys(v).items[i]) { SortKeysOrders(items[i]); }
    case JObj(fields) =>
      var inside, sorted := Inside(fields), SortKeys(v).fields;
      SortedMembers(fields);
      forall i | 0 <= i < |inside| ensures InOrder(inside[i].value) { SortKeysOrders(fields[i].value); }
      forall i | 0 <= i < |sorted| ensures InOrder(sorted[i].value) {
        assert sorted[i] in inside;
        var k :| 0 <= k < |inside| && inside[k] == sorted[i];
      }
    case _ =>
  }

  /** A member goes before those of the same key, so the first of them stays the first. */
  lemma {:induction false} InsertKeepsGet(f: Field, fields: seq<Field>, key: string)
    ensures Get(Insert(f, fields, KeyLe), key) == if key == f.key then f.value else Get(fields, key)
  {
    if fields != [] {
      StrLeTotal(f.key, f.key);
      InsertKeepsGet(f, fields[1..], key);
    }
  }

  lemma {:induction false} SortKeepsGet(fields: seq<Field>, key: string)
    ensures Get(Sort(fields, KeyLe), key) == Get(fields, key)
  {
    if fields != [] {
      SortKeepsGet(fields[1..], key);
      InsertKeepsGet(fields[0], Sort(fields[1..], KeyLe), key);
    }
  }

  lemma {:induction false} InsideKeepsGet(fields: seq<Field>, key: string)
    ensures Get(Inside(fields), key) == SortKeys(Get(fields, key))
  {
    if fields != [] {
      InsideKeepsGet(fields[1..], key);
      assert Inside(fields)[1..] == Inside(fields[1..]);
    }
  }

  /** Looking a member up does not depend on the order. */
  lemma SortKeysKeepsGet(fields: seq<Field>, key: string)
    ensures Get(SortKeys(JObj(fields)).fields, key) == SortKeys(Get(fields, key))
  {
    SortKeepsGet(Inside(fields), key);
    InsideKeepsGet(fields, key);
  }

  /** A member that is so itself, or has such a key below it. */
  ghost predicate Tells(f: Field, p: string -> bool) { p(f.key) || SomeKey(f.value, p) }

  lemma SomeMemberTells(fields: seq<Field>, p: string -> bool)
    ensures SomeKey(JObj(fields), p) <==> exists f :: f in fields && Tells(f, p)
  {
    var v := JObj(fields);
    SomeKeyBelowOrHere(v, p);
    assert forall i :: 0 <= i < |fields| ==> Keys(v)[i] == fields[i].key && Child(v, i) == fields[i].value;
    if f :| f in fields && Tells(f, p) {
      var i :| 0 <= i < |fields| && fields[i] == f;
      assert p(Keys(v)[i]) || SomeKey(Child(v, i), p);
    }
    if i :| 0 <= i < |Keys(v)| && p(Keys(v)[i]) { assert fields[i] in fields && Tells(fields[i], p); }
    if i :| 0 <= i < Width(v) && SomeKey(Child(v, i), p) { assert fields[i] in fields && Tells(fields[i], p); }
  }

  lemma SomeItemTells(items: seq<Json>, p: string -> bool)
    ensures SomeKey(JArr(items), p) <==> exists i :: 0 <= i < |items| && SomeKey(items[i], p)
  {
    SomeKeyBelowOrHere(JArr(items), p);
    assert forall i :: 0 <= i < |items| ==> Child(JArr(items), i) == items[i];
  }

  lemma {:induction false} SortKeysKeepsKeys(v: Json, p: string -> bool)
    ensures SomeKey(SortKeys(v), p) <==> SomeKey(v, p)
  {
    hide SomeKey, Sort;
    match v
    case JArr(items) =>
      SomeItemTells(items, p);
      SomeItemTells(SortKeys(v).items, p);
      forall i | 0 <= i < |items| ensures SomeKey(SortKeys(v).items[i], p) <==> SomeKey(items[i], p) {
        SortKeysKeepsKeys(items[i], p);
      }
    case JObj(fields) =>
      forall i | 0 <= i < |fields| ensures Tells(Inside(fields)[i], p) <==> Tells(fields[i], p) {
        SortKeysKeepsKeys(fields[i].value, p);
      }
      SomeMemberTells(fields, p);
      SomeMemberTells(SortKeys(v).fields, p);
      SortedMembers(fields);
      SameAtEachPosition(fields, Inside(fields), p);
    case _ =>
  }

  lemma SameAtEachPosition(xs: seq<Field>, ys: seq<Field>, p: string -> bool)
    requires |xs| == |ys| && forall i :: 0 <= i < |xs| ==> (Tells(xs[i], p) <==> Tells(ys[i], p))
    ensures (exists f :: f in xs && Tells(f, p)) <==> (exists f :: f in ys && Tells(f, p))
  {
    if f :| f in xs && Tells(f, p) {
      var i :| 0 <= i < |xs| && xs[i] == f;
      assert ys[i] in ys;
    }
    if f :| f in ys && Tells(f, p) {
      var i :| 0 <= i < |ys| && ys[i] == f;
      assert xs[i] in xs;
    }
  }

  // ---------------------------------------------------------------- the texts of a value

  /** Every string of the value, at every depth, is as `p` says. */
  ghost predicate AllTexts(v: Json, p: string -> bool) {
    match v
    case JStr(s) => p(s)
    case JArr(items) => forall i :: 0 <= i < |items| ==> AllTexts(items[i], p)
    case JObj(fields) => forall i :: 0 <= i < |fields| ==> AllTexts(fields[i].value, p)
    case _ => true
  }

  lemma {:induction false} SortKeysKeepsTexts(v: Json, p: string -> bool)
    ensures AllTexts(SortKeys(v), p) <==> AllTexts(v, p)
  {
    match v
    case JArr(items) =>
      forall i | 0 <= i < |items| ensures AllTexts(SortKeys(v).items[i], p) <==> AllTexts(items[i], p) {
        SortKeysKeepsTexts(items[i], p);
      }
    case JObj(fields) =>
      SortedMembers(fields);
      var sorted := SortKeys(v).fields;
      forall i | 0 <= i < |fields|
        ensures AllTexts(SortKeys(fields[i].value), p) <==> AllTexts(fields[i].value, p)
        ensures Inside(fields)[i] in sorted
      {
        SortKeysKeepsTexts(fields[i].value, p);
        assert Inside(fields)[i] in Inside(fields);
      }
      forall j | 0 <= j < |fields| ensures sorted[j] in Inside(fields) { assert sorted[j] in sorted; }
    case _ =>
  }

  lemma {:induction false} RedactedTextsAreClean(v: Json)
    ensures AllTexts(RedactJson(v), Redaction.CleanText)
  {
    hide Redaction.CleanText, Redaction.RedactText;
    match v
    case JStr(s) => Redaction.RedactedIsClean(s);
    case JArr(items) => forall i | 0 <= i < |items| { RedactedTextsAreClean(items[i]); }
    case JObj(fields) => forall i | 0 <= i < |fields| { RedactedTextsAreClean(fields[i].value); }
    case _ =>
  }

  // ---------------------------------------------------------------- what is written for an event

  const FLAG := "redaction_applied"

  datatype RedactionResult = RedactionResult(value: seq<Field>, applied: bool)

  /** `redact_mapping` of a redactor that the repository was given; nothing is known of it. */
  type Redactor = seq<Field> -> RedactionResult

  /** `redact_mapping` of `BasicTextRedactor` */
  function BasicRedaction(fields: seq<Field>): RedactionResult {
    RedactionResult(RedactJson(JObj(fields)).fields, RedactJson(JObj(fields)) != JObj(fields))
  }

  function RedactMapping(redactor: Option<Redactor>, fields: seq<Field>): RedactionResult {
    if redactor.Some? then redactor.value(fields) else BasicRedaction(fields)
  }

  /** The line made of a redacted dump. */
  function LineOf(r: RedactionResult): (line: Json)
    ensures line.JObj?
  {
    SortKeys(JObj(Put(r.value, FLAG, JBool(Truthy(Get(r.value, FLAG)) || r.applied))))
  }

  class JsonlVoiceEventRepository {
    const redactor: Option<Redactor>
    var lines: seq<Json>

    constructor (redactor: Option<Redactor>)
      ensures lines == [] && this.redactor == redactor
    {
      this.redactor, lines := redactor, [];
    }

    method Append(payload: seq<Field>)
      requires WellFormed(JObj(payload))
      modifies this
      ensures lines == old(lines) + [LineOf(RedactMapping(redactor, SanitizeFields(payload)))]
    {
      var sanitized := SanitizeMapping(payload);
      SanitizeKeepsWellFormed(payload);
      var redactionResult := Redact(redactor, sanitized);
      lines := lines + [LineOf(redactionResult)];
    }
  }

  class JsonlRealtimeTranscriptRepository {
    const redactor: Option<Redactor>
    var lines: seq<Json>

    constructor (redactor: Option<Redactor>)
      ensures lines == [] && this.redactor == redactor
    {
      this.redactor, lines := redactor, [];
    }

    method Append(payload: seq<Field>)
      requires WellFormed(JObj(payload))
      modifies this
      ensures lines == old(lines) + [LineOf(RedactMapping(redactor, payload))]
    {
      var redactionResult := Redact(redactor, payload);
      lines := lines + [LineOf(redactionResult)];
    }
  }

  /** The given redactor, or the recursive loops of the default one. */
  method Redact(redactor: Option<Redactor>, fields: seq<Field>) returns (r: RedactionResult)
    requires WellFormed(JObj(fields))
    ensures r == RedactMapping(redactor, fields)
  {
    if redactor.Some? { return redactor.value(fields); }
    var redacted, applied := RedactValue(JObj(fields));
    return RedactionResult(redacted.fields, applied);
  }

  // ---------------------------------------------------------------- what a written line keeps

  lemma {:induction false} SanitizeKeepsGet(fields: seq<Field>, key: string)
    ensures Get(SanitizeFields(fields), key) == if IsBlockedKey(key) then JNull else Sanitize(Get(fields, key))
  {
    if fields != [] { SanitizeKeepsGet(fields[1..], key); }
  }

  lemma {:induction false} RedactKeepsGet(fields: seq<Field>, key: string)
    ensures Get(RedactJson(JObj(fields)).fields, key) == RedactJson(Get(fields, key))
  {
    if fields != [] {
      RedactKeepsGet(fields[1..], key);
      assert RedactJson(JObj(fields)).fields[1..] == RedactJson(JObj(fields[1..])).fields;
    }
  }

  lemma FlagIsNotBlocked()
    ensures !IsBlockedKey(FLAG)
  {
    assert Normalize(FLAG)[8] == 'n';
  }

  lemma {:induction false} PutFlagAddsNoPath(fields: seq<Field>, b: bool)
    requires FieldPaths(fields, "") == []
    ensures FieldPaths(Put(fields, FLAG, JBool(b)), "") == []
  {
    FlagIsNotBlocked();
    if fields != [] { PutFlagAddsNoPath(fields[1..], b); }
  }

  lemma {:induction false} PutFlagAddsNoText(fields: seq<Field>, b: bool, p: string -> bool)
    requires AllTexts(JObj(fields), p)
    ensures AllTexts(JObj(Put(fields, FLAG, JBool(b))), p)
  {
    if fields != [] {
      var rest := fields[1..];
      assert forall i :: 0 <= i < |rest| ==> rest[i] == fields[i + 1];
      PutFlagAddsNoText(rest, b, p);
    }
  }

  /** Whatever is written under the default redactor shows none of the five patterns, at any depth. */
  lemma LineTextsAreClean(fields: seq<Field>)
    ensures AllTexts(LineOf(BasicRedaction(fields)), Redaction.CleanText)
  {
    hide Redaction.CleanText, SortKeys, RedactJson, AllTexts, Put;
    var r := BasicRedaction(fields);
    RedactedTextsAreClean(JObj(fields));
    RedactedIsObject(fields);
    PutFlagAddsNoText(r.value, Truthy(Get(r.value, FLAG)) || r.applied, Redaction.CleanText);
    SortKeysKeepsTexts(JObj(Put(r.value, FLAG, JBool(Truthy(Get(r.value, FLAG)) || r.applied))), Redaction.CleanText);
  }

  lemma RedactedIsObject(fields: seq<Field>)
    ensures RedactJson(JObj(fields)).JObj?
  {
  }

  lemma LineHasNoBlockedKey(payload: seq<Field>)
    ensures !HasBlockedKey(LineOf(BasicRedaction(SanitizeFields(payload))))
  {
    hide SomeKey, Get, Put, SortKeys, IsBlockedKey;
    var r := BasicRedaction(SanitizeFields(payload));
    var flag := Truthy(Get(r.value, FLAG)) || r.applied;
    SanitizeCommutesWithRedact(JObj(payload));
    FindAfterSanitize(RedactJson(JObj(payload)), "");
    PutFlagAddsNoPath(r.value, flag);
    PathsFindBlockedKeys(JObj(Put(r.value, FLAG, JBool(flag))), "");
    SortKeysKeepsKeys(JObj(Put(r.value, FLAG, JBool(flag))), IsBlockedKey);
  }

  /** The flag tells whether it was set or redaction changed anything; any other member is kept, redacted. */
  lemma LineMember(safe: seq<Field>, key: string, own: bool)
    requires Get(safe, FLAG) == JBool(own)
    ensures Get(LineOf(BasicRedaction(safe)).fields, key) ==
            if key == FLAG then JBool(own || RedactJson(JObj(safe)) != JObj(safe))
            else SortKeys(RedactJson(Get(safe, key)))
  {
    hide Get, Put;
    var r := BasicRedaction(safe);
    var flag := JBool(Truthy(Get(r.value, FLAG)) || r.applied);
    RedactKeepsGet(safe, FLAG);
    RedactKeepsGet(safe, key);
    GetPut(r.value, FLAG, flag, key);
    SortKeysKeepsGet(Put(r.value, FLAG, flag), key);
  }

  /**
   * A line of the event log, under the default redactor: no blocked key and none of the five patterns
   * at any depth; the flag is the event's own flag or "redaction changed something in what was kept";
   * every other member that is not blocked is there, sanitised and redacted.
   */
  lemma LoggedLineIsSafe(payload: seq<Field>, own: bool)
    requires Get(payload, FLAG) == JBool(own)
    ensures var line, kept := LineOf(BasicRedaction(SanitizeFields(payload))), Sanitize(JObj(payload));
            && !HasBlockedKey(line) && AllTexts(line, Redaction.CleanText)
            && Get(line.fields, FLAG) == JBool(own || RedactJson(kept) != kept)
            && forall key :: key != FLAG && !IsBlockedKey(key) ==>
                 Get(line.fields, key) == SortKeys(RedactJson(Sanitize(Get(payload, key))))
  {
    hide LineOf, BasicRedaction, HasBlockedKey, Get, IsBlockedKey, AllTexts, SortKeys, Redaction.CleanText;
    LineHasNoBlockedKey(payload);
    LineTextsAreClean(SanitizeFields(payload));
    FlagIsNotBlocked();
    SanitizeKeepsGet(payload, FLAG);
    LineMember(SanitizeFields(payload), FLAG, own);
    forall key | key != FLAG && !IsBlockedKey(key)
      ensures Get(LineOf(BasicRedaction(SanitizeFields(payload))).fields, key) ==
              SortKeys(RedactJson(Sanitize(Get(payload, key))))
    {
      SanitizeKeepsGet(payload, key);
      LineMember(SanitizeFields(payload), key, own);
    }
  }
}
