/** JSON values as `json.loads` and pydantic's `model_dump(mode="json")` hand them over. */
module JsonValues {
  import opened Common

  /** Objects list their members in order; `WellFormed` says that no object repeats a key. */
  datatype Json =
    | JNull
    | JBool(b: bool)
    | JInt(n: int)
    | JReal(r: real)
    | JStr(s: string)
    | JArr(items: seq<Json>)
    | JObj(fields: seq<Field>)

  datatype Field = Field(key: string, value: Json)

  ghost predicate DistinctKeys(fields: seq<Field>) {
    forall i, j :: 0 <= i < j < |fields| ==> fields[i].key != fields[j].key
  }

  ghost predicate WellFormed(v: Json) {
    match v
    case JArr(items) => forall i :: 0 <= i < |items| ==> WellFormed(items[i])
    case JObj(fields) => DistinctKeys(fields) && forall i :: 0 <= i < |fields| ==> WellFormed(fields[i].value)
    case _ => true
  }

  predicate HasKey(fields: seq<Field>, key: string) {
    exists i :: 0 <= i < |fields| && fields[i].key == key
  }

  function KeySet(fields: seq<Field>): set<string> { set f | f in fields :: f.key }

  /** `extra="forbid"`: the model knows every member. */
  predicate OnlyKeys(fields: seq<Field>, keys: set<string>) { KeySet(fields) <= keys }

  /** `data.get(key)`, with `JNull` for a missing key. */
  function Get(fields: seq<Field>, key: string): Json {
    if fields == [] then JNull
    else if fields[0].key == key then fields[0].value
    else Get(fields[1..], key)
  }

  /** `data[key] = value`: in place when the key is there, at the end otherwise. */
  function Put(fields: seq<Field>, key: string, value: Json): seq<Field> {
    if fields == [] then [Field(key, value)]
    else if fields[0].key == key then [Field(key, value)] + fields[1..]
    else [fields[0]] + Put(fields[1..], key, value)
  }

  lemma KeyIsThere(fields: seq<Field>, key: string)
    ensures HasKey(fields, key) <==> key in KeySet(fields)
  {
    if i :| 0 <= i < |fields| && fields[i].key == key { assert fields[i] in fields; }
  }

  /** Two keys that a look at their length and their first two letters tells apart. */
  predicate ToldApart(a: string, b: string) {
    |a| != |b| || (|a| > 1 && (a[0] != b[0] || a[1] != b[1]))
  }

  predicate EachToldApart(fields: seq<Field>) {
    forall i, j :: 0 <= i < j < |fields| ==> ToldApart(fields[i].key, fields[j].key)
  }

  /** Each key of the one list from each key of the other. */
  predicate ToldApartAcross(xs: seq<Field>, ys: seq<Field>) {
    forall i, j :: 0 <= i < |xs| && 0 <= j < |ys| ==> ToldApart(xs[i].key, ys[j].key)
  }

  lemma ToldApartIsDistinct(xs: seq<Field>, ys: seq<Field>)
    requires EachToldApart(xs) && EachToldApart(ys) && ToldApartAcross(xs, ys)
    ensures DistinctKeys(xs + ys)
  {
    hide ToldApart;
    var fields := xs + ys;
    forall i, j | 0 <= i < j < |fields| ensures fields[i].key != fields[j].key {
      if |xs| <= i {
        assert ToldApart(ys[i - |xs|].key, ys[j - |xs|].key);
      } else if j < |xs| {
        assert ToldApart(xs[i].key, xs[j].key);
      } else {
        assert ToldApart(xs[i].key, ys[j - |xs|].key);
      }
      ToldApartDiffer(fields[i].key, fields[j].key);
    }
  }

  lemma ToldApartDiffer(a: string, b: string)
    ensures ToldApart(a, b) ==> a != b
  {
  }

  lemma {:induction false} GetAt(fields: seq<Field>, k: nat)
    requires DistinctKeys(fields) && k < |fields|
    ensures Get(fields, fields[k].key) == fields[k].value
  {
    if k > 0 {
      assert fields[0].key != fields[k].key;
      GetAt(fields[1..], k - 1);
    }
  }

  /** Every member of such a list is found under its key. */
  lemma MembersAreFound(fields: seq<Field>)
    requires EachToldApart(fields)
    ensures forall k :: 0 <= k < |fields| ==> Get(fields, fields[k].key) == fields[k].value
  {
    hide Get, ToldApart;
    ToldApartIsDistinct(fields, []);
    assert fields + [] == fields;
    forall k | 0 <= k < |fields| ensures Get(fields, fields[k].key) == fields[k].value { GetAt(fields, k); }
  }

  lemma KeyIsOneOf(fields: seq<Field>, keys: set<string>, k: nat)
    requires OnlyKeys(fields, keys) && k < |fields|
    ensures fields[k].key in keys
  {
    assert fields[k] in fields;
    assert fields[k].key in KeySet(fields);
  }

  /** An object with a member `a` and no member but that. */
  lemma OneMember(fields: seq<Field>, a: string)
    requires DistinctKeys(fields) && OnlyKeys(fields, {a})
    ensures fields == [] || fields == [Field(a, Get(fields, a))]
  {
    if |fields| > 0 { KeyIsOneOf(fields, {a}, 0); }
    if |fields| > 1 { KeyIsOneOf(fields, {a}, 1); }
  }

  predicate AreTheTwo(fields: seq<Field>, a: Field, b: Field) { fields == [a, b] || fields == [b, a] }

  /** An object with no member but `a` and `b`. */
  lemma TwoMembers(fields: seq<Field>, a: string, b: string)
    requires DistinctKeys(fields) && OnlyKeys(fields, {a, b}) && a != b
    ensures |fields| <= 1 || AreTheTwo(fields, Field(a, Get(fields, a)), Field(b, Get(fields, b)))
    ensures |fields| == 1 ==> fields == [Field(a, Get(fields, a))] || fields == [Field(b, Get(fields, b))]
  {
    if |fields| > 0 { KeyIsOneOf(fields, {a, b}, 0); }
    if |fields| > 1 { KeyIsOneOf(fields, {a, b}, 1); }
    if |fields| > 2 {
      KeyIsOneOf(fields, {a, b}, 2);
      assert false;
    }
  }

  /** A member `a`, and a member `b` that may be left out if it is null. */
  lemma OneOrTwo(fields: seq<Field>, a: Field, b: Field)
    requires DistinctKeys(fields) && a.key != b.key && a.value != JNull
    ensures OnlyKeys(fields, {a.key, b.key}) && Get(fields, a.key) == a.value && Get(fields, b.key) == b.value <==>
            AreTheTwo(fields, a, b) || (b.value == JNull && fields == [a])
  {
    if OnlyKeys(fields, {a.key, b.key}) { TwoMembers(fields, a.key, b.key); }
    if AreTheTwo(fields, a, b) || (b.value == JNull && fields == [a]) {
      hide Get, OnlyKeys;
      AlsoWithout(fields, a, b);
    }
  }

  lemma AlsoWithout(fields: seq<Field>, a: Field, b: Field)
    requires a.key != b.key && (AreTheTwo(fields, a, b) || (b.value == JNull && fields == [a]))
    ensures OnlyKeys(fields, {a.key, b.key}) && Get(fields, a.key) == a.value && Get(fields, b.key) == b.value
  {
    if fields == [b, a] { assert fields[1..] == [a]; }
    if fields == [a, b] { assert fields[1..] == [b]; }
    if fields == [a] { assert fields[1..] == []; }
  }

  lemma {:induction false} PutAt(fields: seq<Field>, k: nat, value: Json)
    requires DistinctKeys(fields) && k < |fields|
    ensures Put(fields, fields[k].key, value) == fields[..k] + [Field(fields[k].key, value)] + fields[k + 1..]
  {
    if k > 0 {
      var rest := fields[1..];
      assert rest[k - 1] == fields[k] && fields[0].key != fields[k].key;
      PutAt(rest, k - 1, value);
      assert [fields[0]] + rest[..k - 1] == fields[..k] && rest[k..] == fields[k + 1..];
    }
  }

  lemma PutFresh(fields: seq<Field>, key: string, value: Json)
    requires !HasKey(fields, key)
    ensures Put(fields, key, value) == fields + [Field(key, value)]
  {
  }

  lemma GetPut(fields: seq<Field>, key: string, value: Json, other: string)
    ensures Get(Put(fields, key, value), other) == if other == key then value else Get(fields, other)
  {
  }

  /** `bool(value)` */
  predicate Truthy(v: Json) {
    match v
    case JNull => false
    case JBool(b) => b
    case JInt(n) => n != 0
    case JReal(r) => r != 0.0
    case JStr(s) => s != ""
    case JArr(items) => items != []
    case JObj(fields) => fields != []
  }

  // ---------------------------------------------------------------- leaves as models read them

  /** `str` with a minimum length of one. */
  predicate IsText(v: Json) { v.JStr? && v.s != "" }

  predicate IsTextOrNull(v: Json) { v.JNull? || v.JStr? }

  function TextOrNone(v: Json): Option<string> { if v.JStr? then Some(v.s) else None }

  /** An optional text as a dump shows it. */
  function TextJson(o: Option<string>): Json { if o.Some? then JStr(o.value) else JNull }

  /**
   * How leaves that are not texts are read: a model may take more than a literal for a flag or a
   * number, such as "3" for 3, and nothing more is asked of it than `Fair` says.
   */
  datatype Leniency = Leniency(asBool: Json -> Option<bool>, asInt: Json -> Option<int>)

  /** What is of the right type is read as it is; null, arrays and objects are refused. */
  ghost predicate Fair(l: Leniency) {
    && (forall b :: l.asBool(JBool(b)) == Some(b))
    && (forall n :: l.asInt(JInt(n)) == Some(n))
    && (forall v: Json :: v.JNull? || v.JArr? || v.JObj? ==> l.asBool(v).None? && l.asInt(v).None?)
  }

  // ---------------------------------------------------------------- positions in a value

  /** The child of `v` at position `i`: an item of an array, or the value of a member. */
  function Child(v: Json, i: nat): Json {
    match v
    case JArr(items) => if i < |items| then items[i] else JNull
    case JObj(fields) => if i < |fields| then fields[i].value else JNull
    case _ => JNull
  }

  function Width(v: Json): nat {
    match v
    case JArr(items) => |items|
    case JObj(fields) => |fields|
    case _ => 0
  }

  predicate HasPath(v: Json, path: seq<nat>) {
    path == [] || (path[0] < Width(v) && HasPath(Child(v, path[0]), path[1..]))
  }

  function At(v: Json, path: seq<nat>): Json
    requires HasPath(v, path)
  {
    if path == [] then v else At(Child(v, path[0]), path[1..])
  }

  /** The keys of an object, in order; empty for anything else. */
  function Keys(v: Json): seq<string> {
    if v.JObj? then seq(|v.fields|, i requires 0 <= i < |v.fields| => v.fields[i].key) else []
  }

  /** A key that meets `p` occurs at some depth of `v`. */
  ghost predicate SomeKey(v: Json, p: string -> bool) {
    exists path: seq<nat>, i: nat :: HasPath(v, path) && i < |Keys(At(v, path))| && p(Keys(At(v, path))[i])
  }

  /** Such a key of `v` is one of its own or one below it. */
  lemma SomeKeyBelowOrHere(v: Json, p: string -> bool)
    ensures SomeKey(v, p) <==>
            (exists i :: 0 <= i < |Keys(v)| && p(Keys(v)[i])) ||
            (exists i :: 0 <= i < Width(v) && SomeKey(Child(v, i), p))
  {
    if SomeKey(v, p) {
      var path: seq<nat>, i: nat :| HasPath(v, path) && i < |Keys(At(v, path))| && p(Keys(At(v, path))[i]);
      if path != [] {
        var c := Child(v, path[0]);
        assert HasPath(c, path[1..]) && i < |Keys(At(c, path[1..]))| && p(Keys(At(c, path[1..]))[i]);
        assert SomeKey(Child(v, path[0]), p);
      }
    }
    if i: nat :| i < |Keys(v)| && p(Keys(v)[i]) {
      assert HasPath(v, []) && At(v, []) == v;
    }
    if k: nat :| k < Width(v) && SomeKey(Child(v, k), p) {
      var c := Child(v, k);
      var path: seq<nat>, i: nat :| HasPath(c, path) && i < |Keys(At(c, path))| && p(Keys(At(c, path))[i]);
      var longer := [k] + path;
      assert longer[1..] == path;
      assert HasPath(v, longer) && At(v, longer) == At(c, path);
    }
  }
}
