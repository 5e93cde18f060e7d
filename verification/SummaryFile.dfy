/** `summary.json`: what is written for a summary, and what its validation accepts. */
module SummaryFile {
  import opened Common
  import opened JsonValues
  import opened EventFiles
  import opened Validation

  // ---------------------------------------------------------------- reading

  const CHECK_KEYS: set<string> := {"name", "passed", "detail"}

  const MANUAL_KEYS: set<string> :=
    {"heard_voice", "voice_quality_acceptable", "business_answer_acceptable", "demo_ready", "notes"}

  const SUMMARY_KEYS: set<string> := {
    "run_id", "scenario_id", "status", "started_at", "finished_at", "summary_path", "report_path", "checks",
    "manual_assertions", "transcript_text", "assistant_response_text", "tool_names", "handoff_reason",
    "provider_events", "latency_ms_values"}

  predicate AreTexts(v: Json) { v.JArr? && forall i :: 0 <= i < |v.items| ==> v.items[i].JStr? }

  function TextsIn(v: Json): seq<string>
    requires AreTexts(v)
  {
    seq(|v.items|, i requires 0 <= i < |v.items| => v.items[i].s)
  }

  predicate AreNumbers(l: Leniency, v: Json) { v.JArr? && forall i :: 0 <= i < |v.items| ==> l.asInt(v.items[i]).Some? }

  function NumbersIn(l: Leniency, v: Json): seq<int>
    requires AreNumbers(l, v)
  {
    seq(|v.items|, i requires 0 <= i < |v.items| => l.asInt(v.items[i]).value)
  }

  predicate IsCheck(l: Leniency, v: Json) {
    v.JObj? && OnlyKeys(v.fields, CHECK_KEYS) && IsText(Get(v.fields, "name")) && IsText(Get(v.fields, "detail")) &&
    l.asBool(Get(v.fields, "passed")).Some?
  }

  function CheckIn(l: Leniency, v: Json): Check
    requires IsCheck(l, v)
  {
    Check(Get(v.fields, "name").s, l.asBool(Get(v.fields, "passed")).value, Get(v.fields, "detail").s)
  }

  predicate AreChecks(l: Leniency, v: Json) { v.JArr? && forall i :: 0 <= i < |v.items| ==> IsCheck(l, v.items[i]) }

  function ChecksIn(l: Leniency, v: Json): seq<Check>
    requires AreChecks(l, v)
  {
    seq(|v.items|, i requires 0 <= i < |v.items| => CheckIn(l, v.items[i]))
  }

  /** A flag that may be left out, and is then false. */
  predicate IsFlag(l: Leniency, fields: seq<Field>, key: string) {
    HasKey(fields, key) ==> l.asBool(Get(fields, key)).Some?
  }

  function FlagIn(l: Leniency, fields: seq<Field>, key: string): bool
    requires IsFlag(l, fields, key)
  {
    if HasKey(fields, key) then l.asBool(Get(fields, key)).value else false
  }

  predicate IsManual(l: Leniency, v: Json) {
    && v.JObj? && OnlyKeys(v.fields, MANUAL_KEYS)
    && IsFlag(l, v.fields, "heard_voice") && IsFlag(l, v.fields, "voice_quality_acceptable")
    && IsFlag(l, v.fields, "business_answer_acceptable") && IsFlag(l, v.fields, "demo_ready")
    && (HasKey(v.fields, "notes") ==> Get(v.fields, "notes").JStr?)
  }

  function ManualIn(l: Leniency, v: Json): ManualAssertions
    requires IsManual(l, v)
  {
    ManualAssertions(
      FlagIn(l, v.fields, "heard_voice"), FlagIn(l, v.fields, "voice_quality_acceptable"),
      FlagIn(l, v.fields, "business_answer_acceptable"), FlagIn(l, v.fields, "demo_ready"),
      if HasKey(v.fields, "notes") then Get(v.fields, "notes").s else "")
  }

  function StatusOf(name: string): Option<Status> {
    if name == "pass" then Some(Pass) else if name == "fail" then Some(Fail) else None
  }

  /** The members up to the paths. */
  predicate IsHead(f: seq<Field>) {
    && IsText(Get(f, "run_id")) && IsText(Get(f, "scenario_id"))
    && Get(f, "status").JStr? && StatusOf(Get(f, "status").s).Some?
    && IsText(Get(f, "started_at")) && IsText(Get(f, "finished_at"))
    && IsText(Get(f, "summary_path")) && IsText(Get(f, "report_path"))
  }

  /** The others; a handoff reason may be null but not missing. */
  predicate IsBody(l: Leniency, f: seq<Field>) {
    && AreChecks(l, Get(f, "checks")) && IsManual(l, Get(f, "manual_assertions"))
    && Get(f, "transcript_text").JStr? && Get(f, "assistant_response_text").JStr?
    && AreTexts(Get(f, "tool_names")) && HasKey(f, "handoff_reason")
    && IsTextOrNull(Get(f, "handoff_reason"))
    && AreTexts(Get(f, "provider_events")) && AreNumbers(l, Get(f, "latency_ms_values"))
  }

  predicate IsSummary(l: Leniency, v: Json) {
    v.JObj? && OnlyKeys(v.fields, SUMMARY_KEYS) && IsHead(v.fields) && IsBody(l, v.fields)
  }

  function SummaryIn(l: Leniency, f: seq<Field>): Summary
    requires IsHead(f) && IsBody(l, f)
  {
    Summary(
      Get(f, "run_id").s, Get(f, "scenario_id").s, StatusOf(Get(f, "status").s).value,
      Get(f, "started_at").s, Get(f, "finished_at").s, Get(f, "summary_path").s, Get(f, "report_path").s,
      ChecksIn(l, Get(f, "checks")), ManualIn(l, Get(f, "manual_assertions")),
      Get(f, "transcript_text").s, Get(f, "assistant_response_text").s, TextsIn(Get(f, "tool_names")),
      TextOrNone(Get(f, "handoff_reason")),
      TextsIn(Get(f, "provider_events")), NumbersIn(l, Get(f, "latency_ms_values")))
  }

  /** `ValidationRunSummary.model_validate(v)`; `None` stands for a validation error. */
  function DecodeSummary(l: Leniency, v: Json): Option<Summary> {
    if IsSummary(l, v) then Some(SummaryIn(l, v.fields)) else None
  }

  // ---------------------------------------------------------------- writing

  /** The text of the file: the dump of the summary, with its members sorted at every depth. */
  function Save(s: Summary): Json { SortKeys(EncodeSummary(s)) }

  /** The `min_length` constraints of the summary model. */
  predicate ValidSummary(s: Summary) {
    && s.runId != "" && s.scenarioId != "" && s.startedAt != "" && s.finishedAt != ""
    && s.summaryPath != "" && s.reportPath != ""
    && forall i :: 0 <= i < |s.checks| ==> s.checks[i].name != "" && s.checks[i].detail != ""
  }

  /** Whatever is read is within the constraints. */
  lemma DecodedIsValid(l: Leniency, v: Json)
    ensures DecodeSummary(l, v).Some? ==> ValidSummary(DecodeSummary(l, v).value)
  {
    hide AreTexts, TextsIn, AreNumbers, NumbersIn, ManualIn, IsManual, OnlyKeys, Get;
  }

  // ---------------------------------------------------------------- what is read is what was said

  ghost predicate SaysHead(f: seq<Field>, s: Summary) {
    && Get(f, "run_id") == JStr(s.runId) && Get(f, "scenario_id") == JStr(s.scenarioId)
    && (Get(f, "status") == JStr("pass") <==> s.status == Pass)
    && (Get(f, "status") == JStr("fail") <==> s.status == Fail)
    && Get(f, "started_at") == JStr(s.startedAt) && Get(f, "finished_at") == JStr(s.finishedAt)
    && Get(f, "summary_path") == JStr(s.summaryPath) && Get(f, "report_path") == JStr(s.reportPath)
  }

  ghost predicate SaysTexts(f: seq<Field>, s: Summary) {
    && Get(f, "transcript_text") == JStr(s.transcriptText)
    && Get(f, "assistant_response_text") == JStr(s.assistantResponseText)
    && Get(f, "tool_names") == Texts(s.toolNames) && Get(f, "provider_events") == Texts(s.providerEvents)
    && Get(f, "handoff_reason") == TextJson(s.handoffReason)
  }

  ghost predicate SaysChecks(l: Leniency, v: Json, checks: seq<Check>) {
    && v.JArr? && |v.items| == |checks|
    && forall k :: 0 <= k < |checks| ==> v.items[k].JObj? && SaysCheck(l, v.items[k].fields, checks[k])
  }

  ghost predicate SaysCheck(l: Leniency, f: seq<Field>, c: Check) {
    && OnlyKeys(f, CHECK_KEYS)
    && Get(f, "name") == JStr(c.name) && l.asBool(Get(f, "passed")) == Some(c.passed)
    && Get(f, "detail") == JStr(c.detail)
  }

  /** An answer is the one given, or no if none was given. */
  ghost predicate Answers(l: Leniency, f: seq<Field>, key: string, b: bool) {
    if HasKey(f, key) then l.asBool(Get(f, key)) == Some(b) else !b
  }

  ghost predicate SaysManual(l: Leniency, v: Json, m: ManualAssertions) {
    && v.JObj? && OnlyKeys(v.fields, MANUAL_KEYS) && Answers(l, v.fields, "heard_voice", m.heardVoice)
    && Answers(l, v.fields, "voice_quality_acceptable", m.voiceQualityAcceptable)
    && Answers(l, v.fields, "business_answer_acceptable", m.businessAnswerAcceptable)
    && Answers(l, v.fields, "demo_ready", m.demoReady)
    && (if HasKey(v.fields, "notes") then Get(v.fields, "notes") == JStr(m.notes) else m.notes == "")
  }

  ghost predicate SaysNumbers(l: Leniency, v: Json, ns: seq<int>) {
    v.JArr? && |v.items| == |ns| && forall k :: 0 <= k < |ns| ==> l.asInt(v.items[k]) == Some(ns[k])
  }

  /** The file has the members of the summary and no others; only a handoff reason may be null, and none is missing. */
  ghost predicate SaysSummary(l: Leniency, v: Json, s: Summary) {
    && v.JObj? && OnlyKeys(v.fields, SUMMARY_KEYS) && HasKey(v.fields, "handoff_reason")
    && SaysHead(v.fields, s) && SaysTexts(v.fields, s) && SaysChecks(l, Get(v.fields, "checks"), s.checks)
    && SaysManual(l, Get(v.fields, "manual_assertions"), s.manual)
    && SaysNumbers(l, Get(v.fields, "latency_ms_values"), s.latencyMsValues)
  }

  /** A file is read as a summary exactly if it says so, whoever wrote it, and no text is too short. */
  lemma DecodeMeaning(l: Leniency, v: Json, s: Summary)
    ensures DecodeSummary(l, v) == Some(s) <==> SaysSummary(l, v, s) && ValidSummary(s)
  {
    hide SaysSummary, IsSummary, SummaryIn, ValidSummary;
    if IsSummary(l, v) {
      DecodedIsSaid(l, v);
      DecodedIsValid(l, v);
    }
    if SaysSummary(l, v, s) && ValidSummary(s) { SaidIsDecoded(l, v, s); }
  }

  lemma DecodedIsSaid(l: Leniency, v: Json)
    requires IsSummary(l, v)
    ensures v.JObj? && IsHead(v.fields) && IsBody(l, v.fields) && SaysSummary(l, v, SummaryIn(l, v.fields))
  {
    hide Get, OnlyKeys, HasKey, AreTexts, TextsIn, ManualIn, IsManual;
    var f := v.fields;
    TextsAreSaid(Get(f, "tool_names"));
    TextsAreSaid(Get(f, "provider_events"));
    ManualIsSaid(l, Get(f, "manual_assertions"));
    assert |"pass"| == |"fail"| && "pass"[0] != "fail"[0];
  }

  lemma SaidIsDecoded(l: Leniency, v: Json, s: Summary)
    requires SaysSummary(l, v, s) && ValidSummary(s)
    ensures DecodeSummary(l, v) == Some(s)
  {
    hide Get, OnlyKeys, HasKey, AreTexts, TextsIn, ManualIn, IsManual, SaysManual, SaysChecks, AreChecks, ChecksIn,
         Texts, SaysNumbers, AreNumbers, NumbersIn;
    var f := v.fields;
    SaidTexts(s.toolNames);
    SaidTexts(s.providerEvents);
    SaidManual(l, Get(f, "manual_assertions"), s.manual);
    SaidChecks(l, Get(f, "checks"), s.checks);
    SaidNumbers(l, Get(f, "latency_ms_values"), s.latencyMsValues);
    assert |"pass"| == |"fail"| && "pass"[0] != "fail"[0];
  }

  lemma SaidTexts(xs: seq<string>)
    ensures AreTexts(Texts(xs)) && TextsIn(Texts(xs)) == xs
  {
  }

  lemma SaidNumbers(l: Leniency, v: Json, ns: seq<int>)
    requires SaysNumbers(l, v, ns)
    ensures AreNumbers(l, v) && NumbersIn(l, v) == ns
  {
  }

  lemma SaidChecks(l: Leniency, v: Json, checks: seq<Check>)
    requires SaysChecks(l, v, checks) && forall k :: 0 <= k < |checks| ==> ValidCheck(checks[k])
    ensures AreChecks(l, v) && ChecksIn(l, v) == checks
  {
    hide Get, OnlyKeys;
  }

  lemma SaidManual(l: Leniency, v: Json, m: ManualAssertions)
    requires SaysManual(l, v, m)
    ensures IsManual(l, v) && ManualIn(l, v) == m
  {
    hide Get, OnlyKeys, HasKey;
  }

  lemma TextsAreSaid(v: Json)
    requires AreTexts(v)
    ensures v == Texts(TextsIn(v))
  {
  }

  lemma ManualIsSaid(l: Leniency, v: Json)
    requires IsManual(l, v)
    ensures SaysManual(l, v, ManualIn(l, v))
  {
    hide Get, OnlyKeys, HasKey;
  }

  // ---------------------------------------------------------------- the order of members does not matter

  lemma SortedKeySet(fields: seq<Field>)
    ensures KeySet(SortKeys(JObj(fields)).fields) == KeySet(fields)
  {
    var sorted := SortKeys(JObj(fields)).fields;
    hide SortKeys;
    SortedMembers(fields);
    KeysInside(fields);
    assert KeySet(sorted) == KeySet(Inside(fields));
  }

  lemma KeysInside(fields: seq<Field>)
    ensures KeySet(Inside(fields)) == KeySet(fields)
  {
    forall k ensures k in KeySet(Inside(fields)) <==> k in KeySet(fields) {
      if k in KeySet(fields) {
        var i :| 0 <= i < |fields| && fields[i].key == k;
        assert Inside(fields)[i] in Inside(fields);
      }
      if k in KeySet(Inside(fields)) {
        var i :| 0 <= i < |fields| && Inside(fields)[i].key == k;
        assert fields[i] in fields;
      }
    }
  }

  lemma SortedKeysAreKeys(fields: seq<Field>, keys: set<string>, key: string)
    ensures var sorted := SortKeys(JObj(fields)).fields;
            && (OnlyKeys(sorted, keys) <==> OnlyKeys(fields, keys))
            && (HasKey(sorted, key) <==> HasKey(fields, key))
  {
    var sorted := SortKeys(JObj(fields)).fields;
    hide SortKeys, KeySet, HasKey;
    SortedKeySet(fields);
    KeyIsThere(fields, key);
    KeyIsThere(sorted, key);
  }

  lemma SortedLists(l: Leniency, v: Json)
    requires Fair(l)
    ensures AreTexts(SortKeys(v)) <==> AreTexts(v)
    ensures AreTexts(v) ==> TextsIn(SortKeys(v)) == TextsIn(v)
    ensures AreNumbers(l, SortKeys(v)) <==> AreNumbers(l, v)
    ensures AreNumbers(l, v) ==> NumbersIn(l, SortKeys(v)) == NumbersIn(l, v)
  {
    if v.JArr? {
      forall i | 0 <= i < |v.items|
        ensures SortKeys(v).items[i].JStr? <==> v.items[i].JStr?
        ensures l.asInt(SortKeys(v).items[i]) == l.asInt(v.items[i])
      {
        SortedLeaf(l, v.items[i]);
      }
    }
  }

  lemma SortedLeaf(l: Leniency, v: Json)
    requires Fair(l)
    ensures l.asInt(SortKeys(v)) == l.asInt(v) && l.asBool(SortKeys(v)) == l.asBool(v)
    ensures !v.JArr? && !v.JObj? ==> SortKeys(v) == v
    ensures v.JArr? <==> SortKeys(v).JArr?
    ensures v.JObj? <==> SortKeys(v).JObj?
  {
  }

  /** A member of a sorted object, as far as leaves are concerned. */
  lemma SortedMember(l: Leniency, fields: seq<Field>, key: string)
    requires Fair(l)
    ensures var v, v' := Get(fields, key), Get(SortKeys(JObj(fields)).fields, key);
            && v' == SortKeys(v) && (v'.JStr? <==> v.JStr?) && (v'.JNull? <==> v.JNull?) && (v.JStr? ==> v' == v)
            && l.asBool(v') == l.asBool(v)
            && (HasKey(SortKeys(JObj(fields)).fields, key) <==> HasKey(fields, key))
  {
    hide SortKeys, HasKey, Get, Fair;
    SortKeysKeepsGet(fields, key);
    SortedLeaf(l, Get(fields, key));
    SortedKeysAreKeys(fields, {}, key);
    SortKeysOfLeaf(Get(fields, key));
  }

  lemma SortKeysOfLeaf(v: Json)
    ensures SortKeys(v).JStr? <==> v.JStr?
    ensures SortKeys(v).JNull? <==> v.JNull?
  {
  }

  lemma SortedCheck(l: Leniency, v: Json)
    requires Fair(l)
    ensures IsCheck(l, SortKeys(v)) <==> IsCheck(l, v)
    ensures IsCheck(l, v) ==> CheckIn(l, SortKeys(v)) == CheckIn(l, v)
  {
    hide SortKeys, Get, OnlyKeys, HasKey, CHECK_KEYS, Fair;
    SortedLeaf(l, v);
    if v.JObj? {
      SortedKeysAreKeys(v.fields, CHECK_KEYS, "");
      SortedMember(l, v.fields, "name");
      SortedMember(l, v.fields, "passed");
      SortedMember(l, v.fields, "detail");
    }
  }

  lemma SortedChecks(l: Leniency, v: Json)
    requires Fair(l)
    ensures AreChecks(l, SortKeys(v)) <==> AreChecks(l, v)
    ensures AreChecks(l, v) ==> ChecksIn(l, SortKeys(v)) == ChecksIn(l, v)
  {
    hide IsCheck, CheckIn, Fair;
    if v.JArr? {
      forall i | 0 <= i < |v.items|
        ensures IsCheck(l, SortKeys(v).items[i]) <==> IsCheck(l, v.items[i])
        ensures IsCheck(l, v.items[i]) ==> CheckIn(l, SortKeys(v).items[i]) == CheckIn(l, v.items[i])
      {
        SortedCheck(l, v.items[i]);
      }
    }
  }

  lemma SortedManual(l: Leniency, v: Json)
    requires Fair(l)
    ensures IsManual(l, SortKeys(v)) <==> IsManual(l, v)
    ensures IsManual(l, v) ==> ManualIn(l, SortKeys(v)) == ManualIn(l, v)
  {
    hide SortKeys, Get, OnlyKeys, HasKey, MANUAL_KEYS, Fair;
    SortedLeaf(l, v);
    if v.JObj? {
      SortedKeysAreKeys(v.fields, MANUAL_KEYS, "");
      SortedMember(l, v.fields, "heard_voice");
      SortedMember(l, v.fields, "voice_quality_acceptable");
      SortedMember(l, v.fields, "business_answer_acceptable");
      SortedMember(l, v.fields, "demo_ready");
      SortedMember(l, v.fields, "notes");
    }
  }

  predicate SameHead(f: seq<Field>, f': seq<Field>) {
    && Get(f', "run_id") == Get(f, "run_id") && Get(f', "scenario_id") == Get(f, "scenario_id")
    && Get(f', "status") == Get(f, "status") && Get(f', "started_at") == Get(f, "started_at")
    && Get(f', "finished_at") == Get(f, "finished_at") && Get(f', "summary_path") == Get(f, "summary_path")
    && Get(f', "report_path") == Get(f, "report_path")
  }

  predicate SameBody(l: Leniency, f: seq<Field>, f': seq<Field>)
    requires IsBody(l, f) && IsBody(l, f')
  {
    && ChecksIn(l, Get(f', "checks")) == ChecksIn(l, Get(f, "checks"))
    && ManualIn(l, Get(f', "manual_assertions")) == ManualIn(l, Get(f, "manual_assertions"))
    && Get(f', "transcript_text") == Get(f, "transcript_text")
    && Get(f', "assistant_response_text") == Get(f, "assistant_response_text")
    && TextsIn(Get(f', "tool_names")) == TextsIn(Get(f, "tool_names"))
    && Get(f', "handoff_reason") == Get(f, "handoff_reason")
    && TextsIn(Get(f', "provider_events")) == TextsIn(Get(f, "provider_events"))
    && NumbersIn(l, Get(f', "latency_ms_values")) == NumbersIn(l, Get(f, "latency_ms_values"))
  }

  lemma SortedHead(l: Leniency, f: seq<Field>)
    requires Fair(l)
    ensures var f' := SortKeys(JObj(f)).fields; (IsHead(f') <==> IsHead(f)) && (IsHead(f) ==> SameHead(f, f'))
  {
    hide SortKeys, Get, HasKey, StatusOf, Fair;
    SortedMember(l, f, "run_id");
    SortedMember(l, f, "scenario_id");
    SortedMember(l, f, "status");
    SortedMember(l, f, "started_at");
    SortedMember(l, f, "finished_at");
    SortedMember(l, f, "summary_path");
    SortedMember(l, f, "report_path");
  }

  lemma SortedBody(l: Leniency, f: seq<Field>)
    requires Fair(l)
    ensures var f' := SortKeys(JObj(f)).fields;
            (IsBody(l, f') <==> IsBody(l, f)) && (IsBody(l, f) ==> SameBody(l, f, f'))
  {
    hide SortKeys, Get, HasKey, AreTexts, TextsIn, AreNumbers, NumbersIn, AreChecks, ChecksIn, IsManual, ManualIn,
         Fair;
    SortedMember(l, f, "checks");
    SortedChecks(l, Get(f, "checks"));
    SortedMember(l, f, "manual_assertions");
    SortedManual(l, Get(f, "manual_assertions"));
    SortedMember(l, f, "transcript_text");
    SortedMember(l, f, "assistant_response_text");
    SortedMember(l, f, "tool_names");
    SortedLists(l, Get(f, "tool_names"));
    SortedMember(l, f, "handoff_reason");
    SortedMember(l, f, "provider_events");
    SortedLists(l, Get(f, "provider_events"));
    SortedMember(l, f, "latency_ms_values");
    SortedLists(l, Get(f, "latency_ms_values"));
  }

  /** Nor does what is read depend on the order of members, at any depth. */
  lemma DecodeIgnoresOrder(l: Leniency, v: Json)
    requires Fair(l)
    ensures DecodeSummary(l, SortKeys(v)) == DecodeSummary(l, v)
  {
    hide SortKeys, Get, HasKey, StatusOf, OnlyKeys, IsBody, IsHead, Fair, SUMMARY_KEYS, ChecksIn, ManualIn, TextsIn,
         NumbersIn;
    SortedLeaf(l, v);
    if v.JObj? {
      SortedKeysAreKeys(v.fields, SUMMARY_KEYS, "");
      SortedHead(l, v.fields);
      SortedBody(l, v.fields);
    }
  }

  // ---------------------------------------------------------------- what is saved is read back

  lemma EncodedTexts(xs: seq<string>)
    ensures AreTexts(Texts(xs)) && TextsIn(Texts(xs)) == xs
  {
  }

  lemma EncodedNumbers(l: Leniency, ns: seq<int>)
    requires Fair(l)
    ensures AreNumbers(l, Numbers(ns)) && NumbersIn(l, Numbers(ns)) == ns
  {
  }

  predicate ValidCheck(c: Check) { c.name != "" && c.detail != "" }

  lemma EncodedCheck(l: Leniency, c: Check)
    requires Fair(l)
    ensures IsCheck(l, EncodeCheck(c)) <==> ValidCheck(c)
    ensures ValidCheck(c) ==> CheckIn(l, EncodeCheck(c)) == c
  {
    hide Get;
    var f := EncodeCheck(c).fields;
    assert |f[0].key| == 4 && f[1].key[0] == 'p' && f[2].key[0] == 'd';
    GetAt(f, 0);
    GetAt(f, 1);
    GetAt(f, 2);
  }

  lemma EncodedChecks(l: Leniency, checks: seq<Check>)
    requires Fair(l)
    ensures AreChecks(l, EncodeChecks(checks)) <==> forall i :: 0 <= i < |checks| ==> ValidCheck(checks[i])
    ensures AreChecks(l, EncodeChecks(checks)) ==> ChecksIn(l, EncodeChecks(checks)) == checks
  {
    hide IsCheck, CheckIn, EncodeCheck, Fair;
    var v := EncodeChecks(checks);
    forall i | 0 <= i < |checks|
      ensures v.items[i] == EncodeCheck(checks[i]) && (IsCheck(l, v.items[i]) <==> ValidCheck(checks[i]))
      ensures ValidCheck(checks[i]) ==> CheckIn(l, v.items[i]) == checks[i]
    {
      EncodedCheck(l, checks[i]);
    }
  }

  lemma ManualShape(m: ManualAssertions)
    ensures var f := EncodeManual(m).fields; DistinctKeys(f) && OnlyKeys(f, MANUAL_KEYS)
  {
    var f := EncodeManual(m).fields;
    assert EachToldApart(f);
    ToldApartIsDistinct(f, []);
    assert f + [] == f;
  }

  lemma EncodedManual(l: Leniency, m: ManualAssertions)
    requires Fair(l)
    ensures IsManual(l, EncodeManual(m)) && ManualIn(l, EncodeManual(m)) == m
  {
    hide Get, HasKey, DistinctKeys, OnlyKeys, MANUAL_KEYS;
    var f := EncodeManual(m).fields;
    ManualShape(m);
    forall i: nat | i < 5 ensures HasKey(f, f[i].key) && Get(f, f[i].key) == f[i].value {
      GetAt(f, i);
      assert f[i] in f;
      KeyIsThere(f, f[i].key);
    }
    assert f[0].key == "heard_voice" && f[1].key == "voice_quality_acceptable";
    assert f[2].key == "business_answer_acceptable" && f[3].key == "demo_ready" && f[4].key == "notes";
  }

  lemma StatusIsRead(s: Status)
    ensures StatusOf(StatusText(s)) == Some(s)
  {
    assert "pass"[0] != "fail"[0];
  }

  lemma HeadKeysTold(s: Summary)
    ensures EachToldApart(HeadFields(s))
  {
    hide StatusText;
  }

  lemma BodyKeysTold(s: Summary)
    ensures EachToldApart(BodyFields(s))
  {
    hide EncodeChecks, EncodeManual, Texts, Numbers, TextJson;
  }

  lemma HeadKeysKnown(s: Summary)
    ensures OnlyKeys(HeadFields(s), SUMMARY_KEYS)
  {
    hide StatusText;
  }

  lemma BodyKeysKnown(s: Summary)
    ensures OnlyKeys(BodyFields(s), SUMMARY_KEYS)
  {
    hide EncodeChecks, EncodeManual, Texts, Numbers, TextJson;
  }

  lemma OtherKeysTold(s: Summary)
    ensures ToldApartAcross(HeadFields(s), BodyFields(s))
  {
    hide StatusText, EncodeChecks, EncodeManual, Texts, Numbers, TextJson;
  }

  lemma SummaryShape(s: Summary)
    ensures var f := HeadFields(s) + BodyFields(s); DistinctKeys(f) && OnlyKeys(f, SUMMARY_KEYS)
  {
    hide HeadFields, BodyFields, SUMMARY_KEYS;
    HeadKeysTold(s);
    BodyKeysTold(s);
    OtherKeysTold(s);
    HeadKeysKnown(s);
    BodyKeysKnown(s);
    ToldApartIsDistinct(HeadFields(s), BodyFields(s));
  }

  lemma SummaryLength(s: Summary)
    ensures |HeadFields(s)| == 7 && |BodyFields(s)| == 8
  {
  }

  lemma HeadIsFound(s: Summary)
    ensures var f := HeadFields(s) + BodyFields(s);
            forall i :: 0 <= i < 7 ==> Get(f, HeadFields(s)[i].key) == HeadFields(s)[i].value
  {
    hide Get, HeadFields, BodyFields, DistinctKeys, OnlyKeys, SUMMARY_KEYS;
    var f := HeadFields(s) + BodyFields(s);
    SummaryShape(s);
    SummaryLength(s);
    forall i: nat | i < 7 ensures Get(f, HeadFields(s)[i].key) == HeadFields(s)[i].value { GetAt(f, i); }
  }

  lemma BodyIsFound(s: Summary)
    ensures var f := HeadFields(s) + BodyFields(s);
            forall i :: 0 <= i < 8 ==>
              Get(f, BodyFields(s)[i].key) == BodyFields(s)[i].value && HasKey(f, BodyFields(s)[i].key)
  {
    hide Get, HeadFields, BodyFields, DistinctKeys, OnlyKeys, SUMMARY_KEYS, HasKey;
    var f := HeadFields(s) + BodyFields(s);
    SummaryShape(s);
    SummaryLength(s);
    forall i: nat | i < 8
      ensures Get(f, BodyFields(s)[i].key) == BodyFields(s)[i].value && HasKey(f, BodyFields(s)[i].key)
    {
      GetAt(f, 7 + i);
      assert f[7 + i] == BodyFields(s)[i] && f[7 + i] in f;
      KeyIsThere(f, f[7 + i].key);
    }
  }

  /** The members up to the paths are found under their names, and are as they should be. */
  lemma EncodedHead(s: Summary)
    ensures var f := HeadFields(s) + BodyFields(s);
            && (IsHead(f) <==> s.runId != "" && s.scenarioId != "" && s.startedAt != "" && s.finishedAt != "" &&
                               s.summaryPath != "" && s.reportPath != "")
            && Get(f, "run_id") == JStr(s.runId) && Get(f, "scenario_id") == JStr(s.scenarioId)
            && Get(f, "status") == JStr(StatusText(s.status)) && Get(f, "started_at") == JStr(s.startedAt)
            && Get(f, "finished_at") == JStr(s.finishedAt) && Get(f, "summary_path") == JStr(s.summaryPath)
            && Get(f, "report_path") == JStr(s.reportPath)
  {
    hide Get, BodyFields, StatusOf, StatusText;
    HeadIsFound(s);
    StatusIsRead(s.status);
    var h := HeadFields(s);
    assert h[0].key == "run_id" && h[1].key == "scenario_id" && h[2].key == "status" && h[3].key == "started_at";
    assert h[4].key == "finished_at" && h[5].key == "summary_path" && h[6].key == "report_path";
  }

  lemma EncodedBody(l: Leniency, s: Summary)
    requires Fair(l)
    ensures var f := HeadFields(s) + BodyFields(s);
            && (IsBody(l, f) <==> forall i :: 0 <= i < |s.checks| ==> ValidCheck(s.checks[i]))
            && (IsBody(l, f) ==>
                  && ChecksIn(l, Get(f, "checks")) == s.checks && ManualIn(l, Get(f, "manual_assertions")) == s.manual
                  && Get(f, "transcript_text") == JStr(s.transcriptText)
                  && Get(f, "assistant_response_text") == JStr(s.assistantResponseText)
                  && TextsIn(Get(f, "tool_names")) == s.toolNames
                  && Get(f, "handoff_reason") == TextJson(s.handoffReason)
                  && TextsIn(Get(f, "provider_events")) == s.providerEvents
                  && NumbersIn(l, Get(f, "latency_ms_values")) == s.latencyMsValues)
  {
    hide Get, HasKey, HeadFields, AreTexts, TextsIn, AreNumbers, NumbersIn, AreChecks, ChecksIn, IsManual, ManualIn,
         Texts, Numbers, EncodeChecks, EncodeManual, Fair, ValidCheck;
    BodyIsFound(s);
    var b := BodyFields(s);
    assert b[0].key == "checks" && b[1].key == "manual_assertions" && b[2].key == "transcript_text";
    assert b[3].key == "assistant_response_text" && b[4].key == "tool_names" && b[5].key == "handoff_reason";
    assert b[6].key == "provider_events" && b[7].key == "latency_ms_values";
    EncodedChecks(l, s.checks);
    EncodedManual(l, s.manual);
    EncodedTexts(s.toolNames);
    EncodedTexts(s.providerEvents);
    EncodedNumbers(l, s.latencyMsValues);
  }

  /** A summary can be read back exactly if it is within the constraints, and is then what was written. */
  lemma SavedIsReadBack(l: Leniency, s: Summary)
    requires Fair(l)
    ensures DecodeSummary(l, Save(s)) == if ValidSummary(s) then Some(s) else None
    ensures DecodeSummary(l, EncodeSummary(s)) == DecodeSummary(l, Save(s))
  {
    hide Get, IsHead, IsBody, HeadFields, BodyFields, SortKeys, SUMMARY_KEYS, OnlyKeys, StatusText, StatusOf,
         DistinctKeys, TextsIn, NumbersIn, ChecksIn, ManualIn, Fair;
    DecodeIgnoresOrder(l, EncodeSummary(s));
    SummaryShape(s);
    EncodedHead(s);
    EncodedBody(l, s);
    StatusIsRead(s.status);
  }
}
