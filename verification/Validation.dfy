/** What a validation run checks, and how its outcome is cleaned before it is saved. */
module Validation {
  import opened Common
  import opened Text
  import opened JsonValues
  import opened BlockedTokens
  import opened EventLog
  import Sorting
  import Redaction

  datatype Scenario = Scenario(
    id: string, name: string, nameCn: string, expectedTools: seq<string>, expectedHandoff: bool)

  const STANDARD_VALIDATION_SCENARIOS: seq<Scenario> := [
    Scenario("order_status", "Order status lookup", "订单状态查询", ["lookup_order"], false),
    Scenario("logistics_tracking", "Logistics tracking lookup", "物流进度查询", ["lookup_logistics"], false),
    Scenario("product_knowledge", "Product knowledge consultation", "产品知识咨询", ["query_product_knowledge"], false),
    Scenario("knowledge_low_confidence_handoff", "Knowledge miss handoff", "知识低置信转人工",
             ["query_product_knowledge", "handoff_to_human"], true),
    Scenario("customer_requested_human", "User requested human", "客户主动要求人工", ["handoff_to_human"], true)]

  /** `SCENARIOS_BY_ID.get(id)` */
  function FindScenario(id: string): (r: Option<Scenario>)
    ensures r.Some? ==> r.value in STANDARD_VALIDATION_SCENARIOS && r.value.id == id
    ensures r.None? ==> forall s :: s in STANDARD_VALIDATION_SCENARIOS ==> s.id != id
  {
    ScenarioAmong(STANDARD_VALIDATION_SCENARIOS, id)
  }

  function ScenarioAmong(scenarios: seq<Scenario>, id: string): (r: Option<Scenario>)
    ensures r.Some? ==> r.value in scenarios && r.value.id == id
    ensures r.None? ==> forall s :: s in scenarios ==> s.id != id
  {
    if scenarios == [] then None
    else if scenarios[0].id == id then Some(scenarios[0])
    else ScenarioAmong(scenarios[1..], id)
  }

  datatype ManualAssertions = ManualAssertions(
    heardVoice: bool, voiceQualityAcceptable: bool, businessAnswerAcceptable: bool, demoReady: bool, notes: string)

  datatype FinishRequest = FinishRequest(
    sessionState: string, transcriptText: string, assistantResponseText: string, toolNames: seq<string>,
    handoffReason: Option<string>, providerEvents: seq<string>, latencyMsValues: seq<int>, manual: ManualAssertions)

  datatype Check = Check(name: string, passed: bool, detail: string)

  datatype Status = Pass | Fail

  datatype Summary = Summary(
    runId: string, scenarioId: string, status: Status, startedAt: string, finishedAt: string,
    summaryPath: string, reportPath: string, checks: seq<Check>, manual: ManualAssertions,
    transcriptText: string, assistantResponseText: string, toolNames: seq<string>,
    handoffReason: Option<string>, providerEvents: seq<string>, latencyMsValues: seq<int>)

  const PROVIDER_ERROR_MARKERS: seq<string> :=
    ["provider_error=", "event_log_error=", "data_channel_error", "OpenAI SDP exchange failed"]

  const OBSERVED_SESSION_STATES: set<string> :=
    {"connected", "ready", "ended", "data_channel_closed", "data_channel_error"}

  // ---------------------------------------------------------------- the ten checks

  predicate HasProviderError(r: FinishRequest) {
    exists i, m :: 0 <= i < |r.providerEvents| && m in PROVIDER_ERROR_MARKERS && Contains(r.providerEvents[i], m)
  }

  predicate HandoffObserved(r: FinishRequest) {
    r.handoffReason.Some? && r.handoffReason.value != "" && r.handoffReason.value != "none"
  }

  predicate ManualVoice(r: FinishRequest) { r.manual.heardVoice && r.manual.voiceQualityAcceptable }

  predicate ManualBusiness(scenario: Scenario, r: FinishRequest) {
    if scenario.expectedHandoff then r.manual.demoReady else r.manual.businessAnswerAcceptable
  }

  /** A string as `repr` shows it, escapes for unprintable characters apart. */
  function Repr(s: string): string {
    var quote := if '\'' in s && '"' !in s then '"' else '\'';
    [quote] + ReprBody(s, quote) + [quote]
  }

  function ReprBody(s: string, quote: char): string {
    if s == "" then ""
    else
      (match s[0]
       case '\\' => "\\\\"
       case '\n' => "\\n"
       case '\r' => "\\r"
       case '\t' => "\\t"
       case c => if c == quote then ['\\', c] else [c]) + ReprBody(s[1..], quote)
  }

  function ReprList(xs: seq<string>): string {
    "[" + Join(seq(|xs|, i requires 0 <= i < |xs| => Repr(xs[i])), ", ") + "]"
  }

  function Distinct(xs: seq<string>): seq<string> {
    if xs == [] then []
    else if xs[0] in xs[1..] then Distinct(xs[1..])
    else [xs[0]] + Distinct(xs[1..])
  }

  /** `sorted(set(xs))` */
  function SortedSet(xs: seq<string>): seq<string> { Sorting.Sort(Distinct(xs), StrLe) }

  function BoolText(b: bool): string { if b then "True" else "False" }

  predicate ToolsObserved(scenario: Scenario, r: FinishRequest) {
    forall t :: t in scenario.expectedTools ==> t in r.toolNames
  }

  /** The explanation that goes with each check. */
  function Details(scenario: Scenario, r: FinishRequest): (d: seq<string>)
    ensures |d| == 10
  {
    var voice := ManualVoice(r);
    var business := ManualBusiness(scenario, r);
    [ "scenario_id=" + scenario.id,
      "session_state=" + r.sessionState,
      "expected=" + ReprList(SortedSet(scenario.expectedTools)) + " observed=" + ReprList(SortedSet(r.toolNames)),
      "expected=" + BoolText(scenario.expectedHandoff) + " observed=" + BoolText(HandoffObserved(r)),
      if Strip(r.transcriptText) != "" then "transcript present" else "transcript missing",
      "assistant response present or not required",
      if HasProviderError(r) then "provider error marker found" else "no provider error markers",
      if voice then "manual voice checks passed" else "manual voice checks failed",
      if business then "manual business/demo checks passed" else "manual business/demo checks failed",
      "blocked secret scan pending file write"]
  }

  function EvaluateChecks(scenario: Scenario, r: FinishRequest): seq<Check> {
    var d := Details(scenario, r);
    [ Check("scenario_known", FindScenario(scenario.id).Some?, d[0]),
      Check("session_observed", Strip(r.sessionState) in OBSERVED_SESSION_STATES, d[1]),
      Check("expected_tools_observed", ToolsObserved(scenario, r), d[2]),
      Check("expected_handoff_observed", scenario.expectedHandoff == HandoffObserved(r), d[3]),
      Check("transcript_observed", Strip(r.transcriptText) != "", d[4]),
      Check("assistant_response_observed", !scenario.expectedHandoff || Strip(r.assistantResponseText) != "", d[5]),
      Check("provider_errors_absent", !HasProviderError(r), d[6]),
      Check("manual_voice_confirmed", ManualVoice(r), d[7]),
      Check("manual_business_confirmed", ManualBusiness(scenario, r), d[8]),
      Check("blocked_secret_scan_passed", true, d[9])]
  }

  /** What the first nine checks ask of the request as it was sent. */
  ghost predicate RunSucceeded(scenario: Scenario, r: FinishRequest) {
    && Strip(r.sessionState) in OBSERVED_SESSION_STATES
    && (forall t :: t in scenario.expectedTools ==> t in r.toolNames)
    && (scenario.expectedHandoff <==> HandoffObserved(r))
    && HasVisible(r.transcriptText)
    && (scenario.expectedHandoff ==> HasVisible(r.assistantResponseText))
    && (forall e, m :: e in r.providerEvents && m in PROVIDER_ERROR_MARKERS ==> !Contains(e, m))
    && r.manual.heardVoice && r.manual.voiceQualityAcceptable
    && (if scenario.expectedHandoff then r.manual.demoReady else r.manual.businessAnswerAcceptable)
  }

  lemma {:induction false} StripLeftVisible(s: string)
    ensures HasVisible(StripLeft(s)) <==> HasVisible(s)
    ensures StripLeft(s) != "" ==> HasVisible(s)
  {
    if s != "" {
      assert s == [s[0]] + s[1..];
      if IsSpace(s[0]) { StripLeftVisible(s[1..]); }
    }
  }

  lemma {:induction false} StripRightVisible(s: string)
    ensures HasVisible(StripRight(s)) <==> HasVisible(s)
    ensures StripRight(s) != "" ==> HasVisible(s)
  {
    if s != "" {
      assert s == s[..|s| - 1] + [s[|s| - 1]];
      if IsSpace(s[|s| - 1]) { StripRightVisible(s[..|s| - 1]); }
    }
  }

  predicate AllSpace(s: string) { forall i :: 0 <= i < |s| ==> IsSpace(s[i]) }

  lemma {:induction false} StripLeftMeaning(s: string) returns (a: string)
    ensures AllSpace(a) && s == a + StripLeft(s)
    ensures StripLeft(s) == "" || !IsSpace(StripLeft(s)[0])
  {
    a := "";
    if s != "" && IsSpace(s[0]) {
      var rest := StripLeftMeaning(s[1..]);
      a := [s[0]] + rest;
    }
  }

  lemma {:induction false} StripRightMeaning(s: string) returns (b: string)
    ensures AllSpace(b) && s == StripRight(s) + b
    ensures StripRight(s) == "" || !IsSpace(StripRight(s)[|StripRight(s)| - 1])
  {
    b := "";
    if s != "" && IsSpace(s[|s| - 1]) {
      var rest := StripRightMeaning(s[..|s| - 1]);
      b := rest + [s[|s| - 1]];
    }
  }

  /** White space at both ends goes, and nothing else. */
  lemma StripMeaning(s: string)
    ensures var t := Strip(s);
            && (exists a, b :: AllSpace(a) && AllSpace(b) && s == a + t + b)
            && (t == "" || (!IsSpace(t[0]) && !IsSpace(t[|t| - 1])))
  {
    var a := StripLeftMeaning(s);
    var b := StripRightMeaning(StripLeft(s));
    assert s == a + Strip(s) + b;
    if Strip(s) != "" { assert StripLeft(s)[0] == Strip(s)[0]; }
  }

  /** `bool(s.strip())` */
  lemma StripVisible(s: string)
    ensures Strip(s) != "" <==> HasVisible(s)
  {
    StripLeftVisible(s);
    StripRightVisible(StripLeft(s));
  }

  // ---------------------------------------------------------------- cleaning

  /** Redacted first, scrubbed second. */
  function Clean(s: string): string { ScrubText(Redaction.RedactText(s)) }

  function CleanAll(xs: seq<string>): seq<string> {
    seq(|xs|, i requires 0 <= i < |xs| => Clean(xs[i]))
  }

  function CleanRequest(r: FinishRequest): FinishRequest {
    FinishRequest(
      Clean(r.sessionState), Clean(r.transcriptText), Clean(r.assistantResponseText), CleanAll(r.toolNames),
      if r.handoffReason.Some? then Some(Clean(r.handoffReason.value)) else None,
      CleanAll(r.providerEvents), r.latencyMsValues, r.manual.(notes := Clean(r.manual.notes)))
  }

  function ScrubCheck(c: Check): Check { c.(detail := Clean(c.detail)) }

  /** `_scrub_validation_checks` */
  method ScrubValidationChecks(checks: seq<Check>) returns (scrubbed: seq<Check>)
    ensures scrubbed == ScrubChecks(checks)
  {
    hide Redaction.RedactText, ScrubText;
    scrubbed := [];
    for i := 0 to |checks|
      invariant |scrubbed| == i && forall k :: 0 <= k < i ==> scrubbed[k] == ScrubCheck(checks[k])
    {
      var redactedDetail := Redaction.RedactText(checks[i].detail);
      var scrubbedDetail := ScrubString(redactedDetail);
      scrubbed := scrubbed + [checks[i].(detail := scrubbedDetail)];
    }
  }

  function ScrubChecks(checks: seq<Check>): seq<Check> {
    seq(|checks|, i requires 0 <= i < |checks| => ScrubCheck(checks[i]))
  }

  lemma CleanIsTokenFree(s: string)
    ensures TokenFree(Clean(s)) && (s != "" ==> Clean(s) != "")
  {
    ScrubbedTextIsTokenFree(Redaction.RedactText(s));
    Redaction.RedactNonempty(s);
  }

  // ---------------------------------------------------------------- JSON dumps

  function Texts(xs: seq<string>): Json { JArr(seq(|xs|, i requires 0 <= i < |xs| => JStr(xs[i]))) }

  function Numbers(ns: seq<int>): Json { JArr(seq(|ns|, i requires 0 <= i < |ns| => JInt(ns[i]))) }

  function EncodeManual(m: ManualAssertions): Json {
    JObj([
      Field("heard_voice", JBool(m.heardVoice)),
      Field("voice_quality_acceptable", JBool(m.voiceQualityAcceptable)),
      Field("business_answer_acceptable", JBool(m.businessAnswerAcceptable)),
      Field("demo_ready", JBool(m.demoReady)),
      Field("notes", JStr(m.notes))])
  }

  function EncodeRequest(r: FinishRequest): Json {
    JObj([
      Field("session_state", JStr(r.sessionState)),
      Field("transcript_text", JStr(r.transcriptText)),
      Field("assistant_response_text", JStr(r.assistantResponseText)),
      Field("tool_names", Texts(r.toolNames)),
      Field("handoff_reason", TextJson(r.handoffReason)),
      Field("provider_events", Texts(r.providerEvents)),
      Field("latency_ms_values", Numbers(r.latencyMsValues)),
      Field("manual_assertions", EncodeManual(r.manual))])
  }

  function EncodeCheck(c: Check): Json {
    JObj([Field("name", JStr(c.name)), Field("passed", JBool(c.passed)), Field("detail", JStr(c.detail))])
  }

  function EncodeChecks(checks: seq<Check>): Json {
    JArr(seq(|checks|, i requires 0 <= i < |checks| => EncodeCheck(checks[i])))
  }

  function StatusText(s: Status): string { if s == Pass then "pass" else "fail" }

  function HeadFields(s: Summary): seq<Field> {
    [ Field("run_id", JStr(s.runId)),
      Field("scenario_id", JStr(s.scenarioId)),
      Field("status", JStr(StatusText(s.status))),
      Field("started_at", JStr(s.startedAt)),
      Field("finished_at", JStr(s.finishedAt)),
      Field("summary_path", JStr(s.summaryPath)),
      Field("report_path", JStr(s.reportPath))]
  }

  function BodyFields(s: Summary): seq<Field> {
    [ Field("checks", EncodeChecks(s.checks)),
      Field("manual_assertions", EncodeManual(s.manual)),
      Field("transcript_text", JStr(s.transcriptText)),
      Field("assistant_response_text", JStr(s.assistantResponseText)),
      Field("tool_names", Texts(s.toolNames)),
      Field("handoff_reason", TextJson(s.handoffReason)),
      Field("provider_events", Texts(s.providerEvents)),
      Field("latency_ms_values", Numbers(s.latencyMsValues))]
  }

  function EncodeSummary(s: Summary): Json { JObj(HeadFields(s) + BodyFields(s)) }

  function CleanJson(v: Json): Json { ScrubJson(RedactJson(v)) }

  lemma CleanText(s: string)
    ensures CleanJson(JStr(s)) == JStr(Clean(s))
  {
  }

  lemma CleanTexts(xs: seq<string>)
    ensures CleanJson(Texts(xs)) == Texts(CleanAll(xs))
  {
    hide Redaction.RedactText, ScrubText, Clean;
    forall i | 0 <= i < |xs| ensures CleanJson(Texts(xs)).items[i] == Texts(CleanAll(xs)).items[i] { CleanText(xs[i]); }
  }

  lemma CleanNumbers(ns: seq<int>)
    ensures CleanJson(Numbers(ns)) == Numbers(ns)
  {
    var v := Numbers(ns);
    assert RedactJson(v).items == v.items;
    assert ScrubJson(v).items == v.items;
  }

  lemma CleanBool(b: bool)
    ensures CleanJson(JBool(b)) == JBool(b)
  {
  }

  /** An object is cleaned member by member, and its keys stay. */
  lemma CleanObject(fields: seq<Field>, cleaned: seq<Field>)
    requires |cleaned| == |fields|
    requires forall i :: 0 <= i < |fields| ==> cleaned[i] == Field(fields[i].key, CleanJson(fields[i].value))
    ensures CleanJson(JObj(fields)) == JObj(cleaned)
  {
  }

  lemma CleanOptional(o: Option<string>)
    ensures CleanJson(TextJson(o)) == TextJson(if o.Some? then Some(Clean(o.value)) else None)
  {
  }

  lemma CleanManual(m: ManualAssertions)
    ensures CleanJson(EncodeManual(m)) == EncodeManual(m.(notes := Clean(m.notes)))
  {
    hide CleanJson, Clean;
    CleanBool(true);
    CleanBool(false);
    CleanText(m.notes);
    CleanObject(EncodeManual(m).fields, EncodeManual(m.(notes := Clean(m.notes))).fields);
  }

  /** Cleaning the dump of a request member by member is cleaning the request field by field. */
  lemma CleanRequestIsCleanDump(r: FinishRequest)
    ensures CleanJson(EncodeRequest(r)) == EncodeRequest(CleanRequest(r))
  {
    hide CleanJson, Clean, Texts, Numbers, CleanAll, EncodeManual, TextJson;
    CleanText(r.sessionState);
    CleanText(r.transcriptText);
    CleanText(r.assistantResponseText);
    CleanTexts(r.toolNames);
    CleanOptional(r.handoffReason);
    CleanTexts(r.providerEvents);
    CleanNumbers(r.latencyMsValues);
    CleanManual(r.manual);
    CleanObject(EncodeRequest(r).fields, EncodeRequest(CleanRequest(r)).fields);
  }
}
