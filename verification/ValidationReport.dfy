/** Readiness, the report built from a saved summary, and the rendered `report.md`. */
module ValidationReport {
  import opened Common
  import opened Text
  import opened JsonValues
  import opened BlockedTokens
  import opened RunIds
  import opened Validation
  import opened ValidationOutcome
  import Redaction

  datatype Readiness = ReadyForPilot | NeedsAnotherValidation | Blocked

  predicate IsCritical(name: string) { name == "provider_errors_absent" || name == SCAN_CHECK }

  function DeriveReadiness(s: Summary): Readiness {
    if exists i :: 0 <= i < |s.checks| && !s.checks[i].passed && IsCritical(s.checks[i].name) then Blocked
    else if s.status == Pass && AllPassed(s.checks) then ReadyForPilot
    else NeedsAnotherValidation
  }

  /** The readiness of a finished run, told from the raw request. */
  lemma ReadinessOfFinished(scenario: Scenario, runId: string, startedAt: string, finishedAt: string,
                            root: seq<string>, r: FinishRequest)
    requires scenario in STANDARD_VALIDATION_SCENARIOS && IsRunId(runId)
    requires TokenFree(startedAt) && TokenFree(finishedAt)
    ensures var saved := Finished(Preliminary(scenario, runId, startedAt, finishedAt, root + [runId], r));
            && (DeriveReadiness(saved) == ReadyForPilot <==> saved.status == Pass)
            && (DeriveReadiness(saved) == Blocked <==> HasProviderError(r) || !TokenFree(AsPosix(root)))
  {
    hide TokenFree, Finished, Preliminary, RunSucceeded, EvaluateChecks, SavedChecks, BlockedSecretScan,
         EncodeSummary, ContentsFree, HasProviderError;
    var saved := Finished(Preliminary(scenario, runId, startedAt, finishedAt, root + [runId], r));
    var scan := TokenFree(AsPosix(root));
    FinishPassesIff(scenario, runId, startedAt, finishedAt, root, r);
    SavedPassIff(scenario, r, scan);
    SavedOutcomes(scenario, r, scan);
    ManualOutcomes(scenario, r);
    assert saved.checks[6].passed == !HasProviderError(r) && saved.checks[9].passed == scan;
    forall i | 0 <= i < 9 && i != 6 ensures !IsCritical(saved.checks[i].name) { }
  }

  // ---------------------------------------------------------------- report.md

  function CheckRow(c: Check): string {
    "| " + c.name + " | " + (if c.passed then "pass" else "fail") + " | " + c.detail + " |"
  }

  function CheckRows(checks: seq<Check>): seq<string> {
    seq(|checks|, i requires 0 <= i < |checks| => CheckRow(checks[i]))
  }

  function HeadLines(s: Summary): seq<string> {
    [ "# VoiceAgents Validation Run", "", "Run ID: " + s.runId, "Scenario: " + s.scenarioId,
      "Status: " + StatusText(s.status), "Started At: " + s.startedAt, "Finished At: " + s.finishedAt, ""]
  }

  function TableLines(s: Summary): seq<string> {
    ["## Checks", "", "| Check | Result | Detail |", "|---|---|---|", Join(CheckRows(s.checks), "\n"), ""]
  }

  function ManualLines(s: Summary): seq<string> {
    [ "## Manual Assertions", "", "- Heard voice: " + BoolText(s.manual.heardVoice),
      "- Voice quality acceptable: " + BoolText(s.manual.voiceQualityAcceptable),
      "- Business answer acceptable: " + BoolText(s.manual.businessAnswerAcceptable),
      "- Demo ready: " + BoolText(s.manual.demoReady),
      "- Notes: " + Redaction.RedactText(s.manual.notes), ""]
  }

  function TranscriptLines(s: Summary): seq<string> {
    [ "## Redacted Transcript", "", s.transcriptText, "",
      "## Redacted Assistant Response", "", s.assistantResponseText, ""]
  }

  function RenderReport(s: Summary): string {
    Join(HeadLines(s) + TableLines(s) + ManualLines(s) + TranscriptLines(s), "\n")
  }

  lemma ContainsWithin(a: string, s: string, b: string, text: string)
    requires Contains(s, text)
    ensures Contains(a + s + b, text)
  {
    var i :| 0 <= i <= |s| && OccursAt(text, s, i);
    assert (a + s + b)[|a| + i..|a| + i + |text|] == s[i..i + |text|];
    assert OccursAt(text, a + s + b, |a| + i);
  }

  lemma {:induction false} JoinShows(parts: seq<string>, separator: string, k: nat, text: string)
    requires k < |parts| && Contains(parts[k], text)
    ensures Contains(Join(parts, separator), text)
  {
    hide Contains;
    if |parts| > 1 {
      var rest := Join(parts[1..], separator);
      if k == 0 {
        ContainsWithin("", parts[0], separator + rest, text);
        assert "" + parts[0] + (separator + rest) == parts[0] + separator + rest;
      } else {
        JoinShows(parts[1..], separator, k - 1, text);
        ContainsWithin(parts[0] + separator, rest, "", text);
        assert parts[0] + separator + rest + "" == parts[0] + separator + rest;
      }
    }
  }

  lemma ShowsItself(s: string)
    ensures Contains(s, s)
  {
    assert OccursAt(s, s, 0);
  }

  lemma TableShows(s: Summary, c: Check)
    requires c in s.checks
    ensures Contains(TableLines(s)[4], CheckRow(c))
  {
    hide Contains, CheckRow;
    var k :| 0 <= k < |s.checks| && s.checks[k] == c;
    ShowsItself(CheckRow(c));
    JoinShows(CheckRows(s.checks), "\n", k, CheckRow(c));
  }

  // ---------------------------------------------------------------- the rendered text is token-free

  lemma NoPIsTokenFree(s: string)
    requires Without(s, '_', 'z', 'p', 'p')
    ensures TokenFree(s)
  {
    ProseIsTokenFree(s);
  }

  lemma NoDIsTokenFree(s: string)
    requires Without(s, '_', 'z', 'd', 'd')
    ensures TokenFree(s)
  {
    ProseIsTokenFree(s);
  }

  /** A label that ends in something other than a letter or underscore, and what it labels. */
  lemma LabelledIsTokenFree(label_: string, value: string)
    requires TokenFree(label_) && TokenFree(value) && label_ != "" && !TokenChar(label_[|label_| - 1])
    ensures TokenFree(label_ + value)
  {
    JoinTokenFree(label_, value);
  }

  lemma {:induction false} JoinedIsTokenFree(parts: seq<string>, separator: string)
    requires TextsFree(parts) && TokenFree(separator)
    requires separator != "" && !TokenChar(separator[0]) && !TokenChar(separator[|separator| - 1])
    ensures TokenFree(Join(parts, separator))
  {
    hide TokenFree;
    NoPIsTokenFree("");
    if |parts| > 1 {
      JoinedIsTokenFree(parts[1..], separator);
      JoinTokenFree(parts[0], separator);
      JoinTokenFree(parts[0] + separator, Join(parts[1..], separator));
    }
  }

  lemma CheckRowIsTokenFree(c: Check)
    requires CheckFree(c)
    ensures TokenFree(CheckRow(c))
  {
    hide TokenFree;
    NoPIsTokenFree("| ");
    NoPIsTokenFree(" | ");
    NoPIsTokenFree(" |");
    StatusTextIsTokenFree(if c.passed then Pass else Fail);
    JoinTokenFree("| ", c.name);
    JoinTokenFree("| " + c.name, " | ");
    var verdict := if c.passed then "pass" else "fail";
    JoinTokenFree("| " + c.name + " | ", verdict);
    JoinTokenFree("| " + c.name + " | " + verdict, " | ");
    JoinTokenFree("| " + c.name + " | " + verdict + " | ", c.detail);
    JoinTokenFree("| " + c.name + " | " + verdict + " | " + c.detail, " |");
  }

  lemma HeadLinesAreTokenFree(s: Summary)
    requires ContentsFree(s)
    ensures TextsFree(HeadLines(s))
  {
    hide TokenFree, StatusText;
    NoPIsTokenFree("# VoiceAgents Validation Run");
    NoPIsTokenFree("");
    HeadLabels();
    StatusTextIsTokenFree(s.status);
    LabelledIsTokenFree("Run ID: ", s.runId);
    LabelledIsTokenFree("Scenario: ", s.scenarioId);
    LabelledIsTokenFree("Status: ", StatusText(s.status));
    LabelledIsTokenFree("Started At: ", s.startedAt);
    LabelledIsTokenFree("Finished At: ", s.finishedAt);
  }

  lemma HeadLabels()
    ensures TokenFree("Run ID: ") && TokenFree("Scenario: ") && TokenFree("Status: ")
    ensures TokenFree("Started At: ") && TokenFree("Finished At: ")
  {
    hide TokenFree;
    NoPIsTokenFree("Run ID: ");
    NoPIsTokenFree("Scenario: ");
    NoPIsTokenFree("Status: ");
    NoPIsTokenFree("Started At: ");
    NoPIsTokenFree("Finished At: ");
  }

  lemma TableLinesAreTokenFree(s: Summary)
    requires ContentsFree(s)
    ensures TextsFree(TableLines(s))
  {
    hide TokenFree, CheckRow;
    NoPIsTokenFree("## Checks");
    NoPIsTokenFree("");
    NoPIsTokenFree("| Check | Result | Detail |");
    NoPIsTokenFree("|---|---|---|");
    NoPIsTokenFree("\n");
    forall i | 0 <= i < |s.checks| ensures TokenFree(CheckRow(s.checks[i])) { CheckRowIsTokenFree(s.checks[i]); }
    JoinedIsTokenFree(CheckRows(s.checks), "\n");
  }

  lemma ManualLabels()
    ensures TokenFree("## Manual Assertions") && TokenFree("- Heard voice: ") && TokenFree("- Demo ready: ")
  {
    hide TokenFree;
    NoPIsTokenFree("## Manual Assertions");
    NoPIsTokenFree("- Heard voice: ");
    NoPIsTokenFree("- Demo ready: ");
  }

  lemma ManualAnswers()
    ensures TokenFree("- Notes: ") && TokenFree("True") && TokenFree("False")
  {
    hide TokenFree;
    NoPIsTokenFree("- Notes: ");
    NoPIsTokenFree("True");
    NoPIsTokenFree("False");
  }

  lemma AcceptableLabels()
    ensures TokenFree("- Voice quality acceptable: ") && TokenFree("- Business answer acceptable: ")
  {
    hide TokenFree;
    NoDIsTokenFree("- Voice quality acceptable: ");
    NoDIsTokenFree("- Business answer acceptable: ");
  }

  lemma ManualLinesAreTokenFree(s: Summary)
    requires ContentsFree(s)
    ensures TextsFree(ManualLines(s))
  {
    hide TokenFree, Redaction.RedactText;
    NoPIsTokenFree("");
    ManualLabels();
    ManualAnswers();
    AcceptableLabels();
    LabelledIsTokenFree("- Heard voice: ", BoolText(s.manual.heardVoice));
    LabelledIsTokenFree("- Voice quality acceptable: ", BoolText(s.manual.voiceQualityAcceptable));
    LabelledIsTokenFree("- Business answer acceptable: ", BoolText(s.manual.businessAnswerAcceptable));
    LabelledIsTokenFree("- Demo ready: ", BoolText(s.manual.demoReady));
    RedactionKeepsTokenFree(s.manual.notes);
    LabelledIsTokenFree("- Notes: ", Redaction.RedactText(s.manual.notes));
  }

  lemma TranscriptLinesAreTokenFree(s: Summary)
    requires ContentsFree(s)
    ensures TextsFree(TranscriptLines(s))
  {
    hide TokenFree;
    NoPIsTokenFree("");
    TranscriptHeading();
    ResponseHeading();
  }

  lemma TranscriptHeading()
    ensures TokenFree("## Redacted Transcript")
  {
    var s := "## Redacted Transcript";
    assert forall i :: 0 <= i < |s| && LowerChar(s[i]) == 'd' ==> i == 5 || i == 10;
    assert LowerChar(s[6]) == 'a' && LowerChar(s[11]) == ' ';
    ProseIsTokenFree(s);
  }

  lemma ResponseHeading()
    ensures TokenFree("## Redacted Assistant Response")
  {
    hide Without, NoPair;
    ResponseHeadingLetters();
    ResponseHeadingPairs();
    ProseIsTokenFree("## Redacted Assistant Response");
  }

  lemma ResponseHeadingLetters()
    ensures Without("## Redacted Assistant Response", '_', 'z', 'z', 'z')
  {
  }

  lemma ResponseHeadingPairs()
    ensures NoPair("## Redacted Assistant Response", 'd', 'p')
  {
    var s := "## Redacted Assistant Response";
    assert forall i :: 0 <= i < |s| && LowerChar(s[i]) == 'd' ==> i == 5 || i == 10;
    assert LowerChar(s[6]) == 'a' && LowerChar(s[11]) == ' ';
  }

  lemma TextsFreeAppend(a: seq<string>, b: seq<string>)
    requires TextsFree(a) && TextsFree(b)
    ensures TextsFree(a + b)
  {
  }

  /**
   * No blocked token shows anywhere in `report.md`: not in a cleaned text, not in the notes, which
   * are redacted a second time after they were scrubbed, and not where the pieces meet.
   */
  lemma RenderedReportIsTokenFree(s: Summary)
    requires ContentsFree(s)
    ensures TokenFree(RenderReport(s))
  {
    hide TokenFree, ContentsFree, TextsFree, HeadLines, TableLines, ManualLines, TranscriptLines;
    HeadLinesAreTokenFree(s);
    TableLinesAreTokenFree(s);
    ManualLinesAreTokenFree(s);
    TranscriptLinesAreTokenFree(s);
    TextsFreeAppend(HeadLines(s), TableLines(s));
    TextsFreeAppend(HeadLines(s) + TableLines(s), ManualLines(s));
    TextsFreeAppend(HeadLines(s) + TableLines(s) + ManualLines(s), TranscriptLines(s));
    NoPIsTokenFree("\n");
    JoinedIsTokenFree(HeadLines(s) + TableLines(s) + ManualLines(s) + TranscriptLines(s), "\n");
  }

  // ---------------------------------------------------------------- the report that is served

  datatype Section = Section(audience: string, title: string, bullets: seq<string>)

  datatype Report = Report(
    runId: string, scenarioId: string, scenarioName: string, status: Status, readiness: Readiness,
    decisionLabel: string, decisionSummary: string, nextAction: string,
    coverage: seq<string>, proof: seq<string>, sections: seq<Section>, copyText: string,
    checks: seq<Check>, warnings: seq<string>)

  function ReadinessText(r: Readiness): string {
    match r
    case ReadyForPilot => "ready_for_pilot"
    case NeedsAnotherValidation => "needs_another_validation"
    case Blocked => "blocked"
  }

  function ReadinessLabel(r: Readiness): string {
    match r
    case ReadyForPilot => "可以继续推进试点"
    case Blocked => "阻塞，先修复问题"
    case NeedsAnotherValidation => "需要再跑一次验证"
  }

  function NextAction(r: Readiness): string {
    match r
    case ReadyForPilot => "可把本摘要转发给决策人，进入试点准备。"
    case Blocked => "先修复阻塞问题，再重新验证。"
    case NeedsAnotherValidation => "补齐失败检查项后，重新运行同一场景验证。"
  }

  /** `{check.name: check.passed}.get(name, False)`: the last check of that name counts. */
  predicate Looked(checks: seq<Check>, name: string) {
    checks != [] &&
    var last := checks[|checks| - 1];
    if last.name == name then last.passed else Looked(checks[..|checks| - 1], name)
  }

  function Evidence(s: Summary): seq<string> { BusinessEvidence(s) + SystemEvidence(s) }

  function BusinessEvidence(s: Summary): seq<string> {
    [ if s.manual.heardVoice then "语音确认：通过" else "语音确认：未通过",
      if Looked(s.checks, "manual_business_confirmed") then "业务回答：通过" else "业务回答：未通过",
      if Looked(s.checks, "expected_tools_observed") then "工具调用：通过" else "工具调用：未通过"]
  }

  function SystemEvidence(s: Summary): seq<string> {
    [ if Looked(s.checks, "expected_handoff_observed") then "转人工：通过" else "转人工：未通过",
      if Looked(s.checks, "provider_errors_absent") then "系统错误：未发现" else "系统错误：已发现",
      if Looked(s.checks, SCAN_CHECK) then "安全扫描：通过" else "安全扫描：未通过"]
  }

  function CountPassed(checks: seq<Check>): nat {
    if checks == [] then 0 else (if checks[0].passed then 1 else 0) + CountPassed(checks[1..])
  }

  function IntText(n: int): string { if n < 0 then "-" + Decimal(-n) else Decimal(n) }

  function LatencyText(ns: seq<int>): string {
    if ns == [] then "无" else Join(seq(|ns|, i requires 0 <= i < |ns| => IntText(ns[i]) + "ms"), ", ")
  }

  function Warnings(checks: seq<Check>): seq<string> {
    if checks == [] then []
    else (if checks[0].passed then [] else [checks[0].name + ": " + checks[0].detail]) + Warnings(checks[1..])
  }

  function ScenarioName(id: string): string {
    var sc := FindScenario(id);
    if sc.Some? then sc.value.name else id
  }

  function ScenarioNameCn(id: string): string {
    var sc := FindScenario(id);
    if sc.Some? then sc.value.nameCn else id
  }

  function Coverage(s: Summary): seq<string> {
    var sc := FindScenario(s.scenarioId);
    [ "验证场景：" + ScenarioNameCn(s.scenarioId),
      "预期工具：" + (if sc.Some? then Join(sc.value.expectedTools, ", ") else "未配置"),
      if sc.Some? && sc.value.expectedHandoff then "转人工预期：需要" else "转人工预期：不需要"]
  }

  function HandoffBullet(s: Summary): string {
    if s.handoffReason.None? || s.handoffReason.value == "" || s.handoffReason.value == "none" then "无需人工介入"
    else "转人工原因：" + s.handoffReason.value
  }

  function ManagerSection(s: Summary): Section {
    var readiness := DeriveReadiness(s);
    Section("老板", "决策人摘要",
      [ "结论：" + ReadinessLabel(readiness), "验证对象：" + ScenarioNameCn(s.scenarioId),
        "建议动作：" + NextAction(readiness)])
  }

  function ServiceSection(s: Summary): Section {
    Section("客服主管", "客服主管关注点",
      [ if s.manual.heardVoice then "语音可听清" else "语音未确认",
        if s.manual.businessAnswerAcceptable || s.manual.demoReady then "业务回答可接受" else "业务回答需复核",
        HandoffBullet(s)])
  }

  function TechnicalSection(s: Summary): Section {
    Section("技术同事", "技术复核点",
      [ "状态：" + StatusText(s.status),
        "检查项：" + Decimal(CountPassed(s.checks)) + "/" + Decimal(|s.checks|) + " 通过",
        "延迟样本：" + LatencyText(s.latencyMsValues)])
  }

  function Sections(s: Summary): seq<Section> { [ManagerSection(s), ServiceSection(s), TechnicalSection(s)] }

  function CopyHead(s: Summary): string {
    "试点演示验证结果：" + ScenarioNameCn(s.scenarioId) + "，" + ReadinessLabel(DeriveReadiness(s)) + "。\n"
  }

  function CopyTail(s: Summary): string {
    "证据：" + Join(Evidence(s), "; ") + "。\n" + "下一步：" + NextAction(DeriveReadiness(s))
  }

  function CopyText(s: Summary): string { CopyHead(s) + CopyTail(s) }

  function DecisionText(s: Summary): string {
    ScenarioNameCn(s.scenarioId) + ("场景验证结果为：" + ReadinessLabel(DeriveReadiness(s)) + "。")
  }

  function BuildReport(s: Summary): Report {
    var readiness := DeriveReadiness(s);
    Report(
      s.runId, s.scenarioId, ScenarioName(s.scenarioId), s.status, readiness, ReadinessLabel(readiness),
      DecisionText(s), NextAction(readiness),
      Coverage(s), Evidence(s), Sections(s), CopyText(s), s.checks, Warnings(s.checks))
  }

  function EncodeSection(c: Section): Json {
    JObj([Field("audience", JStr(c.audience)), Field("title", JStr(c.title)), Field("bullets", Texts(c.bullets))])
  }

  function EncodeSections(cs: seq<Section>): Json {
    JArr(seq(|cs|, i requires 0 <= i < |cs| => EncodeSection(cs[i])))
  }

  function ReportHead(r: Report): seq<Field> {
    [ Field("run_id", JStr(r.runId)),
      Field("scenario", JObj([Field("scenario_id", JStr(r.scenarioId)), Field("label", JStr(r.scenarioName))])),
      Field("status", JStr(StatusText(r.status))),
      Field("readiness", JStr(ReadinessText(r.readiness))),
      Field("decision_summary", JObj([
        Field("label", JStr(r.decisionLabel)), Field("summary", JStr(r.decisionSummary)),
        Field("next_action", JStr(r.nextAction))]))]
  }

  function ReportBody(r: Report): seq<Field> {
    [ Field("scenario_coverage", Texts(r.coverage)),
      Field("business_proof", Texts(r.proof)),
      Field("audience_sections", EncodeSections(r.sections)),
      Field("copy_summary", JObj([Field("text", JStr(r.copyText))])),
      Field("checks", EncodeChecks(r.checks)),
      Field("warnings", Texts(r.warnings))]
  }

  function EncodeReport(r: Report): Json { JObj(ReportHead(r) + ReportBody(r)) }

  // ---------------------------------------------------------------- when a report can be served

  predicate SectionFree(c: Section) { TokenFree(c.audience) && TokenFree(c.title) && TextsFree(c.bullets) }

  predicate SectionsFree(cs: seq<Section>) { forall i :: 0 <= i < |cs| ==> SectionFree(cs[i]) }

  predicate ReportFree(r: Report) {
    && TokenFree(r.runId) && TokenFree(r.scenarioId) && TokenFree(r.scenarioName)
    && TokenFree(r.decisionLabel) && TokenFree(r.decisionSummary) && TokenFree(r.nextAction)
    && TextsFree(r.coverage) && TextsFree(r.proof) && SectionsFree(r.sections) && TokenFree(r.copyText)
    && ChecksFree(r.checks) && TextsFree(r.warnings)
  }

  lemma ScanOfSection(c: Section)
    ensures ContainsBlocked(EncodeSection(c)) <==> !SectionFree(c)
  {
    hide TokenFree, Texts, TextsFree, ContainsBlocked;
    var fields := EncodeSection(c).fields;
    ScanOfObject(fields);
    ScanOfText(c.audience);
    ScanOfText(c.title);
    ScanOfTexts(c.bullets);
    assert fields[0].value == JStr(c.audience) && fields[1].value == JStr(c.title);
    assert fields[2].value == Texts(c.bullets);
  }

  lemma ScanOfSections(cs: seq<Section>)
    ensures ContainsBlocked(EncodeSections(cs)) <==> !SectionsFree(cs)
  {
    hide EncodeSection, SectionFree;
    forall i | 0 <= i < |cs| ensures ContainsBlocked(EncodeSections(cs).items[i]) <==> !SectionFree(cs[i]) {
      ScanOfSection(cs[i]);
    }
  }

  lemma ReadinessTextIsTokenFree(r: Readiness)
    ensures TokenFree(ReadinessText(r))
  {
    hide TokenFree;
    match r
    case ReadyForPilot => ReadyText();
    case NeedsAnotherValidation => NeedsAnotherText();
    case Blocked => NoPIsTokenFree("blocked");
  }

  lemma ReadyText()
    ensures TokenFree("ready_for_pilot")
  {
    hide TokenFree, Hits;
    MoreLetterSets();
    LackingIsTokenFree("ready_for_pilot", 'c', 'k', 'u', 'u');
  }

  lemma NeedsAnotherText()
    ensures TokenFree("needs_another_validation")
  {
    hide TokenFree, Hits;
    MoreLetterSets();
    LackingIsTokenFree("needs_another_validation", 'c', 'k', 'u', 'u');
  }

  lemma ScanOfPair(a: Field, b: Field)
    requires EvidentlySafe(a.key) && EvidentlySafe(b.key)
    ensures ContainsBlocked(JObj([a, b])) <==> ContainsBlocked(a.value) || ContainsBlocked(b.value)
  {
    var fields := [a, b];
    ScanOfObject(fields);
    assert fields[0] == a && fields[1] == b;
  }

  lemma ScanOfTriple(a: Field, b: Field, c: Field)
    requires EvidentlySafe(a.key) && EvidentlySafe(b.key) && EvidentlySafe(c.key)
    ensures ContainsBlocked(JObj([a, b, c])) <==>
            ContainsBlocked(a.value) || ContainsBlocked(b.value) || ContainsBlocked(c.value)
  {
    var fields := [a, b, c];
    ScanOfObject(fields);
    assert fields[0] == a && fields[1] == b && fields[2] == c;
  }

  lemma ScanOfReportHead(r: Report)
    ensures ContainsBlocked(JObj(ReportHead(r))) <==>
            !(TokenFree(r.runId) && TokenFree(r.scenarioId) && TokenFree(r.scenarioName) &&
              TokenFree(r.decisionLabel) && TokenFree(r.decisionSummary) && TokenFree(r.nextAction))
  {
    hide TokenFree, StatusText, ReadinessText, ContainsBlocked;
    var fields := ReportHead(r);
    ScanOfObject(fields);
    ScanOfText(r.runId);
    ScanOfText(r.scenarioId);
    ScanOfText(r.scenarioName);
    ScanOfPair(Field("scenario_id", JStr(r.scenarioId)), Field("label", JStr(r.scenarioName)));
    ScanOfText(StatusText(r.status));
    StatusTextIsTokenFree(r.status);
    ScanOfText(ReadinessText(r.readiness));
    ReadinessTextIsTokenFree(r.readiness);
    ScanOfText(r.decisionLabel);
    ScanOfText(r.decisionSummary);
    ScanOfText(r.nextAction);
    ScanOfTriple(Field("label", JStr(r.decisionLabel)), Field("summary", JStr(r.decisionSummary)),
                 Field("next_action", JStr(r.nextAction)));
    assert fields[0].value == JStr(r.runId) && fields[1].key == "scenario" && fields[4].key == "decision_summary";
  }

  lemma ScanOfReportBody(r: Report)
    ensures ContainsBlocked(JObj(ReportBody(r))) <==>
            !(TextsFree(r.coverage) && TextsFree(r.proof) && SectionsFree(r.sections) && TokenFree(r.copyText) &&
              ChecksFree(r.checks) && TextsFree(r.warnings))
  {
    hide TokenFree, Texts, TextsFree, EncodeSections, SectionsFree, EncodeChecks, ChecksFree, ContainsBlocked;
    var fields := ReportBody(r);
    var copyFields := [Field("text", JStr(r.copyText))];
    ScanOfObject(fields);
    ScanOfTexts(r.coverage);
    ScanOfTexts(r.proof);
    ScanOfSections(r.sections);
    ScanOfObject(copyFields);
    ScanOfText(r.copyText);
    assert copyFields[0].value == JStr(r.copyText);
    ScanOfChecks(r.checks);
    ScanOfTexts(r.warnings);
    assert fields[0].value == Texts(r.coverage) && fields[1].value == Texts(r.proof);
    assert fields[2].value == EncodeSections(r.sections) && fields[3].value == JObj(copyFields);
    assert fields[4].value == EncodeChecks(r.checks) && fields[5].value == Texts(r.warnings);
  }

  /** A report is withheld exactly when one of its texts mentions a token. */
  lemma ScanOfReport(r: Report)
    ensures BlockedSecretScan(EncodeReport(r)) <==> ReportFree(r)
  {
    hide TokenFree, ContainsBlocked, ReportHead, ReportBody, BlockedSecretScan;
    ScanIsOneTest(EncodeReport(r));
    ScanOfAppend(ReportHead(r), ReportBody(r));
    ScanOfReportHead(r);
    ScanOfReportBody(r);
  }
}
