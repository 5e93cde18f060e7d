/** The summary that `finish_run` saves, and when it passes. */
module ValidationOutcome {
  import opened Common
  import opened Text
  import opened JsonValues
  import opened BlockedTokens
  import opened RunIds
  import opened Validation
  import Redaction

  const SCAN_CHECK := "blocked_secret_scan_passed"

  function ScanDetail(scan: bool): string {
    "saved payload " + (if scan then "has no" else "contains") + " blocked tokens"
  }

  /** The pending tenth check replaced by the outcome of the scan. */
  function WithScan(checks: seq<Check>, scan: bool): seq<Check> {
    seq(|checks|, i requires 0 <= i < |checks| =>
      if checks[i].name != SCAN_CHECK then checks[i] else Check(SCAN_CHECK, scan, ScanDetail(scan)))
  }

  predicate AllPassed(checks: seq<Check>) { forall i :: 0 <= i < |checks| ==> checks[i].passed }

  /** The summary before the scan has run. */
  function Preliminary(scenario: Scenario, runId: string, startedAt: string, finishedAt: string,
                       dir: seq<string>, r: FinishRequest): Summary {
    Unscanned(scenario, runId, startedAt, finishedAt, dir, ScrubChecks(EvaluateChecks(scenario, r)), CleanRequest(r))
  }

  function Unscanned(scenario: Scenario, runId: string, startedAt: string, finishedAt: string,
                     dir: seq<string>, checks: seq<Check>, c: FinishRequest): Summary {
    Summary(
      runId, scenario.id, Fail, startedAt, finishedAt, AsPosix(dir + ["summary.json"]), AsPosix(dir + ["report.md"]),
      checks, c.manual, c.transcriptText, c.assistantResponseText, c.toolNames,
      c.handoffReason, c.providerEvents, c.latencyMsValues)
  }

  function Finished(preliminary: Summary): Summary {
    var checks := WithScan(preliminary.checks, BlockedSecretScan(EncodeSummary(preliminary)));
    preliminary.(checks := checks, status := if AllPassed(checks) then Pass else Fail)
  }

  // ---------------------------------------------------------------- member names

  /** A member name that a look at its length and second letter tells from every blocked one. */
  predicate EvidentlySafe(key: string) {
    match |key|
    case 3 => false
    case 5 => key[1] !in "uU"
    case 9 => key[1] !in "aArR"
    case 11 => key[1] !in "uU"
    case 13 => false
    case 14 => key[1] !in "oOpP"
    case 15 => key[1] !in "oO"
    case 22 => false
    case _ => true
  }

  /** An object with safe member names is as clean as its values. */
  lemma ScanOfObject(fields: seq<Field>)
    requires forall i :: 0 <= i < |fields| ==> EvidentlySafe(fields[i].key)
    ensures ContainsBlocked(JObj(fields)) <==> exists i :: 0 <= i < |fields| && ContainsBlocked(fields[i].value)
  {
  }

  predicate TextsFree(xs: seq<string>) { forall i :: 0 <= i < |xs| ==> TokenFree(xs[i]) }

  lemma ScanOfTexts(xs: seq<string>)
    ensures ContainsBlocked(Texts(xs)) <==> !TextsFree(xs)
  {
    hide TokenFree;
    assert forall i :: 0 <= i < |xs| ==> Texts(xs).items[i] == JStr(xs[i]);
  }

  lemma ScanOfNumbers(ns: seq<int>)
    ensures !ContainsBlocked(Numbers(ns))
  {
  }

  predicate CheckFree(c: Check) { TokenFree(c.name) && TokenFree(c.detail) }

  predicate ChecksFree(checks: seq<Check>) { forall i :: 0 <= i < |checks| ==> CheckFree(checks[i]) }

  lemma ScanOfCheck(c: Check)
    ensures ContainsBlocked(EncodeCheck(c)) <==> !CheckFree(c)
  {
    hide TokenFree;
    var fields := EncodeCheck(c).fields;
    ScanOfObject(fields);
    assert fields[0].value == JStr(c.name) && fields[2].value == JStr(c.detail);
  }

  lemma ScanOfChecks(checks: seq<Check>)
    ensures ContainsBlocked(EncodeChecks(checks)) <==> !ChecksFree(checks)
  {
    hide EncodeCheck;
    forall i | 0 <= i < |checks| ensures ContainsBlocked(EncodeChecks(checks).items[i]) <==> !CheckFree(checks[i]) {
      ScanOfCheck(checks[i]);
    }
  }

  lemma ScanOfManual(m: ManualAssertions)
    ensures ContainsBlocked(EncodeManual(m)) <==> !TokenFree(m.notes)
  {
    hide TokenFree;
    var fields := EncodeManual(m).fields;
    ScanOfObject(fields);
    assert fields[4].value == JStr(m.notes);
  }

  /** Every text of a summary, the two paths apart, is token-free. */
  predicate ContentsFree(s: Summary) {
    && TokenFree(s.runId) && TokenFree(s.scenarioId) && TokenFree(s.startedAt) && TokenFree(s.finishedAt)
    && ChecksFree(s.checks) && TokenFree(s.manual.notes)
    && TokenFree(s.transcriptText) && TokenFree(s.assistantResponseText)
    && TextsFree(s.toolNames) && TextsFree(s.providerEvents)
    && (s.handoffReason.Some? ==> TokenFree(s.handoffReason.value))
  }

  lemma StatusTextIsTokenFree(s: Status)
    ensures TokenFree(StatusText(s))
  {
    ProseIsTokenFree(StatusText(s));
  }

  lemma ScanOfAppend(a: seq<Field>, b: seq<Field>)
    ensures ContainsBlocked(JObj(a + b)) <==> ContainsBlocked(JObj(a)) || ContainsBlocked(JObj(b))
  {
    hide TokenFree, IsReportKey;
    assert forall i :: 0 <= i < |a| ==> (a + b)[i] == a[i];
    assert forall i :: 0 <= i < |b| ==> (a + b)[|a| + i] == b[i];
  }

  lemma ScanOfHead(s: Summary)
    ensures ContainsBlocked(JObj(HeadFields(s))) <==>
            !(TokenFree(s.runId) && TokenFree(s.scenarioId) && TokenFree(s.startedAt) && TokenFree(s.finishedAt) &&
              TokenFree(s.summaryPath) && TokenFree(s.reportPath))
  {
    hide TokenFree, StatusText, ContainsBlocked;
    var fields := HeadFields(s);
    ScanOfObject(fields);
    ScanOfText(s.runId);
    ScanOfText(s.scenarioId);
    ScanOfText(StatusText(s.status));
    StatusTextIsTokenFree(s.status);
    ScanOfText(s.startedAt);
    ScanOfText(s.finishedAt);
    ScanOfText(s.summaryPath);
    ScanOfText(s.reportPath);
    assert fields[0].value == JStr(s.runId) && fields[1].value == JStr(s.scenarioId);
    assert fields[3].value == JStr(s.startedAt) && fields[4].value == JStr(s.finishedAt);
    assert fields[5].value == JStr(s.summaryPath) && fields[6].value == JStr(s.reportPath);
  }

  lemma ScanOfBody(s: Summary)
    ensures ContainsBlocked(JObj(BodyFields(s))) <==>
            !(ChecksFree(s.checks) && TokenFree(s.manual.notes) && TokenFree(s.transcriptText) &&
              TokenFree(s.assistantResponseText) && TextsFree(s.toolNames) && TextsFree(s.providerEvents) &&
              (s.handoffReason.Some? ==> TokenFree(s.handoffReason.value)))
  {
    hide TokenFree, EncodeChecks, EncodeManual, Texts, Numbers, ChecksFree, TextsFree, ContainsBlocked, TextJson;
    var fields := BodyFields(s);
    ScanOfObject(fields);
    ScanOfChecks(s.checks);
    ScanOfManual(s.manual);
    ScanOfText(s.transcriptText);
    ScanOfText(s.assistantResponseText);
    ScanOfTexts(s.toolNames);
    ScanOfOptional(s.handoffReason);
    ScanOfTexts(s.providerEvents);
    ScanOfNumbers(s.latencyMsValues);
    assert fields[0].value == EncodeChecks(s.checks) && fields[1].value == EncodeManual(s.manual);
    assert fields[2].value == JStr(s.transcriptText) && fields[3].value == JStr(s.assistantResponseText);
    assert fields[4].value == Texts(s.toolNames) && fields[5].value == TextJson(s.handoffReason);
    assert fields[6].value == Texts(s.providerEvents) && fields[7].value == Numbers(s.latencyMsValues);
  }

  /** The scan of a dumped summary sees its texts and nothing else. */
  lemma ScanOfSummary(s: Summary)
    ensures BlockedSecretScan(EncodeSummary(s)) <==>
            ContentsFree(s) && TokenFree(s.summaryPath) && TokenFree(s.reportPath)
  {
    hide TokenFree, ContainsBlocked, HeadFields, BodyFields, BlockedSecretScan;
    ScanIsOneTest(EncodeSummary(s));
    ScanOfAppend(HeadFields(s), BodyFields(s));
    ScanOfHead(s);
    ScanOfBody(s);
  }

  lemma ScanOfText(s: string)
    ensures ContainsBlocked(JStr(s)) <==> !TokenFree(s)
  {
  }

  lemma ScanOfOptional(o: Option<string>)
    ensures ContainsBlocked(TextJson(o)) <==> o.Some? && !TokenFree(o.value)
  {
  }

  // ---------------------------------------------------------------- when a finished run passes

  /** Ids and timestamps are made of characters that no token is made of alone. */
  lemma RunIdIsTokenFree(runId: string)
    requires IsRunId(runId)
    ensures TokenFree(runId)
  {
    forall i | 0 <= i < |runId| ensures LowerChar(runId[i]) !in "_zp" {
      if i < 5 { assert runId[i] == runId[..5][i]; }
      if i >= 21 { assert runId[i] == runId[21..][i - 21]; }
    }
    ProseIsTokenFree(runId);
  }

  lemma TimestampIsTokenFree(t: Instant)
    ensures TokenFree(IsoFormat(t)) && IsoFormat(t) != ""
  {
    hide Pad, Stamp;
    StampOfSeconds(t, ["-", "-", "T", ":", ":", ""]);
    var s := IsoFormat(t);
    assert s[|s| - 1] == '0';
    forall i | 0 <= i < |s| ensures LowerChar(s[i]) !in "_zd" { }
    ProseIsTokenFree(s);
  }

  /** The paths of a run mention a token exactly when the path of the root does. */
  lemma PathsAreTokenFree(root: seq<string>, runId: string)
    requires IsRunId(runId)
    ensures TokenFree(AsPosix(root + [runId] + ["summary.json"])) <==> TokenFree(AsPosix(root))
    ensures TokenFree(AsPosix(root + [runId] + ["report.md"])) <==> TokenFree(AsPosix(root))
  {
    hide TokenFree;
    var dir := root + [runId];
    RunIdIsTokenFree(runId);
    ProseIsTokenFree("summary.json");
    ProseIsTokenFree("report.md");
    assert (dir + ["summary.json"])[..|dir|] == dir && (dir + ["report.md"])[..|dir|] == dir;
    SlashAppend(AsPosix(dir), "summary.json");
    SlashAppend(AsPosix(dir), "report.md");
    if root == [] {
      ProseIsTokenFree("/");
      SlashAppend("", runId);
      ProseIsTokenFree("");
      assert "" + "/" + runId == "/" + runId;
    } else {
      assert dir[..|root|] == root;
      SlashAppend(AsPosix(root), runId);
    }
  }

  lemma SlashAppend(a: string, name: string)
    requires TokenFree(name)
    ensures TokenFree(a + "/" + name) <==> TokenFree(a)
  {
    hide TokenFree;
    ProseIsTokenFree("/");
    if TokenFree(a) {
      JoinTokenFree(a, "/");
      JoinTokenFree(a + "/", name);
    }
    if TokenFree(a + "/" + name) {
      SliceTokenFree(a + "/" + name, 0, |a|);
      assert (a + "/" + name)[0..|a|] == a;
    }
  }

  const CHECK_NAMES: seq<string> := [
    "scenario_known", "session_observed", "expected_tools_observed", "expected_handoff_observed",
    "transcript_observed", "assistant_response_observed", "provider_errors_absent", "manual_voice_confirmed",
    "manual_business_confirmed", SCAN_CHECK]

  lemma NamesInOrder(scenario: Scenario, r: FinishRequest)
    ensures |EvaluateChecks(scenario, r)| == |CHECK_NAMES|
    ensures forall i :: 0 <= i < |CHECK_NAMES| ==> EvaluateChecks(scenario, r)[i].name == CHECK_NAMES[i]
  {
    hide Details, HasProviderError, ManualVoice, ManualBusiness, HandoffObserved, ToolsObserved, Strip, FindScenario,
         OBSERVED_SESSION_STATES;
  }

  lemma CheckNames(scenario: Scenario, r: FinishRequest)
    ensures forall c :: c in EvaluateChecks(scenario, r) ==> c.name in CHECK_NAMES
  {
    hide EvaluateChecks, CHECK_NAMES;
    NamesInOrder(scenario, r);
  }

  lemma CheckNamesAreTokenFree()
    ensures forall n :: n in CHECK_NAMES ==> TokenFree(n)
  {
    hide TokenFree;
    ObservationNamesAreTokenFree();
    TranscriptNamesAreTokenFree();
    ProviderNamesAreTokenFree();
    ToolNamesAreTokenFree();
    ManualNamesAreTokenFree();
    ScanCheckNameIsTokenFree();
  }

  lemma ScenarioKnown()
    ensures TokenFree("scenario_known")
  {
    hide TokenFree, Hits;
    MoreLetterSets();
    LackingIsTokenFree("scenario_known", 'p', 't', 'u', 'u');
  }

  lemma SessionObserved()
    ensures TokenFree("session_observed")
  {
    hide TokenFree, Hits;
    LetterSets();
    LackingIsTokenFree("session_observed", 'l', 'w', 'y', 'z');
  }

  lemma ObservationNamesAreTokenFree()
    ensures TokenFree("scenario_known") && TokenFree("session_observed")
  {
    hide TokenFree;
    ScenarioKnown();
    SessionObserved();
  }

  lemma TranscriptObserved()
    ensures TokenFree("transcript_observed")
  {
    hide TokenFree, Hits;
    LetterSets();
    LackingIsTokenFree("transcript_observed", 'l', 'w', 'y', 'z');
  }

  lemma ResponseObserved()
    ensures TokenFree("assistant_response_observed")
  {
    hide TokenFree, Hits;
    LetterSets();
    LackingIsTokenFree("assistant_response_observed", 'l', 'w', 'y', 'z');
  }

  lemma TranscriptNamesAreTokenFree()
    ensures TokenFree("transcript_observed") && TokenFree("assistant_response_observed")
  {
    hide TokenFree;
    TranscriptObserved();
    ResponseObserved();
  }

  lemma ProviderErrorsAbsent()
    ensures TokenFree("provider_errors_absent")
  {
    hide TokenFree, Hits;
    LetterSets();
    LackingIsTokenFree("provider_errors_absent", 'l', 'w', 'y', 'z');
  }

  lemma HandoffObservedName()
    ensures TokenFree("expected_handoff_observed")
  {
    hide TokenFree, Hits;
    LetterSets();
    LackingIsTokenFree("expected_handoff_observed", 'l', 'w', 'y', 'z');
  }

  lemma ProviderNamesAreTokenFree()
    ensures TokenFree("provider_errors_absent") && TokenFree("expected_handoff_observed")
  {
    hide TokenFree;
    ProviderErrorsAbsent();
    HandoffObservedName();
  }

  lemma ToolNamesAreTokenFree()
    ensures TokenFree("expected_tools_observed")
  {
    hide TokenFree, Hits;
    LetterSets();
    assert Without("expected_tools_observed", 'n', 'w', 'y', 'y');
    LackingIsTokenFree("expected_tools_observed", 'n', 'w', 'y', 'y');
  }

  lemma ManualVoiceConfirmed()
    ensures TokenFree("manual_voice_confirmed")
  {
    hide TokenFree, Hits;
    MoreLetterSets();
    LackingIsTokenFree("manual_voice_confirmed", 'k', 't', 'w', 'w');
  }

  lemma ManualBusinessConfirmed()
    ensures TokenFree("manual_business_confirmed")
  {
    hide TokenFree, Hits;
    MoreLetterSets();
    LackingIsTokenFree("manual_business_confirmed", 'k', 't', 'w', 'w');
  }

  lemma ManualNamesAreTokenFree()
    ensures TokenFree("manual_voice_confirmed") && TokenFree("manual_business_confirmed")
  {
    hide TokenFree;
    ManualVoiceConfirmed();
    ManualBusinessConfirmed();
  }

  /** The one check name with every letter of a token; it has no double `o`. */
  lemma ScanCheckNameIsTokenFree()
    ensures TokenFree(SCAN_CHECK)
  {
    hide Mentions, Without, NoPair, BLOCKED_REPORT_TEXT_TOKENS;
    ScanNameLetters();
    ScanNamePairs();
    ScanNameDoubles();
    forall t | t in BLOCKED_REPORT_TEXT_TOKENS
      ensures !Mentions(SCAN_CHECK, t)
    {
      if Mentions(SCAN_CHECK, t) { MentionInScanName(SCAN_CHECK, t); }
    }
  }

  lemma ScanNameLetters()
    ensures Without(SCAN_CHECK, 'u', 'i', 'i', 'i')
  {
  }

  lemma ScanNamePairs()
    ensures NoPair(SCAN_CHECK, 'd', 'p')
  {
    var s := SCAN_CHECK;
    assert forall i :: 0 <= i < |s| && LowerChar(s[i]) == 'd' ==> i == 6 || i == 25;
    assert LowerChar(s[7]) == '_' && |s| == 26;
  }

  lemma ScanNameDoubles()
    ensures NoPair(SCAN_CHECK, 'o', 'o')
  {
    var s := SCAN_CHECK;
    assert forall i :: 0 <= i < |s| && LowerChar(s[i]) == 'o' ==> i == 2;
    assert LowerChar(s[3]) == 'c';
  }

  lemma MentionInScanName(s: string, t: string)
    requires t in BLOCKED_REPORT_TEXT_TOKENS && Mentions(s, t)
    ensures !(Without(s, 'u', 'i', 'i', 'i') && NoPair(s, 'd', 'p') && NoPair(s, 'o', 'o'))
  {
    hide Mentions, BLOCKED_REPORT_TEXT_TOKENS;
    TokenCases(t);
    if t == "sdp" {
      MentionHasPair(s, t, 1);
    } else if t == "tool_call_token" {
      MentionHasPair(s, t, 1);
    } else {
      LongTokenHasUOrI(t);
      if 'u' in Lowered(t) { MentionHasLetter(s, t, 'u'); } else { MentionHasLetter(s, t, 'i'); }
    }
  }

  lemma LongTokenHasUOrI(t: string)
    requires Lowered(t) in LONG_TOKENS && t != "tool_call_token"
    ensures 'u' in Lowered(t) || 'i' in Lowered(t)
  {
  }

  lemma CleanedContentsFree(scenario: Scenario, runId: string, startedAt: string, finishedAt: string,
                            dir: seq<string>, r: FinishRequest)
    requires scenario in STANDARD_VALIDATION_SCENARIOS && IsRunId(runId)
    requires TokenFree(startedAt) && TokenFree(finishedAt)
    ensures ContentsFree(Preliminary(scenario, runId, startedAt, finishedAt, dir, r))
  {
    hide TokenFree, Clean, EvaluateChecks, CHECK_NAMES;
    RunIdIsTokenFree(runId);
    ScenarioIdIsTokenFree(scenario);
    var checks := EvaluateChecks(scenario, r);
    CheckNames(scenario, r);
    CheckNamesAreTokenFree();
    forall i | 0 <= i < |checks| ensures CheckFree(ScrubCheck(checks[i])) {
      assert checks[i] in checks;
      CleanIsTokenFree(checks[i].detail);
    }
    CleanIsTokenFree(r.manual.notes);
    CleanIsTokenFree(r.transcriptText);
    CleanIsTokenFree(r.assistantResponseText);
    forall i | 0 <= i < |r.toolNames| ensures TokenFree(Clean(r.toolNames[i])) { CleanIsTokenFree(r.toolNames[i]); }
    forall i | 0 <= i < |r.providerEvents| ensures TokenFree(Clean(r.providerEvents[i])) {
      CleanIsTokenFree(r.providerEvents[i]);
    }
    if r.handoffReason.Some? { CleanIsTokenFree(r.handoffReason.value); }
  }

  lemma ScenarioIdIsTokenFree(scenario: Scenario)
    requires scenario in STANDARD_VALIDATION_SCENARIOS
    ensures TokenFree(scenario.id)
  {
    hide TokenFree;
    PlainIdsAreTokenFree();
    LogisticsIdIsTokenFree();
    KnowledgeIdsAreTokenFree();
  }

  lemma OrderStatusId()
    ensures TokenFree("order_status")
  {
    hide TokenFree, Hits;
    LetterSets();
    LackingIsTokenFree("order_status", 'l', 'w', 'y', 'z');
  }

  lemma CustomerRequestId()
    ensures TokenFree("customer_requested_human")
  {
    hide TokenFree, Hits;
    LetterSets();
    LackingIsTokenFree("customer_requested_human", 'l', 'w', 'y', 'z');
  }

  lemma PlainIdsAreTokenFree()
    ensures TokenFree("order_status") && TokenFree("customer_requested_human")
  {
    hide TokenFree;
    OrderStatusId();
    CustomerRequestId();
  }

  lemma LogisticsIdIsTokenFree()
    ensures TokenFree("logistics_tracking")
  {
    hide TokenFree, Hits;
    LetterSets();
    LackingIsTokenFree("logistics_tracking", 'e', 'u', 'u', 'u');
  }

  lemma ProductKnowledgeId()
    ensures TokenFree("product_knowledge")
  {
    hide TokenFree, Hits;
    MoreLetterSets();
    LackingIsTokenFree("product_knowledge", 'a', 'i', 'i', 'i');
  }

  lemma LowConfidenceId()
    ensures TokenFree("knowledge_low_confidence_handoff")
  {
    hide TokenFree, Hits;
    MoreLetterSets();
    LackingIsTokenFree("knowledge_low_confidence_handoff", 'p', 't', 'u', 'u');
  }

  lemma KnowledgeIdsAreTokenFree()
    ensures TokenFree("product_knowledge") && TokenFree("knowledge_low_confidence_handoff")
  {
    hide TokenFree;
    ProductKnowledgeId();
    LowConfidenceId();
  }

  /** The outcome of each check, by position. */
  lemma Outcomes(scenario: Scenario, r: FinishRequest)
    ensures var c := EvaluateChecks(scenario, r);
            && |c| == 10
            && c[1].passed == (Strip(r.sessionState) in OBSERVED_SESSION_STATES)
            && c[2].passed == ToolsObserved(scenario, r)
  {
  }

  lemma ScenarioOutcome(scenario: Scenario, r: FinishRequest)
    ensures var c := EvaluateChecks(scenario, r);
            |c| == 10 && c[0].passed == FindScenario(scenario.id).Some?
  {
  }

  lemma SpokenOutcomes(scenario: Scenario, r: FinishRequest)
    ensures var c := EvaluateChecks(scenario, r);
            && |c| == 10
            && c[3].passed == (scenario.expectedHandoff == HandoffObserved(r))
            && c[4].passed == (Strip(r.transcriptText) != "")
            && c[5].passed == (!scenario.expectedHandoff || Strip(r.assistantResponseText) != "")
  {
  }

  lemma ManualOutcomes(scenario: Scenario, r: FinishRequest)
    ensures var c := EvaluateChecks(scenario, r);
            && |c| == 10
            && c[6].passed == !HasProviderError(r)
            && c[7].passed == ManualVoice(r)
            && c[8].passed == ManualBusiness(scenario, r)
  {
  }

  /** No other check is mistaken for the scan or for the provider check: the lengths of the names differ. */
  lemma NamesByPosition(scenario: Scenario, r: FinishRequest)
    ensures var c := EvaluateChecks(scenario, r);
            && |c| == 10
            && c[6].name == "provider_errors_absent" && c[9].name == SCAN_CHECK
            && |c[0].name| == 14 && |c[1].name| == 16 && |c[2].name| == 23 && |c[3].name| == 25 && |c[4].name| == 19
            && |c[5].name| == 27 && c[7].name != "" && c[7].name[0] == 'm' && |c[7].name| == 22 && |c[8].name| == 25
  {
  }

  /** The first nine checks pass exactly when the request, as it was sent, shows a successful run. */
  lemma NineChecks(scenario: Scenario, r: FinishRequest)
    requires scenario in STANDARD_VALIDATION_SCENARIOS
    ensures var c := EvaluateChecks(scenario, r);
            (c[0].passed && c[1].passed && c[2].passed && c[3].passed && c[4].passed && c[5].passed && c[6].passed &&
             c[7].passed && c[8].passed) <==> RunSucceeded(scenario, r)
  {
    hide EvaluateChecks, Strip, Contains, HasVisible, STANDARD_VALIDATION_SCENARIOS, FindScenario;
    ScenarioOutcome(scenario, r);
    Outcomes(scenario, r);
    SpokenOutcomes(scenario, r);
    ManualOutcomes(scenario, r);
    StripVisible(r.transcriptText);
    StripVisible(r.assistantResponseText);
    assert FindScenario(scenario.id).Some?;
    assert HasProviderError(r) <==>
           exists e, m :: e in r.providerEvents && m in PROVIDER_ERROR_MARKERS && Contains(e, m);
  }

  function SavedChecks(scenario: Scenario, r: FinishRequest, scan: bool): seq<Check> {
    WithScan(ScrubChecks(EvaluateChecks(scenario, r)), scan)
  }

  /** Scrubbing and scanning change details, and of the outcomes only that of the tenth check. */
  lemma SavedOutcomes(scenario: Scenario, r: FinishRequest, scan: bool)
    ensures var c, saved := EvaluateChecks(scenario, r), SavedChecks(scenario, r, scan);
            && |c| == |saved| == 10
            && (forall i :: 0 <= i < 9 ==> saved[i].passed == c[i].passed && saved[i].name == c[i].name)
            && saved[9].name == SCAN_CHECK && saved[9].passed == scan
            && (forall i :: 0 <= i < 9 ==> c[i].name != SCAN_CHECK)
            && (forall i :: 0 <= i < 10 && i != 6 ==> saved[i].name != saved[6].name)
            && saved[6].name == "provider_errors_absent"
  {
    hide EvaluateChecks, Clean;
    NamesByPosition(scenario, r);
    assert |SCAN_CHECK| == 26 && |"provider_errors_absent"| == 22;
    var c := EvaluateChecks(scenario, r);
    forall i | 0 <= i < 10 && i != 9 ensures |c[i].name| != 26 { }
    forall i | 0 <= i < 10 && i != 6 ensures c[i].name != c[6].name { }
  }

  lemma SavedPassIff(scenario: Scenario, r: FinishRequest, scan: bool)
    requires scenario in STANDARD_VALIDATION_SCENARIOS
    ensures AllPassed(SavedChecks(scenario, r, scan)) <==> RunSucceeded(scenario, r) && scan
  {
    hide EvaluateChecks, SavedChecks, RunSucceeded;
    NineChecks(scenario, r);
    SavedOutcomes(scenario, r, scan);
    var c, saved := EvaluateChecks(scenario, r), SavedChecks(scenario, r, scan);
    assert saved[0].passed == c[0].passed && saved[1].passed == c[1].passed && saved[2].passed == c[2].passed;
    assert saved[3].passed == c[3].passed && saved[4].passed == c[4].passed && saved[5].passed == c[5].passed;
    assert saved[6].passed == c[6].passed && saved[7].passed == c[7].passed && saved[8].passed == c[8].passed;
  }

  lemma ScanDetailIsTokenFree(scan: bool)
    ensures TokenFree(ScanDetail(scan))
  {
    hide TokenFree;
    var verdict := if scan then "has no" else "contains";
    DetailWords();
    MoreDetailWords();
    JoinTokenFree("saved payload ", verdict);
    JoinTokenFree("saved payload " + verdict, " blocked tokens");
  }

  lemma DetailWords()
    ensures TokenFree("saved payload ") && TokenFree("has no")
  {
    hide TokenFree;
    ProseIsTokenFree("saved payload ");
    ProseIsTokenFree("has no");
  }

  lemma MoreDetailWords()
    ensures TokenFree("contains") && TokenFree(" blocked tokens")
  {
    hide TokenFree;
    ProseIsTokenFree("contains");
    ProseIsTokenFree(" blocked tokens");
  }

  /** What is saved is as clean as what was scanned. */
  lemma FinishedContentsFree(p: Summary)
    requires ContentsFree(p)
    ensures ContentsFree(Finished(p))
  {
    hide TokenFree, BlockedSecretScan, EncodeSummary;
    CheckNamesAreTokenFree();
    assert SCAN_CHECK in CHECK_NAMES;
    ScanDetailIsTokenFree(true);
    ScanDetailIsTokenFree(false);
  }

  /**
   * Whatever was typed, said or reported by the provider, the saved summary passes the secret scan,
   * unless the path of the root itself mentions a token.  So the run passes exactly when the raw
   * request shows a successful run, and the root is clean.
   */
  lemma FinishPassesIff(scenario: Scenario, runId: string, startedAt: string, finishedAt: string,
                        root: seq<string>, r: FinishRequest)
    requires scenario in STANDARD_VALIDATION_SCENARIOS && IsRunId(runId)
    requires TokenFree(startedAt) && TokenFree(finishedAt)
    ensures var saved := Finished(Preliminary(scenario, runId, startedAt, finishedAt, root + [runId], r));
            && ContentsFree(saved)
            && (BlockedSecretScan(EncodeSummary(saved)) <==> TokenFree(AsPosix(root)))
            && (saved.status == Pass <==> RunSucceeded(scenario, r) && TokenFree(AsPosix(root)))
            && saved.checks == SavedChecks(scenario, r, TokenFree(AsPosix(root)))
  {
    hide TokenFree, BlockedSecretScan, EncodeSummary, ContentsFree, EvaluateChecks, RunSucceeded, AllPassed,
         WithScan;
    var p := Preliminary(scenario, runId, startedAt, finishedAt, root + [runId], r);
    CleanedContentsFree(scenario, runId, startedAt, finishedAt, root + [runId], r);
    PathsAreTokenFree(root, runId);
    ScanOfSummary(p);
    FinishedContentsFree(p);
    ScanOfSummary(Finished(p));
    SavedPassIff(scenario, r, TokenFree(AsPosix(root)));
  }

  /**
   * Every member of the request's dump, but the session state, is in the saved summary under its own
   * name, redacted and scrubbed.
   */
  lemma SavedKeepsTheRequest(scenario: Scenario, runId: string, startedAt: string, finishedAt: string,
                             dir: seq<string>, r: FinishRequest, k: nat)
    requires 1 <= k < |EncodeRequest(r).fields|
    ensures var dump := EncodeRequest(r).fields[k];
            var saved := Finished(Preliminary(scenario, runId, startedAt, finishedAt, dir, r));
            Field(dump.key, CleanJson(dump.value)) in EncodeSummary(saved).fields
  {
    hide CleanJson, Clean, EvaluateChecks, ScrubChecks, EncodeChecks, EncodeManual, Texts, Numbers, TextJson,
         BlockedSecretScan, HeadFields, AsPosix, WithScan, AllPassed, CleanAll;
    var p := Preliminary(scenario, runId, startedAt, finishedAt, dir, r);
    var saved, c := Finished(p), CleanRequest(r);
    CleanRequestIsCleanDump(r);
    CleanMember(EncodeRequest(r).fields, k);
    var cleaned, body := EncodeRequest(c).fields, BodyFields(saved);
    assert cleaned[k] in body by {
      assert cleaned[1] == body[2] && cleaned[2] == body[3] && cleaned[3] == body[4] && cleaned[4] == body[5];
      assert cleaned[5] == body[6] && cleaned[6] == body[7] && cleaned[7] == body[1];
    }
  }

  lemma CleanMember(fields: seq<Field>, k: nat)
    requires k < |fields|
    ensures var cleaned := CleanJson(JObj(fields));
            cleaned.JObj? && |cleaned.fields| == |fields| &&
            cleaned.fields[k] == Field(fields[k].key, CleanJson(fields[k].value))
  {
    hide Redaction.RedactText, ScrubText;
  }
}
