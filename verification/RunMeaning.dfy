/** What a finished run saves, told from the request it was finished with. */
module RunMeaning {
  import opened Common
  import opened Text
  import opened BlockedTokens
  import opened RunIds
  import opened Validation
  import opened ValidationOutcome
  import EventLog
  import Redaction
  import Sorting

  // ---------------------------------------------------------------- cleaning

  /** A text is saved redacted, or not at all if it still mentions a token; as it is, if there is nothing to hide. */
  lemma CleanMeaning(s: string)
    ensures Clean(s) == if TokenFree(Redaction.RedactText(s)) then Redaction.RedactText(s) else "[BLOCKED_REDACTED]"
    ensures Clean(s) == s <==> !Redaction.HasItem(s) && TokenFree(s)
  {
    hide TokenFree, Redaction.RedactText, Redaction.HasItem;
    Redaction.ChangedIffItem(s);
    BlockedRedactedIsTokenFree();
    if TokenFree(s) { RedactionKeepsTokenFree(s); }
  }

  // ---------------------------------------------------------------- lists in a detail

  /** The texts of `of`, each once, in order. */
  ghost predicate ListsSet(xs: seq<string>, of: seq<string>) {
    && (forall t :: t in xs <==> t in of)
    && (forall i, j :: 0 <= i < j < |xs| ==> xs[i] != xs[j] && StrLe(xs[i], xs[j]))
  }

  lemma {:induction false} DistinctMeaning(xs: seq<string>)
    ensures forall t :: t in Distinct(xs) <==> t in xs
    ensures forall i, j :: 0 <= i < j < |Distinct(xs)| ==> Distinct(xs)[i] != Distinct(xs)[j]
  {
    if xs != [] {
      DistinctMeaning(xs[1..]);
      assert xs == [xs[0]] + xs[1..];
    }
  }

  lemma SortedSetMeaning(xs: seq<string>)
    ensures ListsSet(SortedSet(xs), xs)
  {
    hide Sorting.Sort, Distinct;
    var once, sorted := Distinct(xs), SortedSet(xs);
    DistinctMeaning(xs);
    EventLog.StrLeTotalOrder();
    Sorting.SortCorrect(once, StrLe);
    forall t ensures t in sorted <==> t in xs {
      assert t in sorted <==> t in multiset(sorted);
      assert t in once <==> t in multiset(once);
    }
    forall i, j | 0 <= i < j < |sorted| ensures sorted[i] != sorted[j] {
      if sorted[i] == sorted[j] { TwiceInMultiset(sorted, i, j); OnceInMultiset(once, sorted[i]); }
    }
  }

  lemma TwiceInMultiset(xs: seq<string>, i: nat, j: nat)
    requires i < j < |xs| && xs[i] == xs[j]
    ensures multiset(xs)[xs[i]] >= 2
  {
    assert xs == xs[..j] + [xs[j]] + xs[j + 1..];
    assert xs[i] in xs[..j];
  }

  lemma {:induction false} OnceInMultiset(xs: seq<string>, t: string)
    requires forall i, j :: 0 <= i < j < |xs| ==> xs[i] != xs[j]
    ensures multiset(xs)[t] <= 1
  {
    if xs != [] {
      var init, last := xs[..|xs| - 1], xs[|xs| - 1];
      assert xs == init + [last];
      OnceInMultiset(init, t);
      assert last !in init;
    }
  }

  function UnescapedChar(c: char): char {
    match c
    case 'n' => '\n'
    case 'r' => '\r'
    case 't' => '\t'
    case _ => c
  }

  /** The text that an escaped one stands for. */
  function Unescaped(body: string): string {
    if body == "" then ""
    else if body[0] == '\\' && |body| > 1 then
      [UnescapedChar(body[1])] + Unescaped(body[2..])
    else [body[0]] + Unescaped(body[1..])
  }

  /** Quoting loses nothing, and double quotes are used exactly for a text with single quotes only. */
  lemma ReprMeaning(s: string)
    ensures var r := Repr(s);
            && |r| >= 2 && r[0] == r[|r| - 1] && Unescaped(r[1..|r| - 1]) == s
            && (r[0] == '"' <==> '\'' in s && '"' !in s) && (r[0] == '\'' <==> !('\'' in s && '"' !in s))
  {
    var quote := if '\'' in s && '"' !in s then '"' else '\'';
    EscapedIsRead(s, quote);
    assert Repr(s)[1..|Repr(s)| - 1] == ReprBody(s, quote);
  }

  /** A character is written as it is, or as an escape of two. */
  lemma OneEscaped(s: string, quote: char)
    requires s != "" && (quote == '"' || quote == '\'')
    ensures var body, rest := ReprBody(s, quote), ReprBody(s[1..], quote);
            || (body == [s[0]] + rest && s[0] != '\\')
            || (exists c :: body == ['\\', c] + rest && UnescapedChar(c) == s[0])
  {
    var c := s[0];
    var rest := ReprBody(s[1..], quote);
    if c == '\n' {
      assert ReprBody(s, quote) == ['\\', 'n'] + rest && UnescapedChar('n') == c;
    } else if c == '\r' {
      assert ReprBody(s, quote) == ['\\', 'r'] + rest && UnescapedChar('r') == c;
    } else if c == '\t' {
      assert ReprBody(s, quote) == ['\\', 't'] + rest && UnescapedChar('t') == c;
    } else if c == '\\' || c == quote {
      assert ReprBody(s, quote) == ['\\', c] + rest && UnescapedChar(c) == c;
    }
  }

  lemma {:induction false} EscapedIsRead(s: string, quote: char)
    requires quote == '"' || quote == '\''
    ensures Unescaped(ReprBody(s, quote)) == s
  {
    if s != "" {
      hide ReprBody, UnescapedChar;
      var body, rest := ReprBody(s, quote), ReprBody(s[1..], quote);
      EscapedIsRead(s[1..], quote);
      OneEscaped(s, quote);
      if c :| body == ['\\', c] + rest && UnescapedChar(c) == s[0] {
        assert body[2..] == rest;
      } else {
        assert body[1..] == rest;
      }
    }
  }

  // ---------------------------------------------------------------- the ten checks

  /** The check has this name, this outcome, and this detail, cleaned. */
  predicate Says(c: Check, name: string, passed: bool, detail: string) {
    c.name == name && c.passed == passed && c.detail == Clean(detail)
  }

  predicate GivesReason(r: FinishRequest) {
    match r.handoffReason
    case None => false
    case Some(reason) => reason != "" && reason != "none"
  }

  predicate Manually(scenario: Scenario, m: ManualAssertions) {
    (scenario.expectedHandoff && m.demoReady) || (!scenario.expectedHandoff && m.businessAnswerAcceptable)
  }

  /** A provider event that tells of an error. */
  predicate TellsError(e: string) {
    Contains(e, "provider_error=") || Contains(e, "event_log_error=") || Contains(e, "data_channel_error") ||
    Contains(e, "OpenAI SDP exchange failed")
  }

  ghost predicate SaysTools(c: Check, scenario: Scenario, r: FinishRequest) {
    exists expected, observed ::
      && ListsSet(expected, scenario.expectedTools) && ListsSet(observed, r.toolNames)
      && Says(c, "expected_tools_observed", forall t :: t in expected ==> t in observed,
              "expected=" + ReprList(expected) + " observed=" + ReprList(observed))
  }

  predicate SaysSession(c: Check, state: string) {
    var s := Strip(state);
    Says(c, "session_observed",
         s == "connected" || s == "ready" || s == "ended" || s == "data_channel_closed" || s == "data_channel_error",
         "session_state=" + state)
  }

  ghost predicate SaysHandoff(c: Check, scenario: Scenario, r: FinishRequest) {
    Says(c, "expected_handoff_observed", scenario.expectedHandoff <==> GivesReason(r),
         "expected=" + (if scenario.expectedHandoff then "True" else "False") +
         " observed=" + (if GivesReason(r) then "True" else "False"))
  }

  ghost predicate SaysTranscript(c: Check, r: FinishRequest) {
    if HasVisible(r.transcriptText) then Says(c, "transcript_observed", true, "transcript present")
    else Says(c, "transcript_observed", false, "transcript missing")
  }

  ghost predicate SaysResponse(c: Check, scenario: Scenario, r: FinishRequest) {
    Says(c, "assistant_response_observed", scenario.expectedHandoff ==> HasVisible(r.assistantResponseText),
         "assistant response present or not required")
  }

  ghost predicate SaysErrors(c: Check, r: FinishRequest) {
    if exists e :: e in r.providerEvents && TellsError(e) then
      Says(c, "provider_errors_absent", false, "provider error marker found")
    else Says(c, "provider_errors_absent", true, "no provider error markers")
  }

  predicate SaysVoice(c: Check, m: ManualAssertions) {
    if m.heardVoice && m.voiceQualityAcceptable then
      Says(c, "manual_voice_confirmed", true, "manual voice checks passed")
    else Says(c, "manual_voice_confirmed", false, "manual voice checks failed")
  }

  predicate SaysBusiness(c: Check, scenario: Scenario, m: ManualAssertions) {
    if Manually(scenario, m) then
      Says(c, "manual_business_confirmed", true, "manual business/demo checks passed")
    else Says(c, "manual_business_confirmed", false, "manual business/demo checks failed")
  }

  predicate SaysScan(c: Check, clean: bool) {
    c == if clean then Check("blocked_secret_scan_passed", true, "saved payload has no blocked tokens")
         else Check("blocked_secret_scan_passed", false, "saved payload contains blocked tokens")
  }

  /** The ten checks in order, each with what it found in the request. */
  ghost predicate TellChecks(c: seq<Check>, scenario: Scenario, r: FinishRequest, clean: bool) {
    && |c| == 10
    && Says(c[0], "scenario_known", true, "scenario_id=" + scenario.id)
    && SaysSession(c[1], r.sessionState) && SaysTools(c[2], scenario, r) && SaysHandoff(c[3], scenario, r)
    && SaysTranscript(c[4], r) && SaysResponse(c[5], scenario, r) && SaysErrors(c[6], r)
    && SaysVoice(c[7], r.manual) && SaysBusiness(c[8], scenario, r.manual) && SaysScan(c[9], clean)
  }

  lemma SavedAt(scenario: Scenario, r: FinishRequest, scan: bool)
    ensures var c, saved := EvaluateChecks(scenario, r), SavedChecks(scenario, r, scan);
            && |c| == |saved| == 10 && saved[9] == Check(SCAN_CHECK, scan, ScanDetail(scan))
            && forall k :: 0 <= k < 9 ==> saved[k] == ScrubCheck(c[k])
  {
    hide EvaluateChecks, Clean, ScanDetail;
    SavedOutcomes(scenario, r, scan);
  }

  /** The checks as they are before cleaning, by position. */
  lemma FirstChecks(scenario: Scenario, r: FinishRequest)
    requires scenario in STANDARD_VALIDATION_SCENARIOS
    ensures var c, d := EvaluateChecks(scenario, r), Details(scenario, r);
            && |c| == 10 && c[0] == Check("scenario_known", true, d[0])
            && c[1] == Check("session_observed", Strip(r.sessionState) in OBSERVED_SESSION_STATES, d[1])
            && c[2] == Check("expected_tools_observed", ToolsObserved(scenario, r), d[2])
            && c[3] == Check("expected_handoff_observed", scenario.expectedHandoff == HandoffObserved(r), d[3])
            && c[4] == Check("transcript_observed", Strip(r.transcriptText) != "", d[4])
  {
    hide Details, STANDARD_VALIDATION_SCENARIOS;
    assert FindScenario(scenario.id).Some?;
  }

  lemma OtherChecks(scenario: Scenario, r: FinishRequest)
    ensures var c, d := EvaluateChecks(scenario, r), Details(scenario, r);
            && |c| == 10
            && c[5] == Check("assistant_response_observed",
                             !scenario.expectedHandoff || Strip(r.assistantResponseText) != "", d[5])
            && c[6] == Check("provider_errors_absent", !HasProviderError(r), d[6])
            && c[7] == Check("manual_voice_confirmed", ManualVoice(r), d[7])
            && c[8] == Check("manual_business_confirmed", ManualBusiness(scenario, r), d[8])
  {
    hide Details;
  }

  lemma FirstDetails(scenario: Scenario, r: FinishRequest)
    ensures var d := Details(scenario, r);
            && d[0] == "scenario_id=" + scenario.id && d[1] == "session_state=" + r.sessionState
            && d[2] == "expected=" + ReprList(SortedSet(scenario.expectedTools)) + " observed=" +
                       ReprList(SortedSet(r.toolNames))
            && d[3] == "expected=" + BoolText(scenario.expectedHandoff) + " observed=" + BoolText(HandoffObserved(r))
            && d[4] == if Strip(r.transcriptText) != "" then "transcript present" else "transcript missing"
  {
    hide ReprList, SortedSet, Strip;
  }

  lemma OtherDetails(scenario: Scenario, r: FinishRequest)
    ensures var d := Details(scenario, r);
            && d[5] == "assistant response present or not required"
            && d[6] == (if HasProviderError(r) then "provider error marker found" else "no provider error markers")
            && d[7] == (if ManualVoice(r) then "manual voice checks passed" else "manual voice checks failed")
            && d[8] == if ManualBusiness(scenario, r) then "manual business/demo checks passed"
                       else "manual business/demo checks failed"
  {
    hide ReprList, SortedSet, Strip, HasProviderError;
  }

  lemma ErrorMeaning(r: FinishRequest)
    ensures HasProviderError(r) <==> exists e :: e in r.providerEvents && TellsError(e)
  {
    hide Contains;
    if HasProviderError(r) {
      var i, m :| 0 <= i < |r.providerEvents| && m in PROVIDER_ERROR_MARKERS && Contains(r.providerEvents[i], m);
      assert r.providerEvents[i] in r.providerEvents && TellsError(r.providerEvents[i]);
    }
    if e :| e in r.providerEvents && TellsError(e) {
      var i :| 0 <= i < |r.providerEvents| && r.providerEvents[i] == e;
      var markers := PROVIDER_ERROR_MARKERS;
      assert markers[0] in markers && markers[1] in markers && markers[2] in markers && markers[3] in markers;
    }
  }

  lemma ToolsTold(scenario: Scenario, r: FinishRequest, c: Check)
    requires Says(c, "expected_tools_observed", ToolsObserved(scenario, r),
                  "expected=" + ReprList(SortedSet(scenario.expectedTools)) + " observed=" +
                  ReprList(SortedSet(r.toolNames)))
    ensures SaysTools(c, scenario, r)
  {
    hide ReprList, SortedSet, Clean;
    SortedSetMeaning(scenario.expectedTools);
    SortedSetMeaning(r.toolNames);
    assert ToolsObserved(scenario, r) <==>
           forall t :: t in SortedSet(scenario.expectedTools) ==> t in SortedSet(r.toolNames);
  }

  lemma FirstChecksTell(scenario: Scenario, r: FinishRequest, scan: bool)
    requires scenario in STANDARD_VALIDATION_SCENARIOS
    ensures var c := SavedChecks(scenario, r, scan);
            && |c| == 10 && Says(c[0], "scenario_known", true, "scenario_id=" + scenario.id)
            && SaysSession(c[1], r.sessionState) && SaysTools(c[2], scenario, r) && SaysHandoff(c[3], scenario, r)
            && SaysTranscript(c[4], r)
  {
    hide EvaluateChecks, Details, SavedChecks, Clean, Strip, ReprList, SortedSet, SaysTools, HasVisible,
         STANDARD_VALIDATION_SCENARIOS, ToolsObserved;
    SavedAt(scenario, r, scan);
    FirstChecks(scenario, r);
    FirstDetails(scenario, r);
    ToolsTold(scenario, r, SavedChecks(scenario, r, scan)[2]);
    StripVisible(r.transcriptText);
  }

  lemma OtherChecksTell(scenario: Scenario, r: FinishRequest, scan: bool)
    ensures var c := SavedChecks(scenario, r, scan);
            && |c| == 10 && SaysResponse(c[5], scenario, r) && SaysErrors(c[6], r)
            && SaysVoice(c[7], r.manual) && SaysBusiness(c[8], scenario, r.manual) && SaysScan(c[9], scan)
  {
    hide EvaluateChecks, Details, SavedChecks, Clean, Strip, HasVisible, HasProviderError, TellsError;
    SavedAt(scenario, r, scan);
    OtherChecks(scenario, r);
    OtherDetails(scenario, r);
    ErrorMeaning(r);
    StripVisible(r.assistantResponseText);
    ScanDetails();
  }

  lemma ScanDetails()
    ensures ScanDetail(true) == "saved payload has no blocked tokens"
    ensures ScanDetail(false) == "saved payload contains blocked tokens"
  {
  }

  // ---------------------------------------------------------------- the saved summary

  /** The texts, each cleaned, in order. */
  predicate CleanOfEach(saved: seq<string>, sent: seq<string>) {
    |saved| == |sent| && forall i :: 0 <= i < |sent| ==> saved[i] == Clean(sent[i])
  }

  /** What was sent, apart from the session state, as it is kept. */
  predicate Keeps(s: Summary, r: FinishRequest) {
    && s.transcriptText == Clean(r.transcriptText) && s.assistantResponseText == Clean(r.assistantResponseText)
    && CleanOfEach(s.toolNames, r.toolNames) && CleanOfEach(s.providerEvents, r.providerEvents)
    && (s.handoffReason.Some? <==> r.handoffReason.Some?)
    && (r.handoffReason.Some? ==> s.handoffReason.value == Clean(r.handoffReason.value))
    && s.latencyMsValues == r.latencyMsValues
    && s.manual.heardVoice == r.manual.heardVoice
    && s.manual.voiceQualityAcceptable == r.manual.voiceQualityAcceptable
    && s.manual.businessAnswerAcceptable == r.manual.businessAnswerAcceptable
    && s.manual.demoReady == r.manual.demoReady && s.manual.notes == Clean(r.manual.notes)
  }

  /** The summary of a run, told from its start, its request, and whether the root's path is clean. */
  ghost predicate TellsRun(s: Summary, scenario: Scenario, runId: string, startedAt: string, finishedAt: string,
                           root: seq<string>, r: FinishRequest) {
    && s.runId == runId && s.scenarioId == scenario.id && s.startedAt == startedAt && s.finishedAt == finishedAt
    && s.summaryPath == AsPosix(root + [runId] + ["summary.json"])
    && s.reportPath == AsPosix(root + [runId] + ["report.md"])
    && Keeps(s, r) && TellChecks(s.checks, scenario, r, TokenFree(AsPosix(root)))
    && (s.status == Pass <==> forall c :: c in s.checks ==> c.passed)
  }

  lemma FinishedKeeps(scenario: Scenario, runId: string, startedAt: string, finishedAt: string,
                      dir: seq<string>, r: FinishRequest)
    ensures var saved := Finished(Preliminary(scenario, runId, startedAt, finishedAt, dir, r));
            && saved.runId == runId && saved.scenarioId == scenario.id
            && saved.startedAt == startedAt && saved.finishedAt == finishedAt
            && saved.summaryPath == AsPosix(dir + ["summary.json"]) && saved.reportPath == AsPosix(dir + ["report.md"])
            && Keeps(saved, r) && (saved.status == Pass <==> forall c :: c in saved.checks ==> c.passed)
  {
    hide Clean, EvaluateChecks, BlockedSecretScan, EncodeSummary, AsPosix, WithScan, ScrubChecks;
  }

  /** What finishing saves says what was sent. */
  lemma FinishedTells(scenario: Scenario, runId: string, startedAt: string, finishedAt: string,
                      root: seq<string>, r: FinishRequest)
    requires scenario in STANDARD_VALIDATION_SCENARIOS && IsRunId(runId)
    requires TokenFree(startedAt) && TokenFree(finishedAt)
    ensures var saved := Finished(Preliminary(scenario, runId, startedAt, finishedAt, root + [runId], r));
            TellsRun(saved, scenario, runId, startedAt, finishedAt, root, r)
  {
    hide TokenFree, Finished, Preliminary, EvaluateChecks, SavedChecks, RunSucceeded, BlockedSecretScan, EncodeSummary,
         Keeps, AsPosix, SaysSession, SaysTools, SaysHandoff, SaysTranscript, SaysResponse, SaysErrors, SaysVoice,
         SaysBusiness, SaysScan, Says, STANDARD_VALIDATION_SCENARIOS;
    FinishedKeeps(scenario, runId, startedAt, finishedAt, root + [runId], r);
    FinishPassesIff(scenario, runId, startedAt, finishedAt, root, r);
    FirstChecksTell(scenario, r, TokenFree(AsPosix(root)));
    OtherChecksTell(scenario, r, TokenFree(AsPosix(root)));
  }
}
