/** What a report says of a saved summary, told from the summary. */
module ReportMeaning {
  import opened Common
  import opened Text
  import opened Validation
  import opened ValidationOutcome
  import opened ValidationReport
  import Redaction

  // ---------------------------------------------------------------- warnings

  /** The positions of the failed checks, in order. */
  ghost predicate FailedAt(checks: seq<Check>, positions: seq<nat>) {
    && (forall n :: n in positions <==> 0 <= n < |checks| && !checks[n].passed)
    && (forall j, k :: 0 <= j < k < |positions| ==> positions[j] < positions[k])
  }

  /** A warning for each failed check, with its name and its detail, in order, and none beside them. */
  ghost predicate WarnsOfFailures(checks: seq<Check>, warnings: seq<string>) {
    exists positions: seq<nat> :: FailedAt(checks, positions) && WarnsAt(checks, positions, warnings)
  }

  ghost predicate WarnsAt(checks: seq<Check>, positions: seq<nat>, warnings: seq<string>) {
    && |warnings| == |positions|
    && forall k :: 0 <= k < |positions| ==>
         positions[k] < |checks| && warnings[k] == checks[positions[k]].name + ": " + checks[positions[k]].detail
  }

  /** The positions in a list, once something has been put before it. */
  function Shifted(positions: seq<nat>): (r: seq<nat>)
    ensures |r| == |positions| && forall k :: 0 <= k < |r| ==> r[k] == positions[k] + 1
  {
    seq(|positions|, k requires 0 <= k < |positions| => positions[k] + 1)
  }

  lemma FailedAtShifted(checks: seq<Check>, positions: seq<nat>)
    requires checks != [] && FailedAt(checks[1..], positions)
    ensures FailedAt(checks, (if checks[0].passed then [] else [0]) + Shifted(positions))
  {
    var shifted := Shifted(positions);
    forall n ensures n in shifted <==> 1 <= n < |checks| && !checks[n].passed {
      if n in shifted {
        var k :| 0 <= k < |shifted| && shifted[k] == n;
        assert positions[k] in positions;
      }
      if 1 <= n < |checks| && !checks[n].passed {
        assert checks[1..][n - 1] == checks[n];
        var k :| 0 <= k < |positions| && positions[k] == n - 1;
        assert shifted[k] == n;
      }
    }
  }

  lemma WarnsAtShifted(checks: seq<Check>, positions: seq<nat>, rest: seq<string>)
    requires checks != [] && WarnsAt(checks[1..], positions, rest)
    ensures WarnsAt(checks, Shifted(positions), rest)
    ensures WarnsAt(checks, [0] + Shifted(positions), [checks[0].name + ": " + checks[0].detail] + rest)
  {
    var shifted := Shifted(positions);
    forall k | 0 <= k < |positions| ensures shifted[k] < |checks| && checks[shifted[k]] == checks[1..][positions[k]] { }
  }

  lemma {:induction false} WarningsMeaning(checks: seq<Check>)
    ensures WarnsOfFailures(checks, Warnings(checks))
  {
    hide FailedAt, WarnsAt;
    if checks == [] {
      NothingFailed();
    } else {
      var rest := Warnings(checks[1..]);
      WarningsMeaning(checks[1..]);
      var positions: seq<nat> :| FailedAt(checks[1..], positions) && WarnsAt(checks[1..], positions, rest);
      FailedAtShifted(checks, positions);
      WarnsAtShifted(checks, positions, rest);
      assert [] + Shifted(positions) == Shifted(positions) && [] + rest == rest;
    }
  }

  lemma NothingFailed()
    ensures FailedAt([], []) && WarnsAt([], [], [])
  {
  }

  lemma {:induction false} PassedAndWarned(checks: seq<Check>)
    ensures CountPassed(checks) + |Warnings(checks)| == |checks|
    ensures Warnings(checks) == [] <==> AllPassed(checks)
  {
    if checks != [] {
      PassedAndWarned(checks[1..]);
      assert checks == [checks[0]] + checks[1..];
    }
  }

  // ---------------------------------------------------------------- evidence

  /** Check `k` is the last of that name. */
  predicate IsLast(checks: seq<Check>, name: string, k: nat) {
    k < |checks| && checks[k].name == name && forall j :: k < j < |checks| ==> checks[j].name != name
  }

  ghost predicate LastPassed(checks: seq<Check>, name: string) {
    exists k: nat :: IsLast(checks, name, k) && checks[k].passed
  }

  lemma {:induction false} LookedMeaning(checks: seq<Check>, name: string)
    ensures Looked(checks, name) <==> LastPassed(checks, name)
  {
    if checks != [] {
      var init, n := checks[..|checks| - 1], |checks| - 1;
      LookedMeaning(init, name);
      if checks[n].name == name {
        assert IsLast(checks, name, n);
      } else {
        assert forall k: nat :: IsLast(checks, name, k) <==> IsLast(init, name, k);
      }
    }
  }

  ghost predicate TellsBusiness(proof: seq<string>, s: Summary) {
    && |proof| == 3
    && proof[0] == (if s.manual.heardVoice then "语音确认：通过" else "语音确认：未通过")
    && proof[1] == (if LastPassed(s.checks, "manual_business_confirmed") then "业务回答：通过" else "业务回答：未通过")
    && proof[2] == (if LastPassed(s.checks, "expected_tools_observed") then "工具调用：通过" else "工具调用：未通过")
  }

  ghost predicate TellsSystem(proof: seq<string>, s: Summary) {
    && |proof| == 3
    && proof[0] == (if LastPassed(s.checks, "expected_handoff_observed") then "转人工：通过" else "转人工：未通过")
    && proof[1] == (if LastPassed(s.checks, "provider_errors_absent") then "系统错误：未发现" else "系统错误：已发现")
    && proof[2] == (if LastPassed(s.checks, "blocked_secret_scan_passed") then "安全扫描：通过" else "安全扫描：未通过")
  }

  ghost predicate TellsEvidence(proof: seq<string>, s: Summary) {
    |proof| == 6 && TellsBusiness(proof[..3], s) && TellsSystem(proof[3..], s)
  }

  lemma BusinessMeaning(s: Summary)
    ensures TellsBusiness(BusinessEvidence(s), s)
  {
    hide Looked, LastPassed;
    LookedMeaning(s.checks, "manual_business_confirmed");
    LookedMeaning(s.checks, "expected_tools_observed");
  }

  lemma SystemMeaning(s: Summary)
    ensures TellsSystem(SystemEvidence(s), s)
  {
    hide Looked, LastPassed;
    LookedMeaning(s.checks, "expected_handoff_observed");
    LookedMeaning(s.checks, "provider_errors_absent");
    LookedMeaning(s.checks, SCAN_CHECK);
  }

  lemma EvidenceMeaning(s: Summary)
    ensures TellsEvidence(Evidence(s), s)
  {
    hide TellsBusiness, TellsSystem, BusinessEvidence, SystemEvidence;
    BusinessMeaning(s);
    SystemMeaning(s);
    EvidenceParts(s);
  }

  lemma EvidenceParts(s: Summary)
    ensures |Evidence(s)| == 6 && Evidence(s)[..3] == BusinessEvidence(s) && Evidence(s)[3..] == SystemEvidence(s)
  {
    hide Looked;
  }

  // ---------------------------------------------------------------- the decision

  /** A failed check that blocks a pilot: provider errors, or a token in what was saved. */
  ghost predicate HasBlocker(s: Summary) {
    exists c :: c in s.checks && !c.passed &&
      (c.name == "provider_errors_absent" || c.name == "blocked_secret_scan_passed")
  }

  ghost predicate TellsDecision(r: Report, s: Summary) {
    && (r.readiness == Blocked <==> HasBlocker(s))
    && (r.readiness == ReadyForPilot <==> s.status == Pass && forall c :: c in s.checks ==> c.passed)
    && (match r.readiness
        case ReadyForPilot =>
          r.decisionLabel == "可以继续推进试点" && r.nextAction == "可把本摘要转发给决策人，进入试点准备。"
        case Blocked => r.decisionLabel == "阻塞，先修复问题" && r.nextAction == "先修复阻塞问题，再重新验证。"
        case NeedsAnotherValidation =>
          r.decisionLabel == "需要再跑一次验证" && r.nextAction == "补齐失败检查项后，重新运行同一场景验证。")
  }

  lemma DecisionMeaning(s: Summary)
    ensures TellsDecision(BuildReport(s), s)
  {
    hide Coverage, Evidence, Sections, CopyText, Warnings, DecisionText, ScenarioName;
    assert HasBlocker(s) <==>
           exists i :: 0 <= i < |s.checks| && !s.checks[i].passed && IsCritical(s.checks[i].name);
    assert AllPassed(s.checks) <==> forall c :: c in s.checks ==> c.passed;
  }

  // ---------------------------------------------------------------- the scenario

  /** How the report calls a scenario: by the names of a known one, or by its id. */
  ghost predicate CallsScenario(id: string, name: string, nameCn: string, tools: string, handoff: bool) {
    if exists sc :: sc in STANDARD_VALIDATION_SCENARIOS && sc.id == id then
      exists sc :: sc in STANDARD_VALIDATION_SCENARIOS && sc.id == id &&
        name == sc.name && nameCn == sc.nameCn && tools == Join(sc.expectedTools, ", ") && handoff == sc.expectedHandoff
    else name == id && nameCn == id && tools == "未配置" && !handoff
  }

  ghost predicate TellsScenario(r: Report, s: Summary, nameCn: string) {
    r.scenarioId == s.scenarioId &&
    exists tools, handoff ::
      && CallsScenario(s.scenarioId, r.scenarioName, nameCn, tools, handoff)
      && r.coverage == [
           "验证场景：" + nameCn, "预期工具：" + tools, if handoff then "转人工预期：需要" else "转人工预期：不需要"]
  }

  lemma ScenarioMeaning(s: Summary)
    ensures TellsScenario(BuildReport(s), s, ScenarioNameCn(s.scenarioId))
  {
    hide Evidence, Sections, CopyText, Warnings, DecisionText, STANDARD_VALIDATION_SCENARIOS, FindScenario;
    var sc := FindScenario(s.scenarioId);
    var name, nameCn := ScenarioName(s.scenarioId), ScenarioNameCn(s.scenarioId);
    var tools := if sc.Some? then Join(sc.value.expectedTools, ", ") else "未配置";
    assert CallsScenario(s.scenarioId, name, nameCn, tools, sc.Some? && sc.value.expectedHandoff);
  }

  // ---------------------------------------------------------------- the sections

  ghost predicate TellsSections(r: Report, s: Summary, nameCn: string) {
    && |r.sections| == 3
    && r.sections[0] == Section("老板", "决策人摘要",
         ["结论：" + r.decisionLabel, "验证对象：" + nameCn, "建议动作：" + r.nextAction])
    && TellsService(r.sections[1], s) && TellsTechnical(r.sections[2], s, |r.warnings|)
  }

  predicate TellsService(c: Section, s: Summary) {
    && c.audience == "客服主管" && c.title == "客服主管关注点" && |c.bullets| == 3
    && c.bullets[0] == (if s.manual.heardVoice then "语音可听清" else "语音未确认")
    && c.bullets[1] == (if !s.manual.businessAnswerAcceptable && !s.manual.demoReady then "业务回答需复核" else "业务回答可接受")
    && c.bullets[2] == (match s.handoffReason
                        case None => "无需人工介入"
                        case Some(reason) =>
                          if reason == "" || reason == "none" then "无需人工介入" else "转人工原因：" + reason)
  }

  /** Digits without a leading zero, after a minus sign if there is one. */
  ghost predicate Writes(text: string, n: int) {
    if n < 0 then text != "" && text[0] == '-' && Writes(text[1..], -n)
    else
      && text != "" && (forall k :: 0 <= k < |text| ==> IsDigit(text[k]))
      && NumberOf(text) == n && (text[0] == '0' ==> |text| == 1)
  }

  lemma {:induction false} DecimalWrites(n: nat)
    ensures Writes(Decimal(n), n)
  {
    var d := Decimal(n);
    if n >= 10 {
      DecimalWrites(n / 10);
      assert d[..|d| - 1] == Decimal(n / 10);
      assert Decimal(n / 10)[0] == '0' ==> n / 10 == 0 by { LeadingZero(n / 10); }
    }
  }

  lemma LeadingZero(n: nat)
    requires Writes(Decimal(n), n)
    ensures Decimal(n)[0] == '0' ==> n == 0
  {
    var d := Decimal(n);
    if d[0] == '0' { assert d == "0" && d[..0] == ""; }
  }

  lemma IntTextWrites(n: int)
    ensures Writes(IntText(n), n)
  {
    if n < 0 {
      DecimalWrites(-n);
      assert ("-" + Decimal(-n))[1..] == Decimal(-n);
    } else {
      DecimalWrites(n);
    }
  }

  /** Each sample with its unit, in order, or the word for none. */
  ghost predicate TellsLatency(text: string, ns: seq<int>) {
    if ns == [] then text == "无"
    else
      exists parts: seq<string> ::
        |parts| == |ns| && text == Join(parts, ", ") && forall i :: 0 <= i < |ns| ==> IsSample(parts[i], ns[i])
  }

  ghost predicate IsSample(text: string, n: int) {
    |text| > 2 && text[|text| - 2..] == "ms" && Writes(text[..|text| - 2], n)
  }

  lemma LatencyMeaning(ns: seq<int>)
    ensures TellsLatency(LatencyText(ns), ns)
  {
    hide Writes, IntText;
    var parts := seq(|ns|, i requires 0 <= i < |ns| => IntText(ns[i]) + "ms");
    forall i | 0 <= i < |ns| ensures IsSample(parts[i], ns[i]) {
      IntTextWrites(ns[i]);
      assert IntText(ns[i]) != "" by { WrittenIsNonempty(IntText(ns[i]), ns[i]); }
      assert parts[i][..|parts[i]| - 2] == IntText(ns[i]);
    }
  }

  lemma WrittenIsNonempty(text: string, n: int)
    requires Writes(text, n)
    ensures text != ""
  {
  }

  ghost predicate TellsTechnical(c: Section, s: Summary, failed: int) {
    && c.audience == "技术同事" && c.title == "技术复核点" && |c.bullets| == 3
    && c.bullets[0] == (if s.status == Pass then "状态：pass" else "状态：fail")
    && (exists a, b ::
          && c.bullets[1] == "检查项：" + a + "/" + b + " 通过"
          && Writes(a, |s.checks| - failed) && Writes(b, |s.checks|))
    && (exists text :: c.bullets[2] == "延迟样本：" + text && TellsLatency(text, s.latencyMsValues))
  }

  lemma SectionsMeaning(s: Summary)
    ensures TellsSections(BuildReport(s), s, ScenarioNameCn(s.scenarioId))
  {
    hide Coverage, Evidence, CopyText, Warnings, DecisionText, ScenarioNameCn, ScenarioName, DeriveReadiness,
         NextAction, ReadinessLabel, LatencyText, Decimal, CountPassed, Writes, TellsLatency;
    PassedAndWarned(s.checks);
    DecimalWrites(CountPassed(s.checks));
    DecimalWrites(|s.checks|);
    LatencyMeaning(s.latencyMsValues);
    assert "状态：" + "pass" == "状态：pass" && "状态：" + "fail" == "状态：fail";
  }

  // ---------------------------------------------------------------- the report

  /** All that a report says, from the summary and from what the report says elsewhere. */
  ghost predicate TellsSummary(r: Report, s: Summary) {
    && r.runId == s.runId && r.status == s.status && r.checks == s.checks
    && WarnsOfFailures(s.checks, r.warnings) && (r.warnings == [] <==> AllPassed(s.checks))
    && TellsDecision(r, s) && TellsEvidence(r.proof, s)
    && exists nameCn ::
         && TellsScenario(r, s, nameCn) && TellsSections(r, s, nameCn)
         && r.decisionSummary == nameCn + "场景验证结果为：" + r.decisionLabel + "。"
         && r.copyText == "试点演示验证结果：" + nameCn + "，" + r.decisionLabel + "。\n" +
                          "证据：" + Join(r.proof, "; ") + "。\n" + "下一步：" + r.nextAction
  }

  lemma BuiltReportTells(s: Summary)
    ensures TellsSummary(BuildReport(s), s)
  {
    hide Coverage, Evidence, Sections, Warnings, ScenarioNameCn, ScenarioName, DeriveReadiness, NextAction,
         ReadinessLabel, WarnsOfFailures, TellsDecision, TellsEvidence, TellsScenario, TellsSections, AllPassed, Join;
    var r, nameCn := BuildReport(s), ScenarioNameCn(s.scenarioId);
    WarningsMeaning(s.checks);
    PassedAndWarned(s.checks);
    DecisionMeaning(s);
    EvidenceMeaning(s);
    ScenarioMeaning(s);
    SectionsMeaning(s);
    var label_, proof, action := r.decisionLabel, Join(r.proof, "; "), r.nextAction;
    assert nameCn + ("场景验证结果为：" + label_ + "。") == nameCn + "场景验证结果为：" + label_ + "。";
    assert ("试点演示验证结果：" + nameCn + "，" + label_ + "。\n") + ("证据：" + proof + "。\n" + "下一步：" + action)
        == "试点演示验证结果：" + nameCn + "，" + label_ + "。\n" + "证据：" + proof + "。\n" + "下一步：" + action;
  }

  // ---------------------------------------------------------------- report.md

  ghost predicate ShowsHead(text: string, s: Summary) {
    && Contains(text, "Run ID: " + s.runId) && Contains(text, "Scenario: " + s.scenarioId)
    && Contains(text, if s.status == Pass then "Status: pass" else "Status: fail")
    && Contains(text, "Started At: " + s.startedAt) && Contains(text, "Finished At: " + s.finishedAt)
  }

  ghost predicate ShowsAnswers(text: string, m: ManualAssertions) {
    && Contains(text, if m.heardVoice then "- Heard voice: True" else "- Heard voice: False")
    && Contains(text, if m.voiceQualityAcceptable then "- Voice quality acceptable: True"
                      else "- Voice quality acceptable: False")
    && Contains(text, if m.businessAnswerAcceptable then "- Business answer acceptable: True"
                      else "- Business answer acceptable: False")
    && Contains(text, if m.demoReady then "- Demo ready: True" else "- Demo ready: False")
    && Contains(text, "- Notes: " + Redaction.RedactText(m.notes))
  }

  ghost predicate ShowsChecks(text: string, checks: seq<Check>) {
    forall c :: c in checks ==>
      Contains(text, "| " + c.name + (if c.passed then " | pass | " else " | fail | ") + c.detail + " |")
  }

  ghost predicate ShowsTexts(text: string, s: Summary) {
    && Contains(text, "## Redacted Transcript\n\n" + s.transcriptText + "\n")
    && Contains(text, "## Redacted Assistant Response\n\n" + s.assistantResponseText + "\n")
  }

  /** What a reader of `report.md` finds in it. */
  ghost predicate Shows(text: string, s: Summary) {
    ShowsHead(text, s) && ShowsAnswers(text, s.manual) && ShowsChecks(text, s.checks) && ShowsTexts(text, s)
  }

  lemma {:induction false} JoinSplit(a: seq<string>, b: seq<string>, separator: string)
    requires a != [] && b != []
    ensures Join(a + b, separator) == Join(a, separator) + separator + Join(b, separator)
  {
    if |a| == 1 {
      assert (a + b)[1..] == b;
    } else {
      JoinSplit(a[1..], b, separator);
      assert (a + b)[1..] == a[1..] + b;
    }
  }

  /** Lines that stand together stand together in the text. */
  lemma JoinShowsSlice(a: seq<string>, b: seq<string>, c: seq<string>, separator: string)
    requires b != []
    ensures Contains(Join(a + b + c, separator), Join(b, separator))
  {
    hide Contains, Join;
    var text := Join(b, separator);
    ShowsItself(text);
    var before, after := if a == [] then "" else Join(a, separator) + separator,
                         if c == [] then "" else separator + Join(c, separator);
    if a != [] { JoinSplit(a, b, separator); } else { assert a + b == b; }
    if c != [] { JoinSplit(a + b, c, separator); } else { assert a + b + c == a + b; }
    ContainsWithin(before, text, after, text);
    assert before + text + after == Join(a + b + c, separator);
  }

  lemma LineIsShown(a: seq<string>, b: seq<string>, c: seq<string>, k: nat)
    requires k < |b|
    ensures Contains(Join(a + b + c, "\n"), b[k])
  {
    hide Contains, Join;
    ShowsItself(b[k]);
    assert (a + b + c)[|a| + k] == b[k];
    JoinShows(a + b + c, "\n", |a| + k, b[k]);
  }

  lemma HeadIsShown(s: Summary)
    ensures ShowsHead(RenderReport(s), s)
  {
    hide Contains, Join, TableLines, ManualLines, TranscriptLines;
    var rest := TableLines(s) + ManualLines(s) + TranscriptLines(s);
    assert HeadLines(s) + TableLines(s) + ManualLines(s) + TranscriptLines(s) == [] + HeadLines(s) + rest;
    LineIsShown([], HeadLines(s), rest, 2);
    LineIsShown([], HeadLines(s), rest, 3);
    LineIsShown([], HeadLines(s), rest, 4);
    LineIsShown([], HeadLines(s), rest, 5);
    LineIsShown([], HeadLines(s), rest, 6);
    assert "Status: " + "pass" == "Status: pass" && "Status: " + "fail" == "Status: fail";
  }

  lemma AnswersAreShown(s: Summary)
    ensures ShowsAnswers(RenderReport(s), s.manual)
  {
    hide Contains, Join, HeadLines, TableLines, TranscriptLines, Redaction.RedactText;
    var head := HeadLines(s) + TableLines(s);
    LineIsShown(head, ManualLines(s), TranscriptLines(s), 2);
    LineIsShown(head, ManualLines(s), TranscriptLines(s), 3);
    LineIsShown(head, ManualLines(s), TranscriptLines(s), 4);
    LineIsShown(head, ManualLines(s), TranscriptLines(s), 5);
    LineIsShown(head, ManualLines(s), TranscriptLines(s), 6);
    VoiceLines(s.manual);
    BusinessLines(s.manual);
  }

  lemma VoiceLines(m: ManualAssertions)
    ensures "- Heard voice: " + BoolText(m.heardVoice) ==
            if m.heardVoice then "- Heard voice: True" else "- Heard voice: False"
    ensures "- Voice quality acceptable: " + BoolText(m.voiceQualityAcceptable) ==
            if m.voiceQualityAcceptable then "- Voice quality acceptable: True" else "- Voice quality acceptable: False"
  {
  }

  lemma BusinessLines(m: ManualAssertions)
    ensures "- Business answer acceptable: " + BoolText(m.businessAnswerAcceptable) ==
            if m.businessAnswerAcceptable then "- Business answer acceptable: True"
            else "- Business answer acceptable: False"
    ensures "- Demo ready: " + BoolText(m.demoReady) ==
            if m.demoReady then "- Demo ready: True" else "- Demo ready: False"
  {
  }

  lemma ChecksAreShown(s: Summary)
    ensures ShowsChecks(RenderReport(s), s.checks)
  {
    hide Contains, CheckRow, HeadLines, ManualLines, CheckRows, Join;
    forall c | c in s.checks
      ensures Contains(RenderReport(s), CheckRow(c))
      ensures CheckRow(c) == "| " + c.name + (if c.passed then " | pass | " else " | fail | ") + c.detail + " |"
    {
      TableShows(s, c);
      var head, rest := HeadLines(s), ManualLines(s) + TranscriptLines(s);
      var lines := HeadLines(s) + TableLines(s) + ManualLines(s) + TranscriptLines(s);
      assert lines[|head| + 4] == TableLines(s)[4];
      JoinShows(lines, "\n", |head| + 4, CheckRow(c));
      RowText(c);
    }
  }

  lemma RowText(c: Check)
    ensures CheckRow(c) == "| " + c.name + (if c.passed then " | pass | " else " | fail | ") + c.detail + " |"
  {
    assert " | " + "pass" + " | " == " | pass | " && " | " + "fail" + " | " == " | fail | ";
    var verdict := if c.passed then "pass" else "fail";
    assert "| " + c.name + " | " + verdict + " | " == "| " + c.name + (" | " + verdict + " | ");
  }

  lemma TextsAreShown(s: Summary)
    ensures ShowsTexts(RenderReport(s), s)
  {
    hide Contains, HeadLines, TableLines, ManualLines, Join;
    var head := HeadLines(s) + TableLines(s) + ManualLines(s);
    var t, r := TranscriptLines(s)[..4], TranscriptLines(s)[4..];
    assert head + TranscriptLines(s) == head + t + r == (head + t) + r + [];
    JoinShowsSlice(head, t, r, "\n");
    JoinShowsSlice(head + t, r, [], "\n");
    JoinOfFour(t[0], t[2]);
    JoinOfFour(r[0], r[2]);
    assert t == [t[0], "", t[2], ""] && r == [r[0], "", r[2], ""];
    assert "## Redacted Transcript" + "\n\n" == "## Redacted Transcript\n\n";
    assert "## Redacted Assistant Response" + "\n\n" == "## Redacted Assistant Response\n\n";
  }

  lemma JoinOfFour(heading: string, text: string)
    ensures Join([heading, "", text, ""], "\n") == heading + "\n\n" + text + "\n"
  {
    var parts := [heading, "", text, ""];
    var last, rest := [text, ""], ["", text, ""];
    assert parts[1..] == rest && rest[1..] == last && last[1..] == [""];
    assert Join(last, "\n") == text + "\n" + "" == text + "\n";
    assert Join(rest, "\n") == "" + "\n" + (text + "\n") == "\n" + (text + "\n");
    assert heading + "\n" + ("\n" + (text + "\n")) == heading + "\n\n" + text + "\n";
  }

  /** The rendered report shows ids, outcome and times, every check, the manual answers, and both saved texts. */
  lemma RenderedReportShows(s: Summary)
    ensures Shows(RenderReport(s), s)
  {
    hide ShowsHead, ShowsAnswers, ShowsChecks, ShowsTexts, RenderReport;
    HeadIsShown(s);
    AnswersAreShown(s);
    ChecksAreShown(s);
    TextsAreShown(s);
  }
}
