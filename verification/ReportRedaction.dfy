/** What a finished run saves is redacted, text by text and as a whole. */
module ReportRedaction {
  import opened Common
  import opened Text
  import opened BlockedTokens
  import opened RunIds
  import opened Validation
  import opened ValidationOutcome
  import opened ValidationReport
  import opened SensitiveItems
  import opened Seams
  import Patterns
  import Redaction

  /** A text that can also stand at the end of a line before any other. */
  ghost predicate HeadText(s: string) { Redaction.CleanText(s) && NoBearer(s) }

  ghost predicate ChecksClean(checks: seq<Check>) {
    forall i :: 0 <= i < |checks| ==> Redaction.CleanText(checks[i].name) && Redaction.CleanText(checks[i].detail)
  }

  ghost predicate TextsClean(xs: seq<string>) { forall i :: 0 <= i < |xs| ==> Redaction.CleanText(xs[i]) }

  /** Every text of a summary, the two paths apart, is redacted. */
  ghost predicate ContentsClean(s: Summary) {
    && HeadText(s.runId) && HeadText(s.scenarioId) && HeadText(s.startedAt) && HeadText(s.finishedAt)
    && ChecksClean(s.checks) && Redaction.CleanText(s.manual.notes)
    && Redaction.CleanText(s.transcriptText) && Redaction.CleanText(s.assistantResponseText)
    && TextsClean(s.toolNames) && TextsClean(s.providerEvents)
    && (s.handoffReason.Some? ==> Redaction.CleanText(s.handoffReason.value))
  }

  // ---------------------------------------------------------------- the pieces of report.md

  lemma LabelledIsClean(name: string, value: string)
    requires HeadText(name) && SealedEnd(name) && name != "" && IsSpace(name[|name| - 1])
    requires Redaction.CleanText(value)
    ensures Redaction.CleanText(name + value)
    ensures NoBearer(value) ==> NoBearer(name + value)
  {
    hide Redaction.CleanText, SealedEnd, NoBearer;
    Joint(name, value);
    if NoBearer(value) { NoBearerJoint(name, value); }
  }

  /** `": "` and the like end a label. */
  lemma EndsInSeal(s: string)
    requires |s| > 1 && s[|s| - 1] == ' ' && s[|s| - 2] in SEALS
    ensures SealedEnd(s)
  {
    assert s[..|s| - 1][|s| - 2] == s[|s| - 2] && !IsSpace(s[|s| - 2]);
  }

  lemma HeadLabels()
    ensures HeadText("Run ID: ") && HeadText("Scenario: ") && HeadText("Status: ")
  {
    hide Redaction.CleanText, NoBearer;
    WordingIsClean("Run ID: ", '-', 'b');
    WordingIsClean("Scenario: ", '-', 'b');
    WordingIsClean("Status: ", '-', 'b');
  }

  lemma TimeLabels()
    ensures HeadText("Started At: ") && HeadText("Finished At: ")
  {
    hide Redaction.CleanText, NoBearer;
    WordingIsClean("Started At: ", '-', 'b');
    WordingIsClean("Finished At: ", '-', 'b');
  }

  lemma HeadTitle()
    ensures HeadText("# VoiceAgents Validation Run")
  {
    hide Redaction.CleanText, NoBearer;
    WordingIsClean("# VoiceAgents Validation Run", '-', 'b');
  }

  lemma VerdictsAreClean()
    ensures HeadText("pass") && HeadText("fail") && HeadText("True") && HeadText("False") && HeadText("")
  {
    hide Redaction.CleanText, NoBearer;
    WordingIsClean("pass", '-', 'b');
    WordingIsClean("fail", '-', 'b');
    WordingIsClean("True", '-', 'b');
    WordingIsClean("False", '-', 'b');
    WordingIsClean("", '-', 'b');
  }

  lemma HeadLinesAreClean(s: Summary)
    requires ContentsClean(s)
    ensures forall k :: 0 <= k < |HeadLines(s)| ==> HeadText(HeadLines(s)[k])
  {
    hide Redaction.CleanText, NoBearer, SealedEnd, ChecksClean, TextsClean;
    HeadLabels();
    TimeLabels();
    HeadTitle();
    VerdictsAreClean();
    EndsInSeal("Run ID: ");
    EndsInSeal("Scenario: ");
    EndsInSeal("Status: ");
    EndsInSeal("Started At: ");
    EndsInSeal("Finished At: ");
    LabelledIsClean("Run ID: ", s.runId);
    LabelledIsClean("Scenario: ", s.scenarioId);
    LabelledIsClean("Status: ", StatusText(s.status));
    LabelledIsClean("Started At: ", s.startedAt);
    LabelledIsClean("Finished At: ", s.finishedAt);
  }

  lemma BarsAreSeals(before: string)
    ensures HeadText("| ") && HeadText(" | ") && HeadText(" |")
    ensures SealedEnd("| ") && SealedEnd(before + " | ") && Sealed(" | ") && Sealed(" |")
  {
    hide Redaction.CleanText, NoBearer;
    WordingIsClean("| ", '-', 'b');
    WordingIsClean(" | ", '-', 'b');
    WordingIsClean(" |", '-', 'b');
    EndsInSeal("| ");
    var s := before + " | ";
    assert s[|s| - 1] == ' ' && s[|s| - 2] == '|';
    EndsInSeal(s);
    assert " | "[1..][0] == '|' && " |"[1..][0] == '|';
  }

  lemma CheckRowIsClean(c: Check)
    requires Redaction.CleanText(c.name) && Redaction.CleanText(c.detail)
    ensures Redaction.CleanText(CheckRow(c)) && CheckRow(c) != "" && CheckRow(c)[0] == '|'
  {
    hide Redaction.CleanText, NoBearer, Sealed, SealedEnd;
    var verdict := if c.passed then "pass" else "fail";
    var a := "| " + c.name;
    var b := a + " | " + verdict;
    var d := b + " | " + c.detail;
    VerdictsAreClean();
    BarsAreSeals(a);
    BarsAreSeals(b);
    Joint("| ", c.name);
    Joint(a, " | ");
    Joint(a + " | ", verdict);
    Joint(b, " | ");
    Joint(b + " | ", c.detail);
    Joint(d, " |");
    assert CheckRow(c) == d + " |";
  }

  // ---------------------------------------------------------------- lines

  predicate Opens(line: string) { line != "" && line[0] in SEALS }

  /** Line `k` has no word `bearer`, or the next visible character after it is a seal. */
  ghost predicate SafeEnd(lines: seq<string>, k: nat)
    requires k + 1 < |lines|
  {
    NoBearer(lines[k]) || Opens(lines[k + 1]) ||
    (lines[k + 1] == "" && (k + 2 == |lines| || Opens(lines[k + 2])))
  }

  lemma JoinOpens(lines: seq<string>)
    requires lines != [] && Opens(lines[0])
    ensures Opens(Join(lines, "\n"))
  {
  }

  lemma RestIsSealed(lines: seq<string>)
    requires |lines| > 1
    requires Opens(lines[1]) || (lines[1] == "" && (2 == |lines| || Opens(lines[2])))
    ensures Sealed("\n" + Join(lines[1..], "\n"))
  {
    hide Opens;
    var rest := Join(lines[1..], "\n");
    assert ("\n" + rest)[1..] == rest;
    if Opens(lines[1]) {
      JoinOpens(lines[1..]);
      OpenIsSealed(rest);
    } else if |lines| == 2 {
      assert rest == "";
    } else {
      var below := Join(lines[2..], "\n");
      assert lines[1..][1..] == lines[2..];
      JoinOpens(lines[2..]);
      OpenIsSealed(below);
      assert rest == "" + "\n" + below && rest[1..] == below;
    }
  }

  lemma OpenIsSealed(s: string)
    requires Opens(s)
    ensures Sealed(s)
  {
  }

  lemma {:induction false} JoinedIsClean(lines: seq<string>)
    requires forall k :: 0 <= k < |lines| ==> Redaction.CleanText(lines[k])
    requires forall k :: 0 <= k < |lines| - 1 ==> SafeEnd(lines, k)
    ensures Redaction.CleanText(Join(lines, "\n"))
  {
    hide Redaction.CleanText, NoBearer, Sealed, SealedEnd, Opens;
    VerdictsAreClean();
    if |lines| > 1 {
      var rest := lines[1..];
      forall k | 0 <= k < |rest| - 1 ensures SafeEnd(rest, k) { assert SafeEnd(lines, k + 1); }
      JoinedIsClean(rest);
      assert SafeEnd(lines, 0);
      if NoBearer(lines[0]) {
        NewLine(lines[0], Join(rest, "\n"));
      } else {
        RestIsSealed(lines);
        NewLine("", Join(rest, "\n"));
        assert "" + "\n" + Join(rest, "\n") == "\n" + Join(rest, "\n");
        Joint(lines[0], "\n" + Join(rest, "\n"));
        assert lines[0] + ("\n" + Join(rest, "\n")) == lines[0] + "\n" + Join(rest, "\n");
      }
    }
  }

  lemma RowsAreClean(checks: seq<Check>)
    requires ChecksClean(checks)
    ensures Redaction.CleanText(Join(CheckRows(checks), "\n"))
  {
    hide Redaction.CleanText, NoBearer, CheckRow;
    var rows := CheckRows(checks);
    forall k | 0 <= k < |rows| ensures Redaction.CleanText(rows[k]) && Opens(rows[k]) { CheckRowIsClean(checks[k]); }
    JoinedIsClean(rows);
  }

  lemma TableLinesAreClean(s: Summary)
    requires ChecksClean(s.checks)
    ensures var t := TableLines(s);
            && (forall k :: 0 <= k < 6 ==> Redaction.CleanText(t[k]) && (k != 4 ==> NoBearer(t[k])))
            && Opens(t[0]) && t[5] == ""
  {
    hide Redaction.CleanText, NoBearer, ChecksClean, CheckRows;
    VerdictsAreClean();
    TableWording();
    RowsAreClean(s.checks);
  }

  lemma TableWording()
    ensures HeadText("## Checks") && HeadText("| Check | Result | Detail |") && HeadText("|---|---|---|")
  {
    hide Redaction.CleanText, NoBearer;
    WordingIsClean("## Checks", '-', 'b');
    WordingIsClean("| Check | Result | Detail |", '-', 'b');
    WordingIsClean("|---|---|---|", 'k', 'b');
  }

  lemma ManualWording()
    ensures HeadText("## Manual Assertions") && HeadText("- Heard voice: ") && HeadText("- Notes: ")
  {
    hide Redaction.CleanText, NoBearer;
    WordingIsClean("## Manual Assertions", 'k', 'b');
    WordingIsClean("- Heard voice: ", 'k', 'b');
    WordingIsClean("- Notes: ", 'k', 'b');
  }

  lemma VoiceWording()
    ensures HeadText("- Voice quality acceptable: ") && HeadText("- Demo ready: ")
  {
    hide Redaction.CleanText, NoBearer;
    WordingIsClean("- Voice quality acceptable: ", 'k', 'r');
    WordingIsClean("- Demo ready: ", 'k', 'b');
  }

  /** This label has all the letters of `bear`, but no word of it has. */
  lemma BusinessWording()
    ensures HeadText("- Business answer acceptable: ")
  {
    hide Redaction.CleanText, NoBearer;
    var a, b, c := "- Business ", "answer ", "acceptable: ";
    LetterlessHasNoBearer(a, 'a');
    LetterlessHasNoBearer(b, 'b');
    LetterlessHasNoBearer(c, 'r');
    NoBearerJoint(a, b);
    NoBearerJoint(a + b, c);
    PlainIsClean(a + b + c, 'k');
    assert a + b + c == "- Business answer acceptable: ";
  }

  lemma ManualLinesAreClean(s: Summary)
    ensures var t := ManualLines(s);
            && (forall k :: 0 <= k < 8 ==> Redaction.CleanText(t[k]) && (k != 6 ==> NoBearer(t[k])))
            && Opens(t[0]) && t[7] == ""
  {
    hide Redaction.CleanText, NoBearer, SealedEnd, Redaction.RedactText;
    VerdictsAreClean();
    ManualWording();
    VoiceWording();
    BusinessWording();
    EndsInSeal("- Heard voice: ");
    EndsInSeal("- Voice quality acceptable: ");
    EndsInSeal("- Business answer acceptable: ");
    EndsInSeal("- Demo ready: ");
    EndsInSeal("- Notes: ");
    LabelledIsClean("- Heard voice: ", BoolText(s.manual.heardVoice));
    LabelledIsClean("- Voice quality acceptable: ", BoolText(s.manual.voiceQualityAcceptable));
    LabelledIsClean("- Business answer acceptable: ", BoolText(s.manual.businessAnswerAcceptable));
    LabelledIsClean("- Demo ready: ", BoolText(s.manual.demoReady));
    Redaction.RedactedIsClean(s.manual.notes);
    LabelledIsClean("- Notes: ", Redaction.RedactText(s.manual.notes));
  }

  lemma TranscriptWording()
    ensures HeadText("## Redacted Transcript")
  {
    hide Redaction.CleanText, NoBearer;
    WordingIsClean("## Redacted Transcript", 'k', 'b');
  }

  lemma ResponseWording()
    ensures HeadText("## Redacted Assistant Response")
  {
    hide Redaction.CleanText, NoBearer;
    WordingIsClean("## Redacted Assistant Response", 'k', 'b');
  }

  lemma TranscriptLinesAreClean(s: Summary)
    requires Redaction.CleanText(s.transcriptText) && Redaction.CleanText(s.assistantResponseText)
    ensures var t := TranscriptLines(s);
            && (forall k :: 0 <= k < 8 ==> Redaction.CleanText(t[k]) && (k != 2 && k != 6 ==> NoBearer(t[k])))
            && Opens(t[0]) && t[3] == "" && Opens(t[4]) && t[7] == ""
  {
    hide Redaction.CleanText, NoBearer;
    VerdictsAreClean();
    TranscriptWording();
    ResponseWording();
  }

  /** The lines in which a client's own words may stand: check rows, notes, and the two texts. */
  const FREE_LINES := {12, 20, 24, 28}

  lemma ReportLinesAreClean(s: Summary)
    requires ContentsClean(s)
    ensures var lines := HeadLines(s) + TableLines(s) + ManualLines(s) + TranscriptLines(s);
            && |lines| == 30
            && (forall k :: 0 <= k < 30 ==> Redaction.CleanText(lines[k]) && (k !in FREE_LINES ==> NoBearer(lines[k])))
            && lines[13] == "" && Opens(lines[14]) && lines[21] == "" && Opens(lines[22])
            && lines[25] == "" && Opens(lines[26]) && lines[29] == ""
  {
    hide Redaction.CleanText, NoBearer, Opens, HeadText, ChecksClean, TextsClean, HeadLines, TableLines, ManualLines,
         TranscriptLines;
    var h, t, m, r := HeadLines(s), TableLines(s), ManualLines(s), TranscriptLines(s);
    LineCounts(s);
    HeadLinesAreClean(s);
    TableLinesAreClean(s);
    ManualLinesAreClean(s);
    TranscriptLinesAreClean(s);
    var lines := h + t + m + r;
    forall k | 0 <= k < 30 ensures Redaction.CleanText(lines[k]) && (k !in FREE_LINES ==> NoBearer(lines[k])) {
      if k < 8 {
        assert lines[k] == h[k] && HeadText(h[k]);
        HeadTextIs(h[k]);
      } else if k < 14 {
        assert lines[k] == t[k - 8];
      } else if k < 22 {
        assert lines[k] == m[k - 14];
      } else {
        assert lines[k] == r[k - 22];
      }
    }
  }

  lemma HeadTextIs(s: string)
    requires HeadText(s)
    ensures Redaction.CleanText(s) && NoBearer(s)
  {
  }

  lemma LineCounts(s: Summary)
    ensures |HeadLines(s)| == 8 && |TableLines(s)| == 6 && |ManualLines(s)| == 8 && |TranscriptLines(s)| == 8
  {
  }

  /**
   * The whole of `report.md` is redacted: no email, order number, key, bearer token or JWT shows in it,
   * not even where its pieces meet.
   */
  lemma RenderedReportIsClean(s: Summary)
    requires ContentsClean(s)
    ensures Redaction.CleanText(RenderReport(s))
  {
    hide Redaction.CleanText, NoBearer, Opens, ContentsClean, HeadLines, TableLines, ManualLines, TranscriptLines;
    var lines := HeadLines(s) + TableLines(s) + ManualLines(s) + TranscriptLines(s);
    ReportLinesAreClean(s);
    forall k | 0 <= k < 29 ensures SafeEnd(lines, k) { }
    JoinedIsClean(lines);
  }

  // ---------------------------------------------------------------- a finished run

  lemma CleanedIsClean(s: string)
    ensures Redaction.CleanText(Clean(s))
  {
    hide Redaction.CleanText, Redaction.RedactText, TokenFree;
    Redaction.RedactedIsClean(s);
    WordingIsClean(BLOCKED_REDACTED, '-', ' ');
  }

  /** No `o`, `s`, white space, at sign or dot: nothing to begin or to hold a match. */
  predicate Mute(s: string) {
    forall k :: 0 <= k < |s| ==> LowerChar(s[k]) != 'o' && s[k] != 's' && !IsSpace(s[k]) && s[k] != '@'
  }

  predicate OneDot(s: string) { forall x, y :: 0 <= x < y < |s| ==> s[x] != '.' || s[y] != '.' }

  /** Every item but a phone number has one of these characters, or two dots. */
  lemma MuteIsClean(s: string)
    requires Mute(s) && OneDot(s)
    ensures Redaction.CleanText(s)
  {
    hide Patterns.IsItem;
    forall p: Patterns.Pass, i: nat, j: nat | p != Patterns.Phone
      ensures !Patterns.IsItem(p, s, i, j)
    {
      if Patterns.IsItem(p, s, i, j) { ItemIsNotMute(p, s, i, j); }
    }
  }

  lemma ItemIsNotMute(p: Patterns.Pass, s: string, i: nat, j: nat)
    requires p != Patterns.Phone && Patterns.IsItem(p, s, i, j)
    ensures !Mute(s) || !OneDot(s)
  {
    match p
    case Email => var a: nat, d: nat :| EmailLayout(s, i, a, d, j);
    case Order =>
      var a: nat, b: nat, d: nat :| OrderLayout(s, i, a, b, d, j);
      assert LowerChar(s[i]) == 'o';
    case OpenAiKey =>
    case Bearer =>
      var m: nat :| BearerLayout(s, i, m, j);
      assert IsSpace(s[i + 6]);
    case Jwt => var x: nat, y: nat :| JwtLayout(s, i, x, y, j);
  }

  lemma RunIdIsClean(runId: string)
    requires IsRunId(runId)
    ensures HeadText(runId)
  {
    hide Redaction.CleanText;
    assert runId[..5] == "vrun-";
    forall k | 0 <= k < |runId|
      ensures LowerChar(runId[k]) != 'o' && runId[k] != 's' && !IsSpace(runId[k]) && runId[k] != '@' && runId[k] != '.'
      ensures runId[k] == 'r' ==> k == 1
    {
      if k < 5 { assert runId[k] == "vrun-"[k]; }
      if k >= 21 { assert runId[k] == runId[21..][k - 21]; }
    }
    MuteIsClean(runId);
    assert runId[0] == "vrun-"[0];
    forall k | 0 <= k < |runId| - 1 ensures LowerChar(runId[k + 1]) == 'r' ==> LowerChar(runId[k]) != 'a' {
      if k >= 20 { assert runId[k + 1] == runId[21..][k - 20]; }
      if k + 1 < 5 { assert runId[k + 1] == "vrun-"[k + 1]; }
    }
    PairlessHasNoBearer(runId);
  }

  lemma TimestampCharacters(t: Instant)
    ensures var s := IsoFormat(t);
            forall k :: 0 <= k < |s| ==> IsDigit(s[k]) || s[k] in "-T:+" || (s[k] == '.' && k == 19)
  {
    hide Pad, Stamp;
    StampOfSeconds(t, ["-", "-", "T", ":", ":", ""]);
  }

  lemma TimestampIsClean(t: Instant)
    ensures HeadText(IsoFormat(t))
  {
    hide IsoFormat, Redaction.CleanText;
    TimestampCharacters(t);
    MuteIsClean(IsoFormat(t));
    PairlessHasNoBearer(IsoFormat(t));
  }

  lemma ScenarioIdsAreClean(scenario: Scenario)
    requires scenario in STANDARD_VALIDATION_SCENARIOS
    ensures HeadText(scenario.id)
  {
    hide Redaction.CleanText, NoBearer;
    ShortIds();
    LongIds();
  }

  lemma ShortIds()
    ensures HeadText("order_status") && HeadText("logistics_tracking") && HeadText("product_knowledge")
  {
    hide Redaction.CleanText, NoBearer;
    WordingIsClean("order_status", '-', 'b');
    WordingIsClean("logistics_tracking", '-', 'b');
    WordingIsClean("product_knowledge", '-', 'b');
  }

  lemma LongIds()
    ensures HeadText("knowledge_low_confidence_handoff") && HeadText("customer_requested_human")
  {
    hide Redaction.CleanText, NoBearer;
    WordingIsClean("customer_requested_human", '-', 'b');
    KnowledgeId();
  }

  lemma KnowledgeId()
    ensures HeadText("knowledge_low_confidence_handoff")
  {
    hide Redaction.CleanText, NoBearer;
    WordingIsClean("knowledge_low_confidence_handoff", '-', 'b');
  }

  lemma CheckNamesAreClean()
    ensures forall n :: n in CHECK_NAMES ==> Redaction.CleanText(n)
  {
    hide Redaction.CleanText;
    FirstNames();
    SecondNames();
    ThirdNames();
    LastNames();
    ScanName();
  }

  lemma FirstNames()
    ensures Redaction.CleanText("scenario_known") && Redaction.CleanText("session_observed")
    ensures Redaction.CleanText("expected_tools_observed")
  {
    hide Redaction.CleanText;
    WordingIsClean("scenario_known", '-', ' ');
    WordingIsClean("session_observed", '-', ' ');
    WordingIsClean("expected_tools_observed", '-', ' ');
  }

  lemma SecondNames()
    ensures Redaction.CleanText("expected_handoff_observed") && Redaction.CleanText("transcript_observed")
  {
    hide Redaction.CleanText;
    WordingIsClean("expected_handoff_observed", '-', ' ');
    WordingIsClean("transcript_observed", '-', ' ');
  }

  lemma ThirdNames()
    ensures Redaction.CleanText("assistant_response_observed") && Redaction.CleanText("provider_errors_absent")
  {
    hide Redaction.CleanText;
    WordingIsClean("assistant_response_observed", '-', ' ');
    WordingIsClean("provider_errors_absent", '-', ' ');
  }

  lemma LastNames()
    ensures Redaction.CleanText("manual_voice_confirmed") && Redaction.CleanText("manual_business_confirmed")
  {
    hide Redaction.CleanText;
    WordingIsClean("manual_voice_confirmed", '-', ' ');
    WordingIsClean("manual_business_confirmed", '-', ' ');
  }

  lemma ScanName()
    ensures Redaction.CleanText(SCAN_CHECK)
  {
    hide Redaction.CleanText;
    WordingIsClean(SCAN_CHECK, '-', ' ');
  }

  lemma ScanDetailIsClean(scan: bool)
    ensures Redaction.CleanText(ScanDetail(scan))
  {
    hide Redaction.CleanText;
    WordingIsClean(ScanDetail(scan), '-', 'r');
  }

  /** Every text that finishing a run saves, the two paths apart, is redacted, whatever the request. */
  lemma FinishedContentsAreClean(scenario: Scenario, runId: string, startedAt: string, finishedAt: string,
                                 dir: seq<string>, r: FinishRequest)
    requires scenario in STANDARD_VALIDATION_SCENARIOS && IsRunId(runId) && HeadText(startedAt) && HeadText(finishedAt)
    ensures ContentsClean(Finished(Preliminary(scenario, runId, startedAt, finishedAt, dir, r)))
  {
    hide Redaction.CleanText, NoBearer, Clean, EvaluateChecks, CHECK_NAMES, ScanDetail, BlockedSecretScan,
         EncodeSummary, IsRunId, AsPosix;
    RunIdIsClean(runId);
    ScenarioIdsAreClean(scenario);
    var checks := EvaluateChecks(scenario, r);
    CheckNames(scenario, r);
    CheckNamesAreClean();
    assert SCAN_CHECK in CHECK_NAMES by { ScanCheckIsNamed(); }
    ScanDetailIsClean(true);
    ScanDetailIsClean(false);
    forall i | 0 <= i < |checks|
      ensures Redaction.CleanText(checks[i].name) && Redaction.CleanText(Clean(checks[i].detail))
    {
      assert checks[i] in checks;
      CleanedIsClean(checks[i].detail);
    }
    CleanedIsClean(r.manual.notes);
    CleanedIsClean(r.transcriptText);
    CleanedIsClean(r.assistantResponseText);
    forall i | 0 <= i < |r.toolNames| ensures Redaction.CleanText(Clean(r.toolNames[i])) {
      CleanedIsClean(r.toolNames[i]);
    }
    forall i | 0 <= i < |r.providerEvents| ensures Redaction.CleanText(Clean(r.providerEvents[i])) {
      CleanedIsClean(r.providerEvents[i]);
    }
    if r.handoffReason.Some? { CleanedIsClean(r.handoffReason.value); }
  }

  lemma ScanCheckIsNamed()
    ensures SCAN_CHECK in CHECK_NAMES
  {
    assert CHECK_NAMES[9] == SCAN_CHECK;
  }
}
