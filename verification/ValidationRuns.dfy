/** `ValidationRunRepository`: starting, finishing, listing and loading validation runs. */
module ValidationRuns {
  import opened Common
  import opened Text
  import opened JsonValues
  import opened BlockedTokens
  import opened RunIds
  import opened Validation
  import opened ValidationOutcome
  import opened ValidationReport
  import opened ReportSafety
  import opened ReportMeaning
  import opened RunMeaning
  import opened ReportRedaction
  import opened SummaryFile
  import Redaction
  import Sorting

  datatype StartError = UnknownScenario | BadRunId | RunExists

  datatype FinishError = UnknownRun | RunDirectoryGone

  datatype LoadError = InvalidId | SummaryNotFound | SummaryMalformed | RunIdMismatch | BlockedContents

  /** What `summary.json` holds, whoever wrote it: any JSON value, or something that is not JSON. */
  datatype SavedFile = NotJson | Holds(value: Json)

  /** An entry of the root directory. */
  datatype Entry = PlainFile | Folder(summary: Option<SavedFile>, report: Option<string>)

  datatype StartedRun = StartedRun(scenario: Scenario, startedAt: string)

  datatype StartResponse = StartResponse(
    runId: string, scenario: Scenario, startedAt: string, summaryPath: string, reportPath: string)

  datatype FinishResponse = FinishResponse(
    runId: string, status: Status, summaryPath: string, reportPath: string, checks: seq<Check>)

  datatype ListItem = ListItem(
    runId: string, scenarioId: string, scenarioName: string, status: Status, readiness: Readiness,
    startedAt: string, finishedAt: string)

  // ---------------------------------------------------------------- reading what is saved

  /** The file of `name`, if there is one. */
  function FileOf(dirs: map<string, Entry>, name: string): Option<SavedFile> {
    if name in dirs && dirs[name].Folder? then dirs[name].summary else None
  }

  function LoadReportFrom(l: Leniency, dirs: map<string, Entry>, runId: string): Result<Report, LoadError> {
    if !IsRunId(runId) then Err(InvalidId)
    else
      var file := FileOf(dirs, runId);
      if file.None? then Err(SummaryNotFound)
      else
        var s := if file.value.Holds? then DecodeSummary(l, file.value.value) else None;
        if s.None? then Err(SummaryMalformed)
        else if s.value.runId != runId then Err(RunIdMismatch)
        else
          var report := BuildReport(s.value);
          if BlockedSecretScan(EncodeReport(report)) then Ok(report) else Err(BlockedContents)
  }

  /**
   * The summary that is listed for a file: only an object can be asked for its `finished_at`, which is
   * set to the name of the directory when it is missing or empty.
   */
  function ListedSummary(l: Leniency, name: string, file: SavedFile): Option<Summary> {
    if file.NotJson? || !file.value.JObj? then None
    else
      var payload := file.value.fields;
      DecodeSummary(
        l, JObj(if Truthy(Get(payload, "finished_at")) then payload else Put(payload, "finished_at", JStr(name))))
  }

  function ItemFor(s: Summary): ListItem {
    ListItem(s.runId, s.scenarioId, ScenarioName(s.scenarioId), s.status, DeriveReadiness(s), s.startedAt, s.finishedAt)
  }

  /** What the listing shows for the entry `name`. */
  function ItemOf(l: Leniency, dirs: map<string, Entry>, name: string): Option<ListItem> {
    if !IsRunId(name) then None
    else
      var file := FileOf(dirs, name);
      if file.None? then None
      else
        var s := ListedSummary(l, name, file.value);
        if s.None? || s.value.runId != name then None else Some(ItemFor(s.value))
  }

  /** `x` is listed no later than `y`: descending `(finished_at, run_id)`. */
  predicate NotBelow(x: ListItem, y: ListItem) {
    StrLe(y.finishedAt, x.finishedAt) && (y.finishedAt == x.finishedAt ==> StrLe(y.runId, x.runId))
  }

  lemma NotBelowIsPreorder()
    ensures Sorting.TotalPreorder(NotBelow)
  {
    forall x, y ensures NotBelow(x, y) || NotBelow(y, x) {
      StrLeTotal(x.finishedAt, y.finishedAt);
      StrLeTotal(x.runId, y.runId);
    }
    forall x, y, z | NotBelow(x, y) && NotBelow(y, z) ensures NotBelow(x, z) {
      StrLeTransitive(z.finishedAt, y.finishedAt, x.finishedAt);
      if z.finishedAt == x.finishedAt {
        StrLeAntisymmetric(x.finishedAt, y.finishedAt);
        StrLeTransitive(z.runId, y.runId, x.runId);
      }
    }
  }

  /** What validates as a summary has a text for its `finished_at`, so the listing reads it unchanged. */
  lemma ListedAsItIs(l: Leniency, name: string, v: Json)
    requires DecodeSummary(l, v).Some?
    ensures v.JObj? && Get(v.fields, "finished_at") == JStr(DecodeSummary(l, v).value.finishedAt)
    ensures ListedSummary(l, name, Holds(v)) == DecodeSummary(l, v)
  {
    hide Get, OnlyKeys, SUMMARY_KEYS, IsBody, StatusOf;
  }

  /**
   * Every run that can be loaded is listed, with the same status and readiness, whatever the file: the
   * listing accepts all that loading does.
   */
  lemma LoadedIsListed(l: Leniency, dirs: map<string, Entry>, runId: string)
    requires LoadReportFrom(l, dirs, runId).Ok?
    ensures var report, item := LoadReportFrom(l, dirs, runId).value, ItemOf(l, dirs, runId);
            && item.Some? && item.value.runId == report.runId == runId
            && item.value.status == report.status && item.value.readiness == report.readiness
            && item.value.scenarioName == report.scenarioName
  {
    hide BlockedSecretScan, EncodeReport, DeriveReadiness, IsRunId, DecodeSummary, ListedSummary;
    ListedAsItIs(l, runId, dirs[runId].summary.value.value);
  }

  /** The file of the entry names a time at which the run was finished. */
  predicate NamesFinish(dirs: map<string, Entry>, name: string) {
    var file := FileOf(dirs, name);
    file.Some? && file.value.Holds? && file.value.value.JObj? && Truthy(Get(file.value.value.fields, "finished_at"))
  }

  lemma OnlyNamedFinishDecodes(l: Leniency, fields: seq<Field>)
    requires !Truthy(Get(fields, "finished_at"))
    ensures DecodeSummary(l, JObj(fields)).None?
  {
    hide Get, OnlyKeys, SUMMARY_KEYS, IsBody, StatusOf;
  }

  /**
   * The listing accepts more than loading does, and this is how much more: a listed run loads exactly
   * if its file names a finish time, and nothing its report quotes (run and scenario id, checks, handoff
   * reason) mentions a token.  Without the one its summary is malformed, without the other its report is
   * withheld.
   */
  lemma ListedLoadsIff(l: Leniency, dirs: map<string, Entry>, name: string)
    requires ItemOf(l, dirs, name).Some?
    ensures FileOf(dirs, name).Some? && ListedSummary(l, name, FileOf(dirs, name).value).Some?
    ensures var s, loaded := ListedSummary(l, name, FileOf(dirs, name).value).value, LoadReportFrom(l, dirs, name);
            && (loaded.Ok? <==> NamesFinish(dirs, name) && ReportedFree(s))
            && (loaded == Err(SummaryMalformed) <==> !NamesFinish(dirs, name))
            && (loaded == Err(BlockedContents) <==> NamesFinish(dirs, name) && !ReportedFree(s))
  {
    hide Get, Put, IsRunId, BuildReport, BlockedSecretScan, EncodeReport, DeriveReadiness, DecodeSummary,
         ReportedFree, ItemFor;
    var s := ListedSummary(l, name, FileOf(dirs, name).value).value;
    var fields := FileOf(dirs, name).value.value.fields;
    BuiltReportIsServedIff(s);
    if !NamesFinish(dirs, name) { OnlyNamedFinishDecodes(l, fields); }
  }

  /** The file reads as a summary. */
  predicate ReadsAs(l: Leniency, file: Option<SavedFile>, s: Summary) {
    file.Some? && file.value.Holds? && DecodeSummary(l, file.value.value) == Some(s)
  }

  /** What a request for a report is answered, by what stands in the directory of that name. */
  lemma LoadAnswers(l: Leniency, dirs: map<string, Entry>, name: string)
    ensures var loaded, file := LoadReportFrom(l, dirs, name), FileOf(dirs, name);
            && (loaded == Err(InvalidId) <==> !IsRunId(name))
            && (loaded == Err(SummaryNotFound) <==> IsRunId(name) && file.None?)
            && (loaded == Err(SummaryMalformed) <==>
                  IsRunId(name) && file.Some? && forall s :: !ReadsAs(l, file, s))
            && (loaded == Err(RunIdMismatch) <==> IsRunId(name) && exists s :: ReadsAs(l, file, s) && s.runId != name)
            && (loaded == Err(BlockedContents) <==>
                  IsRunId(name) && exists s :: ReadsAs(l, file, s) && s.runId == name && !ReportedFree(s))
            && (loaded.Ok? <==>
                  IsRunId(name) && exists s :: ReadsAs(l, file, s) && s.runId == name && ReportedFree(s))
  {
    hide IsRunId, BuildReport, BlockedSecretScan, EncodeReport, DecodeSummary, ReportedFree, FileOf;
    var file := FileOf(dirs, name);
    if file.Some? && file.value.Holds? && DecodeSummary(l, file.value.value).Some? {
      var s := DecodeSummary(l, file.value.value).value;
      assert ReadsAs(l, file, s);
      BuiltReportIsServedIff(s);
    }
  }

  /** So the runs that load are told from the listing, the finish time, and the quoted texts. */
  lemma LoadsIff(l: Leniency, dirs: map<string, Entry>, name: string)
    ensures LoadReportFrom(l, dirs, name).Ok? <==>
            && ItemOf(l, dirs, name).Some? && NamesFinish(dirs, name)
            && ReportedFree(ListedSummary(l, name, FileOf(dirs, name).value).value)
  {
    hide NamesFinish, ReportedFree, ListedSummary, LoadReportFrom, ItemOf, FileOf;
    if ItemOf(l, dirs, name).Some? { ListedLoadsIff(l, dirs, name); }
    if LoadReportFrom(l, dirs, name).Ok? { LoadedIsListed(l, dirs, name); }
  }

  /**
   * A file whose `finished_at` is missing or empty is listed under its directory's name exactly if it
   * would validate with that name in its place; it never loads.
   */
  lemma ListedUnderItsName(l: Leniency, dirs: map<string, Entry>, name: string, fields: seq<Field>)
    requires FileOf(dirs, name) == Some(Holds(JObj(fields))) && !Truthy(Get(fields, "finished_at"))
    ensures var s := DecodeSummary(l, JObj(Put(fields, "finished_at", JStr(name))));
            if IsRunId(name) && s.Some? && s.value.runId == name then
              ItemOf(l, dirs, name) == Some(ItemFor(s.value)) && s.value.finishedAt == name
            else
              ItemOf(l, dirs, name).None?
    ensures LoadReportFrom(l, dirs, name).Err?
  {
    hide Get, Put, OnlyKeys, SUMMARY_KEYS, IsBody, StatusOf, IsRunId, BuildReport, BlockedSecretScan, EncodeReport,
         DeriveReadiness;
    GetPut(fields, "finished_at", JStr(name), "finished_at");
  }

  // ---------------------------------------------------------------- listed, but not loaded

  /** The dump of a summary without a finish time, once the listing has put a name in its place. */
  lemma FinishIsPut(s: Summary, name: string)
    ensures Put(EncodeSummary(s).fields, "finished_at", JStr(name)) == EncodeSummary(s.(finishedAt := name)).fields
    ensures Get(EncodeSummary(s).fields, "finished_at") == JStr(s.finishedAt)
  {
    hide StatusText, BodyFields;
    var f, t := HeadFields(s) + BodyFields(s), "finished_at";
    var f' := HeadFields(s.(finishedAt := name)) + BodyFields(s);
    assert BodyFields(s.(finishedAt := name)) == BodyFields(s) by { BodyHasNoFinish(s, name); }
    assert |t| == 11 && t[0] == 'f';
    FinishIsFifth(s);
    PutAt(f, 4, JStr(name));
    GetAt(f, 4);
    assert f[4].key == t && f[4].value == JStr(s.finishedAt);
    assert f[..4] + [Field(t, JStr(name))] + f[5..] == f';
  }

  lemma BodyHasNoFinish(s: Summary, name: string)
    ensures BodyFields(s.(finishedAt := name)) == BodyFields(s)
  {
  }

  lemma FinishIsFifth(s: Summary)
    ensures var f := HeadFields(s) + BodyFields(s); DistinctKeys(f) && |f| > 4 && f[4].key == "finished_at"
  {
    hide BodyFields, StatusText, DistinctKeys, OnlyKeys, SUMMARY_KEYS;
    SummaryShape(s);
  }

  /** Any summary that validates once it has a finish time is listed without one, and does not load. */
  lemma UnfinishedIsListed(l: Leniency, dirs: map<string, Entry>, name: string, s: Summary)
    requires Fair(l) && IsRunId(name) && s.runId == name && s.finishedAt == "" && ValidSummary(s.(finishedAt := name))
    requires FileOf(dirs, name) == Some(Holds(EncodeSummary(s)))
    ensures ItemOf(l, dirs, name) == Some(ItemFor(s.(finishedAt := name)))
    ensures LoadReportFrom(l, dirs, name) == Err(SummaryMalformed)
  {
    hide Get, Put, IsRunId, BuildReport, BlockedSecretScan, EncodeReport, DeriveReadiness, DecodeSummary,
         ValidSummary, HeadFields, BodyFields, Fair, ItemFor, NamesFinish, Save;
    var fields := EncodeSummary(s).fields;
    FinishIsPut(s, name);
    SavedIsReadBack(l, s.(finishedAt := name));
    ListedLoadsIff(l, dirs, name) by { assert ItemOf(l, dirs, name).Some?; }
    assert !NamesFinish(dirs, name) by { NoFinishNamed(dirs, name, fields); }
  }

  lemma NoFinishNamed(dirs: map<string, Entry>, name: string, fields: seq<Field>)
    requires FileOf(dirs, name) == Some(Holds(JObj(fields))) && Get(fields, "finished_at") == JStr("")
    ensures !NamesFinish(dirs, name)
  {
  }

  /** Any saved summary that quotes a token is listed, and its report is withheld. */
  lemma TokenIsListed(l: Leniency, dirs: map<string, Entry>, name: string, s: Summary)
    requires Fair(l) && IsRunId(name) && s.runId == name && ValidSummary(s) && !ReportedFree(s)
    requires FileOf(dirs, name) == Some(Holds(Save(s)))
    ensures ItemOf(l, dirs, name) == Some(ItemFor(s))
    ensures LoadReportFrom(l, dirs, name) == Err(BlockedContents)
  {
    hide IsRunId, BuildReport, BlockedSecretScan, EncodeReport, DeriveReadiness, DecodeSummary, ValidSummary, Save,
         Fair, ReportedFree, ItemFor, NamesFinish, ListedSummary;
    SavedIsReadBack(l, s);
    ListedAsItIs(l, name, Save(s));
    ListedLoadsIff(l, dirs, name);
    BuiltReportIsServedIff(s);
  }

  /** A summary of a run that went on without checks. */
  function BareSummary(name: string, finishedAt: string, reason: string): Summary {
    Summary(name, "order_status", Fail, "2026", finishedAt, "s", "r", [],
            ManualAssertions(false, false, false, false, ""), "", "", [], Some(reason), [], [])
  }

  /** An input for each of the two: a file without a finish time, and one whose handoff reason is a token. */
  lemma ListedAndNotLoaded(l: Leniency, name: string)
    requires Fair(l) && IsRunId(name)
    ensures var dirs := map[name := Folder(Some(Holds(EncodeSummary(BareSummary(name, "", "")))), None)];
            ItemOf(l, dirs, name).Some? && LoadReportFrom(l, dirs, name) == Err(SummaryMalformed)
    ensures var dirs := map[name := Folder(Some(Holds(Save(BareSummary(name, "2026", "sdp")))), None)];
            ItemOf(l, dirs, name).Some? && LoadReportFrom(l, dirs, name) == Err(BlockedContents)
  {
    hide ItemOf, LoadReportFrom, EncodeSummary, Save, Fair, TokenFree, IsRunId;
    assert name != "" by { RunIdIsNonempty(name); }
    var unfinished, withToken := BareSummary(name, "", ""), BareSummary(name, "2026", "sdp");
    UnfinishedIsListed(l, map[name := Folder(Some(Holds(EncodeSummary(unfinished))), None)], name, unfinished);
    SdpIsToken("");
    assert "" + "sdp" == "sdp";
    TokenIsListed(l, map[name := Folder(Some(Holds(Save(withToken))), None)], name, withToken);
  }

  lemma RunIdIsNonempty(name: string)
    requires IsRunId(name)
    ensures name != ""
  {
  }

  lemma SdpIsToken(before: string)
    ensures !TokenFree(before + "sdp")
  {
    var t := "sdp";
    var s := before + t;
    assert t == BLOCKED_REPORT_TEXT_TOKENS[9];
    assert forall k :: 0 <= k < |t| ==> s[|before| + k] == t[k];
    assert TokenAt(t, s, |before|) && Mentions(s, t) && t in BLOCKED_REPORT_TEXT_TOKENS;
  }

  // ---------------------------------------------------------------- positions in the listing

  /** What the listing comes to: each item once, in descending order. */
  ghost predicate IsListing(l: Leniency, dirs: map<string, Entry>, listed: seq<ListItem>) {
    && (forall item :: item in listed <==> exists name :: name in dirs && ItemOf(l, dirs, name) == Some(item))
    && (forall i, j :: 0 <= i < j < |listed| ==> ComesBefore(listed[i], listed[j]))
  }

  /** Later finish times first, and of two equal ones the larger run id. */
  predicate ComesBefore(x: ListItem, y: ListItem) {
    && x.runId != y.runId
    && if x.finishedAt == y.finishedAt then StrLe(y.runId, x.runId) else StrLe(y.finishedAt, x.finishedAt)
  }

  lemma NotBelowComesBefore(x: ListItem, y: ListItem)
    requires x.runId != y.runId
    ensures NotBelow(x, y) <==> ComesBefore(x, y)
  {
    StrLeTotal(x.finishedAt, x.finishedAt);
  }

  /** An item says what its file says, the finish time apart if the file names none. */
  ghost predicate ItemTells(item: ListItem, s: Summary) {
    && item.runId == s.runId && item.scenarioId == s.scenarioId && item.status == s.status
    && item.startedAt == s.startedAt && item.finishedAt == s.finishedAt
    && (item.readiness == Blocked <==> HasBlocker(s))
    && (item.readiness == ReadyForPilot <==> s.status == Pass && forall c :: c in s.checks ==> c.passed)
    && exists nameCn, tools, handoff :: CallsScenario(s.scenarioId, item.scenarioName, nameCn, tools, handoff)
  }

  lemma ListedTells(l: Leniency, dirs: map<string, Entry>, name: string)
    requires ItemOf(l, dirs, name).Some?
    ensures FileOf(dirs, name).Some? && ListedSummary(l, name, FileOf(dirs, name).value).Some?
    ensures ItemTells(ItemOf(l, dirs, name).value, ListedSummary(l, name, FileOf(dirs, name).value).value)
  {
    hide ListedSummary, IsRunId, HasBlocker, CallsScenario, DeriveReadiness, Evidence, Sections, CopyText, Warnings,
         DecisionText, FindScenario;
    var s := ListedSummary(l, name, FileOf(dirs, name).value).value;
    DecisionMeaning(s);
    ScenarioMeaning(s);
  }

  ghost predicate Before(listed: seq<ListItem>, x: ListItem, y: ListItem) {
    exists i, j :: 0 <= i < j < |listed| && listed[i] == x && listed[j] == y
  }

  /** Two listed runs, of which one must come first. */
  lemma ListedBefore(l: Leniency, dirs: map<string, Entry>, listed: seq<ListItem>, x: string, y: string)
    requires IsListing(l, dirs, listed) && ItemOf(l, dirs, x).Some? && ItemOf(l, dirs, y).Some?
    requires !NotBelow(ItemOf(l, dirs, y).value, ItemOf(l, dirs, x).value)
    ensures Before(listed, ItemOf(l, dirs, x).value, ItemOf(l, dirs, y).value)
  {
    hide ItemFor, ListedSummary, IsRunId, NotBelow, ComesBefore, ItemOf;
    var item, other := ItemOf(l, dirs, x).value, ItemOf(l, dirs, y).value;
    ItemCarriesItsName(l, dirs, x);
    ItemCarriesItsName(l, dirs, y);
    ItemIsOfAnEntry(l, dirs, x);
    ItemIsOfAnEntry(l, dirs, y);
    assert item in listed && other in listed;
    var i :| 0 <= i < |listed| && listed[i] == item;
    var j :| 0 <= j < |listed| && listed[j] == other;
    NotBelowIsPreorder();
    assert NotBelow(item, item);
    if item.runId != other.runId { NotBelowComesBefore(other, item); }
    assert j < i ==> ComesBefore(other, item);
  }

  lemma ItemIsOfAnEntry(l: Leniency, dirs: map<string, Entry>, name: string)
    ensures ItemOf(l, dirs, name).Some? ==> name in dirs
  {
  }

  /** Of two runs that ended at different times, the one that ended later is listed first. */
  lemma ListedNewestFirst(l: Leniency, dirs: map<string, Entry>, listed: seq<ListItem>, x: string, y: string,
                          a: Instant, b: Instant)
    requires IsListing(l, dirs, listed) && ItemOf(l, dirs, x).Some? && ItemOf(l, dirs, y).Some?
    requires IsInstant(a) && IsInstant(b) && !NotLater(a, b)
    requires ItemOf(l, dirs, x).value.finishedAt == IsoFormat(a) && ItemOf(l, dirs, y).value.finishedAt == IsoFormat(b)
    ensures Before(listed, ItemOf(l, dirs, x).value, ItemOf(l, dirs, y).value)
  {
    hide IsoFormat, ItemOf, IsListing, Before;
    var item, other := ItemOf(l, dirs, x).value, ItemOf(l, dirs, y).value;
    TimestampsSortByTime(a, b);
    StrLeTotal(item.finishedAt, other.finishedAt);
    StrLeTotal(item.finishedAt, item.finishedAt);
    ListedBefore(l, dirs, listed, x, y);
  }

  /** Runs listed under their ids for want of a `finished_at` are in order of their start, newest first. */
  lemma FallbackNewestFirst(l: Leniency, dirs: map<string, Entry>, listed: seq<ListItem>, a: Instant, b: Instant,
                            p: string, q: string)
    requires IsInstant(a) && IsInstant(b) && !LexLe(Seconds(a), Seconds(b))
    requires var x, y := NewRunId(a, p), NewRunId(b, q);
             && IsListing(l, dirs, listed) && ItemOf(l, dirs, x).Some? && ItemOf(l, dirs, y).Some?
             && ItemOf(l, dirs, x).value.finishedAt == x && ItemOf(l, dirs, y).value.finishedAt == y
    ensures Before(listed, ItemOf(l, dirs, NewRunId(a, p)).value, ItemOf(l, dirs, NewRunId(b, q)).value)
  {
    hide NewRunId, ItemOf, IsListing, Before;
    var x, y := NewRunId(a, p), NewRunId(b, q);
    LexLeReflexive(Seconds(a));
    RunIdsSortByTime(a, b, p, q);
    StrLeTotal(x, y);
    StrLeTotal(x, x);
    ListedBefore(l, dirs, listed, x, y);
  }

  /** And they come before every run with a timestamp, however new: a name starts with a letter. */
  lemma FallbackComesFirst(l: Leniency, dirs: map<string, Entry>, listed: seq<ListItem>, x: string, y: string,
                           b: Instant)
    requires IsListing(l, dirs, listed) && ItemOf(l, dirs, x).Some? && ItemOf(l, dirs, y).Some?
    requires IsInstant(b)
    requires ItemOf(l, dirs, x).value.finishedAt == x && ItemOf(l, dirs, y).value.finishedAt == IsoFormat(b)
    ensures Before(listed, ItemOf(l, dirs, x).value, ItemOf(l, dirs, y).value)
  {
    hide IsoFormat, IsListing, Before, ItemFor, ListedSummary;
    assert x[0] == x[..5][0] == 'v';
    TimestampStartsWithDigit(b);
    ListedBefore(l, dirs, listed, x, y);
  }

  lemma {:induction false} LexLeReflexive(a: seq<nat>)
    ensures LexLe(a, a)
  {
    if a != [] { LexLeReflexive(a[1..]); }
  }

  // ---------------------------------------------------------------- finishing, then loading

  /**
   * A summary that `finish_run` saves is read back as it was, matches its directory, and its report is
   * not withheld, even when the root's path has made the run fail its own scan.
   */
  lemma FinishedLoads(l: Leniency, scenario: Scenario, runId: string, startedAt: string, finishedAt: string,
                      root: seq<string>, r: FinishRequest, dirs: map<string, Entry>, rendered: Option<string>)
    requires Fair(l) && scenario in STANDARD_VALIDATION_SCENARIOS && IsRunId(runId)
    requires TokenFree(startedAt) && TokenFree(finishedAt) && startedAt != "" && finishedAt != ""
    ensures var saved := Finished(Preliminary(scenario, runId, startedAt, finishedAt, root + [runId], r));
            var dirs' := dirs[runId := Folder(Some(Holds(Save(saved))), rendered)];
            && DecodeSummary(l, Save(saved)) == Some(saved)
            && LoadReportFrom(l, dirs', runId) == Ok(BuildReport(saved))
            && ItemOf(l, dirs', runId) == Some(ItemFor(saved))
  {
    hide TokenFree, Preliminary, Finished, EvaluateChecks, SavedChecks, BuildReport, BlockedSecretScan, EncodeReport,
         EncodeSummary, ValidSummary, RunSucceeded, IsRunId, DecodeSummary, Save, ItemFor, ListedSummary, Fair;
    var saved := Finished(Preliminary(scenario, runId, startedAt, finishedAt, root + [runId], r));
    FinishPassesIff(scenario, runId, startedAt, finishedAt, root, r);
    FinishedIsValid(scenario, runId, startedAt, finishedAt, root, r);
    SavedIsReadBack(l, saved);
    BuiltReportIsServed(saved);
    ListedAsItIs(l, runId, Save(saved));
  }

  lemma FinishedIsValid(scenario: Scenario, runId: string, startedAt: string, finishedAt: string,
                        root: seq<string>, r: FinishRequest)
    requires scenario in STANDARD_VALIDATION_SCENARIOS && IsRunId(runId) && startedAt != "" && finishedAt != ""
    ensures var saved := Finished(Preliminary(scenario, runId, startedAt, finishedAt, root + [runId], r));
            ValidSummary(saved) && saved.runId == runId && saved.finishedAt == finishedAt
  {
    hide TokenFree, EvaluateChecks, BlockedSecretScan, EncodeSummary, Clean, CHECK_NAMES, AsPosix, ScanDetail;
    var checks := EvaluateChecks(scenario, r);
    CheckNames(scenario, r);
    DetailsAreNonempty(scenario, r);
    ScanDetailIsNonempty();
    assert forall n :: n in CHECK_NAMES ==> n != "" by { NamesAreNonempty(); }
    forall i | 0 <= i < |checks| ensures ScrubCheck(checks[i]).name != "" && ScrubCheck(checks[i]).detail != "" {
      assert checks[i] in checks;
      CleanIsTokenFree(checks[i].detail);
    }
    PosixIsNonempty(root + [runId] + ["summary.json"]);
    PosixIsNonempty(root + [runId] + ["report.md"]);
  }

  lemma NamesAreNonempty()
    ensures forall n :: n in CHECK_NAMES ==> n != ""
  {
  }

  lemma ScanDetailIsNonempty()
    ensures ScanDetail(true) != "" && ScanDetail(false) != ""
  {
  }

  lemma PosixIsNonempty(dir: seq<string>)
    ensures AsPosix(dir) != ""
  {
  }

  lemma DetailsAreNonempty(scenario: Scenario, r: FinishRequest)
    ensures forall c :: c in EvaluateChecks(scenario, r) ==> c.detail != ""
  {
    hide Details, HasProviderError, ManualVoice, ManualBusiness, HandoffObserved, ToolsObserved, Strip, FindScenario,
         OBSERVED_SESSION_STATES;
    EachDetailIsNonempty(scenario, r);
  }

  lemma EachDetailIsNonempty(scenario: Scenario, r: FinishRequest)
    ensures forall i :: 0 <= i < 10 ==> Details(scenario, r)[i] != ""
  {
  }

  /** The summary that finishing a started run saves. */
  function FinishedSummary(started: StartedRun, runId: string, root: seq<string>, now: Instant, r: FinishRequest)
    : Summary
  {
    Finished(Preliminary(started.scenario, runId, started.startedAt, IsoFormat(now), root + [runId], r))
  }

  /** How a run was last finished: with which request, to what outcome, and when. */
  datatype Finish = Finish(request: FinishRequest, status: Status, at: Instant)

  /** The file of a finished run tells how it was started, with what it was finished, and when. */
  ghost predicate FileTells(l: Leniency, dirs: map<string, Entry>, started: StartedRun, runId: string,
                            root: seq<string>, last: Finish) {
    var file := FileOf(dirs, runId);
    && file.Some? && file.value.Holds?
    && var s := DecodeSummary(l, file.value.value);
    && s.Some? && s.value.status == last.status
    && TellsRun(s.value, started.scenario, runId, started.startedAt, IsoFormat(last.at), root, last.request)
  }

  /** The report that is served, and the one that is written, say what the file says. */
  ghost predicate ReportsTell(l: Leniency, dirs: map<string, Entry>, runId: string) {
    var loaded := LoadReportFrom(l, dirs, runId);
    && loaded.Ok? && SaysWhatIsSaved(l, dirs, runId, loaded.value)
    && runId in dirs && dirs[runId].Folder? && dirs[runId].report.Some?
    && Shows(dirs[runId].report.value, DecodeSummary(l, FileOf(dirs, runId).value.value).value)
  }

  /** What a reader finds after a run has been finished. */
  ghost predicate FinishesWell(l: Leniency, dirs: map<string, Entry>, started: StartedRun, runId: string,
                               root: seq<string>, last: Finish) {
    var loaded, item := LoadReportFrom(l, dirs, runId), ItemOf(l, dirs, runId);
    // the run passes exactly when the raw request shows a successful run, under a clean root
    && (last.status == Pass <==> RunSucceeded(started.scenario, last.request) && TokenFree(AsPosix(root)))
    // it is saved as it was started and finished
    && FileTells(l, dirs, started, runId, root, last)
    // it can be loaded at once, with the same status and the readiness that goes with it
    && ReportsTell(l, dirs, runId) && loaded.value.runId == runId && loaded.value.status == last.status
    && (loaded.value.readiness == ReadyForPilot <==> last.status == Pass)
    && (loaded.value.readiness == Blocked <==> HasProviderError(last.request) || !TokenFree(AsPosix(root)))
    && (loaded.value.warnings == [] <==> last.status == Pass)
    // it is listed under the time at which it was finished
    && IsInstant(last.at)
    && item == Some(ListItem(runId, started.scenario.id, started.scenario.name, last.status, loaded.value.readiness,
                             started.startedAt, IsoFormat(last.at)))
  }

  /** The answer to a finish says what the file says. */
  ghost predicate AnswersAsSaved(l: Leniency, dirs: map<string, Entry>, r: FinishResponse) {
    exists s :: ReadsAs(l, FileOf(dirs, r.runId), s) && s.runId == r.runId && s.status == r.status &&
      s.summaryPath == r.summaryPath && s.reportPath == r.reportPath && s.checks == r.checks
  }

  /** The directory of a run once its two files are written. */
  function Written(dirs: map<string, Entry>, runId: string, s: Summary): map<string, Entry> {
    dirs[runId := Folder(Some(Holds(Save(s))), Some(RenderReport(s)))]
  }

  lemma FinishingWell(l: Leniency, started: StartedRun, runId: string, root: seq<string>, now: Instant,
                      r: FinishRequest, dirs: map<string, Entry>)
    requires Fair(l) && started.scenario in STANDARD_VALIDATION_SCENARIOS && IsRunId(runId) && IsInstant(now)
    requires TokenFree(started.startedAt) && started.startedAt != ""
    ensures var saved := FinishedSummary(started, runId, root, now, r);
            && FinishesWell(l, Written(dirs, runId, saved), started, runId, root, Finish(r, saved.status, now))
            && TokenFree(RenderReport(saved))
            && AnswersAsSaved(l, Written(dirs, runId, saved),
                              FinishResponse(runId, saved.status, saved.summaryPath, saved.reportPath, saved.checks))
  {
    hide TokenFree, IsoFormat, Finished, Preliminary, EvaluateChecks, BlockedSecretScan, EncodeSummary, RenderReport,
         RunSucceeded, HasProviderError, BuildReport, AsPosix, IsRunId, LoadReportFrom, DeriveReadiness, ItemOf,
         Save, STANDARD_VALIDATION_SCENARIOS, IsInstant, ContentsFree, SavedChecks, DecodeSummary, Fair, TellsRun,
         TellsSummary, Shows, ScenarioName;
    var saved := FinishedSummary(started, runId, root, now, r);
    TimestampIsTokenFree(now);
    FinishedIsValid(started.scenario, runId, started.startedAt, IsoFormat(now), root, r);
    FinishPassesIff(started.scenario, runId, started.startedAt, IsoFormat(now), root, r);
    ReadinessOfFinished(started.scenario, runId, started.startedAt, IsoFormat(now), root, r);
    FinishedLoads(l, started.scenario, runId, started.startedAt, IsoFormat(now), root, r, dirs,
                  Some(RenderReport(saved)));
    FinishedTells(started.scenario, runId, started.startedAt, IsoFormat(now), root, r);
    FinishedItem(started, runId, root, now, r);
    RenderedReportIsTokenFree(saved);
    RenderedReportShows(saved);
    BuiltReportTells(saved);
    BuiltReportKeeps(saved);
    assert ReadsAs(l, FileOf(Written(dirs, runId, saved), runId), saved);
  }

  /** What becomes of another entry does not matter. */
  lemma OtherEntry(l: Leniency, dirs: map<string, Entry>, started: StartedRun, id: string, root: seq<string>,
                   last: Finish, other: string, entry: Entry)
    requires FinishesWell(l, dirs, started, id, root, last) && other != id
    ensures FinishesWell(l, dirs[other := entry], started, id, root, last)
  {
    hide BuildReport, BlockedSecretScan, EncodeReport, RunSucceeded, IsRunId, HasProviderError, TokenFree,
         DecodeSummary, ListedSummary, ItemFor, IsoFormat, IsInstant, AsPosix, TellsRun, TellsSummary, Shows;
    var dirs' := dirs[other := entry];
    assert FileOf(dirs', id) == FileOf(dirs, id);
    assert LoadReportFrom(l, dirs', id) == LoadReportFrom(l, dirs, id) && ItemOf(l, dirs', id) == ItemOf(l, dirs, id);
  }

  lemma FinishedIsThere(l: Leniency, dirs: map<string, Entry>, started: StartedRun, id: string, root: seq<string>,
                        last: Finish)
    requires FinishesWell(l, dirs, started, id, root, last)
    ensures id in dirs && ItemOf(l, dirs, id).Some? && ItemOf(l, dirs, id).value.finishedAt == IsoFormat(last.at)
    ensures IsInstant(last.at)
  {
    hide LoadReportFrom, RunSucceeded, HasProviderError, TokenFree, DecodeSummary, ListedSummary, IsoFormat,
         IsInstant, AsPosix, TellsRun, TellsSummary, Shows, IsRunId, ItemFor;
  }

  /** How a finished run is listed, and that its report warns of nothing exactly if it passed. */
  lemma FinishedItem(started: StartedRun, runId: string, root: seq<string>, now: Instant, r: FinishRequest)
    requires started.scenario in STANDARD_VALIDATION_SCENARIOS
    ensures var saved := FinishedSummary(started, runId, root, now, r);
            && ItemFor(saved) == ListItem(runId, started.scenario.id, started.scenario.name, saved.status,
                                          DeriveReadiness(saved), started.startedAt, IsoFormat(now))
            && (BuildReport(saved).warnings == [] <==> saved.status == Pass)
  {
    hide IsoFormat, EvaluateChecks, BlockedSecretScan, EncodeSummary, AsPosix, CleanRequest, ScrubChecks, FindScenario,
         DeriveReadiness, AllPassed, WithScan, STANDARD_VALIDATION_SCENARIOS;
    ScenarioIsFound(started.scenario);
    PassedAndWarned(FinishedSummary(started, runId, root, now, r).checks);
  }

  lemma ScenarioIsFound(scenario: Scenario)
    requires scenario in STANDARD_VALIDATION_SCENARIOS
    ensures FindScenario(scenario.id) == Some(scenario)
  {
    hide FindScenario;
    forall a, b | a in STANDARD_VALIDATION_SCENARIOS && b in STANDARD_VALIDATION_SCENARIOS && a.id == b.id
      ensures a == b
    {
      assert |a.id| == |b.id|;
    }
  }

  /** What is saved and rendered is redacted as well as free of tokens, the paths apart. */
  lemma FinishingClean(started: StartedRun, runId: string, root: seq<string>, now: Instant, r: FinishRequest)
    requires started.scenario in STANDARD_VALIDATION_SCENARIOS && IsRunId(runId) && HeadText(started.startedAt)
    ensures var saved := FinishedSummary(started, runId, root, now, r);
            ContentsClean(saved) && Redaction.CleanText(RenderReport(saved))
  {
    hide IsoFormat, Finished, Preliminary, RenderReport, IsRunId, HeadText, ContentsClean, Redaction.CleanText,
         STANDARD_VALIDATION_SCENARIOS;
    TimestampIsClean(now);
    FinishedContentsAreClean(started.scenario, runId, started.startedAt, IsoFormat(now), root + [runId], r);
    RenderedReportIsClean(FinishedSummary(started, runId, root, now, r));
  }

  // ---------------------------------------------------------------- a token in the path of the root

  /**
   * Under a root whose path mentions a token every run fails, however well it went; it is listed as
   * failed and served as blocked, not withheld.
   */
  lemma TaintedRootFailsEveryRun(l: Leniency, started: StartedRun, runId: string, root: seq<string>, now: Instant,
                                 r: FinishRequest, dirs: map<string, Entry>)
    requires Fair(l) && started.scenario in STANDARD_VALIDATION_SCENARIOS && IsRunId(runId) && IsInstant(now)
    requires TokenFree(started.startedAt) && started.startedAt != "" && !TokenFree(AsPosix(root))
    ensures var saved := FinishedSummary(started, runId, root, now, r);
            var dirs' := Written(dirs, runId, saved);
            var loaded, item := LoadReportFrom(l, dirs', runId), ItemOf(l, dirs', runId);
            && saved.status == Fail && loaded.Ok? && loaded.value.status == Fail && loaded.value.readiness == Blocked
            && item.Some? && item.value.status == Fail && item.value.readiness == Blocked
  {
    hide TokenFree, AsPosix, IsRunId, IsInstant, FinishedSummary, LoadReportFrom, ItemOf, RunSucceeded,
         HasProviderError, Fair, STANDARD_VALIDATION_SCENARIOS, Save, IsoFormat;
    FinishingWell(l, started, runId, root, now, r, dirs);
    LoadedIsListed(l, Written(dirs, runId, FinishedSummary(started, runId, root, now, r)), runId);
  }

  /** Such as a directory named after the session description protocol, right below `/`. */
  lemma SdpRootIsTainted()
    ensures !TokenFree(AsPosix(["sdp"]))
  {
    SdpIsToken("/");
    assert AsPosix(["sdp"]) == "/" + "sdp";
  }

  /** A request that shows a successful run of the scenario, so there are runs that fail for the root alone. */
  function GoodRequest(scenario: Scenario): FinishRequest {
    FinishRequest("ended", "Hi", "Hello", scenario.expectedTools,
                  if scenario.expectedHandoff then Some("yes") else None,
                  [], [], ManualAssertions(true, true, true, true, ""))
  }

  lemma GoodRequestSucceeds(scenario: Scenario)
    ensures RunSucceeded(scenario, GoodRequest(scenario))
  {
    assert !IsSpace('e') && !IsSpace('d') && Strip("ended") == "ended";
    assert "Hi"[0] == 'H' && "Hello"[0] == 'H' && !IsSpace('H');
  }

  /** A run that went well in every respect, and fails under that root; its report still loads. */
  lemma GoodRunFailsUnderSdp(l: Leniency, started: StartedRun, runId: string, now: Instant, dirs: map<string, Entry>)
    requires Fair(l) && started.scenario in STANDARD_VALIDATION_SCENARIOS && IsRunId(runId) && IsInstant(now)
    requires TokenFree(started.startedAt) && started.startedAt != ""
    ensures var r := GoodRequest(started.scenario);
            var saved := FinishedSummary(started, runId, ["sdp"], now, r);
            && RunSucceeded(started.scenario, r) && saved.status == Fail
            && LoadReportFrom(l, Written(dirs, runId, saved), runId).Ok?
  {
    hide TokenFree, AsPosix, IsRunId, IsInstant, FinishedSummary, LoadReportFrom, ItemOf, RunSucceeded, Fair, Save,
         STANDARD_VALIDATION_SCENARIOS, RenderReport, GoodRequest;
    SdpRootIsTainted();
    GoodRequestSucceeds(started.scenario);
    TaintedRootFailsEveryRun(l, started, runId, ["sdp"], now, GoodRequest(started.scenario), dirs);
  }

  // ---------------------------------------------------------------- the repository

  class ValidationRunRepository {
    const root: seq<string>
    /** What validation takes for a flag or a number. */
    const lax: Leniency
    var runs: map<string, StartedRun>
    /** The entries under the root; anyone may have put them there. */
    var dirs: map<string, Entry>
    /** For each run that has been finished, how it was finished last. */
    ghost var Last: map<string, Finish>

    ghost predicate Valid()
      reads this
    {
      Fair(lax) && RunsWell() && FinishesKept()
    }

    ghost predicate RunsWell()
      reads this
    {
      forall id :: id in runs ==>
        && IsRunId(id) && runs[id].scenario in STANDARD_VALIDATION_SCENARIOS
        && TokenFree(runs[id].startedAt) && runs[id].startedAt != "" && HeadText(runs[id].startedAt)
    }

    /** At any later time, each finished run still loads as its last finish left it. */
    ghost predicate FinishesKept()
      reads this
    {
      Last.Keys <= runs.Keys && forall id :: Kept(id)
    }

    ghost predicate Kept(id: string)
      reads this
    {
      id in Last && id in runs ==> FinishesWell(lax, dirs, runs[id], id, root, Last[id])
    }

    constructor (root: seq<string>, lax: Leniency, dirs: map<string, Entry>)
      requires Fair(lax)
      ensures Valid() && this.root == root && this.lax == lax && this.dirs == dirs && runs == map[] && Last == map[]
    {
      this.root, this.lax := root, lax;
      this.dirs := dirs;
      runs, Last := map[], map[];
    }

    lemma OtherFinishesKept(runId: string, entry: Entry)
      requires FinishesKept()
      ensures forall id :: id in Last && id != runId ==>
        FinishesWell(lax, dirs[runId := entry], runs[id], id, root, Last[id])
      ensures runId in Last ==> runId in dirs
    {
      hide FinishesWell;
      forall id | id in Last && id != runId
        ensures FinishesWell(lax, dirs[runId := entry], runs[id], id, root, Last[id])
      {
        assert Kept(id);
        OtherEntry(lax, dirs, runs[id], id, root, Last[id], runId, entry);
      }
      if runId in Last {
        assert Kept(runId);
        FinishedIsThere(lax, dirs, runs[runId], runId, root, Last[runId]);
      }
    }

    method StartRun(scenarioId: string, now: Instant, hex: string) returns (r: Result<StartResponse, StartError>)
      requires Valid() && IsInstant(now) && IsHex8(hex)
      modifies this
      ensures Valid() && Last == old(Last)
      ensures r.Err? ==> dirs == old(dirs) && runs == old(runs)
      ensures r.Err? <==> FindScenario(scenarioId).None? || NewRunId(now, hex) in old(dirs)
      ensures r.Ok? ==>
        var id := NewRunId(now, hex);
        && r.value.runId == id && r.value.scenario.id == scenarioId && r.value.startedAt == IsoFormat(now)
        && r.value.summaryPath == AsPosix(root + [id] + ["summary.json"])
        && r.value.reportPath == AsPosix(root + [id] + ["report.md"])
        && dirs == old(dirs)[id := Folder(None, None)]
        && runs == old(runs)[id := StartedRun(r.value.scenario, IsoFormat(now))]
    {
      hide TokenFree, IsoFormat, NewRunId, STANDARD_VALIDATION_SCENARIOS, FinishesWell, HeadText, AsPosix, RunDir,
           IsRunId;
      var scenario := FindScenario(scenarioId);
      if scenario.None? { return Err(UnknownScenario); }
      var runId := NewRunId(now, hex);
      NewRunIdMatches(now, hex);
      RunDirIsChildOfRoot(root, runId);
      var located := RunDir(root, runId);
      if !located.Inside? { return Err(BadRunId); }
      if runId in dirs { return Err(RunExists); }
      OtherFinishesKept(runId, Folder(None, None));
      dirs := dirs[runId := Folder(None, None)];
      var startedAt := IsoFormat(now);
      TimestampIsTokenFree(now);
      TimestampIsClean(now);
      runs := runs[runId := StartedRun(scenario.value, startedAt)];
      forall id ensures Kept(id) { assert old(Kept(id)); }
      r := Ok(StartResponse(runId, scenario.value, startedAt, AsPosix(located.dir + ["summary.json"]),
                            AsPosix(located.dir + ["report.md"])));
    }

    method FinishRun(runId: string, request: FinishRequest, now: Instant)
      returns (r: Result<FinishResponse, FinishError>)
      requires Valid() && IsInstant(now)
      modifies this`dirs, this`Last
      ensures Valid()
      ensures r.Err? ==> dirs == old(dirs) && Last == old(Last)
      ensures r.Ok? ==> Last == old(Last)[runId := Finish(request, r.value.status, now)]
      ensures r.Err? <==> runId !in runs || runId !in old(dirs) || !old(dirs)[runId].Folder?
      // the run's own two files are written, nothing else
      ensures r.Ok? ==>
        var saved := FinishedSummary(runs[runId], runId, root, now, request);
        && dirs == Written(old(dirs), runId, saved)
        && r.value == FinishResponse(runId, saved.status, saved.summaryPath, saved.reportPath, saved.checks)
        && TokenFree(RenderReport(saved))
        && ContentsClean(saved) && Redaction.CleanText(RenderReport(saved))
      ensures r.Ok? ==> AnswersAsSaved(lax, dirs, r.value)
      ensures r.Ok? ==> FinishesWell(lax, dirs, runs[runId], runId, root, Finish(request, r.value.status, now))
    {
      hide TokenFree, IsoFormat, EvaluateChecks, RenderReport, FinishesWell, AsPosix, IsRunId, Finished, IsInstant,
           STANDARD_VALIDATION_SCENARIOS, Unscanned, CleanRequest, ScrubChecks, Save, Fair, ContentsClean, HeadText,
           Redaction.CleanText;
      if runId !in runs { return Err(UnknownRun); }
      var started := runs[runId];
      RunDirIsChildOfRoot(root, runId);
      var located := RunDir(root, runId);
      assert located == Inside(root + [runId]);
      if runId !in dirs || !dirs[runId].Folder? { return Err(RunDirectoryGone); }
      var cleaned := CleanRequest(request);
      var checks := ScrubValidationChecks(EvaluateChecks(started.scenario, request));
      var finishedAt := IsoFormat(now);
      var summary :=
        Finished(Unscanned(started.scenario, runId, started.startedAt, finishedAt, located.dir, checks, cleaned));
      assert summary == FinishedSummary(started, runId, root, now, request);
      var report := RenderReport(summary);
      FinishingWell(lax, started, runId, root, now, request, dirs);
      FinishingClean(started, runId, root, now, request);
      OtherFinishesKept(runId, Folder(Some(Holds(Save(summary))), Some(report)));
      Last := Last[runId := Finish(request, summary.status, now)];
      dirs := dirs[runId := Folder(Some(Holds(Save(summary))), Some(report))];
      r := Ok(FinishResponse(runId, summary.status, summary.summaryPath, summary.reportPath, summary.checks));
    }

    /**
     * A report says what the saved file says, whoever saved it.  A finished run always loads, as it was
     * started and last finished.
     */
    method LoadReport(runId: string) returns (r: Result<Report, LoadError>)
      requires Valid()
      ensures runId in Last ==>
        && r.Ok? && r.value.status == Last[runId].status
        && (r.value.status == Pass <==>
              RunSucceeded(runs[runId].scenario, Last[runId].request) && TokenFree(AsPosix(root)))
        && FinishesWell(lax, dirs, runs[runId], runId, root, Last[runId])
      ensures r == LoadReportFrom(lax, dirs, runId)
      ensures r.Ok? ==> r.value.runId == runId && SaysWhatIsSaved(lax, dirs, runId, r.value)
    {
      hide RunSucceeded, TokenFree, AsPosix, LoadReportFrom, ItemOf, IsoFormat, FileTells, TellsSummary, DecodeSummary,
           Shows, FileOf, SaysWhatIsSaved;
      r := LoadReportFrom(lax, dirs, runId);
      LoadedTells(lax, dirs, runId);
      assert Kept(runId);
    }

    /**
     * Each readable summary under its own name is listed exactly once, newest first, whatever order
     * the directory is read in and whatever else it contains.  In particular every finished run is
     * listed, and of two of them the one finished later comes first.
     */
    method ListSavedRuns() returns (listed: seq<ListItem>)
      requires Valid()
      ensures IsListing(lax, dirs, listed)
      ensures forall id :: id in Last ==> exists item :: item in listed && item.runId == id
      ensures forall x, y :: x in Last && y in Last && !NotLater(Last[x].at, Last[y].at) ==>
        exists i, j :: 0 <= i < j < |listed| && listed[i].runId == x && listed[j].runId == y
    {
      hide ItemFor, ListedSummary, IsRunId, NotBelow, FinishesWell, ComesBefore, ItemOf;
      var found: seq<ListItem> := [];
      var names := dirs.Keys;
      while names != {}
        invariant names <= dirs.Keys
        invariant forall item :: item in found <==>
          exists name :: name in dirs && name !in names && ItemOf(lax, dirs, name) == Some(item)
        invariant forall i :: 0 <= i < |found| ==> found[i].runId !in names
        invariant DistinctRuns(found)
        decreases names
      {
        var name :| name in names;
        names := names - {name};
        var item := ItemOf(lax, dirs, name);
        ItemCarriesItsName(lax, dirs, name);
        if item.Some? {
          found := found + [item.value];
        }
      }
      NotBelowIsPreorder();
      Sorting.SortCorrect(found, NotBelow);
      listed := Sorting.Sort(found, NotBelow);
      SameItems(found, listed);
      forall i, j | 0 <= i < j < |listed| ensures ComesBefore(listed[i], listed[j]) {
        NotBelowComesBefore(listed[i], listed[j]);
      }
      FinishedAreListed(listed);
    }

    lemma FinishedAreListed(listed: seq<ListItem>)
      requires Valid() && IsListing(lax, dirs, listed)
      ensures forall id :: id in Last ==> exists item :: item in listed && item.runId == id
      ensures forall x, y :: x in Last && y in Last && !NotLater(Last[x].at, Last[y].at) ==>
        exists i, j :: 0 <= i < j < |listed| && listed[i].runId == x && listed[j].runId == y
    {
      hide FinishesWell, ItemOf, IsoFormat, ComesBefore, Fair, IsInstant, NotLater;
      forall id | id in Last ensures exists item :: item in listed && item.runId == id {
        assert Kept(id);
        FinishedIsThere(lax, dirs, runs[id], id, root, Last[id]);
        ItemCarriesItsName(lax, dirs, id);
        assert ItemOf(lax, dirs, id).value in listed;
      }
      forall x, y | x in Last && y in Last && !NotLater(Last[x].at, Last[y].at)
        ensures exists i, j :: 0 <= i < j < |listed| && listed[i].runId == x && listed[j].runId == y
      {
        assert Kept(x) && Kept(y);
        FinishedIsThere(lax, dirs, runs[x], x, root, Last[x]);
        FinishedIsThere(lax, dirs, runs[y], y, root, Last[y]);
        ItemCarriesItsName(lax, dirs, x);
        ItemCarriesItsName(lax, dirs, y);
        ListedNewestFirst(lax, dirs, listed, x, y, Last[x].at, Last[y].at);
      }
    }
  }

  lemma ItemCarriesItsName(l: Leniency, dirs: map<string, Entry>, name: string)
    ensures var item := ItemOf(l, dirs, name); item.Some? ==> item.value.runId == name
  {
  }

  /** The report says what the file of the run says. */
  ghost predicate SaysWhatIsSaved(l: Leniency, dirs: map<string, Entry>, runId: string, r: Report) {
    var file := FileOf(dirs, runId);
    && file.Some? && file.value.Holds? && DecodeSummary(l, file.value.value).Some?
    && TellsSummary(r, DecodeSummary(l, file.value.value).value)
  }

  lemma LoadedTells(l: Leniency, dirs: map<string, Entry>, runId: string)
    ensures var r := LoadReportFrom(l, dirs, runId);
            r.Ok? ==> r.value.runId == runId && SaysWhatIsSaved(l, dirs, runId, r.value)
  {
    hide TellsSummary, DecodeSummary, BuildReport, IsRunId, BlockedSecretScan, EncodeReport;
    if LoadReportFrom(l, dirs, runId).Ok? {
      var s := DecodeSummary(l, FileOf(dirs, runId).value.value).value;
      BuiltReportTells(s);
      BuiltReportKeeps(s);
    }
  }

  lemma BuiltReportKeeps(s: Summary)
    ensures var report := BuildReport(s);
            report.runId == s.runId && report.status == s.status && report.readiness == DeriveReadiness(s)
  {
  }

  ghost predicate DistinctRuns(xs: seq<ListItem>) {
    forall i, j :: 0 <= i < j < |xs| ==> xs[i].runId != xs[j].runId
  }

  lemma {:induction false} ListedOnce(xs: seq<ListItem>, item: ListItem)
    requires DistinctRuns(xs)
    ensures multiset(xs)[item] <= 1
  {
    if xs != [] {
      var init, last := xs[..|xs| - 1], xs[|xs| - 1];
      assert xs == init + [last];
      ListedOnce(init, item);
      assert last !in init;
    }
  }

  lemma SameItems(xs: seq<ListItem>, ys: seq<ListItem>)
    requires multiset(xs) == multiset(ys) && DistinctRuns(xs)
    ensures forall item :: item in xs <==> item in ys
    ensures DistinctRuns(ys)
  {
    forall item ensures item in xs <==> item in ys {
      assert item in xs <==> item in multiset(xs);
      assert item in ys <==> item in multiset(ys);
    }
    forall i, j | 0 <= i < j < |ys| ensures ys[i].runId != ys[j].runId {
      if ys[i] == ys[j] {
        assert ys == ys[..j] + [ys[j]] + ys[j + 1..];
        assert ys[i] in ys[..j];
        ListedOnce(xs, ys[i]);
      } else {
        assert ys[i] in xs && ys[j] in xs;
      }
    }
  }
}
