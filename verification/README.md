# VoiceAgents realtime: a verified model

VoiceAgents serves customer-support calls over realtime voice providers. This project models the part of
its backend that keeps state and promises safety, and proves what that part promises:

* **Sessions, tokens and logs.** A client asks for a secret, which creates a session and a token bound to a
  call, a merchant and a provider. With the token it sends normalised events and tool calls. Each handler is
  one atomic step on the session store, the event log, the transcript log and the rate counters. The store
  and the application are classes (`InMemoryVoiceSessionStore`, `RealtimeToolRouter`, `RealtimeApp`) that
  carry ghost histories; the theorems in `RealtimeRuns`, `RealtimeTraces`,
  `RealtimeAnswers` and `RealtimeLines` are about every run of requests.
* **Redaction and blocked keys.** Text passes through six regular expressions in a fixed order. `Regex`
  models the engine (leftmost match, greedy backtracking) against a declarative language. `SensitiveItems`
  says by characters and positions what an email, a phone number or a key is, `Patterns` that the six
  expressions match just that, and the theorems of `Redaction` are about these items. `EventLog` lifts redaction and blocked-key
  removal to JSON trees, and `BlockedTokens` models the scrubbing and scanning of saved validation data.
* **Validation runs.** `ValidationRunRepository` starts, finishes, lists and loads runs over a map of saved
  entries. What is proved reaches from the raw finish request to the report that is served later.
* **The DashScope proxy.** Message envelopes, provider events, and the relay loop between them.

The files, lowest first: `Common`, `Text` (with `Sorting`), `Json`, `Regex`, `SensitiveItems`, `Patterns`,
`Greedy`, `Redaction`, `RedactionMeaning`, `PhoneResidue`, `PhoneExamples`, `EventLog`, `EventFiles`,
`BlockedTokens`, `Seams`; `Contracts`, `VoiceEvents`, `SessionStore`, `ToolRouter`, `RealtimeApi`,
`RealtimeRuns`, `DashScope`, `RealtimeTraces`, `RealtimeAnswers`, `RealtimeLines`, `RealtimeExamples`; `RunIds`,
`Validation`, `ValidationOutcome`, `RunMeaning`, `ValidationReport`, `ReportMeaning`, `ReportSafety`,
`ReportRedaction`, `SummaryFile`, `ValidationRuns`.
`dafny verify dfyconfig.toml` checks them all.

Clock readings, fresh tokens and ids, the settings in force, and the answers of adapters and providers are
inputs of each step. Code that fills dictionaries and lists in loops, or updates objects, is written that way
here and proved equal to a specification function; recursion and branching stay functions.

Where the code is not what one may expect, there is an input that shows it and a theorem that says when:

* `redact_text` is not idempotent, and it can leave a phone number (`PhoneExamples`). The phone pattern wants
  no word character before the number, and a replacement can take one away when the phone pass has gone by:
  one of the order, key, token and JWT passes, or the phone pass itself at the end of another number. No other
  pattern leaves a residue (`Redaction.NoResidue`). `PhoneResidue.PhoneLeftIff` and `PhoneResidue.StableIff`
  give the exact condition on the input; that no sensitive item runs straight on into a phone number
  (`PhoneResidue.NothingRunsOn`), or just that no phone number is glued to a word
  (`PhoneResidue.NothingGlued`), is enough and can be looked for beforehand.
* The summary of a `handoff_to_human` call is handed to the event repository, and kept in its session, as the
  client worded it (`RealtimeTraces.ToolSummaryIsKept`, `RealtimeExamples.UncleanSummaryIsKept`). It is the
  default repository that redacts it, as it does whatever it writes (`RealtimeApi.RealtimeApp.FilesAreSafe`).
* When the adapter accepts a handoff but its reply has no usable mode, the session is marked while the call is
  answered and logged as failed (`RealtimeTraces.AcceptedHandoff`, `RealtimeExamples.FailedHandoffIsMarked`).
* The state `ended` revokes nothing: only `ended_at` does, which no handler sets
  (`RealtimeTraces.IngestedStateRevokesNothing`, `RealtimeTraces.TokenVerdictOfARun`,
  `RealtimeExamples.EndedSessionKeepsItsToken`).
* A provider expiry without a time zone makes every later check of the session's token raise
  (`RealtimeAnswers.IngestAnswers`, `RealtimeAnswers.ToolCallAnswers`, `RealtimeExamples.ZonelessSecretRaises`).
* A token in the path of the root directory makes every run fail its scan, though its report still loads
  (`ValidationOutcome.FinishPassesIff`, `ValidationRuns.TaintedRootFailsEveryRun`,
  `ValidationRuns.GoodRunFailsUnderSdp`).
* Not every run that is listed loads (`ValidationRuns.ListedAndNotLoaded`). A file that someone else wrote is
  listed without a `finished_at`, even above all runs with one (`ValidationRuns.FallbackComesFirst`), but its
  summary counts as malformed when it is loaded; and it is listed although a text that its report quotes
  mentions a token, for which the report is withheld. There is no third way: `ValidationRuns.ListedLoadsIff` and
  `ValidationRuns.LoadsIff` say exactly which runs load.

## Model

| member | source | states |
|---|---|---|
| Regex.EngineIsLang | voiceagents/realtime/redaction.py:26-41 | the ends the backtracking engine tries for a pattern are exactly the ends its declarative meaning allows |
| Regex.SearchIsLeftmost | voiceagents/realtime/redaction.py:43-49 | a search finds a match of the pattern, and none starts earlier |
| Regex.Transfer | voiceagents/realtime/redaction.py:26-41 | a match depends only on its window and on the word boundaries at the window's two ends |
| Regex.Locate | voiceagents/realtime/redaction.py:43-49 | every bracket-free window of a pass's output lies inside a placeholder, or is copied from between two matches with no new boundary |
| Regex.Kept | voiceagents/realtime/redaction.py:43-49 | an untouched window of the input is in the output, shifted by the growth of the replacements before it, with its boundaries but for a match that ends right before it |
| Regex.SubLeavesNoMatch | voiceagents/realtime/redaction.py:43-49 | one substitution pass with a bracketed placeholder leaves no match of its own pattern |
| Regex.SubCreatesNoMatch | voiceagents/realtime/redaction.py:43-49 | a pass of another pattern cannot create a match that was not there |
| Regex.SubBrackets | voiceagents/realtime/redaction.py:43-53 | a pass never loses an opening bracket and keeps their number only if it found nothing |
| Patterns.ItemIsMatch | voiceagents/realtime/redaction.py:26-41 | each of the six patterns matches a stretch of text exactly if it is an email, a phone number, an order number, a key, a bearer token or a JWT, as `SensitiveItems` defines these by characters and positions alone |
| Greedy.SearchIsLeftmostLongest | voiceagents/realtime/redaction.py:26-49 | what a pass takes next starts at the leftmost item and ends at the farthest end of an item that starts there, although the engine tries the alternatives and repetitions of a pattern one by one |
| RedactionMeaning.PassMeaning | voiceagents/realtime/redaction.py:43-49 | a pass puts the mark of its kind in place of the leftmost longest item, of the next one behind it, and so on, and leaves the rest as it is |
| RedactionMeaning.RedactionMeans | voiceagents/realtime/redaction.py:43-53 | the redacted text is the one text that comes of doing so for emails, phone numbers, order numbers, keys, bearer tokens and JWTs, in this order |
| Redaction.NoResidue | voiceagents/realtime/redaction.py:26-53 | after all six passes there is no email, order number, API key, bearer token or JWT anywhere in any text |
| Redaction.UnchangedIffNothingMatches | voiceagents/realtime/redaction.py:43-53 | redaction leaves a text unchanged exactly when there is none of the six kinds of items in it |
| Redaction.ChangedIffItem | voiceagents/realtime/redaction.py:50-53 | the redaction flag is true exactly when some stretch of the text is one of the six kinds of items |
| Redaction.SecondRedaction | voiceagents/realtime/redaction.py:43-53 | redacting redacted text changes nothing if and only if no phone number shows in it |
| Redaction.RedactNonempty | voiceagents/realtime/contracts.py:277-277 | redaction never empties a text, so the transcript model's minimum length always holds |
| PhoneResidue.ShowsIffComesThrough | voiceagents/realtime/redaction.py:43-49 | pass by pass: a phone number shows in the end exactly when the input has a phone window that no pass touches and that is exposed from the start, or freed by a match that ends right before it |
| PhoneResidue.PhoneLeftIff | voiceagents/realtime/redaction.py:26-53 | after all six passes no phone number is left if and only if the input has no untouched phone window, glued to a word, that a match of the phone pass or a later one frees |
| PhoneResidue.StableIff | voiceagents/realtime/redaction.py:43-53 | redacting twice equals redacting once if and only if the input has no such window |
| PhoneResidue.NothingRunsOn | voiceagents/realtime/redaction.py:26-53 | if no phone number, order number, key, bearer token or JWT of the input runs straight on into a phone number, nothing at all is left and redaction is stable |
| PhoneResidue.NothingGlued | voiceagents/realtime/redaction.py:26-53 | the same if no phone number of the input is glued to a word before it |
| PhoneExamples.SecondPhoneSurvives | voiceagents/realtime/redaction.py:27-29 | of two international phone numbers run together the second survives the first redaction and not the second |
| PhoneExamples.PhoneSurvives | voiceagents/realtime/redaction.py:27-33 | an order number run up against an international phone number: the phone number survives the first redaction and not the second |
| PhoneExamples.RedactionIsNotIdempotent | voiceagents/realtime/redaction.py:43-53 | two texts that a second redaction changes, one by the phone pass alone and one across two passes |
| EventLog.FindBlockedEventKeys | voiceagents/realtime/event_log.py:115-131 | sorting at every level yields one global sort of all blocked key paths in document order, none lost or doubled, also below blocked keys |
| EventLog.PathsFindBlockedKeys | voiceagents/realtime/event_log.py:115-131 | the path list is empty exactly when no blocked key occurs at any depth |
| EventLog.FoundIffBlocked | voiceagents/realtime/event_log.py:115-131 | the sorted result is empty exactly when the unsorted path list is |
| EventLog.ListedIffBlocked | voiceagents/realtime/event_log.py:115-131 | a path is listed exactly if it spells out, with dots and bracketed indices, where a blocked key stands |
| EventLog.BlockedKeyMeaning | voiceagents/realtime/event_log.py:10-19 | a key is blocked exactly if it is one of the seven words, in any case, with a dash or an underscore where the word has an underscore |
| EventLog.SanitizeMapping | voiceagents/realtime/event_log.py:105-112 | the loop that fills a new dictionary drops exactly the blocked members and keeps the others in order |
| EventLog.FindAfterSanitize | voiceagents/realtime/event_log.py:105-139 | nothing blocked is found in a sanitised value |
| EventLog.SanitizeIdentityIffNothingFound | voiceagents/realtime/event_log.py:105-139 | sanitising changes a value exactly when something blocked is found in it |
| EventLog.SanitizeIdempotent | voiceagents/realtime/event_log.py:105-139 | sanitising twice is sanitising once |
| EventLog.RedactValue | voiceagents/realtime/redaction.py:62-85 | the recursive loops redact every string leaf, and their flag is true exactly when the output differs from the input |
| EventLog.RedactionKeepsShape | voiceagents/realtime/redaction.py:62-85 | a redacted tree has the same paths, keys, lengths and non-string leaves, and each string is the redacted string at that path |
| EventLog.SanitizeCommutesWithRedact | voiceagents/realtime/event_log.py:60-68 | sanitising and redacting commute |
| Seams.Joint | voiceagents/realtime/redaction.py:26-41 | two texts without an email, order number, key, bearer token or JWT make none when joined, if the last visible character before the joint or the first one after it is a hash, a bar or a colon |
| Seams.NewLine | voiceagents/realtime/redaction.py:35-38 | nor when joined by a line break, if the first text lacks the word bearer, the only one whose match can span lines |
| EventFiles.SortKeysKeepsKeys | voiceagents/realtime/event_log.py:73-75 | sorting members at every depth neither adds nor loses a key |
| EventFiles.SortKeysKeepsTexts | voiceagents/realtime/event_log.py:73-75 | nor does it add or lose a text |
| EventFiles.SortKeysOrders | voiceagents/realtime/event_log.py:73-75 | and the members of every object, at every depth, stand in the order of their keys |
| EventFiles.LineTextsAreClean | voiceagents/realtime/event_log.py:60-75 | whatever is written under the default redactor, no text of the line at any depth matches a pattern other than the phone one |
| EventFiles.JsonlVoiceEventRepository.Append | voiceagents/realtime/event_log.py:51-75 | exactly one line is appended: the sanitised dump as the given redactor, or else the default one, redacts it, with its flag and its members sorted at every depth |
| EventFiles.JsonlRealtimeTranscriptRepository.Append | voiceagents/realtime/event_log.py:79-102 | exactly one line is appended: the redacted dump with its flag and its members sorted at every depth, under a given redactor or the default one |
| EventFiles.LoggedLineIsSafe | voiceagents/realtime/event_log.py:60-75 | under the default redactor a line has no blocked key and none of the five patterns at any depth, an honest flag, and every other allowed member, sanitised and redacted |
| VoiceEvents.WrittenLineIsSafe | voiceagents/realtime/contracts.py:307-328 | the line of any event keeps all its nineteen members, each text redacted, with an honest flag, and holds no blocked key and none of the five patterns |
| VoiceEvents.WrittenTranscriptIsSafe | voiceagents/realtime/contracts.py:265-280 | so does the line of any transcript entry |
| VoiceEvents.SummaryIsWrittenRedacted | voiceagents/realtime/event_log.py:60-75 | the tool result summary is written redacted, as every other text is |
| BlockedTokens.RedactionKeepsTokenFree | voiceagents/realtime/validation.py:710-710 | redacting a token-free text again, as the report does with the notes, creates no token |
| BlockedTokens.JoinTokenFree | voiceagents/realtime/validation.py:711-744 | joining token-free texts where one side shows no letter or underscore creates no token |
| BlockedTokens.MentionIsMatch | voiceagents/realtime/validation.py:649-653 | the case-insensitive token search finds exactly what the escaped pattern matches |
| BlockedTokens.TokenFreeMeaning | voiceagents/realtime/validation.py:34-55 | a text is free of tokens exactly if none of the blocked words, audio and arguments apart, stands anywhere in it, in any case |
| BlockedTokens.ReportKeyMeaning | voiceagents/realtime/validation.py:34-50 | what is blocked in reports is what is blocked in events, and four words more |
| BlockedTokens.ScrubString | voiceagents/realtime/validation.py:648-663 | the scrubbing loop after the early return changes nothing: the result is the whole-text replacement or the text itself |
| BlockedTokens.ScrubbedTextIsTokenFree | voiceagents/realtime/validation.py:648-663 | scrubbed text mentions no blocked token, in any case |
| BlockedTokens.ScanIsOneTest | voiceagents/realtime/validation.py:680-702 | the two-part secret scan equals the negation of its second part, since every event key is a report key |
| BlockedTokens.ScrubDefeatsScan | voiceagents/realtime/validation.py:648-702 | a scrubbed tree passes the scan exactly when no member name at any depth is blocked |
| Validation.ScrubValidationChecks | voiceagents/realtime/validation.py:671-677 | the loop redacts and scrubs each detail and nothing else |
| Validation.CleanRequestIsCleanDump | voiceagents/realtime/validation.py:642-645 | cleaning the dumped request tree is cleaning the request field by field |
| Validation.StripMeaning | voiceagents/realtime/validation.py:414-414 | stripping takes white space away at both ends and nothing else |
| Validation.StripVisible | voiceagents/realtime/validation.py:424-450 | stripped text is non-empty exactly when some character is not white space |
| RunMeaning.CleanMeaning | voiceagents/realtime/validation.py:642-668 | a text is saved redacted, or as a mark if the redacted text mentions a token; it is saved as it is exactly if it holds no item and no token |
| RunMeaning.SortedSetMeaning | voiceagents/realtime/validation.py:429-431 | the lists in the tools detail are the sets of the expected and the observed tools, each tool once, in order |
| RunMeaning.ReprMeaning | voiceagents/realtime/validation.py:431-431 | a quoted tool name reads back as it was, in double quotes exactly if it has single quotes and no double ones |
| ValidationOutcome.ScanOfSummary | voiceagents/realtime/validation.py:540-540 | the scan of a dumped summary passes exactly when each of its texts, paths included, is token-free |
| ValidationOutcome.NineChecks | voiceagents/realtime/validation.py:402-479 | the first nine checks pass exactly when the raw request shows a successful run of the scenario |
| ValidationOutcome.SavedPassIff | voiceagents/realtime/validation.py:541-553 | all saved checks pass exactly when the nine do on the raw request and the scan does |
| ValidationOutcome.PathsAreTokenFree | voiceagents/realtime/validation.py:516-530 | the saved paths are token-free exactly when the root's path is |
| ValidationOutcome.FinishPassesIff | voiceagents/realtime/validation.py:506-554 | whatever the request, the saved summary passes the scan iff the root path is clean, and its status is pass iff moreover the raw request shows a successful run |
| ValidationOutcome.SavedKeepsTheRequest | voiceagents/realtime/validation.py:519-539 | every member of the raw request's dump but the session state is in the saved summary under its own name, redacted and scrubbed |
| RunMeaning.FinishedTells | voiceagents/realtime/validation.py:506-567 | what finish saves, from the start of the run and the raw request alone: ids, both times, both paths, every member of the request cleaned, and each of the ten checks with its name, its outcome and its detail |
| ValidationReport.ReadinessOfFinished | voiceagents/realtime/validation.py:272-285 | a finished run is ready for pilot iff it passed, and blocked iff a provider event holds an error marker or the root path a token |
| ValidationReport.RenderedReportIsTokenFree | voiceagents/realtime/validation.py:705-744 | the text of the rendered report holds no blocked token, not even across the joints of its pieces |
| ReportMeaning.RenderedReportShows | voiceagents/realtime/validation.py:705-744 | the rendered text shows ids, status and both times under their labels, a row for every check, each manual answer, the redacted notes, and both saved texts under their headings |
| ReportMeaning.WarningsMeaning | voiceagents/realtime/validation.py:293-294 | the warnings are the failed checks, one for one and in order, each with its name and detail: none missed, and none of a check that passed |
| ReportMeaning.PassedAndWarned | voiceagents/realtime/validation.py:293-347 | passed checks and warnings add up to the checks, and there are no warnings exactly if every check passed |
| ReportMeaning.BuiltReportTells | voiceagents/realtime/validation.py:288-395 | all that a report says of a summary: decision, next action, coverage, evidence by the last check of each name, sections with counts and latencies, copy text, checks and warnings |
| ValidationReport.ScanOfReport | voiceagents/realtime/validation.py:361-362 | a built report is withheld exactly when one of its texts mentions a token |
| ReportSafety.BuiltReportIsServed | voiceagents/realtime/validation.py:288-363 | the fixed wording adds no token: a report over clean contents is never withheld |
| ReportSafety.BuiltReportIsServedIff | voiceagents/realtime/validation.py:288-363 | a report is served exactly if run id, scenario id, checks and handoff reason of its summary mention no token, so nothing it quotes escapes the scan |
| ReportRedaction.FinishedContentsAreClean | voiceagents/realtime/validation.py:506-554 | whatever the request, no text that finish saves, the two paths apart, matches a pattern other than the phone one |
| ReportRedaction.RenderedReportIsClean | voiceagents/realtime/validation.py:705-744 | nor does the whole text of the rendered report, not even where its pieces meet |
| RunIds.RunIdMeaning | voiceagents/realtime/validation.py:18-18 | a run id is vrun, eight digits, six digits and eight hexadecimal digits in lower case, with dashes between them, and nothing else is |
| RunIds.NewRunIdMatches | voiceagents/realtime/validation.py:637-639 | every minted id matches the run-id pattern |
| RunIds.RunIdsSortByTime | voiceagents/realtime/validation.py:637-639 | ids minted in different seconds sort as their instants do, whatever their random parts |
| RunIds.TimestampsSortByTime | voiceagents/realtime/validation.py:521-521 | ISO timestamps sort by time to the microsecond, although the fraction is left out when zero |
| RunIds.RunIdReads | voiceagents/realtime/validation.py:637-639 | a run id can be read back to the second at which it was minted |
| RunIds.TimestampReads | voiceagents/realtime/validation.py:521-521 | a timestamp can be read back to the microsecond, in UTC |
| RunIds.RunDirIsChildOfRoot | voiceagents/realtime/validation.py:619-626 | a matching id is one path component, so the run directory is a child of the root; any other id is refused |
| RunIds.PosixIsJoin | voiceagents/realtime/validation.py:500-501 | a path is written as its names below the root of the file system, with slashes |
| ValidationRuns.ValidationRunRepository.StartRun | voiceagents/realtime/validation.py:487-504 | fails exactly on an unknown scenario or an existing directory, changing nothing; otherwise adds one directory and one started run |
| SummaryFile.DecodeIgnoresOrder | voiceagents/realtime/validation.py:556-559 | what a saved summary validates to does not depend on the order of members at any depth |
| SummaryFile.SavedIsReadBack | voiceagents/realtime/validation.py:556-612 | the written text of a summary validates, and to that very summary, iff the summary is within its minimum lengths |
| SummaryFile.DecodedIsValid | voiceagents/realtime/validation.py:182-199 | whatever JSON validates gives a summary within the minimum lengths |
| SummaryFile.DecodeMeaning | voiceagents/realtime/validation.py:146-199 | a saved file is read as a summary exactly if it has the members of the summary and no others, at every depth, whoever wrote it, and no text is too short; only a manual answer may be left out, and then counts as no |
| ValidationRuns.ValidationRunRepository.FinishRun | voiceagents/realtime/validation.py:506-567 | writes the run's own two files and nothing else; the written JSON validates to a summary that tells the run as it was started and finished (`RunMeaning.FinishedTells`), report.md shows it, the run is listed with both times, and its report loads at once and says what the file says, without warnings iff it passed; the answer has status, paths and checks of the file; the status is pass iff the raw request succeeded under a clean root; the report text is token-free and, like every saved text but the paths, holds no item but phone numbers |
| ValidationRuns.ValidationRunRepository.LoadReport | voiceagents/realtime/validation.py:605-617 | a report that loads says what the saved file says, whoever saved it (`ReportMeaning.BuiltReportTells`); after any later operations a finished run still loads, as it was started and last finished |
| ValidationRuns.LoadAnswers | voiceagents/realtime/validation.py:605-626 | each of the five refusals, and success, by what stands in the directory of that name |
| ValidationRuns.ListedTells | voiceagents/realtime/validation.py:569-602 | a listed item has the ids, status, times and readiness of its file, and the name of a known scenario |
| ValidationRuns.ValidationRunRepository.ListSavedRuns | voiceagents/realtime/validation.py:569-603 | lists each valid summary under its own name exactly once, in descending finished-at and run-id order, in whatever order the directory is read; every finished run is listed, and of two the one finished later comes first |
| ValidationRuns.FinishedLoads | voiceagents/realtime/validation.py:506-617 | what finish saves is read back as it was, matches its directory, is listed, and its report is not withheld |
| ValidationRuns.LoadedIsListed | voiceagents/realtime/validation.py:569-617 | over any JSON files, every run that loads is listed with the same status and readiness, though listing and loading read the file differently |
| ValidationRuns.ListedLoadsIff | voiceagents/realtime/validation.py:569-617 | a listed run loads iff its file names a finish time and nothing its report quotes mentions a token; else its summary is malformed, or its report is withheld |
| ValidationRuns.LoadsIff | voiceagents/realtime/validation.py:569-617 | over any JSON files, a run loads iff it is listed, its file names a finish time, and nothing its report quotes mentions a token |
| ValidationRuns.ListedUnderItsName | voiceagents/realtime/validation.py:581-603 | a file without a finish time is listed exactly if it validates with its directory's name in its place, under that name, and never loads |
| ValidationRuns.UnfinishedIsListed | voiceagents/realtime/validation.py:581-612 | any summary that would validate with a finish time is listed without one, and its loading fails as malformed |
| ValidationRuns.TokenIsListed | voiceagents/realtime/validation.py:361-362 | any valid summary that quotes a token is listed, and its report is withheld |
| ValidationRuns.ListedAndNotLoaded | voiceagents/realtime/validation.py:569-617 | a file of each kind: one without a finish time and one whose handoff reason is a token, both listed and not loaded |
| ValidationRuns.ListedNewestFirst | voiceagents/realtime/validation.py:603-603 | in any listing, of two runs with timestamps the later one stands at an earlier position |
| ValidationRuns.FallbackNewestFirst | voiceagents/realtime/validation.py:584-603 | in any listing, runs without a finish time stand in order of their start, newest first |
| ValidationRuns.FallbackComesFirst | voiceagents/realtime/validation.py:581-603 | and before every run with a timestamp |
| ValidationRuns.TaintedRootFailsEveryRun | voiceagents/realtime/validation.py:540-554 | under a root whose path mentions a token every run fails, is listed as failed and is served as blocked |
| ValidationRuns.GoodRunFailsUnderSdp | voiceagents/realtime/validation.py:540-554 | a successful request for any scenario fails under a root called sdp, and its report loads |
| Contracts.ContractMeaning | voiceagents/realtime/contracts.py:165-254 | a request meets the contract exactly when no given text is empty, no number is negative, transcript fields are on transcript events, by the speaker their name says, and all tool fields on tool events and on no others |
| Contracts.DumpIsParsed | voiceagents/realtime/contracts.py:165-254 | the dump of a request is parsed back to it exactly if it meets the contract, and refused otherwise, whatever conversion of other numbers is in force; no two names of an enumeration are alike |
| Contracts.ParseMeaning | voiceagents/realtime/contracts.py:165-254 | a payload is parsed to a request exactly if each member says so, a number in whatever way is read as that number, there is no member beside, and the request meets the contract |
| Contracts.WordsMeaning | voiceagents/realtime/contracts.py:10-59 | the words that are read for a provider, a state, an event type, a speaker and a handoff reason |
| VoiceEvents.IngestHasNoBlockedKey | voiceagents/realtime/event_log.py:9-19 | no member of an ingest request is a blocked key, however it is filled |
| SessionStore.VerdictIsHistory | voiceagents/realtime/session_store.py:56-164 | a token is accepted iff the latest creation of the session issued it with that binding, it has not expired, and the session was not ended since; the check raises iff that creation gave an expiry without a zone |
| SessionStore.RecordIsHistory | voiceagents/realtime/session_store.py:56-164 | state, handoff and end of a session are what the last operation with a say in each of them left |
| SessionStore.InMemoryVoiceSessionStore.CreateSession | voiceagents/realtime/session_store.py:56-81 | replaces the session by a fresh idle one with the given or default expiry |
| SessionStore.InMemoryVoiceSessionStore.VerifySessionTokenBinding | voiceagents/realtime/session_store.py:106-123 | answers true exactly when the history issued the token for that binding, and raises exactly for a missing session or an expiry without a zone |
| SessionStore.InMemoryVoiceSessionStore.VerifyToolCallToken | voiceagents/realtime/session_store.py:92-104 | checks end, expiry and digest of the session as it is, in this order, or raises |
| SessionStore.InMemoryVoiceSessionStore.SetState | voiceagents/realtime/session_store.py:125-128 | changes the state of that session alone, or raises |
| SessionStore.InMemoryVoiceSessionStore.AddTranscript | voiceagents/realtime/session_store.py:130-133 | appends one transcript entry to that session alone, or raises |
| SessionStore.InMemoryVoiceSessionStore.AddToolCall | voiceagents/realtime/session_store.py:135-143 | appends one tool call to that session alone, or raises |
| SessionStore.InMemoryVoiceSessionStore.RecordHandoff | voiceagents/realtime/session_store.py:145-154 | sets state, reason and id of that session together, or raises |
| SessionStore.InMemoryVoiceSessionStore.EndSession | voiceagents/realtime/session_store.py:156-164 | ends that session at the given time or now, or raises |
| ToolRouter.RoutingIsTotalAndCoherent | voiceagents/realtime/tool_router.py:125-295 | whatever the adapters do, the answer is coherent: not ok implies handoff, handoff iff not completed, an error message iff not ok, a system error when the adapter is missing, raises or replies without a usable mode, a reason iff handoff except that handoff_to_human passes its own on; the session is marked iff the adapter accepted |
| ToolRouter.AnswersTellTheReply | voiceagents/realtime/tool_router.py:125-295 | an answer has the success, the words, the error code and each result member of the adapter's reply; a lookup is handed over iff the reply is not ok, knowledge iff handoff was recommended or the reply is not ok, a handoff always; without a usable reply it is the fixed system error |
| ToolRouter.OneQuestionIsAsked | voiceagents/realtime/tool_router.py:147-250 | what comes of a call depends on the adapters only through their answer to one question: the order id, or the query in the given locale or else en-US, or the handoff, of the merchant and call of the request |
| ToolRouter.ArgumentsMeaning | voiceagents/realtime/tool_router.py:34-65 | arguments are read exactly if they are those of the tool, each once, in any order, non-empty where they must be, and with nothing beside them |
| ToolRouter.HandoffArgumentsNeedTheTool | voiceagents/realtime/tool_router.py:60-113 | only handoff_to_human validates handoff arguments |
| ToolRouter.RealtimeToolRouter.ValidateRequest | voiceagents/realtime/tool_router.py:84-106 | unknown tools are refused first, then calls whose token or binding was not issued; a token without a comparable expiry raises |
| ToolRouter.RealtimeToolRouter.HandoffToHuman | voiceagents/realtime/tool_router.py:199-236 | marks the session exactly when the adapter accepts the handoff, even if no answer can be built from its reply |
| ToolRouter.RealtimeToolRouter.Execute | voiceagents/realtime/tool_router.py:115-137 | returns a coherent answer, one of the three refusals or the exception of the token check, and touches only the session of the request |
| RealtimeApi.RealtimeApp.EnforceRealProviderDevGate | voiceagents/api/app.py:491-518 | counts a request exactly when it is admitted for a real provider |
| RealtimeApi.RealtimeApp.CreateRealtimeClientSecret | voiceagents/api/app.py:177-223 | refines the client-secret step of the run model, and writes its line |
| RealtimeApi.RealtimeApp.IngestRealtimeEvent | voiceagents/api/app.py:225-332 | refines the ingest step of the run model, from the payload to the written lines, under any conversion of numbers |
| RealtimeApi.RealtimeApp.ExecuteRealtimeToolCall | voiceagents/api/app.py:334-417 | refines the tool-call step of the run model, with a coherent answer, and writes its line |
| RealtimeApi.RealtimeApp.FilesAreSafe | voiceagents/api/app.py:100-101 | after any requests the two files hold one line for each logged event and transcript entry, in order, each of them safe and telling all of its event |
| RealtimeLines.IngestIsTold | voiceagents/api/app.py:258-332 | from the payload to the logged event, member by member: ids, names and codes are carried over, texts by speaker and the summary are redacted, and the flag of the event and of the answer is true iff the raw text or the raw summary holds an item |
| RealtimeLines.TranscriptIsTold | voiceagents/api/app.py:304-326 | a finished utterance is written to the transcript log under transcript mode, with the members and the flag of its payload, and nothing else is |
| RealtimeLines.CreationIsTold | voiceagents/api/app.py:190-223 | a secret that is given is answered with the token, and logged as the creation of its session, member by member |
| RealtimeLines.ToolCallIsTold | voiceagents/api/app.py:385-417 | an answered tool call is logged as it was answered, member by member, with handoff_pending iff a handoff is required |
| RealtimeLines.ToolCallTellsTheReply | voiceagents/api/app.py:334-417 | and it is answered with what the adapter replied to the spelled-out arguments, or with the system error |
| RealtimeRuns.EveryRunKeepsInv | voiceagents/api/app.py:177-417 | after every run, each session agrees with the log since its creation and each event carries its session's latest binding |
| RealtimeTraces.StoreAgreesWithLog | voiceagents/api/app.py:190-222 | in every reachable state a session's tool calls, transcripts and state are what its logged events say, under any mix of logging modes |
| RealtimeTraces.EveryEventCarriesTheLatestBinding | voiceagents/api/app.py:244-256 | every logged event has the call, merchant and provider of the latest preceding creation of its session |
| RealtimeTraces.HandoffsAreLogged | voiceagents/api/app.py:385-411 | handoff reason and id are set together, and only after a logged handoff_to_human call with that reason, or one logged as failed |
| RealtimeTraces.AcceptedHandoff | voiceagents/realtime/tool_router.py:199-236 | an accepted handoff marks the session with the client's reason, and is logged with it iff the reply has a usable mode or the reason was a tool error |
| RealtimeExamples.FailedHandoffIsMarked | voiceagents/realtime/tool_router.py:219-229 | a run whose session is marked for handoff while its log says that a tool failed |
| RealtimeTraces.OneEventOrNoChange | voiceagents/api/app.py:177-417 | a refused request changes nothing but its host's counter; any other appends exactly one event, its own |
| RealtimeApi.BearerMeaning | voiceagents/api/app.py:590-596 | a header yields a token exactly when it reads bearer, in any case, a space and that non-empty token |
| RealtimeAnswers.IngestAnswers | voiceagents/api/app.py:225-256 | after any run a payload is accepted iff no blocked key occurs in it at any depth, it parses to a request that meets the contract, and its header brings a token given for that binding and still good; it is answered 401, 422, 403 or raises exactly in the stated other cases |
| RealtimeAnswers.SentEventAcceptedIff | voiceagents/api/app.py:225-256 | the dump of a request is accepted iff the request meets the contract and brings a good token |
| RealtimeAnswers.ToolCallAnswers | voiceagents/api/app.py:334-383 | after any run a tool call is executed iff the tool is known, its arguments validate, and its header brings a token given for its binding and still good; it is answered 401, 400, 422, 403 or raises exactly in the stated other cases |
| RealtimeAnswers.OnlyTheBoundMerchantIsAskedFor | voiceagents/realtime/tool_router.py:139-250 | adapters are asked only about the call and the merchant that the token was given for: any others that answer that one question alike lead to the same answer and state |
| RealtimeAnswers.ClientSecretAnswers | voiceagents/api/app.py:177-196 | after any run a secret is given iff ids and provider are there, the gate and the rate limit let the host through, and the provider grants it; each refusal has its own cause |
| RealtimeAnswers.FreshTokenIsGood | voiceagents/realtime/session_store.py:56-123 | from then on that token and no other is good for that binding: as long as the provider said, ten minutes if it did not say, and never without a zone |
| RealtimeExamples.ZonelessSecretRaises | voiceagents/api/app.py:613-620 | a run in which the very token that was issued makes the next event end in an exception |
| RealtimeTraces.IngestedStateRevokesNothing | voiceagents/api/app.py:327-327 | an accepted event puts the session in its state and changes no verdict on any token |
| RealtimeExamples.EndedSessionKeepsItsToken | voiceagents/api/app.py:327-327 | after a secret and a session.ended event the state is ended and the token is still good |
| RealtimeTraces.LoggedTextsAreClean | voiceagents/api/app.py:260-297 | whatever clients send, no user or assistant text of an event handed to the log, and no summary of an ingested one, matches a pattern other than the phone one |
| RealtimeTraces.ToolSummaryIsKept | voiceagents/api/app.py:385-416 | an answered tool call hands its summary unredacted to the log and keeps it in its session; for a handoff it is the client's own, and clean iff that was |
| RealtimeExamples.HandoffSummaryIsKept | voiceagents/api/app.py:385-416 | for any summary there is a run that keeps it word for word in the session, and writes it redacted |
| RealtimeExamples.UncleanSummaryIsKept | voiceagents/api/app.py:402-402 | a run that keeps an order number in the session and hands it to the log |
| RealtimeTraces.SessionTextsAreClean | voiceagents/api/app.py:298-303 | nor does any transcript text kept in a session |
| RealtimeTraces.TranscriptTextsAreClean | voiceagents/api/app.py:304-326 | nor does any text of the transcript log |
| RealtimeTraces.PicksAreExact | voiceagents/api/app.py:304-309 | the picked positions are the done-events under transcript mode, strictly increasing, none missed |
| RealtimeTraces.TranscriptLogIsASubsequence | voiceagents/api/app.py:258-326 | the transcript log goes one for one, in order, with those events, with equal ids, bindings and texts |
| RealtimeTraces.CounterIsAdmissions | voiceagents/api/app.py:513-518 | a host's counter is the number of its admitted requests, and bounds the sessions it was given |
| RealtimeTraces.RateLimitIsExact | voiceagents/api/app.py:513-518 | under a fixed limit a host has the smaller of its eligible requests and the limit admitted |
| RealtimeTraces.SessionsComeFromSecrets | voiceagents/api/app.py:177-223 | after any run a session exists iff a secret was given for it, and has the binding, digest and expiry of the latest |
| RealtimeTraces.TokenVerdictOfARun | voiceagents/api/app.py:190-256 | after any run a token is good iff the latest secret given for the session is that token, for that binding, and is not expired; no verdict can be given iff its expiry has no zone |
| RealtimeTraces.SupportedEventsMeetTheContract | voiceagents/api/app.py:469-474 | in every reachable state the proxy's supported events satisfy the ingest contract and the event model never raises |
| RealtimeTraces.RelayedIffSupported | voiceagents/api/app.py:435-486 | under a reachable binding an exchange goes through iff its message is safe and upstream, if any, returns an object that is a supported event |
| RealtimeTraces.ConnectionIsCutAt | voiceagents/api/app.py:435-486 | a whole connection under reachable bindings is cut at that exchange, and ends with the client's disconnection iff there is none |
| DashScope.RejectsKeysAtAnyDepth | voiceagents/realtime/dashscope.py:259-267 | the recursive check raises exactly when a blocked key occurs at some depth |
| DashScope.ProxyKeyMeaning | voiceagents/realtime/dashscope.py:46-54 | a key is blocked exactly if it is one of the seven words, in any case |
| DashScope.EnvelopeMeaning | voiceagents/realtime/dashscope.py:243-256 | a message passes iff it has exactly a known type and an object payload, in either order, and no blocked key at any depth; both are passed on unchanged; the check ends in another exception iff the type is a list or an object |
| DashScope.TranscriptNamesArePrefixed | voiceagents/realtime/dashscope.py:22-43 | the provider's transcript event names are the contract's own names under a prefix, with the same speaker, and no other name maps to them |
| DashScope.NormalizedMeetsContract | voiceagents/realtime/dashscope.py:141-192 | a provider event is normalised iff it is supported and the ids are non-empty, and then meets the ingest contract with the session's binding |
| DashScope.NormalizedTells | voiceagents/realtime/dashscope.py:141-192 | the name, state and speaker of each of the seven provider events among ours, and its text if someone speaks |
| DashScope.RelayedMeaning | voiceagents/api/app.py:435-486 | for a session with ids an exchange goes through iff its message is safe and upstream, if any, returns an object that is a supported event |
| DashScope.CutIsFirstToFail | voiceagents/api/app.py:435-486 | under bindings with ids, the exchanges of a connection that go through are those before the first one with a bad envelope or, with an upstream, without a supported answer |
| DashScope.RelayMessages | voiceagents/api/app.py:435-486 | upstream gets exactly the messages before the first bad envelope, in order, once each, cut short only by an answer no event can be made of, and replies are ready, then an acceptance and an event for each, then at most one more |
| DashScope.RelayedIsTold | voiceagents/api/app.py:435-486 | for an exchange that goes through, upstream gets type and payload as they stand in the message, and the client the acceptance of that type and the event that the table gives for the answer |
| DashScope.ErrorComesLast | voiceagents/api/app.py:447-457 | the error reply is sent exactly when a bad envelope closes the connection, and is the last reply |
| DashScope.DashscopeRealtimeProxy | voiceagents/api/app.py:419-486 | the relay runs exactly when the history issued the token for some binding of a DashScope session; otherwise nothing is sent, and an expiry without a zone raises |

## Left out

- Redaction.NoResidue: excludes the phone pattern, of which a match can be left; `PhoneResidue.PhoneLeftIff` says exactly when.
- RunIds.RunIdsSortByTime: years 1000 to 9999 only, for which `%Y` writes four digits.
- Unicode: letters, digits, white space and case folding are those of ASCII, in the patterns, in key normalisation and in the token search; other characters are neither letters nor space.
- Hashing and randomness: SHA-256 is a free injective function of the token; tokens, ids and hexadecimal suffixes are inputs.
- Lenient parsing: which values besides a literal count as a flag or a number, of a request body or of a saved summary, belongs to the validation library; it is a parameter of the theorems (`Leniency`), the same for listing and loading.
- Client-secret requests: response mode, locale and safety subject.
- The wording of errors.
- JSON text: a file holds a value, or something that is not JSON; how a value is spelled is not modelled.
- File system: a map from directory names to entries, with no symbolic links and no failing reads or writes.
- Sub-strings of `repr`: escapes of unprintable characters in the tools detail.
- Interleaving: HTTP handlers are atomic; while a proxy connection is open, the binding that each upstream answer meets is an input.
- Client messages that are not JSON, and the closing codes and reasons of the WebSocket.
- `normalize_dashscope_tool_call` and `build_dashscope_tool_result_event`: flat builders with no caller in the handlers.
- Provider clients, adapters, origin checks and environment settings: how they answer is an input of a step.
- Diagnostics, call evaluation, the agent service of simulated calls, pages and scripts: they keep no sessions, logs or saved runs.
