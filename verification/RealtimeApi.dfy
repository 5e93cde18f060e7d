/** The three handlers of the realtime API that change state, each an atomic step. */
module RealtimeApi {
  import opened Common
  import opened Contracts
  import opened SessionStore
  import opened ToolRouter
  import opened VoiceEvents
  import EventFiles
  import EventLog
  import JsonValues
  import Redaction
  import Text

  /** Everything the handlers share; the logs are the events handed to the two repositories, before they are written. */
  datatype AppState = AppState(
    sessions: Sessions, log: seq<VoiceEvent>, transcripts: seq<TranscriptEvent>, counters: map<string, nat>)

  const INITIAL := AppState(map[], [], [], map[])

  // ---------------------------------------------------------------- requests

  /** Who asks for a client secret, and under which settings. */
  datatype Caller = Caller(provider: Option<Provider>, devEnabled: bool, originAllowed: bool, host: string, limit: nat)

  /** What the provider client does; an expiry that cannot be parsed counts as none. */
  datatype Grant = NotBuilt | Denied | Granted(provider: Provider, expiresAt: Option<Expiry>)

  /** The fresh id of an event, and the clock when it is logged. */
  datatype Stamp = Stamp(eventId: string, timestamp: string)

  datatype Input =
    | ClientSecret(sessionId: string, callId: string, merchantId: string, caller: Caller, grant: Grant,
                   token: string, now: Time, stamp: Stamp)
    | Ingest(authorization: Option<string>, payload: JsonValues.Json, lax: JsonValues.Leniency, mode: LoggingMode,
             now: Time, stamp: Stamp, textTimestamp: string)
    | ToolCall(authorization: Option<string>, request: ToolRequest, adapters: Adapters, now: Time, stamp: Stamp)

  datatype Reply =
    | Rejected(code: nat)
    | SecretIssued(provider: Provider, token: string)
    | EventAccepted(eventId: string, redactionApplied: bool)
    | ToolAnswered(response: ToolResponse)

  datatype Stepped = Stepped(state: AppState, reply: Reply)

  /** `_extract_bearer_token`; `None` stands for the 401 answers. */
  function BearerToken(authorization: Option<string>): Option<string> {
    if authorization.None? || authorization.value == "" then None
    else
      var (scheme, token) := Partition(authorization.value);
      if Text.Lower(scheme) != "bearer" || token == "" then None else Some(token)
  }

  /** `s.partition(" ")`, without the separator. */
  function Partition(s: string): (string, string) {
    if s == "" then ("", "")
    else if s[0] == ' ' then ("", s[1..])
    else var (a, b) := Partition(s[1..]); ([s[0]] + a, b)
  }

  /** A token comes from a header of the form `bearer <token>`, in any case, and from no other. */
  lemma BearerMeaning(header: string, token: string)
    ensures BearerToken(None).None?
    ensures BearerToken(Some(header)) == Some(token) <==>
            token != "" && exists scheme :: header == scheme + " " + token && Text.Lower(scheme) == "bearer"
  {
    var (scheme, rest) := Partition(header);
    PartitionSplits(header);
    if BearerToken(Some(header)) == Some(token) {
      assert header == scheme + " " + token;
    }
    if other :| header == other + " " + token && Text.Lower(other) == "bearer" {
      forall i | 0 <= i < |other| ensures other[i] != ' ' { assert Text.Lower(other)[i] == "bearer"[i]; }
      PartitionAt(other, token);
    }
  }

  lemma {:induction false} PartitionSplits(s: string)
    ensures var (a, b) := Partition(s); s == a + " " + b || (s == a && b == "")
  {
    if s != "" && s[0] != ' ' { PartitionSplits(s[1..]); }
  }

  lemma {:induction false} PartitionAt(a: string, b: string)
    requires ' ' !in a
    ensures Partition(a + " " + b) == (a, b)
  {
    var s := a + " " + b;
    if a == "" {
      assert s[1..] == b;
    } else {
      assert s[1..] == a[1..] + " " + b && s[0] == a[0] && a[0] in a;
      PartitionAt(a[1..], b);
      assert [a[0]] + a[1..] == a;
    }
  }

  // ---------------------------------------------------------------- client secrets

  function CountOf(counters: map<string, nat>, host: string): nat {
    if host in counters then counters[host] else 0
  }

  datatype GateResult = Admitted(counters: map<string, nat>) | TurnedAway(code: nat)

  /** `_enforce_real_provider_dev_gate` */
  function Gate(counters: map<string, nat>, provider: Provider, c: Caller): GateResult {
    if provider == Mock then Admitted(counters)
    else if !c.devEnabled then TurnedAway(403)
    else if !c.originAllowed then TurnedAway(403)
    else if CountOf(counters, c.host) >= c.limit then TurnedAway(429)
    else Admitted(counters[c.host := CountOf(counters, c.host) + 1])
  }

  function CreationEvent(i: Input, provider: Provider): VoiceEvent
    requires i.ClientSecret?
  {
    VoiceEvent(
      i.stamp.eventId, i.stamp.timestamp, i.sessionId, i.callId, i.merchantId, Idle, SessionCreated,
      None, None, None, Some("Realtime session created."), None, None, provider, None, None, None, false)
  }

  function ExpiryOf(grant: Grant, now: Time): Expiry
    requires grant.Granted?
  {
    if grant.expiresAt.Some? then grant.expiresAt.value else Expires(now + DEFAULT_TOOL_CALL_TOKEN_TTL)
  }

  function StepClientSecret(st: AppState, i: Input): Stepped
    requires i.ClientSecret?
  {
    if i.sessionId == "" || i.callId == "" || i.merchantId == "" then Stepped(st, Rejected(422))
    else if i.caller.provider.None? then Stepped(st, Rejected(500))
    else
      var gate := Gate(st.counters, i.caller.provider.value, i.caller);
      if gate.TurnedAway? then Stepped(st, Rejected(gate.code))
      else
        var counted := st.(counters := gate.counters);
        match i.grant
        case NotBuilt => Stepped(counted, Rejected(500))
        case Denied => Stepped(counted, Rejected(503))
        case Granted(provider, _) =>
          var op := Create(i.sessionId, i.callId, i.merchantId, provider, i.token, ExpiryOf(i.grant, i.now));
          Stepped(
            counted.(sessions := Apply(st.sessions, op), log := st.log + [CreationEvent(i, provider)]),
            SecretIssued(provider, i.token))
  }

  // ---------------------------------------------------------------- ingested events

  function RedactedOption(o: Option<string>): Option<string> {
    if o.Some? then Some(Redaction.RedactText(o.value)) else None
  }

  predicate AnyRedaction(r: IngestRequest) {
    (r.text.Some? && Redaction.RedactionApplied(r.text.value)) ||
    (r.safeSummary.Some? && Redaction.RedactionApplied(r.safeSummary.value))
  }

  function IngestEvent(r: IngestRequest, mode: LoggingMode, stamp: Stamp): VoiceEvent {
    var structuredText := if mode != Off then RedactedOption(r.text) else None;
    VoiceEvent(
      stamp.eventId, stamp.timestamp, r.sessionId, r.callId, r.merchantId, r.state, Ingested(r.eventType),
      if r.speaker == Some(User) then structuredText else None,
      if r.speaker == Some(Assistant) then structuredText else None,
      r.toolName, RedactedOption(r.safeSummary), None, r.latencyMs, r.provider, r.providerEventType, r.providerCallId,
      r.toolStatus, AnyRedaction(r))
  }

  /** The entry has the id of its event, and a timestamp of its own. */
  function TranscriptOf(r: IngestRequest, stamp: Stamp): TranscriptEvent
    requires r.text.Some? && r.speaker.Some?
  {
    TranscriptEvent(
      stamp.eventId, stamp.timestamp, r.sessionId, r.callId, r.merchantId, r.speaker.value, r.turnId, r.sequence,
      Redaction.RedactText(r.text.value), r.provider, r.providerEventType, AnyRedaction(r))
  }

  /** The text is kept in the session. */
  predicate KeepsText(r: IngestRequest, mode: LoggingMode) { r.text.Some? && r.speaker.Some? && mode != Off }

  /** The text is written to the transcript log too. */
  predicate LogsTranscript(r: IngestRequest, mode: LoggingMode) {
    r.text.Some? && r.speaker.Some? && mode == Transcript && IsDoneEvent(r.eventType)
  }

  function SessionsWithText(m: Sessions, r: IngestRequest, mode: LoggingMode): Sessions {
    if KeepsText(r, mode)
    then Apply(m, AppendTranscript(r.sessionId, r.speaker.value, Redaction.RedactText(r.text.value)))
    else m
  }

  function SessionsAfterIngest(m: Sessions, r: IngestRequest, mode: LoggingMode): Sessions {
    Apply(SessionsWithText(m, r, mode), UpdateState(r.sessionId, r.state))
  }

  /** The request that the payload makes, if it makes one. */
  function Parsed(i: Input): Option<IngestRequest>
    requires i.Ingest?
  {
    if i.payload.JObj? then ParseIngest(i.lax, i.payload.fields) else None
  }

  /** Why an event is refused, if it is; 500 stands for an exception that leaves the handler. */
  function IngestRefusal(m: Sessions, i: Input): Option<nat>
    requires i.Ingest?
  {
    var token := BearerToken(i.authorization);
    if !i.payload.JObj? then Some(422)
    else if token.None? then Some(401)
    else if EventLog.BlockedPaths(i.payload, "") != [] then Some(422)
    else if Parsed(i).None? then Some(422)
    else
      var r := Parsed(i).value;
      if r.sessionId !in m then Some(403)
      else
        match BindingVerdict(m[r.sessionId], token.value, r.callId, r.merchantId, r.provider, i.now)
        case Accepted => None
        case Refused => Some(403)
        case Incomparable => Some(500)
  }

  lemma AcceptedIngest(m: Sessions, i: Input)
    requires i.Ingest?
    ensures IngestRefusal(m, i).None? ==>
      && Parsed(i).Some?
      && var r := Parsed(i).value;
      && r.sessionId in m && MeetsContract(r)
      && m[r.sessionId].callId == r.callId && m[r.sessionId].merchantId == r.merchantId
      && m[r.sessionId].provider == r.provider
  {
    hide WellTyped, MeetsContract;
  }

  function AfterEvent(st: AppState, r: IngestRequest, mode: LoggingMode, stamp: Stamp, textTimestamp: string)
    : AppState
  {
    st.(sessions := SessionsAfterIngest(st.sessions, r, mode),
        log := st.log + [IngestEvent(r, mode, stamp)],
        transcripts := st.transcripts +
          if LogsTranscript(r, mode) then [TranscriptOf(r, stamp.(timestamp := textTimestamp))] else [])
  }

  function StepIngest(st: AppState, i: Input): Stepped
    requires i.Ingest?
  {
    var refusal := IngestRefusal(st.sessions, i);
    if refusal.Some? then Stepped(st, Rejected(refusal.value))
    else
      var r := Parsed(i).value;
      Stepped(AfterEvent(st, r, i.mode, i.stamp, i.textTimestamp), EventAccepted(i.stamp.eventId, AnyRedaction(r)))
  }

  // ---------------------------------------------------------------- tool calls

  function ToolStatusText(s: ToolStatus): string {
    match s
    case Completed => "completed"
    case Failed => "failed"
    case HandoffRequired => "handoff_required"
  }

  /** The summary is logged as it was answered. */
  function ToolEvent(request: ToolRequest, response: ToolResponse, provider: Provider, stamp: Stamp): VoiceEvent {
    VoiceEvent(
      stamp.eventId, stamp.timestamp, request.sessionId, request.callId, request.merchantId,
      if response.handoffRequired then HandoffPending else ToolCalling, ToolCalled, None, None,
      Some(request.toolName), Some(response.safeSummary), Some(response.handoffReason), None, provider, None, None,
      Some(ToolStatusText(response.status)), false)
  }

  function RefusalCode(e: RouterError): nat {
    match e
    case UnknownRealtimeTool => 400
    case InvalidToolArguments => 422
    case InvalidToolCallToken => 403
    case TokenIncomparable => 500
  }

  /** The call is logged and kept in its session. */
  function AfterToolCall(st: AppState, q: ToolRequest, response: ToolResponse, provider: Provider, stamp: Stamp)
    : AppState
  {
    st.(sessions := Apply(st.sessions, AppendToolCall(q.sessionId, q.toolName, response.safeSummary)),
        log := st.log + [ToolEvent(q, response, provider, stamp)])
  }

  function StepToolCall(st: AppState, i: Input): Stepped
    requires i.ToolCall?
  {
    var q := i.request;
    var token := BearerToken(i.authorization);
    if q.sessionId == "" || q.callId == "" || q.merchantId == "" || q.toolName == "" then Stepped(st, Rejected(422))
    else if token.None? then Stepped(st, Rejected(401))
    else if q.sessionId !in st.sessions then Stepped(st, Rejected(403))
    else
      var provider := st.sessions[q.sessionId].provider;
      var e := Execution(st.sessions, q, token.value, provider, i.now, i.adapters);
      if e.Err? then Stepped(st, Rejected(RefusalCode(e.error)))
      else
        var response := e.value.response;
        Stepped(AfterToolCall(st.(sessions := AfterRouting(st.sessions, e.value)), q, response, provider, i.stamp),
                ToolAnswered(response))
  }

  function Step(st: AppState, i: Input): Stepped {
    match i
    case ClientSecret(_, _, _, _, _, _, _, _) => StepClientSecret(st, i)
    case Ingest(_, _, _, _, _, _, _) => StepIngest(st, i)
    case ToolCall(_, _, _, _, _) => StepToolCall(st, i)
  }

  lemma IngestStep(st: AppState, i: Input)
    requires i.Ingest?
    ensures var refusal := IngestRefusal(st.sessions, i);
            Step(st, i) ==
              if refusal.Some? then Stepped(st, Rejected(refusal.value))
              else
                var r := Parsed(i).value;
                Stepped(AfterEvent(st, r, i.mode, i.stamp, i.textTimestamp),
                        EventAccepted(i.stamp.eventId, AnyRedaction(r)))
  {
  }

  /** The state after a sequence of requests. */
  function Run(inputs: seq<Input>): AppState {
    if inputs == [] then INITIAL else Step(Run(inputs[..|inputs| - 1]), inputs[|inputs| - 1]).state
  }

  // ---------------------------------------------------------------- what the files hold

  /**
   * A line of the event log: it tells all of its event, redacted, and nowhere in it is there a blocked
   * key or a match of a pattern other than the phone one.
   */
  ghost predicate SafeLine(line: JsonValues.Json, e: VoiceEvent) {
    && Reports(line, Dump(e), e.redactionApplied)
    && !EventLog.HasBlockedKey(line) && EventFiles.AllTexts(line, Redaction.CleanText)
  }

  ghost predicate SafeTranscriptLine(line: JsonValues.Json, t: TranscriptEvent) {
    Reports(line, DumpTranscript(t), t.redactionApplied) && EventFiles.AllTexts(line, Redaction.CleanText)
  }

  lemma LineIsWritten(e: VoiceEvent)
    ensures Line(e) == EventFiles.LineOf(EventFiles.RedactMapping(None, EventLog.SanitizeFields(Dump(e))))
  {
  }

  lemma TranscriptLineIsWritten(t: TranscriptEvent)
    ensures TranscriptLine(t) == EventFiles.LineOf(EventFiles.RedactMapping(None, DumpTranscript(t)))
  {
  }

  // ---------------------------------------------------------------- the application object

  /** The application with its default repositories. */
  class RealtimeApp {
    const store: InMemoryVoiceSessionStore
    const router: RealtimeToolRouter
    const eventRepository: EventFiles.JsonlVoiceEventRepository
    const transcriptRepository: EventFiles.JsonlRealtimeTranscriptRepository
    var rateLimits: map<string, nat>
    /** The events handed to the repositories. */
    ghost var Log: seq<VoiceEvent>
    ghost var Transcripts: seq<TranscriptEvent>
    /** Every request handled so far. */
    ghost var Handled: seq<Input>

    ghost predicate Valid()
      reads this, store, store.sessions.Values, eventRepository, transcriptRepository
    {
      store.Valid() && router.store == store && Written() && View() == Run(Handled)
    }

    /** The files hold a line for each event, in order. */
    ghost predicate Written()
      reads this, eventRepository, transcriptRepository
    {
      && eventRepository.redactor.None? && transcriptRepository.redactor.None?
      && eventRepository.lines == Lines(Log) && transcriptRepository.lines == TranscriptLines(Transcripts)
    }

    ghost function View(): AppState
      reads this, store, store.sessions.Values
    {
      AppState(store.View(), Log, Transcripts, rateLimits)
    }

    constructor ()
      ensures Valid() && fresh(store) && fresh(eventRepository) && fresh(transcriptRepository)
      ensures View() == INITIAL && Handled == []
    {
      var sessionStore := new InMemoryVoiceSessionStore();
      var toolRouter := new RealtimeToolRouter(sessionStore);
      var events := new EventFiles.JsonlVoiceEventRepository(None);
      var texts := new EventFiles.JsonlRealtimeTranscriptRepository(None);
      store, router, eventRepository, transcriptRepository := sessionStore, toolRouter, events, texts;
      rateLimits, Log, Transcripts, Handled := map[], [], [], [];
    }

    /** Every line of the two files is safe, and tells of the event it was written for. */
    lemma FilesAreSafe()
      requires Valid()
      ensures var log := Run(Handled).log;
              && |eventRepository.lines| == |log|
              && forall n :: 0 <= n < |log| ==> SafeLine(eventRepository.lines[n], log[n])
      ensures var texts := Run(Handled).transcripts;
              && |transcriptRepository.lines| == |texts|
              && forall n :: 0 <= n < |texts| ==> SafeTranscriptLine(transcriptRepository.lines[n], texts[n])
    {
      hide Run, Line, TranscriptLine, Dump, DumpTranscript, Reports, EventLog.HasBlockedKey, EventFiles.AllTexts,
           Replay;
      forall n | 0 <= n < |Log| ensures SafeLine(Line(Log[n]), Log[n]) { WrittenLineIsSafe(Log[n]); }
      forall n | 0 <= n < |Transcripts| ensures SafeTranscriptLine(TranscriptLine(Transcripts[n]), Transcripts[n]) {
        WrittenTranscriptIsSafe(Transcripts[n]);
      }
    }

    /** Writes an event. */
    method AppendEvent(e: VoiceEvent)
      requires Written()
      modifies this`Log, eventRepository
      ensures Written() && Log == old(Log) + [e]
    {
      hide Line;
      DumpShape(e);
      eventRepository.Append(Dump(e));
      LineIsWritten(e);
      Log := Log + [e];
    }

    method AppendTranscriptEvent(t: TranscriptEvent)
      requires Written()
      modifies this`Transcripts, transcriptRepository
      ensures Written() && Transcripts == old(Transcripts) + [t]
    {
      hide TranscriptLine;
      TranscriptDumpShape(t);
      transcriptRepository.Append(DumpTranscript(t));
      TranscriptLineIsWritten(t);
      Transcripts := Transcripts + [t];
    }

    /** Records a request that has been handled. */
    ghost method Record(i: Input)
      requires store.Valid() && router.store == store && Written() && View() == Step(Run(Handled), i).state
      modifies this`Handled
      ensures Valid() && Handled == old(Handled) + [i]
    {
      Handled := Handled + [i];
      assert Handled[..|Handled| - 1] == old(Handled);
    }

    method CreateRealtimeClientSecret(i: Input) returns (reply: Reply)
      requires Valid() && i.ClientSecret?
      modifies this, store, eventRepository
      ensures Valid() && Handled == old(Handled) + [i]
      ensures fresh(store.sessions.Values - old(store.sessions.Values))
      ensures reply == Step(old(View()), i).reply && View() == Step(old(View()), i).state
    {
      hide Run, StepToolCall, StepIngest, CreationEvent, Replay, Lines, TranscriptLines, Apply;
      if i.sessionId == "" || i.callId == "" || i.merchantId == "" {
        Record(i);
        return Rejected(422);
      }
      if i.caller.provider.None? {
        Record(i);
        return Rejected(500);
      }
      var gate := EnforceRealProviderDevGate(i.caller.provider.value, i.caller);
      if gate.Some? {
        Record(i);
        return Rejected(gate.value);
      }
      match i.grant {
        case NotBuilt =>
          Record(i);
          return Rejected(500);
        case Denied =>
          Record(i);
          return Rejected(503);
        case Granted(provider, expiresAt) =>
          var created, token :=
            store.CreateSession(i.sessionId, i.callId, i.merchantId, provider, expiresAt, i.now, i.token);
          AppendEvent(CreationEvent(i, provider));
          Record(i);
          return SecretIssued(provider, token);
      }
    }

    method EnforceRealProviderDevGate(provider: Provider, c: Caller) returns (denied: Option<nat>)
      modifies this`rateLimits
      ensures var gate := Gate(old(rateLimits), provider, c);
              match gate
              case Admitted(counters) => denied == None && rateLimits == counters
              case TurnedAway(code) => denied == Some(code) && rateLimits == old(rateLimits)
    {
      if provider == Mock { return None; }
      if !c.devEnabled { return Some(403); }
      if !c.originAllowed { return Some(403); }
      var currentCount := if c.host in rateLimits then rateLimits[c.host] else 0;
      if currentCount >= c.limit { return Some(429); }
      rateLimits := rateLimits[c.host := currentCount + 1];
      return None;
    }

    method RefuseIngest(i: Input) returns (refusal: Option<nat>)
      requires Valid() && i.Ingest?
      ensures refusal == IngestRefusal(store.View(), i)
    {
      hide Run, ParseIngest, EventLog.BlockedPaths, BearerToken;
      if !i.payload.JObj? { return Some(422); }
      var token := BearerToken(i.authorization);
      if token.None? { return Some(401); }
      var blockedKeys := EventLog.FindBlockedEventKeys(i.payload, "");
      EventLog.FoundIffBlocked(i.payload, "");
      if blockedKeys != [] { return Some(422); }
      var parsed := ParseIngest(i.lax, i.payload.fields);
      if parsed.None? { return Some(422); }
      var r := parsed.value;
      var bound := store.VerifySessionTokenBinding(r.sessionId, token.value, r.callId, r.merchantId, r.provider, i.now);
      if bound == Err(IncomparableTimes) { return Some(500); }
      if bound.Err? || !bound.value { return Some(403); }
      return None;
    }

    method IngestRealtimeEvent(i: Input) returns (reply: Reply)
      requires Valid() && i.Ingest?
      modifies this, store`History, store.sessions.Values, eventRepository, transcriptRepository
      ensures Valid() && Handled == old(Handled) + [i] && store.sessions == old(store.sessions)
      ensures reply == Step(old(View()), i).reply && View() == Step(old(View()), i).state
    {
      hide Run, IngestRefusal, AnyRedaction, AfterEvent, Step, Replay, Lines, TranscriptLines, Parsed, MeetsContract,
           BearerToken, EventLog.BlockedPaths, BindingVerdict;
      IngestStep(View(), i);
      var refusal := RefuseIngest(i);
      if refusal.Some? {
        Record(i);
        return Rejected(refusal.value);
      }
      AcceptedIngest(store.View(), i);
      var request := Parsed(i).value;
      AcceptEvent(request, i.mode, i.stamp, i.textTimestamp);
      Record(i);
      return EventAccepted(i.stamp.eventId, AnyRedaction(request));
    }

    /** The part of the handler that runs once the event is accepted. */
    method AcceptEvent(r: IngestRequest, mode: LoggingMode, stamp: Stamp, textTimestamp: string)
      requires store.Valid() && Written() && r.sessionId in store.sessions
      modifies this`Log, this`Transcripts, eventRepository, transcriptRepository, store`History,
               store.sessions[r.sessionId]
      ensures store.Valid() && Written()
      ensures View() == AfterEvent(old(View()), r, mode, stamp, textTimestamp)
    {
      hide AnyRedaction, IngestEvent, TranscriptOf, SessionsWithText, Apply, Lines, TranscriptLines, Replay;
      AppendEvent(IngestEvent(r, mode, stamp));
      KeepText(r, mode);
      if LogsTranscript(r, mode) {
        AppendTranscriptEvent(TranscriptOf(r, stamp.(timestamp := textTimestamp)));
      }
      var updated := store.SetState(r.sessionId, r.state);
    }

    method KeepText(r: IngestRequest, mode: LoggingMode)
      requires store.Valid() && r.sessionId in store.sessions
      modifies store`History, store.sessions[r.sessionId]
      ensures store.Valid()
      ensures store.View() == SessionsWithText(old(store.View()), r, mode)
    {
      hide Redaction.RedactText;
      if KeepsText(r, mode) {
        var kept := store.AddTranscript(r.sessionId, r.speaker.value, Redaction.RedactText(r.text.value));
      }
    }

    method ExecuteRealtimeToolCall(i: Input) returns (reply: Reply)
      requires Valid() && i.ToolCall?
      modifies this, store`History, store.sessions.Values, eventRepository
      ensures Valid() && Handled == old(Handled) + [i] && store.sessions == old(store.sessions)
      ensures reply == Step(old(View()), i).reply && View() == Step(old(View()), i).state
      ensures reply.ToolAnswered? ==> Coherent(reply.response)
    {
      hide Run, BearerToken, Execution, AfterToolCall, RefusalCode, StepClientSecret, StepIngest, Coherent, Replay,
           Lines, TranscriptLines, AfterRouting, Apply;
      var q := i.request;
      var token := BearerToken(i.authorization);
      if q.sessionId == "" || q.callId == "" || q.merchantId == "" || q.toolName == "" {
        Record(i);
        return Rejected(422);
      }
      if token.None? {
        Record(i);
        return Rejected(401);
      }
      var session := store.GetSession(q.sessionId);
      if session.Err? {
        Record(i);
        return Rejected(403);
      }
      var provider := session.value.provider;
      var executed := router.Execute(q, token.value, provider, i.now, i.adapters);
      if executed.Err? {
        Record(i);
        return Rejected(RefusalCode(executed.error));
      }
      var response := executed.value;
      KeepToolCall(q, response, provider, i.stamp);
      Record(i);
      return ToolAnswered(response);
    }

    method KeepToolCall(q: ToolRequest, response: ToolResponse, provider: Provider, stamp: Stamp)
      requires store.Valid() && Written() && q.sessionId in store.sessions
      modifies this`Log, eventRepository, store`History, store.sessions[q.sessionId]
      ensures store.Valid() && Written()
      ensures View() == AfterToolCall(old(View()), q, response, provider, stamp)
    {
      hide Lines, TranscriptLines, Replay;
      AppendEvent(ToolEvent(q, response, provider, stamp));
      var appended := store.AddToolCall(q.sessionId, q.toolName, response.safeSummary);
    }
  }
}
