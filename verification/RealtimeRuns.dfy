/** What every run of the realtime API keeps, told from its logs. */
module RealtimeRuns {
  import opened Common
  import opened Contracts
  import opened SessionStore
  import opened ToolRouter
  import opened VoiceEvents
  import opened RealtimeApi
  import Redaction

  // ---------------------------------------------------------------- reading the event log

  predicate Creates(e: VoiceEvent, id: string) { e.sessionId == id && e.kind == SessionCreated }

  /** The position of the latest creation of `id`, or -1. */
  function LatestCreation(log: seq<VoiceEvent>, id: string): (k: int)
    ensures -1 <= k < |log|
    ensures k >= 0 ==> Creates(log[k], id)
    ensures forall n :: k < n < |log| ==> !Creates(log[n], id)
  {
    if log == [] then -1
    else if Creates(log[|log| - 1], id) then |log| - 1
    else LatestCreation(log[..|log| - 1], id)
  }

  /** The events after the latest creation of `id`, of this session and of others. */
  function Since(log: seq<VoiceEvent>, id: string): seq<VoiceEvent> { log[LatestCreation(log, id) + 1..] }

  function ToolCallIn(e: VoiceEvent, id: string): seq<ToolCallEntry> {
    if e.sessionId == id && e.kind == ToolCalled && e.toolName.Some? && e.summary.Some?
    then [ToolCallEntry(e.toolName.value, e.summary.value)] else []
  }

  function TextIn(e: VoiceEvent, id: string): seq<TranscriptEntry> {
    if e.sessionId != id then []
    else if e.userText.Some? then [TranscriptEntry(User, e.userText.value)]
    else if e.assistantText.Some? then [TranscriptEntry(Assistant, e.assistantText.value)]
    else []
  }

  /** The tool calls of session `id` among `events`, in order. */
  function ToolCallsOf(events: seq<VoiceEvent>, id: string): seq<ToolCallEntry> {
    if events == [] then [] else ToolCallsOf(events[..|events| - 1], id) + ToolCallIn(events[|events| - 1], id)
  }

  /** The texts of session `id` that `events` carry, in order. */
  function TextsOf(events: seq<VoiceEvent>, id: string): seq<TranscriptEntry> {
    if events == [] then [] else TextsOf(events[..|events| - 1], id) + TextIn(events[|events| - 1], id)
  }

  /**
   * The state a session can be in after `events`: that of its last ingested event, or `HandoffPending`
   * after a handoff call; a new session is idle.
   */
  predicate StateFollows(events: seq<VoiceEvent>, id: string, state: SessionState) {
    if events == [] then state == Idle
    else
      var e := events[|events| - 1];
      if SetsState(e, id) then state == e.state
      else (IsHandoffCall(e, id) && state == HandoffPending) || StateFollows(events[..|events| - 1], id, state)
  }

  predicate SetsState(e: VoiceEvent, id: string) { e.sessionId == id && e.kind.Ingested? }

  /** A tool call that can have marked the session for handoff. */
  predicate IsHandoffCall(e: VoiceEvent, id: string) {
    e.sessionId == id && e.kind == ToolCalled && e.toolName == Some("handoff_to_human")
  }

  /** The call is logged with its reason, or as a failed one when no answer could be built from the reply. */
  predicate LogsReason(e: VoiceEvent, reason: Option<HandoffReason>) {
    (e.toolStatus == Some("handoff_required") && e.handoffReason == reason) ||
    (e.toolStatus == Some("failed") && e.handoffReason == Some(ToolFailure) && e.summary == Some(SYSTEM_ERROR_SUMMARY))
  }

  // ---------------------------------------------------------------- the invariant

  predicate SameBinding(a: VoiceEvent, b: VoiceEvent) {
    a.callId == b.callId && a.merchantId == b.merchantId && a.provider == b.provider
  }

  /** A session and the log tell the same story. */
  ghost predicate Agrees(log: seq<VoiceEvent>, id: string, s: SessionRecord) {
    var k := LatestCreation(log, id);
    var since := Since(log, id);
    && k >= 0 && log[k].callId == s.callId && log[k].merchantId == s.merchantId && log[k].provider == s.provider
    && id != "" && s.callId != "" && s.merchantId != ""
    && s.toolCalls == ToolCallsOf(since, id)
    && s.transcripts == TextsOf(since, id)
    && StateFollows(since, id, s.state)
    && (s.handoffReason.Some? <==> s.handoffId.Some?)
    && (s.handoffReason.Some? ==> HandoffLogged(since, id, s.handoffReason))
    && s.endedAt.None?
  }

  /** Event `n` carries the binding of the latest creation of its session up to then. */
  ghost predicate Bound(log: seq<VoiceEvent>, n: nat)
    requires n < |log|
  {
    var k := LatestCreation(log[..n + 1], log[n].sessionId);
    k >= 0 && SameBinding(log[k], log[n])
  }

  ghost predicate Inv(st: AppState) {
    && (forall id :: id in st.sessions ==> Agrees(st.log, id, st.sessions[id]))
    && (forall id :: id !in st.sessions ==> LatestCreation(st.log, id) == -1)
    && (forall n :: 0 <= n < |st.log| ==> Bound(st.log, n))
  }

  // ---------------------------------------------------------------- one more event

  lemma LatestCreationAppend(log: seq<VoiceEvent>, e: VoiceEvent, id: string)
    ensures LatestCreation(log + [e], id) == if Creates(e, id) then |log| else LatestCreation(log, id)
    ensures !Creates(e, id) ==> Since(log + [e], id) == Since(log, id) + [e]
    ensures Creates(e, id) ==> Since(log + [e], id) == []
  {
  }

  lemma ProjectionsAppend(events: seq<VoiceEvent>, e: VoiceEvent, id: string)
    ensures ToolCallsOf(events + [e], id) == ToolCallsOf(events, id) + ToolCallIn(e, id)
    ensures TextsOf(events + [e], id) == TextsOf(events, id) + TextIn(e, id)
  {
  }

  lemma StateFollowsAppend(events: seq<VoiceEvent>, e: VoiceEvent, id: string, state: SessionState)
    ensures StateFollows(events + [e], id, state) <==>
      if SetsState(e, id) then state == e.state
      else (IsHandoffCall(e, id) && state == HandoffPending) || StateFollows(events, id, state)
  {
  }

  ghost predicate HandoffLogged(since: seq<VoiceEvent>, id: string, reason: Option<HandoffReason>) {
    exists e :: e in since && IsHandoffCall(e, id) && LogsReason(e, reason)
  }

  lemma HandoffLoggedAppend(since: seq<VoiceEvent>, e: VoiceEvent, id: string, reason: Option<HandoffReason>)
    ensures HandoffLogged(since + [e], id, reason) <==>
            HandoffLogged(since, id, reason) || (IsHandoffCall(e, id) && LogsReason(e, reason))
  {
  }

  /** How one logged event may change the session it is of. */
  ghost predicate Explains(e: VoiceEvent, s: SessionRecord, s': SessionRecord) {
    var id := e.sessionId;
    && !Creates(e, id)
    && s'.callId == s.callId && s'.merchantId == s.merchantId && s'.provider == s.provider && s'.endedAt == s.endedAt
    && s'.toolCalls == s.toolCalls + ToolCallIn(e, id)
    && s'.transcripts == s.transcripts + TextIn(e, id)
    && (if SetsState(e, id) then s'.state == e.state
        else s'.state == s.state || (IsHandoffCall(e, id) && s'.state == HandoffPending))
    && ((s'.handoffReason == s.handoffReason && s'.handoffId == s.handoffId) ||
        (s'.handoffReason.Some? && s'.handoffId.Some? && IsHandoffCall(e, id) && LogsReason(e, s'.handoffReason)))
  }

  lemma AgreesAfterOwn(log: seq<VoiceEvent>, e: VoiceEvent, s: SessionRecord, s': SessionRecord)
    requires Agrees(log, e.sessionId, s) && Explains(e, s, s')
    ensures Agrees(log + [e], e.sessionId, s')
  {
    hide ToolCallsOf, TextsOf, StateFollows, ToolCallIn, TextIn, HandoffLogged, IsHandoffCall, LatestCreation, Since;
    var id := e.sessionId;
    LatestCreationAppend(log, e, id);
    ProjectionsAppend(Since(log, id), e, id);
    StateFollowsAppend(Since(log, id), e, id, s'.state);
    HandoffLoggedAppend(Since(log, id), e, id, s'.handoffReason);
    LatestInRange(log, e, id);
  }

  lemma LatestInRange(log: seq<VoiceEvent>, e: VoiceEvent, id: string)
    ensures var k := LatestCreation(log, id); k < |log| && (k >= 0 ==> (log + [e])[k] == log[k])
  {
  }

  /** An event of another session changes nothing for this one. */
  lemma AgreesAfterOther(log: seq<VoiceEvent>, e: VoiceEvent, id: string, s: SessionRecord)
    requires Agrees(log, id, s) && e.sessionId != id
    ensures Agrees(log + [e], id, s)
  {
    LatestCreationAppend(log, e, id);
    ProjectionsAppend(Since(log, id), e, id);
    StateFollowsAppend(Since(log, id), e, id, s.state);
    HandoffLoggedAppend(Since(log, id), e, id, s.handoffReason);
  }

  lemma BoundAfter(log: seq<VoiceEvent>, e: VoiceEvent)
    requires forall n :: 0 <= n < |log| ==> Bound(log, n)
    requires var k := LatestCreation(log + [e], e.sessionId); k >= 0 && SameBinding((log + [e])[k], e)
    ensures forall n :: 0 <= n < |log + [e]| ==> Bound(log + [e], n)
  {
    forall n | 0 <= n < |log + [e]|
      ensures Bound(log + [e], n)
    {
      if n < |log| {
        assert Bound(log, n);
        assert (log + [e])[..n + 1] == log[..n + 1];
      } else {
        assert (log + [e])[..n + 1] == log + [e];
      }
    }
  }

  /** The invariant, for a step that logs `e` and touches only its session. */
  lemma InvAfter(st: AppState, st': AppState, e: VoiceEvent, s: SessionRecord)
    requires Inv(st)
    requires st'.log == st.log + [e] && st'.sessions == st.sessions[e.sessionId := s]
    requires Agrees(st'.log, e.sessionId, s)
    requires e.callId == s.callId && e.merchantId == s.merchantId && e.provider == s.provider
    ensures Inv(st')
  {
    hide Agrees;
    forall id | id in st'.sessions
      ensures Agrees(st'.log, id, st'.sessions[id])
    {
      if id != e.sessionId { AgreesAfterOther(st.log, e, id, st.sessions[id]); }
    }
    forall id | id !in st'.sessions
      ensures LatestCreation(st'.log, id) == -1
    {
      LatestCreationAppend(st.log, e, id);
    }
    AgreesBinding(st'.log, e.sessionId, s);
    BoundAfter(st.log, e);
  }

  lemma AgreesBinding(log: seq<VoiceEvent>, id: string, s: SessionRecord)
    requires Agrees(log, id, s)
    ensures var k := LatestCreation(log, id);
            k >= 0 && log[k].callId == s.callId && log[k].merchantId == s.merchantId && log[k].provider == s.provider
  {
  }

  // ---------------------------------------------------------------- the three steps

  lemma CreationAgrees(log: seq<VoiceEvent>, e: VoiceEvent, s: SessionRecord)
    requires Creates(e, e.sessionId) && e.sessionId != "" && e.callId != "" && e.merchantId != ""
    requires s ==
      SessionRecord(e.callId, e.merchantId, e.provider, Idle, s.tokenHash, s.tokenExpiresAt, [], [], None, None, None)
    ensures Agrees(log + [e], e.sessionId, s)
  {
  }

  /** What a client-secret request does to sessions and log. */
  lemma CreationStep(st: AppState, i: Input)
    requires i.ClientSecret?
    ensures var stepped := Step(st, i);
            if stepped.reply.SecretIssued? then
              && i.grant.Granted? && i.sessionId != "" && i.callId != "" && i.merchantId != ""
              && stepped.reply == SecretIssued(i.grant.provider, i.token)
              && stepped.state.log == st.log + [CreationEvent(i, i.grant.provider)]
              && stepped.state.sessions == st.sessions[i.sessionId :=
                   NewRecord(i.callId, i.merchantId, i.grant.provider, i.token, ExpiryOf(i.grant, i.now))]
            else
              stepped.reply.Rejected? && stepped.state.log == st.log && stepped.state.sessions == st.sessions
    ensures Step(st, i).state.transcripts == st.transcripts
  {
  }

  lemma CreationKeepsInv(st: AppState, i: Input)
    requires Inv(st) && i.ClientSecret?
    ensures Inv(Step(st, i).state)
  {
    hide Step, Agrees;
    CreationStep(st, i);
    var stepped := Step(st, i);
    if stepped.reply.SecretIssued? {
      var e := CreationEvent(i, i.grant.provider);
      var s := NewRecord(i.callId, i.merchantId, i.grant.provider, i.token, ExpiryOf(i.grant, i.now));
      CreationAgrees(st.log, e, s);
      InvAfter(st, stepped.state, e, s);
    }
  }

  lemma IngestExplains(s: SessionRecord, r: IngestRequest, mode: LoggingMode, stamp: Stamp)
    ensures var m := SessionsAfterIngest(map[r.sessionId := s], r, mode);
            r.sessionId in m && Explains(IngestEvent(r, mode, stamp), s, m[r.sessionId])
  {
    hide AnyRedaction, Redaction.RedactText;
    var e := IngestEvent(r, mode, stamp);
    var s' := SessionsAfterIngest(map[r.sessionId := s], r, mode)[r.sessionId];
    assert s'.toolCalls == s.toolCalls + ToolCallIn(e, r.sessionId);
    if KeepsText(r, mode) {
      assert r.speaker.value.User? || r.speaker.value.Assistant?;
    } else {
      assert TextIn(e, r.sessionId) == [];
    }
    assert s'.transcripts == s.transcripts + TextIn(e, r.sessionId);
  }

  lemma IngestTouchesOne(m: Sessions, r: IngestRequest, mode: LoggingMode)
    requires r.sessionId in m
    ensures var s := SessionsAfterIngest(map[r.sessionId := m[r.sessionId]], r, mode);
            r.sessionId in s && SessionsAfterIngest(m, r, mode) == m[r.sessionId := s[r.sessionId]]
  {
  }

  lemma IngestEventIsOf(r: IngestRequest, mode: LoggingMode, stamp: Stamp)
    ensures var e := IngestEvent(r, mode, stamp);
            e.sessionId == r.sessionId && e.callId == r.callId && e.merchantId == r.merchantId &&
            e.provider == r.provider
  {
  }

  lemma IngestKeepsInv(st: AppState, i: Input)
    requires Inv(st) && i.Ingest?
    ensures Inv(Step(st, i).state)
  {
    hide Parsed, MeetsContract, AnyRedaction, IngestRefusal, Agrees, IngestEvent, SessionsAfterIngest, Step;
    IngestStep(st, i);
    AcceptedIngest(st.sessions, i);
    if IngestRefusal(st.sessions, i).None? {
      var r := Parsed(i).value;
      var e := IngestEvent(r, i.mode, i.stamp);
      var s := st.sessions[r.sessionId];
      var after := Step(st, i).state;
      IngestExplains(s, r, i.mode, i.stamp);
      IngestTouchesOne(st.sessions, r, i.mode);
      IngestEventIsOf(r, i.mode, i.stamp);
      AgreesAfterOwn(st.log, e, s, after.sessions[r.sessionId]);
      InvAfter(st, after, e, after.sessions[r.sessionId]);
    }
  }

  /** The session after an executed tool call. */
  function SessionAfterTool(s: SessionRecord, q: ToolRequest, routed: Routed): SessionRecord {
    var marked := if routed.op.Some? then Changed(s, routed.op.value) else s;
    Changed(marked, AppendToolCall(q.sessionId, q.toolName, routed.response.safeSummary))
  }

  lemma ToolExplains(s: SessionRecord, q: ToolRequest, arguments: Arguments, adapters: Adapters, stamp: Stamp)
    requires arguments.HandoffToHumanArguments? ==> q.toolName == "handoff_to_human"
    ensures var routed := Route(q, arguments, adapters);
            Explains(ToolEvent(q, routed.response, s.provider, stamp), s, SessionAfterTool(s, q, routed))
  {
    hide OrderAsked, KnowledgeAsked, HandoffAsked, LookupOrder, LookupLogistics, QueryProductKnowledge;
  }

  /** What a tool call does to sessions and log. */
  lemma ToolCallStep(st: AppState, i: Input)
    requires i.ToolCall?
    ensures var stepped, q := Step(st, i), i.request;
            if stepped.reply.ToolAnswered? then
              && q.sessionId in st.sessions && q.toolName in ALLOWED_REALTIME_TOOL_NAMES
              && ValidateArguments(q.toolName, q.arguments).Some?
              && var s := st.sessions[q.sessionId];
              var routed := Route(q, ValidateArguments(q.toolName, q.arguments).value, i.adapters);
              && s.callId == q.callId && s.merchantId == q.merchantId
              && stepped.reply.response == routed.response
              && stepped.state.log == st.log + [ToolEvent(q, routed.response, s.provider, i.stamp)]
              && stepped.state.sessions == st.sessions[q.sessionId := SessionAfterTool(s, q, routed)]
            else
              stepped.reply.Rejected? && stepped.state == st
    ensures Step(st, i).state.transcripts == st.transcripts
  {
    hide Route, ValidateArguments, BearerToken, ToolEvent, HandoffAccepted, HandoffIdOf, AdapterReplied, Coherent;
    var arguments := if i.request.toolName in ALLOWED_REALTIME_TOOL_NAMES
                     then ValidateArguments(i.request.toolName, i.request.arguments) else None;
    if arguments.Some? { RoutingIsTotalAndCoherent(i.request, arguments.value, i.adapters); }
  }

  lemma ToolCallKeepsInv(st: AppState, i: Input)
    requires Inv(st) && i.ToolCall?
    ensures Inv(Step(st, i).state)
  {
    hide Agrees, Step, Route, ValidateArguments, ToolEvent, Explains;
    ToolCallStep(st, i);
    if Step(st, i).reply.ToolAnswered? {
      var q := i.request;
      var s := st.sessions[q.sessionId];
      var arguments := ValidateArguments(q.toolName, q.arguments).value;
      var routed := Route(q, arguments, i.adapters);
      var e := ToolEvent(q, routed.response, s.provider, i.stamp);
      HandoffArgumentsNeedTheTool(q.toolName, q.arguments);
      ToolExplains(s, q, arguments, i.adapters, i.stamp);
      ToolEventIsOf(q, routed.response, s.provider, i.stamp);
      AgreesAfterOwn(st.log, e, s, SessionAfterTool(s, q, routed));
      ToolKeepsBinding(s, q, arguments, i.adapters);
      InvAfter(st, Step(st, i).state, e, SessionAfterTool(s, q, routed));
    }
  }

  lemma ToolEventIsOf(q: ToolRequest, response: ToolResponse, provider: Provider, stamp: Stamp)
    ensures var e := ToolEvent(q, response, provider, stamp);
            e.sessionId == q.sessionId && e.callId == q.callId && e.merchantId == q.merchantId && e.provider == provider
  {
  }

  lemma ToolKeepsBinding(s: SessionRecord, q: ToolRequest, arguments: Arguments, adapters: Adapters)
    ensures var s' := SessionAfterTool(s, q, Route(q, arguments, adapters));
            s'.callId == s.callId && s'.merchantId == s.merchantId && s'.provider == s.provider
  {
  }

  lemma StepKeepsInv(st: AppState, i: Input)
    requires Inv(st)
    ensures Inv(Step(st, i).state)
  {
    hide Inv, Step;
    match i
    case ClientSecret(_, _, _, _, _, _, _, _) => CreationKeepsInv(st, i);
    case Ingest(_, _, _, _, _, _, _) => IngestKeepsInv(st, i);
    case ToolCall(_, _, _, _, _) => ToolCallKeepsInv(st, i);
  }

  lemma {:induction false} EveryRunKeepsInv(inputs: seq<Input>)
    ensures Inv(Run(inputs))
  {
    hide Inv, Step;
    if inputs == [] {
      InitialInv();
    } else {
      EveryRunKeepsInv(inputs[..|inputs| - 1]);
      StepKeepsInv(Run(inputs[..|inputs| - 1]), inputs[|inputs| - 1]);
    }
  }

  lemma InitialInv()
    ensures Inv(INITIAL)
  {
  }
}
