/** What is logged for each request, member by member, told from the request. */
module RealtimeLines {
  import opened Common
  import opened Contracts
  import opened JsonValues
  import opened SessionStore
  import opened ToolRouter
  import opened VoiceEvents
  import opened RealtimeApi
  import opened RealtimeRuns
  import EventLog
  import Redaction

  // ---------------------------------------------------------------- ingested events

  /** A member of the payload. */
  function Sent(i: Input, key: string): Json
    requires i.Ingest? && i.payload.JObj?
  {
    Get(i.payload.fields, key)
  }

  ghost predicate HoldsItem(v: Json) { v.JStr? && Redaction.HasItem(v.s) }

  /** What the client sent to be kept, as text or as summary, holds something to redact. */
  ghost predicate SentAnItem(i: Input)
    requires i.Ingest? && i.payload.JObj?
  {
    HoldsItem(Sent(i, "text")) || HoldsItem(Sent(i, "safe_summary"))
  }

  /** The text of the event, redacted, for the member of the one who speaks. */
  function TextBy(i: Input, speaker: string): Json
    requires i.Ingest? && i.payload.JObj?
  {
    if i.mode != Off && Sent(i, "speaker") == JStr(speaker) then EventLog.RedactJson(Sent(i, "text")) else JNull
  }

  /** Members that an ingested event carries into the log as they came. */
  const CARRIED: set<string> := {"session_id", "call_id", "merchant_id", "event_type", "state", "tool_name"}

  const CARRIED_TOO: set<string> := {"provider", "provider_event_type", "provider_call_id", "tool_status"}

  ghost predicate TellsIngest(d: seq<Field>, i: Input)
    requires i.Ingest? && i.payload.JObj?
  {
    && (forall key :: key in CARRIED || key in CARRIED_TOO ==> Get(d, key) == Sent(i, key))
    && Get(d, "event_id") == JStr(i.stamp.eventId) && Get(d, "timestamp") == JStr(i.stamp.timestamp)
    && Get(d, "latency_ms") == IntJson(IntOrNone(i.lax, Sent(i, "latency_ms")))
    && Get(d, "transcript_text_redacted") == TextBy(i, "user")
    && Get(d, "response_text_redacted") == TextBy(i, "assistant")
    && Get(d, "tool_result_summary") == EventLog.RedactJson(Sent(i, "safe_summary"))
    && Get(d, "tool_arguments_redacted") == JNull && Get(d, "handoff_reason") == JNull
    && Get(d, "redaction_applied") == JBool(SentAnItem(i))
  }

  /** Members that an entry of the transcript log shares with the payload. */
  const ECHOED: set<string> := {
    "session_id", "call_id", "merchant_id", "provider", "speaker", "turn_id", "provider_event_type"}

  ghost predicate TellsTranscript(d: seq<Field>, i: Input)
    requires i.Ingest? && i.payload.JObj?
  {
    && (forall key :: key in ECHOED ==> Get(d, key) == Sent(i, key))
    && Get(d, "event_id") == JStr(i.stamp.eventId) && Get(d, "timestamp") == JStr(i.textTimestamp)
    && Get(d, "event_type") == JStr("transcript_done")
    && Get(d, "sequence") == IntJson(IntOrNone(i.lax, Sent(i, "sequence")))
    && Get(d, "text_redacted") == EventLog.RedactJson(Sent(i, "text"))
    && Get(d, "redaction_applied") == JBool(SentAnItem(i))
  }

  /** A finished utterance, under a mode that asks for a transcript. */
  predicate AsksForTranscript(i: Input)
    requires i.Ingest? && i.payload.JObj?
  {
    i.mode == Transcript &&
    (Sent(i, "event_type") == JStr("transcript.user.done") ||
     Sent(i, "event_type") == JStr("transcript.assistant.done"))
  }

  /** The flag, from the request: a text or a summary is changed exactly if there is something in it to redact. */
  lemma FlagMeaning(r: IngestRequest)
    ensures AnyRedaction(r) <==> HoldsItem(TextJson(r.text)) || HoldsItem(TextJson(r.safeSummary))
  {
    hide Redaction.RedactText, Redaction.HasItem;
    if r.text.Some? { Redaction.ChangedIffItem(r.text.value); }
    if r.safeSummary.Some? { Redaction.ChangedIffItem(r.safeSummary.value); }
  }

  /** The request that the payload makes. */
  ghost predicate Says(i: Input, r: IngestRequest)
    requires i.Ingest? && i.payload.JObj?
  {
    WellTyped(i.lax, i.payload.fields) && r == RequestOf(i.lax, i.payload.fields)
  }

  lemma AcceptedSays(st: AppState, i: Input)
    requires i.Ingest? && Step(st, i).reply.EventAccepted?
    ensures IngestRefusal(st.sessions, i).None? && i.payload.JObj? && Parsed(i).Some?
    ensures MeetsContract(Parsed(i).value) && Says(i, Parsed(i).value)
  {
    hide Step, IngestRefusal, AnyRedaction, WellTyped, RequestOf, MeetsContract;
    IngestStep(st, i);
    AcceptedIngest(st.sessions, i);
  }

  lemma SaidFlag(i: Input, r: IngestRequest)
    requires i.Ingest? && i.payload.JObj? && Says(i, r)
    ensures SentAnItem(i) <==> AnyRedaction(r)
  {
    hide AnyRedaction, RequestOf, WellTyped, Get, HoldsItem, TextJson;
    FlagMeaning(r);
    OthersAsSent(i.lax, i.payload.fields);
  }

  lemma SaidText(i: Input, r: IngestRequest, s: Speaker)
    requires i.Ingest? && i.payload.JObj? && Says(i, r)
    ensures TextBy(i, SpeakerName(s)) ==
            if i.mode != Off && r.speaker == Some(s) then TextJson(RedactedOption(r.text)) else JNull
  {
    hide RequestOf, WellTyped, Get, Redaction.RedactText;
    FirstAsSent(i.lax, i.payload.fields);
    OthersAsSent(i.lax, i.payload.fields);
  }

  lemma SaidSummary(i: Input, r: IngestRequest)
    requires i.Ingest? && i.payload.JObj? && Says(i, r)
    ensures TextJson(RedactedOption(r.safeSummary)) == EventLog.RedactJson(Sent(i, "safe_summary"))
    ensures TextJson(RedactedOption(r.text)) == EventLog.RedactJson(Sent(i, "text"))
  {
    hide RequestOf, WellTyped, Get, Redaction.RedactText;
    OthersAsSent(i.lax, i.payload.fields);
  }

  lemma HeadCarried(i: Input, r: IngestRequest, d: seq<Field>)
    requires i.Ingest? && i.payload.JObj? && Says(i, r) && d == Dump(IngestEvent(r, i.mode, i.stamp))
    ensures forall key :: key in CARRIED ==> Get(d, key) == Sent(i, key)
  {
    hide AnyRedaction, RequestOf, WellTyped, Get, Dump, ProviderName, StateName, EventTypeName, RedactedOption,
         IntOrNone, IntJson, TextJson, SpeakerJson;
    HeadMembers(IngestEvent(r, i.mode, i.stamp));
    FirstAsSent(i.lax, i.payload.fields);
    OthersAsSent(i.lax, i.payload.fields);
  }

  lemma BodyCarried(i: Input, r: IngestRequest, d: seq<Field>)
    requires i.Ingest? && i.payload.JObj? && Says(i, r) && d == Dump(IngestEvent(r, i.mode, i.stamp))
    ensures forall key :: key in CARRIED_TOO ==> Get(d, key) == Sent(i, key)
    ensures Get(d, "latency_ms") == IntJson(IntOrNone(i.lax, Sent(i, "latency_ms")))
  {
    hide AnyRedaction, RequestOf, WellTyped, Get, Dump, ProviderName, StateName, EventTypeName, RedactedOption,
         IntOrNone, IntJson, TextJson, SpeakerJson;
    BodyMembers(IngestEvent(r, i.mode, i.stamp));
    FirstAsSent(i.lax, i.payload.fields);
    OthersAsSent(i.lax, i.payload.fields);
  }

  lemma EventIsTold(i: Input, r: IngestRequest)
    requires i.Ingest? && i.payload.JObj? && Says(i, r)
    ensures TellsIngest(Dump(IngestEvent(r, i.mode, i.stamp)), i)
  {
    hide AnyRedaction, RequestOf, WellTyped, Get, SentAnItem, Dump, ProviderName, StateName, EventTypeName,
         RedactedOption, IntOrNone, TextBy, Says;
    var e := IngestEvent(r, i.mode, i.stamp);
    HeadMembers(e);
    BodyMembers(e);
    HeadCarried(i, r, Dump(e));
    BodyCarried(i, r, Dump(e));
    SaidFlag(i, r);
    SaidText(i, r, User);
    SaidText(i, r, Assistant);
    SaidSummary(i, r);
  }

  /**
   * The event logged for an accepted payload, as the repository is handed it: what the payload says is
   * carried over, texts and summary are redacted, and the flag says whether there was anything to redact.
   */
  lemma IngestIsTold(st: AppState, i: Input)
    requires i.Ingest? && Step(st, i).reply.EventAccepted?
    ensures var log := Step(st, i).state.log;
            && i.payload.JObj? && |log| == |st.log| + 1 && st.log <= log
            && TellsIngest(Dump(log[|st.log|]), i)
    ensures Step(st, i).reply == EventAccepted(i.stamp.eventId, SentAnItem(i))
  {
    hide Step, IngestRefusal, AnyRedaction, Parsed, SentAnItem, Dump, MeetsContract, Says, TellsIngest, IngestEvent;
    IngestStep(st, i);
    AcceptedSays(st, i);
    EventIsTold(i, Parsed(i).value);
    SaidFlag(i, Parsed(i).value);
  }

  lemma DoneNames(t: EventType)
    ensures EventTypeName(t) == "transcript.user.done" <==> t == TranscriptUserDone
    ensures EventTypeName(t) == "transcript.assistant.done" <==> t == TranscriptAssistantDone
  {
    EventTypeShape(t);
  }

  lemma AskedFor(i: Input, r: IngestRequest)
    requires i.Ingest? && i.payload.JObj? && Says(i, r) && MeetsContract(r)
    ensures AsksForTranscript(i) <==> LogsTranscript(r, i.mode)
  {
    hide RequestOf, WellTyped, Get, EventTypeName, FieldsWithinBounds;
    DoneNames(r.eventType);
    FirstAsSent(i.lax, i.payload.fields);
  }

  lemma EntryIsTold(i: Input, r: IngestRequest)
    requires i.Ingest? && i.payload.JObj? && Says(i, r) && r.text.Some? && r.speaker.Some?
    ensures TellsTranscript(DumpTranscript(TranscriptOf(r, i.stamp.(timestamp := i.textTimestamp))), i)
  {
    hide AnyRedaction, RequestOf, WellTyped, Get, SentAnItem, DumpTranscript, ProviderName, SpeakerName, IntOrNone,
         IntJson, Redaction.RedactText;
    TranscriptMembers(TranscriptOf(r, i.stamp.(timestamp := i.textTimestamp)));
    FirstAsSent(i.lax, i.payload.fields);
    OthersAsSent(i.lax, i.payload.fields);
    SaidFlag(i, r);
    SaidSummary(i, r);
  }

  /** A finished utterance is written to the transcript log too under transcript mode, and nothing else is. */
  lemma TranscriptIsTold(st: AppState, i: Input)
    requires i.Ingest? && Step(st, i).reply.EventAccepted?
    ensures i.payload.JObj?
    ensures var texts := Step(st, i).state.transcripts;
            if AsksForTranscript(i) then
              |texts| == |st.transcripts| + 1 && st.transcripts <= texts &&
              TellsTranscript(DumpTranscript(texts[|st.transcripts|]), i)
            else texts == st.transcripts
  {
    hide Step, IngestRefusal, AnyRedaction, Parsed, Dump, MeetsContract, Says, TellsTranscript, TranscriptOf,
         AsksForTranscript;
    IngestStep(st, i);
    AcceptedSays(st, i);
    AskedFor(i, Parsed(i).value);
    if AsksForTranscript(i) { EntryIsTold(i, Parsed(i).value); }
  }

  // ---------------------------------------------------------------- created sessions and tool calls

  /** Members that only ingested events fill. */
  const UNFILLED: set<string> := {
    "transcript_text_redacted", "response_text_redacted", "tool_arguments_redacted", "latency_ms",
    "provider_event_type", "provider_call_id"}

  predicate TellsCreation(d: seq<Field>, i: Input)
    requires i.ClientSecret? && i.grant.Granted?
  {
    && (forall key :: key in UNFILLED ==> Get(d, key) == JNull)
    && Get(d, "tool_name") == JNull && Get(d, "handoff_reason") == JNull && Get(d, "tool_status") == JNull
    && Get(d, "event_id") == JStr(i.stamp.eventId) && Get(d, "timestamp") == JStr(i.stamp.timestamp)
    && Get(d, "session_id") == JStr(i.sessionId) && Get(d, "call_id") == JStr(i.callId)
    && Get(d, "merchant_id") == JStr(i.merchantId) && Get(d, "provider") == JStr(ProviderName(i.grant.provider))
    && Get(d, "state") == JStr("idle") && Get(d, "event_type") == JStr("session_created")
    && Get(d, "tool_result_summary") == JStr("Realtime session created.")
    && Get(d, "redaction_applied") == JBool(false)
  }

  /** A secret that is given is logged as the creation of its session. */
  lemma CreationIsTold(st: AppState, i: Input)
    requires i.ClientSecret? && Step(st, i).reply.SecretIssued?
    ensures i.grant.Granted? && Step(st, i).reply == SecretIssued(i.grant.provider, i.token)
    ensures var log := Step(st, i).state.log;
            |log| == |st.log| + 1 && st.log <= log && TellsCreation(Dump(log[|st.log|]), i)
  {
    hide Step, Get, Dump, ProviderName;
    CreationStep(st, i);
    HeadMembers(CreationEvent(i, i.grant.provider));
    BodyMembers(CreationEvent(i, i.grant.provider));
  }

  /** What the answer says is what is logged, under the binding of the session. */
  predicate TellsToolCall(d: seq<Field>, i: Input, r: ToolResponse, provider: Provider)
    requires i.ToolCall?
  {
    var q := i.request;
    && (forall key :: key in UNFILLED ==> Get(d, key) == JNull)
    && Get(d, "event_id") == JStr(i.stamp.eventId) && Get(d, "timestamp") == JStr(i.stamp.timestamp)
    && Get(d, "session_id") == JStr(q.sessionId) && Get(d, "call_id") == JStr(q.callId)
    && Get(d, "merchant_id") == JStr(q.merchantId) && Get(d, "provider") == JStr(ProviderName(provider))
    && Get(d, "event_type") == JStr("tool_call") && Get(d, "tool_name") == JStr(q.toolName)
    && Get(d, "tool_result_summary") == JStr(r.safeSummary)
    && Get(d, "handoff_reason") == JStr(ReasonName(r.handoffReason))
    && Get(d, "redaction_applied") == JBool(false)
    && (Get(d, "state") == JStr("handoff_pending") <==> r.handoffRequired)
    && (Get(d, "state") == JStr("tool_calling") <==> !r.handoffRequired)
    && (Get(d, "tool_status") == JStr("completed") <==> r.status == Completed)
    && (Get(d, "tool_status") == JStr("failed") <==> r.status == Failed)
    && (Get(d, "tool_status") == JStr("handoff_required") <==> r.status == HandoffRequired)
  }

  lemma ToolStatesTold(r: ToolResponse)
    ensures var state := StateName(if r.handoffRequired then HandoffPending else ToolCalling);
            && (state == "handoff_pending" <==> r.handoffRequired) && (state == "tool_calling" <==> !r.handoffRequired)
  {
    StateShape(HandoffPending);
    StateShape(ToolCalling);
  }

  lemma ToolStatusTold(s: ToolStatus)
    ensures var text := ToolStatusText(s);
            && (text == "completed" <==> s == Completed) && (text == "failed" <==> s == Failed)
            && (text == "handoff_required" <==> s == HandoffRequired)
  {
    assert |ToolStatusText(Completed)| == 9 && |ToolStatusText(Failed)| == 6 && |ToolStatusText(HandoffRequired)| == 16;
  }

  lemma ToolEventIsTold(i: Input, r: ToolResponse, provider: Provider)
    requires i.ToolCall?
    ensures TellsToolCall(Dump(ToolEvent(i.request, r, provider, i.stamp)), i, r, provider)
  {
    hide Get, Dump, ProviderName, StateName, ReasonName, ToolStatusText;
    var e := ToolEvent(i.request, r, provider, i.stamp);
    HeadMembers(e);
    BodyMembers(e);
    ToolStatesTold(r);
    ToolStatusTold(r.status);
  }

  /** An answered tool call is logged as it was answered, under the provider of its session. */
  lemma ToolCallIsTold(st: AppState, i: Input)
    requires i.ToolCall? && Step(st, i).reply.ToolAnswered?
    ensures var log, id := Step(st, i).state.log, i.request.sessionId;
            && id in st.sessions && |log| == |st.log| + 1 && st.log <= log
            && TellsToolCall(Dump(log[|st.log|]), i, Step(st, i).reply.response, st.sessions[id].provider)
  {
    hide Step, Dump, TellsToolCall, ValidateArguments, Route, ToolEvent;
    ToolCallStep(st, i);
    ToolEventIsTold(i, Step(st, i).reply.response, st.sessions[i.request.sessionId].provider);
  }

  /** And it is answered with what the adapter replied. */
  lemma ToolCallTellsTheReply(st: AppState, i: Input)
    requires i.ToolCall? && Step(st, i).reply.ToolAnswered? && DistinctKeys(i.request.arguments)
    ensures exists arguments ::
              && i.request.toolName == ToolOf(arguments) && Spells(i.request.arguments, arguments)
              && var r := Step(st, i).reply.response;
              if AdapterReplied(i.request, arguments, i.adapters) then
                TellsTheReply(r, i.request, arguments, i.adapters)
              else TellsSystemError(r)
  {
    hide Step, ValidateArguments, Route, TellsTheReply, TellsSystemError, AdapterReplied, Spells, ToolOf;
    ToolCallStep(st, i);
    var arguments := ValidateArguments(i.request.toolName, i.request.arguments).value;
    ArgumentsMeaning(i.request.toolName, i.request.arguments, arguments);
    AnswersTellTheReply(i.request, arguments, i.adapters);
  }
}
