/** The vocabulary of the realtime API, and the contract of an ingested event. */
module Contracts {
  import opened Common
  import opened JsonValues

  datatype Provider = Mock | OpenAiRealtime | DashScopeRealtime

  datatype SessionState =
    Idle | Listening | Transcribing | Thinking | ToolCalling | Speaking | HandoffPending | Ended | Error

  datatype EventType =
    | SessionConnecting | SessionConnected | SessionEnded | SessionError
    | TranscriptUserDelta | TranscriptUserDone | TranscriptAssistantDelta | TranscriptAssistantDone
    | ToolCallRequested | ToolCallResult | HandoffRequested | ResponseDone

  datatype HandoffReason =
    | NoReason | LowAsrConfidence | OrderIdUnconfirmed | ToolFailure | RagLowConfidence | RefundOrReturnException
    | ComplaintOrAngryCustomer | UnsupportedIntent | CustomerRequestsHuman | PolicySensitive

  datatype ToolErrorCode = NotFound | InvalidInput | PermissionDenied | SystemError | NoAnswer | LowConfidence

  datatype ToolStatus = Completed | Failed | HandoffRequired

  datatype LoggingMode = Off | Structured | Transcript

  datatype Speaker = User | Assistant

  datatype IngestRequest = IngestRequest(
    sessionId: string, callId: string, merchantId: string, provider: Provider, eventType: EventType,
    state: SessionState, speaker: Option<Speaker>, turnId: Option<string>, sequence: Option<int>,
    text: Option<string>, latencyMs: Option<int>, providerEventType: Option<string>, toolName: Option<string>,
    providerCallId: Option<string>, toolStatus: Option<string>, safeSummary: Option<string>)

  datatype Violation =
    | FieldTooShort | SpeakerMissing | TextMissing | SpeakerNotUser | SpeakerNotAssistant
    | ToolFieldsOnTranscript | TranscriptFieldsElsewhere | ToolFieldsMissing | ToolFieldsElsewhere

  predicate IsTranscriptEvent(t: EventType) {
    t == TranscriptUserDelta || t == TranscriptUserDone || t == TranscriptAssistantDelta || t == TranscriptAssistantDone
  }

  predicate IsToolEvent(t: EventType) { t == ToolCallRequested || t == ToolCallResult }

  predicate IsDoneEvent(t: EventType) { t == TranscriptUserDone || t == TranscriptAssistantDone }

  predicate Nonempty(o: Option<string>) { o.Some? ==> o.value != "" }

  predicate NonNegative(o: Option<int>) { o.Some? ==> o.value >= 0 }

  predicate FieldsWithinBounds(r: IngestRequest) {
    && r.sessionId != "" && r.callId != "" && r.merchantId != ""
    && Nonempty(r.turnId) && Nonempty(r.text) && Nonempty(r.providerEventType) && Nonempty(r.toolName)
    && Nonempty(r.providerCallId) && Nonempty(r.toolStatus) && Nonempty(r.safeSummary)
    && NonNegative(r.sequence) && NonNegative(r.latencyMs)
  }

  predicate SomeToolField(r: IngestRequest) {
    r.toolName.Some? || r.providerCallId.Some? || r.toolStatus.Some? || r.safeSummary.Some?
  }

  predicate EveryToolField(r: IngestRequest) {
    r.toolName.Some? && r.providerCallId.Some? && r.toolStatus.Some? && r.safeSummary.Some?
  }

  predicate SomeTranscriptField(r: IngestRequest) {
    r.speaker.Some? || r.turnId.Some? || r.sequence.Some? || r.text.Some?
  }

  /** The field constraints, then `validate_event_specific_fields`, in the order they are tried. */
  function ContractViolation(r: IngestRequest): Option<Violation> {
    if !FieldsWithinBounds(r) then Some(FieldTooShort)
    else if IsTranscriptEvent(r.eventType) && r.speaker.None? then Some(SpeakerMissing)
    else if IsTranscriptEvent(r.eventType) && r.text.None? then Some(TextMissing)
    else if (r.eventType == TranscriptUserDelta || r.eventType == TranscriptUserDone) && r.speaker != Some(User) then
      Some(SpeakerNotUser)
    else if (r.eventType == TranscriptAssistantDelta || r.eventType == TranscriptAssistantDone)
            && r.speaker != Some(Assistant) then Some(SpeakerNotAssistant)
    else if IsTranscriptEvent(r.eventType) && SomeToolField(r) then Some(ToolFieldsOnTranscript)
    else if !IsTranscriptEvent(r.eventType) && SomeTranscriptField(r) then Some(TranscriptFieldsElsewhere)
    else if IsToolEvent(r.eventType) && !EveryToolField(r) then Some(ToolFieldsMissing)
    else if !IsToolEvent(r.eventType) && SomeToolField(r) then Some(ToolFieldsElsewhere)
    else None
  }

  predicate MeetsContract(r: IngestRequest) { ContractViolation(r).None? }

  // ---------------------------------------------------------------- names on the wire

  function ProviderName(p: Provider): string {
    match p
    case Mock => "mock"
    case OpenAiRealtime => "openai_realtime"
    case DashScopeRealtime => "dashscope_realtime"
  }

  function StateName(s: SessionState): string {
    match s
    case Idle => "idle"
    case Listening => "listening"
    case Transcribing => "transcribing"
    case Thinking => "thinking"
    case ToolCalling => "tool_calling"
    case Speaking => "speaking"
    case HandoffPending => "handoff_pending"
    case Ended => "ended"
    case Error => "error"
  }

  function EventTypeName(t: EventType): string {
    match t
    case SessionConnecting => "session.connecting"
    case SessionConnected => "session.connected"
    case SessionEnded => "session.ended"
    case SessionError => "session.error"
    case TranscriptUserDelta => "transcript.user.delta"
    case TranscriptUserDone => "transcript.user.done"
    case TranscriptAssistantDelta => "transcript.assistant.delta"
    case TranscriptAssistantDone => "transcript.assistant.done"
    case ToolCallRequested => "tool_call.requested"
    case ToolCallResult => "tool_call.result"
    case HandoffRequested => "handoff.requested"
    case ResponseDone => "response.done"
  }

  function SpeakerName(s: Speaker): string { if s == User then "user" else "assistant" }

  function ReasonName(r: HandoffReason): string {
    match r
    case NoReason => "none"
    case LowAsrConfidence => "low_asr_confidence"
    case OrderIdUnconfirmed => "order_id_unconfirmed"
    case ToolFailure => "tool_error"
    case RagLowConfidence => "rag_low_confidence"
    case RefundOrReturnException => "refund_or_return_exception"
    case ComplaintOrAngryCustomer => "complaint_or_angry_customer"
    case UnsupportedIntent => "unsupported_intent"
    case CustomerRequestsHuman => "customer_requests_human"
    case PolicySensitive => "policy_sensitive"
  }

  const PROVIDERS := [Mock, OpenAiRealtime, DashScopeRealtime]

  const STATES := [Idle, Listening, Transcribing, Thinking, ToolCalling, Speaking, HandoffPending, Ended, Error]

  const EVENT_TYPES := [
    SessionConnecting, SessionConnected, SessionEnded, SessionError, TranscriptUserDelta, TranscriptUserDone,
    TranscriptAssistantDelta, TranscriptAssistantDone, ToolCallRequested, ToolCallResult, HandoffRequested,
    ResponseDone]

  const SPEAKERS := [User, Assistant]

  const REASONS := [
    NoReason, LowAsrConfidence, OrderIdUnconfirmed, ToolFailure, RagLowConfidence, RefundOrReturnException,
    ComplaintOrAngryCustomer, UnsupportedIntent, CustomerRequestsHuman, PolicySensitive]

  /** The member of an enumeration that is written `name`. */
  function Named<E>(members: seq<E>, nameOf: E -> string, name: string): (r: Option<E>)
    ensures r.Some? ==> r.value in members && nameOf(r.value) == name
    ensures r.None? ==> forall e :: e in members ==> nameOf(e) != name
  {
    if members == [] then None
    else if nameOf(members[0]) == name then Some(members[0])
    else Named(members[1..], nameOf, name)
  }

  /** Who speaks in a transcript event. */
  function SpeakerOf(t: EventType): Option<Speaker> {
    match t
    case TranscriptUserDelta => Some(User)
    case TranscriptUserDone => Some(User)
    case TranscriptAssistantDelta => Some(Assistant)
    case TranscriptAssistantDone => Some(Assistant)
    case _ => None
  }

  /** Which events are whose, by the beginning of their names. */
  lemma NamesTellKinds(t: EventType)
    ensures var name := EventTypeName(t);
            && ("transcript.user." <= name <==> t == TranscriptUserDelta || t == TranscriptUserDone)
            && ("transcript.assistant." <= name <==> t == TranscriptAssistantDelta || t == TranscriptAssistantDone)
            && ("tool_call." <= name <==> IsToolEvent(t))
  {
    var u, a, c, name := "transcript.user.", "transcript.assistant.", "tool_call.", EventTypeName(t);
    assert u[0] == 't' && a[0] == 't' && c[0] == 't';
    assert u[1] == 'r' && a[1] == 'r' && c[1] == 'o' && u[11] == 'u' && a[11] == 'a';
    match t
    case TranscriptUserDelta => assert name[..|u|] == u;
    case TranscriptUserDone => assert name[..|u|] == u;
    case TranscriptAssistantDelta => assert name[..|a|] == a;
    case TranscriptAssistantDone => assert name[..|a|] == a;
    case ToolCallRequested => assert name[..|c|] == c;
    case ToolCallResult => assert name[..|c|] == c;
    case _ => assert name[0] != 't';
  }

  predicate NoTranscriptField(r: IngestRequest) {
    r.speaker.None? && r.turnId.None? && r.sequence.None? && r.text.None?
  }

  predicate NoToolField(r: IngestRequest) {
    r.toolName.None? && r.providerCallId.None? && r.toolStatus.None? && r.safeSummary.None?
  }

  /** The texts and the numbers that a request may leave out. */
  function GivenTexts(r: IngestRequest): seq<Option<string>> {
    [r.turnId, r.text, r.providerEventType, r.toolName, r.providerCallId, r.toolStatus, r.safeSummary]
  }

  function GivenNumbers(r: IngestRequest): seq<Option<int>> { [r.sequence, r.latencyMs] }

  /** No text is empty and no number negative; transcript fields on transcript events, tool fields on tool events. */
  lemma ContractMeaning(r: IngestRequest)
    ensures MeetsContract(r) <==>
      && r.sessionId != "" && r.callId != "" && r.merchantId != ""
      && (forall k :: 0 <= k < |GivenTexts(r)| ==> GivenTexts(r)[k] != Some(""))
      && (forall k :: 0 <= k < |GivenNumbers(r)| ==> GivenNumbers(r)[k].Some? ==> GivenNumbers(r)[k].value >= 0)
      && var name := EventTypeName(r.eventType);
      if "transcript.user." <= name then r.speaker == Some(User) && r.text.Some? && NoToolField(r)
      else if "transcript.assistant." <= name then r.speaker == Some(Assistant) && r.text.Some? && NoToolField(r)
      else if "tool_call." <= name then
        NoTranscriptField(r) &&
        r.toolName.Some? && r.providerCallId.Some? && r.toolStatus.Some? && r.safeSummary.Some?
      else NoTranscriptField(r) && NoToolField(r)
  {
    hide EventTypeName, FieldsWithinBounds;
    NamesTellKinds(r.eventType);
    BoundsMeaning(r);
  }

  lemma BoundsMeaning(r: IngestRequest)
    ensures FieldsWithinBounds(r) <==>
      && r.sessionId != "" && r.callId != "" && r.merchantId != ""
      && (forall k :: 0 <= k < |GivenTexts(r)| ==> GivenTexts(r)[k] != Some(""))
      && (forall k :: 0 <= k < |GivenNumbers(r)| ==> GivenNumbers(r)[k].Some? ==> GivenNumbers(r)[k].value >= 0)
  {
    var texts, numbers := GivenTexts(r), GivenNumbers(r);
    assert |texts| == 7 && texts[0] == r.turnId && texts[1] == r.text && texts[2] == r.providerEventType;
    assert texts[3] == r.toolName && texts[4] == r.providerCallId && texts[5] == r.toolStatus;
    assert texts[6] == r.safeSummary && |numbers| == 2 && numbers[0] == r.sequence && numbers[1] == r.latencyMs;
  }

  // ---------------------------------------------------------------- from a request body

  const INGEST_KEYS: set<string> := {
    "session_id", "call_id", "merchant_id", "provider", "event_type", "state", "speaker", "turn_id", "sequence", "text",
    "latency_ms", "provider_event_type", "tool_name", "provider_call_id", "tool_status", "safe_summary"}

  /** A member that may be missing or null and is otherwise read as a number. */
  predicate IsIntOrNull(l: Leniency, v: Json) { v.JNull? || l.asInt(v).Some? }

  function IntOrNone(l: Leniency, v: Json): Option<int> { if v.JNull? then None else l.asInt(v) }

  function Provided(v: Json): Option<Provider> { if v.JStr? then Named(PROVIDERS, ProviderName, v.s) else None }

  function Stated(v: Json): Option<SessionState> { if v.JStr? then Named(STATES, StateName, v.s) else None }

  function Typed(v: Json): Option<EventType> { if v.JStr? then Named(EVENT_TYPES, EventTypeName, v.s) else None }

  function Spoken(v: Json): Option<Speaker> { if v.JStr? then Named(SPEAKERS, SpeakerName, v.s) else None }

  /** The members are known, the needed ones are there, and each has the right type. */
  predicate WellTyped(l: Leniency, fields: seq<Field>) {
    && OnlyKeys(fields, INGEST_KEYS)
    && Get(fields, "session_id").JStr? && Get(fields, "call_id").JStr? && Get(fields, "merchant_id").JStr?
    && Provided(Get(fields, "provider")).Some? && Typed(Get(fields, "event_type")).Some?
    && Stated(Get(fields, "state")).Some?
    && (Get(fields, "speaker").JNull? || Spoken(Get(fields, "speaker")).Some?)
    && IsTextOrNull(Get(fields, "turn_id")) && IsIntOrNull(l, Get(fields, "sequence"))
    && IsTextOrNull(Get(fields, "text"))
    && IsIntOrNull(l, Get(fields, "latency_ms")) && IsTextOrNull(Get(fields, "provider_event_type"))
    && IsTextOrNull(Get(fields, "tool_name")) && IsTextOrNull(Get(fields, "provider_call_id"))
    && IsTextOrNull(Get(fields, "tool_status")) && IsTextOrNull(Get(fields, "safe_summary"))
  }

  /** The request that well-typed members make. */
  function RequestOf(l: Leniency, fields: seq<Field>): IngestRequest
    requires WellTyped(l, fields)
  {
    IngestRequest(
      Get(fields, "session_id").s, Get(fields, "call_id").s, Get(fields, "merchant_id").s,
      Provided(Get(fields, "provider")).value, Typed(Get(fields, "event_type")).value,
      Stated(Get(fields, "state")).value,
      Spoken(Get(fields, "speaker")), TextOrNone(Get(fields, "turn_id")), IntOrNone(l, Get(fields, "sequence")),
      TextOrNone(Get(fields, "text")), IntOrNone(l, Get(fields, "latency_ms")),
      TextOrNone(Get(fields, "provider_event_type")), TextOrNone(Get(fields, "tool_name")),
      TextOrNone(Get(fields, "provider_call_id")), TextOrNone(Get(fields, "tool_status")),
      TextOrNone(Get(fields, "safe_summary")))
  }

  /** `RealtimeEventIngestRequest.model_validate(payload)`; `None` stands for a validation error. */
  function ParseIngest(l: Leniency, fields: seq<Field>): Option<IngestRequest> {
    if WellTyped(l, fields) && MeetsContract(RequestOf(l, fields)) then Some(RequestOf(l, fields)) else None
  }

  function IntJson(o: Option<int>): Json { if o.Some? then JInt(o.value) else JNull }

  function SpeakerJson(o: Option<Speaker>): Json { if o.Some? then JStr(SpeakerName(o.value)) else JNull }

  function IngestHead(r: IngestRequest): seq<Field> {
    [ Field("session_id", JStr(r.sessionId)),
      Field("call_id", JStr(r.callId)),
      Field("merchant_id", JStr(r.merchantId)),
      Field("provider", JStr(ProviderName(r.provider))),
      Field("event_type", JStr(EventTypeName(r.eventType))),
      Field("state", JStr(StateName(r.state))),
      Field("speaker", SpeakerJson(r.speaker)),
      Field("turn_id", TextJson(r.turnId))]
  }

  function IngestBody(r: IngestRequest): seq<Field> {
    [ Field("sequence", IntJson(r.sequence)),
      Field("text", TextJson(r.text)),
      Field("latency_ms", IntJson(r.latencyMs)),
      Field("provider_event_type", TextJson(r.providerEventType)),
      Field("tool_name", TextJson(r.toolName)),
      Field("provider_call_id", TextJson(r.providerCallId)),
      Field("tool_status", TextJson(r.toolStatus)),
      Field("safe_summary", TextJson(r.safeSummary))]
  }

  /** The dump of a request, which is one way to send it. */
  function EncodeIngest(r: IngestRequest): seq<Field> { IngestHead(r) + IngestBody(r) }

  lemma HeadKeysTold(r: IngestRequest)
    ensures EachToldApart(IngestHead(r))
  {
    hide ProviderName, EventTypeName, StateName, SpeakerJson, TextJson;
  }

  lemma BodyKeysTold(r: IngestRequest)
    ensures EachToldApart(IngestBody(r))
  {
    hide TextJson, IntJson;
  }

  lemma OtherKeysTold(r: IngestRequest)
    ensures ToldApartAcross(IngestHead(r), IngestBody(r))
  {
    hide ProviderName, EventTypeName, StateName, SpeakerJson, TextJson, IntJson;
  }

  lemma IngestKeysKnown(r: IngestRequest)
    ensures OnlyKeys(EncodeIngest(r), INGEST_KEYS)
  {
    hide ProviderName, EventTypeName, StateName, SpeakerJson, TextJson, IntJson;
    assert forall f :: f in IngestHead(r) ==> f.key in INGEST_KEYS;
    assert forall f :: f in IngestBody(r) ==> f.key in INGEST_KEYS;
  }

  lemma IngestKeysDistinct(r: IngestRequest)
    ensures DistinctKeys(EncodeIngest(r)) && OnlyKeys(EncodeIngest(r), INGEST_KEYS)
  {
    hide IngestHead, IngestBody, INGEST_KEYS, OnlyKeys;
    HeadKeysTold(r);
    BodyKeysTold(r);
    OtherKeysTold(r);
    ToldApartIsDistinct(IngestHead(r), IngestBody(r));
    IngestKeysKnown(r);
  }

  lemma EventTypeShape(t: EventType)
    ensures t in EVENT_TYPES
    ensures |EventTypeName(t)| > 9
    ensures var s := EventTypeName(t);
            match t
            case SessionConnecting => |s| == 18
            case SessionConnected => |s| == 17 && s[0] == 's'
            case SessionEnded => |s| == 13 && s[0] == 's' && s[9] == 'n'
            case SessionError => |s| == 13 && s[0] == 's' && s[9] == 'r'
            case TranscriptUserDelta => |s| == 21
            case TranscriptUserDone => |s| == 20
            case TranscriptAssistantDelta => |s| == 26
            case TranscriptAssistantDone => |s| == 25
            case ToolCallRequested => |s| == 19
            case ToolCallResult => |s| == 16
            case HandoffRequested => |s| == 17 && s[0] == 'h'
            case ResponseDone => |s| == 13 && s[0] == 'r'
  {
  }

  lemma StateShape(t: SessionState)
    ensures t in STATES
    ensures |StateName(t)| > 1
    ensures var s := StateName(t);
            match t
            case Idle => |s| == 4
            case Listening => |s| == 9
            case Transcribing => |s| == 12 && s[1] == 'r'
            case Thinking => |s| == 8 && s[0] == 't'
            case ToolCalling => |s| == 12 && s[1] == 'o'
            case Speaking => |s| == 8 && s[0] == 's'
            case HandoffPending => |s| == 15
            case Ended => |s| == 5 && s[1] == 'n'
            case Error => |s| == 5 && s[1] == 'r'
  {
  }

  /** No two members of these enumerations are written alike. */
  lemma NamesTell(p: Provider, s: SessionState, t: EventType, k: Speaker)
    ensures Named(PROVIDERS, ProviderName, ProviderName(p)) == Some(p)
    ensures Named(STATES, StateName, StateName(s)) == Some(s)
    ensures Named(EVENT_TYPES, EventTypeName, EventTypeName(t)) == Some(t)
    ensures Named(SPEAKERS, SpeakerName, SpeakerName(k)) == Some(k)
  {
    hide StateName, EventTypeName, STATES, EVENT_TYPES;
    StateShape(s);
    EventTypeShape(t);
    if other: SessionState :| StateName(other) == StateName(s) && other in STATES && other != s { StateShape(other); }
    if other: EventType :| EventTypeName(other) == EventTypeName(t) && other in EVENT_TYPES && other != t {
      EventTypeShape(other);
    }
    assert p in PROVIDERS && k in SPEAKERS;
  }

  lemma ReasonShape(r: HandoffReason)
    ensures r in REASONS
    ensures var s := ReasonName(r);
            match r
            case NoReason => |s| == 4
            case LowAsrConfidence => |s| == 18 && s[0] == 'l'
            case OrderIdUnconfirmed => |s| == 20
            case ToolFailure => |s| == 10
            case RagLowConfidence => |s| == 18 && s[0] == 'r'
            case RefundOrReturnException => |s| == 26
            case ComplaintOrAngryCustomer => |s| == 27
            case UnsupportedIntent => |s| == 18 && s[0] == 'u'
            case CustomerRequestsHuman => |s| == 23
            case PolicySensitive => |s| == 16
  {
  }

  lemma ReasonsTell(r: HandoffReason)
    ensures Named(REASONS, ReasonName, ReasonName(r)) == Some(r)
  {
    hide ReasonName, REASONS;
    ReasonShape(r);
    if other: HandoffReason :| ReasonName(other) == ReasonName(r) && other in REASONS && other != r {
      ReasonShape(other);
    }
  }

  lemma FirstMembers(r: IngestRequest)
    requires DistinctKeys(EncodeIngest(r))
    ensures var f := EncodeIngest(r);
            && Get(f, "session_id") == JStr(r.sessionId)
            && Get(f, "call_id") == JStr(r.callId)
            && Get(f, "merchant_id") == JStr(r.merchantId)
            && Get(f, "provider") == JStr(ProviderName(r.provider))
            && Get(f, "event_type") == JStr(EventTypeName(r.eventType))
            && Get(f, "state") == JStr(StateName(r.state))
            && Get(f, "speaker") == SpeakerJson(r.speaker)
            && Get(f, "turn_id") == TextJson(r.turnId)
  {
    hide Get, DistinctKeys, ProviderName, EventTypeName, StateName, SpeakerJson, TextJson, IntJson;
    GetAt(EncodeIngest(r), 0);
    GetAt(EncodeIngest(r), 1);
    GetAt(EncodeIngest(r), 2);
    GetAt(EncodeIngest(r), 3);
    GetAt(EncodeIngest(r), 4);
    GetAt(EncodeIngest(r), 5);
    GetAt(EncodeIngest(r), 6);
    GetAt(EncodeIngest(r), 7);
  }

  lemma OtherMembers(r: IngestRequest)
    requires DistinctKeys(EncodeIngest(r))
    ensures var f := EncodeIngest(r);
            && Get(f, "sequence") == IntJson(r.sequence)
            && Get(f, "text") == TextJson(r.text)
            && Get(f, "latency_ms") == IntJson(r.latencyMs)
            && Get(f, "provider_event_type") == TextJson(r.providerEventType)
            && Get(f, "tool_name") == TextJson(r.toolName)
            && Get(f, "provider_call_id") == TextJson(r.providerCallId)
            && Get(f, "tool_status") == TextJson(r.toolStatus)
            && Get(f, "safe_summary") == TextJson(r.safeSummary)
  {
    hide Get, DistinctKeys, ProviderName, EventTypeName, StateName, SpeakerJson, TextJson, IntJson;
    GetAt(EncodeIngest(r), 8);
    GetAt(EncodeIngest(r), 9);
    GetAt(EncodeIngest(r), 10);
    GetAt(EncodeIngest(r), 11);
    GetAt(EncodeIngest(r), 12);
    GetAt(EncodeIngest(r), 13);
    GetAt(EncodeIngest(r), 14);
    GetAt(EncodeIngest(r), 15);
  }

  lemma IntIsRead(l: Leniency, o: Option<int>)
    requires Fair(l)
    ensures IsIntOrNull(l, IntJson(o)) && IntOrNone(l, IntJson(o)) == o
  {
  }

  lemma DumpIsWellTyped(l: Leniency, r: IngestRequest)
    requires Fair(l)
    ensures WellTyped(l, EncodeIngest(r))
  {
    hide ProviderName, StateName, EventTypeName, SpeakerName, Named, DistinctKeys, INGEST_KEYS, OnlyKeys,
         EncodeIngest, Get, IsIntOrNull, IntJson, Fair;
    IntIsRead(l, r.sequence);
    IntIsRead(l, r.latencyMs);
    IngestKeysDistinct(r);
    NamesTell(r.provider, r.state, r.eventType, if r.speaker.Some? then r.speaker.value else User);
    FirstMembers(r);
    OtherMembers(r);
  }

  /**
   * A request can be sent exactly if it meets the contract: its dump is parsed back to it, or refused,
   * however lenient the parsing is with other numbers.
   */
  lemma DumpIsParsed(l: Leniency, r: IngestRequest)
    requires Fair(l)
    ensures ParseIngest(l, EncodeIngest(r)) == if MeetsContract(r) then Some(r) else None
  {
    hide MeetsContract, ProviderName, StateName, EventTypeName, SpeakerName, Named, DistinctKeys, INGEST_KEYS,
         OnlyKeys, EncodeIngest, Get, WellTyped, IntOrNone, IntJson, Fair;
    IntIsRead(l, r.sequence);
    IntIsRead(l, r.latencyMs);
    DumpIsWellTyped(l, r);
    IngestKeysDistinct(r);
    NamesTell(r.provider, r.state, r.eventType, if r.speaker.Some? then r.speaker.value else User);
    FirstMembers(r);
    OtherMembers(r);
  }

  lemma FirstAsSent(l: Leniency, fields: seq<Field>)
    requires WellTyped(l, fields)
    ensures var r := RequestOf(l, fields);
            && Get(fields, "session_id") == JStr(r.sessionId)
            && Get(fields, "call_id") == JStr(r.callId)
            && Get(fields, "merchant_id") == JStr(r.merchantId)
            && Get(fields, "provider") == JStr(ProviderName(r.provider))
            && Get(fields, "event_type") == JStr(EventTypeName(r.eventType))
            && Get(fields, "state") == JStr(StateName(r.state))
            && Get(fields, "speaker") == SpeakerJson(r.speaker)
            && Get(fields, "turn_id") == TextJson(r.turnId)
  {
    hide ProviderName, StateName, EventTypeName, SpeakerName, Get, OnlyKeys, IntOrNone, IsIntOrNull;
  }

  lemma OthersAsSent(l: Leniency, fields: seq<Field>)
    requires WellTyped(l, fields)
    ensures var r := RequestOf(l, fields);
            && IntOrNone(l, Get(fields, "sequence")) == r.sequence
            && Get(fields, "text") == TextJson(r.text)
            && IntOrNone(l, Get(fields, "latency_ms")) == r.latencyMs
            && Get(fields, "provider_event_type") == TextJson(r.providerEventType)
            && Get(fields, "tool_name") == TextJson(r.toolName)
            && Get(fields, "provider_call_id") == TextJson(r.providerCallId)
            && Get(fields, "tool_status") == TextJson(r.toolStatus)
            && Get(fields, "safe_summary") == TextJson(r.safeSummary)
  {
    hide ProviderName, StateName, EventTypeName, SpeakerName, Get, OnlyKeys, IntOrNone, IsIntOrNull;
  }

  /** The payload has this optional number, however it is written. */
  ghost predicate SaysNumber(l: Leniency, v: Json, o: Option<int>) {
    if v.JNull? then o.None? else o.Some? && l.asInt(v) == o
  }

  ghost predicate SaysHead(f: seq<Field>, r: IngestRequest) {
    && Get(f, "session_id") == JStr(r.sessionId) && Get(f, "call_id") == JStr(r.callId)
    && Get(f, "merchant_id") == JStr(r.merchantId) && Get(f, "provider") == JStr(ProviderName(r.provider))
    && Get(f, "event_type") == JStr(EventTypeName(r.eventType)) && Get(f, "state") == JStr(StateName(r.state))
    && Get(f, "speaker") == SpeakerJson(r.speaker) && Get(f, "turn_id") == TextJson(r.turnId)
  }

  ghost predicate SaysBody(l: Leniency, f: seq<Field>, r: IngestRequest) {
    && SaysNumber(l, Get(f, "sequence"), r.sequence) && Get(f, "text") == TextJson(r.text)
    && SaysNumber(l, Get(f, "latency_ms"), r.latencyMs)
    && Get(f, "provider_event_type") == TextJson(r.providerEventType) && Get(f, "tool_name") == TextJson(r.toolName)
    && Get(f, "provider_call_id") == TextJson(r.providerCallId) && Get(f, "tool_status") == TextJson(r.toolStatus)
    && Get(f, "safe_summary") == TextJson(r.safeSummary)
  }

  /** A payload is parsed to a request exactly if it says so and nothing beside, and the request meets the contract. */
  lemma ParseMeaning(l: Leniency, f: seq<Field>, r: IngestRequest)
    ensures ParseIngest(l, f) == Some(r) <==>
            OnlyKeys(f, INGEST_KEYS) && SaysHead(f, r) && SaysBody(l, f, r) && MeetsContract(r)
  {
    hide MeetsContract, WellTyped, RequestOf, OnlyKeys, INGEST_KEYS, SaysHead, SaysBody;
    if WellTyped(l, f) { TypedIsSaid(l, f); }
    if OnlyKeys(f, INGEST_KEYS) && SaysHead(f, r) && SaysBody(l, f, r) { SaidIsTyped(l, f, r); }
  }

  lemma TypedIsSaid(l: Leniency, f: seq<Field>)
    requires WellTyped(l, f)
    ensures OnlyKeys(f, INGEST_KEYS) && SaysHead(f, RequestOf(l, f)) && SaysBody(l, f, RequestOf(l, f))
  {
    hide ProviderName, StateName, EventTypeName, SpeakerName, Get, OnlyKeys, INGEST_KEYS, Named;
    FirstAsSent(l, f);
    OthersAsSent(l, f);
  }

  lemma SaidIsTyped(l: Leniency, f: seq<Field>, r: IngestRequest)
    requires OnlyKeys(f, INGEST_KEYS) && SaysHead(f, r) && SaysBody(l, f, r)
    ensures WellTyped(l, f) && RequestOf(l, f) == r
  {
    hide ProviderName, StateName, EventTypeName, SpeakerName, Get, OnlyKeys, INGEST_KEYS, Named;
    NamesTell(r.provider, r.state, r.eventType, if r.speaker.Some? then r.speaker.value else User);
  }

  // ---------------------------------------------------------------- words that a payload may use

  const STATE_WORDS := [
    "idle", "listening", "transcribing", "thinking", "tool_calling", "speaking", "handoff_pending", "ended", "error"]

  const EVENT_WORDS := [
    "session.connecting", "session.connected", "session.ended", "session.error", "transcript.user.delta",
    "transcript.user.done", "transcript.assistant.delta", "transcript.assistant.done", "tool_call.requested",
    "tool_call.result", "handoff.requested", "response.done"]

  const REASON_WORDS := [
    "none", "low_asr_confidence", "order_id_unconfirmed", "tool_error", "rag_low_confidence",
    "refund_or_return_exception", "complaint_or_angry_customer", "unsupported_intent", "customer_requests_human",
    "policy_sensitive"]

  predicate NamesInOrder<E>(members: seq<E>, nameOf: E -> string, words: seq<string>) {
    |members| == |words| && forall n :: 0 <= n < |words| ==> nameOf(members[n]) == words[n]
  }

  /** The words for the members of an enumeration are read, and no others. */
  lemma WordsAreRead<E>(members: seq<E>, nameOf: E -> string, words: seq<string>, w: string)
    requires NamesInOrder(members, nameOf, words)
    ensures Named(members, nameOf, w).Some? <==> w in words
  {
    if w in words {
      var n :| 0 <= n < |words| && words[n] == w;
      assert members[n] in members && nameOf(members[n]) == w;
    }
    if Named(members, nameOf, w).Some? {
      var n :| 0 <= n < |members| && members[n] == Named(members, nameOf, w).value;
      assert words[n] == w;
    }
  }

  lemma StatesInOrder()
    ensures NamesInOrder(STATES, StateName, STATE_WORDS)
  {
  }

  lemma EventTypesInOrder()
    ensures NamesInOrder(EVENT_TYPES, EventTypeName, EVENT_WORDS)
  {
  }

  lemma ReasonsInOrder()
    ensures NamesInOrder(REASONS, ReasonName, REASON_WORDS)
  {
  }

  /** The words that are read for a provider, a state, an event type, a speaker and a reason. */
  lemma WordsMeaning(w: string)
    ensures Provided(JStr(w)).Some? <==> w == "mock" || w == "openai_realtime" || w == "dashscope_realtime"
    ensures Spoken(JStr(w)).Some? <==> w == "user" || w == "assistant"
    ensures Stated(JStr(w)).Some? <==> w in STATE_WORDS
    ensures Typed(JStr(w)).Some? <==> w in EVENT_WORDS
    ensures Named(REASONS, ReasonName, w).Some? <==> w in REASON_WORDS
  {
    hide Named, STATES, STATE_WORDS, StateName, EVENT_TYPES, EVENT_WORDS, EventTypeName, REASONS, REASON_WORDS,
         ReasonName;
    StatesInOrder();
    EventTypesInOrder();
    ReasonsInOrder();
    WordsAreRead(PROVIDERS, ProviderName, ["mock", "openai_realtime", "dashscope_realtime"], w);
    WordsAreRead(SPEAKERS, SpeakerName, ["user", "assistant"], w);
    WordsAreRead(STATES, StateName, STATE_WORDS, w);
    WordsAreRead(EVENT_TYPES, EventTypeName, EVENT_WORDS, w);
    WordsAreRead(REASONS, ReasonName, REASON_WORDS, w);
  }
}
