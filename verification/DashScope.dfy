/** The DashScope proxy: message envelopes, provider events, and the relay loop between them. */
module DashScope {
  import opened Common
  import opened Contracts
  import opened JsonValues
  import opened SessionStore
  import opened SensitiveItems
  import Text

  // ---------------------------------------------------------------- envelopes

  const ALLOWED_MESSAGE_TYPES: set<string> := {"audio", "control", "tool_result"}

  const BLOCKED_PROXY_KEYS: set<string> :=
    {"api_key", "authorization", "client_secret", "dashscope_api_key", "raw_arguments", "sdp", "tool_call_token"}

  predicate IsBlockedProxyKey(key: string) { Text.Lower(key) in BLOCKED_PROXY_KEYS }

  const PROXY_WORDS :=
    ["api_key", "authorization", "client_secret", "dashscope_api_key", "raw_arguments", "sdp", "tool_call_token"]

  /** Blocked keys are these words, in any case. */
  lemma ProxyKeyMeaning(key: string)
    ensures IsBlockedProxyKey(key) <==>
            exists n ::
              0 <= n < |PROXY_WORDS| && |key| == |PROXY_WORDS[n]| && WordAtIgnoringCase(key, 0, PROXY_WORDS[n])
  {
    forall n | 0 <= n < |PROXY_WORDS|
      ensures Text.Lower(key) == PROXY_WORDS[n] <==>
              |key| == |PROXY_WORDS[n]| && WordAtIgnoringCase(key, 0, PROXY_WORDS[n])
    {
      LowerMeaning(key, PROXY_WORDS[n]);
    }
    assert forall w :: w in BLOCKED_PROXY_KEYS <==> w in PROXY_WORDS;
  }

  lemma LowerMeaning(key: string, word: string)
    ensures Text.Lower(key) == word <==> |key| == |word| && WordAtIgnoringCase(key, 0, word)
  {
    if Text.Lower(key) == word {
      forall k | 0 <= k < |word| ensures Text.LowerChar(key[k]) == word[k - 0] { }
    }
  }

  /** `_reject_blocked_proxy_keys` raises. */
  predicate RejectsKeys(v: Json) {
    match v
    case JObj(fields) =>
      exists i :: 0 <= i < |fields| && (IsBlockedProxyKey(fields[i].key) || RejectsKeys(fields[i].value))
    case JArr(items) => exists i :: 0 <= i < |items| && RejectsKeys(items[i])
    case _ => false
  }

  /** What the validator makes of a message; `Crashes` is an exception other than its own. */
  datatype Envelope = Safe(messageType: string, payload: seq<Field>) | Invalid | Crashes

  /** A message type that is a list or an object cannot be looked up in a set, which raises a `TypeError`. */
  function ValidateProxyMessage(message: Json): Envelope {
    if !message.JObj? then Invalid
    else if KeySet(message.fields) != {"type", "payload"} then Invalid
    else
      var messageType, payload := Get(message.fields, "type"), Get(message.fields, "payload");
      if messageType.JArr? || messageType.JObj? then Crashes
      else if !messageType.JStr? || messageType.s !in ALLOWED_MESSAGE_TYPES then Invalid
      else if RejectsKeys(message) then Invalid
      else if !payload.JObj? then Invalid
      else Safe(messageType.s, payload.fields)
  }

  lemma {:induction false} RejectsKeysAtAnyDepth(v: Json)
    ensures RejectsKeys(v) <==> SomeKey(v, IsBlockedProxyKey)
  {
    SomeKeyBelowOrHere(v, IsBlockedProxyKey);
    match v
    case JObj(fields) =>
      forall i | 0 <= i < |fields|
        ensures Keys(v)[i] == fields[i].key && Child(v, i) == fields[i].value
        ensures RejectsKeys(fields[i].value) <==> SomeKey(Child(v, i), IsBlockedProxyKey)
      {
        RejectsKeysAtAnyDepth(fields[i].value);
      }
    case JArr(items) =>
      forall i | 0 <= i < |items|
        ensures RejectsKeys(items[i]) <==> SomeKey(Child(v, i), IsBlockedProxyKey)
      {
        RejectsKeysAtAnyDepth(items[i]);
      }
    case _ =>
  }

  /** The two members, in either order. */
  predicate HasParts(message: Json, messageType: Json, payload: Json) {
    message.JObj? && AreTheTwo(message.fields, Field("type", messageType), Field("payload", payload))
  }

  lemma PartsOf(message: Json)
    requires WellFormed(message) && message.JObj?
    ensures KeySet(message.fields) == {"type", "payload"} <==>
            HasParts(message, Get(message.fields, "type"), Get(message.fields, "payload"))
  {
    hide Get;
    var fields := message.fields;
    var a, b := "type", "payload";
    assert |a| != |b|;
    if KeySet(fields) == {a, b} {
      assert a in KeySet(fields) && b in KeySet(fields);
      TwoMembers(fields, a, b);
    }
    if HasParts(message, Get(fields, a), Get(fields, b)) {
      assert |fields| == 2 && fields[0] in fields && fields[1] in fields;
    }
  }

  /**
   * A message passes exactly when it is an object of a known `type` and an object `payload`, in either
   * order and with nothing else, in which no blocked key occurs at any depth; and then type and
   * payload are passed on as they are.  Looking it up fails exactly for a type that is a list or an object.
   */
  lemma EnvelopeMeaning(message: Json, messageType: string, payload: seq<Field>)
    requires WellFormed(message)
    ensures ValidateProxyMessage(message) == Safe(messageType, payload) <==>
            && HasParts(message, JStr(messageType), JObj(payload))
            && (messageType == "audio" || messageType == "control" || messageType == "tool_result")
            && !SomeKey(message, IsBlockedProxyKey)
    ensures ValidateProxyMessage(message) == Crashes <==>
            exists a, b :: HasParts(message, a, b) && (a.JArr? || a.JObj?)
  {
    hide RejectsKeys, IsBlockedProxyKey, SomeKey;
    RejectsKeysAtAnyDepth(message);
    if message.JObj? {
      PartsOf(message);
      PartsAreFound(message, JStr(messageType), JObj(payload));
    }
    if a, b :| HasParts(message, a, b) { PartsAreFound(message, a, b); }
  }

  lemma PartsAreFound(message: Json, messageType: Json, payload: Json)
    ensures HasParts(message, messageType, payload) ==>
            Get(message.fields, "type") == messageType && Get(message.fields, "payload") == payload
  {
    var a, b := "type", "payload";
    assert |a| != |b|;
  }

  // ---------------------------------------------------------------- provider events

  datatype NormalizeError = MissingField | UnsupportedEvent | ContractBroken

  /** `_string_field` */
  function StringField(payload: seq<Field>, name: string): Option<string> {
    var value := Get(payload, name);
    if value.JStr? && value.s != "" then Some(value.s) else None
  }

  /** `_build_event`, whose model raises unless the event meets the ingest contract. */
  function BuildEvent(sessionId: string, callId: string, merchantId: string, eventType: EventType, state: SessionState,
                      providerEventType: string, speaker: Option<Speaker>, text: Option<string>)
    : Result<IngestRequest, NormalizeError>
  {
    var event := IngestRequest(
      sessionId, callId, merchantId, DashScopeRealtime, eventType, state, speaker, None, None, text, None,
      Some(providerEventType), None, None, None, None);
    if MeetsContract(event) then Ok(event) else Err(ContractBroken)
  }

  /** `normalize_dashscope_event` */
  function NormalizeEvent(payload: seq<Field>, sessionId: string, callId: string, merchantId: string)
    : Result<IngestRequest, NormalizeError>
  {
    var name := StringField(payload, "type");
    if name.None? then Err(MissingField)
    else if name.value == "dashscope.session.started" then
      BuildEvent(sessionId, callId, merchantId, SessionConnected, Listening, name.value, None, None)
    else if name.value == "dashscope.session.finished" then
      BuildEvent(sessionId, callId, merchantId, SessionEnded, Ended, name.value, None, None)
    else if name.value == "dashscope.session.error" then
      BuildEvent(sessionId, callId, merchantId, SessionError, Error, name.value, None, None)
    else
      var entry := TranscriptEntryFor(name.value);
      if entry.None? then Err(UnsupportedEvent)
      else
        var (eventType, state, speaker) := entry.value;
        var text := StringField(payload, "text");
        if text.None? then Err(MissingField)
        else BuildEvent(sessionId, callId, merchantId, eventType, state, name.value, Some(speaker), text)
  }

  /** `DASHSCOPE_TRANSCRIPT_EVENT_MAP` */
  function TranscriptEntryFor(name: string): Option<(EventType, SessionState, Speaker)> {
    if name == "dashscope.transcript.user.delta" then Some((TranscriptUserDelta, Transcribing, User))
    else if name == "dashscope.transcript.user.done" then Some((TranscriptUserDone, Thinking, User))
    else if name == "dashscope.transcript.assistant.delta" then Some((TranscriptAssistantDelta, Speaking, Assistant))
    else if name == "dashscope.transcript.assistant.done" then Some((TranscriptAssistantDone, Listening, Assistant))
    else None
  }

  lemma UserDeltaName()
    ensures "dashscope." + EventTypeName(TranscriptUserDelta) == "dashscope.transcript.user.delta"
  {
  }

  lemma UserDoneName()
    ensures "dashscope." + EventTypeName(TranscriptUserDone) == "dashscope.transcript.user.done"
  {
  }

  lemma AssistantDeltaName()
    ensures "dashscope." + EventTypeName(TranscriptAssistantDelta) == "dashscope.transcript.assistant.delta"
  {
  }

  lemma AssistantDoneName()
    ensures "dashscope." + EventTypeName(TranscriptAssistantDone) == "dashscope.transcript.assistant.done"
  {
  }

  /** The provider's transcript events are ours, by the same speaker, under its own prefix. */
  lemma TranscriptNamesArePrefixed(name: string, t: EventType)
    requires IsTranscriptEvent(t)
    ensures var entry := TranscriptEntryFor(name);
            && (entry.Some? && entry.value.0 == t <==> name == "dashscope." + EventTypeName(t))
            && (entry.Some? && entry.value.0 == t ==> SpeakerOf(t) == Some(entry.value.2))
  {
    hide EventTypeName;
    UserDeltaName();
    UserDoneName();
    AssistantDeltaName();
    AssistantDoneName();
    assert |"dashscope.transcript.user.delta"| == 31 && |"dashscope.transcript.user.done"| == 30;
    assert |"dashscope.transcript.assistant.delta"| == 36 && |"dashscope.transcript.assistant.done"| == 35;
  }

  predicate IsSessionEventName(name: string) {
    name == "dashscope.session.started" || name == "dashscope.session.finished" || name == "dashscope.session.error"
  }

  /** The provider event can be turned into one of ours. */
  predicate Supported(payload: seq<Field>) {
    var name := StringField(payload, "type");
    name.Some? &&
    (IsSessionEventName(name.value) || (TranscriptEntryFor(name.value).Some? && StringField(payload, "text").Some?))
  }

  /**
   * For a session with ids, every supported provider event becomes an event that meets the ingest
   * contract, of this session and binding, with the provider's name and text; nothing else does.
   */
  lemma NormalizedMeetsContract(payload: seq<Field>, sessionId: string, callId: string, merchantId: string)
    ensures var r, ids := NormalizeEvent(payload, sessionId, callId, merchantId),
                          sessionId != "" && callId != "" && merchantId != "";
            && (r.Ok? <==> Supported(payload) && ids)
            && (r == Err(ContractBroken) <==> Supported(payload) && !ids)
            && (r.Ok? ==>
                  && MeetsContract(r.value) && r.value.sessionId == sessionId && r.value.callId == callId
                  && r.value.merchantId == merchantId && r.value.provider == DashScopeRealtime
                  && r.value.providerEventType == StringField(payload, "type")
                  && r.value.text == (
                      if IsTranscriptEvent(r.value.eventType) then StringField(payload, "text") else None))
  {
    hide StringField;
    var text := StringField(payload, "text");
    assert text.Some? ==> text.value != "" by { TextIsNonempty(payload, "text"); }
    TextIsNonempty(payload, "type");
  }

  /** What a provider event is called among ours, the state it brings, and who speaks in it. */
  predicate EventTable(name: string, typeName: string, stateName: string, speaker: Option<Speaker>) {
    || (name == "dashscope.session.started" && typeName == "session.connected" && stateName == "listening" &&
        speaker == None)
    || (name == "dashscope.session.finished" && typeName == "session.ended" && stateName == "ended" && speaker == None)
    || (name == "dashscope.session.error" && typeName == "session.error" && stateName == "error" && speaker == None)
    || (name == "dashscope.transcript.user.delta" && typeName == "transcript.user.delta" &&
        stateName == "transcribing" && speaker == Some(User))
    || (name == "dashscope.transcript.user.done" && typeName == "transcript.user.done" &&
        stateName == "thinking" && speaker == Some(User))
    || (name == "dashscope.transcript.assistant.delta" && typeName == "transcript.assistant.delta" &&
        stateName == "speaking" && speaker == Some(Assistant))
    || (name == "dashscope.transcript.assistant.done" && typeName == "transcript.assistant.done" &&
        stateName == "listening" && speaker == Some(Assistant))
  }

  /** An event of ours tells the provider event it was made of: by the table, and with its text if someone speaks. */
  ghost predicate Tells(e: IngestRequest, payload: seq<Field>) {
    var name := Get(payload, "type");
    && name.JStr? && EventTable(name.s, EventTypeName(e.eventType), StateName(e.state), e.speaker)
    && e.provider == DashScopeRealtime && e.providerEventType == Some(name.s)
    && (if e.speaker.Some? then e.text.Some? && Get(payload, "text") == JStr(e.text.value) else e.text.None?)
    && e.turnId.None? && e.sequence.None? && e.latencyMs.None?
  }

  lemma NormalizedTells(payload: seq<Field>, sessionId: string, callId: string, merchantId: string)
    ensures var r := NormalizeEvent(payload, sessionId, callId, merchantId);
            r.Ok? ==> Tells(r.value, payload)
  {
    hide MeetsContract;
  }

  lemma TextIsNonempty(payload: seq<Field>, name: string)
    ensures StringField(payload, name).Some? ==> StringField(payload, name).value != ""
  {
  }

  // ---------------------------------------------------------------- the relay

  datatype UpstreamAnswer = UpstreamRaises | UpstreamReturns(event: Json)

  /** One client message, what upstream answers to it, and the session's binding at that moment. */
  datatype Exchange = Exchange(message: Json, answer: UpstreamAnswer, callId: string, merchantId: string)

  datatype ProxyReply =
    | Ready(sessionId: string)
    | Acknowledged(messageType: string)
    | Event(provider: Provider, eventType: EventType, state: SessionState,
            speaker: Option<Speaker>, text: Option<string>)
    | InvalidEnvelope

  /** How the connection ends; `Aborted` is an exception that leaves the handler. */
  datatype Ending = Disconnected | ClosedInvalid | ClosedUnauthorized | Aborted

  /** The event made of an upstream answer, or `None` for an exception. */
  function Answer(sessionId: string, x: Exchange): Option<IngestRequest> {
    if x.answer.UpstreamRaises? || !x.answer.event.JObj? then None
    else
      var r := NormalizeEvent(x.answer.event.fields, sessionId, x.callId, x.merchantId);
      if r.Ok? then Some(r.value) else None
  }

  function EventReply(e: IngestRequest): ProxyReply { Event(e.provider, e.eventType, e.state, e.speaker, e.text) }

  predicate IsSafe(x: Exchange) { ValidateProxyMessage(x.message).Safe? }

  /** The exchange goes through and the loop goes on. */
  predicate Relayed(sessionId: string, transport: bool, x: Exchange) {
    IsSafe(x) && (transport ==> Answer(sessionId, x).Some?)
  }

  /** Upstream returns an object, and it is an event that can be turned into one of ours. */
  predicate AnswersWell(x: Exchange) {
    x.answer.UpstreamReturns? && x.answer.event.JObj? && Supported(x.answer.event.fields)
  }

  /** For a session with ids, an exchange is cut short by an answer exactly if it raises or is not supported. */
  lemma RelayedMeaning(sessionId: string, transport: bool, x: Exchange)
    requires sessionId != "" && x.callId != "" && x.merchantId != ""
    ensures Relayed(sessionId, transport, x) <==> IsSafe(x) && (transport ==> AnswersWell(x))
  {
    hide NormalizeEvent, Supported, ValidateProxyMessage;
    if AnswersWell(x) || Answer(sessionId, x).Some? {
      NormalizedMeetsContract(x.answer.event.fields, sessionId, x.callId, x.merchantId);
    }
  }

  /** What lets an exchange through, told from the message and from what upstream returns. */
  predicate Passes(transport: bool, x: Exchange) { IsSafe(x) && (transport ==> AnswersWell(x)) }

  /** `k` is the first exchange that does not pass, or their number if they all do. */
  predicate FirstToFail(transport: bool, xs: seq<Exchange>, k: nat) {
    && k <= |xs|
    && (forall j :: 0 <= j < k ==> Passes(transport, xs[j]))
    && (k < |xs| ==> !Passes(transport, xs[k]))
  }

  /** `k` exchanges go through, and no more. */
  predicate GoThrough(sessionId: string, transport: bool, xs: seq<Exchange>, k: nat) {
    && k <= |xs|
    && (forall j :: 0 <= j < k ==> Relayed(sessionId, transport, xs[j]))
    && (k < |xs| ==> !Relayed(sessionId, transport, xs[k]))
  }

  /** A whole connection, under bindings with ids, is cut at the first exchange that does not pass. */
  lemma CutIsFirstToFail(sessionId: string, transport: bool, xs: seq<Exchange>, k: nat)
    requires forall x :: x in xs ==> sessionId != "" && x.callId != "" && x.merchantId != ""
    ensures GoThrough(sessionId, transport, xs, k) <==> FirstToFail(transport, xs, k)
  {
    hide Relayed, IsSafe, AnswersWell;
    forall j | 0 <= j < |xs| ensures Relayed(sessionId, transport, xs[j]) <==> Passes(transport, xs[j]) {
      assert xs[j] in xs;
      RelayedMeaning(sessionId, transport, xs[j]);
    }
  }

  /** How many messages reach upstream: those that go through, and one more if it is the answer that stops the loop. */
  function SentUp(xs: seq<Exchange>, k: nat): nat
    requires k <= |xs|
  {
    if k < |xs| && IsSafe(xs[k]) then k + 1 else k
  }

  /** Upstream gets the first messages, each once, in order and as the client sent them. */
  predicate UpstreamGets(xs: seq<Exchange>, upstream: seq<Envelope>, n: nat) {
    |upstream| == n <= |xs| && forall j :: 0 <= j < n ==> upstream[j] == ValidateProxyMessage(xs[j].message)
  }

  /** After `Ready`, an acceptance for each message and, with a transport, the event that answers it. */
  predicate RepliesTo(sessionId: string, transport: bool, xs: seq<Exchange>, k: nat, sent: seq<ProxyReply>)
    requires k <= |xs|
  {
    && |sent| == 1 + (if transport then 2 * k else k) && sent[0] == Ready(sessionId)
    && forall j :: 0 <= j < k ==>
         Relayed(sessionId, transport, xs[j]) &&
         var accepted := Acknowledged(ValidateProxyMessage(xs[j].message).messageType);
         if transport then sent[1 + 2 * j] == accepted && sent[2 + 2 * j] == EventReply(Answer(sessionId, xs[j]).value)
         else sent[1 + j] == accepted
  }

  /** The last reply, if the loop was stopped by a message: one error, or one acceptance without its event. */
  function LastReply(xs: seq<Exchange>, k: nat): seq<ProxyReply>
    requires k <= |xs|
  {
    if k == |xs| then []
    else
      match ValidateProxyMessage(xs[k].message)
      case Safe(messageType, _) => [Acknowledged(messageType)]
      case Invalid => [InvalidEnvelope]
      case Crashes => []
  }

  function EndingAfter(xs: seq<Exchange>, k: nat): Ending
    requires k <= |xs|
  {
    if k == |xs| then Disconnected else if ValidateProxyMessage(xs[k].message).Invalid? then ClosedInvalid else Aborted
  }

  /**
   * What a relay of `xs` comes to, `k` being the number of exchanges that go through.  Upstream gets
   * exactly the messages before the first bad envelope, cut short only by an answer that no event can be
   * made of (`RelayedMeaning` says which); the client gets one acceptance and one event for each,
   * and then at most one reply more.
   */
  ghost predicate Outcome(sessionId: string, transport: bool, xs: seq<Exchange>, k: nat, sent: seq<ProxyReply>,
                          upstream: seq<Envelope>, ending: Ending) {
    && GoThrough(sessionId, transport, xs, k)
    && UpstreamGets(xs, upstream, if transport then SentUp(xs, k) else 0)
    && (exists head :: sent == head + LastReply(xs, k) && RepliesTo(sessionId, transport, xs, k, head))
    && ending == EndingAfter(xs, k)
  }

  /** An error reply closes the connection, is the last thing sent, and is sent for a bad envelope only. */
  lemma ErrorComesLast(sessionId: string, transport: bool, xs: seq<Exchange>, k: nat, sent: seq<ProxyReply>,
                       upstream: seq<Envelope>, ending: Ending, n: nat)
    requires Outcome(sessionId, transport, xs, k, sent, upstream, ending)
    ensures n < |sent| && sent[n] == InvalidEnvelope <==> ending == ClosedInvalid && n == |sent| - 1
  {
    hide ValidateProxyMessage, Answer;
    var head :| sent == head + LastReply(xs, k) && RepliesTo(sessionId, transport, xs, k, head);
    if n < |head| && n > 0 {
      var j := if transport then (n - 1) / 2 else n - 1;
      assert Relayed(sessionId, transport, xs[j]);
      assert n == 1 + j || n == 1 + 2 * j || n == 2 + 2 * j;
    }
  }

  /** What the client is told of the event that upstream returned. */
  ghost predicate TellsClient(reply: ProxyReply, payload: seq<Field>) {
    var name := Get(payload, "type");
    && reply.Event? && reply.provider == DashScopeRealtime && name.JStr?
    && EventTable(name.s, EventTypeName(reply.eventType), StateName(reply.state), reply.speaker)
    && TextJson(reply.text) == if reply.speaker.Some? then Get(payload, "text") else JNull
  }

  /** An exchange that goes through: what upstream gets of the message, and what the client gets of the answer. */
  lemma RelayedIsTold(sessionId: string, xs: seq<Exchange>, k: nat, sent: seq<ProxyReply>, upstream: seq<Envelope>,
                      ending: Ending, j: nat)
    requires Outcome(sessionId, true, xs, k, sent, upstream, ending) && j < k && WellFormed(xs[j].message)
    ensures |upstream| > j && |sent| > 2 + 2 * j && xs[j].answer.UpstreamReturns? && xs[j].answer.event.JObj?
    ensures var messageType, payload := Get(xs[j].message.fields, "type"), Get(xs[j].message.fields, "payload");
            && messageType.JStr? && payload.JObj? && HasParts(xs[j].message, messageType, payload)
            && upstream[j] == Safe(messageType.s, payload.fields) && sent[1 + 2 * j] == Acknowledged(messageType.s)
    ensures TellsClient(sent[2 + 2 * j], xs[j].answer.event.fields)
  {
    hide ValidateProxyMessage, NormalizeEvent, SomeKey, EventTable, HasParts;
    var x := xs[j];
    var head :| sent == head + LastReply(xs, k) && RepliesTo(sessionId, true, xs, k, head);
    assert Relayed(sessionId, true, x) && head[2 + 2 * j] == EventReply(Answer(sessionId, x).value);
    var envelope := ValidateProxyMessage(x.message);
    EnvelopeMeaning(x.message, envelope.messageType, envelope.payload);
    PartsAreFound(x.message, JStr(envelope.messageType), JObj(envelope.payload));
    NormalizedTells(x.answer.event.fields, sessionId, x.callId, x.merchantId);
  }

  /** The message loop; the client disconnects after its last message. */
  method RelayMessages(sessionId: string, transport: bool, xs: seq<Exchange>)
    returns (sent: seq<ProxyReply>, upstream: seq<Envelope>, ending: Ending)
    ensures exists k :: Outcome(sessionId, transport, xs, k, sent, upstream, ending)
  {
    hide ValidateProxyMessage, Answer, EventReply;
    sent, upstream := [Ready(sessionId)], [];
    var received := 0;
    while true
      invariant received <= |xs|
      invariant RepliesTo(sessionId, transport, xs, received, sent)
      invariant UpstreamGets(xs, upstream, if transport then received else 0)
      decreases |xs| - received
    {
      ghost var k, head := received, sent;
      if received == |xs| {
        assert sent == head + LastReply(xs, k);
        assert Outcome(sessionId, transport, xs, k, sent, upstream, Disconnected);
        return sent, upstream, Disconnected;
      }
      var x := xs[received];
      received := received + 1;
      var safeMessage := ValidateProxyMessage(x.message);
      if safeMessage.Crashes? {
        assert sent == head + LastReply(xs, k);
        assert Outcome(sessionId, transport, xs, k, sent, upstream, Aborted);
        return sent, upstream, Aborted;
      }
      if safeMessage.Invalid? {
        sent := sent + [InvalidEnvelope];
        assert Outcome(sessionId, transport, xs, k, sent, upstream, ClosedInvalid);
        return sent, upstream, ClosedInvalid;
      }
      sent := sent + [Acknowledged(safeMessage.messageType)];
      if transport {
        upstream := upstream + [safeMessage];
        var normalizedEvent := Answer(sessionId, x);
        if normalizedEvent.None? {
          assert Outcome(sessionId, transport, xs, k, sent, upstream, Aborted);
          return sent, upstream, Aborted;
        }
        sent := sent + [EventReply(normalizedEvent.value)];
      }
    }
  }

  /** Some binding of the session, under this provider, that the history issued the token for. */
  ghost predicate IssuedForSome(ops: seq<StoreOp>, id: string, token: string, now: Time) {
    exists callId, merchantId :: Issued(ops, id, token, callId, merchantId, DashScopeRealtime, now)
  }

  /**
   * The handler: the token first, then the loop.  A session whose expiry has no zone raises before the
   * connection is accepted.
   */
  method DashscopeRealtimeProxy(store: InMemoryVoiceSessionStore, sessionId: string, token: Option<string>, now: Time,
                                transport: bool, xs: seq<Exchange>)
    returns (sent: seq<ProxyReply>, upstream: seq<Envelope>, ending: Ending)
    requires store.Valid()
    ensures if token.Some? && IssuedForSome(store.History, sessionId, token.value, now) then
              exists k :: Outcome(sessionId, transport, xs, k, sent, upstream, ending)
            else
              sent == [] && upstream == [] &&
              ending ==
                if token.Some? && IssuedWithoutZone(store.History, sessionId) then Aborted else ClosedUnauthorized
  {
    hide Outcome, Issued, IssuedWithoutZone, Replay, IssuedForSome;
    if token.None? { return [], [], ClosedUnauthorized; }
    var found := store.GetSession(sessionId);
    AdmittedIffIssued(store.History, sessionId, token.value, now);
    if found.Err? { return [], [], ClosedUnauthorized; }
    var tokenIsValid := store.VerifyToolCallToken(sessionId, token.value, now);
    if tokenIsValid == Err(IncomparableTimes) { return [], [], Aborted; }
    if found.value.provider != DashScopeRealtime || tokenIsValid.Err? || !tokenIsValid.value {
      return [], [], ClosedUnauthorized;
    }
    sent, upstream, ending := RelayMessages(sessionId, transport, xs);
  }

  /** A good token of a DashScope session is one that the history issued for some binding. */
  lemma AdmittedIffIssued(ops: seq<StoreOp>, id: string, token: string, now: Time)
    ensures var m := Replay(ops);
            && ((id in m && m[id].provider == DashScopeRealtime && TokenVerdict(m[id], token, now).Accepted?) <==>
                  IssuedForSome(ops, id, token, now))
            && ((id in m && TokenVerdict(m[id], token, now).Incomparable?) <==> IssuedWithoutZone(ops, id))
  {
    hide Issued, Replay, IssuedWithoutZone;
    forall callId, merchantId
      ensures Issued(ops, id, token, callId, merchantId, DashScopeRealtime, now) <==>
              id in Replay(ops) && BindingAccepted(Replay(ops)[id], token, callId, merchantId, DashScopeRealtime, now)
    {
      VerdictIsHistory(ops, id, token, callId, merchantId, DashScopeRealtime, now);
    }
    VerdictIsHistory(ops, id, token, "", "", DashScopeRealtime, now);
    if id in Replay(ops) && Replay(ops)[id].provider == DashScopeRealtime &&
       TokenVerdict(Replay(ops)[id], token, now).Accepted? {
      var s := Replay(ops)[id];
      assert Issued(ops, id, token, s.callId, s.merchantId, DashScopeRealtime, now);
    }
  }
}
