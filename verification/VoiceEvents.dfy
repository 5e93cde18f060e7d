/** The events of the two logs, their dumps, and the lines that are written for them. */
module VoiceEvents {
  import opened Common
  import opened Contracts
  import opened JsonValues
  import opened EventLog
  import opened EventFiles
  import Redaction

  datatype EventKind = SessionCreated | Ingested(eventType: EventType) | ToolCalled

  /** `VoiceEvent`, but for the tool arguments, which every handler leaves out. */
  datatype VoiceEvent = VoiceEvent(
    eventId: string, timestamp: string, sessionId: string, callId: string, merchantId: string, state: SessionState,
    kind: EventKind, userText: Option<string>, assistantText: Option<string>, toolName: Option<string>,
    summary: Option<string>, handoffReason: Option<HandoffReason>, latencyMs: Option<int>, provider: Provider,
    providerEventType: Option<string>, providerCallId: Option<string>, toolStatus: Option<string>,
    redactionApplied: bool)

  /** `RealtimeTranscriptEvent`, which is always that of a finished transcript. */
  datatype TranscriptEvent = TranscriptEvent(
    eventId: string, timestamp: string, sessionId: string, callId: string, merchantId: string, speaker: Speaker,
    turnId: Option<string>, sequence: Option<int>, text: string, provider: Provider,
    providerEventType: Option<string>, redactionApplied: bool)

  function KindName(k: EventKind): string {
    match k
    case SessionCreated => "session_created"
    case Ingested(eventType) => EventTypeName(eventType)
    case ToolCalled => "tool_call"
  }

  function ReasonJson(o: Option<HandoffReason>): Json { if o.Some? then JStr(ReasonName(o.value)) else JNull }

  function DumpHead(e: VoiceEvent): seq<Field> {
    [ Field("event_id", JStr(e.eventId)),
      Field("timestamp", JStr(e.timestamp)),
      Field("session_id", JStr(e.sessionId)),
      Field("call_id", JStr(e.callId)),
      Field("merchant_id", JStr(e.merchantId)),
      Field("state", JStr(StateName(e.state))),
      Field("event_type", JStr(KindName(e.kind))),
      Field("transcript_text_redacted", TextJson(e.userText)),
      Field("response_text_redacted", TextJson(e.assistantText)),
      Field("tool_name", TextJson(e.toolName))]
  }

  function DumpBody(e: VoiceEvent): seq<Field> {
    [ Field("tool_arguments_redacted", JNull),
      Field("tool_result_summary", TextJson(e.summary)),
      Field("handoff_reason", ReasonJson(e.handoffReason)),
      Field("latency_ms", IntJson(e.latencyMs)),
      Field("provider", JStr(ProviderName(e.provider))),
      Field("provider_event_type", TextJson(e.providerEventType)),
      Field("provider_call_id", TextJson(e.providerCallId)),
      Field("tool_status", TextJson(e.toolStatus)),
      Field("redaction_applied", JBool(e.redactionApplied))]
  }

  /** `event.model_dump(mode="json")` */
  function Dump(e: VoiceEvent): seq<Field> { DumpHead(e) + DumpBody(e) }

  function DumpTranscript(t: TranscriptEvent): seq<Field> {
    [ Field("event_id", JStr(t.eventId)),
      Field("timestamp", JStr(t.timestamp)),
      Field("session_id", JStr(t.sessionId)),
      Field("call_id", JStr(t.callId)),
      Field("merchant_id", JStr(t.merchantId)),
      Field("speaker", JStr(SpeakerName(t.speaker))),
      Field("event_type", JStr("transcript_done")),
      Field("turn_id", TextJson(t.turnId)),
      Field("sequence", IntJson(t.sequence)),
      Field("text_redacted", JStr(t.text)),
      Field("provider", JStr(ProviderName(t.provider))),
      Field("provider_event_type", TextJson(t.providerEventType)),
      Field("redaction_applied", JBool(t.redactionApplied))]
  }

  /** What the default repositories write for an event. */
  function Line(e: VoiceEvent): (line: Json)
    ensures line.JObj?
  {
    LineOf(BasicRedaction(SanitizeFields(Dump(e))))
  }

  function TranscriptLine(t: TranscriptEvent): (line: Json)
    ensures line.JObj?
  {
    LineOf(BasicRedaction(DumpTranscript(t)))
  }

  function Lines(log: seq<VoiceEvent>): seq<Json> { seq(|log|, i requires 0 <= i < |log| => Line(log[i])) }

  function TranscriptLines(log: seq<TranscriptEvent>): seq<Json> {
    seq(|log|, i requires 0 <= i < |log| => TranscriptLine(log[i]))
  }

  // ---------------------------------------------------------------- the members of a dump

  /** Flat: no member holds an array or an object. */
  predicate IsAtom(v: Json) { !v.JArr? && !v.JObj? }

  predicate Flat(fields: seq<Field>) { forall i :: 0 <= i < |fields| ==> IsAtom(fields[i].value) }

  /** No blocked key has its length, or at least none of that length has its first letter. */
  predicate PlainlyAllowed(key: string) {
    |key| !in {3, 5, 9, 11, 13, 15} || (|key| in {5, 9, 11} && key[0] in {'s', 't', 'm'})
  }

  lemma PlainlyAllowedIsAllowed(key: string)
    requires PlainlyAllowed(key)
    ensures !IsBlockedKey(key)
  {
    if key != "" { assert Normalize(key)[0] == NormalizeChar(key[0]); }
  }

  predicate AllPlain(fields: seq<Field>) { forall i :: 0 <= i < |fields| ==> PlainlyAllowed(fields[i].key) }

  lemma HeadKeysTold(e: VoiceEvent)
    ensures EachToldApart(DumpHead(e)) && AllPlain(DumpHead(e)) && Flat(DumpHead(e))
  {
    hide StateName, KindName;
  }

  lemma BodyKeysTold(e: VoiceEvent)
    ensures EachToldApart(DumpBody(e)) && AllPlain(DumpBody(e)) && Flat(DumpBody(e))
  {
    hide ProviderName, ReasonName;
  }

  lemma OtherKeysTold(e: VoiceEvent)
    ensures ToldApartAcross(DumpHead(e), DumpBody(e))
  {
    hide StateName, KindName, ProviderName, TextJson, IntJson, ReasonJson;
  }

  lemma TranscriptKeysTold(t: TranscriptEvent)
    ensures EachToldApart(DumpTranscript(t))
  {
    hide SpeakerName, ProviderName, TextJson, IntJson;
  }

  lemma PlainIsAllowed(fields: seq<Field>)
    requires AllPlain(fields)
    ensures forall i :: 0 <= i < |fields| ==> !IsBlockedKey(fields[i].key)
  {
    hide PlainlyAllowed, IsBlockedKey;
    forall i | 0 <= i < |fields| ensures !IsBlockedKey(fields[i].key) { PlainlyAllowedIsAllowed(fields[i].key); }
  }

  /** No key is repeated, no member holds more than a leaf, and no key is blocked. */
  lemma DumpShape(e: VoiceEvent)
    ensures Flat(Dump(e)) && DistinctKeys(Dump(e)) && WellFormed(JObj(Dump(e)))
    ensures forall i :: 0 <= i < |Dump(e)| ==> !IsBlockedKey(Dump(e)[i].key)
  {
    hide DumpHead, DumpBody, PlainlyAllowed, IsBlockedKey;
    HeadKeysTold(e);
    BodyKeysTold(e);
    OtherKeysTold(e);
    ToldApartIsDistinct(DumpHead(e), DumpBody(e));
    PlainIsAllowed(Dump(e));
  }

  lemma TranscriptDumpShape(t: TranscriptEvent)
    ensures Flat(DumpTranscript(t)) && DistinctKeys(DumpTranscript(t)) && WellFormed(JObj(DumpTranscript(t)))
  {
    hide SpeakerName, ProviderName, ToldApart;
    TranscriptKeysTold(t);
    ToldApartIsDistinct(DumpTranscript(t), []);
    assert DumpTranscript(t) + [] == DumpTranscript(t);
  }

  /** A request holds no blocked key however it is filled, so its dump can always be sent. */
  lemma IngestHasNoBlockedKey(r: IngestRequest)
    ensures !HasBlockedKey(JObj(EncodeIngest(r)))
  {
    hide StateName, EventTypeName, ProviderName, SpeakerJson, TextJson, IntJson, IsBlockedKey, HasBlockedKey;
    var fields := EncodeIngest(r);
    IngestIsFlat(r);
    IngestIsPlain(r);
    PlainIsAllowed(fields);
    FlatIsSanitized(fields);
    SanitizeIdentityIffNothingFound(JObj(fields), "");
    PathsFindBlockedKeys(JObj(fields), "");
  }

  lemma IngestIsFlat(r: IngestRequest)
    ensures Flat(EncodeIngest(r))
  {
    hide StateName, EventTypeName, ProviderName, SpeakerName;
  }

  lemma IngestIsPlain(r: IngestRequest)
    ensures AllPlain(EncodeIngest(r))
  {
    hide StateName, EventTypeName, ProviderName, SpeakerJson, TextJson, IntJson;
  }

  // ---------------------------------------------------------------- members by name

  lemma HeadMembers(e: VoiceEvent)
    ensures var d := Dump(e);
            && Get(d, "event_id") == JStr(e.eventId)
            && Get(d, "timestamp") == JStr(e.timestamp)
            && Get(d, "session_id") == JStr(e.sessionId)
            && Get(d, "call_id") == JStr(e.callId)
            && Get(d, "merchant_id") == JStr(e.merchantId)
            && Get(d, "state") == JStr(StateName(e.state))
            && Get(d, "event_type") == JStr(KindName(e.kind))
            && Get(d, "transcript_text_redacted") == TextJson(e.userText)
            && Get(d, "response_text_redacted") == TextJson(e.assistantText)
            && Get(d, "tool_name") == TextJson(e.toolName)
  {
    hide Get, DistinctKeys, StateName, KindName, ProviderName, TextJson, IntJson, ReasonJson;
    DumpShape(e);
    GetAt(Dump(e), 0);
    GetAt(Dump(e), 1);
    GetAt(Dump(e), 2);
    GetAt(Dump(e), 3);
    GetAt(Dump(e), 4);
    GetAt(Dump(e), 5);
    GetAt(Dump(e), 6);
    GetAt(Dump(e), 7);
    GetAt(Dump(e), 8);
    GetAt(Dump(e), 9);
  }

  lemma BodyMembers(e: VoiceEvent)
    ensures var d := Dump(e);
            && Get(d, "tool_arguments_redacted") == JNull
            && Get(d, "tool_result_summary") == TextJson(e.summary)
            && Get(d, "handoff_reason") == ReasonJson(e.handoffReason)
            && Get(d, "latency_ms") == IntJson(e.latencyMs)
            && Get(d, "provider") == JStr(ProviderName(e.provider))
            && Get(d, "provider_event_type") == TextJson(e.providerEventType)
            && Get(d, "provider_call_id") == TextJson(e.providerCallId)
            && Get(d, "tool_status") == TextJson(e.toolStatus)
            && Get(d, "redaction_applied") == JBool(e.redactionApplied)
  {
    hide Get, DistinctKeys, StateName, KindName, ProviderName, TextJson, IntJson, ReasonJson;
    DumpShape(e);
    GetAt(Dump(e), 10);
    GetAt(Dump(e), 11);
    GetAt(Dump(e), 12);
    GetAt(Dump(e), 13);
    GetAt(Dump(e), 14);
    GetAt(Dump(e), 15);
    GetAt(Dump(e), 16);
    GetAt(Dump(e), 17);
    GetAt(Dump(e), 18);
  }

  lemma TranscriptMembers(t: TranscriptEvent)
    ensures var d := DumpTranscript(t);
            && Get(d, "event_id") == JStr(t.eventId)
            && Get(d, "timestamp") == JStr(t.timestamp)
            && Get(d, "session_id") == JStr(t.sessionId)
            && Get(d, "call_id") == JStr(t.callId)
            && Get(d, "merchant_id") == JStr(t.merchantId)
            && Get(d, "speaker") == JStr(SpeakerName(t.speaker))
            && Get(d, "event_type") == JStr("transcript_done")
            && Get(d, "turn_id") == TextJson(t.turnId)
            && Get(d, "sequence") == IntJson(t.sequence)
            && Get(d, "text_redacted") == JStr(t.text)
            && Get(d, "provider") == JStr(ProviderName(t.provider))
            && Get(d, "provider_event_type") == TextJson(t.providerEventType)
            && Get(d, "redaction_applied") == JBool(t.redactionApplied)
  {
    hide Get, DistinctKeys, SpeakerName, ProviderName, TextJson, IntJson;
    TranscriptDumpShape(t);
    GetAt(DumpTranscript(t), 0);
    GetAt(DumpTranscript(t), 1);
    GetAt(DumpTranscript(t), 2);
    GetAt(DumpTranscript(t), 3);
    GetAt(DumpTranscript(t), 4);
    GetAt(DumpTranscript(t), 5);
    GetAt(DumpTranscript(t), 6);
    GetAt(DumpTranscript(t), 7);
    GetAt(DumpTranscript(t), 8);
    GetAt(DumpTranscript(t), 9);
    GetAt(DumpTranscript(t), 10);
    GetAt(DumpTranscript(t), 11);
    GetAt(DumpTranscript(t), 12);
  }

  // ---------------------------------------------------------------- the written lines

  /** Sanitising drops nothing when every key is allowed and nothing lies below. */
  lemma {:induction false} FlatIsSanitized(fields: seq<Field>)
    requires Flat(fields) && forall i :: 0 <= i < |fields| ==> !IsBlockedKey(fields[i].key)
    ensures SanitizeFields(fields) == fields
  {
    if fields != [] { FlatIsSanitized(fields[1..]); }
  }

  /** The flag of a line is honest, and every other member is that of the dump, redacted. */
  predicate Reports(line: Json, dump: seq<Field>, own: bool) {
    && line.JObj?
    && Get(line.fields, FLAG) == JBool(own || RedactJson(JObj(dump)) != JObj(dump))
    && forall i :: 0 <= i < |dump| && dump[i].key != FLAG ==>
         Get(line.fields, dump[i].key) == RedactJson(dump[i].value)
  }

  lemma FlatLineReports(dump: seq<Field>, own: bool)
    requires Flat(dump) && DistinctKeys(dump) && Get(dump, FLAG) == JBool(own)
    ensures Reports(LineOf(BasicRedaction(dump)), dump, own)
  {
    hide Get, LineOf, BasicRedaction, DistinctKeys;
    LineMember(dump, FLAG, own);
    forall i | 0 <= i < |dump| && dump[i].key != FLAG
      ensures Get(LineOf(BasicRedaction(dump)).fields, dump[i].key) == RedactJson(dump[i].value)
    {
      GetAt(dump, i);
      LineMember(dump, dump[i].key, own);
      assert IsAtom(dump[i].value);
    }
  }

  /**
   * The line written for an event: nothing of the dump is dropped, each text is the redacted text of
   * the event, and nowhere in the line is there a blocked key, an email, an order number, a key, a
   * bearer token or a JWT; not even where the event itself has one.
   */
  lemma WrittenLineIsSafe(e: VoiceEvent)
    ensures Reports(Line(e), Dump(e), e.redactionApplied)
    ensures !HasBlockedKey(Line(e)) && AllTexts(Line(e), Redaction.CleanText)
  {
    hide Dump, Tells, SanitizeFields, LineOf, BasicRedaction, Get, Redaction.CleanText, AllTexts, HasBlockedKey;
    var dump := Dump(e);
    DumpShape(e);
    FlatIsSanitized(dump);
    LineHasNoBlockedKey(dump);
    LineTextsAreClean(dump);
    BodyMembers(e);
    FlatLineReports(dump, e.redactionApplied);
  }

  lemma WrittenTranscriptIsSafe(t: TranscriptEvent)
    ensures Reports(TranscriptLine(t), DumpTranscript(t), t.redactionApplied)
    ensures AllTexts(TranscriptLine(t), Redaction.CleanText)
  {
    hide DumpTranscript, Tells, LineOf, BasicRedaction, Get, Redaction.CleanText, AllTexts;
    TranscriptDumpShape(t);
    LineTextsAreClean(DumpTranscript(t));
    TranscriptMembers(t);
    FlatLineReports(DumpTranscript(t), t.redactionApplied);
  }

  /** In particular the tool result summary, which a log in memory may hold as a client sent it. */
  lemma SummaryIsWrittenRedacted(e: VoiceEvent)
    requires e.summary.Some?
    ensures Get(Line(e).fields, "tool_result_summary") == JStr(Redaction.RedactText(e.summary.value))
  {
    hide Line, Get, StateName, KindName, ProviderName, ReasonName, ReasonJson, IntJson, HasBlockedKey, AllTexts,
         Redaction.RedactText, Redaction.CleanText;
    WrittenLineIsSafe(e);
    assert Dump(e)[11] == Field("tool_result_summary", TextJson(e.summary));
  }
}
