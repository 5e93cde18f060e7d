/** Short runs of the realtime API that end otherwise than one may expect. */
module RealtimeExamples {
  import opened Common
  import opened Contracts
  import opened JsonValues
  import opened SessionStore
  import opened ToolRouter
  import opened VoiceEvents
  import opened RealtimeApi
  import opened RealtimeRuns
  import opened RealtimeTraces
  import EventLog
  import PhoneExamples
  import Patterns
  import Redaction
  import Regex
  import Text

  const NOBODY := Adapters(
    (_: OrderQuery) => NotConfigured, (_: OrderQuery) => NotConfigured, (_: KnowledgeQuery) => NotConfigured,
    (_: HandoffQuery) => NotConfigured)

  /** A secret of the provider for session "s". */
  function SecretFor(token: string, provider: Provider, expiresAt: Option<Expiry>): Input {
    var caller := Caller(Some(provider), true, true, "host", 1);
    ClientSecret("s", "c", "m", caller, Granted(provider, expiresAt), token, 0, Stamp("e1", "t1"))
  }

  function EndedRequest(provider: Provider): IngestRequest {
    IngestRequest("s", "c", "m", provider, SessionEnded, Ended,
                  None, None, None, None, None, None, None, None, None, None)
  }

  function EndedEvent(token: string, provider: Provider, lax: Leniency): Input {
    var payload := JObj(EncodeIngest(EndedRequest(provider)));
    Ingest(Some("bearer " + token), payload, lax, Structured, 1, Stamp("e2", "t2"), "t3")
  }

  /** A request for a human, which the adapter accepts. */
  function HandoffCall(token: string, reason: HandoffReason, summary: string, mode: Option<string>): Input {
    var arguments := [Field("reason", JStr(ReasonName(reason))), Field("summary", JStr(summary))];
    ToolCall(Some("bearer " + token), ToolRequest("s", "c", "m", "handoff_to_human", arguments),
             NOBODY.(handoff := (_: HandoffQuery) => Returns(HandoffReply(true, "h", mode))), 1, Stamp("e2", "t2"))
  }

  lemma OneSecret(token: string, provider: Provider, expiresAt: Option<Expiry>)
    ensures var i := SecretFor(token, provider, expiresAt);
            && Run([i]).sessions == map["s" := NewRecord("c", "m", provider, token, ExpiryOf(i.grant, 0))]
            && Run([i]).log == [CreationEvent(i, provider)]
  {
    var i := SecretFor(token, provider, expiresAt);
    assert [i][..0] == [];
    assert Run([i]) == Step(INITIAL, i).state;
    CreationStep(INITIAL, i);
  }

  lemma TwoSteps(first: Input, second: Input)
    ensures Run([first, second]) == Step(Run([first]), second).state
  {
    assert [first, second][..1] == [first];
  }

  lemma BearerIs(token: string)
    requires token != ""
    ensures BearerToken(Some("bearer " + token)) == Some(token)
  {
    assert "bearer " + token == "bearer" + " " + token;
    assert Text.Lower("bearer") == "bearer";
    BearerMeaning("bearer " + token, token);
  }

  /** The session has ended as far as its state goes, and its token is still good, until it expires. */
  lemma EndedSessionKeepsItsToken(token: string, provider: Provider, lax: Leniency, now: Time)
    requires token != "" && Fair(lax) && now < DEFAULT_TOOL_CALL_TOKEN_TTL
    ensures var m := Run([SecretFor(token, provider, None), EndedEvent(token, provider, lax)]).sessions;
            "s" in m && m["s"].state == Ended && Accepts(m, "s", token, "c", "m", provider, now)
  {
    hide Run, Step, EncodeIngest, ParseIngest, BearerToken, Fair;
    var first, i := SecretFor(token, provider, None), EndedEvent(token, provider, lax);
    OneSecret(token, provider, None);
    TwoSteps(first, i);
    var st := Run([first]);
    EndedEventIsGood(st, token, provider, lax);
    IngestedStateRevokesNothing(st, i);
    assert BindingVerdict(st.sessions["s"], token, "c", "m", provider, now) == Accepted;
  }

  /** What becomes of the event hangs on the verdict alone. */
  lemma EndedEventIsJudged(st: AppState, token: string, provider: Provider, lax: Leniency)
    requires token != "" && Fair(lax) && "s" in st.sessions
    ensures var i := EndedEvent(token, provider, lax);
            && Parsed(i) == Some(EndedRequest(provider))
            && match BindingVerdict(st.sessions["s"], token, "c", "m", provider, 1)
               case Accepted => Step(st, i).reply.EventAccepted?
               case Refused => Step(st, i).reply == Rejected(403)
               case Incomparable => Step(st, i).reply == Rejected(500)
  {
    hide Step, EncodeIngest, ParseIngest, BearerToken, EventLog.BlockedPaths, EventLog.HasBlockedKey, Fair;
    var i := EndedEvent(token, provider, lax);
    BearerIs(token);
    DumpIsParsed(lax, EndedRequest(provider));
    IngestHasNoBlockedKey(EndedRequest(provider));
    EventLog.PathsFindBlockedKeys(i.payload, "");
    IngestStep(st, i);
  }

  lemma EndedEventIsGood(st: AppState, token: string, provider: Provider, lax: Leniency)
    requires token != "" && Fair(lax) && "s" in st.sessions
    requires BindingAccepted(st.sessions["s"], token, "c", "m", provider, 1)
    ensures var i := EndedEvent(token, provider, lax);
            Step(st, i).reply.EventAccepted? && Parsed(i) == Some(EndedRequest(provider))
  {
    hide Step, Parsed, Fair;
    EndedEventIsJudged(st, token, provider, lax);
  }

  /** With an expiry that has no zone, the very token that was issued makes the next request raise. */
  lemma ZonelessSecretRaises(token: string, provider: Provider, lax: Leniency)
    requires token != "" && Fair(lax)
    ensures var first := SecretFor(token, provider, Some(NoZone));
            && Step(INITIAL, first).reply == SecretIssued(provider, token)
            && Step(Run([first]), EndedEvent(token, provider, lax)).reply == Rejected(500)
  {
    hide Run, Parsed, Fair, StepIngest, StepToolCall;
    OneSecret(token, provider, Some(NoZone));
    EndedEventIsJudged(Run([SecretFor(token, provider, Some(NoZone))]), token, provider, lax);
  }

  lemma HandoffArgumentsAreGood(token: string, reason: HandoffReason, summary: string, mode: Option<string>)
    requires summary != ""
    ensures var q := HandoffCall(token, reason, summary, mode).request;
            && q.toolName in ALLOWED_REALTIME_TOOL_NAMES
            && ValidateArguments(q.toolName, q.arguments) == Some(HandoffToHumanArguments(reason, summary))
  {
    hide ValidateArguments, ReasonName;
    var q := HandoffCall(token, reason, summary, mode).request;
    assert |"reason"| == 6 && |"summary"| == 7;
    ArgumentsMeaning(q.toolName, q.arguments, HandoffToHumanArguments(reason, summary));
  }

  /** Such a call is answered, and marks the session; it is logged as it was answered. */
  lemma HandoffIsAnswered(token: string, reason: HandoffReason, summary: string, mode: Option<string>)
    requires token != "" && summary != ""
    ensures var first, i := SecretFor(token, Mock, None), HandoffCall(token, reason, summary, mode);
            && Run([first, i]) == Step(Run([first]), i).state
            && Step(Run([first]), i).reply.ToolAnswered? && |Run([first]).log| == 1
            && Run([first]).sessions ==
                 map["s" := NewRecord("c", "m", Mock, token, Expires(DEFAULT_TOOL_CALL_TOKEN_TTL))]
  {
    hide Run, Step, ValidateArguments, BearerToken, Route, AfterToolCall;
    var first, i := SecretFor(token, Mock, None), HandoffCall(token, reason, summary, mode);
    OneSecret(token, Mock, None);
    TwoSteps(first, i);
    BearerIs(token);
    HandoffArgumentsAreGood(token, reason, summary, mode);
    GoodCallIsAnswered(Run([first]), i, token);
  }

  lemma GoodCallIsAnswered(st: AppState, i: Input, token: string)
    requires i.ToolCall? && BearerToken(i.authorization) == Some(token)
    requires var q := i.request;
             && q.sessionId in st.sessions && q.sessionId != "" && q.callId != "" && q.merchantId != ""
             && q.toolName != ""
             && q.toolName in ALLOWED_REALTIME_TOOL_NAMES && ValidateArguments(q.toolName, q.arguments).Some?
             && BindingAccepted(st.sessions[q.sessionId], token, q.callId, q.merchantId,
                                st.sessions[q.sessionId].provider, i.now)
    ensures Step(st, i).reply.ToolAnswered?
  {
    hide ValidateArguments, BearerToken, Route, AfterToolCall, StepIngest, StepClientSecret;
  }

  /**
   * Whatever a client writes in the summary of a handoff is in the event and in the session, word for
   * word, and in the written line only as redacted.
   */
  lemma HandoffSummaryIsKept(token: string, reason: HandoffReason, summary: string)
    requires token != "" && summary != ""
    ensures var st := Run([SecretFor(token, Mock, None), HandoffCall(token, reason, summary, Some("ticket"))]);
            && |st.log| == 2 && st.log[1].summary == Some(summary)
            && "s" in st.sessions && st.sessions["s"].toolCalls == [ToolCallEntry("handoff_to_human", summary)]
            && Get(Line(st.log[1]).fields, "tool_result_summary") == JStr(Redaction.RedactText(summary))
  {
    hide Run, Step, ValidateArguments, Redaction.CleanText, Line, Redaction.RedactText, Get;
    var i := HandoffCall(token, reason, summary, Some("ticket"));
    HandoffIsAnswered(token, reason, summary, Some("ticket"));
    HandoffArgumentsAreGood(token, reason, summary, Some("ticket"));
    var st := Run([SecretFor(token, Mock, None)]);
    ToolSummaryIsKept(st, i);
    SummaryIsWrittenRedacted(Step(st, i).state.log[1]);
  }

  /** For one, an order number with a phone number right behind it. */
  lemma UncleanSummaryIsKept(token: string)
    requires token != ""
    ensures var st := Run([SecretFor(token, Mock, None),
                           HandoffCall(token, CustomerRequestsHuman, "ORD1+12345678901", Some("ticket"))]);
            && |st.log| == 2 && st.log[1].summary == Some("ORD1+12345678901") && !CleanOption(st.log[1].summary)
            && Get(Line(st.log[1]).fields, "tool_result_summary") == JStr("[ORDER_REDACTED]" + "+12345678901")
  {
    hide Run, Line, Patterns.Pattern, Redaction.RedactText, PhoneExamples.IsOrderThenPhone, Get, Regex.Lang,
         Patterns.IsItem;
    var summary := "ORD1+12345678901";
    HandoffSummaryIsKept(token, CustomerRequestsHuman, summary);
    PhoneExamples.OrderAndNumber();
    PhoneExamples.OrderMatches(summary);
    Patterns.ItemIsMatch(Patterns.Order, summary, 0, 4);
    assert !Redaction.NoMatchOf(Patterns.Order, summary);
    PhoneExamples.RedactionIsNotIdempotent();
  }

  /** A handoff reply without a mode: the session is marked with the reason, the log says that a tool failed. */
  lemma FailedHandoffIsMarked(token: string, reason: HandoffReason, summary: string)
    requires token != "" && summary != ""
    ensures var st := Run([SecretFor(token, Mock, None), HandoffCall(token, reason, summary, None)]);
            && |st.log| == 2 && "s" in st.sessions
            && st.sessions["s"].state == HandoffPending && st.sessions["s"].handoffReason == Some(reason)
            && st.log[1].toolStatus == Some("failed") && st.log[1].handoffReason == Some(ToolFailure)
  {
    hide Run, Step, ValidateArguments;
    var i := HandoffCall(token, reason, summary, None);
    HandoffIsAnswered(token, reason, summary, None);
    HandoffArgumentsAreGood(token, reason, summary, None);
    AcceptedHandoff(Run([SecretFor(token, Mock, None)]), i);
    ToolCallStep(Run([SecretFor(token, Mock, None)]), i);
  }
}
