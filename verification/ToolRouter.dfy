/** `RealtimeToolRouter`: which tool calls are refused, and what the others answer. */
module ToolRouter {
  import opened Common
  import opened Contracts
  import opened JsonValues
  import opened SessionStore

  const ALLOWED_REALTIME_TOOL_NAMES: set<string> :=
    {"lookup_order", "lookup_logistics", "query_product_knowledge", "handoff_to_human"}

  datatype ToolRequest = ToolRequest(
    sessionId: string, callId: string, merchantId: string, toolName: string, arguments: seq<Field>)

  datatype ToolResponse = ToolResponse(
    ok: bool, toolName: string, result: Json, safeSummary: string, handoffRequired: bool,
    handoffReason: HandoffReason, errorCode: Option<ToolErrorCode>, status: ToolStatus, errorMessage: Option<string>)

  /** The three refusals, and the exception of a token whose expiry has no zone. */
  datatype RouterError = UnknownRealtimeTool | InvalidToolArguments | InvalidToolCallToken | TokenIncomparable

  /** What happens when an adapter is called: it may be missing, raise anything, or reply. */
  datatype AdapterCall<+T> = NotConfigured | Raises | Returns(reply: T)

  datatype OrderReply = OrderReply(ok: bool, safeFields: Json, userSummary: string, errorCode: Option<ToolErrorCode>)

  datatype LogisticsReply = LogisticsReply(
    ok: bool, status: Json, latestEvent: Json, estimatedDelivery: Json, carrier: Json, userSummary: string,
    errorCode: Option<ToolErrorCode>)

  datatype KnowledgeReply = KnowledgeReply(
    ok: bool, shortAnswer: string, citations: Json, confidence: real, handoffRecommended: bool,
    errorCode: Option<ToolErrorCode>)

  /** A reply whose mode has no value lets the answer fail after the session has been marked. */
  datatype HandoffReply = HandoffReply(ok: bool, handoffId: string, mode: Option<string>)

  datatype OrderQuery = OrderQuery(merchantId: string, orderId: string)

  datatype KnowledgeQuery = KnowledgeQuery(merchantId: string, locale: string, query: string)

  datatype HandoffQuery = HandoffQuery(
    callId: string, merchantId: string, intentPrimary: string, summary: string, toolsCalled: seq<string>,
    reason: HandoffReason, recommendedNextStep: string)

  /** How each adapter answers whatever it is asked. */
  datatype Adapters = Adapters(
    order: OrderQuery -> AdapterCall<OrderReply>, logistics: OrderQuery -> AdapterCall<LogisticsReply>,
    knowledge: KnowledgeQuery -> AdapterCall<KnowledgeReply>, handoff: HandoffQuery -> AdapterCall<HandoffReply>)

  // ---------------------------------------------------------------- arguments

  datatype Arguments =
    | LookupOrderArguments(orderId: string)
    | LookupLogisticsArguments(orderId: string)
    | QueryProductKnowledgeArguments(query: string, locale: Option<string>)
    | HandoffToHumanArguments(reason: HandoffReason, summary: string)

  function ReasonNamed(name: string): Option<HandoffReason> { Named(REASONS, ReasonName, name) }

  /** The argument schema of each tool; `None` stands for a validation error. */
  function ValidateArguments(toolName: string, fields: seq<Field>): Option<Arguments>
    requires toolName in ALLOWED_REALTIME_TOOL_NAMES
  {
    if toolName == "lookup_order" then
      (if OnlyKeys(fields, {"order_id"}) && IsText(Get(fields, "order_id"))
       then Some(LookupOrderArguments(Get(fields, "order_id").s)) else None)
    else if toolName == "lookup_logistics" then
      (if OnlyKeys(fields, {"order_id"}) && IsText(Get(fields, "order_id"))
       then Some(LookupLogisticsArguments(Get(fields, "order_id").s)) else None)
    else if toolName == "query_product_knowledge" then
      var locale := Get(fields, "locale");
      (if OnlyKeys(fields, {"query", "locale"}) && IsText(Get(fields, "query")) && (locale.JStr? || locale.JNull?)
       then Some(QueryProductKnowledgeArguments(Get(fields, "query").s, if locale.JStr? then Some(locale.s) else None))
       else None)
    else
      var reason := Get(fields, "reason");
      var summary := Get(fields, "summary");
      (if OnlyKeys(fields, {"reason", "summary"}) && reason.JStr? && ReasonNamed(reason.s).Some? && IsText(summary)
       then Some(HandoffToHumanArguments(ReasonNamed(reason.s).value, summary.s)) else None)
  }

  // ---------------------------------------------------------------- answers

  const SYSTEM_ERROR_SUMMARY :=
    "The backend tool had a temporary problem. " +
    "A human agent should review the request if the customer still needs help."

  /** `_safe_tool_system_error_response` */
  function SystemErrorResponse(request: ToolRequest): ToolResponse {
    ToolResponse(false, request.toolName, JObj([]), SYSTEM_ERROR_SUMMARY, true, ToolFailure, Some(SystemError), Failed,
                 Some(SYSTEM_ERROR_SUMMARY))
  }

  /** `None` stands for an exception, here and in the other three handlers. */
  function LookupOrder(request: ToolRequest, call: AdapterCall<OrderReply>): Option<ToolResponse> {
    if !call.Returns? then None
    else
      var reply := call.reply;
      Some(ToolResponse(
        reply.ok, request.toolName, reply.safeFields, reply.userSummary, !reply.ok,
        if reply.ok then NoReason else ToolFailure, reply.errorCode, if reply.ok then Completed else Failed,
        if reply.ok then None else Some(reply.userSummary)))
  }

  function LookupLogistics(request: ToolRequest, call: AdapterCall<LogisticsReply>): Option<ToolResponse> {
    if !call.Returns? then None
    else
      var reply := call.reply;
      var result := JObj([
        Field("status", reply.status), Field("latest_event", reply.latestEvent),
        Field("estimated_delivery", reply.estimatedDelivery), Field("carrier", reply.carrier)]);
      Some(ToolResponse(
        reply.ok, request.toolName, result, reply.userSummary, !reply.ok,
        if reply.ok then NoReason else ToolFailure, reply.errorCode, if reply.ok then Completed else Failed,
        if reply.ok then None else Some(reply.userSummary)))
  }

  function KnowledgeStatus(handoffRequired: bool, ok: bool): ToolStatus {
    if handoffRequired then HandoffRequired else if ok then Completed else Failed
  }

  function QueryProductKnowledge(request: ToolRequest, call: AdapterCall<KnowledgeReply>): Option<ToolResponse> {
    if !call.Returns? then None
    else
      var reply := call.reply;
      var handoffRequired := reply.handoffRecommended || !reply.ok;
      var result := JObj([
        Field("short_answer", JStr(reply.shortAnswer)), Field("citations", reply.citations),
        Field("confidence", JReal(reply.confidence))]);
      Some(ToolResponse(
        reply.ok, request.toolName, result, reply.shortAnswer, handoffRequired,
        if handoffRequired then RagLowConfidence else NoReason, reply.errorCode,
        KnowledgeStatus(handoffRequired, reply.ok), if reply.ok then None else Some(reply.shortAnswer)))
  }

  /** `None` for a reply without a usable mode, whatever it did before. */
  function HandoffResponse(request: ToolRequest, reason: HandoffReason, summary: string, reply: HandoffReply)
    : Option<ToolResponse>
  {
    if reply.mode.None? then None
    else
      var result := JObj([Field("handoff_id", JStr(reply.handoffId)), Field("mode", JStr(reply.mode.value))]);
      Some(ToolResponse(reply.ok, request.toolName, result, summary, true, reason, None, HandoffRequired,
                        if reply.ok then None else Some(summary)))
  }

  /** What is answered to a call whose arguments are good, and what is done to the store. */
  datatype Routed = Routed(response: ToolResponse, op: Option<StoreOp>)

  function OrSystemError(request: ToolRequest, response: Option<ToolResponse>): ToolResponse {
    if response.Some? then response.value else SystemErrorResponse(request)
  }

  function OrderAsked(request: ToolRequest, orderId: string): OrderQuery { OrderQuery(request.merchantId, orderId) }

  /** An empty locale counts as none. */
  function KnowledgeAsked(request: ToolRequest, query: string, locale: Option<string>): KnowledgeQuery {
    KnowledgeQuery(
      request.merchantId, if locale.Some? && locale.value != "" then locale.value else "en-US", query)
  }

  function HandoffAsked(request: ToolRequest, reason: HandoffReason, summary: string): HandoffQuery {
    HandoffQuery(request.callId, request.merchantId, "realtime_voice", summary, ["handoff_to_human"], reason,
                 "Human agent should review the realtime voice session.")
  }

  function Route(request: ToolRequest, arguments: Arguments, adapters: Adapters): Routed {
    match arguments
    case LookupOrderArguments(orderId) =>
      Routed(OrSystemError(request, LookupOrder(request, adapters.order(OrderAsked(request, orderId)))), None)
    case LookupLogisticsArguments(orderId) =>
      Routed(OrSystemError(request, LookupLogistics(request, adapters.logistics(OrderAsked(request, orderId)))), None)
    case QueryProductKnowledgeArguments(query, locale) =>
      var call := adapters.knowledge(KnowledgeAsked(request, query, locale));
      Routed(OrSystemError(request, QueryProductKnowledge(request, call)), None)
    case HandoffToHumanArguments(reason, summary) =>
      var call := adapters.handoff(HandoffAsked(request, reason, summary));
      if !call.Returns? then Routed(SystemErrorResponse(request), None)
      else
        var reply := call.reply;
        Routed(OrSystemError(request, HandoffResponse(request, reason, summary, reply)),
               if reply.ok then Some(MarkHandoff(request.sessionId, reason, reply.handoffId)) else None)
  }

  /** Why a call is refused before its arguments are looked at, if it is. */
  function Refusal(m: Sessions, request: ToolRequest, token: string, provider: Provider, now: Time)
    : Option<RouterError>
  {
    if request.toolName !in ALLOWED_REALTIME_TOOL_NAMES then Some(UnknownRealtimeTool)
    else if request.sessionId !in m then Some(InvalidToolCallToken)
    else
      match BindingVerdict(m[request.sessionId], token, request.callId, request.merchantId, provider, now)
      case Accepted => None
      case Refused => Some(InvalidToolCallToken)
      case Incomparable => Some(TokenIncomparable)
  }

  /** `execute`, on the sessions as they are. */
  function Execution(m: Sessions, request: ToolRequest, token: string, provider: Provider, now: Time,
                     adapters: Adapters)
    : Result<Routed, RouterError>
  {
    var refusal := Refusal(m, request, token, provider, now);
    if refusal.Some? then Err(refusal.value)
    else
      var arguments := ValidateArguments(request.toolName, request.arguments);
      if arguments.None? then Err(InvalidToolArguments) else Ok(Route(request, arguments.value, adapters))
  }

  function AfterRouting(m: Sessions, r: Routed): Sessions {
    if r.op.Some? then Apply(m, r.op.value) else m
  }

  // ---------------------------------------------------------------- what every answer keeps

  /** The fields of an answer tell one story. */
  predicate Coherent(r: ToolResponse) {
    && (!r.ok ==> r.handoffRequired)
    && (r.handoffRequired <==> r.status != Completed)
    && (r.errorMessage.Some? <==> !r.ok)
    && (r.errorMessage.Some? ==> r.errorMessage.value == r.safeSummary)
  }

  /** The adapter that a call reaches gave a reply that an answer can be built from. */
  predicate AdapterReplied(request: ToolRequest, arguments: Arguments, adapters: Adapters) {
    match arguments
    case LookupOrderArguments(orderId) => adapters.order(OrderAsked(request, orderId)).Returns?
    case LookupLogisticsArguments(orderId) => adapters.logistics(OrderAsked(request, orderId)).Returns?
    case QueryProductKnowledgeArguments(query, locale) =>
      adapters.knowledge(KnowledgeAsked(request, query, locale)).Returns?
    case HandoffToHumanArguments(reason, summary) =>
      var call := adapters.handoff(HandoffAsked(request, reason, summary));
      call.Returns? && call.reply.mode.Some?
  }

  /** The handoff adapter accepted the handoff, whether or not an answer can be built from its reply. */
  predicate HandoffAccepted(request: ToolRequest, arguments: Arguments, adapters: Adapters)
    requires arguments.HandoffToHumanArguments?
  {
    var call := adapters.handoff(HandoffAsked(request, arguments.reason, arguments.summary));
    call.Returns? && call.reply.ok
  }

  function HandoffIdOf(request: ToolRequest, arguments: Arguments, adapters: Adapters): string
    requires arguments.HandoffToHumanArguments? && HandoffAccepted(request, arguments, adapters)
  {
    adapters.handoff(HandoffAsked(request, arguments.reason, arguments.summary)).reply.handoffId
  }

  /**
   * Whatever the adapters do, a call with a good token and good arguments gets a coherent answer.  It
   * is the safe system error when the adapter is missing or raises, or replies to a handoff without a
   * mode.  The session is marked for handoff exactly when a handoff adapter accepted the handoff, in
   * that last case too.  A reason is given exactly for a handoff, except that `handoff_to_human` passes
   * on its own reason, which may be none.
   */
  lemma RoutingIsTotalAndCoherent(request: ToolRequest, arguments: Arguments, adapters: Adapters)
    ensures var r := Route(request, arguments, adapters);
            && Coherent(r.response) && r.response.toolName == request.toolName
            && (!AdapterReplied(request, arguments, adapters) ==> r.response == SystemErrorResponse(request))
            && (if arguments.HandoffToHumanArguments? && AdapterReplied(request, arguments, adapters)
                then r.response.handoffReason == arguments.reason && r.response.status == HandoffRequired
                else r.response.handoffRequired <==> r.response.handoffReason != NoReason)
            && (r.op.Some? <==>
                  arguments.HandoffToHumanArguments? && HandoffAccepted(request, arguments, adapters))
            && (r.op.Some? ==>
                  r.op.value == MarkHandoff(request.sessionId, arguments.reason,
                                            HandoffIdOf(request, arguments, adapters)))
  {
    hide OrderAsked, KnowledgeAsked, HandoffAsked;
    match arguments
    case LookupOrderArguments(_) =>
    case LookupLogisticsArguments(_) =>
    case QueryProductKnowledgeArguments(_, _) =>
    case HandoffToHumanArguments(_, _) =>
  }

  /** Only `handoff_to_human` takes handoff arguments. */
  lemma HandoffArgumentsNeedTheTool(toolName: string, fields: seq<Field>)
    requires toolName in ALLOWED_REALTIME_TOOL_NAMES
    ensures var a := ValidateArguments(toolName, fields);
            a.Some? && a.value.HandoffToHumanArguments? ==> toolName == "handoff_to_human"
  {
  }

  // ---------------------------------------------------------------- what an answer tells

  /** Success, words and error code as replied; a lookup that went well needs no one else. */
  predicate TellsLookup(r: ToolResponse, ok: bool, summary: string, errorCode: Option<ToolErrorCode>) {
    && (r.ok <==> ok) && r.safeSummary == summary && r.errorCode == errorCode
    && (ok ==> !r.handoffRequired && r.handoffReason == NoReason && r.status == Completed && r.errorMessage.None?)
    && (!ok ==> r.handoffRequired && r.handoffReason == ToolFailure && r.status == Failed &&
                r.errorMessage == Some(summary))
  }

  predicate TellsLogistics(r: ToolResponse, reply: LogisticsReply) {
    && TellsLookup(r, reply.ok, reply.userSummary, reply.errorCode) && r.result.JObj?
    && KeySet(r.result.fields) == {"status", "latest_event", "estimated_delivery", "carrier"}
    && Get(r.result.fields, "status") == reply.status && Get(r.result.fields, "latest_event") == reply.latestEvent
    && Get(r.result.fields, "estimated_delivery") == reply.estimatedDelivery
    && Get(r.result.fields, "carrier") == reply.carrier
  }

  /** Knowledge is handed over also when it was found and is not to be relied on. */
  predicate TellsKnowledge(r: ToolResponse, reply: KnowledgeReply) {
    && (r.ok <==> reply.ok) && r.safeSummary == reply.shortAnswer && r.errorCode == reply.errorCode && r.result.JObj?
    && KeySet(r.result.fields) == {"short_answer", "citations", "confidence"}
    && Get(r.result.fields, "short_answer") == JStr(reply.shortAnswer)
    && Get(r.result.fields, "citations") == reply.citations
    && Get(r.result.fields, "confidence") == JReal(reply.confidence)
    && (r.handoffRequired <==> reply.handoffRecommended || !reply.ok)
    && r.handoffReason in {NoReason, RagLowConfidence} && r.status in {Completed, HandoffRequired}
    && (r.handoffReason == RagLowConfidence <==> r.handoffRequired) && (r.status == Completed <==> !r.handoffRequired)
    && r.errorMessage == if reply.ok then None else Some(reply.shortAnswer)
  }

  predicate TellsHandoff(r: ToolResponse, reason: HandoffReason, summary: string, reply: HandoffReply) {
    && (r.ok <==> reply.ok) && r.safeSummary == summary && r.errorCode.None? && r.result.JObj?
    && KeySet(r.result.fields) == {"handoff_id", "mode"}
    && Get(r.result.fields, "handoff_id") == JStr(reply.handoffId)
    && reply.mode.Some? && Get(r.result.fields, "mode") == JStr(reply.mode.value)
    && r.handoffRequired && r.handoffReason == reason && r.status == HandoffRequired
    && r.errorMessage == if reply.ok then None else Some(summary)
  }

  /** Without a reply: a failure that a human is to look at, in fixed words. */
  predicate TellsSystemError(r: ToolResponse) {
    && !r.ok && r.result == JObj([]) && r.errorCode == Some(SystemError)
    && r.handoffRequired && r.handoffReason == ToolFailure && r.status == Failed
    && r.errorMessage == Some(r.safeSummary) && r.safeSummary == SYSTEM_ERROR_SUMMARY
  }

  /** The answer to a call with these arguments tells what the adapter it reaches replied. */
  predicate TellsTheReply(r: ToolResponse, request: ToolRequest, arguments: Arguments, adapters: Adapters)
    requires AdapterReplied(request, arguments, adapters)
  {
    match arguments
    case LookupOrderArguments(orderId) =>
      var reply := adapters.order(OrderAsked(request, orderId)).reply;
      TellsLookup(r, reply.ok, reply.userSummary, reply.errorCode) && r.result == reply.safeFields
    case LookupLogisticsArguments(orderId) =>
      TellsLogistics(r, adapters.logistics(OrderAsked(request, orderId)).reply)
    case QueryProductKnowledgeArguments(query, locale) =>
      TellsKnowledge(r, adapters.knowledge(KnowledgeAsked(request, query, locale)).reply)
    case HandoffToHumanArguments(reason, summary) =>
      TellsHandoff(r, reason, summary, adapters.handoff(HandoffAsked(request, reason, summary)).reply)
  }

  /** Nothing is answered but what the adapter replied, and a system error exactly when it gave no usable reply. */
  lemma AnswersTellTheReply(request: ToolRequest, arguments: Arguments, adapters: Adapters)
    ensures var r := Route(request, arguments, adapters).response;
            if AdapterReplied(request, arguments, adapters) then TellsTheReply(r, request, arguments, adapters)
            else TellsSystemError(r)
  {
    hide Get, TellsLogistics, TellsKnowledge, TellsHandoff, LookupLogistics, QueryProductKnowledge, HandoffResponse,
         OrderAsked, KnowledgeAsked, HandoffAsked;
    match arguments
    case LookupOrderArguments(_) =>
    case LookupLogisticsArguments(orderId) =>
      LogisticsAnswer(request, adapters.logistics(OrderAsked(request, orderId)));
    case QueryProductKnowledgeArguments(query, locale) =>
      KnowledgeAnswer(request, adapters.knowledge(KnowledgeAsked(request, query, locale)));
    case HandoffToHumanArguments(reason, summary) =>
      var call := adapters.handoff(HandoffAsked(request, reason, summary));
      if call.Returns? { HandoffAnswer(request, reason, summary, call.reply); }
  }

  /** Two sets of adapters give the same answer to the one question that these arguments put for this merchant. */
  ghost predicate AnswerAlike(a: Adapters, b: Adapters, callId: string, merchantId: string, arguments: Arguments) {
    match arguments
    case LookupOrderArguments(id) => a.order(OrderQuery(merchantId, id)) == b.order(OrderQuery(merchantId, id))
    case LookupLogisticsArguments(id) =>
      a.logistics(OrderQuery(merchantId, id)) == b.logistics(OrderQuery(merchantId, id))
    case QueryProductKnowledgeArguments(text, locale) =>
      var query := KnowledgeQuery(
        merchantId, if locale == None || locale == Some("") then "en-US" else locale.value, text);
      a.knowledge(query) == b.knowledge(query)
    case HandoffToHumanArguments(reason, summary) =>
      var query := HandoffQuery(callId, merchantId, "realtime_voice", summary, ["handoff_to_human"], reason,
                                "Human agent should review the realtime voice session.");
      a.handoff(query) == b.handoff(query)
  }

  /** Adapters are asked this one question and no other: nothing else that they know shows in what comes of a call. */
  lemma OneQuestionIsAsked(request: ToolRequest, arguments: Arguments, a: Adapters, b: Adapters)
    requires AnswerAlike(a, b, request.callId, request.merchantId, arguments)
    ensures Route(request, arguments, a) == Route(request, arguments, b)
  {
    hide LookupOrder, LookupLogistics, QueryProductKnowledge, HandoffResponse, OrSystemError;
  }

  lemma LogisticsAnswer(request: ToolRequest, call: AdapterCall<LogisticsReply>)
    ensures var r := LookupLogistics(request, call);
            if call.Returns? then r.Some? && TellsLogistics(r.value, call.reply) else r.None?
  {
    hide Get;
    if call.Returns? {
      var reply := call.reply;
      var fields := LookupLogistics(request, call).value.result.fields;
      MembersAreFound(fields);
      assert fields[0].key == "status" && fields[1].key == "latest_event";
      assert fields[2].key == "estimated_delivery" && fields[3].key == "carrier";
    }
  }

  lemma KnowledgeAnswer(request: ToolRequest, call: AdapterCall<KnowledgeReply>)
    ensures var r := QueryProductKnowledge(request, call);
            if call.Returns? then r.Some? && TellsKnowledge(r.value, call.reply) else r.None?
  {
    hide Get;
    if call.Returns? {
      var reply := call.reply;
      var fields := QueryProductKnowledge(request, call).value.result.fields;
      MembersAreFound(fields);
      assert fields[0].key == "short_answer" && fields[1].key == "citations" && fields[2].key == "confidence";
    }
  }

  lemma HandoffAnswer(request: ToolRequest, reason: HandoffReason, summary: string, reply: HandoffReply)
    ensures var r := HandoffResponse(request, reason, summary, reply);
            if reply.mode.Some? then r.Some? && TellsHandoff(r.value, reason, summary, reply) else r.None?
  {
    hide Get;
    if reply.mode.Some? {
      var fields := HandoffResponse(request, reason, summary, reply).value.result.fields;
      MembersAreFound(fields);
      assert fields[0].key == "handoff_id" && fields[1].key == "mode";
    }
  }

  /** How arguments are written; members come in any order. */
  predicate Spells(fields: seq<Field>, a: Arguments) {
    match a
    case LookupOrderArguments(orderId) => orderId != "" && fields == [Field("order_id", JStr(orderId))]
    case LookupLogisticsArguments(orderId) => orderId != "" && fields == [Field("order_id", JStr(orderId))]
    case QueryProductKnowledgeArguments(query, locale) =>
      query != "" &&
      if fields == [Field("query", JStr(query))] then locale.None?
      else AreTheTwo(fields, Field("query", JStr(query)), Field("locale", TextJson(locale)))
    case HandoffToHumanArguments(reason, summary) =>
      summary != "" && AreTheTwo(fields, Field("reason", JStr(ReasonName(reason))), Field("summary", JStr(summary)))
  }

  function ToolOf(a: Arguments): string {
    match a
    case LookupOrderArguments(_) => "lookup_order"
    case LookupLogisticsArguments(_) => "lookup_logistics"
    case QueryProductKnowledgeArguments(_, _) => "query_product_knowledge"
    case HandoffToHumanArguments(_, _) => "handoff_to_human"
  }

  lemma OrderIdMeaning(fields: seq<Field>, orderId: string)
    requires DistinctKeys(fields)
    ensures (OnlyKeys(fields, {"order_id"}) && IsText(Get(fields, "order_id")) &&
             Get(fields, "order_id").s == orderId) <==>
            orderId != "" && fields == [Field("order_id", JStr(orderId))]
  {
    if OnlyKeys(fields, {"order_id"}) { OneMember(fields, "order_id"); }
  }

  lemma QueryMeaning(fields: seq<Field>, query: string, locale: Option<string>)
    requires DistinctKeys(fields)
    ensures var a := QueryProductKnowledgeArguments(query, locale);
            ValidateArguments("query_product_knowledge", fields) == Some(a) <==> Spells(fields, a)
  {
    hide Get, OnlyKeys, DistinctKeys, ReasonNamed;
    assert |"query"| != |"locale"|;
    OneOrTwo(fields, Field("query", JStr(query)), Field("locale", TextJson(locale)));
    assert locale.None? <==> TextJson(locale) == JNull;
  }

  lemma HandoffMeaning(fields: seq<Field>, reason: HandoffReason, summary: string)
    requires DistinctKeys(fields)
    ensures var a := HandoffToHumanArguments(reason, summary);
            ValidateArguments("handoff_to_human", fields) == Some(a) <==> Spells(fields, a)
  {
    hide Get, OnlyKeys, DistinctKeys, ReasonName, REASONS;
    assert |"reason"| != |"summary"|;
    ReasonsTell(reason);
    OneOrTwo(fields, Field("reason", JStr(ReasonName(reason))), Field("summary", JStr(summary)));
  }

  /** Arguments are read exactly if they are those of the tool, each of them once and nothing beside them. */
  lemma ArgumentsMeaning(toolName: string, fields: seq<Field>, a: Arguments)
    requires toolName in ALLOWED_REALTIME_TOOL_NAMES && DistinctKeys(fields)
    ensures ValidateArguments(toolName, fields) == Some(a) <==> toolName == ToolOf(a) && Spells(fields, a)
  {
    hide Get, OnlyKeys, DistinctKeys;
    match a
    case LookupOrderArguments(orderId) => OrderIdMeaning(fields, orderId);
    case LookupLogisticsArguments(orderId) => OrderIdMeaning(fields, orderId);
    case QueryProductKnowledgeArguments(query, locale) => QueryMeaning(fields, query, locale);
    case HandoffToHumanArguments(reason, summary) => HandoffMeaning(fields, reason, summary);
  }

  // ---------------------------------------------------------------- the router

  class RealtimeToolRouter {
    const store: InMemoryVoiceSessionStore

    constructor (store: InMemoryVoiceSessionStore)
      ensures this.store == store
    {
      this.store := store;
    }

    method ValidateRequest(request: ToolRequest, token: string, provider: Provider, now: Time)
      returns (error: Option<RouterError>)
      requires store.Valid()
      ensures error ==
        if request.toolName !in ALLOWED_REALTIME_TOOL_NAMES then Some(UnknownRealtimeTool)
        else if Issued(store.History, request.sessionId, token, request.callId, request.merchantId, provider, now)
        then None
        else if IssuedWithoutZone(store.History, request.sessionId) then Some(TokenIncomparable)
        else Some(InvalidToolCallToken)
      ensures error == Refusal(store.View(), request, token, provider, now)
    {
      hide Issued, IssuedWithoutZone;
      if request.toolName !in ALLOWED_REALTIME_TOOL_NAMES { return Some(UnknownRealtimeTool); }
      var verdict := store.VerifySessionTokenBinding(
        request.sessionId, token, request.callId, request.merchantId, provider, now);
      if verdict == Err(IncomparableTimes) { return Some(TokenIncomparable); }
      if verdict.Err? || !verdict.value { return Some(InvalidToolCallToken); }
      return None;
    }

    method HandoffToHuman(request: ToolRequest, reason: HandoffReason, summary: string, call: AdapterCall<HandoffReply>)
      returns (response: Option<ToolResponse>)
      requires store.Valid() && request.sessionId in store.sessions
      modifies store`History, store.sessions[request.sessionId]
      ensures store.Valid()
      ensures response == if call.Returns? then HandoffResponse(request, reason, summary, call.reply) else None
      ensures store.View() == if call.Returns? && call.reply.ok
        then Apply(old(store.View()), MarkHandoff(request.sessionId, reason, call.reply.handoffId))
        else old(store.View())
    {
      if !call.Returns? { return None; }
      var reply := call.reply;
      if reply.ok {
        var marked := store.RecordHandoff(request.sessionId, reason, reply.handoffId);
      }
      return HandoffResponse(request, reason, summary, reply);
    }

    /** The part of `execute` in which an exception is answered as a system error. */
    method Dispatch(request: ToolRequest, arguments: Arguments, adapters: Adapters) returns (response: ToolResponse)
      requires store.Valid() && request.sessionId in store.sessions
      modifies store`History, store.sessions[request.sessionId]
      ensures store.Valid()
      ensures var routed := Route(request, arguments, adapters);
              response == routed.response && store.View() == AfterRouting(old(store.View()), routed)
    {
      hide Replay, Apply, LookupOrder, LookupLogistics, QueryProductKnowledge, HandoffResponse, SystemErrorResponse,
           OrderAsked, KnowledgeAsked, HandoffAsked;
      var built: Option<ToolResponse>;
      match arguments {
        case LookupOrderArguments(orderId) =>
          built := LookupOrder(request, adapters.order(OrderAsked(request, orderId)));
        case LookupLogisticsArguments(orderId) =>
          built := LookupLogistics(request, adapters.logistics(OrderAsked(request, orderId)));
        case QueryProductKnowledgeArguments(query, locale) =>
          built := QueryProductKnowledge(request, adapters.knowledge(KnowledgeAsked(request, query, locale)));
        case HandoffToHumanArguments(reason, summary) =>
          built := HandoffToHuman(request, reason, summary, adapters.handoff(HandoffAsked(request, reason, summary)));
      }
      return OrSystemError(request, built);
    }

    method Execute(request: ToolRequest, token: string, provider: Provider, now: Time, adapters: Adapters)
      returns (r: Result<ToolResponse, RouterError>)
      requires store.Valid()
      modifies store`History, if request.sessionId in store.sessions then {store.sessions[request.sessionId]} else {}
      ensures store.Valid()
      ensures var e := old(Execution(store.View(), request, token, provider, now, adapters));
              && r == (if e.Ok? then Ok(e.value.response) else Err(e.error))
              && store.View() == (if e.Ok? then AfterRouting(old(store.View()), e.value) else old(store.View()))
      ensures r.Ok? ==> Coherent(r.value)
    {
      hide Replay, Apply, ValidateArguments, Route, SystemErrorResponse, Coherent, AfterRouting, HandoffAccepted;
      var refused := ValidateRequest(request, token, provider, now);
      if refused.Some? { return Err(refused.value); }
      var arguments := ValidateArguments(request.toolName, request.arguments);
      if arguments.None? { return Err(InvalidToolArguments); }
      RoutingIsTotalAndCoherent(request, arguments.value, adapters);
      var response := Dispatch(request, arguments.value, adapters);
      return Ok(response);
    }
  }
}
