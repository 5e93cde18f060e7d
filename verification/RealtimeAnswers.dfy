/** Which answer a request gets in any run, told from the requests before it. */
module RealtimeAnswers {
  import opened Common
  import opened Contracts
  import opened SessionStore
  import opened ToolRouter
  import opened VoiceEvents
  import opened RealtimeApi
  import opened RealtimeRuns
  import opened RealtimeTraces
  import EventLog
  import JsonValues
  import Text

  /** A secret has been given for the session. */
  ghost predicate Known(inputs: seq<Input>, id: string) { exists k :: LatestGiven(inputs, k, id) }

  /** There is a header of the form `bearer <token>`. */
  ghost predicate HasToken(authorization: Option<string>) {
    exists scheme, token :: IsBearer(authorization, scheme, token)
  }

  predicate IsBearer(authorization: Option<string>, scheme: string, token: string) {
    token != "" && authorization == Some(scheme + " " + token) && Text.Lower(scheme) == "bearer"
  }

  lemma TokenIsThere(authorization: Option<string>)
    ensures HasToken(authorization) <==> BearerToken(authorization).Some?
  {
    hide BearerToken;
    if scheme, token :| IsBearer(authorization, scheme, token) { BearerMeaning(scheme + " " + token, token); }
    BearerMeaning("", "");
    if BearerToken(authorization).Some? {
      BearerMeaning(authorization.value, BearerToken(authorization).value);
      var token := BearerToken(authorization).value;
      var scheme :| authorization.value == scheme + " " + token && Text.Lower(scheme) == "bearer";
      assert IsBearer(authorization, scheme, token);
    }
  }

  // ---------------------------------------------------------------- ingested events

  /** The payload is free of blocked keys and meets the contract. */
  ghost predicate GoodPayload(i: Input)
    requires i.Ingest?
  {
    !EventLog.HasBlockedKey(i.payload) && Parsed(i).Some?
  }

  /** It comes with a token that was given for the binding it names. */
  ghost predicate GoodToken(inputs: seq<Input>, i: Input)
    requires i.Ingest? && Parsed(i).Some?
  {
    var r := Parsed(i).value;
    BringsToken(inputs, i.authorization, r.sessionId, r.callId, r.merchantId, r.provider, i.now)
  }

  /** The answers to a payload, one for each way in which it can fail. */
  lemma IngestAnswers(inputs: seq<Input>, i: Input)
    requires i.Ingest?
    ensures var reply := Step(Run(inputs), i).reply;
            && (reply.EventAccepted? <==> GoodPayload(i) && GoodToken(inputs, i))
            && (reply == Rejected(401) <==> i.payload.JObj? && !HasToken(i.authorization))
            && (reply == Rejected(422) <==>
                  !i.payload.JObj? || (HasToken(i.authorization) && !GoodPayload(i)))
            && (reply == Rejected(500) <==>
                  HasToken(i.authorization) && GoodPayload(i) && GivenWithoutZone(inputs, Parsed(i).value.sessionId))
            && (reply == Rejected(403) <==>
                  HasToken(i.authorization) && GoodPayload(i) && !GoodToken(inputs, i) &&
                  !GivenWithoutZone(inputs, Parsed(i).value.sessionId))
  {
    hide Run, Step, GivenAt, GivenWithoutZone, AnyRedaction, ParseIngest, EventLog.HasBlockedKey,
         EventLog.BlockedPaths, BearerToken, HasToken;
    TokenIsThere(i.authorization);
    IngestStep(Run(inputs), i);
    EventLog.PathsFindBlockedKeys(i.payload, "");
    var token := BearerToken(i.authorization);
    if Parsed(i).Some? && token.Some? {
      var r := Parsed(i).value;
      TokenVerdictOfARun(inputs, r.sessionId, token.value, r.callId, r.merchantId, r.provider, i.now);
    }
  }

  /**
   * The same told from the sender's side: the dump of a request is accepted exactly when the request
   * meets the contract and brings a good token; it holds no blocked key and is read back as it was.
   */
  lemma SentEventAcceptedIff(inputs: seq<Input>, i: Input, r: IngestRequest)
    requires i.Ingest? && JsonValues.Fair(i.lax) && i.payload == JsonValues.JObj(EncodeIngest(r))
    ensures Step(Run(inputs), i).reply.EventAccepted? <==>
            MeetsContract(r) &&
            BringsToken(inputs, i.authorization, r.sessionId, r.callId, r.merchantId, r.provider, i.now)
    ensures MeetsContract(r) ==> Parsed(i) == Some(r)
  {
    hide Run, Step, BringsToken, EventLog.HasBlockedKey, MeetsContract, ParseIngest, EncodeIngest;
    IngestAnswers(inputs, i);
    IngestHasNoBlockedKey(r);
    DumpIsParsed(i.lax, r);
  }

  // ---------------------------------------------------------------- tool calls

  predicate HasIds(q: ToolRequest) { q.sessionId != "" && q.callId != "" && q.merchantId != "" && q.toolName != "" }

  /** The token was given for the call and the merchant of the request, by whatever provider. */
  ghost predicate GoodCallToken(inputs: seq<Input>, i: Input)
    requires i.ToolCall?
  {
    var q := i.request;
    exists provider :: BringsToken(inputs, i.authorization, q.sessionId, q.callId, q.merchantId, provider, i.now)
  }

  /** The answers to a tool call; a call of an unknown session is turned away before its tool is looked at. */
  lemma ToolCallAnswers(inputs: seq<Input>, i: Input)
    requires i.ToolCall?
    ensures var reply, q := Step(Run(inputs), i).reply, i.request;
            var asked := HasIds(q) && HasToken(i.authorization);
            var allowed := q.toolName in ALLOWED_REALTIME_TOOL_NAMES;
            var good := allowed && ValidateArguments(q.toolName, q.arguments).Some?;
            && (reply.ToolAnswered? <==> asked && good && GoodCallToken(inputs, i))
            && (reply == Rejected(401) <==> HasIds(q) && !HasToken(i.authorization))
            && (reply == Rejected(400) <==> asked && Known(inputs, q.sessionId) && !allowed)
            && (reply == Rejected(422) <==> !HasIds(q) || (asked && allowed && !good && GoodCallToken(inputs, i)))
            && (reply == Rejected(500) <==> asked && allowed && GivenWithoutZone(inputs, q.sessionId))
            && (reply == Rejected(403) <==>
                  && asked && (allowed || !Known(inputs, q.sessionId))
                  && !GoodCallToken(inputs, i) && !GivenWithoutZone(inputs, q.sessionId))
  {
    hide Run, GivenAt, LatestGiven, BearerToken, ValidateArguments, Route, AfterToolCall, ALLOWED_REALTIME_TOOL_NAMES,
         HasToken;
    TokenIsThere(i.authorization);
    var q, token := i.request, BearerToken(i.authorization);
    var m := Run(inputs).sessions;
    SessionsComeFromSecrets(inputs, q.sessionId);
    if token.Some? {
      forall provider
        ensures BringsToken(inputs, i.authorization, q.sessionId, q.callId, q.merchantId, provider, i.now) <==>
                Accepts(m, q.sessionId, token.value, q.callId, q.merchantId, provider, i.now)
      {
        TokenVerdictOfARun(inputs, q.sessionId, token.value, q.callId, q.merchantId, provider, i.now);
      }
      var provider := if q.sessionId in m then m[q.sessionId].provider else Mock;
      TokenVerdictOfARun(inputs, q.sessionId, token.value, q.callId, q.merchantId, provider, i.now);
      assert BringsToken(inputs, i.authorization, q.sessionId, q.callId, q.merchantId, provider, i.now) <==>
             Accepts(m, q.sessionId, token.value, q.callId, q.merchantId, provider, i.now);
    }
  }

  /** The call put to other adapters. */
  function WithAdapters(i: Input, adapters: Adapters): Input
    requires i.ToolCall?
  {
    i.(adapters := adapters)
  }

  /**
   * A tool call asks for the call and the merchant that its token was given for, and for these alone:
   * adapters that give the same answer to that one question lead to the same answer and the same state.
   */
  lemma OnlyTheBoundMerchantIsAskedFor(inputs: seq<Input>, i: Input, other: Adapters, k: nat)
    requires i.ToolCall? && Step(Run(inputs), i).reply.ToolAnswered? && LatestGiven(inputs, k, i.request.sessionId)
    requires AnswerAlike(i.adapters, other, inputs[k].callId, inputs[k].merchantId,
                         ValidateArguments(i.request.toolName, i.request.arguments).value)
    ensures Step(Run(inputs), WithAdapters(i, other)) == Step(Run(inputs), i)
  {
    hide Run, Step, AnswerAlike, ValidateArguments;
    var st, q := Run(inputs), i.request;
    SessionsComeFromSecrets(inputs, q.sessionId);
    ToolCallStep(st, i);
    OneQuestionIsAsked(q, ValidateArguments(q.toolName, q.arguments).value, i.adapters, other);
    SameRouting(st, i, other);
  }

  lemma SameRouting(st: AppState, i: Input, other: Adapters)
    requires i.ToolCall? && Step(st, i).reply.ToolAnswered?
    requires var arguments := ValidateArguments(i.request.toolName, i.request.arguments);
             && arguments.Some?
             && Route(i.request, arguments.value, i.adapters) == Route(i.request, arguments.value, other)
    ensures Step(st, WithAdapters(i, other)) == Step(st, i)
  {
    hide Route, ValidateArguments, BindingVerdict, AfterToolCall, AfterRouting, BearerToken;
  }

  // ---------------------------------------------------------------- client secrets

  predicate AsksWithIds(i: Input)
    requires i.ClientSecret?
  {
    i.sessionId != "" && i.callId != "" && i.merchantId != ""
  }

  /** The gate of real providers: dev endpoints on, a good origin, and a host that is under its limit. */
  predicate Barred(i: Input)
    requires i.ClientSecret?
  {
    i.caller.provider.Some? && i.caller.provider.value != Mock && !(i.caller.devEnabled && i.caller.originAllowed)
  }

  predicate Exhausted(inputs: seq<Input>, i: Input)
    requires i.ClientSecret?
  {
    Eligible(i, i.caller.host) && AdmittedIn(inputs, i.caller.host) >= i.caller.limit
  }

  /** The answers to a request for a client secret. */
  lemma ClientSecretAnswers(inputs: seq<Input>, i: Input)
    requires i.ClientSecret?
    ensures var reply := Step(Run(inputs), i).reply;
            var named := AsksWithIds(i) && i.caller.provider.Some?;
            var passed := named && !Barred(i) && !Exhausted(inputs, i);
            && (reply == Rejected(422) <==> !AsksWithIds(i))
            && (reply == Rejected(403) <==> named && Barred(i))
            && (reply == Rejected(429) <==> Exhausted(inputs, i))
            && (reply == Rejected(503) <==> passed && i.grant == Denied)
            && (reply == Rejected(500) <==>
                  (AsksWithIds(i) && i.caller.provider.None?) || (passed && i.grant == NotBuilt))
            && (reply.SecretIssued? <==> passed && i.grant.Granted?)
            && (reply.SecretIssued? ==> reply == SecretIssued(i.grant.provider, i.token))
  {
    hide Run, AdmittedIn, CountOf;
    CounterIsAdmissions(inputs, i.caller.host);
  }

  // ---------------------------------------------------------------- how long a token is good

  /**
   * The token of a secret is good from then on for its own binding, and for no other, as long as the
   * provider said; for ten minutes if it did not say; and never if it left out the zone.
   */
  lemma FreshTokenIsGood(inputs: seq<Input>, i: Input, token: string, callId: string, merchantId: string,
                         provider: Provider, now: Time)
    requires i.ClientSecret? && Step(Run(inputs), i).reply.SecretIssued?
    ensures Accepts(Run(inputs + [i]).sessions, i.sessionId, token, callId, merchantId, provider, now) <==>
            && token == i.token && callId == i.callId && merchantId == i.merchantId
            && Step(Run(inputs), i).reply == SecretIssued(provider, token)
            && match i.grant.expiresAt
               case None => now < i.now + 600
               case Some(Expires(at)) => now < at
               case Some(NoZone) => false
  {
    hide Step;
    CreationStep(Run(inputs), i);
    assert (inputs + [i])[..|inputs|] == inputs;
  }
}
