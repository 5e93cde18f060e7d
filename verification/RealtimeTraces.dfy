/** Theorems about every run of the realtime API, from its start to any request. */
module RealtimeTraces {
  import opened Common
  import opened Contracts
  import opened SessionStore
  import opened ToolRouter
  import opened VoiceEvents
  import opened RealtimeApi
  import opened RealtimeRuns
  import DashScope
  import JsonValues
  import Redaction

  // ---------------------------------------------------------------- the store and the log agree

  /**
   * In every reachable state the in-memory lists of a session are what the event log says since its
   * latest creation, whatever the logging mode of each request was.
   */
  lemma StoreAgreesWithLog(inputs: seq<Input>, id: string)
    requires id in Run(inputs).sessions
    ensures var st := Run(inputs);
            var s, since := st.sessions[id], Since(st.log, id);
            && s.toolCalls == ToolCallsOf(since, id)
            && s.transcripts == TextsOf(since, id)
            && StateFollows(since, id, s.state)
  {
    hide Run;
    EveryRunKeepsInv(inputs);
  }

  /** Every logged event has the call, merchant and provider of the latest creation of its session. */
  lemma EveryEventCarriesTheLatestBinding(inputs: seq<Input>, n: nat)
    requires n < |Run(inputs).log|
    ensures var log := Run(inputs).log;
            var k := LatestCreation(log[..n + 1], log[n].sessionId);
            0 <= k <= n && Creates(log[k], log[n].sessionId) && SameBinding(log[k], log[n])
  {
    hide Run;
    EveryRunKeepsInv(inputs);
    assert Bound(Run(inputs).log, n);
  }

  /**
   * Handoff reason and id come together, and only from a logged `handoff_to_human` call: one with that
   * reason, or a failed one whose answer could not be built once the session had been marked.
   */
  lemma HandoffsAreLogged(inputs: seq<Input>, id: string)
    requires id in Run(inputs).sessions
    ensures var s := Run(inputs).sessions[id];
            && (s.handoffReason.Some? <==> s.handoffId.Some?)
            && (s.handoffReason.Some? ==> HandoffLogged(Since(Run(inputs).log, id), id, s.handoffReason))
  {
    hide Run;
    EveryRunKeepsInv(inputs);
  }

  /**
   * When the adapter accepts a handoff, the session is marked with the client's reason.  The call is
   * logged with that reason exactly if the reply has a mode, or the reason was a tool error anyway.
   */
  lemma AcceptedHandoff(st: AppState, i: Input)
    requires i.ToolCall? && Step(st, i).reply.ToolAnswered?
    requires ValidateArguments(i.request.toolName, i.request.arguments).value.HandoffToHumanArguments?
    requires HandoffAccepted(i.request, ValidateArguments(i.request.toolName, i.request.arguments).value, i.adapters)
    ensures var st', id := Step(st, i).state, i.request.sessionId;
            var arguments := ValidateArguments(i.request.toolName, i.request.arguments).value;
            && |st'.log| == |st.log| + 1 && id in st'.sessions
            && st'.sessions[id].state == HandoffPending && st'.sessions[id].handoffReason == Some(arguments.reason)
            && st'.sessions[id].handoffId == Some(HandoffIdOf(i.request, arguments, i.adapters))
            && (st'.log[|st.log|].handoffReason == st'.sessions[id].handoffReason <==>
                  AdapterReplied(i.request, arguments, i.adapters) || arguments.reason == ToolFailure)
  {
    hide Step, ValidateArguments, HandoffAsked;
    ToolCallStep(st, i);
  }

  /**
   * Whatever the binding of a session is when upstream answers, a supported provider event becomes one
   * that meets the ingest contract; the model of the event never raises.
   */
  lemma SupportedEventsMeetTheContract(inputs: seq<Input>, id: string, payload: seq<JsonValues.Field>)
    requires id in Run(inputs).sessions
    ensures var s := Run(inputs).sessions[id];
            var r := DashScope.NormalizeEvent(payload, id, s.callId, s.merchantId);
            && (r.Ok? <==> DashScope.Supported(payload)) && r != Err(DashScope.ContractBroken)
            && (r.Ok? ==> MeetsContract(r.value))
  {
    hide Run, DashScope.NormalizeEvent, DashScope.Supported, MeetsContract;
    EveryRunKeepsInv(inputs);
    var s := Run(inputs).sessions[id];
    DashScope.NormalizedMeetsContract(payload, id, s.callId, s.merchantId);
  }

  /**
   * So, as long as upstream answers under a binding that the session has in some reachable state, an
   * exchange of the proxy goes through exactly when the message is a good envelope and upstream, if
   * there is one, returns an object that is a supported event.
   */
  lemma RelayedIffSupported(inputs: seq<Input>, id: string, transport: bool, x: DashScope.Exchange)
    requires id in Run(inputs).sessions
    requires var s := Run(inputs).sessions[id]; x.callId == s.callId && x.merchantId == s.merchantId
    ensures DashScope.Relayed(id, transport, x) <==> DashScope.IsSafe(x) && (transport ==> DashScope.AnswersWell(x))
  {
    hide Run, DashScope.Relayed, DashScope.IsSafe, DashScope.AnswersWell;
    EveryRunKeepsInv(inputs);
    DashScope.RelayedMeaning(id, transport, x);
  }

  /** In some reachable state the session has the binding under which upstream answers. */
  ghost predicate ReachablyBound(id: string, x: DashScope.Exchange) {
    exists inputs :: BoundIn(Run(inputs).sessions, id, x)
  }

  predicate BoundIn(m: Sessions, id: string, x: DashScope.Exchange) {
    id in m && x.callId == m[id].callId && x.merchantId == m[id].merchantId
  }

  lemma ReachableIds(id: string, x: DashScope.Exchange)
    requires ReachablyBound(id, x)
    ensures id != "" && x.callId != "" && x.merchantId != ""
  {
    hide Run;
    var inputs :| BoundIn(Run(inputs).sessions, id, x);
    EveryRunKeepsInv(inputs);
  }

  /**
   * A whole connection, whatever requests create its session anew meanwhile: it is cut at the first
   * message that is not a good envelope or, with an upstream, is not answered by an object that is a
   * supported event.  If there is none, the client's disconnection ends it.
   */
  lemma ConnectionIsCutAt(id: string, transport: bool, xs: seq<DashScope.Exchange>, k: nat,
                          sent: seq<DashScope.ProxyReply>, upstream: seq<DashScope.Envelope>, ending: DashScope.Ending)
    requires DashScope.Outcome(id, transport, xs, k, sent, upstream, ending)
    requires forall x :: x in xs ==> ReachablyBound(id, x)
    ensures DashScope.FirstToFail(transport, xs, k)
    ensures ending == DashScope.Disconnected <==> forall x :: x in xs ==> DashScope.Passes(transport, x)
  {
    hide DashScope.Passes, DashScope.Relayed, DashScope.ValidateProxyMessage, ReachablyBound, DashScope.UpstreamGets,
         DashScope.RepliesTo;
    forall x | x in xs ensures id != "" && x.callId != "" && x.merchantId != "" { ReachableIds(id, x); }
    DashScope.CutIsFirstToFail(id, transport, xs, k);
  }

  // ---------------------------------------------------------------- one request, one event

  /**
   * A refused request leaves sessions and logs as they were, and at most counts against its host.
   * Any other request appends exactly one event, its own.
   */
  lemma OneEventOrNoChange(st: AppState, i: Input)
    ensures var stepped := Step(st, i);
            if stepped.reply.Rejected? then
              && stepped.state.(counters := st.counters) == st
              && (stepped.state.counters != st.counters ==>
                    && i.ClientSecret? && !i.grant.Granted?
                    && stepped.state.counters == st.counters[i.caller.host := CountOf(st.counters, i.caller.host) + 1])
            else
              && |stepped.state.log| == |st.log| + 1 && st.log <= stepped.state.log
              && stepped.state.log[|st.log|].eventId == i.stamp.eventId
              && st.transcripts <= stepped.state.transcripts
  {
    hide AnyRedaction, IngestRefusal, Execution, BearerToken;
    match i
    case ClientSecret(_, _, _, _, _, _, _, _) =>
    case Ingest(_, _, _, _, _, _, _) => IngestStep(st, i);
    case ToolCall(_, _, _, _, _) =>
  }

  // ---------------------------------------------------------------- the transcript log

  /** The logging mode under which each event of the log was written, events other than ingested ones as `Off`. */
  function ModesOf(inputs: seq<Input>): seq<LoggingMode> {
    if inputs == [] then []
    else
      var before, i := inputs[..|inputs| - 1], inputs[|inputs| - 1];
      if Step(Run(before), i).reply.Rejected? then ModesOf(before)
      else ModesOf(before) + [if i.Ingest? then i.mode else Off]
  }

  predicate Wanted(e: VoiceEvent, mode: LoggingMode) {
    mode == Transcript && e.kind.Ingested? && IsDoneEvent(e.kind.eventType)
  }

  /** The positions of the done-events written under transcript mode, in order. */
  function Picks(log: seq<VoiceEvent>, modes: seq<LoggingMode>): (p: seq<nat>)
    requires |modes| == |log|
    ensures forall k :: 0 <= k < |p| ==> p[k] < |log|
  {
    if log == [] then []
    else
      var n := |log| - 1;
      Picks(log[..n], modes[..n]) + if Wanted(log[n], modes[n]) then [n] else []
  }

  /** Nothing wanted is missed, nothing else is taken, and nothing twice. */
  lemma {:induction false} PicksAreExact(log: seq<VoiceEvent>, modes: seq<LoggingMode>)
    requires |modes| == |log|
    ensures forall n: nat :: n in Picks(log, modes) <==> n < |log| && Wanted(log[n], modes[n])
    ensures forall j, k :: 0 <= j < k < |Picks(log, modes)| ==> Picks(log, modes)[j] < Picks(log, modes)[k]
  {
    if log != [] { PicksAreExact(log[..|log| - 1], modes[..|log| - 1]); }
  }

  /** A transcript entry and the logged event it goes with. */
  predicate Echoes(t: TranscriptEvent, e: VoiceEvent) {
    && t.eventId == e.eventId && t.sessionId == e.sessionId && t.callId == e.callId && t.merchantId == e.merchantId
    && t.provider == e.provider && t.providerEventType == e.providerEventType
    && t.redactionApplied == e.redactionApplied
    && (t.speaker == User ==> e.kind == Ingested(TranscriptUserDone) && e.userText == Some(t.text))
    && (t.speaker == Assistant ==> e.kind == Ingested(TranscriptAssistantDone) && e.assistantText == Some(t.text))
  }

  predicate EchoesAt(transcripts: seq<TranscriptEvent>, log: seq<VoiceEvent>, picks: seq<nat>) {
    && |transcripts| == |picks|
    && forall k :: 0 <= k < |picks| ==> picks[k] < |log| && Echoes(transcripts[k], log[picks[k]])
  }

  /** What an accepted ingest request adds to the two logs. */
  lemma IngestAdds(st: AppState, i: Input)
    requires i.Ingest? && !Step(st, i).reply.Rejected?
    ensures Parsed(i).Some?
    ensures var r, st' := Parsed(i).value, Step(st, i).state;
            var e := IngestEvent(r, i.mode, i.stamp);
            && st'.log == st.log + [e]
            && if Wanted(e, i.mode)
               then r.text.Some? && r.speaker.Some?
                    && var t := TranscriptOf(r, i.stamp.(timestamp := i.textTimestamp));
                    && st'.transcripts == st.transcripts + [t] && Echoes(t, e)
               else st'.transcripts == st.transcripts
  {
    hide Step, IngestRefusal, Parsed, AnyRedaction, Redaction.RedactText;
    IngestStep(st, i);
    AcceptedIngest(st.sessions, i);
  }

  lemma PicksAppend(log: seq<VoiceEvent>, e: VoiceEvent, modes: seq<LoggingMode>, mode: LoggingMode)
    requires |modes| == |log|
    ensures Picks(log + [e], modes + [mode]) ==
            if Wanted(e, mode) then Picks(log, modes) + [|log|] else Picks(log, modes)
  {
  }

  lemma EchoesAppend(transcripts: seq<TranscriptEvent>, log: seq<VoiceEvent>, picks: seq<nat>, e: VoiceEvent)
    requires EchoesAt(transcripts, log, picks)
    ensures EchoesAt(transcripts, log + [e], picks)
    ensures forall t :: Echoes(t, e) ==> EchoesAt(transcripts + [t], log + [e], picks + [|log|])
  {
  }

  /**
   * The transcript log is a subsequence of the event log: its entries go, one for one and in order,
   * with the done-events ingested under transcript mode, with the same event id, binding and text.
   */
  lemma {:induction false} TranscriptLogIsASubsequence(inputs: seq<Input>)
    ensures var st := Run(inputs);
            && |ModesOf(inputs)| == |st.log|
            && EchoesAt(st.transcripts, st.log, Picks(st.log, ModesOf(inputs)))
  {
    hide Step, Echoes, EchoesAt, Picks, Wanted;
    if inputs == [] {
      NothingPicked();
    } else {
      var before, i := inputs[..|inputs| - 1], inputs[|inputs| - 1];
      TranscriptLogIsASubsequence(before);
      var st, st' := Run(before), Step(Run(before), i).state;
      var modes, picks := ModesOf(before), Picks(st.log, ModesOf(before));
      OneEventOrNoChange(st, i);
      if !Step(st, i).reply.Rejected? {
        var e := st'.log[|st.log|];
        assert st'.log == st.log + [e];
        var mode := if i.Ingest? then i.mode else Off;
        PicksAppend(st.log, e, modes, mode);
        EchoesAppend(st.transcripts, st.log, picks, e);
        if i.Ingest? { IngestAdds(st, i); } else { OtherIsNotWanted(st, i); }
      }
    }
  }

  lemma NothingPicked()
    ensures EchoesAt([], [], Picks([], []))
  {
  }

  lemma OtherIsNotWanted(st: AppState, i: Input)
    requires !i.Ingest? && !Step(st, i).reply.Rejected?
    ensures Step(st, i).state.transcripts == st.transcripts
    ensures |Step(st, i).state.log| == |st.log| + 1 && !Wanted(Step(st, i).state.log[|st.log|], Off)
  {
  }

  // ---------------------------------------------------------------- rate limits

  /** A client-secret request of `host` that only the rate limit can still refuse at the gate. */
  predicate Eligible(i: Input, host: string) {
    && i.ClientSecret? && i.sessionId != "" && i.callId != "" && i.merchantId != ""
    && i.caller.provider.Some? && i.caller.provider.value != Mock
    && i.caller.devEnabled && i.caller.originAllowed && i.caller.host == host
  }

  predicate LimitIs(i: Input, host: string, limit: nat) { Eligible(i, host) ==> i.caller.limit == limit }

  function EligibleIn(inputs: seq<Input>, host: string): nat {
    if inputs == [] then 0
    else EligibleIn(inputs[..|inputs| - 1], host) + if Eligible(inputs[|inputs| - 1], host) then 1 else 0
  }

  /** How many eligible requests were not turned away with a 429. */
  function AdmittedIn(inputs: seq<Input>, host: string): nat {
    if inputs == [] then 0
    else
      var before, i := inputs[..|inputs| - 1], inputs[|inputs| - 1];
      AdmittedIn(before, host) + if Eligible(i, host) && Step(Run(before), i).reply != Rejected(429) then 1 else 0
  }

  /** How many sessions a host was given while a real provider was configured. */
  function SessionsGivenTo(inputs: seq<Input>, host: string): nat {
    if inputs == [] then 0
    else
      var before, i := inputs[..|inputs| - 1], inputs[|inputs| - 1];
      SessionsGivenTo(before, host) +
      if i.ClientSecret? && i.caller.host == host && i.caller.provider != Some(Mock) &&
         Step(Run(before), i).reply.SecretIssued?
      then 1 else 0
  }

  lemma CountAfter(st: AppState, i: Input, host: string)
    ensures var admitted := Eligible(i, host) && CountOf(st.counters, host) < i.caller.limit;
            && CountOf(Step(st, i).state.counters, host) == CountOf(st.counters, host) + (if admitted then 1 else 0)
            && (Eligible(i, host) ==> (Step(st, i).reply == Rejected(429) <==> !admitted))
            && (i.ClientSecret? && i.caller.host == host && i.caller.provider != Some(Mock) &&
                Step(st, i).reply.SecretIssued? ==>
                  admitted)
  {
    hide Execution, BearerToken, IngestRefusal, AnyRedaction, IngestEvent, SessionsAfterIngest, TranscriptOf;
    if i.Ingest? { IngestStep(st, i); }
  }

  /** The counter of a host is the number of requests it was let through, and bounds the sessions it got. */
  lemma {:induction false} CounterIsAdmissions(inputs: seq<Input>, host: string)
    ensures CountOf(Run(inputs).counters, host) == AdmittedIn(inputs, host)
    ensures SessionsGivenTo(inputs, host) <= AdmittedIn(inputs, host)
  {
    hide Step, CountOf;
    if inputs == [] {
      NobodyCounted(host);
    } else {
      var before := inputs[..|inputs| - 1];
      CounterIsAdmissions(before, host);
      CountAfter(Run(before), inputs[|inputs| - 1], host);
    }
  }

  lemma NobodyCounted(host: string)
    ensures CountOf(INITIAL.counters, host) == 0
  {
  }

  /** With one limit in force throughout, a host is let through the smaller of its requests and the limit. */
  lemma {:induction false} RateLimitIsExact(inputs: seq<Input>, host: string, limit: nat)
    requires forall k :: 0 <= k < |inputs| ==> LimitIs(inputs[k], host, limit)
    ensures var n := EligibleIn(inputs, host);
            AdmittedIn(inputs, host) == if n < limit then n else limit
  {
    hide Step, CountOf, Eligible;
    if inputs != [] {
      var before, i := inputs[..|inputs| - 1], inputs[|inputs| - 1];
      RateLimitIsExact(before, host, limit);
      CounterIsAdmissions(before, host);
      CountAfter(Run(before), i, host);
      assert LimitIs(i, host, limit);
    }
  }

  // ---------------------------------------------------------------- tokens

  /** Request `k` was answered with a secret for session `id`. */
  predicate Gives(inputs: seq<Input>, k: nat, id: string)
    requires k < |inputs|
  {
    inputs[k].ClientSecret? && inputs[k].sessionId == id && inputs[k].grant.Granted? &&
    Step(Run(inputs[..k]), inputs[k]).reply.SecretIssued?
  }

  /** It is the latest request that was. */
  ghost predicate LatestGiven(inputs: seq<Input>, k: nat, id: string) {
    k < |inputs| && Gives(inputs, k, id) && forall l :: k < l < |inputs| ==> !Gives(inputs, l, id)
  }

  /** It issued this token for this binding, not yet expired. */
  ghost predicate GivenAt(inputs: seq<Input>, k: nat, id: string, token: string, callId: string, merchantId: string,
                          provider: Provider, now: Time) {
    && LatestGiven(inputs, k, id)
    && inputs[k].token == token && inputs[k].callId == callId && inputs[k].merchantId == merchantId
    && inputs[k].grant.provider == provider
    && var expiry := ExpiryOf(inputs[k].grant, inputs[k].now); expiry.Expires? && now < expiry.at
  }

  /** The latest secret of the session came with an expiry that has no zone. */
  ghost predicate GivenWithoutZone(inputs: seq<Input>, id: string) {
    exists k: nat :: LatestGiven(inputs, k, id) && ExpiryOf(inputs[k].grant, inputs[k].now).NoZone?
  }

  predicate Accepts(m: Sessions, id: string, token: string, callId: string, merchantId: string, provider: Provider,
                    now: Time) {
    id in m && BindingAccepted(m[id], token, callId, merchantId, provider, now)
  }

  /** The session was created by this request, and not ended by `end_session`. */
  predicate GrantedBy(s: SessionRecord, i: Input)
    requires i.ClientSecret? && i.grant.Granted?
  {
    && s.callId == i.callId && s.merchantId == i.merchantId && s.provider == i.grant.provider
    && s.tokenHash == Sha256(i.token) && s.tokenExpiresAt == ExpiryOf(i.grant, i.now) && s.endedAt.None?
  }

  predicate SameGrant(s: SessionRecord, s': SessionRecord) {
    && s.callId == s'.callId && s.merchantId == s'.merchantId && s.provider == s'.provider
    && s.tokenHash == s'.tokenHash && s.tokenExpiresAt == s'.tokenExpiresAt && s.endedAt == s'.endedAt
  }

  /** Only an issued secret changes what tokens are good for, and only of its session. */
  lemma GrantAfter(st: AppState, i: Input, id: string)
    ensures var m, m' := st.sessions, Step(st, i).state.sessions;
            if i.ClientSecret? && i.sessionId == id && i.grant.Granted? && Step(st, i).reply.SecretIssued? then
              id in m' && GrantedBy(m'[id], i)
            else
              (id in m' <==> id in m) && (id in m ==> SameGrant(m[id], m'[id]))
  {
    hide Step;
    match i
    case ClientSecret(_, _, _, _, _, _, _, _) => CreationStep(st, i);
    case Ingest(_, _, _, _, _, _, _) => GrantAfterIngest(st, i, id);
    case ToolCall(_, _, _, _, _) => GrantAfterToolCall(st, i, id);
  }

  lemma GrantAfterIngest(st: AppState, i: Input, id: string)
    requires i.Ingest?
    ensures var m, m' := st.sessions, Step(st, i).state.sessions;
            (id in m' <==> id in m) && (id in m ==> SameGrant(m[id], m'[id]))
  {
    hide Step, IngestRefusal, AnyRedaction, Parsed, Redaction.RedactText;
    IngestStep(st, i);
  }

  lemma GrantAfterToolCall(st: AppState, i: Input, id: string)
    requires i.ToolCall?
    ensures var m, m' := st.sessions, Step(st, i).state.sessions;
            (id in m' <==> id in m) && (id in m ==> SameGrant(m[id], m'[id]))
  {
    hide Step, Route, ValidateArguments, ToolEvent;
    ToolCallStep(st, i);
    if Step(st, i).reply.ToolAnswered? {
      RoutingIsTotalAndCoherent(i.request, ValidateArguments(i.request.toolName, i.request.arguments).value,
                                i.adapters);
    }
  }

  /** After any run, the sessions are those that secrets were given for, as the latest of them created them. */
  lemma {:induction false} SessionsComeFromSecrets(inputs: seq<Input>, id: string)
    ensures id in Run(inputs).sessions <==> exists k :: LatestGiven(inputs, k, id)
    ensures forall k: nat :: LatestGiven(inputs, k, id) ==>
      id in Run(inputs).sessions && GrantedBy(Run(inputs).sessions[id], inputs[k])
  {
    hide Step, GrantedBy, SameGrant;
    if inputs != [] {
      var n := |inputs| - 1;
      var before, i := inputs[..n], inputs[n];
      SessionsComeFromSecrets(before, id);
      GrantAfter(Run(before), i, id);
      LatestOfPrefix(inputs, id);
      if Gives(inputs, n, id) {
        assert LatestGiven(inputs, n, id);
      } else {
        if k: nat :| LatestGiven(before, k, id) {
          assert LatestGiven(inputs, k, id);
        }
        forall k: nat | LatestGiven(inputs, k, id)
          ensures id in Run(inputs).sessions && GrantedBy(Run(inputs).sessions[id], inputs[k])
        {
          assert LatestGiven(before, k, id);
          SameGrantIsKept(Run(before).sessions[id], Run(inputs).sessions[id], inputs[k]);
        }
      }
    }
  }

  lemma SameGrantIsKept(s: SessionRecord, s': SessionRecord, i: Input)
    requires i.ClientSecret? && i.grant.Granted? && GrantedBy(s, i) && SameGrant(s, s')
    ensures GrantedBy(s', i)
  {
  }

  lemma LatestOfPrefix(inputs: seq<Input>, id: string)
    requires inputs != []
    ensures var n := |inputs| - 1;
            forall k: nat :: LatestGiven(inputs, k, id) <==>
              if Gives(inputs, n, id) then k == n else LatestGiven(inputs[..n], k, id)
  {
    hide Step;
    var n := |inputs| - 1;
    var before := inputs[..n];
    forall k: nat | k < n
      ensures Gives(inputs, k, id) <==> Gives(before, k, id)
    {
      assert before[..k] == inputs[..k];
    }
    GivesAreLatest(inputs, before, id);
  }

  lemma GivesAreLatest(inputs: seq<Input>, before: seq<Input>, id: string)
    requires inputs != [] && before == inputs[..|inputs| - 1]
    requires forall k: nat :: k < |before| ==> (Gives(inputs, k, id) <==> Gives(before, k, id))
    ensures forall k: nat :: LatestGiven(inputs, k, id) <==>
              if Gives(inputs, |before|, id) then k == |before| else LatestGiven(before, k, id)
  {
    hide Gives;
    forall k: nat
      ensures LatestGiven(inputs, k, id) <==>
              if Gives(inputs, |before|, id) then k == |before| else LatestGiven(before, k, id)
    {
      if LatestGiven(before, k, id) && !Gives(inputs, |before|, id) {
        forall l | k < l < |inputs| ensures !Gives(inputs, l, id) {
          if l < |before| { assert !Gives(before, l, id); }
        }
      }
      if LatestGiven(inputs, k, id) && k < |before| {
        forall l | k < l < |before| ensures !Gives(before, l, id) { assert !Gives(inputs, l, id); }
      }
    }
  }

  /**
   * After any run a token is good exactly when the latest secret given for the session is that token,
   * for that binding, and has not expired.  In particular an ingested `session.ended` event, which
   * puts the session in state `Ended`, revokes nothing.  No verdict can be given exactly when that
   * secret's expiry has no zone.
   */
  lemma TokenVerdictOfARun(inputs: seq<Input>, id: string, token: string, callId: string,
                           merchantId: string, provider: Provider, now: Time)
    ensures Accepts(Run(inputs).sessions, id, token, callId, merchantId, provider, now) <==>
            exists k :: GivenAt(inputs, k, id, token, callId, merchantId, provider, now)
    ensures (id in Run(inputs).sessions &&
             BindingVerdict(Run(inputs).sessions[id], token, callId, merchantId, provider, now).Incomparable?) <==>
            GivenWithoutZone(inputs, id)
  {
    hide Run, ExpiryOf, LatestGiven;
    SessionsComeFromSecrets(inputs, id);
    if k: nat :| LatestGiven(inputs, k, id) {
      assert k < |inputs| && Gives(inputs, k, id) by { GivenIsGiven(inputs, k, id); }
      var s := Run(inputs).sessions[id];
      assert GrantedBy(s, inputs[k]);
      if Accepts(Run(inputs).sessions, id, token, callId, merchantId, provider, now) {
        assert GivenAt(inputs, k, id, token, callId, merchantId, provider, now);
      }
    }
  }

  lemma GivenIsGiven(inputs: seq<Input>, k: nat, id: string)
    requires LatestGiven(inputs, k, id)
    ensures k < |inputs| && Gives(inputs, k, id)
  {
  }

  // ---------------------------------------------------------------- who is let in

  /** The authorization header brings a token given for this binding, still good at `now`. */
  ghost predicate BringsToken(inputs: seq<Input>, authorization: Option<string>, id: string, callId: string,
                              merchantId: string, provider: Provider, now: Time) {
    var token := BearerToken(authorization);
    token.Some? && exists k :: GivenAt(inputs, k, id, token.value, callId, merchantId, provider, now)
  }

  /** An ingested event puts its session in the state it names, and revokes nothing, whatever that state is. */
  lemma IngestedStateRevokesNothing(st: AppState, i: Input)
    requires i.Ingest? && Step(st, i).reply.EventAccepted?
    ensures var st' := Step(st, i).state;
            && Parsed(i).Some?
            && var id := Parsed(i).value.sessionId;
            && id in st.sessions && id in st'.sessions && st'.sessions[id].state == Parsed(i).value.state
            && forall token, callId, merchantId, provider, now ::
                 BindingVerdict(st'.sessions[id], token, callId, merchantId, provider, now) ==
                 BindingVerdict(st.sessions[id], token, callId, merchantId, provider, now)
  {
    hide Step, IngestRefusal, AnyRedaction, Parsed, Redaction.RedactText;
    IngestStep(st, i);
    AcceptedIngest(st.sessions, i);
    GrantAfterIngest(st, i, Parsed(i).value.sessionId);
  }

  // ---------------------------------------------------------------- which texts are clean before they are written

  ghost predicate CleanOption(text: Option<string>) { text.Some? ==> Redaction.CleanText(text.value) }

  /** What clients said, and what they summarised in an ingested event. */
  ghost predicate CleanEvent(e: VoiceEvent) {
    CleanOption(e.userText) && CleanOption(e.assistantText) && (e.kind.Ingested? ==> CleanOption(e.summary))
  }

  lemma RedactedOptionIsClean(text: Option<string>)
    ensures CleanOption(RedactedOption(text))
  {
    hide Redaction.RedactText, Redaction.CleanText;
    if text.Some? { Redaction.RedactedIsClean(text.value); }
  }

  /**
   * Whatever clients send, no user or assistant text of a logged event, and no summary of an ingested
   * one, holds an email, an order number, a key, a token or a JWT.  Nothing of the kind is true of the
   * summary of a tool call, which is logged and kept as the adapter or the client worded it
   * (`ToolSummaryIsKept`); it is redacted only when its line is written (`SummaryIsWrittenRedacted`).
   */
  lemma {:induction false} LoggedTextsAreClean(inputs: seq<Input>)
    ensures forall n :: 0 <= n < |Run(inputs).log| ==> CleanEvent(Run(inputs).log[n])
  {
    hide Step, CleanOption;
    if inputs != [] {
      var before, i := inputs[..|inputs| - 1], inputs[|inputs| - 1];
      LoggedTextsAreClean(before);
      NewEventIsClean(Run(before), i);
    }
  }

  lemma NewEventIsClean(st: AppState, i: Input)
    ensures var log := Step(st, i).state.log;
            |st.log| <= |log| <= |st.log| + 1 && log[..|st.log|] == st.log &&
            (|log| > |st.log| ==> CleanEvent(log[|st.log|]))
  {
    hide AnyRedaction, IngestRefusal, Execution, BearerToken, CleanOption, RedactedOption, Parsed;
    match i
    case ClientSecret(_, _, _, _, _, _, _, _) => NothingIsClean();
    case Ingest(_, _, _, _, _, _, _) =>
      IngestStep(st, i);
      AcceptedIngest(st.sessions, i);
      NothingIsClean();
      if Parsed(i).Some? {
        RedactedOptionIsClean(Parsed(i).value.text);
        RedactedOptionIsClean(Parsed(i).value.safeSummary);
      }
    case ToolCall(_, _, _, _, _) => NothingIsClean();
  }

  lemma NothingIsClean()
    ensures CleanOption(None)
  {
  }

  /** A handoff call that is answered as the adapter replied. */
  predicate IsAnsweredHandoff(i: Input) {
    && i.ToolCall? && i.request.toolName in ALLOWED_REALTIME_TOOL_NAMES
    && var arguments := ValidateArguments(i.request.toolName, i.request.arguments);
    && arguments.Some? && arguments.value.HandoffToHumanArguments?
    && AdapterReplied(i.request, arguments.value, i.adapters)
  }

  function SummaryOf(i: Input): string
    requires IsAnsweredHandoff(i)
  {
    ValidateArguments(i.request.toolName, i.request.arguments).value.summary
  }

  /**
   * An answered tool call leaves its summary, word for word, in its event and in its session.
   * For a handoff that is the client's own summary: what is kept is clean exactly if that was.
   */
  lemma ToolSummaryIsKept(st: AppState, i: Input)
    requires i.ToolCall? && Step(st, i).reply.ToolAnswered?
    ensures var st', id, summary := Step(st, i).state, i.request.sessionId, Step(st, i).reply.response.safeSummary;
            && |st'.log| == |st.log| + 1 && st'.log[|st.log|].summary == Some(summary)
            && id in st.sessions && id in st'.sessions
            && st'.sessions[id].toolCalls == st.sessions[id].toolCalls + [ToolCallEntry(i.request.toolName, summary)]
            && (IsAnsweredHandoff(i) ==>
                  && summary == SummaryOf(i)
                  && (CleanOption(st'.log[|st.log|].summary) <==> Redaction.CleanText(SummaryOf(i))))
  {
    hide Step, ValidateArguments, Redaction.CleanText;
    ToolCallStep(st, i);
  }

  /** The transcripts that a session keeps are clean too. */
  lemma SessionTextsAreClean(inputs: seq<Input>, id: string, n: nat)
    requires id in Run(inputs).sessions && n < |Run(inputs).sessions[id].transcripts|
    ensures Redaction.CleanText(Run(inputs).sessions[id].transcripts[n].text)
  {
    hide Run, Redaction.CleanText;
    StoreAgreesWithLog(inputs, id);
    LoggedTextsAreClean(inputs);
    TextsOfClean(Since(Run(inputs).log, id), id, n);
  }

  lemma {:induction false} TextsOfClean(events: seq<VoiceEvent>, id: string, n: nat)
    requires forall e :: e in events ==> CleanEvent(e)
    requires n < |TextsOf(events, id)|
    ensures Redaction.CleanText(TextsOf(events, id)[n].text)
  {
    hide Redaction.CleanText;
    var before := events[..|events| - 1];
    assert CleanEvent(events[|events| - 1]);
    if n < |TextsOf(before, id)| { TextsOfClean(before, id, n); }
  }

  /** So is every entry of the transcript log. */
  lemma TranscriptTextsAreClean(inputs: seq<Input>, n: nat)
    requires n < |Run(inputs).transcripts|
    ensures Redaction.CleanText(Run(inputs).transcripts[n].text)
  {
    hide Run, Redaction.CleanText, Picks, ModesOf;
    TranscriptLogIsASubsequence(inputs);
    LoggedTextsAreClean(inputs);
    var st := Run(inputs);
    var e := st.log[Picks(st.log, ModesOf(inputs))[n]];
    assert Echoes(st.transcripts[n], e) && CleanEvent(e);
    assert st.transcripts[n].speaker.User? || st.transcripts[n].speaker.Assistant?;
  }
}
