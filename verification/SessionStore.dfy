/** `InMemoryVoiceSessionStore`: sessions, their tokens, and the history that explains both. */
module SessionStore {
  import opened Common
  import opened Contracts

  /** Points in time, in any unit. */
  type Time = int

  const DEFAULT_TOOL_CALL_TOKEN_TTL := 600

  /** When a token expires; a provider may give a time without a zone, which no clock reading compares with. */
  datatype Expiry = Expires(at: Time) | NoZone

  /** SHA-256 stands for an injective function: nothing is known of a digest but the token it is of. */
  datatype Digest = Sha256(token: string)

  datatype TranscriptEntry = TranscriptEntry(role: Speaker, text: string)

  datatype ToolCallEntry = ToolCallEntry(toolName: string, safeSummary: string)

  /** The state of a session as a value. */
  datatype SessionRecord = SessionRecord(
    callId: string, merchantId: string, provider: Provider, state: SessionState,
    tokenHash: Digest, tokenExpiresAt: Expiry,
    transcripts: seq<TranscriptEntry>, toolCalls: seq<ToolCallEntry>,
    handoffReason: Option<HandoffReason>, handoffId: Option<string>, endedAt: Option<Time>)

  type Sessions = map<string, SessionRecord>

  // ---------------------------------------------------------------- what the operations do to the sessions

  datatype StoreOp =
    | Create(id: string, callId: string, merchantId: string, provider: Provider, token: string, expiresAt: Expiry)
    | UpdateState(id: string, state: SessionState)
    | AppendTranscript(id: string, role: Speaker, text: string)
    | AppendToolCall(id: string, toolName: string, safeSummary: string)
    | MarkHandoff(id: string, reason: HandoffReason, handoffId: string)
    | End(id: string, at: Time)

  function NewRecord(callId: string, merchantId: string, provider: Provider, token: string, expiresAt: Expiry)
    : SessionRecord
  {
    SessionRecord(callId, merchantId, provider, Idle, Sha256(token), expiresAt, [], [], None, None, None)
  }

  function Changed(s: SessionRecord, op: StoreOp): SessionRecord {
    match op
    case Create(_, callId, merchantId, provider, token, expiresAt) =>
      NewRecord(callId, merchantId, provider, token, expiresAt)
    case UpdateState(_, state) => s.(state := state)
    case AppendTranscript(_, role, text) => s.(transcripts := s.transcripts + [TranscriptEntry(role, text)])
    case AppendToolCall(_, name, summary) => s.(toolCalls := s.toolCalls + [ToolCallEntry(name, summary)])
    case MarkHandoff(_, reason, handoffId) =>
      s.(state := HandoffPending, handoffReason := Some(reason), handoffId := Some(handoffId))
    case End(_, at) => s.(state := Ended, endedAt := Some(at))
  }

  /** Everything but a creation needs the session to exist, and otherwise raises. */
  function Apply(m: Sessions, op: StoreOp): Sessions {
    if op.Create? then m[op.id := NewRecord(op.callId, op.merchantId, op.provider, op.token, op.expiresAt)]
    else if op.id in m then m[op.id := Changed(m[op.id], op)]
    else m
  }

  function Replay(ops: seq<StoreOp>): Sessions {
    if ops == [] then map[] else Apply(Replay(ops[..|ops| - 1]), ops[|ops| - 1])
  }

  /** What a check of a token comes to; `Incomparable` is the exception of comparing times with and without a zone. */
  datatype Verdict = Accepted | Refused | Incomparable

  lemma ReplayAppend(ops: seq<StoreOp>, op: StoreOp)
    ensures Replay(ops + [op]) == Apply(Replay(ops), op)
  {
    assert (ops + [op])[..|ops|] == ops;
  }

  /** One session has been changed as an operation says, and no other. */
  lemma OneChanged(m: Sessions, m': Sessions, op: StoreOp)
    requires !op.Create? && op.id in m && m'.Keys == m.Keys
    requires forall k :: k in m && k != op.id ==> m'[k] == m[k]
    requires m'[op.id] == Changed(m[op.id], op)
    ensures m' == Apply(m, op)
  {
  }

  lemma MissingIsUnchanged(m: Sessions, op: StoreOp)
    requires !op.Create?
    ensures op.id !in m ==> Apply(m, op) == m
  {
  }

  /** `verify_tool_call_token` */
  function TokenVerdict(s: SessionRecord, token: string, now: Time): Verdict {
    if s.endedAt.Some? then Refused
    else if s.tokenExpiresAt.NoZone? then Incomparable
    else if now >= s.tokenExpiresAt.at then Refused
    else if s.tokenHash == Sha256(token) then Accepted
    else Refused
  }

  /** `verify_session_token_binding`, which checks the token even when the binding is wrong. */
  function BindingVerdict(s: SessionRecord, token: string, callId: string, merchantId: string, provider: Provider,
                          now: Time): Verdict {
    var metadataMatches := s.callId == callId && s.merchantId == merchantId && s.provider == provider;
    match TokenVerdict(s, token, now)
    case Accepted => if metadataMatches then Accepted else Refused
    case Refused => Refused
    case Incomparable => Incomparable
  }

  predicate BindingAccepted(s: SessionRecord, token: string, callId: string, merchantId: string, provider: Provider,
                            now: Time) {
    BindingVerdict(s, token, callId, merchantId, provider, now).Accepted?
  }

  // ---------------------------------------------------------------- what a verdict means

  /** Operation `k` is the latest creation of the session, which has not been ended since. */
  ghost predicate LiveSince(ops: seq<StoreOp>, k: nat, id: string) {
    && k < |ops| && ops[k].Create? && ops[k].id == id
    && forall l :: k < l < |ops| && ops[l].id == id ==> !ops[l].Create? && !ops[l].End?
  }

  /** Operation `k` issued this token for this binding, in time, and nothing has replaced or ended it since. */
  ghost predicate IssuedAt(ops: seq<StoreOp>, k: nat, id: string, token: string, callId: string, merchantId: string,
                           provider: Provider, now: Time) {
    && LiveSince(ops, k, id)
    && ops[k].token == token && ops[k].callId == callId && ops[k].merchantId == merchantId
    && ops[k].provider == provider
    && ops[k].expiresAt.Expires? && now < ops[k].expiresAt.at
  }

  ghost predicate Issued(ops: seq<StoreOp>, id: string, token: string, callId: string, merchantId: string,
                         provider: Provider, now: Time) {
    exists k :: IssuedAt(ops, k, id, token, callId, merchantId, provider, now)
  }

  /** The session is live, and its expiry has no zone. */
  ghost predicate IssuedWithoutZone(ops: seq<StoreOp>, id: string) {
    exists k: nat :: LiveSince(ops, k, id) && ops[k].expiresAt.NoZone?
  }

  /** The record of a session still has what its creation gave it. */
  predicate CreatedBy(s: SessionRecord, op: StoreOp)
    requires op.Create?
  {
    && s.callId == op.callId && s.merchantId == op.merchantId && s.provider == op.provider
    && s.tokenHash == Sha256(op.token) && s.tokenExpiresAt == op.expiresAt
  }

  /** The live sessions, read off the history alone. */
  lemma {:induction false} LiveIsHistory(ops: seq<StoreOp>, id: string)
    ensures (id in Replay(ops) && Replay(ops)[id].endedAt.None?) <==> exists k :: LiveSince(ops, k, id)
    ensures forall k: nat :: LiveSince(ops, k, id) ==> id in Replay(ops) && CreatedBy(Replay(ops)[id], ops[k])
  {
    if ops != [] {
      var n := |ops| - 1;
      var before, op := ops[..n], ops[n];
      LiveIsHistory(before, id);
      forall k: nat ensures LiveSince(ops, k, id) <==>
        if op.id == id && op.Create? then k == n else LiveSince(before, k, id) && !(op.id == id && op.End?)
      {
        LiveStep(ops, k, id);
      }
      if op.id == id && op.Create? { assert LiveSince(ops, n, id); }
      if k: nat :| LiveSince(before, k, id) {
        assert LiveSince(ops, k, id) || (op.id == id && (op.Create? || op.End?));
      }
    }
  }

  lemma LiveStep(ops: seq<StoreOp>, k: nat, id: string)
    requires ops != []
    ensures var n := |ops| - 1;
            LiveSince(ops, k, id) <==>
              if ops[n].id == id && ops[n].Create? then k == n
              else LiveSince(ops[..n], k, id) && !(ops[n].id == id && ops[n].End?)
  {
  }

  /**
   * The verdict on a token, read off the history alone: it is accepted exactly when the latest
   * creation of the session issued it, with the same call, merchant and provider, it has not expired,
   * and the session has not been ended since.  State updates, transcripts, tool calls and handoffs
   * have no say in it.  It cannot be given exactly when that creation left out the zone of the expiry.
   */
  lemma VerdictIsHistory(ops: seq<StoreOp>, id: string, token: string, callId: string,
                         merchantId: string, provider: Provider, now: Time)
    ensures (id in Replay(ops) && BindingAccepted(Replay(ops)[id], token, callId, merchantId, provider, now)) <==>
            Issued(ops, id, token, callId, merchantId, provider, now)
    ensures (id in Replay(ops) &&
             BindingVerdict(Replay(ops)[id], token, callId, merchantId, provider, now).Incomparable?)
            <==> IssuedWithoutZone(ops, id)
  {
    hide Replay;
    LiveIsHistory(ops, id);
    if k: nat :| LiveSince(ops, k, id) {
      assert CreatedBy(Replay(ops)[id], ops[k]);
      if BindingAccepted(Replay(ops)[id], token, callId, merchantId, provider, now) {
        assert IssuedAt(ops, k, id, token, callId, merchantId, provider, now);
      }
    }
  }

  // ---------------------------------------------------------------- what a record means

  /** The operation is about session `id` and leaves it in this state. */
  predicate LeavesState(op: StoreOp, id: string, state: SessionState) {
    op.id == id &&
    match op
    case Create(_, _, _, _, _, _) => state == Idle
    case UpdateState(_, to) => state == to
    case MarkHandoff(_, _, _) => state == HandoffPending
    case End(_, _) => state == Ended
    case _ => false
  }

  predicate LeavesHandoff(op: StoreOp, id: string, reason: Option<HandoffReason>, handoffId: Option<string>) {
    op.id == id &&
    ((op.Create? && reason.None? && handoffId.None?) ||
     (op.MarkHandoff? && reason == Some(op.reason) && handoffId == Some(op.handoffId)))
  }

  predicate LeavesEnd(op: StoreOp, id: string, endedAt: Option<Time>) {
    op.id == id && ((op.Create? && endedAt.None?) || (op.End? && endedAt == Some(op.at)))
  }

  predicate ActsOnState(op: StoreOp, id: string) {
    op.id == id && (op.Create? || op.UpdateState? || op.MarkHandoff? || op.End?)
  }

  predicate ActsOnHandoff(op: StoreOp, id: string) { op.id == id && (op.Create? || op.MarkHandoff?) }

  predicate ActsOnEnd(op: StoreOp, id: string) { op.id == id && (op.Create? || op.End?) }

  /** Operation `k` left the session as the record has it, and none after it has a say in that. */
  ghost predicate StateFrom(ops: seq<StoreOp>, k: nat, id: string, s: SessionRecord) {
    k < |ops| && LeavesState(ops[k], id, s.state) && forall l :: k < l < |ops| ==> !ActsOnState(ops[l], id)
  }

  ghost predicate HandoffFrom(ops: seq<StoreOp>, k: nat, id: string, s: SessionRecord) {
    && k < |ops| && LeavesHandoff(ops[k], id, s.handoffReason, s.handoffId)
    && forall l :: k < l < |ops| ==> !ActsOnHandoff(ops[l], id)
  }

  ghost predicate EndFrom(ops: seq<StoreOp>, k: nat, id: string, s: SessionRecord) {
    k < |ops| && LeavesEnd(ops[k], id, s.endedAt) && forall l :: k < l < |ops| ==> !ActsOnEnd(ops[l], id)
  }

  /** The latest operation speaks for itself, or the one before it still does. */
  lemma FromBefore(ops: seq<StoreOp>, k: nat, id: string, s: SessionRecord)
    requires ops != []
    ensures var n, before := |ops| - 1, ops[..|ops| - 1];
            && (LeavesState(ops[n], id, s.state) ==> StateFrom(ops, n, id, s))
            && (StateFrom(before, k, id, s) && !ActsOnState(ops[n], id) ==> StateFrom(ops, k, id, s))
            && (LeavesHandoff(ops[n], id, s.handoffReason, s.handoffId) ==> HandoffFrom(ops, n, id, s))
            && (HandoffFrom(before, k, id, s) && !ActsOnHandoff(ops[n], id) ==> HandoffFrom(ops, k, id, s))
            && (LeavesEnd(ops[n], id, s.endedAt) ==> EndFrom(ops, n, id, s))
            && (EndFrom(before, k, id, s) && !ActsOnEnd(ops[n], id) ==> EndFrom(ops, k, id, s))
  {
    var n, before := |ops| - 1, ops[..|ops| - 1];
    assert forall l :: 0 <= l < n ==> before[l] == ops[l];
    hide LeavesState, LeavesHandoff, LeavesEnd, ActsOnState, ActsOnHandoff, ActsOnEnd;
  }

  /** An operation that has no say in something leaves it as it was. */
  lemma UntouchedBy(m: Sessions, op: StoreOp, id: string)
    requires id in m
    ensures var s, s' := m[id], Apply(m, op)[id];
            && (if ActsOnState(op, id) then LeavesState(op, id, s'.state) else s'.state == s.state)
            && (if ActsOnHandoff(op, id) then LeavesHandoff(op, id, s'.handoffReason, s'.handoffId)
                else s'.handoffReason == s.handoffReason && s'.handoffId == s.handoffId)
            && (if ActsOnEnd(op, id) then LeavesEnd(op, id, s'.endedAt) else s'.endedAt == s.endedAt)
  {
  }

  /** State, handoff and end of a session are those that the last operation with a say in it left. */
  lemma {:induction false} RecordIsHistory(ops: seq<StoreOp>, id: string)
    requires id in Replay(ops)
    ensures exists k :: StateFrom(ops, k, id, Replay(ops)[id])
    ensures exists k :: HandoffFrom(ops, k, id, Replay(ops)[id])
    ensures exists k :: EndFrom(ops, k, id, Replay(ops)[id])
  {
    hide StateFrom, HandoffFrom, EndFrom, LeavesState, LeavesHandoff, LeavesEnd, ActsOnState, ActsOnHandoff, ActsOnEnd;
    var n, before, s := |ops| - 1, ops[..|ops| - 1], Replay(ops)[id];
    if id in Replay(before) {
      RecordIsHistory(before, id);
      UntouchedBy(Replay(before), ops[n], id);
      var earlier := Replay(before)[id];
      var a: nat :| StateFrom(before, a, id, earlier);
      var b: nat :| HandoffFrom(before, b, id, earlier);
      var c: nat :| EndFrom(before, c, id, earlier);
      SameParts(before, a, b, c, id, earlier, s);
      FromBefore(ops, a, id, s);
      FromBefore(ops, b, id, s);
      FromBefore(ops, c, id, s);
    } else {
      FreshRecord(Replay(before), ops[n], id);
      FromBefore(ops, 0, id, s);
    }
  }

  lemma SameParts(ops: seq<StoreOp>, a: nat, b: nat, c: nat, id: string, s: SessionRecord, s': SessionRecord)
    ensures StateFrom(ops, a, id, s) && s'.state == s.state ==> StateFrom(ops, a, id, s')
    ensures HandoffFrom(ops, b, id, s) && s'.handoffReason == s.handoffReason && s'.handoffId == s.handoffId ==>
            HandoffFrom(ops, b, id, s')
    ensures EndFrom(ops, c, id, s) && s'.endedAt == s.endedAt ==> EndFrom(ops, c, id, s')
  {
  }

  lemma FreshRecord(m: Sessions, op: StoreOp, id: string)
    requires id !in m && id in Apply(m, op)
    ensures var s := Apply(m, op)[id];
            LeavesState(op, id, s.state) && LeavesHandoff(op, id, s.handoffReason, s.handoffId) &&
            LeavesEnd(op, id, s.endedAt)
  {
  }

  // ---------------------------------------------------------------- the store

  class VoiceSession {
    const sessionId: string
    const callId: string
    const merchantId: string
    const provider: Provider
    const tokenHash: Digest
    const tokenExpiresAt: Expiry
    var state: SessionState
    var transcripts: seq<TranscriptEntry>
    var toolCalls: seq<ToolCallEntry>
    var handoffReason: Option<HandoffReason>
    var handoffId: Option<string>
    var endedAt: Option<Time>

    constructor (sessionId: string, callId: string, merchantId: string, provider: Provider, tokenHash: Digest,
                 tokenExpiresAt: Expiry)
      ensures this.sessionId == sessionId
      ensures Record() ==
        SessionRecord(callId, merchantId, provider, Idle, tokenHash, tokenExpiresAt, [], [], None, None, None)
    {
      this.sessionId, this.callId, this.merchantId, this.provider := sessionId, callId, merchantId, provider;
      this.tokenHash, this.tokenExpiresAt := tokenHash, tokenExpiresAt;
      state, transcripts, toolCalls, handoffReason, handoffId, endedAt := Idle, [], [], None, None, None;
    }

    function Record(): SessionRecord
      reads this
    {
      SessionRecord(callId, merchantId, provider, state, tokenHash, tokenExpiresAt, transcripts, toolCalls,
                    handoffReason, handoffId, endedAt)
    }
  }

  datatype StoreError = VoiceSessionNotFound(id: string) | IncomparableTimes

  class InMemoryVoiceSessionStore {
    var sessions: map<string, VoiceSession>
    /** Every operation that did not raise, oldest first. */
    ghost var History: seq<StoreOp>

    ghost predicate Valid()
      reads this, sessions.Values
    {
      (forall id :: id in sessions ==> sessions[id].sessionId == id) && View() == Replay(History)
    }

    function View(): Sessions
      reads this, sessions.Values
    {
      map id | id in sessions :: sessions[id].Record()
    }

    constructor ()
      ensures Valid() && History == [] && View() == map[] && sessions == map[]
    {
      sessions, History := map[], [];
    }

    method CreateSession(id: string, callId: string, merchantId: string, provider: Provider,
                         tokenExpiresAt: Option<Expiry>, now: Time, token: string)
      returns (created: VoiceSession, issued: string)
      requires Valid()
      modifies this
      ensures Valid() && fresh(created) && issued == token
      ensures sessions == old(sessions)[id := created]
      ensures History == old(History) + [Create(id, callId, merchantId, provider, token,
                if tokenExpiresAt.Some? then tokenExpiresAt.value else Expires(now + DEFAULT_TOOL_CALL_TOKEN_TTL))]
      ensures View() == Apply(old(View()), History[|old(History)|])
    {
      hide Replay;
      var expiresAt :=
        if tokenExpiresAt.Some? then tokenExpiresAt.value else Expires(now + DEFAULT_TOOL_CALL_TOKEN_TTL);
      created := new VoiceSession(id, callId, merchantId, provider, Sha256(token), expiresAt);
      sessions := sessions[id := created];
      issued := token;
      Log(Create(id, callId, merchantId, provider, token, expiresAt));
    }

    /** Appends to the history an operation whose effect is already there. */
    ghost method Log(op: StoreOp)
      requires forall id :: id in sessions ==> sessions[id].sessionId == id
      requires View() == Apply(Replay(History), op)
      modifies this`History
      ensures Valid() && History == old(History) + [op] && View() == Replay(History)
    {
      hide Replay, Apply;
      ReplayAppend(History, op);
      History := History + [op];
    }

    /** The same for an operation that has changed one session. */
    ghost method LogChange(op: StoreOp, before: Sessions)
      requires !op.Create? && op.id in sessions && before == Replay(History) && before.Keys == sessions.Keys
      requires forall id :: id in sessions ==> sessions[id].sessionId == id
      requires forall id :: id in sessions && id != op.id ==> sessions[id].Record() == before[id]
      requires sessions[op.id].Record() == Changed(before[op.id], op)
      modifies this`History
      ensures Valid() && History == old(History) + [op] && View() == Apply(before, op)
    {
      hide Replay, Apply, Changed;
      OneChanged(before, View(), op);
      Log(op);
    }

    method GetSession(id: string) returns (r: Result<VoiceSession, StoreError>)
      ensures r == if id in sessions then Ok(sessions[id]) else Err(VoiceSessionNotFound(id))
    {
      if id in sessions { return Ok(sessions[id]); }
      return Err(VoiceSessionNotFound(id));
    }

    /** The binding and the token are both checked; the verdict is the one the history gives. */
    method VerifySessionTokenBinding(id: string, token: string, callId: string, merchantId: string,
                                     provider: Provider, now: Time) returns (r: Result<bool, StoreError>)
      requires Valid()
      ensures r == Err(VoiceSessionNotFound(id)) <==> id !in sessions
      ensures r == Err(IncomparableTimes) <==> IssuedWithoutZone(History, id)
      ensures r == Ok(true) <==> Issued(History, id, token, callId, merchantId, provider, now)
      ensures id in sessions ==>
        r == match BindingVerdict(View()[id], token, callId, merchantId, provider, now)
             case Accepted => Ok(true)
             case Refused => Ok(false)
             case Incomparable => Err(IncomparableTimes)
    {
      hide Replay, Issued, IssuedWithoutZone;
      VerdictIsHistory(History, id, token, callId, merchantId, provider, now);
      var found := GetSession(id);
      if found.Err? { return Err(found.error); }
      var session := found.value;
      var metadataMatches :=
        session.callId == callId && session.merchantId == merchantId && session.provider == provider;
      var tokenIsValid := VerifyToolCallToken(id, token, now);
      if tokenIsValid.Err? { return tokenIsValid; }
      return Ok(metadataMatches && tokenIsValid.value);
    }

    method VerifyToolCallToken(id: string, token: string, now: Time) returns (r: Result<bool, StoreError>)
      requires Valid()
      ensures r ==
        if id !in sessions then Err(VoiceSessionNotFound(id))
        else match TokenVerdict(View()[id], token, now)
             case Accepted => Ok(true)
             case Refused => Ok(false)
             case Incomparable => Err(IncomparableTimes)
    {
      hide Replay;
      var found := GetSession(id);
      if found.Err? { return Err(found.error); }
      var session := found.value;
      if session.endedAt.Some? { return Ok(false); }
      if session.tokenExpiresAt.NoZone? { return Err(IncomparableTimes); }
      if now >= session.tokenExpiresAt.at { return Ok(false); }
      return Ok(session.tokenHash == Sha256(token));
    }

    method SetState(id: string, newState: SessionState) returns (r: Result<VoiceSession, StoreError>)
      requires Valid()
      modifies this`History, if id in sessions then {sessions[id]} else {}
      ensures Valid()
      ensures r == if id in sessions then Ok(sessions[id]) else Err(VoiceSessionNotFound(id))
      ensures History == if id in sessions then old(History) + [UpdateState(id, newState)] else old(History)
      ensures View() == Apply(old(View()), UpdateState(id, newState))
    {
      hide Replay, Apply;
      ghost var before, op := View(), UpdateState(id, newState);
      MissingIsUnchanged(before, op);
      var found := GetSession(id);
      if found.Err? { return found; }
      var session := found.value;
      session.state := newState;
      LogChange(op, before);
      return found;
    }

    method AddTranscript(id: string, role: Speaker, text: string) returns (r: Result<VoiceSession, StoreError>)
      requires Valid()
      modifies this`History, if id in sessions then {sessions[id]} else {}
      ensures Valid()
      ensures r == if id in sessions then Ok(sessions[id]) else Err(VoiceSessionNotFound(id))
      ensures History == if id in sessions then old(History) + [AppendTranscript(id, role, text)] else old(History)
      ensures View() == Apply(old(View()), AppendTranscript(id, role, text))
    {
      hide Replay, Apply;
      ghost var before, op := View(), AppendTranscript(id, role, text);
      MissingIsUnchanged(before, op);
      var found := GetSession(id);
      if found.Err? { return found; }
      found.value.transcripts := found.value.transcripts + [TranscriptEntry(role, text)];
      LogChange(op, before);
      return found;
    }

    method AddToolCall(id: string, toolName: string, safeSummary: string)
      returns (r: Result<VoiceSession, StoreError>)
      requires Valid()
      modifies this`History, if id in sessions then {sessions[id]} else {}
      ensures Valid()
      ensures r == if id in sessions then Ok(sessions[id]) else Err(VoiceSessionNotFound(id))
      ensures History ==
        if id in sessions then old(History) + [AppendToolCall(id, toolName, safeSummary)] else old(History)
      ensures View() == Apply(old(View()), AppendToolCall(id, toolName, safeSummary))
    {
      hide Replay, Apply;
      ghost var before, op := View(), AppendToolCall(id, toolName, safeSummary);
      MissingIsUnchanged(before, op);
      var found := GetSession(id);
      if found.Err? { return found; }
      found.value.toolCalls := found.value.toolCalls + [ToolCallEntry(toolName, safeSummary)];
      LogChange(op, before);
      return found;
    }

    method RecordHandoff(id: string, reason: HandoffReason, handoffId: string)
      returns (r: Result<VoiceSession, StoreError>)
      requires Valid()
      modifies this`History, if id in sessions then {sessions[id]} else {}
      ensures Valid()
      ensures r == if id in sessions then Ok(sessions[id]) else Err(VoiceSessionNotFound(id))
      ensures History == if id in sessions then old(History) + [MarkHandoff(id, reason, handoffId)] else old(History)
      ensures View() == Apply(old(View()), MarkHandoff(id, reason, handoffId))
    {
      hide Replay, Apply;
      ghost var before, op := View(), MarkHandoff(id, reason, handoffId);
      MissingIsUnchanged(before, op);
      var found := GetSession(id);
      if found.Err? { return found; }
      var session := found.value;
      session.state := HandoffPending;
      session.handoffReason := Some(reason);
      session.handoffId := Some(handoffId);
      LogChange(op, before);
      return found;
    }

    method EndSession(id: string, endedAt: Option<Time>, now: Time) returns (r: Result<VoiceSession, StoreError>)
      requires Valid()
      modifies this`History, if id in sessions then {sessions[id]} else {}
      ensures Valid()
      ensures r == if id in sessions then Ok(sessions[id]) else Err(VoiceSessionNotFound(id))
      ensures var op := End(id, if endedAt.Some? then endedAt.value else now);
              && History == (if id in sessions then old(History) + [op] else old(History))
              && View() == Apply(old(View()), op)
    {
      hide Replay, Apply;
      var at := if endedAt.Some? then endedAt.value else now;
      ghost var before, op := View(), End(id, at);
      MissingIsUnchanged(before, op);
      var found := GetSession(id);
      if found.Err? { return found; }
      var session := found.value;
      session.state := Ended;
      session.endedAt := Some(at);
      LogChange(op, before);
      return found;
    }
  }
}
