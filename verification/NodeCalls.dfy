/** The call manager of the Node gateway (node/src/bridge/callManager.ts).

    It runs on one event loop: code between two awaits is one step, and at an await any other step may
    come in between. A setup is one run of handleInvite; it awaits its RTP socket, then possibly the
    voice webhook, then its WebSocket.

    Call-IDs and CallSids are numbers; each setup mints a CallSid of its own, and a session object is
    identified by it. */
module NodeCalls {

  import opened Collections

  type CallId = nat
  type Sid = nat

  datatype CallState = Streaming | DialingOut | HungUp | Terminated

  /** A session object, up to the fields that change. */
  datatype Session = Session(callId: CallId, callSid: Sid)

  /** Why terminateSession was called. */
  datatype Reason = RemoteCancel | RemoteBye | Rest | Shutdown | ReconnectFailed

  // ---------------------------------------------------------------------------------------------
  // The indices

  /** `snapshots` and `byes` list the snapshots written and the caller BYEs sent, oldest first. */
  datatype Calls = Calls(
    sessions: map<CallId, Session>,
    callSidIdx: map<Sid, Session>,
    recentlyTerminated: map<Sid, Reason>,
    activeCalls: int,
    states: map<Sid, CallState>,
    snapshots: seq<Sid>,
    byes: seq<Sid>)

  /** Storing a new session. */
  function Stored(c: Calls, x: Session): Calls {
    c.(sessions := c.sessions[x.callId := x],
       callSidIdx := c.callSidIdx[x.callSid := x],
       states := c.states[x.callSid := Streaming],
       activeCalls := c.activeCalls + 1)
  }

  /** terminateSession; it only asks whether some session has this Call-ID. */
  function Ended(c: Calls, x: Session, reason: Reason, sendBye: bool): Calls {
    if x.callId !in c.sessions then c
    else c.(
      sessions := c.sessions - {x.callId},
      callSidIdx := c.callSidIdx - {x.callSid},
      states := c.states[x.callSid := if reason.RemoteBye? then HungUp else Terminated],
      recentlyTerminated := c.recentlyTerminated[x.callSid := reason],
      activeCalls := c.activeCalls - 1,
      snapshots := c.snapshots + [x.callSid],
      byes := if sendBye then c.byes + [x.callSid] else c.byes)
  }

  /** The loop of terminateAll over the sessions it found, the index having been cleared before. */
  function EndedAll(c: Calls, order: seq<Session>): Calls {
    if order == [] then c
    else
      var before := EndedAll(c, order[..|order| - 1]);
      var x := order[|order| - 1];
      Ended(before.(sessions := before.sessions[x.callId := x]), x, Shutdown, true)
  }

  ghost predicate ListsSessions(order: seq<Session>, c: Calls) {
    && (forall i, j :: 0 <= i < j < |order| ==> order[i] != order[j])
    && (forall x :: x in order <==> x.callId in c.sessions && c.sessions[x.callId] == x)
  }

  // ---------------------------------------------------------------------------------------------
  // The steps

  datatype Phase = AwaitRtp | AwaitVoice | AwaitWs

  datatype Setup = Setup(callId: CallId, phase: Phase)

  /** What is sent to the caller. Setups are named by their CallSid. */
  datatype Message =
    | Trying(setup: Sid)
    | Ringing(setup: Sid)
    | Answer(setup: Sid)
    | Refusal(setup: Sid, status: int)
    | RefusedAtOnce(callId: CallId)
    | AnswerAgain(session: Sid)
    | RequestTerminated(callId: CallId)
    | OkToCancel(callId: CallId)
    | OkToBye(callId: CallId)

  datatype Setups = Setups(
    pendingInvites: set<CallId>,
    cancelledInvites: set<CallId>,
    inFlight: map<Sid, Setup>)

  /** `callIdOf` records the Call-ID of every setup there has been, `cancelled` the setups for which a
      CANCEL was handled while they were pending, `connecting` the sessions whose reconnect loop awaits
      a connect. */
  datatype State = State(
    calls: Calls,
    setups: Setups,
    connecting: set<Sid>,
    shuttingDown: bool,
    sent: seq<Message>,
    callIdOf: map<Sid, CallId>,
    cancelled: set<Sid>,
    nextSid: Sid)

  function Init(): State {
    State(Calls(map[], map[], map[], 0, map[], [], []), Setups({}, {}, map[]), {}, false, [], map[], {}, 0)
  }

  datatype Label =
    | Invite(callId: CallId, sdpOk: bool)
    | RtpReady(sid: Sid, ok: bool, dynamic: bool)
    | VoiceFetched(sid: Sid, ok: bool)
    | WsConnected(sid: Sid, ok: bool)
    | Cancel(callId: CallId)
    | Bye(callId: CallId)
    | TerminateByCallSid(sid: Sid)
    | CloseStream(sid: Sid)
    | ReconnectAttempt(sid: Sid)
    | ReconnectDone(sid: Sid, ok: bool, budgetLeft: bool)
    | TerminateAll(order: seq<Session>)
    | SweepSnapshot(sid: Sid)

  function Sent(s: State, msg: Message): State {
    s.(sent := s.sent + [msg])
  }

  /** The finally block of handleInvite. */
  function Finished(u: Setups, sid: Sid, callId: CallId): Setups {
    Setups(u.pendingInvites - {callId}, u.cancelledInvites - {callId}, u.inFlight - {sid})
  }

  function Finish(s: State, sid: Sid): State
    requires sid in s.setups.inFlight
  {
    s.(setups := Finished(s.setups, sid, s.setups.inFlight[sid].callId))
  }

  function MoveTo(s: State, sid: Sid, phase: Phase): State
    requires sid in s.setups.inFlight
  {
    s.(setups := s.setups.(inFlight := s.setups.inFlight[sid := s.setups.inFlight[sid].(phase := phase)]))
  }

  predicate IsCancelled(s: State, sid: Sid)
    requires sid in s.setups.inFlight
  {
    s.setups.inFlight[sid].callId in s.setups.cancelledInvites
  }

  predicate Awaits(s: State, sid: Sid, phase: Phase) {
    sid in s.setups.inFlight && s.setups.inFlight[sid].phase == phase
  }

  /** An INVITE that starts a setup: not during shutdown, not pending, not established. */
  predicate Opens(s: State, callId: CallId) {
    !s.shuttingDown && callId !in s.setups.pendingInvites && callId !in s.calls.sessions
  }

  /** A setup gets its CallSid and sends 100 Trying. */
  function Begun(s: State, callId: CallId): State {
    Sent(s.(nextSid := s.nextSid + 1, callIdOf := s.callIdOf[s.nextSid := callId]), Trying(s.nextSid))
  }

  function Awaiting(s: State, sid: Sid, callId: CallId): State {
    s.(setups := s.setups.(pendingInvites := s.setups.pendingInvites + {callId},
                           inFlight := s.setups.inFlight[sid := Setup(callId, AwaitRtp)]))
  }

  /** No supported codec: 488, and the finally block. */
  function RefusedSdp(s: State, sid: Sid, callId: CallId): State {
    Sent(s.(setups := s.setups.(pendingInvites := s.setups.pendingInvites + {callId} - {callId},
                                cancelledInvites := s.setups.cancelledInvites - {callId})),
         Refusal(sid, 488))
  }

  function OpenSetup(s: State, callId: CallId, sdpOk: bool): State {
    if sdpOk then Awaiting(Begun(s, callId), s.nextSid, callId) else RefusedSdp(Begun(s, callId), s.nextSid, callId)
  }

  function HandleInvite(s: State, callId: CallId, sdpOk: bool): State {
    if s.shuttingDown then Sent(s, RefusedAtOnce(callId))
    else if callId in s.setups.pendingInvites then s
    else if callId in s.calls.sessions then Sent(s, AnswerAgain(s.calls.sessions[callId].callSid))
    else OpenSetup(s, callId, sdpOk)
  }

  function AfterRtp(s: State, sid: Sid, ok: bool, dynamic: bool): State
    requires sid in s.setups.inFlight
  {
    if !ok || IsCancelled(s, sid) then Finish(s, sid)
    else MoveTo(Sent(s, Ringing(sid)), sid, if dynamic then AwaitVoice else AwaitWs)
  }

  function AfterVoice(s: State, sid: Sid, ok: bool): State
    requires sid in s.setups.inFlight
  {
    if ok then MoveTo(s, sid, AwaitWs) else Finish(Sent(s, Refusal(sid, 503)), sid)
  }

  function AfterWs(s: State, sid: Sid, ok: bool): State
    requires sid in s.setups.inFlight
  {
    if !ok then Finish(Sent(s, Refusal(sid, 503)), sid)
    else if IsCancelled(s, sid) then Finish(s, sid)
    else
      var t := Sent(s, Answer(sid));
      Finish(t.(calls := Stored(t.calls, Session(s.setups.inFlight[sid].callId, sid))), sid)
  }

  /** Marking a pending Call-ID and its setup as cancelled. */
  function Marked(s: State, callId: CallId): State {
    s.(setups := s.setups.(cancelledInvites := s.setups.cancelledInvites + {callId}),
       cancelled := s.cancelled + set i | i in s.setups.inFlight && s.setups.inFlight[i].callId == callId)
  }

  function HandleCancel(s: State, callId: CallId): State {
    var o := Sent(s, OkToCancel(callId));
    if callId in s.calls.sessions then o.(calls := Ended(s.calls, s.calls.sessions[callId], RemoteCancel, false))
    else if callId in s.setups.pendingInvites then Sent(Marked(o, callId), RequestTerminated(callId))
    else o
  }

  function HandleBye(s: State, callId: CallId): State {
    if callId in s.calls.sessions
    then Sent(s, OkToBye(callId)).(calls := Ended(s.calls, s.calls.sessions[callId], RemoteBye, false))
    else s
  }

  /** shouldReconnectWs. */
  predicate ShouldReconnect(s: State, sid: Sid) {
    && sid in s.callIdOf && s.callIdOf[sid] in s.calls.sessions
    && sid in s.calls.states && s.calls.states[sid] == Streaming
  }

  function HandleReconnectDone(s: State, sid: Sid, ok: bool, budgetLeft: bool): State {
    if sid !in s.connecting || sid !in s.callIdOf then s
    else
      var t := s.(connecting := s.connecting - {sid});
      if ok || budgetLeft then t
      else t.(calls := Ended(s.calls, Session(s.callIdOf[sid], sid), ReconnectFailed, true))
  }

  function HandleCloseStream(s: State, sid: Sid): State {
    if sid in s.calls.callSidIdx && sid in s.calls.states && s.calls.states[sid] == Streaming
    then s.(calls := s.calls.(states := s.calls.states[sid := DialingOut])) else s
  }

  /** The sweep drops an expired snapshot; which one, and when, is left open. */
  function Swept(s: State, sid: Sid): State {
    s.(calls := s.calls.(recentlyTerminated := s.calls.recentlyTerminated - {sid}))
  }

  /** terminateAll clears the index first, and rejects new INVITEs from then on. */
  function TerminatedAll(s: State, order: seq<Session>): State {
    s.(shuttingDown := true, calls := EndedAll(s.calls.(sessions := map[]), order))
  }

  ghost function Apply(s: State, l: Label): State {
    match l
    case Invite(callId, sdpOk) => HandleInvite(s, callId, sdpOk)
    case RtpReady(sid, ok, dynamic) => if Awaits(s, sid, AwaitRtp) then AfterRtp(s, sid, ok, dynamic) else s
    case VoiceFetched(sid, ok) => if Awaits(s, sid, AwaitVoice) then AfterVoice(s, sid, ok) else s
    case WsConnected(sid, ok) => if Awaits(s, sid, AwaitWs) then AfterWs(s, sid, ok) else s
    case Cancel(callId) => HandleCancel(s, callId)
    case Bye(callId) => HandleBye(s, callId)
    case TerminateByCallSid(sid) =>
      if sid in s.calls.callSidIdx then s.(calls := Ended(s.calls, s.calls.callSidIdx[sid], Rest, true)) else s
    case CloseStream(sid) => HandleCloseStream(s, sid)
    case ReconnectAttempt(sid) => if ShouldReconnect(s, sid) then s.(connecting := s.connecting + {sid}) else s
    case ReconnectDone(sid, ok, budgetLeft) => HandleReconnectDone(s, sid, ok, budgetLeft)
    case TerminateAll(order) =>
      if ListsSessions(order, s.calls) then TerminatedAll(s, order) else s
    case SweepSnapshot(sid) => Swept(s, sid)
  }

  ghost function Exec(run: seq<Label>): State {
    if run == [] then Init() else Apply(Exec(run[..|run| - 1]), run[|run| - 1])
  }

  // ---------------------------------------------------------------------------------------------
  // What each event does, told by the state it finds

  /** The messages that an event calls for. */
  function Responses(s: State, l: Label): seq<Message> {
    match l
    case Invite(c, sdpOk) =>
      if s.shuttingDown then [RefusedAtOnce(c)]
      else if c in s.setups.pendingInvites then []
      else if c in s.calls.sessions then [AnswerAgain(s.calls.sessions[c].callSid)]
      else if sdpOk then [Trying(s.nextSid)] else [Trying(s.nextSid), Refusal(s.nextSid, 488)]
    case RtpReady(sid, ok, _) => if Awaits(s, sid, AwaitRtp) && ok && sid !in s.cancelled then [Ringing(sid)] else []
    case VoiceFetched(sid, ok) => if Awaits(s, sid, AwaitVoice) && !ok then [Refusal(sid, 503)] else []
    case WsConnected(sid, ok) =>
      if !Awaits(s, sid, AwaitWs) then []
      else if !ok then [Refusal(sid, 503)] else if sid in s.cancelled then [] else [Answer(sid)]
    case Cancel(c) =>
      if c !in s.calls.sessions && c in s.setups.pendingInvites then [OkToCancel(c), RequestTerminated(c)]
      else [OkToCancel(c)]
    case Bye(c) => if c in s.calls.sessions then [OkToBye(c)] else []
    case _ => []
  }

  ghost function AllResponses(run: seq<Label>): seq<Message> {
    if run == [] then []
    else AllResponses(run[..|run| - 1]) + Responses(Exec(run[..|run| - 1]), run[|run| - 1])
  }

  /** In every run the caller is sent exactly these messages, in this order. */
  lemma {:induction false} SentIsCalledFor(run: seq<Label>)
    ensures Exec(run).sent == AllResponses(run)
  {
    if run != [] {
      SentIsCalledFor(run[..|run| - 1]);
      ExecSetupInv(run[..|run| - 1]);
      StepResponds(Exec(run[..|run| - 1]), run[|run| - 1]);
    }
  }

  /** Why the step ends the live session, if it does. */
  ghost function EndedBy(s: State, l: Label, sid: Sid): Option<Reason> {
    if sid !in s.calls.callSidIdx then None
    else match l
      case Cancel(c) => if s.calls.callSidIdx[sid].callId == c then Some(RemoteCancel) else None
      case Bye(c) => if s.calls.callSidIdx[sid].callId == c then Some(RemoteBye) else None
      case TerminateByCallSid(i) => if i == sid then Some(Rest) else None
      case TerminateAll(order) => if ListsSessions(order, s.calls) then Some(Shutdown) else None
      case ReconnectDone(i, ok, budgetLeft) =>
        if i == sid && sid in s.connecting && !ok && !budgetLeft then Some(ReconnectFailed) else None
      case _ => None
  }

  /** Over a run: the session was live and ended for this reason. */
  ghost predicate EndedFor(run: seq<Label>, sid: Sid, reason: Reason) {
    run != [] && (EndedFor(run[..|run| - 1], sid, reason)
                  || EndedBy(Exec(run[..|run| - 1]), run[|run| - 1], sid) == Some(reason))
  }

  /** For whatever reason. */
  ghost predicate HasEnded(run: seq<Label>, sid: Sid) {
    run != [] && (HasEnded(run[..|run| - 1], sid) || EndedBy(Exec(run[..|run| - 1]), run[|run| - 1], sid).Some?)
  }

  /** The step answers the setup and stores its session. */
  predicate Establishes(s: State, l: Label, sid: Sid) {
    l == WsConnected(sid, true) && Awaits(s, sid, AwaitWs) && sid !in s.cancelled
  }

  ghost predicate Established(run: seq<Label>, sid: Sid) {
    run != [] && (Established(run[..|run| - 1], sid) || Establishes(Exec(run[..|run| - 1]), run[|run| - 1], sid))
  }

  /** With unique Call-IDs, in every run: the caller is sent a BYE by exactly the sessions that ended by REST,
      shutdown or a reconnect that gave up; each session that ended has a snapshot; and the live sessions are
      those established and not ended. */
  lemma {:induction false} ByesExactly(run: seq<Label>, sid: Sid)
    requires UniqueCallIds(run)
    ensures var c := Exec(run).calls;
            && (sid in c.byes <==> EndedFor(run, sid, Rest) || EndedFor(run, sid, Shutdown) || EndedFor(run, sid, ReconnectFailed))
            && (sid in c.snapshots <==> HasEnded(run, sid))
            && (sid in c.callSidIdx <==> Established(run, sid) && !HasEnded(run, sid))
  {
    if run != [] {
      var front, l := run[..|run| - 1], run[|run| - 1];
      ByesExactly(front, sid);
      ExecSetupInv(front);
      ExecCallsInv(front);
      StepEndsExactly(Exec(front), l, sid);
    }
  }

  function StateOf(c: Calls, sid: Sid): Option<CallState> {
    if sid in c.states then Some(c.states[sid]) else None
  }

  /** What list() and the lookups find of an ended session. */
  function ReasonOf(c: Calls, sid: Sid): Option<Reason> {
    if sid in c.recentlyTerminated then Some(c.recentlyTerminated[sid]) else None
  }

  function LastState(reason: Reason): CallState {
    if reason == RemoteBye then HungUp else Terminated
  }

  /** How the state of a session goes on: it ends by its reason, begins Streaming, and CloseStream takes a live
      streaming one to DialingOut. */
  ghost function NextState(s: State, l: Label, sid: Sid, state: Option<CallState>, live: bool): Option<CallState> {
    var end := EndedBy(s, l, sid);
    if end.Some? then Some(LastState(end.value))
    else if Establishes(s, l, sid) then Some(Streaming)
    else if l == CloseStream(sid) && live && state == Some(Streaming) then Some(DialingOut)
    else state
  }

  ghost function NextReason(s: State, l: Label, sid: Sid, reason: Option<Reason>): Option<Reason> {
    if EndedBy(s, l, sid).Some? then EndedBy(s, l, sid) else if l == SweepSnapshot(sid) then None else reason
  }

  ghost function StateTold(run: seq<Label>, sid: Sid): Option<CallState> {
    if run == [] then None
    else
      var front := run[..|run| - 1];
      NextState(Exec(front), run[|run| - 1], sid, StateTold(front, sid), Established(front, sid) && !HasEnded(front, sid))
  }

  ghost function ReasonTold(run: seq<Label>, sid: Sid): Option<Reason> {
    if run == [] then None
    else NextReason(Exec(run[..|run| - 1]), run[|run| - 1], sid, ReasonTold(run[..|run| - 1], sid))
  }

  /** With unique Call-IDs, in every run: the state of a session and the reason of its snapshot are those of the
      last event that concerns it. */
  lemma {:induction false} StatesAreTold(run: seq<Label>, sid: Sid)
    requires UniqueCallIds(run)
    ensures StateOf(Exec(run).calls, sid) == StateTold(run, sid)
    ensures ReasonOf(Exec(run).calls, sid) == ReasonTold(run, sid)
  {
    if run != [] {
      var front, l := run[..|run| - 1], run[|run| - 1];
      StatesAreTold(front, sid);
      ByesExactly(front, sid);
      ExecSetupInv(front);
      ExecCallsInv(front);
      StepEndsExactly(Exec(front), l, sid);
    }
  }

  function PhaseOf(s: State, sid: Sid): Option<Phase> {
    if sid in s.setups.inFlight then Some(s.setups.inFlight[sid].phase) else None
  }

  /** Where a setup goes on to from its await; None stands for not begun, or over. */
  function NextPhase(s: State, l: Label, sid: Sid): Option<Phase> {
    match PhaseOf(s, sid)
    case None =>
      if l.Invite? && l.sdpOk && sid == s.nextSid && !s.shuttingDown
         && l.callId !in s.setups.pendingInvites && l.callId !in s.calls.sessions then Some(AwaitRtp) else None
    case Some(AwaitRtp) =>
      if !(l.RtpReady? && l.sid == sid) then Some(AwaitRtp)
      else if l.ok && sid !in s.cancelled then Some(if l.dynamic then AwaitVoice else AwaitWs) else None
    case Some(AwaitVoice) =>
      if !(l.VoiceFetched? && l.sid == sid) then Some(AwaitVoice) else if l.ok then Some(AwaitWs) else None
    case Some(AwaitWs) => if l.WsConnected? && l.sid == sid then None else Some(AwaitWs)
  }

  /** In every run: each setup goes from await to await by its own answers only; an INVITE that opens one gives
      it a new CallSid; and it is cancelled exactly by a CANCEL for its Call-ID. */
  lemma {:induction false} SetupsMoveOn(run: seq<Label>, l: Label, sid: Sid)
    ensures var s, t := Exec(run), Exec(run + [l]);
            && PhaseOf(t, sid) == NextPhase(s, l, sid)
            && (PhaseOf(t, s.nextSid).Some? ==>
                  l.Invite? && t.nextSid == s.nextSid + 1 && t.setups.inFlight[s.nextSid].callId == l.callId)
            && (sid in t.cancelled <==>
                  sid in s.cancelled || (l.Cancel? && l.callId !in s.calls.sessions
                                         && sid in s.setups.inFlight && s.setups.inFlight[sid].callId == l.callId))
            && (t.shuttingDown <==> s.shuttingDown || (l.TerminateAll? && ListsSessions(l.order, s.calls)))
  {
    ExecSetupInv(run);
    ExecSnoc(run, l);
    SetupMovesOn(Exec(run), l, sid);
    SetupMovesOn(Exec(run), l, Exec(run).nextSid);
  }

  /** With unique Call-IDs, in every run: a reconnect loop begins to connect exactly for a live, streaming
      session, and its attempt is over exactly when its outcome is there. */
  lemma {:induction false} ReconnectsExactly(run: seq<Label>, l: Label, sid: Sid)
    requires UniqueCallIds(run)
    ensures var s, t := Exec(run), Exec(run + [l]);
            sid in t.connecting <==>
              (l == ReconnectAttempt(sid) && sid in s.calls.callSidIdx && StateOf(s.calls, sid) == Some(Streaming))
              || (sid in s.connecting && !(l.ReconnectDone? && l.sid == sid))
  {
    ExecSetupInv(run);
    ExecCallsInv(run);
    ExecSnoc(run, l);
    ConnectsExactly(Exec(run), l, sid);
  }

  // ---------------------------------------------------------------------------------------------
  // Responses to a cancelled INVITE

  predicate RefusedIn(s: State, sid: Sid) {
    exists k :: 0 <= k < |s.sent| && s.sent[k].Refusal? && s.sent[k].setup == sid
  }

  /** The step is a failed voice fetch or a failed WebSocket connect of this setup. */
  predicate FailsAwait(s: State, l: Label, sid: Sid) {
    || (l == VoiceFetched(sid, false) && Awaits(s, sid, AwaitVoice))
    || (l == WsConnected(sid, false) && Awaits(s, sid, AwaitWs))
  }

  /** Such a failure at a time when the setup was already cancelled. */
  ghost predicate FailsAfterCancelAt(run: seq<Label>, n: nat, sid: Sid)
    requires n < |run|
  {
    sid in Exec(run[..n]).cancelled && FailsAwait(Exec(run[..n]), run[n], sid)
  }

  ghost predicate FailedAfterCancel(run: seq<Label>, sid: Sid) {
    exists n :: 0 <= n < |run| && FailsAfterCancelAt(run, n, sid)
  }

  /** A cancelled setup, which has had its 487, gets a second final response if and only if, after the
      CANCEL, its voice fetch or its WebSocket connect failed. */
  lemma {:induction false} SecondResponseIff(run: seq<Label>, sid: Sid)
    ensures sid in Exec(run).cancelled && RefusedIn(Exec(run), sid) <==> FailedAfterCancel(run, sid)
  {
    if run != [] {
      var s, l := Exec(run[..|run| - 1]), run[|run| - 1];
      SecondResponseIff(run[..|run| - 1], sid);
      FailedAfterCancelSnoc(run, sid);
      ExecSetupInv(run[..|run| - 1]);
      ExecRefusalsFinal(run[..|run| - 1]);
      SentOnlyGrows(s, l);
      if sid in s.cancelled {
        CancelledStays(s, l, sid);
        if FailsAwait(s, l, sid) {
          FailureRefuses(s, l, sid);
        }
      }
      if sid in Apply(s, l).cancelled && RefusedIn(Apply(s, l), sid) {
        RefusalHasCause(s, l, sid);
      }
    }
  }

  /** The 487s sent for a Call-ID. */
  function RequestsTerminated(sent: seq<Message>, callId: CallId): nat {
    if sent == [] then 0
    else RequestsTerminated(sent[..|sent| - 1], callId) + (if sent[|sent| - 1] == RequestTerminated(callId) then 1 else 0)
  }

  predicate FindsPending(s: State, l: Label, callId: CallId) {
    l == Cancel(callId) && callId !in s.calls.sessions && callId in s.setups.pendingInvites
  }

  /** The CANCELs of the run that found the Call-ID pending and without a session. */
  ghost function PendingCancels(run: seq<Label>, callId: CallId): nat {
    if run == [] then 0
    else
      PendingCancels(run[..|run| - 1], callId)
      + (if FindsPending(Exec(run[..|run| - 1]), run[|run| - 1], callId) then 1 else 0)
  }

  /** Every CANCEL that finds the setup still pending sends a 487, a repeated one included. */
  lemma {:induction false} EachCancelSends487(run: seq<Label>, callId: CallId)
    ensures RequestsTerminated(Exec(run).sent, callId) == PendingCancels(run, callId)
  {
    if run != [] {
      EachCancelSends487(run[..|run| - 1], callId);
      StepTerminated(Exec(run[..|run| - 1]), run[|run| - 1], callId);
    }
  }

  // Setups that end without a final response

  /** The setup is over, and its INVITE has had neither 200 OK nor a refusal nor the 487 of a CANCEL. */
  predicate SilentlyOver(s: State, sid: Sid) {
    && sid in s.callIdOf && sid !in s.setups.inFlight
    && Answer(sid) !in s.sent && !RefusedIn(s, sid) && sid !in s.cancelled
  }

  /** The step is a failure to get the RTP socket of a setup that is not cancelled. */
  predicate FailsRtp(s: State, l: Label, sid: Sid) {
    l.RtpReady? && l.sid == sid && !l.ok && Awaits(s, sid, AwaitRtp) && sid !in s.cancelled
  }

  /** Over a run: there is such a step. */
  ghost predicate RtpFailed(run: seq<Label>, sid: Sid) {
    run != [] && (RtpFailed(run[..|run| - 1], sid) || FailsRtp(Exec(run[..|run| - 1]), run[|run| - 1], sid))
  }

  /** An INVITE is left without any final response if and only if its RTP socket failed before it was
      cancelled. The caller has had 100 Trying by then, and hears nothing more of it. */
  lemma {:induction false} EndsSilentlyIff(run: seq<Label>, sid: Sid)
    ensures SilentlyOver(Exec(run), sid) <==> RtpFailed(run, sid)
  {
    if run != [] {
      EndsSilentlyIff(run[..|run| - 1], sid);
      ExecSetupInv(run[..|run| - 1]);
      ExecRefusalsFinal(run[..|run| - 1]);
      StepEndsSilently(Exec(run[..|run| - 1]), run[|run| - 1], sid);
    }
  }

  // ---------------------------------------------------------------------------------------------
  // Sessions: the indices agree, and every session ends once

  /** `sessions` and `callSidIdx` hold the same sessions, and the gauge counts them. */
  ghost predicate IndicesAgree(c: Calls) {
    && (forall k :: k in c.sessions ==> c.sessions[k].callId == k && c.sessions[k].callSid in c.callSidIdx
                                        && c.callSidIdx[c.sessions[k].callSid] == c.sessions[k])
    && (forall i :: i in c.callSidIdx ==> c.callSidIdx[i].callSid == i && c.callSidIdx[i].callId in c.sessions
                                          && c.sessions[c.callSidIdx[i].callId] == c.callSidIdx[i])
    && c.activeCalls == |c.sessions|
  }

  /** No session has more than one snapshot or BYE, and a live one has none. */
  ghost predicate EndedOnce(c: Calls) {
    && Distinct(c.snapshots) && Distinct(c.byes)
    && (forall i :: i in c.byes ==> i in c.snapshots)
    && (forall i :: i in c.recentlyTerminated ==> i in c.snapshots)
    && (forall i :: i in c.callSidIdx ==> i !in c.snapshots)
    && (forall i :: i in c.snapshots ==> i in c.states)
  }

  ghost predicate UniqueIds(s: State) {
    && (forall i, j :: i in s.callIdOf && j in s.callIdOf && s.callIdOf[i] == s.callIdOf[j] ==> i == j)
    && (forall i :: i in s.calls.callSidIdx ==> i in s.callIdOf && s.callIdOf[i] == s.calls.callSidIdx[i].callId)
    && (forall c :: c in s.setups.pendingInvites ==> c !in s.calls.sessions)
  }

  ghost predicate CallsInv(s: State) {
    IndicesAgree(s.calls) && EndedOnce(s.calls) && UniqueIds(s)
  }

  // The session lemmas further down prove the following.

  /** terminateSession keeps the indices in agreement exactly if the session it is given is the one
      registered under its Call-ID, or none is. It only checks that some session is. */
  lemma TerminateKeepsIndicesIff(c: Calls, x: Session, reason: Reason, sendBye: bool)
    requires IndicesAgree(c)
    ensures IndicesAgree(Ended(c, x, reason, sendBye)) <==> x.callId !in c.sessions || c.sessions[x.callId] == x
  {
    if x.callId in c.sessions {
      var owner := c.sessions[x.callId];
      if owner == x {
        EndedIndices(c, x, reason, sendBye);
      } else {
        var t := Ended(c, x, reason, sendBye);
        assert owner.callSid != x.callSid;
        assert owner.callSid in t.callSidIdx && t.callSidIdx[owner.callSid] == owner;
      }
    }
  }

  /** What list() returns, by CallSid: the live sessions and the snapshots. */
  ghost predicate ListedTwice(c: Calls, i: Sid) {
    || (exists k, l :: k in c.sessions && l in c.sessions && k != l && c.sessions[k].callSid == i && c.sessions[l].callSid == i)
    || (exists k :: k in c.sessions && c.sessions[k].callSid == i && i in c.recentlyTerminated)
  }

  /** At every await point: both indices hold the same sessions, the gauge is their number, and no
      CallSid appears twice in list(). */
  lemma {:induction false} IndicesAlwaysAgree(run: seq<Label>, i: Sid)
    requires UniqueCallIds(run)
    ensures IndicesAgree(Exec(run).calls) && !ListedTwice(Exec(run).calls, i)
  {
    ExecCallsInv(run);
  }

  /** Each session gets at most one snapshot and at most one BYE, through whatever mix of CANCEL, BYE,
      REST requests, failed reconnects and terminateAll. */
  lemma {:induction false} SessionsEndOnce(run: seq<Label>, i: nat, j: nat)
    requires UniqueCallIds(run) && i < j
    ensures var c := Exec(run).calls;
            && (j < |c.snapshots| ==> c.snapshots[i] != c.snapshots[j])
            && (j < |c.byes| ==> c.byes[i] != c.byes[j])
            && (forall sid :: sid in c.callSidIdx ==> sid !in c.snapshots && sid !in c.byes)
  {
    ExecCallsInv(run);
  }

  /** terminateAll leaves no session live, in whatever order it takes them. */
  lemma {:induction false} TerminateAllEndsEverything(run: seq<Label>, order: seq<Session>)
    requires UniqueCallIds(run) && ListsSessions(order, Exec(run).calls)
    ensures var c := Exec(run + [TerminateAll(order)]).calls;
            c.sessions == map[] && c.callSidIdx == map[] && c.activeCalls == 0
  {
    ExecCallsInv(run);
    ExecSetupInv(run);
    NothingLeft(Exec(run), order);
    ExecSnoc(run, TerminateAll(order));
    TerminateAllApplies(Exec(run), order);
  }

  /** No continuation of the run has a live session. */
  ghost predicate NoSessionAfter(run: seq<Label>) {
    forall more :: Exec(run + more).calls.sessions == map[]
  }

  /** After terminateAll no session is ever live again if and only if every setup pending at that time
      had been cancelled: a setup that is still wanted is answered and stored in some continuation. */
  lemma ShutdownIsFinalIff(run: seq<Label>, order: seq<Session>)
    requires UniqueCallIds(run) && ListsSessions(order, Exec(run).calls)
    ensures NoSessionAfter(run + [TerminateAll(order)])
        <==> forall i :: i in Exec(run).setups.inFlight ==> i in Exec(run).cancelled
  {
    ExecCallsInv(run);
    ExecSetupInv(run);
    ExecSnoc(run, TerminateAll(order));
    TerminateAllApplies(Exec(run), order);
    NoSessionAfterIff(run + [TerminateAll(order)]);
    SettledAfterShutdownIff(Exec(run), order);
  }

  // ---------------------------------------------------------------------------------------------
  // Setups: one per Call-ID, and none answered once cancelled

  /** The pending Call-IDs are exactly those of the setups in flight, each of one setup. */
  ghost predicate OnePerCallId(u: Setups) {
    && (forall c :: c in u.cancelledInvites ==> c in u.pendingInvites)
    && (forall i :: i in u.inFlight ==> u.inFlight[i].callId in u.pendingInvites)
    && (forall c :: c in u.pendingInvites ==> exists i :: i in u.inFlight && u.inFlight[i].callId == c)
    && (forall i, j :: i in u.inFlight && j in u.inFlight && u.inFlight[i].callId == u.inFlight[j].callId ==> i == j)
  }

  /** A setup in flight is cancelled exactly if its Call-ID is marked. */
  ghost predicate MarksAgree(s: State) {
    && (forall i :: i in s.setups.inFlight ==> (i in s.cancelled <==> s.setups.inFlight[i].callId in s.setups.cancelledInvites))
    && (forall i :: i in s.setups.inFlight ==> i < s.nextSid && i in s.callIdOf && s.callIdOf[i] == s.setups.inFlight[i].callId)
    && (forall i :: i in s.cancelled ==> i < s.nextSid)
    && (forall i: Sid :: i in s.callIdOf <==> i < s.nextSid)
  }

  /** No cancelled or unfinished setup has been answered or stored. */
  ghost predicate Unanswered(s: State) {
    && (forall k :: 0 <= k < |s.sent| && s.sent[k].Answer? ==> Settled(s, s.sent[k].setup))
    && (forall i :: i in s.calls.states ==> Settled(s, i))
    && (forall i :: i in s.connecting ==> i in s.calls.states)
    && (forall c :: c in s.calls.sessions ==> s.calls.sessions[c].callSid in s.calls.states)
    && (forall i :: i in s.calls.callSidIdx ==> s.calls.callSidIdx[i].callSid in s.calls.states)
  }

  predicate Settled(s: State, i: Sid) {
    i < s.nextSid && i !in s.setups.inFlight && i !in s.cancelled
  }

  ghost predicate SetupInv(s: State) {
    OnePerCallId(s.setups) && MarksAgree(s) && Unanswered(s)
  }

  // Steps that leave the setups alone.

  lemma EndedKeepsStates(c: Calls, x: Session, reason: Reason, sendBye: bool)
    requires x.callSid in c.states
    ensures Ended(c, x, reason, sendBye).states.Keys == c.states.Keys
    ensures forall k :: k in Ended(c, x, reason, sendBye).sessions ==>
              k in c.sessions && Ended(c, x, reason, sendBye).sessions[k] == c.sessions[k]
    ensures forall k :: k in Ended(c, x, reason, sendBye).callSidIdx ==>
              k in c.callSidIdx && Ended(c, x, reason, sendBye).callSidIdx[k] == c.callSidIdx[k]
  {
  }

  lemma {:induction false} EndedAllKeepsStates(c: Calls, order: seq<Session>)
    requires forall x :: x in order ==> x.callSid in c.states
    requires c.sessions == map[]
    ensures EndedAll(c, order).states.Keys == c.states.Keys && EndedAll(c, order).sessions == map[]
    ensures forall k :: k in EndedAll(c, order).callSidIdx ==>
              k in c.callSidIdx && EndedAll(c, order).callSidIdx[k] == c.callSidIdx[k]
  {
    if order != [] {
      var n := |order| - 1;
      var x := order[n];
      assert x in order;
      EndedAllKeepsStates(c, order[..n]);
      var before := EndedAll(c, order[..n]);
      var readded := before.(sessions := before.sessions[x.callId := x]);
      EndedKeepsStates(readded, x, Shutdown, true);
    }
  }

  lemma FinishKeeps(u: Setups, sid: Sid)
    requires OnePerCallId(u) && sid in u.inFlight
    ensures OnePerCallId(Finished(u, sid, u.inFlight[sid].callId))
  {
    var callId := u.inFlight[sid].callId;
    var t := Finished(u, sid, callId);
    forall c | c in t.pendingInvites
      ensures exists i :: i in t.inFlight && t.inFlight[i].callId == c
    {
      var i :| i in u.inFlight && u.inFlight[i].callId == c;
      assert i in t.inFlight;
    }
  }

  lemma OpenKeeps(u: Setups, sid: Sid, callId: CallId)
    requires OnePerCallId(u) && sid !in u.inFlight && callId !in u.pendingInvites
    ensures OnePerCallId(u.(pendingInvites := u.pendingInvites + {callId}, inFlight := u.inFlight[sid := Setup(callId, AwaitRtp)]))
  {
    var t := u.(pendingInvites := u.pendingInvites + {callId}, inFlight := u.inFlight[sid := Setup(callId, AwaitRtp)]);
    forall c | c in t.pendingInvites
      ensures exists i :: i in t.inFlight && t.inFlight[i].callId == c
    {
      if c == callId {
        assert t.inFlight[sid].callId == c;
      } else {
        var i :| i in u.inFlight && u.inFlight[i].callId == c;
        assert t.inFlight[i].callId == c;
      }
    }
  }

  lemma MoveKeeps(u: Setups, sid: Sid, phase: Phase)
    requires OnePerCallId(u) && sid in u.inFlight
    ensures OnePerCallId(u.(inFlight := u.inFlight[sid := u.inFlight[sid].(phase := phase)]))
  {
    var t := u.(inFlight := u.inFlight[sid := u.inFlight[sid].(phase := phase)]);
    forall c | c in t.pendingInvites
      ensures exists i :: i in t.inFlight && t.inFlight[i].callId == c
    {
      var i :| i in u.inFlight && u.inFlight[i].callId == c;
      assert t.inFlight[i].callId == c;
    }
  }

  lemma BegunKeeps(s: State, callId: CallId)
    requires SetupInv(s)
    ensures SetupInv(Begun(s, callId))
  {
  }

  lemma AwaitingKeeps(s: State, sid: Sid, callId: CallId)
    requires SetupInv(s) && callId !in s.setups.pendingInvites
    requires sid in s.callIdOf && s.callIdOf[sid] == callId && sid !in s.setups.inFlight && sid !in s.cancelled
    requires sid !in s.calls.states && forall k :: 0 <= k < |s.sent| && s.sent[k].Answer? ==> s.sent[k].setup != sid
    ensures SetupInv(Awaiting(s, sid, callId))
  {
    OpenKeeps(s.setups, sid, callId);
  }

  lemma RefusedSdpKeeps(s: State, sid: Sid, callId: CallId)
    requires SetupInv(s) && callId !in s.setups.pendingInvites
    ensures SetupInv(RefusedSdp(s, sid, callId))
  {
    assert s.setups.cancelledInvites - {callId} == s.setups.cancelledInvites;
    assert s.setups.pendingInvites + {callId} - {callId} == s.setups.pendingInvites;
    SendKeeps(s, Refusal(sid, 488));
  }

  lemma OpeningKeeps(s: State, callId: CallId, sdpOk: bool)
    requires SetupInv(s) && Opens(s, callId)
    ensures SetupInv(OpenSetup(s, callId, sdpOk))
  {
    BegunKeeps(s, callId);
    if sdpOk {
      AwaitingKeeps(Begun(s, callId), s.nextSid, callId);
    } else {
      RefusedSdpKeeps(Begun(s, callId), s.nextSid, callId);
    }
  }

  lemma InviteKeeps(s: State, callId: CallId, sdpOk: bool)
    requires SetupInv(s)
    ensures SetupInv(HandleInvite(s, callId, sdpOk))
  {
    if Opens(s, callId) {
      OpeningKeeps(s, callId, sdpOk);
    } else if s.shuttingDown {
      SendKeeps(s, RefusedAtOnce(callId));
    } else if callId in s.calls.sessions {
      SendKeeps(s, AnswerAgain(s.calls.sessions[callId].callSid));
    }
  }

  lemma FinishStateKeeps(s: State, sid: Sid)
    requires SetupInv(s) && sid in s.setups.inFlight
    ensures SetupInv(Finish(s, sid))
  {
    FinishKeeps(s.setups, sid);
  }

  lemma MoveStateKeeps(s: State, sid: Sid, phase: Phase)
    requires SetupInv(s) && sid in s.setups.inFlight
    ensures SetupInv(MoveTo(s, sid, phase))
  {
    MoveKeeps(s.setups, sid, phase);
  }

  lemma SendKeeps(s: State, msg: Message)
    requires SetupInv(s) && !msg.Answer?
    ensures SetupInv(Sent(s, msg))
  {
  }

  lemma AnswerKeeps(s: State, sid: Sid, callId: CallId)
    requires SetupInv(s) && Settled(s, sid)
    ensures SetupInv(Sent(s, Answer(sid)).(calls := Stored(s.calls, Session(callId, sid))))
  {
  }

  lemma WsKeeps(s: State, sid: Sid, ok: bool)
    requires SetupInv(s) && sid in s.setups.inFlight
    ensures SetupInv(AfterWs(s, sid, ok))
  {
    if !ok {
      SendKeeps(s, Refusal(sid, 503));
      FinishStateKeeps(Sent(s, Refusal(sid, 503)), sid);
    } else {
      FinishStateKeeps(s, sid);
      if !IsCancelled(s, sid) {
        AnswerKeeps(Finish(s, sid), sid, s.setups.inFlight[sid].callId);
      }
    }
  }

  lemma RtpKeeps(s: State, sid: Sid, ok: bool, dynamic: bool)
    requires SetupInv(s) && sid in s.setups.inFlight
    ensures SetupInv(AfterRtp(s, sid, ok, dynamic))
  {
    if !ok || IsCancelled(s, sid) {
      FinishStateKeeps(s, sid);
    } else {
      SendKeeps(s, Ringing(sid));
      MoveStateKeeps(Sent(s, Ringing(sid)), sid, if dynamic then AwaitVoice else AwaitWs);
    }
  }

  lemma VoiceKeeps(s: State, sid: Sid, ok: bool)
    requires SetupInv(s) && sid in s.setups.inFlight
    ensures SetupInv(AfterVoice(s, sid, ok))
  {
    if ok {
      MoveStateKeeps(s, sid, AwaitWs);
    } else {
      SendKeeps(s, Refusal(sid, 503));
      FinishStateKeeps(Sent(s, Refusal(sid, 503)), sid);
    }
  }

  /** Ending sessions, in whatever number, touches no setup. */
  lemma FewerSessionsKeep(s: State, c: Calls)
    requires SetupInv(s) && c.states.Keys == s.calls.states.Keys
    requires forall k :: k in c.sessions ==> k in s.calls.sessions && c.sessions[k] == s.calls.sessions[k]
    requires forall k :: k in c.callSidIdx ==> k in s.calls.callSidIdx && c.callSidIdx[k] == s.calls.callSidIdx[k]
    ensures SetupInv(s.(calls := c))
  {
  }

  lemma EndKeeps(s: State, x: Session, reason: Reason, sendBye: bool)
    requires SetupInv(s) && x.callSid in s.calls.states
    ensures SetupInv(s.(calls := Ended(s.calls, x, reason, sendBye)))
  {
    EndedKeepsStates(s.calls, x, reason, sendBye);
    FewerSessionsKeep(s, Ended(s.calls, x, reason, sendBye));
  }

  lemma MarkKeeps(s: State, callId: CallId)
    requires SetupInv(s) && callId in s.setups.pendingInvites
    ensures SetupInv(Marked(s, callId))
  {
  }

  lemma CancelKeeps(s: State, callId: CallId)
    requires SetupInv(s)
    ensures SetupInv(HandleCancel(s, callId))
  {
    var o := Sent(s, OkToCancel(callId));
    SendKeeps(s, OkToCancel(callId));
    if callId in s.calls.sessions {
      EndKeeps(o, s.calls.sessions[callId], RemoteCancel, false);
    } else if callId in s.setups.pendingInvites {
      MarkKeeps(o, callId);
      SendKeeps(Marked(o, callId), RequestTerminated(callId));
    }
  }

  lemma ReconnectKeeps(s: State, sid: Sid, ok: bool, budgetLeft: bool)
    requires SetupInv(s)
    ensures SetupInv(HandleReconnectDone(s, sid, ok, budgetLeft))
  {
    var t := s.(connecting := s.connecting - {sid});
    assert SetupInv(t);
    if sid in s.connecting && sid in s.callIdOf {
      EndKeeps(t, Session(s.callIdOf[sid], sid), ReconnectFailed, true);
    }
  }

  lemma TerminateAllKeeps(s: State, order: seq<Session>)
    requires SetupInv(s) && ListsSessions(order, s.calls)
    ensures SetupInv(TerminatedAll(s, order))
  {
    forall x | x in order
      ensures x.callSid in s.calls.states
    {
      assert s.calls.sessions[x.callId] == x;
    }
    EndedAllKeepsStates(s.calls.(sessions := map[]), order);
    FewerSessionsKeep(s, EndedAll(s.calls.(sessions := map[]), order));
  }

  lemma ByeKeeps(s: State, callId: CallId)
    requires SetupInv(s)
    ensures SetupInv(HandleBye(s, callId))
  {
    if callId in s.calls.sessions {
      SendKeeps(s, OkToBye(callId));
      EndKeeps(Sent(s, OkToBye(callId)), s.calls.sessions[callId], RemoteBye, false);
    }
  }

  lemma RestKeeps(s: State, sid: Sid)
    requires SetupInv(s)
    ensures SetupInv(Apply(s, TerminateByCallSid(sid)))
  {
    if sid in s.calls.callSidIdx {
      EndKeeps(s, s.calls.callSidIdx[sid], Rest, true);
    }
  }

  lemma CloseKeeps(s: State, sid: Sid)
    requires SetupInv(s)
    ensures SetupInv(HandleCloseStream(s, sid))
  {
    var t := HandleCloseStream(s, sid);
    assert t.calls.states.Keys == s.calls.states.Keys;
    FewerSessionsKeep(s, t.calls);
  }

  lemma AttemptKeeps(s: State, sid: Sid)
    requires SetupInv(s) && sid in s.calls.states
    ensures SetupInv(s.(connecting := s.connecting + {sid}))
  {
  }

  lemma SweepKeeps(s: State, sid: Sid)
    requires SetupInv(s)
    ensures SetupInv(Swept(s, sid))
  {
    FewerSessionsKeep(s, Swept(s, sid).calls);
  }

  lemma OthersKeep(s: State, l: Label)
    requires SetupInv(s) && !l.Invite? && !l.RtpReady? && !l.VoiceFetched? && !l.WsConnected? && !l.Cancel?
    ensures SetupInv(Apply(s, l))
  {
    match l
    case Bye(callId) => ByeKeeps(s, callId);
    case TerminateByCallSid(sid) => RestKeeps(s, sid);
    case ReconnectDone(sid, ok, budgetLeft) => ReconnectKeeps(s, sid, ok, budgetLeft);
    case TerminateAll(order) =>
      if ListsSessions(order, s.calls) {
        TerminateAllKeeps(s, order);
      }
    case CloseStream(sid) => CloseKeeps(s, sid);
    case ReconnectAttempt(sid) => if ShouldReconnect(s, sid) { AttemptKeeps(s, sid); }
    case SweepSnapshot(sid) => SweepKeeps(s, sid);
  }

  lemma InitSetupInv()
    ensures SetupInv(Init())
  {
  }

  lemma StepSetupInv(s: State, l: Label)
    requires SetupInv(s)
    ensures SetupInv(Apply(s, l))
  {
    match l
    case Invite(callId, sdpOk) => InviteKeeps(s, callId, sdpOk);
    case RtpReady(sid, ok, dynamic) => if Awaits(s, sid, AwaitRtp) { RtpKeeps(s, sid, ok, dynamic); }
    case VoiceFetched(sid, ok) => if Awaits(s, sid, AwaitVoice) { VoiceKeeps(s, sid, ok); }
    case WsConnected(sid, ok) => if Awaits(s, sid, AwaitWs) { WsKeeps(s, sid, ok); }
    case Cancel(callId) => CancelKeeps(s, callId);
    case _ => OthersKeep(s, l);
  }

  lemma {:induction false} ExecSetupInv(run: seq<Label>)
    ensures SetupInv(Exec(run))
  {
    if run == [] {
      InitSetupInv();
    } else {
      ExecSetupInv(run[..|run| - 1]);
      StepSetupInv(Exec(run[..|run| - 1]), run[|run| - 1]);
    }
  }

  /** In every run, a setup for which a CANCEL was handled while it was pending never sends 200 OK and
      never stores a session, whichever await it was at. No assumption on Call-IDs is needed. */
  lemma {:induction false} CancelledIsNeverAnswered(run: seq<Label>, sid: Sid)
    requires sid in Exec(run).cancelled
    ensures Answer(sid) !in Exec(run).sent
    ensures sid !in Exec(run).calls.states
  {
    ExecSetupInv(run);
  }

  lemma CancelMarks(s: State, callId: CallId, sid: Sid)
    requires callId !in s.calls.sessions && callId in s.setups.pendingInvites
    requires sid in s.setups.inFlight && s.setups.inFlight[sid].callId == callId
    ensures sid in HandleCancel(s, callId).cancelled
  {
  }

  /** A CANCEL that finds no session but a pending Call-ID cancels the one setup in flight for it. */
  lemma {:induction false} CancelReachesTheSetup(run: seq<Label>, callId: CallId)
    requires callId in Exec(run).setups.pendingInvites && callId !in Exec(run).calls.sessions
    ensures exists sid :: sid in Exec(run).setups.inFlight && Exec(run).setups.inFlight[sid].callId == callId
              && sid in Exec(run + [Cancel(callId)]).cancelled
  {
    ExecSetupInv(run);
    ExecSnoc(run, Cancel(callId));
    var s := Exec(run);
    var sid :| sid in s.setups.inFlight && s.setups.inFlight[sid].callId == callId;
    CancelMarks(s, callId, sid);
  }

  /** At most one setup per Call-ID is in flight. */
  lemma OneSetupPerCallId(run: seq<Label>, i: Sid, j: Sid)
    requires i in Exec(run).setups.inFlight && j in Exec(run).setups.inFlight
    requires Exec(run).setups.inFlight[i].callId == Exec(run).setups.inFlight[j].callId
    ensures i == j
  {
    ExecSetupInv(run);
  }

  // Refusals and 487s, for SecondResponseIff and EachCancelSends487

  /** A refused setup is over. */
  ghost predicate RefusalsFinal(s: State) {
    forall k :: 0 <= k < |s.sent| && s.sent[k].Refusal? ==>
      s.sent[k].setup < s.nextSid && s.sent[k].setup !in s.setups.inFlight
  }

  lemma SentOnlyGrows(s: State, l: Label)
    ensures |s.sent| <= |Apply(s, l).sent| && forall k :: 0 <= k < |s.sent| ==> Apply(s, l).sent[k] == s.sent[k]
  {
  }

  predicate OnlyCalls(l: Label) {
    !l.Invite? && !l.RtpReady? && !l.VoiceFetched? && !l.WsConnected? && !l.Cancel?
  }

  lemma OthersKeepSetups(s: State, l: Label)
    requires OnlyCalls(l)
    ensures Apply(s, l).setups == s.setups && Apply(s, l).nextSid == s.nextSid && Apply(s, l).cancelled == s.cancelled
    ensures Apply(s, l).callIdOf == s.callIdOf
  {
  }

  lemma InFlightOnlyNew(s: State, l: Label)
    ensures s.nextSid <= Apply(s, l).nextSid
    ensures forall i :: i in Apply(s, l).setups.inFlight ==> i in s.setups.inFlight || i == s.nextSid
    ensures forall i :: i in Apply(s, l).cancelled ==> i in s.cancelled || (l.Cancel? && i in s.setups.inFlight)
  {
    if OnlyCalls(l) {
      OthersKeepSetups(s, l);
    }
  }

  lemma InviteRefusal(s: State, callId: CallId, sdpOk: bool, k: nat)
    requires MarksAgree(s)
    requires |s.sent| <= k < |HandleInvite(s, callId, sdpOk).sent| && HandleInvite(s, callId, sdpOk).sent[k].Refusal?
    ensures Opens(s, callId) && !sdpOk && HandleInvite(s, callId, sdpOk).sent[k].setup == s.nextSid
  {
  }

  lemma SetupRefusal(s: State, l: Label, k: nat)
    requires l.RtpReady? || l.VoiceFetched? || l.WsConnected?
    requires |s.sent| <= k < |Apply(s, l).sent| && Apply(s, l).sent[k].Refusal?
    ensures Apply(s, l).sent[k].setup == l.sid && FailsAwait(s, l, l.sid) && l.sid !in Apply(s, l).setups.inFlight
  {
  }

  lemma OthersSendNothing(s: State, l: Label)
    requires !l.Invite? && !l.RtpReady? && !l.VoiceFetched? && !l.WsConnected? && !l.Cancel?
    ensures Apply(s, l).sent == s.sent || (l.Bye? && Apply(s, l).sent == s.sent + [OkToBye(l.callId)])
  {
  }

  /** A refusal that a step adds is of the setup whose await failed, or of the one just begun. */
  lemma NewRefusal(s: State, l: Label, k: nat)
    requires SetupInv(s) && |s.sent| <= k < |Apply(s, l).sent| && Apply(s, l).sent[k].Refusal?
    ensures var sid := Apply(s, l).sent[k].setup;
            && sid < Apply(s, l).nextSid && sid !in Apply(s, l).setups.inFlight && !l.Cancel?
            && (FailsAwait(s, l, sid) || sid == s.nextSid)
  {
    match l
    case Invite(callId, sdpOk) => InviteRefusal(s, callId, sdpOk, k);
    case RtpReady(_, _, _) => SetupRefusal(s, l, k);
    case VoiceFetched(_, _) => SetupRefusal(s, l, k);
    case WsConnected(_, _) => SetupRefusal(s, l, k);
    case Cancel(_) =>
    case _ => OthersSendNothing(s, l);
  }

  lemma RefusalsStayFinal(s: State, l: Label)
    requires SetupInv(s) && RefusalsFinal(s)
    ensures RefusalsFinal(Apply(s, l))
  {
    SentOnlyGrows(s, l);
    InFlightOnlyNew(s, l);
    var t := Apply(s, l);
    forall k | 0 <= k < |t.sent| && t.sent[k].Refusal?
      ensures t.sent[k].setup < t.nextSid && t.sent[k].setup !in t.setups.inFlight
    {
      if k >= |s.sent| {
        NewRefusal(s, l, k);
      } else {
        assert t.sent[k] == s.sent[k];
      }
    }
  }

  lemma FailureRefuses(s: State, l: Label, sid: Sid)
    requires FailsAwait(s, l, sid)
    ensures RefusedIn(Apply(s, l), sid)
  {
    assert Apply(s, l).sent == s.sent + [Refusal(sid, 503)];
    assert Apply(s, l).sent[|s.sent|] == Refusal(sid, 503);
  }

  /** A cancelled setup is only refused by a failure of what it awaits: the SDP refusal comes before a
      CANCEL can find it, and a refused setup is not in flight any more. */
  lemma RefusalHasCause(s: State, l: Label, sid: Sid)
    requires SetupInv(s) && RefusalsFinal(s)
    requires sid in Apply(s, l).cancelled && RefusedIn(Apply(s, l), sid)
    ensures sid in s.cancelled && (RefusedIn(s, sid) || FailsAwait(s, l, sid))
  {
    SentOnlyGrows(s, l);
    InFlightOnlyNew(s, l);
    var t := Apply(s, l);
    var k :| 0 <= k < |t.sent| && t.sent[k].Refusal? && t.sent[k].setup == sid;
    if k >= |s.sent| {
      NewRefusal(s, l, k);
    } else {
      assert s.sent[k] == t.sent[k];
    }
  }

  lemma {:induction false} ExecRefusalsFinal(run: seq<Label>)
    ensures RefusalsFinal(Exec(run))
  {
    if run != [] {
      ExecRefusalsFinal(run[..|run| - 1]);
      ExecSetupInv(run[..|run| - 1]);
      RefusalsStayFinal(Exec(run[..|run| - 1]), run[|run| - 1]);
    }
  }

  // The steps, for EndsSilentlyIff

  /** What a step adds to the final responses of a setup that is not in flight. */
  lemma OverStaysOver(s: State, l: Label, sid: Sid)
    requires SetupInv(s) && sid in s.callIdOf && sid !in s.setups.inFlight
    ensures SilentlyOver(Apply(s, l), sid) <==> SilentlyOver(s, sid)
  {
    var t := Apply(s, l);
    InFlightOnlyNew(s, l);
    SentOnlyGrows(s, l);
    CallIdsStay(s, l, sid);
    if Answer(sid) in t.sent && Answer(sid) !in s.sent {
      NewAnswer(s, l, sid);
    }
    if RefusedIn(t, sid) {
      var k :| 0 <= k < |t.sent| && t.sent[k].Refusal? && t.sent[k].setup == sid;
      if k >= |s.sent| {
        NewRefusal(s, l, k);
      }
    }
    if RefusedIn(s, sid) {
      var k :| 0 <= k < |s.sent| && s.sent[k].Refusal? && s.sent[k].setup == sid;
      assert t.sent[k] == s.sent[k];
    }
    if sid in s.cancelled {
      CancelledStays(s, l, sid);
    }
  }

  lemma CallIdsStay(s: State, l: Label, sid: Sid)
    requires sid in s.callIdOf
    ensures sid in Apply(s, l).callIdOf
  {
  }

  lemma NewAnswer(s: State, l: Label, sid: Sid)
    requires Answer(sid) in Apply(s, l).sent && Answer(sid) !in s.sent
    ensures l == WsConnected(sid, true) && Awaits(s, sid, AwaitWs)
  {
    if OnlyCalls(l) {
      OthersSendNothing(s, l);
    }
  }

  lemma WsEnds(s: State, sid: Sid, ok: bool)
    requires MarksAgree(s) && Awaits(s, sid, AwaitWs)
    ensures !SilentlyOver(Apply(s, WsConnected(sid, ok)), sid)
  {
    if !ok {
      FailureRefuses(s, WsConnected(sid, ok), sid);
    } else if !IsCancelled(s, sid) {
      assert Apply(s, WsConnected(sid, ok)).sent == s.sent + [Answer(sid)];
    }
  }

  /** A setup in flight that ends in this step. */
  lemma InFlightEnds(s: State, l: Label, sid: Sid)
    requires SetupInv(s) && RefusalsFinal(s) && sid in s.setups.inFlight
    ensures SilentlyOver(Apply(s, l), sid) <==> FailsRtp(s, l, sid)
  {
    match l
    case RtpReady(i, ok, dynamic) =>
    case VoiceFetched(i, ok) => if FailsAwait(s, l, sid) { FailureRefuses(s, l, sid); }
    case WsConnected(i, ok) => if i == sid && Awaits(s, sid, AwaitWs) { WsEnds(s, sid, ok); }
    case Invite(_, _) =>
    case Cancel(_) =>
    case _ => OthersKeepSetups(s, l);
  }

  /** A setup that begins in this step is in flight afterwards, or refused at once. */
  lemma NewcomerIsHeard(s: State, l: Label, sid: Sid)
    requires SetupInv(s) && sid !in s.callIdOf
    ensures !SilentlyOver(Apply(s, l), sid)
  {
    match l
    case Invite(callId, sdpOk) =>
      if Opens(s, callId) && sid == s.nextSid && !sdpOk {
        assert Apply(s, l).sent == s.sent + [Trying(sid)] + [Refusal(sid, 488)];
        assert Apply(s, l).sent[|s.sent| + 1] == Refusal(sid, 488);
      }
    case RtpReady(_, _, _) =>
    case VoiceFetched(_, _) =>
    case WsConnected(_, _) =>
    case Cancel(_) =>
    case _ => OthersKeepSetups(s, l);
  }

  lemma StepEndsSilently(s: State, l: Label, sid: Sid)
    requires SetupInv(s) && RefusalsFinal(s)
    ensures SilentlyOver(Apply(s, l), sid) <==> SilentlyOver(s, sid) || FailsRtp(s, l, sid)
  {
    if sid in s.setups.inFlight {
      InFlightEnds(s, l, sid);
    } else if sid in s.callIdOf {
      OverStaysOver(s, l, sid);
    } else {
      NewcomerIsHeard(s, l, sid);
    }
  }

  lemma {:induction false} FailsAtInFront(run: seq<Label>, n: nat, sid: Sid)
    requires n < |run| - 1
    ensures FailsAfterCancelAt(run, n, sid) <==> FailsAfterCancelAt(run[..|run| - 1], n, sid)
  {
    assert run[..|run| - 1][..n] == run[..n];
  }

  lemma {:induction false} FailsAtLast(run: seq<Label>, n: nat, sid: Sid)
    requires n == |run| - 1
    ensures FailsAfterCancelAt(run, n, sid)
       <==> sid in Exec(run[..|run| - 1]).cancelled && FailsAwait(Exec(run[..|run| - 1]), run[|run| - 1], sid)
  {
  }

  lemma {:induction false} FailedInFront(run: seq<Label>, sid: Sid)
    requires run != [] && FailedAfterCancel(run[..|run| - 1], sid)
    ensures FailedAfterCancel(run, sid)
  {
    var front := run[..|run| - 1];
    var n :| 0 <= n < |front| && FailsAfterCancelAt(front, n, sid);
    FailsAtInFront(run, n, sid);
  }

  lemma {:induction false} FailedAfterCancelSnoc(run: seq<Label>, sid: Sid)
    requires run != []
    ensures var front, last := run[..|run| - 1], run[|run| - 1];
            FailedAfterCancel(run, sid) <==>
              FailedAfterCancel(front, sid) || (sid in Exec(front).cancelled && FailsAwait(Exec(front), last, sid))
  {
    FailsAtLast(run, |run| - 1, sid);
    if FailedAfterCancel(run[..|run| - 1], sid) {
      FailedInFront(run, sid);
    }
    if FailedAfterCancel(run, sid) {
      var n :| 0 <= n < |run| && FailsAfterCancelAt(run, n, sid);
      if n < |run| - 1 {
        FailsAtInFront(run, n, sid);
      }
    }
  }

  lemma CancelledStays(s: State, l: Label, sid: Sid)
    requires sid in s.cancelled
    ensures sid in Apply(s, l).cancelled
  {
  }

  lemma TerminatedSnoc(sent: seq<Message>, m: Message, callId: CallId)
    ensures RequestsTerminated(sent + [m], callId)
         == RequestsTerminated(sent, callId) + (if m == RequestTerminated(callId) then 1 else 0)
  {
    assert (sent + [m])[..|sent|] == sent;
  }

  lemma CancelTerminated(s: State, c: CallId, callId: CallId)
    ensures RequestsTerminated(HandleCancel(s, c).sent, callId)
         == RequestsTerminated(s.sent, callId) + (if FindsPending(s, Cancel(c), callId) then 1 else 0)
  {
    TerminatedSnoc(s.sent, OkToCancel(c), callId);
    TerminatedSnoc(s.sent + [OkToCancel(c)], RequestTerminated(c), callId);
  }

  lemma SetupTerminated(s: State, l: Label, callId: CallId)
    requires l.RtpReady? || l.VoiceFetched? || l.WsConnected?
    ensures RequestsTerminated(Apply(s, l).sent, callId) == RequestsTerminated(s.sent, callId)
  {
    var t := Apply(s, l);
    if |t.sent| > |s.sent| {
      var m := t.sent[|s.sent|];
      assert t.sent == s.sent + [m] && !m.RequestTerminated?;
      TerminatedSnoc(s.sent, m, callId);
    } else {
      assert t.sent == s.sent;
    }
  }

  lemma StepTerminated(s: State, l: Label, callId: CallId)
    ensures RequestsTerminated(Apply(s, l).sent, callId)
         == RequestsTerminated(s.sent, callId) + (if FindsPending(s, l, callId) then 1 else 0)
  {
    match l
    case Cancel(c) => CancelTerminated(s, c, callId);
    case Invite(c, sdpOk) => InviteTerminated(s, c, sdpOk, callId);
    case RtpReady(_, _, _) => SetupTerminated(s, l, callId);
    case VoiceFetched(_, _) => SetupTerminated(s, l, callId);
    case WsConnected(_, _) => SetupTerminated(s, l, callId);
    case Bye(c) =>
      OthersSendNothing(s, l);
      TerminatedSnoc(s.sent, OkToBye(c), callId);
    case _ => OthersSendNothing(s, l);
  }

  lemma InviteTerminated(s: State, c: CallId, sdpOk: bool, callId: CallId)
    ensures RequestsTerminated(HandleInvite(s, c, sdpOk).sent, callId) == RequestsTerminated(s.sent, callId)
  {
    if s.shuttingDown {
      TerminatedSnoc(s.sent, RefusedAtOnce(c), callId);
    } else if Opens(s, c) {
      TerminatedSnoc(s.sent, Trying(s.nextSid), callId);
      if !sdpOk {
        TerminatedSnoc(s.sent + [Trying(s.nextSid)], Refusal(s.nextSid, 488), callId);
      }
    } else if c !in s.setups.pendingInvites {
      TerminatedSnoc(s.sent, AnswerAgain(s.calls.sessions[c].callSid), callId);
    }
  }

  // ---------------------------------------------------------------------------------------------
  // The session lemmas

  // One session ends or is stored

  lemma EndedIndices(c: Calls, x: Session, reason: Reason, sendBye: bool)
    requires IndicesAgree(c) && (x.callId in c.sessions ==> c.sessions[x.callId] == x)
    ensures IndicesAgree(Ended(c, x, reason, sendBye))
  {
    if x.callId in c.sessions {
      MapShrinks(c.sessions, x.callId);
    }
  }

  lemma EndedHistory(c: Calls, x: Session, reason: Reason, sendBye: bool)
    requires EndedOnce(c) && x.callSid !in c.snapshots && x.callSid in c.states
    ensures EndedOnce(Ended(c, x, reason, sendBye))
  {
    SnocDistinct(c.snapshots, x.callSid);
    SnocDistinct(c.byes, x.callSid);
  }

  lemma StoredIndices(c: Calls, x: Session)
    requires IndicesAgree(c) && x.callId !in c.sessions && x.callSid !in c.callSidIdx
    ensures IndicesAgree(Stored(c, x))
  {
    MapGrows(c.sessions, x.callId, x);
  }

  /** A holder of the session object ends it: the Call-ID in the index is still its own. */
  lemma HolderEnds(s: State, sid: Sid, reason: Reason, sendBye: bool)
    requires CallsInv(s) && SetupInv(s) && sid in s.callIdOf && sid in s.calls.states
    ensures CallsInv(s.(calls := Ended(s.calls, Session(s.callIdOf[sid], sid), reason, sendBye)))
  {
    var c, x := s.calls, Session(s.callIdOf[sid], sid);
    if x.callId in c.sessions {
      var owner := c.sessions[x.callId];
      assert owner.callSid in c.callSidIdx && c.callSidIdx[owner.callSid] == owner;
      assert s.callIdOf[owner.callSid] == s.callIdOf[sid];
      EndedIndices(c, x, reason, sendBye);
      EndedHistory(c, x, reason, sendBye);
    }
  }

  lemma IndexedEnds(s: State, callId: CallId, reason: Reason, sendBye: bool)
    requires CallsInv(s) && SetupInv(s) && callId in s.calls.sessions
    ensures CallsInv(s.(calls := Ended(s.calls, s.calls.sessions[callId], reason, sendBye)))
  {
    var x := s.calls.sessions[callId];
    assert x == s.calls.callSidIdx[x.callSid] && s.callIdOf[x.callSid] == callId;
    HolderEnds(s, x.callSid, reason, sendBye);
  }

  // terminateAll

  /** Half-way through terminateAll: the index is empty, the sessions from position n on are to come. */
  ghost predicate Draining(c: Calls, order: seq<Session>, n: nat) {
    c.sessions == map[] && EndedOnce(c) && c.activeCalls == |order| - n && ToCome(c, order, n)
  }

  ghost predicate ToCome(c: Calls, order: seq<Session>, n: nat) {
    && (forall i :: i in c.callSidIdx ==> c.callSidIdx[i].callSid == i && exists k :: n <= k < |order| && order[k] == c.callSidIdx[i])
    && (forall k :: n <= k < |order| ==> order[k].callSid in c.callSidIdx && c.callSidIdx[order[k].callSid] == order[k]
                                         && order[k].callSid in c.states)
  }

  /** What is still to come stays indexed when the session at position n ends. */
  lemma StillToCome(c: Calls, t: Calls, order: seq<Session>, n: nat)
    requires n < |order| && Distinct(order) && ToCome(c, order, n)
    requires t.callSidIdx == c.callSidIdx - {order[n].callSid} && forall i :: i in c.states ==> i in t.states
    ensures ToCome(t, order, n + 1)
  {
    forall i | i in t.callSidIdx
      ensures exists k :: n + 1 <= k < |order| && order[k] == t.callSidIdx[i]
    {
      var k :| n <= k < |order| && order[k] == c.callSidIdx[i];
      assert k != n;
    }
    forall k | n + 1 <= k < |order|
      ensures order[k].callSid != order[n].callSid
    {
      assert c.callSidIdx[order[k].callSid] == order[k] && c.callSidIdx[order[n].callSid] == order[n];
    }
  }

  lemma DrainOne(c: Calls, order: seq<Session>, n: nat)
    requires n < |order| && Distinct(order) && Draining(c, order, n)
    ensures Draining(Ended(c.(sessions := c.sessions[order[n].callId := order[n]]), order[n], Shutdown, true), order, n + 1)
  {
    var r := c.(sessions := c.sessions[order[n].callId := order[n]]);
    var t := Ended(r, order[n], Shutdown, true);
    EndedHistory(r, order[n], Shutdown, true);
    assert t.sessions == map[];
    StillToCome(c, t, order, n);
  }

  lemma EndedAllSnoc(c: Calls, order: seq<Session>, n: nat)
    requires n < |order|
    ensures var before := EndedAll(c, order[..n]);
            EndedAll(c, order[..n + 1])
            == Ended(before.(sessions := before.sessions[order[n].callId := order[n]]), order[n], Shutdown, true)
  {
    assert order[..n + 1][..n] == order[..n];
  }

  lemma {:induction false} DrainNext(c: Calls, order: seq<Session>, n: nat)
    requires n < |order| && Distinct(order) && Draining(EndedAll(c, order[..n]), order, n)
    ensures Draining(EndedAll(c, order[..n + 1]), order, n + 1)
  {
    EndedAllSnoc(c, order, n);
    DrainOne(EndedAll(c, order[..n]), order, n);
  }

  lemma {:induction false} DrainMany(c: Calls, order: seq<Session>, n: nat)
    requires n <= |order| && Distinct(order) && Draining(c, order, 0)
    ensures Draining(EndedAll(c, order[..n]), order, n)
  {
    if n == 0 {
      assert order[..0] == [];
    } else {
      DrainMany(c, order, n - 1);
      DrainNext(c, order, n - 1);
    }
  }

  lemma {:induction false} CountSessions(order: seq<Session>, ids: set<CallId>)
    requires forall i, j :: 0 <= i < j < |order| ==> order[i].callId != order[j].callId
    requires forall k :: k in ids <==> exists i :: 0 <= i < |order| && order[i].callId == k
    ensures |order| == |ids|
  {
    if order == [] {
      assert ids == {};
    } else {
      var n := |order| - 1;
      var others := ids - {order[n].callId};
      forall k
        ensures k in others <==> exists i :: 0 <= i < |order[..n]| && order[..n][i].callId == k
      {
        if k in others {
          var i :| 0 <= i < |order| && order[i].callId == k;
          assert order[..n][i].callId == k;
        }
        if i :| 0 <= i < |order[..n]| && order[..n][i].callId == k {
          assert order[i].callId == k;
        }
      }
      CountSessions(order[..n], others);
      assert order[n].callId in ids;
    }
  }

  lemma ReadyToDrain(s: State, order: seq<Session>)
    requires CallsInv(s) && SetupInv(s) && ListsSessions(order, s.calls)
    ensures Draining(s.calls.(sessions := map[]), order, 0)
  {
    var c := s.calls;
    assert forall i :: 0 <= i < |order| ==> order[i] in order;
    forall k
      ensures k in c.sessions.Keys <==> exists i :: 0 <= i < |order| && order[i].callId == k
    {
      if k in c.sessions {
        assert c.sessions[k] in order;
        var i :| 0 <= i < |order| && order[i] == c.sessions[k];
        assert order[i].callId == k;
      }
    }
    CountSessions(order, c.sessions.Keys);
    assert |c.sessions| == |c.sessions.Keys|;
  }

  lemma AllEnded(s: State, order: seq<Session>)
    requires CallsInv(s) && SetupInv(s) && ListsSessions(order, s.calls)
    ensures Draining(EndedAll(s.calls.(sessions := map[]), order), order, |order|)
  {
    ReadyToDrain(s, order);
    DrainMany(s.calls.(sessions := map[]), order, |order|);
    assert order[..|order|] == order;
  }

  /** The INVITE starts a setup for a Call-ID that an earlier setup had. */
  ghost predicate Reuses(s: State, l: Label) {
    l.Invite? && Opens(s, l.callId) && exists i :: i in s.callIdOf && s.callIdOf[i] == l.callId
  }

  /** Callers give every call a Call-ID of its own (section 8.1.1.4 of RFC 3261). */
  ghost predicate UniqueCallIds(run: seq<Label>) {
    run == [] || (UniqueCallIds(run[..|run| - 1]) && !Reuses(Exec(run[..|run| - 1]), run[|run| - 1]))
  }

  /** A setup for a Call-ID that no setup had before. */
  lemma BegunKeepsCalls(s: State, callId: CallId)
    requires CallsInv(s) && SetupInv(s) && Opens(s, callId) && !Reuses(s, Invite(callId, true))
    ensures CallsInv(Begun(s, callId))
  {
    assert s.nextSid !in s.callIdOf;
  }

  lemma OpeningKeepsCalls(s: State, callId: CallId, sdpOk: bool)
    requires CallsInv(s) && SetupInv(s) && !Reuses(s, Invite(callId, sdpOk))
    ensures CallsInv(HandleInvite(s, callId, sdpOk))
  {
    if Opens(s, callId) {
      BegunKeepsCalls(s, callId);
      PendingKeepsCalls(Begun(s, callId), OpenSetup(s, callId, sdpOk), callId);
    } else {
      SameCalls(s, HandleInvite(s, callId, sdpOk));
    }
  }

  lemma PendingKeepsCalls(s: State, t: State, callId: CallId)
    requires CallsInv(s) && t.calls == s.calls && t.callIdOf == s.callIdOf && callId !in s.calls.sessions
    requires forall c :: c in t.setups.pendingInvites ==> c in s.setups.pendingInvites || c == callId
    ensures CallsInv(t)
  {
  }

  lemma StoredHistory(c: Calls, x: Session)
    requires EndedOnce(c) && x.callSid !in c.snapshots
    ensures EndedOnce(Stored(c, x))
  {
  }

  lemma StoredIds(s: State, sid: Sid)
    requires UniqueIds(s) && SetupInv(s) && sid in s.setups.inFlight && !IsCancelled(s, sid)
    ensures UniqueIds(AfterWs(s, sid, true))
  {
  }

  lemma StoringKeepsCalls(s: State, sid: Sid)
    requires CallsInv(s) && SetupInv(s) && sid in s.setups.inFlight && !IsCancelled(s, sid)
    ensures CallsInv(AfterWs(s, sid, true))
  {
    var x := Session(s.setups.inFlight[sid].callId, sid);
    var t := AfterWs(s, sid, true);
    assert t.calls == Stored(s.calls, x);
    assert sid !in s.calls.states && sid !in s.calls.snapshots;
    assert sid !in s.calls.callSidIdx;
    StoredIndices(s.calls, x);
    StoredHistory(s.calls, x);
    StoredIds(s, sid);
  }

  lemma TerminateAllKeepsCalls(s: State, order: seq<Session>)
    requires CallsInv(s) && SetupInv(s) && ListsSessions(order, s.calls)
    ensures CallsInv(TerminatedAll(s, order))
  {
    AllEnded(s, order);
    var c := EndedAll(s.calls.(sessions := map[]), order);
    assert c.callSidIdx == map[];
  }

  /** CallsInv only looks at the calls, the Call-IDs and which Call-IDs are pending. */
  lemma SameCalls(s: State, t: State)
    requires CallsInv(s) && t.calls == s.calls && t.callIdOf == s.callIdOf
    requires forall c :: c in t.setups.pendingInvites ==> c in s.setups.pendingInvites
    ensures CallsInv(t)
  {
  }

  lemma RtpKeepsCalls(s: State, sid: Sid, ok: bool, dynamic: bool)
    requires CallsInv(s) && sid in s.setups.inFlight
    ensures CallsInv(AfterRtp(s, sid, ok, dynamic))
  {
    SameCalls(s, AfterRtp(s, sid, ok, dynamic));
  }

  lemma VoiceKeepsCalls(s: State, sid: Sid, ok: bool)
    requires CallsInv(s)
    ensures CallsInv(Apply(s, VoiceFetched(sid, ok)))
  {
    SameCalls(s, Apply(s, VoiceFetched(sid, ok)));
  }

  lemma WsKeepsCalls(s: State, sid: Sid, ok: bool)
    requires CallsInv(s) && SetupInv(s) && sid in s.setups.inFlight
    ensures CallsInv(AfterWs(s, sid, ok))
  {
    if ok && !IsCancelled(s, sid) {
      StoringKeepsCalls(s, sid);
    } else {
      SameCalls(s, AfterWs(s, sid, ok));
    }
  }

  lemma CancelKeepsCalls(s: State, callId: CallId)
    requires CallsInv(s) && SetupInv(s)
    ensures CallsInv(HandleCancel(s, callId))
  {
    var t := s;
    if callId in s.calls.sessions {
      IndexedEnds(s, callId, RemoteCancel, false);
      t := s.(calls := Ended(s.calls, s.calls.sessions[callId], RemoteCancel, false));
    }
    assert HandleCancel(s, callId).calls == t.calls;
    SameCalls(t, HandleCancel(s, callId));
  }

  lemma ByeKeepsCalls(s: State, callId: CallId)
    requires CallsInv(s) && SetupInv(s)
    ensures CallsInv(Apply(s, Bye(callId)))
  {
    if callId in s.calls.sessions {
      IndexedEnds(s, callId, RemoteBye, false);
      SameCalls(s.(calls := Ended(s.calls, s.calls.sessions[callId], RemoteBye, false)), HandleBye(s, callId));
    }
  }

  lemma RestKeepsCalls(s: State, sid: Sid)
    requires CallsInv(s) && SetupInv(s)
    ensures CallsInv(Apply(s, TerminateByCallSid(sid)))
  {
    if sid in s.calls.callSidIdx {
      var x := s.calls.callSidIdx[sid];
      assert x == s.calls.sessions[x.callId];
      IndexedEnds(s, x.callId, Rest, true);
    }
  }

  lemma ReconnectKeepsCalls(s: State, sid: Sid, ok: bool, budgetLeft: bool)
    requires CallsInv(s) && SetupInv(s)
    ensures CallsInv(Apply(s, ReconnectDone(sid, ok, budgetLeft)))
  {
    if sid in s.connecting && sid in s.callIdOf {
      HolderEnds(s, sid, ReconnectFailed, true);
      var ended := s.(calls := Ended(s.calls, Session(s.callIdOf[sid], sid), ReconnectFailed, true));
      SameCalls(if ok || budgetLeft then s else ended, HandleReconnectDone(s, sid, ok, budgetLeft));
    }
  }

  lemma AttemptKeepsCalls(s: State, sid: Sid)
    requires CallsInv(s)
    ensures CallsInv(Apply(s, ReconnectAttempt(sid)))
  {
    SameCalls(s, Apply(s, ReconnectAttempt(sid)));
  }

  lemma CloseKeepsCalls(s: State, sid: Sid)
    requires CallsInv(s)
    ensures CallsInv(Apply(s, CloseStream(sid)))
  {
    var t := HandleCloseStream(s, sid);
    assert t.calls == s.calls.(states := t.calls.states) && t.calls.states.Keys == s.calls.states.Keys;
    assert EndedOnce(t.calls) && IndicesAgree(t.calls);
  }

  lemma SweepKeepsCalls(s: State, sid: Sid)
    requires CallsInv(s)
    ensures CallsInv(Apply(s, SweepSnapshot(sid)))
  {
    var t := Swept(s, sid);
    assert EndedOnce(t.calls) && IndicesAgree(t.calls);
  }

  lemma ShutdownKeepsCalls(s: State, order: seq<Session>)
    requires CallsInv(s) && SetupInv(s)
    ensures CallsInv(Apply(s, TerminateAll(order)))
  {
    if ListsSessions(order, s.calls) {
      TerminateAllKeepsCalls(s, order);
    }
  }

  lemma InviteKeepsCalls(s: State, callId: CallId, sdpOk: bool)
    requires CallsInv(s) && SetupInv(s) && !Reuses(s, Invite(callId, sdpOk))
    ensures CallsInv(Apply(s, Invite(callId, sdpOk)))
  {
    OpeningKeepsCalls(s, callId, sdpOk);
  }

  lemma SetupKeepsCalls(s: State, l: Label)
    requires CallsInv(s) && SetupInv(s) && (l.RtpReady? || l.VoiceFetched? || l.WsConnected?)
    ensures CallsInv(Apply(s, l))
  {
    match l
    case RtpReady(sid, ok, dynamic) => if Awaits(s, sid, AwaitRtp) { RtpKeepsCalls(s, sid, ok, dynamic); }
    case VoiceFetched(sid, ok) => VoiceKeepsCalls(s, sid, ok);
    case WsConnected(sid, ok) => if Awaits(s, sid, AwaitWs) { WsKeepsCalls(s, sid, ok); }
  }

  lemma StepKeepsCalls(s: State, l: Label)
    requires CallsInv(s) && SetupInv(s) && !Reuses(s, l)
    ensures CallsInv(Apply(s, l))
  {
    match l
    case Invite(callId, sdpOk) => InviteKeepsCalls(s, callId, sdpOk);
    case Cancel(callId) => CancelKeepsCalls(s, callId);
    case Bye(callId) => ByeKeepsCalls(s, callId);
    case TerminateByCallSid(sid) => RestKeepsCalls(s, sid);
    case CloseStream(sid) => CloseKeepsCalls(s, sid);
    case ReconnectAttempt(sid) => AttemptKeepsCalls(s, sid);
    case ReconnectDone(sid, ok, budgetLeft) => ReconnectKeepsCalls(s, sid, ok, budgetLeft);
    case TerminateAll(order) => ShutdownKeepsCalls(s, order);
    case SweepSnapshot(sid) => SweepKeepsCalls(s, sid);
    case _ => SetupKeepsCalls(s, l);
  }

  lemma InitCallsInv()
    ensures CallsInv(Init())
  {
  }

  lemma {:induction false} ExecCallsInv(run: seq<Label>)
    requires UniqueCallIds(run)
    ensures CallsInv(Exec(run))
  {
    if run == [] {
      InitCallsInv();
    } else {
      ExecCallsInv(run[..|run| - 1]);
      ExecSetupInv(run[..|run| - 1]);
      StepKeepsCalls(Exec(run[..|run| - 1]), run[|run| - 1]);
    }
  }

  lemma NothingLeft(s: State, order: seq<Session>)
    requires CallsInv(s) && SetupInv(s) && ListsSessions(order, s.calls)
    ensures var c := EndedAll(s.calls.(sessions := map[]), order);
            c.sessions == map[] && c.callSidIdx == map[] && c.activeCalls == 0
  {
    AllEnded(s, order);
    var c := EndedAll(s.calls.(sessions := map[]), order);
    assert forall i :: i !in c.callSidIdx;
  }

  lemma ExecSnoc(run: seq<Label>, l: Label)
    ensures Exec(run + [l]) == Apply(Exec(run), l)
  {
    assert (run + [l])[..|run|] == run;
  }

  lemma TerminateAllApplies(s: State, order: seq<Session>)
    requires ListsSessions(order, s.calls)
    ensures Apply(s, TerminateAll(order)) == TerminatedAll(s, order)
  {
  }

  // For SentIsCalledFor and ByesExactly

  lemma StepResponds(s: State, l: Label)
    requires SetupInv(s)
    ensures Apply(s, l).sent == s.sent + Responses(s, l)
  {
    match l
    case Invite(_, _) => InviteResponds(s, l);
    case Cancel(c) => CancelResponds(s, c);
    case RtpReady(sid, _, _) => SetupResponds(s, l);
    case VoiceFetched(sid, _) => SetupResponds(s, l);
    case WsConnected(sid, _) => SetupResponds(s, l);
    case _ =>
      OthersSendNothing(s, l);
      assert s.sent + [] == s.sent;
  }

  lemma InviteResponds(s: State, l: Label)
    requires l.Invite?
    ensures Apply(s, l).sent == s.sent + Responses(s, l)
  {
    assert s.sent + [] == s.sent;
    assert s.sent + [Trying(s.nextSid)] + [Refusal(s.nextSid, 488)] == s.sent + [Trying(s.nextSid), Refusal(s.nextSid, 488)];
  }

  lemma CancelResponds(s: State, c: CallId)
    ensures HandleCancel(s, c).sent == s.sent + Responses(s, Cancel(c))
  {
    assert s.sent + [OkToCancel(c)] + [RequestTerminated(c)] == s.sent + [OkToCancel(c), RequestTerminated(c)];
  }

  lemma SetupResponds(s: State, l: Label)
    requires MarksAgree(s) && (l.RtpReady? || l.VoiceFetched? || l.WsConnected?)
    ensures Apply(s, l).sent == s.sent + Responses(s, l)
  {
    assert s.sent + [] == s.sent;
  }

  /** What one step does to the fate of a session. */
  ghost predicate FateStep(s: State, t: Calls, l: Label, sid: Sid) {
    var end := EndedBy(s, l, sid);
    && (sid in t.byes <==> sid in s.calls.byes || end == Some(Rest) || end == Some(Shutdown) || end == Some(ReconnectFailed))
    && (sid in t.snapshots <==> sid in s.calls.snapshots || end.Some?)
    && (sid in t.callSidIdx <==> (sid in s.calls.callSidIdx && end.None?) || Establishes(s, l, sid))
    && StateOf(t, sid) == NextState(s, l, sid, StateOf(s.calls, sid), sid in s.calls.callSidIdx)
    && ReasonOf(t, sid) == NextReason(s, l, sid, ReasonOf(s.calls, sid))
  }

  /** For one session, from c to t nothing has happened but this end, if it is one. */
  ghost predicate Fated(c: Calls, t: Calls, sid: Sid, end: Option<Reason>) {
    && (sid in t.byes <==> sid in c.byes || end == Some(Rest) || end == Some(Shutdown) || end == Some(ReconnectFailed))
    && (sid in t.snapshots <==> sid in c.snapshots || end.Some?)
    && (sid in t.callSidIdx <==> sid in c.callSidIdx && end.None?)
    && StateOf(t, sid) == (if end.Some? then Some(LastState(end.value)) else StateOf(c, sid))
    && ReasonOf(t, sid) == (if end.Some? then end else ReasonOf(c, sid))
  }

  ghost predicate FatedBy(s: State, l: Label, sid: Sid) {
    Fated(s.calls, Apply(s, l).calls, sid, EndedBy(s, l, sid))
  }

  lemma FateFollows(s: State, l: Label, sid: Sid)
    requires !l.WsConnected? && !l.CloseStream? && !l.SweepSnapshot? && FatedBy(s, l, sid)
    ensures FateStep(s, Apply(s, l).calls, l, sid)
  {
  }

  lemma EndedFate(c: Calls, x: Session, reason: Reason, sendBye: bool, sid: Sid)
    requires x.callId in c.sessions && x.callSid in c.callSidIdx
    requires sendBye <==> reason == Rest || reason == Shutdown || reason == ReconnectFailed
    ensures Fated(c, Ended(c, x, reason, sendBye), sid, if sid == x.callSid then Some(reason) else None)
  {
  }

  lemma CancelFate(s: State, callId: CallId, sid: Sid)
    requires CallsInv(s)
    ensures FatedBy(s, Cancel(callId), sid)
  {
    var c := s.calls;
    if callId in c.sessions {
      EndedFate(c, c.sessions[callId], RemoteCancel, false, sid);
      assert sid in c.callSidIdx && c.callSidIdx[sid].callId == callId ==> c.callSidIdx[sid] == c.sessions[callId];
    }
  }

  lemma ByeFate(s: State, callId: CallId, sid: Sid)
    requires CallsInv(s)
    ensures FatedBy(s, Bye(callId), sid)
  {
    var c := s.calls;
    if callId in c.sessions {
      EndedFate(c, c.sessions[callId], RemoteBye, false, sid);
      assert sid in c.callSidIdx && c.callSidIdx[sid].callId == callId ==> c.callSidIdx[sid] == c.sessions[callId];
    }
  }

  lemma RestFate(s: State, i: Sid, sid: Sid)
    requires CallsInv(s)
    ensures FatedBy(s, TerminateByCallSid(i), sid)
  {
    if i in s.calls.callSidIdx {
      EndedFate(s.calls, s.calls.callSidIdx[i], Rest, true, sid);
    }
  }

  lemma ReconnectFate(s: State, i: Sid, ok: bool, budgetLeft: bool, sid: Sid)
    requires CallsInv(s) && SetupInv(s)
    ensures FatedBy(s, ReconnectDone(i, ok, budgetLeft), sid)
  {
    var c := s.calls;
    if i in s.connecting && i in s.callIdOf && !ok && !budgetLeft {
      var x := Session(s.callIdOf[i], i);
      if x.callId in c.sessions {
        var owner := c.sessions[x.callId];
        assert owner.callSid in c.callSidIdx && s.callIdOf[owner.callSid] == x.callId;
        assert owner == x;
        EndedFate(c, x, ReconnectFailed, true, sid);
      } else {
        assert i !in c.callSidIdx;
      }
    }
  }

  ghost predicate Lists(order: seq<Session>, sid: Sid) {
    exists k :: 0 <= k < |order| && order[k].callSid == sid
  }

  lemma ListsSnoc(order: seq<Session>, sid: Sid)
    requires order != []
    ensures Lists(order, sid) <==> Lists(order[..|order| - 1], sid) || order[|order| - 1].callSid == sid
  {
    var n := |order| - 1;
    assert order[n].callSid == sid ==> Lists(order, sid);
    if Lists(order[..n], sid) {
      var k :| 0 <= k < n && order[..n][k].callSid == sid;
      assert order[k].callSid == sid;
    }
  }

  /** Of terminateAll, for one session that was live or was not. */
  ghost predicate DrainedTo(c: Calls, t: Calls, sid: Sid, live: bool) {
    && (sid in t.byes <==> sid in c.byes || live)
    && (sid in t.snapshots <==> sid in c.snapshots || live)
    && ReasonOf(t, sid) == (if live then Some(Shutdown) else ReasonOf(c, sid))
    && StateOf(t, sid) == (if live then Some(Terminated) else StateOf(c, sid))
  }

  lemma {:induction false} DrainFate(c: Calls, order: seq<Session>, sid: Sid)
    ensures DrainedTo(c, EndedAll(c, order), sid, Lists(order, sid))
  {
    if order != [] {
      var n := |order| - 1;
      DrainFate(c, order[..n], sid);
      DrainFateStep(EndedAll(c, order[..n]), order[n], sid);
      ListsSnoc(order, sid);
    }
  }

  lemma DrainFateStep(c: Calls, x: Session, sid: Sid)
    ensures DrainedTo(c, Ended(c.(sessions := c.sessions[x.callId := x]), x, Shutdown, true), sid, sid == x.callSid)
  {
  }

  lemma DrainedIsFated(c: Calls, t: Calls, sid: Sid)
    requires DrainedTo(c.(sessions := map[]), t, sid, sid in c.callSidIdx) && sid !in t.callSidIdx
    ensures Fated(c, t, sid, if sid in c.callSidIdx then Some(Shutdown) else None)
  {
  }

  lemma ShutdownFate(s: State, order: seq<Session>, sid: Sid)
    requires CallsInv(s) && SetupInv(s) && ListsSessions(order, s.calls)
    ensures Fated(s.calls, TerminatedAll(s, order).calls, sid, if sid in s.calls.callSidIdx then Some(Shutdown) else None)
  {
    var t := EndedAll(s.calls.(sessions := map[]), order);
    NothingLeft(s, order);
    DrainFate(s.calls.(sessions := map[]), order, sid);
    ListedSids(order, s.calls, sid);
    DrainedIsFated(s.calls, t, sid);
  }

  lemma ListedSids(order: seq<Session>, c: Calls, sid: Sid)
    requires IndicesAgree(c) && ListsSessions(order, c)
    ensures sid in c.callSidIdx <==> Lists(order, sid)
  {
    if sid in c.callSidIdx {
      assert c.callSidIdx[sid] in order;
      var k :| 0 <= k < |order| && order[k] == c.callSidIdx[sid];
      assert order[k].callSid == sid;
    }
    if Lists(order, sid) {
      var k :| 0 <= k < |order| && order[k].callSid == sid;
      assert order[k] in order;
    }
  }

  lemma WsFate(s: State, i: Sid, ok: bool, sid: Sid)
    requires MarksAgree(s)
    ensures FateStep(s, Apply(s, WsConnected(i, ok)).calls, WsConnected(i, ok), sid)
  {
    if !Establishes(s, WsConnected(i, ok), i) {
      assert Apply(s, WsConnected(i, ok)).calls == s.calls;
    }
  }

  lemma OtherFate(s: State, l: Label, sid: Sid)
    requires l.CloseStream? || l.SweepSnapshot?
    ensures FateStep(s, Apply(s, l).calls, l, sid)
  {
  }

  lemma StepEndsExactly(s: State, l: Label, sid: Sid)
    requires CallsInv(s) && SetupInv(s)
    ensures FateStep(s, Apply(s, l).calls, l, sid)
  {
    match l
    case WsConnected(i, ok) => WsFate(s, i, ok, sid);
    case CloseStream(_) => OtherFate(s, l, sid);
    case SweepSnapshot(_) => OtherFate(s, l, sid);
    case _ =>
      EndingFate(s, l, sid);
      FateFollows(s, l, sid);
  }

  lemma EndingFate(s: State, l: Label, sid: Sid)
    requires CallsInv(s) && SetupInv(s) && !l.WsConnected? && !l.CloseStream? && !l.SweepSnapshot?
    ensures FatedBy(s, l, sid)
  {
    match l
    case Cancel(callId) => CancelFate(s, callId, sid);
    case Bye(callId) => ByeFate(s, callId, sid);
    case TerminateByCallSid(i) => RestFate(s, i, sid);
    case ReconnectDone(i, ok, budgetLeft) => ReconnectFate(s, i, ok, budgetLeft, sid);
    case TerminateAll(order) => ShutdownEndsAll(s, order, sid);
    case _ => NobodyEnds(s, l, sid);
  }

  lemma NobodyEnds(s: State, l: Label, sid: Sid)
    requires l.Invite? || l.RtpReady? || l.VoiceFetched? || l.ReconnectAttempt?
    ensures FatedBy(s, l, sid)
  {
    CallsStay(s, l);
  }

  lemma NoShutdown(s: State, order: seq<Session>, sid: Sid)
    requires !ListsSessions(order, s.calls)
    ensures Apply(s, TerminateAll(order)) == s && EndedBy(s, TerminateAll(order), sid) == None
  {
  }

  lemma EndedByShutdown(s: State, order: seq<Session>, sid: Sid)
    requires ListsSessions(order, s.calls)
    ensures EndedBy(s, TerminateAll(order), sid) == if sid in s.calls.callSidIdx then Some(Shutdown) else None
  {
  }

  lemma ShutdownEndsAll(s: State, order: seq<Session>, sid: Sid)
    requires CallsInv(s) && SetupInv(s)
    ensures FatedBy(s, TerminateAll(order), sid)
  {
    if ListsSessions(order, s.calls) {
      TerminateAllApplies(s, order);
      EndedByShutdown(s, order, sid);
      ShutdownFate(s, order, sid);
    } else {
      NoShutdown(s, order, sid);
    }
  }

  lemma CallsStay(s: State, l: Label)
    requires l.Invite? || l.RtpReady? || l.VoiceFetched? || l.ReconnectAttempt?
    ensures Apply(s, l).calls == s.calls
  {
  }

  lemma InviteMovesOn(s: State, c: CallId, sdpOk: bool, sid: Sid)
    requires SetupInv(s)
    ensures var t := HandleInvite(s, c, sdpOk);
            && PhaseOf(t, sid) == NextPhase(s, Invite(c, sdpOk), sid)
            && (PhaseOf(t, s.nextSid).Some? ==> t.nextSid == s.nextSid + 1 && t.setups.inFlight[s.nextSid].callId == c)
            && t.cancelled == s.cancelled && t.shuttingDown == s.shuttingDown
  {
    assert s.nextSid !in s.setups.inFlight;
  }

  lemma FinishMovesOn(s: State, i: Sid, sid: Sid)
    requires i in s.setups.inFlight
    ensures PhaseOf(Finish(s, i), sid) == if sid == i then None else PhaseOf(s, sid)
  {
  }

  lemma MoveMovesOn(s: State, i: Sid, phase: Phase, sid: Sid)
    requires i in s.setups.inFlight
    ensures PhaseOf(MoveTo(s, i, phase), sid) == if sid == i then Some(phase) else PhaseOf(s, sid)
  {
  }

  lemma RtpMovesOn(s: State, i: Sid, ok: bool, dynamic: bool, sid: Sid)
    requires SetupInv(s)
    ensures var t := Apply(s, RtpReady(i, ok, dynamic));
            && PhaseOf(t, sid) == NextPhase(s, RtpReady(i, ok, dynamic), sid)
            && t.cancelled == s.cancelled && t.shuttingDown == s.shuttingDown
  {
    if Awaits(s, i, AwaitRtp) {
      FinishMovesOn(s, i, sid);
      MoveMovesOn(Sent(s, Ringing(i)), i, if dynamic then AwaitVoice else AwaitWs, sid);
    }
  }

  lemma VoiceMovesOn(s: State, i: Sid, ok: bool, sid: Sid)
    requires SetupInv(s)
    ensures var t := Apply(s, VoiceFetched(i, ok));
            && PhaseOf(t, sid) == NextPhase(s, VoiceFetched(i, ok), sid)
            && t.cancelled == s.cancelled && t.shuttingDown == s.shuttingDown
  {
    if Awaits(s, i, AwaitVoice) {
      MoveMovesOn(s, i, AwaitWs, sid);
      FinishMovesOn(Sent(s, Refusal(i, 503)), i, sid);
    }
  }

  lemma WsMovesOn(s: State, i: Sid, ok: bool, sid: Sid)
    requires SetupInv(s)
    ensures var t := Apply(s, WsConnected(i, ok));
            && PhaseOf(t, sid) == NextPhase(s, WsConnected(i, ok), sid)
            && t.cancelled == s.cancelled && t.shuttingDown == s.shuttingDown
  {
    if Awaits(s, i, AwaitWs) {
      assert AfterWs(s, i, ok).setups == Finish(s, i).setups;
    }
  }

  lemma AwaitMovesOn(s: State, l: Label, sid: Sid)
    requires SetupInv(s) && (l.RtpReady? || l.VoiceFetched? || l.WsConnected?)
    ensures var t := Apply(s, l);
            PhaseOf(t, sid) == NextPhase(s, l, sid) && t.cancelled == s.cancelled && t.shuttingDown == s.shuttingDown
  {
    match l
    case RtpReady(i, ok, dynamic) => RtpMovesOn(s, i, ok, dynamic, sid);
    case VoiceFetched(i, ok) => VoiceMovesOn(s, i, ok, sid);
    case WsConnected(i, ok) => WsMovesOn(s, i, ok, sid);
  }

  lemma OtherSetupsStay(s: State, l: Label)
    requires !l.Invite? && !l.RtpReady? && !l.VoiceFetched? && !l.WsConnected? && !l.Cancel?
    ensures var t := Apply(s, l);
            && t.setups == s.setups && t.cancelled == s.cancelled
            && (t.shuttingDown <==> s.shuttingDown || (l.TerminateAll? && ListsSessions(l.order, s.calls)))
  {
  }

  lemma SetupMovesOn(s: State, l: Label, sid: Sid)
    requires SetupInv(s)
    ensures var t := Apply(s, l);
            && PhaseOf(t, sid) == NextPhase(s, l, sid)
            && (PhaseOf(t, s.nextSid).Some? ==>
                  l.Invite? && t.nextSid == s.nextSid + 1 && t.setups.inFlight[s.nextSid].callId == l.callId)
            && (sid in t.cancelled <==>
                  sid in s.cancelled || (l.Cancel? && l.callId !in s.calls.sessions
                                         && sid in s.setups.inFlight && s.setups.inFlight[sid].callId == l.callId))
            && (t.shuttingDown <==> s.shuttingDown || (l.TerminateAll? && ListsSessions(l.order, s.calls)))
  {
    if l.Invite? {
      InviteMovesOn(s, l.callId, l.sdpOk, sid);
    } else if l.RtpReady? || l.VoiceFetched? || l.WsConnected? {
      AwaitMovesOn(s, l, sid);
      AwaitMovesOn(s, l, s.nextSid);
    } else if l.Cancel? {
      assert Apply(s, l).setups.inFlight == s.setups.inFlight;
    } else {
      OtherSetupsStay(s, l);
    }
  }

  lemma StreamingIsLive(s: State, sid: Sid)
    requires CallsInv(s) && SetupInv(s)
    ensures ShouldReconnect(s, sid) <==> sid in s.calls.callSidIdx && StateOf(s.calls, sid) == Some(Streaming)
  {
    if sid in s.callIdOf && s.callIdOf[sid] in s.calls.sessions {
      var owner := s.calls.sessions[s.callIdOf[sid]];
      assert owner.callSid in s.calls.callSidIdx && s.callIdOf[owner.callSid] == s.callIdOf[sid];
    }
    if sid in s.calls.callSidIdx {
      assert s.calls.callSidIdx[sid].callId in s.calls.sessions;
    }
  }

  lemma OthersConnectNothing(s: State, l: Label)
    requires !l.ReconnectAttempt? && !l.ReconnectDone?
    ensures Apply(s, l).connecting == s.connecting
  {
  }

  lemma AttemptConnects(s: State, i: Sid, sid: Sid)
    ensures sid in Apply(s, ReconnectAttempt(i)).connecting <==> sid in s.connecting || (sid == i && ShouldReconnect(s, i))
  {
  }

  lemma DoneConnects(s: State, i: Sid, ok: bool, budgetLeft: bool, sid: Sid)
    requires forall j :: j in s.connecting ==> j in s.callIdOf
    ensures sid in HandleReconnectDone(s, i, ok, budgetLeft).connecting <==> sid in s.connecting && sid != i
  {
  }

  lemma ConnectsExactly(s: State, l: Label, sid: Sid)
    requires CallsInv(s) && SetupInv(s)
    ensures sid in Apply(s, l).connecting <==>
              (l == ReconnectAttempt(sid) && sid in s.calls.callSidIdx && StateOf(s.calls, sid) == Some(Streaming))
              || (sid in s.connecting && !(l.ReconnectDone? && l.sid == sid))
  {
    match l
    case ReconnectAttempt(i) =>
      AttemptConnects(s, i, sid);
      StreamingIsLive(s, i);
    case ReconnectDone(i, ok, budgetLeft) => DoneConnects(s, i, ok, budgetLeft, sid);
    case _ => OthersConnectNothing(s, l);
  }

  // Setups that are pending when terminateAll runs

  ghost function ExecFrom(s: State, run: seq<Label>): State {
    if run == [] then s else Apply(ExecFrom(s, run[..|run| - 1]), run[|run| - 1])
  }

  lemma {:induction false} ExecSplits(pre: seq<Label>, post: seq<Label>)
    ensures Exec(pre + post) == ExecFrom(Exec(pre), post)
  {
    if post == [] {
      assert pre + post == pre;
    } else {
      var n := |post| - 1;
      assert (pre + post)[..|pre + post| - 1] == pre + post[..n];
      ExecSplits(pre, post[..n]);
    }
  }

  /** No session is live, and none can come: new INVITEs are refused, every pending setup is cancelled. */
  ghost predicate Hopeless(s: State) {
    && s.shuttingDown && s.calls.sessions == map[]
    && (forall i :: i in s.setups.inFlight ==> s.setups.inFlight[i].callId in s.setups.cancelledInvites)
  }

  lemma HopelessSetupStep(s: State, l: Label)
    requires OnePerCallId(s.setups) && Hopeless(s) && (l.RtpReady? || l.VoiceFetched? || l.WsConnected?)
    ensures Hopeless(Apply(s, l))
  {
  }

  lemma NothingToTerminate(s: State, order: seq<Session>)
    requires s.calls.sessions == map[] && ListsSessions(order, s.calls)
    ensures order == []
  {
    NonEmptyHasMember(order);
  }

  lemma HopelessStep(s: State, l: Label)
    requires SetupInv(s) && Hopeless(s)
    ensures Hopeless(Apply(s, l))
  {
    match l
    case RtpReady(_, _, _) => HopelessSetupStep(s, l);
    case VoiceFetched(_, _) => HopelessSetupStep(s, l);
    case WsConnected(_, _) => HopelessSetupStep(s, l);
    case TerminateByCallSid(_) =>
    case TerminateAll(order) =>
      if ListsSessions(order, s.calls) { NothingToTerminate(s, order); }
    case _ =>
  }

  lemma {:induction false} HopelessRun(s: State, run: seq<Label>)
    requires SetupInv(s) && Hopeless(s)
    ensures SetupInv(ExecFrom(s, run)) && Hopeless(ExecFrom(s, run))
  {
    if run != [] {
      HopelessRun(s, run[..|run| - 1]);
      HopelessStep(ExecFrom(s, run[..|run| - 1]), run[|run| - 1]);
      StepSetupInv(ExecFrom(s, run[..|run| - 1]), run[|run| - 1]);
    }
  }

  lemma AnswerAtWs(s: State, sid: Sid)
    requires Awaits(s, sid, AwaitWs) && !IsCancelled(s, sid)
    ensures s.setups.inFlight[sid].callId in Apply(s, WsConnected(sid, true)).calls.sessions
  {
  }

  /** A setup that is not cancelled can still be answered, in at most two steps. */
  lemma AnswerPending(s: State, sid: Sid) returns (more: seq<Label>)
    requires sid in s.setups.inFlight && !IsCancelled(s, sid)
    ensures s.setups.inFlight[sid].callId in ExecFrom(s, more).calls.sessions
  {
    var last := WsConnected(sid, true);
    if s.setups.inFlight[sid].phase == AwaitWs {
      more := [last];
      assert more[..0] == [];
      AnswerAtWs(s, sid);
    } else {
      var first := if s.setups.inFlight[sid].phase == AwaitRtp then RtpReady(sid, true, false) else VoiceFetched(sid, true);
      var t := Apply(s, first);
      assert Awaits(t, sid, AwaitWs) && !IsCancelled(t, sid) && t.setups.inFlight[sid].callId == s.setups.inFlight[sid].callId;
      more := [first, last];
      assert more[..1] == [first] && more[..1][..0] == [];
      assert ExecFrom(s, more[..1]) == t;
      AnswerAtWs(t, sid);
    }
  }

  ghost predicate StaysEmpty(s: State) {
    forall more :: ExecFrom(s, more).calls.sessions == map[]
  }

  lemma SettledAfterShutdownIff(s: State, order: seq<Session>)
    requires CallsInv(s) && SetupInv(s) && ListsSessions(order, s.calls)
    ensures StaysEmpty(TerminatedAll(s, order)) <==> forall i :: i in s.setups.inFlight ==> i in s.cancelled
  {
    var t := TerminatedAll(s, order);
    NothingLeft(s, order);
    TerminateAllKeeps(s, order);
    if forall i :: i in s.setups.inFlight ==> i in s.cancelled {
      forall more
        ensures ExecFrom(t, more).calls.sessions == map[]
      {
        HopelessRun(t, more);
      }
    } else {
      var i :| i in s.setups.inFlight && i !in s.cancelled;
      var more := AnswerPending(t, i);
    }
  }

  lemma {:induction false} NoSessionAfterIff(run: seq<Label>)
    ensures NoSessionAfter(run) <==> StaysEmpty(Exec(run))
  {
    forall more
      ensures Exec(run + more) == ExecFrom(Exec(run), more)
    {
      ExecSplits(run, more);
    }
    if !StaysEmpty(Exec(run)) {
      var more :| ExecFrom(Exec(run), more).calls.sessions != map[];
      assert Exec(run + more).calls.sessions != map[];
    }
  }

  // ---------------------------------------------------------------------------------------------
  // Three runs

  /** One call, established and in state Streaming, as setup `sid` for Call-ID 7. */
  function Live(sid: Sid, before: Calls): Calls {
    Stored(before, Session(7, sid))
  }

  lemma EstablishCall(s: State, connecting: set<Sid>)
    requires Opens(s, 7) && s.connecting == connecting && s.setups == Init().setups
    ensures var t := Apply(Apply(Apply(s, Invite(7, true)), RtpReady(s.nextSid, true, false)), WsConnected(s.nextSid, true));
            && t.calls == Live(s.nextSid, s.calls) && t.connecting == connecting && t.setups == Init().setups
            && t.callIdOf == s.callIdOf[s.nextSid := 7] && t.nextSid == s.nextSid + 1 && !t.shuttingDown
  {
    var sid := s.nextSid;
    var s1 := Apply(s, Invite(7, true));
    assert s1.setups == Setups({7}, {}, map[sid := Setup(7, AwaitRtp)]);
    var s2 := Apply(s1, RtpReady(sid, true, false));
    assert s2.setups == Setups({7}, {}, map[sid := Setup(7, AwaitWs)]);
    var s3 := Apply(s2, WsConnected(sid, true));
    assert s3.setups == Setups({}, {}, map[]);
  }

  /** A reconnect loop that outlives its call: it awaits a connect while the caller hangs up and calls
      again under the same Call-ID; when the connect fails with the budget spent, terminateSession
      removes the new call from one index only, and the old call gets a second snapshot. */
  const CALL_7: seq<Label> := [Invite(7, true), RtpReady(0, true, false), WsConnected(0, true)]
  const DROP: seq<Label> := [ReconnectAttempt(0), Bye(7)]
  const CALL_7_AGAIN: seq<Label> := [Invite(7, true), RtpReady(1, true, false), WsConnected(1, true)]

  lemma ExecThree(run: seq<Label>, a: Label, b: Label, c: Label)
    ensures Exec(run + [a, b, c]) == Apply(Apply(Apply(Exec(run), a), b), c)
  {
    assert run + [a, b, c] == run + [a] + [b] + [c];
    ExecSnoc(run, a);
    ExecSnoc(run + [a], b);
    ExecSnoc(run + [a] + [b], c);
  }

  lemma HangUpWhileConnecting(s: State)
    requires s.calls == Live(0, Init().calls) && s.connecting == {} && s.callIdOf == map[0 := 7]
    ensures var t := Apply(Apply(s, ReconnectAttempt(0)), Bye(7));
            && t.calls == Calls(map[], map[], map[0 := RemoteBye], 0, map[0 := HungUp], [0], [])
            && t.connecting == {0} && t.setups == s.setups && t.callIdOf == s.callIdOf
            && t.nextSid == s.nextSid && t.shuttingDown == s.shuttingDown
  {
    assert ShouldReconnect(s, 0);
    var t := Apply(Apply(s, ReconnectAttempt(0)), Bye(7));
    assert t.calls == Ended(s.calls, Session(7, 0), RemoteBye, false);
  }

  lemma ReusedCallIdSplitsIndices()
    ensures var run := CALL_7 + DROP + CALL_7_AGAIN + [ReconnectDone(0, false, false)];
            var c := Exec(run).calls;
            && !UniqueCallIds(CALL_7 + DROP + CALL_7_AGAIN)
            && c.sessions == map[] && 1 in c.callSidIdx && !IndicesAgree(c) && c.snapshots == [0, 0]
  {
    var s0 := Init();
    assert Exec([]) == s0;
    ExecThree([], CALL_7[0], CALL_7[1], CALL_7[2]);
    assert [] + CALL_7 == CALL_7;
    EstablishCall(s0, {});
    var s1 := Exec(CALL_7);
    assert CALL_7 + DROP == CALL_7 + [DROP[0]] + [DROP[1]];
    ExecSnoc(CALL_7, DROP[0]);
    ExecSnoc(CALL_7 + [DROP[0]], DROP[1]);
    HangUpWhileConnecting(s1);
    var s2 := Exec(CALL_7 + DROP);
    ExecThree(CALL_7 + DROP, CALL_7_AGAIN[0], CALL_7_AGAIN[1], CALL_7_AGAIN[2]);
    EstablishCall(s2, {0});
    var s3 := Exec(CALL_7 + DROP + CALL_7_AGAIN);
    ExecSnoc(CALL_7 + DROP + CALL_7_AGAIN, ReconnectDone(0, false, false));
    StaleLoopEnds(s3);
    ReuseShows(s2);
  }

  lemma StaleLoopEnds(s: State)
    requires s.calls == Live(1, Calls(map[], map[], map[0 := RemoteBye], 0, map[0 := HungUp], [0], []))
    requires s.connecting == {0} && s.callIdOf == map[0 := 7, 1 := 7]
    ensures var c := Apply(s, ReconnectDone(0, false, false)).calls;
            c.sessions == map[] && 1 in c.callSidIdx && c.snapshots == [0, 0]
  {
  }

  lemma ReuseShows(s: State)
    requires s == Exec(CALL_7 + DROP) && Opens(s, 7) && s.callIdOf == map[0 := 7]
    ensures !UniqueCallIds(CALL_7 + DROP + CALL_7_AGAIN)
  {
    var all := CALL_7 + DROP + CALL_7_AGAIN;
    var third := CALL_7 + DROP + [CALL_7_AGAIN[0]];
    assert 0 in s.callIdOf && s.callIdOf[0] == 7;
    assert Reuses(s, CALL_7_AGAIN[0]);
    assert third[..|third| - 1] == CALL_7 + DROP;
    assert !UniqueCallIds(third);
    assert all[..|all| - 1][..|all| - 2] == third;
  }

  lemma SetupInFlight(dynamic: bool)
    ensures var s := Apply(Apply(Init(), Invite(7, true)), RtpReady(0, true, dynamic));
            && s.setups == Setups({7}, {}, map[0 := Setup(7, if dynamic then AwaitVoice else AwaitWs)])
            && s.calls == Init().calls && s.callIdOf == map[0 := 7] && !s.shuttingDown
  {
  }

  lemma AnsweredLate(s: State)
    requires s.setups == Setups({7}, {}, map[0 := Setup(7, AwaitWs)]) && s.calls == Init().calls
    ensures var t := Apply(Apply(s, TerminateAll([])), WsConnected(0, true));
            t.shuttingDown && 7 in t.calls.sessions && Answer(0) in t.sent
  {
    assert ListsSessions([], s.calls);
    var u := Apply(s, TerminateAll([]));
    assert u.setups == s.setups && u.shuttingDown;
    assert Apply(u, WsConnected(0, true)).sent == u.sent + [Answer(0)];
  }

  /** A setup that is pending when terminateAll runs is still answered and stored afterwards. */
  lemma LateSetupSurvivesShutdown()
    ensures var s := Exec([Invite(7, true), RtpReady(0, true, false), TerminateAll([]), WsConnected(0, true)]);
            s.shuttingDown && 7 in s.calls.sessions && Answer(0) in s.sent
  {
    var run: seq<Label> := [Invite(7, true), RtpReady(0, true, false), TerminateAll([])];
    assert Exec([]) == Init() && [] + run == run;
    ExecThree([], run[0], run[1], run[2]);
    ExecSnoc(run, WsConnected(0, true));
    assert run + [WsConnected(0, true)] == [Invite(7, true), RtpReady(0, true, false), TerminateAll([]), WsConnected(0, true)];
    SetupInFlight(false);
    AnsweredLate(Apply(Apply(Init(), run[0]), run[1]));
  }

  lemma RefusedTwice(s: State)
    requires s.setups == Setups({7}, {}, map[0 := Setup(7, AwaitVoice)]) && s.calls == Init().calls
    ensures var t := Apply(Apply(s, Cancel(7)), VoiceFetched(0, false));
            RequestTerminated(7) in t.sent && Refusal(0, 503) in t.sent && t.callIdOf == s.callIdOf
  {
    var u := Apply(s, Cancel(7));
    assert u.sent == s.sent + [OkToCancel(7)] + [RequestTerminated(7)];
    assert Awaits(u, 0, AwaitVoice);
    assert Apply(u, VoiceFetched(0, false)).sent == u.sent + [Refusal(0, 503)];
  }

  /** A CANCEL during the voice fetch is answered with 487, and a failing fetch then sends a second final
      response to the same INVITE. */
  lemma CancelledVoiceFetchAnswersTwice()
    ensures var s := Exec([Invite(7, true), RtpReady(0, true, true), Cancel(7), VoiceFetched(0, false)]);
            RequestTerminated(7) in s.sent && Refusal(0, 503) in s.sent && s.callIdOf == map[0 := 7]
  {
    var run: seq<Label> := [Invite(7, true), RtpReady(0, true, true), Cancel(7)];
    assert Exec([]) == Init() && [] + run == run;
    ExecThree([], run[0], run[1], run[2]);
    ExecSnoc(run, VoiceFetched(0, false));
    assert run + [VoiceFetched(0, false)] == [Invite(7, true), RtpReady(0, true, true), Cancel(7), VoiceFetched(0, false)];
    SetupInFlight(true);
    RefusedTwice(Apply(Apply(Init(), run[0]), run[1]));
  }

  // ---------------------------------------------------------------------------------------------
  // The class

  /** The call manager. The ghost fields name the runs of handleInvite that await something, and keep the
      history the results speak of. Each method is the code between two awaits. */
  class CallManager {
    var sessions: map<CallId, Session>
    var callSidIdx: map<Sid, Session>
    var recentlyTerminated: map<Sid, Reason>
    var activeCalls: int
    var states: map<Sid, CallState>
    var snapshots: seq<Sid>
    var byes: seq<Sid>
    var pendingInvites: set<CallId>
    var cancelledInvites: set<CallId>
    var isShuttingDown: bool
    var sent: seq<Message>
    ghost var inFlight: map<Sid, Setup>
    ghost var connecting: set<Sid>
    ghost var callIdOf: map<Sid, CallId>
    ghost var cancelled: set<Sid>
    /** CallSids are minted in order; the program draws them at random. */
    var nextSid: Sid

    ghost function CallsView(): Calls
      reads this
    {
      Calls(sessions, callSidIdx, recentlyTerminated, activeCalls, states, snapshots, byes)
    }

    ghost function View(): State
      reads this
    {
      State(CallsView(), Setups(pendingInvites, cancelledInvites, inFlight), connecting, isShuttingDown, sent,
            callIdOf, cancelled, nextSid)
    }

    constructor ()
      ensures View() == Init()
    {
      sessions, callSidIdx, recentlyTerminated, activeCalls := map[], map[], map[], 0;
      states, snapshots, byes := map[], [], [];
      pendingInvites, cancelledInvites, isShuttingDown, sent := {}, {}, false, [];
      inFlight, connecting, callIdOf, cancelled, nextSid := map[], {}, map[], {}, 0;
    }

    method TerminateSession(x: Session, reason: Reason, sendBye: bool)
      modifies `sessions, `callSidIdx, `recentlyTerminated, `activeCalls, `states, `snapshots, `byes
      ensures CallsView() == Ended(old(CallsView()), x, reason, sendBye)
      ensures x.callId in old(sessions) ==>
                && snapshots == old(snapshots) + [x.callSid]
                && byes == if sendBye then old(byes) + [x.callSid] else old(byes)
    {
      if x.callId !in sessions {
        return;
      }
      sessions := sessions - {x.callId};
      callSidIdx := callSidIdx - {x.callSid};
      states := states[x.callSid := if reason.RemoteBye? then HungUp else Terminated];
      recentlyTerminated := recentlyTerminated[x.callSid := reason];
      snapshots := snapshots + [x.callSid];
      activeCalls := activeCalls - 1;
      if sendBye {
        byes := byes + [x.callSid];
      }
    }

    /** `order` is the order in which the sessions are listed. */
    method TerminateAllSessions(order: seq<Session>)
      requires ListsSessions(order, CallsView())
      modifies `sessions, `callSidIdx, `recentlyTerminated, `activeCalls, `states, `snapshots, `byes, `isShuttingDown
      ensures View() == TerminatedAll(old(View()), order)
    {
      RejectNewInvites();
      EndEach(order);
    }

    method RejectNewInvites()
      modifies `sessions, `isShuttingDown
      ensures isShuttingDown && CallsView() == old(CallsView()).(sessions := map[])
    {
      isShuttingDown := true;
      sessions := map[];
    }

    /** Each session is put back for a moment, so that terminateSession finds it. */
    method EndEach(order: seq<Session>)
      modifies `sessions, `callSidIdx, `recentlyTerminated, `activeCalls, `states, `snapshots, `byes
      ensures CallsView() == EndedAll(old(CallsView()), order)
    {
      for i := 0 to |order|
        invariant CallsView() == EndedAll(old(CallsView()), order[..i])
      {
        assert order[..i + 1][..i] == order[..i];
        sessions := sessions[order[i].callId := order[i]];
        TerminateSession(order[i], Shutdown, true);
      }
      assert order[..|order|] == order;
    }

    /** handleInvite up to its first await; `sid` is the CallSid the setup will use. */
    method BeginInvite(callId: CallId, sdpOk: bool) returns (awaitsRtp: bool)
      modifies this
      ensures View() == HandleInvite(old(View()), callId, sdpOk)
      ensures awaitsRtp <==> Opens(old(View()), callId) && sdpOk
    {
      if isShuttingDown {
        sent := sent + [RefusedAtOnce(callId)];
        return false;
      }
      if callId in pendingInvites {
        return false;
      }
      if callId in sessions {
        sent := sent + [AnswerAgain(sessions[callId].callSid)];
        return false;
      }
      OpenNewSetup(callId, sdpOk);
      awaitsRtp := sdpOk;
    }

    method BeginSetup(callId: CallId) returns (sid: Sid)
      modifies `callIdOf, `nextSid, `sent
      ensures sid == old(nextSid) && View() == Begun(old(View()), callId)
    {
      sid := nextSid;
      nextSid := sid + 1;
      callIdOf := callIdOf[sid := callId];
      sent := sent + [Trying(sid)];
    }

    method AwaitRtpHandler(sid: Sid, callId: CallId)
      modifies `pendingInvites, `inFlight
      ensures View() == Awaiting(old(View()), sid, callId)
    {
      pendingInvites := pendingInvites + {callId};
      inFlight := inFlight[sid := Setup(callId, AwaitRtp)];
    }

    method RefuseSdp(sid: Sid, callId: CallId)
      modifies `pendingInvites, `cancelledInvites, `sent
      ensures View() == RefusedSdp(old(View()), sid, callId)
    {
      pendingInvites := pendingInvites + {callId};
      sent := sent + [Refusal(sid, 488)];
      pendingInvites := pendingInvites - {callId};
      cancelledInvites := cancelledInvites - {callId};
    }

    /** A new setup, up to its first await or the refusal of its SDP. */
    method OpenNewSetup(callId: CallId, sdpOk: bool)
      modifies `pendingInvites, `cancelledInvites, `inFlight, `callIdOf, `nextSid, `sent
      ensures View() == OpenSetup(old(View()), callId, sdpOk)
    {
      var sid := BeginSetup(callId);
      if sdpOk {
        AwaitRtpHandler(sid, callId);
      } else {
        RefuseSdp(sid, callId);
      }
    }

    /** The finally block of handleInvite. */
    method FinishSetup(sid: Sid, callId: CallId)
      requires sid in inFlight && inFlight[sid].callId == callId
      modifies `pendingInvites, `cancelledInvites, `inFlight
      ensures View() == Finish(old(View()), sid)
    {
      pendingInvites := pendingInvites - {callId};
      cancelledInvites := cancelledInvites - {callId};
      inFlight := inFlight - {sid};
    }

    /** From the RTP socket to the next await. */
    method ResumeAfterRtp(sid: Sid, callId: CallId, ok: bool, dynamic: bool)
      requires sid in inFlight && inFlight[sid].callId == callId
      modifies `pendingInvites, `cancelledInvites, `inFlight, `sent
      ensures View() == AfterRtp(old(View()), sid, ok, dynamic)
    {
      if !ok || callId in cancelledInvites {
        FinishSetup(sid, callId);
        return;
      }
      sent := sent + [Ringing(sid)];
      inFlight := inFlight[sid := Setup(callId, if dynamic then AwaitVoice else AwaitWs)];
    }

    /** From the voice webhook to the next await. */
    method ResumeAfterVoice(sid: Sid, callId: CallId, ok: bool)
      requires sid in inFlight && inFlight[sid].callId == callId
      modifies `pendingInvites, `cancelledInvites, `inFlight, `sent
      ensures View() == AfterVoice(old(View()), sid, ok)
    {
      if ok {
        inFlight := inFlight[sid := Setup(callId, AwaitWs)];
      } else {
        sent := sent + [Refusal(sid, 503)];
        FinishSetup(sid, callId);
      }
    }

    method StoreSession(x: Session)
      modifies `sessions, `callSidIdx, `states, `activeCalls
      ensures CallsView() == Stored(old(CallsView()), x)
    {
      sessions := sessions[x.callId := x];
      callSidIdx := callSidIdx[x.callSid := x];
      states := states[x.callSid := Streaming];
      activeCalls := activeCalls + 1;
    }

    /** From the WebSocket to the end of handleInvite. */
    method ResumeAfterWs(sid: Sid, callId: CallId, ok: bool)
      requires sid in inFlight && inFlight[sid].callId == callId
      modifies this
      ensures View() == AfterWs(old(View()), sid, ok)
    {
      if !ok {
        SendRaw(Refusal(sid, 503));
      } else if callId !in cancelledInvites {
        SendRaw(Answer(sid));
        StoreSession(Session(callId, sid));
      }
      FinishSetup(sid, callId);
    }

    method SendRaw(msg: Message)
      modifies `sent
      ensures View() == Sent(old(View()), msg)
    {
      sent := sent + [msg];
    }

    /** The pending Call-ID and the run of handleInvite for it are cancelled. */
    method MarkCancelled(callId: CallId)
      modifies `cancelledInvites, `cancelled
      ensures View() == Marked(old(View()), callId)
    {
      cancelledInvites := cancelledInvites + {callId};
      cancelled := cancelled + set i | i in inFlight && inFlight[i].callId == callId;
    }

    method OnCancel(callId: CallId)
      modifies this
      ensures View() == HandleCancel(old(View()), callId)
    {
      SendRaw(OkToCancel(callId));
      if callId in sessions {
        TerminateSession(sessions[callId], RemoteCancel, false);
        return;
      }
      if callId in pendingInvites {
        MarkCancelled(callId);
        SendRaw(RequestTerminated(callId));
      }
    }

    method OnBye(callId: CallId)
      modifies this
      ensures View() == HandleBye(old(View()), callId)
    {
      if callId !in sessions {
        return;
      }
      SendRaw(OkToBye(callId));
      TerminateSession(sessions[callId], RemoteBye, false);
    }

    method TerminateByCallSid(sid: Sid) returns (found: bool)
      modifies `sessions, `callSidIdx, `recentlyTerminated, `activeCalls, `states, `snapshots, `byes
      ensures found <==> sid in old(callSidIdx)
      ensures CallsView() == if found then Ended(old(CallsView()), old(callSidIdx)[sid], Rest, true) else old(CallsView())
      ensures found && old(callSidIdx)[sid].callId in old(sessions) ==>
                byes == old(byes) + [old(callSidIdx)[sid].callSid]
    {
      found := sid in callSidIdx;
      if found {
        TerminateSession(callSidIdx[sid], Rest, true);
      }
    }

    /** The CallSids of list(): the live sessions in the order of `order`, then the snapshots. */
    method List(order: seq<Session>, ended: seq<Sid>) returns (listed: seq<Sid>)
      requires ListsSessions(order, CallsView())
      requires Distinct(ended) && forall i :: i in ended <==> i in recentlyTerminated
      requires IndicesAgree(CallsView()) && EndedOnce(CallsView())
      ensures |listed| == |order| + |ended| && listed[|order|..] == ended
      ensures forall k :: 0 <= k < |order| ==> listed[k] == order[k].callSid
      ensures Distinct(listed)
      ensures forall i :: i in listed <==> i in callSidIdx || i in recentlyTerminated
    {
      listed := [];
      for k := 0 to |order|
        invariant |listed| == k && forall i :: 0 <= i < k ==> listed[i] == order[i].callSid
      {
        listed := listed + [order[k].callSid];
      }
      LiveSidsAreDistinct(order, listed, CallsView());
      AppendDistinct(listed, ended);
      listed := listed + ended;
    }
  }

  lemma LiveSidsAreDistinct(order: seq<Session>, listed: seq<Sid>, c: Calls)
    requires ListsSessions(order, c) && IndicesAgree(c)
    requires |listed| == |order| && forall i :: 0 <= i < |order| ==> listed[i] == order[i].callSid
    ensures Distinct(listed) && forall i :: i in listed <==> i in c.callSidIdx
  {
    assert forall i :: 0 <= i < |order| ==> order[i] in order;
    forall i, j | 0 <= i < j < |listed|
      ensures listed[i] != listed[j]
    {
      assert c.callSidIdx[order[i].callSid] == order[i] && c.callSidIdx[order[j].callSid] == order[j];
    }
    forall i | i in c.callSidIdx
      ensures i in listed
    {
      var x := c.callSidIdx[i];
      assert x in order;
      var k :| 0 <= k < |order| && order[k] == x;
      assert listed[k] == i;
    }
  }
}
