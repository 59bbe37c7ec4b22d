/** The life of one call's session on the Go side, from registration to the expiry of its snapshot:
    the state cell (go/internal/bridge/session.go, leg.go, state.go), the once-only terminal stamp,
    the handover from the live index to the recently-terminated map, and the lookups that race with
    it (go/internal/bridge/manager.go). */
module CallLifecycle {

  import opened Collections
  import opened SessionState

  // Every atomic load, store, compare-and-swap and map operation is one step; a run is any
  // interleaving of those steps.

  /** How long a snapshot stays visible, in nanoseconds (five minutes). */
  const RECENTLY_TERMINATED_TTL := 300_000_000_000

  /** What markTerminated stores: set once, never changed. */
  datatype Stamp = Stamp(endTime: nat, reason: string)

  /** The CallStatus word for a termination reason. */
  function StatusFromReason(reason: string): string {
    if reason == "busy" then "busy"
    else if reason == "no-answer" then "no-answer"
    else if reason == "canceled" then "canceled"
    else if reason == "failed" then "failed"
    else "completed"
  }

  /** The CallStatus word of a session without a stamp. */
  function StatusFromCell(c: CallState): string {
    match c
    case Dispatching => "queued"
    case Streaming | ForwardingSetup | DialingOut | Forwarding | Redirected => "in-progress"
    case HungUp | Terminated => "completed"
  }

  predicate IsTerminalStatus(status: string) {
    status == "completed" || status == "busy" || status == "failed" || status == "no-answer" || status == "canceled"
  }

  /** What a caller of the lookup reads: the status first, then the end time. */
  datatype Report = Report(status: string, endTime: Option<nat>)

  function FinalReport(t: Stamp): Report {
    Report(StatusFromReason(t.reason), Some(t.endTime))
  }

  // ---------------------------------------------------------------------------------------------
  // The step system

  /** terminateOnce: callers other than the first wait until it is Done. */
  datatype Once = Idle | Reading(reason: string) | Writing(stamp: Stamp) | Emitting | Done

  /** The goroutine that owns the call: onInvite, then the session goroutine. */
  datatype Owner =
    | Building
    | InSessions
    | Inviting
    | Running
    | Marking(reason: string, inRun: bool)
    | CheckEnd
    | SnapTerminal
    | SnapCell
    | SnapEnd(status: string)
    | SnapStore(snap: Report)
    | DropSession
    | DropIndex
    | Gone

  /** One call of Terminate. CasX: about to try X to Terminated. */
  datatype Terminator = MarkFirst(reason: string) | CasStreaming | CasDialingOut | CasForwarding | Returned

  datatype Sweeper = Resting | Scanning(now: nat) | Deleting(now: nat)

  /** One call of GetByCallSid and the reads its caller makes on a hit. `registered`: the session was in
      the index when the call began. `stamped`: Status found the stamp (or read a snapshot). */
  datatype Lookup =
    | AtIndex(registered: bool)
    | AtRecent(registered: bool)
    | LiveTerminal
    | LiveCell
    | LiveEnd(status: string, stamped: bool)
    | Found(report: Report, stamped: bool)
    | Missed(registered: bool, at: nat)

  datatype Session = Session(cell: CallState, terminal: Option<Stamp>, once: Once, streamClosed: bool, emitted: bool)

  /** `silent`: the cleanup found that nothing had been emitted and takes no snapshot. */
  datatype Registry = Registry(owner: Owner, silent: bool, inSessions: bool, inIndex: bool, snap: Option<Report>)

  datatype State = State(
    clock: nat,
    call: Session,
    reg: Registry,
    terminators: map<nat, Terminator>,
    sweeper: Sweeper,
    lookups: map<nat, Lookup>)

  /** The shell PreRegisterSession builds, not yet in any map. */
  function Init(): State {
    State(0, Session(Streaming, None, Idle, false, false), Registry(Building, false, false, false, None),
          map[], Resting, map[])
  }

  datatype OnceMove = Claim(reason: string) | ReadClock | StoreStamp | EmitTerminal(emits: bool)

  datatype OwnerMove = Advance | Emit | GiveUp | Answer | RunEnds | RunAborts

  datatype Label =
    | Tick(delta: nat)
    | CallOnce(om: OnceMove)
    | CloseStream
    | OnAnswered
    | Own(wm: OwnerMove)
    | TerminateStart(id: nat, reason: string)
    | TerminateStep(id: nat)
    | SweepStart(now: nat)
    | SweepStep
    | LookupStart(id: nat)
    | LookupStep(id: nat)

  predicate SomeoneMarks(s: State, reason: string) {
    || (s.reg.owner.Marking? && s.reg.owner.reason == reason)
    || (exists i :: i in s.terminators && s.terminators[i] == MarkFirst(reason))
  }

  function OnceStep(s: State, m: OnceMove): Option<State> {
    var c := s.call;
    match m
    case Claim(reason) =>
      if c.once.Idle? && SomeoneMarks(s, reason)
      then Some(s.(call := c.(once := Reading(reason)))) else None
    case ReadClock =>
      if c.once.Reading? then Some(s.(call := c.(once := Writing(Stamp(s.clock, c.once.reason))))) else None
    case StoreStamp =>
      if c.once.Writing? then Some(s.(call := c.(once := Emitting, terminal := Some(c.once.stamp)))) else None
    case EmitTerminal(emits) =>
      if c.once.Emitting? then Some(s.(call := c.(once := Done, emitted := c.emitted || emits))) else None
  }

  function OwnerAdvance(s: State): Option<State> {
    var r := s.reg;
    match r.owner
    case Building => Some(s.(reg := r.(owner := InSessions, inSessions := true)))
    case InSessions => Some(s.(reg := r.(owner := Inviting, inIndex := true)))
    case Inviting => None
    case Running => None
    case Marking(_, inRun) =>
      if s.call.once.Done? then Some(s.(reg := r.(owner := if inRun then CheckEnd else SnapTerminal))) else None
    case CheckEnd =>
      Some(s.(reg := r.(owner := if s.call.terminal.None? then Marking("failed", false) else SnapTerminal)))
    case SnapTerminal =>
      Some(s.(reg := r.(owner := if s.call.terminal.Some?
                                 then SnapEnd(StatusFromReason(s.call.terminal.value.reason)) else SnapCell)))
    case SnapCell => Some(s.(reg := r.(owner := SnapEnd(StatusFromCell(s.call.cell)))))
    case SnapEnd(status) => Some(s.(reg := r.(owner := SnapStore(Report(status, EndTimeOf(s.call))))))
    case SnapStore(snap) => Some(s.(reg := r.(owner := DropSession, snap := Some(snap))))
    case DropSession => Some(s.(reg := r.(owner := DropIndex, inSessions := false)))
    case DropIndex => Some(s.(reg := r.(owner := Gone, inIndex := false)))
    case Gone => None
  }

  function EndTimeOf(c: Session): Option<nat> {
    if c.terminal.Some? then Some(c.terminal.value.endTime) else None
  }

  function OwnerStep(s: State, m: OwnerMove): Option<State> {
    var r := s.reg;
    match m
    case Advance => OwnerAdvance(s)
    case Emit => if r.owner.Inviting? then Some(s.(call := s.call.(emitted := true))) else None
    case GiveUp =>
      if r.owner.Inviting?
      then Some(s.(reg := if s.call.emitted then r.(owner := CheckEnd) else r.(owner := DropSession, silent := true)))
      else None
    case Answer => if r.owner.Inviting? then Some(s.(reg := r.(owner := Running))) else None
    case RunEnds => if r.owner.Running? then Some(s.(reg := r.(owner := Marking("completed", true)))) else None
    case RunAborts => if r.owner.Running? then Some(s.(reg := r.(owner := CheckEnd))) else None
  }

  function Cell(s: State, expected: CallState, next: CallState): State {
    s.(call := s.call.(cell := Cas(s.call.cell, expected, next)))
  }

  function TerminatorStep(s: State, id: nat): Option<State>
    requires id in s.terminators
  {
    match s.terminators[id]
    case MarkFirst(_) =>
      if s.call.once.Done? then Some(s.(terminators := s.terminators[id := CasStreaming])) else None
    case CasStreaming =>
      Some(Cell(s, Streaming, Terminated).(terminators := s.terminators[id := CasDialingOut]))
    case CasDialingOut =>
      Some(Cell(s, DialingOut, Terminated).(terminators := s.terminators[id := CasForwarding]))
    case CasForwarding =>
      Some(Cell(s, Forwarding, Terminated).(terminators := s.terminators[id := Returned]))
    case Returned => None
  }

  function SweeperStep(s: State): Option<State> {
    match s.sweeper
    case Resting => None
    case Scanning(now) =>
      Some(s.(sweeper :=
        if s.reg.snap.Some? && s.reg.snap.value.endTime.Some?
           && now - s.reg.snap.value.endTime.value > RECENTLY_TERMINATED_TTL
        then Deleting(now) else Resting))
    case Deleting(_) => Some(s.(sweeper := Resting, reg := s.reg.(snap := None)))
  }

  function LookupNext(s: State, l: Lookup): Option<Lookup> {
    match l
    case AtIndex(registered) => Some(if s.reg.inIndex then LiveTerminal else AtRecent(registered))
    case AtRecent(registered) =>
      Some(if s.reg.snap.Some? then Found(s.reg.snap.value, true) else Missed(registered, s.clock))
    case LiveTerminal =>
      Some(if s.call.terminal.Some? then LiveEnd(StatusFromReason(s.call.terminal.value.reason), true) else LiveCell)
    case LiveCell => Some(LiveEnd(StatusFromCell(s.call.cell), false))
    case LiveEnd(status, stamped) => Some(Found(Report(status, EndTimeOf(s.call)), stamped))
    case Found(_, _) => None
    case Missed(_, _) => None
  }

  function Step(s: State, l: Label): Option<State> {
    match l
    case Tick(delta) => Some(s.(clock := s.clock + delta))
    case CallOnce(m) => OnceStep(s, m)
    case CloseStream =>
      if !s.reg.owner.Building? && !s.call.streamClosed
      then Some(Cell(s.(call := s.call.(streamClosed := true)), Streaming, DialingOut)) else None
    case OnAnswered => Some(Cell(s, DialingOut, Forwarding))
    case Own(m) => OwnerStep(s, m)
    case TerminateStart(id, reason) =>
      if !s.reg.owner.Building? && id !in s.terminators
      then Some(s.(terminators := s.terminators[id := MarkFirst(reason)])) else None
    case TerminateStep(id) => if id in s.terminators then TerminatorStep(s, id) else None
    case SweepStart(now) => if s.sweeper.Resting? && now <= s.clock then Some(s.(sweeper := Scanning(now))) else None
    case SweepStep => SweeperStep(s)
    case LookupStart(id) =>
      if id !in s.lookups then Some(s.(lookups := s.lookups[id := AtIndex(s.reg.inIndex || s.reg.owner.Gone?)]))
      else None
    case LookupStep(id) =>
      if id in s.lookups && LookupNext(s, s.lookups[id]).Some?
      then Some(s.(lookups := s.lookups[id := LookupNext(s, s.lookups[id]).value])) else None
  }

  /** A label that is not enabled changes nothing. */
  function Apply(s: State, l: Label): State {
    if Step(s, l).Some? then Step(s, l).value else s
  }

  function ExecFrom(s: State, run: seq<Label>): State {
    if run == [] then s else Apply(ExecFrom(s, run[..|run| - 1]), run[|run| - 1])
  }

  function Exec(run: seq<Label>): State {
    ExecFrom(Init(), run)
  }

  lemma {:induction false} ExecSplits(s: State, pre: seq<Label>, post: seq<Label>)
    ensures ExecFrom(s, pre + post) == ExecFrom(ExecFrom(s, pre), post)
  {
    if post == [] {
      assert pre + post == pre;
    } else {
      var n := |post| - 1;
      assert (pre + post)[..|pre + post| - 1] == pre + post[..n];
      ExecSplits(s, pre, post[..n]);
    }
  }

  // ---------------------------------------------------------------------------------------------
  // The invariant

  predicate StampedOnce(c: Session) {
    && (c.once.Idle? || c.once.Reading? || c.once.Writing? <==> c.terminal.None?)
    && (c.cell == Terminated ==> c.once.Done?)
    && (c.cell == Streaming || c.cell == DialingOut || c.cell == Forwarding || c.cell == Terminated)
  }

  predicate Laddered(c: Session, t: Terminator) {
    && (!t.MarkFirst? ==> c.once.Done?)
    && (t.CasDialingOut? ==> c.cell != Streaming)
    && (t.CasForwarding? ==> c.cell == Forwarding || c.cell == Terminated)
    && (t.Returned? ==> c.cell == Terminated)
  }

  ghost predicate AllLaddered(s: State) {
    forall i :: i in s.terminators ==> Laddered(s.call, s.terminators[i])
  }

  /** The part of the registry that follows the owner. */
  predicate Registered(c: Session, r: Registry) {
    && (r.inSessions <==> !r.owner.Building? && !r.owner.DropIndex? && !r.owner.Gone?)
    && (r.inIndex <==> !r.owner.Building? && !r.owner.InSessions? && !r.owner.Gone?)
    && !r.owner.SnapCell?
    && (r.owner.SnapTerminal? || r.owner.SnapEnd? || r.owner.SnapStore? ==> c.terminal.Some?)
    && (r.owner.SnapEnd? ==> r.owner.status == StatusFromReason(c.terminal.value.reason))
    && (r.owner.SnapStore? ==> r.owner.snap == FinalReport(c.terminal.value))
    && (r.silent ==> Dropping(r.owner))
  }

  predicate Dropping(o: Owner) {
    o.DropSession? || o.DropIndex? || o.Gone?
  }

  predicate Expired(c: Session, at: nat) {
    c.terminal.Some? && at > c.terminal.value.endTime + RECENTLY_TERMINATED_TTL
  }

  /** Once the owner starts dropping the call, its snapshot is there until it has expired. */
  predicate Snapshotted(s: State) {
    && (s.reg.snap.Some? ==> s.call.terminal.Some? && s.reg.snap.value == FinalReport(s.call.terminal.value))
    && (Dropping(s.reg.owner) && !s.reg.silent ==> s.reg.snap.Some? || Expired(s.call, s.clock))
    && (s.sweeper.Scanning? ==> s.sweeper.now <= s.clock)
    && (s.sweeper.Deleting? ==> s.sweeper.now <= s.clock && Expired(s.call, s.sweeper.now))
  }

  /** What a lookup has read so far is true of the call. */
  predicate ReadsTrue(c: Session, r: Registry, l: Lookup) {
    match l
    case AtIndex(registered) => registered ==> r.inIndex || r.owner.Gone?
    case AtRecent(registered) => registered ==> r.owner.Gone?
    case LiveTerminal => true
    case LiveCell => true
    case LiveEnd(status, stamped) =>
      if stamped then c.terminal.Some? && status == StatusFromReason(c.terminal.value.reason)
      else status == "in-progress" || (status == "completed" && c.terminal.Some?)
    case Found(report, stamped) =>
      if stamped then c.terminal.Some? && report == FinalReport(c.terminal.value)
      else if report.status == "in-progress" then true
      else report.status == "completed" && c.terminal.Some? && report.endTime == Some(c.terminal.value.endTime)
    case Missed(registered, at) => registered ==> r.owner.Gone? && (r.silent || Expired(c, at))
  }

  ghost predicate AllReadTrue(s: State) {
    forall i :: i in s.lookups ==> ReadsTrue(s.call, s.reg, s.lookups[i])
  }

  ghost predicate Inv(s: State) {
    StampedOnce(s.call) && AllLaddered(s) && Registered(s.call, s.reg) && Snapshotted(s) && AllReadTrue(s)
  }

  /** What no step takes back. */
  predicate Onward(s: State, t: State) {
    && s.clock <= t.clock
    && (s.call.terminal.Some? ==> t.call.terminal == s.call.terminal)
    && (s.call.once.Done? ==> t.call.once.Done?)
    && Rank(s.call.cell) <= Rank(t.call.cell)
    && (s.reg.owner.Gone? ==> t.reg.owner.Gone?)
    && (s.reg.owner.Gone? && s.reg.silent ==> t.reg.silent)
    && (s.reg.inIndex ==> t.reg.inIndex || t.reg.owner.Gone?)
  }

  ghost predicate Kept(s: State, t: State) {
    Inv(t) && Onward(s, t)
  }

  /** Lookups stay true when the call and the registry only move onward. */
  lemma LookupsStayTrue(s: State, t: State)
    requires AllReadTrue(s) && Onward(s, t) && t.lookups == s.lookups && StampedOnce(t.call)
    requires t.reg.owner.Gone? && !s.reg.owner.Gone? ==> s.reg.inIndex
    ensures AllReadTrue(t)
  {
    forall i | i in t.lookups
      ensures ReadsTrue(t.call, t.reg, t.lookups[i])
    {
      assert ReadsTrue(s.call, s.reg, s.lookups[i]);
    }
  }

  lemma OnceKeeps(s: State, m: OnceMove)
    requires Inv(s) && OnceStep(s, m).Some?
    ensures Kept(s, OnceStep(s, m).value)
  {
    LookupsStayTrue(s, OnceStep(s, m).value);
  }

  lemma AdvanceKeepsRegistry(s: State)
    requires StampedOnce(s.call) && Registered(s.call, s.reg) && OwnerAdvance(s).Some?
    ensures Registered(s.call, OwnerAdvance(s).value.reg) && Onward(s, OwnerAdvance(s).value)
  {
  }

  lemma AdvanceKeeps(s: State)
    requires Inv(s) && OwnerAdvance(s).Some?
    ensures Kept(s, OwnerAdvance(s).value)
  {
    AdvanceKeepsRegistry(s);
    LookupsStayTrue(s, OwnerAdvance(s).value);
  }

  lemma OwnerKeeps(s: State, m: OwnerMove)
    requires Inv(s) && OwnerStep(s, m).Some?
    ensures Kept(s, OwnerStep(s, m).value)
  {
    if m.Advance? {
      AdvanceKeeps(s);
    } else {
      LookupsStayTrue(s, OwnerStep(s, m).value);
    }
  }

  /** A compare-and-swap that only moves the cell forward. */
  lemma CellKeeps(s: State, expected: CallState, next: CallState)
    requires Inv(s) && Rank(expected) < Rank(next)
    requires next == DialingOut || next == Forwarding || (next == Terminated && s.call.once.Done?)
    ensures Kept(s, Cell(s, expected, next))
  {
    LookupsStayTrue(s, Cell(s, expected, next));
  }

  lemma TerminatorKeeps(s: State, id: nat)
    requires Inv(s) && id in s.terminators && TerminatorStep(s, id).Some?
    ensures Kept(s, TerminatorStep(s, id).value)
  {
    assert Laddered(s.call, s.terminators[id]);
    match s.terminators[id]
    case MarkFirst(_) =>
    case CasStreaming => CellKeeps(s, Streaming, Terminated);
    case CasDialingOut => CellKeeps(s, DialingOut, Terminated);
    case CasForwarding => CellKeeps(s, Forwarding, Terminated);
  }

  lemma SweeperKeeps(s: State)
    requires Inv(s) && SweeperStep(s).Some?
    ensures Kept(s, SweeperStep(s).value)
  {
    LookupsStayTrue(s, SweeperStep(s).value);
  }

  lemma LookupKeeps(s: State, id: nat)
    requires Inv(s) && Step(s, LookupStep(id)).Some?
    ensures Kept(s, Step(s, LookupStep(id)).value)
  {
    assert ReadsTrue(s.call, s.reg, s.lookups[id]);
  }

  lemma StepKeeps(s: State, l: Label)
    requires Inv(s)
    ensures Kept(s, Apply(s, l))
  {
    if Step(s, l).Some? {
      match l
      case Tick(_) => LookupsStayTrue(s, Apply(s, l));
      case CallOnce(m) => OnceKeeps(s, m);
      case CloseStream =>
        var closed := s.(call := s.call.(streamClosed := true));
        LookupsStayTrue(s, closed);
        CellKeeps(closed, Streaming, DialingOut);
      case OnAnswered => CellKeeps(s, DialingOut, Forwarding);
      case Own(m) => OwnerKeeps(s, m);
      case TerminateStart(_, _) =>
      case TerminateStep(id) => TerminatorKeeps(s, id);
      case SweepStart(_) =>
      case SweepStep => SweeperKeeps(s);
      case LookupStart(_) =>
      case LookupStep(id) => LookupKeeps(s, id);
    }
  }

  lemma {:induction false} ExecInv(run: seq<Label>)
    ensures Inv(Exec(run))
  {
    if run != [] {
      ExecInv(run[..|run| - 1]);
      StepKeeps(Exec(run[..|run| - 1]), run[|run| - 1]);
    }
  }

  lemma {:induction false} ExecOnward(s: State, run: seq<Label>)
    requires Inv(s)
    ensures Kept(s, ExecFrom(s, run))
  {
    if run != [] {
      var mid := ExecFrom(s, run[..|run| - 1]);
      ExecOnward(s, run[..|run| - 1]);
      StepKeeps(mid, run[|run| - 1]);
    }
  }

  // ---------------------------------------------------------------------------------------------
  // Main results: the state cell

  predicate Climbs(c: CallState, l: Label, d: CallState) {
    || d == c
    || (c == Streaming && d == DialingOut && l == CloseStream)
    || (c == DialingOut && d == Forwarding && l == OnAnswered)
    || (c != Terminated && d == Terminated && l.TerminateStep?)
  }

  lemma StepClimbs(s: State, l: Label)
    ensures Climbs(s.call.cell, l, Apply(s, l).call.cell)
  {
  }

  lemma ExecSnoc(s: State, run: seq<Label>, l: Label)
    ensures ExecFrom(s, run + [l]) == Apply(ExecFrom(s, run), l)
  {
    assert (run + [l])[..|run|] == run;
  }

  /** The cell is DialingOut at some point of the run from s. */
  ghost predicate DialsDuring(s: State, run: seq<Label>) {
    exists n :: 0 <= n <= |run| && ExecFrom(s, run[..n]).call.cell == DialingOut
  }

  lemma {:induction false} ForwardingWasDialled(s: State, run: seq<Label>)
    requires ExecFrom(s, run).call.cell == Forwarding
    ensures s.call.cell == Forwarding || DialsDuring(s, run)
  {
    if run != [] {
      var front, last := run[..|run| - 1], run[|run| - 1];
      var mid := ExecFrom(s, front);
      StepClimbs(mid, last);
      if mid.call.cell == Forwarding {
        ForwardingWasDialled(s, front);
        if DialsDuring(s, front) {
          var n :| 0 <= n <= |front| && ExecFrom(s, front[..n]).call.cell == DialingOut;
          assert run[..n] == front[..n];
        }
      } else {
        assert run[..|run| - 1] == front && mid.call.cell == DialingOut;
      }
    }
  }

  /** Over any run the cell climbs Streaming, DialingOut, Forwarding, Terminated without ever stepping
      back, and it never gets from Streaming to Forwarding without being DialingOut in between. */
  lemma CellOnlyClimbs(pre: seq<Label>, post: seq<Label>)
    ensures var c, d := Exec(pre).call.cell, Exec(pre + post).call.cell;
            && (d == Streaming || d == DialingOut || d == Forwarding || d == Terminated)
            && Rank(c) <= Rank(d)
            && (c == Streaming && d == Forwarding ==> DialsDuring(Exec(pre), post))
  {
    ExecInv(pre);
    ExecSplits(Init(), pre, post);
    ExecOnward(Exec(pre), post);
    if Exec(pre + post).call.cell == Forwarding {
      ForwardingWasDialled(Exec(pre), post);
    }
  }

  /** Terminate leaves the call terminated: after its three compare-and-swaps the cell reads
      Terminated for the rest of every run, whatever CloseStream and OnAnswered do meanwhile. */
  lemma TerminateIsFinal(pre: seq<Label>, post: seq<Label>, id: nat)
    requires id in Exec(pre).terminators && Exec(pre).terminators[id] == Returned
    ensures Exec(pre + post).call.cell == Terminated
    ensures Exec(pre + post).call.terminal.Some?
  {
    ExecInv(pre);
    ExecInv(pre + post);
    ExecSplits(Init(), pre, post);
    ExecOnward(Exec(pre), post);
    assert Laddered(Exec(pre).call, Exec(pre).terminators[id]);
  }

  // Which orders of compare-and-swaps would do

  /** What can happen to the cell between two of them. */
  datatype Interference = Closing | Answering

  function Disturb(c: CallState, between: seq<Interference>): CallState
    decreases |between|
  {
    if between == [] then c
    else
      var d := if between[0] == Closing then Cas(c, Streaming, DialingOut) else Cas(c, DialingOut, Forwarding);
      Disturb(d, between[1..])
  }

  /** Tries each state of `order` to Terminated; before the i-th try, gaps[i] happens. */
  function TryAll(c: CallState, order: seq<CallState>, gaps: seq<seq<Interference>>): CallState
    requires |gaps| == |order|
    decreases |order|
  {
    if order == [] then c
    else TryAll(Cas(Disturb(c, gaps[0]), order[0], Terminated), order[1..], gaps[1..])
  }

  predicate OnTheWay(c: CallState) {
    c == Streaming || c == DialingOut || c == Forwarding
  }

  function Next(c: CallState): CallState {
    if c == Streaming then DialingOut else Forwarding
  }

  /** The states from c on occur in the order in which the cell passes them. */
  predicate Follows(order: seq<CallState>, c: CallState)
    decreases |order|
  {
    if order == [] then false
    else if order[0] == c then c == Forwarding || Follows(order[1..], Next(c))
    else Follows(order[1..], c)
  }

  lemma {:induction false} FollowsLater(order: seq<CallState>, c: CallState)
    requires OnTheWay(c) && Follows(order, c)
    ensures Follows(order, Next(c))
    decreases |order|
  {
    if c != Forwarding && order[0] != c {
      FollowsLater(order[1..], c);
      if order[0] == Next(c) && Next(c) != Forwarding {
        FollowsLater(order[1..], Next(c));
      }
    }
  }

  lemma {:induction false} DisturbKeepsFollowing(order: seq<CallState>, c: CallState, between: seq<Interference>)
    requires (OnTheWay(c) && Follows(order, c)) || c == Terminated
    ensures var d := Disturb(c, between); (OnTheWay(d) && Follows(order, d)) || d == Terminated
    decreases |between|
  {
    if between != [] {
      var d := if between[0] == Closing then Cas(c, Streaming, DialingOut) else Cas(c, DialingOut, Forwarding);
      if d != c {
        FollowsLater(order, c);
      }
      DisturbKeepsFollowing(order, d, between[1..]);
    }
  }

  lemma {:induction false} FollowingTerminates(c: CallState, order: seq<CallState>, gaps: seq<seq<Interference>>)
    requires |gaps| == |order|
    requires (OnTheWay(c) && Follows(order, c)) || c == Terminated
    ensures TryAll(c, order, gaps) == Terminated
    decreases |order|
  {
    if order != [] {
      DisturbKeepsFollowing(order, c, gaps[0]);
      var d := Disturb(c, gaps[0]);
      FollowingTerminates(Cas(d, order[0], Terminated), order[1..], gaps[1..]);
    }
  }

  /** Otherwise the cell can step aside each time the state it is in is tried. */
  lemma {:induction false} DodgingSurvives(c: CallState, order: seq<CallState>) returns (gaps: seq<seq<Interference>>)
    requires OnTheWay(c) && !Follows(order, c)
    ensures |gaps| == |order| && OnTheWay(TryAll(c, order, gaps))
    decreases |order|
  {
    if order == [] {
      gaps := [];
    } else {
      var gap: seq<Interference> := if order[0] != c then [] else if c == Streaming then [Closing] else [Answering];
      var d := if order[0] != c then c else Next(c);
      assert gap != [] ==> gap[1..] == [];
      assert Disturb(c, gap) == d;
      var others := DodgingSurvives(d, order[1..]);
      gaps := [gap] + others;
      assert gaps[1..] == others;
    }
  }

  /** Trying the states in `order` terminates a streaming call under every interference of CloseStream and
      OnAnswered if and only if Streaming, DialingOut and Forwarding are tried in this order. */
  lemma OrderTerminatesIff(order: seq<CallState>)
    ensures (forall gaps :: |gaps| == |order| ==> TryAll(Streaming, order, gaps) == Terminated)
        <==> Follows(order, Streaming)
  {
    if Follows(order, Streaming) {
      forall gaps | |gaps| == |order|
        ensures TryAll(Streaming, order, gaps) == Terminated
      {
        FollowingTerminates(Streaming, order, gaps);
      }
    } else {
      var gaps := DodgingSurvives(Streaming, order);
    }
  }

  lemma FollowsOne(x: CallState, c: CallState)
    ensures Follows([x], c) <==> x == c && c == Forwarding
  {
    assert [x][1..] == [];
  }

  lemma FollowsTwo(x: CallState, y: CallState, c: CallState)
    requires OnTheWay(c)
    ensures Follows([x, y], c) <==>
            (c == DialingOut && x == c && y == Forwarding) || (c == Forwarding && (x == c || y == c))
  {
    assert [x, y][1..] == [y];
    FollowsOne(y, c);
    FollowsOne(y, Next(c));
  }

  /** So of all ways to make three tries, the program's is the only one that will do. */
  lemma OnlyOrderOfThree(order: seq<CallState>)
    requires |order| == 3
    ensures Follows(order, Streaming) <==> order == [Streaming, DialingOut, Forwarding]
  {
    assert order[1..] == [order[1], order[2]];
    FollowsTwo(order[1], order[2], Streaming);
    FollowsTwo(order[1], order[2], DialingOut);
    assert order == [order[0], order[1], order[2]];
  }

  // What the goroutines do, told by the state they find

  /** The words a lookup reports: four reasons have their own, every other one is a completed call; a cell says
      completed only for a call that is over. */
  lemma StatusWords(reason: string, c: CallState)
    ensures StatusFromReason(reason)
            == if reason in {"busy", "no-answer", "canceled", "failed"} then reason else "completed"
    ensures StatusFromCell(c) == "completed" <==> c == HungUp || c == Terminated
    ensures StatusFromCell(c) == "queued" <==> c == Dispatching
    ensures StatusFromCell(c) in {"completed", "queued", "in-progress"}
    ensures IsTerminalStatus(StatusFromReason(reason))
    ensures IsTerminalStatus(StatusFromCell(c)) <==> c == HungUp || c == Terminated
  {
    assert "completed"[0] == 'c' && "queued"[0] == 'q' && "in-progress"[0] == 'i';
    assert "busy"[0] == 'b' && "failed"[0] == 'f' && "no-answer"[0] == 'n' && |"canceled"| == 8;
  }

  /** A lookup is begun once, and its answer stands. */
  lemma {:induction false} LookupStands(run: seq<Label>, id: nat)
    requires id in Exec(run).lookups
    ensures Exec(run + [LookupStart(id)]) == Exec(run)
    ensures Exec(run).lookups[id].Found? || Exec(run).lookups[id].Missed? ==> Exec(run + [LookupStep(id)]) == Exec(run)
  {
    ExecSnoc(Init(), run, LookupStart(id));
    ExecSnoc(Init(), run, LookupStep(id));
  }

  /** A sweep drops the snapshot if and only if the call ended more than five minutes before its reading of
      the clock. */
  lemma {:induction false} SweepIsExact(run: seq<Label>, now: nat)
    requires Exec(run).sweeper == Resting && now <= Exec(run).clock
    ensures var s, t := Exec(run), Exec(run + [SweepStart(now)] + [SweepStep] + [SweepStep]);
            && t.sweeper == Resting && t.call == s.call
            && t.reg == if s.reg.snap.Some? && s.reg.snap.value.endTime.Some?
                           && s.reg.snap.value.endTime.value + 300_000_000_000 < now
                        then s.reg.(snap := None) else s.reg
  {
    ExecSnoc(Init(), run, SweepStart(now));
    ExecSnoc(Init(), run + [SweepStart(now)], SweepStep);
    ExecSnoc(Init(), run + [SweepStart(now)] + [SweepStep], SweepStep);
  }

  /** The owner enters both maps, answers or gives up, marks, reads stamp and end time, stores the snapshot
      and only then leaves the maps. */
  lemma {:induction false} OwnerIsExact(run: seq<Label>)
    ensures var s, t := Exec(run), Exec(run + [Own(Advance)]);
            var o, r := s.reg.owner, s.reg;
            && t.call == s.call
            && (o == Building ==> t.reg == r.(owner := InSessions, inSessions := true))
            && (o == InSessions ==> t.reg == r.(owner := Inviting, inIndex := true))
            && (o.Marking? ==>
                  t.reg == if s.call.once == Done then r.(owner := if o.inRun then CheckEnd else SnapTerminal) else r)
            && (o == CheckEnd ==>
                  t.reg == r.(owner := if s.call.terminal == None then Marking("failed", false) else SnapTerminal))
            && (o == SnapTerminal ==>
                  s.call.terminal.Some? && t.reg == r.(owner := SnapEnd(StatusFromReason(s.call.terminal.value.reason))))
            && (o.SnapEnd? ==>
                  s.call.terminal.Some?
                  && t.reg == r.(owner := SnapStore(Report(o.status, Some(s.call.terminal.value.endTime)))))
            && (o.SnapStore? ==> t.reg == r.(owner := DropSession, snap := Some(o.snap)))
            && (o == DropSession ==> t.reg == r.(owner := DropIndex, inSessions := false))
            && (o == DropIndex ==> t.reg == r.(owner := Gone, inIndex := false))
  {
    ExecInv(run);
    ExecSnoc(Init(), run, Own(Advance));
  }

  /** While inviting the owner may emit, be answered, or give up: with a snapshot to come if anything was
      emitted, silently if not. Running, it marks the call completed or aborts. */
  lemma {:induction false} OwnerDecides(run: seq<Label>)
    ensures var s, o, r := Exec(run), Exec(run).reg.owner, Exec(run).reg;
            && (o == Inviting ==> Exec(run + [Own(Emit)]).call.emitted)
            && (o == Inviting ==> Exec(run + [Own(Answer)]).reg == r.(owner := Running))
            && (o == Inviting ==> Exec(run + [Own(GiveUp)]).reg
                                  == if s.call.emitted then r.(owner := CheckEnd) else r.(owner := DropSession, silent := true))
            && (o == Running ==> Exec(run + [Own(RunEnds)]).reg == r.(owner := Marking("completed", true)))
            && (o == Running ==> Exec(run + [Own(RunAborts)]).reg == r.(owner := CheckEnd))
  {
    ExecSnoc(Init(), run, Own(Emit));
    ExecSnoc(Init(), run, Own(Answer));
    ExecSnoc(Init(), run, Own(GiveUp));
    ExecSnoc(Init(), run, Own(RunEnds));
    ExecSnoc(Init(), run, Own(RunAborts));
  }

  /** The terminate-once: the first claim of someone who marks is stamped with the clock as it is read. */
  lemma {:induction false} OnceIsExact(run: seq<Label>, reason: string, emits: bool)
    ensures var s, c := Exec(run), Exec(run).call;
            && Exec(run + [CallOnce(Claim(reason))]).call
               == (if c.once == Idle && SomeoneMarks(s, reason) then c.(once := Reading(reason)) else c)
            && Exec(run + [CallOnce(ReadClock)]).call
               == (if c.once.Reading? then c.(once := Writing(Stamp(s.clock, c.once.reason))) else c)
            && Exec(run + [CallOnce(StoreStamp)]).call
               == (if c.once.Writing? then c.(once := Emitting, terminal := Some(c.once.stamp)) else c)
            && Exec(run + [CallOnce(EmitTerminal(emits))]).call
               == (if c.once.Emitting? then c.(once := Done, emitted := c.emitted || emits) else c)
  {
    ExecSnoc(Init(), run, CallOnce(Claim(reason)));
    ExecSnoc(Init(), run, CallOnce(ReadClock));
    ExecSnoc(Init(), run, CallOnce(StoreStamp));
    ExecSnoc(Init(), run, CallOnce(EmitTerminal(emits)));
  }

  function CasAll(c: CallState): CallState {
    if c == Streaming || c == DialingOut || c == Forwarding then Terminated else c
  }

  /** A Terminate that starts once the stamp is done, and is not interrupted, leaves the call terminated. */
  lemma {:induction false} TerminateAlone(run: seq<Label>, id: nat, reason: string)
    requires id !in Exec(run).terminators && Exec(run).call.once == Done && Exec(run).reg.owner != Building
    ensures var t := Exec(run + [TerminateStart(id, reason)] + [TerminateStep(id)] + [TerminateStep(id)]
                              + [TerminateStep(id)] + [TerminateStep(id)]);
            id in t.terminators && t.terminators[id] == Returned && t.call == Exec(run).call.(cell := CasAll(Exec(run).call.cell))
  {
    var s := Exec(run);
    var start, step := TerminateStart(id, reason), TerminateStep(id);
    ExecInv(run);
    ExecSnoc(Init(), run, start);
    ExecSnoc(Init(), run + [start], step);
    ExecSnoc(Init(), run + [start] + [step], step);
    ExecSnoc(Init(), run + [start] + [step] + [step], step);
    ExecSnoc(Init(), run + [start] + [step] + [step] + [step], step);
    TerminatorGoes(s, id, MarkFirst(reason), s.call.cell);
    TerminatorGoes(s, id, CasStreaming, s.call.cell);
    var c := if s.call.cell == Streaming then Terminated else s.call.cell;
    TerminatorGoes(s, id, CasDialingOut, c);
    TerminatorGoes(s, id, CasForwarding, if c == DialingOut then Terminated else c);
    assert Terminating(s, id, MarkFirst(reason), s.call.cell).call == s.call;
  }

  function Terminating(s: State, id: nat, pc: Terminator, cell: CallState): State {
    s.(terminators := s.terminators[id := pc], call := s.call.(cell := cell))
  }

  lemma TerminatorGoes(s: State, id: nat, pc: Terminator, cell: CallState)
    requires s.call.once == Done && pc != Returned
    ensures Apply(Terminating(s, id, pc, cell), TerminateStep(id))
         == match pc
            case MarkFirst(_) => Terminating(s, id, CasStreaming, cell)
            case CasStreaming => Terminating(s, id, CasDialingOut, if cell == Streaming then Terminated else cell)
            case CasDialingOut => Terminating(s, id, CasForwarding, if cell == DialingOut then Terminated else cell)
            case CasForwarding => Terminating(s, id, Returned, if cell == Forwarding then Terminated else cell)
  {
    assert s.terminators[id := pc][id := CasStreaming] == s.terminators[id := CasStreaming];
    assert s.terminators[id := pc][id := CasDialingOut] == s.terminators[id := CasDialingOut];
    assert s.terminators[id := pc][id := CasForwarding] == s.terminators[id := CasForwarding];
    assert s.terminators[id := pc][id := Returned] == s.terminators[id := Returned];
  }

  /** CloseStream moves a streaming call on, once; OnAnswered only a call that dials out. */
  lemma {:induction false} StreamAndAnswer(run: seq<Label>)
    ensures var s, c := Exec(run), Exec(run).call;
            && Exec(run + [CloseStream]).call
               == (if s.reg.owner == Building || c.streamClosed then c
                   else c.(streamClosed := true, cell := if c.cell == Streaming then DialingOut else c.cell))
            && Exec(run + [OnAnswered]).call == c.(cell := if c.cell == DialingOut then Forwarding else c.cell)
  {
    ExecSnoc(Init(), run, CloseStream);
    ExecSnoc(Init(), run, OnAnswered);
  }

  /** What a lookup finds that is not interrupted: the call itself while it is in the index, then its snapshot,
      then nothing. */
  lemma {:induction false} LookupAlone(run: seq<Label>, id: nat)
    requires id !in Exec(run).lookups
    ensures var s := Exec(run);
            var t := Exec(run + [LookupStart(id)] + [LookupStep(id)] + [LookupStep(id)] + [LookupStep(id)] + [LookupStep(id)]);
            id in t.lookups &&
            if s.reg.inIndex then
              t.lookups[id] == if s.call.terminal.Some?
                               then Found(Report(StatusFromReason(s.call.terminal.value.reason), Some(s.call.terminal.value.endTime)), true)
                               else Found(Report(StatusFromCell(s.call.cell), None), false)
            else if s.reg.snap.Some? then t.lookups[id] == Found(s.reg.snap.value, true)
            else t.lookups[id].Missed? && t.lookups[id].at == s.clock
  {
    var s := Exec(run);
    var start, step := LookupStart(id), LookupStep(id);
    ExecSnoc(Init(), run, start);
    ExecSnoc(Init(), run + [start], step);
    ExecSnoc(Init(), run + [start] + [step], step);
    ExecSnoc(Init(), run + [start] + [step] + [step], step);
    ExecSnoc(Init(), run + [start] + [step] + [step] + [step], step);
    var registered := s.reg.inIndex || s.reg.owner.Gone?;
    assert Exec(run + [start]) == Looking(s, id, AtIndex(registered));
    var l1 := LookupGoes(s, id, AtIndex(registered));
    var l2 := LookupGoes(s, id, l1);
    var l3 := LookupGoes(s, id, l2);
    var l4 := LookupGoes(s, id, l3);
    assert Exec(run + [start] + [step] + [step] + [step] + [step]) == Looking(s, id, l4);
  }

  function Looking(s: State, id: nat, l: Lookup): State {
    s.(lookups := s.lookups[id := l])
  }

  lemma LookupGoes(s: State, id: nat, l: Lookup) returns (next: Lookup)
    ensures next == if LookupNext(s, l).Some? then LookupNext(s, l).value else l
    ensures Apply(Looking(s, id, l), LookupStep(id)) == Looking(s, id, next)
  {
    next := if LookupNext(s, l).Some? then LookupNext(s, l).value else l;
    assert LookupNext(Looking(s, id, l), l) == LookupNext(s, l);
    assert s.lookups[id := l][id := next] == s.lookups[id := next];
  }

  /** Time passes, and a sweep begins only with a reading of the clock that has been. */
  lemma {:induction false} ClockIsExact(run: seq<Label>, delta: nat, now: nat)
    ensures Exec(run + [Tick(delta)]) == Exec(run).(clock := Exec(run).clock + delta)
    ensures Exec(run + [SweepStart(now)]).sweeper
            == if Exec(run).sweeper == Resting && now <= Exec(run).clock then Scanning(now) else Exec(run).sweeper
  {
    ExecSnoc(Init(), run, Tick(delta));
    ExecSnoc(Init(), run, SweepStart(now));
  }

  /** The first stamp stands: reason and end time never change once stored. */
  lemma FirstStampStands(pre: seq<Label>, post: seq<Label>)
    requires Exec(pre).call.terminal.Some?
    ensures Exec(pre + post).call.terminal == Exec(pre).call.terminal
  {
    ExecInv(pre);
    ExecSplits(Init(), pre, post);
    ExecOnward(Exec(pre), post);
  }

  // ---------------------------------------------------------------------------------------------
  // Main results: lookups

  /** A lookup that starts after registration misses only if the call ended without ever having
      emitted anything, or if the lookup ends more than five minutes after the end time. */
  lemma NoLookupMissesTheCall(run: seq<Label>, id: nat, at: nat)
    requires id in Exec(run).lookups && Exec(run).lookups[id] == Missed(true, at)
    ensures Exec(run).reg.silent || Expired(Exec(run).call, at)
  {
    ExecInv(run);
    assert ReadsTrue(Exec(run).call, Exec(run).reg, Exec(run).lookups[id]);
  }

  /** Lookups that start once the stamp is stored find the stamp or the snapshot. */
  ghost predicate NewcomersSeeStamp(known: set<nat>, s: State) {
    forall i :: i in s.lookups && i !in known ==>
      match s.lookups[i]
      case LiveCell => false
      case LiveEnd(_, stamped) => stamped
      case Found(_, stamped) => stamped
      case _ => true
  }

  lemma NewcomersStep(known: set<nat>, s: State, l: Label)
    requires s.call.terminal.Some? && NewcomersSeeStamp(known, s)
    ensures NewcomersSeeStamp(known, Apply(s, l)) && forall i :: i in s.lookups ==> i in Apply(s, l).lookups
  {
    if l.LookupStart? || l.LookupStep? {
    } else {
      assert Apply(s, l).lookups == s.lookups;
    }
  }

  lemma {:induction false} NewcomersDo(s: State, run: seq<Label>)
    requires Inv(s) && s.call.terminal.Some?
    ensures NewcomersSeeStamp(s.lookups.Keys, ExecFrom(s, run))
    ensures forall i :: i in s.lookups ==> i in ExecFrom(s, run).lookups
  {
    if run != [] {
      var front := run[..|run| - 1];
      NewcomersDo(s, front);
      ExecOnward(s, front);
      NewcomersStep(s.lookups.Keys, ExecFrom(s, front), run[|run| - 1]);
    }
  }

  /** Let a lookup `a` be complete and have reported a terminal status. Every lookup `b` that starts
      later and finds the call reports the final status and the same end time. The two reports are
      equal exactly if `a` had found the stamp when it read the status, or the final status is the
      "completed" that the bare state cell also stands for. */
  lemma LaterReportsAgree(pre: seq<Label>, post: seq<Label>, a: nat, b: nat)
    requires a in Exec(pre).lookups && Exec(pre).lookups[a].Found?
    requires IsTerminalStatus(Exec(pre).lookups[a].report.status)
    requires b !in Exec(pre).lookups
    requires b in Exec(pre + post).lookups && Exec(pre + post).lookups[b].Found?
    ensures Exec(pre).call.terminal.Some?
    ensures var first, second := Exec(pre).lookups[a], Exec(pre + post).lookups[b];
            var stamp := Exec(pre).call.terminal.value;
            && second.report == FinalReport(stamp)
            && first.report.endTime == second.report.endTime
            && (first.report == second.report <==> first.stamped || StatusFromReason(stamp.reason) == "completed")
  {
    ExecInv(pre);
    ExecInv(pre + post);
    ExecSplits(Init(), pre, post);
    assert ReadsTrue(Exec(pre).call, Exec(pre).reg, Exec(pre).lookups[a]);
    ExecOnward(Exec(pre), post);
    NewcomersDo(Exec(pre), post);
    assert ReadsTrue(Exec(pre + post).call, Exec(pre + post).reg, Exec(pre + post).lookups[b]);
  }

  // ---------------------------------------------------------------------------------------------
  // The case the last condition excludes

  /** Once answered, the call starts to dial out, and a lookup begins. */
  const LOOK := [Own(Advance), Own(Advance), Own(Answer), CloseStream, LookupStart(0)]

  /** The lookup finds the session live and reads no stamp; then the dial ends busy. */
  const MARK := [LookupStep(0), LookupStep(0), TerminateStart(1, "busy"), CallOnce(Claim("busy")), CallOnce(ReadClock)]

  /** Terminate stamps the call and reaches the compare-and-swap that hits. */
  const TERMINATE := [CallOnce(StoreStamp), CallOnce(EmitTerminal(false)), TerminateStep(1), TerminateStep(1), TerminateStep(1)]

  /** A second lookup. */
  const LOOK_AGAIN := [Tick(1), LookupStart(2), LookupStep(2), LookupStep(2), LookupStep(2)]

  lemma ExecFive(s: State, run: seq<Label>)
    requires |run| == 5
    ensures ExecFrom(s, run) == Apply(Apply(Apply(Apply(Apply(s, run[0]), run[1]), run[2]), run[3]), run[4])
  {
    forall i | 0 <= i < 5
      ensures ExecFrom(s, run[..i + 1]) == Apply(ExecFrom(s, run[..i]), run[i])
    {
      assert run[..i + 1][..i] == run[..i];
    }
    assert run[..5] == run && run[..0] == [];
    assert ExecFrom(s, run[..0]) == s;
    assert ExecFrom(s, run[..1]) == Apply(s, run[0]);
    assert ExecFrom(s, run[..2]) == Apply(Apply(s, run[0]), run[1]);
    assert ExecFrom(s, run[..3]) == Apply(Apply(Apply(s, run[0]), run[1]), run[2]);
  }

  /** The live call after `terminators` and `lookups` have got so far. */
  function Live(call: Session, terminators: map<nat, Terminator>, lookups: map<nat, Lookup>): State {
    State(0, call, Registry(Running, false, true, true, None), terminators, Resting, lookups)
  }

  const BUSY := Stamp(0, "busy")

  /** A call that dials out, or did until it was terminated as busy. */
  function Dialling(cell: CallState, once: Once): Session {
    Session(cell, if once.Idle? || once.Writing? then None else Some(BUSY), once, true, false)
  }

  lemma Look()
    ensures ExecFrom(Init(), LOOK) == Live(Dialling(DialingOut, Idle), map[], map[0 := AtIndex(true)])
  {
    ExecFive(Init(), LOOK);
  }

  lemma Mark()
    ensures ExecFrom(Live(Dialling(DialingOut, Idle), map[], map[0 := AtIndex(true)]), MARK)
         == Live(Dialling(DialingOut, Writing(BUSY)), map[1 := MarkFirst("busy")], map[0 := LiveCell])
  {
    var s := Live(Dialling(DialingOut, Idle), map[], map[0 := AtIndex(true)]);
    ExecFive(s, MARK);
    var t := Apply(Apply(s, MARK[0]), MARK[1]);
    assert t == Live(Dialling(DialingOut, Idle), map[], map[0 := LiveCell]);
    var u := Apply(t, MARK[2]);
    assert 1 in u.terminators && u.terminators[1] == MarkFirst("busy");
    assert SomeoneMarks(u, "busy");
  }

  lemma StampStored()
    ensures Apply(Apply(Live(Dialling(DialingOut, Writing(BUSY)), map[1 := MarkFirst("busy")], map[0 := LiveCell]),
                        TERMINATE[0]), TERMINATE[1])
         == Live(Dialling(DialingOut, Done), map[1 := MarkFirst("busy")], map[0 := LiveCell])
  {
  }

  lemma TryStep(cell: CallState, from: Terminator, to: Terminator, next: CallState)
    requires TerminatorStep(Live(Dialling(cell, Done), map[1 := from], map[0 := LiveCell]), 1)
          == Some(Live(Dialling(next, Done), map[1 := from][1 := to], map[0 := LiveCell]))
    ensures Apply(Live(Dialling(cell, Done), map[1 := from], map[0 := LiveCell]), TerminateStep(1))
         == Live(Dialling(next, Done), map[1 := to], map[0 := LiveCell])
  {
    assert map[1 := from][1 := to] == map[1 := to];
  }

  lemma TerminateHits()
    ensures ExecFrom(Live(Dialling(DialingOut, Writing(BUSY)), map[1 := MarkFirst("busy")], map[0 := LiveCell]), TERMINATE)
         == Live(Dialling(Terminated, Done), map[1 := CasForwarding], map[0 := LiveCell])
  {
    ExecFive(Live(Dialling(DialingOut, Writing(BUSY)), map[1 := MarkFirst("busy")], map[0 := LiveCell]), TERMINATE);
    StampStored();
    TryStep(DialingOut, MarkFirst("busy"), CasStreaming, DialingOut);
    TryStep(DialingOut, CasStreaming, CasDialingOut, DialingOut);
    TryStep(DialingOut, CasDialingOut, CasForwarding, Terminated);
  }

  /** The first lookup goes on to read the terminated cell, and then the end time. */
  lemma ReadCell()
    ensures var s := Live(Dialling(Terminated, Done), map[1 := CasForwarding], map[0 := LiveCell]);
            Apply(Apply(s, LookupStep(0)), LookupStep(0))
            == Live(Dialling(Terminated, Done), map[1 := CasForwarding], map[0 := Found(Report("completed", Some(0)), false)])
  {
    var s := Live(Dialling(Terminated, Done), map[1 := CasForwarding], map[0 := LiveCell]);
    assert Apply(s, LookupStep(0))
        == Live(Dialling(Terminated, Done), map[1 := CasForwarding], map[0 := LiveEnd("completed", false)]);
  }

  lemma LookAgain(l: Lookup)
    ensures var t := ExecFrom(Live(Dialling(Terminated, Done), map[1 := CasForwarding], map[0 := l]), LOOK_AGAIN);
            2 in t.lookups && t.lookups[2] == Found(Report("busy", Some(0)), true)
  {
    ExecFive(Live(Dialling(Terminated, Done), map[1 := CasForwarding], map[0 := l]), LOOK_AGAIN);
  }

  /** Status reads the stamp and the cell separately, so a lookup can report a call that ends busy while
      dialling out as completed, with its end time, while the next lookup reports it as busy. */
  lemma TornReport()
    ensures var pre := LOOK + MARK + TERMINATE + [LookupStep(0)] + [LookupStep(0)];
            && Exec(pre).lookups == map[0 := Found(Report("completed", Some(0)), false)]
            && 2 in Exec(pre + LOOK_AGAIN).lookups
            && Exec(pre + LOOK_AGAIN).lookups[2] == Found(Report("busy", Some(0)), true)
  {
    var done := LOOK + MARK + TERMINATE;
    ExecSplits(Init(), LOOK, MARK);
    ExecSplits(Init(), LOOK + MARK, TERMINATE);
    ExecSnoc(Init(), done, LookupStep(0));
    ExecSnoc(Init(), done + [LookupStep(0)], LookupStep(0));
    ExecSplits(Init(), done + [LookupStep(0)] + [LookupStep(0)], LOOK_AGAIN);
    Look();
    Mark();
    TerminateHits();
    ReadCell();
    LookAgain(Found(Report("completed", Some(0)), false));
  }

  // ---------------------------------------------------------------------------------------------
  // The methods, each run without interruption

  class CallSession {
    const state: AtomicState
    var terminal: Option<Stamp>
    var terminateOnce: bool
    var closeStreamOnce: bool

    ghost predicate Valid()
      reads this, state
    {
      && (terminateOnce <==> terminal.Some?)
      && (state.v == Streaming || state.v == DialingOut || state.v == Forwarding || state.v == Terminated)
      && (state.v == Terminated ==> terminateOnce)
    }

    constructor ()
      ensures Valid() && fresh(state) && state.v == Streaming && terminal == None && !closeStreamOnce
    {
      state := new AtomicState();
      terminal, terminateOnce, closeStreamOnce := None, false, false;
      new;
      state.Store(Streaming);
    }

    /** The first reason and time stand. */
    method MarkTerminated(reason: string, now: nat)
      requires Valid()
      modifies `terminal, `terminateOnce
      ensures Valid() && terminal == if old(terminal).Some? then old(terminal) else Some(Stamp(now, reason))
    {
      if !terminateOnce {
        terminateOnce := true;
        terminal := Some(Stamp(now, reason));
      }
    }

    /** Terminate up to the BYEs. */
    method Terminate(reason: string, now: nat)
      requires Valid()
      modifies `terminal, `terminateOnce, state
      ensures Valid() && state.v == Terminated
      ensures terminal == if old(terminal).Some? then old(terminal) else Some(Stamp(now, reason))
    {
      MarkTerminated(reason, now);
      var _ := state.CompareAndSwap(Streaming, Terminated);
      var _ := state.CompareAndSwap(DialingOut, Terminated);
      var _ := state.CompareAndSwap(Forwarding, Terminated);
    }

    /** The state transition of CloseStream. */
    method CloseStream()
      requires Valid()
      modifies `closeStreamOnce, state
      ensures Valid() && closeStreamOnce
      ensures state.v == if old(closeStreamOnce) then old(state.v) else Cas(old(state.v), Streaming, DialingOut)
    {
      if !closeStreamOnce {
        closeStreamOnce := true;
        var _ := state.CompareAndSwap(Streaming, DialingOut);
      }
    }

    /** The state transition of OnAnswered. */
    method OnAnswered()
      requires Valid()
      modifies state
      ensures Valid() && state.v == Cas(old(state.v), DialingOut, Forwarding)
    {
      var _ := state.CompareAndSwap(DialingOut, Forwarding);
    }

    /** Status and EndTime, read together: without interleaving a terminal status always comes with the
        stamp it stands for. */
    method ReadReport() returns (report: Report)
      requires Valid()
      ensures IsTerminalStatus(report.status) <==> terminal.Some?
      ensures terminal.Some? ==> report == FinalReport(terminal.value)
    {
      var status: string;
      if terminal.Some? {
        status := StatusFromReason(terminal.value.reason);
      } else {
        var c := state.Load();
        status := StatusFromCell(c);
      }
      report := Report(status, if terminal.Some? then Some(terminal.value.endTime) else None);
    }
  }
}
