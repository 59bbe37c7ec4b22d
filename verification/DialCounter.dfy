/** The lock-free per-session dial limit of go/internal/sip/guardrails.go: any number of concurrent
    CheckDial calls, each add, rollback and map operation being one step.

    A counter is an int32 on the heap; `table` is the perSession map from CallSid to counter.
    OnSessionEnd drops the entry, while calls in flight keep the counter they hold. */
module DialCounter {

  import opened Collections

  type Sid = nat
  type Cell = nat
  type Call = nat

  /** Where a CheckDial call is. `Overshot` and `Refused` still have their rollback ahead. */
  datatype Pc =
    | Started
    | Missed
    | Holds(c: Cell)
    | Overshot(c: Cell)
    | Reserved(c: Cell)
    | Refused(c: Cell)
    | Accepted(c: Cell)
    | Rejected

  datatype Thread = Thread(sid: Sid, pc: Pc)

  datatype State = State(
    max: int,
    cells: map<Cell, int>,
    table: map<Sid, Cell>,
    threads: map<Call, Thread>,
    ended: set<Sid>)

  datatype Label =
    | Start(t: Call, sid: Sid)
    | LoadCounter(t: Call)
    | LoadOrStore(t: Call)
    | AddOne(t: Call)
    | AskGlobal(t: Call, ok: bool)
    | Rollback(t: Call)
    | SessionEnd(sid: Sid)

  function Init(max: int): State {
    State(max, map[], map[], map[], {})
  }

  function Move(s: State, t: Call, pc: Pc): State
    requires t in s.threads
  {
    s.(threads := s.threads[t := Thread(s.threads[t].sid, pc)])
  }

  function Add(s: State, c: Cell, n: int): State
    requires c in s.cells
  {
    s.(cells := s.cells[c := s.cells[c] + n])
  }

  function Step(s: State, l: Label): Option<State> {
    match l
    case Start(t, sid) =>
      if t in s.threads then None else Some(s.(threads := s.threads[t := Thread(sid, Started)]))
    case LoadCounter(t) =>
      if t !in s.threads || s.threads[t].pc != Started then None
      else
        var sid := s.threads[t].sid;
        Some(Move(s, t, if sid in s.table then Holds(s.table[sid]) else Missed))
    case LoadOrStore(t) =>
      if t !in s.threads || s.threads[t].pc != Missed then None
      else
        var sid := s.threads[t].sid;
        if sid in s.table then Some(Move(s, t, Holds(s.table[sid])))
        else
          var c := |s.cells|;
          Some(Move(s.(cells := s.cells[c := 0], table := s.table[sid := c]), t, Holds(c)))
    case AddOne(t) =>
      if t !in s.threads || !s.threads[t].pc.Holds? || s.threads[t].pc.c !in s.cells then None
      else
        var c := s.threads[t].pc.c;
        var added := Add(s, c, 1);
        Some(Move(added, t, if added.cells[c] > s.max then Overshot(c) else Reserved(c)))
    case AskGlobal(t, ok) =>
      if t !in s.threads || !s.threads[t].pc.Reserved? then None
      else
        var c := s.threads[t].pc.c;
        Some(Move(s, t, if ok then Accepted(c) else Refused(c)))
    case Rollback(t) =>
      if t !in s.threads || !(s.threads[t].pc.Overshot? || s.threads[t].pc.Refused?) ||
         s.threads[t].pc.c !in s.cells then None
      else Some(Move(Add(s, s.threads[t].pc.c, -1), t, Rejected))
    case SessionEnd(sid) =>
      Some(s.(table := map k | k in s.table && k != sid :: s.table[k], ended := s.ended + {sid}))
  }

  function Apply(s: State, l: Label): State {
    var t := Step(s, l);
    if t.Some? then t.value else s
  }

  function Exec(max: int, labels: seq<Label>): State {
    if labels == [] then Init(max) else Apply(Exec(max, labels[..|labels| - 1]), labels[|labels| - 1])
  }

  // ---------------------------------------------------------------------------------------------
  // Counting calls

  /** The call holds a counter. */
  predicate Bound(pc: Pc) {
    !pc.Started? && !pc.Missed? && !pc.Rejected?
  }

  /** The call has added one to the counter and not taken it back. */
  predicate Counts(pc: Pc, c: Cell) {
    Bound(pc) && pc.c == c && !pc.Holds?
  }

  /** The call has its dial, or will have it unless the global limit refuses. */
  predicate Claims(pc: Pc, c: Cell) {
    Bound(pc) && pc.c == c && (pc.Accepted? || pc.Reserved?)
  }

  function Counted(threads: map<Call, Thread>, c: Cell): set<Call> {
    set t | t in threads && Counts(threads[t].pc, c)
  }

  function Claimed(threads: map<Call, Thread>, c: Cell): set<Call> {
    set t | t in threads && Claims(threads[t].pc, c)
  }

  function AcceptedOn(threads: map<Call, Thread>, c: Cell): set<Call> {
    set t | t in threads && threads[t].pc == Accepted(c)
  }

  function AcceptedFor(threads: map<Call, Thread>, sid: Sid): set<Call> {
    set t | t in threads && threads[t].sid == sid && threads[t].pc.Accepted?
  }

  function Limit(max: int): nat {
    if max < 0 then 0 else max
  }

  lemma CountedAfter(threads: map<Call, Thread>, t: Call, x: Thread, c: Cell)
    ensures Counted(threads[t := x], c) ==
            if Counts(x.pc, c) then Counted(threads, c) + {t} else Counted(threads, c) - {t}
    ensures Claimed(threads[t := x], c) ==
            if Claims(x.pc, c) then Claimed(threads, c) + {t} else Claimed(threads, c) - {t}
  {
  }

  ghost predicate CellsExact(s: State) {
    && (forall c :: c in s.cells ==> s.cells[c] == |Counted(s.threads, c)|)
    && (forall c :: |Claimed(s.threads, c)| <= Limit(s.max))
  }

  ghost predicate Linked(s: State) {
    && (forall c: Cell :: c in s.cells <==> c < |s.cells|)
    && (forall sid :: sid in s.table ==> s.table[sid] in s.cells)
    && (forall t :: t in s.threads && Bound(s.threads[t].pc) ==>
          var th := s.threads[t];
          th.pc.c in s.cells && (th.sid !in s.ended ==> th.sid in s.table && s.table[th.sid] == th.pc.c))
  }

  /** A call may hold a counter that exists, and while its session has not ended, the session's own. */
  predicate MayHold(s: State, sid: Sid, pc: Pc) {
    Bound(pc) ==> pc.c in s.cells && (sid !in s.ended ==> sid in s.table && s.table[sid] == pc.c)
  }

  lemma MoveKeepsLinked(s: State, t: Call, pc: Pc)
    requires Linked(s) && t in s.threads && MayHold(s, s.threads[t].sid, pc)
    ensures Linked(Move(s, t, pc))
  {
  }

  lemma AddKeepsLinked(s: State, c: Cell, n: int)
    requires Linked(s) && c in s.cells
    ensures Linked(Add(s, c, n))
  {
    MapKeepsSize(s.cells, c, s.cells[c] + n);
  }

  lemma NewCellKeepsLinked(s: State, sid: Sid)
    requires Linked(s) && sid !in s.table
    ensures Linked(s.(cells := s.cells[|s.cells| := 0], table := s.table[sid := |s.cells|]))
  {
    MapGrows(s.cells, |s.cells|, 0);
    var u := s.(cells := s.cells[|s.cells| := 0], table := s.table[sid := |s.cells|]);
    assert |u.cells| == |s.cells| + 1;
  }

  lemma EndKeepsLinked(s: State, sid: Sid)
    requires Linked(s)
    ensures Linked(Step(s, SessionEnd(sid)).value)
  {
  }

  lemma StepKeepsLinked(s: State, l: Label)
    requires Linked(s) && Step(s, l).Some?
    ensures Linked(Step(s, l).value) && Step(s, l).value.max == s.max
  {
    match l
    case Start(t, sid) =>
    case LoadCounter(t) =>
      var sid := s.threads[t].sid;
      MoveKeepsLinked(s, t, if sid in s.table then Holds(s.table[sid]) else Missed);
    case LoadOrStore(t) =>
      var sid := s.threads[t].sid;
      if sid in s.table {
        MoveKeepsLinked(s, t, Holds(s.table[sid]));
      } else {
        var c := |s.cells|;
        NewCellKeepsLinked(s, sid);
        MoveKeepsLinked(s.(cells := s.cells[c := 0], table := s.table[sid := c]), t, Holds(c));
      }
    case AddOne(t) =>
      var c := s.threads[t].pc.c;
      AddKeepsLinked(s, c, 1);
      MoveKeepsLinked(Add(s, c, 1), t, if Add(s, c, 1).cells[c] > s.max then Overshot(c) else Reserved(c));
    case AskGlobal(t, ok) =>
      var c := s.threads[t].pc.c;
      MoveKeepsLinked(s, t, if ok then Accepted(c) else Refused(c));
    case Rollback(t) =>
      AddKeepsLinked(s, s.threads[t].pc.c, -1);
      MoveKeepsLinked(Add(s, s.threads[t].pc.c, -1), t, Rejected);
    case SessionEnd(sid) => EndKeepsLinked(s, sid);
  }

  lemma MoveCounts(s: State, t: Call, x: Thread, d: Cell)
    requires Counts(x.pc, d) <==> t in s.threads && Counts(s.threads[t].pc, d)
    requires Claims(x.pc, d) ==> t in s.threads && Claims(s.threads[t].pc, d)
    ensures Counted(s.threads[t := x], d) == Counted(s.threads, d)
    ensures |Claimed(s.threads[t := x], d)| <= |Claimed(s.threads, d)|
  {
    CountedAfter(s.threads, t, x, d);
    assert Counts(x.pc, d) <==> t in Counted(s.threads, d);
    assert Claims(x.pc, d) ==> t in Claimed(s.threads, d);
    SubsetSize(Claimed(s.threads[t := x], d), Claimed(s.threads, d));
  }

  /** A call that moves between places that count alike leaves every counter as it was. */
  lemma MoveKeepsExact(s: State, t: Call, x: Thread)
    requires CellsExact(s)
    requires forall c :: Counts(x.pc, c) <==> t in s.threads && Counts(s.threads[t].pc, c)
    requires forall c :: Claims(x.pc, c) ==> t in s.threads && Claims(s.threads[t].pc, c)
    ensures CellsExact(s.(threads := s.threads[t := x]))
  {
    var u := s.(threads := s.threads[t := x]);
    forall d
      ensures Counted(u.threads, d) == Counted(s.threads, d) && |Claimed(u.threads, d)| <= Limit(s.max)
    {
      MoveCounts(s, t, x, d);
    }
  }

  lemma AddCountsOnce(s: State, t: Call, d: Cell)
    requires CellsExact(s) && t in s.threads && s.threads[t].pc.Holds? && s.threads[t].pc.c in s.cells
    ensures var u := Step(s, AddOne(t)).value;
            |Counted(u.threads, d)| == |Counted(s.threads, d)| + (if d == s.threads[t].pc.c then 1 else 0) &&
            |Claimed(u.threads, d)| <= Limit(s.max)
  {
    var c, u := s.threads[t].pc.c, Step(s, AddOne(t)).value;
    CountedAfter(s.threads, t, u.threads[t], d);
    assert t !in Counted(s.threads, d) && t !in Claimed(s.threads, d);
    if d == c && u.threads[t].pc == Reserved(c) {
      SubsetSize(Claimed(s.threads, c), Counted(s.threads, c));
    } else {
      assert !Claims(u.threads[t].pc, d);
    }
  }

  lemma AddKeepsExact(s: State, t: Call)
    requires CellsExact(s) && Step(s, AddOne(t)).Some?
    ensures CellsExact(Step(s, AddOne(t)).value)
  {
    forall d
      ensures var u := Step(s, AddOne(t)).value;
              |Counted(u.threads, d)| == |Counted(s.threads, d)| + (if d == s.threads[t].pc.c then 1 else 0) &&
              |Claimed(u.threads, d)| <= Limit(s.max)
    {
      AddCountsOnce(s, t, d);
    }
  }

  lemma RollbackCountsOnce(s: State, t: Call, d: Cell)
    requires t in s.threads && (s.threads[t].pc.Overshot? || s.threads[t].pc.Refused?)
    ensures var c, threads := s.threads[t].pc.c, s.threads[t := Thread(s.threads[t].sid, Rejected)];
            |Counted(threads, d)| == |Counted(s.threads, d)| - (if d == c then 1 else 0) &&
            Claimed(threads, d) == Claimed(s.threads, d)
  {
    var c := s.threads[t].pc.c;
    CountedAfter(s.threads, t, Thread(s.threads[t].sid, Rejected), d);
    assert t in Counted(s.threads, d) <==> d == c;
    assert t !in Claimed(s.threads, d);
  }

  lemma RollbackKeepsExact(s: State, t: Call)
    requires CellsExact(s) && Linked(s) && Step(s, Rollback(t)).Some?
    ensures CellsExact(Step(s, Rollback(t)).value)
  {
    var u := Step(s, Rollback(t)).value;
    forall d
      ensures d in u.cells ==> u.cells[d] == |Counted(u.threads, d)|
      ensures |Claimed(u.threads, d)| <= Limit(s.max)
    {
      RollbackCountsOnce(s, t, d);
    }
  }

  lemma StoreKeepsExact(s: State, t: Call)
    requires CellsExact(s) && Linked(s) && Step(s, LoadOrStore(t)).Some?
    ensures CellsExact(Step(s, LoadOrStore(t)).value)
  {
    var u := Step(s, LoadOrStore(t)).value;
    MoveKeepsExact(s, t, u.threads[t]);
    var c := |s.cells|;
    assert Counted(u.threads, c) == {} by {
      assert c !in s.cells;
    }
  }

  lemma StepKeepsExact(s: State, l: Label)
    requires CellsExact(s) && Linked(s) && Step(s, l).Some?
    ensures CellsExact(Step(s, l).value)
  {
    match l
    case AddOne(t) => AddKeepsExact(s, t);
    case Rollback(t) => RollbackKeepsExact(s, t);
    case LoadOrStore(t) => StoreKeepsExact(s, t);
    case SessionEnd(sid) =>
    case Start(t, sid) => MoveKeepsExact(s, t, Thread(sid, Started));
    case LoadCounter(t) => MoveKeepsExact(s, t, Step(s, l).value.threads[t]);
    case AskGlobal(t, ok) => MoveKeepsExact(s, t, Step(s, l).value.threads[t]);
  }

  lemma {:induction false} ExecInv(max: int, labels: seq<Label>)
    ensures Linked(Exec(max, labels)) && CellsExact(Exec(max, labels)) && Exec(max, labels).max == max
  {
    if labels != [] {
      var s, l := Exec(max, labels[..|labels| - 1]), labels[|labels| - 1];
      ExecInv(max, labels[..|labels| - 1]);
      if Step(s, l).Some? {
        StepKeepsLinked(s, l);
        StepKeepsExact(s, l);
      }
    } else {
      assert forall c :: Claimed(map[], c) == {};
    }
  }

  // ---------------------------------------------------------------------------------------------
  // Main results

  /** A counter always equals the dials accepted on it, plus those awaiting the global check, plus
      those whose rollback is still to come. */
  lemma {:induction false} CounterIsExact(max: int, labels: seq<Label>, c: Cell)
    requires c in Exec(max, labels).cells
    ensures var s := Exec(max, labels);
            s.cells[c] == |set t | t in s.threads && (s.threads[t].pc == Accepted(c) || s.threads[t].pc == Reserved(c) ||
                                                    s.threads[t].pc == Overshot(c) || s.threads[t].pc == Refused(c))|
  {
    ExecInv(max, labels);
    var s := Exec(max, labels);
    assert Counted(s.threads, c) ==
           set t | t in s.threads && (s.threads[t].pc == Accepted(c) || s.threads[t].pc == Reserved(c) ||
                                      s.threads[t].pc == Overshot(c) || s.threads[t].pc == Refused(c));
  }

  /** At most maxPerSession dials are accepted on one counter. */
  lemma AcceptedPerCounter(max: int, labels: seq<Label>, c: Cell)
    ensures |AcceptedOn(Exec(max, labels).threads, c)| <= if max < 0 then 0 else max
  {
    ExecInv(max, labels);
    SubsetSize(AcceptedOn(Exec(max, labels).threads, c), Claimed(Exec(max, labels).threads, c));
  }

  /** At most maxPerSession dials are accepted for a CallSid while its session has not ended. */
  lemma AcceptedPerSession(max: int, labels: seq<Label>, sid: Sid)
    requires sid !in Exec(max, labels).ended
    ensures |AcceptedFor(Exec(max, labels).threads, sid)| <= if max < 0 then 0 else max
  {
    ExecInv(max, labels);
    var s := Exec(max, labels);
    if t :| t in AcceptedFor(s.threads, sid) {
      var c := s.threads[t].pc.c;
      forall u | u in AcceptedFor(s.threads, sid)
        ensures u in AcceptedOn(s.threads, c)
      {
        assert Bound(s.threads[u].pc) && Bound(s.threads[t].pc);
      }
      SubsetSize(AcceptedFor(s.threads, sid), AcceptedOn(s.threads, c));
      AcceptedPerCounter(max, labels, c);
    } else {
      assert AcceptedFor(s.threads, sid) == {};
    }
  }

  /** With no call in flight on it, a counter is exactly the number of dials accepted on it. */
  lemma {:induction false} QuiescentCounter(max: int, labels: seq<Label>, c: Cell)
    requires c in Exec(max, labels).cells
    requires forall t :: t in Exec(max, labels).threads ==>
               var pc := Exec(max, labels).threads[t].pc;
               pc != Reserved(c) && pc != Overshot(c) && pc != Refused(c)
    ensures Exec(max, labels).cells[c] == |AcceptedOn(Exec(max, labels).threads, c)|
  {
    ExecInv(max, labels);
    assert Counted(Exec(max, labels).threads, c) == AcceptedOn(Exec(max, labels).threads, c);
  }

  /** A call is only turned away by the session limit when as many calls as the limit allows are
      ahead of it: accepted, awaiting the global check, or not yet rolled back. */
  lemma OvershootHasCause(max: int, labels: seq<Label>, t: Call)
    requires Step(Exec(max, labels), AddOne(t)).Some?
    ensures var s := Exec(max, labels);
            Step(s, AddOne(t)).value.threads[t].pc.Overshot? <==> |Counted(s.threads, s.threads[t].pc.c)| >= max
  {
    ExecInv(max, labels);
  }

  // ---------------------------------------------------------------------------------------------
  // A call that runs alone

  /** CheckAndIncrement from its beginning to its return, whatever the global limit says. */
  function WholeCall(t: Call, sid: Sid, ok: bool): seq<Label> {
    [Start(t, sid), LoadCounter(t), LoadOrStore(t)] + [AddOne(t), AskGlobal(t, ok), Rollback(t)]
  }

  /** The dials counted for the session. */
  function CountOf(s: State, sid: Sid): int {
    if sid in s.table && s.table[sid] in s.cells then s.cells[s.table[sid]] else 0
  }

  lemma {:induction false} ExecSnoc(max: int, labels: seq<Label>, l: Label)
    ensures Exec(max, labels + [l]) == Apply(Exec(max, labels), l)
  {
    assert (labels + [l])[..|labels|] == labels;
  }

  lemma {:induction false} ExecThree(max: int, labels: seq<Label>, a: Label, b: Label, c: Label)
    ensures Exec(max, labels + [a, b, c]) == Apply(Apply(Apply(Exec(max, labels), a), b), c)
  {
    ExecSnoc(max, labels, a);
    ExecSnoc(max, labels + [a], b);
    ExecSnoc(max, labels + [a] + [b], c);
    assert labels + [a, b, c] == labels + [a] + [b] + [c];
  }

  /** The counter is found or made, and the call holds it. */
  lemma CounterIsHeld(s: State, t: Call, sid: Sid)
    requires Linked(s) && t !in s.threads
    ensures var u := Apply(Apply(Apply(s, Start(t, sid)), LoadCounter(t)), LoadOrStore(t));
            && u.max == s.max && t in u.threads && u.threads[t].sid == sid && u.threads[t].pc.Holds?
            && sid in u.table && u.table[sid] == u.threads[t].pc.c && u.threads[t].pc.c in u.cells
            && CountOf(u, sid) == CountOf(s, sid)
            && (forall other :: other != sid ==> CountOf(u, other) == CountOf(s, other))
  {
  }

  lemma CallEnds(s: State, t: Call, sid: Sid, ok: bool)
    requires t in s.threads && s.threads[t].sid == sid && s.threads[t].pc.Holds?
    requires sid in s.table && s.table[sid] == s.threads[t].pc.c && s.threads[t].pc.c in s.cells
    ensures var u := Apply(Apply(Apply(s, AddOne(t)), AskGlobal(t, ok)), Rollback(t));
            var accepted := CountOf(s, sid) < s.max && ok;
            && t in u.threads && u.threads[t].pc == (if accepted then Accepted(s.table[sid]) else Rejected)
            && CountOf(u, sid) == CountOf(s, sid) + (if accepted then 1 else 0)
  {
  }

  /** Behind any run, a dial that meets no other is accepted if and only if its session has fewer dials than
      the limit and the global limit agrees; only then the session has one more. */
  lemma {:induction false} LoneCallIsDecided(max: int, labels: seq<Label>, t: Call, sid: Sid, ok: bool)
    requires t !in Exec(max, labels).threads
    ensures var s, u := Exec(max, labels), Exec(max, labels + WholeCall(t, sid, ok));
            var accepted := CountOf(s, sid) < max && ok;
            && t in u.threads && (if accepted then u.threads[t].pc.Accepted? else u.threads[t].pc == Rejected)
            && CountOf(u, sid) == CountOf(s, sid) + (if accepted then 1 else 0)
  {
    ExecInv(max, labels);
    var held := labels + [Start(t, sid), LoadCounter(t), LoadOrStore(t)];
    ExecThree(max, labels, Start(t, sid), LoadCounter(t), LoadOrStore(t));
    CounterIsHeld(Exec(max, labels), t, sid);
    ExecThree(max, held, AddOne(t), AskGlobal(t, ok), Rollback(t));
    CallEnds(Exec(max, held), t, sid, ok);
    assert held + [AddOne(t), AskGlobal(t, ok), Rollback(t)] == labels + WholeCall(t, sid, ok);
  }

  /** A session that ends leaves no count behind, and no other session's count is touched. */
  lemma {:induction false} EndForgetsTheCount(max: int, labels: seq<Label>, sid: Sid, other: Sid)
    ensures CountOf(Exec(max, labels + [SessionEnd(sid)]), other)
         == if other == sid then 0 else CountOf(Exec(max, labels), other)
  {
    assert (labels + [SessionEnd(sid)])[..|labels|] == labels;
  }
}
