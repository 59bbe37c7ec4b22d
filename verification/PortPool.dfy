/** RTP port ownership: the channel-backed pool (go/internal/bridge/manager.go) and the paths of
    onInvite, the session goroutine and <Dial> that acquire and release from it
    (go/internal/sip/handler.go, go/internal/api/midcall_adapter.go, go/internal/twiml/verb_dial.go),
    in any number and any interleaving. */
module PortPool {

  import opened Collections

  // ---------------------------------------------------------------------------------------------
  // The pool

  /** The ports [min, max) in the order they are loaded. */
  function Range(min: int, max: int): (s: seq<int>)
    requires min <= max
    ensures |s| == max - min
    ensures forall i :: 0 <= i < |s| ==> s[i] == min + i
    decreases max - min
  {
    if min == max then [] else Range(min, max - 1) + [max - 1]
  }

  /** The channel after a send that is dropped when the buffer is full. */
  function Put(free: seq<int>, capacity: nat, port: int): seq<int> {
    if |free| < capacity then free + [port] else free
  }

  class Pool {
    var ports: seq<int>
    const capacity: nat

    ghost predicate Valid()
      reads this
    {
      |ports| <= capacity
    }

    constructor (min: int, max: int)
      requires min < max
      ensures Valid() && capacity == max - min && ports == Range(min, max)
    {
      capacity := max - min;
      ports := [];
      new;
      for p := min to max
        invariant ports == Range(min, p)
      {
        ports := ports + [p];
      }
    }

    method Acquire() returns (port: Option<int>)
      requires Valid()
      modifies `ports
      ensures Valid()
      ensures old(ports) == [] ==> port == None && ports == []
      ensures old(ports) != [] ==> port.Some? && old(ports) == [port.value] + ports
    {
      if ports == [] {
        port := None;
      } else {
        port := Some(ports[0]);
        ports := ports[1..];
      }
    }

    method Release(port: int)
      requires Valid()
      modifies `ports
      ensures Valid() && ports == Put(old(ports), capacity, port)
      ensures ports == if |old(ports)| < capacity then old(ports) + [port] else old(ports)
    {
      if |ports| < capacity {
        ports := ports + [port];
      }
    }
  }

  /** NewPortPool: an empty or inverted range is refused. */
  method NewPortPool(min: int, max: int) returns (pool: Pool?)
    ensures pool == null <==> min >= max
    ensures pool != null ==>
      fresh(pool) && pool.Valid() && pool.capacity == max - min && pool.ports == Range(min, max)
    ensures pool != null ==> |pool.ports| == max - min && forall i :: 0 <= i < max - min ==> pool.ports[i] == min + i
  {
    if min >= max {
      pool := null;
    } else {
      pool := new Pool(min, max);
    }
  }

  // ---------------------------------------------------------------------------------------------
  // The paths

  /** One onInvite and, after it answers, the session goroutine it starts. */
  datatype Path =
    | Entered
    | DialogRead
    | OfferParsed
    | Ringing(port: int)
    | Fetched(port: int)
    | Parsed(port: int)
    | Routed(port: int)
    | Rejecting(port: int)
    | InSession(port: int)
    | Preparing
    | StreamClosed
    | Prepared(port: int)
    | Performed(port: int)
    | Ended

  predicate Holds(p: Path) {
    p.Ringing? || p.Fetched? || p.Parsed? || p.Routed? || p.Rejecting? || p.InSession? || p.Prepared? || p.Performed?
  }

  datatype State = State(free: seq<int>, capacity: nat, dropped: nat, paths: map<nat, Path>)

  function Init(min: int, max: int): State
    requires min < max
  {
    State(Range(min, max), max - min, 0, map[])
  }

  /** What the operation at a path's current point came back with. `Skip` is a missing voice client. */
  datatype Outcome = Ok | Fail | Skip

  datatype Label = Invite(id: nat) | Dial(id: nat) | Go(id: nat, outcome: Outcome)

  function With(s: State, id: nat, p: Path): State {
    s.(paths := s.paths[id := p])
  }

  /** The path acquires a port, or takes its exhausted branch. */
  function AcquireThen(s: State, id: nat, next: int -> Path): State {
    if s.free == [] then With(s, id, Ended)
    else With(s, id, next(s.free[0])).(free := s.free[1..])
  }

  function ReleaseThen(s: State, id: nat, port: int): State {
    With(s, id, Ended).(
      free := Put(s.free, s.capacity, port),
      dropped := if |s.free| < s.capacity then s.dropped else s.dropped + 1)
  }

  function Step(s: State, id: nat, outcome: Outcome): State
    requires id in s.paths
  {
    match s.paths[id]
    case Entered => With(s, id, if outcome.Fail? then Ended else DialogRead)
    case DialogRead => With(s, id, if outcome.Fail? then Ended else OfferParsed)
    case OfferParsed => AcquireThen(s, id, port => Ringing(port))
    case Ringing(port) =>
      With(s, id, match outcome case Ok => Fetched(port) case Fail => Rejecting(port) case Skip => Routed(port))
    case Fetched(port) => With(s, id, if outcome.Fail? then Rejecting(port) else Parsed(port))
    case Parsed(port) => With(s, id, if outcome.Fail? then Rejecting(port) else Routed(port))
    case Routed(port) => With(s, id, if outcome.Fail? then Rejecting(port) else InSession(port))
    case Rejecting(port) => ReleaseThen(s, id, port)
    case InSession(port) => ReleaseThen(s, id, port)
    case Preparing => With(s, id, if outcome.Fail? then Ended else StreamClosed)
    case StreamClosed => AcquireThen(s, id, port => Prepared(port))
    case Prepared(port) => With(s, id, Performed(port))
    case Performed(port) => ReleaseThen(s, id, port)
    case Ended => s
  }

  function Apply(s: State, l: Label): State {
    match l
    case Invite(id) => if id in s.paths then s else With(s, id, Entered)
    case Dial(id) => if id in s.paths then s else With(s, id, Preparing)
    case Go(id, outcome) => if id in s.paths then Step(s, id, outcome) else s
  }

  function Exec(min: int, max: int, run: seq<Label>): State
    requires min < max
  {
    if run == [] then Init(min, max) else Apply(Exec(min, max, run[..|run| - 1]), run[|run| - 1])
  }

  // ---------------------------------------------------------------------------------------------
  // The invariant

  ghost predicate HeldBy(s: State, id: nat, port: int) {
    id in s.paths && Holds(s.paths[id]) && s.paths[id].port == port
  }

  /** Every port of the range is in exactly one place: once in the pool, or with one path. */
  ghost predicate Partition(s: State, min: int, max: int) {
    Apart(s, min, max) && Covered(s, min, max)
  }

  ghost predicate Apart(s: State, min: int, max: int) {
    && Distinct(s.free)
    && (forall p :: p in s.free ==> min <= p < max)
    && (forall id :: id in s.paths && Holds(s.paths[id]) ==>
          min <= s.paths[id].port < max && s.paths[id].port !in s.free)
    && (forall id, other ::
          (id in s.paths && other in s.paths && Holds(s.paths[id]) && Holds(s.paths[other])
           && s.paths[id].port == s.paths[other].port) ==> id == other)
  }

  ghost predicate Covered(s: State, min: int, max: int) {
    forall p :: min <= p < max && p !in s.free ==> exists id :: HeldBy(s, id, p)
  }

  ghost function Elements(s: seq<int>): set<int> {
    set x | x in s
  }

  lemma {:induction false} DistinctSize(s: seq<int>)
    requires Distinct(s)
    ensures |Elements(s)| == |s|
  {
    if s != [] {
      var n := |s| - 1;
      DistinctSize(s[..n]);
      assert s == s[..n] + [s[n]];
      assert Elements(s) == Elements(s[..n]) + {s[n]};
    }
  }

  /** While some path holds a port, the pool has room for it. */
  lemma RoomForHeldPort(s: State, min: int, max: int, id: nat)
    requires min < max && Partition(s, min, max) && id in s.paths && Holds(s.paths[id])
    ensures |s.free| < max - min
  {
    var port := s.paths[id].port;
    var range := Range(min, max);
    DistinctSize(s.free);
    DistinctSize(range);
    assert range[port - min] == port;
    forall p | p in s.free
      ensures p in range
    {
      assert range[p - min] == p;
    }
    SubsetSize(Elements(s.free), Elements(range) - {port});
  }

  ghost predicate Inv(s: State, min: int, max: int) {
    min < max && Partition(s, min, max) && s.capacity == max - min && s.dropped == 0
  }

  lemma MoveKeeps(s: State, min: int, max: int, id: nat, p: Path)
    requires Inv(s, min, max)
    requires
      || (!Holds(p) && (id in s.paths ==> !Holds(s.paths[id])))
      || (id in s.paths && Holds(s.paths[id]) && Holds(p) && p.port == s.paths[id].port)
    ensures Inv(With(s, id, p), min, max)
  {
    var t := With(s, id, p);
    forall q | min <= q < max && q !in t.free
      ensures exists i :: HeldBy(t, i, q)
    {
      var i :| HeldBy(s, i, q);
      assert HeldBy(t, i, q);
    }
  }

  lemma TailElements(s: seq<int>)
    requires s != [] && Distinct(s)
    ensures forall p :: p in s[1..] <==> p in s && p != s[0]
  {
    assert s == [s[0]] + s[1..];
  }

  lemma AcquireKeeps(s: State, min: int, max: int, id: nat, p: Path)
    requires Inv(s, min, max) && id in s.paths && !Holds(s.paths[id])
    requires s.free != [] && Holds(p) && p.port == s.free[0]
    ensures Inv(With(s, id, p).(free := s.free[1..]), min, max)
  {
    var t := With(s, id, p).(free := s.free[1..]);
    TailElements(s.free);
    assert p.port in s.free;
    forall q | min <= q < max && q !in t.free
      ensures exists i :: HeldBy(t, i, q)
    {
      if q == p.port {
        assert HeldBy(t, id, q);
      } else {
        var i :| HeldBy(s, i, q);
        assert HeldBy(t, i, q);
      }
    }
  }

  lemma PortStaysApart(s: State, min: int, max: int, id: nat)
    requires Apart(s, min, max) && id in s.paths && Holds(s.paths[id])
    ensures Apart(With(s, id, Ended).(free := s.free + [s.paths[id].port]), min, max)
  {
    SnocDistinct(s.free, s.paths[id].port);
  }

  lemma PortGoesBack(s: State, min: int, max: int, id: nat)
    requires Covered(s, min, max) && id in s.paths && Holds(s.paths[id])
    ensures Covered(With(s, id, Ended).(free := s.free + [s.paths[id].port]), min, max)
  {
    var t := With(s, id, Ended).(free := s.free + [s.paths[id].port]);
    forall q | min <= q < max && q !in t.free
      ensures exists i :: HeldBy(t, i, q)
    {
      var i :| HeldBy(s, i, q);
      assert HeldBy(t, i, q);
    }
  }

  lemma ReleaseKeeps(s: State, min: int, max: int, id: nat)
    requires Inv(s, min, max) && id in s.paths && Holds(s.paths[id])
    ensures Inv(ReleaseThen(s, id, s.paths[id].port), min, max)
  {
    RoomForHeldPort(s, min, max, id);
    PortStaysApart(s, min, max, id);
    PortGoesBack(s, min, max, id);
  }

  lemma AcquireThenKeeps(s: State, min: int, max: int, id: nat, next: int -> Path)
    requires Inv(s, min, max) && id in s.paths && !Holds(s.paths[id])
    requires s.free != [] ==> Holds(next(s.free[0])) && next(s.free[0]).port == s.free[0]
    ensures Inv(AcquireThen(s, id, next), min, max)
  {
    if s.free == [] {
      MoveKeeps(s, min, max, id, Ended);
    } else {
      AcquireKeeps(s, min, max, id, next(s.free[0]));
    }
  }

  lemma StepKeeps(s: State, min: int, max: int, id: nat, outcome: Outcome)
    requires Inv(s, min, max) && id in s.paths
    ensures Inv(Step(s, id, outcome), min, max)
  {
    match s.paths[id]
    case OfferParsed => AcquireThenKeeps(s, min, max, id, port => Ringing(port));
    case StreamClosed => AcquireThenKeeps(s, min, max, id, port => Prepared(port));
    case Rejecting(port) => ReleaseKeeps(s, min, max, id);
    case InSession(port) => ReleaseKeeps(s, min, max, id);
    case Performed(port) => ReleaseKeeps(s, min, max, id);
    case Ended =>
    case _ => MoveKeeps(s, min, max, id, Step(s, id, outcome).paths[id]);
  }

  lemma ApplyKeeps(s: State, min: int, max: int, l: Label)
    requires Inv(s, min, max)
    ensures Inv(Apply(s, l), min, max)
  {
    match l
    case Invite(id) => if id !in s.paths { MoveKeeps(s, min, max, id, Entered); }
    case Dial(id) => if id !in s.paths { MoveKeeps(s, min, max, id, Preparing); }
    case Go(id, outcome) => if id in s.paths { StepKeeps(s, min, max, id, outcome); }
  }

  lemma {:induction false} ExecInv(min: int, max: int, run: seq<Label>)
    requires min < max
    ensures Inv(Exec(min, max, run), min, max)
  {
    if run == [] {
      var s := Init(min, max);
      forall p | min <= p < max
        ensures p in s.free
      {
        assert s.free[p - min] == p;
      }
    } else {
      ExecInv(min, max, run[..|run| - 1]);
      ApplyKeeps(Exec(min, max, run[..|run| - 1]), min, max, run[|run| - 1]);
    }
  }

  // ---------------------------------------------------------------------------------------------
  // Main results

  /** In every run each port of the range is once in the pool or with exactly one call leg. */
  lemma PortsAreConserved(min: int, max: int, run: seq<Label>, port: int)
    requires min <= port < max
    ensures var s := Exec(min, max, run);
            && Distinct(s.free)
            && (port in s.free <==> !exists id :: HeldBy(s, id, port))
            && (forall id, other :: HeldBy(s, id, port) && HeldBy(s, other, port) ==> id == other)
  {
    ExecInv(min, max, run);
  }

  /** No port outside the range ever shows up. */
  lemma OnlyRangePorts(min: int, max: int, run: seq<Label>, port: int)
    requires min < max && !(min <= port < max)
    ensures port !in Exec(min, max, run).free && forall id :: !HeldBy(Exec(min, max, run), id, port)
  {
    ExecInv(min, max, run);
  }

  /** Release never takes its silent drop branch. */
  lemma NothingIsDropped(min: int, max: int, run: seq<Label>)
    requires min < max
    ensures Exec(min, max, run).dropped == 0
  {
    ExecInv(min, max, run);
  }

  /** When every path has ended, by whatever exits, the pool is whole again. */
  lemma AllPortsComeBack(min: int, max: int, run: seq<Label>)
    requires min < max
    requires forall id :: id in Exec(min, max, run).paths ==> Exec(min, max, run).paths[id].Ended?
    ensures multiset(Exec(min, max, run).free) == multiset(Range(min, max))
  {
    ExecInv(min, max, run);
    var free := Exec(min, max, run).free;
    assert forall id, p :: !HeldBy(Exec(min, max, run), id, p);
    assert forall p :: min <= p < max ==> p in free;
    forall p
      ensures multiset(free)[p] == multiset(Range(min, max))[p]
    {
      DistinctCount(free, p);
      DistinctCount(Range(min, max), p);
      if min <= p < max {
        assert Range(min, max)[p - min] == p;
      }
    }
  }

  lemma {:induction false} DistinctCount(s: seq<int>, p: int)
    requires Distinct(s)
    ensures multiset(s)[p] == if p in s then 1 else 0
  {
    if s != [] {
      var n := |s| - 1;
      DistinctCount(s[..n], p);
      assert s == s[..n] + [s[n]];
    }
  }

  // ---------------------------------------------------------------------------------------------
  // What becomes of a path

  lemma {:induction false} ExecSnoc(min: int, max: int, run: seq<Label>, l: Label)
    requires min < max
    ensures Exec(min, max, run + [l]) == Apply(Exec(min, max, run), l)
  {
    assert (run + [l])[..|run|] == run;
  }

  /** Where a path that has asked for nothing yet, or holds its port, goes on to: forward if its operation
      succeeds, to its exit if it fails. A missing voice client skips the fetch. */
  lemma {:induction false} PathGoesOn(min: int, max: int, run: seq<Label>, id: nat, outcome: Outcome)
    requires min < max && id in Exec(min, max, run).paths
    ensures var s, t := Exec(min, max, run), Exec(min, max, run + [Go(id, outcome)]);
            var p, q := s.paths[id], if id in t.paths then t.paths[id] else Ended;
            var fails := outcome == Fail;
            && (p == Entered ==> q == if fails then Ended else DialogRead)
            && (p == DialogRead ==> q == if fails then Ended else OfferParsed)
            && (p == Preparing ==> q == if fails then Ended else StreamClosed)
            && (p.Ringing? ==> q == if fails then Rejecting(p.port) else if outcome == Skip then Routed(p.port) else Fetched(p.port))
            && (p.Fetched? ==> q == if fails then Rejecting(p.port) else Parsed(p.port))
            && (p.Parsed? ==> q == if fails then Rejecting(p.port) else Routed(p.port))
            && (p.Routed? ==> q == if fails then Rejecting(p.port) else InSession(p.port))
            && (p.Prepared? ==> q == Performed(p.port))
            && (p != OfferParsed && p != StreamClosed && !p.Rejecting? && !p.InSession? && !p.Performed? ==> t.free == s.free)
            && (forall other :: other in s.paths && other != id ==> other in t.paths && t.paths[other] == s.paths[other])
  {
    ExecSnoc(min, max, run, Go(id, outcome));
  }

  ghost predicate Held(s: State, port: int) {
    exists id :: HeldBy(s, id, port)
  }

  ghost predicate AllHeld(s: State, min: int, max: int) {
    forall port :: min <= port < max ==> Held(s, port)
  }

  /** A path that asks for a port is turned away if and only if every port of the range is with some path;
      otherwise it gets one that nobody holds. */
  lemma {:induction false} RefusedIffAllHeld(min: int, max: int, run: seq<Label>, id: nat, outcome: Outcome)
    requires min < max && id in Exec(min, max, run).paths
    requires Exec(min, max, run).paths[id] == OfferParsed || Exec(min, max, run).paths[id] == StreamClosed
    ensures var s, t := Exec(min, max, run), Exec(min, max, run + [Go(id, outcome)]);
            && id in t.paths && (t.paths[id] == Ended <==> AllHeld(s, min, max))
            && (t.paths[id] != Ended ==>
                  && t.paths[id] == (if s.paths[id] == OfferParsed then Ringing(s.free[0]) else Prepared(s.free[0]))
                  && min <= s.free[0] < max && t.free == s.free[1..] && !Held(s, s.free[0]))
  {
    ExecInv(min, max, run);
    ExecSnoc(min, max, run, Go(id, outcome));
    var s := Exec(min, max, run);
    if s.free != [] {
      assert s.free[0] in s.free;
      assert !Held(s, s.free[0]);
    } else {
      forall port | min <= port < max
        ensures Held(s, port)
      {
        assert port !in s.free;
        var other :| HeldBy(s, other, port);
      }
    }
  }

  /** A path at an exit gives its port back, and finds room for it. */
  lemma {:induction false} ExitGivesBack(min: int, max: int, run: seq<Label>, id: nat, outcome: Outcome)
    requires min < max && id in Exec(min, max, run).paths
    requires var p := Exec(min, max, run).paths[id]; p.Rejecting? || p.InSession? || p.Performed?
    ensures var s, t := Exec(min, max, run), Exec(min, max, run + [Go(id, outcome)]);
            && |s.free| < max - min && t.free == s.free + [s.paths[id].port]
            && id in t.paths && t.paths[id] == Ended
  {
    ExecInv(min, max, run);
    ExecSnoc(min, max, run, Go(id, outcome));
    RoomForHeldPort(Exec(min, max, run), min, max, id);
  }

  /** A new call and a new dial begin without a port, an ended path stays ended. */
  lemma {:induction false} PathsBeginAndEnd(min: int, max: int, run: seq<Label>, id: nat, outcome: Outcome)
    requires min < max
    ensures var s := Exec(min, max, run);
            && (id !in s.paths ==> Exec(min, max, run + [Invite(id)]) == s.(paths := s.paths[id := Entered]))
            && (id !in s.paths ==> Exec(min, max, run + [Dial(id)]) == s.(paths := s.paths[id := Preparing]))
            && (id in s.paths && s.paths[id] == Ended ==> Exec(min, max, run + [Go(id, outcome)]) == s)
  {
    ExecSnoc(min, max, run, Invite(id));
    ExecSnoc(min, max, run, Dial(id));
    ExecSnoc(min, max, run, Go(id, outcome));
  }
}
