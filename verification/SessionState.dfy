/** The CallSession state enum and its compare-and-swap cell (go/internal/bridge/state.go). */
module SessionState {

  datatype CallState =
    | Dispatching
    | Streaming
    | ForwardingSetup
    | Forwarding
    | Redirected
    | HungUp
    | Terminated
    | DialingOut

  /** The value of a cell holding `current` after one compare-and-swap. */
  function Cas(current: CallState, expected: CallState, next: CallState): CallState {
    if current == expected then next else current
  }

  /** Position on the forward path. The states no transition reaches share the last place. */
  function Rank(s: CallState): nat {
    match s
    case Dispatching => 0
    case Streaming => 0
    case DialingOut => 1
    case Forwarding => 2
    case _ => 3
  }

  /** The mutable cell. Each method is one atomic operation. */
  class AtomicState {
    var v: CallState

    constructor ()
      ensures v == Dispatching
    {
      v := Dispatching;
    }

    method Load() returns (s: CallState)
      ensures s == v
    {
      s := v;
    }

    method Store(s: CallState)
      modifies this
      ensures v == s
    {
      v := s;
    }

    method CompareAndSwap(expected: CallState, next: CallState) returns (swapped: bool)
      modifies this
      ensures swapped <==> old(v) == expected
      ensures v == Cas(old(v), expected, next)
    {
      swapped := v == expected;
      if swapped {
        v := next;
      }
    }
  }
}
