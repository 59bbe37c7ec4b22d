/** The WebSocket reconnect loop of the Node gateway (node/src/bridge/callManager.ts:1159-1233): a
    chain of attempts with doubling waits inside a fixed budget. Times are in milliseconds. The new
    socket and its handlers are not modelled. */
module NodeReconnect {

  const BUDGET_MS := 30_000
  const CAP_MS := 4_000
  const FIRST_DELAY := 1_000
  const MAX_ATTEMPTS := 9

  /** What the world does to one attempt: whether the call may still reconnect when it begins
      (shouldReconnectWs), whether the connect succeeds, how long it takes, and by how much the
      following wait oversleeps. */
  datatype Try = Try(streaming: bool, connects: bool, connectTime: nat, oversleep: nat)

  datatype Ending = BailedOut | Reconnected | Terminated

  function NextDelay(delay: nat): nat {
    if delay * 2 < CAP_MS then delay * 2 else CAP_MS
  }

  /** The wait after attempt n (counting from 1). */
  function DelayAfter(n: nat): (d: nat)
    requires n >= 1
    ensures FIRST_DELAY <= d <= CAP_MS
  {
    if n == 1 then FIRST_DELAY else NextDelay(DelayAfter(n - 1))
  }

  /** The waits after the first n attempts together. */
  function Waited(n: nat): nat {
    if n == 0 then 0 else Waited(n - 1) + DelayAfter(n)
  }

  lemma {:induction false} DelaysAre(n: nat)
    requires n >= 1
    ensures DelayAfter(n) == if n == 1 then 1_000 else if n == 2 then 2_000 else CAP_MS
  {
    if n > 1 {
      DelaysAre(n - 1);
    }
  }

  lemma {:induction false} WaitedIs(n: nat)
    ensures Waited(n) == if n == 0 then 0 else if n == 1 then 1_000 else 3_000 + CAP_MS * (n - 2)
  {
    if n > 0 {
      WaitedIs(n - 1);
      DelaysAre(n);
    }
  }

  /** A wait of this length is started after a failed attempt exactly if it ends inside the budget. */
  predicate MayWait(elapsed: nat, delay: nat) {
    elapsed + delay < BUDGET_MS
  }

  datatype Outcome = Outcome(ending: Ending, attempts: nat, elapsed: nat)

  /** The attempts from number n on, the first of them begun at `elapsed`; `script(k)` is what attempt
      k meets. The outcome says how the loop ends, after how many attempts, and when. */
  function Run(script: nat -> Try, n: nat, elapsed: nat): (r: Outcome)
    requires n >= 1
    ensures r.attempts >= n - 1 && (r.ending.Terminated? ==> r.attempts >= n)
    decreases BUDGET_MS - elapsed
  {
    var t, delay := script(n), DelayAfter(n);
    var now := elapsed + t.connectTime;
    if !t.streaming then Outcome(BailedOut, n - 1, elapsed)
    else if t.connects then Outcome(Reconnected, n, now)
    else if !MayWait(now, delay) then Outcome(Terminated, n, now)
    else Run(script, n + 1, now + delay + t.oversleep)
  }

  /** Attempt n fails in time for another wait. */
  lemma RunGoesOn(script: nat -> Try, n: nat, elapsed: nat)
    requires n >= 1 && script(n).streaming && !script(n).connects
    requires MayWait(elapsed + script(n).connectTime, DelayAfter(n))
    ensures Run(script, n, elapsed)
         == Run(script, n + 1, elapsed + script(n).connectTime + DelayAfter(n) + script(n).oversleep)
  {
  }

  /** Attempt n fails too late for another wait. */
  lemma RunGivesUp(script: nat -> Try, n: nat, elapsed: nat)
    requires n >= 1 && script(n).streaming && !script(n).connects
    requires !MayWait(elapsed + script(n).connectTime, DelayAfter(n))
    ensures Run(script, n, elapsed) == Outcome(Terminated, n, elapsed + script(n).connectTime)
  {
  }

  /** A wait: when it was started and how long it was meant to be. */
  datatype Wait = Wait(start: nat, delay: nat)

  /** The waits double up to the cap, follow one another, and each would end inside the budget. */
  ghost predicate Fitting(waits: seq<Wait>) {
    forall i :: 0 <= i < |waits| ==>
      waits[i].delay == DelayAfter(i + 1) && Waited(i) <= waits[i].start && MayWait(waits[i].start, waits[i].delay)
  }

  lemma FittingSnoc(waits: seq<Wait>, w: Wait)
    requires Fitting(waits) && w.delay == DelayAfter(|waits| + 1)
    requires Waited(|waits|) <= w.start && MayWait(w.start, w.delay)
    ensures Fitting(waits + [w])
  {
  }

  class ReconnectLoop {
    /** The wait before the next retry. */
    var delay: nat
    var waits: seq<Wait>

    constructor ()
      ensures delay == FIRST_DELAY && waits == []
    {
      delay, waits := FIRST_DELAY, [];
    }

    ghost predicate Valid(n: nat, elapsed: nat)
      requires n >= 1
      reads this
    {
      delay == DelayAfter(n) && |waits| == n - 1 && Waited(n - 1) <= elapsed && Fitting(waits)
    }

    /** The timer of the next retry is set, and the delay after it doubled. */
    method StartWait(n: nat, now: nat)
      requires n >= 1 && Valid(n, now) && MayWait(now, delay)
      modifies this
      ensures Valid(n + 1, now + old(delay))
    {
      FittingSnoc(waits, Wait(now, delay));
      waits := waits + [Wait(now, delay)];
      delay := NextDelay(delay);
    }

    /** The recursive closure `attempt`. */
    method Attempt(script: nat -> Try, n: nat, elapsed: nat) returns (r: Outcome)
      requires n >= 1 && Valid(n, elapsed)
      modifies this
      ensures r == Run(script, n, elapsed)
      ensures Valid(|waits| + 1, r.elapsed)
      ensures r.attempts <= |waits| + 1
      ensures r.ending.Terminated? ==> !MayWait(r.elapsed, delay)
      decreases BUDGET_MS - elapsed
    {
      var t := script(n);
      if !t.streaming {
        return Outcome(BailedOut, n - 1, elapsed);
      }
      var now := elapsed + t.connectTime;
      if t.connects {
        return Outcome(Reconnected, n, now);
      }
      if now + delay >= BUDGET_MS {
        RunGivesUp(script, n, elapsed);
        return Outcome(Terminated, n, now);
      }
      RunGoesOn(script, n, elapsed);
      var woken := now + delay + t.oversleep;
      StartWait(n, now);
      r := Attempt(script, n + 1, woken);
    }
  }

  // ---------------------------------------------------------------------------------------------
  // Main results

  /** At most eight waits fit into the budget, however fast the connects fail. */
  lemma NoNinthWait(n: nat, elapsed: nat)
    requires n >= 1 && Waited(n - 1) <= elapsed && MayWait(elapsed, DelayAfter(n))
    ensures n <= MAX_ATTEMPTS - 1
  {
    WaitedIs(n - 1);
    DelaysAre(n);
  }

  lemma {:induction false} RunIsBounded(script: nat -> Try, n: nat, elapsed: nat)
    requires 1 <= n <= MAX_ATTEMPTS && Waited(n - 1) <= elapsed
    ensures var r := Run(script, n, elapsed);
            r.attempts <= MAX_ATTEMPTS && (r.ending.Terminated? ==> !MayWait(r.elapsed, DelayAfter(r.attempts)))
    decreases BUDGET_MS - elapsed
  {
    var t := script(n);
    var now := elapsed + t.connectTime;
    if t.streaming && !t.connects && MayWait(now, DelayAfter(n)) {
      NoNinthWait(n, now);
      RunGoesOn(script, n, elapsed);
      RunIsBounded(script, n + 1, now + DelayAfter(n) + t.oversleep);
    }
  }

  /** The loop ends after at most nine attempts, and gives the call up only when one more wait would
      not end inside the budget. */
  lemma LoopEnds(script: nat -> Try)
    ensures var r := Run(script, 1, 0);
            && r.attempts <= 9
            && (r.ending.Terminated? ==> r.elapsed + DelayAfter(r.attempts) >= 30_000)
  {
    RunIsBounded(script, 1, 0);
  }

  /** Attempt k is allowed to begin and its connect fails. */
  predicate Fails(t: Try) {
    t.streaming && !t.connects
  }

  /** When attempt k begins if all before it failed: after their connects, waits and oversleeping. */
  function Begins(script: nat -> Try, k: nat): nat
    requires k >= 1
  {
    if k == 1 then 0
    else Begins(script, k - 1) + script(k - 1).connectTime + DelayAfter(k - 1) + script(k - 1).oversleep
  }

  /** What the outcome says of the attempts from number n on. */
  ghost predicate Tells(script: nat -> Try, n: nat, r: Outcome)
    requires n >= 1
  {
    && r.attempts >= n - 1
    && (forall k :: n <= k < r.attempts ==> Fails(script(k)))
    && match r.ending
       case BailedOut => !script(r.attempts + 1).streaming && (n <= r.attempts ==> Fails(script(r.attempts)))
       case Reconnected => n <= r.attempts && script(r.attempts).streaming && script(r.attempts).connects
       case Terminated => n <= r.attempts && Fails(script(r.attempts))
  }

  lemma TellsEarlier(script: nat -> Try, n: nat, r: Outcome)
    requires n >= 1 && Tells(script, n + 1, r) && Fails(script(n))
    ensures Tells(script, n, r)
  {
  }

  lemma {:induction false} RunTells(script: nat -> Try, n: nat, elapsed: nat)
    requires n >= 1
    ensures Tells(script, n, Run(script, n, elapsed))
    decreases BUDGET_MS - elapsed
  {
    var t := script(n);
    if Fails(t) && MayWait(elapsed + t.connectTime, DelayAfter(n)) {
      RunGoesOn(script, n, elapsed);
      RunTells(script, n + 1, elapsed + t.connectTime + DelayAfter(n) + t.oversleep);
      TellsEarlier(script, n, Run(script, n, elapsed));
    }
  }

  /** The time is that of the beginning of the last attempt and its connecting, or of the bail-out. */
  ghost predicate Takes(script: nat -> Try, r: Outcome) {
    if r.ending.BailedOut? then r.elapsed == Begins(script, r.attempts + 1)
    else r.attempts >= 1 && r.elapsed == Begins(script, r.attempts) + script(r.attempts).connectTime
  }

  lemma {:induction false} RunTakes(script: nat -> Try, n: nat)
    requires n >= 1
    ensures Takes(script, Run(script, n, Begins(script, n)))
    decreases BUDGET_MS - Begins(script, n)
  {
    var t, elapsed := script(n), Begins(script, n);
    if Fails(t) && MayWait(elapsed + t.connectTime, DelayAfter(n)) {
      RunGoesOn(script, n, elapsed);
      RunTakes(script, n + 1);
    }
  }

  /** The outcome is that of the first attempt that may not begin, connects, or fails too late for another
      wait: the loop bails out exactly if that one may not begin, and reconnects exactly if it connects. */
  lemma OutcomeTells(script: nat -> Try)
    ensures var r := Run(script, 1, 0);
            && (forall k :: 1 <= k < r.attempts ==> Fails(script(k)))
            && (r.ending.BailedOut? ==> !script(r.attempts + 1).streaming && (r.attempts > 0 ==> Fails(script(r.attempts))))
            && (r.ending.Reconnected? ==> r.attempts > 0 && script(r.attempts).streaming && script(r.attempts).connects)
            && (r.ending.Terminated? ==> r.attempts > 0 && Fails(script(r.attempts)))
            && r.elapsed == if r.ending.BailedOut? then Begins(script, r.attempts + 1)
                            else Begins(script, r.attempts) + script(r.attempts).connectTime
  {
    RunTells(script, 1, 0);
    RunTakes(script, 1);
  }

  /** A loop that may not begin makes no attempt, and one that connects at once makes one. */
  lemma AtOnce(script: nat -> Try)
    ensures Run(script, 1, 0).attempts == 0 <==> !script(1).streaming
    ensures script(1).streaming && script(1).connects ==> Run(script, 1, 0) == Outcome(Reconnected, 1, script(1).connectTime)
  {
    OutcomeTells(script);
  }

  /** The caller of startWsReconnectLoop. */
  method StartWsReconnectLoop(script: nat -> Try) returns (r: Outcome, waits: seq<Wait>)
    ensures r == Run(script, 1, 0) && r.attempts <= MAX_ATTEMPTS
    ensures |waits| <= 8 && Fitting(waits)
    ensures forall i :: 0 <= i < |waits| ==>
              waits[i].delay == (if i == 0 then 1_000 else if i == 1 then 2_000 else 4_000)
              && waits[i].start + waits[i].delay < 30_000
  {
    var loop := new ReconnectLoop();
    r := loop.Attempt(script, 1, 0);
    waits := loop.waits;
    forall i | 0 <= i < |waits|
      ensures waits[i].delay == (if i == 0 then 1_000 else if i == 1 then 2_000 else 4_000)
    {
      DelaysAre(i + 1);
    }
    LoopEnds(script);
    if waits != [] {
      NoNinthWait(|waits|, waits[|waits| - 1].start);
    }
  }

  /** Nine is reached: connects that fail at once, and timers that do not oversleep. */
  const HOPELESS: nat -> Try := _ => Try(true, false, 0, 0)

  lemma EightWaitsFit(n: nat)
    requires 1 <= n <= MAX_ATTEMPTS
    ensures MayWait(Waited(n - 1), DelayAfter(n)) <==> n < MAX_ATTEMPTS
  {
    WaitedIs(n - 1);
    DelaysAre(n);
  }

  /** An attempt that fails at once, with no time lost. */
  predicate FailsAtOnce(t: Try) {
    t == Try(true, false, 0, 0)
  }

  lemma FailsAgain(script: nat -> Try, n: nat, elapsed: nat)
    requires n >= 1 && FailsAtOnce(script(n)) && MayWait(elapsed, DelayAfter(n))
    ensures Run(script, n, elapsed) == Run(script, n + 1, elapsed + DelayAfter(n))
  {
    RunGoesOn(script, n, elapsed);
  }

  lemma HopelessStep(script: nat -> Try, n: nat)
    requires 1 <= n < MAX_ATTEMPTS && FailsAtOnce(script(n))
    ensures Run(script, n, Waited(n - 1)) == Run(script, n + 1, Waited(n))
  {
    EightWaitsFit(n);
    FailsAgain(script, n, Waited(n - 1));
  }

  lemma HopelessEnd(script: nat -> Try, n: nat)
    requires n == MAX_ATTEMPTS && FailsAtOnce(script(n))
    ensures Run(script, n, Waited(n - 1)).attempts == n && Run(script, n, Waited(n - 1)).ending.Terminated?
  {
    EightWaitsFit(n);
    RunGivesUp(script, n, Waited(n - 1));
  }

  lemma {:induction false} HopelessRun(script: nat -> Try, n: nat)
    requires 1 <= n <= MAX_ATTEMPTS && forall k :: FailsAtOnce(script(k))
    ensures Run(script, n, Waited(n - 1)).attempts == MAX_ATTEMPTS && Run(script, n, Waited(n - 1)).ending.Terminated?
    decreases MAX_ATTEMPTS - n
  {
    if n < MAX_ATTEMPTS {
      HopelessStep(script, n);
      HopelessRun(script, n + 1);
    } else {
      HopelessEnd(script, n);
    }
  }

  lemma NineAttemptsHappen()
    ensures Run(HOPELESS, 1, 0).attempts == 9 && Run(HOPELESS, 1, 0).ending.Terminated?
  {
    HopelessRun(HOPELESS, 1);
  }
}
