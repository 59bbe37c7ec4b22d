/** Status-callback delivery (go/internal/webhook/status.go): the retry loop for one event, and the
    bounded queue with its single worker for one CallSid. Enqueue and DrainAndClose are one step each;
    URL validation comes before Enqueue and is not part of this model. */
module StatusQueue {
  import opened Collections

  // ---------------------------------------------------------------------------------------------
  // One event

  const PER_CALL_QUEUE_DEPTH := 64
  const MAX_ATTEMPTS := 4

  /** Milliseconds, as are all times below. */
  const STATUS_PER_ATTEMPT_TIMEOUT := 4_000
  const WORST_CASE := 23_000

  function Backoff(attempt: nat): nat {
    match attempt
    case 0 => 0
    case 1 => 1_000
    case 2 => 2_000
    case _ => 4_000
  }

  datatype TransportError = SsrfRejected | Network

  /** The per-attempt timeout cuts every attempt off. */
  type Elapsed = n: nat | n <= STATUS_PER_ATTEMPT_TIMEOUT

  /** What deliverOnce returns, and how long it took. */
  datatype Outcome = Outcome(status: int, error: Option<TransportError>, elapsed: Elapsed)

  predicate Success(o: Outcome) {
    o.error.None? && 200 <= o.status < 300
  }

  predicate ShouldRetry(o: Outcome) {
    if o.error == Some(SsrfRejected) then false
    else if o.error.Some? then true
    else o.status == 408 || o.status == 429 || o.status >= 500
  }

  /** The retry table: which outcomes end the loop. */
  predicate Final(o: Outcome) {
    Success(o) || !ShouldRetry(o)
  }

  /** The failure counter an abandoned event goes to; None when the outcome is in no class. */
  function FailureReason(o: Outcome): Option<string> {
    if o.error == Some(SsrfRejected) then Some("ssrf_rejected")
    else if o.status >= 500 then Some("5xx")
    else if o.status >= 400 then Some("4xx")
    else None
  }

  /** The outcomes that four attempts would have. */
  type Script = s: seq<Outcome> | |s| == MAX_ATTEMPTS witness seq(MAX_ATTEMPTS, _ => Outcome(200, None, 0))

  /** Attempts made: up to the first final outcome, at most all four. */
  function Attempts(s: seq<Outcome>): (n: nat)
    requires s != []
    ensures 1 <= n <= |s|
    ensures forall i :: 0 <= i < n - 1 ==> !Final(s[i])
    ensures n < |s| ==> Final(s[n - 1])
  {
    if Final(s[0]) || |s| == 1 then 1
    else
      var m := Attempts(s[1..]);
      assert forall i :: 0 < i < m ==> s[i] == s[1..][i - 1];
      m + 1
  }

  /** Time for attempts `from` up to `to`, delays included. */
  function Spent(s: seq<Outcome>, n: nat): nat
    requires n <= |s|
  {
    if n == 0 then 0 else Spent(s, n - 1) + Backoff(n - 1) + s[n - 1].elapsed
  }

  predicate Delivered(s: Script) {
    Success(s[Attempts(s) - 1])
  }

  /** The failure counters after this event: one count, or none. */
  function Failures(s: Script): seq<string> {
    var last := s[Attempts(s) - 1];
    if Success(last) then []
    else if ShouldRetry(last) then ["exhausted_retries"]
    else if FailureReason(last).Some? then [FailureReason(last).value] else []
  }

  function WorstUpTo(n: nat): nat {
    match n
    case 0 => 0
    case 1 => 4_000
    case 2 => 9_000
    case 3 => 15_000
    case _ => WORST_CASE
  }

  lemma {:induction false} SpentIsBounded(s: Script, n: nat)
    requires n <= MAX_ATTEMPTS
    ensures Spent(s, n) <= WorstUpTo(n) <= WORST_CASE
  {
    if n > 0 {
      SpentIsBounded(s, n - 1);
    }
  }

  /** The metric counters. */
  class Metrics {
    var attempts: nat
    var failures: seq<string>

    constructor ()
      ensures attempts == 0 && failures == []
    {
      attempts, failures := 0, [];
    }
  }

  /** deliverWithRetries. `script[k]` is what attempt k comes back with if it is made. */
  method DeliverWithRetries(script: Script, metrics: Metrics) returns (spent: nat)
    modifies metrics
    ensures metrics.attempts == old(metrics.attempts) + Attempts(script)
    ensures metrics.failures == old(metrics.failures) + Failures(script)
    ensures spent == Spent(script, Attempts(script)) && spent <= WORST_CASE
  {
    spent := 0;
    for attempt := 0 to MAX_ATTEMPTS
      invariant metrics.attempts == old(metrics.attempts) + attempt
      invariant metrics.failures == old(metrics.failures)
      invariant spent == Spent(script, attempt)
      invariant forall i :: 0 <= i < attempt ==> !Final(script[i])
    {
      spent := spent + Backoff(attempt);
      var o := script[attempt];
      spent := spent + o.elapsed;
      metrics.attempts := metrics.attempts + 1;
      if Final(o) {
        assert Attempts(script) == attempt + 1;
        SpentIsBounded(script, attempt + 1);
        if !Success(o) {
          var reason := FailureReason(o);
          if reason.Some? {
            metrics.failures := metrics.failures + [reason.value];
          }
        }
        return;
      }
    }
    assert Attempts(script) == MAX_ATTEMPTS;
    SpentIsBounded(script, MAX_ATTEMPTS);
    metrics.failures := metrics.failures + ["exhausted_retries"];
  }

  /** An event that is not delivered is counted as a failure exactly once, unless the last answer was
      an HTTP status below 400, which no counter stands for. */
  lemma FailuresAreCountedOnce(s: Script)
    ensures |Failures(s)| <= 1
    ensures var last := s[Attempts(s) - 1];
            Failures(s) == [] <==> Delivered(s) || (last.error.None? && last.status < 400)
  {
  }

  lemma RetryTable(o: Outcome)
    ensures ShouldRetry(o) <==>
              o.error == Some(Network) || (o.error.None? && (o.status == 408 || o.status == 429 || o.status > 499))
    ensures o.error.Some? ==> o.error == Some(Network) || o.error == Some(SsrfRejected)
  {
    match o.error
    case None =>
    case Some(e) =>
      match e
      case SsrfRejected =>
      case Network =>
  }

  /** Only a failed connection, 408, 429 and the server errors are tried again: attempt k + 1 is made if
      and only if every one before came back with one of these. */
  lemma AnotherAttemptIff(s: Script, k: nat)
    requires k < 4
    ensures Attempts(s) > k <==>
              forall i :: 0 <= i < k ==>
                s[i].error == Some(Network)
                || (s[i].error.None? && (s[i].status == 408 || s[i].status == 429 || s[i].status > 499))
  {
    forall i | 0 <= i < 4
      ensures ShouldRetry(s[i]) <==>
                s[i].error == Some(Network)
                || (s[i].error.None? && (s[i].status == 408 || s[i].status == 429 || s[i].status > 499))
    {
      RetryTable(s[i]);
    }
    if Attempts(s) <= k {
      assert Final(s[Attempts(s) - 1]);
    }
  }

  /** What becomes of the event, by the last outcome: delivered with a 2xx status and nothing counted, or
      one count by the reason. The reason "5xx" is never counted. */
  lemma OutcomeCounts(s: Script)
    ensures var last := s[Attempts(s) - 1];
            && (Delivered(s) <==> last.error.None? && 199 < last.status <= 299)
            && (Failures(s) == [] <==> last.error.None? && last.status <= 399 && last.status != 408)
            && (Failures(s) == ["ssrf_rejected"] <==> last.error == Some(SsrfRejected))
            && (Failures(s) == ["exhausted_retries"] <==>
                  last.error == Some(Network)
                  || (last.error.None? && (last.status == 408 || last.status == 429 || last.status > 499)))
            && (Failures(s) == ["4xx"] <==>
                  last.error.None? && 400 <= last.status <= 499 && last.status != 408 && last.status != 429)
            && Failures(s) != ["5xx"]
  {
    RetryTable(s[Attempts(s) - 1]);
    var all: seq<string> := ["ssrf_rejected", "exhausted_retries", "4xx", "5xx"];
    assert all[0][0] == 's' && all[1][0] == 'e' && all[2][0] == '4' && all[3][0] == '5';
  }

  // ---------------------------------------------------------------------------------------------
  // The time of a backlog

  function TotalSpent(scripts: seq<Script>): nat {
    if scripts == [] then 0
    else TotalSpent(scripts[..|scripts| - 1]) + Spent(scripts[|scripts| - 1], Attempts(scripts[|scripts| - 1]))
  }

  lemma {:induction false} BacklogIsBounded(scripts: seq<Script>)
    ensures TotalSpent(scripts) <= WORST_CASE * |scripts|
  {
    if scripts != [] {
      var last := scripts[|scripts| - 1];
      BacklogIsBounded(scripts[..|scripts| - 1]);
      SpentIsBounded(last, Attempts(last));
    }
  }

  const SLOW := Outcome(503, None, STATUS_PER_ATTEMPT_TIMEOUT)
  const SLOWEST: Script := [SLOW, SLOW, SLOW, SLOW]

  lemma SpentSlow(n: nat)
    requires n < MAX_ATTEMPTS
    ensures Spent(SLOWEST, n + 1) == Spent(SLOWEST, n) + Backoff(n) + STATUS_PER_ATTEMPT_TIMEOUT
  {
    assert SLOWEST[n] == SLOW;
  }

  lemma SlowestIsWorst()
    ensures Spent(SLOWEST, Attempts(SLOWEST)) == WORST_CASE
  {
    assert forall n | 0 <= n < MAX_ATTEMPTS :: SLOWEST[n] == SLOW;
    assert Attempts(SLOWEST) == MAX_ATTEMPTS;
    SpentSlow(0);
    SpentSlow(1);
    SpentSlow(2);
    SpentSlow(3);
  }

  lemma {:induction false} SlowestBacklog(k: nat) returns (scripts: seq<Script>)
    ensures |scripts| == k && TotalSpent(scripts) == WORST_CASE * k
  {
    if k == 0 {
      scripts := [];
    } else {
      var front := SlowestBacklog(k - 1);
      scripts := front + [SLOWEST];
      assert scripts[..k - 1] == front;
      SlowestIsWorst();
    }
  }

  /** The drain budget of 30 seconds is certain to suffice exactly for a backlog of one event. */
  lemma DrainBudgetCoversOneEvent(k: nat)
    ensures (forall scripts: seq<Script> :: |scripts| == k ==> TotalSpent(scripts) <= 30_000) <==> k <= 1
  {
    forall scripts: seq<Script> | |scripts| == k
      ensures TotalSpent(scripts) <= WORST_CASE * k
    {
      BacklogIsBounded(scripts);
    }
    var slowest := SlowestBacklog(k);
  }

  // ---------------------------------------------------------------------------------------------
  // The queue of one CallSid

  /** An accepted event; the id is its position among all accepted events of the CallSid. */
  datatype Job = Job(id: nat, event: string)

  class PerCallQueue {
    var queue: seq<Job>
    var started: bool
    var handled: seq<Job>

    constructor ()
      ensures queue == [] && !started && handled == []
    {
      queue, started, handled := [], false, [];
    }

    /** The non-blocking send of Enqueue; false is ErrQueueFull, which is counted. The first job starts the
        worker. */
    method Enqueue(job: Job, metrics: Metrics) returns (accepted: bool)
      modifies `queue, `started, metrics`failures
      ensures accepted <==> |old(queue)| < 64
      ensures queue == if accepted then old(queue) + [job] else old(queue)
      ensures started <==> old(started) || accepted
      ensures metrics.failures == if accepted then old(metrics.failures) else old(metrics.failures) + ["queue_full"]
    {
      accepted := |queue| < PER_CALL_QUEUE_DEPTH;
      if accepted {
        queue := queue + [job];
        started := true;
      } else {
        metrics.failures := metrics.failures + ["queue_full"];
      }
    }

    /** runWorker on a closed queue, with what the attempts for each job will come back with. */
    method RunWorker(scripts: seq<Script>, metrics: Metrics) returns (spent: nat)
      requires |scripts| == |queue|
      modifies `queue, `handled, metrics
      ensures queue == [] && handled == old(handled) + old(queue)
      ensures spent == TotalSpent(scripts) && spent <= WORST_CASE * |scripts|
    {
      spent := 0;
      var i := 0;
      while queue != []
        invariant i + |queue| == |scripts| && queue == old(queue)[i..]
        invariant handled == old(handled) + old(queue)[..i]
        invariant spent == TotalSpent(scripts[..i])
        decreases |queue|
      {
        var job := queue[0];
        queue := queue[1..];
        var t := DeliverWithRetries(scripts[i], metrics);
        assert scripts[..i + 1][..i] == scripts[..i];
        spent := spent + t;
        handled := handled + [job];
        i := i + 1;
      }
      assert scripts[..i] == scripts;
      BacklogIsBounded(scripts);
    }
  }

  datatype Worker = NotStarted | Running | Exited

  /** One perCallState: from the Enqueue that creates it to the DrainAndClose that closes its queue and
      on until its worker has run out of jobs. `base` is the first id, `busy` the time spent. */
  datatype Generation = Generation(
    base: nat,
    accepted: seq<Job>,
    handled: seq<Job>,
    inHand: Option<Job>,
    queue: seq<Job>,
    open: bool,
    worker: Worker,
    busy: nat)

  /** `arrivals` and `log`: all jobs in the order they were accepted, and handled. */
  datatype State = State(gens: seq<Generation>, arrivals: seq<Job>, log: seq<Job>)

  datatype Label = Enqueue(event: string) | Take(g: nat) | Finish(g: nat, script: Script) | Exit(g: nat) | Drain

  predicate HasOpen(s: State) {
    s.gens != [] && s.gens[|s.gens| - 1].open
  }

  function Fresh(base: nat): Generation {
    Generation(base, [], [], None, [], true, NotStarted, 0)
  }

  /** getOrCreateState. */
  function Opened(s: State): State {
    if HasOpen(s) then s else s.(gens := s.gens + [Fresh(|s.arrivals|)])
  }

  /** The send that starts the worker once, or is refused when the queue is full. */
  function Send(s: State, event: string): State
    requires HasOpen(s)
  {
    var n := |s.gens| - 1;
    var g := s.gens[n];
    if |g.queue| < PER_CALL_QUEUE_DEPTH then
      var job := Job(|s.arrivals|, event);
      s.(gens := s.gens[n := g.(accepted := g.accepted + [job], queue := g.queue + [job],
                                worker := if g.worker.NotStarted? then Running else g.worker)],
         arrivals := s.arrivals + [job])
    else s
  }

  predicate Idle(g: Generation) {
    g.queue == [] && g.inHand.None?
  }

  function Pending(g: Generation): seq<Job> {
    (if g.inHand.Some? then [g.inHand.value] else []) + g.queue
  }

  function Apply(s: State, l: Label): State {
    match l
    case Enqueue(event) => Send(Opened(s), event)
    case Take(g) =>
      if g < |s.gens| && s.gens[g].worker.Running? && s.gens[g].inHand.None? && s.gens[g].queue != [] then
        var x := s.gens[g];
        s.(gens := s.gens[g := x.(inHand := Some(x.queue[0]), queue := x.queue[1..])])
      else s
    case Finish(g, script) =>
      if g < |s.gens| && s.gens[g].inHand.Some? then
        var x := s.gens[g];
        s.(gens := s.gens[g := x.(inHand := None, handled := x.handled + [x.inHand.value],
                                  busy := x.busy + Spent(script, Attempts(script)))],
           log := s.log + [x.inHand.value])
      else s
    case Exit(g) =>
      if g < |s.gens| && s.gens[g].worker.Running? && Idle(s.gens[g]) && !s.gens[g].open
      then s.(gens := s.gens[g := s.gens[g].(worker := Exited)]) else s
    case Drain =>
      if HasOpen(s) then
        var n := |s.gens| - 1;
        s.(gens := s.gens[n := s.gens[n].(open := false)])
      else s
  }

  function ExecFrom(s: State, run: seq<Label>): State {
    if run == [] then s else Apply(ExecFrom(s, run[..|run| - 1]), run[|run| - 1])
  }

  function Exec(run: seq<Label>): State {
    ExecFrom(State([], [], []), run)
  }

  lemma {:induction false} ExecSplits(s: State, pre: seq<Label>, post: seq<Label>)
    ensures ExecFrom(s, pre + post) == ExecFrom(ExecFrom(s, pre), post)
  {
    if post == [] {
      assert pre + post == pre;
    } else {
      var n := |post| - 1;
      assert (pre + post)[..|pre + post| - 1] == pre + post[..n];
      ExecSplits(s, pre, post[..n]);
    }
  }

  // ---------------------------------------------------------------------------------------------
  // The invariant

  ghost predicate Numbered(jobs: seq<Job>, base: nat) {
    forall i :: 0 <= i < |jobs| ==> jobs[i].id == base + i
  }

  /** One generation: nothing is lost, doubled or reordered between the queue and the worker. */
  ghost predicate GenInv(g: Generation) {
    && g.accepted == g.handled + Pending(g)
    && |g.queue| <= PER_CALL_QUEUE_DEPTH
    && Numbered(g.accepted, g.base)
    && (g.worker.NotStarted? ==> g.accepted == [])
    && (g.worker.Exited? ==> !g.open && Idle(g))
    && g.busy <= WORST_CASE * |g.handled|
  }

  ghost predicate GensInv(s: State) {
    forall k :: 0 <= k < |s.gens| ==> GenInv(s.gens[k])
  }

  function Limit(g: Generation): nat {
    g.base + |g.accepted|
  }

  /** Generations own consecutive ranges of ids, and only the last one accepts. */
  ghost predicate Ranges(s: State) {
    && (forall j, k :: 0 <= j < k < |s.gens| ==> Limit(s.gens[j]) <= s.gens[k].base)
    && (forall k :: 0 <= k < |s.gens| - 1 ==> !s.gens[k].open)
    && Numbered(s.arrivals, 0)
    && (forall k :: 0 <= k < |s.gens| ==> Limit(s.gens[k]) <= |s.arrivals|)
    && (HasOpen(s) ==> Limit(s.gens[|s.gens| - 1]) == |s.arrivals|)
  }

  /** A handled id is behind its generation's progress. */
  predicate LoggedOutside(id: nat, g: Generation) {
    id < g.base + |g.handled| || id >= Limit(g)
  }

  ghost predicate LogInv(s: State) {
    && (forall i :: 0 <= i < |s.log| ==> s.log[i].id < |s.arrivals|)
    && (forall i, k :: 0 <= i < |s.log| && 0 <= k < |s.gens| ==> LoggedOutside(s.log[i].id, s.gens[k]))
  }

  ghost predicate Inv(s: State) {
    GensInv(s) && Ranges(s) && LogInv(s)
  }

  /** Replacing one generation by a good one of the same range. */
  lemma ReplaceKeeps(s: State, t: State, k: nat)
    requires Inv(s) && k < |s.gens| == |t.gens| && t.gens == s.gens[k := t.gens[k]] && t.arrivals == s.arrivals
    requires GenInv(t.gens[k]) && t.gens[k].base == s.gens[k].base && t.gens[k].accepted == s.gens[k].accepted
    requires t.gens[k].open ==> s.gens[k].open
    ensures GensInv(t) && Ranges(t)
  {
    forall j | 0 <= j < |t.gens|
      ensures GenInv(t.gens[j]) && t.gens[j].base == s.gens[j].base && Limit(t.gens[j]) == Limit(s.gens[j])
      ensures t.gens[j].open ==> s.gens[j].open
    {
      assert j != k ==> t.gens[j] == s.gens[j];
    }
  }

  lemma OpenedKeepsRanges(s: State)
    requires Ranges(s)
    ensures Ranges(Opened(s))
  {
    var t := Opened(s);
    forall j, k | 0 <= j < k < |t.gens|
      ensures Limit(t.gens[j]) <= t.gens[k].base
    {
      assert t.gens[j] == s.gens[j];
    }
  }

  lemma OpenedKeeps(s: State)
    requires Inv(s)
    ensures Inv(Opened(s)) && HasOpen(Opened(s))
  {
    OpenedKeepsRanges(s);
    assert GenInv(Fresh(|s.arrivals|));
  }

  lemma AcceptKeepsGen(g: Generation, job: Job)
    requires GenInv(g) && g.open && |g.queue| < PER_CALL_QUEUE_DEPTH && job.id == Limit(g)
    ensures GenInv(g.(accepted := g.accepted + [job], queue := g.queue + [job],
                      worker := if g.worker.NotStarted? then Running else g.worker))
  {
    var h := g.(accepted := g.accepted + [job], queue := g.queue + [job],
                worker := if g.worker.NotStarted? then Running else g.worker);
    assert Pending(h) == Pending(g) + [job];
    assert g.handled + Pending(g) + [job] == g.handled + (Pending(g) + [job]);
  }

  lemma SendKeepsRanges(s: State, event: string)
    requires Ranges(s) && HasOpen(s)
    ensures Ranges(Send(s, event))
  {
    var n, t := |s.gens| - 1, Send(s, event);
    forall j, k | 0 <= j < k < |t.gens|
      ensures Limit(t.gens[j]) <= t.gens[k].base
    {
      assert t.gens[j] == s.gens[j] && t.gens[k].base == s.gens[k].base;
    }
    assert forall k :: 0 <= k < n ==> t.gens[k] == s.gens[k];
  }

  lemma SendKeepsLog(s: State, event: string)
    requires Inv(s) && HasOpen(s)
    ensures LogInv(Send(s, event))
  {
    var n, t := |s.gens| - 1, Send(s, event);
    forall i, k | 0 <= i < |t.log| && 0 <= k < |t.gens|
      ensures LoggedOutside(t.log[i].id, t.gens[k])
    {
      assert LoggedOutside(s.log[i].id, s.gens[k]);
    }
  }

  lemma SendKeeps(s: State, event: string)
    requires Inv(s) && HasOpen(s)
    ensures Inv(Send(s, event))
  {
    var n := |s.gens| - 1;
    SendKeepsRanges(s, event);
    SendKeepsLog(s, event);
    if |s.gens[n].queue| < PER_CALL_QUEUE_DEPTH {
      AcceptKeepsGen(s.gens[n], Job(|s.arrivals|, event));
    }
  }

  lemma TakeKeeps(s: State, k: nat)
    requires Inv(s)
    ensures Inv(Apply(s, Take(k)))
  {
    var t := Apply(s, Take(k));
    if t != s {
      assert Pending(t.gens[k]) == Pending(s.gens[k]);
      ReplaceKeeps(s, t, k);
    }
  }

  lemma FinishKeepsGen(g: Generation, script: Script)
    requires GenInv(g) && g.inHand.Some?
    ensures GenInv(g.(inHand := None, handled := g.handled + [g.inHand.value],
                      busy := g.busy + Spent(script, Attempts(script))))
    ensures |g.handled| < |g.accepted| && g.inHand.value.id == g.base + |g.handled|
  {
    var handled := g.handled + [g.inHand.value];
    SpentIsBounded(script, Attempts(script));
    assert g.accepted[|g.handled|] == g.inHand.value;
    assert handled + g.queue == g.accepted;
  }

  /** A job of generation k is outside every other generation's range. */
  lemma OutsideOthers(s: State, k: nat, id: nat, j: nat)
    requires Ranges(s) && k < |s.gens| && j < |s.gens| && j != k && s.gens[k].base <= id < Limit(s.gens[k])
    ensures LoggedOutside(id, s.gens[j])
  {
    assert j < k ==> Limit(s.gens[j]) <= s.gens[k].base;
    assert k < j ==> Limit(s.gens[k]) <= s.gens[j].base;
  }

  lemma FinishKeepsLog(s: State, k: nat, script: Script)
    requires Inv(s) && k < |s.gens| && s.gens[k].inHand.Some?
    ensures LogInv(Apply(s, Finish(k, script)))
  {
    var t, g := Apply(s, Finish(k, script)), s.gens[k];
    FinishKeepsGen(g, script);
    assert Limit(g) <= |s.arrivals|;
    forall i, j | 0 <= i < |t.log| && 0 <= j < |t.gens|
      ensures LoggedOutside(t.log[i].id, t.gens[j])
    {
      if i < |s.log| {
        assert LoggedOutside(s.log[i].id, s.gens[j]);
      } else if j != k {
        OutsideOthers(s, k, g.inHand.value.id, j);
      }
    }
  }

  lemma FinishKeeps(s: State, k: nat, script: Script)
    requires Inv(s)
    ensures Inv(Apply(s, Finish(k, script)))
  {
    var t := Apply(s, Finish(k, script));
    if k < |s.gens| && s.gens[k].inHand.Some? {
      FinishKeepsGen(s.gens[k], script);
      ReplaceKeeps(s, t, k);
      FinishKeepsLog(s, k, script);
    }
  }

  /** A worker that exits and a queue that is closed have handled what they had handled. */
  lemma StopKeeps(s: State, k: nat, g: Generation)
    requires Inv(s) && k < |s.gens| && GenInv(g)
    requires g == s.gens[k].(open := g.open, worker := g.worker) && (g.open ==> s.gens[k].open)
    ensures Inv(s.(gens := s.gens[k := g]))
  {
    var t := s.(gens := s.gens[k := g]);
    ReplaceKeeps(s, t, k);
    forall i, j | 0 <= i < |t.log| && 0 <= j < |t.gens|
      ensures LoggedOutside(t.log[i].id, t.gens[j])
    {
      assert LoggedOutside(s.log[i].id, s.gens[j]);
    }
  }

  lemma ExitKeeps(s: State, k: nat)
    requires Inv(s)
    ensures Inv(Apply(s, Exit(k)))
  {
    if k < |s.gens| && s.gens[k].worker.Running? && Idle(s.gens[k]) && !s.gens[k].open {
      StopKeeps(s, k, s.gens[k].(worker := Exited));
    }
  }

  lemma DrainKeeps(s: State)
    requires Inv(s)
    ensures Inv(Apply(s, Drain))
  {
    if HasOpen(s) {
      var k := |s.gens| - 1;
      StopKeeps(s, k, s.gens[k].(open := false));
    }
  }

  lemma ApplyKeeps(s: State, l: Label)
    requires Inv(s)
    ensures Inv(Apply(s, l))
  {
    match l
    case Enqueue(event) =>
      OpenedKeeps(s);
      SendKeeps(Opened(s), event);
    case Take(k) => TakeKeeps(s, k);
    case Finish(k, script) => FinishKeeps(s, k, script);
    case Exit(k) => ExitKeeps(s, k);
    case Drain => DrainKeeps(s);
  }

  lemma {:induction false} ExecInv(s: State, run: seq<Label>)
    requires Inv(s)
    ensures Inv(ExecFrom(s, run))
  {
    if run != [] {
      ExecInv(s, run[..|run| - 1]);
      ApplyKeeps(ExecFrom(s, run[..|run| - 1]), run[|run| - 1]);
    }
  }

  // ---------------------------------------------------------------------------------------------
  // Main results

  /** In every run a worker has handled exactly the events accepted for its queue, in the order they
      were accepted, except the one in hand and the at most 64 still queued. This goes on after the
      queue is closed, and a worker exits only when none is left. */
  lemma HandledAreAccepted(run: seq<Label>, k: nat)
    requires k < |Exec(run).gens|
    ensures var g := Exec(run).gens[k];
            && g.accepted == g.handled + Pending(g)
            && |g.queue| <= 64
            && (g.worker.Exited? ==> g.handled == g.accepted)
  {
    ExecInv(State([], [], []), run);
    var g := Exec(run).gens[k];
    assert GenInv(g);
    if g.worker.Exited? {
      assert g.handled + [] == g.handled;
    }
  }

  /** The event is the last arrival, and the last of an open queue with a worker. */
  ghost predicate Joins(s: State, t: State, event: string, before: seq<Job>, others: seq<Generation>) {
    var job := Job(|s.arrivals|, event);
    && t.arrivals == s.arrivals + [job] && t.log == s.log
    && |t.gens| == |others| + 1 && t.gens[..|others|] == others
    && var g := t.gens[|others|]; g.open && !g.worker.NotStarted? && g.queue == before + [job]
  }

  lemma SendJoins(s: State, event: string)
    requires HasOpen(s) && |s.gens[|s.gens| - 1].queue| < 64
    ensures var n, t := |s.gens| - 1, Send(s, event);
            Joins(s, t, event, s.gens[n].queue, s.gens[..n]) && t.gens[n].handled == s.gens[n].handled
  {
  }

  lemma FirstSendJoins(s: State, event: string)
    requires !HasOpen(s)
    ensures Joins(s, Send(Opened(s), event), event, [], s.gens)
  {
    SendJoins(Opened(s), event);
    assert Opened(s).gens[..|s.gens|] == s.gens;
  }

  /** In every run an Enqueue is accepted unless the open queue of the CallSid holds 64 events already: the
      event is the last of the open queue, numbered by its arrival, and its worker runs. Without an open queue
      it opens one. */
  lemma EnqueueIsAccepted(run: seq<Label>, event: string)
    ensures var s, t, n := Exec(run), Exec(run + [Enqueue(event)]), |Exec(run).gens| - 1;
            if n < 0 || !s.gens[n].open then Joins(s, t, event, [], s.gens)
            else if |s.gens[n].queue| == 64 then t == s
            else Joins(s, t, event, s.gens[n].queue, s.gens[..n]) && t.gens[n].handled == s.gens[n].handled
  {
    ExecInv(State([], [], []), run);
    assert (run + [Enqueue(event)])[..|run|] == run;
    var s := Exec(run);
    if HasOpen(s) {
      assert GenInv(s.gens[|s.gens| - 1]);
      if |s.gens[|s.gens| - 1].queue| < 64 {
        SendJoins(s, event);
      }
    } else {
      FirstSendJoins(s, event);
    }
  }

  /** DrainAndClose closes the open queue, so that the next Enqueue opens another. */
  lemma DrainCloses(run: seq<Label>)
    ensures var s, t := Exec(run), Exec(run + [Drain]);
            && |t.gens| == |s.gens| && (t.gens != [] ==> !t.gens[|t.gens| - 1].open)
            && (forall k :: 0 <= k < |s.gens| ==> t.gens[k] == s.gens[k].(open := t.gens[k].open))
  {
    assert (run + [Drain])[..|run|] == run;
  }

  lemma ExecOne(s: State, l: Label)
    ensures ExecFrom(s, [l]) == Apply(s, l)
  {
    assert [l][..0] == [];
  }

  lemma WorkerCanGoOn(s: State, k: nat)
    requires Inv(s) && k < |s.gens| && !Idle(s.gens[k])
    ensures var l := if s.gens[k].inHand.Some? then Finish(k, SLOWEST) else Take(k);
            var t := Apply(s, l);
            && |t.gens| == |s.gens| && (forall j :: 0 <= j < |s.gens| && j != k ==> t.gens[j] == s.gens[j])
            && Inv(t) && 2 * |t.gens[k].queue| + (if t.gens[k].inHand.Some? then 1 else 0)
                         < 2 * |s.gens[k].queue| + (if s.gens[k].inHand.Some? then 1 else 0)
  {
    assert GenInv(s.gens[k]);
    ApplyKeeps(s, if s.gens[k].inHand.Some? then Finish(k, SLOWEST) else Take(k));
  }

  lemma {:induction false} WorkerCanFinish(s: State, k: nat) returns (more: seq<Label>)
    requires Inv(s) && k < |s.gens|
    ensures var t := ExecFrom(s, more);
            && NoEnqueue(more) && Inv(t) && |t.gens| == |s.gens| && Idle(t.gens[k])
            && forall j :: 0 <= j < |s.gens| && j != k ==> t.gens[j] == s.gens[j]
    decreases 2 * |s.gens[k].queue| + (if s.gens[k].inHand.Some? then 1 else 0)
  {
    if Idle(s.gens[k]) {
      more := [];
    } else {
      var l := if s.gens[k].inHand.Some? then Finish(k, SLOWEST) else Take(k);
      WorkerCanGoOn(s, k);
      var rest := WorkerCanFinish(Apply(s, l), k);
      ExecOne(s, l);
      ExecSplits(s, [l], rest);
      more := [l] + rest;
    }
  }

  lemma {:induction false} WorkersCanFinish(s: State, n: nat) returns (more: seq<Label>)
    requires Inv(s) && n <= |s.gens|
    ensures var t := ExecFrom(s, more);
            NoEnqueue(more) && Inv(t) && |t.gens| == |s.gens| && forall k :: 0 <= k < n ==> Idle(t.gens[k])
  {
    if n == 0 {
      more := [];
    } else {
      var front := WorkersCanFinish(s, n - 1);
      var last := WorkerCanFinish(ExecFrom(s, front), n - 1);
      ExecSplits(s, front, last);
      more := front + last;
    }
  }

  /** However far a run has come, the workers can still handle every event that was accepted. */
  lemma EveryEventCanBeHandled(run: seq<Label>) returns (more: seq<Label>)
    ensures NoEnqueue(more)
    ensures var t := Exec(run + more);
            forall k :: 0 <= k < |t.gens| ==> t.gens[k].handled == t.gens[k].accepted
  {
    ExecInv(State([], [], []), run);
    more := WorkersCanFinish(Exec(run), |Exec(run).gens|);
    ExecSplits(State([], [], []), run, more);
    forall k | 0 <= k < |Exec(run + more).gens|
      ensures Exec(run + more).gens[k].handled == Exec(run + more).gens[k].accepted
    {
      var g := Exec(run + more).gens[k];
      assert GenInv(g) && Idle(g);
      assert g.handled + [] == g.handled;
    }
  }

  /** And a worker whose queue is closed and handled can exit. */
  lemma ClosedWorkerCanExit(run: seq<Label>, k: nat)
    requires k < |Exec(run).gens|
    ensures var g, h := Exec(run).gens[k], Exec(run + [Exit(k)]).gens;
            k < |h| && (h[k].worker.Exited? <==> g.worker.Exited? || (!g.open && g.worker.Running? && Idle(g)))
  {
    assert (run + [Exit(k)])[..|run|] == run;
  }

  /** A closed queue loses no event and keeps its order however the run goes on, and each further event
      takes at most 23 seconds. */
  ghost predicate Continues(a: Generation, b: Generation) {
    && !b.open && b.accepted == a.accepted
    && |a.handled| <= |b.handled|
    && b.busy - a.busy <= WORST_CASE * (|b.handled| - |a.handled|)
  }

  lemma FinishContinues(s: State, n: nat, script: Script, k: nat)
    requires Inv(s) && k < |s.gens| && !s.gens[k].open
    ensures k < |Apply(s, Finish(n, script)).gens| && Continues(s.gens[k], Apply(s, Finish(n, script)).gens[k])
  {
    SpentIsBounded(script, Attempts(script));
  }

  lemma EnqueueContinues(s: State, event: string, k: nat)
    requires k < |s.gens| && !s.gens[k].open
    ensures k < |Apply(s, Enqueue(event)).gens| && Apply(s, Enqueue(event)).gens[k] == s.gens[k]
  {
    assert Opened(s).gens[k] == s.gens[k];
  }

  lemma StepContinues(s: State, l: Label, k: nat)
    requires Inv(s) && k < |s.gens| && !s.gens[k].open
    ensures k < |Apply(s, l).gens| && Continues(s.gens[k], Apply(s, l).gens[k])
  {
    match l
    case Finish(n, script) => FinishContinues(s, n, script, k);
    case Enqueue(event) => EnqueueContinues(s, event, k);
    case _ =>
  }

  lemma {:induction false} ClosedContinues(s: State, run: seq<Label>, k: nat)
    requires Inv(s) && k < |s.gens| && !s.gens[k].open
    ensures k < |ExecFrom(s, run).gens| && Continues(s.gens[k], ExecFrom(s, run).gens[k])
  {
    if run != [] {
      var front := run[..|run| - 1];
      ClosedContinues(s, front, k);
      ExecInv(s, front);
      StepContinues(ExecFrom(s, front), run[|run| - 1], k);
    }
  }

  /** With k events pending when DrainAndClose closes a queue, its worker is busy for at most 23k
      seconds more, also past a drain that timed out. */
  lemma DrainIsBounded(pre: seq<Label>, post: seq<Label>, k: nat)
    requires k < |Exec(pre).gens| && !Exec(pre).gens[k].open
    ensures k < |Exec(pre + post).gens|
    ensures Exec(pre + post).gens[k].busy - Exec(pre).gens[k].busy <= WORST_CASE * |Pending(Exec(pre).gens[k])|
  {
    ExecInv(State([], [], []), pre);
    ExecSplits(State([], [], []), pre, post);
    ClosedContinues(Exec(pre), post, k);
    ExecInv(Exec(pre), post);
    assert GenInv(Exec(pre).gens[k]) && GenInv(Exec(pre + post).gens[k]);
  }

  /** The CallSid as a whole is served first come, first served. */
  predicate InOrder(s: State) {
    |s.log| <= |s.arrivals| && s.log == s.arrivals[..|s.log|]
  }

  lemma InOrderIds(t: State, i: nat, j: nat)
    requires Inv(t) && InOrder(t) && i < |t.log| && j < |t.gens|
    ensures t.log[i].id == i && LoggedOutside(i, t.gens[j])
  {
    assert t.log[i] == t.arrivals[i];
    assert LoggedOutside(t.log[i].id, t.gens[j]);
  }

  lemma LaterWasHandledFirst(t: State, j: nat)
    requires Inv(t) && t.log != [] && j < |t.gens| && !Idle(t.gens[j])
    requires t.log[|t.log| - 1].id >= Limit(t.gens[j])
    ensures !InOrder(t)
  {
    var g := t.gens[j];
    assert GenInv(g);
    assert |Pending(g)| > 0;
    if InOrder(t) {
      InOrderIds(t, |t.log| - 1, j);
      InOrderIds(t, g.base + |g.handled|, j);
    }
  }

  ghost predicate NoEnqueue(run: seq<Label>) {
    forall i :: 0 <= i < |run| ==> !run[i].Enqueue?
  }

  lemma FinishNext(s: State, k: nat)
    requires k < |s.gens| && GenInv(s.gens[k]) && s.gens[k].inHand.Some?
    ensures var t := Apply(s, Finish(k, SLOWEST));
            && |t.gens| == |s.gens| && (forall j :: 0 <= j < |s.gens| && j != k ==> t.gens[j] == s.gens[j])
            && t.log != [] && t.log[|t.log| - 1].id >= s.gens[k].base
  {
    FinishKeepsGen(s.gens[k], SLOWEST);
  }

  lemma TakeNext(s: State, k: nat)
    requires Inv(s) && k < |s.gens| && !Idle(s.gens[k]) && s.gens[k].inHand.None?
    ensures var t := Apply(s, Take(k));
            && t.gens == s.gens[k := t.gens[k]] && t.gens[k].base == s.gens[k].base
            && GenInv(t.gens[k]) && t.gens[k].inHand.Some?
  {
    assert GenInv(s.gens[k]);
    TakeKeeps(s, k);
  }

  /** The last event handled comes after those of generation j, which has done nothing since s. */
  predicate HandledAhead(s: State, t: State, j: nat) {
    && j < |s.gens| && j < |t.gens| && t.gens[j] == s.gens[j]
    && t.log != [] && t.log[|t.log| - 1].id >= Limit(s.gens[j])
  }

  /** The newer worker handles its next event; the older one does nothing meanwhile. */
  lemma HandleNext(s: State, j: nat, k: nat) returns (more: seq<Label>)
    requires Inv(s) && j < k < |s.gens| && !Idle(s.gens[k])
    ensures NoEnqueue(more) && HandledAhead(s, ExecFrom(s, more), j)
  {
    assert Limit(s.gens[j]) <= s.gens[k].base;
    if s.gens[k].inHand.Some? {
      more := [Finish(k, SLOWEST)];
      ExecOne(s, more[0]);
      FinishNext(s, k);
    } else {
      more := [Take(k), Finish(k, SLOWEST)];
      TakeNext(s, k);
      FinishNext(Apply(s, Take(k)), k);
      ExecOne(s, Take(k));
      ExecOne(Apply(s, Take(k)), Finish(k, SLOWEST));
      ExecSplits(s, [Take(k)], [Finish(k, SLOWEST)]);
      assert more == [Take(k)] + [Finish(k, SLOWEST)];
    }
  }

  lemma LaterInverts(s: State, t: State, j: nat)
    requires Inv(t) && HandledAhead(s, t, j) && !Idle(s.gens[j])
    ensures !InOrder(t)
  {
    LaterWasHandledFirst(t, j);
  }

  lemma OverlapInverts(s: State, j: nat, k: nat) returns (more: seq<Label>)
    requires Inv(s) && j < k < |s.gens| && !Idle(s.gens[j]) && !Idle(s.gens[k])
    ensures NoEnqueue(more) && !InOrder(ExecFrom(s, more))
  {
    more := HandleNext(s, j, k);
    ExecInv(s, more);
    LaterInverts(s, ExecFrom(s, more), j);
  }

  /** At most one worker of the CallSid has work. */
  ghost predicate OneBusy(s: State) {
    forall j, k :: 0 <= j < k < |s.gens| ==> Idle(s.gens[j]) || Idle(s.gens[k])
  }

  // What is not handled yet is pending somewhere.

  function Backlog(gens: seq<Generation>): nat {
    if gens == [] then 0 else Backlog(gens[..|gens| - 1]) + |Pending(gens[|gens| - 1])|
  }

  lemma {:induction false} BacklogUpdate(gens: seq<Generation>, k: nat, g: Generation)
    requires k < |gens|
    ensures Backlog(gens[k := g]) + |Pending(gens[k])| == Backlog(gens) + |Pending(g)|
  {
    var n := |gens| - 1;
    if k == n {
      assert gens[k := g][..n] == gens[..n];
    } else {
      assert gens[k := g][..n] == gens[..n][k := g];
      BacklogUpdate(gens[..n], k, g);
    }
  }

  lemma {:induction false} BacklogOfIdle(gens: seq<Generation>)
    requires forall j :: 0 <= j < |gens| ==> Idle(gens[j])
    ensures Backlog(gens) == 0
  {
    if gens != [] {
      BacklogOfIdle(gens[..|gens| - 1]);
    }
  }

  lemma {:induction false} BacklogOfOne(gens: seq<Generation>, k: nat)
    requires k < |gens| && forall j :: 0 <= j < |gens| && j != k ==> Idle(gens[j])
    ensures Backlog(gens) == |Pending(gens[k])|
  {
    var n := |gens| - 1;
    if k == n {
      BacklogOfIdle(gens[..n]);
    } else {
      BacklogOfOne(gens[..n], k);
    }
  }

  /** Handled and pending jobs make up the accepted ones, and each generation's jobs are the accepted
      ones of its range. */
  ghost predicate Accounted(s: State) {
    && |s.log| + Backlog(s.gens) == |s.arrivals|
    && (forall k, i :: 0 <= k < |s.gens| && 0 <= i < |s.gens[k].accepted| ==> JobOfRange(s, k, i))
  }

  ghost predicate JobOfRange(s: State, k: nat, i: nat)
    requires k < |s.gens| && i < |s.gens[k].accepted|
  {
    s.gens[k].base + i < |s.arrivals| && s.gens[k].accepted[i] == s.arrivals[s.gens[k].base + i]
  }

  lemma OpenedAccounted(s: State)
    requires Accounted(s)
    ensures Accounted(Opened(s))
  {
    var t := Opened(s);
    if t != s {
      assert t.gens[..|s.gens|] == s.gens;
      forall k, i | 0 <= k < |t.gens| && 0 <= i < |t.gens[k].accepted|
        ensures JobOfRange(t, k, i)
      {
        assert t.gens[k] == s.gens[k] && JobOfRange(s, k, i);
      }
    }
  }

  lemma SendCopies(s: State, event: string, k: nat, i: nat)
    requires Inv(s) && Accounted(s) && HasOpen(s)
    requires k < |Send(s, event).gens| && i < |Send(s, event).gens[k].accepted|
    ensures JobOfRange(Send(s, event), k, i)
  {
    var t, n := Send(s, event), |s.gens| - 1;
    if k != n {
      assert t.gens[k] == s.gens[k] && JobOfRange(s, k, i);
    } else if i < |s.gens[n].accepted| {
      assert JobOfRange(s, n, i);
    } else {
      assert Limit(s.gens[n]) == |s.arrivals|;
    }
  }

  lemma SendAccounted(s: State, event: string)
    requires Inv(s) && Accounted(s) && HasOpen(s)
    ensures Accounted(Send(s, event))
  {
    var t, n := Send(s, event), |s.gens| - 1;
    if |s.gens[n].queue| < PER_CALL_QUEUE_DEPTH {
      BacklogUpdate(s.gens, n, t.gens[n]);
      assert |Pending(t.gens[n])| == |Pending(s.gens[n])| + 1;
    }
    forall k, i | 0 <= k < |t.gens| && 0 <= i < |t.gens[k].accepted|
      ensures JobOfRange(t, k, i)
    {
      SendCopies(s, event, k, i);
    }
  }

  /** A job moves within its generation, or from it to the log. */
  lemma ReplaceAccounted(s: State, t: State, k: nat)
    requires Accounted(s) && k < |s.gens| == |t.gens| && t.gens == s.gens[k := t.gens[k]] && t.arrivals == s.arrivals
    requires t.gens[k].base == s.gens[k].base && t.gens[k].accepted == s.gens[k].accepted
    requires |t.log| + |Pending(t.gens[k])| == |s.log| + |Pending(s.gens[k])|
    ensures Accounted(t)
  {
    BacklogUpdate(s.gens, k, t.gens[k]);
    forall j, i | 0 <= j < |t.gens| && 0 <= i < |t.gens[j].accepted|
      ensures JobOfRange(t, j, i)
    {
      assert t.gens[j].accepted == s.gens[j].accepted && t.gens[j].base == s.gens[j].base;
      assert JobOfRange(s, j, i);
    }
  }

  lemma WorkAccounted(s: State, l: Label)
    requires Accounted(s) && !l.Enqueue?
    ensures Accounted(Apply(s, l))
  {
    var t := Apply(s, l);
    if t != s {
      ReplaceAccounted(s, t, if l.Drain? then |s.gens| - 1 else l.g);
    }
  }

  lemma StepAccounted(s: State, l: Label)
    requires Inv(s) && Accounted(s)
    ensures Accounted(Apply(s, l))
  {
    if l.Enqueue? {
      OpenedKeeps(s);
      OpenedAccounted(s);
      SendAccounted(Opened(s), l.event);
    } else {
      WorkAccounted(s, l);
    }
  }

  lemma {:induction false} ExecAccounted(s: State, run: seq<Label>)
    requires Inv(s) && Accounted(s)
    ensures Inv(ExecFrom(s, run)) && Accounted(ExecFrom(s, run))
  {
    if run != [] {
      ExecAccounted(s, run[..|run| - 1]);
      StepAccounted(ExecFrom(s, run[..|run| - 1]), run[|run| - 1]);
      ApplyKeeps(ExecFrom(s, run[..|run| - 1]), run[|run| - 1]);
    }
  }

  // When the order is safe.

  /** With the handled jobs in order and one worker busy, that worker's next job is the next accepted. */
  lemma NextIsNext(s: State, k: nat)
    requires Inv(s) && Accounted(s) && InOrder(s) && OneBusy(s) && k < |s.gens| && !Idle(s.gens[k])
    ensures |s.log| < |s.arrivals| && Pending(s.gens[k])[0] == s.arrivals[|s.log|]
  {
    var g := s.gens[k];
    BacklogOfOne(s.gens, k);
    assert GenInv(g);
    var next := g.base + |g.handled|;
    assert g.accepted[|g.handled|] == Pending(g)[0];
    assert JobOfRange(s, k, |g.handled|);
    assert Limit(g) <= |s.arrivals|;
    if next < |s.log| {
      InOrderIds(s, next, k);
    }
  }

  lemma FinishStaysInOrder(s: State, k: nat, script: Script)
    requires Inv(s) && Accounted(s) && InOrder(s) && OneBusy(s)
    ensures InOrder(Apply(s, Finish(k, script)))
  {
    if k < |s.gens| && s.gens[k].inHand.Some? {
      NextIsNext(s, k);
      assert s.arrivals[..|s.log|] + [s.arrivals[|s.log|]] == s.arrivals[..|s.log| + 1];
    }
  }

  lemma StepStaysInOrder(s: State, l: Label)
    requires Inv(s) && Accounted(s) && InOrder(s) && OneBusy(s)
    ensures InOrder(Apply(s, l))
  {
    match l
    case Finish(k, script) => FinishStaysInOrder(s, k, script);
    case _ => assert Apply(s, l).log == s.log && s.arrivals <= Apply(s, l).arrivals;
  }

  lemma WorkStaysOneBusy(s: State, l: Label)
    requires OneBusy(s) && !l.Enqueue?
    ensures OneBusy(Apply(s, l))
  {
    var t := Apply(s, l);
    if t != s {
      assert |t.gens| == |s.gens|;
      assert forall k :: 0 <= k < |s.gens| && Idle(s.gens[k]) ==> Idle(t.gens[k]);
    }
  }

  lemma {:induction false} WorkStaysInOrder(s: State, more: seq<Label>)
    requires Inv(s) && Accounted(s) && InOrder(s) && OneBusy(s) && NoEnqueue(more)
    ensures InOrder(ExecFrom(s, more)) && OneBusy(ExecFrom(s, more))
  {
    if more != [] {
      var front, last := more[..|more| - 1], more[|more| - 1];
      WorkStaysInOrder(s, front);
      ExecAccounted(s, front);
      StepStaysInOrder(ExecFrom(s, front), last);
      WorkStaysOneBusy(ExecFrom(s, front), last);
    }
  }

  /** The order is safe as long as nothing more is enqueued: no work of the workers can bring it out of
      order. */
  ghost predicate OrderIsSafe(s: State) {
    forall more :: NoEnqueue(more) ==> InOrder(ExecFrom(s, more))
  }

  lemma StateIsSafeIff(s: State)
    requires Inv(s) && Accounted(s)
    ensures OrderIsSafe(s) <==> InOrder(s) && OneBusy(s)
  {
    if !InOrder(s) {
      assert NoEnqueue([]) && !InOrder(ExecFrom(s, []));
    }
    if !OneBusy(s) {
      var j, k :| 0 <= j < k < |s.gens| && !Idle(s.gens[j]) && !Idle(s.gens[k]);
      var more := OverlapInverts(s, j, k);
    }
    if InOrder(s) && OneBusy(s) {
      forall more | NoEnqueue(more)
        ensures InOrder(ExecFrom(s, more))
      {
        WorkStaysInOrder(s, more);
      }
    }
  }

  /** In every reachable state: the workers cannot bring the order of the CallSid's events out of step
      if and only if it is in step so far and at most one worker has work. */
  lemma OrderIsSafeIff(run: seq<Label>)
    ensures OrderIsSafe(Exec(run)) <==> InOrder(Exec(run)) && OneBusy(Exec(run))
  {
    ExecAccounted(State([], [], []), run);
    StateIsSafeIff(Exec(run));
  }

  ghost predicate AlwaysOneBusy(run: seq<Label>) {
    forall n :: 0 <= n <= |run| ==> OneBusy(Exec(run[..n]))
  }

  lemma AlwaysOneBusyFront(run: seq<Label>)
    requires run != [] && AlwaysOneBusy(run)
    ensures AlwaysOneBusy(run[..|run| - 1]) && OneBusy(Exec(run[..|run| - 1]))
  {
    var front := run[..|run| - 1];
    forall n | 0 <= n <= |front|
      ensures OneBusy(Exec(front[..n]))
    {
      assert front[..n] == run[..n];
    }
    assert front[..|front|] == front;
  }

  /** If no Enqueue ever starts a worker while an older one still has an event, the events of the CallSid
      are handled in the order they were accepted. */
  lemma {:induction false} CalmRunsAreInOrder(run: seq<Label>)
    requires AlwaysOneBusy(run)
    ensures InOrder(Exec(run))
  {
    if run != [] {
      var front := run[..|run| - 1];
      AlwaysOneBusyFront(run);
      CalmRunsAreInOrder(front);
      ExecAccounted(State([], [], []), front);
      StepStaysInOrder(Exec(front), run[|run| - 1]);
    }
  }

  /** Along a whole run: the order was safe at every point if and only if there were never two workers
      with work at once. */
  lemma RunIsSafeIff(run: seq<Label>)
    ensures (forall n :: 0 <= n <= |run| ==> OrderIsSafe(Exec(run[..n]))) <==> AlwaysOneBusy(run)
  {
    forall n | 0 <= n <= |run|
      ensures OrderIsSafe(Exec(run[..n])) ==> OneBusy(Exec(run[..n]))
      ensures AlwaysOneBusy(run) ==> OrderIsSafe(Exec(run[..n]))
    {
      OrderIsSafeIff(run[..n]);
      if AlwaysOneBusy(run) {
        forall m | 0 <= m <= n
          ensures OneBusy(Exec(run[..n][..m]))
        {
          assert run[..n][..m] == run[..m];
        }
        CalmRunsAreInOrder(run[..n]);
      }
    }
  }

  /** Otherwise the order is open: whenever an older worker still has an event while a newer one has
      one too, the run can go on so that the newer event is handled first. */
  lemma OverlapCanInvert(run: seq<Label>, j: nat, k: nat) returns (more: seq<Label>)
    requires j < k < |Exec(run).gens| && !Idle(Exec(run).gens[j]) && !Idle(Exec(run).gens[k])
    ensures !InOrder(Exec(run + more))
  {
    ExecInv(State([], [], []), run);
    more := OverlapInverts(Exec(run), j, k);
    ExecSplits(State([], [], []), run, more);
  }
}
