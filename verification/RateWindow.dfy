/** The rolling-minute limiter of go/internal/sip/guardrails.go: 60 one-second slots against an
    exact log of the accepted dials. */
module RateWindow {

  newtype int32 = x: int | -0x8000_0000 <= x < 0x8000_0000
  newtype int64 = x: int | -0x8000_0000_0000_0000 <= x < 0x8000_0000_0000_0000

  /** Log entries of the 60 seconds that end with second `now`. */
  function Recent(log: seq<int>, now: int): nat {
    if log == [] then 0
    else Recent(log[..|log| - 1], now) + (if now - log[|log| - 1] < 60 then 1 else 0)
  }

  /** Log entries from second `from` to second `from + 59`. */
  function InMinute(log: seq<int>, from: int): nat {
    if log == [] then 0
    else InMinute(log[..|log| - 1], from) + (if from <= log[|log| - 1] < from + 60 then 1 else 0)
  }

  /** So it is their number. */
  lemma {:induction false} MinuteIsCounted(log: seq<int>, from: int)
    ensures InMinute(log, from) == |set k | 0 <= k < |log| && from <= log[k] < from + 60|
  {
    if log != [] {
      var n := |log| - 1;
      MinuteIsCounted(log[..n], from);
      var young := set k | 0 <= k < n && from <= log[..n][k] < from + 60;
      var all := set k | 0 <= k < |log| && from <= log[k] < from + 60;
      if from <= log[n] < from + 60 {
        assert n !in young && all == young + {n};
      } else {
        assert all == young;
      }
    }
  }

  ghost predicate NonDecreasing(log: seq<int>) {
    forall i, j :: 0 <= i <= j < |log| ==> log[i] <= log[j]
  }

  /** A log the exact limiter can produce: each entry found fewer than `max` recent ones. */
  ghost predicate Legal(log: seq<int>, max: int) {
    NonDecreasing(log) && forall k :: 0 <= k < |log| ==> Recent(log[..k], log[k]) < max
  }

  lemma LegalPrefix(log: seq<int>, max: int, n: nat)
    requires Legal(log, max) && n <= |log|
    ensures Legal(log[..n], max)
  {
    forall k | 0 <= k < n
      ensures Recent(log[..n][..k], log[..n][k]) < max
    {
      assert log[..n][..k] == log[..k];
    }
  }

  lemma {:induction false} LegalAppend(log: seq<int>, max: int, now: int)
    requires Legal(log, max) && (log == [] || log[|log| - 1] <= now) && Recent(log, now) < max
    ensures Legal(log + [now], max)
  {
    var more := log + [now];
    forall k | 0 <= k < |more|
      ensures Recent(more[..k], more[k]) < max
    {
      if k < |log| {
        assert more[..k] == log[..k];
      } else {
        assert more[..k] == log;
      }
    }
  }

  lemma {:induction false} LaterSeesFewer(log: seq<int>, now: int, later: int)
    requires now <= later
    ensures Recent(log, later) <= Recent(log, now)
  {
    if log != [] {
      LaterSeesFewer(log[..|log| - 1], now, later);
    }
  }

  lemma {:induction false} RecentIsBounded(log: seq<int>, max: int, now: int)
    requires Legal(log, max) && (log == [] || log[|log| - 1] <= now)
    ensures log != [] ==> Recent(log, now) <= max
    ensures log == [] ==> Recent(log, now) == 0
  {
    if log != [] {
      var n := |log| - 1;
      LaterSeesFewer(log, log[n], now);
    }
  }

  lemma {:induction false} MinuteIsRecent(log: seq<int>, from: int, now: int)
    requires from <= now < from + 60
    ensures InMinute(log, from) <= Recent(log, now)
  {
    if log != [] {
      MinuteIsRecent(log[..|log| - 1], from, now);
    }
  }

  lemma {:induction false} AllBefore(log: seq<int>, from: int)
    requires forall i :: 0 <= i < |log| ==> log[i] < from
    ensures InMinute(log, from) == 0
  {
    if log != [] {
      AllBefore(log[..|log| - 1], from);
    }
  }

  /** No 60 consecutive seconds of a run hold more than `max` accepted dials. */
  lemma {:induction false} AnyMinuteIsBounded(log: seq<int>, max: int, from: int)
    requires Legal(log, max)
    ensures InMinute(log, from) <= if max < 0 then 0 else max
  {
    if log != [] {
      var n := |log| - 1;
      var t := log[n];
      if t < from {
        AllBefore(log, from);
      } else if t < from + 60 {
        MinuteIsRecent(log[..n], from, t);
      } else {
        LegalPrefix(log, max, n);
        AnyMinuteIsBounded(log[..n], max, from);
      }
    }
  }

  // ---------------------------------------------------------------------------------------------
  // The slots

  /** Log entries that belong into slot `i` while it stands for second `sec`. */
  function InSlot(log: seq<int>, i: int, sec: int): nat {
    if log == [] then 0
    else
      var t := log[|log| - 1];
      InSlot(log[..|log| - 1], i, sec) + (if t == sec && t % 60 == i then 1 else 0)
  }

  /** What summing the first `n` slots that are younger than a minute gives. */
  function SlotSum(log: seq<int>, secs: seq<int>, now: int, n: nat): nat
    requires n <= |secs|
  {
    if n == 0 then 0
    else SlotSum(log, secs, now, n - 1) + (if now - secs[n - 1] < 60 then InSlot(log, n - 1, secs[n - 1]) else 0)
  }

  ghost predicate SlotsFit(log: seq<int>, secs: seq<int>, now: int) {
    && |secs| == 60
    && (forall i :: 0 <= i < 60 ==> 0 <= secs[i] <= now && (secs[i] % 60 == i || secs[i] == 0))
    && (forall t :: t in log ==> 0 <= t <= secs[t % 60])
  }

  lemma {:induction false} SlotSumSnoc(log: seq<int>, t: int, secs: seq<int>, now: int, n: nat)
    requires n <= |secs| <= 60
    ensures SlotSum(log + [t], secs, now, n) == SlotSum(log, secs, now, n) +
              (if t % 60 < n && secs[t % 60] == t && now - t < 60 then 1 else 0)
  {
    assert (log + [t])[..|log|] == log;
    if n > 0 {
      SlotSumSnoc(log, t, secs, now, n - 1);
    }
  }

  lemma {:induction false} SlotSumEmpty(secs: seq<int>, now: int, n: nat)
    requires n <= |secs|
    ensures SlotSum([], secs, now, n) == 0
  {
    if n > 0 {
      SlotSumEmpty(secs, now, n - 1);
    }
  }

  /** A slot at or after a recent second, and standing for the same place in the ring, is that second. */
  lemma YoungSecond(t: int, slot: int, now: int)
    requires 0 <= t <= slot <= now && (slot % 60 == t % 60 || slot == 0)
    ensures now - t < 60 ==> slot == t
  {
  }

  /** The sum over the young slots is the number of recent log entries. */
  lemma {:induction false} SlotSumIsRecent(log: seq<int>, secs: seq<int>, now: int)
    requires SlotsFit(log, secs, now)
    ensures SlotSum(log, secs, now, 60) == Recent(log, now)
  {
    if log == [] {
      SlotSumEmpty(secs, now, 60);
    } else {
      var n := |log| - 1;
      var t := log[n];
      assert log[..n] + [t] == log && t in log;
      forall u | u in log[..n]
        ensures 0 <= u <= secs[u % 60]
      {
        assert u in log;
      }
      SlotSumIsRecent(log[..n], secs, now);
      SlotSumSnoc(log[..n], t, secs, now, 60);
      YoungSecond(t, secs[t % 60], now);
    }
  }

  lemma {:induction false} PartialSums(log: seq<int>, secs: seq<int>, now: int, i: nat, n: nat)
    requires i <= n <= |secs|
    ensures SlotSum(log, secs, now, i) <= SlotSum(log, secs, now, n)
    ensures i < n && now - secs[i] < 60 ==> InSlot(log, i, secs[i]) <= SlotSum(log, secs, now, n)
  {
    if i < n {
      PartialSums(log, secs, now, i, n - 1);
    }
  }

  lemma {:induction false} FreshSecond(log: seq<int>, i: int, sec: int)
    requires sec !in log
    ensures InSlot(log, i, sec) == 0
  {
    if log != [] {
      assert log[|log| - 1] in log;
      FreshSecond(log[..|log| - 1], i, sec);
    }
  }

  function Ints(s: seq<int64>): (r: seq<int>)
    ensures |r| == |s| && forall i :: 0 <= i < |s| ==> r[i] == s[i] as int
  {
    seq(|s|, i requires 0 <= i < |s| => s[i] as int)
  }

  /** The global part of Guardrails, used under bucketMu. `log` is the exact record it stands for. */
  class RateLimiter {
    const maxPerMinute: int32
    const bucketCounts: array<int32>
    const bucketSecs: array<int64>
    ghost var log: seq<int>
    ghost var last: int

    ghost predicate Valid()
      reads this, bucketCounts, bucketSecs
    {
      && bucketCounts.Length == 60 && bucketSecs.Length == 60
      && 0 <= last
      && Legal(log, maxPerMinute as int)
      && SlotsFit(log, Ints(bucketSecs[..]), last)
      && (forall i :: 0 <= i < 60 ==> bucketCounts[i] as int == InSlot(log, i, bucketSecs[i] as int))
    }

    constructor (max: int32)
      ensures Valid() && log == [] && last == 0 && maxPerMinute == max
      ensures fresh(bucketCounts) && fresh(bucketSecs)
    {
      maxPerMinute := max;
      bucketCounts := new int32[60](i => 0);
      bucketSecs := new int64[60](i => 0);
      log, last := [], 0;
    }

    /** Make slot `now % 60` stand for second `now`. */
    method ClaimSlot(now: int64)
      requires Valid() && 0 <= now && last <= now as int
      modifies this`last, bucketCounts, bucketSecs
      ensures Valid() && last == now as int && bucketSecs[now % 60] == now
    {
      var idx := now % 60;
      if bucketSecs[idx] != now {
        assert now as int !in log;
        FreshSecond(log, idx as int, now as int);
        bucketCounts[idx] := 0;
        bucketSecs[idx] := now;
      }
      last := now as int;
    }

    /** The slots younger than a minute; the int32 sum cannot overflow. */
    method SumYoungSlots(now: int64) returns (sum: int32)
      requires Valid() && last == now as int
      ensures sum as int == Recent(log, now as int)
    {
      ghost var secs := Ints(bucketSecs[..]);
      LastIsNotLater();
      SlotSumIsRecent(log, secs, now as int);
      RecentIsBounded(log, maxPerMinute as int, now as int);
      sum := 0;
      for i := 0 to 60
        invariant sum as int == SlotSum(log, secs, now as int, i)
      {
        PartialSums(log, secs, now as int, i + 1, 60);
        if now - bucketSecs[i] < 60 {
          sum := sum + bucketCounts[i];
        }
      }
    }

    lemma LastIsNotLater()
      requires Valid()
      ensures log == [] || log[|log| - 1] <= last
    {
      if log != [] {
        assert log[|log| - 1] in log;
      }
    }

    /** checkAndIncrementGlobal: a dial is accepted exactly when fewer than maxPerMinute dials were
        accepted in the last 60 seconds. */
    method CheckAndIncrementGlobal(now: int64) returns (ok: bool)
      requires Valid() && 0 <= now && last <= now as int
      modifies this`log, this`last, bucketCounts, bucketSecs
      ensures Valid() && last == now as int
      ensures ok <==> Recent(old(log), now as int) < maxPerMinute as int
      ensures log == if ok then old(log) + [now as int] else old(log)
    {
      ClaimSlot(now);
      var sum := SumYoungSlots(now);
      ok := sum < maxPerMinute;
      if ok {
        CountDial(now);
      }
    }

    method CountDial(now: int64)
      requires Valid() && last == now as int && 0 <= now && bucketSecs[now % 60] == now
      requires Recent(log, now as int) < maxPerMinute as int
      modifies this`log, bucketCounts
      ensures Valid() && log == old(log) + [now as int]
    {
      var idx := now % 60;
      ghost var secs := Ints(bucketSecs[..]);
      LastIsNotLater();
      SlotSumIsRecent(log, secs, now as int);
      PartialSums(log, secs, now as int, idx as nat, 60);
      LegalAppend(log, maxPerMinute as int, now as int);
      assert (log + [now as int])[..|log|] == log;
      bucketCounts[idx] := bucketCounts[idx] + 1;
      log := log + [now as int];
    }
  }

  // ---------------------------------------------------------------------------------------------
  // Whole runs

  /** The exact limiter: the answers it gives to a sequence of clock readings, and its log. */
  function ExactLog(times: seq<int>, max: int): seq<int> {
    if times == [] then []
    else
      var now := times[|times| - 1];
      var log := ExactLog(times[..|times| - 1], max);
      if Recent(log, now) < max then log + [now] else log
  }

  lemma {:induction false} ExactLogIsLegal(times: seq<int>, max: int)
    requires NonDecreasing(times)
    ensures Legal(ExactLog(times, max), max)
    ensures ExactLog(times, max) != [] ==>
              times != [] && ExactLog(times, max)[|ExactLog(times, max)| - 1] <= times[|times| - 1]
  {
    if times != [] {
      var before := times[..|times| - 1];
      ExactLogIsLegal(before, max);
      if Recent(ExactLog(before, max), times[|times| - 1]) < max {
        LegalAppend(ExactLog(before, max), max, times[|times| - 1]);
      }
    }
  }

  /** Over every run, every 60 consecutive seconds hold at most `max` accepted dials. */
  lemma AcceptedPerMinute(times: seq<int>, max: int, from: int)
    requires NonDecreasing(times)
    ensures InMinute(ExactLog(times, max), from) <= if max < 0 then 0 else max
  {
    ExactLogIsLegal(times, max);
    AnyMinuteIsBounded(ExactLog(times, max), max, from);
  }

  predicate ExactAnswer(times: seq<int>, max: int, k: nat)
    requires k < |times|
  {
    Recent(ExactLog(times[..k], max), times[k]) < max
  }

  lemma ExactStep(times: seq<int>, max: int, k: nat)
    requires k < |times|
    ensures ExactLog(times[..k + 1], max) ==
            ExactLog(times[..k], max) + (if ExactAnswer(times, max, k) then [times[k]] else [])
  {
    assert times[..k + 1][..k] == times[..k];
  }

  /** One more dial on a limiter that has answered `times[..k]`. */
  method AskNext(limiter: RateLimiter, times: seq<int64>, k: nat) returns (ok: bool)
    requires limiter.Valid() && k < |times| && 0 <= times[k] && limiter.last <= times[k] as int
    requires limiter.log == ExactLog(Ints(times)[..k], limiter.maxPerMinute as int)
    modifies limiter, limiter.bucketCounts, limiter.bucketSecs
    ensures limiter.Valid() && limiter.last == times[k] as int
    ensures limiter.log == ExactLog(Ints(times)[..k + 1], limiter.maxPerMinute as int)
    ensures ok == ExactAnswer(Ints(times), limiter.maxPerMinute as int, k)
  {
    ExactStep(Ints(times), limiter.maxPerMinute as int, k);
    ok := limiter.CheckAndIncrementGlobal(times[k]);
  }

  /** The first k answers of the exact limiter. */
  function ExactAnswers(times: seq<int>, max: int, k: nat): (answers: seq<bool>)
    requires k <= |times|
    ensures |answers| == k && forall j :: 0 <= j < k ==> answers[j] == ExactAnswer(times, max, j)
  {
    if k == 0 then [] else ExactAnswers(times, max, k - 1) + [ExactAnswer(times, max, k - 1)]
  }

  /** Over any run with non-decreasing clock readings the slots answer like the exact log. */
  method Replay(times: seq<int64>, max: int32) returns (answers: seq<bool>)
    requires forall i, j :: 0 <= i <= j < |times| ==> 0 <= times[i] <= times[j]
    ensures answers == ExactAnswers(Ints(times), max as int, |times|)
  {
    var limiter := new RateLimiter(max);
    answers := [];
    for k := 0 to |times|
      invariant limiter.Valid() && fresh(limiter) && fresh(limiter.bucketCounts) && fresh(limiter.bucketSecs)
      invariant limiter.maxPerMinute == max && limiter.last == if k == 0 then 0 else times[k - 1] as int
      invariant limiter.log == ExactLog(Ints(times)[..k], max as int)
      invariant answers == ExactAnswers(Ints(times), max as int, k)
    {
      var ok := AskNext(limiter, times, k);
      answers := answers + [ok];
    }
  }
}
