/**
  The circuit breaker of a provider as a fold over the calls made to it, and what
  the fold amounts to in terms of those calls. Times are in nanoseconds.
 */
module Breaker {
  import opened Domain

  const COOLDOWN: nat := 30_000_000_000

  datatype State = State(failures: nat, openedUntil: Option<int>, latency: nat)

  const Fresh: State := State(0, None, 0)

  /** One recorded call: how long it took (not positive: no latency sample), how
      it failed, if it did, and when that was recorded. */
  datatype Sample = Sample(elapsed: int, failure: Option<ErrorClass>, at: int)

  predicate IsOpen(b: State, now: int) {
    b.openedUntil.Some? && now < b.openedUntil.value
  }

  predicate Success(s: Sample) {
    s.failure.None?
  }

  predicate Retryable(s: Sample) {
    s.failure.Some? && IsRetryable(s.failure.value)
  }

  function NextLatency(latency: nat, elapsed: int): nat {
    if elapsed <= 0 then latency
    else if latency == 0 then elapsed
    else (latency + elapsed) / 2
  }

  function Step(b: State, s: Sample): State {
    var l := NextLatency(b.latency, s.elapsed);
    if Success(s) then State(0, None, l)
    else if !Retryable(s) then b.(latency := l)
    else
      var n := b.failures + 1;
      State(n, if n >= 2 then Some(s.at + n * COOLDOWN) else b.openedUntil, l)
  }

  function After(h: seq<Sample>): State
    decreases |h|
  {
    var n := |h| - 1;
    if n < 0 then Fresh else Step(After(h[..n]), h[n])
  }

  // ------------------------------------------------- what the fold amounts to

  /** The last call before n that succeeded, or -1. */
  function LastSuccess(h: seq<Sample>, n: nat): (i: int)
    requires n <= |h|
    ensures -1 <= i < n && (i >= 0 ==> Success(h[i]))
    ensures forall j :: i < j < n ==> !Success(h[j])
  {
    if n == 0 then -1 else if Success(h[n - 1]) then n - 1 else LastSuccess(h, n - 1)
  }

  /** The last call before n that failed in a retryable way, or -1. */
  function LastRetryable(h: seq<Sample>, n: nat): (i: int)
    requires n <= |h|
    ensures -1 <= i < n && (i >= 0 ==> Retryable(h[i]))
    ensures forall j :: i < j < n ==> !Retryable(h[j])
  {
    if n == 0 then -1 else if Retryable(h[n - 1]) then n - 1 else LastRetryable(h, n - 1)
  }

  /** The retryable failures among the calls lo, ..., n - 1. */
  function RetryableIn(h: seq<Sample>, lo: nat, n: nat): nat
    requires n <= |h|
    decreases n
  {
    if n <= lo then 0
    else RetryableIn(h, lo, n - 1) + (if Retryable(h[n - 1]) then 1 else 0)
  }

  /** The retryable failures since the last success. */
  function Streak(h: seq<Sample>, n: nat): nat
    requires n <= |h|
  {
    RetryableIn(h, LastSuccess(h, n) + 1, n)
  }

  lemma {:induction false} StreakHasALast(h: seq<Sample>, n: nat)
    requires n <= |h| && Streak(h, n) > 0
    ensures LastRetryable(h, n) > LastSuccess(h, n)
    decreases n
  {
    if n > 0 && !Success(h[n - 1]) && !Retryable(h[n - 1]) {
      StreakHasALast(h, n - 1);
    }
  }

  lemma {:induction false} AfterCounts(h: seq<Sample>, n: nat)
    requires n <= |h|
    ensures var b := After(h[..n]);
      b.failures == Streak(h, n)
      && b.openedUntil == (if Streak(h, n) >= 2 && LastRetryable(h, n) >= 0
                           then Some(h[LastRetryable(h, n)].at + Streak(h, n) * COOLDOWN) else None)
    decreases n
  {
    if n > 0 {
      assert h[..n][..n - 1] == h[..n - 1];
      AfterCounts(h, n - 1);
      if Streak(h, n - 1) > 0 {
        StreakHasALast(h, n - 1);
      }
    }
  }

  /** The breaker counts the retryable failures since the last success, and is open
      if and only if there were two or more and the last one is less than 30 seconds
      per failure ago. */
  lemma BreakerRefinesHistory(h: seq<Sample>, now: int)
    ensures var f := Streak(h, |h|);
      After(h).failures == f
      && (IsOpen(After(h), now) <==>
            f >= 2 && LastRetryable(h, |h|) >= 0 && now < h[LastRetryable(h, |h|)].at + f * 30_000_000_000)
  {
    assert h[..|h|] == h;
    AfterCounts(h, |h|);
  }

  predicate HasSample(h: seq<Sample>) {
    exists i :: 0 <= i < |h| && h[i].elapsed > 0
  }

  predicate BetweenSamples(h: seq<Sample>, x: int) {
    && (exists i :: 0 <= i < |h| && 0 < h[i].elapsed <= x)
    && (exists i :: 0 <= i < |h| && x <= h[i].elapsed)
  }

  lemma BetweenStep(h: seq<Sample>, x: int, s: Sample)
    requires BetweenSamples(h, x) && x > 0
    ensures BetweenSamples(h + [s], NextLatency(x, s.elapsed))
  {
    var g := h + [s];
    var lo :| 0 <= lo < |h| && 0 < h[lo].elapsed <= x;
    var hi :| 0 <= hi < |h| && x <= h[hi].elapsed;
    assert g[lo] == h[lo] && g[hi] == h[hi] && g[|h|] == s;
  }

  /** The latency is 0 if and only if no call gave a sample; otherwise it lies
      between the least and the greatest sample. */
  lemma {:induction false} LatencyIsAnAverage(h: seq<Sample>)
    ensures After(h).latency == 0 <==> !HasSample(h)
    ensures HasSample(h) ==> BetweenSamples(h, After(h).latency)
    decreases |h|
  {
    var n := |h| - 1;
    if n >= 0 {
      var p := h[..n];
      LatencyIsAnAverage(p);
      assert h == p + [h[n]];
      assert forall i :: 0 <= i < n ==> h[i] == p[i];
      if HasSample(p) {
        BetweenStep(p, After(p).latency, h[n]);
      }
    }
  }

  /** A call without a sample leaves the latency alone, the first sample is the latency, and
      every later one is averaged with it, rounded down. */
  lemma LatencyHalves(h: seq<Sample>, s: Sample)
    ensures After(h + [s]).latency ==
      if s.elapsed <= 0 then After(h).latency
      else if forall i :: 0 <= i < |h| ==> h[i].elapsed <= 0 then s.elapsed
      else (After(h).latency + s.elapsed) / 2
  {
    assert (h + [s])[..|h|] == h;
    LatencyIsAnAverage(h);
  }
}
