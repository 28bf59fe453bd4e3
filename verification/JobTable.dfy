/**
  What the job transition table promises about whole lifecycles: how long a
  lifecycle with a given number of retries can be, and which statuses every
  successful lifecycle must have passed through.
 */
module JobTable {
  import opened Domain

  /** A lifecycle: statuses joined by edges of the table. */
  ghost predicate Lifecycle(run: seq<JobStatus>) {
    forall i {:trigger StepAt(run, i)} :: 0 <= i < |run| - 1 ==> StepAt(run, i)
  }

  ghost predicate StepAt(run: seq<JobStatus>, i: int)
    requires 0 <= i < |run| - 1
  {
    CanTransitionTo(run[i], run[i + 1])
  }

  predicate IsRetry(s: JobStatus, t: JobStatus) {
    s == FailedRetryable && t == Queued
  }

  /** Number of failed_retryable -> queued steps. */
  ghost function Retries(run: seq<JobStatus>): nat {
    if |run| < 2 then 0
    else Retries(run[..|run| - 1]) + if IsRetry(run[|run| - 2], run[|run| - 1]) then 1 else 0
  }

  /** Rank of a status: the length of the longest retry-free path that reaches it. */
  function Rank(s: JobStatus): nat {
    match s
    case Received => 0
    case Validated => 1
    case AwaitingPayment => 2
    case CreditsReserved => 3
    case Queued => 4
    case DispatchingProvider => 5
    case ProviderSubmitted => 6
    case ProviderPending => 7
    case ProviderProcessing => 8
    case ProviderSucceeded => 9
    case ProviderFailed => 9
    case Postprocessing => 10
    case ResultReady => 11
    case Delivering => 12
    case FailedRetryable => 13
    case Succeeded => 13
    case FailedTerminal => 14
    case Rejected => 10
    case Cancelled => 9
    case Expired => 5
    case Refunded => 15
  }

  lemma RankIncreases(s: JobStatus, t: JobStatus)
    requires CanTransitionTo(s, t)
    ensures if IsRetry(s, t) then Rank(t) == Rank(s) - 9 else Rank(s) < Rank(t)
  {
    match s {
      case Received => case Validated => case Rejected => case AwaitingPayment =>
      case CreditsReserved => case Queued => case DispatchingProvider => case ProviderSubmitted =>
      case ProviderPending => case ProviderProcessing => case ProviderSucceeded => case ProviderFailed =>
      case Postprocessing => case ResultReady => case Delivering => case Succeeded =>
      case FailedRetryable => case FailedTerminal => case Cancelled => case Expired => case Refunded =>
    }
  }

  lemma {:induction false} TransitionsWithinRank(run: seq<JobStatus>)
    requires |run| > 0 && run[0] == Received && Lifecycle(run)
    ensures |run| - 1 <= Rank(run[|run| - 1]) + 10 * Retries(run)
  {
    if |run| > 1 {
      var n := |run| - 1;
      var init := run[..n];
      forall i | 0 <= i < |init| - 1 ensures StepAt(init, i) { assert StepAt(run, i); }
      TransitionsWithinRank(init);
      assert StepAt(run, n - 1);
      RankIncreases(run[n - 1], run[n]);
    }
  }

  /** A lifecycle from received with k retries has at most 15 + 10k transitions. */
  lemma LifecycleBound(run: seq<JobStatus>)
    requires |run| > 0 && run[0] == Received && Lifecycle(run)
    ensures |run| - 1 <= 15 + 10 * Retries(run)
  {
    TransitionsWithinRank(run);
  }

  /** The retry-free stretch from queued to failed_retryable that a retry repeats. */
  const RETRY_LAP: seq<JobStatus> := [
    Queued, DispatchingProvider, ProviderSubmitted, ProviderPending, ProviderProcessing,
    ProviderSucceeded, Postprocessing, ResultReady, Delivering, FailedRetryable]

  /** The longest lifecycle with k retries, up to its last failed_retryable. */
  ghost function LongestUpToRetry(k: nat): seq<JobStatus> {
    if k == 0 then [Received, Validated, AwaitingPayment, CreditsReserved] + RETRY_LAP
    else LongestUpToRetry(k - 1) + RETRY_LAP
  }

  lemma LapIsLifecycle()
    ensures Lifecycle(RETRY_LAP) && Retries(RETRY_LAP) == 0
  {
    forall i | 0 <= i < |RETRY_LAP| - 1 ensures StepAt(RETRY_LAP, i) {}
    LapPrefixHasNoRetry(|RETRY_LAP|);
    assert RETRY_LAP[..|RETRY_LAP|] == RETRY_LAP;
  }

  lemma {:induction false} LapPrefixHasNoRetry(n: nat)
    requires n <= |RETRY_LAP|
    ensures Retries(RETRY_LAP[..n]) == 0
  {
    if n >= 2 {
      LapPrefixHasNoRetry(n - 1);
      assert RETRY_LAP[..n][..n - 1] == RETRY_LAP[..n - 1];
    }
  }

  /** Joining two lifecycles adds their retries and the one at the joint, if any. */
  lemma {:induction false} Join(a: seq<JobStatus>, b: seq<JobStatus>)
    requires |a| > 0 && |b| > 0 && Lifecycle(a) && Lifecycle(b)
    requires CanTransitionTo(a[|a| - 1], b[0])
    ensures Lifecycle(a + b)
    ensures Retries(a + b) == Retries(a) + Retries(b) + if IsRetry(a[|a| - 1], b[0]) then 1 else 0
    decreases |b|
  {
    var ab := a + b;
    forall i | 0 <= i < |ab| - 1 ensures StepAt(ab, i) {
      if i < |a| - 1 { assert StepAt(a, i); }
      else if i >= |a| { assert StepAt(b, i - |a|); }
    }
    var m := |b| - 1;
    if m == 0 {
      assert ab[..|a|] == a;
    } else {
      forall i | 0 <= i < m - 1 ensures StepAt(b[..m], i) { assert StepAt(b, i); }
      Join(a, b[..m]);
      assert ab[..|ab| - 1] == a + b[..m];
    }
  }

  lemma {:induction false} LongestIsLifecycle(k: nat)
    ensures var r := LongestUpToRetry(k);
            |r| == 14 + 10 * k && r[0] == Received && r[|r| - 1] == FailedRetryable
            && Lifecycle(r) && Retries(r) == k
  {
    LapIsLifecycle();
    if k == 0 {
      var head := [Received, Validated, AwaitingPayment, CreditsReserved];
      forall i | 0 <= i < |head| - 1 ensures StepAt(head, i) {}
      assert head[..3] == [Received, Validated, AwaitingPayment];
      assert head[..3][..2] == [Received, Validated];
      assert Retries([Received, Validated]) == 0;
      Join(head, RETRY_LAP);
    } else {
      LongestIsLifecycle(k - 1);
      Join(LongestUpToRetry(k - 1), RETRY_LAP);
    }
  }

  /** The bound is exact: for every k some lifecycle has 15 + 10k transitions. */
  lemma LifecycleBoundIsTight(k: nat) returns (run: seq<JobStatus>)
    ensures |run| > 0 && run[0] == Received && Lifecycle(run)
    ensures Retries(run) == k && |run| - 1 == 15 + 10 * k
  {
    LongestIsLifecycle(k);
    var tail := [FailedTerminal, Refunded];
    assert StepAt(tail, 0);
    Join(LongestUpToRetry(k), tail);
    run := LongestUpToRetry(k) + tail;
  }

  /** The statuses a successful job must have passed, in order. */
  const WAYPOINTS: seq<JobStatus> := [
    Queued, DispatchingProvider, ProviderSubmitted, ProviderSucceeded, ResultReady, Delivering, Succeeded]

  /** `at` picks increasing positions of `run` that hold the given statuses. */
  ghost predicate Visits(run: seq<JobStatus>, stops: seq<JobStatus>, at: seq<nat>) {
    && |at| == |stops|
    && (forall i :: 0 <= i < |at| ==> at[i] < |run| && run[at[i]] == stops[i])
    && (forall i, j :: 0 <= i < j < |at| ==> at[i] < at[j])
  }

  /** The waypoint that must precede a status in every lifecycle from received. */
  function LastWaypoint(s: JobStatus): int {
    match s
    case Queued => 0
    case DispatchingProvider => 1
    case ProviderSubmitted => 2
    case ProviderPending => 2
    case ProviderProcessing => 2
    case ProviderSucceeded => 3
    case Postprocessing => 3
    case ResultReady => 4
    case Delivering => 5
    case Succeeded => 6
    case _ => -1
  }

  lemma LastWaypointAdvancesByOne(s: JobStatus, t: JobStatus)
    requires CanTransitionTo(s, t)
    ensures LastWaypoint(t) <= LastWaypoint(s)
         || (LastWaypoint(t) == LastWaypoint(s) + 1 && t == WAYPOINTS[LastWaypoint(t)])
  {
    match s {
      case Received => case Validated => case Rejected => case AwaitingPayment =>
      case CreditsReserved => case Queued => case DispatchingProvider => case ProviderSubmitted =>
      case ProviderPending => case ProviderProcessing => case ProviderSucceeded => case ProviderFailed =>
      case Postprocessing => case ResultReady => case Delivering => case Succeeded =>
      case FailedRetryable => case FailedTerminal => case Cancelled => case Expired => case Refunded =>
    }
  }

  lemma LifecyclePrefix(run: seq<JobStatus>, n: nat)
    requires Lifecycle(run) && n <= |run|
    ensures Lifecycle(run[..n])
  {
    forall i | 0 <= i < n - 1 ensures StepAt(run[..n], i) {
      assert StepAt(run, i);
    }
  }

  lemma FewerStops(run: seq<JobStatus>, n: nat, m: nat, k: nat, at: seq<nat>)
    requires n <= |run| && k <= m <= |WAYPOINTS| && Visits(run[..n], WAYPOINTS[..m], at)
    ensures Visits(run, WAYPOINTS[..k], at[..k])
  {
  }

  lemma OneMoreStop(run: seq<JobStatus>, n: nat, m: nat, at: seq<nat>)
    requires n < |run| && m < |WAYPOINTS| && run[n] == WAYPOINTS[m] && Visits(run[..n], WAYPOINTS[..m], at)
    ensures Visits(run, WAYPOINTS[..m + 1], at + [n])
  {
  }

  lemma {:induction false} WaypointsVisited(run: seq<JobStatus>) returns (at: seq<nat>)
    requires |run| > 0 && run[0] == Received && Lifecycle(run)
    ensures Visits(run, WAYPOINTS[..LastWaypoint(run[|run| - 1]) + 1], at)
    decreases |run|
  {
    if |run| == 1 {
      at := [];
    } else {
      var n := |run| - 1;
      LifecyclePrefix(run, n);
      var before := WaypointsVisited(run[..n]);
      assert StepAt(run, n - 1);
      LastWaypointAdvancesByOne(run[n - 1], run[n]);
      var v, w := LastWaypoint(run[n - 1]), LastWaypoint(run[n]);
      if w <= v {
        FewerStops(run, n, v + 1, w + 1, before);
        at := before[..w + 1];
      } else {
        OneMoreStop(run, n, v + 1, before);
        at := before + [n];
      }
    }
  }

  /** Every lifecycle that ends in succeeded passed all waypoints, in this order. */
  lemma SuccessPassesWaypoints(run: seq<JobStatus>) returns (at: seq<nat>)
    requires |run| > 0 && run[0] == Received && Lifecycle(run)
    requires run[|run| - 1] == Succeeded
    ensures Visits(run, WAYPOINTS, at)
  {
    at := WaypointsVisited(run);
    assert WAYPOINTS[..7] == WAYPOINTS;
  }
}
