/**
  The quality guard: consecutive failures degrade a provider, consecutive
  successes bring it back.
 */
module Quality {

  datatype Status = Healthy | Degraded | Disabled

  datatype State = State(status: Status, failures: nat, successes: nat)

  const Fresh: State := State(Healthy, 0, 0)

  datatype Policy = Policy(enabled: bool, degradedFailures: int, disabledFailures: int, recoverySuccesses: int)

  const NoPolicy: Policy := Policy(false, 0, 0, 0)

  /** The policy that ConfigureProviderQualityGuard installs. */
  function Configured(enabled: bool, degraded: int, disabled: int, recovery: int): (p: Policy)
    ensures p.enabled == enabled && p.degradedFailures >= 1 && p.recoverySuccesses >= 1
    ensures p.disabledFailures >= p.degradedFailures
    ensures degraded <= 0 ==> p.degradedFailures == 3
    ensures recovery <= 0 ==> p.recoverySuccesses == 2
    ensures disabled < p.degradedFailures ==> p.disabledFailures == p.degradedFailures
    ensures degraded > 0 && recovery > 0 && disabled >= degraded ==> p == Policy(enabled, degraded, disabled, recovery)
  {
    var d := if degraded <= 0 then 3 else degraded;
    Policy(enabled, d, if disabled < d then d else disabled, if recovery <= 0 then 2 else recovery)
  }

  function Step(p: Policy, q: State, success: bool): State {
    if success then
      var n := q.successes + 1;
      var back := q.status != Healthy && (!p.enabled || n >= p.recoverySuccesses);
      State(if back then Healthy else q.status, 0, n)
    else
      var n := q.failures + 1;
      var status :=
        if p.enabled then
          if n >= p.disabledFailures then Disabled
          else if n >= p.degradedFailures then Degraded
          else q.status
        else Degraded;
      State(status, n, 0)
  }

  /** A sample is a success or not, under the policy of its time. */
  datatype Sample = Sample(policy: Policy, success: bool)

  function Run(q: State, h: seq<Sample>): State
    decreases |h|
  {
    var n := |h| - 1;
    if n < 0 then q else Step(h[n].policy, Run(q, h[..n]), h[n].success)
  }

  /** How often the status left Healthy. */
  function Falls(q: State, h: seq<Sample>): nat
    decreases |h|
  {
    var n := |h| - 1;
    if n < 0 then 0
    else
      Falls(q, h[..n]) + (if Run(q, h[..n]).status == Healthy && Run(q, h).status != Healthy then 1 else 0)
  }

  predicate Under(p: Policy, h: seq<Sample>) {
    forall i :: 0 <= i < |h| ==> h[i].policy == p
  }

  // ------------------------------------------------------ what a status stands for

  /** How many of the last samples were all like the last one. */
  function Trailing(h: seq<Sample>, success: bool): nat
    decreases |h|
  {
    var n := |h| - 1;
    if n < 0 || h[n].success != success then 0 else 1 + Trailing(h[..n], success)
  }

  lemma {:induction false} CountersAreTrailing(h: seq<Sample>)
    ensures Run(Fresh, h).failures == Trailing(h, false)
    ensures Run(Fresh, h).successes == Trailing(h, true)
    decreases |h|
  {
    var n := |h| - 1;
    if n >= 0 {
      CountersAreTrailing(h[..n]);
    }
  }

  /** What one more sample makes of a status, in terms of the samples at the end: with the
      guard on, enough failures in a row disable or degrade, enough successes in a row heal,
      and anything else changes nothing; with it off, the last sample decides. */
  lemma StatusFollowsTheTail(h: seq<Sample>, p: Policy, success: bool)
    ensures var g := h + [Sample(p, success)];
      var was, now := Run(Fresh, h).status, Run(Fresh, g).status;
      var failed, healed := Trailing(g, false), Trailing(g, true);
      && (p.enabled && !success && failed >= p.disabledFailures ==> now == Disabled)
      && (p.enabled && !success && p.degradedFailures <= failed < p.disabledFailures ==> now == Degraded)
      && (p.enabled && !success && failed < p.degradedFailures && failed < p.disabledFailures ==> now == was)
      && (p.enabled && success && healed >= p.recoverySuccesses ==> now == Healthy)
      && (p.enabled && success && healed < p.recoverySuccesses ==> now == was)
      && (!p.enabled ==> now == if success then Healthy else Degraded)
  {
    var g := h + [Sample(p, success)];
    assert g[..|h|] == h;
    CountersAreTrailing(h);
    CountersAreTrailing(g);
  }

  // -------------------------------------------------------------- hysteresis

  /** How far a state is on its way to the next change. */
  function Progress(p: Policy, q: State): int {
    if q.status == Healthy then q.failures else q.successes - p.recoverySuccesses
  }

  /** A state that the policy p can be in: a change that is due has happened. */
  predicate Settled(p: Policy, q: State) {
    && p.enabled && 1 <= p.degradedFailures <= p.disabledFailures && p.recoverySuccesses >= 1
    && (if q.status == Healthy then q.failures < p.degradedFailures else q.successes < p.recoverySuccesses)
  }

  lemma StepCosts(p: Policy, q: State, success: bool)
    requires Settled(p, q)
    ensures var t := Step(p, q, success);
      Settled(p, t)
      && Progress(p, t) + (if q.status == Healthy && t.status != Healthy
                           then p.degradedFailures + p.recoverySuccesses else 0) <= Progress(p, q) + 1
  {
  }

  /** From any state, every fall after the first costs a full round of failures and
      recoveries. */
  lemma {:induction false} FallsCost(p: Policy, q: State, h: seq<Sample>)
    requires Settled(p, q) && Under(p, h)
    ensures Settled(p, Run(q, h))
    ensures Falls(q, h) * (p.degradedFailures + p.recoverySuccesses) + Progress(p, Run(q, h))
         <= |h| + Progress(p, q)
    decreases |h|
  {
    var n := |h| - 1;
    if n >= 0 {
      FallsCost(p, q, h[..n]);
      StepCosts(p, Run(q, h[..n]), h[n].success);
      var round := p.degradedFailures + p.recoverySuccesses;
      assert (Falls(q, h[..n]) + 1) * round == Falls(q, h[..n]) * round + round;
    }
  }

  lemma Rounds(k: int, d: int, r: int)
    ensures k * (d + r) - r == k * d + (k - 1) * r
  {
  }

  lemma OneRound(k: int, n: int)
    ensures k * n == (k - 1) * n + n
  {
  }

  lemma AllButOneRound(k: int, d: int, r: int, rest: int, n: int)
    requires k * (d + r) + rest <= n && -r <= rest
    ensures k * d + (k - 1) * r <= n
  {
    Rounds(k, d, r);
  }

  /** With the guard on, leaving Healthy k times takes at least k times the degrading
      failures and k - 1 times the recovering successes. */
  lemma Hysteresis(p: Policy, h: seq<Sample>)
    requires Settled(p, Fresh) && Under(p, h) && Falls(Fresh, h) >= 1
    ensures var k := Falls(Fresh, h);
      |h| >= k * p.degradedFailures + (k - 1) * p.recoverySuccesses
  {
    FallsCost(p, Fresh, h);
    AllButOneRound(Falls(Fresh, h), p.degradedFailures, p.recoverySuccesses, Progress(p, Run(Fresh, h)), |h|);
  }

  function Times(p: Policy, success: bool, n: nat): (h: seq<Sample>)
    ensures |h| == n && Under(p, h)
    ensures n > 0 ==> h[..n - 1] == Times(p, success, n - 1) && h[n - 1] == Sample(p, success)
  {
    seq(n, i => Sample(p, success))
  }

  lemma {:induction false} RunConcat(q: State, a: seq<Sample>, b: seq<Sample>)
    ensures Run(q, a + b) == Run(Run(q, a), b)
    ensures Falls(q, a + b) == Falls(q, a) + Falls(Run(q, a), b)
    decreases |b|
  {
    var n := |b| - 1;
    if n < 0 {
      assert a + b == a;
    } else {
      assert (a + b)[..|a| + n] == a + b[..n];
      RunConcat(q, a, b[..n]);
    }
  }

  lemma {:induction false} Failing(p: Policy, q: State, n: nat)
    requires Settled(p, q) && q.status == Healthy && q.failures == 0 && n <= p.degradedFailures
    ensures var t := Run(q, Times(p, false, n));
      t.failures == n && (n > 0 ==> t.successes == 0) && (t.status == Healthy <==> n < p.degradedFailures)
    ensures Falls(q, Times(p, false, n)) == if n < p.degradedFailures then 0 else 1
    decreases n
  {
    if n > 0 {
      Failing(p, q, n - 1);
    }
  }

  lemma {:induction false} Recovering(p: Policy, q: State, n: nat)
    requires Settled(p, q) && q.status != Healthy && q.successes == 0 && n <= p.recoverySuccesses
    ensures var t := Run(q, Times(p, true, n));
      t.successes == n && (n > 0 ==> t.failures == 0) && (t.status == Healthy <==> n == p.recoverySuccesses)
    ensures Falls(q, Times(p, true, n)) == 0
    decreases n
  {
    if n > 0 {
      Recovering(p, q, n - 1);
    }
  }

  /** The length of k falls with k - 1 recoveries in between. */
  function Shortest(p: Policy, k: nat): int {
    if k <= 1 then p.degradedFailures else Shortest(p, k - 1) + p.recoverySuccesses + p.degradedFailures
  }

  lemma {:induction false} ShortestIs(p: Policy, k: nat)
    requires k >= 1
    ensures Shortest(p, k) == k * p.degradedFailures + (k - 1) * p.recoverySuccesses
    decreases k
  {
    if k > 1 {
      ShortestIs(p, k - 1);
      Rounds(k, p.degradedFailures, p.recoverySuccesses);
      Rounds(k - 1, p.degradedFailures, p.recoverySuccesses);
      OneRound(k, p.degradedFailures + p.recoverySuccesses);
    }
  }

  /** The bound is tight for every k. */
  lemma HysteresisIsTight(p: Policy, k: nat) returns (h: seq<Sample>)
    requires Settled(p, Fresh) && k >= 1
    ensures Under(p, h) && Falls(Fresh, h) == k
    ensures |h| == k * p.degradedFailures + (k - 1) * p.recoverySuccesses
  {
    h := Worst(p, k);
    ShortestIs(p, k);
  }

  lemma {:induction false} Worst(p: Policy, k: nat) returns (h: seq<Sample>)
    requires Settled(p, Fresh) && k >= 1
    ensures Under(p, h) && Falls(Fresh, h) == k && |h| == Shortest(p, k)
    ensures Settled(p, Run(Fresh, h)) && Run(Fresh, h).status != Healthy && Run(Fresh, h).successes == 0
    decreases k
  {
    if k == 1 {
      h := Times(p, false, p.degradedFailures);
      Failing(p, Fresh, p.degradedFailures);
    } else {
      var g := Worst(p, k - 1);
      h := g + Times(p, true, p.recoverySuccesses) + Times(p, false, p.degradedFailures);
      OneMoreRound(p, g);
    }
  }

  lemma OneMoreRound(p: Policy, g: seq<Sample>)
    requires Under(p, g)
    requires Settled(p, Run(Fresh, g)) && Run(Fresh, g).status != Healthy && Run(Fresh, g).successes == 0
    ensures var h := g + Times(p, true, p.recoverySuccesses) + Times(p, false, p.degradedFailures);
      Falls(Fresh, h) == Falls(Fresh, g) + 1 && Under(p, h)
      && Settled(p, Run(Fresh, h)) && Run(Fresh, h).status != Healthy && Run(Fresh, h).successes == 0
  {
    var up, down := Times(p, true, p.recoverySuccesses), Times(p, false, p.degradedFailures);
    RunConcat(Fresh, g + up, down);
    RunConcat(Fresh, g, up);
    Recovering(p, Run(Fresh, g), p.recoverySuccesses);
    Failing(p, Run(Fresh, g + up), p.degradedFailures);
  }
}
