/**
  What a token bucket decides, as a function of the times of the requests that it
  saw. Limits.idle says after how long an idle key is forgotten; the ideal bucket
  never forgets one.
 */
module TokenBucket {
  import opened Domain

  datatype Limits = Limits(rate: real, burst: nat, idle: Option<real>) {
    predicate Valid() {
      rate > 0.0 && burst >= 1 && (idle.Some? ==> idle.value > 0.0)
    }

    function Ideal(): Limits {
      this.(idle := None)
    }
  }

  function Min(x: real, y: real): real {
    if x <= y then x else y
  }

  predicate Forgotten(p: Limits, last: real, now: real) {
    p.idle.Some? && now - last > p.idle.value
  }

  /** The tokens that come in between two times. */
  function Refill(p: Limits, a: real, b: real): real {
    (b - a) * p.rate
  }

  /** The tokens there are at time now, after requests at the given times. */
  function Level(p: Limits, times: seq<real>, now: real): real
    decreases |times|, 1
  {
    var n := |times|;
    if n == 0 || Forgotten(p, times[n - 1], now) then p.burst as real
    else Min(p.burst as real, Left(p, times) + Refill(p, times[n - 1], now))
  }

  /** The tokens that the last request left behind. */
  function Left(p: Limits, times: seq<real>): real
    requires times != []
    decreases |times|, 0
  {
    var n := |times| - 1;
    var level := Level(p, times[..n], times[n]);
    if level < 1.0 then level else level - 1.0
  }

  predicate Allows(p: Limits, times: seq<real>, now: real) {
    Level(p, times, now) >= 1.0
  }

  /** How many requests were granted, counting from request number lo. */
  function Grants(p: Limits, times: seq<real>, lo: nat): nat
    decreases |times|
  {
    var n := |times| - 1;
    if n < lo then 0
    else Grants(p, times[..n], lo) + (if Allows(p, times[..n], times[n]) then 1 else 0)
  }

  predicate Sorted(times: seq<real>) {
    forall i, j :: 0 <= i < j < |times| ==> times[i] <= times[j]
  }

  /** With m more requests granted now, request lo and all since fit into the
      burst plus what was refilled. */
  predicate WindowFits(p: Limits, times: seq<real>, now: real, m: real, lo: nat)
    requires lo < |times|
  {
    Grants(p, times, lo) as real + m <= p.burst as real + Refill(p, times[lo], now)
  }

  predicate EveryWindowFits(p: Limits, times: seq<real>, now: real, m: real) {
    forall lo :: 0 <= lo < |times| ==> WindowFits(p, times, now, m, lo)
  }

  // -------------------------------------------- the ideal bucket and its windows

  lemma RefillAdds(p: Limits, a: real, b: real, c: real)
    ensures Refill(p, a, b) + Refill(p, b, c) == Refill(p, a, c)
  {
  }

  lemma RefillIsMonotone(p: Limits, a: real, b: real, c: real)
    requires p.rate > 0.0 && b <= c
    ensures Refill(p, a, b) <= Refill(p, a, c)
  {
    RefillAdds(p, a, b, c);
  }

  /** What asking for m tokens now means at the time of the last request. */
  function Before(p: Limits, times: seq<real>, now: real, m: real): real
    requires times != []
  {
    var n := |times| - 1;
    m + (if Allows(p, times[..n], times[n]) then 1.0 else 0.0) - Refill(p, times[n], now)
  }

  lemma WindowStep(p: Limits, times: seq<real>, now: real, m: real, lo: nat)
    requires lo < |times| - 1
    ensures var n := |times| - 1;
      var x := Before(p, times, now, m);
      WindowFits(p, times, now, m, lo) == WindowFits(p, times[..n], times[n], x, lo)
  {
    var n := |times| - 1;
    RefillAdds(p, times[lo], times[n], now);
    assert Grants(p, times, lo) ==
           Grants(p, times[..n], lo) + (if Allows(p, times[..n], times[n]) then 1 else 0);
  }

  lemma LastWindow(p: Limits, times: seq<real>, now: real, m: real)
    requires times != []
    ensures WindowFits(p, times, now, m, |times| - 1) <==> Before(p, times, now, m) <= p.burst as real
  {
    var n := |times| - 1;
    assert Grants(p, times[..n], n) == 0;
  }

  lemma WindowsStep(p: Limits, times: seq<real>, now: real, m: real)
    requires times != []
    ensures var n := |times| - 1;
      var x := Before(p, times, now, m);
      EveryWindowFits(p, times, now, m)
      <==> x <= p.burst as real && EveryWindowFits(p, times[..n], times[n], x)
  {
    var n := |times| - 1;
    var x := Before(p, times, now, m);
    LastWindow(p, times, now, m);
    forall lo | 0 <= lo < n
      ensures WindowFits(p, times, now, m, lo) == WindowFits(p, times[..n], times[n], x, lo)
    {
      WindowStep(p, times, now, m, lo);
    }
  }

  lemma LevelStep(p: Limits, times: seq<real>, now: real, m: real)
    requires p.idle.None? && times != []
    ensures var n := |times| - 1;
      m <= Level(p, times, now)
      <==> m <= p.burst as real && Before(p, times, now, m) <= Level(p, times[..n], times[n])
  {
  }

  /** The level of an ideal bucket is what its tightest window leaves over. */
  lemma {:induction false} LevelIsTheTightestWindow(p: Limits, times: seq<real>, now: real, m: real)
    requires p.idle.None?
    ensures m <= Level(p, times, now) <==> m <= p.burst as real && EveryWindowFits(p, times, now, m)
    decreases |times|
  {
    var n := |times| - 1;
    if n >= 0 {
      LevelStep(p, times, now, m);
      WindowsStep(p, times, now, m);
      LevelIsTheTightestWindow(p, times[..n], times[n], Before(p, times, now, m));
    }
  }

  /** The ideal bucket grants a request if and only if no window that ends with it
      would then hold more than burst + rate * (length of the window) grants. */
  lemma IdealGrantsWhatFits(p: Limits, times: seq<real>, now: real)
    requires p.Valid() && p.idle.None?
    ensures Allows(p, times, now) <==> EveryWindowFits(p, times, now, 1.0)
  {
    LevelIsTheTightestWindow(p, times, now, 1.0);
  }

  lemma RefillOfNothing(p: Limits, a: real)
    ensures Refill(p, a, a) == 0.0
  {
  }

  lemma GrantedFits(p: Limits, h: seq<real>, now: real, lo: nat)
    requires p.Valid() && p.idle.None? && Allows(p, h, now) && lo <= |h|
    ensures Grants(p, h, lo) as real + 1.0 <= p.burst as real + Refill(p, if lo < |h| then h[lo] else now, now)
  {
    if lo < |h| {
      IdealGrantsWhatFits(p, h, now);
      assert WindowFits(p, h, now, 1.0, lo);
    } else {
      assert Grants(p, h, lo) == 0;
      RefillOfNothing(p, now);
    }
  }

  lemma BoundGrows(p: Limits, n: nat, a: real, b: real, c: real)
    requires p.rate > 0.0 && b <= c && n as real <= p.burst as real + Refill(p, a, b)
    ensures n as real <= p.burst as real + Refill(p, a, c)
  {
    RefillIsMonotone(p, a, b, c);
  }

  lemma OneMoreGrant(p: Limits, times: seq<real>, lo: nat, hi: nat)
    requires lo <= hi < |times|
    ensures Grants(p, times[..hi + 1], lo) == Grants(p, times[..hi], lo) + (if Allows(p, times[..hi], times[hi]) then 1 else 0)
  {
    assert times[..hi + 1][..hi] == times[..hi];
  }

  /** Between request lo and request hi at most burst + rate * (time between) are granted. */
  lemma {:induction false} IdealGrantBound(p: Limits, times: seq<real>, lo: nat, hi: nat)
    requires p.Valid() && p.idle.None? && Sorted(times) && lo <= hi < |times|
    ensures Grants(p, times[..hi + 1], lo) as real <= p.burst as real + Refill(p, times[lo], times[hi])
    decreases hi
  {
    OneMoreGrant(p, times, lo, hi);
    if Allows(p, times[..hi], times[hi]) {
      GrantedFits(p, times[..hi], times[hi], lo);
    } else if lo < hi {
      IdealGrantBound(p, times, lo, hi - 1);
      BoundGrows(p, Grants(p, times[..hi], lo), times[lo], times[hi - 1], times[hi]);
    } else {
      assert Grants(p, times[..hi], lo) == 0;
      RefillOfNothing(p, times[hi]);
    }
  }

  // ------------------------------------------------ when forgetting is harmless

  lemma {:induction false} LevelIsNeverNegative(p: Limits, times: seq<real>, now: real)
    requires p.Valid() && Sorted(times) && (times != [] ==> times[|times| - 1] <= now)
    ensures 0.0 <= Level(p, times, now) <= p.burst as real
    ensures times != [] ==> 0.0 <= Left(p, times)
    decreases |times|
  {
    var n := |times| - 1;
    if n >= 0 {
      LevelIsNeverNegative(p, times[..n], times[n]);
      RefillIsMonotone(p, times[n], times[n], now);
      RefillOfNothing(p, times[n]);
    }
  }

  lemma IdleRefills(p: Limits, last: real, now: real)
    requires p.Valid() && Forgotten(p, last, now)
    ensures Refill(p, 0.0, p.idle.value) <= Refill(p, last, now)
  {
    RefillIsMonotone(p, last, last + p.idle.value, now);
  }

  lemma ForgettingFillsUp(p: Limits, times: seq<real>, now: real)
    requires p.Valid() && p.idle.Some? && p.burst as real <= Refill(p, 0.0, p.idle.value)
    requires times != [] && Left(p, times) == Left(p.Ideal(), times) >= 0.0
    ensures Level(p, times, now) == Level(p.Ideal(), times, now)
  {
    var last := times[|times| - 1];
    if Forgotten(p, last, now) {
      IdleRefills(p, last, now);
      assert Refill(p, last, now) == Refill(p.Ideal(), last, now);
    }
  }

  /** A bucket that forgets a key only after the time a full refill takes has the
      tokens of the ideal one at any time. */
  lemma {:induction false} ForgettingIsHarmless(p: Limits, times: seq<real>, now: real)
    requires p.Valid() && p.idle.Some? && p.burst as real <= Refill(p, 0.0, p.idle.value)
    requires Sorted(times) && (times != [] ==> times[|times| - 1] <= now)
    ensures Level(p, times, now) == Level(p.Ideal(), times, now)
    decreases |times|
  {
    var n := |times| - 1;
    if n >= 0 {
      ForgettingIsHarmless(p, times[..n], times[n]);
      LevelIsNeverNegative(p, times, now);
      assert Left(p, times) == Left(p.Ideal(), times);
      ForgettingFillsUp(p, times, now);
    }
  }

  lemma {:induction false} GrantsAgree(p: Limits, q: Limits, times: seq<real>, lo: nat)
    requires Sorted(times)
    requires forall h, t | Sorted(h + [t]) :: Allows(p, h, t) == Allows(q, h, t)
    ensures Grants(p, times, lo) == Grants(q, times, lo)
    decreases |times|
  {
    var n := |times| - 1;
    if n >= lo {
      assert times[..n] + [times[n]] == times;
      GrantsAgree(p, q, times[..n], lo);
    }
  }

  function Again(t: real, n: nat): (s: seq<real>)
    ensures |s| == n && forall i :: 0 <= i < n ==> s[i] == t
  {
    seq(n, i => t)
  }

  /** A full bucket serves a burst. */
  lemma {:induction false} BurstIsServed(p: Limits, times: seq<real>, t: real, j: nat)
    requires p.Valid() && Level(p, times, t) == p.burst as real && j <= p.burst
    ensures Level(p, times + Again(t, j), t) == (p.burst - j) as real
    ensures Grants(p, times + Again(t, j), 0) == Grants(p, times, 0) + j
    decreases j
  {
    if j == 0 {
      assert times + Again(t, j) == times;
    } else {
      BurstIsServed(p, times, t, j - 1);
      var h := times + Again(t, j);
      assert h[..|h| - 1] == times + Again(t, j - 1);
      RefillOfNothing(p, t);
    }
  }

  lemma FullAgain(p: Limits, t: real)
    requires p.Valid() && p.idle.Some? && t > p.idle.value
    ensures var h := Again(0.0, p.burst) + Again(t, p.burst - 1);
      Allows(p, h, t) && Grants(p, h, 0) == 2 * p.burst - 1 && Sorted(h) && Sorted(h + [t])
  {
    var h := Again(0.0, p.burst);
    assert [] + h == h;
    BurstIsServed(p, [], 0.0, p.burst);
    BurstIsServed(p, h, t, p.burst - 1);
    assert Grants(p, [], 0) == 0;
  }

  lemma Between(p: Limits) returns (t: real)
    requires p.Valid() && p.idle.Some? && Refill(p, 0.0, p.idle.value) < p.burst as real
    ensures t > p.idle.value && Refill(p, 0.0, t) < p.burst as real
  {
    var missing := p.burst as real - Refill(p, 0.0, p.idle.value);
    var wait := missing / 2.0 / p.rate;
    assert wait * p.rate == missing / 2.0;
    assert wait > 0.0;
    t := p.idle.value + wait;
    RefillAdds(p, 0.0, p.idle.value, t);
  }

  lemma IdealRefusesSecondBurst(p: Limits, t: real)
    requires p.Valid() && p.idle.None? && Refill(p, 0.0, t) < p.burst as real
    ensures var h := Again(0.0, p.burst) + Again(t, p.burst - 1);
      Allows(p, h, t) ==> Grants(p, h, 0) != 2 * p.burst - 1
  {
    var h := Again(0.0, p.burst) + Again(t, p.burst - 1);
    IdealGrantsWhatFits(p, h, t);
    assert EveryWindowFits(p, h, t, 1.0) ==> WindowFits(p, h, t, 1.0, 0);
  }

  /** A bucket that forgets sooner decides some request differently: a burst, a
      pause just longer than idle, and a second burst. */
  lemma ForgettingTooSoonShows(p: Limits)
    requires p.Valid() && p.idle.Some? && Refill(p, 0.0, p.idle.value) < p.burst as real
    ensures exists h, t :: Sorted(h + [t]) && Allows(p, h, t) != Allows(p.Ideal(), h, t)
  {
    var t := Between(p);
    var h := Again(0.0, p.burst) + Again(t, p.burst - 1);
    FullAgain(p, t);
    IdealRefusesSecondBurst(p.Ideal(), t);
    if forall h, t | Sorted(h + [t]) :: Allows(p, h, t) == Allows(p.Ideal(), h, t) {
      GrantsAgree(p, p.Ideal(), h, 0);
      assert false;
    }
  }

  /** Every decision on a monotone clock is the ideal one if and only if idle keys
      are kept for at least the time a full refill takes. */
  lemma RefinesIdealIff(p: Limits)
    requires p.Valid() && p.idle.Some?
    ensures p.burst as real <= Refill(p, 0.0, p.idle.value)
       <==> (forall h, t :: Sorted(h + [t]) ==> Allows(p, h, t) == Allows(p.Ideal(), h, t))
  {
    if p.burst as real <= Refill(p, 0.0, p.idle.value) {
      forall h, t | Sorted(h + [t])
        ensures Allows(p, h, t) == Allows(p.Ideal(), h, t)
      {
        var all := h + [t];
        assert forall i :: 0 <= i < |h| ==> h[i] == all[i];
        assert h != [] ==> h[|h| - 1] == all[|h| - 1] && all[|h|] == t;
        ForgettingIsHarmless(p, h, t);
      }
    } else {
      ForgettingTooSoonShows(p);
    }
  }

  lemma {:induction false} GrantsAreIdeal(p: Limits, times: seq<real>, lo: nat)
    requires p.Valid() && p.idle.Some? && p.burst as real <= Refill(p, 0.0, p.idle.value) && Sorted(times)
    ensures Grants(p, times, lo) == Grants(p.Ideal(), times, lo)
    decreases |times|
  {
    var n := |times| - 1;
    if n >= lo {
      GrantsAreIdeal(p, times[..n], lo);
      ForgettingIsHarmless(p, times[..n], times[n]);
    }
  }

  /** A bucket that keeps idle keys long enough grants one key at most burst + rate *
      (time between) of the requests lo, ..., hi. */
  lemma GrantBound(p: Limits, times: seq<real>, lo: nat, hi: nat)
    requires p.Valid() && p.idle.Some? && p.burst as real <= Refill(p, 0.0, p.idle.value)
    requires Sorted(times) && lo <= hi < |times|
    ensures Grants(p, times[..hi + 1], lo) as real <= p.burst as real + Refill(p, times[lo], times[hi])
  {
    GrantsAreIdeal(p, times[..hi + 1], lo);
    BoundOfIdeal(p, times, lo, hi);
  }

  lemma BoundOfIdeal(p: Limits, times: seq<real>, lo: nat, hi: nat)
    requires p.Valid() && Sorted(times) && lo <= hi < |times|
    ensures Grants(p.Ideal(), times[..hi + 1], lo) as real <= p.burst as real + Refill(p, times[lo], times[hi])
  {
    IdealGrantBound(p.Ideal(), times, lo, hi);
    RefillIgnoresIdle(p, times[lo], times[hi]);
  }

  lemma RefillIgnoresIdle(p: Limits, a: real, b: real)
    ensures Refill(p, a, b) == Refill(p.Ideal(), a, b)
  {
  }
}
