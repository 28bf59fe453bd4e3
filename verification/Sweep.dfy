/**
  The eviction sweep of the rate limiter as a function on its key list and
  cursor. A check looks at the key under the cursor: a dead one is replaced by the
  last key of the list, a live one is passed over.
 */
module Sweep {

  const MAX_CHECKS: nat := 64

  datatype State = State(keys: seq<string>, cursor: nat)

  predicate NoDup(keys: seq<string>) {
    forall i, j :: 0 <= i < j < |keys| ==> keys[i] != keys[j]
  }

  /** The position that the next check looks at. */
  function At(s: State): nat {
    if s.cursor >= |s.keys| then 0 else s.cursor
  }

  /** keys without position i, which the last key takes over. */
  function SwapOut(keys: seq<string>, i: nat): seq<string>
    requires i < |keys|
  {
    keys[i := keys[|keys| - 1]][..|keys| - 1]
  }

  function Check(s: State, dead: set<string>): State
    requires s.keys != []
  {
    var i := At(s);
    if s.keys[i] in dead then State(SwapOut(s.keys, i), if i >= |s.keys| - 1 then 0 else i)
    else State(s.keys, i + 1)
  }

  function Checks(s: State, dead: set<string>, n: nat): State
    decreases n
  {
    if n == 0 || s.keys == [] then s else Checks(Check(s, dead), dead, n - 1)
  }

  /** The number of checks of one sweep. */
  function Limit(keys: seq<string>): nat {
    if |keys| < MAX_CHECKS then |keys| else MAX_CHECKS
  }

  // ------------------------------------------------------------ what stays true

  lemma CheckKeepsNoDup(s: State, dead: set<string>)
    requires s.keys != [] && NoDup(s.keys)
    ensures var t := Check(s, dead);
      NoDup(t.keys) && t.cursor <= |t.keys|
      && (forall k :: k in t.keys <==> k in s.keys && (k in dead ==> k != s.keys[At(s)]))
  {
    var i, n := At(s), |s.keys| - 1;
    var t := Check(s, dead);
    if s.keys[i] in dead {
      forall k ensures k in t.keys <==> k in s.keys && k != s.keys[i] {
        if k in s.keys && k != s.keys[i] {
          var j :| 0 <= j <= n && s.keys[j] == k;
          if j == n { assert t.keys[i] == k; } else { assert t.keys[j] == k; }
        }
      }
    }
  }

  lemma {:induction false} ChecksKeepNoDup(s: State, dead: set<string>, n: nat)
    requires NoDup(s.keys) && s.cursor <= |s.keys|
    ensures var t := Checks(s, dead, n);
      NoDup(t.keys) && t.cursor <= |t.keys|
      && (forall k :: k in t.keys ==> k in s.keys)
      && (forall k :: k in s.keys && k !in t.keys ==> k in dead)
    decreases n
  {
    if n > 0 && s.keys != [] {
      CheckKeepsNoDup(s, dead);
      ChecksKeepNoDup(Check(s, dead), dead, n - 1);
    }
  }

  lemma {:induction false} ChecksCompose(s: State, dead: set<string>, m: nat, n: nat)
    ensures Checks(s, dead, m + n) == Checks(Checks(s, dead, m), dead, n)
    decreases m
  {
    if m > 0 && s.keys != [] {
      ChecksCompose(Check(s, dead), dead, m - 1, n);
    }
  }

  // ------------------------------------------------- when one sweep is complete

  predicate LiveBetween(keys: seq<string>, lo: int, hi: int, dead: set<string>) {
    forall i :: 0 <= lo <= i < hi <= |keys| ==> keys[i] !in dead
  }

  predicate AllLive(keys: seq<string>, dead: set<string>) {
    LiveBetween(keys, 0, |keys|, dead)
  }

  /** Checking everything from the cursor on leaves keys[..p] alone, keeps what
      was passed before, and leaves nothing dead behind. */
  lemma {:induction false} SuffixSwept(s: State, dead: set<string>, p: nat, m: nat)
    requires p <= s.cursor && s.cursor + m == |s.keys|
    requires LiveBetween(s.keys, p, s.cursor, dead)
    ensures var t := Checks(s, dead, m);
      p <= |t.keys| && LiveBetween(t.keys, p, |t.keys|, dead)
      && (t.cursor == |t.keys| || t.cursor == 0)
    decreases m
  {
    if m > 0 {
      var t := Check(s, dead);
      if m > 1 || s.keys[s.cursor] !in dead {
        SuffixSwept(t, dead, p, m - 1);
      }
    }
  }

  lemma {:induction false} LivePassed(s: State, dead: set<string>, m: nat)
    requires s.cursor + m <= |s.keys|
    requires LiveBetween(s.keys, s.cursor, s.cursor + m, dead)
    ensures Checks(s, dead, m) == State(s.keys, s.cursor + m)
    decreases m
  {
    if m > 0 {
      var t := Check(s, dead);
      assert t == State(s.keys, s.cursor + 1);
      LivePassed(t, dead, m - 1);
    }
  }

  lemma ChecksFromTheTop(s: State, dead: set<string>, n: nat)
    requires At(s) == 0 && s.keys != []
    ensures n > 0 ==> Checks(s, dead, n) == Checks(State(s.keys, 0), dead, n)
  {
  }

  /** A sweep of a short list that starts at the first or second key is complete. */
  lemma SweepFromTheTopIsComplete(s: State, dead: set<string>)
    requires |s.keys| <= MAX_CHECKS && (s.cursor <= 1 || |s.keys| <= s.cursor)
    ensures AllLive(Checks(s, dead, |s.keys|).keys, dead)
  {
    var n := |s.keys|;
    if n > 0 {
      if At(s) == 0 {
        ChecksFromTheTop(s, dead, n);
        SuffixSwept(State(s.keys, 0), dead, 0, n);
      } else {
        SuffixSwept(s, dead, 1, n - 1);
        ChecksCompose(s, dead, n - 1, 1);
        var t := Checks(s, dead, n - 1);
        assert At(t) == 0;
        OneCheckAtTheTop(t, dead);
      }
    }
  }

  lemma OneCheckAtTheTop(t: State, dead: set<string>)
    requires |t.keys| >= 1 && At(t) == 0 && LiveBetween(t.keys, 1, |t.keys|, dead)
    ensures AllLive(Checks(t, dead, 1).keys, dead)
  {
    assert Checks(t, dead, 1) == Check(t, dead);
  }

  /** From any other cursor a sweep can miss a dead key: removing the first key
      moves a key that was already checked under the cursor, and checking that one
      again uses up the check that the key before the starting point would need. */
  lemma SweepFromTheMiddleCanMiss(s: State) returns (dead: set<string>)
    requires NoDup(s.keys) && 2 <= s.cursor < |s.keys| <= MAX_CHECKS
    ensures !AllLive(Checks(s, dead, |s.keys|).keys, dead)
  {
    var n, p := |s.keys|, s.cursor;
    dead := {s.keys[0], s.keys[p - 1]};
    LivePassed(s, dead, n - p);
    ChecksCompose(s, dead, n - p, p);
    var t := State(s.keys, n);
    assert Checks(s, dead, n - p) == t;
    var u := Check(t, dead);
    assert Checks(t, dead, p) == Checks(u, dead, p - 1);
    assert u == State(SwapOut(s.keys, 0), 0);
    assert u.keys[0] == s.keys[n - 1];
    LivePassed(u, dead, p - 1);
    assert u.keys[p - 1] == s.keys[p - 1];
  }

  /** "With at most 64 keys one sweep removes every expired bucket" holds of every
      set of expired keys exactly when the sweep starts at the first or second key. */
  lemma SweepIsCompleteIff(s: State)
    requires NoDup(s.keys) && |s.keys| <= 64
    ensures (forall dead :: AllLive(Checks(s, dead, Limit(s.keys)).keys, dead))
       <==> s.cursor <= 1 || |s.keys| <= s.cursor
  {
    if s.cursor <= 1 || |s.keys| <= s.cursor {
      forall dead ensures AllLive(Checks(s, dead, Limit(s.keys)).keys, dead) {
        SweepFromTheTopIsComplete(s, dead);
      }
    } else {
      var dead := SweepFromTheMiddleCanMiss(s);
      assert !AllLive(Checks(s, dead, Limit(s.keys)).keys, dead);
    }
  }

  // ----------------------------------------------- a dead key goes in the end

  function IndexOf(keys: seq<string>, k: string): (i: nat)
    requires k in keys
    ensures i < |keys| && keys[i] == k
  {
    if keys[0] == k then 0 else 1 + IndexOf(keys[1..], k)
  }

  /** Steps from the cursor to a key, going round, plus the length of the list. */
  function Potential(s: State, k: string): nat
    requires k in s.keys
  {
    var i := IndexOf(s.keys, k);
    (if i >= At(s) then i - At(s) else i + |s.keys| - At(s)) + |s.keys|
  }

  lemma CheckLowersPotential(s: State, dead: set<string>, k: string)
    requires NoDup(s.keys) && k in s.keys && k in dead && k in Check(s, dead).keys
    ensures Potential(Check(s, dead), k) < Potential(s, k)
  {
    CheckKeepsNoDup(s, dead);
    var t := Check(s, dead);
    var i, j := IndexOf(s.keys, k), IndexOf(t.keys, k);
    var at, n := At(s), |s.keys| - 1;
    if s.keys[at] in dead {
      assert s.keys[i] == t.keys[j] == k;
      assert i != at;
      if i < n {
        assert t.keys[i] == k;
        assert i == j;
      } else {
        assert t.keys[at] == k;
        assert j == at;
      }
    } else {
      assert i == j && i != at;
    }
  }

  lemma {:induction false} ChecksLowerPotential(s: State, dead: set<string>, k: string, n: nat)
    requires NoDup(s.keys) && s.cursor <= |s.keys| && k in s.keys && k in dead
    requires k in Checks(s, dead, n).keys
    ensures Potential(Checks(s, dead, n), k) + n <= Potential(s, k)
    decreases n
  {
    if n > 0 {
      CheckKeepsNoDup(s, dead);
      var t := Check(s, dead);
      ChecksKeepNoDup(t, dead, n - 1);
      CheckLowersPotential(s, dead, k);
      ChecksLowerPotential(t, dead, k, n - 1);
    }
  }

  /** What a call does to the key list: a sweep, then perhaps a new key. */
  function AfterCall(s: State, dead: set<string>, added: seq<string>): State {
    var t := Checks(s, dead, Limit(s.keys));
    State(t.keys + added, t.cursor)
  }

  lemma {:induction false} IndexInPrefix(keys: seq<string>, added: seq<string>, k: string)
    requires k in keys
    ensures IndexOf(keys + added, k) == IndexOf(keys, k)
  {
    if keys[0] != k {
      assert (keys + added)[1..] == keys[1..] + added;
      IndexInPrefix(keys[1..], added, k);
    }
  }

  lemma AddingRaisesPotential(s: State, added: seq<string>, k: string)
    requires k in s.keys && s.cursor <= |s.keys| && |added| <= 1
    ensures Potential(State(s.keys + added, s.cursor), k) <= Potential(s, k) + 2
  {
    IndexInPrefix(s.keys, added, k);
  }

  /** What a call takes off the potential at least: one per check, less two for a key
      that it may add. */
  function Speed(keys: seq<string>): nat {
    if Limit(keys) <= 3 then 1 else Limit(keys) - 2
  }

  lemma DeadIsNotLive(keys: seq<string>, dead: set<string>, k: string)
    requires AllLive(keys, dead) && k in dead
    ensures k !in keys
  {
  }

  /** A call that leaves a dead key in place brings its end nearer. */
  lemma CallLowersPotential(s: State, dead: set<string>, added: seq<string>, k: string)
    requires NoDup(s.keys) && s.cursor <= |s.keys| && |added| <= 1
    requires k in s.keys && k in dead && k !in added && k in AfterCall(s, dead, added).keys
    ensures Potential(AfterCall(s, dead, added), k) + Speed(s.keys) <= Potential(s, k)
  {
    var t := Checks(s, dead, Limit(s.keys));
    assert k in t.keys;
    if |s.keys| <= 2 {
      SweepFromTheTopIsComplete(s, dead);
      DeadIsNotLive(t.keys, dead, k);
      assert false;
    }
    ChecksKeepNoDup(s, dead, Limit(s.keys));
    ChecksLowerPotential(s, dead, k, Limit(s.keys));
    AddingRaisesPotential(t, added, k);
  }

  lemma AfterCallKeepsNoDup(s: State, dead: set<string>, added: seq<string>)
    requires NoDup(s.keys) && s.cursor <= |s.keys| && |added| <= 1
    requires forall x :: x in added ==> x !in Checks(s, dead, Limit(s.keys)).keys
    ensures NoDup(AfterCall(s, dead, added).keys)
    ensures AfterCall(s, dead, added).cursor <= |AfterCall(s, dead, added).keys|
  {
    ChecksKeepNoDup(s, dead, Limit(s.keys));
    AddingKeepsNoDup(Checks(s, dead, Limit(s.keys)).keys, added);
  }

  lemma AddingKeepsNoDup(keys: seq<string>, added: seq<string>)
    requires NoDup(keys) && |added| <= 1 && (forall x :: x in added ==> x !in keys)
    ensures NoDup(keys + added)
  {
    if added != [] {
      assert added[0] in added;
      assert forall i :: 0 <= i < |keys| ==> keys[i] in keys;
    }
  }

  /** One call: the dead keys at its time and the key it added, if any. */
  datatype Call = Call(dead: set<string>, added: seq<string>)

  /** A call for key adds it unless it is there after the sweep, or the list is full. */
  predicate Adds(s: State, call: Call, key: string, max: nat, full: bool) {
    var t := Checks(s, call.dead, Limit(s.keys));
    && (full <==> key !in t.keys && |t.keys| >= max)
    && call.added == if full || key in t.keys then [] else [key]
  }

  predicate CallStep(s: State, t: State, call: Call) {
    && t == AfterCall(s, call.dead, call.added)
    && |call.added| <= 1
    && (forall x :: x in call.added ==> x !in Checks(s, call.dead, Limit(s.keys)).keys)
  }

  /** run[i] is the list before call i; k is dead, untouched and still there throughout. */
  predicate IsLingeringRun(run: seq<State>, calls: seq<Call>, k: string) {
    && |run| == |calls| + 1
    && NoDup(run[0].keys) && run[0].cursor <= |run[0].keys|
    && (forall i :: 0 <= i < |calls| ==> CallStep(run[i], run[i + 1], calls[i]))
    && (forall i :: 0 <= i < |calls| ==> k in calls[i].dead && k !in calls[i].added)
    && (forall i :: 0 <= i < |run| ==> k in run[i].keys)
  }

  /** The speeds of the first n calls together. */
  function Covered(run: seq<State>, n: nat): nat
    requires n <= |run|
  {
    if n == 0 then 0 else Covered(run, n - 1) + Speed(run[n - 1].keys)
  }

  lemma {:induction false} PotentialFalls(run: seq<State>, calls: seq<Call>, k: string, i: nat)
    requires IsLingeringRun(run, calls, k) && i < |run|
    ensures NoDup(run[i].keys) && run[i].cursor <= |run[i].keys|
    ensures Potential(run[i], k) + Covered(run, i) <= Potential(run[0], k)
  {
    if i > 0 {
      PotentialFalls(run, calls, k, i - 1);
      var s, call := run[i - 1], calls[i - 1];
      assert CallStep(s, run[i - 1 + 1], call);
      AfterCallKeepsNoDup(s, call.dead, call.added);
      CallLowersPotential(s, call.dead, call.added, k);
    }
  }

  lemma {:induction false} CoveredAtLeast(run: seq<State>, n: nat, speed: nat)
    requires n <= |run| && forall i :: 0 <= i < n ==> speed <= Speed(run[i].keys)
    ensures n * speed <= Covered(run, n)
  {
    if n > 0 {
      CoveredAtLeast(run, n - 1, speed);
      assert n * speed == (n - 1) * speed + speed;
    }
  }

  /** A key that stays dead and untouched outlives only calls whose speeds together
      are less than twice the number of keys there were: fewer calls than that in any
      case, and 62 times fewer while there are 64 keys or more. */
  lemma DeadKeyGoesAway(run: seq<State>, calls: seq<Call>, k: string)
    requires IsLingeringRun(run, calls, k)
    ensures Covered(run, |calls|) < 2 * |run[0].keys|
    ensures |calls| < 2 * |run[0].keys|
    ensures (forall i :: 0 <= i < |calls| ==> |run[i].keys| >= 64) ==> 62 * |calls| < 2 * |run[0].keys|
  {
    PotentialFalls(run, calls, k, |calls|);
    CoveredAtLeast(run, |calls|, 1);
    if forall i :: 0 <= i < |calls| ==> |run[i].keys| >= MAX_CHECKS {
      CoveredAtLeast(run, |calls|, 62);
    }
  }

  // -------------------------------------------------------- a sweep that misses

  /** Six calls on a limiter with three keys, the last of which leaves a dead key
      behind. Key by key: a; b; a when it is dead; b; c; b when a and b are dead. */
  lemma SecondKey(a: string, b: string, dead: set<string>)
    requires a != b && a !in dead
    ensures Checks(State([a], 0), dead, 1) == State([a], 1)
    ensures AfterCall(State([a], 0), dead, [b]) == State([a, b], 1)
  {
    assert Check(State([a], 0), dead) == State([a], 1);
    assert [a] + [b] == [a, b];
  }

  lemma FirstKeyAgain(a: string, b: string, dead: set<string>)
    requires a != b && a in dead && b !in dead
    ensures Checks(State([a, b], 1), dead, 2) == State([b], 0)
    ensures AfterCall(State([a, b], 1), dead, [a]) == State([b, a], 0)
  {
    var s := Check(State([a, b], 1), dead);
    assert s == State([a, b], 2);
    assert SwapOut([a, b], 0) == [b];
    assert Check(s, dead) == State([b], 0);
    assert Checks(s, dead, 1) == State([b], 0);
    assert [b] + [a] == [b, a];
  }

  lemma TwoLive(b: string, a: string, cursor: nat, dead: set<string>)
    requires a !in dead && b !in dead && (cursor == 0 || cursor == 2)
    ensures Checks(State([b, a], cursor), dead, 2) == State([b, a], 2)
  {
    var s := Check(State([b, a], cursor), dead);
    assert s == State([b, a], 1);
    assert Checks(s, dead, 1) == State([b, a], 2);
  }

  lemma OneIsMissed(b: string, a: string, c: string, dead: set<string>)
    requires a != c && b != c && a != b && a in dead && b in dead && c !in dead
    ensures Checks(State([b, a, c], 2), dead, 3) == State([c, a], 1)
  {
    var s := Check(State([b, a, c], 2), dead);
    assert s == State([b, a, c], 3);
    assert SwapOut([b, a, c], 0) == [c, a];
    var t := Check(s, dead);
    assert t == State([c, a], 0);
    assert Check(t, dead) == State([c, a], 1);
    assert Checks(t, dead, 1) == State([c, a], 1);
    assert Checks(s, dead, 2) == State([c, a], 1);
  }
}
