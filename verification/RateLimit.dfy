/**
  The in-memory limiter: a bucket per key, the list of the keys and the cursor of
  the eviction sweep. Tokens and times are reals; the clock is a parameter.
 */
module RateLimit {
  import opened Domain
  import Sweep
  import TokenBucket

  const DEFAULT_TTL: real := 600.0
  const DEFAULT_MAX_BUCKETS: nat := 100_000

  datatype Bucket = Bucket(tokens: real, lastSeen: real)

  ghost predicate SameKeys(keys: seq<string>, buckets: map<string, Bucket>) {
    forall k :: k in keys <==> k in buckets
  }

  ghost predicate AgreeOn(keys: seq<string>, buckets: map<string, Bucket>, cursor: nat, max: nat) {
    Sweep.NoDup(keys) && SameKeys(keys, buckets) && |keys| <= max && cursor <= |keys|
  }

  ghost function DeadKeys(buckets: map<string, Bucket>, ttl: real, now: real): set<string> {
    set k | k in buckets && now - buckets[k].lastSeen > ttl
  }

  predicate Within(part: map<string, Bucket>, whole: map<string, Bucket>) {
    forall k :: k in part ==> k in whole && part[k] == whole[k]
  }

  function Last(times: seq<real>): real
    requires times != []
  {
    times[|times| - 1]
  }

  lemma {:induction false} NoDupCount(keys: seq<string>, buckets: map<string, Bucket>)
    requires Sweep.NoDup(keys) && SameKeys(keys, buckets)
    ensures |keys| == |buckets|
    decreases |keys|
  {
    if keys == [] {
      assert buckets.Keys == {};
    } else {
      var n := |keys| - 1;
      var rest := buckets - {keys[n]};
      assert buckets.Keys == rest.Keys + {keys[n]};
      forall k | k in rest ensures k in keys[..n] {
        var i :| 0 <= i < |keys| && keys[i] == k;
        assert keys[..n][i] == k;
      }
      NoDupCount(keys[..n], rest);
    }
  }

  function Lookup(buckets: map<string, Bucket>, key: string): Option<Bucket> {
    if key in buckets then Some(buckets[key]) else None
  }

  // ------------------------------------------------------- one key's requests

  function FullBucket(p: TokenBucket.Limits, now: real): Bucket {
    Bucket(p.burst as real - 1.0, now)
  }

  /** What a request makes of a bucket: refill it, then take a token if there is one; a
      bucket that was idle for too long starts anew. */
  function Spent(p: TokenBucket.Limits, b: Bucket, now: real): (bool, Bucket) {
    if TokenBucket.Forgotten(p, b.lastSeen, now) then (true, FullBucket(p, now))
    else
      var tokens := TokenBucket.Min(p.burst as real, b.tokens + TokenBucket.Refill(p, b.lastSeen, now));
      if tokens < 1.0 then (false, Bucket(tokens, now)) else (true, Bucket(tokens - 1.0, now))
  }

  /** The answer to a request and the bucket it leaves, given the key's bucket, if any. */
  function Decided(p: TokenBucket.Limits, b: Option<Bucket>, now: real): (bool, Bucket) {
    if b.None? then (true, FullBucket(p, now)) else Spent(p, b.value, now)
  }

  /** The answers are the token bucket's decisions. */
  predicate AreAnswers(p: TokenBucket.Limits, times: seq<real>, oks: seq<bool>)
    decreases |times|
  {
    var n := |times| - 1;
    if n < 0 then oks == []
    else |oks| == n + 1 && oks[n] == TokenBucket.Allows(p, times[..n], times[n]) && AreAnswers(p, times[..n], oks[..n])
  }

  /** The key's bucket holds what its requests left behind; without a bucket the key was
      never seen, or was idle for longer than the time to live. */
  predicate BucketFits(p: TokenBucket.Limits, b: Option<Bucket>, times: seq<real>, clock: real) {
    if times == [] then b.None?
    else if b.Some? then b.value == Bucket(TokenBucket.Left(p, times), Last(times))
    else TokenBucket.Forgotten(p, Last(times), clock)
  }

  predicate KeyFits(p: TokenBucket.Limits, b: Option<Bucket>, times: seq<real>, oks: seq<bool>, clock: real) {
    && BucketFits(p, b, times, clock) && AreAnswers(p, times, oks)
    && TokenBucket.Sorted(times) && (times != [] ==> Last(times) <= clock)
  }

  lemma SpendIsLeft(p: TokenBucket.Limits, times: seq<real>, now: real)
    requires times != [] && !TokenBucket.Forgotten(p, Last(times), now)
    ensures var tokens := TokenBucket.Min(p.burst as real, TokenBucket.Left(p, times) + TokenBucket.Refill(p, Last(times), now));
      TokenBucket.Left(p, times + [now]) == (if tokens < 1.0 then tokens else tokens - 1.0)
      && (TokenBucket.Allows(p, times, now) <==> tokens >= 1.0)
  {
    assert (times + [now])[..|times|] == times;
  }

  lemma FullIsLeft(p: TokenBucket.Limits, times: seq<real>, now: real)
    requires p.Valid() && (times == [] || TokenBucket.Forgotten(p, Last(times), now))
    ensures TokenBucket.Left(p, times + [now]) == p.burst as real - 1.0
    ensures TokenBucket.Allows(p, times, now)
  {
    assert (times + [now])[..|times|] == times;
  }

  /** The decision is the token bucket's on all of the key's requests, whether or not its
      bucket was evicted in between. */
  lemma DecidedIsExact(p: TokenBucket.Limits, b: Option<Bucket>, times: seq<real>, now: real)
    requires p.Valid() && BucketFits(p, b, times, now)
    ensures var d := Decided(p, b, now);
      d.0 == TokenBucket.Allows(p, times, now) && BucketFits(p, Some(d.1), times + [now], now)
  {
    if b.None? || TokenBucket.Forgotten(p, b.value.lastSeen, now) {
      FullIsLeft(p, times, now);
    } else {
      SpendIsLeft(p, times, now);
    }
  }

  lemma AnswersMore(p: TokenBucket.Limits, times: seq<real>, oks: seq<bool>, now: real, ok: bool)
    requires AreAnswers(p, times, oks) && ok == TokenBucket.Allows(p, times, now)
    ensures AreAnswers(p, times + [now], oks + [ok])
  {
    assert (times + [now])[..|times|] == times && (oks + [ok])[..|times|] == oks;
  }

  lemma LaterIsSorted(times: seq<real>, now: real)
    requires TokenBucket.Sorted(times) && (times != [] ==> Last(times) <= now)
    ensures TokenBucket.Sorted(times + [now])
  {
  }

  lemma KeyDecided(p: TokenBucket.Limits, b: Option<Bucket>, times: seq<real>, oks: seq<bool>, now: real)
    requires p.Valid() && KeyFits(p, b, times, oks, now)
    ensures var d := Decided(p, b, now);
      KeyFits(p, Some(d.1), times + [now], oks + [d.0], now) && d.0 == TokenBucket.Allows(p, times, now)
  {
    var d := Decided(p, b, now);
    DecidedIsExact(p, b, times, now);
    AnswersMore(p, times, oks, now, d.0);
    LaterIsSorted(times, now);
  }

  lemma KeyWaits(p: TokenBucket.Limits, b: Option<Bucket>, times: seq<real>, oks: seq<bool>, clock: real, now: real)
    requires KeyFits(p, b, times, oks, clock) && clock <= now
    ensures KeyFits(p, b, times, oks, now)
    ensures b.Some? && TokenBucket.Forgotten(p, b.value.lastSeen, now) ==> KeyFits(p, None, times, oks, now)
  {
  }

  // ------------------------------------------------------------ all keys' requests

  /** Per key the times of the requests that were decided, and the answers. */
  datatype Record = Record(times: map<string, seq<real>>, answers: map<string, seq<bool>>) {
    function Asked(key: string): seq<real> {
      if key in times then times[key] else []
    }

    function Given(key: string): seq<bool> {
      if key in answers then answers[key] else []
    }

    function With(key: string, now: real, ok: bool): Record {
      Record(times[key := Asked(key) + [now]], answers[key := Given(key) + [ok]])
    }
  }

  ghost predicate Fits(p: TokenBucket.Limits, buckets: map<string, Bucket>, r: Record, clock: real) {
    forall k :: KeyFits(p, Lookup(buckets, k), r.Asked(k), r.Given(k), clock)
  }

  lemma FitsWhenSwept(p: TokenBucket.Limits, buckets: map<string, Bucket>, rest: map<string, Bucket>, r: Record, clock: real, now: real)
    requires Fits(p, buckets, r, clock) && clock <= now && Within(rest, buckets)
    requires forall k :: k in buckets && k !in rest ==> TokenBucket.Forgotten(p, buckets[k].lastSeen, now)
    ensures Fits(p, rest, r, now)
  {
    forall k ensures KeyFits(p, Lookup(rest, k), r.Asked(k), r.Given(k), now) {
      KeyWaits(p, Lookup(buckets, k), r.Asked(k), r.Given(k), clock, now);
    }
  }

  lemma FitsWhenDecided(p: TokenBucket.Limits, buckets: map<string, Bucket>, r: Record, now: real, key: string)
    requires p.Valid() && Fits(p, buckets, r, now)
    ensures var d := Decided(p, Lookup(buckets, key), now);
      Fits(p, buckets[key := d.1], r.With(key, now, d.0), now) && d.0 == TokenBucket.Allows(p, r.Asked(key), now)
  {
    var d := Decided(p, Lookup(buckets, key), now);
    var after := r.With(key, now, d.0);
    assert KeyFits(p, Lookup(buckets, key), r.Asked(key), r.Given(key), now);
    KeyDecided(p, Lookup(buckets, key), r.Asked(key), r.Given(key), now);
    forall k ensures KeyFits(p, Lookup(buckets[key := d.1], k), after.Asked(k), after.Given(k), now) {
      if k != key {
        assert KeyFits(p, Lookup(buckets, k), r.Asked(k), r.Given(k), now);
      }
    }
  }

  class Limiter {
    var buckets: map<string, Bucket>
    var keys: seq<string>
    var sweepCursor: nat
    const rate: real
    const burst: nat
    const bucketTTL: real
    const maxBuckets: nat
    ghost var record: Record
    ghost var clock: real
    /** The key list before every call and now, and the calls. */
    ghost var states: seq<Sweep.State>
    ghost var calls: seq<Sweep.Call>

    ghost function Limits(): TokenBucket.Limits {
      TokenBucket.Limits(rate, burst, Some(bucketTTL))
    }

    ghost function State(): Sweep.State
      reads this`keys, this`sweepCursor
    {
      Sweep.State(keys, sweepCursor)
    }

    /** The key list, the map and the cursor agree. */
    ghost predicate Agree()
      reads this`buckets, this`keys, this`sweepCursor
    {
      Limits().Valid() && maxBuckets >= 1 && AgreeOn(keys, buckets, sweepCursor, maxBuckets)
    }

    /** They do, and the buckets and the calls are those of the record. */
    ghost predicate Valid()
      reads this
    {
      && Agree() && Fits(Limits(), buckets, record, clock)
      && IsTrace(states, calls) && states[|calls|] == State()
    }

    constructor (rate: real, burst: int, ttl: real, max: int)
      ensures Valid() && buckets == map[] && keys == [] && record == Record(map[], map[]) && clock == 0.0 && calls == []
      ensures this.rate == if rate <= 0.0 then 1.0 else rate
      ensures this.burst == if burst <= 0 then 1 else burst
      ensures bucketTTL == if ttl <= 0.0 then 600.0 else ttl
      ensures maxBuckets == if max <= 0 then 100_000 else max
    {
      this.rate := if rate <= 0.0 then 1.0 else rate;
      this.burst := if burst <= 0 then 1 else burst;
      bucketTTL := if ttl <= 0.0 then DEFAULT_TTL else ttl;
      maxBuckets := if max <= 0 then DEFAULT_MAX_BUCKETS else max;
      buckets, keys, sweepCursor := map[], [], 0;
      record, clock := Record(map[], map[]), 0.0;
      states, calls := [Sweep.State([], 0)], [];
    }

    predicate Expired(b: Bucket, now: real) {
      bucketTTL > 0.0 && now - b.lastSeen > bucketTTL
    }

    method EvictExpired(now: real)
      requires Agree()
      modifies this`buckets, this`keys, this`sweepCursor
      ensures Agree() && Within(buckets, old(buckets))
      ensures State() == Sweep.Checks(old(State()), DeadKeys(old(buckets), bucketTTL, now), Sweep.Limit(old(keys)))
      ensures forall k :: k in old(buckets) && k !in buckets ==> Expired(old(buckets)[k], now)
    {
      if bucketTTL <= 0.0 || |keys| == 0 {
        return;
      }
      var limit := Sweep.MAX_CHECKS;
      if |keys| < limit {
        limit := |keys|;
      }
      ghost var dead := DeadKeys(buckets, bucketTTL, now);
      var checked := 0;
      while checked < limit && |keys| > 0
        invariant checked <= limit && Agree() && Within(buckets, old(buckets))
        invariant Sweep.Checks(State(), dead, limit - checked) == Sweep.Checks(old(State()), dead, limit)
        invariant forall k :: k in old(buckets) && k !in buckets ==> Expired(old(buckets)[k], now)
        decreases limit - checked
      {
        CheckOne(now, dead);
        checked := checked + 1;
      }
    }

    /** One turn of the sweep's loop. */
    method CheckOne(now: real, ghost dead: set<string>)
      requires Agree() && keys != []
      requires forall k :: k in buckets ==> (k in dead <==> Expired(buckets[k], now))
      modifies this`buckets, this`keys, this`sweepCursor
      ensures Agree() && State() == Sweep.Check(old(State()), dead)
      ensures Within(buckets, old(buckets))
      ensures forall k :: k in old(buckets) && k !in buckets ==> Expired(old(buckets)[k], now)
    {
      if sweepCursor >= |keys| {
        sweepCursor := 0;
      }
      var key := keys[sweepCursor];
      if key !in buckets || Expired(buckets[key], now) {
        Remove(key);
      } else {
        sweepCursor := sweepCursor + 1;
      }
    }

    /** Drop the key under the cursor; the last key takes its place. */
    method Remove(key: string)
      requires Agree() && sweepCursor < |keys| && key == keys[sweepCursor]
      modifies this`buckets, this`keys, this`sweepCursor
      ensures Agree() && buckets == old(buckets) - {key}
      ensures keys == Sweep.SwapOut(old(keys), old(sweepCursor))
      ensures sweepCursor == if old(sweepCursor) >= |keys| then 0 else old(sweepCursor)
    {
      Dropped(keys, buckets, sweepCursor);
      if key in buckets {
        buckets := buckets - {key};
      }
      var last := |keys| - 1;
      keys := keys[sweepCursor := keys[last]];
      keys := keys[..last];
      if sweepCursor >= |keys| {
        sweepCursor := 0;
      }
    }

    method Spend(was: Bucket, now: real) returns (ok: bool, b: Bucket)
      requires Limits().Valid()
      ensures (ok, b) == Spent(Limits(), was, now)
    {
      if Expired(was, now) {
        return true, Bucket(burst as real - 1.0, now);
      }
      var elapsed := now - was.lastSeen;
      var tokens := was.tokens + elapsed * rate;
      if tokens > burst as real {
        tokens := burst as real;
      }
      if tokens < 1.0 {
        return false, Bucket(tokens, now);
      }
      return true, Bucket(tokens - 1.0, now);
    }

    /** A bucket for a key, which joins the list if it is new. */
    method Put(key: string, b: Bucket)
      requires Agree() && (key !in buckets ==> |keys| < maxBuckets)
      modifies this`buckets, this`keys
      ensures Agree() && buckets == old(buckets)[key := b]
      ensures keys == if key in old(buckets) then old(keys) else old(keys) + [key]
    {
      PutAgrees(keys, buckets, sweepCursor, maxBuckets, key, b);
      if key !in buckets {
        keys := keys + [key];
      }
      buckets := buckets[key := b];
    }

    /** The body of Allow: sweep, then decide, unless the key is new and there is no room
        for it (full). swept are the buckets after the sweep. */
    method Admit(key: string, now: real) returns (ok: bool, ghost full: bool, ghost swept: map<string, Bucket>, ghost call: Sweep.Call)
      requires Agree()
      modifies this`buckets, this`keys, this`sweepCursor
      ensures Agree() && Within(swept, old(buckets))
      ensures forall k :: k in old(buckets) && k !in swept ==> Expired(old(buckets)[k], now)
      ensures full ==> !ok && buckets == swept && key !in swept && |keys| == maxBuckets
      ensures !full ==> var d := Decided(Limits(), Lookup(swept, key), now); ok == d.0 && buckets == swept[key := d.1]
      ensures call.dead == DeadKeys(old(buckets), bucketTTL, now)
      ensures Sweep.Adds(old(State()), call, key, maxBuckets, full)
      ensures Sweep.CallStep(old(State()), State(), call)
    {
      full, call := false, Sweep.Call(DeadKeys(buckets, bucketTTL, now), []);
      EvictExpired(now);
      swept := buckets;
      Nothing(old(State()), call);
      NoDupCount(keys, buckets);
      var b := Bucket(burst as real - 1.0, now);
      if key !in buckets {
        if |buckets| >= maxBuckets {
          return false, true, swept, call;
        }
        call := call.(added := [key]);
        ok := true;
      } else {
        ok, b := Spend(buckets[key], now);
      }
      Put(key, b);
    }

    /** Unless the key is new and there is no room for it (full), the decision is the
        token bucket's on the key's whole history, whatever was evicted in between. */
    method Allow(key: string, now: real) returns (ok: bool, ghost full: bool, ghost swept: map<string, Bucket>, ghost call: Sweep.Call)
      requires Valid() && clock <= now
      modifies this`buckets, this`keys, this`sweepCursor, this`record, this`clock, this`states, this`calls
      ensures Valid() && clock == now
      ensures !full ==> ok == TokenBucket.Allows(Limits(), old(record.Asked(key)), now)
      ensures full ==> !ok && key !in buckets && |keys| == maxBuckets
      ensures record == if full then old(record) else old(record).With(key, now, ok)
      ensures Within(swept, old(buckets)) && buckets == if full then swept else swept[key := Decided(Limits(), Lookup(swept, key), now).1]
      ensures call.dead == DeadKeys(old(buckets), bucketTTL, now)
      ensures Sweep.Adds(old(State()), call, key, maxBuckets, full) && Sweep.CallStep(old(State()), State(), call)
      ensures states == old(states) + [State()] && calls == old(calls) + [call]
    {
      ok, full, swept, call := Admit(key, now);
      FitsWhenSwept(Limits(), old(buckets), swept, record, clock, now);
      clock := now;
      if !full {
        FitsWhenDecided(Limits(), swept, record, now, key);
        record := record.With(key, now, ok);
      }
      TraceGrows(states, calls, State(), call);
      states, calls := states + [State()], calls + [call];
    }

    /** With a time to live of at least a full refill, every answer that was ever given,
        however many keys were evicted in between, is the one of a bucket that never
        forgets. */
    lemma AnswersAreIdeal(key: string, i: nat)
      requires Valid() && i < |record.Asked(key)|
      requires burst as real <= TokenBucket.Refill(Limits(), 0.0, bucketTTL)
      ensures i < |record.Given(key)|
      ensures record.Given(key)[i] == TokenBucket.Allows(Limits().Ideal(), record.Asked(key)[..i], record.Asked(key)[i])
    {
      var times := record.Asked(key);
      assert KeyFits(Limits(), Lookup(buckets, key), times, record.Given(key), clock);
      AnswerAt(Limits(), times, record.Given(key), i);
      TokenBucket.ForgettingIsHarmless(Limits(), times[..i], times[i]);
    }

    /** The answers that a key got in an interval: at most burst + rate * (its length)
        of the requests lo, ..., hi were granted. */
    lemma GrantedInInterval(key: string, lo: nat, hi: nat)
      requires Valid() && lo <= hi < |record.Asked(key)|
      requires burst as real <= TokenBucket.Refill(Limits(), 0.0, bucketTTL)
      ensures hi < |record.Given(key)|
      ensures Trues(record.Given(key)[..hi + 1], lo) as real
           <= burst as real + TokenBucket.Refill(Limits(), record.Asked(key)[lo], record.Asked(key)[hi])
    {
      assert KeyFits(Limits(), Lookup(buckets, key), record.Asked(key), record.Given(key), clock);
      TruesAreGrants(Limits(), record.Asked(key), record.Given(key), hi + 1, lo);
      TokenBucket.GrantBound(Limits(), record.Asked(key), lo, hi);
    }

    /** A key that stays expired and untouched during the calls i, ..., j - 1 of this
        limiter outlives only calls whose sweeps together cover less than twice the
        keys that there were before call i. */
    lemma IdleKeyGoesAway(key: string, i: nat, j: nat)
      requires Valid() && i <= j <= |calls|
      requires Stays(states, calls, key, i, j)
      ensures j - i < 2 * |states[i].keys|
      ensures Sweep.Covered(states[i..j + 1], j - i) < 2 * |states[i].keys|
    {
      LingeringKeyGoes(states, calls, key, i, j);
    }
  }

  /** How many of the answers from number lo on were true. */
  function Trues(oks: seq<bool>, lo: nat): nat
    decreases |oks|
  {
    var n := |oks| - 1;
    if n < lo then 0 else Trues(oks[..n], lo) + (if oks[n] then 1 else 0)
  }

  lemma {:induction false} TruesAreGrants(p: TokenBucket.Limits, times: seq<real>, oks: seq<bool>, n: nat, lo: nat)
    requires AreAnswers(p, times, oks) && n <= |times|
    ensures n <= |oks| && Trues(oks[..n], lo) == TokenBucket.Grants(p, times[..n], lo)
    decreases |times|
  {
    var m := |times| - 1;
    if n <= m {
      TruesAreGrants(p, times[..m], oks[..m], n, lo);
      assert times[..m][..n] == times[..n] && oks[..m][..n] == oks[..n];
    } else if m >= 0 {
      TruesAreGrants(p, times[..m], oks[..m], m, lo);
      assert times[..n] == times && oks[..n] == oks && times[..m][..m] == times[..m] && oks[..m][..m] == oks[..m];
    }
  }

  predicate IsTrace(states: seq<Sweep.State>, calls: seq<Sweep.Call>) {
    && |states| == |calls| + 1 && states[0] == Sweep.State([], 0)
    && (forall i :: 0 <= i < |calls| ==> Sweep.CallStep(states[i], states[i + 1], calls[i]))
  }

  /** During the calls i, ..., j - 1 the key is dead, not added again, and still there. */
  predicate Stays(states: seq<Sweep.State>, calls: seq<Sweep.Call>, key: string, i: nat, j: nat)
    requires |states| == |calls| + 1 && i <= j <= |calls|
  {
    && (forall x :: i <= x < j ==> key in calls[x].dead && key !in calls[x].added)
    && (forall x :: i <= x <= j ==> key in states[x].keys)
  }

  lemma Lingers(states: seq<Sweep.State>, calls: seq<Sweep.Call>, key: string, i: nat, j: nat)
    requires IsTrace(states, calls) && i <= j <= |calls| && Stays(states, calls, key, i, j)
    ensures Sweep.IsLingeringRun(states[i..j + 1], calls[i..j], key)
  {
    TraceKeepsNoDup(states, calls, i);
    var run, made := states[i..j + 1], calls[i..j];
    forall x | 0 <= x < |made| ensures Sweep.CallStep(run[x], run[x + 1], made[x]) {
      assert Sweep.CallStep(states[i + x], states[i + x + 1], calls[i + x]);
    }
  }

  lemma LingeringKeyGoes(states: seq<Sweep.State>, calls: seq<Sweep.Call>, key: string, i: nat, j: nat)
    requires IsTrace(states, calls) && i <= j <= |calls| && Stays(states, calls, key, i, j)
    ensures j - i < 2 * |states[i].keys|
    ensures Sweep.Covered(states[i..j + 1], j - i) < 2 * |states[i].keys|
  {
    Lingers(states, calls, key, i, j);
    Sweep.DeadKeyGoesAway(states[i..j + 1], calls[i..j], key);
  }

  lemma TraceGrows(states: seq<Sweep.State>, calls: seq<Sweep.Call>, s: Sweep.State, call: Sweep.Call)
    requires IsTrace(states, calls) && Sweep.CallStep(states[|calls|], s, call)
    ensures IsTrace(states + [s], calls + [call])
  {
    var n := |calls|;
    forall i | 0 <= i < n + 1 ensures Sweep.CallStep((states + [s])[i], (states + [s])[i + 1], (calls + [call])[i]) {
      if i < n {
        assert Sweep.CallStep(states[i], states[i + 1], calls[i]);
      }
    }
  }

  lemma {:induction false} TraceKeepsNoDup(states: seq<Sweep.State>, calls: seq<Sweep.Call>, i: nat)
    requires IsTrace(states, calls) && i <= |calls|
    ensures Sweep.NoDup(states[i].keys) && states[i].cursor <= |states[i].keys|
  {
    if i > 0 {
      TraceKeepsNoDup(states, calls, i - 1);
      assert Sweep.CallStep(states[i - 1], states[i - 1 + 1], calls[i - 1]);
      Sweep.AfterCallKeepsNoDup(states[i - 1], calls[i - 1].dead, calls[i - 1].added);
    }
  }

  lemma PutAgrees(keys: seq<string>, buckets: map<string, Bucket>, cursor: nat, max: nat, key: string, b: Bucket)
    requires AgreeOn(keys, buckets, cursor, max)
    ensures key in buckets ==> AgreeOn(keys, buckets[key := b], cursor, max)
    ensures key !in buckets && |keys| < max ==> AgreeOn(keys + [key], buckets[key := b], cursor, max)
  {
    if key !in buckets {
      Sweep.AddingKeepsNoDup(keys, [key]);
    }
  }

  lemma {:induction false} AnswerAt(p: TokenBucket.Limits, times: seq<real>, oks: seq<bool>, i: nat)
    requires AreAnswers(p, times, oks) && i < |times|
    ensures i < |oks| && oks[i] == TokenBucket.Allows(p, times[..i], times[i])
    decreases |times|
  {
    var n := |times| - 1;
    if i < n {
      AnswerAt(p, times[..n], oks[..n], i);
      assert times[..n][..i] == times[..i];
    }
  }

  lemma Dropped(keys: seq<string>, buckets: map<string, Bucket>, i: nat)
    requires Sweep.NoDup(keys) && SameKeys(keys, buckets) && i < |keys|
    ensures Sweep.NoDup(Sweep.SwapOut(keys, i))
    ensures SameKeys(Sweep.SwapOut(keys, i), buckets - {keys[i]})
  {
    var rest := Sweep.SwapOut(keys, i);
    assert |rest| == |keys| - 1;
    assert forall j :: 0 <= j < |rest| ==> rest[j] == keys[if j == i then |keys| - 1 else j];
    forall k | k in buckets && k != keys[i] ensures k in rest {
      var j :| 0 <= j < |keys| && keys[j] == k;
      assert rest[if j == |keys| - 1 then i else j] == k;
    }
  }

  lemma Nothing(s: Sweep.State, call: Sweep.Call)
    requires call.added == []
    ensures Sweep.CallStep(s, Sweep.Checks(s, call.dead, Sweep.Limit(s.keys)), call)
  {
    var t := Sweep.Checks(s, call.dead, Sweep.Limit(s.keys));
    assert t.keys + [] == t.keys;
  }

  // -------------------------------------------------- an expired key that stays

  /** When the keys with a bucket were last seen. */
  ghost predicate SeenAt(buckets: map<string, Bucket>, seen: map<string, real>) {
    forall k :: k in buckets ==> k in seen && buckets[k].lastSeen == seen[k]
  }

  /** The keys of a limiter, in order, its cursor, and when the keys were last seen. */
  ghost predicate Looks(l: Limiter, keys: seq<string>, cursor: nat, seen: map<string, real>)
    reads l
  {
    && l.Valid() && l.bucketTTL == 10.0 && l.maxBuckets == DEFAULT_MAX_BUCKETS
    && l.State() == Sweep.State(keys, cursor) && SeenAt(l.buckets, seen)
  }

  lemma DeadIff(l: Limiter, keys: seq<string>, cursor: nat, seen: map<string, real>, now: real, k: string)
    requires Looks(l, keys, cursor, seen)
    ensures k in DeadKeys(l.buckets, l.bucketTTL, now) <==> k in keys && k in seen && now - seen[k] > 10.0
  {
    assert SameKeys(l.keys, l.buckets);
  }

  /** A call of Allow on a limiter with few keys, in terms of what the sweep leaves. */
  method Visit(l: Limiter, key: string, now: real, ghost seen: map<string, real>, ghost swept: Sweep.State)
    requires l.clock <= now && Looks(l, l.keys, l.sweepCursor, seen)
    requires swept == Sweep.Checks(l.State(), DeadKeys(l.buckets, l.bucketTTL, now), Sweep.Limit(l.keys))
    requires |swept.keys| < DEFAULT_MAX_BUCKETS
    modifies l
    ensures Looks(l, if key in swept.keys then swept.keys else swept.keys + [key], swept.cursor, seen[key := now])
    ensures l.clock == now && |l.calls| == |old(l.calls)| + 1
    ensures l.calls[|old(l.calls)|].dead == DeadKeys(old(l.buckets), l.bucketTTL, now)
    ensures l.states[|old(l.calls)|] == old(l.State())
  {
    var ok;
    ghost var full, rest, call;
    ok, full, rest, call := l.Allow(key, now);
    assert swept.keys + [] == swept.keys;
    SeenMore(old(l.buckets), rest, key, Decided(l.Limits(), Lookup(rest, key), now).1, now, seen);
  }

  lemma SeenMore(buckets: map<string, Bucket>, rest: map<string, Bucket>, key: string, b: Bucket, now: real, seen: map<string, real>)
    requires SeenAt(buckets, seen) && Within(rest, buckets) && b.lastSeen == now
    ensures SeenAt(rest[key := b], seen[key := now])
  {
  }

  method FirstFourCalls() returns (l: Limiter)
    requires "a" != "b"
    ensures fresh(l) && Looks(l, ["b", "a"], 2, map["a" := 12.0, "b" := 12.0]) && l.clock == 12.0 && |l.calls| == 4
  {
    l := new Limiter(1.0, 1, 10.0, 0);
    Visit(l, "a", 0.0, map[], Sweep.State([], 0));
    assert [] + ["a"] == ["a"];
    SecondCall(l);
    ThirdCall(l);
    FourthCall(l);
  }

  /** Six requests of three keys. The sweep of the last one starts at the third of three
      keys, two of which are expired, and leaves the expired key "a" in place. */
  method ExpiredKeyStays() returns (l: Limiter)
    ensures fresh(l) && l.Valid() && |l.calls| == 6
    ensures l.states[5] == Sweep.State(["b", "a", "c"], 2)
    ensures "a" in l.calls[5].dead && "a" in l.buckets && l.Expired(l.buckets["a"], l.clock)
  {
    assert "a"[0] != "b"[0] && "a"[0] != "c"[0] && "b"[0] != "c"[0];
    l := FirstFourCalls();
    FifthCall(l);
    SixthCall(l);
    KeyIsThere(l, ["c", "a", "b"], 1, map["a" := 12.0, "b" := 24.0, "c" := 18.0], 1);
  }

  lemma KeyIsThere(l: Limiter, keys: seq<string>, cursor: nat, seen: map<string, real>, i: nat)
    requires Looks(l, keys, cursor, seen) && i < |keys|
    ensures keys[i] in l.buckets && keys[i] in seen && l.buckets[keys[i]].lastSeen == seen[keys[i]]
  {
    assert keys[i] in l.keys;
  }

  method SecondCall(l: Limiter)
    requires Looks(l, ["a"], 0, map["a" := 0.0]) && l.clock == 0.0 && "a" != "b"
    modifies l
    ensures Looks(l, ["a", "b"], 1, map["a" := 0.0, "b" := 6.0]) && l.clock == 6.0 && |l.calls| == |old(l.calls)| + 1
  {
    ghost var dead, seen := DeadKeys(l.buckets, l.bucketTTL, 6.0), map["a" := 0.0];
    DeadIff(l, ["a"], 0, seen, 6.0, "a");
    Sweep.SecondKey("a", "b", dead);
    Visit(l, "b", 6.0, seen, Sweep.State(["a"], 1));
    assert ["a"] + ["b"] == ["a", "b"];
    assert seen["b" := 6.0] == map["a" := 0.0, "b" := 6.0];
  }

  method ThirdCall(l: Limiter)
    requires Looks(l, ["a", "b"], 1, map["a" := 0.0, "b" := 6.0]) && l.clock == 6.0 && "a" != "b"
    modifies l
    ensures Looks(l, ["b", "a"], 0, map["a" := 12.0, "b" := 6.0]) && l.clock == 12.0 && |l.calls| == |old(l.calls)| + 1
  {
    ghost var dead, seen := DeadKeys(l.buckets, l.bucketTTL, 12.0), map["a" := 0.0, "b" := 6.0];
    DeadIff(l, ["a", "b"], 1, seen, 12.0, "a");
    DeadIff(l, ["a", "b"], 1, seen, 12.0, "b");
    Sweep.FirstKeyAgain("a", "b", dead);
    Visit(l, "a", 12.0, seen, Sweep.State(["b"], 0));
    assert ["b"] + ["a"] == ["b", "a"];
    assert seen["a" := 12.0] == map["a" := 12.0, "b" := 6.0];
  }

  method FourthCall(l: Limiter)
    requires Looks(l, ["b", "a"], 0, map["a" := 12.0, "b" := 6.0]) && l.clock == 12.0 && "a" != "b"
    modifies l
    ensures Looks(l, ["b", "a"], 2, map["a" := 12.0, "b" := 12.0]) && l.clock == 12.0 && |l.calls| == |old(l.calls)| + 1
  {
    ghost var dead, seen := DeadKeys(l.buckets, l.bucketTTL, 12.0), map["a" := 12.0, "b" := 6.0];
    DeadIff(l, ["b", "a"], 0, seen, 12.0, "a");
    DeadIff(l, ["b", "a"], 0, seen, 12.0, "b");
    Sweep.TwoLive("b", "a", 0, dead);
    assert ["b", "a"][0] == "b";
    Visit(l, "b", 12.0, seen, Sweep.State(["b", "a"], 2));
    assert seen["b" := 12.0] == map["a" := 12.0, "b" := 12.0];
  }

  method FifthCall(l: Limiter)
    requires Looks(l, ["b", "a"], 2, map["a" := 12.0, "b" := 12.0]) && l.clock == 12.0
    requires "a" != "b" && "a" != "c" && "b" != "c"
    modifies l
    ensures Looks(l, ["b", "a", "c"], 2, map["a" := 12.0, "b" := 12.0, "c" := 18.0]) && l.clock == 18.0
    ensures |l.calls| == |old(l.calls)| + 1
  {
    ghost var dead, seen := DeadKeys(l.buckets, l.bucketTTL, 18.0), map["a" := 12.0, "b" := 12.0];
    DeadIff(l, ["b", "a"], 2, seen, 18.0, "a");
    DeadIff(l, ["b", "a"], 2, seen, 18.0, "b");
    Sweep.TwoLive("b", "a", 2, dead);
    Visit(l, "c", 18.0, seen, Sweep.State(["b", "a"], 2));
    assert ["b", "a"] + ["c"] == ["b", "a", "c"];
    assert seen["c" := 18.0] == map["a" := 12.0, "b" := 12.0, "c" := 18.0];
  }

  lemma DeadAtTheEnd(l: Limiter, seen: map<string, real>)
    requires seen == map["a" := 12.0, "b" := 12.0, "c" := 18.0] && Looks(l, ["b", "a", "c"], 2, seen)
    requires "a" != "b" && "a" != "c" && "b" != "c"
    ensures var dead := DeadKeys(l.buckets, l.bucketTTL, 24.0); "a" in dead && "b" in dead && "c" !in dead
  {
    var keys := ["b", "a", "c"];
    assert keys[0] == "b" && keys[1] == "a" && keys[2] == "c";
    DeadIff(l, keys, 2, seen, 24.0, "a");
    DeadIff(l, keys, 2, seen, 24.0, "b");
    DeadIff(l, keys, 2, seen, 24.0, "c");
  }

  method SixthCall(l: Limiter)
    requires Looks(l, ["b", "a", "c"], 2, map["a" := 12.0, "b" := 12.0, "c" := 18.0]) && l.clock == 18.0
    requires "a" != "b" && "a" != "c" && "b" != "c"
    modifies l
    ensures Looks(l, ["c", "a", "b"], 1, map["a" := 12.0, "b" := 24.0, "c" := 18.0]) && l.clock == 24.0
    ensures |l.calls| == |old(l.calls)| + 1 && "a" in l.calls[|old(l.calls)|].dead
    ensures l.states[|old(l.calls)|] == Sweep.State(["b", "a", "c"], 2)
  {
    ghost var dead, seen := DeadKeys(l.buckets, l.bucketTTL, 24.0), map["a" := 12.0, "b" := 12.0, "c" := 18.0];
    ghost var keys := ["b", "a", "c"];
    DeadAtTheEnd(l, seen);
    Sweep.OneIsMissed("b", "a", "c", dead);
    Visit(l, "b", 24.0, seen, Sweep.State(["c", "a"], 1));
    assert ["c", "a"] + ["b"] == ["c", "a", "b"];
    assert seen["b" := 24.0] == map["a" := 12.0, "b" := 24.0, "c" := 18.0];
  }
}
