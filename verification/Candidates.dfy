/**
  Which providers a request may go to, and in which order: the capable ones of the
  best tier, sorted by preference, cost, latency and registration order.
 */
module Candidates {
  import opened Domain
  import opened MediaContracts
  import Breaker
  import Quality

  datatype Candidate = Candidate(
    name: ProviderName, modelClass: string, cost: int, latency: nat,
    open: bool, quality: Quality.Status, preferred: bool, order: nat)

  /** An empty modality or model code matches any. */
  datatype Capability = Capability(operation: Operation, modality: Option<Modality>, modelCode: string)

  datatype Estimate = Cost(credits: int) | Unsupported | EstimateError

  /** What a provider answers about a request; no capabilities: the call failed. */
  datatype Offer = Offer(capabilities: Option<seq<Capability>>, estimate: Estimate)

  predicate CapabilityFits(c: Capability, req: Request) {
    && c.operation == req.operation
    && (c.modality.Some? && req.modality.Some? ==> c.modality == req.modality)
    && (req.modelCode != "" && c.modelCode != "" ==> req.modelCode == c.modelCode)
  }

  /** The same operation, and model and modality the same or left open on one side. */
  predicate Serves(c: Capability, req: Request) {
    && c.operation == req.operation
    && (c.modality == req.modality || c.modality == None || req.modality == None)
    && (c.modelCode == req.modelCode || c.modelCode == "" || req.modelCode == "")
  }

  predicate IsSupported(offer: Offer, req: Request) {
    offer.capabilities.Some? && exists i :: 0 <= i < |offer.capabilities.value| && CapabilityFits(offer.capabilities.value[i], req)
  }

  method Supports(offer: Offer, req: Request) returns (ok: bool)
    ensures ok <==> IsSupported(offer, req)
    ensures ok <==> offer.capabilities.Some? && exists i :: 0 <= i < |offer.capabilities.value| && Serves(offer.capabilities.value[i], req)
  {
    if offer.capabilities.None? {
      return false;
    }
    var caps := offer.capabilities.value;
    for i := 0 to |caps|
      invariant forall j :: 0 <= j < i ==> !CapabilityFits(caps[j], req) && !Serves(caps[j], req)
    {
      if CapabilityFits(caps[i], req) {
        return true;
      }
    }
    return false;
  }

  /** The provider can take the request: it matches the pin, supports the request
      and does not refuse to estimate it. */
  predicate Capable(name: ProviderName, offer: Offer, req: Request) {
    && (req.provider.Some? ==> req.provider.value == name)
    && IsSupported(offer, req)
    && !offer.estimate.Unsupported?
  }

  // ------------------------------------------------------------------- order

  /** The comparison of sortCandidates. */
  predicate Before(a: Candidate, b: Candidate) {
    if a.preferred != b.preferred then a.preferred
    else if a.cost != b.cost then a.cost < b.cost
    else if a.latency != b.latency then
      if a.latency == 0 then false else if b.latency == 0 then true else a.latency < b.latency
    else a.order < b.order
  }

  /** Before is a strict order, total on candidates of different registration. */
  lemma BeforeIsAStrictTotalOrder(a: Candidate, b: Candidate, c: Candidate)
    ensures !Before(a, a)
    ensures Before(a, b) ==> !Before(b, a)
    ensures Before(a, b) && Before(b, c) ==> Before(a, c)
    ensures a.order != b.order ==> Before(a, b) || Before(b, a)
  {
  }

  predicate Sorted(cs: seq<Candidate>) {
    forall i, j :: 0 <= i < j < |cs| ==> Before(cs[i], cs[j])
  }

  /** What the order is for: preferred ones first, then the cheaper, then the faster with
      unknown latencies last, then the one registered earlier. */
  predicate Ahead(a: Candidate, b: Candidate) {
    && (b.preferred ==> a.preferred)
    && (a.preferred == b.preferred ==> a.cost <= b.cost)
    && (a.preferred == b.preferred && a.cost == b.cost && b.latency > 0 ==> 0 < a.latency <= b.latency)
    && (a.preferred == b.preferred && a.cost == b.cost && a.latency == b.latency ==> a.order < b.order)
  }

  predicate Ranked(cs: seq<Candidate>) {
    forall i, j :: 0 <= i < j < |cs| ==> Ahead(cs[i], cs[j])
  }

  lemma SortedIsRanked(cs: seq<Candidate>)
    ensures Sorted(cs) <==> Ranked(cs)
  {
    assert forall a, b :: Before(a, b) <==> Ahead(a, b);
  }

  /** No two candidates of the same registration. */
  predicate Distinct(cs: seq<Candidate>) {
    forall i, j :: 0 <= i < j < |cs| ==> cs[i].order != cs[j].order
  }

  predicate Ascending(cs: seq<Candidate>) {
    forall i, j :: 0 <= i < j < |cs| ==> cs[i].order < cs[j].order
  }

  function Insert(c: Candidate, cs: seq<Candidate>): seq<Candidate> {
    if cs == [] || Before(c, cs[0]) then [c] + cs else [cs[0]] + Insert(c, cs[1..])
  }

  function Sort(cs: seq<Candidate>): seq<Candidate>
    decreases |cs|
  {
    var n := |cs| - 1;
    if n < 0 then [] else Insert(cs[n], Sort(cs[..n]))
  }

  lemma {:induction false} InsertAdds(c: Candidate, cs: seq<Candidate>)
    ensures multiset(Insert(c, cs)) == multiset(cs) + multiset{c}
  {
    if cs != [] && !Before(c, cs[0]) {
      assert cs == [cs[0]] + cs[1..];
      InsertAdds(c, cs[1..]);
    }
  }

  lemma {:induction false} InsertKeepsSorted(c: Candidate, cs: seq<Candidate>)
    requires Sorted(cs) && forall i :: 0 <= i < |cs| ==> cs[i].order != c.order
    ensures Sorted(Insert(c, cs))
  {
    if cs != [] {
      var tail := cs[1..];
      if Before(c, cs[0]) {
        assert forall i :: 0 <= i < |cs| ==> Before(c, cs[i]);
      } else {
        InsertKeepsSorted(c, tail);
        var r := Insert(c, tail);
        InsertAdds(c, tail);
        forall i | 0 <= i < |r| ensures Before(cs[0], r[i]) {
          assert r[i] in multiset(r);
          if r[i] != c {
            assert r[i] in tail;
          }
        }
      }
    }
  }

  lemma {:induction false} SortKeeps(cs: seq<Candidate>)
    ensures multiset(Sort(cs)) == multiset(cs)
    decreases |cs|
  {
    var n := |cs| - 1;
    if n >= 0 {
      assert cs == cs[..n] + [cs[n]];
      SortKeeps(cs[..n]);
      InsertAdds(cs[n], Sort(cs[..n]));
    }
  }

  lemma SameMembers(a: seq<Candidate>, b: seq<Candidate>)
    requires multiset(a) == multiset(b)
    ensures |a| == |b| && forall c :: c in a <==> c in b
  {
    assert |multiset(a)| == |multiset(b)|;
    assert forall c :: (c in a <==> c in multiset(a)) && (c in b <==> c in multiset(b));
  }

  lemma {:induction false} SortSorts(cs: seq<Candidate>)
    requires Distinct(cs)
    ensures Sorted(Sort(cs))
    decreases |cs|
  {
    var n := |cs| - 1;
    if n >= 0 {
      var p := cs[..n];
      SortSorts(p);
      SortKeeps(p);
      SameMembers(Sort(p), p);
      forall i | 0 <= i < |Sort(p)| ensures Sort(p)[i].order != cs[n].order {
        assert Sort(p)[i] in p;
      }
      InsertKeepsSorted(cs[n], Sort(p));
    }
  }

  /** Two sorted lists of the same candidates are the same list. */
  lemma {:induction false} SortedIsUnique(a: seq<Candidate>, b: seq<Candidate>)
    requires Sorted(a) && Sorted(b) && multiset(a) == multiset(b)
    ensures a == b
    decreases |a|
  {
    SameMembers(a, b);
    if a != [] {
      FirstIsSame(a, b);
      TailHolds(a);
      TailHolds(b);
      SortedIsUnique(a[1..], b[1..]);
    }
  }

  lemma TailHolds(a: seq<Candidate>)
    requires a != []
    ensures multiset(a[1..]) == multiset(a) - multiset{a[0]}
  {
    assert a == [a[0]] + a[1..];
  }

  lemma FirstIsSame(a: seq<Candidate>, b: seq<Candidate>)
    requires Sorted(a) && Sorted(b) && a != [] && b != []
    requires a[0] in b && b[0] in a
    ensures a[0] == b[0]
  {
    var i :| 0 <= i < |a| && a[i] == b[0];
    var j :| 0 <= j < |b| && b[j] == a[0];
    assert i > 0 ==> Before(a[0], b[0]);
    assert j > 0 ==> Before(b[0], a[0]);
    BeforeIsAStrictTotalOrder(a[0], b[0], a[0]);
  }

  // ------------------------------------------------------------------- tiers

  datatype Tier = HealthyTier | DegradedTier | OpenTier | DisabledTier

  function TierOf(guarded: bool, c: Candidate): Tier {
    if guarded && c.quality == Quality.Disabled then DisabledTier
    else if c.open then OpenTier
    else if guarded && c.quality == Quality.Degraded then DegradedTier
    else HealthyTier
  }

  function InTier(guarded: bool, cs: seq<Candidate>, t: Tier): seq<Candidate>
    decreases |cs|
  {
    var n := |cs| - 1;
    if n < 0 then []
    else InTier(guarded, cs[..n], t) + (if TierOf(guarded, cs[n]) == t then [cs[n]] else [])
  }

  function Rank(t: Tier): nat {
    match t case HealthyTier => 0 case DegradedTier => 1 case OpenTier => 2 case DisabledTier => 3
  }

  lemma {:induction false} InTierIs(guarded: bool, cs: seq<Candidate>, t: Tier)
    ensures forall c :: c in InTier(guarded, cs, t) <==> c in cs && TierOf(guarded, c) == t
    decreases |cs|
  {
    var n := |cs| - 1;
    if n >= 0 {
      assert cs == cs[..n] + [cs[n]];
      InTierIs(guarded, cs[..n], t);
    }
  }

  lemma {:induction false} InTierAscends(guarded: bool, cs: seq<Candidate>, t: Tier)
    requires Ascending(cs)
    ensures Ascending(InTier(guarded, cs, t))
    decreases |cs|
  {
    var n := |cs| - 1;
    if n >= 0 {
      InTierAscends(guarded, cs[..n], t);
      InTierIs(guarded, cs[..n], t);
      var p := InTier(guarded, cs[..n], t);
      forall i | 0 <= i < |p| ensures p[i].order < cs[n].order {
        assert p[i] in cs[..n];
      }
    }
  }

  /** The first tier that is not empty. */
  function BestTier(guarded: bool, cs: seq<Candidate>): Tier {
    if InTier(guarded, cs, HealthyTier) != [] then HealthyTier
    else if InTier(guarded, cs, DegradedTier) != [] then DegradedTier
    else if InTier(guarded, cs, OpenTier) != [] then OpenTier
    else DisabledTier
  }

  /** The best tier, sorted. */
  function Choose(guarded: bool, cs: seq<Candidate>): seq<Candidate> {
    Sort(InTier(guarded, cs, BestTier(guarded, cs)))
  }

  lemma BestTierIsBest(guarded: bool, cs: seq<Candidate>, c: Candidate)
    requires c in cs
    ensures Rank(BestTier(guarded, cs)) <= Rank(TierOf(guarded, c))
    ensures InTier(guarded, cs, BestTier(guarded, cs)) != []
  {
    var t := TierOf(guarded, c);
    InTierIs(guarded, cs, t);
    assert c in InTier(guarded, cs, t);
  }

  /** The choice holds exactly the candidates of the best tier that has any, is
      sorted, and is the only sorted arrangement of them. */
  lemma ChoiceIsTheBestTier(guarded: bool, cs: seq<Candidate>)
    requires Ascending(cs)
    ensures var best := Choose(guarded, cs);
      var tier := BestTier(guarded, cs);
      Sorted(best) && multiset(best) == multiset(InTier(guarded, cs, tier))
      && (best == [] <==> cs == [])
      && (forall c :: c in best <==> c in cs && TierOf(guarded, c) == tier)
  {
    var tier := BestTier(guarded, cs);
    var members := InTier(guarded, cs, tier);
    InTierAscends(guarded, cs, tier);
    InTierIs(guarded, cs, tier);
    SortSorts(members);
    SortKeeps(members);
    SameMembers(Sort(members), members);
    if cs != [] {
      BestTierIsBest(guarded, cs, cs[0]);
    }
  }

  lemma ChoiceIsUnique(guarded: bool, cs: seq<Candidate>, other: seq<Candidate>)
    requires Ascending(cs) && Sorted(other)
    requires multiset(other) == multiset(InTier(guarded, cs, BestTier(guarded, cs)))
    ensures other == Choose(guarded, cs)
  {
    ChoiceIsTheBestTier(guarded, cs);
    SortedIsUnique(other, Choose(guarded, cs));
  }

  // -------------------------------------------------------- what the tiers are for

  /** Usable without reservation. */
  predicate IsHealthy(guarded: bool, c: Candidate) {
    !c.open && (guarded ==> c.quality == Quality.Healthy)
  }

  /** Usable with reservation. */
  predicate IsUsable(guarded: bool, c: Candidate) {
    !c.open && (guarded ==> c.quality != Quality.Disabled)
  }

  predicate IsEnabled(guarded: bool, c: Candidate) {
    guarded ==> c.quality != Quality.Disabled
  }

  predicate SameLevel(guarded: bool, c: Candidate, d: Candidate) {
    && IsHealthy(guarded, c) == IsHealthy(guarded, d)
    && IsUsable(guarded, c) == IsUsable(guarded, d)
    && IsEnabled(guarded, c) == IsEnabled(guarded, d)
  }

  /** A healthy candidate keeps all others out, a usable one those that are not, and an
      enabled one the disabled; and nobody else is kept out. */
  lemma ChosenAreTheBest(guarded: bool, cs: seq<Candidate>, c: Candidate, d: Candidate)
    requires Ascending(cs) && c in Choose(guarded, cs) && d in cs
    ensures IsHealthy(guarded, d) ==> IsHealthy(guarded, c)
    ensures IsUsable(guarded, d) ==> IsUsable(guarded, c)
    ensures IsEnabled(guarded, d) ==> IsEnabled(guarded, c)
    ensures SameLevel(guarded, c, d) ==> d in Choose(guarded, cs)
  {
    ChoiceIsTheBestTier(guarded, cs);
    BestTierIsBest(guarded, cs, d);
  }
}
