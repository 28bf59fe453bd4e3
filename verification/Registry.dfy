/**
  The state of the provider registry and the operations that change it. The ghost
  histories hold every call and every quality sample that was ever recorded.
 */
module Registry {
  import opened Domain
  import opened MediaContracts
  import opened Router
  import Breaker
  import Candidates
  import Quality

  type CallHistory = map<ProviderName, seq<Breaker.Sample>>
  type SampleHistory = map<QualityKey, seq<Quality.Sample>>

  function CallsOf(history: CallHistory, name: ProviderName): seq<Breaker.Sample> {
    if name in history then history[name] else []
  }

  function SamplesOf(samples: SampleHistory, key: QualityKey): seq<Quality.Sample> {
    if key in samples then samples[key] else []
  }

  function SampleOf(a: Answer): Breaker.Sample {
    Breaker.Sample(a.ended - a.started, a.failure, a.at)
  }

  /** Everything that was ever recorded. */
  datatype Books = Books(history: CallHistory, samples: SampleHistory)

  function WithCall(history: CallHistory, name: ProviderName, s: Breaker.Sample): CallHistory {
    history[name := CallsOf(history, name) + [s]]
  }

  function WithSample(samples: SampleHistory, key: QualityKey, s: Quality.Sample): SampleHistory {
    samples[key := SamplesOf(samples, key) + [s]]
  }

  /** The given names in order, each once. */
  function Registered(names: seq<ProviderName>): seq<ProviderName>
    decreases |names|
  {
    var n := |names| - 1;
    if n < 0 then []
    else
      var before := Registered(names[..n]);
      if names[n] in before then before else before + [names[n]]
  }

  function NamesOf(names: seq<ProviderName>): set<ProviderName> {
    set n | n in names
  }

  lemma RegisteredMore(names: seq<ProviderName>, i: nat)
    requires i < |names|
    ensures Registered(names[..i + 1]) ==
      if names[i] in Registered(names[..i]) then Registered(names[..i]) else Registered(names[..i]) + [names[i]]
    ensures NamesOf(names[..i + 1]) == NamesOf(names[..i]) + {names[i]}
  {
    assert names[..i + 1] == names[..i] + [names[i]];
    assert names[..i + 1][..i] == names[..i];
  }

  /** Every provider's breaker is the fold of its calls. */
  predicate BreakersRefine(breakers: map<ProviderName, Breaker.State>, history: CallHistory) {
    history.Keys <= breakers.Keys && forall n :: n in breakers ==> breakers[n] == Breaker.After(CallsOf(history, n))
  }

  predicate QualityRefines(quality: map<QualityKey, Quality.State>, samples: SampleHistory) {
    samples.Keys <= quality.Keys && forall k :: k in quality ==> quality[k] == Quality.Run(Quality.Fresh, SamplesOf(samples, k))
  }

  /** What call i of a route adds to the books. */
  function Booked(books: Books, r: Route, i: nat): Books
    requires r.Valid() && i < |r.names|
  {
    Books(WithCall(books.history, r.names[i], SampleOf(r.answers[i])),
          WithSample(books.samples, r.keys[i], Quality.Sample(r.policy, r.answers[i].failure.None?)))
  }

  /** The books after the given calls of a route. */
  function AllBooked(books: Books, r: Route, calls: seq<nat>): Books
    requires r.Valid()
    decreases |calls|
  {
    var m := |calls| - 1;
    if m < 0 then books
    else
      var before := AllBooked(books, r, calls[..m]);
      if calls[m] < |r.names| then Booked(before, r, calls[m]) else before
  }

  /** now is what the given calls of a route make of the books. */
  predicate Logged(before: Books, now: Books, r: Route, calls: seq<nat>) {
    r.Valid() && now == AllBooked(before, r, calls)
  }

  class Registry {
    var order: seq<ProviderName>
    var preferredByModality: map<Modality, ProviderName>
    var breakers: map<ProviderName, Breaker.State>
    var contracts: ContractRegistry
    var budget: Budget
    var quality: map<QualityKey, Quality.State>
    var policy: Quality.Policy
    ghost var books: Books

    ghost predicate Valid()
      reads this
    {
      && (forall i, j :: 0 <= i < j < |order| ==> order[i] != order[j])
      && BreakersRefine(breakers, books.history) && QualityRefines(quality, books.samples)
    }

    /** A registry of the given providers, in their order. */
    constructor (names: seq<ProviderName>)
      ensures Valid() && order == Registered(names) && books == Books(map[], map[]) && quality == map[]
      ensures breakers.Keys == NamesOf(names) && forall n :: n in breakers ==> breakers[n] == Breaker.Fresh
      ensures !policy.enabled && !budget.configured && contracts.contracts == [] && preferredByModality == map[]
    {
      order, preferredByModality, breakers := [], map[], map[];
      contracts := ContractRegistry([], false, false);
      budget := Budget(false, 0, 0);
      quality, policy := map[], Quality.NoPolicy;
      books := Books(map[], map[]);
      new;
      AddAll(names);
    }

    method AddAll(names: seq<ProviderName>)
      requires Valid() && order == [] && breakers == map[]
      modifies this`order, this`breakers
      ensures Valid() && order == Registered(names)
      ensures breakers.Keys == NamesOf(names) && forall n :: n in breakers ==> breakers[n] == Breaker.Fresh
    {
      for i := 0 to |names|
        invariant Valid() && order == Registered(names[..i]) && breakers.Keys == NamesOf(names[..i])
        invariant forall n :: n in breakers ==> breakers[n] == Breaker.Fresh
      {
        RegisteredMore(names, i);
        Add(names[i]);
      }
      assert names[..|names|] == names;
    }

    method Add(name: ProviderName)
      requires Valid()
      modifies this`order, this`breakers
      ensures Valid() && name in order && order == (if name in old(order) then old(order) else old(order) + [name])
      ensures breakers == if name in old(breakers) then old(breakers) else old(breakers)[name := Breaker.Fresh]
    {
      if name !in order {
        order := order + [name];
      }
      if name !in breakers {
        breakers := breakers[name := Breaker.Fresh];
      }
    }

    method ConfigureMediaProviderBudget(maxProviderAttempts: int, maxFallbackAttempts: int)
      modifies this`budget
      ensures budget == Budget(true, if maxProviderAttempts < 0 then 0 else maxProviderAttempts,
                               if maxFallbackAttempts < 0 then 0 else maxFallbackAttempts)
    {
      var attempts, fallbacks := maxProviderAttempts, maxFallbackAttempts;
      if attempts < 0 {
        attempts := 0;
      }
      if fallbacks < 0 {
        fallbacks := 0;
      }
      budget := Budget(true, attempts, fallbacks);
    }

    method ConfigureProviderQualityGuard(enabled: bool, degraded: int, disabled: int, recovery: int)
      modifies this`policy
      ensures policy == Quality.Configured(enabled, degraded, disabled, recovery)
      ensures enabled ==> Quality.Settled(policy, Quality.Fresh)
    {
      policy := Quality.Configured(enabled, degraded, disabled, recovery);
    }

    method PreferProvider(modality: Modality, name: ProviderName)
      modifies this`preferredByModality
      ensures preferredByModality == if name == "" then old(preferredByModality) else old(preferredByModality)[modality := name]
    {
      if name == "" {
        return;
      }
      preferredByModality := preferredByModality[modality := name];
    }

    /** Record a call: started is missing when there is no latency to measure. */
    method Record(name: ProviderName, started: Option<int>, ended: int, failure: Option<ErrorClass>, at: int)
      requires Valid()
      modifies this`breakers, this`books
      ensures Valid()
      ensures books == old(books).(history := WithCall(old(books).history, name, Timed(started, ended, failure, at)))
    {
      var state := if name in breakers then breakers[name] else Breaker.Fresh;
      state := Observe(state, started, ended, failure, at);
      CallStored(breakers, books.history, name, Timed(started, ended, failure, at));
      breakers := breakers[name := state];
      books := books.(history := WithCall(books.history, name, Timed(started, ended, failure, at)));
    }

    method UpdateProviderQuality(provider: ProviderName, modelClass: string, modality: Option<Modality>, success: bool)
      requires Valid()
      modifies this`quality, this`books
      ensures Valid()
      ensures books == old(books).(samples :=
        WithSample(old(books).samples, KeyFor(provider, modelClass, modality), Quality.Sample(policy, success)))
    {
      var key := KeyFor(provider, modelClass, modality);
      var state := if key in quality then quality[key] else Quality.Fresh;
      state := Judge(state, policy, success);
      SampleStored(quality, books.samples, key, Quality.Sample(policy, success));
      quality := quality[key := state];
      books := books.(samples := WithSample(books.samples, key, Quality.Sample(policy, success)));
    }

    /** The provider that a request prefers: its pin, or the modality's. */
    function Preferred(req: Request): Option<ProviderName>
      reads this
    {
      if req.provider.Some? then req.provider
      else if req.modality.Some? && req.modality.value in preferredByModality
      then Some(preferredByModality[req.modality.value])
      else None
    }

    function ViewOf(req: Request, offers: map<ProviderName, Candidates.Offer>, now: int): View
      reads this
    {
      var governing := contracts;
      View(order, breakers, quality, name => RequestClass(governing, name, req), Preferred(req), offers, now)
    }

    /** The candidates of a request, best first; none means that the request fails. */
    method SelectCandidates(req: Request, offers: map<ProviderName, Candidates.Offer>, now: int)
      returns (chosen: seq<Candidates.Candidate>)
      ensures chosen == Candidates.Choose(policy.enabled, CapableUpTo(ViewOf(req, offers, now), req, |order|))
      ensures Candidates.Ranked(chosen)
    {
      var v := ViewOf(req, offers, now);
      ghost var guarded := policy.enabled;
      var healthy, degraded, disabled, open := [], [], [], [];
      for idx := 0 to |order|
        invariant healthy == Candidates.InTier(guarded, CapableUpTo(v, req, idx), Candidates.HealthyTier)
        invariant degraded == Candidates.InTier(guarded, CapableUpTo(v, req, idx), Candidates.DegradedTier)
        invariant disabled == Candidates.InTier(guarded, CapableUpTo(v, req, idx), Candidates.DisabledTier)
        invariant open == Candidates.InTier(guarded, CapableUpTo(v, req, idx), Candidates.OpenTier)
      {
        var c := Inspect(v, req, idx);
        Files(guarded, v, req, idx);
        if c.None? {
          continue;
        }
        if policy.enabled && c.value.quality == Quality.Disabled {
          disabled := disabled + [c.value];
        } else if c.value.open {
          open := open + [c.value];
        } else if policy.enabled && c.value.quality == Quality.Degraded {
          degraded := degraded + [c.value];
        } else {
          healthy := healthy + [c.value];
        }
      }
      SelectionIsComplete(v, req, guarded);
      Candidates.SortedIsRanked(Candidates.Choose(guarded, CapableUpTo(v, req, |order|)));
      if |healthy| > 0 {
        return Candidates.Sort(healthy);
      }
      if |degraded| > 0 {
        return Candidates.Sort(degraded);
      }
      if |open| > 0 {
        return Candidates.Sort(open);
      }
      return Candidates.Sort(disabled);
    }

    /** Record what a call did to the provider's breaker and quality. */
    method RecordCall(name: ProviderName, modelClass: string, modality: Option<Modality>, answer: Answer)
      requires Valid()
      modifies this`breakers, this`quality, this`books
      ensures Valid()
      ensures books == Books(
        WithCall(old(books).history, name, SampleOf(answer)),
        WithSample(old(books).samples, KeyFor(name, modelClass, modality), Quality.Sample(policy, answer.failure.None?)))
    {
      Record(name, Some(answer.started), answer.ended, answer.failure, answer.at);
      UpdateProviderQuality(name, modelClass, modality, answer.failure.None?);
    }

    /** One turn of the loop of a routed submit. */
    method TryCandidate(cands: seq<Candidates.Candidate>, answers: seq<Answer>, req: Request, idx: nat,
                        submittedAttempts: nat, fallbackAttempts: nat, ghost r: Route) returns (turn: Turn)
      requires Valid() && |answers| == |cands| && idx < |cands|
      requires Describes(r, contracts, budget, policy, cands, answers, req) && submittedAttempts == fallbackAttempts
      modifies this`breakers, this`quality, this`books
      ensures Valid() && turn == TurnAt(r, idx, submittedAttempts)
      ensures books == if turn.Skip? then old(books) else Booked(old(books), r, idx)
    {
      assert IsAt(r, contracts, cands, answers, req, idx);
      var verdict := ValidateProviderSubmit(contracts, cands[idx].name, req, cands[idx].cost);
      if !verdict.ok {
        return Skip;
      }
      RecordCall(cands[idx].name, CallClass(contracts, cands[idx].name, req, answers[idx].model), req.modality, answers[idx]);
      if answers[idx].failure.None? {
        return Win;
      }
      var class_ := answers[idx].failure.value;
      var budgeted := IsBudgeted(req) && budget.configured;
      var stop := Stop(verdict.contract, class_, submittedAttempts + 1, fallbackAttempts, idx + 1 < |cands|, budgeted, budget);
      if stop {
        return GiveUp(class_);
      }
      return GoOn(class_);
    }

    /** The loop of a routed submit. */
    method TryInTurn(cands: seq<Candidates.Candidate>, answers: seq<Answer>, req: Request, ghost r: Route)
      returns (out: Outcome, ghost calls: seq<nat>)
      requires Valid() && |answers| == |cands| && r.Valid() && |r.names| == |cands|
      requires Describes(r, contracts, budget, policy, cands, answers, req)
      modifies this`breakers, this`quality, this`books
      ensures Valid() && Finished(r, old(books), books, calls, out)
    {
      var last: Option<ErrorClass> := None;
      var submittedAttempts, fallbackAttempts := 0, 0;
      calls := [];
      for idx := 0 to |cands|
        invariant Valid() && PlayTo(r, old(books), idx) == Playing(calls, books, last)
        invariant submittedAttempts == |calls| && (idx < |cands| ==> fallbackAttempts == |calls|)
      {
        PlayMeans(r, old(books), idx + 1);
        var turn := TryCandidate(cands, answers, req, idx, submittedAttempts, fallbackAttempts, r);
        if turn.Skip? {
          last := Some(UnsupportedCapability);
          continue;
        }
        calls := calls + [idx];
        if turn.Win? {
          return Accepted(idx), calls;
        }
        last := Some(turn.class_);
        if turn.GiveUp? {
          return Refused(turn.class_), calls;
        }
        submittedAttempts := submittedAttempts + 1;
        if idx + 1 < |cands| {
          fallbackAttempts := fallbackAttempts + 1;
        }
      }
      PlayMeans(r, old(books), |cands|);
      NothingLeft(r, old(books), books, calls, last);
      if last.None? {
        last := Some(InternalError);
      }
      return Refused(last.value), calls;
    }

    /** Try the candidates in order until one accepts, an error forbids the next, or
        a budget is used up. */
    method Submit(cands: seq<Candidates.Candidate>, answers: seq<Answer>, req: Request)
      returns (out: Outcome, ghost calls: seq<nat>)
      requires Valid() && |answers| == |cands|
      modifies this`breakers, this`quality, this`books
      ensures Valid() && Finished(RouteOf(contracts, budget, policy, cands, answers, req), old(books), books, calls, out)
    {
      ghost var r := RouteOf(contracts, budget, policy, cands, answers, req);
      out, calls := TryInTurn(cands, answers, req, r);
    }
  }

  function Timed(started: Option<int>, ended: int, failure: Option<ErrorClass>, at: int): Breaker.Sample {
    Breaker.Sample(if started.Some? then ended - started.value else 0, failure, at)
  }

  method Observe(before: Breaker.State, started: Option<int>, ended: int, failure: Option<ErrorClass>, at: int)
    returns (state: Breaker.State)
    ensures state == Breaker.Step(before, Timed(started, ended, failure, at))
  {
    state := before;
    if started.Some? {
      var elapsed := ended - started.value;
      if elapsed > 0 {
        if state.latency == 0 {
          state := state.(latency := elapsed);
        } else {
          state := state.(latency := (state.latency + elapsed) / 2);
        }
      }
    }
    if failure.None? {
      state := state.(failures := 0, openedUntil := None);
    } else if IsRetryable(failure.value) {
      state := state.(failures := state.failures + 1);
      if state.failures >= 2 {
        state := state.(openedUntil := Some(at + state.failures * Breaker.COOLDOWN));
      }
    }
  }

  method Judge(before: Quality.State, policy: Quality.Policy, success: bool) returns (state: Quality.State)
    ensures state == Quality.Step(policy, before, success)
  {
    state := before;
    if success {
      state := state.(failures := 0, successes := state.successes + 1);
      if state.status != Quality.Healthy && (!policy.enabled || state.successes >= policy.recoverySuccesses) {
        state := state.(status := Quality.Healthy);
      }
    } else {
      state := state.(successes := 0, failures := state.failures + 1);
      if policy.enabled {
        if state.failures >= policy.disabledFailures {
          state := state.(status := Quality.Disabled);
        } else if state.failures >= policy.degradedFailures {
          state := state.(status := Quality.Degraded);
        }
      } else if state.failures >= 1 {
        state := state.(status := Quality.Degraded);
      }
    }
  }

  lemma CallStored(breakers: map<ProviderName, Breaker.State>, history: CallHistory, name: ProviderName, s: Breaker.Sample)
    requires BreakersRefine(breakers, history)
    ensures var before := if name in breakers then breakers[name] else Breaker.Fresh;
      BreakersRefine(breakers[name := Breaker.Step(before, s)], WithCall(history, name, s))
  {
    Extended(CallsOf(history, name), s);
    var after := WithCall(history, name, s);
    assert forall n :: n != name ==> CallsOf(after, n) == CallsOf(history, n);
  }

  lemma SampleStored(quality: map<QualityKey, Quality.State>, samples: SampleHistory, key: QualityKey, s: Quality.Sample)
    requires QualityRefines(quality, samples)
    ensures var before := if key in quality then quality[key] else Quality.Fresh;
      QualityRefines(quality[key := Quality.Step(s.policy, before, s.success)], WithSample(samples, key, s))
  {
    Sampled(SamplesOf(samples, key), s);
    var after := WithSample(samples, key, s);
    assert forall k :: k != key ==> SamplesOf(after, k) == SamplesOf(samples, k);
  }

  /** What the selection sees of a provider is what was ever recorded about it. */
  lemma CandidateReflectsHistory(v: View, books: Books, req: Request, idx: nat)
    requires BreakersRefine(v.breakers, books.history) && QualityRefines(v.quality, books.samples)
    requires idx < |v.order| && v.order[idx] in v.offers
    ensures var c := CandidateAt(v, req, idx);
      var h := CallsOf(books.history, v.order[idx]);
      var f := Breaker.Streak(h, |h|);
      && c.name == v.order[idx] && c.order == idx && (c.preferred <==> v.preferred == Some(c.name))
      && c.cost == (match v.offers[v.order[idx]].estimate case Cost(credits) => credits case _ => idx + 1)
      && c.modelClass == v.classOf(v.order[idx])
      && (c.open <==>
            f >= 2 && Breaker.LastRetryable(h, |h|) >= 0 && v.now < h[Breaker.LastRetryable(h, |h|)].at + f * 30_000_000_000)
      && (if Breaker.HasSample(h) then Breaker.BetweenSamples(h, c.latency) else c.latency == 0)
      && c.quality == Quality.Run(Quality.Fresh, SamplesOf(books.samples, QualityKey(c.name, c.modelClass, req.modality))).status
  {
    var h := CallsOf(books.history, v.order[idx]);
    SeenBreaker(v.breakers, books.history, v.order[idx]);
    Breaker.BreakerRefinesHistory(h, v.now);
    Breaker.LatencyIsAnAverage(h);
    SeenQuality(v.quality, books.samples, QualityKey(v.order[idx], v.classOf(v.order[idx]), req.modality));
  }

  lemma SeenBreaker(breakers: map<ProviderName, Breaker.State>, history: CallHistory, name: ProviderName)
    requires BreakersRefine(breakers, history)
    ensures (if name in breakers then breakers[name] else Breaker.Fresh) == Breaker.After(CallsOf(history, name))
  {
  }

  lemma SeenQuality(quality: map<QualityKey, Quality.State>, samples: SampleHistory, key: QualityKey)
    requires QualityRefines(quality, samples)
    ensures (if key in quality then quality[key].status else Quality.Healthy)
         == Quality.Run(Quality.Fresh, SamplesOf(samples, key)).status
  {
  }

  method Inspect(v: View, req: Request, idx: nat) returns (c: Option<Candidates.Candidate>)
    requires idx < |v.order|
    ensures c == if IsCandidate(v, req, idx) then Some(CandidateAt(v, req, idx)) else None
  {
    var name := v.order[idx];
    if name !in v.offers {
      return None;
    }
    var offer := v.offers[name];
    if req.provider.Some? && name != req.provider.value {
      return None;
    }
    var ok := Candidates.Supports(offer, req);
    if !ok || offer.estimate.Unsupported? {
      return None;
    }
    return Some(CandidateAt(v, req, idx));
  }

  lemma Files(guarded: bool, v: View, req: Request, idx: nat)
    requires idx < |v.order|
    ensures forall t ::
      Candidates.InTier(guarded, CapableUpTo(v, req, idx + 1), t)
      == Candidates.InTier(guarded, CapableUpTo(v, req, idx), t)
         + (if IsCandidate(v, req, idx) && Candidates.TierOf(guarded, CandidateAt(v, req, idx)) == t
            then [CandidateAt(v, req, idx)] else [])
  {
    var before := CapableUpTo(v, req, idx);
    var after := CapableUpTo(v, req, idx + 1);
    if IsCandidate(v, req, idx) {
      assert after[..|before|] == before;
    } else {
      assert after == before;
    }
  }

  /** Position i of a route is about candidate i. */
  predicate IsAt(r: Route, contracts: ContractRegistry, cands: seq<Candidates.Candidate>, answers: seq<Answer>, req: Request, i: nat) {
    && r.Valid() && i < |r.names| == |cands| == |answers|
    && r.names[i] == cands[i].name
    && r.keys[i] == KeyFor(cands[i].name, CallClass(contracts, cands[i].name, req, answers[i].model), req.modality)
    && r.verdicts[i] == ValidateProviderSubmit(contracts, cands[i].name, req, cands[i].cost)
  }

  ghost predicate Describes(r: Route, contracts: ContractRegistry, budget: Budget, policy: Quality.Policy,
                            cands: seq<Candidates.Candidate>, answers: seq<Answer>, req: Request) {
    && r.Valid() && |r.names| == |cands|
    && r.answers == answers && r.req == req && r.budget == budget && r.policy == policy
    && (forall i :: 0 <= i < |cands| ==> IsAt(r, contracts, cands, answers, req, i))
  }

  ghost function RouteOf(contracts: ContractRegistry, budget: Budget, policy: Quality.Policy, cands: seq<Candidates.Candidate>,
                         answers: seq<Answer>, req: Request): (r: Route)
    requires |answers| == |cands|
    ensures Describes(r, contracts, budget, policy, cands, answers, req) && r.Contracted()
  {
    var n := |cands|;
    Route(seq(n, i requires 0 <= i < n => cands[i].name),
          seq(n, i requires 0 <= i < n =>
            KeyFor(cands[i].name, CallClass(contracts, cands[i].name, req, answers[i].model), req.modality)),
          answers,
          seq(n, i requires 0 <= i < n => ValidateProviderSubmit(contracts, cands[i].name, req, cands[i].cost)),
          req, budget, policy)
  }

  /** After a failed call: whether the loop ends here. */
  method Stop(contract: Option<Contract>, failure: ErrorClass, submittedAttempts: nat, fallbackAttempts: nat,
              hasNext: bool, budgeted: bool, budget: Budget) returns (stop: bool)
    ensures stop <==>
      || !IsFallbackError(failure)
      || (budgeted && budget.maxProviderAttempts > 0 && submittedAttempts >= budget.maxProviderAttempts)
      || (contract.Some? && contract.value.maxProviderAttempts > 0 && submittedAttempts >= contract.value.maxProviderAttempts)
      || (hasNext && budgeted && fallbackAttempts >= budget.maxFallbackAttempts)
      || (hasNext && contract.Some? && fallbackAttempts >= contract.value.maxFallbackAttempts)
  {
    if !IsFallbackError(failure) {
      return true;
    }
    if budgeted && budget.maxProviderAttempts > 0 && submittedAttempts >= budget.maxProviderAttempts {
      return true;
    }
    if contract.Some? && contract.value.maxProviderAttempts > 0 && submittedAttempts >= contract.value.maxProviderAttempts {
      return true;
    }
    if hasNext && budgeted && fallbackAttempts >= budget.maxFallbackAttempts {
      return true;
    }
    return hasNext && contract.Some? && fallbackAttempts >= contract.value.maxFallbackAttempts;
  }

  /** The loop of a routed submit before candidate n. */
  predicate Underway(r: Route, before: Books, now: Books, calls: seq<nat>, n: nat, last: Option<ErrorClass>) {
    && r.Valid() && n <= |r.names| && Tried(r, calls, n) && Logged(before, now, r, calls)
    && last == if n == 0 then None else Some(LastError(r, n))
  }

  /** A routed submit as a whole: its calls, its outcome, and what it recorded. */
  predicate Finished(r: Route, before: Books, now: Books, calls: seq<nat>, out: Outcome) {
    r.Valid() && Routed(r, calls, out) && Logged(before, now, r, calls)
  }

  lemma Skipped(r: Route, before: Books, now: Books, calls: seq<nat>, n: nat, last: Option<ErrorClass>)
    requires Underway(r, before, now, calls, n, last) && n < |r.names| && TurnAt(r, n, |calls|).Skip?
    ensures Underway(r, before, now, calls, n + 1, Some(UnsupportedCapability))
  {
    TurnLeads(r, calls, n);
  }

  lemma Ended(r: Route, before: Books, now: Books, calls: seq<nat>, n: nat, last: Option<ErrorClass>, out: Outcome)
    requires Underway(r, before, now, calls, n, last) && n < |r.names|
    requires match TurnAt(r, n, |calls|) {
      case Win => out == Accepted(n)
      case GiveUp(class_) => out == Refused(class_)
      case _ => false
    }
    ensures Finished(r, before, Booked(now, r, n), calls + [n], out)
  {
    TurnLeads(r, calls, n);
    LoggedMore(before, now, r, calls, n);
  }

  lemma WentOn(r: Route, before: Books, now: Books, calls: seq<nat>, n: nat, last: Option<ErrorClass>)
    requires Underway(r, before, now, calls, n, last) && n < |r.names| && TurnAt(r, n, |calls|).GoOn?
    ensures Underway(r, before, Booked(now, r, n), calls + [n], n + 1, Some(TurnAt(r, n, |calls|).class_))
  {
    TurnLeads(r, calls, n);
    LoggedMore(before, now, r, calls, n);
  }

  /** The state of the loop before candidate n, and the end of the submit. */
  datatype Play =
    | Playing(calls: seq<nat>, books: Books, last: Option<ErrorClass>)
    | Over(calls: seq<nat>, books: Books, out: Outcome)

  function PlayTo(r: Route, before: Books, n: nat): Play
    requires r.Valid() && n <= |r.names|
  {
    if n == 0 then Playing([], before, None)
    else
      var p := PlayTo(r, before, n - 1);
      if p.Over? then p else NextPlay(r, p.calls, p.books, n - 1)
  }

  function NextPlay(r: Route, calls: seq<nat>, books: Books, i: nat): Play
    requires r.Valid() && i < |r.names|
  {
    match TurnAt(r, i, |calls|)
    case Skip => Playing(calls, books, Some(UnsupportedCapability))
    case Win => Over(calls + [i], Booked(books, r, i), Accepted(i))
    case GiveUp(class_) => Over(calls + [i], Booked(books, r, i), Refused(class_))
    case GoOn(class_) => Playing(calls + [i], Booked(books, r, i), Some(class_))
  }

  predicate PlayIs(r: Route, before: Books, n: nat, p: Play) {
    match p
    case Playing(calls, books, last) => Underway(r, before, books, calls, n, last)
    case Over(calls, books, out) => Finished(r, before, books, calls, out)
  }

  lemma NextPlayIs(r: Route, before: Books, now: Books, calls: seq<nat>, n: nat, last: Option<ErrorClass>)
    requires Underway(r, before, now, calls, n, last) && n < |r.names|
    ensures PlayIs(r, before, n + 1, NextPlay(r, calls, now, n))
  {
    match TurnAt(r, n, |calls|) {
      case Skip => Skipped(r, before, now, calls, n, last);
      case Win => Ended(r, before, now, calls, n, last, Accepted(n));
      case GiveUp(class_) => Ended(r, before, now, calls, n, last, Refused(class_));
      case GoOn(class_) => WentOn(r, before, now, calls, n, last);
    }
  }

  lemma {:induction false} PlayMeans(r: Route, before: Books, n: nat)
    requires r.Valid() && n <= |r.names|
    ensures PlayIs(r, before, n, PlayTo(r, before, n))
  {
    if n > 0 {
      PlayMeans(r, before, n - 1);
      var p := PlayTo(r, before, n - 1);
      if p.Playing? {
        NextPlayIs(r, before, p.books, p.calls, n - 1, p.last);
      }
    }
  }

  lemma NothingLeft(r: Route, before: Books, now: Books, calls: seq<nat>, last: Option<ErrorClass>)
    requires r.Valid() && Underway(r, before, now, calls, |r.names|, last)
    ensures Finished(r, before, now, calls, Refused(if last.None? then InternalError else last.value))
  {
  }

  lemma LoggedMore(before: Books, now: Books, r: Route, calls: seq<nat>, i: nat)
    requires Logged(before, now, r, calls) && i < |r.names|
    ensures Logged(before, Booked(now, r, i), r, calls + [i])
  {
    assert (calls + [i])[..|calls|] == calls;
  }

  lemma Extended(h: seq<Breaker.Sample>, s: Breaker.Sample)
    ensures Breaker.After(h + [s]) == Breaker.Step(Breaker.After(h), s)
  {
    assert (h + [s])[..|h|] == h;
  }

  lemma Sampled(h: seq<Quality.Sample>, s: Quality.Sample)
    ensures Quality.Run(Quality.Fresh, h + [s]) == Quality.Step(s.policy, Quality.Run(Quality.Fresh, h), s.success)
  {
    assert (h + [s])[..|h|] == h;
  }
}
