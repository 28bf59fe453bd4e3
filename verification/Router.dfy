/**
  Routing as functions: under which class a call is recorded, which candidates a
  request has, and which calls one routed submit makes.
 */
module Router {
  import opened Domain
  import opened MediaContracts
  import Breaker
  import Labels
  import Candidates
  import Quality

  datatype QualityKey = QualityKey(provider: ProviderName, modelClass: string, modality: Option<Modality>)

  datatype Budget = Budget(configured: bool, maxProviderAttempts: nat, maxFallbackAttempts: nat)

  /** What one provider call does: fail or not, name a model, and take time. */
  datatype Answer = Answer(failure: Option<ErrorClass>, model: string, started: int, ended: int, at: int)

  /** The model class of a contract with one, or the empty string. */
  function ModelClass(r: ContractRegistry, provider: ProviderName, model: string, modality: Option<Modality>): string {
    var found := Governing(r.contracts, provider, model, modality);
    if found.Some? && !Blank(found.value.modelClass) then found.value.modelClass else ""
  }

  function RequestClass(r: ContractRegistry, provider: ProviderName, req: Request): string {
    var class_ := ModelClass(r, provider, req.modelCode, req.modality);
    if class_ != "" then Labels.ProviderMetricModel(class_) else Labels.DEFAULT
  }

  /** The class under which a finished call is recorded: the model that the provider
      names counts where the request's has no class. */
  function CallClass(r: ContractRegistry, provider: ProviderName, req: Request, model: string): string {
    var class_ := ModelClass(r, provider, req.modelCode, req.modality);
    if class_ != "" then Labels.ProviderMetricModel(class_)
    else
      var named := ModelClass(r, provider, model, req.modality);
      if named != "" then Labels.ProviderMetricModel(named) else Labels.DEFAULT
  }

  /** The record of a sample; the class is labelled once more on the way in. */
  function KeyFor(provider: ProviderName, modelClass: string, modality: Option<Modality>): QualityKey {
    QualityKey(provider, Labels.ProviderMetricModel(if modelClass == "" then Labels.DEFAULT else modelClass), modality)
  }

  /** Selection looks a class up under the very key that calls of that class are
      recorded under. */
  lemma RecordedWhereLookedUp(r: ContractRegistry, provider: ProviderName, req: Request, model: string)
    ensures KeyFor(provider, RequestClass(r, provider, req), req.modality)
         == QualityKey(provider, RequestClass(r, provider, req), req.modality)
    ensures KeyFor(provider, CallClass(r, provider, req, model), req.modality)
         == QualityKey(provider, CallClass(r, provider, req, model), req.modality)
    ensures ModelClass(r, provider, req.modelCode, req.modality) != "" ==>
      CallClass(r, provider, req, model) == RequestClass(r, provider, req)
    ensures ModelClass(r, provider, req.modelCode, req.modality) == "" && ModelClass(r, provider, model, req.modality) != "" ==>
      CallClass(r, provider, req, model) == Labels.ProviderMetricModel(ModelClass(r, provider, model, req.modality))
    ensures ModelClass(r, provider, req.modelCode, req.modality) == "" ==> RequestClass(r, provider, req) == "default"
  {
    DefaultIsStable();
    Labels.LabellingIsIdempotent(ModelClass(r, provider, req.modelCode, req.modality));
    Labels.LabellingIsIdempotent(ModelClass(r, provider, model, req.modality));
  }

  lemma DefaultIsStable()
    ensures Labels.ProviderMetricModel(Labels.DEFAULT) == Labels.DEFAULT
  {
    Labels.LabelIsStable(Labels.DEFAULT);
  }

  predicate IsFallbackError(class_: ErrorClass) {
    IsRetryable(class_) || class_ == UnsupportedCapability
  }

  predicate IsBudgeted(req: Request) {
    req.operation == VideoGenerate || req.modality == Some(VideoModality)
  }

  // -------------------------------------------------- the candidates of a request

  /** What the registry knows when it selects; classOf gives a provider's RequestClass. */
  datatype View = View(
    order: seq<ProviderName>, breakers: map<ProviderName, Breaker.State>, quality: map<QualityKey, Quality.State>,
    classOf: ProviderName -> string, preferred: Option<ProviderName>, offers: map<ProviderName, Candidates.Offer>, now: int)

  predicate IsCandidate(v: View, req: Request, idx: nat)
    requires idx < |v.order|
  {
    v.order[idx] in v.offers && Candidates.Capable(v.order[idx], v.offers[v.order[idx]], req)
  }

  function CandidateAt(v: View, req: Request, idx: nat): Candidates.Candidate
    requires idx < |v.order| && v.order[idx] in v.offers
  {
    var name := v.order[idx];
    var estimate := v.offers[name].estimate;
    var modelClass := v.classOf(name);
    var key := QualityKey(name, modelClass, req.modality);
    var b := if name in v.breakers then v.breakers[name] else Breaker.Fresh;
    Candidates.Candidate(
      name, modelClass,
      if estimate.Cost? then estimate.credits else idx + 1,
      b.latency, Breaker.IsOpen(b, v.now),
      if key in v.quality then v.quality[key].status else Quality.Healthy,
      v.preferred == Some(name), idx)
  }

  /** The capable providers among the first n, in registration order. */
  function CapableUpTo(v: View, req: Request, n: nat): seq<Candidates.Candidate>
    requires n <= |v.order|
  {
    if n == 0 then []
    else CapableUpTo(v, req, n - 1) + (if IsCandidate(v, req, n - 1) then [CandidateAt(v, req, n - 1)] else [])
  }

  lemma AppendAscends(cs: seq<Candidates.Candidate>, c: Candidates.Candidate)
    requires Candidates.Ascending(cs) && forall i :: 0 <= i < |cs| ==> cs[i].order < c.order
    ensures Candidates.Ascending(cs + [c])
  {
  }

  lemma {:induction false} CapableAscend(v: View, req: Request, n: nat)
    requires n <= |v.order|
    ensures var cs := CapableUpTo(v, req, n);
      Candidates.Ascending(cs) && forall i :: 0 <= i < |cs| ==> cs[i].order < n
  {
    if n > 0 {
      CapableAscend(v, req, n - 1);
      if IsCandidate(v, req, n - 1) {
        AppendAscends(CapableUpTo(v, req, n - 1), CandidateAt(v, req, n - 1));
      }
    }
  }

  lemma {:induction false} CandidateIsIn(v: View, req: Request, n: nat, idx: nat)
    requires idx < n <= |v.order| && IsCandidate(v, req, idx)
    ensures CapableUpTo(v, req, n) != []
  {
    if idx < n - 1 {
      CandidateIsIn(v, req, n - 1, idx);
    }
  }

  lemma {:induction false} SomeCandidate(v: View, req: Request, n: nat) returns (idx: nat)
    requires n <= |v.order| && CapableUpTo(v, req, n) != []
    ensures idx < n && IsCandidate(v, req, idx)
  {
    if IsCandidate(v, req, n - 1) {
      idx := n - 1;
    } else {
      idx := SomeCandidate(v, req, n - 1);
    }
  }

  lemma CapableIff(v: View, req: Request)
    ensures CapableUpTo(v, req, |v.order|) != [] <==> exists idx :: 0 <= idx < |v.order| && IsCandidate(v, req, idx)
  {
    var n := |v.order|;
    if CapableUpTo(v, req, n) != [] {
      var idx := SomeCandidate(v, req, n);
    }
    forall idx | 0 <= idx < n && IsCandidate(v, req, idx) ensures CapableUpTo(v, req, n) != [] {
      CandidateIsIn(v, req, n, idx);
    }
  }

  /** A request has candidates if and only if a registered provider that matches
      the pin is capable, and they are the sorted best tier. */
  lemma SelectionIsComplete(v: View, req: Request, guarded: bool)
    ensures var all := CapableUpTo(v, req, |v.order|);
      var chosen := Candidates.Choose(guarded, all);
      (chosen != [] <==> exists idx :: 0 <= idx < |v.order| && IsCandidate(v, req, idx))
      && Candidates.Sorted(chosen)
      && (forall c :: c in chosen <==> c in all && Candidates.TierOf(guarded, c) == Candidates.BestTier(guarded, all))
  {
    CapableIff(v, req);
    CapableAscend(v, req, |v.order|);
    Candidates.ChoiceIsTheBestTier(guarded, CapableUpTo(v, req, |v.order|));
  }

  lemma {:induction false} CapableAreAt(v: View, req: Request, n: nat)
    requires n <= |v.order|
    ensures forall c :: c in CapableUpTo(v, req, n) ==> c.order < n && c.name == v.order[c.order]
  {
    if n > 0 {
      CapableAreAt(v, req, n - 1);
    }
  }

  /** Which providers are candidates at all: registered, answering, as the pin says, with a
      capability that serves the request, and not refusing to estimate it. */
  lemma CandidatesAre(v: View, req: Request, idx: nat)
    requires idx < |v.order|
    ensures IsCandidate(v, req, idx) <==>
      && v.order[idx] in v.offers
      && (req.provider == None || req.provider == Some(v.order[idx]))
      && v.offers[v.order[idx]].capabilities.Some?
      && (exists i :: 0 <= i < |v.offers[v.order[idx]].capabilities.value|
            && Candidates.Serves(v.offers[v.order[idx]].capabilities.value[i], req))
      && v.offers[v.order[idx]].estimate != Candidates.Unsupported
  {
    if v.order[idx] in v.offers && v.offers[v.order[idx]].capabilities.Some? {
      var caps := v.offers[v.order[idx]].capabilities.value;
      assert forall i :: 0 <= i < |caps| ==> Candidates.CapabilityFits(caps[i], req) == Candidates.Serves(caps[i], req);
    }
  }

  /** No provider is chosen twice. */
  lemma ChosenNamesDiffer(v: View, req: Request, guarded: bool, i: nat, j: nat)
    requires forall a, b :: 0 <= a < b < |v.order| ==> v.order[a] != v.order[b]
    requires i < j < |Candidates.Choose(guarded, CapableUpTo(v, req, |v.order|))|
    ensures var chosen := Candidates.Choose(guarded, CapableUpTo(v, req, |v.order|));
      chosen[i].name != chosen[j].name
  {
    var all := CapableUpTo(v, req, |v.order|);
    var chosen := Candidates.Choose(guarded, all);
    SelectionIsComplete(v, req, guarded);
    CapableAreAt(v, req, |v.order|);
    CapableAscend(v, req, |v.order|);
    var c, d := chosen[i], chosen[j];
    assert c in chosen && d in chosen;
    assert Candidates.Before(c, d);
    Candidates.BeforeIsAStrictTotalOrder(c, d, c);
    if c.order == d.order {
      SameOrder(all, c, d);
    }
  }

  lemma SameOrder(all: seq<Candidates.Candidate>, c: Candidates.Candidate, d: Candidates.Candidate)
    requires Candidates.Ascending(all) && c in all && d in all && c.order == d.order
    ensures c == d
  {
    var i :| 0 <= i < |all| && all[i] == c;
    var j :| 0 <= j < |all| && all[j] == d;
  }

  // ------------------------------------------------------------ routing one submit

  /** The fixed circumstances of one routed submit: the answer that each candidate
      would give, and what the contracts say about it. */
  datatype Route = Route(
    names: seq<ProviderName>, keys: seq<QualityKey>, answers: seq<Answer>, verdicts: seq<Verdict>,
    req: Request, budget: Budget, policy: Quality.Policy)
  {
    predicate Valid() {
      |answers| == |names| && |verdicts| == |names| && |keys| == |names|
    }

    /** A contract that permits a call has passed its own validation. */
    predicate Contracted() {
      forall i :: 0 <= i < |verdicts| && verdicts[i].ok && verdicts[i].contract.Some? ==> OnceOnly(verdicts[i].contract.value)
    }

    predicate Budgeted() {
      IsBudgeted(req) && budget.configured
    }

    /** After candidate i failed as call number j (from 0), the next may be tried. */
    predicate MayGoOn(i: nat, j: nat)
      requires Valid() && i < |names|
    {
      var contract := verdicts[i].contract;
      && answers[i].failure.Some? && IsFallbackError(answers[i].failure.value)
      && (Budgeted() && budget.maxProviderAttempts > 0 ==> j + 1 < budget.maxProviderAttempts)
      && (contract.Some? && contract.value.maxProviderAttempts > 0 ==> j + 1 < contract.value.maxProviderAttempts)
      && (i + 1 < |names| ==>
            (Budgeted() ==> j < budget.maxFallbackAttempts)
            && (contract.Some? ==> j < contract.value.maxFallbackAttempts))
    }
  }

  predicate Increasing(calls: seq<nat>) {
    forall a, b :: 0 <= a < b < |calls| ==> calls[a] < calls[b]
  }

  /** The calls made when the candidates below n have been dealt with: the permitted
      ones, each of which failed so that the next might be tried. */
  predicate Tried(r: Route, calls: seq<nat>, n: nat)
    requires r.Valid() && n <= |r.names|
  {
    if n == 0 then calls == []
    else if !r.verdicts[n - 1].ok then Tried(r, calls, n - 1)
    else
      var m := |calls| - 1;
      m >= 0 && calls[m] == n - 1 && r.MayGoOn(n - 1, m) && Tried(r, calls[..m], n - 1)
  }

  /** Exactly the permitted candidates below n were called, in order, and after each
      call the next candidate might be tried. */
  predicate CalledInTurn(r: Route, calls: seq<nat>, n: nat)
    requires r.Valid() && n <= |r.names|
  {
    && Increasing(calls)
    && (forall i :: 0 <= i < n ==> (i in calls <==> r.verdicts[i].ok))
    && (forall a :: 0 <= a < |calls| ==> calls[a] < n && r.MayGoOn(calls[a], a))
  }

  lemma CalledOneMore(r: Route, calls: seq<nat>, n: nat)
    requires r.Valid() && n < |r.names| && CalledInTurn(r, calls, n) && r.verdicts[n].ok && r.MayGoOn(n, |calls|)
    ensures CalledInTurn(r, calls + [n], n + 1)
  {
    var after := calls + [n];
    assert forall i :: i in after <==> i in calls || i == n;
    assert forall a :: 0 <= a < |after| ==> after[a] == if a < |calls| then calls[a] else n;
  }

  /** Tried in terms of single calls. */
  lemma {:induction false} TriedIs(r: Route, calls: seq<nat>, n: nat)
    requires r.Valid() && n <= |r.names| && Tried(r, calls, n)
    ensures CalledInTurn(r, calls, n)
    decreases n
  {
    if n > 0 {
      var m := |calls| - 1;
      if !r.verdicts[n - 1].ok {
        TriedIs(r, calls, n - 1);
      } else {
        TriedIs(r, calls[..m], n - 1);
        CalledOneMore(r, calls[..m], n - 1);
        assert calls == calls[..m] + [n - 1];
      }
    }
  }

  /** The error that is reported when the candidates below n all failed. */
  function LastError(r: Route, n: nat): ErrorClass
    requires r.Valid() && n <= |r.names|
  {
    if n == 0 then InternalError
    else if r.verdicts[n - 1].ok && r.answers[n - 1].failure.Some? then r.answers[n - 1].failure.value
    else UnsupportedCapability
  }

  /** How a routed submit ended. */
  datatype Outcome = Accepted(winner: nat) | Refused(class_: ErrorClass)

  /** The calls of a whole submit: all of Tried up to the last call, which either
      was accepted, or failed for good; or nothing was left to try. */
  predicate Routed(r: Route, calls: seq<nat>, out: Outcome)
    requires r.Valid()
  {
    if Tried(r, calls, |r.names|) then out == Refused(LastError(r, |r.names|))
    else
      var m := |calls| - 1;
      && m >= 0 && calls[m] < |r.names|
      && Tried(r, calls[..m], calls[m])
      && r.verdicts[calls[m]].ok
      && (if r.answers[calls[m]].failure.None? then out == Accepted(calls[m])
          else !r.MayGoOn(calls[m], m) && out == Refused(r.answers[calls[m]].failure.value))
  }

  /** Calls in candidate order, each with the contracts' leave, each but the last
      failed so that the next might be tried. */
  predicate InOrder(r: Route, calls: seq<nat>)
    requires r.Valid()
  {
    && Increasing(calls)
    && (forall a :: 0 <= a < |calls| ==> calls[a] < |r.names| && r.verdicts[calls[a]].ok)
    && (forall a :: 0 <= a < |calls| - 1 ==> calls[a] < |r.names| && r.MayGoOn(calls[a], a))
  }

  lemma AllInOrder(r: Route, calls: seq<nat>, n: nat)
    requires r.Valid() && n <= |r.names| && CalledInTurn(r, calls, n)
    ensures InOrder(r, calls)
  {
    assert forall a :: 0 <= a < |calls| ==> calls[a] in calls;
  }

  lemma LastInOrder(r: Route, calls: seq<nat>, n: nat)
    requires r.Valid() && n < |r.names| && CalledInTurn(r, calls, n) && r.verdicts[n].ok
    ensures InOrder(r, calls + [n])
  {
    var after := calls + [n];
    assert forall a :: 0 <= a < |calls| ==> after[a] == calls[a] && calls[a] in calls;
    assert after[|calls|] == n;
  }

  /** Every candidate is called at most once and in order, only with the contracts'
      leave, and only after the call before it failed so that this one may be tried. */
  lemma CallsAreOrdered(r: Route, calls: seq<nat>, out: Outcome)
    requires r.Valid() && Routed(r, calls, out)
    ensures InOrder(r, calls)
  {
    if Tried(r, calls, |r.names|) {
      TriedIs(r, calls, |r.names|);
      AllInOrder(r, calls, |r.names|);
    } else {
      var m := |calls| - 1;
      TriedIs(r, calls[..m], calls[m]);
      LastInOrder(r, calls[..m], calls[m]);
      assert calls == calls[..m] + [calls[m]];
    }
  }

  /** The submit is accepted by the first permitted candidate that does not fail,
      if the ones before it may all be passed over. */
  lemma FirstSuccessWins(r: Route, calls: seq<nat>, out: Outcome, i: nat)
    requires r.Valid() && Routed(r, calls, out) && out.Accepted? && i < |r.names|
    ensures out.winner < |r.names| && r.verdicts[out.winner].ok && r.answers[out.winner].failure.None?
    ensures i < out.winner && r.verdicts[i].ok ==> r.answers[i].failure.Some?
    ensures calls != [] && calls[|calls| - 1] == out.winner
  {
    var m := |calls| - 1;
    var p := calls[..m];
    TriedIs(r, p, calls[m]);
    if i < out.winner && r.verdicts[i].ok {
      assert i in p;
      var a :| 0 <= a < |p| && p[a] == i;
      assert r.MayGoOn(p[a], a);
    }
  }

  /** The budgets cap the calls, and a call under a contract without provider
      idempotency is the last one. */
  lemma CallsStayInBudget(r: Route, calls: seq<nat>, out: Outcome)
    requires r.Valid() && r.Contracted() && Routed(r, calls, out)
    ensures UnderBudget(r) ==> |calls| <= r.budget.maxFallbackAttempts + 1
    ensures UnderBudget(r) && r.budget.maxProviderAttempts > 0 ==> |calls| <= r.budget.maxProviderAttempts
    ensures forall a :: 0 <= a < |calls| - 1 ==> calls[a] < |r.names| && Repeatable(r.verdicts[calls[a]])
  {
    CallsAreOrdered(r, calls, out);
    var m := |calls| - 1;
    if m >= 1 {
      assert r.MayGoOn(calls[m - 1], m - 1);
    }
    forall a | 0 <= a < m ensures calls[a] < |r.names| && Repeatable(r.verdicts[calls[a]]) {
      assert r.MayGoOn(calls[a], a);
    }
  }

  /** No contract forbids calling another provider after this one failed. */
  predicate Repeatable(v: Verdict) {
    v.contract.Some? ==> v.contract.value.supportsProviderIdempotency
  }

  /** The failures after which another provider may be asked. */
  predicate PassesOn(class_: ErrorClass) {
    class_ in {RateLimited, Timeout, Overloaded, InternalError, OutputDownloadFailed, UnsupportedCapability}
  }

  /** Every call but the last failed in a way that another provider may not. */
  lemma EarlierCallsPassOn(r: Route, calls: seq<nat>, out: Outcome)
    requires r.Valid() && Routed(r, calls, out)
    ensures forall a :: 0 <= a < |calls| - 1 ==>
      calls[a] < |r.names| && r.answers[calls[a]].failure.Some?
      && r.answers[calls[a]].failure.value in {RateLimited, Timeout, Overloaded, InternalError, OutputDownloadFailed, UnsupportedCapability}
  {
    CallsAreOrdered(r, calls, out);
    forall a | 0 <= a < |calls| - 1 ensures calls[a] < |r.names| && r.answers[calls[a]].failure.Some?
      && PassesOn(r.answers[calls[a]].failure.value)
    {
      assert r.MayGoOn(calls[a], a);
    }
  }

  /** A video request, under a configured budget. */
  predicate UnderBudget(r: Route) {
    (r.req.operation == VideoGenerate || r.req.modality == Some(VideoModality)) && r.budget.configured
  }

  /** Some budget is used up by the given number of calls, under the last call's contract. */
  predicate BudgetUsedUp(r: Route, n: nat, contract: Option<Contract>) {
    || (UnderBudget(r) && 0 < r.budget.maxProviderAttempts <= n)
    || (contract.Some? && 0 < contract.value.maxProviderAttempts <= n)
    || (UnderBudget(r) && n > r.budget.maxFallbackAttempts)
    || (contract.Some? && n > contract.value.maxFallbackAttempts)
  }

  /** A submit that is refused although a permitted candidate was left was refused for
      good, or because a budget was used up. */
  lemma WhyItStopped(r: Route, calls: seq<nat>, out: Outcome, left: nat)
    requires r.Valid() && Routed(r, calls, out) && out.Refused?
    requires left < |r.names| && r.verdicts[left].ok && left !in calls
    ensures calls != [] && calls[|calls| - 1] < |r.names| && r.answers[calls[|calls| - 1]].failure == Some(out.class_)
    ensures PassesOn(out.class_) ==> BudgetUsedUp(r, |calls|, r.verdicts[calls[|calls| - 1]].contract)
  {
    if Tried(r, calls, |r.names|) {
      TriedIs(r, calls, |r.names|);
      assert false;
    }
    var m := |calls| - 1;
    assert !r.MayGoOn(calls[m], m);
  }

  // -------------------------------------------------------- building up a routing

  lemma TriedSkip(r: Route, calls: seq<nat>, n: nat)
    requires r.Valid() && n < |r.names| && Tried(r, calls, n) && !r.verdicts[n].ok
    ensures Tried(r, calls, n + 1)
  {
  }

  lemma TriedCall(r: Route, calls: seq<nat>, n: nat)
    requires r.Valid() && n < |r.names| && Tried(r, calls, n) && r.verdicts[n].ok && r.MayGoOn(n, |calls|)
    ensures Tried(r, calls + [n], n + 1)
  {
    assert (calls + [n])[..|calls|] == calls;
  }

  lemma StopsAt(r: Route, calls: seq<nat>, n: nat, out: Outcome)
    requires r.Valid() && n < |r.names| && Tried(r, calls, n) && r.verdicts[n].ok
    requires if r.answers[n].failure.None? then out == Accepted(n)
             else !r.MayGoOn(n, |calls|) && out == Refused(r.answers[n].failure.value)
    ensures Routed(r, calls + [n], out)
  {
    var after := calls + [n];
    assert after[..|calls|] == calls && after[|calls|] == n;
    if Tried(r, after, |r.names|) {
      TriedIs(r, after, |r.names|);
    }
  }

  /** One turn of the loop of a routed submit. */
  datatype Turn = Skip | Win | GiveUp(class_: ErrorClass) | GoOn(class_: ErrorClass)

  function TurnAt(r: Route, i: nat, j: nat): Turn
    requires r.Valid() && i < |r.names|
  {
    if !r.verdicts[i].ok then Skip
    else if r.answers[i].failure.None? then Win
    else if r.MayGoOn(i, j) then GoOn(r.answers[i].failure.value)
    else GiveUp(r.answers[i].failure.value)
  }

  lemma TurnLeads(r: Route, calls: seq<nat>, n: nat)
    requires r.Valid() && n < |r.names| && Tried(r, calls, n)
    ensures match TurnAt(r, n, |calls|) {
      case Skip => Tried(r, calls, n + 1) && LastError(r, n + 1) == UnsupportedCapability
      case Win => Routed(r, calls + [n], Accepted(n))
      case GiveUp(class_) => Routed(r, calls + [n], Refused(class_))
      case GoOn(class_) => Tried(r, calls + [n], n + 1) && LastError(r, n + 1) == class_
    }
  {
    match TurnAt(r, n, |calls|) {
      case Skip => TriedSkip(r, calls, n);
      case Win => StopsAt(r, calls, n, Accepted(n));
      case GiveUp(class_) => StopsAt(r, calls, n, Refused(class_));
      case GoOn(class_) => TriedCall(r, calls, n);
    }
  }
}
