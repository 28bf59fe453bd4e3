/**
  The product allow list for video providers: which contract governs a submit,
  when it lets the submit through, and when an output needs no transcoding.
 */
module MediaContracts {
  import opened Domain
  import TextSplit
  import MediaMath

  type ProviderName = string

  const PROVIDER_MOCK: ProviderName := "mock"

  datatype Operation = VideoGenerate | OtherOperation(name: string)

  /** ProviderIdempotencyGuarantee; Unset is the empty string. */
  datatype Guarantee = Unset | NoGuarantee | AdapterOnly | ProviderSide | ProviderExact | UnknownGuarantee(text: string)

  datatype Contract = Contract(
    provider: ProviderName,
    model: string,
    modelClass: string,
    modality: Option<Modality>,
    allowedDurationsSec: seq<int>,
    allowedAspectRatios: seq<string>,
    allowedResolutions: seq<string>,
    expectedContainer: string,
    expectedCodec: string,
    expectedMaxBytes: int,
    deliveryReadyOutput: bool,
    requiresProbe: bool,
    requiresTranscode: bool,
    transcodeAllowed: bool,
    supportsProviderIdempotency: bool,
    guarantee: Guarantee,
    maxProviderAttempts: int,
    maxFallbackAttempts: int,
    maxProviderCostCredits: int)

  predicate Blank(s: string) {
    TextSplit.TrimSpace(s) == ""
  }

  /** ProviderMediaContract.Validate returns no error. */
  predicate IsValid(c: Contract) {
    && !Blank(c.provider) && !Blank(c.model) && !Blank(c.modelClass) && c.modality.Some?
    && c.maxProviderAttempts > 0 && c.maxFallbackAttempts >= 0 && c.maxProviderCostCredits >= 0
    && (c.requiresTranscode ==> c.transcodeAllowed)
    && (!c.deliveryReadyOutput ==> c.requiresTranscode)
    && (c.deliveryReadyOutput ==> !Blank(c.expectedContainer) && !Blank(c.expectedCodec) && c.expectedMaxBytes > 0)
    && !c.guarantee.UnknownGuarantee?
    && (!c.supportsProviderIdempotency ==>
          (c.guarantee.Unset? || c.guarantee.NoGuarantee?)
          && c.maxProviderAttempts <= 1 && c.maxFallbackAttempts <= 0)
  }

  /** Without provider idempotency a contract allows one call and no fallback. */
  predicate OnceOnly(c: Contract) {
    !c.supportsProviderIdempotency ==> c.maxProviderAttempts == 1 && c.maxFallbackAttempts == 0
  }

  datatype Request = Request(
    provider: Option<ProviderName>,
    operation: Operation,
    modality: Option<Modality>,
    modelCode: string,
    attemptNo: int,
    durationSec: int,
    aspectRatio: string,
    resolution: string)

  datatype ContractRegistry = ContractRegistry(contracts: seq<Contract>, requireVideoProbe: bool, videoTranscodeEnabled: bool)

  predicate Matches(c: Contract, provider: ProviderName, model: string, modality: Option<Modality>) {
    && c.provider == provider && c.modality == modality
    && (if Blank(model) then !Blank(c.model) else TextSplit.TrimSpace(c.model) == TextSplit.TrimSpace(model))
  }

  /** The position of the last of the first n contracts that matches, or -1. */
  function LastMatch(contracts: seq<Contract>, provider: ProviderName, model: string, modality: Option<Modality>, n: nat): (i: int)
    requires n <= |contracts|
    ensures -1 <= i < n
    ensures i >= 0 ==> Matches(contracts[i], provider, model, modality)
    ensures forall j :: i < j < n ==> !Matches(contracts[j], provider, model, modality)
  {
    if n == 0 then -1
    else if Matches(contracts[n - 1], provider, model, modality) then n - 1
    else LastMatch(contracts, provider, model, modality, n - 1)
  }

  /** The contract that governs a submit: a later one overrides an earlier one. */
  function Governing(contracts: seq<Contract>, provider: ProviderName, model: string, modality: Option<Modality>): Option<Contract> {
    var i := LastMatch(contracts, provider, model, modality, |contracts|);
    if i < 0 then None else Some(contracts[i])
  }

  method Find(contracts: seq<Contract>, provider: ProviderName, model: string, modality: Option<Modality>)
    returns (found: Option<Contract>)
    ensures found == Governing(contracts, provider, model, modality)
  {
    var trimmed := TextSplit.TrimSpace(model);
    var i := |contracts| - 1;
    while i >= 0
      invariant -1 <= i < |contracts|
      invariant LastMatch(contracts, provider, model, modality, |contracts|)
             == LastMatch(contracts, provider, model, modality, i + 1)
      decreases i
    {
      var contract := contracts[i];
      var skip := contract.provider != provider || contract.modality != modality;
      if !skip {
        if trimmed != "" && TextSplit.TrimSpace(contract.model) != trimmed {
          skip := true;
        } else if trimmed == "" && TextSplit.TrimSpace(contract.model) == "" {
          skip := true;
        }
      }
      if !skip {
        return Some(contract);
      }
      i := i - 1;
    }
    return None;
  }

  /** What validateProviderSubmit returns: the contract, if any, and whether there
      was no error. Every error is of class UnsupportedCapability. */
  datatype Verdict = Verdict(contract: Option<Contract>, ok: bool)

  predicate IsVideoSubmit(req: Request) {
    req.modality == Some(VideoModality) && req.operation == VideoGenerate
  }

  function ValidateProviderSubmit(r: ContractRegistry, provider: ProviderName, req: Request, cost: int): (v: Verdict)
    ensures v.ok && v.contract.Some? ==> IsValid(v.contract.value) && OnceOnly(v.contract.value)
  {
    if !IsVideoSubmit(req) then Verdict(None, true)
    else
      var found := Governing(r.contracts, provider, req.modelCode, req.modality);
      if found.None? then Verdict(None, provider == PROVIDER_MOCK && r.contracts == [])
      else Verdict(found, Permits(r, found.value, req, cost))
  }

  predicate Permits(r: ContractRegistry, c: Contract, req: Request, cost: int) {
    && IsValid(c)
    && (if req.attemptNo <= 0 then 1 else req.attemptNo) <= c.maxProviderAttempts
    && (c.allowedDurationsSec == [] || req.durationSec in c.allowedDurationsSec)
    && MediaMath.TokenFits(req.aspectRatio, c.allowedAspectRatios)
    && MediaMath.TokenFits(req.resolution, c.allowedResolutions)
    && (c.requiresProbe ==> r.requireVideoProbe)
    && (c.requiresTranscode ==> r.videoTranscodeEnabled)
    && (!c.deliveryReadyOutput ==> r.videoTranscodeEnabled)
    && (c.maxProviderCostCredits > 0 ==> cost <= c.maxProviderCostCredits)
  }

  /** What a contract that is in force has promised. */
  predicate IsSound(c: Contract) {
    && MediaMath.Token(c.provider) != "" && MediaMath.Token(c.model) != "" && MediaMath.Token(c.modelClass) != ""
    && c.modality != None
    && c.maxProviderAttempts >= 1 && c.maxFallbackAttempts >= 0 && c.maxProviderCostCredits >= 0
    && (c.requiresTranscode ==> c.transcodeAllowed) && (c.deliveryReadyOutput || c.requiresTranscode)
    && (c.deliveryReadyOutput ==>
          MediaMath.Token(c.expectedContainer) != "" && MediaMath.Token(c.expectedCodec) != "" && c.expectedMaxBytes >= 1)
    && c.guarantee in {Unset, NoGuarantee, AdapterOnly, ProviderSide, ProviderExact}
    && (c.supportsProviderIdempotency
        || (c.guarantee in {Unset, NoGuarantee} && c.maxProviderAttempts == 1 && c.maxFallbackAttempts == 0))
  }

  /** A value is on a list, in any case and with any white space around it; an empty list
      holds everything. */
  predicate Listed(value: string, allowed: seq<string>) {
    allowed == [] || exists i :: 0 <= i < |allowed| && MediaMath.Token(allowed[i]) == MediaMath.Token(value)
  }

  /** Which submits are let through: all that are not about video; without a contract only
      those of the mock provider where there are no contracts; and under a contract those
      that keep to it. */
  lemma SubmitIsPermittedIff(r: ContractRegistry, provider: ProviderName, req: Request, cost: int)
    ensures var g := Governing(r.contracts, provider, req.modelCode, req.modality);
      ValidateProviderSubmit(r, provider, req, cost).ok <==>
        if req.modality != Some(VideoModality) || req.operation != VideoGenerate then true
        else if g == None then provider == "mock" && r.contracts == []
        else
          && IsSound(g.value)
          && (req.attemptNo <= g.value.maxProviderAttempts)
          && (g.value.allowedDurationsSec == [] || req.durationSec in g.value.allowedDurationsSec)
          && Listed(req.aspectRatio, g.value.allowedAspectRatios)
          && Listed(req.resolution, g.value.allowedResolutions)
          && (g.value.requiresProbe ==> r.requireVideoProbe)
          && (g.value.requiresTranscode || !g.value.deliveryReadyOutput ==> r.videoTranscodeEnabled)
          && (g.value.maxProviderCostCredits == 0 || cost <= g.value.maxProviderCostCredits)
  {
    var g := Governing(r.contracts, provider, req.modelCode, req.modality);
    if g.Some? {
      SoundIff(g.value);
      ListedIff(req.aspectRatio, g.value.allowedAspectRatios);
      ListedIff(req.resolution, g.value.allowedResolutions);
    }
  }

  lemma ListedIff(value: string, allowed: seq<string>)
    ensures Listed(value, allowed) <==> MediaMath.TokenFits(value, allowed)
  {
  }

  lemma BlankIff(s: string)
    ensures Blank(s) <==> MediaMath.Token(s) == ""
  {
  }

  lemma SoundIff(c: Contract)
    ensures IsSound(c) <==> IsValid(c)
  {
    BlankIff(c.provider);
    BlankIff(c.model);
    BlankIff(c.modelClass);
    BlankIff(c.expectedContainer);
    BlankIff(c.expectedCodec);
  }

  /** A contract that permits the first attempt permits exactly the attempts up to its
      maximum. */
  lemma PermittedAttempts(r: ContractRegistry, provider: ProviderName, req: Request, cost: int, attempt: int)
    requires IsVideoSubmit(req) && attempt >= 1
    ensures var first := ValidateProviderSubmit(r, provider, req.(attemptNo := 1), cost);
      ValidateProviderSubmit(r, provider, req.(attemptNo := attempt), cost)
      == Verdict(first.contract, first.ok && (first.contract.Some? ==> attempt <= first.contract.value.maxProviderAttempts))
  {
  }

  /** Without provider idempotency every attempt after the first is refused. */
  lemma SecondAttemptIsRefused(r: ContractRegistry, provider: ProviderName, req: Request, cost: int)
    requires IsVideoSubmit(req) && req.attemptNo >= 2
    requires var g := Governing(r.contracts, provider, req.modelCode, req.modality);
      g.Some? && !g.value.supportsProviderIdempotency
    ensures !ValidateProviderSubmit(r, provider, req, cost).ok
  {
  }

  // ------------------------------------------------------ delivery-ready output

  datatype ProbeStatus = ProbeUnknown | ProbePending | ProbePassed | ProbeFailed | ProbeSkipped

  datatype Metadata = Metadata(width: int, height: int, durationMS: int, codec: string, container: string, probeStatus: ProbeStatus)

  const MAX_TOKEN: nat := 96

  predicate IsTokenEdge(c: char) {
    c == '_' || c == '.' || c == ',' || c == '+' || c == '-'
  }

  predicate IsTokenChar(c: char) {
    'a' <= c <= 'z' || '0' <= c <= '9' || IsTokenEdge(c)
  }

  /** The token characters of s, white space as underscores, up to n of them. */
  function TokenChars(s: string, n: nat): string
    decreases |s|
  {
    if s == "" || n == 0 then ""
    else if IsTokenChar(s[0]) then [s[0]] + TokenChars(s[1..], n - 1)
    else if TextSplit.IsSpace(s[0]) then "_" + TokenChars(s[1..], n - 1)
    else TokenChars(s[1..], n)
  }

  function TrimEdges(s: string): string
    decreases |s|
  {
    if s == "" then ""
    else if IsTokenEdge(s[0]) then TrimEdges(s[1..])
    else if IsTokenEdge(s[|s| - 1]) then TrimEdges(s[..|s| - 1])
    else s
  }

  /** normalizeMediaToken. */
  function MediaToken(s: string): string {
    TrimEdges(TokenChars(MediaMath.Token(s), MAX_TOKEN))
  }

  predicate AllTokenChars(s: string, n: nat) {
    |s| <= n && forall i :: 0 <= i < |s| ==> IsTokenChar(s[i])
  }

  lemma {:induction false} TokenCharsAre(s: string, n: nat)
    ensures AllTokenChars(TokenChars(s, n), n)
    decreases |s|
  {
    if s != "" && n > 0 {
      TokenCharsAre(s[1..], if IsTokenChar(s[0]) || TextSplit.IsSpace(s[0]) then n - 1 else n);
    }
  }

  lemma {:induction false} TrimEdgesTrims(s: string, n: nat)
    requires AllTokenChars(s, n)
    ensures AllTokenChars(TrimEdges(s), n)
    decreases |s|
  {
    if s != "" && IsTokenEdge(s[0]) {
      TrimEdgesTrims(s[1..], n);
    } else if s != "" && IsTokenEdge(s[|s| - 1]) {
      TrimEdgesTrims(s[..|s| - 1], n);
    }
  }

  lemma {:induction false} TokenCharsKeep(s: string, n: nat)
    requires AllTokenChars(s, n)
    ensures TokenChars(s, n) == s
  {
    if s != "" {
      TokenCharsKeep(s[1..], n - 1);
      assert s == [s[0]] + s[1..];
    }
  }

  /** A normalised token is lower case and has no white space around it. */
  lemma MediaTokenIsToken(s: string)
    ensures MediaMath.Token(MediaToken(s)) == MediaToken(s)
  {
    var t := MediaToken(s);
    TokenCharsAre(MediaMath.Token(s), MAX_TOKEN);
    TrimEdgesTrims(TokenChars(MediaMath.Token(s), MAX_TOKEN), MAX_TOKEN);
    if t != "" {
      MediaMath.DigitsAreTrimmed(t);
    }
  }

  /** A plain name is its own token. */
  lemma PlainNameIsToken(s: string)
    requires s != "" && AllTokenChars(s, MAX_TOKEN) && !IsTokenEdge(s[0]) && !IsTokenEdge(s[|s| - 1])
    ensures MediaMath.Token(s) == s && MediaToken(s) == s
  {
    MediaMath.DigitsAreTrimmed(s);
    TokenCharsKeep(s, MAX_TOKEN);
  }

  /** ArtifactMediaMetadata.Normalize. */
  function Normal(m: Metadata): Metadata {
    Metadata(
      if m.width > 0 then m.width else 0, if m.height > 0 then m.height else 0,
      if m.durationMS > 0 then m.durationMS else 0, MediaToken(m.codec), MediaToken(m.container), m.probeStatus)
  }

  predicate TokenMatches(value: string, expected: string) {
    MediaMath.Token(expected) == "" || MediaMath.Token(value) == MediaMath.Token(expected)
  }

  predicate MeetsContract(c: Contract, metadata: Metadata, sizeBytes: int) {
    var m := Normal(metadata);
    && c.deliveryReadyOutput && m.probeStatus.ProbePassed?
    && TokenMatches(m.container, c.expectedContainer) && TokenMatches(m.codec, c.expectedCodec)
    && (c.expectedMaxBytes > 0 ==> sizeBytes <= c.expectedMaxBytes)
    && MediaMath.DurationFits(m.durationMS, c.allowedDurationsSec)
    && MediaMath.AspectFits(m.width, m.height, c.allowedAspectRatios)
    && MediaMath.ResolutionFits(m.width, m.height, c.allowedResolutions)
  }

  method DeliveryReadyVideoOutput(contract: Option<Contract>, metadata: Metadata, sizeBytes: int) returns (ok: bool)
    ensures ok <==> contract.Some? && MeetsContract(contract.value, metadata, sizeBytes)
  {
    if contract.None? || !contract.value.deliveryReadyOutput {
      return false;
    }
    var c, m := contract.value, Normal(metadata);
    if !m.probeStatus.ProbePassed? {
      return false;
    }
    if !TokenMatches(m.container, c.expectedContainer) || !TokenMatches(m.codec, c.expectedCodec) {
      return false;
    }
    if c.expectedMaxBytes > 0 && sizeBytes > c.expectedMaxBytes {
      return false;
    }
    ok := MediaMath.AllowedOutputDuration(m.durationMS, c.allowedDurationsSec);
    if ok {
      ok := MediaMath.AllowedOutputAspect(m.width, m.height, c.allowedAspectRatios);
    }
    if ok {
      ok := MediaMath.AllowedOutputResolution(m.width, m.height, c.allowedResolutions);
    }
  }

  /** What a contract demands of an output that is to be delivered as it is: it passed the
      probe, container and codec are the expected ones if any are expected, and size, length,
      aspect and resolution keep to their bounds if there are any. */
  lemma MeetsContractIff(c: Contract, metadata: Metadata, size: int)
    ensures var m := Normal(metadata);
      MeetsContract(c, metadata, size) <==>
        && c.deliveryReadyOutput && metadata.probeStatus == ProbePassed
        && (MediaMath.Token(c.expectedContainer) in {"", MediaMath.Token(m.container)})
        && (MediaMath.Token(c.expectedCodec) in {"", MediaMath.Token(m.codec)})
        && (c.expectedMaxBytes <= 0 || size <= c.expectedMaxBytes)
        && (c.allowedDurationsSec == [] || (m.durationMS > 0 && LastsAsAllowed(m.durationMS, c.allowedDurationsSec)))
        && (c.allowedAspectRatios == [] || (m.width > 0 && m.height > 0
              && Listed(MediaMath.ReducedAspect(m.width, m.height), c.allowedAspectRatios)))
        && (c.allowedResolutions == [] || (m.width > 0 && m.height > 0
              && FitsSome(m.width, m.height, c.allowedResolutions)))
  {
    var m := Normal(metadata);
    MediaMath.DurationFitsIff(m.durationMS, c.allowedDurationsSec);
    LastsIff(m.durationMS, c.allowedDurationsSec);
    if m.width > 0 && m.height > 0 {
      ListedIff(MediaMath.ReducedAspect(m.width, m.height), c.allowedAspectRatios);
      FitsSomeIff(m.width, m.height, c.allowedResolutions);
    }
  }

  predicate FitsSome(width: int, height: int, allowed: seq<string>) {
    exists i :: 0 <= i < |allowed| && MediaMath.ResolutionMatches(width, height, allowed[i])
  }

  lemma FitsSomeIff(width: int, height: int, allowed: seq<string>)
    ensures FitsSome(width, height, allowed) <==> MediaMath.SomeFrom(MediaMath.Matching(width, height), allowed, 0)
  {
    MediaMath.SomeFromIff(MediaMath.Matching(width, height), allowed, 0);
  }

  /** Within a second of an allowed length, the lower end excluded. */
  predicate LastsAsAllowed(ms: int, allowed: seq<int>) {
    exists s :: s in allowed && (s - 1) * 1000 < ms <= (s + 1) * 1000
  }

  lemma LastsIff(ms: int, allowed: seq<int>)
    ensures LastsAsAllowed(ms, allowed) <==>
      exists i :: 0 <= i < |allowed| && (allowed[i] - 1) * 1000 < ms <= (allowed[i] + 1) * 1000
  {
    if s :| s in allowed && (s - 1) * 1000 < ms <= (s + 1) * 1000 {
      var i :| 0 <= i < |allowed| && allowed[i] == s;
    }
    if i :| 0 <= i < |allowed| && (allowed[i] - 1) * 1000 < ms <= (allowed[i] + 1) * 1000 {
      assert allowed[i] in allowed;
    }
  }
}
