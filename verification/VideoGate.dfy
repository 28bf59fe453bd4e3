/**
  The gate between a generated video and its delivery: the worker probes every
  output, and transcodes what does not meet its contract; delivery sends a ready
  variant, or the original where the policy lets it. `Media` is the state that this
  is about, and `MediaNext` lists what workers may do to it, one effect at a time.
 */
module VideoGate {
  import opened Domain
  import opened MediaContracts
  import MediaMath
  import TextSplit

  type ArtifactId = int

  datatype Blob = Blob(bucket: string, key: string)

  datatype VariantType = VKDoc | VKVideo | OtherVariant

  datatype Variant = Variant(kind: VariantType, blob: Blob, mime: string, probe: ProbeStatus)

  datatype MediaKind = TextKind | ImageKind | VideoKind | AudioKind

  /** mediaTypeFor. */
  function KindFor(modality: Modality): MediaKind {
    match modality
    case TextModality => TextKind
    case ImageModality => ImageKind
    case VideoModality => VideoKind
    case AudioModality => AudioKind
  }

  datatype ArtifactStatus = Processing | Ready | Failed

  /** length is the number of stored bytes; sizeBytes is what the row says. */
  datatype Artifact = Artifact(
    blob: Blob, kind: MediaKind, mime: string, sizeBytes: int, length: nat, meta: Metadata, status: ArtifactStatus)

  datatype RawPolicy = Never | IfProbePassed | AlwaysDevOnly

  datatype TranscodePolicy = NeverTranscode | Fallback | Always

  datatype GateConfig = GateConfig(
    prober: bool, requireProbe: bool, objectStore: bool, transcoder: bool,
    transcodePolicy: TranscodePolicy, rawPolicy: RawPolicy)

  /** What a media error is about. */
  datatype MediaFault = ProbeFault | TranscodeFault

  datatype GateResult = GateOk | MediaError(fault: MediaFault) | StoreError

  const NoMetadata: Metadata := Metadata(0, 0, 0, "", "", ProbeUnknown)

  /** ApplyMediaMetadata: known facts replace old ones, the probe status always does. */
  function Apply(a: Metadata, metadata: Metadata): Metadata {
    var m := Normal(metadata);
    Metadata(
      if m.width > 0 then m.width else a.width,
      if m.height > 0 then m.height else a.height,
      if m.durationMS > 0 then m.durationMS else a.durationMS,
      if m.codec != "" then m.codec else a.codec,
      if m.container != "" then m.container else a.container,
      m.probeStatus)
  }

  function ProbeMarked(a: Artifact, m: Metadata, probe: ProbeStatus, status: ArtifactStatus): Artifact {
    a.(meta := Apply(a.meta, m).(probeStatus := probe), status := status)
  }

  function OriginalSize(a: Artifact): int {
    if a.sizeBytes <= 0 then a.length else a.sizeBytes
  }

  predicate FastPathAllowed(c: GateConfig, contract: Option<Contract>, m: Metadata, size: int) {
    c.rawPolicy != Never && contract.Some? && MeetsContract(contract.value, m, size)
  }

  predicate TranscodeAllowed(c: GateConfig, contract: Option<Contract>) {
    && c.transcoder && c.transcodePolicy != NeverTranscode
    && (contract.Some? ==> contract.value.transcodeAllowed || contract.value.requiresTranscode)
  }

  predicate DevRawAllowed(c: GateConfig, contract: Option<Contract>) {
    contract.None? && c.rawPolicy == AlwaysDevOnly
  }

  predicate HasVariant(vs: seq<Variant>, kind: VariantType) {
    exists i :: 0 <= i < |vs| && vs[i].kind == kind
  }

  /** The row holds what the probe found out. */
  predicate Carries(a: Artifact, m: Metadata) {
    var n := Normal(m);
    && (n.container != "" ==> a.meta.container == n.container) && (n.codec != "" ==> a.meta.codec == n.codec)
    && (n.width > 0 ==> a.meta.width == n.width) && (n.height > 0 ==> a.meta.height == n.height)
    && (n.durationMS > 0 ==> a.meta.durationMS == n.durationMS)
  }

  /** An output that may go on to delivery: its last probe passed with metadata m, and
      it meets its contract, or has a VK rendition, or is a contract-free
      development output. */
  predicate Cleared(c: GateConfig, contract: Option<Contract>, a: Artifact, m: Metadata, vs: seq<Variant>) {
    && a.kind.VideoKind? && a.meta.probeStatus.ProbePassed? && a.status.Ready? && Carries(a, m)
    && (FastPathAllowed(c, contract, m, OriginalSize(a)) || HasVariant(vs, VKVideo) || DevRawAllowed(c, contract))
  }

  /** The row of an output says that it keeps to a contract: it passed the probe, and its
      stored size, container, codec, length, aspect and resolution are within bounds. */
  ghost predicate KeepsTo(k: Contract, a: Artifact) {
    && k.deliveryReadyOutput && a.meta.probeStatus == ProbePassed
    && (k.expectedMaxBytes > 0 ==> (if a.sizeBytes > 0 then a.sizeBytes else a.length) <= k.expectedMaxBytes)
    && (MediaMath.Token(k.expectedContainer) in {"", a.meta.container})
    && (MediaMath.Token(k.expectedCodec) in {"", a.meta.codec})
    && (k.allowedDurationsSec != [] ==> LastsAsAllowed(a.meta.durationMS, k.allowedDurationsSec))
    && (k.allowedResolutions != [] ==> FitsSome(a.meta.width, a.meta.height, k.allowedResolutions))
    && HasAspect(a.meta.width, a.meta.height, k.allowedAspectRatios)
  }

  /** If the list is one of ratios in lowest terms, the sides are in one of these ratios. */
  ghost predicate HasAspect(width: int, height: int, allowed: seq<string>) {
    forall pairs :: InLowestTerms(pairs) && allowed == MediaMath.Ratios(pairs) ==> InSomeRatio(width, height, pairs)
  }

  predicate InLowestTerms(pairs: seq<(nat, nat)>) {
    pairs != []
    && forall i :: 0 <= i < |pairs| ==> pairs[i].0 > 0 && pairs[i].1 > 0 && MediaMath.GcdOf(pairs[i].0, pairs[i].1) == 1
  }

  predicate InSomeRatio(width: int, height: int, pairs: seq<(nat, nat)>) {
    exists i :: 0 <= i < |pairs| && width * pairs[i].1 == height * pairs[i].0
  }

  lemma AllowedAspectIsKept(width: int, height: int, allowed: seq<string>)
    requires MediaMath.AspectFits(width, height, allowed)
    ensures HasAspect(width, height, allowed)
  {
    forall pairs | InLowestTerms(pairs) && allowed == MediaMath.Ratios(pairs) ensures InSomeRatio(width, height, pairs) {
      assert |allowed| == |pairs|;
      MediaMath.AspectFitsIff(width, height, pairs);
    }
  }

  /** What takes the fast path keeps to its contract, as far as its row tells. */
  lemma FastPathKeepsTo(c: GateConfig, k: Contract, a: Artifact, m: Metadata)
    requires FastPathAllowed(c, Some(k), m, OriginalSize(a)) && Carries(a, m) && a.meta.probeStatus == ProbePassed
    ensures KeepsTo(k, a)
  {
    var n := Normal(m);
    MeetsContractIff(k, m, OriginalSize(a));
    MediaTokenIsToken(m.container);
    MediaTokenIsToken(m.codec);
    AllowedAspectIsKept(n.width, n.height, k.allowedAspectRatios);
  }

  // ----------------------------------------------------------------- delivery

  predicate ReadyVariant(v: Variant, kind: VariantType) {
    v.kind == kind && Named(v.blob) && v.probe.ProbePassed?
  }

  predicate EqualFold(s: string, t: string) {
    MediaMath.ToLower(s) == MediaMath.ToLower(t)
  }

  predicate ReadyOriginal(a: Artifact, policy: RawPolicy) {
    && a.kind.VideoKind? && Named(a.blob)
    && match policy {
         case AlwaysDevOnly => true
         case IfProbePassed =>
           a.meta.probeStatus.ProbePassed? && EqualFold(a.meta.container, "mp4") && EqualFold(a.meta.codec, "h264")
         case Never => false
       }
  }

  /** The first ready variant of a kind, or -1. */
  function FirstReady(vs: seq<Variant>, kind: VariantType, i: nat): (k: int)
    requires i <= |vs|
    ensures k == -1 || (i <= k < |vs| && ReadyVariant(vs[k], kind))
    ensures forall j :: i <= j < (if k < 0 then |vs| else k) ==> !ReadyVariant(vs[j], kind)
    decreases |vs| - i
  {
    if i == |vs| then -1 else if ReadyVariant(vs[i], kind) then i else FirstReady(vs, kind, i + 1)
  }

  method FindReady(vs: seq<Variant>, kind: VariantType) returns (k: int)
    ensures k == FirstReady(vs, kind, 0)
  {
    for i := 0 to |vs|
      invariant FirstReady(vs, kind, i) == FirstReady(vs, kind, 0)
    {
      if ReadyVariant(vs[i], kind) {
        return i;
      }
    }
    return -1;
  }

  // -------------------------------------------------------------------- state

  /** The artifact and variant rows; said is what the prober last reported about the
      bytes of an object that it accepted, and probed what an artifact's row was
      marked as passed with. */
  datatype Media = Media(
    artifacts: map<ArtifactId, Artifact>,
    variants: map<ArtifactId, seq<Variant>>,
    said: map<Blob, Metadata>,
    probed: map<ArtifactId, Metadata>)
  {
    function VariantsOf(id: ArtifactId): seq<Variant> {
      if id in variants then variants[id] else []
    }

    function WithArtifact(id: ArtifactId, a: Artifact): Media {
      this.(artifacts := artifacts[id := a])
    }

    function WithVariant(id: ArtifactId, v: Variant): Media {
      this.(variants := variants[id := VariantsOf(id) + [v]])
    }
  }

  const NoMedia: Media := Media(map[], map[], map[], map[])

  /** The prober accepts the bytes of an object. */
  ghost predicate Accepts(m: Media, m': Media, blob: Blob) {
    blob in m'.said && m' == m.(said := m.said[blob := m'.said[blob]])
  }

  predicate Named(b: Blob) {
    b.bucket != "" && b.key != ""
  }

  /** A new artifact has a stored object; an update does not move it. */
  predicate SamePlace(m: Media, m': Media, id: ArtifactId)
    requires id in m'.artifacts
  {
    if id in m.artifacts then m'.artifacts[id].blob == m.artifacts[id].blob else Named(m'.artifacts[id].blob)
  }

  /** A row is written; it says "passed" only of bytes that the prober accepted. */
  ghost predicate WritesArtifact(m: Media, m': Media, id: ArtifactId) {
    && id in m'.artifacts && SamePlace(m, m', id)
    && (m'.artifacts[id].meta.probeStatus.ProbePassed? ==> m'.artifacts[id].blob in m.said)
    && m' == m.WithArtifact(id, m'.artifacts[id])
  }

  /** A row is marked as passed with what the prober last said of its bytes. */
  ghost predicate MarksPassed(m: Media, m': Media, id: ArtifactId) {
    && id in m'.artifacts && SamePlace(m, m', id) && m'.artifacts[id].blob in m.said
    && m' == m.WithArtifact(id, m'.artifacts[id]).(probed := m.probed[id := m.said[m'.artifacts[id].blob]])
  }

  /** What a rendition is marked with: what the prober said, or passed if that was nothing. */
  function VariantProbe(m: Metadata): ProbeStatus {
    if m.probeStatus.ProbeUnknown? then ProbePassed else m.probeStatus
  }

  /** A VK rendition, of bytes that the prober accepted. */
  ghost predicate AddsVariant(m: Media, m': Media, id: ArtifactId) {
    && m'.VariantsOf(id) != []
    && var v := m'.VariantsOf(id)[|m'.VariantsOf(id)| - 1];
    && v.kind == VKVideo && Named(v.blob) && v.blob in m.said && v.probe == VariantProbe(m.said[v.blob])
    && m' == m.WithVariant(id, v)
  }

  /** One effect on artifact rows, variant rows, or the prober's memory. */
  ghost predicate MediaNext(m: Media, m': Media) {
    || (exists blob :: Accepts(m, m', blob))
    || (exists id :: WritesArtifact(m, m', id))
    || (exists id :: MarksPassed(m, m', id))
    || (exists id :: AddsVariant(m, m', id))
  }

  /** Whatever a row says passed the probe was accepted by the prober. */
  ghost predicate Honest(m: Media) {
    && (forall id :: id in m.artifacts && m.artifacts[id].meta.probeStatus.ProbePassed? ==> m.artifacts[id].blob in m.said)
    && (forall id :: id in m.variants ==> HonestVariants(m.variants[id], m.said))
  }

  predicate HonestVariants(vs: seq<Variant>, said: map<Blob, Metadata>) {
    forall i :: 0 <= i < |vs| && vs[i].probe.ProbePassed? ==> vs[i].blob in said
  }

  lemma VariantKeepsHonest(m: Media, m': Media, id: ArtifactId)
    requires Honest(m) && AddsVariant(m, m', id)
    ensures Honest(m')
  {
    assert HonestVariants(m.VariantsOf(id), m.said);
  }

  lemma AcceptKeepsHonest(m: Media, m': Media, blob: Blob)
    requires Honest(m) && Accepts(m, m', blob)
    ensures Honest(m')
  {
    forall id | id in m'.variants ensures HonestVariants(m'.variants[id], m'.said) {
      assert HonestVariants(m.variants[id], m.said);
    }
  }

  lemma RowKeepsHonest(m: Media, m': Media, id: ArtifactId)
    requires Honest(m) && (WritesArtifact(m, m', id) || MarksPassed(m, m', id))
    ensures Honest(m')
  {
  }

  lemma MediaNextKeepsHonest(m: Media, m': Media)
    requires Honest(m) && MediaNext(m, m')
    ensures Honest(m')
  {
    if blob :| Accepts(m, m', blob) {
      AcceptKeepsHonest(m, m', blob);
    } else if id :| WritesArtifact(m, m', id) {
      RowKeepsHonest(m, m', id);
    } else if id :| MarksPassed(m, m', id) {
      RowKeepsHonest(m, m', id);
    } else {
      var id :| AddsVariant(m, m', id);
      VariantKeepsHonest(m, m', id);
    }
  }

  /** An output that may go on to delivery: its last probe passed, and it meets its
      contract, or has a VK rendition, or is a contract-free development output. */
  predicate ClearedAt(c: GateConfig, contract: Option<Contract>, m: Media, id: ArtifactId) {
    && id in m.artifacts && id in m.probed
    && Cleared(c, contract, m.artifacts[id], m.probed[id], m.VariantsOf(id))
  }

  predicate SkippedAt(m: Media, id: ArtifactId) {
    id in m.artifacts && (m.artifacts[id].kind.VideoKind? ==> m.artifacts[id].meta.probeStatus.ProbeSkipped?)
  }

  /** What the gate lets through. */
  predicate GatePassed(c: GateConfig, contract: Option<Contract>, m: Media, outputs: seq<ArtifactId>) {
    if c.prober then outputs != [] && forall i :: 0 <= i < |outputs| ==> ClearedAt(c, contract, m, outputs[i])
    else !c.requireProbe && outputs != [] && forall i :: 0 <= i < |outputs| ==> SkippedAt(m, outputs[i])
  }

  /** Nothing but the rows of one artifact changed. */
  ghost predicate OnlyAbout(id: ArtifactId, was: Media, now: Media) {
    forall k :: k != id ==>
      && (k in was.artifacts <==> k in now.artifacts)
      && (k in was.artifacts && k in now.artifacts ==> was.artifacts[k] == now.artifacts[k])
      && was.VariantsOf(k) == now.VariantsOf(k)
      && (k in was.probed <==> k in now.probed)
      && (k in was.probed && k in now.probed ==> was.probed[k] == now.probed[k])
  }

  /** What clears an output: a VK rendition, or its contract, or the want of one. */
  lemma ClearedKeepsTo(c: GateConfig, contract: Option<Contract>, m: Media, id: ArtifactId)
    requires ClearedAt(c, contract, m, id)
    ensures (exists v :: v in m.VariantsOf(id) && v.kind == VKVideo)
      || match contract
         case None => c.rawPolicy == AlwaysDevOnly
         case Some(k) => c.rawPolicy != Never && KeepsTo(k, m.artifacts[id])
  {
    var vs := m.VariantsOf(id);
    if i :| 0 <= i < |vs| && vs[i].kind == VKVideo {
      assert vs[i] in vs;
    } else if contract.Some? {
      FastPathKeepsTo(c, contract.value, m.artifacts[id], m.probed[id]);
    }
  }

  // --------------------------------------------------------- choosing an object

  datatype Chosen = Deliver(blob: Blob, mime: string) | NotDeliverable

  function MimeOf(v: Variant): string {
    if v.mime == "" then "video/mp4" else v.mime
  }

  /** The object that delivery takes for an artifact. */
  function ChosenFor(a: Artifact, vs: seq<Variant>, policy: RawPolicy): Chosen {
    var doc, vid := FirstReady(vs, VKDoc, 0), FirstReady(vs, VKVideo, 0);
    if !a.kind.VideoKind? then Deliver(a.blob, a.mime)
    else if doc >= 0 then Deliver(vs[doc].blob, MimeOf(vs[doc]))
    else if vid >= 0 then Deliver(vs[vid].blob, MimeOf(vs[vid]))
    else if ReadyOriginal(a, policy) then Deliver(a.blob, a.mime)
    else NotDeliverable
  }

  /** mediaObjectForDelivery, once the variants are listed. */
  method MediaObjectForDelivery(a: Artifact, vs: seq<Variant>, policy: RawPolicy) returns (chosen: Chosen)
    ensures chosen == ChosenFor(a, vs, policy)
  {
    if !a.kind.VideoKind? {
      return Deliver(a.blob, a.mime);
    }
    var doc := FindReady(vs, VKDoc);
    if doc >= 0 {
      return Deliver(vs[doc].blob, MimeOf(vs[doc]));
    }
    var vid := FindReady(vs, VKVideo);
    if vid >= 0 {
      return Deliver(vs[vid].blob, MimeOf(vs[vid]));
    }
    if ReadyOriginal(a, policy) {
      return Deliver(a.blob, a.mime);
    }
    return NotDeliverable;
  }

  /** Rendition i is the first one of its kind that is stored and passed the probe. */
  predicate IsFirst(vs: seq<Variant>, kind: VariantType, i: int) {
    && 0 <= i < |vs| && IsPassed(vs[i], kind)
    && forall j :: 0 <= j < i ==> !IsPassed(vs[j], kind)
  }

  predicate IsPassed(v: Variant, kind: VariantType) {
    v.kind == kind && v.blob.bucket != "" && v.blob.key != "" && v.probe == ProbePassed
  }

  predicate HasPassed(vs: seq<Variant>, kind: VariantType) {
    exists i :: 0 <= i < |vs| && IsPassed(vs[i], kind)
  }

  /** Which object is delivered: anything but a video as it is; of a video the first
      document that passed, else the first VK rendition that passed, else the original, if
      the policy is always_dev_only, or if_probe_passed and it passed as H.264 in MP4. */
  lemma ChosenIs(a: Artifact, vs: seq<Variant>, policy: RawPolicy)
    ensures var chosen := ChosenFor(a, vs, policy);
      && (a.kind != VideoKind ==> chosen == Deliver(a.blob, a.mime))
      && (a.kind == VideoKind ==>
            && (forall i :: IsFirst(vs, VKDoc, i) ==> chosen == Deliver(vs[i].blob, if vs[i].mime == "" then "video/mp4" else vs[i].mime))
            && (forall i :: !HasPassed(vs, VKDoc) && IsFirst(vs, VKVideo, i) ==>
                  chosen == Deliver(vs[i].blob, if vs[i].mime == "" then "video/mp4" else vs[i].mime))
            && (!HasPassed(vs, VKDoc) && !HasPassed(vs, VKVideo) ==>
                  chosen == if OriginalMayGo(a, policy) then Deliver(a.blob, a.mime) else NotDeliverable))
  {
    FirstIs(vs, VKDoc);
    FirstIs(vs, VKVideo);
  }

  predicate OriginalMayGo(a: Artifact, policy: RawPolicy) {
    && a.blob.bucket != "" && a.blob.key != "" && policy != Never
    && (policy == IfProbePassed ==>
          a.meta.probeStatus == ProbePassed && EqualFold(a.meta.container, "mp4") && EqualFold(a.meta.codec, "h264"))
  }

  lemma FirstIs(vs: seq<Variant>, kind: VariantType)
    ensures forall i :: IsFirst(vs, kind, i) <==> i >= 0 && i == FirstReady(vs, kind, 0)
    ensures HasPassed(vs, kind) <==> FirstReady(vs, kind, 0) >= 0
  {
    var k := FirstReady(vs, kind, 0);
    forall i ensures IsFirst(vs, kind, i) <==> i >= 0 && i == k {
      if IsFirst(vs, kind, i) {
        assert ReadyVariant(vs[i], kind);
        assert k >= 0 && !(k < i) by {
          if 0 <= k < i {
            assert IsPassed(vs[k], kind);
          }
        }
      }
    }
    if i :| 0 <= i < |vs| && IsPassed(vs[i], kind) {
      assert ReadyVariant(vs[i], kind);
    }
  }

  /** Under a policy other than always_dev_only, only bytes that the prober accepted
      are delivered as a video. */
  lemma DeliveredVideoWasAccepted(m: Media, id: ArtifactId, policy: RawPolicy)
    requires Honest(m) && id in m.artifacts
    ensures var chosen := ChosenFor(m.artifacts[id], m.VariantsOf(id), policy);
      m.artifacts[id].kind.VideoKind? && policy != AlwaysDevOnly && chosen.Deliver? ==> chosen.blob in m.said
  {
    assert HonestVariants(m.VariantsOf(id), m.said);
  }

  predicate HasReady(vs: seq<Variant>) {
    exists i :: 0 <= i < |vs| && (ReadyVariant(vs[i], VKDoc) || ReadyVariant(vs[i], VKVideo))
  }

  /** The delivery policy takes the original: always_dev_only any, if_probe_passed what
      passed as H.264 in MP4. */
  predicate OriginalTaken(a: Artifact, policy: RawPolicy) {
    && Named(a.blob)
    && (policy == AlwaysDevOnly
        || (policy == IfProbePassed && EqualFold(a.meta.container, "mp4") && EqualFold(a.meta.codec, "h264")))
  }

  /** A cleared output can be delivered if and only if it has a ready rendition, or the
      policy takes its original. */
  lemma ClearedIsDeliverableIff(c: GateConfig, contract: Option<Contract>, m: Media, id: ArtifactId, policy: RawPolicy)
    requires ClearedAt(c, contract, m, id)
    ensures ChosenFor(m.artifacts[id], m.VariantsOf(id), policy).Deliver?
       <==> HasReady(m.VariantsOf(id)) || OriginalTaken(m.artifacts[id], policy)
  {
    var vs := m.VariantsOf(id);
    var doc, vid := FirstReady(vs, VKDoc, 0), FirstReady(vs, VKVideo, 0);
    if HasReady(vs) {
      var i :| 0 <= i < |vs| && (ReadyVariant(vs[i], VKDoc) || ReadyVariant(vs[i], VKVideo));
      assert doc >= 0 || vid >= 0;
    }
  }

  // --------------------------------------- when every cleared output is deliverable

  /** Every object is stored somewhere, and every rendition is a VK rendition that is
      ready. */
  ghost predicate AllReady(m: Media) {
    && (forall id :: id in m.artifacts ==> Named(m.artifacts[id].blob))
    && (forall id :: id in m.variants ==> ReadyVariants(m.variants[id]))
  }

  predicate ReadyVariants(vs: seq<Variant>) {
    forall i :: 0 <= i < |vs| ==> ReadyVariant(vs[i], VKVideo)
  }

  /** The prober reports nothing but passed, or nothing at all, of bytes that it accepts. */
  ghost predicate SaysPassed(m: Media) {
    forall b :: b in m.said ==> m.said[b].probeStatus.ProbePassed? || m.said[b].probeStatus.ProbeUnknown?
  }

  lemma RowKeepsReady(m: Media, m': Media, id: ArtifactId)
    requires AllReady(m) && (WritesArtifact(m, m', id) || MarksPassed(m, m', id))
    ensures AllReady(m')
  {
  }

  lemma VariantKeepsReady(m: Media, m': Media, id: ArtifactId)
    requires AllReady(m) && SaysPassed(m) && AddsVariant(m, m', id)
    ensures AllReady(m')
  {
    assert ReadyVariants(m.VariantsOf(id));
  }

  lemma MediaNextKeepsReady(m: Media, m': Media)
    requires AllReady(m) && SaysPassed(m) && MediaNext(m, m')
    ensures AllReady(m')
  {
    if blob :| Accepts(m, m', blob) {
    } else if id :| WritesArtifact(m, m', id) {
      RowKeepsReady(m, m', id);
    } else if id :| MarksPassed(m, m', id) {
      RowKeepsReady(m, m', id);
    } else {
      var id :| AddsVariant(m, m', id);
      VariantKeepsReady(m, m', id);
    }
  }

  /** The contract is for H.264 in MP4, as far as it lets originals through at all. */
  predicate ForVK(contract: Option<Contract>) {
    contract.Some? && contract.value.deliveryReadyOutput ==>
      MediaMath.Token(contract.value.expectedContainer) == "mp4" && MediaMath.Token(contract.value.expectedCodec) == "h264"
  }

  /** The gate lets no original through that delivery would not take. */
  predicate PoliciesAgree(c: GateConfig, policy: RawPolicy, contract: Option<Contract>) {
    || c.rawPolicy == Never
    || policy == AlwaysDevOnly
    || (c.rawPolicy == IfProbePassed && policy == IfProbePassed && ForVK(contract))
  }

  lemma FastPathIsTaken(c: GateConfig, contract: Contract, a: Artifact, m: Metadata)
    requires FastPathAllowed(c, Some(contract), m, OriginalSize(a)) && ForVK(Some(contract)) && Carries(a, m)
    ensures EqualFold(a.meta.container, "mp4") && EqualFold(a.meta.codec, "h264")
  {
    var n := Normal(m);
    MediaTokenIsToken(m.container);
    MediaTokenIsToken(m.codec);
    assert TokenMatches(n.container, contract.expectedContainer) && TokenMatches(n.codec, contract.expectedCodec);
    assert n.container == "mp4" && n.codec == "h264";
  }

  /** Where the policies agree and every rendition is ready, all cleared outputs can be
      delivered. */
  lemma ClearedIsDeliverable(c: GateConfig, contract: Option<Contract>, m: Media, id: ArtifactId, policy: RawPolicy)
    requires ClearedAt(c, contract, m, id) && AllReady(m) && PoliciesAgree(c, policy, contract)
    ensures ChosenFor(m.artifacts[id], m.VariantsOf(id), policy).Deliver?
  {
    var a, vs := m.artifacts[id], m.VariantsOf(id);
    ClearedIsDeliverableIff(c, contract, m, id, policy);
    if HasVariant(vs, VKVideo) {
      var i :| 0 <= i < |vs| && vs[i].kind == VKVideo;
      assert ReadyVariants(vs) && ReadyVariant(vs[i], VKVideo);
    } else if policy != AlwaysDevOnly {
      FastPathIsTaken(c, contract.value, a, m.probed[id]);
    }
  }

  /** A valid contract for VP9 in WebM. */
  const WebM: Contract := Contract("p", "m", "c", Some(VideoModality), [], [], [], "webm", "vp9", 10,
    true, true, false, false, false, NoGuarantee, 1, 0, 0)

  lemma WebMIsValid()
    ensures IsValid(WebM)
  {
    assert TextSplit.IsTrimmed("p") && TextSplit.IsTrimmed("m") && TextSplit.IsTrimmed("c");
    assert TextSplit.IsTrimmed("webm") && TextSplit.IsTrimmed("vp9");
  }

  lemma WebMIsNormal(m: Metadata)
    requires m == Metadata(1, 1, 1, "vp9", "webm", ProbePassed)
    ensures Normal(m) == m
  {
    PlainNameIsToken("vp9");
    PlainNameIsToken("webm");
  }

  lemma WebMIsMet(m: Metadata)
    requires Normal(m) == m && m.probeStatus.ProbePassed? && m.container == "webm" && m.codec == "vp9"
    ensures MeetsContract(WebM, m, 1)
  {
  }

  /** Where a contract names another container or codec, an output takes the fast path and
      delivery refuses it. */
  lemma OtherContainerIsRefused(c: GateConfig, policy: RawPolicy) returns (m: Media)
    requires c.prober && c.rawPolicy != Never && policy != AlwaysDevOnly
    ensures IsValid(WebM) && Honest(m) && AllReady(m) && SaysPassed(m) && ClearedAt(c, Some(WebM), m, 0)
    ensures ChosenFor(m.artifacts[0], m.VariantsOf(0), policy) == NotDeliverable
  {
    var blob, meta := Blob("b", "k"), Metadata(1, 1, 1, "vp9", "webm", ProbePassed);
    WebMIsValid();
    WebMIsNormal(meta);
    WebMIsMet(meta);
    m := Media(map[0 := Artifact(blob, VideoKind, "", 1, 1, meta, Ready)], map[], map[blob := meta], map[0 := meta]);
    assert MediaMath.ToLower("webm")[0] == 'w' && MediaMath.ToLower("mp4")[0] == 'm';
  }
}
