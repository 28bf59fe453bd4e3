/**
  The job protocol seen from the stores. `Store` is everything that outlives a
  worker process for one job. `Next` lists the effects the workers may have on
  it, each with the condition under which they may have it. `Next` does not know
  which handler is running or how far it got, so a sequence of `Next` steps covers
  handlers that stop after any effect and messages that are handled again.
 */
module Protocol {
  import opened Domain
  import opened MediaContracts
  import TextSplit
  import VideoGate

  /** What a capture call answers when the hold has already been released:
      Strict reports an error, Shipped reports success (as the billing service does). */
  datatype Biller = Strict | Shipped

  datatype Config = Config(
    maxAttempts: nat,    // retry budget of generation and polling
    maxSends: nat,       // retry budget of delivery
    biller: Biller,
    control: bool,       // a client that can edit VK messages is wired
    rid: nat -> int,     // VK random id of the i-th chunk
    bucket: string,      // where artifacts are stored
    gate: VideoGate.GateConfig,
    deliveryPolicy: VideoGate.RawPolicy,   // the delivery worker's raw video policy
    contractFor: (ProviderName, string) -> Option<Contract>)   // the video contract of a provider and model

  ghost predicate WellConfigured(c: Config) {
    && c.maxAttempts >= 1
    && c.maxSends >= 1 && c.bucket != ""
    && (forall i: nat, j: nat :: c.rid(i) == c.rid(j) ==> i == j)
  }

  datatype Job = Job(
    status: JobStatus,
    modality: Modality,
    miniApp: bool,          // created by the Mini App
    hasPeer: bool,          // has a VK conversation
    hasPlaceholder: bool,   // the VK conversation shows a placeholder message
    snapshotCredits: int,   // price in the pricing snapshot, 0 without one
    costReserved: int,
    costCaptured: int,
    outputs: seq<int>)      // ids of the output artifacts

  function Charge(job: Job): int {
    if job.snapshotCredits > 0 then job.snapshotCredits else job.costReserved
  }

  /** `key` is the number in the idempotency key; `class_` belongs to the stored result. */
  datatype Task = Task(
    key: nat, provider: ProviderName, model: string, asyncProvider: bool, status: TaskStatus, class_: ErrorClass)

  /** The contract of the provider and model of the last task. */
  function ContractOf(c: Config, tasks: seq<Task>): Option<Contract> {
    if tasks == [] then None else c.contractFor(tasks[|tasks| - 1].provider, tasks[|tasks| - 1].model)
  }

  predicate IsActive(t: Task) {
    t.status.TaskPending? || t.status.TaskProcessing? || t.status.TaskSucceeded?
  }

  ghost predicate NoneActive(tasks: seq<Task>) {
    forall i :: 0 <= i < |tasks| ==> !IsActive(tasks[i])
  }

  datatype Hold = NoHold | Reserved | Captured(amount: int) | Released

  datatype Body = TextBody(text: string) | MediaBody

  datatype RowStatus = RowPending | RowSent | RowRetrying

  /** The delivery row; messageId 0 stands for "none", and attached is the object that
      was uploaded for it. */
  datatype Row = Row(status: RowStatus, attemptNo: nat, body: Body, messageId: nat, attached: Option<VideoGate.Blob>)

  predicate IsSent(row: Option<Row>) {
    row.Some? && row.value.status.RowSent?
  }

  /** The messages a row turns into: the chunks of its text (a lone empty one if
      there are none), or a single attachment. */
  function Payload(body: Body): (p: seq<string>)
    ensures |p| >= 1
  {
    match body
    case TextBody(text) => if TextSplit.Split(text) == [] then [""] else TextSplit.Split(text)
    case MediaBody => [""]
  }

  /** A message of the VK conversation; its VK id is its position plus one. A
      placeholder has no random id, and no text until it is edited. */
  datatype Bubble = Bubble(rid: Option<int>, text: Option<string>)

  datatype Stream = Generation | Poll | Delivery

  datatype Msg = Msg(stream: Stream, attempt: nat)

  datatype Store = Store(
    job: Job,
    tasks: seq<Task>,
    media: VideoGate.Media, // artifact rows, variant rows, and what the prober said
    hold: Hold,
    row: Option<Row>,
    chat: seq<Bubble>,
    msgs: multiset<Msg>,    // published and not acknowledged
    deadLetters: nat,
    submits: seq<nat>,      // key numbers sent to providers so far
    requeues: nat,          // retry messages published to the generation stream so far
    sends: nat)             // delivery attempts made so far

  // ------------------------------------------------------------------- effects

  /** The outputs of a video have passed the gate. */
  predicate GateOpen(c: Config, s: Store) {
    s.job.modality.VideoModality? ==> VideoGate.GatePassed(c.gate, ContractOf(c, s.tasks), s.media, s.job.outputs)
  }

  /** The conditions under which a worker writes a new job status. */
  predicate MaySetStatus(c: Config, s: Store, to: JobStatus) {
    var from := s.job.status;
    match to
    case Delivering => from == ResultReady
    case Succeeded => from == Delivering && Handed(s) && (Charge(s.job) <= 0 || s.job.costCaptured == Charge(s.job))
    case FailedTerminal =>
      && (from == Delivering || !IsDone(from))
      && !s.hold.Reserved? && !s.hold.Captured? && s.job.costCaptured == 0
    case ResultReady =>
      from == (if s.job.modality.VideoModality? then Postprocessing else ProviderSucceeded) && GateOpen(c, s)
    case Rejected => from == (if s.job.modality.VideoModality? then Postprocessing else ProviderSucceeded)
    case Postprocessing => from == ProviderSucceeded
    case Queued => from == FailedRetryable
    case DispatchingProvider => !IsDone(from)
    case ProviderSubmitted => from == DispatchingProvider
    case ProviderPending => !IsDone(from)
    case ProviderProcessing => !IsDone(from)
    case ProviderSucceeded => !IsDone(from)
    case ProviderFailed => from in {ProviderSubmitted, ProviderPending, ProviderProcessing}
    case FailedRetryable => !IsDone(from)
    case Cancelled => !IsDone(from)
    case _ => false
  }

  ghost predicate SetsStatus(c: Config, s: Store, s': Store) {
    s' == s.(job := s.job.(status := s'.job.status)) && MaySetStatus(c, s, s'.job.status)
  }

  /** The result is in front of the user, or the Mini App can fetch it. */
  predicate Handed(s: Store) {
    s.job.status == Delivering && (s.job.miniApp || IsSent(s.row))
  }

  /** The capture call was answered with success. */
  predicate Collected(c: Config, s: Store) {
    s.hold == Captured(Charge(s.job)) || (c.biller.Shipped? && s.hold.Released?)
  }

  ghost predicate WritesJob(c: Config, s: Store, s': Store) {
    && s' == s.(job := s.job.(outputs := s'.job.outputs, costCaptured := s'.job.costCaptured))
    && (s'.job.costCaptured != s.job.costCaptured ==>
          s'.job.costCaptured == Charge(s.job) > 0 && Handed(s) && Collected(c, s))
    && (s'.job.outputs != s.job.outputs ==> !IsDone(s.job.status) && AllStored(s.media, s'.job.outputs))
  }

  /** The artifacts have rows. */
  predicate AllStored(media: VideoGate.Media, ids: seq<int>) {
    forall i :: 0 <= i < |ids| ==> ids[i] in media.artifacts
  }

  ghost predicate Captures(s: Store, s': Store) {
    s.hold.Reserved? && s' == s.(hold := Captured(Charge(s.job))) && Charge(s.job) > 0 && Handed(s)
  }

  ghost predicate Releases(s: Store, s': Store) {
    s.hold.Reserved? && s' == s.(hold := Released)
  }

  ghost predicate Submits(s: Store, s': Store) {
    && NoneActive(s.tasks) && s.job.status == DispatchingProvider
    && s' == s.(submits := s.submits + [|s.tasks| + 1])
  }

  ghost predicate AddsTask(s: Store, s': Store) {
    var n := |s.tasks|;
    && NoneActive(s.tasks) && n + 1 in s.submits && !IsDone(s.job.status)
    && |s'.tasks| == n + 1 && s'.tasks[n].key == n + 1
    && s' == s.(tasks := s.tasks + [s'.tasks[n]])
  }

  ghost predicate UpdatesTask(s: Store, s': Store) {
    var n := |s.tasks|;
    && n > 0 && |s'.tasks| == n
    && s' == s.(tasks := s.tasks[n - 1 := s'.tasks[n - 1]])
    && s'.tasks[n - 1].key == s.tasks[n - 1].key
    && s'.tasks[n - 1].asyncProvider == s.tasks[n - 1].asyncProvider
    && s'.tasks[n - 1].provider == s.tasks[n - 1].provider && s'.tasks[n - 1].model == s.tasks[n - 1].model
  }

  /** The message that a retry would edit is the placeholder, as long as it is
      the only message, or else the first message of the result. */
  predicate RowIdOk(c: Config, s: Store, r: Row) {
    c.control && r.body.TextBody? ==>
      if r.messageId == 0 then s.job.hasPlaceholder ==> Lead(s.chat) == 1
      else
        && r.messageId <= |s.chat|
        && (r.messageId == Lead(s.chat) + 1 || (r.messageId == Lead(s.chat) == |s.chat| == 1))
  }

  /** The text that a job without outputs delivers. */
  const NO_RESULT: string := "(no result produced)"

  ghost predicate CreatesRow(c: Config, s: Store, s': Store) {
    && s.row.None? && s'.row.Some? && s' == s.(row := s'.row)
    && s'.row.value.status.RowPending? && s'.row.value.attemptNo == 1 && s'.row.value.attached.None?
    && RowIdOk(c, s, s'.row.value)
    && (s.job.status == Delivering && s.job.outputs == [] ==> s'.row.value.body == TextBody(NO_RESULT))
  }

  /** The object that delivery picks for the first output of the job. */
  predicate MayAttach(c: Config, s: Store, attached: Option<VideoGate.Blob>) {
    && attached.Some? && IsDone(s.job.status) && s.job.outputs != [] && s.job.outputs[0] in s.media.artifacts
    && var id := s.job.outputs[0];
    && var chosen := VideoGate.ChosenFor(s.media.artifacts[id], s.media.VariantsOf(id), c.deliveryPolicy);
    && chosen.Deliver? && chosen.blob == attached.value
  }

  ghost predicate UpdatesRow(c: Config, s: Store, s': Store) {
    && s.row.Some? && s'.row.Some? && s' == s.(row := s'.row)
    && s'.row.value.body == s.row.value.body
    && RowIdOk(c, s, s'.row.value)
    && (IsSent(s'.row) ==> Shown(s.chat) == |Payload(s.row.value.body)|)
    && (s'.row.value.attached == s.row.value.attached || MayAttach(c, s, s'.row.value.attached))
    && (IsSent(s.row) && !IsSent(s'.row) ==> !s.hold.Captured? && s.job.costCaptured == 0 && s.job.status != Succeeded)
  }

  /** Number of leading bubbles that are an unedited placeholder. */
  function Lead(chat: seq<Bubble>): nat {
    if |chat| > 0 && chat[0].text.None? then 1 else 0
  }

  /** Number of messages of the result that the user can see. */
  function Shown(chat: seq<Bubble>): nat {
    |chat| - Lead(chat)
  }

  /** What the user sees of the result, in order. */
  function Visible(chat: seq<Bubble>): seq<Option<string>> {
    seq(Shown(chat), i requires 0 <= i < Shown(chat) => chat[Lead(chat) + i].text)
  }

  predicate HasRid(chat: seq<Bubble>, rid: int) {
    exists i :: 0 <= i < |chat| && chat[i].rid == Some(rid)
  }

  /** VK drops a message whose random id it has seen before. */
  function Post(chat: seq<Bubble>, rid: int, text: string): seq<Bubble> {
    if HasRid(chat, rid) then chat else chat + [Bubble(Some(rid), Some(text))]
  }

  /** Sends chunk i; every earlier chunk is visible already. */
  ghost predicate SendsChunk(c: Config, s: Store, s': Store, i: nat) {
    && s.row.Some? && s' == s.(chat := s'.chat)
    && var p := Payload(s.row.value.body);
    && i < |p| && i <= Shown(s.chat)
    && (i == 0 && s.row.value.body.TextBody? && c.control ==> s.row.value.messageId == 0)
    && (s.row.value.body.MediaBody? ==> s.row.value.attached.Some?)
    && s'.chat == Post(s.chat, c.rid(i), p[i])
  }

  ghost predicate SendsSomeChunk(c: Config, s: Store, s': Store) {
    exists i: nat :: SendsChunk(c, s, s', i)
  }

  /** Replaces the text of the message that the row names by the first chunk. */
  ghost predicate EditsFirst(c: Config, s: Store, s': Store) {
    && s.row.Some? && s.row.value.body.TextBody? && c.control
    && var k := s.row.value.messageId - 1;
    && 0 <= k < |s.chat|
    && s' == s.(chat := s.chat[k := s.chat[k].(text := Some(Payload(s.row.value.body)[0]))])
  }

  ghost predicate Publishes(s: Store, s': Store) {
    && s' == s.(msgs := s'.msgs, requeues := s'.requeues)
    && s.msgs <= s'.msgs && |s'.msgs| == |s.msgs| + 1
    && s.requeues <= s'.requeues <= s.requeues + 1
  }

  ghost predicate Acks(s: Store, s': Store) {
    && s' == s.(msgs := s'.msgs)
    && s'.msgs <= s.msgs && |s'.msgs| + 1 == |s.msgs|
  }

  ghost predicate DeadLetters(s: Store, s': Store) {
    s' == s.(deadLetters := s.deadLetters + 1)
  }

  ghost predicate StartsSend(s: Store, s': Store) {
    s' == s.(sends := s.sends + 1)
  }

  /** Artifacts, variants and probes; the delivery worker only reads them. */
  ghost predicate ChangesMedia(s: Store, s': Store) {
    s' == s.(media := s'.media) && !IsDone(s.job.status) && VideoGate.MediaNext(s.media, s'.media)
  }

  /** One effect of a worker. */
  ghost predicate Next(c: Config, s: Store, s': Store) {
    || SetsStatus(c, s, s')
    || WritesJob(c, s, s')
    || Captures(s, s')
    || Releases(s, s')
    || Submits(s, s')
    || AddsTask(s, s')
    || UpdatesTask(s, s')
    || CreatesRow(c, s, s')
    || UpdatesRow(c, s, s')
    || SendsSomeChunk(c, s, s')
    || EditsFirst(c, s, s')
    || Publishes(s, s')
    || Acks(s, s')
    || DeadLetters(s, s')
    || StartsSend(s, s')
    || ChangesMedia(s, s')
  }

  /** A freshly queued job: one generation message, nothing done yet. */
  ghost predicate Init(s: Store) {
    && s.job.status == Queued && s.job.costCaptured == 0 && s.job.outputs == []
    && s.tasks == [] && s.submits == [] && s.row.None? && s.media == VideoGate.NoMedia
    && (s.hold.NoHold? || (s.hold.Reserved? && s.job.costReserved > 0))
    && s.chat == (if s.job.hasPlaceholder then [Bubble(None, None)] else [])
    && s.msgs == multiset{Msg(Generation, 0)}
    && s.deadLetters == s.requeues == s.sends == 0
  }

  ghost predicate StepAt(c: Config, run: seq<Store>, i: int)
    requires 0 <= i < |run| - 1
  {
    Next(c, run[i], run[i + 1])
  }

  /** A run: every store a job goes through, one effect at a time. */
  ghost predicate IsRun(c: Config, run: seq<Store>) {
    && |run| > 0 && Init(run[0])
    && (forall i {:trigger StepAt(c, run, i)} :: 0 <= i < |run| - 1 ==> StepAt(c, run, i))
  }

  lemma RunExtends(c: Config, run: seq<Store>, s: Store)
    requires IsRun(c, run) && Next(c, run[|run| - 1], s)
    ensures IsRun(c, run + [s])
  {
    var r := run + [s];
    forall i | 0 <= i < |r| - 1 ensures StepAt(c, r, i) {
      if i < |run| - 1 {
        assert StepAt(c, run, i);
      }
    }
  }

  // ---------------------------------------------------------------- invariants

  /** Money, in terms of the job, its hold and whether its delivery row is sent. */
  ghost predicate MoneyInv(c: Config, job: Job, hold: Hold, sent: bool) {
    && (hold.Reserved? ==> job.costReserved > 0)
    && (hold.Captured? ==>
          && hold.amount == Charge(job) > 0
          && (job.status == Delivering || job.status == Succeeded)
          && (job.miniApp || sent))
    && (job.costCaptured != 0 ==>
          && job.costCaptured == Charge(job) > 0
          && (job.status == Delivering || job.status == Succeeded)
          && (job.miniApp || sent)
          && (hold.Captured? || (c.biller.Shipped? && hold.Released?)))
    && (job.status == Succeeded ==> (job.miniApp || sent) && (Charge(job) <= 0 || job.costCaptured == Charge(job)))
    && (job.status == FailedTerminal ==> !hold.Reserved? && !hold.Captured? && job.costCaptured == 0)
  }

  /** Tasks are numbered from 1, all but the last are failed or cancelled, and
      every number was sent to a provider. */
  ghost predicate TaskInv(tasks: seq<Task>, submits: seq<nat>) {
    && (forall i :: 0 <= i < |tasks| ==> tasks[i].key == i + 1)
    && (forall i :: 0 <= i < |tasks| - 1 ==> !IsActive(tasks[i]))
    && (forall i :: 0 <= i < |tasks| ==> tasks[i].key in submits)
    && (forall k :: k in submits ==> 1 <= k <= |tasks| + 1)
  }

  /** The conversation holds the first chunks of the payload, in order, once each. */
  ghost predicate ChatShape(c: Config, placeholder: bool, p: seq<string>, chat: seq<Bubble>) {
    && Shown(chat) <= |p|
    && (Lead(chat) == 1 ==> placeholder)
    && (placeholder ==> |chat| >= 1)
    && (forall j :: Lead(chat) <= j < |chat| ==> chat[j].text == Some(p[j - Lead(chat)]))
    && (forall j :: 0 <= j < |chat| ==>
          chat[j].rid == if placeholder && j == 0 then None else Some(c.rid(j - Lead(chat))))
  }

  ghost predicate ChatInv(c: Config, s: Store) {
    if s.row.None? then s.chat == if s.job.hasPlaceholder then [Bubble(None, None)] else []
    else
      var r := s.row.value;
      && ChatShape(c, s.job.hasPlaceholder, Payload(r.body), s.chat)
      && RowIdOk(c, s, r)
      && (!(c.control && r.body.TextBody?) && s.job.hasPlaceholder ==> Lead(s.chat) == 1)
      && (r.status.RowSent? ==> Shown(s.chat) == |Payload(r.body)|)
  }

  ghost predicate Inv(c: Config, s: Store) {
    && MoneyInv(c, s.job, s.hold, IsSent(s.row))
    && TaskInv(s.tasks, s.submits)
    && ChatInv(c, s)
    && AllStored(s.media, s.job.outputs)
  }

  lemma InitHasInv(c: Config, s: Store)
    requires Init(s)
    ensures Inv(c, s)
  {
  }

  lemma SetsStatusKeepsMoney(c: Config, s: Store, s': Store)
    requires MoneyInv(c, s.job, s.hold, IsSent(s.row)) && SetsStatus(c, s, s')
    ensures MoneyInv(c, s'.job, s'.hold, IsSent(s'.row))
  {
    match s'.job.status {
      case Succeeded =>
      case FailedTerminal =>
      case _ =>
    }
  }

  lemma NextKeepsMoney(c: Config, s: Store, s': Store)
    requires MoneyInv(c, s.job, s.hold, IsSent(s.row)) && Next(c, s, s')
    ensures MoneyInv(c, s'.job, s'.hold, IsSent(s'.row))
  {
    if SetsStatus(c, s, s') {
      SetsStatusKeepsMoney(c, s, s');
    } else if WritesJob(c, s, s') {
    } else if Captures(s, s') {
    } else if Releases(s, s') {
    } else if UpdatesRow(c, s, s') {
    } else {
      assert s'.job == s.job && s'.hold == s.hold && IsSent(s'.row) == IsSent(s.row);
    }
  }

  lemma SubmitsKeepsTasks(s: Store, s': Store)
    requires TaskInv(s.tasks, s.submits) && Submits(s, s')
    ensures TaskInv(s'.tasks, s'.submits)
  {
  }

  lemma AddsTaskKeepsTasks(s: Store, s': Store)
    requires TaskInv(s.tasks, s.submits) && AddsTask(s, s')
    ensures TaskInv(s'.tasks, s'.submits)
  {
  }

  lemma UpdatesTaskKeepsTasks(s: Store, s': Store)
    requires TaskInv(s.tasks, s.submits) && UpdatesTask(s, s')
    ensures TaskInv(s'.tasks, s'.submits)
  {
  }

  lemma NextKeepsTasks(c: Config, s: Store, s': Store)
    requires TaskInv(s.tasks, s.submits) && Next(c, s, s')
    ensures TaskInv(s'.tasks, s'.submits)
  {
    if Submits(s, s') {
      SubmitsKeepsTasks(s, s');
    } else if AddsTask(s, s') {
      AddsTaskKeepsTasks(s, s');
    } else if UpdatesTask(s, s') {
      UpdatesTaskKeepsTasks(s, s');
    } else {
      assert s'.tasks == s.tasks && s'.submits == s.submits;
    }
  }

  lemma VisibleChunkHasRid(c: Config, placeholder: bool, p: seq<string>, chat: seq<Bubble>, i: nat)
    requires ChatShape(c, placeholder, p, chat) && i < Shown(chat)
    requires i == 0 && placeholder ==> Lead(chat) == 1
    ensures HasRid(chat, c.rid(i))
  {
    assert chat[Lead(chat) + i].rid == Some(c.rid(i));
  }

  lemma NextChunkHasNewRid(c: Config, placeholder: bool, p: seq<string>, chat: seq<Bubble>)
    requires WellConfigured(c) && ChatShape(c, placeholder, p, chat)
    ensures !HasRid(chat, c.rid(Shown(chat)))
  {
    forall j | 0 <= j < |chat| ensures chat[j].rid != Some(c.rid(Shown(chat))) {
      if !(placeholder && j == 0) {
        assert chat[j].rid == Some(c.rid(j - Lead(chat)));
      }
    }
  }

  lemma AppendKeepsShape(c: Config, placeholder: bool, p: seq<string>, chat: seq<Bubble>)
    requires ChatShape(c, placeholder, p, chat) && Shown(chat) < |p|
    ensures var chat' := chat + [Bubble(Some(c.rid(Shown(chat))), Some(p[Shown(chat)]))];
            ChatShape(c, placeholder, p, chat') && Lead(chat') == Lead(chat)
  {
  }

  /** A chunk that is already visible is dropped; the next one is appended. */
  lemma PostKeepsShape(c: Config, placeholder: bool, p: seq<string>, chat: seq<Bubble>, i: nat)
    requires WellConfigured(c) && ChatShape(c, placeholder, p, chat)
    requires i < |p| && i <= Shown(chat)
    requires i == 0 && placeholder ==> Lead(chat) == 1
    ensures var chat' := Post(chat, c.rid(i), p[i]);
            && ChatShape(c, placeholder, p, chat')
            && Lead(chat') == Lead(chat)
            && Shown(chat') == if i < Shown(chat) then Shown(chat) else i + 1
  {
    if i < Shown(chat) {
      VisibleChunkHasRid(c, placeholder, p, chat, i);
    } else {
      NextChunkHasNewRid(c, placeholder, p, chat);
      AppendKeepsShape(c, placeholder, p, chat);
    }
  }

  lemma SendsChunkKeepsChat(c: Config, s: Store, s': Store, i: nat)
    requires WellConfigured(c) && ChatInv(c, s) && SendsChunk(c, s, s', i)
    ensures ChatInv(c, s') && Lead(s'.chat) == Lead(s.chat)
    ensures Shown(s'.chat) == if i < Shown(s.chat) then Shown(s.chat) else i + 1
  {
    PostKeepsShape(c, s.job.hasPlaceholder, Payload(s.row.value.body), s.chat, i);
  }

  lemma EditsFirstKeepsChat(c: Config, s: Store, s': Store)
    requires ChatInv(c, s) && EditsFirst(c, s, s')
    ensures ChatInv(c, s')
    ensures Shown(s'.chat) == if Shown(s.chat) == 0 then 1 else Shown(s.chat)
  {
  }

  lemma CreatesRowKeepsChat(c: Config, s: Store, s': Store)
    requires ChatInv(c, s) && CreatesRow(c, s, s')
    ensures ChatInv(c, s')
  {
  }

  lemma UpdatesRowKeepsChat(c: Config, s: Store, s': Store)
    requires ChatInv(c, s) && UpdatesRow(c, s, s')
    ensures ChatInv(c, s')
  {
  }

  lemma NextKeepsChat(c: Config, s: Store, s': Store)
    requires WellConfigured(c) && ChatInv(c, s) && Next(c, s, s')
    ensures ChatInv(c, s')
  {
    if SendsSomeChunk(c, s, s') {
      var i: nat :| SendsChunk(c, s, s', i);
      SendsChunkKeepsChat(c, s, s', i);
    } else if EditsFirst(c, s, s') {
      EditsFirstKeepsChat(c, s, s');
    } else if CreatesRow(c, s, s') {
      CreatesRowKeepsChat(c, s, s');
    } else if UpdatesRow(c, s, s') {
      UpdatesRowKeepsChat(c, s, s');
    } else {
      assert s'.row == s.row && s'.chat == s.chat && s'.job.hasPlaceholder == s.job.hasPlaceholder;
    }
  }

  lemma MediaNextKeepsRows(m: VideoGate.Media, m': VideoGate.Media, id: int)
    requires VideoGate.MediaNext(m, m') && id in m.artifacts
    ensures id in m'.artifacts
  {
  }

  lemma NextKeepsStored(c: Config, s: Store, s': Store)
    requires AllStored(s.media, s.job.outputs) && Next(c, s, s')
    ensures AllStored(s'.media, s'.job.outputs)
  {
    if ChangesMedia(s, s') {
      forall i | 0 <= i < |s.job.outputs| ensures s.job.outputs[i] in s'.media.artifacts {
        MediaNextKeepsRows(s.media, s'.media, s.job.outputs[i]);
      }
    } else if WritesJob(c, s, s') {
    } else {
      assert s'.media == s.media && s'.job.outputs == s.job.outputs;
    }
  }

  lemma NextKeepsInv(c: Config, s: Store, s': Store)
    requires WellConfigured(c) && Inv(c, s) && Next(c, s, s')
    ensures Inv(c, s')
  {
    NextKeepsMoney(c, s, s');
    NextKeepsTasks(c, s, s');
    NextKeepsChat(c, s, s');
    NextKeepsStored(c, s, s');
  }

  lemma {:induction false} RunKeepsInv(c: Config, run: seq<Store>, i: nat)
    requires WellConfigured(c) && IsRun(c, run) && i < |run|
    ensures Inv(c, run[i])
  {
    if i == 0 {
      InitHasInv(c, run[0]);
    } else {
      RunKeepsInv(c, run, i - 1);
      assert StepAt(c, run, i - 1);
      NextKeepsInv(c, run[i - 1], run[i]);
    }
  }
}
