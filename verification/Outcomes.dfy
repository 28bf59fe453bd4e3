/**
  What a generation or poll handler makes of a store when stores, streams, moderation
  and context calls succeed, answer by answer: the new store as a function of the old
  one and of what providers, downloads, moderation and the video gate answered.
 */
module Outcomes {
  import opened Domain
  import opened MediaContracts
  import opened Protocol
  import opened Turns
  import VideoGate

  /** A provider's answer to a poll. */
  datatype PollAnswer =
    | PollError(class_: ErrorClass)
    | PollResult(status: TaskStatus, resultClass: ErrorClass, urls: nat)

  /** A provider's answer to a submit. */
  datatype SubmitAnswer =
    | SubmitError(class_: ErrorClass)
    | Submitted(provider: ProviderName, model: string, asyncProvider: bool, status: TaskStatus, resultClass: ErrorClass)

  /** How a provider request can come about. */
  datatype RequestAnswer = RequestBuilt | RequestImpossible(class_: ErrorClass)

  /** What the world answers to one handler: whether the request can be built and routed,
      the provider's answers, how scanning or fetching output i fails, moderation, and whether
      prober, transcoder, object stores and VK do everything they are asked. */
  datatype World = World(
    request: RequestAnswer, routed: bool, submit: SubmitAnswer, poll: PollAnswer,
    fetch: seq<Option<ErrorClass>>, blocked: bool, willing: bool)

  datatype ProbeOutcome = ProbeOk | ProbeRejected | ProbeError

  // ----------------------------------------------------------------- failures

  /** The error classes that are worth another attempt. */
  predicate IsTransient(class_: ErrorClass) {
    || class_ == RateLimited || class_ == Timeout || class_ == Overloaded
    || class_ == InternalError || class_ == OutputDownloadFailed
  }

  predicate IsPicture(job: Job) {
    job.modality == ImageModality || job.modality == VideoModality
  }

  function Freed(h: Hold): Hold {
    if h == Reserved then Released else h
  }

  function InStatus(s: Store, status: JobStatus): Store {
    s.(job := s.job.(status := status))
  }

  function Sending(s: Store, m: Msg): Store {
    s.(msgs := s.msgs + multiset{m})
  }

  /** The larger of the number of tasks and the number of the attempt just made. */
  function Attempts(s: Store, m: Msg): nat {
    if m.attempt + 1 > |s.tasks| then m.attempt + 1 else |s.tasks|
  }

  /** A transient failure within the budget is retried. Any other ends the job: its hold is
      freed, an exhausted message is kept, and the owner of a picture is told. */
  function AfterFailure(c: Config, s: Store, m: Msg, class_: ErrorClass): Store {
    if IsTransient(class_) && Attempts(s, m) < c.maxAttempts then
      Sending(InStatus(s, Queued), Msg(Generation, m.attempt + 1)).(requeues := s.requeues + 1)
    else
      var t := InStatus(s, FailedTerminal).(
        hold := Freed(s.hold), deadLetters := s.deadLetters + if IsTransient(class_) then 1 else 0);
      if s.job.hasPeer && IsPicture(s.job) then Sending(t, Msg(Delivery, 0)) else t
  }

  /** Which failures are retried, within the budget. */
  function StatusFor(class_: ErrorClass, within: bool): JobStatus {
    match class_
    case RateLimited => if within then Queued else FailedTerminal
    case Timeout => if within then Queued else FailedTerminal
    case Overloaded => if within then Queued else FailedTerminal
    case InternalError => if within then Queued else FailedTerminal
    case OutputDownloadFailed => if within then Queued else FailedTerminal
    case _ => FailedTerminal
  }

  lemma StatusAfterFailure(c: Config, s: Store, m: Msg, class_: ErrorClass)
    ensures AfterFailure(c, s, m, class_).job.status == StatusFor(class_, Max(|s.tasks|, m.attempt + 1) < c.maxAttempts)
  {
  }

  lemma RetriedFailure(c: Config, s: Store, m: Msg, class_: ErrorClass)
    requires IsRetryable(class_) && Attempts(s, m) < c.maxAttempts
    ensures AfterFailure(c, s, m, class_)
         == Sending(InStatus(s, Queued), Msg(Generation, m.attempt + 1)).(requeues := s.requeues + 1)
  {
  }

  lemma LastStatusCounts(s: Store, first: JobStatus, last: JobStatus)
    ensures InStatus(InStatus(s, first), last) == InStatus(s, last)
  {
  }

  lemma StatusIsOverwritten(c: Config, s: Store, m: Msg, class_: ErrorClass, status: JobStatus)
    ensures AfterFailure(c, InStatus(s, status), m, class_) == AfterFailure(c, s, m, class_)
  {
    LastStatusCounts(s, status, Queued);
    LastStatusCounts(s, status, FailedTerminal);
  }

  lemma FailureSettles(c: Config, s: Store, m: Msg, class_: ErrorClass)
    ensures Settled(c, s, m, AfterFailure(c, s, m, class_)) && Untouched(s, AfterFailure(c, s, m, class_))
  {
  }

  function AfterMediaFailure(s: Store): Store {
    InStatus(s, FailedTerminal).(hold := Freed(s.hold))
  }

  function AfterBlocked(s: Store): Store {
    InStatus(s, Rejected).(hold := Freed(s.hold))
  }

  function AfterHandOver(s: Store): Store {
    Sending(InStatus(s, ResultReady), Msg(Delivery, 0))
  }

  /** The task is still running: the next poll is published. */
  function AfterPolling(s: Store, m: Msg, status: JobStatus): Store {
    Sending(InStatus(s, status), Msg(Poll, m.attempt + 1))
  }

  // ------------------------------------------------------------------ success

  /** How handling output i fails; an error without a class is a failed download. */
  function FetchFailure(w: World, i: nat): Option<ErrorClass> {
    if i >= |w.fetch| || w.fetch[i].None? then None
    else if w.fetch[i].value == Unclassified then Some(OutputDownloadFailed)
    else w.fetch[i]
  }

  /** The first failure among the first n outputs. */
  function FirstFailure(w: World, n: nat): Option<ErrorClass> {
    if n == 0 then None
    else if FirstFailure(w, n - 1).Some? then FirstFailure(w, n - 1)
    else FetchFailure(w, n - 1)
  }

  /** What lets a probed output through: its contract, a transcoder that may work on it, or
      a policy that asks for neither. */
  predicate Clearable(g: VideoGate.GateConfig, contract: Option<Contract>, m: VideoGate.Media, id: int) {
    && id in m.artifacts && m.artifacts[id].kind == VideoGate.VideoKind && id in m.probed
    && match contract
       case None =>
         || (g.transcoder && g.transcodePolicy != VideoGate.NeverTranscode)
         || g.rawPolicy == VideoGate.AlwaysDevOnly
       case Some(k) =>
         || (g.transcoder && g.transcodePolicy != VideoGate.NeverTranscode && (k.transcodeAllowed || k.requiresTranscode))
         || (g.rawPolicy != VideoGate.Never && MeetsContract(k, m.probed[id], VideoGate.OriginalSize(m.artifacts[id])))
  }

  /** Why the gate refuses the outputs of a job, when everybody does what they are asked. */
  predicate GateRefuses(c: Config, s: Store) {
    || s.job.outputs == []
    || (!c.gate.prober && c.gate.requireProbe)
    || (c.gate.prober && !c.gate.objectStore)
    || (c.gate.prober && exists id :: id in s.job.outputs && !Clearable(c.gate, ContractOf(c, s.tasks), s.media, id))
  }

  /** The outputs of s are stored; what the gate said and what moderation says decide. */
  predicate GateOutcome(c: Config, s: Store, w: World, gate: ProbeOutcome, s': Store) {
    var t := s.(media := s'.media);
    match gate
    case ProbeOk => GateOpen(c, s') && s' == if w.blocked then AfterBlocked(t) else AfterHandOver(t)
    case ProbeRejected =>
      && s.job.modality == VideoModality && s' == AfterMediaFailure(t)
      && (w.willing ==> GateRefuses(c, s'))
    case ProbeError => false
  }

  predicate SuccessOutcome(c: Config, s: Store, m: Msg, urls: nat, w: World, gate: ProbeOutcome, s': Store) {
    var n := if urls > |s.job.outputs| then urls else |s.job.outputs|;
    var failure := FirstFailure(w, n);
    if failure.Some? then s' == AfterFailure(c, s.(media := s'.media), m, failure.value)
    else
      && s.job.outputs <= s'.job.outputs
      && GateOutcome(c, s.(job := s.job.(outputs := s'.job.outputs)), w, gate, s')
  }

  // ------------------------------------------------------------------ results

  /** The last task has a new status and result. */
  function WithResult(s: Store, status: TaskStatus, class_: ErrorClass): Store
    requires s.tasks != []
  {
    var n := |s.tasks| - 1;
    s.(tasks := s.tasks[n := s.tasks[n].(status := status, class_ := class_)])
  }

  /** What the provider's status makes of the job. */
  predicate ResultOutcome(c: Config, s: Store, m: Msg, status: TaskStatus, class_: ErrorClass, urls: nat,
                          w: World, gate: ProbeOutcome, s': Store)
    requires s.tasks != []
  {
    var t := WithResult(s, status, class_);
    match status
    case TaskPending => s' == AfterPolling(t, m, ProviderPending)
    case TaskProcessing => s' == AfterPolling(t, m, ProviderProcessing)
    case TaskFailed => s' == AfterFailure(c, t, m, class_)
    case TaskCancelled => s' == InStatus(t, Cancelled)
    case TaskSucceeded => SuccessOutcome(c, t, m, urls, w, gate, s')
  }

  /** A running task of a provider that works in the background. */
  predicate RunsInBackground(job: Job, t: Task) {
    (t.status == TaskPending || t.status == TaskProcessing) && IsPicture(job) && t.asyncProvider
  }

  /** A failed poll of a task in the background is repeated, if the error may pass. */
  function AfterFailedPoll(c: Config, s: Store, m: Msg, t: Task, class_: ErrorClass): Store {
    if RunsInBackground(s.job, t) && (IsTransient(class_) || class_ == TaskNotFound) && m.attempt < 180
    then AfterPolling(s, m, if t.status == TaskProcessing then ProviderProcessing else ProviderPending)
    else AfterFailure(c, s, m, class_)
  }

  /** A stored result is used without asking; otherwise the provider's answer decides. */
  predicate PollOutcome(c: Config, s: Store, m: Msg, w: World, gate: ProbeOutcome, s': Store)
    requires s.tasks != []
  {
    var t := s.tasks[|s.tasks| - 1];
    if t.status == TaskFailed || t.status == TaskCancelled || (t.status == TaskSucceeded && s.job.outputs != []) then
      ResultOutcome(c, s, m, t.status, t.class_, 0, w, gate, s')
    else
      match w.poll
      case PollResult(status, class_, urls) => ResultOutcome(c, s, m, status, class_, urls, w, gate, s')
      case PollError(class_) => s' == AfterFailedPoll(c, s, m, t, class_)
  }

  // ------------------------------------------------------------------ handlers

  function WithTask(s: Store, t: Task): Store {
    InStatus(s.(tasks := s.tasks + [t]), ProviderSubmitted)
  }

  /** An accepted task is recorded; its first poll is left to the poll stream, or made. */
  predicate FollowUpOutcome(c: Config, s: Store, m: Msg, t: Task, w: World, gate: ProbeOutcome, s': Store) {
    var r := WithTask(s, t);
    if RunsInBackground(s.job, t) then s' == Sending(r, Msg(Poll, 0))
    else PollOutcome(c, r, m, w, gate, s')
  }

  /** A new attempt: its number is the one after the last task. */
  predicate LaunchOutcome(c: Config, s: Store, m: Msg, w: World, gate: ProbeOutcome, s': Store) {
    if w.request.RequestImpossible? then s' == AfterFailure(c, s, m, w.request.class_)
    else if !w.routed then s' == AfterFailure(c, s, m, UnsupportedCapability)
    else
      var n := |s.tasks| + 1;
      var t := s.(submits := s.submits + [n]);
      match w.submit
      case SubmitError(class_) => s' == AfterFailure(c, t, m, class_)
      case Submitted(provider, model, asyncProvider, status, class_) =>
        FollowUpOutcome(c, t, m, Task(n, provider, model, asyncProvider, status, class_), w, gate, s')
  }

  /** The statuses in which a job is none of generation's and polling's business. */
  predicate IsOver(status: JobStatus) {
    || status == ResultReady || status == Delivering || status == Succeeded || status == FailedTerminal
    || status == Cancelled || status == Refunded || status == Rejected || status == Expired
  }

  predicate InFlight(tasks: seq<Task>) {
    |tasks| > 0 && tasks[|tasks| - 1].status != TaskFailed && tasks[|tasks| - 1].status != TaskCancelled
  }

  /** A task that is pending, processing or succeeded is polled, not submitted again. */
  predicate GenerationOutcome(c: Config, s: Store, m: Msg, w: World, gate: ProbeOutcome, s': Store) {
    if IsOver(s.job.status) then s' == s
    else if InFlight(s.tasks) then
      PollOutcome(c, if s.job.status == DispatchingProvider then InStatus(s, ProviderSubmitted) else s, m, w, gate, s')
    else LaunchOutcome(c, InStatus(s, DispatchingProvider), m, w, gate, s')
  }

  /** A poll message of a job with a running task asks; one whose task failed or was
      cancelled uses that; a succeeded task was taken care of by whoever saw it. */
  predicate PollMessageOutcome(c: Config, s: Store, m: Msg, w: World, gate: ProbeOutcome, s': Store) {
    var n := |s.tasks|;
    if IsOver(s.job.status) || n == 0 || s.tasks[n - 1].status == TaskSucceeded then s' == s
    else PollOutcome(c, s, m, w, gate, s')
  }

  // --------------------------------------- outcomes leave what turns are made of

  lemma GateSettles(c: Config, s: Store, m: Msg, w: World, gate: ProbeOutcome, s': Store)
    requires GateOutcome(c, s, w, gate, s')
    ensures Settled(c, s, m, s') && Untouched(s, s')
  {
  }

  lemma SuccessSettles(c: Config, s: Store, m: Msg, urls: nat, w: World, gate: ProbeOutcome, s': Store)
    requires SuccessOutcome(c, s, m, urls, w, gate, s')
    ensures Settled(c, s, m, s') && Untouched(s, s')
  {
    var failure := FirstFailure(w, if urls > |s.job.outputs| then urls else |s.job.outputs|);
    if failure.Some? {
      FailureSettles(c, s.(media := s'.media), m, failure.value);
    } else {
      GateSettles(c, s.(job := s.job.(outputs := s'.job.outputs)), m, w, gate, s');
    }
  }

  lemma ResultSettles(c: Config, s: Store, m: Msg, status: TaskStatus, class_: ErrorClass, urls: nat,
                      w: World, gate: ProbeOutcome, s': Store)
    requires s.tasks != [] && ResultOutcome(c, s, m, status, class_, urls, w, gate, s')
    ensures Settled(c, s, m, s') && Untouched(s, s')
  {
    var t := WithResult(s, status, class_);
    match status {
      case TaskFailed => FailureSettles(c, t, m, class_);
      case TaskSucceeded => SuccessSettles(c, t, m, urls, w, gate, s');
      case _ =>
    }
  }

  lemma FailedPollSettles(c: Config, s: Store, m: Msg, class_: ErrorClass)
    requires s.tasks != []
    ensures var s' := AfterFailedPoll(c, s, m, s.tasks[|s.tasks| - 1], class_); Settled(c, s, m, s') && Untouched(s, s')
  {
    FailureSettles(c, s, m, class_);
  }

  lemma PollSettles(c: Config, s: Store, m: Msg, w: World, gate: ProbeOutcome, s': Store)
    requires s.tasks != [] && PollOutcome(c, s, m, w, gate, s')
    ensures Settled(c, s, m, s') && Untouched(s, s')
  {
    var t := s.tasks[|s.tasks| - 1];
    if t.status == TaskFailed || t.status == TaskCancelled || (t.status == TaskSucceeded && s.job.outputs != []) {
      ResultSettles(c, s, m, t.status, t.class_, 0, w, gate, s');
    } else if w.poll.PollResult? {
      ResultSettles(c, s, m, w.poll.status, w.poll.resultClass, w.poll.urls, w, gate, s');
    } else {
      FailedPollSettles(c, s, m, w.poll.class_);
    }
  }

  lemma FollowUpAdvances(c: Config, s: Store, m: Msg, t: Task, w: World, gate: ProbeOutcome, s': Store)
    requires FollowUpOutcome(c, s, m, t, w, gate, s')
    ensures Advanced(c, s, m, s')
  {
    if !RunsInBackground(s.job, t) {
      PollSettles(c, WithTask(s, t), m, w, gate, s');
    }
  }

  lemma LaunchAdvances(c: Config, s: Store, m: Msg, w: World, gate: ProbeOutcome, s': Store)
    requires LaunchOutcome(c, s, m, w, gate, s')
    ensures Advanced(c, s, m, s')
  {
    var t := s.(submits := s.submits + [|s.tasks| + 1]);
    if w.request.RequestImpossible? {
      FailureSettles(c, s, m, w.request.class_);
    } else if !w.routed {
      FailureSettles(c, s, m, UnsupportedCapability);
    } else if w.submit.SubmitError? {
      FailureSettles(c, t, m, w.submit.class_);
    } else {
      var a := w.submit;
      FollowUpAdvances(c, t, m, Task(|s.tasks| + 1, a.provider, a.model, a.asyncProvider, a.status, a.resultClass), w, gate, s');
    }
  }

  lemma SettledAdvances(c: Config, s: Store, status: JobStatus, m: Msg, s': Store)
    requires Settled(c, InStatus(s, status), m, s') && Untouched(InStatus(s, status), s')
    ensures Advanced(c, s, m, s')
  {
  }

  lemma AdvancedFrom(c: Config, s: Store, status: JobStatus, m: Msg, s': Store)
    requires Advanced(c, InStatus(s, status), m, s')
    ensures Advanced(c, s, m, s')
  {
  }

  lemma GenerationAdvances(c: Config, s: Store, m: Msg, w: World, gate: ProbeOutcome, s': Store)
    requires GenerationOutcome(c, s, m, w, gate, s') && !IsOver(s.job.status)
    ensures Advanced(c, s, m, s')
  {
    if InFlight(s.tasks) {
      var status := if s.job.status == DispatchingProvider then ProviderSubmitted else s.job.status;
      PollSettles(c, InStatus(s, status), m, w, gate, s');
      SettledAdvances(c, s, status, m, s');
    } else {
      LaunchAdvances(c, InStatus(s, DispatchingProvider), m, w, gate, s');
      AdvancedFrom(c, s, DispatchingProvider, m, s');
    }
  }
}
