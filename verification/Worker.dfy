/**
  The generation, poll and delivery workers and the engine that feeds them, effect by
  effect. An effect goes through `Attempt`, which may apply it, refuse it, or apply it
  and lose the answer; `Commit` is an attempt on a store or a stream, and `Ack` takes a
  message off its stream in the same way. Calls into code that is not modelled answer
  arbitrarily. `log` remembers every store value, so `Valid` says that the handlers
  only ever take `Next` steps.
 */
module Worker {
  import opened Domain
  import opened MediaContracts
  import opened Outcomes
  import opened Protocol
  import opened Turns
  import opened VideoGate

  /** What can happen to a call into a store or a stream. */
  datatype Fault = Fine | Refused | AnswerLost

  /** Whether a finished task's stored result can be used without polling again.
      Output URLs are never stored, so a success needs outputs on the job. */
  predicate HasDurableResult(t: Task, outputs: seq<int>) {
    match t.status
    case TaskSucceeded => outputs != []
    case TaskFailed => true
    case TaskCancelled => true
    case _ => false
  }

  predicate ShouldDeferInitialPoll(job: Job, t: Task) {
    !IsTerminalTask(t.status) && IsAsyncMedia(job) && t.asyncProvider
  }

  const MAX_POLL_TRANSPORT_ATTEMPTS: nat := 180

  predicate ShouldKeepPolling(job: Job, t: Task, class_: ErrorClass, attempt: nat) {
    && !IsTerminalTask(t.status) && IsAsyncMedia(job) && t.asyncProvider
    && (IsRetryable(class_) || class_.TaskNotFound?)
    && attempt < MAX_POLL_TRANSPORT_ATTEMPTS
  }

  /** Position of the message with a given random id. */
  function RidIndex(chat: seq<Bubble>, rid: int): (i: nat)
    requires HasRid(chat, rid)
    ensures i < |chat| && chat[i].rid == Some(rid)
  {
    if chat[0].rid == Some(rid) then 0 else 1 + RidIndex(chat[1..], rid)
  }

  /** The parts of the store that sending changes. */
  predicate OnlySending(s: Store, s': Store) {
    s' == s.(row := s'.row, chat := s'.chat, sends := s'.sends)
  }

  /** The first row of a job: a notice for one that failed, the first output as media if it
      is a picture or a video and as text otherwise, and a fixed text without outputs. A
      text takes the place of the placeholder, if there is one. */
  ghost predicate IsRowFor(s: Store, r: Row) {
    var placeholder := if s.job.hasPlaceholder then 1 else 0;
    if s.job.status == FailedTerminal && !s.job.miniApp && s.job.hasPeer && IsPicture(s.job) then
      r.body.TextBody? && r.messageId == placeholder
    else if s.job.outputs == [] then r.body == TextBody("(no result produced)") && r.messageId == 0
    else
      && s.job.outputs[0] in s.media.artifacts
      && (if s.media.artifacts[s.job.outputs[0]].kind in {ImageKind, VideoKind} then r.body == MediaBody && r.messageId == 0
          else r.body.TextBody? && r.messageId == placeholder)
  }

  /** Delivery finds an object for the first output of the job. */
  predicate HasObject(c: Config, s: Store) {
    && s.job.outputs != [] && s.job.outputs[0] in s.media.artifacts
    && var id := s.job.outputs[0];
    && ChosenFor(s.media.artifacts[id], s.media.VariantsOf(id), c.deliveryPolicy) != NotDeliverable
  }

  /** There is something to send for a row. */
  predicate CanGo(c: Config, s: Store, r: Row) {
    r.body.TextBody? || r.attached.Some? || HasObject(c, s)
  }

  /** There is something to show for a job. */
  predicate CanShow(c: Config, s: Store) {
    if s.row.Some? then CanGo(c, s, s.row.value)
    else s.job.outputs == [] || s.job.status == FailedTerminal || HasObject(c, s)
  }

  /** The jobs that delivery has something to do for. */
  predicate IsDue(job: Job) {
    match job.status
    case ResultReady => true
    case Delivering => true
    case FailedTerminal => !job.miniApp && job.hasPeer && IsPicture(job)
    case _ => false
  }

  /** The notice of a failure is sent; a result is sent or with the Mini App, and the job
      has succeeded, if its charge can be collected. */
  predicate GotThere(c: Config, s: Store, s': Store, ok: bool) {
    && (s'.job.miniApp || IsSent(s'.row))
    && (if s.job.status == FailedTerminal then ok && s'.job.status == FailedTerminal
        else Collectible(c, s) ==> ok && s'.job.status == Succeeded)
  }

  /** A failed attempt is on the row; the last one of the budget has ended the job. */
  predicate FailureCounted(c: Config, s: Store, s': Store, del: Row, ok: bool) {
    && s' == s.(row := s'.row, hold := s'.hold, deadLetters := s'.deadLetters, job := s.job.(status := s'.job.status))
    && HoldMayBeFreed(s, s')
    && s'.row == Some(del.(status := RowRetrying, attemptNo := del.attemptNo + 1))
    && (ok <==> del.attemptNo + 1 > c.maxSends)
    && s'.deadLetters == s.deadLetters + (if ok then 1 else 0)
    && (if ok then s'.job.status == FailedTerminal && !s'.hold.Reserved?
        else s'.job.status == s.job.status && s'.hold == s.hold)
  }

  lemma FailureIsATurn(c: Config, s: Store, s1: Store, s': Store, del: Row, ok: bool)
    requires OnlySending(s, s1) && s1.sends == s.sends + 1 && FailureCounted(c, s1, s', del, ok)
    requires s.row.Some? && del.attemptNo == s.row.value.attemptNo && !IsSent(s.row) && !s.job.miniApp
    requires s.job.status == Delivering || (s.job.status == FailedTerminal && !s.hold.Reserved?)
    ensures DeliveryTurn(c, s, s', ok)
  {
  }

  /** Nothing but artifacts, variants and probes changed. */
  predicate OnlyMedia(s: Store, s': Store) {
    s' == s.(media := s'.media)
  }

  ghost predicate FailedAt(m: Media, id: ArtifactId) {
    id in m.artifacts && m.artifacts[id].meta.probeStatus.ProbeFailed?
  }

  predicate IsVideo(m: Media, id: ArtifactId) {
    id in m.artifacts && m.artifacts[id].kind == VideoKind
  }

  /** A transcoder is there, its policy is not never, and the contract, if there is one,
      lets it or makes it work. */
  predicate MayTranscode(g: GateConfig, contract: Option<Contract>) {
    && g.transcoder && (g.transcodePolicy == Fallback || g.transcodePolicy == Always)
    && (contract == None || contract.value.transcodeAllowed || contract.value.requiresTranscode)
  }

  /** The artifact is marked as failed. */
  function Refusal(m: Media, id: ArtifactId, a: Artifact): Media {
    m.WithArtifact(id, ProbeMarked(a, NoMetadata, ProbeFailed, Failed))
  }

  lemma RefusedIsNotClearable(g: GateConfig, contract: Option<Contract>, m: Media, id: ArtifactId)
    requires id in m.artifacts && id in m.probed && !MayTranscode(g, contract) && !DevRawAllowed(g, contract)
    requires !FastPathAllowed(g, contract, m.probed[id], OriginalSize(m.artifacts[id]))
    ensures !Clearable(g, contract, Refusal(m, id, m.artifacts[id]), id)
  {
  }

  lemma VariantIsAdded(m: Media, id: ArtifactId, v: Variant)
    requires v.kind == VKVideo && Named(v.blob) && v.blob in m.said && v.probe == VariantProbe(m.said[v.blob])
    ensures var m' := m.WithVariant(id, v);
      && MediaNext(m, m') && OnlyAbout(id, m, m')
      && m.VariantsOf(id) <= m'.VariantsOf(id) && HasVariant(m'.VariantsOf(id), VKVideo)
  {
    var m' := m.WithVariant(id, v);
    assert m'.VariantsOf(id) == m.VariantsOf(id) + [v];
    assert AddsVariant(m, m', id);
    assert m'.VariantsOf(id)[|m.VariantsOf(id)|] == v;
  }

  /** The first n outputs have a property. */
  ghost predicate UpTo(p: ArtifactId -> bool, outputs: seq<ArtifactId>, n: nat)
    requires n <= |outputs|
  {
    n == 0 || (UpTo(p, outputs, n - 1) && p(outputs[n - 1]))
  }

  lemma {:induction false} UpToAt(p: ArtifactId -> bool, outputs: seq<ArtifactId>, n: nat, i: nat)
    requires i < n <= |outputs| && UpTo(p, outputs, n)
    ensures p(outputs[i])
  {
    if i < n - 1 {
      UpToAt(p, outputs, n - 1, i);
    }
  }

  lemma {:induction false} StillUpTo(p: ArtifactId -> bool, q: ArtifactId -> bool, outputs: seq<ArtifactId>, n: nat)
    requires n <= |outputs| && UpTo(p, outputs, n) && forall id :: p(id) ==> q(id)
    ensures UpTo(q, outputs, n)
  {
    if n > 0 {
      StillUpTo(p, q, outputs, n - 1);
    }
  }

  ghost function ClearedIn(g: GateConfig, contract: Option<Contract>, m: Media): ArtifactId -> bool {
    id => ClearedAt(g, contract, m, id)
  }

  lemma StillCleared(g: GateConfig, contract: Option<Contract>, was: Media, now: Media,
                     outputs: seq<ArtifactId>, n: nat, id: ArtifactId)
    requires n <= |outputs| && UpTo(ClearedIn(g, contract, was), outputs, n)
    requires OnlyAbout(id, was, now) && ClearedAt(g, contract, now, id)
    ensures UpTo(ClearedIn(g, contract, now), outputs, n)
  {
    var p, q := ClearedIn(g, contract, was), ClearedIn(g, contract, now);
    forall x | p(x) ensures q(x) {
      if x != id {
        SameCleared(g, contract, was, now, x);
      }
    }
    StillUpTo(p, q, outputs, n);
  }

  lemma AllAreCleared(g: GateConfig, contract: Option<Contract>, m: Media, outputs: seq<ArtifactId>)
    requires UpTo(ClearedIn(g, contract, m), outputs, |outputs|)
    ensures forall i :: 0 <= i < |outputs| ==> ClearedAt(g, contract, m, outputs[i])
  {
    forall i | 0 <= i < |outputs| ensures ClearedAt(g, contract, m, outputs[i]) {
      UpToAt(ClearedIn(g, contract, m), outputs, |outputs|, i);
    }
  }

  lemma SameCleared(g: GateConfig, contract: Option<Contract>, was: Media, now: Media, id: ArtifactId)
    requires ClearedAt(g, contract, was, id) && id in now.artifacts && id in now.probed
    requires now.artifacts[id] == was.artifacts[id] && now.probed[id] == was.probed[id]
    requires now.VariantsOf(id) == was.VariantsOf(id)
    ensures ClearedAt(g, contract, now, id)
  {
  }

  /** The log went on, and no message was lost on the way. */
  ghost predicate Grew(before: seq<Store>, after: seq<Store>) {
    && 0 < |before| && before <= after
    && before[|before| - 1].msgs <= after[|after| - 1].msgs
  }

  /** The outputs of a job after some artifacts were attached, each at most once. */
  function Attach(outputs: seq<int>, ids: seq<int>): seq<int>
    decreases |ids|
  {
    var n := |ids| - 1;
    if n < 0 then outputs
    else
      var before := Attach(outputs, ids[..n]);
      if ids[n] in before then before else before + [ids[n]]
  }

  lemma AttachMore(outputs: seq<int>, ids: seq<int>, id: int)
    ensures var before := Attach(outputs, ids);
      Attach(outputs, ids + [id]) == if id in before then before else before + [id]
  {
    assert (ids + [id])[..|ids|] == ids;
  }

  lemma {:induction false} FailureStays(w: World, k: nat, n: nat)
    requires k <= n && FirstFailure(w, k).Some?
    ensures FirstFailure(w, n) == FirstFailure(w, k)
    decreases n
  {
    if k < n {
      FailureStays(w, k, n - 1);
    }
  }

  lemma StillStored(was: Media, now: Media, ids: seq<int>)
    requires AllStored(was, ids) && was.artifacts.Keys <= now.artifacts.Keys
    ensures AllStored(now, ids)
  {
    assert forall i :: 0 <= i < |ids| ==> ids[i] in was.artifacts.Keys;
  }

  predicate NoRepeats(ids: seq<int>) {
    forall i, j :: 0 <= i < j < |ids| ==> ids[i] != ids[j]
  }

  /** Attaching keeps what was there, adds exactly what is new, and repeats nothing. */
  lemma {:induction false} AttachIs(outputs: seq<int>, ids: seq<int>)
    ensures outputs <= Attach(outputs, ids)
    ensures forall id :: id in Attach(outputs, ids) <==> id in outputs || id in ids
    ensures NoRepeats(outputs) ==> NoRepeats(Attach(outputs, ids))
    decreases |ids|
  {
    var n := |ids| - 1;
    if n >= 0 {
      AttachIs(outputs, ids[..n]);
      assert ids == ids[..n] + [ids[n]];
    }
  }

  /** Attaching what is there changes nothing. */
  lemma {:induction false} AttachIsIdempotent(outputs: seq<int>, ids: seq<int>)
    requires forall i :: 0 <= i < |ids| ==> ids[i] in outputs
    ensures Attach(outputs, ids) == outputs
    decreases |ids|
  {
    var n := |ids| - 1;
    if n >= 0 {
      AttachIsIdempotent(outputs, ids[..n]);
    }
  }

  class Worker {
    const c: Config
    const calm: bool   // store, stream, moderation and context calls succeed
    var st: Store
    ghost var log: seq<Store>
    ghost var turns: seq<Store>   // when calm, the store before every handled message and now

    ghost predicate Valid()
      reads this`st, this`log
    {
      WellConfigured(c) && IsRun(c, log) && st == log[|log| - 1]
    }

    /** The messages handled so far make up a run of whole turns. */
    ghost predicate Turning()
      reads this`turns, this`st
    {
      calm ==> IsCalmRun(c, turns) && turns[|turns| - 1] == st
    }

    lemma HasMoney()
      requires Valid()
      ensures MoneyInv(c, st.job, st.hold, IsSent(st.row))
    {
      RunKeepsInv(c, log, |log| - 1);
    }

    lemma HasTasks()
      requires Valid()
      ensures TaskInv(st.tasks, st.submits)
    {
      RunKeepsInv(c, log, |log| - 1);
    }

    lemma HasChat()
      requires Valid()
      ensures ChatInv(c, st)
    {
      RunKeepsInv(c, log, |log| - 1);
    }

    lemma HasOutputs()
      requires Valid()
      ensures AllStored(st.media, st.job.outputs)
    {
      RunKeepsInv(c, log, |log| - 1);
    }

    constructor (c: Config, calm: bool, s: Store)
      requires WellConfigured(c) && Init(s)
      ensures Valid() && Turning() && this.c == c && this.calm == calm && st == s && log == [s] && turns == [s]
    {
      this.c, this.calm, st, log, turns := c, calm, s, [s], [s];
    }

    // ----------------------------------------------------------------- effects

    method Attempt(s': Store, sure: bool) returns (ok: bool)
      requires Valid() && Next(c, st, s') && st.msgs <= s'.msgs
      modifies this`st, this`log
      ensures Valid() && Grew(old(log), log)
      ensures st == s' || (!ok && st == old(st))
      ensures sure ==> ok
    {
      var fault: Fault := *;
      if sure {
        fault := Fine;
      }
      if fault != Refused {
        RunExtends(c, log, s');
        st, log := s', log + [s'];
      }
      ok := fault == Fine;
    }

    /** An effect on a store or a stream. */
    method Commit(s': Store) returns (ok: bool)
      requires Valid() && Next(c, st, s') && st.msgs <= s'.msgs
      modifies this`st, this`log
      ensures Valid() && Grew(old(log), log)
      ensures st == s' || (!ok && st == old(st))
      ensures calm ==> ok
    {
      ok := Attempt(s', calm);
    }

    /** A read from a store. */
    method Read() returns (ok: bool)
      ensures calm ==> ok
    {
      ok := *;
      ok := ok || calm;
    }

    /** Compare-and-set of the job status; writing the status it has is a no-op. */
    method SetStatus(job: Job, to: JobStatus) returns (ok: bool, job': Job)
      requires Valid()
      requires job.status == st.job.status && job.status != to ==> MaySetStatus(c, st, to)
      modifies this`st, this`log
      ensures Valid() && Grew(old(log), log)
      ensures st == old(st).(job := old(st).job.(status := st.job.status))
      ensures ok ==> job' == job.(status := to)
      ensures ok && job.status == old(st).job.status ==> st.job.status == to
      ensures ok && job.status != to ==> job.status == old(st).job.status
      ensures !ok ==> job' == job && st.job.status in {old(st).job.status, to}
      ensures calm && job.status == old(st).job.status ==> ok
    {
      job' := job;
      if job.status == to {
        ok := true;
      } else if job.status != st.job.status {
        ok := false;   // conflict
      } else {
        ok := Commit(st.(job := st.job.(status := to)));
        if ok {
          job' := job.(status := to);
        }
      }
    }

    method Publish(stream: Stream, attempt: nat) returns (ok: bool)
      requires Valid()
      modifies this`st, this`log
      ensures Valid() && Grew(old(log), log)
      ensures calm ==> ok && st == old(st).(msgs := old(st).msgs + multiset{Msg(stream, attempt)})
    {
      ok := Commit(st.(msgs := st.msgs + multiset{Msg(stream, attempt)}));
    }

    /** Publishing a retry to the generation stream. */
    method PublishRetry(attempt: nat) returns (ok: bool)
      requires Valid()
      modifies this`st, this`log
      ensures Valid() && Grew(old(log), log)
      ensures calm ==> ok && st == old(st).(
          msgs := old(st).msgs + multiset{Msg(Generation, attempt)}, requeues := old(st).requeues + 1)
    {
      ok := Commit(st.(msgs := st.msgs + multiset{Msg(Generation, attempt)}, requeues := st.requeues + 1));
    }

    method DeadLetter()
      requires Valid()
      modifies this`st, this`log
      ensures Valid() && Grew(old(log), log)
      ensures st == old(st).(deadLetters := st.deadLetters)
      ensures calm ==> st.deadLetters == old(st).deadLetters + 1
    {
      var _ := Commit(st.(deadLetters := st.deadLetters + 1));
    }

    /** Frees the hold of the job; a hold that is not reserved any more is fine. */
    method ReleaseForJob() returns (ok: bool)
      requires Valid()
      modifies this`st, this`log
      ensures Valid() && Grew(old(log), log)
      ensures st == old(st) || (old(st).hold.Reserved? && st == old(st).(hold := Released))
      ensures ok ==> !st.hold.Reserved?
      ensures calm ==> ok
    {
      ok := Read();
      if ok && st.hold.Reserved? {
        ok := Commit(st.(hold := Released));
      }
    }

    /** A hold that is reserved is the hold of a job that costs something. */
    method ReleaseReserved(job: Job) returns (ok: bool)
      requires Valid() && job.costReserved == st.job.costReserved && job.costCaptured == st.job.costCaptured
      modifies this`st, this`log
      ensures Valid() && Grew(old(log), log)
      ensures st == old(st) || (old(st).hold.Reserved? && st == old(st).(hold := Released))
      ensures ok ==> !st.hold.Reserved?
      ensures calm ==> ok
    {
      HasMoney();
      if job.costReserved <= 0 || job.costCaptured > 0 {
        return true;
      }
      ok := ReleaseForJob();
    }

    // ------------------------------------------------------- failure handling

    /** The in-memory job agrees with the stored one, except perhaps on outputs. */
    ghost predicate Fresh(job: Job)
      reads this`st
    {
      job.(outputs := st.job.outputs) == st.job
    }

    /** As Fresh, but an ignored status write may have been applied. */
    ghost predicate Loose(job: Job)
      reads this`st
    {
      job.(outputs := st.job.outputs, status := st.job.status) == st.job && !IsDone(st.job.status)
    }

    method Retry(job0: Job, m: Msg) returns (ok: bool)
      requires Valid() && Loose(job0)
      modifies this`st, this`log
      ensures Valid() && Grew(old(log), log)
      ensures calm && old(Fresh(job0)) ==>
        ok && st == Sending(InStatus(old(st), Queued), Msg(Generation, m.attempt + 1)).(requeues := old(st).requeues + 1)
    {
      var job;
      ok, job := SetStatus(job0, FailedRetryable);
      if !ok { return; }
      ok, job := SetStatus(job, Queued);
      if !ok { return; }
      ok := PublishRetry(m.attempt + 1);
    }

    method Terminate(job0: Job) returns (ok: bool)
      requires Valid() && Loose(job0) && !st.hold.Reserved?
      modifies this`st, this`log
      ensures Valid() && Grew(old(log), log)
      ensures calm && old(Fresh(job0)) ==>
        && ok
        && st == (if job0.hasPeer && IsPicture(job0) then Sending(InStatus(old(st), FailedTerminal), Msg(Delivery, 0))
                  else InStatus(old(st), FailedTerminal))
    {
      HasMoney();
      var job;
      ok, job := SetStatus(job0, FailedTerminal);
      if !ok { return; }
      if ShouldNotifyFailure(job) {
        ok := Publish(Delivery, 0);
      }
    }

    /** Frees the hold and keeps a copy of an exhausted message for inspection. */
    method Discharge(job: Job, class_: ErrorClass) returns (ok: bool)
      requires Valid() && job.costReserved == st.job.costReserved && job.costCaptured == st.job.costCaptured
      modifies this`st, this`log
      ensures Valid() && Grew(old(log), log)
      ensures st == old(st).(hold := st.hold, deadLetters := st.deadLetters)
      ensures HoldMayBeFreed(old(st), st)
      ensures ok ==> !st.hold.Reserved?
      ensures calm ==> ok && st.hold == Freed(old(st).hold)
      ensures calm ==> st.deadLetters == old(st).deadLetters + if IsTransient(class_) then 1 else 0
    {
      ok := ReleaseReserved(job);
      if ok && IsRetryable(class_) {
        DeadLetter();
      }
    }

    method GiveUp(job: Job, m: Msg, class_: ErrorClass) returns (ok: bool)
      requires Valid() && Loose(job)
      modifies this`st, this`log
      ensures Valid() && Grew(old(log), log)
      ensures calm && old(Fresh(job)) && !(IsTransient(class_) && Attempts(old(st), m) < c.maxAttempts) ==>
        ok && st == AfterFailure(c, old(st), m, class_)
    {
      ok := Discharge(job, class_);
      if ok {
        ok := Terminate(job);
      }
    }

    /** A failure of a running provider task shows in the status, if it can be written. */
    method NoteProviderFailure(job0: Job) returns (job: Job)
      requires Valid() && Fresh(job0) && !IsDone(job0.status)
      modifies this`st, this`log
      ensures Valid() && Grew(old(log), log) && Loose(job) && (calm ==> Fresh(job))
      ensures st == old(st).(job := old(st).job.(status := st.job.status))
    {
      job := job0;
      if job.status in {ProviderSubmitted, ProviderPending, ProviderProcessing} {
        var _, j := SetStatus(job, ProviderFailed);
        job := j;
      }
    }

    /** A failure is retried if its class is transient and the budget allows it; otherwise
        the job ends. */
    method HandleFailure(job0: Job, m: Msg, class_: ErrorClass) returns (ok: bool)
      requires Valid() && Fresh(job0) && !IsDone(job0.status)
      modifies this`st, this`log
      ensures Valid() && Grew(old(log), log)
      ensures calm ==> ok && st == AfterFailure(c, old(st), m, class_)
      ensures calm ==> st.job.status == StatusFor(class_, Max(|old(st).tasks|, m.attempt + 1) < c.maxAttempts)
    {
      StatusAfterFailure(c, st, m, class_);
      var job := NoteProviderFailure(job0);
      StatusIsOverwritten(c, old(st), m, class_, st.job.status);
      ok := Decide(job, m, class_);
    }

    /** The tasks of the job, or the attempts that the message knows of if they are more. */
    method CountAttempts(m: Msg) returns (ok: bool, attempts: nat)
      requires Valid()
      ensures ok ==> attempts == Attempts(st, m)
      ensures calm ==> ok
    {
      ok := Read();
      attempts := |st.tasks|;
      if m.attempt + 1 > attempts {
        attempts := m.attempt + 1;
      }
    }

    /** The retry decision. */
    method Decide(job: Job, m: Msg, class_: ErrorClass) returns (ok: bool)
      requires Valid() && Loose(job)
      modifies this`st, this`log
      ensures Valid() && Grew(old(log), log)
      ensures calm && old(Fresh(job)) ==> ok && st == AfterFailure(c, old(st), m, class_)
    {
      var attempts;
      ok, attempts := CountAttempts(m);
      if !ok { return; }
      if IsRetryable(class_) && attempts < c.maxAttempts {
        RetriedFailure(c, st, m, class_);
        ok := Retry(job, m);
      } else {
        ok := GiveUp(job, m, class_);
      }
    }

    /** A media failure: the hold is freed and the job fails without a notice. */
    method HandleMediaFailure(job0: Job) returns (ok: bool)
      requires Valid() && Fresh(job0) && !IsDone(job0.status)
      modifies this`st, this`log
      ensures Valid() && Grew(old(log), log)
      ensures calm ==> ok && EndedQuietly(old(st), st, FailedTerminal) && st == AfterMediaFailure(old(st))
    {
      ok := ReleaseReserved(job0);
      if !ok { return; }
      HasMoney();
      var job;
      ok, job := SetStatus(job0, FailedTerminal);
    }

    // ------------------------------------------------------- results of a task

    method UpdateTask(status: TaskStatus, class_: ErrorClass) returns (ok: bool)
      requires Valid() && |st.tasks| > 0
      modifies this`st, this`log
      ensures Valid() && Grew(old(log), log)
      ensures |st.tasks| == |old(st).tasks| && st == old(st).(tasks := st.tasks)
      ensures ok ==> st.tasks[|st.tasks| - 1].status == status
      ensures calm ==> ok && st == WithResult(old(st), status, class_)
    {
      var n := |st.tasks| - 1;
      ok := Commit(st.(tasks := st.tasks[n := st.tasks[n].(status := status, class_ := class_)]));
    }

    /** Persists everything but the status. */
    method WriteOutputs(job: Job) returns (ok: bool)
      requires Valid() && Fresh(job) && !IsDone(job.status) && AllStored(st.media, job.outputs)
      modifies this`st, this`log
      ensures Valid() && Grew(old(log), log)
      ensures st == old(st).(job := old(st).job.(outputs := st.job.outputs))
      ensures ok ==> st.job == job
      ensures calm ==> ok
    {
      ok := Commit(st.(job := st.job.(outputs := job.outputs)));
    }

    // ------------------------------------------------------- artifacts and gate

    /** An effect on artifact or variant rows. */
    method WriteMedia(m': Media) returns (ok: bool)
      requires Valid() && !IsDone(st.job.status) && MediaNext(st.media, m')
      modifies this`st, this`log
      ensures Valid() && Grew(old(log), log) && OnlyMedia(old(st), st)
      ensures st.media == m' || (!ok && st.media == old(st).media)
      ensures calm ==> ok
    {
      assert ChangesMedia(st, st.(media := m'));
      ok := Commit(st.(media := m'));
    }

    /** Downloading or scanning output i. */
    static method Artifact(w: World, i: nat) returns (failure: Option<ErrorClass>)
      ensures failure == FetchFailure(w, i)
    {
      if i >= |w.fetch| || w.fetch[i].None? {
        return None;
      }
      var class_ := w.fetch[i].value;
      failure := Some(if class_ == Unclassified then OutputDownloadFailed else class_);
    }

    /** Downloads an output and stores it; nothing is known about its contents yet. */
    method SaveRemoteArtifact(kind: MediaKind, w: World, i: nat) returns (failure: Option<ErrorClass>, id: ArtifactId)
      requires Valid() && !IsDone(st.job.status)
      modifies this`st, this`log
      ensures Valid() && Grew(old(log), log) && OnlyMedia(old(st), st)
      ensures old(st).media.artifacts.Keys <= st.media.artifacts.Keys
      ensures failure.None? ==> id in st.media.artifacts
      ensures calm || failure.None? ==> failure == FetchFailure(w, i)
      ensures st.media == old(st).media
        || (id !in old(st).media.artifacts && id in st.media.artifacts && st.media.artifacts[id].meta == NoMetadata
            && st.media.artifacts[id].kind == kind
            && st.media == old(st).media.WithArtifact(id, st.media.artifacts[id]))
    {
      id := *;
      failure := Artifact(w, i);
      if failure.Some? || id in st.media.artifacts { return; }
      var name: string := *;
      var blob := Blob(c.bucket, "artifacts/" + name);
      var size: nat := *;
      var m' := st.media.WithArtifact(id, VideoGate.Artifact(blob, kind, "", size, size, NoMetadata, Ready));
      assert WritesArtifact(st.media, m', id);
      var ok := WriteMedia(m');
      failure := if ok then None else Some(OutputDownloadFailed);
    }

    /** Scans the outputs that a job has. */
    static method ScanOutputs(n: nat, w: World) returns (failure: Option<ErrorClass>)
      ensures failure == FirstFailure(w, n)
    {
      failure := None;
      for i := 0 to n
        invariant failure == FirstFailure(w, i) == None
      {
        failure := Artifact(w, i);
        if failure.Some? {
          FailureStays(w, i + 1, n);
          return;
        }
      }
    }

    /** Scans the outputs a job has and fetches the ones it lacks. */
    method FetchOutputs(existing: seq<int>, urls: nat, w: World)
      returns (failure: Option<ErrorClass>, outputs: seq<int>, ghost fetched: seq<int>)
      requires Valid() && !IsDone(st.job.status) && AllStored(st.media, existing)
      modifies this`st, this`log
      ensures Valid() && Grew(old(log), log) && OnlyMedia(old(st), st)
      ensures existing <= outputs && outputs == Attach(existing, fetched) && AllStored(st.media, outputs)
      ensures failure.None? ==> |existing| + |fetched| == Max(|existing|, urls)
      ensures calm || failure.None? ==> failure == FirstFailure(w, Max(|existing|, urls))
    {
      outputs, fetched := existing, [];
      failure := ScanOutputs(|existing|, w);
      if failure.Some? {
        FailureStays(w, |existing|, Max(|existing|, urls));
        return;
      }
      if |existing| < urls {
        failure, outputs, fetched := FetchMissing(existing, urls, w);
        AttachIs(existing, fetched);
      }
    }

    /** Fetches the outputs that a job lacks. */
    method FetchMissing(existing: seq<int>, urls: nat, w: World)
      returns (failure: Option<ErrorClass>, outputs: seq<int>, ghost fetched: seq<int>)
      requires Valid() && !IsDone(st.job.status) && AllStored(st.media, existing)
      requires |existing| < urls && FirstFailure(w, |existing|).None?
      modifies this`st, this`log
      ensures Valid() && Grew(old(log), log) && OnlyMedia(old(st), st)
      ensures outputs == Attach(existing, fetched) && AllStored(st.media, outputs)
      ensures failure.None? ==> |existing| + |fetched| == urls && FirstFailure(w, urls).None?
      ensures calm && failure.Some? ==> failure == FirstFailure(w, urls)
    {
      outputs, fetched, failure := existing, [], None;
      var n := |existing|;
      while n < urls
        invariant Valid() && Grew(old(log), log) && OnlyMedia(old(st), st)
        invariant |existing| <= n <= urls && n == |existing| + |fetched|
        invariant failure.None? && FirstFailure(w, n).None?
        invariant outputs == Attach(existing, fetched) && AllStored(st.media, outputs)
      {
        ghost var was := st.media;
        var id;
        failure, id := FetchOne(w, n, urls);
        StillStored(was, st.media, outputs);
        if failure.Some? { return; }
        AttachMore(existing, fetched, id);
        if id !in outputs {
          outputs := outputs + [id];
        }
        fetched := fetched + [id];
        n := n + 1;
      }
    }

    /** Fetches output n of total, none of whose predecessors failed. */
    method FetchOne(w: World, n: nat, total: nat) returns (failure: Option<ErrorClass>, id: ArtifactId)
      requires Valid() && !IsDone(st.job.status) && n < total && FirstFailure(w, n).None?
      modifies this`st, this`log
      ensures Valid() && Grew(old(log), log) && OnlyMedia(old(st), st)
      ensures old(st).media.artifacts.Keys <= st.media.artifacts.Keys
      ensures failure.None? ==> id in st.media.artifacts && FirstFailure(w, n + 1).None?
      ensures calm && failure.Some? ==> failure == FirstFailure(w, total)
    {
      failure, id := SaveRemoteArtifact(KindFor(st.job.modality), w, n);
      if FetchFailure(w, n).Some? {
        FailureStays(w, n + 1, total);
      }
    }

    /** Stores the outputs a provider names; answers the error class on failure.
        fetched are the artifacts that were stored, one for every missing output. */
    method SaveOutputs(job0: Job, urls: nat, w: World) returns (failure: Option<ErrorClass>, job: Job, ghost fetched: seq<int>)
      requires Valid() && st.job == job0 && !IsDone(job0.status)
      modifies this`st, this`log
      ensures Valid() && Grew(old(log), log)
      ensures st == old(st).(job := old(st).job.(outputs := st.job.outputs), media := st.media)
      ensures job == job0.(outputs := Attach(job0.outputs, fetched))
      ensures failure.None? ==> st.job == job && |job0.outputs| + |fetched| == Max(|job0.outputs|, urls)
      ensures calm ==> failure == FirstFailure(w, Max(|job0.outputs|, urls))
      ensures calm && failure.Some? ==> st.job == job0
      ensures job0.outputs <= job.outputs
    {
      HasOutputs();
      var outputs;
      failure, outputs, fetched := FetchOutputs(job0.outputs, urls, w);
      job := job0.(outputs := outputs);
      if failure.None? {
        var ok := WriteOutputs(job);
        failure := if ok then None else Some(OutputDownloadFailed);
      }
    }

    method UpdateArtifact(id: ArtifactId, a: Artifact) returns (ok: bool)
      requires Valid() && !IsDone(st.job.status) && !a.meta.probeStatus.ProbePassed?
      requires id in st.media.artifacts && a.blob == st.media.artifacts[id].blob
      modifies this`st, this`log
      ensures Valid() && Grew(old(log), log) && OnlyMedia(old(st), st)
      ensures st.media == old(st).media.WithArtifact(id, a) || (!ok && st.media == old(st).media)
      ensures calm ==> ok
    {
      var m' := st.media.WithArtifact(id, a);
      assert WritesArtifact(st.media, m', id);
      ok := WriteMedia(m');
    }

    method MarkArtifactProbeFailed(id: ArtifactId, a: Artifact) returns (ok: bool)
      requires Valid() && !IsDone(st.job.status)
      requires id in st.media.artifacts && a.blob == st.media.artifacts[id].blob
      modifies this`st, this`log
      ensures Valid() && Grew(old(log), log) && OnlyMedia(old(st), st)
      ensures st.media == old(st).media.WithArtifact(id, ProbeMarked(a, NoMetadata, ProbeFailed, Failed))
        || (!ok && st.media == old(st).media)
      ensures calm ==> ok
    {
      ok := UpdateArtifact(id, ProbeMarked(a, NoMetadata, ProbeFailed, Failed));
    }

    /** The artifact is marked as failed, and the media error is reported. */
    method Reject(id: ArtifactId, a: Artifact, fault: MediaFault) returns (r: GateResult)
      requires Valid() && !IsDone(st.job.status)
      requires id in st.media.artifacts && a.blob == st.media.artifacts[id].blob
      modifies this`st, this`log
      ensures Valid() && Grew(old(log), log) && OnlyMedia(old(st), st) && OnlyAbout(id, old(st).media, st.media)
      ensures r != GateOk && (calm ==> r == MediaError(fault))
      ensures r.MediaError? ==> r.fault == fault && st.media == Refusal(old(st).media, id, a)
      ensures r.StoreError? ==> st.media.variants == old(st).media.variants
    {
      var ok := MarkArtifactProbeFailed(id, a);
      r := if ok then MediaError(fault) else StoreError;
    }

    /** Something that is asked of a prober, a transcoder, an object store or VK. */
    static method Serve(w: World) returns (ok: bool)
      ensures w.willing ==> ok
    {
      ok := *;
      ok := ok || w.willing;
    }

    /** Ask the prober about the bytes of an object. */
    method ProbeVideo(blob: Blob, w: World) returns (ok: bool, m: Metadata)
      requires Valid() && !IsDone(st.job.status)
      modifies this`st, this`log
      ensures Valid() && Grew(old(log), log) && OnlyMedia(old(st), st)
      ensures st.media == if ok then old(st).media.(said := old(st).media.said[blob := m]) else old(st).media
      ensures w.willing ==> ok
    {
      m := *;
      ok := Serve(w);
      if ok {
        var m' := st.media.(said := st.media.said[blob := m]);
        assert Accepts(st.media, m', blob);
        assert ChangesMedia(st, st.(media := m'));
        var _ := Attempt(st.(media := m'), true);
      }
    }

    /** The stored VK rendition of an artifact: an existing one is kept. */
    method SaveVariant(id: ArtifactId, blob: Blob, probe: ProbeStatus, w: World) returns (ok: bool)
      requires Valid() && !IsDone(st.job.status) && Named(blob)
      requires blob in st.media.said && probe == VariantProbe(st.media.said[blob])
      modifies this`st, this`log
      ensures Valid() && Grew(old(log), log) && OnlyMedia(old(st), st)
      ensures st.media == old(st).media.(variants := st.media.variants) && OnlyAbout(id, old(st).media, st.media)
      ensures old(st).media.VariantsOf(id) <= st.media.VariantsOf(id)
      ensures HasVariant(old(st).media.VariantsOf(id), VKVideo) ==> st == old(st)
      ensures ok ==> HasVariant(st.media.VariantsOf(id), VKVideo)
      ensures calm && w.willing ==> ok
    {
      ok := Serve(w);   // listing and scanning
      if !ok || HasVariant(st.media.VariantsOf(id), VKVideo) { return; }
      var v := Variant(VKVideo, blob, "video/mp4", probe);
      VariantIsAdded(st.media, id, v);
      ok := WriteMedia(st.media.WithVariant(id, v));
    }

    /** Transcode, probe the result, and store it. */
    method MakeVariant(id: ArtifactId, w: World) returns (ok: bool)
      requires Valid() && !IsDone(st.job.status)
      modifies this`st, this`log
      ensures Valid() && Grew(old(log), log) && OnlyMedia(old(st), st) && OnlyAbout(id, old(st).media, st.media)
      ensures st.media.artifacts == old(st).media.artifacts && st.media.probed == old(st).media.probed
      ensures ok ==> HasVariant(st.media.VariantsOf(id), VKVideo)
      ensures calm && w.willing && c.gate.prober ==> ok
    {
      var slot := Serve(w);
      var transcoded := Serve(w);
      if !slot || !c.gate.prober || !transcoded {
        return false;
      }
      var name: string := *;
      var blob := Blob(c.bucket, "artifacts/" + name);
      var m;
      ok, m := ProbeVideo(blob, w);
      if ok {
        ok := SaveVariant(id, blob, VariantProbe(m), w);
      }
    }

    method TranscodeVideoVariant(id: ArtifactId, a: Artifact, w: World) returns (r: GateResult)
      requires Valid() && !IsDone(st.job.status)
      requires id in st.media.artifacts && a.blob == st.media.artifacts[id].blob
      modifies this`st, this`log
      ensures Valid() && Grew(old(log), log) && OnlyMedia(old(st), st) && OnlyAbout(id, old(st).media, st.media)
      ensures calm ==> r != StoreError
      ensures r == GateOk && c.gate.transcoder ==>
        && HasVariant(st.media.VariantsOf(id), VKVideo)
        && st.media.artifacts == old(st).media.artifacts && st.media.probed == old(st).media.probed
      ensures calm && w.willing && c.gate.prober ==> r == GateOk
    {
      if !c.gate.transcoder {
        return GateOk;
      }
      var ok := MakeVariant(id, w);
      if ok {
        return GateOk;
      }
      r := Reject(id, a, TranscodeFault);
    }

    /** Writes what a probe found out: the row says that the artifact passed. */
    method MarkPassed(id: ArtifactId, a: Artifact) returns (ok: bool)
      requires Valid() && !IsDone(st.job.status) && a.blob in st.media.said
      requires id in st.media.artifacts && a.blob == st.media.artifacts[id].blob
      modifies this`st, this`log
      ensures Valid() && Grew(old(log), log) && OnlyMedia(old(st), st)
      ensures st.media == old(st).media.WithArtifact(id, a).(probed := old(st).media.probed[id := old(st).media.said[a.blob]])
        || (!ok && st.media == old(st).media)
      ensures calm ==> ok
    {
      var m' := st.media.WithArtifact(id, a).(probed := st.media.probed[id := st.media.said[a.blob]]);
      assert MarksPassed(st.media, m', id);
      ok := WriteMedia(m');
    }

    /** The prober refused the bytes of an output. */
    method NoteFailedProbe(id: ArtifactId, a0: Artifact, m: Metadata) returns (r: GateResult, a: Artifact)
      requires Valid() && !IsDone(st.job.status) && id in st.media.artifacts && st.media.artifacts[id] == a0
      modifies this`st, this`log
      ensures Valid() && Grew(old(log), log) && OnlyMedia(old(st), st) && OnlyAbout(id, old(st).media, st.media)
      ensures r != GateOk && (calm ==> r == MediaError(ProbeFault))
      ensures r.MediaError? ==> id in st.media.artifacts && st.media.artifacts[id] == ProbeMarked(a0, m, ProbeFailed, Failed)
      ensures st.media.variants == old(st).media.variants
    {
      a := ProbeMarked(a0, m, ProbeFailed, Failed);
      var ok := UpdateArtifact(id, a);
      r := if ok then MediaError(ProbeFault) else StoreError;
    }

    /** The probe of an output whose bytes were loaded. */
    method ProbeLoaded(id: ArtifactId, a0: Artifact, w: World) returns (r: GateResult, a: Artifact, m: Metadata)
      requires Valid() && !IsDone(st.job.status) && a0.kind.VideoKind? && id in st.media.artifacts && st.media.artifacts[id] == a0
      modifies this`st, this`log
      ensures Valid() && Grew(old(log), log) && OnlyMedia(old(st), st) && OnlyAbout(id, old(st).media, st.media)
      ensures calm ==> r != StoreError
      ensures r == GateOk ==>
        && id in st.media.artifacts && st.media.artifacts[id] == a && id in st.media.probed && st.media.probed[id] == m
        && a == ProbeMarked(a0, m, ProbePassed, Ready)
      ensures st.media.variants == old(st).media.variants
      ensures calm && w.willing ==> r == GateOk
    {
      var ok;
      ok, m := ProbeVideo(a0.blob, w);
      if !ok {
        r, a := NoteFailedProbe(id, a0, m);
        return;
      }
      a := ProbeMarked(a0, m, ProbePassed, Ready);
      ok := MarkPassed(id, a);
      r := if ok then GateOk else StoreError;
    }

    /** Load an output and its bytes, and probe it. */
    method ProbeOriginal(id: ArtifactId, w: World) returns (r: GateResult, a: Artifact, m: Metadata)
      requires Valid() && !IsDone(st.job.status)
      modifies this`st, this`log
      ensures Valid() && Grew(old(log), log) && OnlyMedia(old(st), st) && OnlyAbout(id, old(st).media, st.media)
      ensures calm ==> r != StoreError
      ensures r == GateOk ==>
        && id in st.media.artifacts && st.media.artifacts[id] == a && id in st.media.probed && st.media.probed[id] == m
        && a.kind.VideoKind? && a.meta.probeStatus.ProbePassed? && a.status.Ready? && Carries(a, m)
      ensures st.media.variants == old(st).media.variants
      ensures calm && w.willing && r != GateOk ==> !IsVideo(st.media, id)
    {
      var found := Serve(w);
      var loaded := Serve(w);
      var slot := Serve(w);
      m := NoMetadata;
      a := VideoGate.Artifact(Blob("", ""), TextKind, "", 0, 0, NoMetadata, Processing);
      if !found || id !in st.media.artifacts {
        return MediaError(ProbeFault), a, m;
      }
      a := st.media.artifacts[id];
      if !a.kind.VideoKind? || !loaded || !slot {
        r := Reject(id, a, ProbeFault);
        return;
      }
      r, a, m := ProbeLoaded(id, a, w);
    }

    /** One output through the gate. */
    method ProbeOutput(id: ArtifactId, contract: Option<Contract>, w: World) returns (r: GateResult)
      requires Valid() && !IsDone(st.job.status)
      modifies this`st, this`log
      ensures Valid() && Grew(old(log), log) && OnlyMedia(old(st), st) && OnlyAbout(id, old(st).media, st.media)
      ensures calm ==> r != StoreError
      ensures r == GateOk ==> ClearedAt(c.gate, contract, st.media, id)
      ensures MayTranscode(c.gate, contract) || st.media.variants == old(st).media.variants
      ensures calm && w.willing && c.gate.prober && r != GateOk ==> !Clearable(c.gate, contract, st.media, id)
    {
      var a, m;
      r, a, m := ProbeOriginal(id, w);
      if r != GateOk { return; }
      r := Judge(id, a, m, contract, w);
    }

    /** What becomes of an output that passed the probe. */
    method Judge(id: ArtifactId, a: Artifact, m: Metadata, contract: Option<Contract>, w: World) returns (r: GateResult)
      requires Valid() && !IsDone(st.job.status)
      requires id in st.media.artifacts && st.media.artifacts[id] == a && id in st.media.probed && st.media.probed[id] == m
      requires a.kind.VideoKind? && a.meta.probeStatus.ProbePassed? && a.status.Ready? && Carries(a, m)
      modifies this`st, this`log
      ensures Valid() && Grew(old(log), log) && OnlyMedia(old(st), st) && OnlyAbout(id, old(st).media, st.media)
      ensures calm ==> r != StoreError
      ensures r == GateOk ==> ClearedAt(c.gate, contract, st.media, id)
      ensures MayTranscode(c.gate, contract) || st.media.variants == old(st).media.variants
      ensures calm && w.willing && c.gate.prober && r != GateOk ==> !Clearable(c.gate, contract, st.media, id)
    {
      var ready := DeliveryReadyVideoOutput(contract, m, OriginalSize(a));
      if c.gate.rawPolicy != Never && ready {
        return GateOk;
      }
      if TranscodeAllowed(c.gate, contract) {
        r := TranscodeVideoVariant(id, a, w);
        return;
      }
      if DevRawAllowed(c.gate, contract) {
        return GateOk;
      }
      RefusedIsNotClearable(c.gate, contract, st.media, id);
      r := Reject(id, a, ProbeFault);
    }

    /** Every output through the gate. */
    method ProbeEach(outputs: seq<ArtifactId>, contract: Option<Contract>, w: World) returns (r: GateResult)
      requires Valid() && !IsDone(st.job.status)
      modifies this`st, this`log
      ensures Valid() && Grew(old(log), log) && OnlyMedia(old(st), st)
      ensures calm ==> r != StoreError
      ensures r == GateOk ==> forall i :: 0 <= i < |outputs| ==> ClearedAt(c.gate, contract, st.media, outputs[i])
      ensures MayTranscode(c.gate, contract) || st.media.variants == old(st).media.variants
      ensures calm && w.willing && c.gate.prober && r != GateOk ==>
        exists id :: id in outputs && !Clearable(c.gate, contract, st.media, id)
    {
      for i := 0 to |outputs|
        invariant Valid() && Grew(old(log), log) && OnlyMedia(old(st), st)
        invariant UpTo(ClearedIn(c.gate, contract, st.media), outputs, i)
        invariant MayTranscode(c.gate, contract) || st.media.variants == old(st).media.variants
      {
        ghost var was := st.media;
        r := ProbeOutput(outputs[i], contract, w);
        if r != GateOk { return; }
        StillCleared(c.gate, contract, was, st.media, outputs, i, outputs[i]);
      }
      AllAreCleared(c.gate, contract, st.media, outputs);
      return GateOk;
    }

    method MarkVideoProbeSkipped(outputs: seq<ArtifactId>) returns (r: GateResult)
      requires Valid() && !IsDone(st.job.status) && AllStored(st.media, outputs)
      modifies this`st, this`log
      ensures Valid() && Grew(old(log), log) && OnlyMedia(old(st), st)
      ensures st.media.variants == old(st).media.variants
      ensures r == GateOk || (r == StoreError && !calm)
      ensures r == GateOk ==> forall i :: 0 <= i < |outputs| ==> SkippedAt(st.media, outputs[i])
    {
      for i := 0 to |outputs|
        invariant Valid() && Grew(old(log), log) && OnlyMedia(old(st), st) && AllStored(st.media, outputs)
        invariant st.media.variants == old(st).media.variants
        invariant forall j :: 0 <= j < i ==> SkippedAt(st.media, outputs[j])
      {
        var found := Read();
        if !found {
          return StoreError;
        }
        var a := st.media.artifacts[outputs[i]];
        if !a.kind.VideoKind? {
          continue;
        }
        var ok := UpdateArtifact(outputs[i], ProbeMarked(a, NoMetadata, ProbeSkipped, Ready));
        if !ok {
          return StoreError;
        }
      }
      return GateOk;
    }

    method MarkVideoProbeFailed(outputs: seq<ArtifactId>) returns (ok: bool)
      requires Valid() && !IsDone(st.job.status) && AllStored(st.media, outputs)
      modifies this`st, this`log
      ensures Valid() && Grew(old(log), log) && OnlyMedia(old(st), st)
      ensures st.media.variants == old(st).media.variants
      ensures calm ==> ok
      ensures ok ==> forall i :: 0 <= i < |outputs| ==> FailedAt(st.media, outputs[i])
    {
      for i := 0 to |outputs|
        invariant Valid() && Grew(old(log), log) && OnlyMedia(old(st), st) && AllStored(st.media, outputs)
        invariant st.media.variants == old(st).media.variants
        invariant forall j :: 0 <= j < i ==> FailedAt(st.media, outputs[j])
      {
        ok := Read();
        if !ok { return; }
        ok := MarkArtifactProbeFailed(outputs[i], st.media.artifacts[outputs[i]]);
        if !ok { return; }
      }
      return true;
    }

    /** The gate itself, for the outputs of a video job in postprocessing. */
    method RunGate(outputs: seq<ArtifactId>, w: World) returns (r: GateResult)
      requires Valid() && !IsDone(st.job.status) && AllStored(st.media, outputs)
      modifies this`st, this`log
      ensures Valid() && Grew(old(log), log) && OnlyMedia(old(st), st)
      ensures calm ==> r != StoreError
      ensures r == GateOk ==> GatePassed(c.gate, ContractOf(c, st.tasks), st.media, outputs)
      ensures MayTranscode(c.gate, ContractOf(c, st.tasks)) || st.media.variants == old(st).media.variants
      ensures calm && w.willing && outputs == st.job.outputs && r != GateOk ==> GateRefuses(c, st)
    {
      if |outputs| == 0 {
        return MediaError(ProbeFault);
      }
      if !c.gate.prober && !c.gate.requireProbe {
        r := MarkVideoProbeSkipped(outputs);
        return;
      }
      if !c.gate.prober || !c.gate.objectStore {
        var ok := MarkVideoProbeFailed(outputs);
        return if ok then MediaError(ProbeFault) else StoreError;
      }
      var listed := Read();   // the job's tasks
      if !listed {
        return MediaError(ProbeFault);
      }
      r := ProbeEach(outputs, ContractOf(c, st.tasks), w);
    }

    /** A video enters postprocessing and goes through the gate. */
    method ProbeVideoOutputs(job0: Job, w: World) returns (outcome: ProbeOutcome, job: Job)
      requires Valid() && st.job == job0 && job0.status == ProviderSucceeded
      modifies this`st, this`log
      ensures Valid() && Grew(old(log), log)
      ensures st == old(st).(job := old(st).job.(status := st.job.status), media := st.media)
      ensures outcome != ProbeError ==> st.job == job && job.status == GateStatus(job0)
      ensures outcome == ProbeOk ==> GateOpen(c, st)
      ensures job0.modality != VideoModality ==> outcome == ProbeOk
      ensures calm && w.willing && outcome == ProbeRejected ==> GateRefuses(c, st)
      ensures calm ==> outcome != ProbeError
    {
      if !job0.modality.VideoModality? {
        return ProbeOk, job0;
      }
      var ok;
      ok, job := SetStatus(job0, Postprocessing);
      if !ok { return ProbeError, job; }
      HasOutputs();
      var r := RunGate(job.outputs, w);
      outcome := match r case GateOk => ProbeOk case MediaError(_) => ProbeRejected case StoreError => ProbeError;
    }

    method ModerateOutput(job0: Job, w: World) returns (ok: bool, blocked: bool)
      requires Valid() && st.job == job0
      requires job0.status == GateStatus(job0)
      modifies this`st, this`log
      ensures Valid() && Grew(old(log), log)
      ensures blocked == w.blocked
      ensures ok && !blocked ==> st == old(st)
      ensures calm ==> ok
      ensures calm && blocked ==> EndedQuietly(old(st), st, Rejected) && !st.hold.Reserved? && st == AfterBlocked(old(st))
    {
      blocked := w.blocked;
      ok := Read();
      if !ok || !blocked { return; }
      var job;
      ok, job := SetStatus(job0, Rejected);
      if !ok { return; }
      ok := ReleaseForJob();
    }

    /** A task succeeded: store, probe, moderate, hand over to delivery. gate is what the
        video gate said. */
    method ApplySuccess(job0: Job, m: Msg, urls: nat, w: World) returns (ok: bool, ghost gate: ProbeOutcome)
      requires Valid() && st.job == job0 && !IsDone(job0.status)
      modifies this`st, this`log
      ensures Valid() && Grew(old(log), log)
      ensures calm ==> ok && SuccessOutcome(c, old(st), m, urls, w, gate, st)
    {
      var failure, job;
      ghost var fetched;
      gate := ProbeOk;
      failure, job, fetched := SaveOutputs(job0, urls, w);
      if failure.Some? {
        ok := HandleFailure(job, m, failure.value);
        return;
      }
      ok, gate := Succeed(job, m, w);
    }

    /** The outputs are stored. */
    method Succeed(job0: Job, m: Msg, w: World) returns (ok: bool, ghost gate: ProbeOutcome)
      requires Valid() && st.job == job0 && !IsDone(job0.status)
      modifies this`st, this`log
      ensures Valid() && Grew(old(log), log)
      ensures calm ==> ok && GateOutcome(c, old(st), w, gate, st)
    {
      var job;
      gate := ProbeOk;
      ok, job := SetStatus(job0, ProviderSucceeded);
      if !ok { return; }
      ok, gate := GateAndHandOver(job, m, w);
    }

    method GateAndHandOver(job0: Job, m: Msg, w: World) returns (ok: bool, ghost gate: ProbeOutcome)
      requires Valid() && st.job == job0 && job0.status == ProviderSucceeded
      modifies this`st, this`log
      ensures Valid() && Grew(old(log), log)
      ensures calm ==> ok && GateOutcome(c, old(st), w, gate, st)
    {
      var outcome, job := ProbeVideoOutputs(job0, w);
      gate := outcome;
      match outcome {
        case ProbeError => ok := false;
        case ProbeRejected => ok := HandleMediaFailure(job);
        case ProbeOk => ok := HandOver(job, m, w);
      }
    }

    method HandOver(job0: Job, m: Msg, w: World) returns (ok: bool)
      requires Valid() && st.job == job0 && job0.status == GateStatus(job0) && GateOpen(c, st)
      modifies this`st, this`log
      ensures Valid() && Grew(old(log), log)
      ensures calm ==> ok && st == if w.blocked then AfterBlocked(old(st)) else AfterHandOver(old(st))
    {
      var blocked, job;
      ok, blocked := ModerateOutput(job0, w);
      if !ok || blocked { return; }
      ok, job := SetStatus(job0, ResultReady);
      if !ok { return; }
      ok := Publish(Delivery, 0);
    }

    /** Publishes the next poll of a task that is still running. */
    method PollAgain(job0: Job, m: Msg, status: JobStatus) returns (ok: bool)
      requires Valid() && st.job == job0 && !IsDone(job0.status)
      requires status == ProviderPending || status == ProviderProcessing
      requires LastRunning(st.tasks)
      modifies this`st, this`log
      ensures Valid() && Grew(old(log), log)
      ensures calm ==> ok && st == AfterPolling(old(st), m, status)
    {
      var job;
      ok, job := SetStatus(job0, status);
      if !ok { return; }
      ok := Publish(Poll, m.attempt + 1);
    }

    /** What the provider's status makes of the job. */
    method ApplyResult(job0: Job, status: TaskStatus, class_: ErrorClass, urls: nat, m: Msg, w: World)
      returns (ok: bool, ghost gate: ProbeOutcome)
      requires Valid() && st.job == job0 && !IsDone(job0.status) && |st.tasks| > 0
      modifies this`st, this`log
      ensures Valid() && Grew(old(log), log)
      ensures calm ==> ok && ResultOutcome(c, old(st), m, status, class_, urls, w, gate, st)
    {
      gate := ProbeOk;
      ok := UpdateTask(status, class_);
      if !ok { return; }
      match status {
        case TaskSucceeded => ok, gate := ApplySuccess(job0, m, urls, w);
        case TaskProcessing => ok := PollAgain(job0, m, ProviderProcessing);
        case TaskPending => ok := PollAgain(job0, m, ProviderPending);
        case TaskFailed => ok := HandleFailure(job0, m, class_);
        case TaskCancelled =>
          var _, _ := SetStatus(job0, Cancelled);
          ok := true;
      }
    }

    /** A poll that failed: ask again later, or give up on it. */
    method AfterPollError(job: Job, m: Msg, t: Task, class_: ErrorClass) returns (ok: bool)
      requires Valid() && st.job == job && !IsDone(job.status) && |st.tasks| > 0 && t == st.tasks[|st.tasks| - 1]
      modifies this`st, this`log
      ensures Valid() && Grew(old(log), log)
      ensures calm ==> ok && st == AfterFailedPoll(c, old(st), m, t, class_)
    {
      PollDecision(c, st, m, t, class_);
      if ShouldKeepPolling(job, t, class_, m.attempt) {
        ok := PollAgain(job, m, if t.status.TaskProcessing? then ProviderProcessing else ProviderPending);
      } else {
        ok := HandleFailure(job, m, class_);
      }
    }

    /** Asks the provider for the state of the last task once. */
    method PollOnce(job: Job, m: Msg, w: World) returns (ok: bool, ghost gate: ProbeOutcome)
      requires Valid() && st.job == job && !IsDone(job.status) && |st.tasks| > 0
      modifies this`st, this`log
      ensures Valid() && Grew(old(log), log)
      ensures calm ==> ok && PollOutcome(c, old(st), m, w, gate, st)
    {
      gate := ProbeOk;
      var t := st.tasks[|st.tasks| - 1];
      if HasDurableResult(t, job.outputs) {
        ok, gate := ApplyResult(job, t.status, t.class_, 0, m, w);
        return;
      }
      match w.poll {
        case PollError(class_) => ok := AfterPollError(job, m, t, class_);
        case PollResult(status, class_, urls) =>
          ok, gate := ApplyResult(job, status, class_, urls, m, w);
      }
    }

    // --------------------------------------------------------------- handlers

    /** The most recent task that is pending, processing or succeeded. */
    method ActiveTask() returns (ok: bool, active: Option<nat>)
      requires Valid()
      ensures calm ==> ok
      ensures ok && active.Some? ==> active.value == |st.tasks| - 1 && IsActive(st.tasks[active.value])
      ensures ok && active.None? ==> NoneActive(st.tasks)
      ensures ok ==> (active.Some? <==> InFlight(st.tasks))
    {
      HasTasks();
      active := None;
      ok := Read();
      if !ok { return; }
      var i := |st.tasks|;
      while i > 0
        invariant 0 <= i <= |st.tasks|
        invariant forall j :: i <= j < |st.tasks| ==> !IsActive(st.tasks[j])
      {
        i := i - 1;
        if IsActive(st.tasks[i]) {
          return true, Some(i);
        }
      }
    }

    /** A provider call: the provider sees the key number whatever it answers; without
        an answer the call failed. */
    method Submit(w: World) returns (answer: SubmitAnswer)
      requires Valid() && NoneActive(st.tasks) && st.job.status == DispatchingProvider
      modifies this`st, this`log
      ensures Valid() && Grew(old(log), log)
      ensures answer.Submitted? || calm ==> st == old(st).(submits := old(st).submits + [|old(st).tasks| + 1])
      ensures answer.Submitted? || calm ==> answer == w.submit
      ensures st == old(st).(submits := st.submits)
    {
      var reached := Commit(st.(submits := st.submits + [|st.tasks| + 1]));
      answer := w.submit;
      if !reached && answer.Submitted? {
        answer := SubmitError(InternalError);
      }
    }

    method PersistTask(t: Task) returns (ok: bool)
      requires Valid() && NoneActive(st.tasks) && !IsDone(st.job.status)
      requires t.key == |st.tasks| + 1 && t.key in st.submits
      modifies this`st, this`log
      ensures Valid() && Grew(old(log), log)
      ensures st == old(st) || st == old(st).(tasks := old(st).tasks + [t])
      ensures ok ==> st == old(st).(tasks := old(st).tasks + [t])
      ensures calm ==> ok
    {
      ok := Commit(st.(tasks := st.tasks + [t]));
    }

    method RecordTask(job0: Job, t: Task) returns (ok: bool, job: Job)
      requires Valid() && st.job == job0 && job0.status == DispatchingProvider
      requires NoneActive(st.tasks) && t.key == |st.tasks| + 1 && t.key in st.submits
      modifies this`st, this`log
      ensures Valid() && Grew(old(log), log)
      ensures ok ==> st == WithTask(old(st), t) && st.job == job
      ensures calm ==> ok
    {
      job := job0;
      ok := PersistTask(t);
      if ok {
        ok, job := SetStatus(job0, ProviderSubmitted);
      }
    }

    /** Records the accepted task, then polls it or leaves that to the poll stream. */
    method FollowUp(job0: Job, m: Msg, t: Task, w: World) returns (ok: bool, ghost gate: ProbeOutcome)
      requires Valid() && st.job == job0 && job0.status == DispatchingProvider
      requires NoneActive(st.tasks) && t.key == |st.tasks| + 1 && t.key in st.submits
      modifies this`st, this`log
      ensures Valid() && Grew(old(log), log)
      ensures calm ==> ok && FollowUpOutcome(c, old(st), m, t, w, gate, st)
    {
      var job;
      gate := ProbeOk;
      ok, job := RecordTask(job0, t);
      if !ok { return; }
      if ShouldDeferInitialPoll(job, t) {
        ok := Publish(Poll, 0);
      } else {
        ok, gate := PollOnce(job, m, w);
      }
    }

    /** Assembling the request and choosing providers; may be impossible for good. */
    method PrepareRequest(w: World) returns (ok: bool, failure: Option<ErrorClass>)
      ensures calm ==> ok
      ensures failure == if w.request.RequestImpossible? then Some(w.request.class_)
        else if w.routed then None else Some(UnsupportedCapability)
    {
      ok := Read();
      failure :=
        if w.request.RequestImpossible? then Some(w.request.class_)
        else if !w.routed then Some(UnsupportedCapability)
        else None;
    }

    method Launch(job: Job, m: Msg, w: World) returns (ok: bool, ghost gate: ProbeOutcome)
      requires Valid() && st.job == job && job.status == DispatchingProvider && NoneActive(st.tasks)
      modifies this`st, this`log
      ensures Valid() && Grew(old(log), log)
      ensures calm ==> ok && LaunchOutcome(c, old(st), m, w, gate, st)
    {
      gate := ProbeOk;
      ok := Read();
      if !ok { return; }
      var attempt := |st.tasks| + 1;
      var failure;
      ok, failure := PrepareRequest(w);
      if !ok { return; }
      if failure.Some? {
        ok := HandleFailure(job, m, failure.value);
      } else {
        ok, gate := SubmitOnce(job, m, attempt, w);
      }
    }

    method SubmitOnce(job: Job, m: Msg, attempt: nat, w: World) returns (ok: bool, ghost gate: ProbeOutcome)
      requires Valid() && st.job == job && job.status == DispatchingProvider && NoneActive(st.tasks)
      requires attempt == |st.tasks| + 1
      modifies this`st, this`log
      ensures Valid() && Grew(old(log), log)
      ensures calm && w.request.RequestBuilt? && w.routed ==> ok && LaunchOutcome(c, old(st), m, w, gate, st)
    {
      gate := ProbeOk;
      var answer := Submit(w);
      match answer {
        case SubmitError(class_) => ok := HandleFailure(job, m, class_);
        case Submitted(provider, model, asyncProvider, status, class_) =>
          ok, gate := FollowUp(job, m, Task(attempt, provider, model, asyncProvider, status, class_), w);
      }
    }

    /** A provider task is in flight: resume it instead of submitting again. */
    method Resume(job0: Job, m: Msg, w: World) returns (ok: bool, ghost gate: ProbeOutcome)
      requires Valid() && st.job == job0 && !IsDone(job0.status) && |st.tasks| > 0
      modifies this`st, this`log
      ensures Valid() && Grew(old(log), log)
      ensures calm ==> ok && PollOutcome(c,
        if job0.status == DispatchingProvider then InStatus(old(st), ProviderSubmitted) else old(st), m, w, gate, st)
    {
      gate := ProbeOk;
      var job := job0;
      ok := true;
      if job.status == DispatchingProvider {
        ok, job := SetStatus(job, ProviderSubmitted);
        if !ok { return; }
      }
      ok := Read();   // the provider is registered
      if !ok { return; }
      ok, gate := PollOnce(job, m, w);
    }

    /** GenerationWorker.Process. */
    method GenerationProcess(m: Msg, w: World) returns (ok: bool, ghost gate: ProbeOutcome)
      requires Valid()
      modifies this`st, this`log
      ensures Valid() && Grew(old(log), log)
      ensures calm ==> ok && GenerationOutcome(c, old(st), m, w, gate, st)
    {
      gate := ProbeOk;
      ok := Read();
      if !ok { return; }
      var job := st.job;
      if IsDone(job.status) { return; }
      var active;
      ok, active := ActiveTask();
      if !ok { return; }
      if active.Some? {
        ok, gate := Resume(job, m, w);
        return;
      }
      ok, gate := Start(job, m, w);
    }

    method Start(job0: Job, m: Msg, w: World) returns (ok: bool, ghost gate: ProbeOutcome)
      requires Valid() && st.job == job0 && !IsDone(job0.status) && NoneActive(st.tasks)
      modifies this`st, this`log
      ensures Valid() && Grew(old(log), log)
      ensures calm ==> ok && LaunchOutcome(c, InStatus(old(st), DispatchingProvider), m, w, gate, st)
    {
      var job;
      gate := ProbeOk;
      ok, job := SetStatus(job0, DispatchingProvider);
      if !ok { return; }
      ok, gate := Launch(job, m, w);
    }

    /** PollWorker.Process. */
    method PollProcess(m: Msg, w: World) returns (ok: bool, ghost gate: ProbeOutcome)
      requires Valid()
      modifies this`st, this`log
      ensures Valid() && Grew(old(log), log)
      ensures calm ==> ok && PollMessageOutcome(c, old(st), m, w, gate, st)
    {
      gate := ProbeOk;
      ok := Read();
      if !ok { return; }
      var job := st.job;
      if IsDone(job.status) { return; }
      ok := Read();
      if !ok || |st.tasks| == 0 { return; }
      var t := st.tasks[|st.tasks| - 1];
      if IsTerminalTask(t.status) {
        if HasDurableResult(t, []) {
          ok, gate := ApplyResult(job, t.status, t.class_, 0, m, w);
        }
        return;
      }
      ok := Read();   // the provider is registered
      if !ok { return; }
      ok, gate := PollOnce(job, m, w);
    }

    // --------------------------------------------------------------- delivery

    /** DeliveryBiller.CaptureForJob. */
    method CaptureForJob() returns (ok: bool)
      requires Valid() && Handed(st) && Charge(st.job) > 0
      modifies this`st, this`log
      ensures Valid() && Grew(old(log), log)
      ensures st == old(st) || (old(st).hold.Reserved? && st == old(st).(hold := Captured(Charge(st.job))))
      ensures ok ==> Collected(c, st)
      ensures ok ==> (st.hold.Captured? <==> !old(st).hold.Released?)
      ensures calm && (st.hold.Reserved? || st.hold.Captured? || (st.hold.Released? && c.biller.Shipped?)) ==> ok
      ensures calm && !ok ==> st == old(st)
    {
      HasMoney();
      ok := Read();
      if !ok { return; }
      match st.hold {
        case NoHold => ok := false;
        case Captured(_) =>
        case Reserved => ok := Commit(st.(hold := Captured(Charge(st.job))));
        case Released => ok := c.biller.Shipped?;
      }
    }

    /** Charges the job. A job whose charge was just recorded was really charged
        exactly when its hold had not been released before the call. */
    method CaptureReserved(job: Job) returns (ok: bool)
      requires Valid() && st.job == job && Handed(st)
      modifies this`st, this`log
      ensures Valid() && Grew(old(log), log)
      ensures st == old(st).(hold := st.hold, job := old(st).job.(costCaptured := st.job.costCaptured))
      ensures st.hold == old(st).hold || (old(st).hold.Reserved? && st.hold.Captured?)
      ensures ok ==> Charge(job) <= 0 || st.job.costCaptured == Charge(job)
      ensures ok && Charge(job) > 0 && job.costCaptured != Charge(job) ==>
          (st.hold == Captured(Charge(job)) <==> !old(st).hold.Released?)
      ensures calm && Collectible(c, old(st)) ==> ok
      ensures calm && !ok ==> st == old(st)
    {
      var amount := Charge(job);
      if amount <= 0 || job.costCaptured == amount {
        return true;
      }
      ok := CaptureForJob();
      if !ok { return; }
      ok := Commit(st.(job := st.job.(costCaptured := amount)));
    }

    /** The first delivery row of a job. */
    method NewRow(job: Job) returns (ok: bool, del: Row)
      requires Valid() && st.job == job && st.row.None?
      ensures ok ==> IsRowFor(st, del) && CreatesRow(c, st, st.(row := Some(del)))
      ensures calm ==> ok
    {
      del := Row(RowPending, 1, MediaBody, 0, None);
      ok := Read();   // artifact metadata
      if !ok { return; }
      HasOutputs();
      var text: string := *;   // the notice, or the artifact's text
      var id := if job.hasPlaceholder then 1 else 0;
      if IsFailureNotice(job) {
        del := del.(body := TextBody(text), messageId := id);
      } else if job.outputs == [] {
        del := del.(body := TextBody(NO_RESULT));
      } else {
        match st.media.artifacts[job.outputs[0]].kind {
          case ImageKind =>
          case VideoKind =>
          case _ => del := del.(body := TextBody(text), messageId := id);
        }
      }
      HasChat();
    }

    /** The delivery row, created on the first run. */
    method EnsureDelivery(job: Job) returns (ok: bool, del: Row)
      requires Valid() && st.job == job
      modifies this`st, this`log
      ensures Valid() && Grew(old(log), log)
      ensures st == old(st).(row := st.row)
      ensures ok ==> st.row == Some(del) && del.attemptNo == AttemptNo(old(st).row)
      ensures ok && old(st).row.None? ==> del.status.RowPending? && IsRowFor(old(st), del)
      ensures old(st).row.Some? ==> st == old(st)
      ensures calm ==> ok
    {
      del := Row(RowPending, 1, MediaBody, 0, None);
      ok := Read();
      if !ok { return; }
      if st.row.Some? {
        return true, st.row.value;
      }
      ok, del := NewRow(job);
      if ok {
        ok := Commit(st.(row := Some(del)));
      }
    }

    /** Sends chunk i; VK may refuse, or accept and lose the answer. */
    method SendChunk(i: nat, w: World) returns (ok: bool, id: nat)
      requires Valid() && st.row.Some?
      requires i < |Payload(st.row.value.body)| && i <= Shown(st.chat)
      requires i == 0 && st.row.value.body.TextBody? && c.control ==> st.row.value.messageId == 0
      requires st.row.value.body.MediaBody? ==> st.row.value.attached.Some?
      modifies this`st, this`log
      ensures Valid() && Grew(old(log), log)
      ensures st == old(st).(chat := st.chat) && Lead(st.chat) == old(Lead(st.chat))
      ensures ok ==> i < Shown(st.chat)
      ensures ok ==> id == Lead(st.chat) + i + 1
      ensures w.willing ==> ok
    {
      HasChat();
      var row := st.row.value;
      var rid, text := c.rid(i), Payload(row.body)[i];
      var s' := st.(chat := Post(st.chat, rid, text));
      assert SendsChunk(c, st, s', i);
      SendsChunkKeepsChat(c, st, s', i);
      ok := Attempt(s', w.willing);
      id := 0;
      if ok {
        FirstVisible(i);
        id := RidIndex(st.chat, rid) + 1;
      }
    }

    /** A visible chunk carries its random id, and it is the only one that does. */
    lemma FirstVisible(i: nat)
      requires Valid() && st.row.Some? && i < Shown(st.chat)
      requires i == 0 && st.job.hasPlaceholder ==> Lead(st.chat) == 1
      ensures HasRid(st.chat, c.rid(i))
      ensures forall k :: 0 <= k < |st.chat| && st.chat[k].rid == Some(c.rid(i)) ==> k == Lead(st.chat) + i
    {
      HasChat();
      assert st.chat[Lead(st.chat) + i].rid == Some(c.rid(i));
      forall k | 0 <= k < |st.chat| && st.chat[k].rid == Some(c.rid(i)) ensures k == Lead(st.chat) + i {
        assert c.rid(k - Lead(st.chat)) == c.rid(i);
      }
    }

    /** Sends the first chunk, or puts it in place of the message the row names. */
    method SendFirst(w: World) returns (ok: bool, id: nat)
      requires Valid() && st.row.Some? && st.row.value.body.TextBody?
      modifies this`st, this`log
      ensures Valid() && Grew(old(log), log)
      ensures st == old(st).(chat := st.chat)
      ensures ok ==> 1 <= Shown(st.chat)
      ensures ok && c.control ==> id == Lead(st.chat) + 1
      ensures w.willing ==> ok
    {
      HasChat();
      var row := st.row.value;
      if row.messageId > 0 && c.control {
        var k := row.messageId - 1;
        id := row.messageId;
        var s' := st.(chat := st.chat[k := st.chat[k].(text := Some(Payload(row.body)[0]))]);
        assert EditsFirst(c, st, s');
        EditsFirstKeepsChat(c, st, s');
        ok := Attempt(s', w.willing);
      } else {
        ok, id := SendChunk(0, w);
      }
    }

    method SendTextDelivery(w: World) returns (ok: bool, id: nat)
      requires Valid() && st.row.Some? && st.row.value.body.TextBody?
      modifies this`st, this`log
      ensures Valid() && Grew(old(log), log)
      ensures st == old(st).(chat := st.chat)
      ensures ok ==> Shown(st.chat) == |Payload(st.row.value.body)|
      ensures ok && c.control ==> id == Lead(st.chat) + 1
      ensures w.willing ==> ok
    {
      ok, id := SendFirst(w);
      if !ok { return; }
      var n := |Payload(st.row.value.body)|;
      ghost var lead := Lead(st.chat);
      var i := 1;
      while i < n
        invariant Valid() && Grew(old(log), log)
        invariant st == old(st).(chat := st.chat)
        invariant 1 <= i <= n && i <= Shown(st.chat) && Lead(st.chat) == lead
      {
        ok := SendNext(i, w);
        if !ok { return; }
        i := i + 1;
      }
      HasChat();
    }

    method SendNext(i: nat, w: World) returns (ok: bool)
      requires Valid() && st.row.Some?
      requires 1 <= i < |Payload(st.row.value.body)| && i <= Shown(st.chat) && st.row.value.body.TextBody?
      modifies this`st, this`log
      ensures Valid() && Grew(old(log), log)
      ensures st == old(st).(chat := st.chat) && Lead(st.chat) == old(Lead(st.chat))
      ensures ok ==> i < Shown(st.chat)
      ensures w.willing ==> ok
    {
      var id;
      ok, id := SendChunk(i, w);
    }

    method UpdateRow(del: Row) returns (ok: bool)
      requires Valid() && st.row.Some? && UpdatesRow(c, st, st.(row := Some(del)))
      modifies this`st, this`log
      ensures Valid() && Grew(old(log), log)
      ensures st == old(st) || st == old(st).(row := Some(del))
      ensures ok ==> st.row == Some(del)
      ensures calm ==> ok
    {
      ok := Commit(st.(row := Some(del)));
    }

    /** Notes that a delivery attempt begins. */
    method CountSend()
      requires Valid()
      modifies this`st, this`log
      ensures Valid() && Grew(old(log), log)
      ensures st == old(st).(sends := old(st).sends + 1)
    {
      var _ := Attempt(st.(sends := st.sends + 1), true);
    }

    /** The object of the job's first output that delivery takes. */
    method PickObject(w: World) returns (blob: Option<Blob>)
      requires Valid()
      ensures blob.Some? && IsDone(st.job.status) ==> MayAttach(c, st, blob)
      ensures w.willing && HasObject(c, st) ==> blob.Some?
    {
      var loaded := Serve(w);
      var listed := Serve(w);
      if !loaded || st.job.outputs == [] || st.job.outputs[0] !in st.media.artifacts {
        return None;
      }
      var id := st.job.outputs[0];
      var a := st.media.artifacts[id];
      if a.kind.VideoKind? && !listed {
        return None;
      }
      var chosen := MediaObjectForDelivery(a, st.media.VariantsOf(id), c.deliveryPolicy);
      blob := if chosen.Deliver? then Some(chosen.blob) else None;
    }

    /** Uploads the media and remembers the attachment on the row. */
    method EnsureMediaAttachment(del0: Row, w: World) returns (ok: bool, del: Row)
      requires Valid() && st.row == Some(del0) && IsDone(st.job.status)
      modifies this`st, this`log
      ensures Valid() && Grew(old(log), log)
      ensures st == old(st).(row := st.row)
      ensures del == del0.(attached := del.attached)
      ensures st.row.Some? && st.row.value == del0.(attached := st.row.value.attached)
      ensures del.attached == st.row.value.attached || MayAttach(c, st, del.attached)
      ensures ok ==> st.row == Some(del) && del.attached.Some?
      ensures calm && w.willing && CanGo(c, old(st), del0) && del0.body.MediaBody? ==> ok
    {
      HasChat();
      del := del0;
      if del.attached.Some? {
        return true, del;
      }
      var blob := PickObject(w);
      ok := Serve(w);   // loading, uploading or signing
      if !ok || blob.None? {
        return false, del;
      }
      del := del.(attached := blob);
      ok := UpdateRow(del);
    }

    /** Sends everything that the row stands for. */
    method SendBody(del0: Row, w: World) returns (ok: bool, del: Row, id: nat)
      requires Valid() && st.row == Some(del0) && IsDone(st.job.status)
      modifies this`st, this`log
      ensures Valid() && Grew(old(log), log)
      ensures st == old(st).(row := st.row, chat := st.chat) && st.row.Some?
      ensures del == del0.(attached := del.attached) && st.row.value == del0.(attached := st.row.value.attached)
      ensures del.attached == st.row.value.attached || MayAttach(c, st, del.attached)
      ensures ok ==> Shown(st.chat) == |Payload(del0.body)| && (del0.body.TextBody? && c.control ==> id == Lead(st.chat) + 1)
      ensures calm && w.willing && CanGo(c, old(st), del0) ==> ok
    {
      del, id := del0, 0;
      if del0.body.MediaBody? {
        ok, del := EnsureMediaAttachment(del0, w);
        if !ok { return; }
        ok, id := SendChunk(0, w);
        HasChat();
      } else {
        ok, id := SendTextDelivery(w);
      }
    }

    /** One delivery attempt. On failure `del` is what the handler has in memory. */
    method Send(del0: Row, w: World) returns (ok: bool, del: Row)
      requires Valid() && st.row == Some(del0) && !del0.status.RowSent?
      requires !st.hold.Captured? && st.job.costCaptured == 0 && IsDone(st.job.status)
      modifies this`st, this`log
      ensures Valid() && Grew(old(log), log)
      ensures OnlySending(old(st), st) && st.row.Some? && st.row.value.body == del0.body
      ensures del.attached == st.row.value.attached || MayAttach(c, st, del.attached)
      ensures del.body == del0.body && del.attemptNo == del0.attemptNo && RowIdOk(c, st, del)
      ensures ok ==> st.row == Some(del) && del.status.RowSent?
      ensures st.sends == old(st).sends + 1
      ensures calm && w.willing && CanGo(c, old(st), del0) ==> ok
    {
      CountSend();
      var id;
      ok, del, id := SendBody(del0, w);
      StoredIdOk();
      if !ok { return; }
      del := del.(status := RowSent, messageId := id);
      ok := UpdateRow(del);
    }

    lemma StoredIdOk()
      requires Valid() && st.row.Some?
      ensures RowIdOk(c, st, st.row.value)
    {
      HasChat();
    }

    /** A failed attempt: count it, give up once the budget is exhausted. */
    method AfterFailedSend(del0: Row, job: Job) returns (ok: bool)
      requires Valid() && st.job == job && st.row.Some? && st.row.value.body == del0.body
      requires RowIdOk(c, st, del0)
      requires del0.attached == st.row.value.attached || MayAttach(c, st, del0.attached)
      requires !st.hold.Captured? && job.costCaptured == 0
      requires job.status == Delivering || job.status == FailedTerminal
      modifies this`st, this`log
      ensures Valid() && Grew(old(log), log)
      ensures calm ==> FailureCounted(c, old(st), st, del0, ok)
    {
      var del := del0.(status := RowRetrying, attemptNo := del0.attemptNo + 1);
      var _ := UpdateRow(del);
      if del.attemptNo <= c.maxSends {
        return false;
      }
      ok := Abandon(job);
    }

    /** The delivery budget is exhausted: keep the message, free the hold, fail. */
    method Abandon(job: Job) returns (ok: bool)
      requires Valid() && st.job == job && !st.hold.Captured? && job.costCaptured == 0
      requires job.status == Delivering || job.status == FailedTerminal
      modifies this`st, this`log
      ensures Valid() && Grew(old(log), log)
      ensures calm ==>
          && ok && HoldMayBeFreed(old(st), st) && !st.hold.Reserved?
          && st == old(st).(hold := st.hold, deadLetters := st.deadLetters,
                            job := old(st).job.(status := FailedTerminal))
          && st.deadLetters == old(st).deadLetters + 1
    {
      DeadLetter();
      ok := ReleaseReserved(job);
      if !ok { return; }
      var job';
      ok, job' := SetStatus(job, FailedTerminal);
    }

    /** Charge, then succeed. */
    method Settle(job0: Job) returns (ok: bool)
      requires Valid() && st.job == job0 && Handed(st)
      modifies this`st, this`log
      ensures Valid() && Grew(old(log), log)
      ensures st == old(st).(hold := st.hold, job := st.job) && SameTerms(old(st).job, st.job)
      ensures st.hold == old(st).hold || (old(st).hold.Reserved? && st.hold.Captured?)
      ensures calm && Collectible(c, old(st)) ==> ok
      ensures calm && ok ==> st.job.status == Succeeded
      ensures calm && !ok ==> st == old(st)
    {
      ok := CaptureReserved(job0);
      if !ok { return; }
      var job := st.job;
      ok, job := SetStatus(job, Succeeded);
    }

    /** An attempt; a failed one is counted, and the last one ends the job. */
    method TrySend(job: Job, del0: Row, w: World) returns (sent: bool, ok: bool)
      requires Valid() && st.job == job && !job.miniApp && st.row == Some(del0) && !del0.status.RowSent?
      requires job.status == Delivering || (job.status == FailedTerminal && IsFailureNotice(job))
      modifies this`st, this`log
      ensures Valid() && Grew(old(log), log)
      ensures sent ==> OnlySending(old(st), st) && IsSent(st.row) && st.sends == old(st).sends + 1
      ensures calm && !sent ==> DeliveryTurn(c, old(st), st, ok)
      ensures calm && w.willing && CanGo(c, old(st), del0) ==> sent
    {
      HasMoney();
      var del;
      sent, del := Send(del0, w);
      ok := sent;
      if !sent {
        ghost var s1 := st;
        ok := AfterFailedSend(del, job);
        if calm {
          FailureIsATurn(c, old(st), s1, st, del, ok);
        }
      }
    }

    /** The attempt, unless one succeeded before, and the charge. */
    method Transmit(job: Job, del0: Row, w: World) returns (ok: bool)
      requires Valid() && st.job == job && !job.miniApp && st.row == Some(del0)
      requires job.status == Delivering || (job.status == FailedTerminal && IsFailureNotice(job))
      modifies this`st, this`log
      ensures Valid() && Grew(old(log), log)
      ensures calm ==> DeliveryTurn(c, old(st), st, ok)
      ensures calm && w.willing && CanGo(c, old(st), del0) ==> GotThere(c, old(st), st, ok)
    {
      if !del0.status.RowSent? {
        var sent;
        sent, ok := TrySend(job, del0, w);
        if !sent { return; }
      }
      HasMoney();
      if IsFailureNotice(job) {
        return true;
      }
      ok := Settle(job);
    }

    /** Delivers to VK: the row, the attempt, the charge. */
    method Deliver(job: Job, w: World) returns (ok: bool)
      requires Valid() && st.job == job && !job.miniApp
      requires job.status == Delivering || (job.status == FailedTerminal && IsFailureNotice(job))
      modifies this`st, this`log
      ensures Valid() && Grew(old(log), log)
      ensures calm ==> DeliveryTurn(c, old(st), st, ok)
      ensures calm && w.willing && CanShow(c, old(st)) ==> GotThere(c, old(st), st, ok)
    {
      var del;
      ok, del := EnsureDelivery(job);
      if !ok { return; }
      ok := Transmit(job, del, w);
    }

    method Conclude(job: Job, w: World) returns (ok: bool)
      requires Valid() && st.job == job
      requires job.status == Delivering || (job.status == FailedTerminal && IsFailureNotice(job))
      modifies this`st, this`log
      ensures Valid() && Grew(old(log), log)
      ensures calm ==> DeliveryTurn(c, old(st), st, ok)
      ensures calm && w.willing && CanShow(c, old(st)) ==> GotThere(c, old(st), st, ok)
    {
      if job.miniApp {
        ok := Settle(job);
      } else {
        ok := Deliver(job, w);
      }
    }

    method DeliverResult(job0: Job, w: World) returns (ok: bool)
      requires Valid() && st.job == job0
      requires job0.status == ResultReady || job0.status == Delivering
      modifies this`st, this`log
      ensures Valid() && Grew(old(log), log)
      ensures calm ==> DeliveryTurn(c, old(st), st, ok)
      ensures calm && w.willing && CanShow(c, old(st)) ==> GotThere(c, old(st), st, ok)
    {
      var job;
      ok, job := SetStatus(job0, Delivering);
      if !ok { return; }
      ok := Conclude(job, w);
    }

    /** DeliveryWorker.Process. */
    method DeliveryProcess(m: Msg, w: World) returns (ok: bool)
      requires Valid()
      modifies this`st, this`log
      ensures Valid() && Grew(old(log), log)
      ensures calm && IsDue(old(st).job) ==> DeliveryTurn(c, old(st), st, ok)
      ensures calm && !IsDue(old(st).job) ==> ok && st == old(st)
      ensures calm && IsDue(old(st).job) && w.willing && CanShow(c, old(st)) ==> GotThere(c, old(st), st, ok)
    {
      ok := Read();
      if !ok { return; }
      var job := st.job;
      if !IsDeliverable(job) {
        return;
      }
      if IsFailureNotice(job) {
        ok := Conclude(job, w);
      } else {
        ok := DeliverResult(job, w);
      }
    }

    // ----------------------------------------------------------------- engine

    method Ack(m: Msg) returns (ok: bool)
      requires Valid() && m in st.msgs
      modifies this`st, this`log
      ensures Valid() && old(log) <= log
      ensures st == old(st) || st == Acked(old(st), m, true)
      ensures ok ==> st == Acked(old(st), m, true)
      ensures calm ==> ok
    {
      var fault: Fault := *;
      if calm {
        fault := Fine;
      }
      if fault != Refused {
        var s' := Acked(st, m, true);
        assert Acks(st, s');
        RunExtends(c, log, s');
        st, log := s', log + [s'];
      }
      ok := fault == Fine;
    }

    /** The handler that a message's stream is wired to. */
    method Handle(m: Msg) returns (ok: bool)
      requires Valid()
      modifies this`st, this`log
      ensures Valid() && Grew(old(log), log)
      ensures calm ==> Handled(c, old(st), m, st, ok)
    {
      var w: World := *;
      ghost var gate;
      match m.stream {
        case Generation =>
          ok, gate := GenerationProcess(m, w);
          if calm {
            GenerationIsHandled(c, old(st), m, w, gate, st);
          }
        case Poll =>
          ok, gate := PollProcess(m, w);
          if calm {
            PollIsHandled(c, old(st), m, w, gate, st);
          }
        case Delivery => ok := DeliveryProcess(m, w);
      }
    }

    lemma TurningIsCalm()
      requires Valid() && Turning() && calm
      ensures CalmInv(c, st)
    {
      CalmRunIsCalm(c, turns, |turns| - 1);
    }

    /** Handles a message, and acknowledges it if its handler succeeded. */
    method HandleAndAck(m: Msg) returns (done: bool, ghost acked: multiset<Msg>)
      requires Valid() && m in st.msgs
      modifies this`st, this`log
      ensures Valid() && old(log) <= log
      ensures acked <= multiset{m} && (done ==> acked == multiset{m})
      ensures old(st).msgs - acked <= st.msgs
      ensures calm ==> Turn(c, old(st), st)
    {
      acked := multiset{};
      done := Handle(m);
      ghost var before, ok := st, done;
      if done {
        done := Ack(m);
        if st != before {
          acked := multiset{m};
        }
      }
      HasMoney();
      if calm {
        IsATurn(c, old(st), m, before, ok, st);
      }
    }

    ghost method NoteTurn(was: Store)
      requires calm ==> IsCalmRun(c, turns) && turns[|turns| - 1] == was && Turn(c, was, st)
      modifies this`turns
      ensures Turning() && turns == if calm then old(turns) + [st] else old(turns)
    {
      if calm {
        CalmRunGrows(c, turns, st);
        turns := turns + [st];
      }
    }

    /** One message of a batch; it is acknowledged only if its handler succeeded. */
    method HandleOne(m: Msg) returns (done: bool, ghost acked: multiset<Msg>)
      requires Valid() && Turning() && m in st.msgs
      modifies this`st, this`log, this`turns
      ensures Valid() && Turning() && old(log) <= log
      ensures acked <= multiset{m} && (done ==> acked == multiset{m})
      ensures old(st).msgs - acked <= st.msgs
      ensures calm ==> Turn(c, old(st), st)
      ensures turns == if calm then old(turns) + [st] else old(turns)
    {
      done, acked := HandleAndAck(m);
      NoteTurn(old(st));
    }

    /** Message i of a batch, of whose predecessors some were acknowledged. */
    method DispatchOne(batch: seq<Msg>, i: nat, ghost all: multiset<Msg>, ghost acked: multiset<Msg>)
      returns (done: bool, ghost more: multiset<Msg>)
      requires Valid() && Turning() && i < |batch| && Accounted(all, st.msgs, batch, i, acked)
      modifies this`st, this`log, this`turns
      ensures Valid() && Turning() && old(log) <= log
      ensures Accounted(all, st.msgs, batch, i + 1, more) && |acked| <= |more| && (done ==> |acked| < |more|)
      ensures |turns| == |old(turns)| + if calm then 1 else 0
      ensures old(turns) <= turns
    {
      ghost var was, one := st.msgs, multiset{};
      StillThere(all, was, batch, i, acked);
      done, one := HandleOne(batch[i]);
      AccountedMore(all, was, st.msgs, batch, i, acked, one);
      more := acked + one;
    }

    /** Engine.dispatch: handle a batch, acknowledge what was handled without error.
        No message disappears without having been acknowledged; when calm, every message
        of the batch is one whole turn. */
    method Dispatch(batch: seq<Msg>) returns (handled: nat, ghost acked: multiset<Msg>)
      requires Valid() && Turning() && multiset(batch) <= st.msgs
      modifies this`st, this`log, this`turns
      ensures Valid() && Turning() && old(log) <= log
      ensures acked <= multiset(batch) && handled <= |acked|
      ensures old(st).msgs - acked <= st.msgs
      ensures calm ==> |turns| == |old(turns)| + |batch| && CalmInv(c, st)
    {
      handled, acked := 0, multiset{};
      var i := 0;
      while i < |batch|
        invariant Valid() && Turning() && old(log) <= log
        invariant 0 <= i <= |batch| && handled <= |acked|
        invariant Accounted(old(st).msgs, st.msgs, batch, i, acked)
        invariant calm ==> |turns| == |old(turns)| + i
      {
        var done;
        done, acked := DispatchOne(batch, i, old(st).msgs, acked);
        if done {
          handled := handled + 1;
        }
        i := i + 1;
      }
      if calm {
        TurningIsCalm();
      }
    }
  }

  lemma PollDecision(c: Config, s: Store, m: Msg, t: Task, class_: ErrorClass)
    ensures AfterFailedPoll(c, s, m, t, class_) ==
      if ShouldKeepPolling(s.job, t, class_, m.attempt)
      then AfterPolling(s, m, if t.status.TaskProcessing? then ProviderProcessing else ProviderPending)
      else AfterFailure(c, s, m, class_)
  {
  }

  lemma GenerationIsHandled(c: Config, s: Store, m: Msg, w: World, gate: ProbeOutcome, s': Store)
    requires m.stream.Generation? && GenerationOutcome(c, s, m, w, gate, s')
    ensures Handled(c, s, m, s', true)
  {
    if !IsOver(s.job.status) {
      GenerationAdvances(c, s, m, w, gate, s');
    }
  }

  lemma PollIsHandled(c: Config, s: Store, m: Msg, w: World, gate: ProbeOutcome, s': Store)
    requires m.stream.Poll? && PollMessageOutcome(c, s, m, w, gate, s')
    ensures Handled(c, s, m, s', true)
  {
    if !IsOver(s.job.status) && LastRunning(s.tasks) {
      PollSettles(c, s, m, w, gate, s');
    }
  }

  lemma IsATurn(c: Config, s: Store, m: Msg, before: Store, ok: bool, t: Store)
    requires m in s.msgs && Handled(c, s, m, before, ok) && t == Acked(before, m, ok)
    requires MoneyInv(c, t.job, t.hold, IsSent(t.row))
    ensures Turn(c, s, t)
  {
    assert TurnBy(c, s, m, before, ok, t);
  }

  lemma CalmRunGrows(c: Config, run: seq<Store>, s: Store)
    requires IsCalmRun(c, run) && Turn(c, run[|run| - 1], s)
    ensures IsCalmRun(c, run + [s])
  {
    var longer := run + [s];
    forall i | 0 <= i < |longer| - 1 ensures TurnAt(c, longer, i) {
      if i < |run| - 1 {
        assert TurnAt(c, run, i);
      }
    }
  }

  /** The first i messages of a batch were handled and some of them acknowledged. */
  ghost predicate Accounted(all: multiset<Msg>, now: multiset<Msg>, batch: seq<Msg>, i: nat, acked: multiset<Msg>)
  {
    && i <= |batch| && multiset(batch) <= all && all - acked <= now
    && acked <= multiset(batch[..i]) && acked <= multiset(batch)
  }

  lemma Cut(batch: seq<Msg>, i: nat)
    requires i < |batch|
    ensures multiset(batch[..i + 1]) == multiset(batch[..i]) + multiset{batch[i]}
    ensures multiset(batch[..i + 1]) <= multiset(batch)
  {
    assert batch[..i + 1] == batch[..i] + [batch[i]];
    assert batch == batch[..i + 1] + batch[i + 1..];
  }

  lemma StillThere(all: multiset<Msg>, now: multiset<Msg>, batch: seq<Msg>, i: nat, acked: multiset<Msg>)
    requires Accounted(all, now, batch, i, acked) && i < |batch|
    ensures batch[i] in now
  {
    Cut(batch, i);
    var m := batch[i];
    assert acked[m] <= multiset(batch[..i])[m] < multiset(batch[..i + 1])[m] <= all[m];
    assert (all - acked)[m] > 0;
  }

  lemma AccountedMore(all: multiset<Msg>, was: multiset<Msg>, now: multiset<Msg>, batch: seq<Msg>, i: nat,
                      acked: multiset<Msg>, one: multiset<Msg>)
    requires Accounted(all, was, batch, i, acked) && i < |batch|
    requires one <= multiset{batch[i]} && was - one <= now
    ensures Accounted(all, now, batch, i + 1, acked + one)
    ensures |acked + one| == |acked| + |one|
  {
    Cut(batch, i);
    assert all - (acked + one) <= was - one;
  }
}
