/**
  What every run of the job protocol keeps, wherever handlers stop.
 */
module Safety {
  import opened Domain
  import opened Protocol
  import Turns
  import VideoGate
  import Worker

  /** Money. Whatever is captured is the job's charge, and its result was handed
      over; a succeeded job has its charge recorded, and it was captured for real
      exactly if the hold was never released; a failed job holds and costs nothing. */
  lemma MoneySafety(c: Config, run: seq<Store>, i: nat)
    requires WellConfigured(c) && IsRun(c, run) && i < |run|
    ensures var s := run[i];
      var price := if s.job.snapshotCredits > 0 then s.job.snapshotCredits else s.job.costReserved;
      && (s.hold.Captured? ==> s.hold.amount == price > 0 && (s.job.miniApp || IsSent(s.row)))
      && (s.job.status == Succeeded && price > 0 ==>
            && s.job.costCaptured == price
            && (s.hold == Captured(price) <==> !s.hold.Released?)
            && (c.biller.Strict? ==> s.hold == Captured(price)))
      && (s.job.status == FailedTerminal ==> !s.hold.Reserved? && !s.hold.Captured?)
  {
    RunKeepsInv(c, run, i);
  }

  /** A released hold is never captured, and a captured hold is never released. */
  lemma {:induction false} HoldIsSettledOnce(c: Config, run: seq<Store>, i: nat, j: nat)
    requires IsRun(c, run) && i <= j < |run|
    requires run[i].hold.Released? || run[i].hold.Captured?
    ensures run[j].hold == run[i].hold
    decreases j
  {
    if i < j {
      HoldIsSettledOnce(c, run, i, j - 1);
      assert StepAt(c, run, j - 1);
      SettledHoldStays(c, run[j - 1], run[j]);
    }
  }

  lemma SettledHoldStays(c: Config, s: Store, s': Store)
    requires Next(c, s, s') && (s.hold.Released? || s.hold.Captured?)
    ensures s'.hold == s.hold
  {
    if Captures(s, s') || Releases(s, s') {
    } else {
      assert s'.hold == s.hold;
    }
  }

  /** A job that costs `price`, an image or a text, waiting in the generation stream. */
  ghost function PaidJob(image: bool, price: int): Store {
    var job := Job(Queued, if image then ImageModality else TextModality, false, true, false, 0, price, 0, []);
    Store(job, [], VideoGate.NoMedia, Reserved, None, [], multiset{Msg(Generation, 0)}, 0, [], 0, 0)
  }

  const ANSWER: string := "ok"
  const AnswerBlob: VideoGate.Blob := VideoGate.Blob("b", "k")

  /** The answer, stored as artifact 1. */
  ghost function AnswerMedia(image: bool): VideoGate.Media {
    VideoGate.NoMedia.WithArtifact(1, VideoGate.Artifact(AnswerBlob, if image then VideoGate.ImageKind else VideoGate.TextKind, "", 2, 2, VideoGate.NoMetadata, VideoGate.Ready))
  }

  ghost function AnswerBody(image: bool): Body {
    if image then MediaBody else TextBody(ANSWER)
  }

  const AnswerTask: Task := Task(1, "p", "m", false, TaskSucceeded, Unclassified)

  lemma AnswerIsOneChunk(image: bool)
    ensures Payload(AnswerBody(image)) == [if image then "" else ANSWER]
  {
  }

  /** GenerationProcess: the provider accepts the request and is done with it. */
  lemma RunToTask(c: Config, image: bool, price: int) returns (run: seq<Store>)
    requires price > 0
    ensures IsRun(c, run) && run[0] == PaidJob(image, price)
    ensures var s0 := PaidJob(image, price);
      run[|run| - 1] == s0.(job := s0.job.(status := ProviderSubmitted), submits := [1], tasks := [AnswerTask])
  {
    run := StatusStep(c, [PaidJob(image, price)], DispatchingProvider);   // SetStatus
    var s1 := run[|run| - 1];
    var s2 := s1.(submits := [1]);
    assert Submits(s1, s2);
    run := Chain(c, run, s2);                                          // Submit
    var s3 := s2.(tasks := [AnswerTask]);
    assert AddsTask(s2, s3);
    run := Chain(c, run, s3);                                          // PersistTask
    run := StatusStep(c, run, ProviderSubmitted);                      // FollowUp
  }

  /** ApplySuccess, called by PollOnce in the same handler: the output is stored. */
  lemma RunToSuccess(c: Config, image: bool, price: int) returns (run: seq<Store>)
    requires price > 0
    ensures IsRun(c, run) && run[0] == PaidJob(image, price)
    ensures var s0 := PaidJob(image, price);
      run[|run| - 1] == s0.(job := s0.job.(status := ProviderSucceeded, outputs := [1]), submits := [1],
        tasks := [AnswerTask], media := AnswerMedia(image))
  {
    run := RunToTask(c, image, price);
    var s1 := run[|run| - 1];
    var s2 := s1.(media := AnswerMedia(image));
    assert VideoGate.WritesArtifact(s1.media, s2.media, 1);
    assert ChangesMedia(s1, s2);
    run := Chain(c, run, s2);                                          // SaveRemoteArtifact
    var s3 := s2.(job := s2.job.(outputs := [1]));
    assert WritesJob(c, s2, s3);
    run := Chain(c, run, s3);                                          // WriteOutputs
    run := StatusStep(c, run, ProviderSucceeded);                      // ApplySuccess
  }

  /** HandOver publishes the delivery message; DeliverResult and EnsureDelivery begin
      the delivery. */
  lemma RunToDelivery(c: Config, image: bool, price: int) returns (run: seq<Store>)
    requires price > 0
    ensures IsRun(c, run) && run[0] == PaidJob(image, price)
    ensures var s0 := PaidJob(image, price);
      run[|run| - 1] == s0.(job := s0.job.(status := Delivering, outputs := [1]), submits := [1],
        tasks := [AnswerTask], media := AnswerMedia(image),
        msgs := s0.msgs + multiset{Msg(Delivery, 0)},
        row := Some(Row(RowPending, 1, AnswerBody(image), 0, None)))
  {
    run := RunToSuccess(c, image, price);
    run := StatusStep(c, run, ResultReady);                            // HandOver
    var s1 := run[|run| - 1];
    var s2 := s1.(msgs := s1.msgs + multiset{Msg(Delivery, 0)});
    assert Publishes(s1, s2);
    run := Chain(c, run, s2);                                          // Publish
    run := StatusStep(c, run, Delivering);                             // DeliverResult
    var s3 := run[|run| - 1];
    var s4 := s3.(row := Some(Row(RowPending, 1, AnswerBody(image), 0, None)));
    assert CreatesRow(c, s3, s4);
    run := Chain(c, run, s4);                                          // EnsureDelivery
  }

  lemma StatusStep(c: Config, run: seq<Store>, to: JobStatus) returns (longer: seq<Store>)
    requires IsRun(c, run) && MaySetStatus(c, run[|run| - 1], to)
    ensures IsRun(c, longer) && run <= longer && |longer| == |run| + 1
    ensures longer[|run|] == run[|run| - 1].(job := run[|run| - 1].job.(status := to))
  {
    var s := run[|run| - 1];
    var t := s.(job := s.job.(status := to));
    assert SetsStatus(c, s, t);
    longer := Chain(c, run, t);
  }

  /** Send and AfterFailedSend: every attempt of the budget fails before VK shows
      anything, and is counted on the row. */
  lemma RunOfFailedAttempts(c: Config, run0: seq<Store>) returns (run: seq<Store>)
    requires IsRun(c, run0) && run0[|run0| - 1].row.Some?
    requires var s := run0[|run0| - 1];
      !s.row.value.status.RowSent? && s.row.value.messageId == 0
      && s.row.value.attemptNo == 1 && s.sends == 0 && !s.job.hasPlaceholder
    ensures IsRun(c, run) && run0 <= run
    ensures var s, t := run0[|run0| - 1], run[|run| - 1];
      t == s.(sends := c.maxSends, row := t.row) && t.row.Some?
      && t.row.value.body == s.row.value.body && t.row.value.messageId == 0 && t.row.value.attached == s.row.value.attached
      && !t.row.value.status.RowSent? && t.row.value.attemptNo == c.maxSends + 1
  {
    run := run0;
    ghost var s := run0[|run0| - 1];
    var k := 0;
    while k < c.maxSends
      invariant 0 <= k <= c.maxSends && IsRun(c, run) && run0 <= run
      invariant var t := run[|run| - 1];
        t == s.(sends := k, row := t.row) && t.row.Some?
        && t.row.value.body == s.row.value.body && t.row.value.messageId == 0 && t.row.value.attached == s.row.value.attached
        && !t.row.value.status.RowSent? && t.row.value.attemptNo == k + 1
    {
      var t := run[|run| - 1];
      var u := t.(sends := k + 1);
      run := Chain(c, run, u);                                         // CountSend
      var v := u.(row := Some(u.row.value.(status := RowRetrying, attemptNo := k + 2)));
      assert UpdatesRow(c, u, v);
      run := Chain(c, run, v);                                         // AfterFailedSend
      k := k + 1;
    }
  }

  /** The promise that a succeeded job was charged is false of the shipped billing
      service. Delivery used up its attempts, freed the hold, and stopped before it
      could write the failed status; its message was handled again and the attempt
      succeeded; the capture call met a released hold and answered success. A run only
      over-approximates the code, so every step names the method that takes it. */
  lemma ShippedBillerCanGiveAwayAResult(c: Config, price: int) returns (run: seq<Store>)
    requires WellConfigured(c) && c.biller.Shipped? && price > 0
    ensures IsRun(c, run) && run[0] == PaidJob(false, price)
    ensures var s := run[|run| - 1];
      && s.job.status == Succeeded && s.job.costCaptured == Charge(s.job) == price
      && s.hold.Released? && |Visible(s.chat)| == 1 && s.sends == c.maxSends + 1
  {
    run := RunToDelivery(c, false, price);
    run := RunOfFailedAttempts(c, run);
    run := RunAfterRelease(c, run);
  }

  /** Abandon, as far as the hold: the message is kept and the hold released. */
  lemma RunToRelease(c: Config, run0: seq<Store>) returns (run: seq<Store>)
    requires IsRun(c, run0) && run0[|run0| - 1].hold.Reserved?
    ensures IsRun(c, run) && run0 <= run
    ensures var s0 := run0[|run0| - 1]; run[|run| - 1] == s0.(deadLetters := s0.deadLetters + 1, hold := Released)
  {
    var s0 := run0[|run0| - 1];
    var s1 := s0.(deadLetters := s0.deadLetters + 1);
    assert DeadLetters(s0, s1);
    run := Chain(c, run0, s1);                                         // DeadLetter
    var s2 := s1.(hold := Released);
    assert Releases(s1, s2);
    run := Chain(c, run, s2);                                          // ReleaseForJob
  }

  /** A stop after the release, and the attempt that succeeds. */
  lemma RunAfterRelease(c: Config, run0: seq<Store>) returns (run: seq<Store>)
    requires IsRun(c, run0) && c.biller.Shipped?
    requires var s := run0[|run0| - 1];
      && s.job.status == Delivering && s.hold.Reserved? && Charge(s.job) > 0 && !s.job.hasPlaceholder
      && s.chat == [] && s.row.Some? && s.row.value.body == TextBody(ANSWER) && s.row.value.messageId == 0
    ensures IsRun(c, run) && run0 <= run
    ensures var s0, s := run0[|run0| - 1], run[|run| - 1];
      && s.job == s0.job.(status := Succeeded, costCaptured := Charge(s0.job))
      && s.hold.Released? && |Visible(s.chat)| == 1 && s.sends == s0.sends + 1
  {
    run := RunToRelease(c, run0);
    run := RunOfLateSuccess(c, run);
  }

  /** The attempt after the hold was released shows the result. */
  lemma RunOfLateSend(c: Config, run0: seq<Store>) returns (run: seq<Store>)
    requires IsRun(c, run0)
    requires var s := run0[|run0| - 1];
      && s.job.status == Delivering && !s.job.hasPlaceholder
      && s.chat == [] && s.row.Some? && s.row.value.body == TextBody(ANSWER) && s.row.value.messageId == 0
    ensures IsRun(c, run) && run0 <= run
    ensures var s0, s := run0[|run0| - 1], run[|run| - 1];
      s == s0.(sends := s0.sends + 1, chat := [Bubble(Some(c.rid(0)), Some(ANSWER))],
               row := Some(s0.row.value.(status := RowSent, messageId := 1)))
  {
    var s2 := run0[|run0| - 1];
    var s3 := s2.(sends := s2.sends + 1);
    assert StartsSend(s2, s3);
    run := Chain(c, run0, s3);                                         // DeliveryProcess again, CountSend
    AnswerIsOneChunk(false);
    var s4 := s3.(chat := [Bubble(Some(c.rid(0)), Some(ANSWER))]);
    assert SendsChunk(c, s3, s4, 0);
    assert SendsSomeChunk(c, s3, s4);
    run := Chain(c, run, s4);                                          // SendChunk
    var s5 := s4.(row := Some(s4.row.value.(status := RowSent, messageId := 1)));
    assert UpdatesRow(c, s4, s5);
    run := Chain(c, run, s5);                                          // Send
  }

  lemma RunOfLateSuccess(c: Config, run0: seq<Store>) returns (run: seq<Store>)
    requires IsRun(c, run0) && c.biller.Shipped?
    requires var s := run0[|run0| - 1];
      && s.job.status == Delivering && s.hold.Released? && Charge(s.job) > 0 && !s.job.hasPlaceholder
      && s.chat == [] && s.row.Some? && s.row.value.body == TextBody(ANSWER) && s.row.value.messageId == 0
    ensures IsRun(c, run) && run0 <= run
    ensures var s0, s := run0[|run0| - 1], run[|run| - 1];
      && s.job == s0.job.(status := Succeeded, costCaptured := Charge(s0.job))
      && s.hold.Released? && |Visible(s.chat)| == 1 && s.sends == s0.sends + 1
  {
    run := RunOfLateSend(c, run0);
    var s5 := run[|run| - 1];
    var s6 := s5.(job := s5.job.(costCaptured := Charge(s5.job)));
    assert WritesJob(c, s5, s6);
    run := Chain(c, run, s6);                                          // CaptureReserved; CaptureForJob changed nothing
    run := StatusStep(c, run, Succeeded);                              // Settle
  }

  lemma Chain(c: Config, run: seq<Store>, s: Store) returns (longer: seq<Store>)
    requires IsRun(c, run) && Next(c, run[|run| - 1], s)
    ensures longer == run + [s] && IsRun(c, longer) && run <= longer
  {
    RunExtends(c, run, s);
    longer := run + [s];
  }

  /** Every submit is made while no task is pending, processing or succeeded, and
      carries the number after the last persisted task. */
  lemma SubmitDiscipline(c: Config, run: seq<Store>, i: nat)
    requires IsRun(c, run) && i + 1 < |run| && run[i + 1].submits != run[i].submits
    ensures forall k :: 0 <= k < |run[i].tasks| ==> run[i].tasks[k].status in {TaskFailed, TaskCancelled}
    ensures run[i + 1].submits == run[i].submits + [|run[i].tasks| + 1]
    ensures run[i + 1].tasks == run[i].tasks
  {
    assert StepAt(c, run, i);
  }

  ghost function Upto(n: nat): (r: set<nat>)
    ensures forall k :: k in r <==> 1 <= k <= n
    ensures |r| == n
  {
    if n == 0 then {} else Upto(n - 1) + {n}
  }

  function Numbers(submits: seq<nat>): set<nat> {
    set k | k in submits
  }

  lemma SubsetSize<T>(a: set<T>, b: set<T>)
    requires a <= b
    ensures |a| <= |b|
  {
    assert b == a + (b - a);
  }

  /** All tasks but the last are failed or cancelled, their numbers are among
      the numbers sent, and never more than one number beyond them was sent. */
  lemma SubmitsPerTask(c: Config, run: seq<Store>, i: nat)
    requires WellConfigured(c) && IsRun(c, run) && i < |run|
    ensures var s := run[i];
      && (forall k :: 0 <= k < |s.tasks| - 1 ==> s.tasks[k].status.TaskFailed? || s.tasks[k].status.TaskCancelled?)
      && (forall k :: 0 <= k < |s.tasks| ==> s.tasks[k].key == k + 1 && s.tasks[k].key in s.submits)
      && |Numbers(s.submits)| <= |s.tasks| + 1
  {
    RunKeepsInv(c, run, i);
    var s := run[i];
    SubsetSize(Numbers(s.submits), Upto(|s.tasks| + 1));
  }

  /** What the user sees is always a prefix of the row's messages, none repeated,
      and it is all of them once the row is sent. */
  lemma DeliveredTextIsAPrefix(c: Config, run: seq<Store>, i: nat)
    requires WellConfigured(c) && IsRun(c, run) && i < |run|
    ensures var s := run[i];
      if s.row.None? then Visible(s.chat) == []
      else
        var p := Payload(s.row.value.body);
        && |Visible(s.chat)| <= |p|
        && (forall k :: 0 <= k < |Visible(s.chat)| ==> Visible(s.chat)[k] == Some(p[k]))
        && (IsSent(s.row) ==> |Visible(s.chat)| == |p|)
  {
    RunKeepsInv(c, run, i);
    var s := run[i];
    if s.row.Some? {
      var p, l := Payload(s.row.value.body), Lead(s.chat);
      forall k | 0 <= k < |Visible(s.chat)| ensures Visible(s.chat)[k] == Some(p[k]) {
        assert s.chat[l + k].text == Some(p[l + k - l]);
      }
    }
  }

  /** Nothing the user has seen is ever taken back or changed. */
  lemma {:induction false} DeliveredTextGrows(c: Config, run: seq<Store>, i: nat, j: nat)
    requires WellConfigured(c) && IsRun(c, run) && i <= j < |run|
    ensures Visible(run[i].chat) <= Visible(run[j].chat)
    decreases j
  {
    if i < j {
      DeliveredTextGrows(c, run, i, j - 1);
      StepKeepsVisible(c, run, j - 1);
      PrefixOfPrefix(Visible(run[i].chat), Visible(run[j - 1].chat), Visible(run[j].chat));
    }
  }

  lemma PrefixOfPrefix<T>(a: seq<T>, b: seq<T>, d: seq<T>)
    requires a <= b <= d
    ensures a <= d
  {
  }

  lemma StepKeepsVisible(c: Config, run: seq<Store>, j: nat)
    requires WellConfigured(c) && IsRun(c, run) && j + 1 < |run|
    ensures Visible(run[j].chat) <= Visible(run[j + 1].chat)
  {
    assert StepAt(c, run, j);
    RunKeepsInv(c, run, j);
    NextKeepsVisible(c, run[j], run[j + 1]);
  }

  lemma ChunkKeepsVisible(c: Config, s: Store, s': Store, i: nat)
    requires WellConfigured(c) && ChatInv(c, s) && SendsChunk(c, s, s', i)
    ensures Visible(s.chat) <= Visible(s'.chat)
  {
    SendsChunkKeepsChat(c, s, s', i);
  }

  lemma NextKeepsVisible(c: Config, s: Store, s': Store)
    requires WellConfigured(c) && ChatInv(c, s) && Next(c, s, s')
    ensures Visible(s.chat) <= Visible(s'.chat)
  {
    if SendsSomeChunk(c, s, s') {
      var i: nat :| SendsChunk(c, s, s', i);
      ChunkKeepsVisible(c, s, s', i);
    } else if EditsFirst(c, s, s') {
      EditKeepsVisible(c, s, s');
    } else {
      assert s'.chat == s.chat;
    }
  }

  lemma EditKeepsVisible(c: Config, s: Store, s': Store)
    requires ChatInv(c, s) && EditsFirst(c, s, s')
    ensures Visible(s.chat) <= Visible(s'.chat)
  {
    var k := s.row.value.messageId - 1;
    if Lead(s.chat) == k {
      assert s.chat[k].text == Some(Payload(s.row.value.body)[k - Lead(s.chat)]);
      assert s'.chat == s.chat;
    }
  }

  /** The statuses from which no worker ever moves a job. */
  predicate IsFinal(s: JobStatus) {
    s in {Succeeded, FailedTerminal, Rejected, Cancelled}
  }

  /** One step forward. */
  predicate Forward(from: JobStatus, to: JobStatus) {
    && (IsFinal(from) ==> to == from)
    && (from in {ResultReady, Delivering} ==> to in {ResultReady, Delivering, Succeeded, FailedTerminal})
  }

  lemma StepIsForward(c: Config, s: Store, s': Store)
    requires Next(c, s, s')
    ensures Forward(s.job.status, s'.job.status)
  {
    StatusMovesForward(c, s, s');
  }

  /** Succeeded, failed, rejected and cancelled jobs stay so, and a job that is
      ready for delivery never goes back to generation. */
  lemma {:induction false} FinalStatusIsFinal(c: Config, run: seq<Store>, i: nat, j: nat)
    requires IsRun(c, run) && i <= j < |run|
    ensures Forward(run[i].job.status, run[j].job.status)
    decreases j
  {
    if i < j {
      FinalStatusIsFinal(c, run, i, j - 1);
      assert StepAt(c, run, j - 1);
      StepIsForward(c, run[j - 1], run[j]);
    }
  }

  lemma StatusMovesForward(c: Config, s: Store, s': Store)
    requires Next(c, s, s')
    ensures s'.job.status != s.job.status ==> MaySetStatus(c, s, s'.job.status)
  {
  }

  // ------------------------------------------------------------ the video gate

  /** A job whose result is ready for the user has passed the gate. */
  ghost predicate ResultInv(c: Config, s: Store) {
    s.job.status in {ResultReady, Delivering, Succeeded} ==> GateOpen(c, s)
  }

  lemma UpdatedTaskKeepsContract(c: Config, s: Store, s': Store)
    requires UpdatesTask(s, s')
    ensures ContractOf(c, s'.tasks) == ContractOf(c, s.tasks)
  {
  }

  /** What the gate looks at. */
  predicate SameGate(c: Config, s: Store, s': Store) {
    && s'.job.modality == s.job.modality && s'.job.outputs == s.job.outputs
    && s'.media == s.media && ContractOf(c, s'.tasks) == ContractOf(c, s.tasks)
  }

  lemma DoneStaysDone(c: Config, s: Store, s': Store)
    requires SetsStatus(c, s, s') && IsDone(s.job.status)
    ensures SameGate(c, s, s') && IsDone(s'.job.status)
  {
  }

  lemma DoneKeepsOutputs(c: Config, s: Store, s': Store)
    requires WritesJob(c, s, s') && IsDone(s.job.status)
    ensures SameGate(c, s, s') && IsDone(s'.job.status)
  {
  }

  /** The effects that a done job still has leave job, tasks and rows alone, apart from
      status, recorded charge and task updates. */
  lemma OthersLeaveAlone(c: Config, s: Store, s': Store)
    requires Next(c, s, s') && IsDone(s.job.status)
    requires !SetsStatus(c, s, s') && !WritesJob(c, s, s') && !UpdatesTask(s, s')
    ensures s'.job == s.job && s'.tasks == s.tasks && s'.media == s.media
  {
  }

  /** Once a result is ready, outputs, rows and tasks' contracts do not change. */
  lemma DoneIsFrozen(c: Config, s: Store, s': Store)
    requires Next(c, s, s') && IsDone(s.job.status)
    ensures SameGate(c, s, s') && IsDone(s'.job.status)
  {
    if UpdatesTask(s, s') {
      UpdatedTaskKeepsContract(c, s, s');
    } else if SetsStatus(c, s, s') {
      DoneStaysDone(c, s, s');
    } else if WritesJob(c, s, s') {
      DoneKeepsOutputs(c, s, s');
    } else {
      OthersLeaveAlone(c, s, s');
    }
  }

  lemma ReadyOnlyThroughGate(c: Config, s: Store, s': Store)
    requires Next(c, s, s') && !IsDone(s.job.status) && s'.job.status in {ResultReady, Delivering, Succeeded}
    ensures SameGate(c, s, s') && GateOpen(c, s)
  {
    StatusMovesForward(c, s, s');
    assert SetsStatus(c, s, s');
  }

  lemma DeliveredOnlyWhenReady(c: Config, s: Store, s': Store)
    requires Next(c, s, s') && IsDone(s.job.status) && s'.job.status in {ResultReady, Delivering, Succeeded}
    ensures s.job.status in {ResultReady, Delivering, Succeeded}
  {
    StatusMovesForward(c, s, s');
  }

  lemma NextKeepsResult(c: Config, s: Store, s': Store)
    requires ResultInv(c, s) && Next(c, s, s')
    ensures ResultInv(c, s')
  {
    if s'.job.status in {ResultReady, Delivering, Succeeded} {
      if IsDone(s.job.status) {
        DoneIsFrozen(c, s, s');
        DeliveredOnlyWhenReady(c, s, s');
      } else {
        ReadyOnlyThroughGate(c, s, s');
      }
    }
  }

  lemma {:induction false} RunKeepsResult(c: Config, run: seq<Store>, i: nat)
    requires IsRun(c, run) && i < |run|
    ensures ResultInv(c, run[i])
  {
    if i > 0 {
      RunKeepsResult(c, run, i - 1);
      assert StepAt(c, run, i - 1);
      NextKeepsResult(c, run[i - 1], run[i]);
    }
  }

  lemma NextKeepsHonest(c: Config, s: Store, s': Store)
    requires VideoGate.Honest(s.media) && Next(c, s, s')
    ensures VideoGate.Honest(s'.media)
  {
    if ChangesMedia(s, s') {
      VideoGate.MediaNextKeepsHonest(s.media, s'.media);
    } else {
      assert s'.media == s.media;
    }
  }

  lemma {:induction false} RunKeepsHonest(c: Config, run: seq<Store>, i: nat)
    requires IsRun(c, run) && i < |run|
    ensures VideoGate.Honest(run[i].media)
  {
    if i > 0 {
      RunKeepsHonest(c, run, i - 1);
      assert StepAt(c, run, i - 1);
      NextKeepsHonest(c, run[i - 1], run[i]);
    }
  }

  /** With a prober: accepted by it, and meets its contract, has a VK rendition, or is a
      contract-free development output. Without one: probing is not required, and a
      video is marked as skipped. */
  ghost predicate Presentable(c: Config, s: Store, id: int) {
    if c.gate.prober then
      && VideoGate.ClearedAt(c.gate, ContractOf(c, s.tasks), s.media, id)
      && s.media.artifacts[id].blob in s.media.said
    else !c.gate.requireProbe && VideoGate.SkippedAt(s.media, id)
  }

  /** The video gate, end to end. In every run, wherever handlers stop, a video job is
      result_ready, delivering or succeeded only if it has outputs and all of them are
      presentable. */
  lemma VideoResultIsCleared(c: Config, run: seq<Store>, i: nat)
    requires IsRun(c, run) && i < |run|
    requires run[i].job.modality.VideoModality? && run[i].job.status in {ResultReady, Delivering, Succeeded}
    ensures run[i].job.outputs != []
    ensures forall k :: 0 <= k < |run[i].job.outputs| ==> Presentable(c, run[i], run[i].job.outputs[k])
  {
    RunKeepsResult(c, run, i);
    RunKeepsHonest(c, run, i);
  }

  /** What a ready video is made of, in every run: an output that has no VK rendition
      is within the bounds of the contract of the job's last task, under a policy that lets
      originals through; or there is no contract, and the policy is always_dev_only. */
  lemma ReadyOriginalIsWithinContract(c: Config, run: seq<Store>, i: nat, k: nat)
    requires IsRun(c, run) && i < |run| && c.gate.prober
    requires run[i].job.modality.VideoModality? && run[i].job.status in {ResultReady, Delivering, Succeeded}
    requires k < |run[i].job.outputs|
    ensures var s, id := run[i], run[i].job.outputs[k];
      id in s.media.artifacts
      && ((exists v :: v in s.media.VariantsOf(id) && v.kind == VideoGate.VKVideo)
          || match ContractOf(c, s.tasks)
             case None => c.gate.rawPolicy == VideoGate.AlwaysDevOnly
             case Some(contract) => c.gate.rawPolicy != VideoGate.Never && VideoGate.KeepsTo(contract, s.media.artifacts[id]))
  {
    VideoResultIsCleared(c, run, i);
    var s, id := run[i], run[i].job.outputs[k];
    assert Presentable(c, s, id);
    VideoGate.ClearedKeepsTo(c.gate, ContractOf(c, s.tasks), s.media, id);
  }

  /** What is attached is what delivery picks for the first output. */
  ghost predicate AttachInv(c: Config, s: Store) {
    s.row.Some? && s.row.value.attached.Some? ==> MayAttach(c, s, s.row.value.attached)
  }

  lemma RowStepKeepsAttached(c: Config, s: Store, s': Store)
    requires AttachInv(c, s) && (CreatesRow(c, s, s') || UpdatesRow(c, s, s'))
    ensures AttachInv(c, s')
  {
  }

  lemma NextKeepsAttached(c: Config, s: Store, s': Store)
    requires AttachInv(c, s) && Next(c, s, s')
    ensures AttachInv(c, s')
  {
    if CreatesRow(c, s, s') || UpdatesRow(c, s, s') {
      RowStepKeepsAttached(c, s, s');
    } else if s.row.Some? && s.row.value.attached.Some? {
      DoneIsFrozen(c, s, s');
      assert s'.row == s.row;
    } else {
      assert s'.row == s.row;
    }
  }

  lemma {:induction false} RunKeepsAttached(c: Config, run: seq<Store>, i: nat)
    requires IsRun(c, run) && i < |run|
    ensures AttachInv(c, run[i])
  {
    if i > 0 {
      RunKeepsAttached(c, run, i - 1);
      assert StepAt(c, run, i - 1);
      NextKeepsAttached(c, run[i - 1], run[i]);
    }
  }

  /** Unless the delivery worker's policy is always_dev_only, the object that was
      uploaded for a video is one that the prober accepted. */
  lemma UploadedVideoWasAccepted(c: Config, run: seq<Store>, i: nat)
    requires IsRun(c, run) && i < |run| && c.deliveryPolicy != VideoGate.AlwaysDevOnly
    requires run[i].row.Some? && run[i].row.value.attached.Some?
    ensures var s := run[i];
      && s.job.outputs != [] && s.job.outputs[0] in s.media.artifacts
      && (s.media.artifacts[s.job.outputs[0]].kind.VideoKind? ==> s.row.value.attached.value in s.media.said)
  {
    RunKeepsAttached(c, run, i);
    RunKeepsHonest(c, run, i);
    VideoGate.DeliveredVideoWasAccepted(run[i].media, run[i].job.outputs[0], c.deliveryPolicy);
  }

  // ------------------------------------------------------- what handlers leave

  /** Every store that the handlers of a worker ever leave behind, at any effect, is
      safe with money. */
  lemma WorkerMoney(w: Worker.Worker, i: nat)
    requires w.Valid() && i < |w.log|
    ensures var s := w.log[i];
      && (s.hold.Captured? ==> s.hold.amount == Charge(s.job) > 0 && (s.job.miniApp || IsSent(s.row)))
      && (s.job.status == Succeeded && Charge(s.job) > 0 ==>
            && s.job.costCaptured == Charge(s.job)
            && (s.hold == Captured(Charge(s.job)) <==> !s.hold.Released?)
            && (w.c.biller.Strict? ==> s.hold == Captured(Charge(s.job))))
      && (s.job.status == FailedTerminal ==> !s.hold.Reserved? && !s.hold.Captured?)
  {
    MoneySafety(w.c, w.log, i);
  }

  /** Whenever a handler submits, no task is active, and the number is the next one;
      the numbers ever submitted are at most one more than the tasks. */
  lemma WorkerSubmits(w: Worker.Worker, i: nat)
    requires w.Valid() && i < |w.log|
    ensures |Numbers(w.log[i].submits)| <= |w.log[i].tasks| + 1
    ensures i + 1 < |w.log| && w.log[i + 1].submits != w.log[i].submits ==>
      NoneActive(w.log[i].tasks) && w.log[i + 1].submits == w.log[i].submits + [|w.log[i].tasks| + 1]
  {
    SubmitsPerTask(w.c, w.log, i);
    if i + 1 < |w.log| && w.log[i + 1].submits != w.log[i].submits {
      SubmitDiscipline(w.c, w.log, i);
    }
  }

  /** No handler leaves a video job ready, delivering or succeeded with an output that
      the gate did not let through. */
  lemma WorkerVideos(w: Worker.Worker, i: nat)
    requires w.Valid() && i < |w.log|
    ensures var s := w.log[i];
      s.job.modality.VideoModality? && s.job.status in {ResultReady, Delivering, Succeeded} ==>
        VideoGate.GatePassed(w.c.gate, ContractOf(w.c, s.tasks), s.media, s.job.outputs)
  {
    RunKeepsResult(w.c, w.log, i);
  }

  /** PersistTask never meets a row under its number: the numbers in use are 1, ...,
      number of tasks. */
  lemma NextNumberIsNew(w: Worker.Worker, i: nat, k: nat)
    requires w.Valid() && i < |w.log| && k < |w.log[i].tasks|
    ensures w.log[i].tasks[k].key != |w.log[i].tasks| + 1
  {
    RunKeepsInv(w.c, w.log, i);
  }

  /** Every worker that handles messages to the end keeps one message per job, stays in
      its budgets, charges what it delivers, and keeps a hold only for a cancelled job. */
  lemma WorkerTurns(w: Worker.Worker, i: nat)
    requires w.Valid() && w.Turning() && w.calm && i < |w.turns|
    ensures var s := w.turns[i];
      && |s.tasks| <= w.c.maxAttempts && s.requeues <= w.c.maxAttempts * (w.c.maxAttempts - 1) && s.sends <= w.c.maxSends
      && (Turns.StreamFor(s.job.status).Some? ==>
            exists a :: s.msgs == multiset{Msg(Turns.StreamFor(s.job.status).value, a)})
      && (s.msgs == multiset{} ==> (s.hold.Reserved? <==> s.job.status == Cancelled && w.turns[0].hold.Reserved?))
      && (Turns.Funded(w.turns[0]) && s.job.status == Succeeded && Charge(s.job) > 0 ==> s.hold == Captured(Charge(s.job)))
  {
    Turns.RetryBudget(w.c, w.turns, i);
    Turns.OneMessagePerJob(w.c, w.turns, i);
    if w.turns[i].msgs == multiset{} {
      Turns.HoldIsKeptIff(w.c, w.turns, i);
    }
    if Turns.Funded(w.turns[0]) && w.turns[i].job.status == Succeeded && Charge(w.turns[i].job) > 0 {
      Turns.SuccessIsCharged(w.c, w.turns, i);
    }
  }

  /** One delivery message of a worker leads to at most maxSends turns; the job then is
      succeeded, or failed with its hold freed. */
  lemma WorkerDeliveryEnds(w: Worker.Worker, i: nat, j: nat)
    requires w.Valid() && w.Turning() && w.calm && Turns.Funded(w.turns[0])
    requires i <= j < |w.turns| && w.turns[i].job.status == ResultReady
    ensures j - i <= w.c.maxSends && Turns.DeliveryPhase(w.c, w.turns[j], j - i)
  {
    Turns.DeliveryEnds(w.c, w.turns, i, j);
  }

  // --------------------------------------------------- what is shown and what is paid

  /** A succeeded job's result is with the Mini App, or its row is sent and every message
      of it is visible; also if it costs nothing. */
  lemma SuccessIsHanded(c: Config, run: seq<Store>, i: nat)
    requires WellConfigured(c) && IsRun(c, run) && i < |run| && run[i].job.status == Succeeded
    ensures var s := run[i];
      s.job.miniApp || (IsSent(s.row) && |Visible(s.chat)| == |Payload(s.row.value.body)|)
  {
    RunKeepsInv(c, run, i);
  }

  /** The result of a job that has ended and costs something was paid for if and only if
      the job succeeded and its hold was not released before. So a visible result was not
      paid for exactly if the job failed, or its hold was released. */
  lemma EndedJobIsPaidIff(c: Config, run: seq<Store>, i: nat)
    requires WellConfigured(c) && IsRun(c, run) && i < |run|
    requires run[i].job.status in {Succeeded, FailedTerminal} && Charge(run[i].job) > 0
    ensures run[i].hold == Captured(Charge(run[i].job)) <==> run[i].job.status == Succeeded && !run[i].hold.Released?
  {
    RunKeepsInv(c, run, i);
  }

  /** A job that failed, with a media row that was not sent. */
  ghost predicate FailedUnsent(s: Store) {
    && s.job.status == FailedTerminal && s.job.outputs == [1] && s.media == AnswerMedia(true) && !s.job.hasPlaceholder
    && s.hold.Released? && s.job.costCaptured == 0
    && s.chat == [] && s.row.Some? && s.row.value.body == MediaBody && s.row.value.messageId == 0 && !IsSent(s.row)
  }

  /** DeliveryProcess of the message of a job that failed: the row of the result is taken
      for the notice, and the media is uploaded ... */
  lemma RunOfLateUpload(c: Config, run0: seq<Store>) returns (run: seq<Store>)
    requires IsRun(c, run0) && FailedUnsent(run0[|run0| - 1])
    ensures IsRun(c, run) && run0 <= run && FailedUnsent(run[|run| - 1])
    ensures run[|run| - 1].row.value.attached.Some?
  {
    var s2 := run0[|run0| - 1];
    var s3 := s2.(sends := s2.sends + 1);
    assert StartsSend(s2, s3);
    run := Chain(c, run0, s3);                                         // CountSend
    var s4 := s3.(row := Some(s3.row.value.(attached := Some(AnswerBlob))));
    assert UpdatesRow(c, s3, s4);
    run := Chain(c, run, s4);                                          // EnsureMediaAttachment
  }

  /** ... and sent. */
  lemma RunOfLateMedia(c: Config, run0: seq<Store>) returns (run: seq<Store>)
    requires IsRun(c, run0) && FailedUnsent(run0[|run0| - 1]) && run0[|run0| - 1].row.value.attached.Some?
    ensures IsRun(c, run) && run0 <= run
    ensures var s := run[|run| - 1];
      s.job.status == FailedTerminal && s.hold.Released? && IsSent(s.row) && |Visible(s.chat)| == 1
  {
    var s4 := run0[|run0| - 1];
    AnswerIsOneChunk(true);
    var s5 := s4.(chat := [Bubble(Some(c.rid(0)), Some(""))]);
    assert SendsChunk(c, s4, s5, 0);
    assert SendsSomeChunk(c, s4, s5);
    run := Chain(c, run0, s5);                                         // SendChunk
    var s6 := s5.(row := Some(s5.row.value.(status := RowSent, messageId := 1)));
    assert UpdatesRow(c, s5, s6);
    run := Chain(c, run, s6);                                          // Send
  }

  /** A job can fail, give its hold back, and still show its result: delivery gave up and
      wrote failed_terminal, the acknowledgement was lost, and the message was handled
      again, with the failure notice in mind. */
  lemma FailedJobCanShowItsResult(c: Config, price: int) returns (run: seq<Store>)
    requires WellConfigured(c) && price > 0
    ensures IsRun(c, run) && run[0] == PaidJob(true, price)
    ensures var s := run[|run| - 1];
      s.job.status == FailedTerminal && s.hold.Released? && IsSent(s.row) && |Visible(s.chat)| == 1
  {
    run := RunToDelivery(c, true, price);
    run := RunOfFailedAttempts(c, run);
    run := RunToRelease(c, run);
    run := StatusStep(c, run, FailedTerminal);                         // Abandon; the acknowledgement is lost
    run := RunOfLateUpload(c, run);
    run := RunOfLateMedia(c, run);
  }

  /** A stop can leave the hold of a rejected job for good: ModerateOutput writes the status
      and stops before it frees the hold; GenerationProcess, called again, finds the job done,
      and the message is acknowledged. */
  lemma RejectedJobCanKeepItsHold(c: Config, price: int) returns (run: seq<Store>)
    requires price > 0
    ensures IsRun(c, run) && run[0] == PaidJob(false, price)
    ensures var s := run[|run| - 1]; s.job.status == Rejected && s.hold.Reserved? && s.msgs == multiset{}
  {
    run := RunToSuccess(c, false, price);
    run := StatusStep(c, run, Rejected);                               // ModerateOutput, SetStatus
    var s := run[|run| - 1];
    var t := s.(msgs := multiset{});
    assert Acks(s, t);
    run := Chain(c, run, t);                                           // HandleOne, Ack
  }

  // ------------------------------------------------------------------ sent media

  /** A media message that is visible has an attachment. */
  ghost predicate ShownInv(s: Store) {
    s.row.Some? && s.row.value.body.MediaBody? && Shown(s.chat) > 0 ==> s.row.value.attached.Some?
  }

  lemma NextKeepsShown(c: Config, s: Store, s': Store)
    requires WellConfigured(c) && ChatInv(c, s) && ShownInv(s) && Next(c, s, s')
    ensures ShownInv(s')
  {
    if SendsSomeChunk(c, s, s') {
      var i: nat :| SendsChunk(c, s, s', i);
    } else if EditsFirst(c, s, s') {
    } else if CreatesRow(c, s, s') {
    } else if UpdatesRow(c, s, s') {
    } else {
      assert s'.row == s.row && s'.chat == s.chat;
    }
  }

  lemma {:induction false} RunKeepsShown(c: Config, run: seq<Store>, i: nat)
    requires WellConfigured(c) && IsRun(c, run) && i < |run|
    ensures ShownInv(run[i])
  {
    if i > 0 {
      RunKeepsShown(c, run, i - 1);
      RunKeepsInv(c, run, i - 1);
      assert StepAt(c, run, i - 1);
      NextKeepsShown(c, run[i - 1], run[i]);
    }
  }

  /** In every run a media message that is visible has an attachment, the object that
      delivery takes for the job's first output; for a video it is one that the prober
      accepted, unless the delivery worker's policy is always_dev_only. */
  lemma VisibleMediaWasAccepted(c: Config, run: seq<Store>, i: nat)
    requires WellConfigured(c) && IsRun(c, run) && i < |run|
    requires run[i].row.Some? && run[i].row.value.body.MediaBody? && Shown(run[i].chat) > 0
    ensures var s := run[i];
      && s.row.value.attached.Some? && MayAttach(c, s, s.row.value.attached)
      && (s.media.artifacts[s.job.outputs[0]].kind.VideoKind? && c.deliveryPolicy != VideoGate.AlwaysDevOnly ==>
            s.row.value.attached.value in s.media.said)
  {
    RunKeepsShown(c, run, i);
    RunKeepsAttached(c, run, i);
    if c.deliveryPolicy != VideoGate.AlwaysDevOnly {
      UploadedVideoWasAccepted(c, run, i);
    }
  }

  // ---------------------------------------------- when every output is deliverable

  /** Up to store i the prober reported nothing but passed of bytes that it accepted. */
  ghost predicate SaidPassed(run: seq<Store>, i: nat)
    requires i < |run|
  {
    forall j :: 0 <= j <= i ==> VideoGate.SaysPassed(run[j].media)
  }

  lemma {:induction false} RunKeepsReady(c: Config, run: seq<Store>, i: nat)
    requires IsRun(c, run) && i < |run| && SaidPassed(run, i)
    ensures VideoGate.AllReady(run[i].media)
  {
    if i > 0 {
      RunKeepsReady(c, run, i - 1);
      assert StepAt(c, run, i - 1);
      var s, s' := run[i - 1], run[i];
      if ChangesMedia(s, s') {
        VideoGate.MediaNextKeepsReady(s.media, s'.media);
      } else {
        assert s'.media == s.media;
      }
    }
  }

  /** With a prober that reports passed, and policies and contract that agree, delivery
      finds an object for every output of every video that is ready for it. */
  lemma ReadyVideoIsDeliverable(c: Config, run: seq<Store>, i: nat, k: nat)
    requires IsRun(c, run) && i < |run| && SaidPassed(run, i) && c.gate.prober
    requires run[i].job.modality.VideoModality? && run[i].job.status in {ResultReady, Delivering, Succeeded}
    requires k < |run[i].job.outputs|
    requires VideoGate.PoliciesAgree(c.gate, c.deliveryPolicy, ContractOf(c, run[i].tasks))
    ensures var s, id := run[i], run[i].job.outputs[k];
      id in s.media.artifacts
      && VideoGate.ChosenFor(s.media.artifacts[id], s.media.VariantsOf(id), c.deliveryPolicy).Deliver?
  {
    VideoResultIsCleared(c, run, i);
    RunKeepsReady(c, run, i);
    var s, id := run[i], run[i].job.outputs[k];
    assert Presentable(c, s, id);
    VideoGate.ClearedIsDeliverable(c.gate, ContractOf(c, s.tasks), s.media, id, c.deliveryPolicy);
  }
}
