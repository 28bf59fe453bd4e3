/**
  The job protocol seen from the queue: what handling one message amounts to when
  stores, streams, moderation and context calls succeed, while providers,
  downloads, scans, probes and VK answer as they like. Over runs of such turns
  every unfinished job has exactly one message, on the stream its status calls
  for, and the retry budgets hold.
 */
module Turns {
  import opened Domain
  import opened Protocol
  import VideoGate

  predicate IsAsyncMedia(job: Job) {
    job.modality.ImageModality? || job.modality.VideoModality?
  }

  predicate ShouldNotifyFailure(job: Job) {
    job.hasPeer && IsAsyncMedia(job)
  }

  function Max(a: int, b: int): int {
    if a < b then b else a
  }

  predicate LastRunning(tasks: seq<Task>) {
    |tasks| > 0 && !IsTerminalTask(tasks[|tasks| - 1].status)
  }

  predicate LastCancelled(tasks: seq<Task>) {
    |tasks| > 0 && tasks[|tasks| - 1].status == TaskCancelled
  }

  /** The status of a job whose outputs have passed the video gate. */
  function GateStatus(job: Job): JobStatus {
    if job.modality.VideoModality? then Postprocessing else ProviderSucceeded
  }

  /** Status, outputs and captured amount are all that ever changes in a job. */
  predicate SameTerms(j: Job, j': Job) {
    j' == j.(status := j'.status, outputs := j'.outputs, costCaptured := j'.costCaptured)
  }

  predicate HoldMayBeFreed(s: Store, s': Store) {
    s'.hold == s.hold || (s.hold.Reserved? && s'.hold.Released?)
  }

  /** The job came to an end without any new message. */
  predicate EndedQuietly(s: Store, s': Store, status: JobStatus) {
    && Untouched(s, s') && s'.job.status == status
    && s'.msgs == s.msgs && s'.requeues == s.requeues && HoldMayBeFreed(s, s')
  }

  /** What a generation or poll handler leaves behind when nothing but providers,
      downloads, scans and probes can fail: the message m is replaced by exactly
      the message that the new status calls for, and a retry stays within budget. */
  predicate Settled(c: Config, s: Store, m: Msg, s': Store) {
    && (s'.requeues == s.requeues + if s'.job.status == Queued then 1 else 0)
    && HoldMayBeFreed(s, s')
    && (s'.hold != s.hold ==> s'.job.status in {FailedTerminal, Rejected})
    && match s'.job.status
       case Queued =>
         && s'.msgs == s.msgs + multiset{Msg(Generation, m.attempt + 1)}
         && Max(|s'.tasks|, m.attempt + 1) < c.maxAttempts
       case ProviderPending =>
         s'.msgs == s.msgs + multiset{Msg(Poll, m.attempt + 1)} && LastRunning(s'.tasks)
       case ProviderProcessing =>
         s'.msgs == s.msgs + multiset{Msg(Poll, m.attempt + 1)} && LastRunning(s'.tasks)
       case ResultReady => s'.msgs == s.msgs + multiset{Msg(Delivery, 0)}
       case FailedTerminal =>
         || s'.msgs == s.msgs
         || (ShouldNotifyFailure(s'.job) && s'.msgs == s.msgs + multiset{Msg(Delivery, 0)})
       case Rejected => s'.msgs == s.msgs && !s'.hold.Reserved?
       case Cancelled => s'.msgs == s.msgs && LastCancelled(s'.tasks)
       case _ => false
  }

  /** The parts of the store that generation and polling leave alone. */
  predicate Untouched(s: Store, s': Store) {
    && |s'.tasks| == |s.tasks| && SameTerms(s.job, s'.job)
    && s'.row == s.row && s'.chat == s.chat && s'.sends == s.sends
  }

  /** A task was added and its first poll is left to the poll stream. */
  predicate Deferred(s: Store, s': Store) {
    && s'.job.status == ProviderSubmitted && LastRunning(s'.tasks)
    && |s'.tasks| == |s.tasks| + 1
    && s'.msgs == s.msgs + multiset{Msg(Poll, 0)}
    && s'.requeues == s.requeues && s'.hold == s.hold
  }

  /** What a generation handler leaves behind when nothing but providers,
      downloads, scans and probes can fail. */
  predicate Advanced(c: Config, s: Store, m: Msg, s': Store) {
    && s'.row == s.row && s'.chat == s.chat && s'.sends == s.sends
    && SameTerms(s.job, s'.job)
    && |s.tasks| <= |s'.tasks| <= |s.tasks| + 1
    && (Settled(c, s, m, s') || Deferred(s, s'))
  }

  predicate IsFailureNotice(job: Job) {
    !job.miniApp && job.status == FailedTerminal && job.hasPeer && IsAsyncMedia(job)
  }

  /** The statuses on which the delivery worker acts. */
  predicate IsDeliverable(job: Job) {
    job.status == ResultReady || job.status == Delivering || IsFailureNotice(job)
  }

  function AttemptNo(row: Option<Row>): nat {
    if row.None? then 1 else row.value.attemptNo
  }

  /** A capture call can succeed. */
  predicate Collectible(c: Config, s: Store) {
    || Charge(s.job) <= 0 || s.job.costCaptured == Charge(s.job)
    || s.hold.Reserved? || s.hold.Captured? || (s.hold.Released? && c.biller.Shipped?)
  }

  /** What a delivery handler leaves behind when nothing but VK can fail: the job
      is settled, or one more attempt is on the row and the message stays. */
  predicate DeliveryTurn(c: Config, s: Store, s': Store, ok: bool) {
    && SameTerms(s.job, s'.job)
    && s'.msgs == s.msgs && s'.requeues == s.requeues && s'.tasks == s.tasks
    && (s'.sends == s.sends || (s'.sends == s.sends + 1 && !IsSent(s.row)))
    && (if s.job.miniApp then s'.row == s.row && s'.sends == s.sends else s'.row.Some?)
    && (!s.job.miniApp && !IsSent(s'.row) ==>
          AttemptNo(s'.row) == AttemptNo(s.row) + 1 && s'.sends == s.sends + 1)
    && match s'.job.status
       case Succeeded =>
         && ok && s.job.status != FailedTerminal
         && (s'.hold == s.hold || (s.hold.Reserved? && s'.hold.Captured?))
       case FailedTerminal =>
         && (ok || AttemptNo(s'.row) <= c.maxSends) && !s'.hold.Reserved? && HoldMayBeFreed(s, s')
         && (s.job.status == FailedTerminal || (ok && !s.job.miniApp && AttemptNo(s'.row) > c.maxSends && !IsSent(s'.row)))
       case Delivering =>
         && !ok && s.job.status != FailedTerminal && s'.hold == s.hold
         && if !s.job.miniApp && !IsSent(s'.row) then AttemptNo(s'.row) <= c.maxSends else !Collectible(c, s)
       case _ => false
  }


  // --------------------------------------------------------------------- turns

  /** What the handler of message m makes of store s. */
  predicate Handled(c: Config, s: Store, m: Msg, s': Store, ok: bool) {
    match m.stream
    case Generation => ok && if IsDone(s.job.status) then s' == s else Advanced(c, s, m, s')
    case Poll =>
      if IsDone(s.job.status) then ok && s' == s
      else LastRunning(s.tasks) ==> ok && Settled(c, s, m, s') && Untouched(s, s')
    case Delivery => if IsDeliverable(s.job) then DeliveryTurn(c, s, s', ok) else ok && s' == s
  }

  /** A message is acknowledged only if its handler succeeded. */
  function Acked(s: Store, m: Msg, ok: bool): Store {
    if ok then s.(msgs := s.msgs - multiset{m}) else s
  }

  /** One turn of the engine: some message is handled and, on success, acknowledged. */
  ghost predicate Turn(c: Config, s: Store, t: Store) {
    exists m, s', ok :: TurnBy(c, s, m, s', ok, t)
  }

  ghost predicate TurnBy(c: Config, s: Store, m: Msg, s': Store, ok: bool, t: Store) {
    m in s.msgs && Handled(c, s, m, s', ok) && t == Acked(s', m, ok) && MoneyInv(c, t.job, t.hold, IsSent(t.row))
  }

  /** Most retries that can have happened with n tasks and attempt number a. */
  function Budget(c: Config, n: nat, a: nat): int {
    n * (c.maxAttempts - 1) + a
  }

  /** Delivery attempts made so far agree with the row. */
  predicate SendsMatchRow(c: Config, s: Store) {
    if s.row.None? then s.sends == 0
    else if IsSent(s.row) then s.sends <= c.maxSends
    else s.sends + 1 == s.row.value.attemptNo <= c.maxSends
  }

  /** The job waits, and m is its only message. */
  predicate Waiting(c: Config, s: Store, m: Msg) {
    && s.msgs == multiset{m}
    && match m.stream
       case Generation =>
         && s.job.status == Queued && s.row.None? && s.sends == 0
         && m.attempt < c.maxAttempts && |s.tasks| < c.maxAttempts
         && s.requeues <= Budget(c, |s.tasks|, m.attempt)
       case Poll =>
         && s.job.status in {ProviderSubmitted, ProviderPending, ProviderProcessing}
         && s.row.None? && s.sends == 0
         && LastRunning(s.tasks) && |s.tasks| <= c.maxAttempts
         && s.requeues <= Budget(c, |s.tasks|, m.attempt)
         && s.requeues <= Budget(c, c.maxAttempts, 0)
       case Delivery =>
         && (s.job.status == ResultReady || s.job.status == Delivering
             || (s.job.status == FailedTerminal && ShouldNotifyFailure(s.job)))
         && |s.tasks| <= c.maxAttempts && s.requeues <= Budget(c, c.maxAttempts, 0)
         && SendsMatchRow(c, s)
         && (s.job.miniApp || s.job.status == ResultReady ==> s.row.None?)
  }

  /** The job is settled and no message is left. */
  predicate Resting(c: Config, s: Store) {
    && s.msgs == multiset{}
    && s.job.status in {Succeeded, FailedTerminal, Rejected, Cancelled}
    && (s.job.status == Rejected ==> !s.hold.Reserved?)
    && (s.job.status == Cancelled ==> LastCancelled(s.tasks))
    && |s.tasks| <= c.maxAttempts && s.requeues <= Budget(c, c.maxAttempts, 0)
    && s.sends <= c.maxSends
  }

  /** Unless the job has failed or was rejected, its hold was not released; and a
      job that costs something has a hold. */
  predicate Funded(s: Store) {
    && (s.job.status !in {FailedTerminal, Rejected} ==> !s.hold.Released?)
    && (Charge(s.job) > 0 ==> !s.hold.NoHold?)
  }

  ghost predicate CalmInv(c: Config, s: Store) {
    && MoneyInv(c, s.job, s.hold, IsSent(s.row))
    && (Resting(c, s) || exists m :: Waiting(c, s, m))
  }

  lemma InitIsCalm(c: Config, s: Store)
    requires WellConfigured(c) && Init(s)
    ensures CalmInv(c, s)
  {
    assert Waiting(c, s, Msg(Generation, 0));
  }

  lemma BudgetOfNextTask(c: Config, n: nat, a: nat)
    requires a < c.maxAttempts
    ensures Budget(c, n, a) <= Budget(c, n + 1, 0)
  {
  }

  lemma BudgetIsMonotone(c: Config, n: nat, a: nat)
    requires n < c.maxAttempts && a < c.maxAttempts
    ensures Budget(c, n, a) <= Budget(c, c.maxAttempts, 0)
  {
    var d := c.maxAttempts - 1 - n;
    assert c.maxAttempts * (c.maxAttempts - 1) == (n + 1 + d) * (c.maxAttempts - 1)
                                               == n * (c.maxAttempts - 1) + (c.maxAttempts - 1) + d * (c.maxAttempts - 1);
  }

  lemma Replaced(m: Msg, m': Msg)
    ensures multiset{m} + multiset{m'} - multiset{m} == multiset{m'}
  {
  }

  lemma QueuedTurnIsCalm(c: Config, s: Store, m: Msg, s': Store)
    requires c.maxAttempts >= 1 && s.msgs == multiset{m}
    requires Settled(c, s, m, s') && s'.row.None? && s'.sends == 0 && s'.job.status == Queued
    requires s.requeues <= Budget(c, |s'.tasks|, m.attempt)
    ensures Waiting(c, Acked(s', m, true), Msg(Generation, m.attempt + 1))
  {
    Replaced(m, Msg(Generation, m.attempt + 1));
  }

  lemma PolledTurnIsCalm(c: Config, s: Store, m: Msg, s': Store)
    requires s.msgs == multiset{m} && |s'.tasks| <= c.maxAttempts
    requires Settled(c, s, m, s') && s'.row.None? && s'.sends == 0
    requires s'.job.status in {ProviderPending, ProviderProcessing}
    requires s.requeues <= Budget(c, |s'.tasks|, m.attempt) && s.requeues <= Budget(c, c.maxAttempts, 0)
    ensures Waiting(c, Acked(s', m, true), Msg(Poll, m.attempt + 1))
  {
    Replaced(m, Msg(Poll, m.attempt + 1));
  }

  lemma SettledTurnIsCalm(c: Config, s: Store, m: Msg, s': Store)
    requires c.maxAttempts >= 1 && s.msgs == multiset{m}
    requires Settled(c, s, m, s') && s'.row.None? && s'.sends == 0
    requires |s'.tasks| <= c.maxAttempts
    requires s.requeues <= Budget(c, |s'.tasks|, m.attempt) && s.requeues <= Budget(c, c.maxAttempts, 0)
    ensures var t := Acked(s', m, true);
            Resting(c, t) || exists m' :: Waiting(c, t, m')
  {
    var t := Acked(s', m, true);
    var status := s'.job.status;
    if status == Queued {
      QueuedTurnIsCalm(c, s, m, s');
    } else if status == ProviderPending || status == ProviderProcessing {
      PolledTurnIsCalm(c, s, m, s');
    } else if s'.msgs != s.msgs {
      Replaced(m, Msg(Delivery, 0));
      assert Waiting(c, t, Msg(Delivery, 0));
    }
  }

  lemma GenerationTurnIsCalm(c: Config, s: Store, m: Msg, s': Store, ok: bool, t: Store)
    requires c.maxAttempts >= 1
    requires Waiting(c, s, m) && m.stream.Generation? && TurnBy(c, s, m, s', ok, t)
    ensures Resting(c, t) || exists m' :: Waiting(c, t, m')
  {
    BudgetOfNextTask(c, |s.tasks|, m.attempt);
    BudgetIsMonotone(c, |s.tasks|, m.attempt);
    if Deferred(s, s') {
      assert Waiting(c, t, Msg(Poll, 0));
    } else {
      BudgetGrows(c, |s.tasks|, |s'.tasks|, m.attempt);
      SettledTurnIsCalm(c, s, m, s');
    }
  }

  lemma BudgetGrows(c: Config, n: nat, n': nat, a: nat)
    requires n <= n' <= n + 1 && c.maxAttempts >= 1
    ensures Budget(c, n, a) <= Budget(c, n', a)
  {
  }

  lemma PollTurnIsCalm(c: Config, s: Store, m: Msg, s': Store, ok: bool, t: Store)
    requires c.maxAttempts >= 1
    requires Waiting(c, s, m) && m.stream.Poll? && TurnBy(c, s, m, s', ok, t)
    ensures Resting(c, t) || exists m' :: Waiting(c, t, m')
  {
    SettledTurnIsCalm(c, s, m, s');
  }

  lemma DeliveryTurnIsCalm(c: Config, s: Store, m: Msg, s': Store, ok: bool, t: Store)
    requires c.maxSends >= 1
    requires Waiting(c, s, m) && m.stream.Delivery? && TurnBy(c, s, m, s', ok, t)
    ensures Resting(c, t) || Waiting(c, t, m)
  {
  }

  lemma TurnKeepsCalm(c: Config, s: Store, t: Store)
    requires WellConfigured(c) && CalmInv(c, s) && Turn(c, s, t)
    ensures CalmInv(c, t)
  {
    var m, s', ok :| TurnBy(c, s, m, s', ok, t);
    var m' :| Waiting(c, s, m');
    assert m == m';
    match m.stream {
      case Generation => GenerationTurnIsCalm(c, s, m, s', ok, t);
      case Poll => PollTurnIsCalm(c, s, m, s', ok, t);
      case Delivery => DeliveryTurnIsCalm(c, s, m, s', ok, t);
    }
  }

  // ---------------------------------------------------------------------- runs

  ghost predicate TurnAt(c: Config, run: seq<Store>, i: int)
    requires 0 <= i < |run| - 1
  {
    Turn(c, run[i], run[i + 1])
  }

  /** A run of whole turns: every message is handled to the end. */
  ghost predicate IsCalmRun(c: Config, run: seq<Store>) {
    && |run| > 0 && Init(run[0])
    && (forall i {:trigger TurnAt(c, run, i)} :: 0 <= i < |run| - 1 ==> TurnAt(c, run, i))
  }

  lemma {:induction false} CalmRunIsCalm(c: Config, run: seq<Store>, i: nat)
    requires WellConfigured(c) && IsCalmRun(c, run) && i < |run|
    ensures CalmInv(c, run[i])
  {
    if i == 0 {
      InitIsCalm(c, run[0]);
    } else {
      CalmRunIsCalm(c, run, i - 1);
      assert TurnAt(c, run, i - 1);
      TurnKeepsCalm(c, run[i - 1], run[i]);
    }
  }

  /** The stream on which a job of a given status waits for its next turn. */
  function StreamFor(status: JobStatus): Option<Stream> {
    match status
    case Queued => Some(Generation)
    case ProviderSubmitted => Some(Poll)
    case ProviderPending => Some(Poll)
    case ProviderProcessing => Some(Poll)
    case ResultReady => Some(Delivery)
    case Delivering => Some(Delivery)
    case _ => None
  }

  /** Between turns an unfinished job has exactly one message, and it is on the
      stream its status calls for; a finished job has at most a failure notice. */
  lemma OneMessagePerJob(c: Config, run: seq<Store>, i: nat)
    requires WellConfigured(c) && IsCalmRun(c, run) && i < |run|
    ensures var s := run[i];
            match StreamFor(s.job.status)
            case Some(stream) => exists a :: s.msgs == multiset{Msg(stream, a)}
            case None =>
              && s.job.status in {Succeeded, FailedTerminal, Rejected, Cancelled}
              && (s.msgs == multiset{} ||
                  (s.job.status == FailedTerminal && exists a :: s.msgs == multiset{Msg(Delivery, a)}))
  {
    CalmRunIsCalm(c, run, i);
    var s := run[i];
    if !Resting(c, s) {
      var m :| Waiting(c, s, m);
      assert m == Msg(m.stream, m.attempt);
      assert s.msgs == multiset{Msg(m.stream, m.attempt)};
    }
  }

  /** A job gets at most M provider tasks and M(M-1) retries, and at most
      maxSends delivery attempts are made for it. */
  lemma RetryBudget(c: Config, run: seq<Store>, i: nat)
    requires WellConfigured(c) && IsCalmRun(c, run) && i < |run|
    ensures |run[i].tasks| <= c.maxAttempts
    ensures run[i].requeues <= c.maxAttempts * (c.maxAttempts - 1)
    ensures run[i].sends <= c.maxSends
  {
    CalmRunIsCalm(c, run, i);
    var s := run[i];
    if !Resting(c, s) {
      var m :| Waiting(c, s, m);
      if m.stream.Generation? {
        BudgetIsMonotone(c, |s.tasks|, m.attempt);
      }
    }
  }

  /** A turn of a job that waits is about its only message. */
  lemma TheTurn(c: Config, s: Store, t: Store) returns (m: Msg, s': Store, ok: bool)
    requires CalmInv(c, s) && Turn(c, s, t)
    ensures Waiting(c, s, m) && TurnBy(c, s, m, s', ok, t)
  {
    m, s', ok :| TurnBy(c, s, m, s', ok, t);
    var m' :| Waiting(c, s, m');
    assert m == m';
  }

  lemma SettledKeepsFunded(c: Config, s: Store, m: Msg, s': Store)
    requires Settled(c, s, m, s') && SameTerms(s.job, s'.job)
    requires Funded(s) && s.job.status !in {FailedTerminal, Rejected}
    ensures Funded(s')
  {
  }

  lemma DeliveryKeepsFunded(c: Config, s: Store, s': Store, ok: bool)
    requires IsDeliverable(s.job) && DeliveryTurn(c, s, s', ok) && Funded(s)
    ensures Funded(s')
  {
  }

  lemma HandledKeepsFunded(c: Config, s: Store, m: Msg, s': Store, ok: bool)
    requires Waiting(c, s, m) && Funded(s) && Handled(c, s, m, s', ok)
    ensures Funded(s')
  {
    if m.stream.Delivery? {
      if IsDeliverable(s.job) {
        DeliveryKeepsFunded(c, s, s', ok);
      }
    } else if Settled(c, s, m, s') {
      SettledKeepsFunded(c, s, m, s');
    }
  }

  lemma TurnKeepsFunded(c: Config, s: Store, t: Store)
    requires CalmInv(c, s) && Funded(s) && Turn(c, s, t)
    ensures Funded(t)
  {
    var m, s', ok := TheTurn(c, s, t);
    HandledKeepsFunded(c, s, m, s', ok);
  }

  lemma {:induction false} CalmRunIsFunded(c: Config, run: seq<Store>, i: nat)
    requires WellConfigured(c) && IsCalmRun(c, run) && i < |run| && Funded(run[0])
    ensures Funded(run[i])
  {
    if i > 0 {
      CalmRunIsFunded(c, run, i - 1);
      CalmRunIsCalm(c, run, i - 1);
      assert TurnAt(c, run, i - 1);
      TurnKeepsFunded(c, run[i - 1], run[i]);
    }
  }

  /** When whole turns follow each other, a succeeded job was charged exactly its
      charge, with either billing service. */
  lemma SuccessIsCharged(c: Config, run: seq<Store>, i: nat)
    requires WellConfigured(c) && IsCalmRun(c, run) && i < |run| && Funded(run[0])
    requires run[i].job.status == Succeeded && Charge(run[i].job) > 0
    ensures run[i].hold == Captured(Charge(run[i].job))
  {
    CalmRunIsCalm(c, run, i);
    CalmRunIsFunded(c, run, i);
  }

  // ------------------------------------------------ what becomes of the hold

  /** Until the job ends, its hold is the one that it began with. */
  predicate HoldKept(h: Hold, s: Store) {
    s.job.status !in {Succeeded, FailedTerminal, Rejected} ==> s.hold == h
  }

  lemma HandledKeepsHold(c: Config, s: Store, m: Msg, s': Store, ok: bool, h: Hold)
    requires Waiting(c, s, m) && HoldKept(h, s) && Handled(c, s, m, s', ok)
    ensures HoldKept(h, s')
  {
  }

  lemma {:induction false} CalmRunKeepsHold(c: Config, run: seq<Store>, i: nat)
    requires WellConfigured(c) && IsCalmRun(c, run) && i < |run|
    ensures HoldKept(run[0].hold, run[i])
  {
    if i > 0 {
      CalmRunKeepsHold(c, run, i - 1);
      CalmRunIsCalm(c, run, i - 1);
      assert TurnAt(c, run, i - 1);
      var m, s', ok := TheTurn(c, run[i - 1], run[i]);
      HandledKeepsHold(c, run[i - 1], m, s', ok, run[0].hold);
    }
  }

  lemma SucceededHoldsNothing(c: Config, s: Store)
    requires MoneyInv(c, s.job, s.hold, IsSent(s.row)) && s.job.status == Succeeded
    ensures !s.hold.Reserved?
  {
  }

  /** When whole turns follow each other, a job without messages still holds credits if
      and only if its provider task was cancelled and it had a hold to begin with. */
  lemma HoldIsKeptIff(c: Config, run: seq<Store>, i: nat)
    requires WellConfigured(c) && IsCalmRun(c, run) && i < |run| && run[i].msgs == multiset{}
    ensures run[i].hold.Reserved? <==> run[i].job.status == Cancelled && run[0].hold.Reserved?
    ensures run[i].job.status == Cancelled ==> LastCancelled(run[i].tasks)
  {
    CalmRunIsCalm(c, run, i);
    CalmRunKeepsHold(c, run, i);
    var s := run[i];
    assert Resting(c, s);
    if s.job.status == Succeeded {
      SucceededHoldsNothing(c, s);
    }
  }

  /** The result of the job is being delivered and has not got through yet. */
  predicate InDelivery(c: Config, s: Store) {
    && s.job.status in {ResultReady, Delivering} && !IsSent(s.row)
    && SendsMatchRow(c, s)
    && (s.job.miniApp || s.job.status == ResultReady ==> s.row.None?)
  }

  /** Delivery is over: the result got through, or the budget is used up and the
      job costs nothing. */
  predicate Delivered(c: Config, s: Store) {
    && s.msgs == multiset{}
    && (s.job.status == Succeeded ||
        (s.job.status == FailedTerminal && !s.hold.Reserved? && !s.hold.Captured? && s.sends == c.maxSends))
  }

  lemma CollectibleWhenFunded(c: Config, s: Store)
    requires Funded(s) && s.job.status in {ResultReady, Delivering}
    ensures Collectible(c, s)
  {
  }

  lemma DeliveryTurnSettles(c: Config, s: Store, s': Store, ok: bool)
    requires InDelivery(c, s) && Collectible(c, s) && DeliveryTurn(c, s, s', ok) && c.maxSends >= 1
    ensures ok ==>
      || s'.job.status == Succeeded
      || (s'.job.status == FailedTerminal && !s'.hold.Reserved? && s'.sends == c.maxSends)
    ensures !ok ==> InDelivery(c, s') && !s'.job.miniApp && s'.sends == s.sends + 1 && s'.job.status == Delivering
  {
  }

  lemma DeliveryProgress(c: Config, s: Store, t: Store)
    requires WellConfigured(c) && CalmInv(c, s) && Funded(s) && InDelivery(c, s) && Turn(c, s, t)
    ensures Delivered(c, t) || (InDelivery(c, t) && !t.job.miniApp && t.sends == s.sends + 1)
  {
    var m, s', ok := TheTurn(c, s, t);
    CollectibleWhenFunded(c, s);
    DeliveryTurnSettles(c, s, s', ok);
  }

  /** Delivery is over, or it has failed n times and may be tried again. */
  predicate DeliveryPhase(c: Config, s: Store, n: int) {
    Delivered(c, s) || (InDelivery(c, s) && s.sends == n < c.maxSends)
  }

  lemma PhaseBegins(c: Config, s: Store)
    requires WellConfigured(c) && CalmInv(c, s) && s.job.status == ResultReady
    ensures DeliveryPhase(c, s, 0)
  {
    var m :| Waiting(c, s, m);
  }

  lemma PhaseGoesOn(c: Config, s: Store, t: Store, n: int)
    requires WellConfigured(c) && CalmInv(c, s) && Funded(s) && Turn(c, s, t)
    requires DeliveryPhase(c, s, n)
    ensures n < c.maxSends && DeliveryPhase(c, t, n + 1)
  {
    var m, s', ok :| TurnBy(c, s, m, s', ok, t);
    assert m in s.msgs;
    if InDelivery(c, s) {
      DeliveryProgress(c, s, t);
    }
  }

  lemma PhaseStep(c: Config, run: seq<Store>, k: nat, n: int)
    requires WellConfigured(c) && IsCalmRun(c, run) && Funded(run[0]) && k + 1 < |run|
    requires DeliveryPhase(c, run[k], n)
    ensures n < c.maxSends && DeliveryPhase(c, run[k + 1], n + 1)
  {
    CalmRunIsCalm(c, run, k);
    CalmRunIsFunded(c, run, k);
    assert TurnAt(c, run, k);
    PhaseGoesOn(c, run[k], run[k + 1], n);
  }

  /** One delivery message leads to at most maxSends turns and as many attempts;
      the job then is succeeded, or failed with its hold freed. */
  lemma {:induction false} DeliveryEnds(c: Config, run: seq<Store>, i: nat, j: nat)
    requires WellConfigured(c) && IsCalmRun(c, run) && Funded(run[0])
    requires i <= j < |run| && run[i].job.status == ResultReady
    ensures j - i <= c.maxSends && DeliveryPhase(c, run[j], j - i)
    decreases j
  {
    if i == j {
      CalmRunIsCalm(c, run, j);
      PhaseBegins(c, run[j]);
    } else {
      DeliveryEnds(c, run, i, j - 1);
      PhaseStep(c, run, j - 1, j - 1 - i);
    }
  }

  // ------------------------------------------------- the retry budget is attained

  function FailedTasks(n: nat): seq<Task> {
    seq(n, i requires 0 <= i < n => Task(i + 1, "p", "m", true, TaskFailed, Timeout))
  }

  /** A free image job after r retries, with the given tasks, status and message. */
  function Tried(tasks: seq<Task>, status: JobStatus, m: Msg, r: nat, submits: seq<nat>): Store {
    var job := Job(status, ImageModality, false, true, false, 0, 0, 0, []);
    Store(job, tasks, VideoGate.NoMedia, NoHold, None, [], multiset{m}, 0, submits, r, 0)
  }

  /** Waiting in the generation stream with n failed tasks. */
  ghost predicate Retrying(c: Config, run: seq<Store>, n: nat, a: nat, r: nat) {
    && IsCalmRun(c, run) && r >= 0
    && var s := run[|run| - 1]; s == Tried(FailedTasks(n), Queued, Msg(Generation, a), r, s.submits)
  }

  lemma TurnTaken(c: Config, run: seq<Store>, m: Msg, s': Store) returns (longer: seq<Store>)
    requires IsCalmRun(c, run) && TurnBy(c, run[|run| - 1], m, s', true, Acked(s', m, true))
    ensures IsCalmRun(c, longer) && longer == run + [Acked(s', m, true)]
  {
    var t := Acked(s', m, true);
    longer := run + [t];
    assert Turn(c, run[|run| - 1], t);
    forall i | 0 <= i < |longer| - 1 ensures TurnAt(c, longer, i) {
      if i < |run| - 1 {
        assert TurnAt(c, run, i);
      }
    }
  }

  /** GenerationProcess, SubmitOnce and HandleFailure: the submit fails in a retryable way. */
  lemma SubmitFails(c: Config, run: seq<Store>, n: nat, a: nat, r: nat) returns (longer: seq<Store>)
    requires Retrying(c, run, n, a, r) && n < c.maxAttempts && a + 1 < c.maxAttempts
    ensures Retrying(c, longer, n, a + 1, r + 1)
  {
    var s := run[|run| - 1];
    var m, m' := Msg(Generation, a), Msg(Generation, a + 1);
    var s' := s.(msgs := s.msgs + multiset{m'}, requeues := r + 1, submits := s.submits + [n + 1]);
    Replaced(m, m');
    assert Settled(c, s, m, s');
    assert TurnBy(c, s, m, s', true, Acked(s', m, true));
    longer := TurnTaken(c, run, m, s');
  }

  /** GenerationProcess, SubmitOnce and FollowUp: the submit is accepted, and its first
      poll is deferred. */
  lemma SubmitWorks(c: Config, run: seq<Store>, n: nat, a: nat, r: nat) returns (longer: seq<Store>)
    requires Retrying(c, run, n, a, r)
    ensures IsCalmRun(c, longer)
    ensures var s := longer[|longer| - 1];
      s == Tried(FailedTasks(n) + [Task(n + 1, "p", "m", true, TaskPending, Unclassified)], ProviderSubmitted, Msg(Poll, 0), r, s.submits)
  {
    var s := run[|run| - 1];
    var m, m' := Msg(Generation, a), Msg(Poll, 0);
    var s' := s.(job := s.job.(status := ProviderSubmitted), submits := s.submits + [n + 1],
                 tasks := s.tasks + [Task(n + 1, "p", "m", true, TaskPending, Unclassified)],
                 msgs := s.msgs + multiset{m'});
    Replaced(m, m');
    assert Deferred(s, s');
    assert TurnBy(c, s, m, s', true, Acked(s', m, true));
    longer := TurnTaken(c, run, m, s');
  }

  /** PollProcess, ApplyResult and HandleFailure: the provider failed in a retryable way. */
  lemma PollFails(c: Config, run: seq<Store>, n: nat, r: nat) returns (longer: seq<Store>)
    requires IsCalmRun(c, run) && n + 1 < c.maxAttempts
    requires var s := run[|run| - 1];
      s == Tried(FailedTasks(n) + [Task(n + 1, "p", "m", true, TaskPending, Unclassified)], ProviderSubmitted, Msg(Poll, 0), r, s.submits)
    ensures Retrying(c, longer, n + 1, 1, r + 1)
  {
    var s := run[|run| - 1];
    var m, m' := Msg(Poll, 0), Msg(Generation, 1);
    var s' := s.(job := s.job.(status := Queued), tasks := FailedTasks(n + 1),
                 msgs := s.msgs + multiset{m'}, requeues := r + 1);
    Replaced(m, m');
    assert Settled(c, s, m, s') && Untouched(s, s');
    assert TurnBy(c, s, m, s', true, Acked(s', m, true));
    longer := TurnTaken(c, run, m, s');
  }

  /** All the retries that the attempt number allows. */
  lemma {:induction false} RetryToTheEnd(c: Config, run: seq<Store>, n: nat, a: nat, r: nat) returns (longer: seq<Store>)
    requires Retrying(c, run, n, a, r) && n < c.maxAttempts && a < c.maxAttempts
    ensures Retrying(c, longer, n, c.maxAttempts - 1, r + (c.maxAttempts - 1 - a))
    decreases c.maxAttempts - a
  {
    if a + 1 < c.maxAttempts {
      longer := SubmitFails(c, run, n, a, r);
      longer := RetryToTheEnd(c, longer, n, a + 1, r + 1);
    } else {
      longer := run;
    }
  }

  lemma OneRoundMore(n: nat, k: int)
    ensures (n + 1) * k == n * k + k
  {
  }

  /** n tasks later every retry of every round was used. */
  lemma {:induction false} RoundsUsedUp(c: Config, n: nat) returns (run: seq<Store>)
    requires WellConfigured(c) && n < c.maxAttempts
    ensures Retrying(c, run, n, c.maxAttempts - 1, (n + 1) * (c.maxAttempts - 1))
    decreases n
  {
    if n == 0 {
      var s := Tried([], Queued, Msg(Generation, 0), 0, []);
      run := RetryToTheEnd(c, [s], 0, 0, 0);
    } else {
      run := RoundsUsedUp(c, n - 1);
      var r := n * (c.maxAttempts - 1);
      run := SubmitWorks(c, run, n - 1, c.maxAttempts - 1, r);
      run := PollFails(c, run, n - 1, r);
      run := RetryToTheEnd(c, run, n, 1, r + 1);
      OneRoundMore(n, c.maxAttempts - 1);
    }
  }

  /** Both budgets are attained: some run has M tasks and M(M-1) retries. */
  lemma RetryBudgetIsTight(c: Config) returns (run: seq<Store>)
    requires WellConfigured(c)
    ensures IsCalmRun(c, run)
    ensures var s := run[|run| - 1];
      |s.tasks| == c.maxAttempts && s.requeues == c.maxAttempts * (c.maxAttempts - 1)
  {
    var n := c.maxAttempts - 1;
    run := RoundsUsedUp(c, n);
    run := SubmitWorks(c, run, n, n, (n + 1) * n);
  }

  /** An image job that costs price, with the given tasks, status and message. */
  function PaidImageJob(price: int, tasks: seq<Task>, status: JobStatus, m: Msg, submits: seq<nat>): Store {
    var job := Job(status, ImageModality, false, true, false, 0, price, 0, []);
    Store(job, tasks, VideoGate.NoMedia, Reserved, None, [], multiset{m}, 0, submits, 0, 0)
  }

  const PendingTask: Task := Task(1, "p", "m", true, TaskPending, Unclassified)

  /** GenerationProcess, SubmitOnce and FollowUp: submitted, the first poll deferred. */
  lemma PaidSubmit(c: Config, price: int) returns (run: seq<Store>)
    requires WellConfigured(c) && price > 0
    ensures IsCalmRun(c, run) && run[0] == PaidImageJob(price, [], Queued, Msg(Generation, 0), [])
    ensures run[|run| - 1] == PaidImageJob(price, [PendingTask], ProviderSubmitted, Msg(Poll, 0), [1])
  {
    var m, m' := Msg(Generation, 0), Msg(Poll, 0);
    var s := PaidImageJob(price, [], Queued, m, []);
    var s' := PaidImageJob(price, [PendingTask], ProviderSubmitted, m', [1]).(msgs := multiset{m} + multiset{m'});
    Replaced(m, m');
    assert Deferred(s, s');
    assert TurnBy(c, s, m, s', true, Acked(s', m, true));
    run := TurnTaken(c, [s], m, s');
  }

  /** A paid job whose provider task is cancelled: the poll of PollProcess finds that, and
      ApplyResult ends the job. */
  lemma CancelledJobKeepsItsHold(c: Config, price: int) returns (run: seq<Store>)
    requires WellConfigured(c) && price > 0
    ensures IsCalmRun(c, run) && run[0] == PaidImageJob(price, [], Queued, Msg(Generation, 0), [])
    ensures var s := run[|run| - 1]; s.job.status == Cancelled && s.hold.Reserved? && s.msgs == multiset{}
  {
    run := PaidSubmit(c, price);
    var m := Msg(Poll, 0);
    var s := run[|run| - 1];
    var s' := s.(job := s.job.(status := Cancelled), tasks := [PendingTask.(status := TaskCancelled)]);
    assert Settled(c, s, m, s') && Untouched(s, s');
    assert TurnBy(c, s, m, s', true, Acked(s', m, true));
    run := TurnTaken(c, run, m, s');
  }
}
