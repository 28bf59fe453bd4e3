# Job workers, provider router, rate limiter and media gate

A Dafny model of the parts of the VK AI aggregator where state is hard to follow:
the workers that drive a job from the queue to a delivered and charged result, the
registry that routes a request to a provider, the in-memory rate limiter, text
splitting, and the checks on generated videos. `dafny verify dfyconfig.toml`
verifies the whole project.

## How the model is built

**The job protocol.** `Protocol.Store` is everything that outlives a worker process
for one job: the job row, its provider tasks, the artifact and variant rows with what
the prober said about them, the hold on the user's credits, the delivery row, the VK
conversation and the unacknowledged messages. `Protocol.Next`
lists the effects that workers may have on it, one at a time, each with the
condition under which a worker may have it. `Next` does not know which handler is
active or how far it got. A sequence of `Next` steps therefore covers handlers that
stop after any effect, answers that get lost, and messages that are handled again.
`Safety` states what all such runs keep.

`Worker.Worker` holds the handlers themselves, effect by effect, with the branches of
the source. Every effect may be applied, refused, or applied with its answer lost, and
calls into code that is not modelled answer arbitrarily. The ghost `log` holds every
store value that was ever reached; `Valid()` says that the log is a run of `Next`. So
every method is proved to take only `Next` steps from any reachable store.

With `calm` set, store, stream, moderation and context calls succeed. What else a handler
is answered is then a value, `Outcomes.World`: whether a request can be built and routed,
what the provider says to a submit and to a poll, which outputs cannot be fetched, what
moderation says, and whether prober, transcoder, object stores and VK do everything they
are asked (`willing`). `Outcomes` spells out what every answer makes of the store, and the
handlers are proved to leave exactly that behind. Its lemmas show that these outcomes are
what turns are made of (`Turns.Settled`, `Turns.Advanced`, `Turns.DeliveryTurn`), and
`Turns` proves message conservation, the retry budget and the end of delivery over runs of
whole turns, whatever the world answers.

**The router.** `Breaker`, `Quality`, `Candidates` and `Router` say what the registry's
records and decisions mean in terms of the calls ever made. `Registry.Registry` is the
mutable object; its ghost `books` hold every recorded call and sample, and `Valid()` ties
the breakers and quality records to them.

**The limiter.** `TokenBucket` describes a token bucket as a function of request times;
`Sweep` the eviction sweep as a function of the key list and the cursor;
`RateLimit.Limiter` is the mutable object, proved against both. Its ghost `record` holds
every decided request with its answer, `states` and `calls` the key list around every
call; `Valid()` ties the buckets, the answers and the key list to them.

**Media.** `MediaMath` and `MediaContracts` cover the arithmetic and the contracts.
`VideoGate` says when an output is cleared for delivery, which object delivery takes, and
which effects there are on artifacts; the gate itself is a part of `Worker.Worker`, every
one of its writes is a `Next` step, and `Protocol.MaySetStatus` lets a video become
result_ready only with all outputs cleared. `TextSplit` splits texts, and `Labels` builds
the labels under which model classes are recorded.

## What turned out to differ from the obvious claim

- *A succeeded job was charged.* The charge is always recorded on the job. The credits
  were really captured if and only if the hold had not been released before
  (`Safety.MoneySafety`, `Worker.Worker.CaptureReserved`). `CaptureForJob` of the billing
  service answers success on a conflict (`internal/service/billingservice/service.go:238-243`),
  and a conflict is what a released hold gives
  (`internal/adapter/storage/postgres/billing.go:236-238`). `Safety.ShippedBillerCanGiveAwayAResult`
  builds a run in which a result is delivered and nothing is captured, step by step along
  the handlers. With a billing
  service that reports the conflict (`Strict`) the claim holds in every run, and when every
  handler comes to its end (`Turns.SuccessIsCharged`) it holds with both.
- *One sweep removes every expired bucket of a list of at most 64.* This holds for every
  set of expired keys if and only if the cursor is at the first or second key or past the
  end (`Sweep.SweepIsCompleteIff`): removing a key puts one that was already checked under
  the cursor, which uses up a check. A limiter does get there: `RateLimit.ExpiredKeyStays`
  makes six requests of three keys, the last of which leaves an expired key in place.
- *The limiter decides like a bucket that never forgets.* This holds on every monotone
  clock if and only if rate * TTL >= burst (`TokenBucket.RefinesIdealIff`).
- *What the gate lets through can be delivered.* An output that was let through can be
  delivered if and only if it has a ready rendition or the delivery policy takes its
  original (`VideoGate.ClearedIsDeliverableIff`). Over every run that holds of all outputs
  where the prober reports passed and the policies and the contract agree
  (`Safety.ReadyVideoIsDeliverable`): the gate lets no originals through, or delivery takes
  any, or the contract is for H.264 in MP4. A valid contract for VP9 in WebM is an input on
  which it fails (`VideoGate.OtherContainerIsRefused`).
- *A job that ended holds no credits.* When every handler comes to its end, a job without
  messages keeps a hold if and only if its provider task was cancelled
  (`Turns.HoldIsKeptIff`, `Turns.CancelledJobKeepsItsHold`). A stop between the status and
  the release leaves the hold of a rejected job too (`Safety.RejectedJobCanKeepItsHold`).
- *A failed job shows no result.* Delivery can give up, lose its acknowledgement, and then
  take the old media row for the failure notice (`Safety.FailedJobCanShowItsResult`). The
  result of a job that ended was paid for if and only if the job succeeded and its hold was
  not released (`Safety.EndedJobIsPaidIff`).
- In a text of more than 3500 runes the splitter also cuts a rest that would fit into one
  chunk at its last separator (`internal/worker/delivery.go:590-608`), so the last word
  becomes a chunk of its own; `TextSplit.RestIsOneChunkIff` says when it does not. The
  model follows the code.
- The workers write statuses that `jobTransitions` does not list (for example
  postprocessing to rejected). `Protocol.MaySetStatus` lists what the workers write;
  `JobTable` is about the table.
- `handleMediaFailure` sends no notice. The model does the same.

## Model

| member | source | states |
|---|---|---|
| Protocol.RunKeepsInv | internal/worker/worker.go:1929-2017 | every store of every run, wherever handlers stop, satisfies the money, task and conversation invariants, and every output of the job has an artifact row |
| Protocol.NextKeepsMoney | internal/worker/delivery.go:163-305 | no single effect breaks the money invariant |
| Protocol.NextKeepsTasks | internal/worker/generation.go:155-196 | no single effect breaks: tasks numbered from 1, all but the last ended, every number submitted, at most one number beyond |
| Protocol.NextKeepsChat | internal/worker/delivery.go:536-560 | no single effect makes the conversation anything but a prefix of the row's messages |
| Protocol.PostKeepsShape | internal/worker/delivery.go:536-560 | with injective random ids, a chunk that is visible already is dropped by VK and the next one is appended |
| Safety.MoneySafety | internal/worker/delivery.go:163-305 | captured means the price, the snapshot's if there is one and else the reserved cost, and the row is sent or the job is a Mini App job; succeeded with a price means it is recorded, and captured if and only if the hold was not released; failed_terminal means nothing held and nothing captured |
| Safety.HoldIsSettledOnce | internal/domain/billing.go:62-74 | a captured hold stays captured and a released one stays released |
| Safety.EndedJobIsPaidIff | internal/worker/delivery.go:217-258 | the charge of a succeeded or failed job was captured if and only if it succeeded and its hold was not released |
| Safety.SuccessIsHanded | internal/worker/delivery.go:163-258 | a succeeded job, also one that costs nothing, is a Mini App job, or its row is sent and all its messages are visible |
| Safety.FailedJobCanShowItsResult | internal/worker/delivery.go:217-243 | for every price, a run along the handlers that ends failed_terminal with the hold released and the media visible |
| Safety.RejectedJobCanKeepItsHold | internal/worker/worker.go:2704-2716 | for every price, a run along the handlers that ends rejected, without messages, and with the hold kept |
| Safety.ShippedBillerCanGiveAwayAResult | internal/service/billingservice/service.go:227-274 | for every price, a run along the handlers that ends succeeded and delivered with the hold released and nothing captured |
| Safety.SubmitDiscipline | internal/worker/generation.go:47-110 | every submit carries the number of persisted tasks plus one, and is made only while every task is failed or cancelled |
| Safety.SubmitsPerTask | internal/worker/generation.go:155-196 | all tasks but the last are failed or cancelled; the distinct keys ever sent are at most one more than the tasks |
| Safety.WorkerMoney | internal/worker/delivery.go:163-305 | the money claims for every store that the handlers of a worker ever leave behind |
| Safety.WorkerSubmits | internal/worker/generation.go:47-110 | the submit claims for every store that the handlers of a worker ever leave behind |
| Safety.NextNumberIsNew | internal/worker/generation.go:155-196 | no persisted task ever has the number that the next one would get |
| Safety.VideoResultIsCleared | internal/worker/worker.go:2019-2163 | in every run, crashes included, a video job is result_ready, delivering or succeeded only with outputs, all of which, with a prober, were accepted by it and meet the contract, have a VK rendition or are contract-free development outputs; without one, probing is optional and videos are marked skipped |
| Safety.ReadyOriginalIsWithinContract | internal/worker/worker.go:2118-2163 | in every run, with a prober, an output of a ready video has a VK rendition, or is within the size, length, aspect, resolution, container and codec of the contract of the job's last task under a policy that lets originals through, or there is no contract and the policy is always_dev_only |
| Safety.WorkerVideos | internal/worker/worker.go:1929-2017 | the same for every store that the handlers of a worker ever leave behind |
| Safety.WorkerTurns | internal/worker/engine.go:184-221 | message conservation, both budgets, the charge and what becomes of the hold, for the messages that a worker handled |
| Safety.WorkerDeliveryEnds | internal/worker/delivery.go:217-258 | the end of delivery within maxSends turns, for the messages that a worker handled |
| Safety.UploadedVideoWasAccepted | internal/worker/delivery.go:562-579 | in every run, the object uploaded for a video was accepted by the prober, unless the delivery policy is always_dev_only |
| Safety.VisibleMediaWasAccepted | internal/worker/delivery.go:445-505 | in every run a visible media message has an attachment, the object that delivery takes for the first output, accepted by the prober if it is a video, unless the policy is always_dev_only |
| Safety.ReadyVideoIsDeliverable | internal/worker/delivery.go:741-798 | in every run, with a prober that reports passed and policies and contract that agree, delivery finds an object for every output of a video that is ready |
| Safety.DoneIsFrozen | internal/worker/worker.go:1547-1561 | once a job is done for generation and polling, its outputs, artifact rows and contract do not change |
| Safety.DeliveredTextIsAPrefix | internal/worker/delivery.go:536-560 | across failures and restarts the visible chunks are a prefix of the chunk list, none repeated, and the whole list once the row is sent |
| Safety.DeliveredTextGrows | internal/worker/delivery.go:498-504 | nothing that was visible is taken back, changed or reordered later |
| Safety.FinalStatusIsFinal | internal/worker/worker.go:1547-1561 | succeeded, failed_terminal, rejected and cancelled never change; from result_ready a job only goes to delivering, succeeded or failed_terminal |
| Turns.OneMessagePerJob | internal/worker/engine.go:184-221 | between turns every unfinished job has exactly one message, on the stream its status calls for; a finished job has none, or one failure notice |
| Turns.RetryBudget | internal/worker/worker.go:2500-2548 | with maxAttempts = M at most M tasks and M(M-1) retries to generation, and at most maxSends delivery attempts |
| Turns.RetryBudgetIsTight | internal/worker/worker.go:2500-2548 | for every M some run of turns has M tasks and M(M-1) retries |
| Turns.TurnKeepsCalm | internal/worker/worker.go:2500-2548 | one handled and acknowledged message keeps the job waiting on one message within its budget, or at rest |
| Turns.SuccessIsCharged | internal/worker/delivery.go:260-291 | if every handler comes to its end, a succeeded job has its charge captured, with either billing service |
| Turns.HoldIsKeptIff | internal/worker/worker.go:2011-2014 | if every handler comes to its end, a job without messages holds credits if and only if it is cancelled, with a last task that the provider cancelled, and had a hold to begin with |
| Turns.CancelledJobKeepsItsHold | internal/worker/worker.go:2011-2014 | for every price, a run of turns that ends cancelled with the hold kept |
| Turns.DeliveryEnds | internal/worker/delivery.go:217-258 | from result_ready at most maxSends turns and as many sends; then succeeded, or failed_terminal with the hold freed and no message left |
| Outcomes.StatusAfterFailure | internal/worker/worker.go:2518-2543 | a failed job is queued again if and only if the class is one of the five transient ones and both the tasks and the attempts are below the budget; otherwise it is failed_terminal |
| Outcomes.FailureSettles | internal/worker/worker.go:2500-2548 | what a failure leaves behind is what a turn may leave: one more message exactly if the job goes on, within the budget, or at most a notice, and only an ended job's hold is freed |
| Outcomes.ResultSettles | internal/worker/worker.go:1929-2017 | the same for what every status of a provider task leaves behind, stored and refused outputs included |
| Outcomes.GenerationAdvances | internal/worker/generation.go:35-119 | the same for a whole generation message, whatever the world answers; at most one task is added |
| Worker.Worker.Attempt | internal/domain/repositories.go:205-232 | an effect is applied, refused, or applied with its answer lost; the log stays a run of Next |
| Worker.Worker.SetStatus | internal/worker/worker.go:1775-1810 | compare-and-set on the old status: success means the new status is stored, a stale status is a conflict, nothing else changes |
| Worker.Worker.ReleaseReserved | internal/worker/worker.go:2589-2601 | success means that the hold is not reserved any more; only the hold may change |
| Worker.Worker.HandleFailure | internal/worker/worker.go:2500-2548 | takes only Next steps and loses no message; calm: the status is queued for the five transient classes below the budget and failed_terminal otherwise; a retry is one message with the next attempt number; an end frees the hold, keeps an exhausted message and publishes a notice exactly for images and videos with a VK conversation |
| Worker.Worker.HandleMediaFailure | internal/worker/worker.go:2369-2375 | calm: failed_terminal with the hold freed and no new message |
| Worker.Worker.SaveOutputs | internal/worker/worker.go:2456-2490 | success means that one artifact was stored for every missing output and all are attached to the stored job; nothing but the outputs changes; calm: the failure is that of the first output that cannot be scanned or fetched |
| Worker.AttachIs | internal/worker/worker.go:2479-2483 | attaching keeps the old outputs, adds exactly the new ones and repeats none |
| Worker.AttachIsIdempotent | internal/worker/worker.go:2454-2456 | attaching artifacts that are attached already changes nothing |
| Worker.Worker.ProbeVideoOutputs | internal/worker/worker.go:2019-2163 | a video that goes on is in postprocessing and has passed the gate; a text or image is left alone; calm: the gate never ends in a store error, and with willing services it refuses only for a reason that `Outcomes.GateRefuses` lists |
| Worker.Worker.RunGate | internal/worker/worker.go:2037-2163 | success means that the outputs are not empty and, with a prober, all cleared under the contract of the last task, or, without one, skipped where probing is optional; a refusal with willing services means no outputs, a missing prober or object store, or an output that contract, transcoder and policy all leave out; renditions are added only where transcoding is allowed |
| Worker.Worker.ProbeOutput | internal/worker/worker.go:2070-2163 | one output is cleared or the gate ends, with willing services only if neither contract, transcoder nor policy lets the output through; no other artifact changes, and renditions only where transcoding is allowed |
| Worker.Worker.ProbeOriginal | internal/worker/worker.go:2070-2117 | success means that the row of a video says that its bytes passed, with what the prober said |
| Worker.Worker.TranscodeVideoVariant | internal/worker/worker.go:2217-2326 | success means a stored VK rendition and an unchanged row; only bytes that the prober accepted are stored as passed |
| Worker.Worker.SaveVariant | internal/service/artifactservice/service.go:196-251 | existing renditions are kept, one is added only if there is none |
| Worker.Worker.MarkVideoProbeSkipped | internal/worker/worker.go:2328-2348 | success means that every video among the outputs is marked skipped |
| Worker.Worker.MarkVideoProbeFailed | internal/worker/worker.go:2350-2361 | success means that every output is marked failed |
| Worker.Worker.SaveRemoteArtifact | internal/service/artifactservice/service.go:343-411 | success means that the artifact has a row; at most one row is added, and a new row says nothing about its contents |
| Worker.Worker.EnsureMediaAttachment | internal/worker/delivery.go:562-579 | success means that the stored row has an attachment; a new one is the object that delivery takes for the job's first output |
| Worker.Worker.ModerateOutput | internal/worker/worker.go:2654-2716 | a blocked result ends rejected, and calm its hold is not reserved any more; an allowed one changes nothing |
| Worker.Worker.ApplyResult | internal/worker/worker.go:1929-2017 | only Next steps; calm: pending and processing publish the next poll in their status, failed is what a failure leaves behind, cancelled ends the job with its hold unchanged, and succeeded is a failed fetch, a refusal by the gate, a rejection, or result_ready with a delivery message, as fetching, gate and moderation say |
| Worker.Worker.PollOnce | internal/worker/worker.go:1836-1928 | only Next steps; calm: a stored result is used without asking; otherwise the provider's status decides, and an error is polled again below 180 attempts if it may pass and the task runs in the background, and is a failure if not |
| Worker.Worker.ActiveTask | internal/worker/worker.go:1812-1825 | finds a pending, processing or succeeded task if and only if there is one |
| Worker.Worker.PersistTask | internal/worker/generation.go:155-196 | adds one task numbered after the existing ones |
| Worker.Worker.SubmitOnce | internal/worker/generation.go:73-119 | a submit is made with no active task; calm: the key is sent, and the job is what the provider's answer makes of it: a failure, a task left to the poll stream, or a task polled at once |
| Worker.Worker.GenerationProcess | internal/worker/generation.go:35-119 | from any reachable store only Next steps; calm: nothing for a job that is done, a poll for one with a task in flight, and else a new attempt with the next number and the outcome of its submit |
| Worker.Worker.PollProcess | internal/worker/poll.go:27-62 | from any reachable store only Next steps; calm: a running task is asked for, a failed or cancelled one is applied, and anything else changes nothing |
| Worker.Worker.CaptureForJob | internal/service/billingservice/service.go:227-274 | success means captured, or, with the shipped service, a hold that was released before |
| Worker.Worker.CaptureReserved | internal/worker/delivery.go:260-291 | success means that the charge is recorded and captured, unless the shipped service met a released hold |
| Worker.Worker.EnsureDelivery | internal/worker/delivery.go:309-328 | one delivery row per job: an existing row is returned unchanged, otherwise a pending one is created: a notice for a failed picture, a fixed text without outputs, media for images and videos, text for the rest |
| Worker.Worker.SendChunk | internal/worker/delivery.go:536-560 | after success the chunk is visible and the returned id is that of its message |
| Worker.Worker.SendTextDelivery | internal/worker/delivery.go:536-560 | after success every chunk of the row is visible |
| Worker.Worker.Send | internal/worker/delivery.go:445-505 | after success the row is sent and all its messages are visible; nothing but the row, the conversation and the counter changes; with willing services an attempt that has something to send succeeds |
| Worker.Worker.AfterFailedSend | internal/worker/delivery.go:217-243 | the failed attempt is counted; the last one of the budget ends the job |
| Worker.Worker.DeliveryProcess | internal/worker/delivery.go:163-258 | from any reachable store only Next steps; calm: exactly jobs that are result_ready, delivering, or failed pictures with a VK conversation get a delivery turn; with willing services and something to show it is shown, and the job succeeds if its charge can be collected |
| Worker.Worker.HandleOne | internal/worker/engine.go:184-221 | nothing but the handled message is ever acknowledged; calm: handling one message is one whole turn, in which it is acknowledged exactly when its handler succeeded |
| Worker.Worker.Dispatch | internal/worker/engine.go:184-221 | no message disappears without having been acknowledged, and no more are counted as handled than acknowledged; calm: every message of the batch is one turn |
| JobTable.RankIncreases | internal/domain/job.go:130-152 | every edge of the table raises the rank, except the retry, which lowers it by 9 |
| JobTable.LifecycleBound | internal/domain/job.go:130-152 | a run from received with k retries has at most 15 + 10k transitions |
| JobTable.LifecycleBoundIsTight | internal/domain/job.go:130-152 | for every k some run has exactly 15 + 10k transitions |
| JobTable.SuccessPassesWaypoints | internal/domain/job.go:215-222 | every run from received to succeeded passes queued, dispatching_provider, provider_submitted, provider_succeeded, result_ready and delivering in this order |
| TextSplit.SplitVKText | internal/worker/delivery.go:581-611 | the loop ends for every text and yields the chunks of the specification |
| TextSplit.NextCutIsTheCut | internal/worker/delivery.go:590-600 | the cut is the one position after the last separator of the window, or the window's end if it has none |
| TextSplit.CutIs | internal/worker/delivery.go:590-600 | the cut follows a line feed, a space or a tab after the first rune, with none of these later among the first 3500 runes, or is the end of these runes |
| TextSplit.RestIsOneChunkIff | internal/worker/delivery.go:590-608 | a rest that fits into one chunk is one chunk if and only if it ends with a separator or has none after its first rune |
| TextSplit.SplitKeepsInk | internal/worker/delivery.go:581-611 | the chunks joined are the text, white space aside |
| TextSplit.ChunksFit | internal/worker/delivery.go:581-611 | every chunk is not empty and at most 3500 runes long, and the chunks of a longer text are trimmed |
| TextSplit.PiecesAreSlices | internal/worker/delivery.go:581-611 | the chunks are the trimmed slices between ascending cut points |
| TextSplit.ShortWordsStayWhole | internal/worker/delivery.go:581-611 | no cut falls inside a separator-free stretch of at most 3499 runes |
| Breaker.BreakerRefinesHistory | internal/worker/worker.go:547-584 | failures are the retryable errors since the last success; open if and only if there are two or more and the last was less than 30 s per failure ago |
| Breaker.LatencyIsAnAverage | internal/worker/worker.go:556-565 | the latency is 0 if and only if there was no positive sample, and otherwise lies between the least and the greatest one |
| Breaker.LatencyHalves | internal/worker/worker.go:556-565 | a call without a sample changes no latency, the first sample is the latency, and each later one is averaged with it |
| Labels.BuildLabel | internal/worker/worker.go:1738-1764 | the loop yields the label of the specification: trimmed, lower case, cleaned, at most 96 characters, no underscores at the ends |
| Labels.LabelIs | internal/worker/worker.go:1738-1764 | a label is the first 96 characters of the token with underscores for all but a-z, 0-9 and _-.:/ and none at either end, or unknown if nothing is left |
| Labels.LabellingIsIdempotent | internal/worker/worker.go:1715-1722 | every label is 1 to 96 characters of the label alphabet without underscores at the ends, and is its own label |
| Quality.Configured | internal/worker/worker.go:199-220 | thresholds that make sense are kept; any others become 3 failures and 2 successes, or are ordered |
| Quality.StatusFollowsTheTail | internal/worker/worker.go:616-661 | the next status in terms of how many of the last samples were failures or successes in a row; with the guard off the last sample decides |
| Quality.FallsCost | internal/worker/worker.go:616-661 | from any state, every departure from Healthy is paid for by a full round of failures and recoveries |
| Quality.Hysteresis | internal/worker/worker.go:616-661 | leaving Healthy k times takes at least k * degradedFailures + (k - 1) * recoverySuccesses samples |
| Quality.HysteresisIsTight | internal/worker/worker.go:616-661 | for every k some run of samples meets the bound exactly |
| Candidates.BeforeIsAStrictTotalOrder | internal/worker/worker.go:506-525 | the comparison is irreflexive, asymmetric, transitive, and total on different registrations |
| Candidates.SortedIsRanked | internal/worker/worker.go:506-525 | sorted means: preferred first, then the cheaper, then the faster with unknown latencies last, then the one registered earlier |
| Candidates.SortedIsUnique | internal/worker/worker.go:506-525 | a set of candidates has one sorted arrangement |
| Candidates.Supports | internal/worker/worker.go:527-545 | true if and only if some capability has the operation, and the modality and the model or leaves them open; a failing capabilities call is no support |
| Candidates.ChoiceIsTheBestTier | internal/worker/worker.go:478-504 | the choice is exactly the best tier that has candidates, sorted; empty only if there are none |
| Candidates.ChoiceIsUnique | internal/worker/worker.go:478-504 | any sorted arrangement of that tier is the choice |
| Candidates.ChosenAreTheBest | internal/worker/worker.go:462-504 | the chosen candidates are all those of the best level that occurs: usable and not degraded, usable, not disabled, any |
| Candidates.BestTierIsBest | internal/worker/worker.go:462-504 | no candidate is in a better tier than the chosen one |
| Router.SelectionIsComplete | internal/worker/worker.go:405-504 | a request has candidates if and only if a registered provider that matches the pin is capable |
| Router.CandidatesAre | internal/worker/worker.go:405-504 | a registered provider is a candidate if and only if it answers, matches the pin, has a capability that serves the request, and does not refuse to estimate it |
| Router.ChosenNamesDiffer | internal/worker/worker.go:405-504 | no provider is chosen twice |
| Router.RecordedWhereLookedUp | internal/worker/worker.go:312-328 | selection looks a class up under the key that calls of that class are recorded under; without a contract for the model the class is that of the provider's model, or default |
| Router.CallsAreOrdered | internal/worker/worker.go:751-856 | each candidate is called at most once, in order, with its contract's leave, and only after a failure that allows the next |
| Router.EarlierCallsPassOn | internal/worker/worker.go:872-875 | every call but the last failed with rate_limited, timeout, overloaded, internal_error, output_download_failed or unsupported_capability |
| Router.WhyItStopped | internal/worker/worker.go:795-856 | if the last call failed with one of these classes while a permitted candidate was left, the budget of provider attempts or of fallbacks, of the registry or of the contract, was used up |
| Router.FirstSuccessWins | internal/worker/worker.go:751-795 | an accepted submit is the first permitted candidate that did not fail, and the last call |
| Router.CallsStayInBudget | internal/worker/worker.go:795-835 | at most maxFallback + 1 calls, at most maxProviderAttempts when positive, and no call after a failed one under a contract without provider idempotency |
| Registry.Registry.constructor | internal/worker/worker.go:146-161 | the given providers in order, each once, with fresh breakers; no policy, budget or contracts |
| Registry.Registry.Add | internal/worker/worker.go:233-242 | a name is registered once and keeps its breaker |
| Registry.Registry.ConfigureMediaProviderBudget | internal/worker/worker.go:177-194 | negative budgets become 0 |
| Registry.Registry.ConfigureProviderQualityGuard | internal/worker/worker.go:199-220 | an enabled policy satisfies what the hysteresis results ask of it |
| Registry.Registry.PreferProvider | internal/worker/worker.go:224-231 | sets one modality's preference, and nothing for an empty name |
| Registry.Registry.Record | internal/worker/worker.go:547-584 | every breaker stays the fold of all calls ever recorded for it |
| Registry.Registry.UpdateProviderQuality | internal/worker/worker.go:616-661 | every quality record stays the fold of all samples recorded under its label, under the policies of their times |
| Registry.Registry.SelectCandidates | internal/worker/worker.go:405-504 | the four lists and the sort yield the chosen tier of all capable providers, preferred ones first, then by cost, latency and registration |
| Registry.CandidateReflectsHistory | internal/worker/worker.go:451-467 | cost, model class, openness, latency and quality of a candidate are what its estimate and the calls and samples ever recorded for it amount to |
| Registry.Registry.Submit | internal/worker/worker.go:751-856 | the calls made, the outcome and everything recorded are those of the routing specification |
| MediaContracts.LastMatch | internal/worker/media_contracts.go:83-99 | the last matching contract: it matches and no later one does |
| MediaContracts.Find | internal/worker/media_contracts.go:83-99 | the loop returns the governing contract, or none if none matches |
| MediaContracts.ValidateProviderSubmit | internal/worker/media_contracts.go:25-70 | a permitting contract is valid, and without provider idempotency allows one call and no fallback |
| MediaContracts.SubmitIsPermittedIff | internal/worker/media_contracts.go:25-70 | a video submit is permitted exactly if the governing contract is sound and attempt, length, aspect, resolution, cost, probe and transcoder keep to it; without a contract only the mock provider's where no contracts exist; anything else always |
| MediaContracts.PermittedAttempts | internal/worker/media_contracts.go:39-47 | a contract that permits the first attempt permits exactly the attempts up to its maximum |
| MediaContracts.SecondAttemptIsRefused | internal/domain/provider_media_contract.go:99-111 | without provider idempotency every attempt after the first is refused |
| MediaContracts.DeliveryReadyVideoOutput | internal/worker/media_contracts.go:126-153 | true if and only if there is a contract and the normalised metadata and the size meet it |
| MediaContracts.MeetsContractIff | internal/worker/media_contracts.go:126-153 | meeting a contract means: delivery-ready, probe passed, container and codec as expected if any are, size at most the maximum if there is one, length within a second of an allowed one, aspect and resolution listed |
| MediaContracts.MediaTokenIsToken | internal/domain/artifact.go:267-288 | a normalised codec or container is lower case without white space around it |
| MediaMath.Gcd | internal/worker/media_contracts.go:209-220 | the loop computes the gcd of the absolute values |
| MediaMath.GcdDivides | internal/worker/media_contracts.go:209-220 | the gcd divides both numbers |
| MediaMath.GcdScales | internal/worker/media_contracts.go:209-220 | the gcd is a multiple of every common divisor |
| MediaMath.Proportional | internal/worker/media_contracts.go:201-220 | numbers in proportion are in the proportion of their gcds |
| MediaMath.ReducedAspectIs | internal/worker/media_contracts.go:201-207 | the reduced aspect is a:b in lowest terms if and only if width * b = height * a |
| MediaMath.AspectFitsIff | internal/worker/media_contracts.go:190-207 | a list of lowest-terms ratios accepts a picture if and only if it has one of them |
| MediaMath.AllowedOutputAspect | internal/worker/media_contracts.go:190-207 | the check accepts by that rule; no list accepts anything, a list refuses sizes that are not positive |
| MediaMath.AllowedOutputDuration | internal/worker/media_contracts.go:163-188 | accepted if and only if the list is empty, or ms > 0 and some allowed s has (s-1)*1000 < ms <= (s+1)*1000 |
| MediaMath.ItoaIsInjective | internal/worker/media_contracts.go:201-207 | different numbers are written differently |
| MediaMath.AtoiOfItoa | internal/worker/media_contracts.go:237-253 | parsing what was written gives the number back |
| MediaMath.HeightTokenMatchesIff | internal/worker/media_contracts.go:237-245 | "Np" bounds the height by N and nothing else |
| MediaMath.SizeTokenMatchesIff | internal/worker/media_contracts.go:246-253 | "MxN" bounds width by M and height by N |
| MediaMath.AllowedOutputResolution | internal/worker/media_contracts.go:222-235 | true if and only if the list is empty or some token matches a positive size |
| VideoGate.MediaNextKeepsHonest | internal/worker/worker.go:2101-2126 | no effect on artifacts or variants makes a row say passed of bytes that the prober did not accept |
| VideoGate.MediaObjectForDelivery | internal/worker/delivery.go:741-798 | the first ready document, else the first ready video rendition, else a ready original, else nothing |
| VideoGate.ChosenIs | internal/worker/delivery.go:741-798 | the object taken, spelled out over the list of renditions: the first document that is stored and passed, then the first such VK rendition, then the original if the policy takes it |
| VideoGate.DeliveredVideoWasAccepted | internal/worker/delivery.go:741-798 | under never or if_probe_passed only bytes that the prober accepted are taken |
| VideoGate.ClearedIsDeliverableIff | internal/worker/delivery.go:741-798 | a cleared output can be delivered if and only if it has a ready rendition, or its original is stored and the policy takes it |
| VideoGate.ClearedIsDeliverable | internal/worker/delivery.go:741-798 | with ready renditions, and policies and contract that agree, every cleared output can be delivered |
| VideoGate.OtherContainerIsRefused | internal/worker/delivery.go:776-790 | under a valid contract for VP9 in WebM an output takes the fast path and delivery refuses it |
| TokenBucket.LevelIsTheTightestWindow | internal/platform/ratelimit/ratelimit.go:190-222 | the level of a never-forgetting bucket is what its tightest window leaves over |
| TokenBucket.IdealGrantsWhatFits | internal/platform/ratelimit/ratelimit.go:190-222 | that bucket grants a request if and only if no window ending with it then exceeds burst + rate * length |
| TokenBucket.IdealGrantBound | internal/platform/ratelimit/ratelimit.go:190-222 | in any interval one key gets at most burst + rate * length grants |
| TokenBucket.ForgettingIsHarmless | internal/platform/ratelimit/ratelimit.go:190-222 | with rate * TTL >= burst a bucket that forgets idle keys has the same tokens at any time |
| TokenBucket.GrantBound | internal/platform/ratelimit/ratelimit.go:190-222 | with rate * TTL >= burst the limiter's own buckets keep to burst + rate * length in any interval |
| TokenBucket.RefinesIdealIff | internal/platform/ratelimit/ratelimit.go:190-222 | all decisions on all monotone clocks agree with the never-forgetting bucket if and only if rate * TTL >= burst |
| Sweep.SweepFromTheTopIsComplete | internal/platform/ratelimit/ratelimit.go:224-252 | a sweep of at most 64 keys from the first or second key leaves no expired one |
| Sweep.SweepFromTheMiddleCanMiss | internal/platform/ratelimit/ratelimit.go:224-252 | from any other cursor some set of expired keys is not removed completely |
| Sweep.SweepIsCompleteIff | internal/platform/ratelimit/ratelimit.go:224-252 | the two together, for every list of at most 64 keys |
| Sweep.ChecksLowerPotential | internal/platform/ratelimit/ratelimit.go:224-252 | n checks that leave an expired key in place lower distance plus length by at least n |
| Sweep.DeadKeyGoesAway | internal/platform/ratelimit/ratelimit.go:201-202 | the sweeps that an untouched expired key survives cover less than twice the keys there were: fewer calls than that, and 62 times fewer with 64 keys or more |
| RateLimit.Limiter.constructor | internal/platform/ratelimit/ratelimit.go:114-142 | defaults replace values that are not positive; nothing is recorded yet |
| RateLimit.Limiter.EvictExpired | internal/platform/ratelimit/ratelimit.go:224-256 | the loop is the sweep of the specification, drops only expired buckets, and keeps list, map and cursor in agreement |
| RateLimit.Limiter.Allow | internal/platform/ratelimit/ratelimit.go:190-222 | unless a new key meets a full map, the decision is the bucket's on the key's whole history, whatever was evicted; the list stays duplicate-free, equal to the map's keys and within maxBuckets |
| RateLimit.Limiter.Spend | internal/platform/ratelimit/ratelimit.go:204-222 | refill and spending as the specification of a single bucket says |
| RateLimit.DecidedIsExact | internal/platform/ratelimit/ratelimit.go:190-222 | deciding with the stored bucket, or with none if it was evicted, is deciding on the whole history |
| RateLimit.Limiter.AnswersAreIdeal | internal/platform/ratelimit/ratelimit.go:190-222 | with rate * TTL >= burst every answer that a limiter ever gave is the never-forgetting bucket's |
| RateLimit.Limiter.GrantedInInterval | internal/platform/ratelimit/ratelimit.go:190-222 | then at most burst + rate * length of the answers that a key got in an interval are true |
| RateLimit.Limiter.IdleKeyGoesAway | internal/platform/ratelimit/ratelimit.go:224-252 | an expired key that nobody touches is gone after boundedly many calls of a limiter |
| RateLimit.ExpiredKeyStays | internal/platform/ratelimit/ratelimit.go:224-252 | a limiter with three keys whose last sweep started at the third and left an expired key behind |

## Left out

- Concurrent handlers of one job: the model has one handler at a time. Changes of artifact rows by other processes.
- Metrics, tracing, logging, backoff timing and sleeping.
- Request assembly (`buildRequest`), reference images, moderation marker lists, `formatVKText`: only the outcomes matter here.
- The adapters for providers, VK, S3, Redis and Postgres: they answer arbitrarily within the contracts that the domain interfaces state.
- `cmd`, `internal/app`, `web`, configuration, account linking and authentication, anti-spam, payments.
- Expiry of reservations by other processes, and jobs that do not exist.
- Worker.Worker.PersistTask: the branch that reconciles a conflict by external id, which needs a second handler of the job or a provider that repeats external ids; a conflict on the number cannot arise (`Safety.NextNumberIsNew`).
- Worker.Worker.TranscodeVideoVariant: filling an empty codec or container of the rendition from the transcoder's own metadata.
- Registry.Registry.SelectCandidates: sorting is modelled as insertion; the library's stable sort gives the same list because the order is total.
- MediaContracts.ValidateProviderSubmit: does not tell the error messages apart; they have one class.
- Labels.BuildLabel: lower-casing covers ASCII letters only, as everywhere in the model.
- MediaMath.AllowedOutputAspect: lower-casing covers ASCII letters only.
- MediaMath.AllowedOutputDuration: seconds times 1000 does not overflow, because integers are unbounded.
- RateLimit.Limiter.Allow: tokens and times are reals, so floating-point rounding is not modelled.
- VideoGate.MediaObjectForDelivery: a VK attachment that is already stored on the artifact is sent without it.
