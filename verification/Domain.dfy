/**
  The vocabulary of the job lifecycle: job and provider-task statuses, provider
  error classes, and the transition table that the orchestrator consults.
 */
module Domain {

  datatype Option<+T> = None | Some(value: T)

  datatype Modality = TextModality | ImageModality | VideoModality | AudioModality

  /** Job statuses, in the order in which the source declares them. */
  datatype JobStatus =
    | Received
    | Validated
    | Rejected
    | AwaitingPayment
    | CreditsReserved
    | Queued
    | DispatchingProvider
    | ProviderSubmitted
    | ProviderPending
    | ProviderProcessing
    | ProviderSucceeded
    | ProviderFailed
    | Postprocessing
    | ResultReady
    | Delivering
    | Succeeded
    | FailedRetryable
    | FailedTerminal
    | Cancelled
    | Expired
    | Refunded

  /** The allowed next statuses of every status. */
  function JobTransitions(s: JobStatus): set<JobStatus> {
    match s
    case Received => {Validated, Rejected, Cancelled}
    case Validated => {AwaitingPayment, CreditsReserved, Queued, Rejected, Cancelled}
    case Rejected => {Refunded}
    case AwaitingPayment => {CreditsReserved, Cancelled, Expired}
    case CreditsReserved => {Queued, Cancelled, Refunded}
    case Queued => {DispatchingProvider, Cancelled, Expired}
    case DispatchingProvider => {ProviderSubmitted, FailedRetryable, FailedTerminal}
    case ProviderSubmitted => {ProviderPending, ProviderProcessing, ProviderSucceeded, ProviderFailed}
    case ProviderPending => {ProviderProcessing, ProviderSucceeded, ProviderFailed, Cancelled}
    case ProviderProcessing => {ProviderSucceeded, ProviderFailed, Cancelled}
    case ProviderSucceeded => {Postprocessing, ResultReady, FailedRetryable, Rejected}
    case ProviderFailed => {FailedRetryable, FailedTerminal, Refunded}
    case Postprocessing => {ResultReady, FailedRetryable, FailedTerminal}
    case ResultReady => {Delivering, FailedRetryable}
    case Delivering => {Succeeded, FailedRetryable, FailedTerminal}
    case Succeeded => {}
    case FailedRetryable => {Queued, FailedTerminal, Refunded}
    case FailedTerminal => {Refunded}
    case Cancelled => {Refunded}
    case Expired => {Refunded}
    case Refunded => {}
  }

  predicate CanTransitionTo(s: JobStatus, target: JobStatus) {
    target in JobTransitions(s)
  }

  /** Statuses on which neither generation nor polling acts any further. */
  predicate IsDone(s: JobStatus) {
    s in {ResultReady, Delivering, Succeeded, FailedTerminal, Cancelled, Refunded, Rejected, Expired}
  }

  /** Normalised provider error classes; Unclassified is the empty class. */
  datatype ErrorClass =
    | RateLimited
    | AuthFailed
    | InsufficientBalance
    | InvalidRequest
    | ModelUnavailable
    | ContentRejected
    | Overloaded
    | Timeout
    | InternalError
    | TaskNotFound
    | OutputDownloadFailed
    | MediaProbeFailed
    | MediaTranscodeFailed
    | UnsupportedCapability
    | Unclassified

  predicate IsRetryable(class_: ErrorClass) {
    class_ in {RateLimited, Timeout, Overloaded, InternalError, OutputDownloadFailed}
  }

  datatype TaskStatus = TaskPending | TaskProcessing | TaskSucceeded | TaskFailed | TaskCancelled

  predicate IsTerminalTask(s: TaskStatus) {
    s.TaskSucceeded? || s.TaskFailed? || s.TaskCancelled?
  }
}
