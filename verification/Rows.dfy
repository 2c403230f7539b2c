/** The durable rows of one diagnosis: its analysis job, its run and its attempts.

    A diagnosis run has exactly one job of type RUN_DIAGNOSIS (unique index on job type and
    resource id), and every statement of the two stores is keyed by the run id or by the job id,
    so the three kinds of rows that belong to one run form one unit of state. Attempts are kept in
    insertion order, and an attempt's position is its identity. */
module Rows {

  datatype Option<+T> = None | Some(value: T)

  datatype JobStatus = Pending | Running | RetryWait | Succeeded | Failed | Cancelled

  datatype RunStatus = RunQueued | RunRunning | RunSucceeded | RunFailed | RunCancelled

  datatype AttemptStatus =
    | AttemptRunning
    | AttemptSucceeded
    | AttemptFailedRetryable
    | AttemptFailedTerminal
    | AttemptCancelled
    | AttemptAbandoned

  datatype CheckpointKind = NoCheckpoint | FinalValid | FinalInvalid | PartialProviderFailure

  datatype TerminalReason = RetryableExhausted | PermanentReason | CancelledReason

  datatype ErrorClass = Retryable | Permanent | OwnershipClass

  /** The error codes on which some decision depends; every other code is OtherCode. */
  datatype ErrorCode =
    | ProviderOutcomeUnknown
    | CheckpointSaveFailed
    | CheckpointVersionMismatch
    | ProviderProgressAborted
    | ProviderTransient
    | ReportTooLarge
    | InvalidStructuredReport
    | LeaseExpired
    | LeaseExpiredExhausted
    | OtherCode

  datatype Job = Job(
    status: JobStatus,
    gen: nat,
    count: nat,
    max: nat,
    started: bool,
    worker: Option<nat>,
    token: Option<nat>,
    lease: Option<nat>,
    nextRun: nat,
    cancel: bool,
    reason: Option<TerminalReason>,
    errClass: Option<ErrorClass>,
    errCode: Option<ErrorCode>)

  datatype Run = Run(status: RunStatus, cancel: bool, final: Option<nat>)

  datatype Attempt = Attempt(
    gen: nat,
    no: nat,
    worker: nat,
    status: AttemptStatus,
    unresolved: bool,
    successSeen: bool,
    kind: CheckpointKind,
    unknownCode: bool,
    completed: bool)

  /** A persisted report row: the attempt it belongs to and whether it was structurally valid. */
  datatype Report = Report(attempt: nat, valid: bool)

  datatype Diagnosis = Diagnosis(job: Job, run: Run, attempts: seq<Attempt>, reports: seq<Report>)

  /** What a worker presents to prove that it still owns an execution. */
  datatype Claim = Claim(worker: nat, token: nat, gen: nat)

  /** Outcome of a store transaction as its caller sees it. */
  datatype Err =
    | Ok
    | OwnershipLost
    | AlreadyFinalized
    | CancelRequested
    | CancelNotRequested
    | AttemptNotRunning
    | RunConflict
    | LeaseActive
    | Rejected

  /** A transaction either commits (Ok) or rolls back, leaving the rows as they were. */
  datatype Tx = Tx(err: Err, d: Diagnosis)

  predicate TerminalJob(s: JobStatus) { s.Succeeded? || s.Failed? || s.Cancelled? }

  predicate TerminalRun(s: RunStatus) { s.RunSucceeded? || s.RunFailed? || s.RunCancelled? }

  /** A checkpoint that a later attempt may replay instead of calling the provider. */
  predicate FinalCheckpoint(a: Attempt) { (a.kind.FinalValid? || a.kind.FinalInvalid?) && a.completed }

  /** The job row names this worker and token as its running owner. */
  predicate Owns(j: Job, worker: nat, token: nat) {
    j.status.Running? && j.worker == Some(worker) && j.token == Some(token)
  }

  predicate LiveLease(j: Job, now: nat) { j.lease.Some? && now < j.lease.value }
}
