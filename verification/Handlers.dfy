/** What a worker process remembers about a claimed execution, and how it turns what it saw into
    its next action. The phases follow the control flow of the diagnosis handler, from the launch
    of the handler to the worker's generic finalization. */
module Handlers {
  import opened Rows

  /** Why the execution context was cancelled. The first cause wins and is never replaced. */
  datatype Cause = NoCause | UserCancelCause | OwnershipLostCause | ShutdownCause | RetryableCause

  /** How a concrete provider request ended, as the process saw it. */
  datatype Outcome = CallSucceeded | CallFailedDefinitely | CallOutcomeUnknown

  /** How the executor ended. An error carries the store error that caused it, Ok when there was none. */
  datatype ExecKind = ExecValid | ExecInvalid | ExecError(err: Err) | ExecUnknown

  /** What the handler returned to the worker. */
  datatype Ret =
    | RetNil
    | RetFinalized
    | RetLost
    | RetShutdown
    | RetCancelled
    | RetRetryable(code: ErrorCode)
    | RetPermanent(code: ErrorCode)
    | RetPolicy(cls: ErrorClass, code: ErrorCode, reason: TerminalReason)

  /** What the worker does with the job row after the handler returned. */
  datatype Decision =
    | Leave
    | CloseSuccess
    | CloseCancel
    | CloseFailure(cls: ErrorClass, code: ErrorCode, reason: Option<TerminalReason>, terminal: bool)

  datatype Phase =
    | Launched
    | Entered
    | Loading
    | Idle(answered: bool)
    | Marked(answered: bool)
    | Authorized(answered: bool)
    | Answered(outcome: Outcome, answered: bool)
    | Ended(kind: ExecKind, result: bool)
    | Judged(kind: ExecKind, unknown: bool, result: bool)
    | Saved(kind: ExecKind, unknown: bool)
    | Terminating(cls: ErrorClass, code: ErrorCode, shielded: bool)
    | Invalidating
    | Succeeding
    | Retrying(code: ErrorCode)
    | Cancelling
    | Unsettled(expected: JobStatus, ret: Ret)
    | Returned(ret: Ret)
    | Closing(decision: Decision)
    | Done

  datatype Handler = Handler(worker: nat, gen: nat, no: nat, at: Option<nat>, cause: Cause, phase: Phase)

  /** Only this policy survives a cancelled execution context. */
  predicate PreservedPolicy(ret: Ret) {
    ret.RetPolicy? && ret.cls.Permanent? && ret.code.ProviderOutcomeUnknown?
  }

  function FailureDecision(cls: ErrorClass, code: ErrorCode, no: nat, max: nat): Decision {
    if cls.Permanent? then CloseFailure(Permanent, code, Some(PermanentReason), true)
    else if max <= no then CloseFailure(Retryable, code, Some(RetryableExhausted), true)
    else CloseFailure(Retryable, code, None, false)
  }

  function CauseDecision(cause: Cause, no: nat, max: nat): Decision
    requires !cause.NoCause?
  {
    match cause
    case UserCancelCause => CloseCancel
    case OwnershipLostCause => Leave
    case ShutdownCause => Leave
    case RetryableCause => FailureDecision(Retryable, OtherCode, no, max)
  }

  function ReturnDecision(ret: Ret, no: nat, max: nat): Decision {
    match ret
    case RetNil => CloseSuccess
    case RetFinalized => Leave
    case RetLost => Leave
    case RetShutdown => Leave
    case RetCancelled => CloseCancel
    case RetRetryable(code) => FailureDecision(Retryable, code, no, max)
    case RetPermanent(code) => FailureDecision(Permanent, code, no, max)
    case RetPolicy(cls, code, reason) => CloseFailure(cls, code, Some(reason), true)
  }

  /** The worker's decision once the handler has returned: a cause replaces what the handler
      returned, unless the handler asked for the preserved policy and still owns the claim. */
  function Decide(ret: Ret, cause: Cause, no: nat, max: nat): Decision {
    if cause.NoCause? then ReturnDecision(ret, no, max)
    else if PreservedPolicy(ret) && !cause.OwnershipLostCause? then ReturnDecision(ret, no, max)
    else CauseDecision(cause, no, max)
  }
}
