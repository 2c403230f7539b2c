/** The whole protocol for one diagnosis: the durable rows, one clock, every claim ever taken, every
    handler ever launched (including those whose claim is long gone) and the log of provider calls.

    A step is one atomic transaction, one local move of a handler, or one external provider call.
    Steps interleave freely, and a step whose guard does not hold changes nothing. A handler that
    crashed simply takes no further step. */
module Protocol {
  import opened Rows
  import opened Transactions
  import opened Handlers

  /** charged is the attempt number paid for by the durable execution start, once it committed. */
  datatype ClaimInfo = ClaimInfo(worker: nat, gen: nat, cancel: bool, charged: Option<nat>)

  /** A concrete provider request made on behalf of the attempt at this position. */
  datatype Call = Call(at: nat, outcome: Outcome)

  datatype Sys = Sys(
    d: Diagnosis,
    now: nat,
    next: nat,
    claims: map<nat, ClaimInfo>,
    hs: map<nat, Handler>,
    calls: seq<Call>)

  /** How a transaction answers: truthfully, committed but reported as an error, or not executed at all. */
  datatype Reply = Faithful | LostReply | NotExecuted

  datatype Step =
    | Tick(dt: nat)
    | ClaimStep(worker: nat, duration: nat, skip: nat)
    | StartStep(t: nat)
    | ReturnStep(t: nat)
    | RenewStep(t: nat, until: nat)
    | ReapStep(nextRun: nat)
    | SweepStep(a: nat)
    | CancelStep
    | RequeueStep
    | RetryStep
    | CauseStep(t: nat, cause: Cause)
    | LaunchStep(t: nat)
    | EnterStep(t: nat, ok: bool)
    | AttemptStep(t: nat, reply: Reply)
    | LoadStep(t: nat, ok: bool, compatible: bool, sound: bool)
    | BeginStep(t: nat, reply: Reply, again: bool)
    | CheckStep(t: nat, reply: Reply, again: bool)
    | CallStep(t: nat, outcome: Outcome)
    | SettleStep(t: nat, reply: Reply, again: bool)
    | EndStep(t: nat, kind: ExecKind, result: bool)
    | InspectStep(t: nat, ok: bool)
    | SaveStep(t: nat, reply: Reply, oversize: bool)
    | RouteStep(t: nat, cls: ErrorClass, code: ErrorCode, oversize: bool)
    | DivertStep(t: nat)
    | FinalizeStep(t: nat, reply: Reply)
    | ResolveStep(t: nat, ok: bool)
    | DecideStep(t: nat)
    | CloseStep(t: nat, reply: Reply, nextRun: nat, stop: bool)

  function Init(now: nat): Sys { Sys(Create(now), now, 0, map[], map[], []) }

  function Seen(tx: Tx, reply: Reply): Err { if reply.Faithful? then tx.err else Rejected }

  function Committed(s: Sys, tx: Tx, reply: Reply): Diagnosis { if reply.NotExecuted? then s.d else tx.d }

  function ClaimOf(h: Handler, t: nat): Claim { Claim(h.worker, t, h.gen) }

  /** Handler t moves to a new phase; d is the state of the rows after the step. */
  function Move(s: Sys, t: nat, d: Diagnosis, phase: Phase): Sys
    requires t in s.hs
  {
    s.(d := d, hs := s.hs[t := s.hs[t].(phase := phase)])
  }

  /* ----- claims, recovery and users ----- */

  /** The token is new to this job; skip tokens went to claims of other jobs in the meantime. */
  function DoClaim(s: Sys, worker: nat, duration: nat, skip: nat): Sys {
    var token := s.next + skip;
    var tx := ClaimJob(s.d, s.now, worker, token, duration);
    if tx.err != Ok then s
    else s.(d := tx.d, next := token + 1,
            claims := s.claims[token := ClaimInfo(worker, s.d.job.gen, s.d.job.cancel, None)])
  }

  function DoStart(s: Sys, t: nat): Sys {
    if t !in s.claims then s
    else
      var tx := MarkExecutionStarted(s.d, s.now, Claim(s.claims[t].worker, t, s.claims[t].gen));
      if tx.err != Ok then s
      else s.(d := tx.d, claims := s.claims[t := s.claims[t].(charged := Some(tx.d.job.count))])
  }

  function DoReturn(s: Sys, t: nat): Sys {
    if t !in s.claims then s
    else s.(d := ReturnUndispatchedClaim(s.d, Claim(s.claims[t].worker, t, s.claims[t].gen)).d)
  }

  function DoRenew(s: Sys, t: nat, until: nat): Sys {
    if t !in s.claims then s
    else s.(d := RenewLease(s.d, s.now, s.claims[t].worker, t, until).d)
  }

  /** The background pollers cancel the execution context. A user cancellation is reported only
      when the durable flag of the job this claim still owns says so. */
  function DoCause(s: Sys, t: nat, cause: Cause): Sys {
    if t !in s.hs || !s.hs[t].cause.NoCause? then s
    else if cause.UserCancelCause? && !(Owns(s.d.job, s.hs[t].worker, t) && s.d.job.cancel) then s
    else s.(hs := s.hs[t := s.hs[t].(cause := cause)])
  }

  /** The worker launches a handler at most once per claim, and only for a durably started claim. */
  function DoLaunch(s: Sys, t: nat): Sys {
    if t !in s.claims || t in s.hs || s.claims[t].charged.None? then s
    else
      var c := s.claims[t];
      s.(hs := s.hs[t := Handler(c.worker, c.gen, c.charged.value, None,
                                 if c.cancel then UserCancelCause else NoCause,
                                 if c.cancel then Closing(CloseCancel) else Launched)])
  }

  /* ----- the handler ----- */

  function DoEnter(s: Sys, t: nat, ok: bool): Sys {
    if !(t in s.hs && s.hs[t].phase.Launched?) then s
    else
      var h := s.hs[t];
      Move(s, t, s.d,
           if h.cause.ShutdownCause? then Returned(RetShutdown)
           else if h.cause.OwnershipLostCause? then Returned(RetLost)
           else if !ok then Returned(RetPermanent(OtherCode))
           else if TerminalRun(s.d.run.status) then Returned(RetNil)
           else Entered)
  }

  function DoAttempt(s: Sys, t: nat, reply: Reply): Sys {
    if !(t in s.hs && s.hs[t].phase.Entered?) then s
    else
      var h := s.hs[t];
      var tx := StartAttempt(s.d, s.now, ClaimOf(h, t), ExpectedAttemptNo(h.no));
      var d := Committed(s, tx, reply);
      match Seen(tx, reply)
      case Ok => s.(d := d, hs := s.hs[t := h.(at := Some(|s.d.attempts|), phase := Loading)])
      case OwnershipLost => Move(s, t, d, Returned(RetLost))
      case AlreadyFinalized => Move(s, t, d, Returned(RetFinalized))
      case CancelRequested => Move(s, t, d, Returned(RetCancelled))
      case _ => Move(s, t, d, Returned(RetRetryable(OtherCode)))
  }

  /** The handler at t is in a phase that works on its own attempt row. */
  predicate At(s: Sys, t: nat) {
    t in s.hs && s.hs[t].at.Some? && s.hs[t].at.value < |s.d.attempts|
  }

  /** The newest final checkpoint is replayed instead of asking the provider again. A stored report that
      does not pass validation any more counts as invalid. */
  function DoLoad(s: Sys, t: nat, ok: bool, compatible: bool, sound: bool): Sys {
    if !(At(s, t) && s.hs[t].phase.Loading?) then s
    else
      var latest := LatestFinalCheckpoint(s.d.attempts, s.hs[t].gen);
      Move(s, t, s.d,
           if !ok then Returned(RetRetryable(OtherCode))
           else if latest.None? then Idle(false)
           else if !compatible then Terminating(Permanent, CheckpointVersionMismatch, true)
           else if s.d.attempts[latest.value].kind.FinalInvalid? || !sound then Ended(ExecInvalid, true)
           else Ended(ExecValid, true))
  }

  function DoBegin(s: Sys, t: nat, reply: Reply, again: bool): Sys {
    if !(At(s, t) && s.hs[t].phase.Idle?) then s
    else
      var h := s.hs[t];
      var tx := BeginProviderDispatch(s.d, s.now, ClaimOf(h, t), h.at.value, h.no);
      var e := Seen(tx, reply);
      Move(s, t, Committed(s, tx, reply),
           if e == Ok then Marked(h.phase.answered)
           else if again && e == Rejected then h.phase
           else Ended(ExecError(e), true))
  }

  function DoCheck(s: Sys, t: nat, reply: Reply, again: bool): Sys {
    if !(At(s, t) && s.hs[t].phase.Marked?) then s
    else
      var h := s.hs[t];
      var e := Seen(Tx(CheckDispatchAuthority(s.d, s.now, ClaimOf(h, t), h.at.value, h.no), s.d), reply);
      Move(s, t, s.d,
           if e == Ok then Authorized(h.phase.answered)
           else if again && e == Rejected then Idle(h.phase.answered)
           else Ended(ExecError(e), true))
  }

  /** The request leaves the process. No row is read or written at this moment. */
  function DoCall(s: Sys, t: nat, outcome: Outcome): Sys {
    if !(At(s, t) && s.hs[t].phase.Authorized?) then s
    else
      var e := Move(s, t, s.d, Answered(outcome, s.hs[t].phase.answered));
      e.(calls := s.calls + [Call(s.hs[t].at.value, outcome)])
  }

  function DoSettle(s: Sys, t: nat, reply: Reply, again: bool): Sys {
    if !(At(s, t) && s.hs[t].phase.Answered?) then s
    else
      var h := s.hs[t];
      var c := ClaimOf(h, t);
      match h.phase.outcome
      case CallSucceeded =>
        var tx := DispatchSucceeded(s.d, s.now, c, h.at.value, h.no);
        Move(s, t, Committed(s, tx, reply), if Seen(tx, reply) == Ok then Idle(true) else Ended(ExecUnknown, true))
      case CallFailedDefinitely =>
        var tx := DispatchFailedDefinitely(s.d, s.now, c, h.at.value, h.no);
        var resolved := Seen(tx, reply) == Ok && DispatchResolves(s.d, s.now, c, h.at.value, h.no);
        Move(s, t, Committed(s, tx, reply),
             if !resolved then Ended(ExecUnknown, true)
             else if again then Idle(h.phase.answered)
             else Ended(ExecError(Ok), true))
      case CallOutcomeUnknown =>
        Move(s, t, s.d, Ended(ExecUnknown, true))
  }

  /** The executor returns while no request is in flight. A report needs an answered request. */
  function DoEnd(s: Sys, t: nat, kind: ExecKind, result: bool): Sys {
    if !(At(s, t) && s.hs[t].phase.Idle?) then s
    else if (kind.ExecValid? || kind.ExecInvalid?) && s.hs[t].phase.answered then Move(s, t, s.d, Ended(kind, true))
    else if kind == ExecError(Ok) then Move(s, t, s.d, Ended(kind, result))
    else s
  }

  /** After a failed execution the handler reads its own marker before it believes the error. */
  function DoInspect(s: Sys, t: nat, ok: bool): Sys {
    if !(At(s, t) && s.hs[t].phase.Ended?) then s
    else
      var p := s.hs[t].phase;
      var row := s.d.attempts[s.hs[t].at.value];
      Move(s, t, s.d,
           match p.kind
           case ExecValid => Judged(ExecValid, false, true)
           case ExecInvalid => Judged(ExecInvalid, !ok, true)
           case ExecError(_) =>
             if !ok || row.unresolved then Judged(ExecUnknown, true, p.result) else Judged(p.kind, false, p.result)
           case ExecUnknown => Judged(ExecUnknown, true, p.result))
  }

  function CheckpointOf(kind: ExecKind): CheckpointKind {
    match kind
    case ExecValid => FinalValid
    case ExecInvalid => FinalInvalid
    case _ => PartialProviderFailure
  }

  /** A checkpoint that is too large is refused before its transaction begins. */
  function DoSave(s: Sys, t: nat, reply: Reply, oversize: bool): Sys {
    if !(At(s, t) && s.hs[t].phase.Judged?) then s
    else
      var h := s.hs[t];
      var p := h.phase;
      if !p.result then Move(s, t, s.d, Saved(p.kind, p.unknown))
      else
        var tx := SaveCheckpoint(s.d, s.now, ClaimOf(h, t), h.at.value, h.no, CheckpointOf(p.kind),
                                 p.kind.ExecUnknown?);
        var code :=
          if p.unknown then ProviderOutcomeUnknown else if oversize then ReportTooLarge else CheckpointSaveFailed;
        if oversize then Move(s, t, s.d, Terminating(Permanent, code, true))
        else
          Move(s, t, Committed(s, tx, reply),
               if Seen(tx, reply) == Ok then Saved(p.kind, p.unknown) else Terminating(Permanent, code, true))
  }

  function DoRoute(s: Sys, t: nat, cls: ErrorClass, code: ErrorCode, oversize: bool): Sys {
    if !(At(s, t) && s.hs[t].phase.Saved?) then s
    else
      var h := s.hs[t];
      var kind := h.phase.kind;
      Move(s, t, s.d,
           if h.cause.OwnershipLostCause? then Returned(RetLost)
           else if h.cause.ShutdownCause? && !h.phase.unknown then Returned(RetShutdown)
           else if h.cause.UserCancelCause? then Cancelling
           else match kind
             case ExecInvalid => Invalidating
             case ExecUnknown => Terminating(Permanent, ProviderOutcomeUnknown, false)
             case ExecValid => if oversize then Terminating(Permanent, ReportTooLarge, false) else Succeeding
             case ExecError(e) =>
               if e == OwnershipLost then Returned(RetLost)
               else if e == CancelRequested then Cancelling
               else if code.ProviderOutcomeUnknown? || cls.OwnershipClass? then h.phase
               else if cls.Permanent? || s.d.job.max <= h.no then Terminating(cls, code, false)
               else Retrying(code))
  }

  /** The execution context is read once more just before a failure is written. */
  function DoDivert(s: Sys, t: nat): Sys {
    if !(At(s, t) && (s.hs[t].phase.Retrying? || (s.hs[t].phase.Terminating? && !s.hs[t].phase.shielded))) then s
    else
      var h := s.hs[t];
      if h.cause.UserCancelCause? then Move(s, t, s.d, Cancelling)
      else if h.phase.Retrying? then
        (if !h.cause.OwnershipLostCause? && !h.cause.ShutdownCause? then s
         else Move(s, t, s.d, Returned(RetRetryable(OtherCode))))
      else if h.cause.OwnershipLostCause? then Move(s, t, s.d, Returned(RetLost))
      else if h.cause.ShutdownCause? && !h.phase.code.ProviderOutcomeUnknown? then
        Move(s, t, s.d, Returned(RetShutdown))
      else s
  }

  function AfterFailure(e: Err, cls: ErrorClass, code: ErrorCode): Phase {
    match e
    case Ok => Returned(RetFinalized)
    case AlreadyFinalized => Returned(RetFinalized)
    case CancelRequested => Cancelling
    case OwnershipLost => Returned(RetLost)
    case _ => Unsettled(Failed, RetPolicy(cls, code, ReasonFor(cls)))
  }

  function DoFinalize(s: Sys, t: nat, reply: Reply): Sys {
    if !At(s, t) then s
    else
      var h := s.hs[t];
      var c := ClaimOf(h, t);
      match h.phase
      case Terminating(cls, code, _) =>
        var tx := FinalizeDiagnosisFailure(s.d, c, h.at.value, cls, code);
        Move(s, t, Committed(s, tx, reply), AfterFailure(Seen(tx, reply), cls, code))
      case Invalidating =>
        var tx := FinalizeInvalidReport(s.d, c, h.at.value);
        Move(s, t, Committed(s, tx, reply), AfterFailure(Seen(tx, reply), Permanent, InvalidStructuredReport))
      case Succeeding =>
        var tx := FinalizeSuccess(s.d, c, h.at.value);
        var e := Seen(tx, reply);
        Move(s, t, Committed(s, tx, reply),
             if e == Ok then Returned(RetNil)
             else if e == CancelRequested then Cancelling
             else if e == AlreadyFinalized then Returned(RetFinalized)
             else if e == OwnershipLost then Returned(RetLost)
             else Unsettled(Succeeded, RetRetryable(OtherCode)))
      case Retrying(code) =>
        var tx := FinalizeRetryableAttempt(s.d, c, h.at.value);
        var e := Seen(tx, reply);
        Move(s, t, Committed(s, tx, reply),
             if e == Ok then Returned(RetRetryable(code))
             else if e == CancelRequested then Cancelling
             else if e == AlreadyFinalized then Returned(RetFinalized)
             else if e == OwnershipLost then Returned(RetLost)
             else Returned(RetRetryable(OtherCode)))
      case Cancelling =>
        var tx := FinalizeCancellation(s.d, c, h.at.value);
        var e := Seen(tx, reply);
        Move(s, t, Committed(s, tx, reply),
             if e == Ok || e == AlreadyFinalized then Returned(RetFinalized)
             else if e == OwnershipLost then Returned(RetLost)
             else Unsettled(Cancelled, RetRetryable(OtherCode)))
      case _ => s
  }

  /* ----- the worker after the handler returned ----- */

  /** The durable row decides what an ambiguous handler-owned finalization meant. */
  function DoResolve(s: Sys, t: nat, ok: bool): Sys {
    if !(t in s.hs && s.hs[t].phase.Unsettled?) then s
    else
      var h := s.hs[t];
      var j := s.d.job;
      var same := j.started && j.worker == Some(h.worker) && j.token == Some(t) && j.gen == h.gen;
      Move(s, t, s.d,
           if ok && same && j.status != h.phase.expected && j.status.Running? then Returned(h.phase.ret) else Done)
  }

  function DoDecide(s: Sys, t: nat): Sys {
    if !(t in s.hs && s.hs[t].phase.Returned?) then s
    else
      var h := s.hs[t];
      var dec := Decide(h.phase.ret, h.cause, h.no, s.d.job.max);
      Move(s, t, s.d, if dec.Leave? then Done else Closing(dec))
  }

  function CloseTx(s: Sys, h: Handler, t: nat, dec: Decision, nextRun: nat): Tx
    requires !dec.Leave?
  {
    match dec
    case CloseSuccess => ConditionalFinalizeSuccess(s.d, h.worker, t)
    case CloseCancel => ConditionalFinalizeCancel(s.d, h.worker, t)
    case CloseFailure(cls, code, reason, terminal) =>
      ConditionalFinalizeFailure(s.d, h.worker, t, cls, code, reason, terminal, nextRun)
  }

  function DoClose(s: Sys, t: nat, reply: Reply, nextRun: nat, stop: bool): Sys {
    if !(t in s.hs && s.hs[t].phase.Closing? && !s.hs[t].phase.decision.Leave?) then s
    else
      var h := s.hs[t];
      var tx := CloseTx(s, h, t, h.phase.decision, nextRun);
      Move(s, t, Committed(s, tx, reply), if Seen(tx, reply) == Ok || stop then Done else h.phase)
  }

  function Apply(s: Sys, step: Step): Sys {
    match step
    case Tick(dt) => s.(now := s.now + dt)
    case ClaimStep(worker, duration, skip) => DoClaim(s, worker, duration, skip)
    case StartStep(t) => DoStart(s, t)
    case ReturnStep(t) => DoReturn(s, t)
    case RenewStep(t, until) => DoRenew(s, t, until)
    case ReapStep(nextRun) => s.(d := ReapExpired(s.d, s.now, nextRun).d)
    case SweepStep(a) => s.(d := RecoverStaleAttempt(s.d, s.now, a).d)
    case CancelStep => s.(d := RequestCancellation(s.d).d)
    case RequeueStep => s.(d := ManualRequeue(s.d, s.now).d)
    case RetryStep => s.(d := RetryDiagnosis(s.d, s.now).d)
    case CauseStep(t, cause) => DoCause(s, t, cause)
    case LaunchStep(t) => DoLaunch(s, t)
    case EnterStep(t, ok) => DoEnter(s, t, ok)
    case AttemptStep(t, reply) => DoAttempt(s, t, reply)
    case LoadStep(t, ok, compatible, sound) => DoLoad(s, t, ok, compatible, sound)
    case BeginStep(t, reply, again) => DoBegin(s, t, reply, again)
    case CheckStep(t, reply, again) => DoCheck(s, t, reply, again)
    case CallStep(t, outcome) => DoCall(s, t, outcome)
    case SettleStep(t, reply, again) => DoSettle(s, t, reply, again)
    case EndStep(t, kind, result) => DoEnd(s, t, kind, result)
    case InspectStep(t, ok) => DoInspect(s, t, ok)
    case SaveStep(t, reply, oversize) => DoSave(s, t, reply, oversize)
    case RouteStep(t, cls, code, oversize) => DoRoute(s, t, cls, code, oversize)
    case DivertStep(t) => DoDivert(s, t)
    case FinalizeStep(t, reply) => DoFinalize(s, t, reply)
    case ResolveStep(t, ok) => DoResolve(s, t, ok)
    case DecideStep(t) => DoDecide(s, t)
    case CloseStep(t, reply, nextRun, stop) => DoClose(s, t, reply, nextRun, stop)
  }

  function Exec(s: Sys, steps: seq<Step>): Sys {
    if steps == [] then s else Apply(Exec(s, steps[..|steps| - 1]), steps[|steps| - 1])
  }
}
