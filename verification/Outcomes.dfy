/** What each path of a handler, of its worker, of lease recovery and of a user comes to in the durable rows.
    The statements hold in every state with the facts of Core, hence in every reachable one. */
module Outcomes {
  import opened Rows
  import opened Transactions
  import opened Handlers
  import opened Protocol
  import opened Core
  import opened CoreSteps
  import opened VerdictSteps

  /** The handler's claim is live, nobody asked to cancel, and its attempt is still running. */
  predicate Writable(s: Sys, t: nat) {
    At(s, t) && Live(s.d, t) && !s.d.job.cancel && s.d.attempts[s.hs[t].at.value].status.AttemptRunning?
  }

  /** Somebody asked to cancel the live execution. */
  predicate Cancellable(s: Sys, t: nat) {
    At(s, t) && Live(s.d, t) && s.d.job.cancel && s.d.attempts[s.hs[t].at.value].status.AttemptRunning?
  }

  lemma LockGranted(s: Sys, t: nat, checkGen: bool)
    requires CoreInv(s) && Writable(s, t)
    ensures LockExecution(s.d, ClaimOf(s.hs[t], t), checkGen, s.hs[t].at.value, false) == Ok
    ensures LiveLease(s.d.job, s.now) ==>
      LockLiveExecution(s.d, s.now, ClaimOf(s.hs[t], t), s.hs[t].at.value, s.hs[t].no) == Ok
  {
    hide SuccessOk, ClaimsOk;
    LivePaid(s, t);
    assert HandlerOk(s, t) && InRange(s.d, s.d.attempts[s.hs[t].at.value]);
  }

  lemma LockCancels(s: Sys, t: nat, checkGen: bool)
    requires CoreInv(s) && Cancellable(s, t)
    ensures LockExecution(s.d, ClaimOf(s.hs[t], t), checkGen, s.hs[t].at.value, false) == CancelRequested
    ensures LockExecution(s.d, ClaimOf(s.hs[t], t), checkGen, s.hs[t].at.value, true) == Ok
    ensures LockLiveExecution(s.d, s.now, ClaimOf(s.hs[t], t), s.hs[t].at.value, s.hs[t].no) == CancelRequested
  {
    hide SuccessOk, ClaimsOk;
    LivePaid(s, t);
    assert HandlerOk(s, t) && InRange(s.d, s.d.attempts[s.hs[t].at.value]);
  }

  lemma LockLost(s: Sys, t: nat, checkGen: bool, cancellation: bool)
    requires At(s, t) && !Live(s.d, t)
    ensures LockExecution(s.d, ClaimOf(s.hs[t], t), checkGen, s.hs[t].at.value, cancellation)
         == if TerminalJob(s.d.job.status) then AlreadyFinalized else OwnershipLost
  {
  }

  /* ----- verdict rows ----- */

  /** Attempt a ends the run as a failure of this class, with this code and reason. */
  predicate FailedBy(d: Diagnosis, e: Diagnosis, a: nat, cls: ErrorClass, code: ErrorCode, reason: TerminalReason)
    requires a < |d.attempts|
  {
    && e.job == d.job.(status := Failed, reason := Some(reason), errClass := Some(cls), errCode := Some(code))
    && e.run == d.run.(status := RunFailed, final := Some(a))
    && e.attempts == d.attempts[a := d.attempts[a].(status := AttemptFailedTerminal)]
  }

  predicate SucceededBy(d: Diagnosis, e: Diagnosis, a: nat)
    requires a < |d.attempts|
  {
    && e.job == d.job.(status := Succeeded) && e.run == d.run.(status := RunSucceeded, final := Some(a))
    && e.attempts == d.attempts[a := d.attempts[a].(status := AttemptSucceeded, completed := true)]
    && e.reports == d.reports + [Report(a, true)]
  }

  predicate CancelledBy(d: Diagnosis, e: Diagnosis, a: nat)
    requires a < |d.attempts|
  {
    && e.job == d.job.(status := Cancelled, reason := Some(CancelledReason))
    && e.run == d.run.(status := RunCancelled, final := Some(a))
    && e.attempts == d.attempts[a := d.attempts[a].(status := AttemptCancelled)] && e.reports == d.reports
  }

  /* ----- from the end of the executor to the verdict ----- */

  /** Where a handler stands after a step that touched no row. */
  predicate Moved(s: Sys, e: Sys, t: nat, p: Phase) { t in s.hs && e == s.(hs := s.hs[t := s.hs[t].(phase := p)]) }

  lemma MovedWritable(s: Sys, e: Sys, t: nat, p: Phase)
    requires CoreInv(s) && Moved(s, e, t, p) && CoreInv(e)
    ensures (Writable(s, t) ==> Writable(e, t)) && (Cancellable(s, t) ==> Cancellable(e, t)) && e.d == s.d
  {
  }

  /** What a finalization that reaches the store writes, by what it was asked to write. */
  lemma FinalizeWrites(s: Sys, t: nat)
    requires CoreInv(s) && Writable(s, t)
    ensures var a := s.hs[t].at.value; var e := Apply(s, FinalizeStep(t, Faithful));
      match s.hs[t].phase {
        case Succeeding => SucceededBy(s.d, e.d, a)
        case Invalidating =>
          FailedBy(s.d, e.d, a, Permanent, InvalidStructuredReport, PermanentReason)
          && e.d.reports == s.d.reports + [Report(a, false)]
        case Terminating(cls, code, _) =>
          !cls.OwnershipClass? ==>
            FailedBy(s.d, e.d, a, cls, code, if cls.Permanent? then PermanentReason else RetryableExhausted)
            && e.d.reports == s.d.reports
        case Retrying(code) =>
          && t in e.hs && e.hs[t].phase == Returned(RetRetryable(code)) && e.d.job == s.d.job && e.d.run == s.d.run
          && e.d.attempts == s.d.attempts[a := s.d.attempts[a].(status := AttemptFailedRetryable)]
        case Cancelling => e.d == s.d
        case _ => e == s
      }
  {
    hide CoreInv, LockExecution;
    LockGranted(s, t, true);
    LockGranted(s, t, false);
    NotCancelled(s, t);
  }

  lemma NotCancelled(s: Sys, t: nat)
    requires CoreInv(s) && Writable(s, t)
    ensures LockExecution(s.d, ClaimOf(s.hs[t], t), false, s.hs[t].at.value, true) != Ok
  {
  }

  /** An interrupted or refused finalization writes nothing: a cancellation takes its place, and a lost claim
      ends the handler without another write. */
  lemma FinalizeRefused(s: Sys, t: nat)
    requires CoreInv(s) && At(s, t)
    requires s.hs[t].phase.Succeeding? || s.hs[t].phase.Invalidating? || s.hs[t].phase.Retrying?
             || (s.hs[t].phase.Terminating? && !s.hs[t].phase.cls.OwnershipClass?)
    ensures var e := Apply(s, FinalizeStep(t, Faithful));
      && (Cancellable(s, t) ==> Moved(s, e, t, Cancelling))
      && (!Live(s.d, t) ==> Moved(s, e, t, Returned(if TerminalJob(s.d.job.status) then RetFinalized else RetLost)))
  {
    hide CoreInv, LockExecution;
    if Cancellable(s, t) {
      LockCancels(s, t, true);
      LockCancels(s, t, false);
    }
    if !Live(s.d, t) {
      LockLost(s, t, true, false);
      LockLost(s, t, false, false);
    }
  }

  lemma CancellingWrites(s: Sys, t: nat)
    requires CoreInv(s) && At(s, t) && s.hs[t].phase.Cancelling?
    ensures var e := Apply(s, FinalizeStep(t, Faithful));
      && (Cancellable(s, t) ==> CancelledBy(s.d, e.d, s.hs[t].at.value))
      && (!Live(s.d, t) ==> Moved(s, e, t, Returned(if TerminalJob(s.d.job.status) then RetFinalized else RetLost)))
  {
    hide CoreInv, LockExecution;
    if Cancellable(s, t) { LockCancels(s, t, false); }
    if !Live(s.d, t) { LockLost(s, t, false, true); }
  }

  /** What the handler returns for a finalization it did not hear of, if the row turns out not to have moved. */
  function Unheard(p: Phase): Phase {
    match p
    case Succeeding => Unsettled(Succeeded, RetRetryable(OtherCode))
    case Invalidating => Unsettled(Failed, RetPolicy(Permanent, InvalidStructuredReport, PermanentReason))
    case Terminating(cls, code, _) =>
      Unsettled(Failed, RetPolicy(cls, code, if cls.Retryable? then RetryableExhausted else PermanentReason))
    case Retrying(_) => Returned(RetRetryable(OtherCode))
    case Cancelling => Unsettled(Cancelled, RetRetryable(OtherCode))
    case _ => p
  }

  /** A finalization that did not run leaves the rows untouched. */
  lemma FinalizeNotRun(s: Sys, t: nat)
    requires At(s, t)
    ensures Moved(s, Apply(s, FinalizeStep(t, NotExecuted)), t, Unheard(s.hs[t].phase))
  {
    hide FinalizeSuccess, FinalizeInvalidReport, FinalizeDiagnosisFailure, FinalizeRetryableAttempt,
      FinalizeCancellation;
  }

  lemma UnheardMove(s: Sys, t: nat)
    requires At(s, t)
    ensures var e := DoFinalize(s, t, LostReply);
      e == s.(d := e.d, hs := s.hs[t := s.hs[t].(phase := Unheard(s.hs[t].phase))])
  {
    hide FinalizeSuccess, FinalizeInvalidReport, FinalizeDiagnosisFailure, FinalizeRetryableAttempt,
      FinalizeCancellation;
  }

  lemma UnheardRows(s: Sys, t: nat)
    requires At(s, t)
    ensures DoFinalize(s, t, LostReply).d == DoFinalize(s, t, Faithful).d
  {
    hide FinalizeSuccess, FinalizeInvalidReport, FinalizeDiagnosisFailure, FinalizeRetryableAttempt,
      FinalizeCancellation;
  }

  /** One whose answer was lost leaves the rows of the answered one. */
  lemma FinalizeUnheard(s: Sys, t: nat)
    requires At(s, t)
    ensures var e := Apply(s, FinalizeStep(t, LostReply));
      && e.d == Apply(s, FinalizeStep(t, Faithful)).d
      && e == s.(d := e.d, hs := s.hs[t := s.hs[t].(phase := Unheard(s.hs[t].phase))])
  {
    hide DoFinalize, Unheard;
    UnheardMove(s, t);
    UnheardRows(s, t);
  }

  /** Where a saved execution goes when nothing interrupted it. */
  lemma RouteGoes(s: Sys, t: nat, cls: ErrorClass, code: ErrorCode, oversize: bool)
    requires CoreInv(s) && At(s, t) && s.hs[t].phase.Saved? && s.hs[t].cause.NoCause?
    ensures var e := Apply(s, RouteStep(t, cls, code, oversize));
      match s.hs[t].phase.kind {
        case ExecValid => Moved(s, e, t, if oversize then Terminating(Permanent, ReportTooLarge, false) else Succeeding)
        case ExecInvalid => Moved(s, e, t, Invalidating)
        case ExecUnknown => Moved(s, e, t, Terminating(Permanent, ProviderOutcomeUnknown, false))
        case ExecError(_) => true
      }
  {
    hide CoreInv;
  }

  /** Where a failed execution goes: the store's refusals first, then by the class of its error. */
  lemma RouteError(s: Sys, t: nat, cls: ErrorClass, code: ErrorCode, oversize: bool)
    requires CoreInv(s) && At(s, t) && s.hs[t].phase.Saved? && s.hs[t].cause.NoCause? && s.hs[t].phase.kind.ExecError?
    requires !code.ProviderOutcomeUnknown? && !cls.OwnershipClass?
    ensures Moved(s, Apply(s, RouteStep(t, cls, code, oversize)), t,
                  match s.hs[t].phase.kind.err
                  case OwnershipLost => Returned(RetLost)
                  case CancelRequested => Cancelling
                  case _ =>
                    if cls.Permanent? || s.hs[t].no >= MAX_ATTEMPTS then Terminating(cls, code, false)
                    else Retrying(code))
  {
    hide CoreInv;
    LivePaid(s, t);
  }

  function Routed(s: Sys, t: nat, cls: ErrorClass, code: ErrorCode, oversize: bool): Sys {
    Apply(Apply(s, RouteStep(t, cls, code, oversize)), FinalizeStep(t, Faithful))
  }

  /** A saved execution that nobody interrupted gets the verdict that its end earns: a valid report succeeds,
      an invalid one, an oversized one and an unknown outcome fail for good, and an error fails for good if it
      is permanent or the attempts are used up; otherwise only the attempt is closed, for a retry. */
  lemma VerdictOf(s: Sys, t: nat, cls: ErrorClass, code: ErrorCode, oversize: bool)
    requires CoreInv(s) && Writable(s, t) && s.hs[t].phase.Saved? && s.hs[t].cause.NoCause?
    requires s.hs[t].phase.kind.ExecError? ==>
      s.hs[t].phase.kind == ExecError(Ok) && !code.ProviderOutcomeUnknown? && !cls.OwnershipClass?
    ensures var a := s.hs[t].at.value; var e := Routed(s, t, cls, code, oversize);
      match s.hs[t].phase.kind {
        case ExecValid =>
          if oversize then FailedBy(s.d, e.d, a, Permanent, ReportTooLarge, PermanentReason)
          else SucceededBy(s.d, e.d, a)
        case ExecInvalid =>
          FailedBy(s.d, e.d, a, Permanent, InvalidStructuredReport, PermanentReason)
          && e.d.reports == s.d.reports + [Report(a, false)]
        case ExecUnknown => FailedBy(s.d, e.d, a, Permanent, ProviderOutcomeUnknown, PermanentReason)
        case ExecError(_) =>
          if cls.Permanent? then FailedBy(s.d, e.d, a, Permanent, code, PermanentReason)
          else if s.hs[t].no >= MAX_ATTEMPTS then FailedBy(s.d, e.d, a, Retryable, code, RetryableExhausted)
          else
            && t in e.hs && e.hs[t].phase == Returned(RetRetryable(code)) && e.d.job == s.d.job && e.d.run == s.d.run
            && e.d.attempts == s.d.attempts[a := s.d.attempts[a].(status := AttemptFailedRetryable)]
      }
  {
    hide CoreInv, Apply, FailedBy, SucceededBy;
    var m := Apply(s, RouteStep(t, cls, code, oversize));
    RouteGoes(s, t, cls, code, oversize);
    if s.hs[t].phase.kind.ExecError? { RouteError(s, t, cls, code, oversize); }
    StepKeepsCore(s, RouteStep(t, cls, code, oversize));
    MovedWritable(s, m, t, m.hs[t].phase);
    FinalizeWrites(m, t);
  }

  /** What interrupts a saved execution decides instead of it. A user's cancellation is written, a lost claim
      or a shutdown ends the handler without a write, except that a shutdown does not hide an unknown outcome. */
  lemma InterruptedRoute(s: Sys, t: nat, cls: ErrorClass, code: ErrorCode, oversize: bool)
    requires CoreInv(s) && At(s, t) && s.hs[t].phase.Saved?
    ensures var e := Apply(s, RouteStep(t, cls, code, oversize));
      match s.hs[t].cause {
        case OwnershipLostCause => Moved(s, e, t, Returned(RetLost))
        case UserCancelCause => Moved(s, e, t, Cancelling)
        case ShutdownCause =>
          if !s.hs[t].phase.unknown then Moved(s, e, t, Returned(RetShutdown))
          else s.hs[t].phase.kind.ExecUnknown? ==> Moved(s, e, t, Terminating(Permanent, ProviderOutcomeUnknown, false))
        case _ => true
      }
  {
    hide CoreInv;
  }

  /** The same just before a failure is written. */
  lemma InterruptedFailure(s: Sys, t: nat)
    requires At(s, t) && (s.hs[t].phase.Retrying? || (s.hs[t].phase.Terminating? && !s.hs[t].phase.shielded))
    ensures var p := s.hs[t].phase; var e := Apply(s, DivertStep(t));
      match s.hs[t].cause {
        case UserCancelCause => Moved(s, e, t, Cancelling)
        case OwnershipLostCause => Moved(s, e, t, Returned(if p.Retrying? then RetRetryable(OtherCode) else RetLost))
        case ShutdownCause =>
          if p.Retrying? then Moved(s, e, t, Returned(RetRetryable(OtherCode)))
          else if p.code.ProviderOutcomeUnknown? then e == s
          else Moved(s, e, t, Returned(RetShutdown))
        case _ => e == s
      }
  {
  }

  /* ----- checkpoints ----- */

  /** The outcome of an execution is unknown if the executor says so, or if it failed while its marker is set. */
  predicate Unknown(kind: ExecKind, row: Attempt) { kind.ExecUnknown? || (kind.ExecError? && row.unresolved) }

  /** The attempt with the checkpoint that the end of its execution earns: final for a report, valid or not;
      partial otherwise, with the code of an unknown outcome; only a final one resolves the marker. */
  predicate Checkpointed(row: Attempt, e: Attempt, kind: ExecKind) {
    if kind.ExecValid? || kind.ExecInvalid? then
      e == row.(kind := if kind.ExecValid? then FinalValid else FinalInvalid, completed := true, unknownCode := false,
                unresolved := false, successSeen := false)
    else e == row.(kind := PartialProviderFailure, completed := false, unknownCode := Unknown(kind, row))
  }

  lemma InspectGoes(s: Sys, t: nat)
    requires At(s, t) && s.hs[t].phase.Ended?
    ensures var p := s.hs[t].phase; var unknown := Unknown(p.kind, s.d.attempts[s.hs[t].at.value]);
      && Moved(s, Apply(s, InspectStep(t, true)), t,
               Judged(if unknown then ExecUnknown else p.kind, unknown,
                      p.result || p.kind.ExecValid? || p.kind.ExecInvalid?))
      && (p.kind.ExecError? || p.kind.ExecUnknown? ==>
            Moved(s, Apply(s, InspectStep(t, false)), t, Judged(ExecUnknown, true, p.result)))
      && (p.kind.ExecInvalid? ==> Moved(s, Apply(s, InspectStep(t, false)), t, Judged(ExecInvalid, true, true)))
  {
  }

  lemma SaveWrites(s: Sys, t: nat)
    requires CoreInv(s) && Writable(s, t) && LiveLease(s.d.job, s.now) && s.hs[t].phase.Judged? && s.hs[t].phase.result
    requires s.hs[t].phase.kind.ExecError? ==> !s.d.attempts[s.hs[t].at.value].unresolved
    ensures var a := s.hs[t].at.value; var p := s.hs[t].phase; var e := Apply(s, SaveStep(t, Faithful, false));
      && t in e.hs && e.hs[t].phase == Saved(p.kind, p.unknown) && e.d == s.d.(attempts := e.d.attempts)
      && |e.d.attempts| == |s.d.attempts| && e.d.attempts == s.d.attempts[a := e.d.attempts[a]]
      && Checkpointed(s.d.attempts[a], e.d.attempts[a], p.kind)
  {
    hide CoreInv, LockLiveExecution;
    LockGranted(s, t, true);
  }

  /** A checkpoint that cannot be saved ends the run: too large, not written, or in doubt about the provider. */
  lemma SaveFails(s: Sys, t: nat, oversize: bool)
    requires CoreInv(s) && At(s, t) && s.hs[t].phase.Judged? && s.hs[t].phase.result
    ensures var e := Apply(s, SaveStep(t, NotExecuted, oversize));
      Moved(s, e, t, Terminating(Permanent, if s.hs[t].phase.unknown then ProviderOutcomeUnknown
                                            else if oversize then ReportTooLarge else CheckpointSaveFailed, true))
    ensures Apply(s, SaveStep(t, Faithful, true)) == Apply(s, SaveStep(t, NotExecuted, true))
  {
    hide CoreInv, LockLiveExecution;
  }

  lemma NothingToSave(s: Sys, t: nat, reply: Reply, oversize: bool)
    requires At(s, t) && s.hs[t].phase.Judged? && !s.hs[t].phase.result
    ensures Moved(s, Apply(s, SaveStep(t, reply, oversize)), t, Saved(s.hs[t].phase.kind, s.hs[t].phase.unknown))
  {
  }

  /** This attempt holds the newest final checkpoint of the generation. */
  predicate NewestFinal(atts: seq<Attempt>, gen: nat, i: nat) {
    && i < |atts| && atts[i].gen == gen && FinalCheckpoint(atts[i])
    && forall k | i < k < |atts| && atts[k].gen == gen :: !FinalCheckpoint(atts[k])
  }

  /** A handler that finds no final checkpoint of its generation starts to work; one that cannot look gives the
      attempt back to the worker as retryable. */
  lemma NothingToReplay(s: Sys, t: nat, compatible: bool, sound: bool)
    requires At(s, t) && s.hs[t].phase.Loading?
    requires forall i | 0 <= i < |s.d.attempts| ::
      s.d.attempts[i].gen == s.hs[t].gen ==> !FinalCheckpoint(s.d.attempts[i])
    ensures Moved(s, Apply(s, LoadStep(t, true, compatible, sound)), t, Idle(false))
    ensures Moved(s, Apply(s, LoadStep(t, false, compatible, sound)), t, Returned(RetRetryable(OtherCode)))
  {
  }

  /** A handler that finds one replays it and asks the provider nothing, unless its version does not fit. */
  lemma ReplayGoes(s: Sys, t: nat, i: nat, sound: bool)
    requires At(s, t) && s.hs[t].phase.Loading? && NewestFinal(s.d.attempts, s.hs[t].gen, i)
    ensures Moved(s, Apply(s, LoadStep(t, true, true, sound)), t,
                  Ended(if s.d.attempts[i].kind.FinalValid? && sound then ExecValid else ExecInvalid, true))
    ensures Moved(s, Apply(s, LoadStep(t, true, false, sound)), t,
                  Terminating(Permanent, CheckpointVersionMismatch, true))
    ensures Moved(s, Apply(s, LoadStep(t, false, true, sound)), t, Returned(RetRetryable(OtherCode)))
  {
    assert LatestFinalCheckpoint(s.d.attempts, s.hs[t].gen) == Some(i);
  }

  /** The steps from the end of an executor to its verdict. */
  function Concluded(s: Sys, t: nat): Sys {
    Routed(Apply(Apply(s, InspectStep(t, true)), SaveStep(t, Faithful, false)), t, Permanent, OtherCode, false)
  }

  /** The run ended on attempt a with a report: it succeeded if the report is valid and failed otherwise. */
  predicate Reported(e: Sys, a: Option<nat>, valid: bool) {
    && e.d.run.final == a
    && if valid then e.d.job.status.Succeeded? && e.d.run.status.RunSucceeded?
       else e.d.job.status.Failed? && e.d.job.errCode == Some(InvalidStructuredReport) && e.d.run.status.RunFailed?
  }

  /** An executor that ended with a report, valid or not, decides the run. */
  lemma ReportDecides(s: Sys, t: nat)
    requires CoreInv(s) && Writable(s, t) && LiveLease(s.d.job, s.now) && s.hs[t].cause.NoCause?
    requires s.hs[t].phase.Ended? && (s.hs[t].phase.kind.ExecValid? || s.hs[t].phase.kind.ExecInvalid?)
    ensures Reported(Concluded(s, t), s.hs[t].at, s.hs[t].phase.kind.ExecValid?)
  {
    hide CoreInv, Apply;
    var judged := Apply(s, InspectStep(t, true));
    InspectReplay(s, t);
    StepKeepsCore(s, InspectStep(t, true));
    MovedWritable(s, judged, t, judged.hs[t].phase);
    var saved := Apply(judged, SaveStep(t, Faithful, false));
    SaveReplay(judged, t);
    StepKeepsCore(judged, SaveStep(t, Faithful, false));
    VerdictReplay(saved, t);
  }

  /** Replaying a final checkpoint decides the run without another request: a valid report that still passes
      validation succeeds, any other final checkpoint fails as an invalid report. */
  lemma ReplayDecides(s: Sys, t: nat, i: nat, sound: bool)
    requires CoreInv(s) && Writable(s, t) && LiveLease(s.d.job, s.now) && s.hs[t].cause.NoCause?
    requires s.hs[t].phase.Loading? && NewestFinal(s.d.attempts, s.hs[t].gen, i)
    ensures Reported(Concluded(Apply(s, LoadStep(t, true, true, sound)), t), s.hs[t].at,
                     s.d.attempts[i].kind.FinalValid? && sound)
  {
    hide CoreInv, Apply, NewestFinal, Concluded, Reported;
    var loaded := Apply(s, LoadStep(t, true, true, sound));
    ReplayGoes(s, t, i, sound);
    StepKeepsCore(s, LoadStep(t, true, true, sound));
    MovedWritable(s, loaded, t, loaded.hs[t].phase);
    ReportDecides(loaded, t);
  }

  lemma InspectReplay(s: Sys, t: nat)
    requires Writable(s, t) && s.hs[t].phase.Ended?
    requires s.hs[t].phase.kind.ExecValid? || s.hs[t].phase.kind.ExecInvalid?
    ensures Moved(s, Apply(s, InspectStep(t, true)), t, Judged(s.hs[t].phase.kind, false, true))
  {
  }

  lemma SaveReplay(s: Sys, t: nat)
    requires CoreInv(s) && Writable(s, t) && LiveLease(s.d.job, s.now)
    requires s.hs[t].phase.Judged? && !s.hs[t].phase.unknown && s.hs[t].phase.result && !s.hs[t].phase.kind.ExecError?
    ensures var e := Apply(s, SaveStep(t, Faithful, false));
      && Writable(e, t) && e.hs[t] == s.hs[t].(phase := Saved(s.hs[t].phase.kind, false))
  {
    hide CoreInv, LockLiveExecution;
    LockGranted(s, t, true);
  }

  lemma VerdictReplay(s: Sys, t: nat)
    requires CoreInv(s) && Writable(s, t) && s.hs[t].phase.Saved? && s.hs[t].cause.NoCause?
    requires s.hs[t].phase.kind.ExecValid? || s.hs[t].phase.kind.ExecInvalid?
    ensures Reported(Routed(s, t, Permanent, OtherCode, false), s.hs[t].at, s.hs[t].phase.kind.ExecValid?)
  {
    hide CoreInv, Apply;
    VerdictOf(s, t, Permanent, OtherCode, false);
  }

  /* ----- entering and working ----- */

  lemma LaunchGoes(s: Sys, t: nat)
    requires t in s.claims && t !in s.hs && s.claims[t].charged.Some?
    ensures var c := s.claims[t]; var e := Apply(s, LaunchStep(t));
      && e == s.(hs := e.hs) && e.hs.Keys == s.hs.Keys + {t} && (forall u :: u in s.hs ==> e.hs[u] == s.hs[u])
      && e.hs[t].worker == c.worker && e.hs[t].gen == c.gen && Some(e.hs[t].no) == c.charged && e.hs[t].at.None?
      && (if c.cancel then e.hs[t].phase == Closing(CloseCancel) && e.hs[t].cause.UserCancelCause?
          else e.hs[t].phase.Launched? && e.hs[t].cause.NoCause?)
  {
  }

  lemma EnterGoes(s: Sys, t: nat, ok: bool)
    requires t in s.hs && s.hs[t].phase.Launched?
    ensures Moved(s, Apply(s, EnterStep(t, ok)), t,
                  match s.hs[t].cause
                  case ShutdownCause => Returned(RetShutdown)
                  case OwnershipLostCause => Returned(RetLost)
                  case _ =>
                    if !ok then Returned(RetPermanent(OtherCode))
                    else if s.d.run.status.RunQueued? || s.d.run.status.RunRunning? then Entered else Returned(RetNil))
  {
  }

  /** The first cause of an interruption sticks. A user's cancellation is believed only when the row says so. */
  lemma CauseSticks(s: Sys, t: nat, cause: Cause)
    requires t in s.hs && !cause.NoCause?
    ensures var e := Apply(s, CauseStep(t, cause)); var h := s.hs[t];
      && e == s.(hs := s.hs[t := h.(cause := e.hs[t].cause)])
      && (!h.cause.NoCause? ==> e.hs[t].cause == h.cause)
      && (h.cause.NoCause? && !cause.UserCancelCause? ==> e.hs[t].cause == cause)
      && (h.cause.NoCause? && cause.UserCancelCause? ==>
            (e.hs[t].cause == cause <==> Live(s.d, t) && s.d.job.worker == Some(h.worker) && s.d.job.cancel))
  {
  }

  /** An attempt row is inserted for exactly the number that was paid, and the run runs. */
  lemma AttemptInserts(s: Sys, t: nat)
    requires CoreInv(s) && t in s.hs && s.hs[t].phase.Entered?
    ensures var h := s.hs[t]; var e := Apply(s, AttemptStep(t, Faithful));
      && (Live(s.d, t) && !s.d.job.cancel && LiveLease(s.d.job, s.now) ==>
            && t in e.hs && e.hs[t] == h.(at := Some(|s.d.attempts|), phase := Loading)
            && e.d == s.d.(run := s.d.run.(status := RunRunning),
                           attempts := s.d.attempts + [Attempt(h.gen, h.no, h.worker, AttemptRunning, false, false,
                                                               NoCheckpoint, false, false)]))
      && (Live(s.d, t) && !s.d.job.cancel && !LiveLease(s.d.job, s.now) ==> Moved(s, e, t, Returned(RetLost)))
      && (Live(s.d, t) && s.d.job.cancel ==> Moved(s, e, t, Returned(RetCancelled)))
      && (!Live(s.d, t) ==> Moved(s, e, t, Returned(if TerminalJob(s.d.job.status) then RetFinalized else RetLost)))
      && Moved(s, Apply(s, AttemptStep(t, NotExecuted)), t, Returned(RetRetryable(OtherCode)))
  {
    hide AttemptsOk, SuccessOk, ClaimsOk;
    LivePaid(s, t);
    assert HandlerOk(s, t);
  }

  /** One guarded request of a handler that may still write. */
  lemma RequestGoes(s: Sys, t: nat, outcome: Outcome, again: bool)
    requires CoreInv(s) && Writable(s, t) && LiveLease(s.d.job, s.now)
    ensures var a := s.hs[t].at.value; var row := s.d.attempts[a]; var p := s.hs[t].phase;
      match p {
        case Idle(seen) => Apply(s, BeginStep(t, Faithful, again))
                        == Wrote(s, t, a, row.(unresolved := true), Marked(seen))
        case Marked(seen) =>
          row.unresolved ==> Moved(s, Apply(s, CheckStep(t, Faithful, again)), t, Authorized(seen))
        case Authorized(seen) =>
          Apply(s, CallStep(t, outcome))
          == Wrote(s, t, a, row, Answered(outcome, seen)).(calls := s.calls + [Call(a, outcome)])
        case _ => true
      }
  {
    hide CoreInv, LockLiveExecution;
    LockGranted(s, t, true);
    SameRow(s.d, s.hs[t].at.value);
  }

  lemma SameRow(d: Diagnosis, a: nat)
    requires a < |d.attempts|
    ensures SetAttempt(d, a, d.attempts[a]) == d
  {
  }

  /** Handler t wrote its own attempt row and moved. */
  function Wrote(s: Sys, t: nat, a: nat, row: Attempt, p: Phase): Sys
    requires t in s.hs && a < |s.d.attempts|
  {
    s.(d := s.d.(attempts := s.d.attempts[a := row]), hs := s.hs[t := s.hs[t].(phase := p)])
  }

  /** What is recorded about a request that was answered. */
  lemma AnswerRecorded(s: Sys, t: nat, again: bool)
    requires CoreInv(s) && Writable(s, t) && LiveLease(s.d.job, s.now) && s.hs[t].phase.Answered?
    requires s.d.attempts[s.hs[t].at.value].unresolved
    ensures var a := s.hs[t].at.value; var row := s.d.attempts[a]; var p := s.hs[t].phase;
      var e := Apply(s, SettleStep(t, Faithful, again));
      match p.outcome {
        case CallSucceeded => e == Wrote(s, t, a, row.(successSeen := true), Idle(true))
        case CallFailedDefinitely =>
          if row.successSeen then Moved(s, e, t, Ended(ExecUnknown, true))
          else e == Wrote(s, t, a, row.(unresolved := false),
                          if again then Idle(p.answered) else Ended(ExecError(Ok), true))
        case CallOutcomeUnknown => Moved(s, e, t, Ended(ExecUnknown, true))
      }
    ensures s.hs[t].phase.outcome.CallSucceeded? || s.hs[t].phase.outcome.CallFailedDefinitely? ==>
      Moved(s, Apply(s, SettleStep(t, NotExecuted, again)), t, Ended(ExecUnknown, true))
  {
    hide CoreInv, LockLiveExecution;
    LockGranted(s, t, true);
  }

  /** A refused guard ends the execution with the reason for it. */
  lemma GuardRefused(s: Sys, t: nat, again: bool)
    requires CoreInv(s) && At(s, t) && (s.hs[t].phase.Idle? || s.hs[t].phase.Marked?)
    ensures var step := if s.hs[t].phase.Idle? then BeginStep(t, Faithful, again) else CheckStep(t, Faithful, again);
      && (Cancellable(s, t) ==> Moved(s, Apply(s, step), t, Ended(ExecError(CancelRequested), true)))
      && (!Live(s.d, t) ==>
            Moved(s, Apply(s, step), t,
                  Ended(ExecError(if TerminalJob(s.d.job.status) then AlreadyFinalized else OwnershipLost), true)))
  {
    hide CoreInv, LockExecution;
    if Cancellable(s, t) { LockCancels(s, t, true); }
    if !Live(s.d, t) { LockLost(s, t, true, false); }
  }

  /** An expired lease or a missing marker refuses a request as well. */
  lemma GuardExpired(s: Sys, t: nat, again: bool)
    requires CoreInv(s) && Writable(s, t) && (s.hs[t].phase.Idle? || s.hs[t].phase.Marked?)
    requires LiveLease(s.d.job, s.now) ==> s.hs[t].phase.Marked? && !s.d.attempts[s.hs[t].at.value].unresolved
    ensures var step := if s.hs[t].phase.Idle? then BeginStep(t, Faithful, again) else CheckStep(t, Faithful, again);
      Moved(s, Apply(s, step), t, Ended(ExecError(OwnershipLost), true))
  {
    hide CoreInv, LockExecution;
    LockGranted(s, t, true);
  }

  /** A guard that got no answer is asked again within the retry budget, from the marker on. */
  lemma GuardAgain(s: Sys, t: nat)
    requires At(s, t) && (s.hs[t].phase.Idle? || s.hs[t].phase.Marked?)
    ensures var idle := s.hs[t].phase.Idle?; var answered := s.hs[t].phase.answered;
      && Moved(s, Apply(s, if idle then BeginStep(t, NotExecuted, true) else CheckStep(t, NotExecuted, true)), t,
               Idle(answered))
      && Moved(s, Apply(s, if idle then BeginStep(t, NotExecuted, false) else CheckStep(t, NotExecuted, false)), t,
               Ended(ExecError(Rejected), true))
  {
    hide LockLiveExecution;
  }

  lemma EndGoes(s: Sys, t: nat, kind: ExecKind, result: bool)
    requires At(s, t) && s.hs[t].phase.Idle?
    ensures var e := Apply(s, EndStep(t, kind, result));
      && (kind == ExecError(Ok) ==> Moved(s, e, t, Ended(kind, result)))
      && (kind.ExecValid? || kind.ExecInvalid? ==>
            if s.hs[t].phase.answered then Moved(s, e, t, Ended(kind, true)) else e == s)
  {
  }
}
