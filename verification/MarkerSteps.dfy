/** Every step keeps the marker facts, the lossy override included. */
module MarkerSteps {
  import opened Rows
  import opened Transactions
  import opened Handlers
  import opened Protocol
  import opened Core
  import opened CoreSteps
  import opened Markers
  import opened Safety
  import opened SafetySteps
  import opened SafetyVerdicts
  import opened Runs

  /** An execution that is still running was running before, and its marked attempts stay in sight. */
  predicate Tame(d: Diagnosis, e: Diagnosis) {
    e.job.status.Running? && e.job.started ==>
      && d.job.status.Running? && d.job.started && e.job.gen == d.job.gen && e.job.count == d.job.count
      && forall i | 0 <= i < |d.attempts| && i < |e.attempts| && d.attempts[i].unresolved ::
           e.attempts[i].status == d.attempts[i].status || e.attempts[i].status.AttemptAbandoned?
  }

  lemma TameMarks(d: Diagnosis, e: Diagnosis)
    requires RowsMarked(d) && StatusOnly(d, e) && Tame(d, e)
    ensures RowsMarked(e)
  {
    forall i | 0 <= i < |e.attempts| ensures RowMarked(e, e.attempts[i]) {
      assert SameMarks(d.attempts[i], e.attempts[i]) && RowMarked(d, d.attempts[i]);
    }
  }

  /** Handlers whose row keeps its marks keep what they know about it. */
  lemma PhasesStay(s: Sys, e: Sys, t: nat)
    requires CoreInv(s) && MarkInv(s) && CoreInv(e) && RowsMarked(e.d) && Kept(s.d, e.d)
    requires forall u :: u in e.hs && u != t ==> u in s.hs && e.hs[u] == s.hs[u]
    requires forall i | 0 <= i < |s.d.attempts| && !(t in s.hs && s.hs[t].at == Some(i)) ::
      SameMarks(s.d.attempts[i], e.d.attempts[i])
    requires t in e.hs && NeedsAttempt(e.hs[t].phase) ==> RowPhase(e.d.attempts[e.hs[t].at.value], e.hs[t].phase)
    ensures MarkInv(e)
  {
    hide RowsMarked, AttemptsOk, SuccessOk, JobOk, RowPhase, NeedsAttempt;
    forall u | u in e.hs && u != t ensures PhaseMarked(e, u) {
      assert PhaseMarked(s, u);
      if t in s.hs { OwnRow(s, t, u); }
      if NeedsAttempt(s.hs[u].phase) {
        StatusPhase(s.d.attempts[s.hs[u].at.value], e.d.attempts[s.hs[u].at.value], s.hs[u].phase);
      }
    }
  }

  lemma StatusPhase(a: Attempt, b: Attempt, p: Phase)
    requires SameMarks(a, b) && RowPhase(a, p)
    ensures RowPhase(b, p)
  {
  }

  lemma StatusStepMarks(s: Sys, e: Sys)
    requires CoreInv(s) && MarkInv(s) && CoreInv(e) && RowsMarked(e.d) && StatusOnly(s.d, e.d) && e.hs == s.hs
    ensures MarkInv(e)
  {
    hide CoreInv, RowsMarked, MarkInv;
    assert Kept(s.d, e.d);
    FreshToken(s);
    PhasesStay(s, e, s.next);
  }

  lemma FreshToken(s: Sys)
    requires CoreInv(s)
    ensures s.next !in s.hs
  {
    forall u | u in s.hs ensures u < s.next { TokenTaken(s, u); }
  }

  /* ----- steps that move no handler ----- */

  lemma ReapTame(d: Diagnosis, now: nat, nextRun: nat)
    ensures Tame(d, ReapExpired(d, now, nextRun).d)
  {
    hide CloseRunning, OutcomeUnknownMarker, FindAttempt, LatestAttempt;
  }

  lemma UserTame(s: Sys, step: Step)
    requires step.Tick? || step.CancelStep? || step.RequeueStep? || step.RetryStep?
    ensures StatusOnly(s.d, Apply(s, step).d) && Tame(s.d, Apply(s, step).d)
  {
  }

  lemma SweepTame(s: Sys, a: nat)
    ensures var e := Apply(s, SweepStep(a)).d; StatusOnly(s.d, e) && Tame(s.d, e)
  {
  }

  lemma ClaimTame(s: Sys, step: Step)
    requires step.ClaimStep? || step.ReturnStep? || step.RenewStep?
    ensures StatusOnly(s.d, Apply(s, step).d) && Tame(s.d, Apply(s, step).d)
  {
  }

  lemma StartMarked(s: Sys, t: nat)
    requires CoreInv(s) && RowsMarked(s.d)
    ensures RowsMarked(DoStart(s, t).d) && StatusOnly(s.d, DoStart(s, t).d)
  {
    hide SuccessOk, ClaimsOk, HandlersOk;
    var e := DoStart(s, t).d;
    forall i | 0 <= i < |e.attempts| ensures RowMarked(e, e.attempts[i]) {
      assert RowMarked(s.d, s.d.attempts[i]) && InRange(s.d, s.d.attempts[i]);
    }
  }

  lemma RowStepMarked(s: Sys, step: Step)
    requires CoreInv(s) && MarkInv(s) && CoreInv(Apply(s, step))
    requires Bearer(step).None? || step.StartStep? || step.ReturnStep? || step.RenewStep?
    ensures MarkInv(Apply(s, step))
  {
    hide CoreInv, RowsMarked, StatusOnly, Tame, ReapExpired;
    var e := Apply(s, step);
    if step.StartStep? {
      StartMarked(s, step.t);
    } else {
      if step.ReapStep? {
        ReapTame(s.d, s.now, step.nextRun);
        ReapStatusOnly(s.d, s.now, step.nextRun);
      } else if step.ClaimStep? || step.ReturnStep? || step.RenewStep? {
        ClaimTame(s, step);
      } else if step.SweepStep? {
        SweepTame(s, step.a);
      } else {
        UserTame(s, step);
      }
      TameMarks(s.d, e.d);
    }
    StatusStepMarks(s, e);
  }

  /* ----- steps of a handler ----- */

  lemma MarkHolds(s: Sys, t: nat)
    requires CoreInv(s) && MarkInv(s)
    ensures RowsMarked(s.d)
    ensures t in s.hs ==> HandlerOk(s, t) && PhaseMarked(s, t)
  {
  }

  /** Only handler t moved, and what its new phase says about its row is true. */
  predicate Stepped(s: Sys, e: Sys, t: nat) {
    && t in s.hs && t in e.hs && e.d == s.d && e.hs == s.hs[t := e.hs[t]] && e.hs[t].at == s.hs[t].at
    && (NeedsAttempt(e.hs[t].phase) ==> At(s, t) && RowPhase(s.d.attempts[s.hs[t].at.value], e.hs[t].phase))
  }

  lemma DispatchStepped(s: Sys, step: Step, t: nat)
    requires Bearer(step) == Some(t) && t in s.hs && HandlerOk(s, t) && PhaseMarked(s, t)
    requires step.EnterStep? || step.LoadStep? || step.CheckStep? || step.CallStep? || step.EndStep?
    ensures Apply(s, step) == s || Stepped(s, Apply(s, step), t)
  {
    hide HandlerOk, CheckDispatchAuthority, LatestFinalCheckpoint, FinalCheckpoint;
  }

  lemma JudgeStepped(s: Sys, step: Step, t: nat)
    requires Bearer(step) == Some(t) && t in s.hs && HandlerOk(s, t) && PhaseMarked(s, t)
    requires step.InspectStep? || step.RouteStep? || step.DivertStep? || step.ResolveStep? || step.DecideStep?
    ensures Apply(s, step) == s || Stepped(s, Apply(s, step), t)
  {
    hide HandlerOk, Decide, FinalCheckpoint;
  }

  lemma SteppedMarked(s: Sys, e: Sys, t: nat)
    requires CoreInv(s) && MarkInv(s) && CoreInv(e) && Stepped(s, e, t)
    ensures MarkInv(e)
  {
    hide CoreInv, RowsMarked, RowPhase, NeedsAttempt;
    PhasesStay(s, e, t);
  }

  lemma LocalMarked(s: Sys, step: Step, t: nat)
    requires CoreInv(s) && MarkInv(s) && CoreInv(Apply(s, step)) && Bearer(step) == Some(t)
    requires step.EnterStep? || step.LoadStep? || step.CheckStep? || step.CallStep? || step.EndStep?
             || step.InspectStep?
             || step.RouteStep? || step.DivertStep? || step.ResolveStep? || step.DecideStep?
    ensures MarkInv(Apply(s, step))
  {
    hide CoreInv, MarkInv, HandlerOk, Stepped, PhaseMarked;
    var e := Apply(s, step);
    if t in s.hs && e != s {
      MarkHolds(s, t);
      if step.InspectStep? || step.RouteStep? || step.DivertStep? || step.ResolveStep? || step.DecideStep? {
        JudgeStepped(s, step, t);
      } else {
        DispatchStepped(s, step, t);
      }
      SteppedMarked(s, e, t);
    }
  }

  /** Launching a handler and recording a cause touch no attempt. */
  lemma ContextMarked(s: Sys, step: Step)
    requires CoreInv(s) && MarkInv(s) && CoreInv(Apply(s, step)) && (step.LaunchStep? || step.CauseStep?)
    ensures MarkInv(Apply(s, step))
  {
    hide CoreInv, RowsMarked;
    var e := Apply(s, step);
    if e != s {
      MarkHolds(s, step.t);
      PhasesStay(s, e, step.t);
    }
  }

  /* ----- steps that change the handler's own row ----- */

  /** Handler t rewrites its own row, under a live lock, and moves. */
  lemma OwnRowMarked(s: Sys, t: nat, row: Attempt, p: Phase)
    requires CoreInv(s) && MarkInv(s) && At(s, t) && CoreInv(Move(s, t, SetAttempt(s.d, s.hs[t].at.value, row), p))
    requires SameIdentity(s.d.attempts[s.hs[t].at.value], row) && RowMarked(s.d, row)
    requires NeedsAttempt(p) ==> RowPhase(row, p)
    ensures MarkInv(Move(s, t, SetAttempt(s.d, s.hs[t].at.value, row), p))
  {
    hide CoreInv, RowPhase, MarkSound;
    var e := Move(s, t, SetAttempt(s.d, s.hs[t].at.value, row), p);
    MarkHolds(s, t);
    forall i | 0 <= i < |e.d.attempts| ensures RowMarked(e.d, e.d.attempts[i]) {
      assert RowMarked(s.d, s.d.attempts[i]);
    }
    assert Kept(s.d, e.d);
    PhasesStay(s, e, t);
  }

  /** The row of a handler before and after a dispatch or checkpoint transaction that it may have run. */
  lemma RowTxMarked(s: Sys, e: Sys, t: nat)
    requires CoreInv(s) && MarkInv(s) && CoreInv(e) && At(s, t) && t in e.hs
    requires e == Move(s, t, e.d, e.hs[t].phase) && |e.d.attempts| == |s.d.attempts|
    requires var a := s.hs[t].at.value; var row := e.d.attempts[a];
      && e.d == SetAttempt(s.d, a, row) && SameIdentity(s.d.attempts[a], row)
      && (row != s.d.attempts[a] ==> RowMarked(s.d, row))
      && (NeedsAttempt(e.hs[t].phase) ==> RowPhase(row, e.hs[t].phase))
    ensures MarkInv(e)
  {
    hide CoreInv, MarkInv, RowPhase, MarkSound;
    MarkHolds(s, t);
    var a := s.hs[t].at.value;
    assert RowMarked(s.d, s.d.attempts[a]);
    OwnRowMarked(s, t, e.d.attempts[a], e.hs[t].phase);
  }

  lemma LockedCurrent(s: Sys, t: nat)
    requires CoreInv(s) && At(s, t)
    ensures LockLiveExecution(s.d, s.now, ClaimOf(s.hs[t], t), s.hs[t].at.value, s.hs[t].no) == Ok ==>
      s.d.attempts[s.hs[t].at.value].status.AttemptRunning?
  {
    RefusalTrue(s, t, LockLiveExecution(s.d, s.now, ClaimOf(s.hs[t], t), s.hs[t].at.value, s.hs[t].no));
  }

  lemma BeginMarked(s: Sys, t: nat, reply: Reply, again: bool)
    requires CoreInv(s) && MarkInv(s) && CoreInv(DoBegin(s, t, reply, again))
    ensures MarkInv(DoBegin(s, t, reply, again))
  {
    hide CoreInv, MarkInv, HandlerOk, LockLiveExecution;
    if At(s, t) && s.hs[t].phase.Idle? {
      MarkHolds(s, t);
      LockedCurrent(s, t);
      assert RowMarked(s.d, s.d.attempts[s.hs[t].at.value]);
      RowTxMarked(s, DoBegin(s, t, reply, again), t);
    }
  }

  lemma SettleMarked(s: Sys, t: nat, reply: Reply, again: bool)
    requires CoreInv(s) && MarkInv(s) && CoreInv(DoSettle(s, t, reply, again))
    ensures MarkInv(DoSettle(s, t, reply, again))
  {
    hide CoreInv, MarkInv, HandlerOk, LockLiveExecution;
    if At(s, t) && s.hs[t].phase.Answered? {
      MarkHolds(s, t);
      LockedCurrent(s, t);
      assert RowMarked(s.d, s.d.attempts[s.hs[t].at.value]);
      RowTxMarked(s, DoSettle(s, t, reply, again), t);
    }
  }

  lemma SaveMarked(s: Sys, t: nat, reply: Reply, oversize: bool)
    requires CoreInv(s) && MarkInv(s) && CoreInv(DoSave(s, t, reply, oversize))
    ensures MarkInv(DoSave(s, t, reply, oversize))
  {
    hide CoreInv, MarkInv, HandlerOk, LockLiveExecution;
    if At(s, t) && s.hs[t].phase.Judged? {
      MarkHolds(s, t);
      LockedCurrent(s, t);
      assert RowMarked(s.d, s.d.attempts[s.hs[t].at.value]);
      RowTxMarked(s, DoSave(s, t, reply, oversize), t);
    }
  }

  /* ----- verdicts ----- */

  lemma TerminalTame(d: Diagnosis, e: Diagnosis, a: nat, status: AttemptStatus)
    requires e == d
      || (a < |d.attempts| && e.attempts == d.attempts[a := d.attempts[a].(status := status)]
          && TerminalJob(e.job.status))
    ensures StatusOnly(d, e) && Tame(d, e)
  {
  }

  lemma VerdictTame(d: Diagnosis, c: Claim, a: nat, cls: ErrorClass, code: ErrorCode)
    ensures var e := FinalizeDiagnosisFailure(d, c, a, cls, code).d; StatusOnly(d, e) && Tame(d, e)
    ensures var e := FinalizeInvalidReport(d, c, a).d; StatusOnly(d, e) && Tame(d, e)
    ensures var e := FinalizeCancellation(d, c, a).d; StatusOnly(d, e) && Tame(d, e)
  {
    hide LockExecution, StatusOnly, Tame;
    Locked(d, 0, c, true, a, 0, false);
    Locked(d, 0, c, false, a, 0, false);
    Locked(d, 0, c, false, a, 0, true);
    TerminalTame(d, FinalizeDiagnosisFailure(d, c, a, cls, code).d, a, AttemptFailedTerminal);
    TerminalTame(d, FinalizeInvalidReport(d, c, a).d, a, AttemptFailedTerminal);
    TerminalTame(d, FinalizeCancellation(d, c, a).d, a, AttemptCancelled);
  }

  lemma OutcomeTame(d: Diagnosis, c: Claim, a: nat)
    requires a < |d.attempts|
    ensures FinalCheckpoint(d.attempts[a]) ==> var e := FinalizeSuccess(d, c, a).d; StatusOnly(d, e) && Tame(d, e)
    ensures !d.attempts[a].unresolved ==> var e := FinalizeRetryableAttempt(d, c, a).d; StatusOnly(d, e) && Tame(d, e)
  {
    hide LockExecution;
  }

  lemma FinalizeTame(s: Sys, t: nat, reply: Reply)
    requires At(s, t) && RowPhase(s.d.attempts[s.hs[t].at.value], s.hs[t].phase)
    ensures StatusOnly(s.d, DoFinalize(s, t, reply).d) && Tame(s.d, DoFinalize(s, t, reply).d)
  {
    hide StatusOnly, Tame, FinalizeSuccess, FinalizeInvalidReport, FinalizeDiagnosisFailure, FinalizeRetryableAttempt,
      FinalizeCancellation;
    var h := s.hs[t];
    StatusSelf(s.d);
    SelfTame(s.d);
    OutcomeTame(s.d, ClaimOf(h, t), h.at.value);
    VerdictTame(s.d, ClaimOf(h, t), h.at.value, if h.phase.Terminating? then h.phase.cls else Permanent,
      if h.phase.Terminating? then h.phase.code else OtherCode);
  }

  lemma SelfTame(d: Diagnosis)
    ensures Tame(d, d)
  {
  }

  lemma FinalizePhase(s: Sys, t: nat, reply: Reply)
    requires At(s, t) && DoFinalize(s, t, reply) != s
    ensures var e := DoFinalize(s, t, reply);
      t in e.hs && e.hs == s.hs[t := e.hs[t]] && (NeedsAttempt(e.hs[t].phase) ==> e.hs[t].phase.Cancelling?)
  {
    hide FinalizeSuccess, FinalizeInvalidReport, FinalizeDiagnosisFailure, FinalizeRetryableAttempt,
      FinalizeCancellation;
  }

  lemma FinalizeMarked(s: Sys, t: nat, reply: Reply)
    requires CoreInv(s) && MarkInv(s) && CoreInv(DoFinalize(s, t, reply))
    ensures MarkInv(DoFinalize(s, t, reply))
  {
    hide CoreInv, MarkInv, HandlerOk, StatusOnly, Tame, RowsMarked;
    var e := DoFinalize(s, t, reply);
    if At(s, t) && e != s {
      MarkHolds(s, t);
      FinalizeTame(s, t, reply);
      FinalizePhase(s, t, reply);
      TameMarks(s.d, e.d);
      StatusKept(s.d, e.d);
      PhasesStay(s, e, t);
    }
  }

  lemma StatusKept(d: Diagnosis, e: Diagnosis)
    requires StatusOnly(d, e)
    ensures Kept(d, e) && forall i | 0 <= i < |d.attempts| :: SameMarks(d.attempts[i], e.attempts[i])
  {
  }

  lemma CloseTame(s: Sys, t: nat, nextRun: nat)
    requires t in s.hs && s.hs[t].phase.Closing? && !s.hs[t].phase.decision.Leave?
    ensures Tame(s.d, CloseTx(s, s.hs[t], t, s.hs[t].phase.decision, nextRun).d)
  {
    hide CloseRunning, LatestAttempt;
  }

  lemma CloseMarked(s: Sys, t: nat, reply: Reply, nextRun: nat, stop: bool)
    requires CoreInv(s) && MarkInv(s) && CoreInv(DoClose(s, t, reply, nextRun, stop))
    ensures MarkInv(DoClose(s, t, reply, nextRun, stop))
  {
    hide CoreInv, MarkInv, StatusOnly, CloseTx, RowsMarked, Tame;
    var e := DoClose(s, t, reply, nextRun, stop);
    if t in s.hs && s.hs[t].phase.Closing? && !s.hs[t].phase.decision.Leave? {
      MarkHolds(s, t);
      if e.d != s.d {
        CloseStatus(s, t, nextRun);
        CloseTame(s, t, nextRun);
        TameMarks(s.d, e.d);
      } else {
        StatusSelf(s.d);
      }
      StatusKept(s.d, e.d);
      PhasesStay(s, e, t);
    }
  }

  lemma AttemptMarked(s: Sys, t: nat, reply: Reply)
    requires CoreInv(s) && MarkInv(s) && CoreInv(DoAttempt(s, t, reply))
    ensures MarkInv(DoAttempt(s, t, reply))
  {
    hide CoreInv, MarkInv, HandlerOk, LockLiveJob;
    var e := DoAttempt(s, t, reply);
    if t in s.hs && s.hs[t].phase.Entered? {
      MarkHolds(s, t);
      forall i | 0 <= i < |e.d.attempts| ensures RowMarked(e.d, e.d.attempts[i]) {
        if i < |s.d.attempts| { assert RowMarked(s.d, s.d.attempts[i]); }
      }
      assert Kept(s.d, e.d);
      PhasesStay(s, e, t);
    }
  }

  /* ----- all steps, all runs ----- */

  lemma StepKeepsMarks(s: Sys, step: Step)
    requires CoreInv(s) && MarkInv(s) && CoreInv(Apply(s, step))
    ensures MarkInv(Apply(s, step))
  {
    hide CoreInv, MarkInv, DoAttempt, DoBegin, DoSettle, DoSave, DoFinalize, DoClose;
    if Bearer(step).None? || step.StartStep? || step.ReturnStep? || step.RenewStep? {
      RowStepMarked(s, step);
    } else if step.LaunchStep? || step.CauseStep? {
      ContextMarked(s, step);
    } else if step.AttemptStep? {
      AttemptMarked(s, step.t, step.reply);
    } else if step.BeginStep? {
      BeginMarked(s, step.t, step.reply, step.again);
    } else if step.SettleStep? {
      SettleMarked(s, step.t, step.reply, step.again);
    } else if step.SaveStep? {
      SaveMarked(s, step.t, step.reply, step.oversize);
    } else if step.FinalizeStep? {
      FinalizeMarked(s, step.t, step.reply);
    } else if step.CloseStep? {
      CloseMarked(s, step.t, step.reply, step.nextRun, step.stop);
    } else {
      LocalMarked(s, step, Bearer(step).value);
    }
  }

  lemma {:induction false} ReachableMarks(now: nat, steps: seq<Step>)
    ensures CoreInv(Exec(Init(now), steps)) && MarkInv(Exec(Init(now), steps))
  {
    hide CoreInv, Apply;
    ReachableCore(now, steps);
    if steps != [] {
      ReachableMarks(now, steps[..|steps| - 1]);
      StepKeepsMarks(Exec(Init(now), steps[..|steps| - 1]), steps[|steps| - 1]);
    }
  }
}
