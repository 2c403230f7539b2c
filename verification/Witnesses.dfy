/** Concrete runs: each plausible claim that the code does not meet fails in a state that a new
    diagnosis reaches. */
module Witnesses {
  import opened Rows
  import opened Transactions
  import opened Handlers
  import opened Protocol
  import opened Safety
  import opened SafetyRows
  import opened Runs
  import opened Recovery
  import opened Theorems
  import opened Replays

  lemma InitOpen(now: nat)
    ensures Open(Init(now)) && Init(now).next == 0
  {
  }

  /** A new diagnosis, claimed, started and about to insert its first attempt. */
  function FirstDoor(now: nat): Sys { Exec(Init(now), EnterSteps(0)) }

  lemma FirstDoorstep(now: nat)
    ensures var c := FirstDoor(now);
      && Door(c, 0) && c.d.attempts == [] && c.calls == [] && c.d.job.count == 1 && c.d.job.gen == 1
      && c.d.job.max == MAX_ATTEMPTS && c.now == now && c.d.run == Run(RunQueued, false, None)
  {
    hide Exec, EnterSteps;
    InitOpen(now);
    EnterWorks(Init(now));
    DoorOpens(Init(now), FirstDoor(now), 0);
  }

  /* ----- a retry over an unclosed attempt ----- */

  const RETRY := CloseFailure(Retryable, OtherCode, None, false)

  /** The checkpoint lookup fails, so the handler returns a retryable error and leaves its attempt RUNNING. */
  function UnclosedSteps(): seq<Step> {
    EnterSteps(0) + [AttemptStep(0, Faithful), LoadStep(0, false, false, false), DecideStep(0)]
  }

  lemma LookupFails(c: Sys, t: nat)
    requires Doorstep(c, t) && c.d.job.count < c.d.job.max
    ensures DoLoad(Working(c, t, Loading, false), t, false, false, false)
         == Working(c, t, Returned(RetRetryable(OtherCode)), false)
    ensures DoDecide(Working(c, t, Returned(RetRetryable(OtherCode)), false), t) == Working(c, t, Closing(RETRY), false)
  {
  }

  lemma UnclosedReached(now: nat)
    ensures Reach(now, UnclosedSteps()) == Working(FirstDoor(now), 0, Closing(RETRY), false)
  {
    hide Exec, EnterSteps, Working, Doorstep, DoAttempt, DoLoad, DoDecide;
    var c := FirstDoor(now);
    FirstDoorstep(now);
    InsertWorks(c, 0);
    LookupFails(c, 0);
    ThreeSteps(c, AttemptStep(0, Faithful), LoadStep(0, false, false, false), DecideStep(0));
    ExecAppend(Init(now), EnterSteps(0), [AttemptStep(0, Faithful), LoadStep(0, false, false, false), DecideStep(0)]);
  }

  /** "At most one RUNNING attempt" fails: the step excluded by OneRunning is reachable. */
  lemma LeftoverReachable(now: nat)
    ensures LeavesRunning(Reach(now, UnclosedSteps()), CloseStep(0, Faithful, now, false))
  {
    hide Exec, EnterSteps, FirstDoor;
    UnclosedReached(now);
    FirstDoorstep(now);
    assert Working(FirstDoor(now), 0, Closing(RETRY), false).d.attempts[0].status.AttemptRunning?;
  }

  /** "A cancellation is always accepted" fails: the retry was claimed, never started, and its lease
      expired, so the run is RUNNING while its job is PENDING. */
  lemma CancellationRefused(now: nat)
    ensures exists steps ::
      && RequestCancellation(Reach(now, steps).d).err == Rejected
      && Reach(now, steps).d.run.status.RunRunning? && Reach(now, steps).d.job.status.Pending?
  {
    hide Exec, FirstDoor, Reach, UnclosedSteps;
    UnclosedReached(now);
    FirstDoorstep(now);
    var p := Working(FirstDoor(now), 0, Closing(RETRY), false);
    FourSteps(p, CloseStep(0, Faithful, now, false), ClaimStep(0, 1, 0), Tick(2), ReapStep(0));
    Returns(p, now);
    var last := [CloseStep(0, Faithful, now, false), ClaimStep(0, 1, 0), Tick(2), ReapStep(0)];
    ReachAppend(now, UnclosedSteps(), last);
  }

  lemma ReachAppend(now: nat, a: seq<Step>, b: seq<Step>)
    ensures Reach(now, a + b) == Exec(Reach(now, a), b)
  {
    hide Exec;
    ExecAppend(Init(now), a, b);
  }

  lemma Returns(p: Sys, now: nat)
    requires 0 in p.hs && p.hs[0].phase == Closing(RETRY) && OwnedRunning(p.d.job, p.hs[0].worker, 0) && !p.d.job.cancel
    requires p.d.run.status.RunRunning? && p.now == now
    ensures var e := Apply(Apply(Apply(Apply(p, CloseStep(0, Faithful, now, false)), ClaimStep(0, 1, 0)), Tick(2)),
                           ReapStep(0));
      e.d.run.status.RunRunning? && e.d.job.status.Pending?
  {
  }

  /* ----- the lossy override ----- */

  /** A request succeeds, its report is never saved, and the failure verdict is never written. */
  function UnsavedSteps(): seq<Step> { RequestSteps(0, CallSucceeded) + SaveSteps() + VerdictSteps() }

  /** The handler at token t after its request succeeded, in phase p. */
  predicate AfterSuccess(e: Sys, t: nat, p: Phase) {
    && At(e, t) && e.hs[t].phase == p && e.hs[t].cause.NoCause? && e.hs[t].no == 1 && e.hs[t].gen == e.d.job.gen
    && Owns(e.d.job, e.hs[t].worker, t) && e.d.job.started && !e.d.job.cancel && !e.d.run.cancel
    && LiveLease(e.d.job, e.now)
    && e.d.job.count == 1 && e.d.run.status.RunRunning?
    && var row := e.d.attempts[e.hs[t].at.value];
       row.unresolved && row.gen == e.d.job.gen && row.no == 1 && row.status.AttemptRunning?
         && row.worker == e.hs[t].worker
  }

  lemma SettleGoes(e: Sys, t: nat)
    requires AfterSuccess(e, t, Answered(CallSucceeded, false))
    ensures AfterSuccess(DoSettle(e, t, Faithful, false), t, Idle(true))
  {
  }

  lemma EndGoes(e: Sys, t: nat)
    requires AfterSuccess(e, t, Idle(true))
    ensures AfterSuccess(DoEnd(e, t, ExecValid, true), t, Ended(ExecValid, true))
  {
  }

  lemma InspectGoes(e: Sys, t: nat)
    requires AfterSuccess(e, t, Ended(ExecValid, true))
    ensures AfterSuccess(DoInspect(e, t, true), t, Judged(ExecValid, false, true))
  {
  }

  lemma SaveFails(e: Sys, t: nat)
    requires AfterSuccess(e, t, Judged(ExecValid, false, true))
    ensures AfterSuccess(DoSave(e, t, NotExecuted, false), t, Terminating(Permanent, CheckpointSaveFailed, true))
  {
  }

  const LOST := RetPolicy(Permanent, CheckpointSaveFailed, PermanentReason)

  lemma FinalizeFails(e: Sys, t: nat)
    requires AfterSuccess(e, t, Terminating(Permanent, CheckpointSaveFailed, true))
    ensures AfterSuccess(DoFinalize(e, t, NotExecuted), t, Unsettled(Failed, LOST))
  {
  }

  lemma ResolveGoes(e: Sys, t: nat)
    requires AfterSuccess(e, t, Unsettled(Failed, LOST))
    ensures AfterSuccess(DoResolve(e, t, true), t, Returned(LOST))
  {
  }

  lemma CauseLoses(e: Sys, t: nat)
    requires AfterSuccess(e, t, Returned(LOST))
    ensures LossyOverride(DoCause(e, t, RetryableCause), DecideStep(t))
  {
    var a := e.hs[t].at.value;
    assert e.d.attempts[a].gen == e.hs[t].gen && e.d.attempts[a].no == e.hs[t].no && e.d.attempts[a].unresolved;
  }

  lemma RequestReached(now: nat)
    ensures AfterSuccess(Reach(now, RequestSteps(0, CallSucceeded)), 0, Answered(CallSucceeded, false))
  {
    hide Exec, EnterSteps, RequestSteps;
    InitOpen(now);
    RequestGoesOut(Init(now), CallSucceeded);
  }

  function SaveSteps(): seq<Step> {
    [SettleStep(0, Faithful, false), EndStep(0, ExecValid, true), InspectStep(0, true), SaveStep(0, NotExecuted, false)]
  }

  function VerdictSteps(): seq<Step> {
    [FinalizeStep(0, NotExecuted), ResolveStep(0, true), CauseStep(0, RetryableCause)]
  }

  lemma SaveRun(s: Sys)
    requires AfterSuccess(s, 0, Answered(CallSucceeded, false))
    ensures AfterSuccess(Exec(s, SaveSteps()), 0, Terminating(Permanent, CheckpointSaveFailed, true))
  {
    hide Exec, AfterSuccess, DoSettle, DoEnd, DoInspect, DoSave;
    var s1 := DoSettle(s, 0, Faithful, false);
    var s2 := DoEnd(s1, 0, ExecValid, true);
    SettleGoes(s, 0);
    EndGoes(s1, 0);
    InspectGoes(s2, 0);
    SaveFails(DoInspect(s2, 0, true), 0);
    FourSteps(s, SettleStep(0, Faithful, false), EndStep(0, ExecValid, true), InspectStep(0, true),
              SaveStep(0, NotExecuted, false));
  }

  lemma VerdictRun(s: Sys)
    requires AfterSuccess(s, 0, Terminating(Permanent, CheckpointSaveFailed, true))
    ensures LossyOverride(Exec(s, VerdictSteps()), DecideStep(0))
  {
    hide Exec, AfterSuccess, DoFinalize, DoResolve, DoCause, LossyOverride;
    var s1 := DoFinalize(s, 0, NotExecuted);
    FinalizeFails(s, 0);
    ResolveGoes(s1, 0);
    CauseLoses(DoResolve(s1, 0, true), 0);
    ThreeSteps(s, FinalizeStep(0, NotExecuted), ResolveStep(0, true), CauseStep(0, RetryableCause));
  }

  /** The step excluded by NeverReplayed is reachable, by a run that contains no such step before. */
  lemma OverrideReachable(now: nat)
    ensures Lossless(now, UnsavedSteps()) && LossyOverride(Reach(now, UnsavedSteps()), DecideStep(0))
  {
    hide Exec, AfterSuccess, RequestSteps, SaveSteps, VerdictSteps, LossyOverride, Lossless;
    RequestReached(now);
    SaveRun(Reach(now, RequestSteps(0, CallSucceeded)));
    ReachAppend(now, RequestSteps(0, CallSucceeded), SaveSteps());
    VerdictRun(Reach(now, RequestSteps(0, CallSucceeded) + SaveSteps()));
    ReachAppend(now, RequestSteps(0, CallSucceeded) + SaveSteps(), VerdictSteps());
    UndecidedLossless(now);
  }

  lemma UndecidedLossless(now: nat)
    ensures Lossless(now, UnsavedSteps())
  {
    assert forall k :: 0 <= k < |UnsavedSteps()| ==> !UnsavedSteps()[k].DecideStep?;
  }
}
