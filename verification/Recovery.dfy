/** Lease recovery alone finishes every diagnosis, and leftover RUNNING attempts have one source. */
module Recovery {
  import opened Rows
  import opened Transactions
  import opened Protocol
  import opened Core
  import opened CoreSteps
  import opened Markers
  import opened SafetySteps
  import opened Runs

  /** Steps that need no handler: the clock, claims, durable starts and the reaper. */
  predicate Background(steps: seq<Step>) {
    forall k :: 0 <= k < |steps| ==> steps[k].Tick? || steps[k].ClaimStep? || steps[k].StartStep? || steps[k].ReapStep?
  }

  lemma ReapEnds(s: Sys, now: nat, nextRun: nat)
    requires CoreInv(s) && Expired(s.d.job, now)
    ensures var e := ReapExpired(s.d, now, nextRun);
      e.err == Ok && !e.d.job.status.Running? && e.d.job.count == s.d.job.count
    ensures s.d.job.cancel ==> ReapExpired(s.d, now, nextRun).d.job.status.Cancelled?
  {
    hide ClaimsOk, HandlersOk, SuccessOk;
    var m := OutcomeUnknownMarker(s.d);
    if m.Some? { assert InRange(s.d, s.d.attempts[m.value]); }
  }

  /** A running job whose lease runs out leaves the RUNNING state; a cancelled one ends CANCELLED. */
  lemma ExpiryEnds(s: Sys) returns (steps: seq<Step>)
    requires CoreInv(s) && s.d.job.status.Running?
    ensures Background(steps) && CoreInv(Exec(s, steps)) && !Exec(s, steps).d.job.status.Running?
    ensures Exec(s, steps).d.job.count == s.d.job.count && |steps| == 2
    ensures s.d.job.cancel ==> Exec(s, steps).d.job.status.Cancelled?
  {
    hide CoreInv, ReapExpired;
    LeaseHeld(s);
    steps := [Tick(s.d.job.lease.value + 1), ReapStep(0)];
    TwoSteps(s, Tick(s.d.job.lease.value + 1), ReapStep(0));
    CoreForever(s, steps);
    CoreForever(s, steps[..1]);
    ReapEnds(s, s.now + s.d.job.lease.value + 1, 0);
  }

  lemma LeaseHeld(s: Sys)
    requires CoreInv(s) && s.d.job.status.Running?
    ensures s.d.job.lease.Some?
  {
  }

  lemma TwoSteps(s: Sys, a: Step, b: Step)
    ensures Exec(s, [a, b]) == Apply(Apply(s, a), b)
  {
    hide Apply;
    ExecOne(s, [], a);
    ExecOne(s, [a], b);
    assert [] + [a] == [a] && [a] + [b] == [a, b];
  }

  lemma ThreeSteps(s: Sys, a: Step, b: Step, c: Step)
    ensures Exec(s, [a, b, c]) == Apply(Apply(Apply(s, a), b), c)
  {
    hide Apply;
    TwoSteps(s, a, b);
    ExecOne(s, [a, b], c);
    assert [a, b] + [c] == [a, b, c];
  }

  /** A waiting job can be claimed and started, which uses up one attempt. */
  lemma WaitingStarts(s: Sys) returns (steps: seq<Step>)
    requires CoreInv(s) && (s.d.job.status.Pending? || s.d.job.status.RetryWait?)
    ensures Background(steps) && CoreInv(Exec(s, steps)) && Exec(s, steps).d.job.status.Running?
    ensures Exec(s, steps).d.job.count == s.d.job.count + 1 && Exec(s, steps).d.job.cancel == s.d.job.cancel
    ensures |steps| == 3
  {
    hide CoreInv;
    steps := [Tick(s.d.job.nextRun), ClaimStep(0, 1, 0), StartStep(s.next)];
    ThreeSteps(s, Tick(s.d.job.nextRun), ClaimStep(0, 1, 0), StartStep(s.next));
    CoreForever(s, steps);
  }

  /** From every consistent state, even if every handler has died, background steps alone lead to a
      terminal verdict; a cancelled diagnosis ends CANCELLED. */
  lemma {:induction false} RecoveryFinishes(s: Sys) returns (steps: seq<Step>)
    requires CoreInv(s)
    ensures Background(steps) && TerminalJob(Exec(s, steps).d.job.status)
    ensures Doomed(s.d) ==> Exec(s, steps).d.job.status.Cancelled?
    ensures |steps| <= 5 * (MAX_ATTEMPTS - s.d.job.count) + (if s.d.job.status.Running? then 2 else 0)
    decreases MAX_ATTEMPTS - s.d.job.count, s.d.job.status.Running?
  {
    hide CoreInv, Apply;
    if TerminalJob(s.d.job.status) {
      steps := [];
      CountBound(s);
    } else {
      var first: seq<Step>;
      if s.d.job.status.Running? { first := ExpiryEnds(s); } else { first := WaitingStarts(s); }
      var e := Exec(s, first);
      CountBound(e);
      if Doomed(s.d) { CancellationKept(s, first); }
      var rest := RecoveryFinishes(e);
      steps := first + rest;
      ExecAppend(s, first, rest);
    }
  }

  lemma CountBound(s: Sys)
    requires CoreInv(s)
    ensures s.d.job.count <= MAX_ATTEMPTS
  {
  }

  /* ----- leftover RUNNING attempts ----- */

  /** Every RUNNING attempt is the attempt of the execution in progress, so there is at most one. */
  predicate RunningIsCurrent(d: Diagnosis) {
    forall i :: 0 <= i < |d.attempts| && d.attempts[i].status.AttemptRunning? ==> Current(d, d.attempts[i])
  }

  /** The worker commits a retry for a handler that returned without closing its attempt. */
  predicate LeavesRunning(s: Sys, step: Step) {
    step.CloseStep? && !step.reply.NotExecuted? && step.t in s.hs
    && var h := s.hs[step.t];
       h.phase.Closing? && h.phase.decision.CloseFailure? && !h.phase.decision.terminal
       && OwnedRunning(s.d.job, h.worker, step.t) && !s.d.job.cancel
       && exists i :: 0 <= i < |s.d.attempts| && s.d.attempts[i].status.AttemptRunning?
  }

  predicate NoneRunning(d: Diagnosis) {
    forall i :: 0 <= i < |d.attempts| ==> !d.attempts[i].status.AttemptRunning?
  }

  lemma {:induction false} ReapClosesAll(d: Diagnosis, now: nat, nextRun: nat)
    requires AttemptsOk(d) && RunningIsCurrent(d)
    ensures RunningIsCurrent(ReapExpired(d, now, nextRun).d)
  {
    hide CloseRunning, LatestAttempt, FindAttempt;
    CloseRunningRows(d.attempts, d.job.gen, Some(d.job.count), AttemptAbandoned);
    CloseRunningRows(d.attempts, d.job.gen, None, AttemptAbandoned);
    forall i | 0 <= i < |d.attempts| && d.attempts[i].status.AttemptRunning?
      ensures FindAttempt(d.attempts, d.job.gen, d.job.count) == Some(i)
    {
      FoundIs(d, i);
    }
  }

  /** A handler's own verdict or retry closes the only RUNNING attempt. */
  lemma OwnVerdictCloses(d: Diagnosis, e: Diagnosis, c: Claim, checkGen: bool, a: nat, cancellation: bool)
    requires AttemptsOk(d) && RunningIsCurrent(d) && LockExecution(d, c, checkGen, a, cancellation) == Ok
    requires |e.attempts| == |d.attempts| && e.attempts == d.attempts[a := e.attempts[a]]
    requires !e.attempts[a].status.AttemptRunning?
    ensures NoneRunning(e)
  {
    Locked(d, 0, c, checkGen, a, 0, cancellation);
    FoundIs(d, a);
    forall i | 0 <= i < |d.attempts| && d.attempts[i].status.AttemptRunning? ensures i == a { FoundIs(d, i); }
  }

  lemma FinalizeRunning(s: Sys, t: nat, reply: Reply)
    requires AttemptsOk(s.d) && RunningIsCurrent(s.d)
    ensures RunningIsCurrent(DoFinalize(s, t, reply).d)
  {
    hide LockExecution, AttemptsOk;
    var e := DoFinalize(s, t, reply).d;
    if e != s.d {
      var c := ClaimOf(s.hs[t], t);
      var a := s.hs[t].at.value;
      match s.hs[t].phase
      case Terminating(_, _, _) => OwnVerdictCloses(s.d, e, c, true, a, false);
      case Retrying(_) => OwnVerdictCloses(s.d, e, c, true, a, false);
      case Invalidating => OwnVerdictCloses(s.d, e, c, false, a, false);
      case Succeeding => OwnVerdictCloses(s.d, e, c, false, a, false);
      case Cancelling => OwnVerdictCloses(s.d, e, c, false, a, true);
    }
  }

  lemma CloseRunningAll(d: Diagnosis, status: AttemptStatus)
    requires RunningIsCurrent(d) && !status.AttemptSucceeded? && !status.AttemptRunning?
    ensures NoneRunning(d.(attempts := CloseRunning(d.attempts, d.job.gen, None, status)))
  {
    CloseRunningRows(d.attempts, d.job.gen, None, status);
  }

  lemma CloseLeavesNone(s: Sys, step: Step)
    requires CoreInv(s) && RunningIsCurrent(s.d) && step.CloseStep? && !LeavesRunning(s, step)
    ensures RunningIsCurrent(Apply(s, step).d)
  {
    hide CoreInv, CloseRunning, LatestAttempt;
    if step.t in s.hs {
      CoreHolds(s, step.t);
      CloseRunningAll(s.d, AttemptAbandoned);
      CloseRunningAll(s.d, AttemptFailedTerminal);
    }
  }

  lemma RowTxRunning(s: Sys, step: Step)
    requires RunningIsCurrent(s.d) && (step.BeginStep? || step.SettleStep? || step.SaveStep?)
    ensures RunningIsCurrent(Apply(s, step).d)
  {
    hide LockLiveExecution;
    if step.t in s.hs && s.hs[step.t].at.Some? {
      Locked(s.d, s.now, ClaimOf(s.hs[step.t], step.t), true, s.hs[step.t].at.value, s.hs[step.t].no, false);
    }
  }

  lemma OwnershipRunning(s: Sys, step: Step)
    requires CoreInv(s) && RunningIsCurrent(s.d)
    requires step.StartStep? || step.ReturnStep? || step.RenewStep? || step.AttemptStep?
      || (Bearer(step).None? && !step.ReapStep?)
    ensures RunningIsCurrent(Apply(s, step).d)
  {
    hide ClaimsOk, HandlersOk, SuccessOk, AttemptsOk;
  }

  lemma StepKeepsRunning(s: Sys, step: Step)
    requires CoreInv(s) && RunningIsCurrent(s.d) && !LeavesRunning(s, step)
    ensures RunningIsCurrent(Apply(s, step).d)
  {
    hide RunningIsCurrent, ClaimsOk, HandlersOk, SuccessOk, AttemptsOk, LeavesRunning;
    if step.ReapStep? {
      ReapClosesAll(s.d, s.now, step.nextRun);
    } else if Bearer(step).None? || step.StartStep? || step.ReturnStep? || step.RenewStep? || step.AttemptStep? {
      OwnershipRunning(s, step);
    } else if step.BeginStep? || step.SettleStep? || step.SaveStep? {
      RowTxRunning(s, step);
    } else if step.FinalizeStep? {
      FinalizeRunning(s, step.t, step.reply);
    } else if step.CloseStep? {
      CloseLeavesNone(s, step);
    }
  }

  /** At most one attempt is RUNNING, as long as no retry is scheduled over an unclosed attempt. */
  lemma {:induction false} OneRunning(now: nat, steps: seq<Step>)
    requires forall k :: 0 <= k < |steps| ==> !LeavesRunning(Exec(Init(now), steps[..k]), steps[k])
    ensures RunningIsCurrent(Exec(Init(now), steps).d)
    ensures var d := Exec(Init(now), steps).d; forall i, k | 0 <= i < k < |d.attempts| ::
      !(d.attempts[i].status.AttemptRunning? && d.attempts[k].status.AttemptRunning?)
  {
    hide Apply, LeavesRunning;
    if steps != [] {
      var n := |steps| - 1;
      var before := steps[..n];
      forall k | 0 <= k < |before| ensures !LeavesRunning(Exec(Init(now), before[..k]), before[k]) {
        assert before[..k] == steps[..k];
      }
      OneRunning(now, before);
      ReachableCore(now, before);
      StepKeepsRunning(Exec(Init(now), before), steps[n]);
    }
    ReachableCore(now, steps);
    var d := Exec(Init(now), steps).d;
    assert forall i, k | 0 <= i < k < |d.attempts| :: Before(d.attempts[i], d.attempts[k]);
  }
}
