/** The main results, stated over every sequence of steps from a new diagnosis. */
module Theorems {
  import opened Rows
  import opened Transactions
  import opened Handlers
  import opened Protocol
  import opened Core
  import opened CoreSteps
  import opened Markers
  import opened MarkerSteps
  import opened Safety
  import opened SafetySteps
  import opened SafetyMoves
  import opened SafetyRows
  import opened Runs
  import opened VerdictSteps

  function Reach(now: nat, steps: seq<Step>): Sys { Exec(Init(now), steps) }

  /** Job and run agree on the verdict, and on the cancellation flag, in every reachable state. */
  lemma VerdictsCoupled(now: nat, steps: seq<Step>)
    ensures var d := Reach(now, steps).d;
      && (TerminalJob(d.job.status) <==> TerminalRun(d.run.status))
      && (d.job.status.Succeeded? <==> d.run.status.RunSucceeded?)
      && (d.job.status.Failed? <==> d.run.status.RunFailed?)
      && (d.job.status.Cancelled? <==> d.run.status.RunCancelled?)
      && d.job.cancel == d.run.cancel
  {
    ReachableCore(now, steps);
  }

  /** A succeeded run names its one succeeded attempt, which holds a valid final checkpoint and has exactly one
      report; no run has more. */
  lemma OneSuccess(now: nat, steps: seq<Step>, i: nat)
    requires i < |Reach(now, steps).d.attempts|
    ensures var d := Reach(now, steps).d;
      && (d.attempts[i].status.AttemptSucceeded? <==> d.run.status.RunSucceeded? && d.run.final == Some(i))
      && (d.attempts[i].status.AttemptSucceeded? ==> d.attempts[i].kind.FinalValid? && d.attempts[i].completed)
      && (d.run.status.RunSucceeded? ==>
          d.run.final.Some? && d.run.final.value < |d.attempts| && Report(d.run.final.value, true) in d.reports)
      && forall k, l | 0 <= k < l < |d.reports| :: d.reports[k].attempt != d.reports[l].attempt
  {
    ReachableCore(now, steps);
    ReachableVerdicts(now, steps);
  }

  /** A run succeeds only on a valid report: the attempt it names holds a completed valid checkpoint. A report row
      is valid exactly if the checkpoint of its attempt is, and after an invalid final checkpoint no attempt of
      that generation ever holds a valid one. */
  lemma SuccessIsValid(now: nat, steps: seq<Step>)
    ensures var d := Reach(now, steps).d;
      && (d.run.status.RunSucceeded? ==>
            d.run.final.Some? && d.run.final.value < |d.attempts|
            && d.attempts[d.run.final.value].kind.FinalValid? && d.attempts[d.run.final.value].completed)
      && (forall k | 0 <= k < |d.reports| ::
            d.reports[k].attempt < |d.attempts|
            && (if d.reports[k].valid then d.attempts[d.reports[k].attempt].kind.FinalValid?
                else d.attempts[d.reports[k].attempt].kind.FinalInvalid?))
      && (forall i, k | 0 <= i < k < |d.attempts| && d.attempts[i].gen == d.attempts[k].gen ::
            !(d.attempts[i].kind.FinalInvalid? && d.attempts[k].kind.FinalValid?))
  {
    ReachableVerdicts(now, steps);
  }

  /** Every verdict says why: a failure is permanent exactly if its class is, otherwise all attempts of the
      generation were charged; only a failed or cancelled job has a reason. */
  lemma FailureExplained(now: nat, steps: seq<Step>)
    ensures var j := Reach(now, steps).d.job;
      && (j.status.Failed? ==>
            && j.errCode.Some? && j.errClass.Some?
            && (j.reason == Some(PermanentReason) <==> j.errClass == Some(Permanent))
            && (j.reason == Some(RetryableExhausted) <==> j.errClass != Some(Permanent)))
      && (j.reason == Some(RetryableExhausted) ==> j.status.Failed? && j.count == MAX_ATTEMPTS)
      && (j.reason == Some(PermanentReason) ==> j.status.Failed?)
      && (j.reason == Some(CancelledReason) <==> j.status.Cancelled?)
  {
    ReachableVerdicts(now, steps);
  }

  /** Rows started through claims carry distinct pairs of generation and number. */
  lemma AttemptNumbersDistinct(now: nat, steps: seq<Step>, i: nat, k: nat)
    requires i < k < |Reach(now, steps).d.attempts|
    ensures var d := Reach(now, steps).d; d.attempts[i].gen != d.attempts[k].gen || d.attempts[i].no < d.attempts[k].no
  {
    ReachableCore(now, steps);
    assert Before(Reach(now, steps).d.attempts[i], Reach(now, steps).d.attempts[k]);
  }

  /* ----- lease recovery ----- */

  /** In every reachable state the reaper commits for an expired job: no job can poison its batch. */
  lemma ReaperCommits(now: nat, steps: seq<Step>, nextRun: nat)
    ensures var s := Reach(now, steps);
      Expired(s.d.job, s.now) <==> ReapExpired(s.d, s.now, nextRun).err == Ok
  {
    hide ClaimsOk, HandlersOk, SuccessOk;
    var s := Reach(now, steps);
    ReachableCore(now, steps);
    var m := OutcomeUnknownMarker(s.d);
    if m.Some? { assert InRange(s.d, s.d.attempts[m.value]); }
  }

  /** Lease recovery never schedules a retry for an execution whose attempt has an unresolved
      marker, even if the sweeper abandoned the attempt first. */
  lemma ReaperRespectsMarker(now: nat, steps: seq<Step>, nextRun: nat, i: nat)
    requires i < |Reach(now, steps).d.attempts|
    requires var s := Reach(now, steps);
      Current(s.d, s.d.attempts[i]) && s.d.attempts[i].unresolved && Expired(s.d.job, s.now)
    ensures var s := Reach(now, steps); var e := Apply(s, ReapStep(nextRun)).d;
      && i < |e.attempts| && e.attempts[i].unresolved
      && (if s.d.job.cancel then e.job.status.Cancelled? && e.run.status.RunCancelled? && e.run.final == Some(i)
          else e.job.status.Failed? && e.job.errCode == Some(ProviderOutcomeUnknown)
               && e.job.reason == Some(PermanentReason)
               && e.run.status.RunFailed? && e.run.final == Some(i) && e.attempts[i].status.AttemptFailedTerminal?)
  {
    hide ClaimsOk, HandlersOk, SuccessOk;
    var s := Reach(now, steps);
    ReachableMarks(now, steps);
    assert RowMarked(s.d, s.d.attempts[i]) && InRange(s.d, s.d.attempts[i]);
    FoundIs(s.d, i);
    CloseRunningRows(s.d.attempts, s.d.job.gen, Some(s.d.job.count), AttemptAbandoned);
  }

  /* ----- the dispatch marker ----- */

  /** In every reachable state a seen success keeps its marker set. */
  lemma SeenKeepsMarker(now: nat, steps: seq<Step>, i: nat)
    requires i < |Reach(now, steps).d.attempts| && Reach(now, steps).d.attempts[i].successSeen
    ensures Reach(now, steps).d.attempts[i].unresolved
  {
    ReachableMarks(now, steps);
    assert RowMarked(Reach(now, steps).d, Reach(now, steps).d.attempts[i]);
  }

  /** In every run, lossy ones included, a request leaves the process only while the marker of its own
      attempt row is set. */
  lemma CallUnderMarker(now: nat, steps: seq<Step>, step: Step, t: nat)
    requires Sends(Reach(now, steps), step, t)
    ensures var s := Reach(now, steps); At(s, t) && s.d.attempts[s.hs[t].at.value].unresolved
    ensures var s := Reach(now, steps); var row := s.d.attempts[s.hs[t].at.value];
      row.gen == s.hs[t].gen && row.no == s.hs[t].no && !FinalCheckpoint(row)
  {
    hide CoreInv, MarkInv;
    ReachableMarks(now, steps);
    MarkHolds(Reach(now, steps), t);
  }

  /** Every request has its own marker: a handler commits it before its first request, and again between
      any two requests. */
  lemma MarkerPerCall(now: nat, steps: seq<Step>, i: nat, j: nat, t: nat) returns (k: nat)
    requires i <= j < |steps| && Sends(Reach(now, steps[..j]), steps[j], t)
    requires i == 0 || Sends(Reach(now, steps[..i - 1]), steps[i - 1], t)
    ensures i <= k < j && MarksDispatch(Reach(now, steps[..k]), steps[k], t)
  {
    hide Apply, Sends, MarksDispatch;
    SentIsDone(Reach(now, steps[..j]), steps[j], t);
    if i > 0 {
      SentIsDone(Reach(now, steps[..i - 1]), steps[i - 1], t);
      assert steps[..i] == steps[..i - 1] + [steps[i - 1]];
      ExecOne(Init(now), steps[..i - 1], steps[i - 1]);
    }
    k := PreparedSince(Init(now), steps, i, j, t);
  }

  /* ----- cancellation ----- */

  /** An accepted cancellation is never lost: whatever happens afterwards, no attempt and no
      generation starts, no request is authorized, a handler authorized before sends at most one more,
      neither row becomes SUCCEEDED or FAILED, and CANCELLED, once reached, stays. */
  lemma CancellationNeverLost(now: nat, before: seq<Step>, after: seq<Step>)
    requires RequestCancellation(Reach(now, before).d).err == Ok
    ensures var s := Apply(Reach(now, before), CancelStep); var e := Exec(s, after);
      && e.d.job.cancel && e.d.run.cancel && NothingNew(s, e)
      && !e.d.job.status.Succeeded? && !e.d.job.status.Failed? && !e.d.run.status.RunSucceeded?
      && !e.d.run.status.RunFailed?
  {
    var s := Apply(Reach(now, before), CancelStep);
    AcceptedIsDoomed(Reach(now, before).d);
    ReachableCore(now, before);
    StepKeepsCore(Reach(now, before), CancelStep);
    CancellationKept(s, after);
    CoreCoupled(Exec(s, after));
  }

  /** A cancellation is refused exactly when the run is over, or the run is RUNNING while its job
      went back to PENDING. */
  lemma CancellationAccepted(now: nat, steps: seq<Step>)
    ensures var d := Reach(now, steps).d;
      RequestCancellation(d).err == Ok <==>
        !TerminalRun(d.run.status) && !(d.run.status.RunRunning? && d.job.status.Pending?)
  {
    ReachableCore(now, steps);
  }

  /** The generic success path of the worker never writes: only the handler's own transaction
      makes a diagnosis succeed. */
  lemma GenericSuccessNeverWrites(now: nat, steps: seq<Step>, t: nat, reply: Reply, nextRun: nat, stop: bool)
    requires var s := Reach(now, steps); t in s.hs && s.hs[t].phase == Closing(CloseSuccess)
    ensures Apply(Reach(now, steps), CloseStep(t, reply, nextRun, stop)).d == Reach(now, steps).d
  {
    hide CoreInv;
    ReachableCore(now, steps);
    CoreHolds(Reach(now, steps), t);
  }

  /* ----- no automatic replay ----- */

  /** Once a request of a generation may have taken effect, every later request of that generation
      comes from the same attempt. */
  predicate CallsOrdered(s: Sys) {
    && (forall k :: 0 <= k < |s.calls| ==> s.calls[k].at < |s.d.attempts|)
    && (forall k, l | 0 <= k < l < |s.calls| && !s.calls[k].outcome.CallFailedDefinitely? ::
          s.d.attempts[s.calls[k].at].gen == s.d.attempts[s.calls[l].at].gen ==> s.calls[k].at == s.calls[l].at)
  }

  lemma CallStaysOrdered(s: Sys, t: nat, outcome: Outcome)
    requires CoreInv(s) && SafeInv(s) && CallsOrdered(s)
    ensures CallsOrdered(DoCall(s, t, outcome))
  {
    hide CoreInv, SafeInv;
    if At(s, t) && s.hs[t].phase.Authorized? {
      SafeHolds(s, t);
      var e := DoCall(s, t, outcome);
      forall k, l | 0 <= k < l < |e.calls| && !e.calls[k].outcome.CallFailedDefinitely?
        ensures e.d.attempts[e.calls[k].at].gen == e.d.attempts[e.calls[l].at].gen ==> e.calls[k].at == e.calls[l].at
      {
        assert e.calls[k] == s.calls[k];
        assert s.calls[k].at in Effects(s.calls);
      }
    }
  }

  lemma StepStaysOrdered(s: Sys, step: Step)
    requires CoreInv(s) && SafeInv(s) && CallsOrdered(s)
    ensures CallsOrdered(Apply(s, step))
  {
    if step.CallStep? {
      CallStaysOrdered(s, step.t, step.outcome);
    } else {
      hide Apply, SafeInv, CoreInv;
      OnlyCallsLog(s, step);
      StepEvolves(s, step);
      var e := Apply(s, step);
      assert forall i :: 0 <= i < |s.d.attempts| ==> SameIdentity(s.d.attempts[i], e.d.attempts[i]);
    }
  }

  /** A provider request that may have taken effect is never replayed automatically: in every
      lossless run, no other attempt of its generation ever sends a request after it. */
  lemma {:induction false} NeverReplayed(now: nat, steps: seq<Step>)
    requires Lossless(now, steps)
    ensures CallsOrdered(Reach(now, steps))
  {
    hide Apply, SafeInv, CoreInv, LossyOverride;
    if steps != [] {
      var n := |steps| - 1;
      var before := steps[..n];
      forall k | 0 <= k < |before| ensures !LossyOverride(Exec(Init(now), before[..k]), before[k]) {
        assert before[..k] == steps[..k];
      }
      NeverReplayed(now, before);
      ReachableSafe(now, before);
      StepStaysOrdered(Reach(now, before), steps[n]);
    }
  }

  /** An unresolved marker ends its generation: the job is still running that very attempt, or it is FAILED or
      CANCELLED; it never waits for a retry and never succeeds (lossless runs). */
  lemma MarkerEndsGeneration(now: nat, steps: seq<Step>, i: nat)
    requires Lossless(now, steps) && i < |Reach(now, steps).d.attempts|
    requires var d := Reach(now, steps).d; d.attempts[i].unresolved && d.attempts[i].gen == d.job.gen
    ensures var d := Reach(now, steps).d;
      && d.attempts[i].no == d.job.count && !FinalCheckpoint(d.attempts[i])
      && (Current(d, d.attempts[i]) || d.job.status.Failed? || d.job.status.Cancelled?)
      && forall k | 0 <= k < |d.attempts| && k != i && d.attempts[k].gen == d.job.gen ::
           !d.attempts[k].unresolved && (k < i ==> !FinalCheckpoint(d.attempts[k]))
  {
    hide HandlersSafe, OneInFlight, EffectsOk, HandlersOk, ClaimsOk, SuccessOk, JobOk;
    ReachableSafe(now, steps);
    var d := Reach(now, steps).d;
    assert MarkOk(d, d.attempts[i]);
    forall k | 0 <= k < |d.attempts| && k != i && d.attempts[k].gen == d.job.gen ensures !d.attempts[k].unresolved {
      assert MarkOk(d, d.attempts[k]);
      FoundIs(d, i);
      FoundIs(d, k);
    }
  }
}
