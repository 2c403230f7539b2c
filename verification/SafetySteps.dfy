/** Every step except the lossy override keeps the safety facts. */
module SafetySteps {
  import opened Rows
  import opened Transactions
  import opened Handlers
  import opened Protocol
  import opened Core
  import opened CoreSteps
  import opened Safety

  /* ----- markers under the transactions that only change job, run and statuses ----- */

  /** Markers stay in order when the current attempt's marker is allowed by the new job row. */
  lemma MarksStay(d: Diagnosis, e: Diagnosis)
    requires MarksOk(d) && StatusOnly(d, e)
    requires forall i | 0 <= i < |d.attempts| && d.attempts[i].unresolved :: MarkOk(e, e.attempts[i])
    ensures MarksOk(e)
  {
    forall i | 0 <= i < |e.attempts| ensures MarkOk(e, e.attempts[i]) {
      assert SameMarks(d.attempts[i], e.attempts[i]) && MarkOk(d, d.attempts[i]);
    }
    forall i, k | 0 <= k < i < |e.attempts| && e.attempts[i].unresolved && e.attempts[k].gen == e.attempts[i].gen
      ensures !FinalCheckpoint(e.attempts[k])
    {
      assert SameMarks(d.attempts[i], e.attempts[i]) && SameMarks(d.attempts[k], e.attempts[k]);
    }
  }

  /** A generation without a marker may change in any way. */
  lemma ClearMarks(d: Diagnosis, e: Diagnosis)
    requires MarksOk(d) && StatusOnly(d, e) && e.job.gen == d.job.gen
    requires forall i | 0 <= i < |d.attempts| && d.attempts[i].gen == d.job.gen :: !d.attempts[i].unresolved
    ensures MarksOk(e)
  {
    forall i | 0 <= i < |d.attempts| && d.attempts[i].unresolved ensures MarkOk(e, e.attempts[i]) {
      assert SameMarks(d.attempts[i], e.attempts[i]) && MarkOk(d, d.attempts[i]);
    }
    MarksStay(d, e);
  }

  /** A failure or a cancellation leaves every marker where it is. */
  lemma TerminalMarks(d: Diagnosis, e: Diagnosis)
    requires MarksOk(d) && StatusOnly(d, e) && (e.job.status.Failed? || e.job.status.Cancelled?)
    requires e.job.gen == d.job.gen && e.job.count == d.job.count
    ensures MarksOk(e)
  {
    forall i | 0 <= i < |d.attempts| && d.attempts[i].unresolved ensures MarkOk(e, e.attempts[i]) {
      assert SameMarks(d.attempts[i], e.attempts[i]) && MarkOk(d, d.attempts[i]);
    }
    MarksStay(d, e);
  }

  /** Numbers identify rows: the attempt found by number is the attempt. */
  lemma FoundIs(d: Diagnosis, i: nat)
    requires AttemptsOk(d) && i < |d.attempts|
    ensures FindAttempt(d.attempts, d.attempts[i].gen, d.attempts[i].no) == Some(i)
  {
    var f := FindAttempt(d.attempts, d.attempts[i].gen, d.attempts[i].no).value;
    assert f < i ==> Before(d.attempts[f], d.attempts[i]);
    assert i < f ==> Before(d.attempts[i], d.attempts[f]);
  }

  /** The reaper sees every marker that could be replayed. */
  lemma MarkerFound(d: Diagnosis)
    requires MarksOk(d) && AttemptsOk(d) && d.job.status.Running?
    requires !d.job.started || OutcomeUnknownMarker(d).None?
    ensures forall i | 0 <= i < |d.attempts| && d.attempts[i].gen == d.job.gen :: !d.attempts[i].unresolved
  {
    forall i | 0 <= i < |d.attempts| && d.attempts[i].gen == d.job.gen ensures !d.attempts[i].unresolved {
      assert MarkOk(d, d.attempts[i]);
      FoundIs(d, i);
    }
  }

  lemma ReapStatusOnly(d: Diagnosis, now: nat, nextRun: nat)
    ensures StatusOnly(d, ReapExpired(d, now, nextRun).d)
  {
    CloseRunningRows(d.attempts, d.job.gen, Some(d.job.count), AttemptAbandoned);
    CloseRunningRows(d.attempts, d.job.gen, None, AttemptAbandoned);
  }

  lemma ReapMarks(d: Diagnosis, now: nat, nextRun: nat)
    requires MarksOk(d) && AttemptsOk(d)
    ensures MarksOk(ReapExpired(d, now, nextRun).d)
  {
    hide MarksOk, StatusOnly, AttemptsOk, CloseRunning, OutcomeUnknownMarker;
    var e := ReapExpired(d, now, nextRun).d;
    ReapStatusOnly(d, now, nextRun);
    if TerminalJob(e.job.status) {
      if e != d { TerminalMarks(d, e); }
    } else if e != d {
      MarkerFound(d);
      ClearMarks(d, e);
    }
  }

  lemma ReturnMarks(d: Diagnosis, c: Claim)
    requires MarksOk(d)
    ensures MarksOk(ReturnUndispatchedClaim(d, c).d) && StatusOnly(d, ReturnUndispatchedClaim(d, c).d)
  {
    MarksStay(d, ReturnUndispatchedClaim(d, c).d);
  }

  lemma RenewMarks(d: Diagnosis, now: nat, worker: nat, t: nat, until: nat)
    requires MarksOk(d)
    ensures MarksOk(RenewLease(d, now, worker, t, until).d) && StatusOnly(d, RenewLease(d, now, worker, t, until).d)
  {
    MarksStay(d, RenewLease(d, now, worker, t, until).d);
  }

  lemma SweepMarks(d: Diagnosis, now: nat, a: nat)
    requires MarksOk(d)
    ensures MarksOk(RecoverStaleAttempt(d, now, a).d) && StatusOnly(d, RecoverStaleAttempt(d, now, a).d)
  {
    MarksStay(d, RecoverStaleAttempt(d, now, a).d);
  }

  lemma CancelMarks(d: Diagnosis)
    requires MarksOk(d)
    ensures MarksOk(RequestCancellation(d).d) && StatusOnly(d, RequestCancellation(d).d)
  {
    MarksStay(d, RequestCancellation(d).d);
  }

  lemma ClaimMarks(d: Diagnosis, now: nat, worker: nat, token: nat, duration: nat)
    requires MarksOk(d)
    ensures MarksOk(ClaimJob(d, now, worker, token, duration).d)
  {
    MarksStay(d, ClaimJob(d, now, worker, token, duration).d);
  }

  lemma StartMarks(d: Diagnosis, now: nat, c: Claim)
    requires MarksOk(d)
    ensures MarksOk(MarkExecutionStarted(d, now, c).d)
  {
    MarksStay(d, MarkExecutionStarted(d, now, c).d);
  }

  lemma NewGenerationMarks(d: Diagnosis, now: nat)
    requires MarksOk(d) && AttemptsOk(d)
    ensures MarksOk(d.(job := FreshGeneration(d.job, now), run := Run(RunQueued, false, None)))
  {
    assert forall i :: 0 <= i < |d.attempts| ==> InRange(d, d.attempts[i]) && MarkOk(d, d.attempts[i]);
    MarksStay(d, d.(job := FreshGeneration(d.job, now), run := Run(RunQueued, false, None)));
  }

  /* ----- steps that move no handler ----- */

  lemma RowStepKeepsSafe(s: Sys, step: Step)
    requires CoreInv(s) && SafeInv(s) && CoreInv(Apply(s, step))
    requires step.ReturnStep? || step.RenewStep? || step.ReapStep? || step.SweepStep? || step.CancelStep?
    ensures SafeInv(Apply(s, step))
  {
    hide SafeInv;
    var e := Apply(s, step);
    RowStepMarks(s, step);
    StatusKeepsSafe(s, e);
  }

  lemma RowStepMarks(s: Sys, step: Step)
    requires CoreInv(s) && SafeInv(s) && CoreInv(Apply(s, step))
    requires step.ReturnStep? || step.RenewStep? || step.ReapStep? || step.SweepStep? || step.CancelStep?
    ensures MarksOk(Apply(s, step).d) && StatusOnly(s.d, Apply(s, step).d)
    ensures Apply(s, step).hs == s.hs && Apply(s, step).calls == s.calls
    ensures forall u :: u in s.hs ==> Calm(s.d, Apply(s, step).d, u)
  {
    hide HandlersOk, ClaimsOk, AttemptsOk, SuccessOk, MarksOk, EffectsOk, HandlersSafe, OneInFlight, StatusOnly;
    StatusSelf(s.d);
    match step
    case ReturnStep(t) => if t in s.claims { ReturnMarks(s.d, Claim(s.claims[t].worker, t, s.claims[t].gen)); }
    case RenewStep(t, until) => if t in s.claims { RenewMarks(s.d, s.now, s.claims[t].worker, t, until); }
    case ReapStep(nextRun) => ReapMarks(s.d, s.now, nextRun); ReapStatusOnly(s.d, s.now, nextRun);
    case SweepStep(a) => SweepMarks(s.d, s.now, a);
    case CancelStep => CancelMarks(s.d);
  }

  lemma StatusSelf(d: Diagnosis)
    ensures StatusOnly(d, d)
  {
  }

  lemma OwnershipStepKeepsSafe(s: Sys, step: Step)
    requires CoreInv(s) && SafeInv(s) && CoreInv(Apply(s, step))
    requires step.Tick? || step.ClaimStep? || step.StartStep? || step.RequeueStep? || step.RetryStep?
    ensures SafeInv(Apply(s, step))
  {
    hide SafeInv, HandlersOk, SuccessOk, AttemptsOk, JobOk, StatusOnly, MarksOk;
    var e := Apply(s, step);
    OwnershipStepMarks(s, step);
    OwnershipStepCalm(s, step);
    StatusKeepsSafe(s, e);
  }

  lemma OwnershipStepMarks(s: Sys, step: Step)
    requires CoreInv(s) && SafeInv(s)
    requires step.Tick? || step.ClaimStep? || step.StartStep? || step.RequeueStep? || step.RetryStep?
    ensures MarksOk(Apply(s, step).d) && StatusOnly(s.d, Apply(s, step).d)
    ensures Apply(s, step).hs == s.hs && Apply(s, step).calls == s.calls
  {
    hide MarksOk, AttemptsOk, EffectsOk, HandlersSafe, OneInFlight, HandlersOk, ClaimsOk, SuccessOk, JobOk;
    match step
    case Tick(_) =>
    case ClaimStep(worker, duration, skip) => ClaimMarks(s.d, s.now, worker, s.next + skip, duration);
    case StartStep(t) => if t in s.claims { StartMarks(s.d, s.now, Claim(s.claims[t].worker, t, s.claims[t].gen)); }
    case RequeueStep => NewGenerationMarks(s.d, s.now);
    case RetryStep => NewGenerationMarks(s.d, s.now);
  }

  lemma OwnershipStepCalm(s: Sys, step: Step)
    requires CoreInv(s)
    requires step.Tick? || step.ClaimStep? || step.StartStep? || step.RequeueStep? || step.RetryStep?
    ensures forall u :: u in s.hs ==> Calm(s.d, Apply(s, step).d, u)
  {
    hide CoreInv, Calm, Apply;
    forall u | u in s.hs ensures Calm(s.d, Apply(s, step).d, u) {
      TokenTaken(s, u);
      OwnershipCalm(s, step, u);
    }
  }

  lemma TokenTaken(s: Sys, u: nat)
    requires CoreInv(s) && u in s.hs
    ensures u < s.next
  {
    assert HandlerOk(s, u) && ClaimOk(s, u);
  }

  lemma OwnershipCalm(s: Sys, step: Step, u: nat)
    requires u < s.next && (step.Tick? || step.ClaimStep? || step.StartStep? || step.RequeueStep? || step.RetryStep?)
    ensures Calm(s.d, Apply(s, step).d, u)
  {
  }

  /* ----- one handler against the others ----- */

  /** Nothing that handler u relies on changed between s and e. */
  ghost predicate Undisturbed(s: Sys, e: Sys, u: nat)
    requires u in s.hs
  {
    var h := s.hs[u];
    && u in e.hs && e.hs[u] == h && Calm(s.d, e.d, u) && Kept(s.d, e.d)
    && (forall i | 0 <= i < |e.d.attempts| && e.d.attempts[i].gen == h.gen && e.d.attempts[i].no == h.no ::
          i < |s.d.attempts| && e.d.attempts[i] == s.d.attempts[i])
    && (h.at.Some? ==>
          (forall k | 0 <= k < h.at.value && k < |s.d.attempts| && s.d.attempts[k].gen == h.gen ::
             FinalCheckpoint(e.d.attempts[k]) ==> FinalCheckpoint(s.d.attempts[k]))
          && (h.at.value in Effects(e.calls) ==> h.at.value in Effects(s.calls)))
    && Effects(s.calls) <= Effects(e.calls)
    && (InFlight(h.phase) ==>
          forall x | x in Effects(e.calls) && x < |e.d.attempts| ::
            e.d.attempts[x].gen == h.gen ==> x in Effects(s.calls) && x < |s.d.attempts|)
  }

  lemma UndisturbedReturn(s: Sys, e: Sys, u: nat, ret: Ret)
    requires u in s.hs && Undisturbed(s, e, u) && RetSafe(s, u, s.hs[u], ret)
    ensures RetSafe(e, u, s.hs[u], ret)
  {
  }

  lemma UndisturbedRow(s: Sys, e: Sys, u: nat)
    requires u in s.hs && HandlerOk(s, u) && Undisturbed(s, e, u) && s.hs[u].at.Some?
    requires NeedsAttempt(s.hs[u].phase) && RowSafe(s, s.hs[u].at.value, s.hs[u].phase)
    ensures RowSafe(e, s.hs[u].at.value, s.hs[u].phase)
  {
    var a := s.hs[u].at.value;
    assert forall k | 0 <= k < |s.d.attempts| :: SameIdentity(s.d.attempts[k], e.d.attempts[k]);
    assert e.d.attempts[a] == s.d.attempts[a];
  }

  lemma UndisturbedStaysSafe(s: Sys, e: Sys, u: nat)
    requires u in s.hs && HandlerOk(s, u) && HandlerSafe(s, u) && Undisturbed(s, e, u) && HandlerOk(e, u)
    ensures HandlerSafe(e, u)
  {
    hide RowSafe, HandlerOk;
    HandlerRange(s, u);
    HandlerRange(e, u);
    var p := s.hs[u].phase;
    if p.Returned? || p.Unsettled? {
      UndisturbedReturn(s, e, u, p.ret);
    } else if NeedsAttempt(p) {
      UndisturbedRow(s, e, u);
    }
  }

  lemma HandlerRange(s: Sys, t: nat)
    requires t in s.hs && HandlerOk(s, t)
    ensures s.hs[t].at.Some? ==> s.hs[t].at.value < |s.d.attempts|
    ensures NeedsAttempt(s.hs[t].phase) ==> s.hs[t].at.Some?
  {
  }

  /** Only handler t moved; the shared facts and its own are re-established. */
  lemma OthersStaySafe(s: Sys, e: Sys, t: nat)
    requires CoreInv(s) && SafeInv(s) && CoreInv(e) && MarksOk(e.d) && EffectsOk(e) && OneInFlight(e)
    requires forall u :: u in e.hs && u != t ==> u in s.hs && Undisturbed(s, e, u)
    requires t in e.hs ==> HandlerSafe(e, t)
    ensures SafeInv(e)
  {
    hide MarksOk, EffectsOk, OneInFlight, HandlerSafe, HandlerOk, Undisturbed, JobOk, ClaimsOk, SuccessOk, AttemptsOk;
    forall u | u in e.hs && u != t ensures HandlerSafe(e, u) {
      UndisturbedStaysSafe(s, e, u);
    }
  }
}
