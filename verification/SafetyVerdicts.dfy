/** Verdicts and the safety facts: the handler's own finalizers and the worker's generic ones. */
module SafetyVerdicts {
  import opened Rows
  import opened Transactions
  import opened Handlers
  import opened Protocol
  import opened Core
  import opened CoreSteps
  import opened Safety
  import opened SafetySteps
  import opened SafetyMoves

  /** Handler t moves together with a change of job, run and statuses. */
  lemma StatusMoveKeepsSafe(s: Sys, t: nat, e: Diagnosis, p: Phase)
    requires CoreInv(s) && SafeInv(s) && t in s.hs && CoreInv(Move(s, t, e, p))
    requires Sound(s.d, e, s.next) && StatusOnly(s.d, e) && MarksOk(e)
    requires (s.hs[t].at.Some? ==> s.hs[t].at.value < |e.attempts|) && (NeedsAttempt(p) ==> s.hs[t].at.Some?)
    requires PhaseSafe(s.(d := e), t, s.hs[t], p) && !InFlight(p)
    ensures SafeInv(Move(s, t, e, p))
  {
    hide *;
    QuietKeeps(s, e);
    StatusKeepsSafe(s, s.(d := e));
    MoveTwice(s, t, e, p);
    MoveKeepsSafe(s.(d := e), t, p);
  }

  lemma QuietKeeps(s: Sys, e: Diagnosis)
    requires CoreInv(s) && Sound(s.d, e, s.next)
    ensures CoreInv(s.(d := e))
    ensures forall u :: u in s.hs ==> Calm(s.d, e, u)
  {
    hide CoreInv, JobOk, SuccessOk;
    QuietKeepsCore(s, e);
  }

  /** The rows either stayed, or one attempt closed together with a terminal verdict. */
  predicate Verdict(d: Diagnosis, e: Diagnosis, a: nat) {
    e == d
    || (a < |d.attempts| && |e.attempts| == |d.attempts|
        && e.attempts == d.attempts[a := d.attempts[a].(status := e.attempts[a].status)]
        && TerminalJob(e.job.status) && e.job.gen == d.job.gen && e.job.count == d.job.count)
  }

  lemma VerdictMarks(d: Diagnosis, e: Diagnosis, a: nat)
    requires MarksOk(d) && Verdict(d, e, a)
    requires e != d && e.job.status.Succeeded? ==>
      forall i | 0 <= i < |d.attempts| && d.attempts[i].gen == d.job.gen :: !d.attempts[i].unresolved
    ensures MarksOk(e) && StatusOnly(d, e)
  {
    hide MarksOk;
    if e != d {
      if e.job.status.Succeeded? { ClearMarks(d, e); } else { TerminalMarks(d, e); }
    }
  }

  /** A committed verdict ends the claim, so whatever the handler returns is harmless. */
  lemma VerdictKeepsSafe(s: Sys, t: nat, e: Diagnosis, p: Phase)
    requires CoreInv(s) && SafeInv(s) && At(s, t) && CoreInv(Move(s, t, e, p)) && Sound(s.d, e, s.next)
    requires Verdict(s.d, e, s.hs[t].at.value) && !InFlight(p)
    requires if e == s.d then PhaseSafe(s, t, s.hs[t], p) else Harmless(s, t, p)
    requires e != s.d && e.job.status.Succeeded? ==> Live(s.d, t) && Clear(s.d, s.hs[t].gen, s.hs[t].no)
    ensures SafeInv(Move(s, t, e, p))
  {
    hide CoreInv, SafeInv, Sound, MarksOk, PhaseSafe, Backed, Clear;
    SafeHolds(s, t);
    if e == s.d {
      MoveKeepsSafe(s, t, p);
    } else {
      CoreHolds(s, t);
      if e.job.status.Succeeded? { UnmarkedGeneration(s.d, s.hs[t].gen, s.hs[t].no); }
      VerdictMarks(s.d, e, s.hs[t].at.value);
      if Backed(s, s.hs[t].gen, s.hs[t].no) { BackedStays(s, e, s.hs[t].gen, s.hs[t].no); }
      HarmlessSafe(s, t, e, p);
      StatusMoveKeepsSafe(s, t, e, p);
    }
  }

  /** What a handler may return once its claim has ended. */
  predicate Harmless(s: Sys, t: nat, p: Phase)
    requires t in s.hs
  {
    (p.Returned? || p.Unsettled?)
    && match p.ret
       case RetShutdown => false
       case RetPolicy(cls, code, _) =>
         if code.ProviderOutcomeUnknown? then cls.Permanent? else Backed(s, s.hs[t].gen, s.hs[t].no)
       case _ => true
  }

  lemma HarmlessSafe(s: Sys, t: nat, e: Diagnosis, p: Phase)
    requires At(s, t) && Harmless(s, t, p) && s.hs[t].at.value < |e.attempts| && !e.job.status.Running?
    requires Backed(s, s.hs[t].gen, s.hs[t].no) ==> Backed(s.(d := e), s.hs[t].gen, s.hs[t].no)
    ensures PhaseSafe(s.(d := e), t, s.hs[t], p)
  {
    hide Backed;
  }

  lemma RefusedIsDead(s: Sys, t: nat, checkGen: bool, cancellation: bool)
    requires CoreInv(s) && At(s, t)
    ensures LockExecution(s.d, ClaimOf(s.hs[t], t), checkGen, s.hs[t].at.value, cancellation) == OwnershipLost ==>
      !Live(s.d, t)
  {
    CoreHolds(s, t);
  }

  lemma FailureShape(d: Diagnosis, c: Claim, a: nat, cls: ErrorClass, code: ErrorCode)
    requires a < |d.attempts|
    ensures var tx := FinalizeDiagnosisFailure(d, c, a, cls, code);
      && Verdict(d, tx.d, a) && (tx.d == d || !tx.d.job.status.Succeeded?)
      && (tx.err == Ok || tx.d == d)
      && tx.err == (if cls.OwnershipClass? then Rejected else LockExecution(d, c, true, a, false))
  {
    hide LockExecution;
  }

  lemma TerminateKeepsSafe(s: Sys, t: nat, reply: Reply)
    requires CoreInv(s) && SafeInv(s) && At(s, t) && s.hs[t].phase.Terminating? && CoreInv(DoFinalize(s, t, reply))
    ensures SafeInv(DoFinalize(s, t, reply))
  {
    hide CoreInv, SafeInv, MarksOk, Sound, HandlerOk, Effects, Backed, Clear, RowsOk, JobOk, LockExecution, OneInFlight,
      EffectsOk, FinalizeDiagnosisFailure, Verdict;
    var h := s.hs[t];
    var tx := FinalizeDiagnosisFailure(s.d, ClaimOf(h, t), h.at.value, h.phase.cls, h.phase.code);
    SafeHolds(s, t);
    CoreHolds(s, t);
    FinalizeFailureSound(s.d, s.next, ClaimOf(h, t), h.at.value, h.phase.cls, h.phase.code);
    SelfSound(s.d, s.next);
    RefusedIsDead(s, t, true, false);
    FailureShape(s.d, ClaimOf(h, t), h.at.value, h.phase.cls, h.phase.code);
    NoVerdict(s.d, h.at.value);
    if !h.phase.code.ProviderOutcomeUnknown? { OwnBacked(s, t); }
    VerdictKeepsSafe(s, t, Committed(s, tx, reply), DoFinalize(s, t, reply).hs[t].phase);
  }

  lemma NoVerdict(d: Diagnosis, a: nat)
    ensures Verdict(d, d, a)
  {
  }

  lemma BackedStays(s: Sys, e: Diagnosis, gen: nat, no: nat)
    requires Backed(s, gen, no) && StatusOnly(s.d, e)
    ensures Backed(s.(d := e), gen, no)
  {
    assert forall i :: 0 <= i < |s.d.attempts| ==> SameMarks(s.d.attempts[i], e.attempts[i]);
  }

  lemma ClearStays(d: Diagnosis, e: Diagnosis, gen: nat, no: nat)
    requires Clear(d, gen, no) && StatusOnly(d, e)
    ensures Clear(e, gen, no)
  {
    assert forall i :: 0 <= i < |d.attempts| ==> SameMarks(d.attempts[i], e.attempts[i]);
  }

  lemma InvalidateKeepsSafe(s: Sys, t: nat, reply: Reply)
    requires CoreInv(s) && SafeInv(s) && At(s, t) && s.hs[t].phase.Invalidating? && CoreInv(DoFinalize(s, t, reply))
    ensures SafeInv(DoFinalize(s, t, reply))
  {
    hide CoreInv, SafeInv, MarksOk, Sound, HandlerOk, Effects, Backed, Clear, RowsOk, JobOk, LockExecution, OneInFlight,
      EffectsOk;
    var h := s.hs[t];
    var tx := FinalizeInvalidReport(s.d, ClaimOf(h, t), h.at.value);
    SafeHolds(s, t);
    CoreHolds(s, t);
    FinalizeInvalidSound(s.d, s.next, ClaimOf(h, t), h.at.value);
    SelfSound(s.d, s.next);
    RefusedIsDead(s, t, false, false);
    OwnBacked(s, t);
    VerdictKeepsSafe(s, t, Committed(s, tx, reply), DoFinalize(s, t, reply).hs[t].phase);
  }

  lemma SucceedKeepsSafe(s: Sys, t: nat, reply: Reply)
    requires CoreInv(s) && SafeInv(s) && At(s, t) && s.hs[t].phase.Succeeding? && CoreInv(DoFinalize(s, t, reply))
    ensures SafeInv(DoFinalize(s, t, reply))
  {
    hide CoreInv, SafeInv, MarksOk, Sound, HandlerOk, Effects, Backed, Clear, RowsOk, JobOk, LockExecution, OneInFlight,
      EffectsOk;
    var h := s.hs[t];
    var tx := FinalizeSuccess(s.d, ClaimOf(h, t), h.at.value);
    SafeHolds(s, t);
    CoreHolds(s, t);
    FinalizeSuccessSound(s.d, s.next, ClaimOf(h, t), h.at.value);
    SelfSound(s.d, s.next);
    RefusedIsDead(s, t, false, false);
    RefusalTrue(s, t, LockExecution(s.d, ClaimOf(h, t), false, h.at.value, false));
    OwnClear(s, t);
    VerdictKeepsSafe(s, t, Committed(s, tx, reply), DoFinalize(s, t, reply).hs[t].phase);
  }

  lemma RetryAttemptKeepsSafe(s: Sys, t: nat, reply: Reply)
    requires CoreInv(s) && SafeInv(s) && At(s, t) && s.hs[t].phase.Retrying? && CoreInv(DoFinalize(s, t, reply))
    ensures SafeInv(DoFinalize(s, t, reply))
  {
    hide CoreInv, SafeInv, MarksOk, Sound, HandlerOk, Effects, Backed, Clear, RowsOk, JobOk, LockExecution;
    var h := s.hs[t];
    var tx := FinalizeRetryableAttempt(s.d, ClaimOf(h, t), h.at.value);
    var e := Committed(s, tx, reply);
    SafeHolds(s, t);
    CoreHolds(s, t);
    RetryRowSound(s.d, s.next, ClaimOf(h, t), h.at.value);
    SelfSound(s.d, s.next);
    RefusedIsDead(s, t, true, false);
    OwnClear(s, t);
    ClearStays(s.d, e, h.gen, h.no);
    StatusMoveKeepsSafe(s, t, e, DoFinalize(s, t, reply).hs[t].phase);
  }

  lemma RetryRowSound(d: Diagnosis, next: nat, c: Claim, a: nat)
    requires RowsOk(d, next) && MarksOk(d) && a < |d.attempts| && !d.attempts[a].unresolved
    ensures Sound(d, FinalizeRetryableAttempt(d, c, a).d, next) && MarksOk(FinalizeRetryableAttempt(d, c, a).d)
  {
    hide RowsOk, Sound;
    SelfSound(d, next);
    if FinalizeRetryableAttempt(d, c, a).err == Ok {
      SetRowSound(d, next, a, d.attempts[a].(status := AttemptFailedRetryable));
      MarksStay(d, FinalizeRetryableAttempt(d, c, a).d);
    }
  }

  lemma CancellationKeepsSafe(s: Sys, t: nat, reply: Reply)
    requires CoreInv(s) && SafeInv(s) && At(s, t) && s.hs[t].phase.Cancelling? && CoreInv(DoFinalize(s, t, reply))
    ensures SafeInv(DoFinalize(s, t, reply))
  {
    hide CoreInv, SafeInv, MarksOk, Sound, HandlerOk, Effects, Backed, Clear, RowsOk, JobOk, LockExecution, OneInFlight,
      EffectsOk;
    var h := s.hs[t];
    var tx := FinalizeCancellation(s.d, ClaimOf(h, t), h.at.value);
    SafeHolds(s, t);
    CoreHolds(s, t);
    CancellingSeen(s, t);
    FinalizeCancellationSound(s.d, s.next, ClaimOf(h, t), h.at.value);
    SelfSound(s.d, s.next);
    RefusedIsDead(s, t, false, true);
    VerdictKeepsSafe(s, t, Committed(s, tx, reply), DoFinalize(s, t, reply).hs[t].phase);
  }

  lemma CancellingSeen(s: Sys, t: nat)
    requires t in s.hs && HandlerOk(s, t) && s.hs[t].phase.Cancelling?
    ensures Live(s.d, t) ==> s.d.job.cancel
  {
  }

  lemma FinalizeKeepsSafe(s: Sys, t: nat, reply: Reply)
    requires CoreInv(s) && SafeInv(s) && CoreInv(DoFinalize(s, t, reply))
    ensures SafeInv(DoFinalize(s, t, reply))
  {
    hide CoreInv, SafeInv;
    if At(s, t) {
      match s.hs[t].phase {
        case Terminating(_, _, _) => TerminateKeepsSafe(s, t, reply);
        case Invalidating => InvalidateKeepsSafe(s, t, reply);
        case Succeeding => SucceedKeepsSafe(s, t, reply);
        case Retrying(_) => RetryAttemptKeepsSafe(s, t, reply);
        case Cancelling => CancellationKeepsSafe(s, t, reply);
        case _ =>
      }
    }
  }

  /* ----- the worker's generic finalizers ----- */

  lemma CloseCancelStatus(d: Diagnosis, worker: nat, token: nat)
    ensures StatusOnly(d, ConditionalFinalizeCancel(d, worker, token).d)
  {
    CloseRunningRows(d.attempts, d.job.gen, None, AttemptAbandoned);
  }

  lemma CloseFailureStatus(d: Diagnosis, worker: nat, token: nat, dec: Decision, nextRun: nat)
    requires dec.CloseFailure?
    ensures
      var tx := ConditionalFinalizeFailure(d, worker, token, dec.cls, dec.code, dec.reason, dec.terminal, nextRun);
      StatusOnly(d, tx.d)
  {
    CloseCancelStatus(d, worker, token);
    CloseRunningRows(d.attempts, d.job.gen, None, AttemptFailedTerminal);
  }

  lemma CloseStatus(s: Sys, t: nat, nextRun: nat)
    requires CoreInv(s) && t in s.hs && s.hs[t].phase.Closing? && !s.hs[t].phase.decision.Leave?
    ensures StatusOnly(s.d, CloseTx(s, s.hs[t], t, s.hs[t].phase.decision, nextRun).d)
  {
    hide StatusOnly, CoreInv, ConditionalFinalizeCancel, ConditionalFinalizeFailure;
    var h := s.hs[t];
    CoreHolds(s, t);
    StatusSelf(s.d);
    match h.phase.decision
    case CloseSuccess =>
    case CloseCancel => CloseCancelStatus(s.d, h.worker, t);
    case CloseFailure(_, _, _, _) => CloseFailureStatus(s.d, h.worker, t, h.phase.decision, nextRun);
  }

  /** The generic finalizers either reach a verdict or schedule a retry that repeats nothing. */
  lemma CloseMarks(s: Sys, t: nat, nextRun: nat)
    requires CoreInv(s) && SafeInv(s) && t in s.hs && s.hs[t].phase.Closing? && !s.hs[t].phase.decision.Leave?
    ensures MarksOk(CloseTx(s, s.hs[t], t, s.hs[t].phase.decision, nextRun).d)
  {
    hide StatusOnly, CoreInv, SafeInv, CloseRunning, MarksOk, LatestAttempt;
    var h := s.hs[t];
    var e := CloseTx(s, h, t, h.phase.decision, nextRun).d;
    CloseStatus(s, t, nextRun);
    SafeHolds(s, t);
    CoreHolds(s, t);
    if e == s.d {
    } else if TerminalJob(e.job.status) {
      TerminalMarks(s.d, e);
    } else {
      UnmarkedGeneration(s.d, h.gen, h.no);
      ClearMarks(s.d, e);
    }
  }

  lemma UnmarkedGeneration(d: Diagnosis, gen: nat, no: nat)
    requires MarksOk(d) && Clear(d, gen, no) && gen == d.job.gen && no == d.job.count
    ensures forall i | 0 <= i < |d.attempts| && d.attempts[i].gen == d.job.gen :: !d.attempts[i].unresolved
  {
    forall i | 0 <= i < |d.attempts| && d.attempts[i].gen == d.job.gen ensures !d.attempts[i].unresolved {
      assert MarkOk(d, d.attempts[i]);
    }
  }

  lemma CloseKeepsSafe(s: Sys, t: nat, reply: Reply, nextRun: nat, stop: bool)
    requires CoreInv(s) && SafeInv(s) && CoreInv(DoClose(s, t, reply, nextRun, stop))
    ensures SafeInv(DoClose(s, t, reply, nextRun, stop))
  {
    hide CoreInv, SafeInv, MarksOk, Sound, CloseTx, RowsOk, JobOk, StatusOnly, Clear;
    if t in s.hs && s.hs[t].phase.Closing? && !s.hs[t].phase.decision.Leave? {
      var h := s.hs[t];
      var e := Committed(s, CloseTx(s, h, t, h.phase.decision, nextRun), reply);
      SafeHolds(s, t);
      CoreHolds(s, t);
      CloseTxSound(s, t, nextRun);
      SelfSound(s.d, s.next);
      StatusSelf(s.d);
      CloseMarks(s, t, nextRun);
      CloseStatus(s, t, nextRun);
      StatusLength(s.d, e);
      QuietKeeps(s, e);
      if Clear(s.d, h.gen, h.no) { ClearStays(s.d, e, h.gen, h.no); }
      StatusMoveKeepsSafe(s, t, e, DoClose(s, t, reply, nextRun, stop).hs[t].phase);
    }
  }

  lemma StatusLength(d: Diagnosis, e: Diagnosis)
    requires StatusOnly(d, e)
    ensures |e.attempts| == |d.attempts|
  {
  }
}
