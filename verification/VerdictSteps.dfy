/** Every step of every run keeps what the verdicts rest on. */
module VerdictSteps {
  import opened Rows
  import opened Transactions
  import opened Handlers
  import opened Protocol
  import opened Core
  import opened Markers
  import opened MarkerSteps
  import opened Safety
  import opened SafetySteps
  import opened SafetyVerdicts
  import opened Runs
  import opened Verdicts

  lemma SelfKinds(d: Diagnosis)
    ensures KindsKept(d, d)
  {
  }

  lemma StatusKinds(d: Diagnosis, e: Diagnosis)
    requires StatusOnly(d, e) && e.reports == d.reports
    requires e.run.status.RunSucceeded? ==> d.run.status.RunSucceeded? && e.run.final == d.run.final
    ensures KindsKept(d, e)
  {
    assert forall i | 0 <= i < |d.attempts| :: SameMarks(d.attempts[i], e.attempts[i]);
  }

  /* ----- steps that move no handler ----- */

  lemma UserJudged(s: Sys, step: Step)
    requires step.Tick? || step.CancelStep? || step.RequeueStep? || step.RetryStep? || step.SweepStep?
    requires JobJudged(s.d.job)
    ensures var e := Apply(s, step).d;
      JobJudged(e.job) && e.reports == s.d.reports
      && (e.run.status.RunSucceeded? ==> s.d.run.status.RunSucceeded? && e.run.final == s.d.run.final)
  {
  }

  lemma ClaimJudged(s: Sys, step: Step)
    requires step.ClaimStep? || step.StartStep? || step.ReturnStep? || step.RenewStep?
    requires JobJudged(s.d.job)
    ensures var e := Apply(s, step).d; JobJudged(e.job) && e.reports == s.d.reports && e.run == s.d.run
  {
  }

  lemma ReapJudged(d: Diagnosis, now: nat, nextRun: nat)
    requires JobJudged(d.job) && d.job.count <= d.job.max == MAX_ATTEMPTS
    ensures var e := ReapExpired(d, now, nextRun).d;
      JobJudged(e.job) && e.reports == d.reports
      && (e.run.status.RunSucceeded? ==> d.run.status.RunSucceeded? && e.run.final == d.run.final)
  {
    hide CloseRunning, FindAttempt, LatestAttempt;
  }

  lemma RowStepJudged(s: Sys, step: Step)
    requires CoreInv(s) && MarkInv(s) && VerdictInv(s)
    requires Bearer(step).None? || step.StartStep? || step.ReturnStep? || step.RenewStep?
    ensures VerdictInv(Apply(s, step))
  {
    hide JobJudged, StatusOnly, Tame, ReapExpired, RowsJudged, Told, RowsMarked, HandlersOk, ClaimsOk, AttemptsOk,
      SuccessOk;
    var e := Apply(s, step);
    if step.ReapStep? {
      ReapJudged(s.d, s.now, step.nextRun);
      ReapStatusOnly(s.d, s.now, step.nextRun);
    } else if step.ClaimStep? || step.ReturnStep? || step.RenewStep? {
      ClaimTame(s, step);
      ClaimJudged(s, step);
    } else if step.StartStep? {
      StartMarked(s, step.t);
      ClaimJudged(s, step);
    } else {
      if step.SweepStep? { SweepTame(s, step.a); } else { UserTame(s, step); }
      UserJudged(s, step);
    }
    StatusKinds(s.d, e.d);
    SameHandlers(s, step);
    KeepsVerdicts(s, e, s.next);
  }

  lemma SameHandlers(s: Sys, step: Step)
    requires CoreInv(s) && (Bearer(step).None? || step.StartStep? || step.ReturnStep? || step.RenewStep?)
    ensures Apply(s, step).hs == s.hs && s.next !in s.hs
  {
    hide CoreInv, ReapExpired, RecoverStaleAttempt, RequestCancellation, ManualRequeue, RetryDiagnosis,
      MarkExecutionStarted, ReturnUndispatchedClaim, RenewLease, ClaimJob;
    FreshToken(s);
  }

  /* ----- local moves of a handler ----- */

  lemma ContextTold(s: Sys, step: Step)
    requires (step.LaunchStep? || step.CauseStep?) && (step.t in s.hs ==> Told(s.d.attempts, s.hs[step.t]))
    ensures var e := Apply(s, step); step.t in e.hs ==> Told(e.d.attempts, e.hs[step.t])
  {
  }

  /** The newest final checkpoint of a generation is valid only if none before it is invalid. */
  lemma LoadTold(s: Sys, t: nat, ok: bool, compatible: bool, sound: bool)
    requires At(s, t) && s.hs[t].phase.Loading? && RowsJudged(s.d) && s.hs[t].gen == s.d.attempts[s.hs[t].at.value].gen
    ensures Told(s.d.attempts, DoLoad(s, t, ok, compatible, sound).hs[t])
  {
    var latest := LatestFinalCheckpoint(s.d.attempts, s.hs[t].gen);
    var a := s.hs[t].at.value;
    if latest.None? {
      assert NoneFinalBefore(s.d.attempts, a);
    } else if s.d.attempts[latest.value].kind.FinalValid? {
      forall k | 0 <= k < a && s.d.attempts[k].gen == s.hs[t].gen ensures !s.d.attempts[k].kind.FinalInvalid? {
        assert s.d.attempts[k].kind.FinalInvalid? ==> FinalCheckpoint(s.d.attempts[k]);
      }
    }
  }

  lemma WorkTold(s: Sys, step: Step, t: nat)
    requires Bearer(step) == Some(t) && At(s, t) && Told(s.d.attempts, s.hs[t])
    requires step.CheckStep? || step.CallStep? || step.EndStep? || step.InspectStep?
    ensures var e := Apply(s, step); e.d == s.d && t in e.hs && Told(s.d.attempts, e.hs[t])
  {
    hide CheckDispatchAuthority;
  }

  lemma RouteTold(s: Sys, step: Step, t: nat)
    requires Bearer(step) == Some(t) && t in s.hs && Told(s.d.attempts, s.hs[t]) && s.d.job.max == MAX_ATTEMPTS
    requires step.EnterStep? || step.RouteStep? || step.DivertStep?
    ensures var e := Apply(s, step); e.d == s.d && t in e.hs && Told(s.d.attempts, e.hs[t])
  {
    hide NoneFinalBefore, NoneInvalidBefore;
  }

  lemma DecideTold(s: Sys, step: Step, t: nat)
    requires Bearer(step) == Some(t) && t in s.hs && Told(s.d.attempts, s.hs[t]) && s.d.job.max == MAX_ATTEMPTS
    requires step.ResolveStep? || step.DecideStep?
    ensures var e := Apply(s, step); e.d == s.d && t in e.hs && Told(s.d.attempts, e.hs[t])
  {
    hide NoneFinalBefore, NoneInvalidBefore;
  }

  lemma LocalJudged(s: Sys, step: Step, t: nat)
    requires CoreInv(s) && MarkInv(s) && VerdictInv(s) && Bearer(step) == Some(t)
    requires !(step.AttemptStep? || step.BeginStep? || step.SettleStep? || step.SaveStep? || step.FinalizeStep?
               || step.CloseStep? || step.StartStep? || step.ReturnStep? || step.RenewStep?)
    ensures VerdictInv(Apply(s, step))
  {
    hide Told, RowsJudged, JobJudged, KindsKept, AttemptsOk, SuccessOk, ClaimsOk, RowPhase;
    var e := Apply(s, step);
    if e == s {
    } else if step.LaunchStep? || step.CauseStep? {
      ContextTold(s, step);
    } else {
      assert t in s.hs && HandlerOk(s, t);
      if step.LoadStep? {
        LoadTold(s, t, step.ok, step.compatible, step.sound);
      } else if step.CheckStep? || step.CallStep? || step.EndStep? || step.InspectStep? {
        WorkTold(s, step, t);
      } else if step.ResolveStep? || step.DecideStep? {
        DecideTold(s, step, t);
      } else {
        RouteTold(s, step, t);
      }
    }
    SelfKinds(s.d);
    LocalRows(s, step);
    BearerOnly(s, step, t);
    KeepsVerdicts(s, e, t);
  }

  lemma BearerOnly(s: Sys, step: Step, t: nat)
    requires Bearer(step) == Some(t)
    ensures forall u :: u in Apply(s, step).hs && u != t ==> u in s.hs && Apply(s, step).hs[u] == s.hs[u]
  {
    hide Apply;
    BearerMoves(s, step, t);
  }

  lemma LocalRows(s: Sys, step: Step)
    requires Bearer(step).Some?
    requires !(step.AttemptStep? || step.BeginStep? || step.SettleStep? || step.SaveStep? || step.FinalizeStep?
               || step.CloseStep? || step.StartStep? || step.ReturnStep? || step.RenewStep?)
    ensures Apply(s, step).d == s.d
  {
    hide CheckDispatchAuthority, LatestFinalCheckpoint, Decide;
  }

  /* ----- transactions of a handler ----- */

  /** A step that keeps the job and every checkpoint, and leaves handler t with a true belief. */
  predicate Harmless(s: Sys, e: Sys, t: nat) {
    && t in e.hs && e.hs == s.hs[t := e.hs[t]] && e.d.job == s.d.job && KindsKept(s.d, e.d)
    && Told(e.d.attempts, e.hs[t])
  }

  lemma HarmlessJudged(s: Sys, e: Sys, t: nat)
    requires CoreInv(s) && VerdictInv(s) && Harmless(s, e, t)
    ensures VerdictInv(e)
  {
    hide CoreInv, RowsJudged, JobJudged, KindsKept, Told;
    KeepsVerdicts(s, e, t);
  }

  lemma AttemptHarmless(s: Sys, t: nat, reply: Reply)
    requires t in s.hs && s.hs[t].phase.Entered?
    ensures Harmless(s, DoAttempt(s, t, reply), t)
  {
    hide LockLiveJob;
  }

  lemma BeginHarmless(s: Sys, t: nat, reply: Reply, again: bool)
    requires At(s, t) && s.hs[t].phase.Idle? && Told(s.d.attempts, s.hs[t])
    ensures Harmless(s, DoBegin(s, t, reply, again), t)
  {
    hide LockLiveExecution, NoneFinalBefore, NoneInvalidBefore;
    ToldStays(s.d.attempts, DoBegin(s, t, reply, again).d.attempts, s.hs[t]);
  }

  lemma SettleKeepsKinds(s: Sys, t: nat, reply: Reply, again: bool)
    requires At(s, t) && s.hs[t].phase.Answered?
    ensures var e := DoSettle(s, t, reply, again);
      && e.d.job == s.d.job && KindsKept(s.d, e.d)
      && forall i | 0 <= i < |s.d.attempts| :: SameKind(s.d.attempts[i], e.d.attempts[i])
  {
    hide LockLiveExecution;
  }

  lemma SettleHarmless(s: Sys, t: nat, reply: Reply, again: bool)
    requires At(s, t) && s.hs[t].phase.Answered? && Told(s.d.attempts, s.hs[t])
    ensures Harmless(s, DoSettle(s, t, reply, again), t)
  {
    hide DispatchSucceeded, DispatchFailedDefinitely, DispatchResolves, NoneFinalBefore, NoneInvalidBefore;
    SettleKeepsKinds(s, t, reply, again);
    ToldStays(s.d.attempts, DoSettle(s, t, reply, again).d.attempts, s.hs[t]);
  }

  lemma WriteJudged(s: Sys, step: Step, t: nat)
    requires CoreInv(s) && VerdictInv(s) && Bearer(step) == Some(t)
    requires step.AttemptStep? || step.BeginStep? || step.SettleStep?
    ensures VerdictInv(Apply(s, step))
  {
    hide CoreInv, RowsJudged, JobJudged, Harmless, Told, StartAttempt, BeginProviderDispatch, DispatchSucceeded,
      DispatchFailedDefinitely, DispatchResolves;
    if Apply(s, step) != s {
      if step.AttemptStep? {
        AttemptHarmless(s, t, step.reply);
      } else if step.BeginStep? {
        BeginHarmless(s, t, step.reply, step.again);
      } else {
        SettleHarmless(s, t, step.reply, step.again);
      }
      HarmlessJudged(s, Apply(s, step), t);
    }
  }

  /** Only the newest attempt of the current generation can be locked. */
  lemma LockedIsLast(d: Diagnosis, now: nat, c: Claim, a: nat, no: nat, b: nat)
    requires AttemptsOk(d) && LockLiveExecution(d, now, c, a, no) == Ok && a < b < |d.attempts|
    ensures d.attempts[b].gen != d.attempts[a].gen
  {
    assert Before(d.attempts[a], d.attempts[b]) && InRange(d, d.attempts[b]);
  }

  /** A checkpoint saved on the newest attempt, valid only where no earlier one is invalid. */
  lemma SavedJudged(d: Diagnosis, a: nat, row: Attempt)
    requires RowsJudged(d) && a < |d.attempts| && !d.run.status.RunSucceeded? && row.gen == d.attempts[a].gen
    requires forall b | a < b < |d.attempts| :: d.attempts[b].gen != row.gen
    requires forall k | 0 <= k < |d.reports| :: d.reports[k].attempt != a
    requires (row.kind.FinalValid? ==> NoneInvalidBefore(d.attempts, a)) && (Final(row.kind) ==> row.completed)
    ensures RowsJudged(SetAttempt(d, a, row))
  {
  }

  lemma NoReportYet(d: Diagnosis, a: nat)
    requires SuccessOk(d) && a < |d.attempts| && d.attempts[a].status.AttemptRunning?
    ensures forall k | 0 <= k < |d.reports| :: d.reports[k].attempt != a
  {
  }

  lemma SaveJudged(s: Sys, t: nat, reply: Reply, oversize: bool)
    requires CoreInv(s) && VerdictInv(s)
    ensures VerdictInv(DoSave(s, t, reply, oversize))
  {
    hide LockLiveExecution, RowsJudged, JobJudged, NoneInvalidBefore, Told, HandlersOk, ClaimsOk, SuccessOk, AttemptsOk;
    var e := DoSave(s, t, reply, oversize);
    if At(s, t) && s.hs[t].phase.Judged? {
      SavePhase(s, t, reply, oversize);
      if e.d == s.d {
        SelfKinds(s.d);
        KeepsVerdicts(s, e, t);
      } else {
        SaveRows(s, t, reply, oversize);
        SaveOthers(s, t, reply, oversize);
      }
    }
  }

  lemma SavePhase(s: Sys, t: nat, reply: Reply, oversize: bool)
    requires At(s, t) && s.hs[t].phase.Judged?
    ensures var e := DoSave(s, t, reply, oversize);
      && t in e.hs && e.hs == s.hs[t := e.hs[t]] && e.d.job == s.d.job && Told(e.d.attempts, e.hs[t])
  {
    hide LockLiveExecution;
  }

  lemma SaveRows(s: Sys, t: nat, reply: Reply, oversize: bool)
    requires CoreInv(s) && VerdictInv(s) && At(s, t) && s.hs[t].phase.Judged? && DoSave(s, t, reply, oversize).d != s.d
    ensures RowsJudged(DoSave(s, t, reply, oversize).d)
  {
    hide RowsJudged, JobJudged, NoneInvalidBefore, HandlersOk, ClaimsOk, SuccessOk, AttemptsOk, SetAttempt;
    var h := s.hs[t];
    var a := h.at.value;
    SaveLocked(s, t, reply, oversize);
    forall b | a < b < |s.d.attempts| ensures s.d.attempts[b].gen != s.d.attempts[a].gen {
      LockedIsLast(s.d, s.now, ClaimOf(h, t), a, h.no, b);
    }
    NoReportYet(s.d, a);
    SavedJudged(s.d, a, SavedRow(s, t));
  }

  function SavedRow(s: Sys, t: nat): Attempt
    requires At(s, t) && s.hs[t].phase.Judged?
  {
    var kind := CheckpointOf(s.hs[t].phase.kind);
    var row := s.d.attempts[s.hs[t].at.value].(kind := kind, unknownCode := s.hs[t].phase.kind.ExecUnknown?,
                                              completed := Final(kind));
    if Final(kind) then row.(unresolved := false, successSeen := false) else row
  }

  lemma SaveLocked(s: Sys, t: nat, reply: Reply, oversize: bool)
    requires At(s, t) && s.hs[t].phase.Judged? && DoSave(s, t, reply, oversize).d != s.d
    ensures var h := s.hs[t]; var a := h.at.value;
      && LockLiveExecution(s.d, s.now, ClaimOf(h, t), a, h.no) == Ok && s.d.attempts[a].status.AttemptRunning?
      && s.d.run.status.RunRunning? && DoSave(s, t, reply, oversize).d == SetAttempt(s.d, a, SavedRow(s, t))
  {
  }

  lemma SaveOthers(s: Sys, t: nat, reply: Reply, oversize: bool)
    requires CoreInv(s) && VerdictInv(s) && At(s, t) && s.hs[t].phase.Judged? && DoSave(s, t, reply, oversize).d != s.d
    ensures forall u :: u in s.hs && u != t ==> Told(DoSave(s, t, reply, oversize).d.attempts, s.hs[u])
  {
    hide RowsJudged, JobJudged, Told, ClaimsOk, SuccessOk, AttemptsOk, DoSave, LockLiveExecution;
    var h := s.hs[t];
    var a := h.at.value;
    SaveLocked(s, t, reply, oversize);
    forall u | u in s.hs && u != t ensures Told(DoSave(s, t, reply, oversize).d.attempts, s.hs[u]) {
      assert HandlerOk(s, u);
      if s.hs[u].at.Some? && a < s.hs[u].at.value {
        LockedIsLast(s.d, s.now, ClaimOf(h, t), a, h.no, s.hs[u].at.value);
      }
      ToldStays(s.d.attempts, DoSave(s, t, reply, oversize).d.attempts, s.hs[u]);
    }
  }

  /* ----- verdicts of a handler ----- */

  /** A verdict adds the report that the checkpoint of its attempt supports. */
  lemma ReportJudged(d: Diagnosis, e: Diagnosis, a: nat, valid: bool)
    requires RowsJudged(d) && a < |d.attempts| == |e.attempts| && e.reports == d.reports + [Report(a, valid)]
    requires forall i | 0 <= i < |d.attempts| :: SameKind(d.attempts[i], e.attempts[i])
    requires d.attempts[a].kind == if valid then FinalValid else FinalInvalid
    requires e.run.status.RunSucceeded? ==> valid && e.run.final == Some(a)
    ensures RowsJudged(e)
  {
  }

  lemma SuccessJudged(d: Diagnosis, c: Claim, a: nat)
    requires RowsJudged(d) && JobJudged(d.job) && a < |d.attempts| && d.attempts[a].kind.FinalValid?
    requires d.attempts[a].completed
    ensures var e := FinalizeSuccess(d, c, a).d;
      && RowsJudged(e) && JobJudged(e.job)
      && forall i | 0 <= i < |d.attempts| :: i < |e.attempts| && SameKind(d.attempts[i], e.attempts[i])
  {
    hide LockLiveExecution, RowsJudged;
    if FinalizeSuccess(d, c, a).d != d { ReportJudged(d, FinalizeSuccess(d, c, a).d, a, true); }
  }

  lemma InvalidJudged(d: Diagnosis, c: Claim, a: nat)
    requires RowsJudged(d) && JobJudged(d.job) && a < |d.attempts| && d.attempts[a].kind.FinalInvalid?
    ensures var e := FinalizeInvalidReport(d, c, a).d;
      && RowsJudged(e) && JobJudged(e.job)
      && forall i | 0 <= i < |d.attempts| :: i < |e.attempts| && SameKind(d.attempts[i], e.attempts[i])
  {
    hide LockExecution, RowsJudged;
    if FinalizeInvalidReport(d, c, a).d != d { ReportJudged(d, FinalizeInvalidReport(d, c, a).d, a, false); }
  }

  /** The attempt a live handler paid for is the last one of its generation. */
  lemma FailureJudged(d: Diagnosis, c: Claim, a: nat, cls: ErrorClass, code: ErrorCode)
    requires JobJudged(d.job) && d.job.count <= MAX_ATTEMPTS
    requires cls.Permanent? || cls.Retryable?
    requires cls.Retryable? && Owns(d.job, c.worker, c.token) && d.job.started ==> MAX_ATTEMPTS <= d.job.count
    ensures var e := FinalizeDiagnosisFailure(d, c, a, cls, code).d; JobJudged(e.job) && KindsKept(d, e)
  {
  }

  lemma QuietVerdicts(d: Diagnosis, c: Claim, a: nat)
    requires JobJudged(d.job)
    ensures var e := FinalizeRetryableAttempt(d, c, a).d; JobJudged(e.job) && KindsKept(d, e)
    ensures var e := FinalizeCancellation(d, c, a).d; JobJudged(e.job) && KindsKept(d, e)
  {
    hide LockExecution;
    Locked(d, 0, c, true, a, 0, false);
    Locked(d, 0, c, false, a, 0, true);
  }

  lemma LivePaid(s: Sys, t: nat)
    requires CoreInv(s) && t in s.hs
    ensures Live(s.d, t) ==> s.d.job.started && s.d.job.count == s.hs[t].no && s.d.job.worker == Some(s.hs[t].worker)
    ensures Live(s.d, t) ==> s.d.job.gen == s.hs[t].gen
    ensures s.d.job.max == MAX_ATTEMPTS && s.d.job.count <= MAX_ATTEMPTS
  {
    assert HandlerOk(s, t) && ClaimOk(s, t);
  }

  lemma FinalizeTold(s: Sys, t: nat, reply: Reply)
    requires At(s, t) && Told(s.d.attempts, s.hs[t])
    ensures var e := DoFinalize(s, t, reply);
      t in e.hs && e.hs == s.hs[t := e.hs[t]] && (e != s ==> forall atts :: Told(atts, e.hs[t]))
  {
    hide FinalizeSuccess, FinalizeInvalidReport, FinalizeDiagnosisFailure, FinalizeRetryableAttempt,
      FinalizeCancellation, NoneFinalBefore, NoneInvalidBefore;
  }

  lemma FinalizeRows(s: Sys, t: nat, reply: Reply)
    requires CoreInv(s) && MarkInv(s) && VerdictInv(s) && At(s, t)
    ensures var e := DoFinalize(s, t, reply).d; RowsJudged(e) && JobJudged(e.job)
    ensures var e := DoFinalize(s, t, reply).d;
      |e.attempts| == |s.d.attempts| && forall i | 0 <= i < |s.d.attempts| :: SameKind(s.d.attempts[i], e.attempts[i])
  {
    hide CoreInv, MarkInv, RowsJudged, JobJudged, FinalizeSuccess, FinalizeInvalidReport, FinalizeDiagnosisFailure,
      FinalizeRetryableAttempt, FinalizeCancellation, HandlerOk;
    var h := s.hs[t];
    var a := h.at.value;
    MarkHolds(s, t);
    LivePaid(s, t);
    SameRows(s.d, ClaimOf(h, t), a, if h.phase.Terminating? then h.phase.cls else Permanent,
             if h.phase.Terminating? then h.phase.code else OtherCode);
    assert Told(s.d.attempts, h);
    match h.phase
    case Succeeding => SuccessJudged(s.d, ClaimOf(h, t), a);
    case Invalidating => InvalidJudged(s.d, ClaimOf(h, t), a);
    case Terminating(cls, code, _) =>
      FailureJudged(s.d, ClaimOf(h, t), a, cls, code);
      KeptJudged(s.d, FinalizeDiagnosisFailure(s.d, ClaimOf(h, t), a, cls, code).d);
    case Retrying(_) =>
      QuietVerdicts(s.d, ClaimOf(h, t), a);
      KeptJudged(s.d, FinalizeRetryableAttempt(s.d, ClaimOf(h, t), a).d);
    case Cancelling =>
      QuietVerdicts(s.d, ClaimOf(h, t), a);
      KeptJudged(s.d, FinalizeCancellation(s.d, ClaimOf(h, t), a).d);
    case _ =>
  }

  lemma SameRows(d: Diagnosis, c: Claim, a: nat, cls: ErrorClass, code: ErrorCode)
    ensures |FinalizeSuccess(d, c, a).d.attempts| == |d.attempts|
    ensures |FinalizeInvalidReport(d, c, a).d.attempts| == |d.attempts|
    ensures |FinalizeDiagnosisFailure(d, c, a, cls, code).d.attempts| == |d.attempts|
    ensures |FinalizeRetryableAttempt(d, c, a).d.attempts| == |d.attempts|
    ensures |FinalizeCancellation(d, c, a).d.attempts| == |d.attempts|
  {
    hide LockExecution;
    Locked(d, 0, c, true, a, 0, false);
    Locked(d, 0, c, false, a, 0, false);
    Locked(d, 0, c, false, a, 0, true);
  }

  lemma FinalizeJudged(s: Sys, t: nat, reply: Reply)
    requires CoreInv(s) && MarkInv(s) && VerdictInv(s)
    ensures VerdictInv(DoFinalize(s, t, reply))
  {
    hide MarkInv, RowsJudged, JobJudged, Told, DoFinalize, AttemptsOk, SuccessOk, JobOk, ClaimsOk;
    var e := DoFinalize(s, t, reply);
    if At(s, t) {
      FinalizeRows(s, t, reply);
      FinalizeTold(s, t, reply);
      forall u | u in e.hs && u != t ensures Told(e.d.attempts, e.hs[u]) {
        assert HandlerOk(s, u);
        ToldStays(s.d.attempts, e.d.attempts, s.hs[u]);
      }
      if e == s { assert Told(s.d.attempts, s.hs[t]); }
    } else {
      NoFinalize(s, t, reply);
    }
  }

  lemma NoFinalize(s: Sys, t: nat, reply: Reply)
    requires !At(s, t)
    ensures DoFinalize(s, t, reply) == s
  {
  }

  /* ----- the worker's generic finalization ----- */

  lemma CloseRowsJudged(s: Sys, t: nat, nextRun: nat)
    requires CoreInv(s) && VerdictInv(s) && t in s.hs && s.hs[t].phase.Closing? && !s.hs[t].phase.decision.Leave?
    ensures var e := CloseTx(s, s.hs[t], t, s.hs[t].phase.decision, nextRun).d;
      JobJudged(e.job) && e.reports == s.d.reports
      && (e.run.status.RunSucceeded? ==> s.d.run.status.RunSucceeded? && e.run.final == s.d.run.final)
  {
    hide CoreInv, RowsJudged, CloseRunning, LatestAttempt;
    LivePaid(s, t);
    assert Told(s.d.attempts, s.hs[t]);
  }

  lemma CloseJudged(s: Sys, t: nat, reply: Reply, nextRun: nat, stop: bool)
    requires CoreInv(s) && VerdictInv(s)
    ensures VerdictInv(DoClose(s, t, reply, nextRun, stop))
  {
    hide CoreInv, RowsJudged, JobJudged, CloseTx, StatusOnly, KindsKept;
    var e := DoClose(s, t, reply, nextRun, stop);
    if t in s.hs && s.hs[t].phase.Closing? && !s.hs[t].phase.decision.Leave? {
      CloseRowsJudged(s, t, nextRun);
      CloseStatus(s, t, nextRun);
      StatusSelf(s.d);
      StatusKinds(s.d, e.d);
      KeepsVerdicts(s, e, t);
    }
  }

  /* ----- all steps, all runs ----- */

  lemma StepKeepsVerdicts(s: Sys, step: Step)
    requires CoreInv(s) && MarkInv(s) && VerdictInv(s)
    ensures VerdictInv(Apply(s, step))
  {
    hide CoreInv, MarkInv, VerdictInv, DoSave, DoFinalize, DoClose;
    if Bearer(step).None? || step.StartStep? || step.ReturnStep? || step.RenewStep? {
      RowStepJudged(s, step);
    } else if step.AttemptStep? || step.BeginStep? || step.SettleStep? {
      WriteJudged(s, step, Bearer(step).value);
    } else if step.SaveStep? {
      SaveJudged(s, step.t, step.reply, step.oversize);
    } else if step.FinalizeStep? {
      FinalizeJudged(s, step.t, step.reply);
    } else if step.CloseStep? {
      CloseJudged(s, step.t, step.reply, step.nextRun, step.stop);
    } else {
      LocalJudged(s, step, Bearer(step).value);
    }
  }

  lemma {:induction false} ReachableVerdicts(now: nat, steps: seq<Step>)
    ensures VerdictInv(Exec(Init(now), steps))
  {
    hide Apply, CoreInv, MarkInv, VerdictInv;
    if steps == [] {
      InitJudged(now);
    } else {
      var before := steps[..|steps| - 1];
      ReachableVerdicts(now, before);
      ReachableMarks(now, before);
      StepKeepsVerdicts(Exec(Init(now), before), steps[|steps| - 1]);
    }
  }

  lemma InitJudged(now: nat)
    ensures VerdictInv(Init(now))
  {
  }
}
