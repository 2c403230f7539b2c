/** Every step keeps the core facts, so they hold in every reachable state. */
module CoreSteps {
  import opened Rows
  import opened Transactions
  import opened Handlers
  import opened Protocol
  import opened Core

  /** The rows change quietly and stay consistent. */
  predicate Sound(d: Diagnosis, e: Diagnosis, next: nat) { Quiet(d, e) && JobOk(e, next) && SuccessOk(e) }

  predicate RowsOk(d: Diagnosis, next: nat) { JobOk(d, next) && SuccessOk(d) }

  lemma SelfSound(d: Diagnosis, next: nat)
    requires RowsOk(d, next)
    ensures Sound(d, d, next)
  {
  }

  lemma CloseRunningRows(atts: seq<Attempt>, gen: nat, no: Option<nat>, status: AttemptStatus)
    requires !status.AttemptSucceeded?
    ensures |CloseRunning(atts, gen, no, status)| == |atts|
    ensures forall i :: 0 <= i < |atts| ==>
      CloseRunning(atts, gen, no, status)[i] == CloseOne(atts[i], gen, no, status)
  {
  }

  lemma ReturnSound(d: Diagnosis, next: nat, c: Claim)
    requires RowsOk(d, next)
    ensures Sound(d, ReturnUndispatchedClaim(d, c).d, next)
  {
    SuccessStays(d, ReturnUndispatchedClaim(d, c).d);
  }

  lemma RenewSound(d: Diagnosis, next: nat, now: nat, worker: nat, token: nat, until: nat)
    requires RowsOk(d, next)
    ensures Sound(d, RenewLease(d, now, worker, token, until).d, next)
  {
    SuccessStays(d, RenewLease(d, now, worker, token, until).d);
  }

  lemma CancelExpiredSound(d: Diagnosis, next: nat)
    requires RowsOk(d, next) && d.job.status.Running? && d.job.cancel
    ensures Sound(d, CancelExpired(d).d, next)
  {
    CloseRunningRows(d.attempts, d.job.gen, Some(d.job.count), AttemptAbandoned);
    SuccessStays(d, CancelExpired(d).d);
  }

  lemma FailUnknownSound(d: Diagnosis, next: nat, a: nat)
    requires RowsOk(d, next) && d.job.status.Running? && a < |d.attempts|
    requires d.attempts[a].status.AttemptRunning? || d.attempts[a].status.AttemptAbandoned?
    ensures Sound(d, FailOutcomeUnknown(d, a).d, next)
  {
    SuccessStays(d, FailOutcomeUnknown(d, a).d);
  }

  lemma ReapRetrySound(d: Diagnosis, next: nat, nextRun: nat)
    requires RowsOk(d, next) && d.job.status.Running? && d.job.started && d.job.count < d.job.max
    ensures Sound(d,
                  d.(job := d.job.(status := RetryWait, nextRun := nextRun, errClass := Some(OwnershipClass),
                                   errCode := Some(LeaseExpired)),
                        attempts := CloseRunning(d.attempts, d.job.gen, Some(d.job.count), AttemptAbandoned)), next)
  {
    CloseRunningRows(d.attempts, d.job.gen, Some(d.job.count), AttemptAbandoned);
    SuccessStays(d,
                 d.(job := d.job.(status := RetryWait, nextRun := nextRun, errClass := Some(OwnershipClass),
                                  errCode := Some(LeaseExpired)),
                       attempts := CloseRunning(d.attempts, d.job.gen, Some(d.job.count), AttemptAbandoned)));
  }

  lemma ReapExhaustedSound(d: Diagnosis, next: nat, now: nat, nextRun: nat)
    requires RowsOk(d, next) && Expired(d.job, now) && d.job.started && !d.job.cancel && OutcomeUnknownMarker(d).None?
    requires d.job.max <= d.job.count
    ensures Sound(d, ReapExpired(d, now, nextRun).d, next)
  {
    hide OutcomeUnknownMarker;
    CloseRunningRows(d.attempts, d.job.gen, None, AttemptAbandoned);
    SuccessStays(d, ReapExpired(d, now, nextRun).d);
  }

  lemma ReapSound(d: Diagnosis, next: nat, now: nat, nextRun: nat)
    requires RowsOk(d, next)
    ensures Sound(d, ReapExpired(d, now, nextRun).d, next)
  {
    if !Expired(d.job, now) {
      SelfSound(d, next);
    } else if d.job.cancel {
      CancelExpiredSound(d, next);
    } else if d.job.started && OutcomeUnknownMarker(d).Some? {
      FailUnknownSound(d, next, OutcomeUnknownMarker(d).value);
    } else if !d.job.started {
      SuccessStays(d, ReapExpired(d, now, nextRun).d);
    } else if d.job.count < d.job.max {
      ReapRetrySound(d, next, nextRun);
    } else {
      ReapExhaustedSound(d, next, now, nextRun);
    }
  }

  lemma SweepSound(d: Diagnosis, next: nat, now: nat, a: nat)
    requires RowsOk(d, next)
    ensures Sound(d, RecoverStaleAttempt(d, now, a).d, next)
  {
    SuccessStays(d, RecoverStaleAttempt(d, now, a).d);
  }

  lemma CancelSound(d: Diagnosis, next: nat)
    requires RowsOk(d, next)
    ensures Sound(d, RequestCancellation(d).d, next)
  {
    SuccessStays(d, RequestCancellation(d).d);
  }

  /** Writing markers, a checkpoint or a non-success status into one row. */
  lemma SetRowSound(d: Diagnosis, next: nat, a: nat, row: Attempt)
    requires RowsOk(d, next) && a < |d.attempts| && SameIdentity(d.attempts[a], row) && Closes(d.attempts[a], row)
    requires row.status.AttemptSucceeded? ==> d.attempts[a].status.AttemptSucceeded?
    ensures Sound(d, SetAttempt(d, a, row), next)
  {
    SuccessStays(d, SetAttempt(d, a, row));
  }

  lemma FinalizeSuccessSound(d: Diagnosis, next: nat, c: Claim, a: nat)
    requires RowsOk(d, next)
    ensures Sound(d, FinalizeSuccess(d, c, a).d, next)
  {
    var e := FinalizeSuccess(d, c, a).d;
    if e != d {
      assert e.reports[|d.reports|] == Report(a, true);
      assert forall k :: 0 <= k < |d.reports| ==> d.reports[k].attempt != a;
    }
  }

  lemma FinalizeInvalidSound(d: Diagnosis, next: nat, c: Claim, a: nat)
    requires RowsOk(d, next)
    ensures Sound(d, FinalizeInvalidReport(d, c, a).d, next)
  {
    assert forall k :: 0 <= k < |d.reports| ==> !d.attempts[d.reports[k].attempt].status.AttemptRunning?;
  }

  lemma FinalizeFailureSound(d: Diagnosis, next: nat, c: Claim, a: nat, cls: ErrorClass, code: ErrorCode)
    requires RowsOk(d, next)
    ensures Sound(d, FinalizeDiagnosisFailure(d, c, a, cls, code).d, next)
  {
    SuccessStays(d, FinalizeDiagnosisFailure(d, c, a, cls, code).d);
  }

  lemma FinalizeCancellationSound(d: Diagnosis, next: nat, c: Claim, a: nat)
    requires RowsOk(d, next)
    ensures Sound(d, FinalizeCancellation(d, c, a).d, next)
  {
    SuccessStays(d, FinalizeCancellation(d, c, a).d);
  }

  lemma CloseCancelSound(d: Diagnosis, next: nat, worker: nat, token: nat)
    requires RowsOk(d, next)
    ensures Sound(d, ConditionalFinalizeCancel(d, worker, token).d, next)
  {
    CloseRunningRows(d.attempts, d.job.gen, None, AttemptAbandoned);
    SuccessStays(d, ConditionalFinalizeCancel(d, worker, token).d);
  }

  lemma CloseFailureSound(d: Diagnosis, next: nat, worker: nat, token: nat, dec: Decision, nextRun: nat)
    requires RowsOk(d, next) && dec.CloseFailure?
    requires !dec.terminal && OwnedRunning(d.job, worker, token) ==> d.job.count < d.job.max
    ensures
      var tx := ConditionalFinalizeFailure(d, worker, token, dec.cls, dec.code, dec.reason, dec.terminal, nextRun);
      Sound(d, tx.d, next)
  {
    var e := ConditionalFinalizeFailure(d, worker, token, dec.cls, dec.code, dec.reason, dec.terminal, nextRun).d;
    if d.job.cancel {
      CloseCancelSound(d, next, worker, token);
    } else {
      CloseRunningRows(d.attempts, d.job.gen, None, AttemptFailedTerminal);
      SuccessStays(d, e);
    }
  }

  /* ----- steps that create a claim, a charge, a handler, an attempt or a generation ----- */

  lemma ClaimKeepsClaims(s: Sys, worker: nat, duration: nat, skip: nat)
    requires ClaimsOk(s) && 1 <= s.d.job.gen && Claimable(s.d.job, s.now) && forall u :: u in s.hs ==> u < s.next
    ensures ClaimsOk(DoClaim(s, worker, duration, skip))
  {
    var e := DoClaim(s, worker, duration, skip);
    forall u | u in e.claims ensures ClaimOk(e, u) {
      if u != s.next + skip { assert ClaimOk(s, u); }
    }
  }

  lemma ClaimKeepsHandlers(s: Sys, worker: nat, duration: nat, skip: nat)
    requires ClaimsOk(s) && HandlersOk(s) && Claimable(s.d.job, s.now)
    ensures HandlersOk(DoClaim(s, worker, duration, skip)) && forall u :: u in s.hs ==> u < s.next
  {
    forall u | u in s.hs ensures u < s.next { assert HandlerOk(s, u) && ClaimOk(s, u); }
    HandlersStay(s, DoClaim(s, worker, duration, skip), s.next + skip);
  }

  lemma ClaimKeepsCore(s: Sys, worker: nat, duration: nat, skip: nat)
    requires CoreInv(s)
    ensures CoreInv(DoClaim(s, worker, duration, skip))
  {
    hide ClaimsOk, HandlersOk, AttemptsOk, SuccessOk;
    if Claimable(s.d.job, s.now) {
      var e := DoClaim(s, worker, duration, skip);
      ClaimKeepsHandlers(s, worker, duration, skip);
      ClaimKeepsClaims(s, worker, duration, skip);
      AttemptsStay(s.d, e.d);
      SuccessStays(s.d, e.d);
    }
  }

  /** The first execution start of a claim: the job is charged one attempt. */
  predicate Charges(s: Sys, t: nat) {
    t in s.claims && Live(s.d, t) && !s.d.job.started
    && MarkExecutionStarted(s.d, s.now, Claim(s.claims[t].worker, t, s.claims[t].gen)).err == Ok
  }

  lemma StartKeepsClaims(s: Sys, t: nat)
    requires ClaimsOk(s) && HandlersOk(s) && AttemptsOk(s.d) && Charges(s, t)
    ensures ClaimsOk(DoStart(s, t)) && t !in s.hs
  {
    var e := DoStart(s, t);
    assert NotInserted(s.d, s.d.job.gen, s.d.job.count + 1) by {
      assert forall i :: 0 <= i < |s.d.attempts| ==> InRange(s.d, s.d.attempts[i]);
    }
    assert t !in s.hs by { if t in s.hs { StartedOnce(s, t); } }
    forall u | u in e.claims ensures ClaimOk(e, u) {
      assert ClaimOk(s, u) && ClaimOk(s, t);
    }
    forall u, v | u in e.claims && v in e.claims && u != v ensures DistinctCharge(e.claims[u], e.claims[v]) {
      assert ClaimOk(s, u) && ClaimOk(s, v) && DistinctCharge(s.claims[u], s.claims[v]);
    }
  }

  /** A launched handler's claim is already charged. */
  lemma StartedOnce(s: Sys, t: nat)
    requires ClaimsOk(s) && HandlersOk(s) && t in s.hs && Live(s.d, t)
    ensures s.d.job.started && s.d.job.count == s.hs[t].no && s.d.job.gen == s.hs[t].gen
  {
    assert HandlerOk(s, t) && ClaimOk(s, t);
  }

  lemma StartKeepsCore(s: Sys, t: nat)
    requires CoreInv(s)
    ensures CoreInv(DoStart(s, t))
  {
    hide HandlersOk, AttemptsOk, SuccessOk;
    if Charges(s, t) {
      var e := DoStart(s, t);
      StartKeepsClaims(s, t);
      HandlersStay(s, e, t);
      AttemptsStay(s.d, e.d);
      SuccessStays(s.d, e.d);
    } else if t in s.claims {
      assert ClaimOk(s, t);
      assert DoStart(s, t) == s;
    }
  }

  lemma LaunchKeepsCore(s: Sys, t: nat)
    requires CoreInv(s)
    ensures CoreInv(DoLaunch(s, t))
  {
    hide HandlersOk, AttemptsOk, SuccessOk, JobOk;
    var e := DoLaunch(s, t);
    if e != s {
      assert ClaimOk(s, t);
      HandlersStay(s, e, t);
      ClaimsStay(s, e);
    }
  }

  /** An attempt row is inserted; the handler learns its position, or loses the reply. */
  lemma InsertKeepsCore(s: Sys, t: nat, p: Phase, at: Option<nat>)
    requires CoreInv(s) && t in s.hs && s.hs[t].phase.Entered?
    requires StartAttempt(s.d, s.now, ClaimOf(s.hs[t], t), s.hs[t].no).err == Ok
    requires (p == Loading && at == Some(|s.d.attempts|))
      || (p == Returned(RetRetryable(OtherCode)) && at == s.hs[t].at)
    ensures CoreInv(s.(d := StartAttempt(s.d, s.now, ClaimOf(s.hs[t], t), s.hs[t].no).d,
                       hs := s.hs[t := s.hs[t].(at := at, phase := p)]))
  {
    hide AttemptsOk, SuccessOk, ClaimsOk, HandlersOk;
    var d := StartAttempt(s.d, s.now, ClaimOf(s.hs[t], t), s.hs[t].no).d;
    var e := s.(d := d, hs := s.hs[t := s.hs[t].(at := at, phase := p)]);
    InsertFacts(s, t);
    HandlersStay(s, e, t);
    InsertClaims(s, e, t);
    SuccessStays(s.d, e.d);
    InsertAttempts(s.d, e.d);
  }

  lemma InsertFacts(s: Sys, t: nat)
    requires ClaimsOk(s) && HandlersOk(s) && t in s.hs && s.hs[t].phase.Entered?
    ensures NotInserted(s.d, s.hs[t].gen, s.hs[t].no) && HandlerOk(s, t) && 1 <= s.hs[t].no
    ensures Live(s.d, t) ==> s.hs[t].no == s.d.job.count && s.hs[t].gen == s.d.job.gen
  {
    assert HandlerOk(s, t) && ClaimOk(s, t);
  }

  lemma InsertAttempts(d: Diagnosis, e: Diagnosis)
    requires AttemptsOk(d) && d.job == e.job && |e.attempts| == |d.attempts| + 1
    requires e.attempts[..|d.attempts|] == d.attempts
    requires e.run.status.RunRunning?
    requires var a := e.attempts[|d.attempts|]; a.gen == d.job.gen && a.no == d.job.count && 1 <= a.gen && 1 <= a.no
    requires NotInserted(d, d.job.gen, d.job.count)
    ensures AttemptsOk(e)
  {
    forall i | 0 <= i < |e.attempts| ensures InRange(e, e.attempts[i]) {
      if i < |d.attempts| { assert e.attempts[i] == d.attempts[i] && InRange(d, d.attempts[i]); }
    }
    forall i, j | 0 <= i < j < |e.attempts| ensures Before(e.attempts[i], e.attempts[j]) {
      assert e.attempts[i] == d.attempts[i];
      if j < |d.attempts| { assert e.attempts[j] == d.attempts[j]; } else { assert InRange(d, d.attempts[i]); }
    }
  }

  lemma InsertClaims(s: Sys, e: Sys, t: nat)
    requires ClaimsOk(s) && HandlersOk(s) && t in s.hs && e.claims == s.claims && e.next == s.next
    requires e.d.job == s.d.job && |e.d.attempts| == |s.d.attempts| + 1
    requires e.d.attempts[..|s.d.attempts|] == s.d.attempts
    requires var a := e.d.attempts[|s.d.attempts|]; a.gen == s.hs[t].gen && a.no == s.hs[t].no
    requires !BeforeAttempt(e, t) && forall u :: u != t ==> (BeforeAttempt(e, u) <==> BeforeAttempt(s, u))
    ensures ClaimsOk(e)
  {
    assert HandlerOk(s, t);
    forall u | u in e.claims ensures ClaimOk(e, u) {
      assert ClaimOk(s, u);
      if u != t { assert DistinctCharge(s.claims[t], s.claims[u]); }
    }
  }

  lemma AttemptRefusedKeepsCore(s: Sys, t: nat, reply: Reply)
    requires CoreInv(s) && t in s.hs && s.hs[t].phase.Entered?
    requires reply.NotExecuted?
      || StartAttempt(s.d, s.now, ClaimOf(s.hs[t], t), ExpectedAttemptNo(s.hs[t].no)).err != Ok
    ensures CoreInv(DoAttempt(s, t, reply))
  {
    hide CoreInv;
    var tx := StartAttempt(s.d, s.now, ClaimOf(s.hs[t], t), ExpectedAttemptNo(s.hs[t].no));
    var e := Seen(tx, reply);
    CoreHolds(s, t);
    MoveKeepsCore(s, t,
                  if e == OwnershipLost then Returned(RetLost)
                  else if e == AlreadyFinalized then Returned(RetFinalized)
                  else if e == CancelRequested then Returned(RetCancelled)
                  else Returned(RetRetryable(OtherCode)));
  }

  /** What one handler may rely on. */
  lemma CoreHolds(s: Sys, t: nat)
    requires CoreInv(s) && t in s.hs
    ensures HandlerOk(s, t) && JobOk(s.d, s.next) && RowsOk(s.d, s.next) && 1 <= s.hs[t].no
    ensures Live(s.d, t) ==> s.d.job.started && s.hs[t].no == s.d.job.count && s.hs[t].gen == s.d.job.gen
                             && s.d.job.worker == Some(s.hs[t].worker)
  {
    assert HandlerOk(s, t) && ClaimOk(s, t);
  }

  lemma AttemptKeepsCore(s: Sys, t: nat, reply: Reply)
    requires CoreInv(s)
    ensures CoreInv(DoAttempt(s, t, reply))
  {
    hide CoreInv;
    if t in s.hs && s.hs[t].phase.Entered? {
      CoreHolds(s, t);
      var tx := StartAttempt(s.d, s.now, ClaimOf(s.hs[t], t), ExpectedAttemptNo(s.hs[t].no));
      if reply.NotExecuted? || tx.err != Ok {
        AttemptRefusedKeepsCore(s, t, reply);
      } else if reply.Faithful? {
        InsertKeepsCore(s, t, Loading, Some(|s.d.attempts|));
      } else {
        InsertKeepsCore(s, t, Returned(RetRetryable(OtherCode)), s.hs[t].at);
      }
    }
  }

  lemma NewGenerationKeepsClaims(s: Sys, e: Sys)
    requires ClaimsOk(s) && e.d.attempts == s.d.attempts && e.claims == s.claims && e.hs == s.hs && e.next == s.next
    requires e.d.job.gen == s.d.job.gen + 1 && !e.d.job.status.Running?
    ensures ClaimsOk(e)
  {
    forall u | u in e.claims ensures ClaimOk(e, u) { assert ClaimOk(s, u); }
  }

  lemma NewGenerationKeepsCore(s: Sys, now: nat)
    requires CoreInv(s) && s.d.job.status.Failed? && s.d.run.status.RunFailed?
    ensures CoreInv(s.(d := s.d.(job := FreshGeneration(s.d.job, now), run := Run(RunQueued, false, None))))
  {
    hide ClaimsOk, HandlersOk, AttemptsOk, SuccessOk;
    var e := s.(d := s.d.(job := FreshGeneration(s.d.job, now), run := Run(RunQueued, false, None)));
    NewGenerationKeepsHandlers(s, e);
    NewGenerationKeepsClaims(s, e);
    SuccessStays(s.d, e.d);
    AttemptsStay(s.d, e.d);
  }

  lemma NewGenerationKeepsHandlers(s: Sys, e: Sys)
    requires HandlersOk(s) && e.d.attempts == s.d.attempts && e.claims == s.claims && e.hs == s.hs
    requires !e.d.job.status.Running?
    ensures HandlersOk(e)
  {
    forall u | u in e.hs ensures HandlerOk(e, u) { assert HandlerOk(s, u); }
  }

  /* ----- steps of a running handler ----- */

  /** A handler runs a transaction, sees some reply and moves on. */
  lemma TxMoveKeepsCore(s: Sys, t: nat, tx: Tx, reply: Reply, p: Phase)
    requires CoreInv(s) && t in s.hs && Sound(s.d, tx.d, s.next)
    requires PhaseTrue(Committed(s, tx, reply), t, s.hs[t].no, p)
    requires NeedsAttempt(p) ==> s.hs[t].at.Some?
    requires !p.Launched? && !p.Entered?
    ensures CoreInv(Move(s, t, Committed(s, tx, reply), p))
  {
    hide CoreInv, PhaseTrue, JobOk, SuccessOk, Quiet;
    CoreHolds(s, t);
    if reply.NotExecuted? { MoveKeepsCore(s, t, p); } else { QuietMoveKeepsCore(s, t, tx.d, p); }
  }

  lemma CauseKeepsCore(s: Sys, t: nat, cause: Cause)
    requires CoreInv(s)
    ensures CoreInv(DoCause(s, t, cause))
  {
    hide AttemptsOk, SuccessOk, ClaimsOk, HandlersOk, JobOk;
    var e := DoCause(s, t, cause);
    if e != s {
      CoreHolds(s, t);
      HandlersStay(s, e, t);
      ClaimsStay(s, e);
    }
  }

  lemma EnterKeepsCore(s: Sys, t: nat, ok: bool)
    requires CoreInv(s)
    ensures CoreInv(DoEnter(s, t, ok))
  {
    hide CoreInv;
    if t in s.hs && s.hs[t].phase.Launched? {
      CoreHolds(s, t);
      MoveKeepsCore(s, t, DoEnter(s, t, ok).hs[t].phase);
    }
  }

  lemma LoadKeepsCore(s: Sys, t: nat, ok: bool, compatible: bool, sound: bool)
    requires CoreInv(s)
    ensures CoreInv(DoLoad(s, t, ok, compatible, sound))
  {
    hide CoreInv;
    if At(s, t) && s.hs[t].phase.Loading? {
      MoveKeepsCore(s, t, DoLoad(s, t, ok, compatible, sound).hs[t].phase);
    }
  }

  /** A refused lock leaves the handler with a true belief about cancellation. */
  lemma RefusalTrue(s: Sys, t: nat, e: Err)
    requires CoreInv(s) && At(s, t)
    requires e == LockLiveExecution(s.d, s.now, ClaimOf(s.hs[t], t), s.hs[t].at.value, s.hs[t].no)
             || e == LockExecution(s.d, ClaimOf(s.hs[t], t), true, s.hs[t].at.value, false)
             || e == LockExecution(s.d, ClaimOf(s.hs[t], t), false, s.hs[t].at.value, false)
    ensures e == CancelRequested ==> s.d.job.cancel
    ensures e == AlreadyFinalized ==> !Live(s.d, t)
    ensures e == Ok ==>
      Live(s.d, t) && s.d.run.status.RunRunning? && s.d.attempts[s.hs[t].at.value].status.AttemptRunning?
  {
    CoreHolds(s, t);
  }

  lemma BeginKeepsCore(s: Sys, t: nat, reply: Reply, again: bool)
    requires CoreInv(s)
    ensures CoreInv(DoBegin(s, t, reply, again))
  {
    hide CoreInv, Sound;
    if At(s, t) && s.hs[t].phase.Idle? {
      var h := s.hs[t];
      CoreHolds(s, t);
      var tx := BeginProviderDispatch(s.d, s.now, ClaimOf(h, t), h.at.value, h.no);
      RefusalTrue(s, t, LockLiveExecution(s.d, s.now, ClaimOf(h, t), h.at.value, h.no));
      if tx.err == Ok {
        SetRowSound(s.d, s.next, h.at.value, s.d.attempts[h.at.value].(unresolved := true));
      } else {
        SelfSound(s.d, s.next);
      }
      TxMoveKeepsCore(s, t, tx, reply, DoBegin(s, t, reply, again).hs[t].phase);
    }
  }

  lemma CheckKeepsCore(s: Sys, t: nat, reply: Reply, again: bool)
    requires CoreInv(s)
    ensures CoreInv(DoCheck(s, t, reply, again))
  {
    hide CoreInv;
    if At(s, t) && s.hs[t].phase.Marked? {
      var h := s.hs[t];
      RefusalTrue(s, t, LockLiveExecution(s.d, s.now, ClaimOf(h, t), h.at.value, h.no));
      MoveKeepsCore(s, t, DoCheck(s, t, reply, again).hs[t].phase);
    }
  }

  lemma CallKeepsCore(s: Sys, t: nat, outcome: Outcome)
    requires CoreInv(s)
    ensures CoreInv(DoCall(s, t, outcome))
  {
    if At(s, t) && s.hs[t].phase.Authorized? {
      var p := Answered(outcome, s.hs[t].phase.answered);
      MoveKeepsCore(s, t, p);
      LogKeepsCore(Move(s, t, s.d, p), s.calls + [Call(s.hs[t].at.value, outcome)]);
    }
  }

  lemma LogKeepsCore(s: Sys, calls: seq<Call>)
    requires CoreInv(s)
    ensures CoreInv(s.(calls := calls))
  {
    hide AttemptsOk, SuccessOk, JobOk;
    HandlersStay(s, s.(calls := calls), s.next);
    ClaimsStay(s, s.(calls := calls));
  }

  lemma SettleKeepsCore(s: Sys, t: nat, reply: Reply, again: bool)
    requires CoreInv(s)
    ensures CoreInv(DoSettle(s, t, reply, again))
  {
    hide CoreInv, Sound;
    if At(s, t) && s.hs[t].phase.Answered? {
      var h := s.hs[t];
      var row := s.d.attempts[h.at.value];
      CoreHolds(s, t);
      SelfSound(s.d, s.next);
      SetRowSound(s.d, s.next, h.at.value, row.(successSeen := true));
      SetRowSound(s.d, s.next, h.at.value, row.(unresolved := false));
      var p := DoSettle(s, t, reply, again).hs[t].phase;
      match h.phase.outcome
      case CallSucceeded =>
        TxMoveKeepsCore(s, t, DispatchSucceeded(s.d, s.now, ClaimOf(h, t), h.at.value, h.no), reply, p);
      case CallFailedDefinitely =>
        TxMoveKeepsCore(s, t, DispatchFailedDefinitely(s.d, s.now, ClaimOf(h, t), h.at.value, h.no), reply, p);
      case CallOutcomeUnknown => MoveKeepsCore(s, t, p);
    }
  }

  lemma EndKeepsCore(s: Sys, t: nat, kind: ExecKind, result: bool)
    requires CoreInv(s)
    ensures CoreInv(DoEnd(s, t, kind, result))
  {
    hide CoreInv;
    if At(s, t) && s.hs[t].phase.Idle? && DoEnd(s, t, kind, result) != s {
      MoveKeepsCore(s, t, DoEnd(s, t, kind, result).hs[t].phase);
    }
  }

  lemma InspectKeepsCore(s: Sys, t: nat, ok: bool)
    requires CoreInv(s)
    ensures CoreInv(DoInspect(s, t, ok))
  {
    hide CoreInv;
    if At(s, t) && s.hs[t].phase.Ended? {
      CoreHolds(s, t);
      MoveKeepsCore(s, t, DoInspect(s, t, ok).hs[t].phase);
    }
  }

  lemma SaveKeepsCore(s: Sys, t: nat, reply: Reply, oversize: bool)
    requires CoreInv(s)
    ensures CoreInv(DoSave(s, t, reply, oversize))
  {
    hide CoreInv, Sound;
    if At(s, t) && s.hs[t].phase.Judged? {
      var h := s.hs[t];
      CoreHolds(s, t);
      var p := DoSave(s, t, reply, oversize).hs[t].phase;
      if !h.phase.result || oversize {
        MoveKeepsCore(s, t, p);
      } else {
        var tx := SaveCheckpoint(s.d, s.now, ClaimOf(h, t), h.at.value, h.no, CheckpointOf(h.phase.kind),
                                 h.phase.kind.ExecUnknown?);
        if tx.err == Ok {
          SetRowSound(s.d, s.next, h.at.value, tx.d.attempts[h.at.value]);
        } else {
          SelfSound(s.d, s.next);
        }
        TxMoveKeepsCore(s, t, tx, reply, p);
      }
    }
  }

  lemma RouteKeepsCore(s: Sys, t: nat, cls: ErrorClass, code: ErrorCode, oversize: bool)
    requires CoreInv(s)
    ensures CoreInv(DoRoute(s, t, cls, code, oversize))
  {
    hide CoreInv;
    if At(s, t) && s.hs[t].phase.Saved? {
      CoreHolds(s, t);
      MoveKeepsCore(s, t, DoRoute(s, t, cls, code, oversize).hs[t].phase);
    }
  }

  lemma DivertKeepsCore(s: Sys, t: nat)
    requires CoreInv(s)
    ensures CoreInv(DoDivert(s, t))
  {
    hide CoreInv;
    if At(s, t) && DoDivert(s, t) != s {
      CoreHolds(s, t);
      MoveKeepsCore(s, t, DoDivert(s, t).hs[t].phase);
    }
  }

  lemma TerminateKeepsCore(s: Sys, t: nat, reply: Reply)
    requires CoreInv(s) && At(s, t) && s.hs[t].phase.Terminating?
    ensures CoreInv(DoFinalize(s, t, reply))
  {
    hide CoreInv, Sound, RowsOk, JobOk;
    var h := s.hs[t];
    CoreHolds(s, t);
    FinalizeFailureSound(s.d, s.next, ClaimOf(h, t), h.at.value, h.phase.cls, h.phase.code);
    RefusalTrue(s, t, LockExecution(s.d, ClaimOf(h, t), true, h.at.value, false));
    TxMoveKeepsCore(s, t, FinalizeDiagnosisFailure(s.d, ClaimOf(h, t), h.at.value, h.phase.cls, h.phase.code), reply,
                    DoFinalize(s, t, reply).hs[t].phase);
  }

  lemma InvalidateKeepsCore(s: Sys, t: nat, reply: Reply)
    requires CoreInv(s) && At(s, t) && s.hs[t].phase.Invalidating?
    ensures CoreInv(DoFinalize(s, t, reply))
  {
    hide CoreInv, Sound, RowsOk, JobOk;
    var h := s.hs[t];
    CoreHolds(s, t);
    FinalizeInvalidSound(s.d, s.next, ClaimOf(h, t), h.at.value);
    RefusalTrue(s, t, LockExecution(s.d, ClaimOf(h, t), false, h.at.value, false));
    TxMoveKeepsCore(s, t, FinalizeInvalidReport(s.d, ClaimOf(h, t), h.at.value), reply,
                    DoFinalize(s, t, reply).hs[t].phase);
  }

  lemma SucceedKeepsCore(s: Sys, t: nat, reply: Reply)
    requires CoreInv(s) && At(s, t) && s.hs[t].phase.Succeeding?
    ensures CoreInv(DoFinalize(s, t, reply))
  {
    hide CoreInv, Sound, RowsOk, JobOk;
    var h := s.hs[t];
    CoreHolds(s, t);
    FinalizeSuccessSound(s.d, s.next, ClaimOf(h, t), h.at.value);
    RefusalTrue(s, t, LockExecution(s.d, ClaimOf(h, t), false, h.at.value, false));
    TxMoveKeepsCore(s, t, FinalizeSuccess(s.d, ClaimOf(h, t), h.at.value), reply, DoFinalize(s, t, reply).hs[t].phase);
  }

  lemma RetryAttemptKeepsCore(s: Sys, t: nat, reply: Reply)
    requires CoreInv(s) && At(s, t) && s.hs[t].phase.Retrying?
    ensures CoreInv(DoFinalize(s, t, reply))
  {
    hide CoreInv, Sound, JobOk;
    var h := s.hs[t];
    CoreHolds(s, t);
    var tx := FinalizeRetryableAttempt(s.d, ClaimOf(h, t), h.at.value);
    RefusalTrue(s, t, LockExecution(s.d, ClaimOf(h, t), true, h.at.value, false));
    if tx.err == Ok {
      SetRowSound(s.d, s.next, h.at.value, s.d.attempts[h.at.value].(status := AttemptFailedRetryable));
    } else {
      SelfSound(s.d, s.next);
    }
    TxMoveKeepsCore(s, t, tx, reply, DoFinalize(s, t, reply).hs[t].phase);
  }

  lemma CancellationKeepsCore(s: Sys, t: nat, reply: Reply)
    requires CoreInv(s) && At(s, t) && s.hs[t].phase.Cancelling?
    ensures CoreInv(DoFinalize(s, t, reply))
  {
    hide CoreInv, Sound, RowsOk, JobOk;
    var h := s.hs[t];
    CoreHolds(s, t);
    FinalizeCancellationSound(s.d, s.next, ClaimOf(h, t), h.at.value);
    TxMoveKeepsCore(s, t, FinalizeCancellation(s.d, ClaimOf(h, t), h.at.value), reply,
                    DoFinalize(s, t, reply).hs[t].phase);
  }

  lemma FinalizeKeepsCore(s: Sys, t: nat, reply: Reply)
    requires CoreInv(s)
    ensures CoreInv(DoFinalize(s, t, reply))
  {
    hide CoreInv;
    if At(s, t) {
      match s.hs[t].phase {
        case Terminating(_, _, _) => TerminateKeepsCore(s, t, reply);
        case Invalidating => InvalidateKeepsCore(s, t, reply);
        case Succeeding => SucceedKeepsCore(s, t, reply);
        case Retrying(_) => RetryAttemptKeepsCore(s, t, reply);
        case Cancelling => CancellationKeepsCore(s, t, reply);
        case _ =>
      }
    }
  }

  lemma ResolveKeepsCore(s: Sys, t: nat, ok: bool)
    requires CoreInv(s)
    ensures CoreInv(DoResolve(s, t, ok))
  {
    hide CoreInv;
    if t in s.hs && s.hs[t].phase.Unsettled? {
      CoreHolds(s, t);
      MoveKeepsCore(s, t, DoResolve(s, t, ok).hs[t].phase);
    }
  }

  lemma DecideKeepsCore(s: Sys, t: nat)
    requires CoreInv(s)
    ensures CoreInv(DoDecide(s, t))
  {
    hide CoreInv;
    if t in s.hs && s.hs[t].phase.Returned? {
      CoreHolds(s, t);
      MoveKeepsCore(s, t, DoDecide(s, t).hs[t].phase);
    }
  }

  lemma CloseKeepsCore(s: Sys, t: nat, reply: Reply, nextRun: nat, stop: bool)
    requires CoreInv(s)
    ensures CoreInv(DoClose(s, t, reply, nextRun, stop))
  {
    hide CoreInv, Sound, JobOk;
    if t in s.hs && s.hs[t].phase.Closing? && !s.hs[t].phase.decision.Leave? {
      var h := s.hs[t];
      var dec := h.phase.decision;
      CoreHolds(s, t);
      CloseTxSound(s, t, nextRun);
      var tx := CloseTx(s, h, t, dec, nextRun);
      assert PhaseTrue(Committed(s, tx, reply), t, h.no, h.phase) by {
        QuietPhase(s.d, Committed(s, tx, reply), t, h.no, h.phase, s.next);
      }
      TxMoveKeepsCore(s, t, tx, reply, DoClose(s, t, reply, nextRun, stop).hs[t].phase);
    }
  }

  lemma QuietPhase(d: Diagnosis, e: Diagnosis, t: nat, no: nat, p: Phase, next: nat)
    requires (Sound(d, e, next) || e == d) && PhaseTrue(d, t, no, p)
    ensures PhaseTrue(e, t, no, p)
  {
  }

  lemma CloseTxSound(s: Sys, t: nat, nextRun: nat)
    requires CoreInv(s) && t in s.hs && s.hs[t].phase.Closing? && !s.hs[t].phase.decision.Leave?
    ensures Sound(s.d, CloseTx(s, s.hs[t], t, s.hs[t].phase.decision, nextRun).d, s.next)
  {
    hide CoreInv, Sound;
    var h := s.hs[t];
    CoreHolds(s, t);
    SelfSound(s.d, s.next);
    match h.phase.decision
    case CloseSuccess =>
    case CloseCancel => CloseCancelSound(s.d, s.next, h.worker, t);
    case CloseFailure(_, _, _, _) => CloseFailureSound(s.d, s.next, h.worker, t, h.phase.decision, nextRun);
  }

  /* ----- all steps, all runs ----- */

  lemma RowStepKeepsCore(s: Sys, step: Step)
    requires CoreInv(s)
    requires step.ReturnStep? || step.RenewStep? || step.ReapStep? || step.SweepStep? || step.CancelStep?
    ensures CoreInv(Apply(s, step))
  {
    hide HandlersOk, ClaimsOk, AttemptsOk, Quiet;
    SelfSound(s.d, s.next);
    match step
    case ReturnStep(t) =>
      if t in s.claims {
        ReturnSound(s.d, s.next, Claim(s.claims[t].worker, t, s.claims[t].gen));
        QuietKeepsCore(s, DoReturn(s, t).d);
      }
    case RenewStep(t, until) =>
      if t in s.claims {
        RenewSound(s.d, s.next, s.now, s.claims[t].worker, t, until);
        QuietKeepsCore(s, DoRenew(s, t, until).d);
      }
    case ReapStep(nextRun) =>
      ReapSound(s.d, s.next, s.now, nextRun);
      QuietKeepsCore(s, ReapExpired(s.d, s.now, nextRun).d);
    case SweepStep(a) => SweepSound(s.d, s.next, s.now, a); QuietKeepsCore(s, RecoverStaleAttempt(s.d, s.now, a).d);
    case CancelStep => CancelSound(s.d, s.next); QuietKeepsCore(s, RequestCancellation(s.d).d);
  }

  lemma ClockKeepsCore(s: Sys, now: nat)
    requires CoreInv(s)
    ensures CoreInv(s.(now := now))
  {
    hide AttemptsOk, SuccessOk, JobOk;
    HandlersStay(s, s.(now := now), s.next);
    ClaimsStay(s, s.(now := now));
  }

  lemma StepKeepsCore(s: Sys, step: Step)
    requires CoreInv(s)
    ensures CoreInv(Apply(s, step))
  {
    hide CoreInv, DoClaim, DoStart, DoCause, DoLaunch, DoEnter, DoAttempt, DoLoad, DoBegin, DoCheck, DoCall, DoSettle,
      DoEnd, DoInspect, DoSave, DoRoute, DoDivert, DoFinalize, DoResolve, DoDecide, DoClose;
    match step
    case Tick(dt) => ClockKeepsCore(s, s.now + dt);
    case ClaimStep(worker, duration, skip) => ClaimKeepsCore(s, worker, duration, skip);
    case StartStep(t) => StartKeepsCore(s, t);
    case ReturnStep(_) => RowStepKeepsCore(s, step);
    case RenewStep(_, _) => RowStepKeepsCore(s, step);
    case ReapStep(_) => RowStepKeepsCore(s, step);
    case SweepStep(_) => RowStepKeepsCore(s, step);
    case CancelStep => RowStepKeepsCore(s, step);
    case RequeueStep => if ManualRequeue(s.d, s.now).err == Ok { NewGenerationKeepsCore(s, s.now); }
    case RetryStep => if RetryDiagnosis(s.d, s.now).err == Ok { NewGenerationKeepsCore(s, s.now); }
    case CauseStep(t, cause) => CauseKeepsCore(s, t, cause);
    case LaunchStep(t) => LaunchKeepsCore(s, t);
    case EnterStep(t, ok) => EnterKeepsCore(s, t, ok);
    case AttemptStep(t, reply) => AttemptKeepsCore(s, t, reply);
    case LoadStep(t, ok, compatible, sound) => LoadKeepsCore(s, t, ok, compatible, sound);
    case BeginStep(t, reply, again) => BeginKeepsCore(s, t, reply, again);
    case CheckStep(t, reply, again) => CheckKeepsCore(s, t, reply, again);
    case CallStep(t, outcome) => CallKeepsCore(s, t, outcome);
    case SettleStep(t, reply, again) => SettleKeepsCore(s, t, reply, again);
    case EndStep(t, kind, result) => EndKeepsCore(s, t, kind, result);
    case InspectStep(t, ok) => InspectKeepsCore(s, t, ok);
    case SaveStep(t, reply, oversize) => SaveKeepsCore(s, t, reply, oversize);
    case RouteStep(t, cls, code, oversize) => RouteKeepsCore(s, t, cls, code, oversize);
    case DivertStep(t) => DivertKeepsCore(s, t);
    case FinalizeStep(t, reply) => FinalizeKeepsCore(s, t, reply);
    case ResolveStep(t, ok) => ResolveKeepsCore(s, t, ok);
    case DecideStep(t) => DecideKeepsCore(s, t);
    case CloseStep(t, reply, nextRun, stop) => CloseKeepsCore(s, t, reply, nextRun, stop);
  }

  /** The core facts hold after every sequence of steps from a new diagnosis. */
  lemma {:induction false} ReachableCore(now: nat, steps: seq<Step>)
    ensures CoreInv(Exec(Init(now), steps))
  {
    if steps != [] {
      ReachableCore(now, steps[..|steps| - 1]);
      StepKeepsCore(Exec(Init(now), steps[..|steps| - 1]), steps[|steps| - 1]);
    }
  }
}
