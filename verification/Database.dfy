/** The tables and the transactions on them, as the stores run them: read under lock, check, update in
    place, and restore everything when a later statement of the transaction finds a conflict.

    Row r of every table belongs to diagnosis r: a run and its job are inserted together, and the
    unique index on job type and resource keeps them one to one. Each method is proved to do to the
    rows of its diagnosis exactly what the transaction function says, and nothing to any other. */
module Database {
  import opened Rows
  import T = Transactions

  class Tables {
    var jobs: seq<Job>
    var runs: seq<Run>
    var attempts: seq<seq<Attempt>>
    var reports: seq<seq<Report>>
    var now: nat
    /** The next claim token; a cluster keeps every token handed out below it. */
    var nextToken: nat

    ghost predicate Valid()
      reads this
    {
      |runs| == |jobs| && |attempts| == |jobs| && |reports| == |jobs|
    }

    /** The rows of one diagnosis. */
    function View(r: nat): Diagnosis
      requires Valid() && r < |jobs|
      reads this
    {
      Diagnosis(jobs[r], runs[r], attempts[r], reports[r])
    }

    /** Diagnosis r now reads d; every other row, the clock and the token counter are as before. */
    twostate predicate Became(r: nat, d: Diagnosis)
      requires old(Valid())
      reads this
    {
      && Valid() && |jobs| == old(|jobs|) && now == old(now) && nextToken == old(nextToken)
      && (r < |jobs| ==> View(r) == d)
      && forall q | 0 <= q < |jobs| && q != r :: View(q) == old(View(q))
    }

    constructor (clock: nat)
      ensures Valid() && |jobs| == 0 && now == clock && nextToken == 0
    {
      jobs, runs, attempts, reports := [], [], [], [];
      now, nextToken := clock, 0;
    }

    method Tick(dt: nat)
      requires Valid()
      modifies this`now
      ensures now == old(now) + dt
    {
      now := now + dt;
    }

    method Create() returns (r: nat)
      requires Valid()
      modifies this
      ensures Valid() && r == old(|jobs|) && |jobs| == r + 1 && now == old(now) && nextToken == old(nextToken)
      ensures View(r) == T.Create(now)
      ensures forall q | 0 <= q < r :: View(q) == old(View(q))
    {
      r := |jobs|;
      runs := runs + [Run(RunQueued, false, None)];
      jobs := jobs + [Job(Pending, 1, 0, 3, false, None, None, None, now, false, None, None, None)];
      attempts := attempts + [[]];
      reports := reports + [[]];
    }

    /* ----- locks ----- */

    method LockLiveJob(r: nat, c: Claim) returns (err: Err)
      requires Valid() && r < |jobs|
      ensures err == T.LockLiveJob(View(r), now, c)
    {
      var j := jobs[r];
      if j.status == Running && j.worker == Some(c.worker) && j.token == Some(c.token) && j.gen == c.gen && j.started
         && !j.cancel {
        if j.lease.None? || j.lease.value <= now { return OwnershipLost; }
        return Ok;
      }
      if j.status == Succeeded || j.status == Failed || j.status == Cancelled { return AlreadyFinalized; }
      if j.status == Running && j.worker == Some(c.worker) && j.token == Some(c.token) && j.gen == c.gen && j.started
         && j.cancel {
        return CancelRequested;
      }
      return OwnershipLost;
    }

    method LockExecution(r: nat, c: Claim, checkGen: bool, a: nat, cancellation: bool) returns (err: Err)
      requires Valid() && r < |jobs|
      ensures err == T.LockExecution(View(r), c, checkGen, a, cancellation)
      ensures err == Ok ==> a < |attempts[r]|
    {
      var j := jobs[r];
      if !(j.status == Running && j.worker == Some(c.worker) && j.token == Some(c.token) && j.started) {
        if j.status == Succeeded || j.status == Failed || j.status == Cancelled { return AlreadyFinalized; }
        return OwnershipLost;
      }
      if checkGen && j.gen != c.gen { return OwnershipLost; }
      if j.cancel && !cancellation { return CancelRequested; }
      if !j.cancel && cancellation { return CancelNotRequested; }
      var u := runs[r];
      if u.status != RunRunning { return RunConflict; }
      if u.cancel && !cancellation { return CancelRequested; }
      if !u.cancel && cancellation { return CancelNotRequested; }
      var expected := j.count;
      if expected <= 0 { expected := 1; }
      if a >= |attempts[r]| { return AttemptNotRunning; }
      var row := attempts[r][a];
      if row.gen != j.gen || row.no != expected || row.status != AttemptRunning { return AttemptNotRunning; }
      if row.worker != c.worker { return OwnershipLost; }
      return Ok;
    }

    method LockLiveExecution(r: nat, c: Claim, a: nat, no: nat) returns (err: Err)
      requires Valid() && r < |jobs|
      ensures err == T.LockLiveExecution(View(r), now, c, a, no)
      ensures err == Ok ==> a < |attempts[r]|
    {
      err := LockExecution(r, c, true, a, false);
      if err != Ok { return; }
      var j := jobs[r];
      if j.lease.None? || j.lease.value <= now { return OwnershipLost; }
      if attempts[r][a].no != no { return OwnershipLost; }
    }

    /* ----- claims and leases ----- */

    method ClaimJob(r: nat, worker: nat, duration: nat)
      requires Valid() && r < |jobs| && T.Claimable(jobs[r], now)
      modifies this
      ensures Valid() && |jobs| == old(|jobs|) && now == old(now) && nextToken == old(nextToken) + 1
      ensures View(r) == T.ClaimJob(old(View(r)), now, worker, old(nextToken), duration).d
      ensures forall q | 0 <= q < |jobs| && q != r :: View(q) == old(View(q))
    {
      jobs := jobs[r := jobs[r].(status := Running, worker := Some(worker), token := Some(nextToken),
                                 lease := Some(now + duration), started := false)];
      nextToken := nextToken + 1;
    }

    method MarkExecutionStarted(r: nat, c: Claim) returns (err: Err, count: nat)
      requires Valid() && r < |jobs|
      modifies this
      ensures var tx := T.MarkExecutionStarted(old(View(r)), now, c);
        Became(r, tx.d) && err == tx.err && (err == Ok ==> count == tx.d.job.count)
    {
      var j := jobs[r];
      if j.status == Running && j.worker == Some(c.worker) && j.token == Some(c.token) && j.gen == c.gen && !j.started
         && j.lease.Some? && now < j.lease.value {
        jobs := jobs[r := j.(started := true, count := j.count + 1)];
      }
      j := jobs[r];
      if j.status == Running && j.worker == Some(c.worker) && j.token == Some(c.token) && j.gen == c.gen && j.started
         && j.lease.Some? && now < j.lease.value {
        return Ok, j.count;
      }
      return OwnershipLost, 0;
    }

    method ReturnUndispatchedClaim(r: nat, c: Claim) returns (err: Err)
      requires Valid() && r < |jobs|
      modifies this
      ensures var tx := T.ReturnUndispatchedClaim(old(View(r)), c); Became(r, tx.d) && err == tx.err
    {
      var j := jobs[r];
      if j.status == Running && j.worker == Some(c.worker) && j.token == Some(c.token) && j.gen == c.gen && !j.started {
        jobs := jobs[r := j.(status := Pending, worker := None, token := None, lease := None)];
        return Ok;
      }
      return OwnershipLost;
    }

    method RenewLease(r: nat, worker: nat, token: nat, until: nat) returns (err: Err)
      requires Valid() && r < |jobs|
      modifies this
      ensures var tx := T.RenewLease(old(View(r)), now, worker, token, until); Became(r, tx.d) && err == tx.err
    {
      var j := jobs[r];
      if j.status == Running && j.worker == Some(worker) && j.token == Some(token) && j.lease.Some?
         && now < j.lease.value {
        jobs := jobs[r := j.(lease := Some(until))];
        return Ok;
      }
      return OwnershipLost;
    }

    /* ----- attempts, dispatch and checkpoints ----- */

    method StartAttempt(r: nat, c: Claim, no: nat) returns (err: Err)
      requires Valid() && r < |jobs|
      modifies this
      ensures var tx := T.StartAttempt(old(View(r)), now, c, no); Became(r, tx.d) && err == tx.err
    {
      err := LockLiveJob(r, c);
      if err != Ok { return; }
      var expected := jobs[r].count;
      if expected <= 0 { expected := 1; }
      if no != expected { return OwnershipLost; }
      if runs[r].cancel { return CancelRequested; }
      if runs[r].status == RunQueued {
        runs := runs[r := runs[r].(status := RunRunning)];
      } else if runs[r].status != RunRunning {
        return Rejected;
      }
      attempts := attempts[r := attempts[r] + [Attempt(c.gen, no, c.worker, AttemptRunning, false, false, NoCheckpoint,
                                                       false, false)]];
    }

    method SetAttempt(r: nat, a: nat, row: Attempt)
      requires Valid() && r < |jobs| && a < |attempts[r]|
      modifies this
      ensures Became(r, T.SetAttempt(old(View(r)), a, row))
    {
      attempts := attempts[r := attempts[r][a := row]];
    }

    method BeginProviderDispatch(r: nat, c: Claim, a: nat, no: nat) returns (err: Err)
      requires Valid() && r < |jobs|
      modifies this
      ensures var tx := T.BeginProviderDispatch(old(View(r)), now, c, a, no); Became(r, tx.d) && err == tx.err
    {
      err := LockLiveExecution(r, c, a, no);
      if err != Ok { return; }
      SetAttempt(r, a, attempts[r][a].(unresolved := true));
    }

    method CheckDispatchAuthority(r: nat, c: Claim, a: nat, no: nat) returns (err: Err)
      requires Valid() && r < |jobs|
      ensures err == T.CheckDispatchAuthority(View(r), now, c, a, no)
    {
      err := LockLiveExecution(r, c, a, no);
      if err != Ok { return; }
      if !attempts[r][a].unresolved { return OwnershipLost; }
    }

    method DispatchSucceeded(r: nat, c: Claim, a: nat, no: nat) returns (err: Err)
      requires Valid() && r < |jobs|
      modifies this
      ensures var tx := T.DispatchSucceeded(old(View(r)), now, c, a, no); Became(r, tx.d) && err == tx.err
    {
      err := LockLiveExecution(r, c, a, no);
      if err != Ok { return; }
      var row := attempts[r][a];
      if !row.unresolved { return OwnershipLost; }
      if row.successSeen {
        assert attempts[r][a := row.(successSeen := true)] == attempts[r];
        return;
      }
      SetAttempt(r, a, row.(successSeen := true));
    }

    method DispatchFailedDefinitely(r: nat, c: Claim, a: nat, no: nat) returns (resolved: bool, err: Err)
      requires Valid() && r < |jobs|
      modifies this
      ensures var tx := T.DispatchFailedDefinitely(old(View(r)), now, c, a, no); Became(r, tx.d) && err == tx.err
      ensures resolved == old(T.DispatchResolves(View(r), now, c, a, no))
    {
      resolved := false;
      err := LockLiveExecution(r, c, a, no);
      if err != Ok { return; }
      var row := attempts[r][a];
      if row.successSeen { return; }
      SetAttempt(r, a, row.(unresolved := false));
      resolved := true;
    }

    method SaveCheckpoint(r: nat, c: Claim, a: nat, no: nat, kind: CheckpointKind, unknownCode: bool) returns (err: Err)
      requires Valid() && r < |jobs|
      modifies this
      ensures var tx := T.SaveCheckpoint(old(View(r)), now, c, a, no, kind, unknownCode);
        Became(r, tx.d) && err == tx.err
    {
      err := LockLiveExecution(r, c, a, no);
      if err != Ok { return; }
      var row := attempts[r][a].(kind := kind, unknownCode := unknownCode, completed := false);
      if kind == FinalValid || kind == FinalInvalid {
        row := row.(completed := true, unresolved := false, successSeen := false);
      }
      SetAttempt(r, a, row);
    }

    /* ----- finalizers of the diagnosis store ----- */

    /** The last three statements of a verdict: attempt, run and job, in the order they are written. */
    method WriteVerdict(r: nat, a: nat, row: Attempt, run: Run, job: Job)
      requires Valid() && r < |jobs| && a < |attempts[r]|
      modifies this
      ensures Became(r, Diagnosis(job, run, old(attempts[r])[a := row], old(reports[r])))
    {
      attempts := attempts[r := attempts[r][a := row]];
      runs := runs[r := run];
      jobs := jobs[r := job];
    }

    method FinalizeSuccess(r: nat, c: Claim, a: nat) returns (err: Err)
      requires Valid() && r < |jobs|
      modifies this
      ensures var tx := T.FinalizeSuccess(old(View(r)), c, a); Became(r, tx.d) && err == tx.err
    {
      err := LockExecution(r, c, false, a, false);
      if err != Ok { return; }
      reports := reports[r := reports[r] + [Report(a, true)]];
      WriteVerdict(r, a, attempts[r][a].(status := AttemptSucceeded, completed := true),
                   runs[r].(status := RunSucceeded, final := Some(a)), jobs[r].(status := Succeeded));
    }

    method FinalizeInvalidReport(r: nat, c: Claim, a: nat) returns (err: Err)
      requires Valid() && r < |jobs|
      modifies this
      ensures var tx := T.FinalizeInvalidReport(old(View(r)), c, a); Became(r, tx.d) && err == tx.err
    {
      err := LockExecution(r, c, false, a, false);
      if err != Ok { return; }
      reports := reports[r := reports[r] + [Report(a, false)]];
      WriteVerdict(r, a, attempts[r][a].(status := AttemptFailedTerminal),
                   runs[r].(status := RunFailed, final := Some(a)),
                   jobs[r].(status := Failed, reason := Some(PermanentReason), errClass := Some(Permanent),
                            errCode := Some(InvalidStructuredReport)));
    }

    method FinalizeDiagnosisFailure(r: nat, c: Claim, a: nat, cls: ErrorClass, code: ErrorCode) returns (err: Err)
      requires Valid() && r < |jobs|
      modifies this
      ensures var tx := T.FinalizeDiagnosisFailure(old(View(r)), c, a, cls, code); Became(r, tx.d) && err == tx.err
    {
      if cls != Permanent && cls != Retryable { return Rejected; }
      err := LockExecution(r, c, true, a, false);
      if err != Ok { return; }
      var reason := PermanentReason;
      if cls == Retryable { reason := RetryableExhausted; }
      WriteVerdict(r, a, attempts[r][a].(status := AttemptFailedTerminal),
                   runs[r].(status := RunFailed, final := Some(a)),
                   jobs[r].(status := Failed, reason := Some(reason), errClass := Some(cls), errCode := Some(code)));
    }

    method FinalizeRetryableAttempt(r: nat, c: Claim, a: nat) returns (err: Err)
      requires Valid() && r < |jobs|
      modifies this
      ensures var tx := T.FinalizeRetryableAttempt(old(View(r)), c, a); Became(r, tx.d) && err == tx.err
    {
      err := LockExecution(r, c, true, a, false);
      if err != Ok { return; }
      SetAttempt(r, a, attempts[r][a].(status := AttemptFailedRetryable));
    }

    method FinalizeCancellation(r: nat, c: Claim, a: nat) returns (err: Err)
      requires Valid() && r < |jobs|
      modifies this
      ensures var tx := T.FinalizeCancellation(old(View(r)), c, a); Became(r, tx.d) && err == tx.err
    {
      err := LockExecution(r, c, false, a, true);
      if err != Ok { return; }
      WriteVerdict(r, a, attempts[r][a].(status := AttemptCancelled),
                   runs[r].(status := RunCancelled, final := Some(a)),
                   jobs[r].(status := Cancelled, reason := Some(CancelledReason)));
    }

    /* ----- generic finalizers of the job store ----- */

    method ConditionalFinalizeCancel(r: nat, worker: nat, token: nat) returns (err: Err)
      requires Valid() && r < |jobs|
      modifies this
      ensures var tx := T.ConditionalFinalizeCancel(old(View(r)), worker, token); Became(r, tx.d) && err == tx.err
    {
      var j := jobs[r];
      if !(j.status == Running && j.worker == Some(worker) && j.token == Some(token) && j.started) {
        return OwnershipLost;
      }
      if !j.cancel { return CancelNotRequested; }
      var savedJobs, savedAttempts := jobs, attempts;
      jobs := jobs[r := j.(status := Cancelled, reason := Some(CancelledReason))];
      attempts := attempts[r := T.CloseRunning(attempts[r], j.gen, None, AttemptAbandoned)];
      if runs[r].status == RunQueued || runs[r].status == RunRunning {
        var final := T.LatestAttempt(attempts[r], j.gen);
        runs := runs[r := Run(RunCancelled, true, if final.Some? then final else runs[r].final)];
      } else if runs[r].status != RunCancelled {
        jobs, attempts := savedJobs, savedAttempts;
        return Rejected;
      }
      return Ok;
    }

    method ConditionalFinalizeSuccess(r: nat, worker: nat, token: nat) returns (err: Err)
      requires Valid() && r < |jobs|
      modifies this
      ensures var tx := T.ConditionalFinalizeSuccess(old(View(r)), worker, token); Became(r, tx.d) && err == tx.err
    {
      var j := jobs[r];
      if !(j.status == Running && j.worker == Some(worker) && j.token == Some(token) && j.started) {
        return OwnershipLost;
      }
      if j.cancel {
        err := ConditionalFinalizeCancel(r, worker, token);
        return;
      }
      jobs := jobs[r := j.(status := Succeeded)];
      return Ok;
    }

    /** The run and the running attempts of the generation fail together with their job. */
    method FailBusiness(r: nat, reaped: bool) returns (err: Err)
      requires Valid() && r < |jobs|
      modifies this
      ensures var tx := T.FailBusiness(old(View(r)), reaped); Became(r, tx.d) && err == tx.err
    {
      if runs[r].status == RunQueued || runs[r].status == RunRunning {
        runs := runs[r := runs[r].(status := RunFailed)];
      } else if runs[r].status != RunFailed {
        return Rejected;
      }
      var status := AttemptFailedTerminal;
      if reaped { status := AttemptAbandoned; }
      attempts := attempts[r := T.CloseRunning(attempts[r], jobs[r].gen, None, status)];
      runs := runs[r := runs[r].(final := T.LatestAttempt(attempts[r], jobs[r].gen))];
      return Ok;
    }

    /** The job is written first; when the business rows turn out to be in conflict, the whole
        transaction is undone. */
    method ConditionalFinalizeFailure(r: nat, worker: nat, token: nat, cls: ErrorClass, code: ErrorCode,
                                      reason: Option<TerminalReason>, terminal: bool, nextRun: nat) returns (err: Err)
      requires Valid() && r < |jobs|
      modifies this
      ensures var tx := T.ConditionalFinalizeFailure(old(View(r)), worker, token, cls, code, reason, terminal, nextRun);
        Became(r, tx.d) && err == tx.err
    {
      var j := jobs[r];
      if !(j.status == Running && j.worker == Some(worker) && j.token == Some(token) && j.started) {
        return OwnershipLost;
      }
      if j.cancel {
        err := ConditionalFinalizeCancel(r, worker, token);
        return;
      }
      if !terminal {
        jobs := jobs[r := j.(status := RetryWait, nextRun := nextRun, errClass := Some(cls), errCode := Some(code))];
        return Ok;
      }
      jobs := jobs[r := j.(status := Failed, reason := reason, errClass := Some(cls), errCode := Some(code))];
      assert forall q | 0 <= q < |jobs| && q != r :: View(q) == old(View(q));
      err := FailBusiness(r, false);
      assert forall q | 0 <= q < |jobs| && q != r :: View(q) == old(View(q));
      if err != Ok { jobs := jobs[r := j]; }
    }

    /* ----- lease recovery ----- */

    method CancelExpired(r: nat) returns (err: Err)
      requires Valid() && r < |jobs|
      modifies this
      ensures var tx := T.CancelExpired(old(View(r))); Became(r, tx.d) && err == tx.err
    {
      var savedJobs, savedAttempts := jobs, attempts;
      var j := jobs[r];
      jobs := jobs[r := j.(status := Cancelled, reason := Some(CancelledReason))];
      var final := T.FindAttempt(attempts[r], j.gen, j.count);
      attempts := attempts[r := T.CloseRunning(attempts[r], j.gen, Some(j.count), AttemptAbandoned)];
      if runs[r].status == RunQueued || runs[r].status == RunRunning {
        runs := runs[r := Run(RunCancelled, true, final)];
      } else if runs[r].status != RunCancelled {
        jobs, attempts := savedJobs, savedAttempts;
        return Rejected;
      }
      return Ok;
    }

    method FailOutcomeUnknown(r: nat, a: nat) returns (err: Err)
      requires Valid() && r < |jobs| && a < |attempts[r]|
      modifies this
      ensures var tx := T.FailOutcomeUnknown(old(View(r)), a); Became(r, tx.d) && err == tx.err
    {
      var savedAttempts := attempts;
      attempts := attempts[r := attempts[r][a := attempts[r][a].(status := AttemptFailedTerminal)]];
      if !(runs[r].status == RunRunning && !runs[r].cancel) {
        attempts := savedAttempts;
        return Rejected;
      }
      runs := runs[r := runs[r].(status := RunFailed, final := Some(a))];
      jobs := jobs[r := jobs[r].(status := Failed, reason := Some(PermanentReason), errClass := Some(Permanent),
                                 errCode := Some(ProviderOutcomeUnknown))];
      return Ok;
    }

    /** One iteration of the reaper's loop. */
    method ReapOne(r: nat, nextRun: nat) returns (err: Err)
      requires Valid() && r < |jobs| && T.Expired(jobs[r], now)
      modifies this
      ensures var tx := T.ReapExpired(old(View(r)), now, nextRun); Became(r, tx.d) && err == tx.err
    {
      var j := jobs[r];
      if j.cancel {
        err := CancelExpired(r);
        return;
      }
      if !j.started {
        jobs := jobs[r := j.(status := Pending, nextRun := now, worker := None, token := None, lease := None)];
        return Ok;
      }
      var found := T.FindAttempt(attempts[r], j.gen, j.count);
      if found.Some? {
        var row := attempts[r][found.value];
        if (row.status == AttemptRunning || row.status == AttemptAbandoned) && (row.unknownCode || row.unresolved) {
          err := FailOutcomeUnknown(r, found.value);
          return;
        }
      }
      if j.count < j.max {
        jobs := jobs[r := j.(status := RetryWait, nextRun := nextRun, errClass := Some(OwnershipClass),
                             errCode := Some(LeaseExpired))];
        attempts := attempts[r := T.CloseRunning(attempts[r], j.gen, Some(j.count), AttemptAbandoned)];
        return Ok;
      }
      err := FailBusiness(r, true);
      if err != Ok { return; }
      jobs := jobs[r := j.(status := Failed, reason := Some(RetryableExhausted), errClass := Some(OwnershipClass),
                           errCode := Some(LeaseExpiredExhausted))];
    }

    method RecoverStaleAttempt(r: nat, a: nat) returns (err: Err)
      requires Valid() && r < |jobs|
      modifies this
      ensures var tx := T.RecoverStaleAttempt(old(View(r)), now, a); Became(r, tx.d) && err == tx.err
    {
      if a >= |attempts[r]| || attempts[r][a].status != AttemptRunning { return Ok; }
      var row := attempts[r][a];
      var j := jobs[r];
      if j.status == Running && j.started && j.gen == row.gen && j.count == row.no && j.worker == Some(row.worker)
         && j.lease.Some? && now < j.lease.value {
        return LeaseActive;
      }
      SetAttempt(r, a, row.(status := AttemptAbandoned));
      return Ok;
    }

    /* ----- user operations ----- */

    method RequestCancellation(r: nat) returns (err: Err)
      requires Valid() && r < |jobs|
      modifies this
      ensures var tx := T.RequestCancellation(old(View(r))); Became(r, tx.d) && err == tx.err
    {
      var j, u := jobs[r], runs[r];
      var jobTerminal := false;
      match u.status {
        case RunQueued =>
          if j.status == Pending || j.status == RetryWait || j.status == Cancelled {
            jobTerminal := true;
          } else if j.status != Running {
            return Rejected;
          }
        case RunRunning =>
          if j.status == RetryWait || j.status == Cancelled {
            jobTerminal := true;
          } else if j.status != Running {
            return Rejected;
          }
        case _ => return Rejected;
      }
      j := j.(cancel := true);
      u := u.(cancel := true);
      if jobTerminal {
        j := j.(status := Cancelled, reason := Some(CancelledReason));
        u := u.(status := RunCancelled);
      }
      jobs := jobs[r := j];
      runs := runs[r := u];
      return Ok;
    }

    /** The run is restored first, so a job in the wrong state undoes it. */
    method ManualRequeue(r: nat) returns (err: Err)
      requires Valid() && r < |jobs|
      modifies this
      ensures var tx := T.ManualRequeue(old(View(r)), now); Became(r, tx.d) && err == tx.err
    {
      if runs[r].status != RunFailed { return Rejected; }
      var savedRuns := runs;
      runs := runs[r := Run(RunQueued, false, None)];
      var j := jobs[r];
      if !(j.status == Failed && j.reason == Some(RetryableExhausted)) {
        runs := savedRuns;
        return Rejected;
      }
      jobs := jobs[r := Job(Pending, j.gen + 1, 0, j.max, false, None, None, None, now, false, None, None, None)];
      return Ok;
    }

    method RetryDiagnosis(r: nat) returns (err: Err)
      requires Valid() && r < |jobs|
      modifies this
      ensures var tx := T.RetryDiagnosis(old(View(r)), now); Became(r, tx.d) && err == tx.err
    {
      var j := jobs[r];
      if j.status != Failed || j.errClass.None? || j.errCode.None? { return Rejected; }
      if !T.IsRetryableProviderFailure(j.errClass.value, j.errCode.value) { return Rejected; }
      if runs[r].status != RunFailed { return Rejected; }
      runs := runs[r := Run(RunQueued, false, None)];
      jobs := jobs[r := Job(Pending, j.gen + 1, 0, j.max, false, None, None, None, now, false, None, None, None)];
      return Ok;
    }

    /* ----- batches ----- */

    /** The jobs a poll may claim, in order of their id, up to the batch size. */
    method SelectClaimable(limit: nat) returns (ids: seq<nat>)
      requires Valid()
      ensures |ids| <= limit && forall k | 0 <= k < |ids| :: ids[k] < |jobs| && T.Claimable(jobs[ids[k]], now)
      ensures forall k, l | 0 <= k < l < |ids| :: ids[k] < ids[l]
      ensures forall r | 0 <= r < |jobs| && T.Claimable(jobs[r], now) && r !in ids ::
        |ids| == limit && forall k | 0 <= k < |ids| :: ids[k] < r
    {
      ids := [];
      var r := 0;
      while r < |jobs| && |ids| < limit
        invariant r <= |jobs| && |ids| <= limit
        invariant forall k | 0 <= k < |ids| :: ids[k] < r && T.Claimable(jobs[ids[k]], now)
        invariant forall k, l | 0 <= k < l < |ids| :: ids[k] < ids[l]
        invariant forall q | 0 <= q < r && T.Claimable(jobs[q], now) :: q in ids
      {
        if (jobs[r].status == Pending || jobs[r].status == RetryWait) && jobs[r].nextRun <= now {
          ids := ids + [r];
        }
        r := r + 1;
      }
    }

    /** Claims a batch: exactly the selected jobs change, and each gets its own fresh token. */
    method ClaimJobs(worker: nat, limit: nat, duration: nat) returns (ids: seq<nat>)
      requires Valid()
      modifies this
      ensures Valid() && |jobs| == old(|jobs|) && now == old(now) && nextToken == old(nextToken) + |ids|
      ensures |ids| <= limit
      ensures forall k | 0 <= k < |ids| :: ids[k] < |jobs| && old(T.Claimable(jobs[ids[k]], now))
      ensures forall k, l | 0 <= k < l < |ids| :: ids[k] < ids[l]
      ensures forall k | 0 <= k < |ids| ::
        View(ids[k]) == T.ClaimJob(old(View(ids[k])), now, worker, old(nextToken) + k, duration).d
      ensures forall r | 0 <= r < |jobs| && r !in ids :: View(r) == old(View(r))
      ensures forall r | 0 <= r < |jobs| && r !in ids && old(T.Claimable(jobs[r], now)) :: |ids| == limit
    {
      ids := SelectClaimable(limit);
      var k := 0;
      while k < |ids|
        invariant k <= |ids| && Valid() && |jobs| == old(|jobs|) && now == old(now) && nextToken == old(nextToken) + k
        invariant forall i | 0 <= i < k ::
          View(ids[i]) == T.ClaimJob(old(View(ids[i])), now, worker, old(nextToken) + i, duration).d
        invariant forall r | 0 <= r < |jobs| && (forall i | 0 <= i < k :: ids[i] != r) :: View(r) == old(View(r))
      {
        assert View(ids[k]) == old(View(ids[k]));
        ClaimJob(ids[k], worker, duration);
        k := k + 1;
      }
    }

    method SelectExpired(limit: nat) returns (ids: seq<nat>)
      requires Valid()
      ensures |ids| <= limit && forall k | 0 <= k < |ids| :: ids[k] < |jobs| && T.Expired(jobs[ids[k]], now)
      ensures forall k, l | 0 <= k < l < |ids| :: ids[k] < ids[l]
      ensures forall r | 0 <= r < |jobs| && T.Expired(jobs[r], now) && r !in ids :: |ids| == limit
    {
      ids := [];
      var r := 0;
      while r < |jobs| && |ids| < limit
        invariant r <= |jobs| && |ids| <= limit
        invariant forall k | 0 <= k < |ids| :: ids[k] < r && T.Expired(jobs[ids[k]], now)
        invariant forall k, l | 0 <= k < l < |ids| :: ids[k] < ids[l]
        invariant forall q | 0 <= q < r && T.Expired(jobs[q], now) :: q in ids
      {
        if jobs[r].status == Running && jobs[r].lease.Some? && jobs[r].lease.value < now {
          ids := ids + [r];
        }
        r := r + 1;
      }
    }

    /** Reaps a batch in one transaction: either every selected job is recovered as if it were alone,
        or one conflict undoes them all. */
    method ReapExpiredJobs(limit: nat, delay: nat -> nat) returns (count: nat, err: Err, ghost ids: seq<nat>)
      requires Valid()
      modifies this
      ensures Valid() && |jobs| == old(|jobs|) && now == old(now) && nextToken == old(nextToken) && |ids| <= limit
      ensures forall k | 0 <= k < |ids| :: ids[k] < |jobs| && old(T.Expired(jobs[ids[k]], now))
      ensures forall k, l | 0 <= k < l < |ids| :: ids[k] < ids[l]
      ensures forall r | 0 <= r < |jobs| && r !in ids && old(T.Expired(jobs[r], now)) :: |ids| == limit
      ensures forall r | 0 <= r < |jobs| && r !in ids :: View(r) == old(View(r))
      ensures err == Ok <==> forall k | 0 <= k < |ids| :: Recovered(old(View(ids[k])), now, delay).err == Ok
      ensures err == Ok ==>
        count == |ids| && forall k | 0 <= k < |ids| :: View(ids[k]) == Recovered(old(View(ids[k])), now, delay).d
      ensures err != Ok ==> count == 0 && forall r | 0 <= r < |jobs| :: View(r) == old(View(r))
    {
      hide T.ReapExpired;
      var selected := SelectExpired(limit);
      ids := selected;
      var savedJobs, savedRuns, savedAttempts, savedReports := jobs, runs, attempts, reports;
      count, err := ReapEach(selected, delay);
      if err != Ok {
        jobs, runs, attempts, reports := savedJobs, savedRuns, savedAttempts, savedReports;
        count := 0;
      }
    }

    /** The reaper's loop. It stops at the first conflict and leaves the undoing to the transaction. */
    method ReapEach(ids: seq<nat>, delay: nat -> nat) returns (count: nat, err: Err)
      requires Valid() && forall k | 0 <= k < |ids| :: ids[k] < |jobs| && T.Expired(jobs[ids[k]], now)
      requires forall k, l | 0 <= k < l < |ids| :: ids[k] < ids[l]
      modifies this
      ensures Valid() && |jobs| == old(|jobs|) && now == old(now) && nextToken == old(nextToken) && count <= |ids|
      ensures err == Ok ==> count == |ids|
      ensures err == Ok ==> forall k | 0 <= k < |ids| ::
        Recovered(old(View(ids[k])), now, delay).err == Ok && View(ids[k]) == Recovered(old(View(ids[k])), now, delay).d
      ensures err != Ok ==> count < |ids| && Recovered(old(View(ids[count])), now, delay).err != Ok
      ensures forall r | 0 <= r < |jobs| && r !in ids :: View(r) == old(View(r))
    {
      hide T.ReapExpired;
      count, err := 0, Ok;
      while count < |ids|
        invariant count <= |ids| && Valid() && |jobs| == old(|jobs|) && now == old(now) && nextToken == old(nextToken)
        invariant err == Ok
        invariant forall k | 0 <= k < count ::
          && Recovered(old(View(ids[k])), now, delay).err == Ok
          && View(ids[k]) == Recovered(old(View(ids[k])), now, delay).d
        invariant forall r | 0 <= r < |jobs| && r !in ids[..count] :: View(r) == old(View(r))
      {
        assert View(ids[count]) == old(View(ids[count]));
        err := ReapOne(ids[count], now + delay(jobs[ids[count]].count));
        if err != Ok { return; }
        count := count + 1;
      }
    }
  }

  /** The reaper's effect on one diagnosis, with the backoff that its attempt count earns. */
  function Recovered(d: Diagnosis, now: nat, delay: nat -> nat): Tx { T.ReapExpired(d, now, now + delay(d.job.count)) }
}
