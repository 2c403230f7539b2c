/** One function per store transaction: the rows before, the arguments, the rows after.

    A guard that does not hold makes the transaction roll back, so every function is total and
    returns the unchanged rows together with the error that the store reports. */
module Transactions {
  import opened Rows

  const MAX_ATTEMPTS: nat := 3

  /* ----- creation, claims and leases (analysis_jobs) ----- */

  /** A new diagnosis: a queued run and its pending job, inserted together. */
  function Create(now: nat): Diagnosis {
    Diagnosis(
      Job(Pending, 1, 0, MAX_ATTEMPTS, false, None, None, None, now, false, None, None, None),
      Run(RunQueued, false, None), [], [])
  }

  predicate Claimable(j: Job, now: nat) {
    (j.status.Pending? || j.status.RetryWait?) && j.nextRun <= now
  }

  function ClaimJob(d: Diagnosis, now: nat, worker: nat, token: nat, duration: nat): Tx {
    if Claimable(d.job, now) then
      Tx(Ok, d.(job := d.job.(status := Running, worker := Some(worker), token := Some(token),
                              lease := Some(now + duration), started := false)))
    else
      Tx(Rejected, d)
  }

  function MarkExecutionStarted(d: Diagnosis, now: nat, c: Claim): Tx {
    var j := d.job;
    if !(Owns(j, c.worker, c.token) && j.gen == c.gen && LiveLease(j, now)) then Tx(OwnershipLost, d)
    else if j.started then Tx(Ok, d)
    else Tx(Ok, d.(job := j.(started := true, count := j.count + 1)))
  }

  function ReturnUndispatchedClaim(d: Diagnosis, c: Claim): Tx {
    var j := d.job;
    if Owns(j, c.worker, c.token) && j.gen == c.gen && !j.started then
      Tx(Ok, d.(job := j.(status := Pending, worker := None, token := None, lease := None)))
    else
      Tx(OwnershipLost, d)
  }

  function RenewLease(d: Diagnosis, now: nat, worker: nat, token: nat, until: nat): Tx {
    if Owns(d.job, worker, token) && LiveLease(d.job, now) then
      Tx(Ok, d.(job := d.job.(lease := Some(until))))
    else
      Tx(OwnershipLost, d)
  }

  /* ----- locks shared by the diagnosis transactions ----- */

  function LockLiveJob(d: Diagnosis, now: nat, c: Claim): Err {
    var j := d.job;
    var mine := Owns(j, c.worker, c.token) && j.gen == c.gen && j.started;
    if mine && !j.cancel then (if LiveLease(j, now) then Ok else OwnershipLost)
    else if TerminalJob(j.status) then AlreadyFinalized
    else if mine then CancelRequested
    else OwnershipLost
  }

  function ExpectedAttemptNo(count: nat): nat { if count == 0 then 1 else count }

  /** The lock taken by every finalizer. It checks the claim, not the lease. */
  function LockExecution(d: Diagnosis, c: Claim, checkGen: bool, a: nat, cancellation: bool): Err {
    var j := d.job;
    if !(Owns(j, c.worker, c.token) && j.started) then
      (if TerminalJob(j.status) then AlreadyFinalized else OwnershipLost)
    else if checkGen && j.gen != c.gen then OwnershipLost
    else if j.cancel && !cancellation then CancelRequested
    else if !j.cancel && cancellation then CancelNotRequested
    else if !d.run.status.RunRunning? then RunConflict
    else if d.run.cancel && !cancellation then CancelRequested
    else if !d.run.cancel && cancellation then CancelNotRequested
    else if !(a < |d.attempts| && d.attempts[a].gen == j.gen && d.attempts[a].no == ExpectedAttemptNo(j.count)
              && d.attempts[a].status.AttemptRunning?) then AttemptNotRunning
    else if d.attempts[a].worker != c.worker then OwnershipLost
    else Ok
  }

  /** The lock taken by dispatch and checkpoint steps: as above, and the lease must be live. */
  function LockLiveExecution(d: Diagnosis, now: nat, c: Claim, a: nat, no: nat): Err {
    var e := LockExecution(d, c, true, a, false);
    if e != Ok then e
    else if !LiveLease(d.job, now) then OwnershipLost
    else if d.attempts[a].no != no then OwnershipLost
    else Ok
  }

  function SetAttempt(d: Diagnosis, a: nat, row: Attempt): Diagnosis
    requires a < |d.attempts|
  {
    d.(attempts := d.attempts[a := row])
  }

  /* ----- attempts, provider dispatch and checkpoints (diagnosis_attempts) ----- */

  function StartAttempt(d: Diagnosis, now: nat, c: Claim, no: nat): Tx {
    var e := LockLiveJob(d, now, c);
    if e != Ok then Tx(e, d)
    else if no != ExpectedAttemptNo(d.job.count) then Tx(OwnershipLost, d)
    else if d.run.cancel then Tx(CancelRequested, d)
    else if !(d.run.status.RunQueued? || d.run.status.RunRunning?) then Tx(Rejected, d)
    else
      Tx(Ok, d.(run := d.run.(status := RunRunning),
                attempts := d.attempts + [Attempt(c.gen, no, c.worker, AttemptRunning, false, false, NoCheckpoint,
                                                  false, false)]))
  }

  function BeginProviderDispatch(d: Diagnosis, now: nat, c: Claim, a: nat, no: nat): Tx {
    var e := LockLiveExecution(d, now, c, a, no);
    if e != Ok then Tx(e, d)
    else Tx(Ok, SetAttempt(d, a, d.attempts[a].(unresolved := true)))
  }

  function CheckDispatchAuthority(d: Diagnosis, now: nat, c: Claim, a: nat, no: nat): Err {
    var e := LockLiveExecution(d, now, c, a, no);
    if e != Ok then e
    else if !d.attempts[a].unresolved then OwnershipLost
    else Ok
  }

  function DispatchSucceeded(d: Diagnosis, now: nat, c: Claim, a: nat, no: nat): Tx {
    var e := LockLiveExecution(d, now, c, a, no);
    if e != Ok then Tx(e, d)
    else if !d.attempts[a].unresolved then Tx(OwnershipLost, d)
    else Tx(Ok, SetAttempt(d, a, d.attempts[a].(successSeen := true)))
  }

  /** The second component of the store's answer: did this call clear the marker? */
  function DispatchResolves(d: Diagnosis, now: nat, c: Claim, a: nat, no: nat): bool {
    LockLiveExecution(d, now, c, a, no) == Ok && !d.attempts[a].successSeen
  }

  function DispatchFailedDefinitely(d: Diagnosis, now: nat, c: Claim, a: nat, no: nat): Tx {
    var e := LockLiveExecution(d, now, c, a, no);
    if e != Ok then Tx(e, d)
    else if d.attempts[a].successSeen then Tx(Ok, d)
    else Tx(Ok, SetAttempt(d, a, d.attempts[a].(unresolved := false)))
  }

  function SaveCheckpoint(d: Diagnosis, now: nat, c: Claim, a: nat, no: nat, kind: CheckpointKind,
                          unknownCode: bool): Tx {
    var e := LockLiveExecution(d, now, c, a, no);
    if e != Ok then Tx(e, d)
    else
      var final := kind.FinalValid? || kind.FinalInvalid?;
      var row := d.attempts[a].(kind := kind, unknownCode := unknownCode, completed := final);
      Tx(Ok, SetAttempt(d, a, if final then row.(unresolved := false, successSeen := false) else row))
  }

  /** Position of the newest attempt of a generation that holds a final checkpoint. */
  function LatestFinalCheckpoint(atts: seq<Attempt>, gen: nat): (r: Option<nat>)
    ensures r.Some? ==> r.value < |atts| && atts[r.value].gen == gen && FinalCheckpoint(atts[r.value])
                        && forall i :: r.value < i < |atts| && atts[i].gen == gen ==> !FinalCheckpoint(atts[i])
    ensures r.None? ==> forall i :: 0 <= i < |atts| && atts[i].gen == gen ==> !FinalCheckpoint(atts[i])
  {
    if atts == [] then None
    else if atts[|atts| - 1].gen == gen && FinalCheckpoint(atts[|atts| - 1]) then Some(|atts| - 1)
    else LatestFinalCheckpoint(atts[..|atts| - 1], gen)
  }

  /** Position of the newest attempt of a generation. */
  function LatestAttempt(atts: seq<Attempt>, gen: nat): (r: Option<nat>)
    ensures r.Some? ==> r.value < |atts| && atts[r.value].gen == gen
                        && forall i :: r.value < i < |atts| ==> atts[i].gen != gen
    ensures r.None? ==> forall i :: 0 <= i < |atts| ==> atts[i].gen != gen
  {
    if atts == [] then None
    else if atts[|atts| - 1].gen == gen then Some(|atts| - 1)
    else LatestAttempt(atts[..|atts| - 1], gen)
  }

  /** Position of the attempt numbered no, if there is one. */
  function FindAttempt(atts: seq<Attempt>, gen: nat, no: nat): (r: Option<nat>)
    ensures r.Some? ==> r.value < |atts| && atts[r.value].gen == gen && atts[r.value].no == no
    ensures r.None? ==> forall i :: 0 <= i < |atts| ==> !(atts[i].gen == gen && atts[i].no == no)
  {
    if atts == [] then None
    else if atts[|atts| - 1].gen == gen && atts[|atts| - 1].no == no then Some(|atts| - 1)
    else FindAttempt(atts[..|atts| - 1], gen, no)
  }

  /** Close every running attempt of a generation (of number no only, when a number is given). */
  function CloseRunning(atts: seq<Attempt>, gen: nat, no: Option<nat>, status: AttemptStatus): seq<Attempt> {
    seq(|atts|, i requires 0 <= i < |atts| => CloseOne(atts[i], gen, no, status))
  }

  function CloseOne(a: Attempt, gen: nat, no: Option<nat>, status: AttemptStatus): Attempt {
    if a.gen == gen && (no.None? || a.no == no.value) && a.status.AttemptRunning? then a.(status := status) else a
  }

  /* ----- finalizers of the diagnosis store ----- */

  function FinalizeSuccess(d: Diagnosis, c: Claim, a: nat): Tx {
    var e := LockExecution(d, c, false, a, false);
    if e != Ok then Tx(e, d)
    else
      Tx(Ok, Diagnosis(d.job.(status := Succeeded),
                       d.run.(status := RunSucceeded, final := Some(a)),
                       d.attempts[a := d.attempts[a].(status := AttemptSucceeded, completed := true)],
                       d.reports + [Report(a, true)]))
  }

  function FinalizeInvalidReport(d: Diagnosis, c: Claim, a: nat): Tx {
    var e := LockExecution(d, c, false, a, false);
    if e != Ok then Tx(e, d)
    else
      Tx(Ok, Diagnosis(d.job.(status := Failed, reason := Some(PermanentReason), errClass := Some(Permanent),
                              errCode := Some(InvalidStructuredReport)),
                       d.run.(status := RunFailed, final := Some(a)),
                       d.attempts[a := d.attempts[a].(status := AttemptFailedTerminal)],
                       d.reports + [Report(a, false)]))
  }

  function ReasonFor(cls: ErrorClass): TerminalReason {
    if cls.Retryable? then RetryableExhausted else PermanentReason
  }

  function FinalizeDiagnosisFailure(d: Diagnosis, c: Claim, a: nat, cls: ErrorClass, code: ErrorCode): Tx {
    var e := LockExecution(d, c, true, a, false);
    if cls.OwnershipClass? then Tx(Rejected, d)
    else if e != Ok then Tx(e, d)
    else
      Tx(Ok, Diagnosis(d.job.(status := Failed, reason := Some(ReasonFor(cls)), errClass := Some(cls),
                              errCode := Some(code)),
                       d.run.(status := RunFailed, final := Some(a)),
                       d.attempts[a := d.attempts[a].(status := AttemptFailedTerminal)],
                       d.reports))
  }

  function FinalizeRetryableAttempt(d: Diagnosis, c: Claim, a: nat): Tx {
    var e := LockExecution(d, c, true, a, false);
    if e != Ok then Tx(e, d)
    else Tx(Ok, SetAttempt(d, a, d.attempts[a].(status := AttemptFailedRetryable)))
  }

  function FinalizeCancellation(d: Diagnosis, c: Claim, a: nat): Tx {
    var e := LockExecution(d, c, false, a, true);
    if e != Ok then Tx(e, d)
    else
      Tx(Ok, Diagnosis(d.job.(status := Cancelled, reason := Some(CancelledReason)),
                       d.run.(status := RunCancelled, final := Some(a)),
                       d.attempts[a := d.attempts[a].(status := AttemptCancelled)],
                       d.reports))
  }

  /* ----- generic finalizers of the job store ----- */

  predicate OwnedRunning(j: Job, worker: nat, token: nat) { Owns(j, worker, token) && j.started }

  function Coalesce<T>(a: Option<T>, b: Option<T>): Option<T> { if a.Some? then a else b }

  function ConditionalFinalizeCancel(d: Diagnosis, worker: nat, token: nat): Tx {
    if !OwnedRunning(d.job, worker, token) then Tx(OwnershipLost, d)
    else if !d.job.cancel then Tx(CancelNotRequested, d)
    else if TerminalRun(d.run.status) && !d.run.status.RunCancelled? then Tx(Rejected, d)
    else
      var atts := CloseRunning(d.attempts, d.job.gen, None, AttemptAbandoned);
      Tx(Ok, d.(job := d.job.(status := Cancelled, reason := Some(CancelledReason)),
                attempts := atts,
                run := if d.run.status.RunCancelled? then d.run
                       else Run(RunCancelled, true, Coalesce(LatestAttempt(atts, d.job.gen), d.run.final))))
  }

  /** The generic success path moves only the job row; the diagnosis finalizer moves all three. */
  function ConditionalFinalizeSuccess(d: Diagnosis, worker: nat, token: nat): Tx {
    if !OwnedRunning(d.job, worker, token) then Tx(OwnershipLost, d)
    else if d.job.cancel then ConditionalFinalizeCancel(d, worker, token)
    else Tx(Ok, d.(job := d.job.(status := Succeeded)))
  }

  /** Terminal failure of the business rows: the run and the running attempts of the generation. */
  function FailBusiness(d: Diagnosis, reaped: bool): Tx {
    if d.run.status.RunSucceeded? || d.run.status.RunCancelled? then Tx(Rejected, d)
    else
      var atts := CloseRunning(d.attempts, d.job.gen, None, if reaped then AttemptAbandoned else AttemptFailedTerminal);
      Tx(Ok, d.(attempts := atts, run := Run(RunFailed, d.run.cancel, LatestAttempt(atts, d.job.gen))))
  }

  function ConditionalFinalizeFailure(d: Diagnosis, worker: nat, token: nat, cls: ErrorClass, code: ErrorCode,
                                      reason: Option<TerminalReason>, terminal: bool, nextRun: nat): Tx {
    if !OwnedRunning(d.job, worker, token) then Tx(OwnershipLost, d)
    else if d.job.cancel then ConditionalFinalizeCancel(d, worker, token)
    else if !terminal then
      Tx(Ok, d.(job := d.job.(status := RetryWait, nextRun := nextRun, errClass := Some(cls), errCode := Some(code))))
    else
      var failed := FailBusiness(d.(job := d.job.(status := Failed, reason := reason, errClass := Some(cls),
                                                  errCode := Some(code))), false);
      if failed.err == Ok then failed else Tx(failed.err, d)
  }

  /* ----- lease recovery ----- */

  predicate Expired(j: Job, now: nat) { j.status.Running? && j.lease.Some? && j.lease.value < now }

  /** The attempt that must not be replayed: current number, running or already abandoned, marker or code set. */
  function OutcomeUnknownMarker(d: Diagnosis): Option<nat> {
    var f := FindAttempt(d.attempts, d.job.gen, d.job.count);
    if f.Some?
       && (d.attempts[f.value].status.AttemptRunning? || d.attempts[f.value].status.AttemptAbandoned?)
       && (d.attempts[f.value].unknownCode || d.attempts[f.value].unresolved)
    then f else None
  }

  function CancelExpired(d: Diagnosis): Tx {
    if TerminalRun(d.run.status) && !d.run.status.RunCancelled? then Tx(Rejected, d)
    else
      Tx(Ok, d.(job := d.job.(status := Cancelled, reason := Some(CancelledReason)),
                attempts := CloseRunning(d.attempts, d.job.gen, Some(d.job.count), AttemptAbandoned),
                run := if d.run.status.RunCancelled? then d.run
                       else Run(RunCancelled, true, FindAttempt(d.attempts, d.job.gen, d.job.count))))
  }

  function FailOutcomeUnknown(d: Diagnosis, a: nat): Tx
    requires a < |d.attempts|
  {
    if !(d.run.status.RunRunning? && !d.run.cancel) then Tx(Rejected, d)
    else
      Tx(Ok, d.(job := d.job.(status := Failed, reason := Some(PermanentReason), errClass := Some(Permanent),
                              errCode := Some(ProviderOutcomeUnknown)),
                run := d.run.(status := RunFailed, final := Some(a)),
                attempts := d.attempts[a := d.attempts[a].(status := AttemptFailedTerminal)]))
  }

  /** What the reaper does to one job whose lease has expired. */
  function ReapExpired(d: Diagnosis, now: nat, nextRun: nat): Tx {
    var j := d.job;
    var marker := OutcomeUnknownMarker(d);
    if !Expired(j, now) then Tx(Rejected, d)
    else if j.cancel then CancelExpired(d)
    else if !j.started then
      Tx(Ok, d.(job := j.(status := Pending, nextRun := now, worker := None, token := None, lease := None)))
    else if marker.Some? then
      FailOutcomeUnknown(d, marker.value)
    else if j.count < j.max then
      Tx(Ok, d.(job := j.(status := RetryWait, nextRun := nextRun, errClass := Some(OwnershipClass),
                          errCode := Some(LeaseExpired)),
                attempts := CloseRunning(d.attempts, j.gen, Some(j.count), AttemptAbandoned)))
    else
      var failed := FailBusiness(d, true);
      if failed.err != Ok then Tx(failed.err, d)
      else Tx(Ok, failed.d.(job := j.(status := Failed, reason := Some(RetryableExhausted),
                                      errClass := Some(OwnershipClass),
                                      errCode := Some(LeaseExpiredExhausted))))
  }

  /** The stale-attempt sweeper. A live lease protects only the attempt of the current claim. */
  function RecoverStaleAttempt(d: Diagnosis, now: nat, a: nat): Tx {
    if !(a < |d.attempts| && d.attempts[a].status.AttemptRunning?) then Tx(Ok, d)
    else if d.job.status.Running? && d.job.started && d.job.gen == d.attempts[a].gen && d.job.count == d.attempts[a].no
            && d.job.worker == Some(d.attempts[a].worker) && LiveLease(d.job, now) then Tx(LeaseActive, d)
    else Tx(Ok, SetAttempt(d, a, d.attempts[a].(status := AttemptAbandoned)))
  }

  /* ----- user operations ----- */

  function RequestCancellation(d: Diagnosis): Tx {
    var j := d.job;
    var terminalize :=
      (d.run.status.RunQueued? && (j.status.Pending? || j.status.RetryWait? || j.status.Cancelled?)) ||
      (d.run.status.RunRunning? && (j.status.RetryWait? || j.status.Cancelled?));
    if terminalize then
      Tx(Ok, d.(job := j.(cancel := true, status := Cancelled, reason := Some(CancelledReason)),
                run := d.run.(cancel := true, status := RunCancelled)))
    else if (d.run.status.RunQueued? || d.run.status.RunRunning?) && j.status.Running? then
      Tx(Ok, d.(job := j.(cancel := true), run := d.run.(cancel := true)))
    else
      Tx(Rejected, d)
  }

  function FreshGeneration(j: Job, now: nat): Job {
    Job(Pending, j.gen + 1, 0, j.max, false, None, None, None, now, false, None, None, None)
  }

  function ManualRequeue(d: Diagnosis, now: nat): Tx {
    if d.run.status.RunFailed? && d.job.status.Failed? && d.job.reason == Some(RetryableExhausted) then
      Tx(Ok, d.(job := FreshGeneration(d.job, now), run := Run(RunQueued, false, None)))
    else
      Tx(Rejected, d)
  }

  predicate IsRetryableProviderFailure(cls: ErrorClass, code: ErrorCode) {
    (cls.Permanent? && (code.ProviderProgressAborted? || code.ProviderOutcomeUnknown?
                          || code.CheckpointSaveFailed? || code.CheckpointVersionMismatch?))
    || (cls.Retryable? && code.ProviderTransient?)
  }

  function RetryDiagnosis(d: Diagnosis, now: nat): Tx {
    if d.job.status.Failed? && d.job.errClass.Some? && d.job.errCode.Some?
       && IsRetryableProviderFailure(d.job.errClass.value, d.job.errCode.value) && d.run.status.RunFailed? then
      Tx(Ok, d.(job := FreshGeneration(d.job, now), run := Run(RunQueued, false, None)))
    else
      Tx(Rejected, d)
  }
}
