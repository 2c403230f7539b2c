/** What the worker, the reaper and the users do to the durable rows of a diagnosis, by what they found there.
    The statements hold in every state with the facts of Core, hence in every reachable one. */
module Endings {
  import opened Rows
  import opened Transactions
  import opened Handlers
  import opened Protocol
  import opened Core
  import opened CoreSteps
  import opened VerdictSteps
  import opened Outcomes

  /* ----- what a closing transaction leaves behind ----- */

  /** The newest attempt of a generation, or none if it has none. */
  predicate NewestOf(atts: seq<Attempt>, gen: nat, final: Option<nat>) {
    match final
    case Some(i) => i < |atts| && atts[i].gen == gen && forall k | i < k < |atts| :: atts[k].gen != gen
    case None => forall k | 0 <= k < |atts| :: atts[k].gen != gen
  }

  /** The running attempts of a generation, or only that with the given number, got this status; no other
      attempt changed. */
  predicate Swept(atts: seq<Attempt>, e: seq<Attempt>, gen: nat, no: Option<nat>, status: AttemptStatus) {
    && |e| == |atts|
    && forall i | 0 <= i < |atts| ::
      if atts[i].status.AttemptRunning? && atts[i].gen == gen && (no == None || no == Some(atts[i].no))
      then e[i] == atts[i].(status := status)
      else e[i] == atts[i]
  }

  /** The whole run failed: job, run and running attempts together. */
  predicate RunFails(d: Diagnosis, e: Diagnosis, cls: ErrorClass, code: ErrorCode, reason: TerminalReason,
                     status: AttemptStatus) {
    && e.job == d.job.(status := Failed, reason := Some(reason), errClass := Some(cls), errCode := Some(code))
    && e.run.status.RunFailed? && e.run.cancel == d.run.cancel && NewestOf(d.attempts, d.job.gen, e.run.final)
    && Swept(d.attempts, e.attempts, d.job.gen, None, status) && e.reports == d.reports
  }

  /** Only the job row changed: the next attempt of the same generation waits until nextRun. */
  predicate Waits(d: Diagnosis, e: Diagnosis, cls: ErrorClass, code: ErrorCode, nextRun: nat) {
    e == d.(job := d.job.(status := RetryWait, nextRun := nextRun, errClass := Some(cls), errCode := Some(code)))
  }

  /** Job, run and running attempts were cancelled together. */
  predicate RunCancels(d: Diagnosis, e: Diagnosis) {
    && e.job == d.job.(status := Cancelled, reason := Some(CancelledReason))
    && e.run.status.RunCancelled? && e.run.cancel && e.reports == d.reports
    && (NewestOf(d.attempts, d.job.gen, e.run.final)
        || (e.run.final == d.run.final && NewestOf(d.attempts, d.job.gen, None)))
    && Swept(d.attempts, e.attempts, d.job.gen, None, AttemptAbandoned)
  }

  lemma ClosedSwept(atts: seq<Attempt>, gen: nat, no: Option<nat>, status: AttemptStatus)
    ensures Swept(atts, CloseRunning(atts, gen, no, status), gen, no, status)
  {
  }

  lemma SweptNewest(atts: seq<Attempt>, gen: nat, no: Option<nat>, status: AttemptStatus)
    ensures NewestOf(atts, gen, LatestAttempt(CloseRunning(atts, gen, no, status), gen))
  {
    var e := CloseRunning(atts, gen, no, status);
    assert forall i | 0 <= i < |atts| :: e[i].gen == atts[i].gen;
  }

  /* ----- the worker ----- */

  /** The two steps of a worker whose handler returned: it decides, and its close commits. */
  function Closed(s: Sys, t: nat, nextRun: nat): Sys {
    Apply(Apply(s, DecideStep(t)), CloseStep(t, Faithful, nextRun, false))
  }

  /** The worker leaves the rows alone or applies the transaction of its decision. */
  lemma ClosedBy(s: Sys, t: nat, nextRun: nat)
    requires t in s.hs && s.hs[t].phase.Returned?
    ensures var dec := Decide(s.hs[t].phase.ret, s.hs[t].cause, s.hs[t].no, s.d.job.max);
      var e := Closed(s, t, nextRun);
      && t in e.hs
      && (dec.Leave? ==> e.d == s.d && e.hs[t].phase.Done?)
      && (!dec.Leave? ==>
            var tx := CloseTx(s, s.hs[t], t, dec, nextRun);
            e.d == tx.d && (tx.err == Ok ==> e.hs[t].phase.Done?))
  {
    hide Decide, ConditionalFinalizeFailure, ConditionalFinalizeCancel, ConditionalFinalizeSuccess;
  }

  lemma FailureCloses(s: Sys, t: nat, cls: ErrorClass, code: ErrorCode, reason: TerminalReason, nextRun: nat)
    requires CoreInv(s) && t in s.hs && Live(s.d, t) && !s.d.job.cancel
    ensures var d := ConditionalFinalizeFailure(s.d, s.hs[t].worker, t, cls, code, Some(reason), true, nextRun);
      d.err == Ok && RunFails(s.d, d.d, cls, code, reason, AttemptFailedTerminal)
  {
    hide AttemptsOk, SuccessOk, ClaimsOk, HandlersOk, CloseRunning, Swept, NewestOf, LatestAttempt;
    LivePaid(s, t);
    ClosedSwept(s.d.attempts, s.d.job.gen, None, AttemptFailedTerminal);
    SweptNewest(s.d.attempts, s.d.job.gen, None, AttemptFailedTerminal);
  }

  lemma RetryCloses(s: Sys, t: nat, cls: ErrorClass, code: ErrorCode, nextRun: nat)
    requires CoreInv(s) && t in s.hs && Live(s.d, t) && !s.d.job.cancel
    ensures var d := ConditionalFinalizeFailure(s.d, s.hs[t].worker, t, cls, code, None, false, nextRun);
      d.err == Ok && Waits(s.d, d.d, cls, code, nextRun)
  {
    LivePaid(s, t);
  }

  lemma CancelCloses(s: Sys, t: nat)
    requires CoreInv(s) && t in s.hs && Live(s.d, t) && s.d.job.cancel
    ensures var d := ConditionalFinalizeCancel(s.d, s.hs[t].worker, t); d.err == Ok && RunCancels(s.d, d.d)
  {
    hide AttemptsOk, SuccessOk, ClaimsOk, HandlersOk, CloseRunning, Swept, NewestOf, LatestAttempt;
    LivePaid(s, t);
    ClosedSwept(s.d.attempts, s.d.job.gen, None, AttemptAbandoned);
    SweptNewest(s.d.attempts, s.d.job.gen, None, AttemptAbandoned);
  }

  /** The worker's verdict on a retryable failure: another attempt exactly while attempts are left. */
  predicate RetriedOrExhausted(d: Diagnosis, e: Diagnosis, no: nat, code: ErrorCode, nextRun: nat) {
    if no < MAX_ATTEMPTS then Waits(d, e, Retryable, code, nextRun)
    else RunFails(d, e, Retryable, code, RetryableExhausted, AttemptFailedTerminal)
  }

  /** What a handler returned decides the rows when nothing interrupted it. */
  lemma ReturnCloses(s: Sys, t: nat, nextRun: nat)
    requires CoreInv(s) && t in s.hs && Live(s.d, t) && !s.d.job.cancel
    requires s.hs[t].phase.Returned? && s.hs[t].cause.NoCause?
    ensures var e := Closed(s, t, nextRun);
      && t in e.hs && e.hs[t].phase.Done?
      && match s.hs[t].phase.ret {
        case RetRetryable(code) => RetriedOrExhausted(s.d, e.d, s.hs[t].no, code, nextRun)
        case RetPermanent(code) => RunFails(s.d, e.d, Permanent, code, PermanentReason, AttemptFailedTerminal)
        case RetPolicy(cls, code, reason) => RunFails(s.d, e.d, cls, code, reason, AttemptFailedTerminal)
        case _ => e.d == s.d
      }
  {
    hide CoreInv, Apply, Closed, ConditionalFinalizeFailure, RunFails, Waits;
    ClosedBy(s, t, nextRun);
    LivePaid(s, t);
    LiveReturns(s, t);
    match s.hs[t].phase.ret
    case RetRetryable(code) =>
      FailureCloses(s, t, Retryable, code, RetryableExhausted, nextRun);
      RetryCloses(s, t, Retryable, code, nextRun);
    case RetPermanent(code) => FailureCloses(s, t, Permanent, code, PermanentReason, nextRun);
    case RetPolicy(cls, code, reason) => FailureCloses(s, t, cls, code, reason, nextRun);
    case _ =>
  }

  /** A handler that returned success, a finished run or a cancellation is believed only if the rows say so. */
  lemma LiveReturns(s: Sys, t: nat)
    requires CoreInv(s) && t in s.hs && Live(s.d, t) && s.hs[t].phase.Returned?
    ensures !s.hs[t].phase.ret.RetNil? && !s.hs[t].phase.ret.RetFinalized?
    ensures s.hs[t].phase.ret.RetCancelled? ==> s.d.job.cancel
    ensures s.hs[t].cause.UserCancelCause? ==> s.d.job.cancel
  {
    assert HandlerOk(s, t);
  }

  /** What interrupted a handler decides the rows instead of what it returned. Only an unknown provider outcome
      is still recorded, unless the claim is lost. */
  lemma CauseCloses(s: Sys, t: nat, nextRun: nat)
    requires CoreInv(s) && t in s.hs && Live(s.d, t) && !s.d.job.cancel
    requires s.hs[t].phase.Returned? && !s.hs[t].cause.NoCause?
    ensures var e := Closed(s, t, nextRun); var ret := s.hs[t].phase.ret;
      && t in e.hs && e.hs[t].phase.Done?
      && (if s.hs[t].cause.OwnershipLostCause? then e.d == s.d
          else if ret.RetPolicy? && ret.cls.Permanent? && ret.code.ProviderOutcomeUnknown? then
            RunFails(s.d, e.d, Permanent, ProviderOutcomeUnknown, ret.reason, AttemptFailedTerminal)
          else if s.hs[t].cause.ShutdownCause? then e.d == s.d
          else RetriedOrExhausted(s.d, e.d, s.hs[t].no, OtherCode, nextRun))
  {
    hide CoreInv, Apply, Closed, ConditionalFinalizeFailure, RunFails, Waits;
    ClosedBy(s, t, nextRun);
    LivePaid(s, t);
    LiveReturns(s, t);
    FailureCloses(s, t, Retryable, OtherCode, RetryableExhausted, nextRun);
    RetryCloses(s, t, Retryable, OtherCode, nextRun);
    if s.hs[t].phase.ret.RetPolicy? {
      FailureCloses(s, t, Permanent, ProviderOutcomeUnknown, s.hs[t].phase.ret.reason, nextRun);
    }
  }

  /** A user's cancellation wins over whatever the worker decided, and only a leaving worker writes nothing. */
  lemma CancelledCloses(s: Sys, t: nat, nextRun: nat)
    requires CoreInv(s) && t in s.hs && Live(s.d, t) && s.d.job.cancel && s.hs[t].phase.Returned?
    ensures var e := Closed(s, t, nextRun);
      && t in e.hs && e.hs[t].phase.Done?
      && match s.hs[t].cause {
        case UserCancelCause => RunCancels(s.d, e.d)
        case RetryableCause => RunCancels(s.d, e.d)
        case OwnershipLostCause => e.d == s.d
        case ShutdownCause => PreservedPolicy(s.hs[t].phase.ret) || e.d == s.d
        case NoCause => s.hs[t].phase.ret.RetLost? || s.hs[t].phase.ret.RetShutdown? || RunCancels(s.d, e.d)
      }
  {
    hide CoreInv, Apply, Closed, ConditionalFinalizeCancel, RunCancels;
    ClosedBy(s, t, nextRun);
    LivePaid(s, t);
    LiveReturns(s, t);
    CancelCloses(s, t);
  }

  /** A worker whose claim is gone writes nothing, whatever it decided. */
  lemma DeadCloses(s: Sys, t: nat, nextRun: nat)
    requires CoreInv(s) && t in s.hs && !Live(s.d, t) && s.hs[t].phase.Returned?
    ensures Closed(s, t, nextRun).d == s.d
  {
    hide CoreInv, Apply, Closed, Decide;
    ClosedBy(s, t, nextRun);
  }

  /** After a handler that finalized the run itself, lost its claim or was stopped, the worker is done at once. */
  lemma FinishedIsDone(s: Sys, t: nat)
    requires t in s.hs && s.hs[t].phase.Returned? && s.hs[t].cause.NoCause?
    ensures var ret := s.hs[t].phase.ret; var e := Apply(s, DecideStep(t));
      && e.d == s.d && t in e.hs
      && (ret.RetFinalized? || ret.RetLost? || ret.RetShutdown? <==> e.hs[t].phase.Done?)
  {
  }

  /** A close that was not executed is tried again, unless the worker stops trying. */
  lemma CloseAgain(s: Sys, t: nat, nextRun: nat, stop: bool)
    requires t in s.hs && s.hs[t].phase.Closing? && !s.hs[t].phase.decision.Leave?
    ensures Moved(s, Apply(s, CloseStep(t, NotExecuted, nextRun, stop)), t, if stop then Done else s.hs[t].phase)
  {
    hide ConditionalFinalizeFailure, ConditionalFinalizeCancel, ConditionalFinalizeSuccess;
  }

  /** A finalization whose reply was lost is settled from the row: if it had committed, nothing more is written;
      if it had not, the worker's close writes the same verdict. */
  lemma UnsettledCloses(s: Sys, t: nat)
    requires CoreInv(s) && t in s.hs && s.hs[t].phase.Unsettled?
    ensures var e := Apply(s, ResolveStep(t, true));
      && e.d == s.d && t in e.hs
      && (if Live(s.d, t) && !s.hs[t].phase.expected.Running?
          then e.hs[t] == s.hs[t].(phase := Returned(s.hs[t].phase.ret))
          else e.hs[t].phase.Done?)
    ensures var e := Apply(s, ResolveStep(t, false)); e.d == s.d && t in e.hs && e.hs[t].phase.Done?
  {
    hide CoreInv;
    LivePaid(s, t);
  }

  /** A handler that did not hear of its finalization reads the row before it returns. */
  function Settled(s: Sys, t: nat, reply: Reply): Sys {
    Apply(Apply(s, FinalizeStep(t, reply)), ResolveStep(t, true))
  }

  lemma UnheardLost(s: Sys, t: nat)
    requires CoreInv(s) && Writable(s, t) && s.hs[t].cause.NoCause?
    requires Unheard(s.hs[t].phase).Unsettled? && !s.hs[t].phase.Unsettled? && !s.hs[t].phase.Cancelling?
    ensures var e := Settled(s, t, NotExecuted);
      CoreInv(e) && Moved(s, e, t, Returned(Unheard(s.hs[t].phase).ret))
  {
    hide CoreInv, Apply;
    var e := Apply(s, FinalizeStep(t, NotExecuted));
    FinalizeNotRun(s, t);
    StepKeepsCore(s, FinalizeStep(t, NotExecuted));
    UnsettledCloses(e, t);
    StepKeepsCore(e, ResolveStep(t, true));
    UntouchedByResolve(e, t);
  }

  lemma UntouchedByResolve(s: Sys, t: nat)
    requires t in s.hs
    ensures var e := Apply(s, ResolveStep(t, true)); t in e.hs && e == s.(hs := s.hs[t := e.hs[t]])
  {
    assert s.hs == s.hs[t := s.hs[t]];
  }

  /** A terminal failure whose transaction was lost is written after all, by the worker and as the same failure. */
  lemma LostFailure(s: Sys, t: nat, nextRun: nat)
    requires CoreInv(s) && Writable(s, t) && s.hs[t].cause.NoCause?
    requires s.hs[t].phase.Invalidating? || s.hs[t].phase.Terminating?
    ensures var e := Closed(Settled(s, t, NotExecuted), t, nextRun).d;
      match s.hs[t].phase {
        case Terminating(cls, code, _) =>
          RunFails(s.d, e, cls, code, if cls.Retryable? then RetryableExhausted else PermanentReason,
                   AttemptFailedTerminal)
        case _ => RunFails(s.d, e, Permanent, InvalidStructuredReport, PermanentReason, AttemptFailedTerminal)
      }
  {
    hide CoreInv, Settled, Closed, RunFails;
    UnheardLost(s, t);
    ReturnCloses(Settled(s, t, NotExecuted), t, nextRun);
  }

  /** A success whose transaction was lost is tried again while attempts are left: its checkpoint stays. */
  lemma LostSuccess(s: Sys, t: nat, nextRun: nat)
    requires CoreInv(s) && Writable(s, t) && s.hs[t].cause.NoCause? && s.hs[t].phase.Succeeding?
    ensures RetriedOrExhausted(s.d, Closed(Settled(s, t, NotExecuted), t, nextRun).d, s.hs[t].no, OtherCode, nextRun)
  {
    hide CoreInv, Settled, Closed, RunFails, Waits;
    UnheardLost(s, t);
    ReturnCloses(Settled(s, t, NotExecuted), t, nextRun);
  }

  /** A finalization that committed although its answer was lost is recognized, and nothing more is written. */
  lemma CommittedUnheard(s: Sys, t: nat)
    requires CoreInv(s) && Writable(s, t)
    requires s.hs[t].phase.Succeeding? || s.hs[t].phase.Invalidating?
             || (s.hs[t].phase.Terminating? && !s.hs[t].phase.cls.OwnershipClass?)
    ensures var e := Settled(s, t, LostReply);
      e.d == Apply(s, FinalizeStep(t, Faithful)).d && t in e.hs && e.hs[t].phase.Done?
  {
    hide CoreInv, Apply;
    FinalizeUnheard(s, t);
    FinalizeWrites(s, t);
    StepKeepsCore(s, FinalizeStep(t, LostReply));
    UnsettledCloses(Apply(s, FinalizeStep(t, LostReply)), t);
  }

  /* ----- the reaper ----- */

  /** The row numbered like the running attempt of the job. */
  predicate Current(d: Diagnosis, i: nat) {
    i < |d.attempts| && d.attempts[i].gen == d.job.gen && d.attempts[i].no == d.job.count
  }

  /** The current attempt may have had an effect that nobody recorded. */
  predicate InDoubt(d: Diagnosis, i: nat) {
    && Current(d, i) && (d.attempts[i].status.AttemptRunning? || d.attempts[i].status.AttemptAbandoned?)
    && (d.attempts[i].unknownCode || d.attempts[i].unresolved)
  }

  lemma OneCurrent(s: Sys, i: nat)
    requires CoreInv(s) && Current(s.d, i)
    ensures FindAttempt(s.d.attempts, s.d.job.gen, s.d.job.count) == Some(i)
    ensures s.d.job.status.Running? ==> s.d.run.status.RunRunning?
  {
    hide SuccessOk, ClaimsOk, HandlersOk;
    var f := FindAttempt(s.d.attempts, s.d.job.gen, s.d.job.count);
    assert InRange(s.d, s.d.attempts[i]);
    assert forall k, l | 0 <= k < l < |s.d.attempts| :: Before(s.d.attempts[k], s.d.attempts[l]);
  }

  /** A lease that has not expired protects its claim from the reaper. */
  lemma ReapSpares(s: Sys, nextRun: nat)
    requires !s.d.job.status.Running? || s.d.job.lease.None? || s.now <= s.d.job.lease.value
    ensures Apply(s, ReapStep(nextRun)) == s
  {
  }

  /** An expired claim that never started goes back to the queue at once and costs no attempt. */
  lemma ReapUnstarted(s: Sys, nextRun: nat)
    requires Expired(s.d.job, s.now) && !s.d.job.cancel && !s.d.job.started
    ensures Apply(s, ReapStep(nextRun)).d
         == s.d.(job := s.d.job.(status := Pending, nextRun := s.now, worker := None, token := None, lease := None))
  {
  }

  /** An expired execution in doubt fails for good, and its attempt is the one that ended the run. */
  lemma ReapInDoubt(s: Sys, nextRun: nat, i: nat)
    requires CoreInv(s) && Expired(s.d.job, s.now) && !s.d.job.cancel && s.d.job.started && InDoubt(s.d, i)
    ensures var e := Apply(s, ReapStep(nextRun)).d;
      && e.job == s.d.job.(status := Failed, reason := Some(PermanentReason), errClass := Some(Permanent),
                           errCode := Some(ProviderOutcomeUnknown))
      && e.run == s.d.run.(status := RunFailed, final := Some(i)) && e.reports == s.d.reports
      && e.attempts == s.d.attempts[i := s.d.attempts[i].(status := AttemptFailedTerminal)]
  {
    hide AttemptsOk, SuccessOk, ClaimsOk, HandlersOk;
    OneCurrent(s, i);
  }

  /** An expired execution that is not in doubt is tried again exactly while attempts are left: the same
      generation and count wait for nextRun and its attempt is abandoned. Otherwise the run is exhausted. */
  lemma ReapRetries(s: Sys, nextRun: nat)
    requires CoreInv(s) && Expired(s.d.job, s.now) && !s.d.job.cancel && s.d.job.started
    requires forall i: nat :: !InDoubt(s.d, i)
    ensures var e := Apply(s, ReapStep(nextRun)).d;
      if s.d.job.count < MAX_ATTEMPTS then
        && Waits(s.d, e.(attempts := s.d.attempts), OwnershipClass, LeaseExpired, nextRun)
        && Swept(s.d.attempts, e.attempts, s.d.job.gen, Some(s.d.job.count), AttemptAbandoned)
        && (forall i: nat :: Current(s.d, i) ==> i < |e.attempts| && !e.attempts[i].status.AttemptRunning?)
      else RunFails(s.d, e, OwnershipClass, LeaseExpiredExhausted, RetryableExhausted, AttemptAbandoned)
  {
    hide AttemptsOk, SuccessOk, ClaimsOk, HandlersOk, CloseRunning, NewestOf, LatestAttempt;
    assert OutcomeUnknownMarker(s.d).None? by {
      var f := FindAttempt(s.d.attempts, s.d.job.gen, s.d.job.count);
      if f.Some? { assert !InDoubt(s.d, f.value); }
    }
    ClosedSwept(s.d.attempts, s.d.job.gen, None, AttemptAbandoned);
    ClosedSwept(s.d.attempts, s.d.job.gen, Some(s.d.job.count), AttemptAbandoned);
    SweptNewest(s.d.attempts, s.d.job.gen, None, AttemptAbandoned);
  }

  /** An expired claim of a cancelled job is cancelled, whether or not it started. */
  lemma ReapCancelled(s: Sys, nextRun: nat)
    requires CoreInv(s) && Expired(s.d.job, s.now) && s.d.job.cancel
    ensures var e := Apply(s, ReapStep(nextRun)).d;
      && e.job == s.d.job.(status := Cancelled, reason := Some(CancelledReason))
      && e.run.status.RunCancelled? && e.run.cancel && e.reports == s.d.reports
      && Swept(s.d.attempts, e.attempts, s.d.job.gen, Some(s.d.job.count), AttemptAbandoned)
      && match e.run.final {
        case Some(i) => Current(s.d, i)
        case None => forall i: nat :: !Current(s.d, i)
      }
  {
    hide AttemptsOk, SuccessOk, ClaimsOk, HandlersOk, CloseRunning;
    ClosedSwept(s.d.attempts, s.d.job.gen, Some(s.d.job.count), AttemptAbandoned);
  }

  /** What the reaper makes of a diagnosis, by what it finds: a live lease is spared; otherwise a cancellation
      wins, an unstarted claim goes back to the queue, an execution in doubt fails for good, and any other one is
      tried again exactly while attempts are left. */
  ghost predicate Reaped(d: Diagnosis, now: nat, e: Diagnosis, nextRun: nat) {
    var j := d.job;
    if !Expired(j, now) then e == d
    else if j.cancel then
      e.job == j.(status := Cancelled, reason := Some(CancelledReason)) && e.run.status.RunCancelled?
      && Swept(d.attempts, e.attempts, j.gen, Some(j.count), AttemptAbandoned) && e.reports == d.reports
    else if !j.started then
      e == d.(job := j.(status := Pending, nextRun := now, worker := None, token := None, lease := None))
    else if exists i: nat :: InDoubt(d, i) then
      e.job == j.(status := Failed, reason := Some(PermanentReason), errClass := Some(Permanent),
                  errCode := Some(ProviderOutcomeUnknown))
      && e.run.status.RunFailed? && e.run.final.Some? && InDoubt(d, e.run.final.value) && e.reports == d.reports
    else if j.count < MAX_ATTEMPTS then
      Waits(d, e.(attempts := d.attempts), OwnershipClass, LeaseExpired, nextRun)
      && Swept(d.attempts, e.attempts, j.gen, Some(j.count), AttemptAbandoned)
    else RunFails(d, e, OwnershipClass, LeaseExpiredExhausted, RetryableExhausted, AttemptAbandoned)
  }

  /** That holds after every run. */
  lemma ReaperDecides(now: nat, steps: seq<Step>, nextRun: nat)
    ensures var s := Exec(Init(now), steps); Reaped(s.d, s.now, Apply(s, ReapStep(nextRun)).d, nextRun)
  {
    hide CoreInv, Apply, Exec, InDoubt, Swept, RunFails, Waits;
    var s := Exec(Init(now), steps);
    ReachableCore(now, steps);
    if !Expired(s.d.job, s.now) {
      ReapSpares(s, nextRun);
    } else if s.d.job.cancel {
      ReapCancelled(s, nextRun);
    } else if !s.d.job.started {
      ReapUnstarted(s, nextRun);
    } else if i: nat :| InDoubt(s.d, i) {
      ReapInDoubt(s, nextRun, i);
    } else {
      ReapRetries(s, nextRun);
    }
  }

  /** What the worker makes of a handler that returned while its claim is live and nobody cancelled it: a cause
      replaces what the handler returned, except for an unknown provider outcome under a claim that is not lost. */
  predicate WorkerClosed(d: Diagnosis, h: Handler, e: Diagnosis, nextRun: nat)
    requires h.phase.Returned?
  {
    var ret := h.phase.ret;
    if h.cause.OwnershipLostCause? then e == d
    else if h.cause.NoCause? || (ret.RetPolicy? && ret.cls.Permanent? && ret.code.ProviderOutcomeUnknown?) then
      match ret {
        case RetRetryable(code) => RetriedOrExhausted(d, e, h.no, code, nextRun)
        case RetPermanent(code) => RunFails(d, e, Permanent, code, PermanentReason, AttemptFailedTerminal)
        case RetPolicy(cls, code, reason) => RunFails(d, e, cls, code, reason, AttemptFailedTerminal)
        case _ => e == d
      }
    else if h.cause.ShutdownCause? then e == d
    else RetriedOrExhausted(d, e, h.no, OtherCode, nextRun)
  }

  lemma WorkerDecides(now: nat, steps: seq<Step>, t: nat, nextRun: nat)
    requires var s := Exec(Init(now), steps);
      t in s.hs && s.hs[t].phase.Returned? && Live(s.d, t) && !s.d.job.cancel
    ensures var s := Exec(Init(now), steps); WorkerClosed(s.d, s.hs[t], Closed(s, t, nextRun).d, nextRun)
  {
    hide CoreInv, Closed, Exec, RunFails, RetriedOrExhausted;
    var s := Exec(Init(now), steps);
    ReachableCore(now, steps);
    if s.hs[t].cause.NoCause? { ReturnCloses(s, t, nextRun); } else { CauseCloses(s, t, nextRun); }
  }

  /* ----- claims and leases ----- */

  /** A claim takes exactly a waiting job whose time has come, under a token of its own. */
  lemma ClaimTakes(s: Sys, worker: nat, duration: nat, skip: nat)
    ensures var e := Apply(s, ClaimStep(worker, duration, skip)); var j := s.d.job; var token := s.next + skip;
      if (j.status.Pending? || j.status.RetryWait?) && j.nextRun <= s.now then
        && e.d == s.d.(job := j.(status := Running, worker := Some(worker), token := Some(token),
                                 lease := Some(s.now + duration), started := false))
        && e.next == token + 1 && token in e.claims && e.claims[token] == ClaimInfo(worker, j.gen, j.cancel, None)
        && e.hs == s.hs && e.calls == s.calls
        && (forall u | u in s.claims && u != token :: u in e.claims && e.claims[u] == s.claims[u])
      else e == s
  {
  }

  /** A claim starts exactly under a live lease, and pays for one attempt the first time. */
  lemma StartPays(s: Sys, t: nat)
    requires CoreInv(s) && t in s.claims
    ensures var e := Apply(s, StartStep(t)); var j := s.d.job;
      if Live(s.d, t) && !j.started && j.lease.Some? && s.now < j.lease.value then
        e == s.(d := s.d.(job := j.(started := true, count := j.count + 1)),
                claims := s.claims[t := s.claims[t].(charged := Some(j.count + 1))])
      else e == s
  {
    hide AttemptsOk, SuccessOk, HandlersOk;
    assert ClaimOk(s, t);
    assert s.claims == s.claims[t := s.claims[t]];
  }

  /** A live claim is handed back only before it started, and then waits for anybody as before. */
  lemma ReturnHandsBack(s: Sys, t: nat)
    requires CoreInv(s) && t in s.claims
    ensures var e := Apply(s, ReturnStep(t));
      if Live(s.d, t) && !s.d.job.started then
        e == s.(d := s.d.(job := s.d.job.(status := Pending, worker := None, token := None, lease := None)))
      else e == s
  {
    hide AttemptsOk, SuccessOk, HandlersOk;
    assert ClaimOk(s, t);
  }

  /** A heartbeat moves the lease of the live claim, unless it has already expired. */
  lemma RenewExtends(s: Sys, t: nat, until: nat)
    requires CoreInv(s) && t in s.claims
    ensures var e := Apply(s, RenewStep(t, until));
      if Live(s.d, t) && s.d.job.lease.Some? && s.now < s.d.job.lease.value then
        e == s.(d := s.d.(job := s.d.job.(lease := Some(until))))
      else e == s
  {
    hide AttemptsOk, SuccessOk, HandlersOk;
    assert ClaimOk(s, t);
  }

  /** The sweeper abandons a running attempt unless it belongs to the live claim. */
  lemma SweepAbandons(s: Sys, a: nat)
    ensures var e := Apply(s, SweepStep(a)); var j := s.d.job;
      if a < |s.d.attempts| && s.d.attempts[a].status.AttemptRunning?
         && !(Current(s.d, a) && j.status.Running? && j.started && j.worker == Some(s.d.attempts[a].worker)
              && LiveLease(j, s.now))
      then e == s.(d := s.d.(attempts := s.d.attempts[a := s.d.attempts[a].(status := AttemptAbandoned)]))
      else e == s
  {
  }

  /* ----- users ----- */

  /** A cancellation flags a running execution, ends a waiting one at once, and does nothing to one that is
      over, or that waits in the queue although its run has begun. */
  lemma CancelAsks(s: Sys)
    requires CoreInv(s)
    ensures var e := Apply(s, CancelStep); var j := s.d.job;
      if j.status.Running? then
        e == s.(d := s.d.(job := j.(cancel := true), run := s.d.run.(cancel := true)))
      else if j.status.RetryWait? || (j.status.Pending? && s.d.run.status.RunQueued?) then
        e == s.(d := s.d.(job := j.(cancel := true, status := Cancelled, reason := Some(CancelledReason)),
                          run := s.d.run.(cancel := true, status := RunCancelled)))
      else e == s
  {
    hide AttemptsOk, SuccessOk, ClaimsOk, HandlersOk;
  }

  /** A fresh generation: nothing of the last one is left in the job or the run, and it can be claimed now. */
  predicate Restarted(s: Sys, e: Sys) {
    && e == s.(d := s.d.(job := e.d.job, run := e.d.run))
    && e.d.job.gen == s.d.job.gen + 1 && e.d.job.count == 0 && e.d.job.max == s.d.job.max && !e.d.job.cancel
    && e.d.job.status.Pending? && e.d.job.nextRun == s.now && !e.d.job.started
    && e.d.job.worker == None && e.d.job.token == None && e.d.job.lease == None
    && e.d.job.reason == None && e.d.job.errClass == None && e.d.job.errCode == None
    && e.d.run.status.RunQueued? && !e.d.run.cancel && e.d.run.final == None
  }

  /** An exhausted run, and no other, can be queued again by hand. */
  lemma RequeueRestarts(s: Sys)
    requires CoreInv(s)
    ensures var e := Apply(s, RequeueStep);
      if s.d.job.status.Failed? && s.d.job.reason == Some(RetryableExhausted) then Restarted(s, e) else e == s
  {
    hide AttemptsOk, SuccessOk, ClaimsOk, HandlersOk;
  }

  /** A user can retry exactly a run that failed on the side of the provider or of a checkpoint. */
  lemma RetryRestarts(s: Sys)
    requires CoreInv(s)
    ensures var e := Apply(s, RetryStep); var j := s.d.job;
      if j.status.Failed?
         && ((j.errClass == Some(Permanent)
              && (j.errCode == Some(ProviderOutcomeUnknown) || j.errCode == Some(ProviderProgressAborted)
                  || j.errCode == Some(CheckpointSaveFailed) || j.errCode == Some(CheckpointVersionMismatch)))
             || (j.errClass == Some(Retryable) && j.errCode == Some(ProviderTransient)))
      then Restarted(s, e)
      else e == s
  {
    hide AttemptsOk, SuccessOk, ClaimsOk, HandlersOk;
  }
}
