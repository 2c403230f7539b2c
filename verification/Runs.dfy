/** What whole runs keep: fencing, charging, the history of attempt rows, and cancellation. */
module Runs {
  import opened Rows
  import opened Transactions
  import opened Handlers
  import opened Protocol
  import opened Core
  import opened CoreSteps

  /** The claim token a step presents, if it presents one. */
  function Bearer(step: Step): Option<nat> {
    match step
    case Tick(_) => None
    case ClaimStep(_, _, _) => None
    case ReapStep(_) => None
    case SweepStep(_) => None
    case CancelStep => None
    case RequeueStep => None
    case RetryStep => None
    case StartStep(t) => Some(t)
    case ReturnStep(t) => Some(t)
    case RenewStep(t, _) => Some(t)
    case CauseStep(t, _) => Some(t)
    case LaunchStep(t) => Some(t)
    case EnterStep(t, _) => Some(t)
    case AttemptStep(t, _) => Some(t)
    case LoadStep(t, _, _, _) => Some(t)
    case BeginStep(t, _, _) => Some(t)
    case CheckStep(t, _, _) => Some(t)
    case CallStep(t, _) => Some(t)
    case SettleStep(t, _, _) => Some(t)
    case EndStep(t, _, _) => Some(t)
    case InspectStep(t, _) => Some(t)
    case SaveStep(t, _, _) => Some(t)
    case RouteStep(t, _, _, _) => Some(t)
    case DivertStep(t) => Some(t)
    case FinalizeStep(t, _) => Some(t)
    case ResolveStep(t, _) => Some(t)
    case DecideStep(t) => Some(t)
    case CloseStep(t, _, _, _) => Some(t)
  }

  /** A step that presents a token changes the rows only while the job names that token as its
      running owner. */
  lemma Fenced(s: Sys, step: Step, t: nat)
    requires Bearer(step) == Some(t) && !Live(s.d, t)
    ensures Apply(s, step).d == s.d
  {
  }

  lemma BearerClaims(s: Sys, step: Step, u: nat)
    requires Bearer(step) == Some(u)
    ensures var e := Apply(s, step);
      && e.next == s.next && e.now == s.now && e.claims.Keys == s.claims.Keys
      && (forall v :: v in s.claims && (v != u || !step.StartStep?) ==> e.claims[v] == s.claims[v])
  {
    hide StartAttempt, BeginProviderDispatch, CheckDispatchAuthority, DispatchSucceeded, DispatchFailedDefinitely,
      DispatchResolves, SaveCheckpoint, FinalizeSuccess, FinalizeInvalidReport, FinalizeDiagnosisFailure,
      FinalizeRetryableAttempt, FinalizeCancellation, CloseTx, LatestFinalCheckpoint, Decide;
  }

  /** At most the handler of token u differs. */
  predicate OnlyHandler(s: Sys, e: Sys, u: nat) { e.hs == s.hs || (u in e.hs && e.hs == s.hs[u := e.hs[u]]) }

  predicate Dispatching(step: Step) {
    step.EnterStep? || step.AttemptStep? || step.LoadStep? || step.BeginStep? || step.CheckStep? || step.CallStep?
    || step.SettleStep? || step.EndStep?
  }

  lemma DispatchHandlers(s: Sys, step: Step, u: nat)
    requires Bearer(step) == Some(u) && Dispatching(step)
    ensures OnlyHandler(s, Apply(s, step), u)
  {
    hide StartAttempt, BeginProviderDispatch, CheckDispatchAuthority, DispatchSucceeded, DispatchFailedDefinitely,
      DispatchResolves, SaveCheckpoint, FinalizeSuccess, FinalizeInvalidReport, FinalizeDiagnosisFailure,
      FinalizeRetryableAttempt, FinalizeCancellation, CloseTx, LatestFinalCheckpoint, Decide;
  }

  lemma VerdictHandlers(s: Sys, step: Step, u: nat)
    requires Bearer(step) == Some(u) && !Dispatching(step)
    ensures OnlyHandler(s, Apply(s, step), u)
  {
    hide StartAttempt, BeginProviderDispatch, CheckDispatchAuthority, DispatchSucceeded, DispatchFailedDefinitely,
      DispatchResolves, SaveCheckpoint, FinalizeSuccess, FinalizeInvalidReport, FinalizeDiagnosisFailure,
      FinalizeRetryableAttempt, FinalizeCancellation, CloseTx, LatestFinalCheckpoint, Decide;
  }

  lemma BearerHandlers(s: Sys, step: Step, u: nat)
    requires Bearer(step) == Some(u)
    ensures OnlyHandler(s, Apply(s, step), u)
    ensures step.CauseStep? && u in s.hs ==>
      u in Apply(s, step).hs && Apply(s, step).hs[u] == s.hs[u].(cause := Apply(s, step).hs[u].cause)
    ensures step.RenewStep? ==> Apply(s, step).hs == s.hs
  {
    hide OnlyHandler;
    if Dispatching(step) { DispatchHandlers(s, step, u); } else { VerdictHandlers(s, step, u); }
  }

  /** A step that presents a token touches no other claim, no other handler and no token supply. */
  lemma BearerMoves(s: Sys, step: Step, u: nat)
    requires Bearer(step) == Some(u)
    ensures var e := Apply(s, step);
      && e.next == s.next && e.now == s.now && e.claims.Keys == s.claims.Keys
      && (forall v :: v in s.claims && (v != u || !step.StartStep?) ==> e.claims[v] == s.claims[v])
      && (forall v :: v in s.hs ==> v in e.hs && (v != u ==> e.hs[v] == s.hs[v]))
      && (forall v :: v in e.hs && v != u ==> v in s.hs)
      && (step.RenewStep? ==> e.hs == s.hs)
      && (step.CauseStep? && u in s.hs ==> e.hs[u] == s.hs[u].(cause := e.hs[u].cause))
  {
    hide Apply;
    BearerClaims(s, step, u);
    BearerHandlers(s, step, u);
  }

  /** A step that presents no token leaves every handler alone and takes at most a fresh token. */
  lemma OthersMove(s: Sys, step: Step)
    requires Bearer(step).None?
    ensures var e := Apply(s, step);
      && e.hs == s.hs && s.next <= e.next
      && forall v :: v in s.claims && v < s.next ==> v in e.claims && e.claims[v] == s.claims[v]
  {
    hide ReapExpired, RecoverStaleAttempt, RequestCancellation, ManualRequeue, RetryDiagnosis;
  }

  /* ----- fencing ----- */

  lemma DeadStays(s: Sys, step: Step, t: nat)
    requires t < s.next && !Live(s.d, t)
    ensures t < Apply(s, step).next && !Live(Apply(s, step).d, t)
  {
    if Bearer(step).Some? {
      hide Apply;
      BearerMoves(s, step, Bearer(step).value);
      if !Live(s.d, Bearer(step).value) {
        Fenced(s, step, Bearer(step).value);
      } else {
        OwnerKeepsToken(s, step, Bearer(step).value);
      }
    }
  }

  lemma OwnerKeepsToken(s: Sys, step: Step, u: nat)
    requires Bearer(step) == Some(u) && Live(s.d, u)
    ensures Apply(s, step).d.job.token == Some(u) || Apply(s, step).d.job.token.None?
  {
    hide LockExecution, LockLiveExecution, LockLiveJob, CloseRunning, LatestAttempt;
  }

  /** A superseded or cleared token never comes back to life, whatever happens afterwards. */
  lemma {:induction false} DeadForever(s: Sys, steps: seq<Step>, t: nat)
    requires t < s.next && !Live(s.d, t)
    ensures t < Exec(s, steps).next && !Live(Exec(s, steps).d, t)
  {
    hide Apply;
    if steps != [] {
      DeadForever(s, steps[..|steps| - 1], t);
      DeadStays(Exec(s, steps[..|steps| - 1]), steps[|steps| - 1], t);
    }
  }

  /** Once a token is dead, no later step of the run that presents it writes any row. */
  lemma FencedForever(s: Sys, steps: seq<Step>, k: nat, t: nat)
    requires t < s.next && !Live(s.d, t) && k < |steps| && Bearer(steps[k]) == Some(t)
    ensures Exec(s, steps[..k + 1]).d == Exec(s, steps[..k]).d
  {
    hide Apply;
    DeadForever(s, steps[..k], t);
    Fenced(Exec(s, steps[..k]), steps[k], t);
    assert steps[..k + 1][..k] == steps[..k];
  }

  /** While a lease has not expired, nobody but its holder can end, move or replace the claim. */
  lemma LeaseExclusive(s: Sys, step: Step, t: nat)
    requires Live(s.d, t) && LiveLease(s.d.job, s.now) && Bearer(step) != Some(t)
    ensures Live(Apply(s, step).d, t) && Apply(s, step).d.job.lease == s.d.job.lease
    ensures Apply(s, step).d.job.gen == s.d.job.gen && Apply(s, step).d.job.count == s.d.job.count
  {
    if Bearer(step).Some? && !Live(s.d, Bearer(step).value) { Fenced(s, step, Bearer(step).value); }
  }

  /* ----- charging and history ----- */

  predicate NotEarlier(j: Job, k: Job) { j.gen < k.gen || (j.gen == k.gen && j.count <= k.count) }

  /** Rows are only added, statuses only close, and the attempt counter only moves forward. */
  predicate Evolves(d: Diagnosis, e: Diagnosis) {
    && Kept(d, e) && NotEarlier(d.job, e.job)
    && (forall i :: 0 <= i < |d.attempts| ==> Closes(d.attempts[i], e.attempts[i]))
  }

  /** A seen success keeps the marker as it is until a final checkpoint is saved. */
  predicate SeenKept(a: Attempt, b: Attempt) {
    a.successSeen && a.unresolved ==> (b.successSeen && b.unresolved) || FinalCheckpoint(b)
  }

  /** As above, a closed attempt keeps its status, and a seen success is not forgotten. */
  predicate EvolvesClosed(d: Diagnosis, e: Diagnosis) {
    && Kept(d, e) && NotEarlier(d.job, e.job)
    && (forall i | 0 <= i < |d.attempts| ::
          e.attempts[i].status == d.attempts[i].status || d.attempts[i].status.AttemptRunning?)
    && (forall i :: 0 <= i < |d.attempts| ==> SeenKept(d.attempts[i], e.attempts[i]))
  }

  lemma ReapEvolves(d: Diagnosis, now: nat, nextRun: nat)
    ensures Evolves(d, ReapExpired(d, now, nextRun).d)
  {
    CloseRunningRows(d.attempts, d.job.gen, Some(d.job.count), AttemptAbandoned);
    CloseRunningRows(d.attempts, d.job.gen, None, AttemptAbandoned);
  }

  lemma CloseCancelEvolves(d: Diagnosis, worker: nat, token: nat)
    ensures EvolvesClosed(d, ConditionalFinalizeCancel(d, worker, token).d)
  {
    CloseRunningRows(d.attempts, d.job.gen, None, AttemptAbandoned);
  }

  lemma CloseEvolves(d: Diagnosis, worker: nat, token: nat, dec: Decision, nextRun: nat)
    ensures EvolvesClosed(d, ConditionalFinalizeSuccess(d, worker, token).d)
    ensures dec.CloseFailure? ==>
      var tx := ConditionalFinalizeFailure(d, worker, token, dec.cls, dec.code, dec.reason, dec.terminal, nextRun);
      EvolvesClosed(d, tx.d)
  {
    hide ConditionalFinalizeCancel;
    CloseCancelEvolves(d, worker, token);
    CloseRunningRows(d.attempts, d.job.gen, None, AttemptFailedTerminal);
  }

  lemma SetEvolves(d: Diagnosis, e: Diagnosis, a: nat)
    requires a < |d.attempts| && |e.attempts| == |d.attempts| && e.attempts == d.attempts[a := e.attempts[a]]
    requires SameIdentity(d.attempts[a], e.attempts[a]) && SeenKept(d.attempts[a], e.attempts[a])
    requires NotEarlier(d.job, e.job)
    requires e.attempts[a].status == d.attempts[a].status || d.attempts[a].status.AttemptRunning?
    ensures EvolvesClosed(d, e)
  {
  }

  lemma Locked(d: Diagnosis, now: nat, c: Claim, checkGen: bool, a: nat, no: nat, cancellation: bool)
    ensures LockExecution(d, c, checkGen, a, cancellation) == Ok ==>
      a < |d.attempts| && d.attempts[a].status.AttemptRunning?
    ensures LockLiveExecution(d, now, c, a, no) == Ok ==> a < |d.attempts| && d.attempts[a].status.AttemptRunning?
  {
  }

  lemma ReportEvolves(d: Diagnosis, c: Claim, a: nat)
    ensures EvolvesClosed(d, FinalizeSuccess(d, c, a).d)
    ensures EvolvesClosed(d, FinalizeInvalidReport(d, c, a).d)
  {
    hide EvolvesClosed, LockExecution;
    SelfEvolves(d);
    if LockExecution(d, c, false, a, false) == Ok {
      Locked(d, 0, c, false, a, 0, false);
      SetEvolves(d, FinalizeSuccess(d, c, a).d, a);
      SetEvolves(d, FinalizeInvalidReport(d, c, a).d, a);
    }
  }

  lemma FinalizeEvolves(d: Diagnosis, c: Claim, a: nat, cls: ErrorClass, code: ErrorCode)
    ensures EvolvesClosed(d, FinalizeDiagnosisFailure(d, c, a, cls, code).d)
    ensures EvolvesClosed(d, FinalizeRetryableAttempt(d, c, a).d)
    ensures EvolvesClosed(d, FinalizeCancellation(d, c, a).d)
  {
    hide EvolvesClosed, LockExecution;
    SelfEvolves(d);
    if LockExecution(d, c, true, a, false) == Ok {
      Locked(d, 0, c, true, a, 0, false);
      if !cls.OwnershipClass? { SetEvolves(d, FinalizeDiagnosisFailure(d, c, a, cls, code).d, a); }
      SetEvolves(d, FinalizeRetryableAttempt(d, c, a).d, a);
    }
    if LockExecution(d, c, false, a, true) == Ok {
      Locked(d, 0, c, false, a, 0, true);
      SetEvolves(d, FinalizeCancellation(d, c, a).d, a);
    }
  }

  lemma DispatchEvolves(d: Diagnosis, now: nat, c: Claim, a: nat, no: nat, kind: CheckpointKind, unknown: bool)
    ensures EvolvesClosed(d, BeginProviderDispatch(d, now, c, a, no).d)
    ensures EvolvesClosed(d, DispatchSucceeded(d, now, c, a, no).d)
    ensures EvolvesClosed(d, DispatchFailedDefinitely(d, now, c, a, no).d)
    ensures EvolvesClosed(d, SaveCheckpoint(d, now, c, a, no, kind, unknown).d)
  {
    hide EvolvesClosed, LockLiveExecution;
    SelfEvolves(d);
    if LockLiveExecution(d, now, c, a, no) == Ok {
      Locked(d, now, c, true, a, no, false);
      SetEvolves(d, BeginProviderDispatch(d, now, c, a, no).d, a);
      SetEvolves(d, DispatchSucceeded(d, now, c, a, no).d, a);
      SetEvolves(d, DispatchFailedDefinitely(d, now, c, a, no).d, a);
      SetEvolves(d, SaveCheckpoint(d, now, c, a, no, kind, unknown).d, a);
    }
  }

  lemma HandlerEvolves(s: Sys, step: Step, t: nat)
    requires Bearer(step) == Some(t) && t in s.hs
    requires step.BeginStep? || step.SettleStep? || step.SaveStep? || step.FinalizeStep? || step.CloseStep?
    ensures EvolvesClosed(s.d, Apply(s, step).d)
  {
    hide EvolvesClosed, BeginProviderDispatch, DispatchSucceeded, DispatchFailedDefinitely, SaveCheckpoint,
      DispatchResolves, FinalizeSuccess, FinalizeInvalidReport, FinalizeDiagnosisFailure, FinalizeRetryableAttempt,
      FinalizeCancellation, ConditionalFinalizeCancel, ConditionalFinalizeSuccess, ConditionalFinalizeFailure;
    var h := s.hs[t];
    var c := ClaimOf(h, t);
    SelfEvolves(s.d);
    if step.CloseStep? && h.phase.Closing? {
      CloseEvolves(s.d, h.worker, t, h.phase.decision, step.nextRun);
      CloseCancelEvolves(s.d, h.worker, t);
    } else if h.at.Some? {
      var p := h.phase;
      ReportEvolves(s.d, c, h.at.value);
      FinalizeEvolves(s.d, c, h.at.value, if p.Terminating? then p.cls else Permanent,
                      if p.Terminating? then p.code else OtherCode);
      DispatchEvolves(s.d, s.now, c, h.at.value, h.no,
        CheckpointOf(if p.Judged? then p.kind else ExecUnknown), if p.Judged? then p.kind.ExecUnknown? else false);
    }
  }

  lemma SelfEvolves(d: Diagnosis)
    ensures EvolvesClosed(d, d) && Evolves(d, d)
  {
  }

  lemma ClaimEvolves(s: Sys, step: Step)
    requires step.ClaimStep? || step.StartStep? || step.ReturnStep? || step.RenewStep?
    ensures EvolvesClosed(s.d, Apply(s, step).d)
  {
  }

  lemma UserEvolves(s: Sys, step: Step)
    requires step.Tick? || step.SweepStep? || step.CancelStep? || step.RequeueStep? || step.RetryStep?
    ensures EvolvesClosed(s.d, Apply(s, step).d)
  {
  }

  lemma AttemptEvolves(s: Sys, t: nat, reply: Reply)
    ensures EvolvesClosed(s.d, DoAttempt(s, t, reply).d)
  {
    hide LockLiveJob;
  }

  lemma StepEvolves(s: Sys, step: Step)
    ensures Evolves(s.d, Apply(s, step).d)
    ensures !step.ReapStep? ==> EvolvesClosed(s.d, Apply(s, step).d)
  {
    if step.ReapStep? {
      ReapEvolves(s.d, s.now, step.nextRun);
    } else {
      NonReapEvolves(s, step);
    }
  }

  lemma NonReapEvolves(s: Sys, step: Step)
    requires !step.ReapStep?
    ensures EvolvesClosed(s.d, Apply(s, step).d)
  {
    hide EvolvesClosed;
    SelfEvolves(s.d);
    if step.ClaimStep? || step.StartStep? || step.ReturnStep? || step.RenewStep? {
      ClaimEvolves(s, step);
    } else if Bearer(step).None? {
      UserEvolves(s, step);
    } else if step.AttemptStep? {
      AttemptEvolves(s, step.t, step.reply);
    } else if step.BeginStep? || step.SettleStep? || step.SaveStep? || step.FinalizeStep? || step.CloseStep? {
      if Bearer(step).value in s.hs { HandlerEvolves(s, step, Bearer(step).value); }
    }
  }

  lemma EvolvesTwice(c: Diagnosis, d: Diagnosis, e: Diagnosis)
    requires Evolves(c, d) && Evolves(d, e)
    ensures Evolves(c, e)
  {
    forall i | 0 <= i < |c.attempts|
      ensures SameIdentity(c.attempts[i], e.attempts[i]) && Closes(c.attempts[i], e.attempts[i])
    {
      assert SameIdentity(c.attempts[i], d.attempts[i]) && SameIdentity(d.attempts[i], e.attempts[i]);
      assert Closes(c.attempts[i], d.attempts[i]) && Closes(d.attempts[i], e.attempts[i]);
    }
  }

  /** Over any run, attempt rows are never removed or renumbered, a closed attempt never reopens,
      and the pair of generation and attempt count never moves backwards. */
  lemma {:induction false} RunEvolves(s: Sys, steps: seq<Step>)
    ensures Evolves(s.d, Exec(s, steps).d)
  {
    hide Evolves, Apply;
    if steps == [] {
      SelfEvolves(s.d);
    } else {
      var before := Exec(s, steps[..|steps| - 1]);
      RunEvolves(s, steps[..|steps| - 1]);
      StepEvolves(before, steps[|steps| - 1]);
      EvolvesTwice(s.d, before.d, Exec(s, steps).d);
    }
  }

  /** Only the reaper changes a closed attempt: it turns the abandoned current attempt into a
      terminal failure together with the outcome-unknown verdict of its job. */
  lemma ClosedStaysClosed(s: Sys, step: Step, i: nat)
    requires i < |s.d.attempts| && !s.d.attempts[i].status.AttemptRunning?
    ensures i < |Apply(s, step).d.attempts|
    ensures Apply(s, step).d.attempts[i].status != s.d.attempts[i].status ==>
      step.ReapStep? && s.d.attempts[i].status.AttemptAbandoned?
        && Apply(s, step).d.attempts[i].status.AttemptFailedTerminal?
      && s.d.attempts[i].gen == s.d.job.gen && s.d.attempts[i].no == s.d.job.count
      && Apply(s, step).d.job.status.Failed? && Apply(s, step).d.job.errCode == Some(ProviderOutcomeUnknown)
  {
    StepEvolves(s, step);
    if step.ReapStep? {
      ReapReopens(s.d, s.now, step.nextRun, i);
    } else {
      hide Apply;
    }
  }

  /** No step clears the marker of an attempt that saw a success, except by saving its final
      checkpoint; a later definite failure does not. */
  lemma SeenClearedByCheckpoint(s: Sys, step: Step, i: nat)
    requires i < |s.d.attempts| && s.d.attempts[i].successSeen && s.d.attempts[i].unresolved
    ensures i < |Apply(s, step).d.attempts|
    ensures (Apply(s, step).d.attempts[i].successSeen && Apply(s, step).d.attempts[i].unresolved)
            || FinalCheckpoint(Apply(s, step).d.attempts[i])
  {
    StepEvolves(s, step);
    if step.ReapStep? {
      ReapKeepsSeen(s.d, s.now, step.nextRun, i);
    } else {
      hide Apply;
      assert SeenKept(s.d.attempts[i], Apply(s, step).d.attempts[i]);
    }
  }

  lemma ReapKeepsSeen(d: Diagnosis, now: nat, nextRun: nat, i: nat)
    requires i < |d.attempts|
    ensures var e := ReapExpired(d, now, nextRun).d; i < |e.attempts| && SeenKept(d.attempts[i], e.attempts[i])
  {
    CloseRunningRows(d.attempts, d.job.gen, Some(d.job.count), AttemptAbandoned);
    CloseRunningRows(d.attempts, d.job.gen, None, AttemptAbandoned);
  }

  lemma ReapReopens(d: Diagnosis, now: nat, nextRun: nat, i: nat)
    requires i < |d.attempts| && !d.attempts[i].status.AttemptRunning?
    ensures var e := ReapExpired(d, now, nextRun).d;
      i < |e.attempts| && (e.attempts[i].status != d.attempts[i].status ==>
        d.attempts[i].status.AttemptAbandoned? && e.attempts[i].status.AttemptFailedTerminal?
        && d.attempts[i].gen == d.job.gen && d.attempts[i].no == d.job.count
        && e.job.status.Failed? && e.job.errCode == Some(ProviderOutcomeUnknown))
  {
    CloseRunningRows(d.attempts, d.job.gen, Some(d.job.count), AttemptAbandoned);
    CloseRunningRows(d.attempts, d.job.gen, None, AttemptAbandoned);
  }

  /* ----- cancellation ----- */

  /** A cancellation was accepted and only the CANCELLED verdict is left. */
  predicate Doomed(d: Diagnosis) {
    d.job.cancel && (d.job.status.Pending? || d.job.status.Running? || d.job.status.Cancelled?)
  }

  /** The handlers that hold an authorization they have not used yet. */
  function AuthorizedTokens(s: Sys): set<nat> { set t | t in s.hs && s.hs[t].phase.Authorized? }

  /** No row is added, no generation starts, and requests are only sent on authorizations held before, one
      request for each. */
  predicate NothingNew(s: Sys, e: Sys) {
    && |e.d.attempts| == |s.d.attempts| && e.d.job.gen == s.d.job.gen
    && AuthorizedTokens(e) <= AuthorizedTokens(s) && s.calls <= e.calls
    && |e.calls| + |AuthorizedTokens(e)| <= |s.calls| + |AuthorizedTokens(s)|
    && (s.d.job.status.Cancelled? ==> e.d.job.status.Cancelled? && e.d.run == s.d.run)
  }

  /** A cancelled job refuses every lock except the one taken to record the cancellation. */
  lemma LocksRefuse(d: Diagnosis, now: nat, c: Claim, a: nat, no: nat)
    requires d.job.cancel
    ensures LockLiveJob(d, now, c) != Ok
    ensures LockExecution(d, c, true, a, false) != Ok && LockExecution(d, c, false, a, false) != Ok
    ensures LockLiveExecution(d, now, c, a, no) != Ok
  {
  }

  /** The rows of a doomed diagnosis: nothing new starts and a recorded cancellation stays. */
  predicate DoomedRows(d: Diagnosis, e: Diagnosis) {
    && Doomed(e) && |e.attempts| == |d.attempts| && e.job.gen == d.job.gen
    && (d.job.status.Cancelled? ==> e.job.status.Cancelled? && e.run == d.run)
  }

  lemma CloseCancelDoomed(d: Diagnosis, worker: nat, token: nat)
    requires Doomed(d)
    ensures DoomedRows(d, ConditionalFinalizeCancel(d, worker, token).d)
  {
    CloseRunningRows(d.attempts, d.job.gen, None, AttemptAbandoned);
  }

  lemma CancellationDoomed(d: Diagnosis, c: Claim, a: nat)
    requires Doomed(d)
    ensures DoomedRows(d, FinalizeCancellation(d, c, a).d)
  {
  }

  lemma DoomedFinalize(s: Sys, t: nat, reply: Reply)
    requires Doomed(s.d)
    ensures DoomedRows(s.d, DoFinalize(s, t, reply).d)
  {
    hide LockExecution, FinalizeCancellation;
    if t in s.hs && s.hs[t].at.Some? {
      LocksRefuse(s.d, s.now, ClaimOf(s.hs[t], t), s.hs[t].at.value, s.hs[t].no);
      CancellationDoomed(s.d, ClaimOf(s.hs[t], t), s.hs[t].at.value);
    }
  }

  lemma DoomedClose(s: Sys, t: nat, reply: Reply, nextRun: nat, stop: bool)
    requires Doomed(s.d)
    ensures DoomedRows(s.d, DoClose(s, t, reply, nextRun, stop).d)
  {
    hide ConditionalFinalizeCancel;
    if t in s.hs { CloseCancelDoomed(s.d, s.hs[t].worker, t); }
  }

  lemma DoomedDispatch(s: Sys, step: Step)
    requires Doomed(s.d) && (step.AttemptStep? || step.BeginStep? || step.SettleStep? || step.SaveStep?)
    ensures Apply(s, step).d == s.d
  {
    hide LockLiveJob, LockLiveExecution;
    if step.t in s.hs {
      var h := s.hs[step.t];
      LocksRefuse(s.d, s.now, ClaimOf(h, step.t), if h.at.Some? then h.at.value else 0, h.no);
    }
  }

  lemma DoomedRecovery(s: Sys, step: Step)
    requires Doomed(s.d) && (s.d.job.status.Cancelled? ==> s.d.run.status.RunCancelled?)
    requires Bearer(step).None? || step.StartStep? || step.ReturnStep? || step.RenewStep?
    ensures DoomedRows(s.d, Apply(s, step).d)
  {
    hide OutcomeUnknownMarker, FindAttempt;
    if step.ReapStep? { CloseRunningRows(s.d.attempts, s.d.job.gen, Some(s.d.job.count), AttemptAbandoned); }
  }

  lemma DoomedRowsStep(s: Sys, step: Step)
    requires Doomed(s.d) && (s.d.job.status.Cancelled? ==> s.d.run.status.RunCancelled?)
    ensures DoomedRows(s.d, Apply(s, step).d)
  {
    hide DoFinalize, DoClose;
    if Bearer(step).None? || step.StartStep? || step.ReturnStep? || step.RenewStep? {
      DoomedRecovery(s, step);
    } else if step.AttemptStep? || step.BeginStep? || step.SettleStep? || step.SaveStep? {
      DoomedDispatch(s, step);
    } else if step.FinalizeStep? {
      DoomedFinalize(s, step.t, step.reply);
    } else if step.CloseStep? {
      DoomedClose(s, step.t, step.reply, step.nextRun, step.stop);
    }
  }

  /** Only the authority check leads to an authorized request. */
  lemma OnlyCheckAuthorizes(s: Sys, step: Step, u: nat)
    requires Bearer(step) == Some(u) && !step.CheckStep?
    ensures u in Apply(s, step).hs && Apply(s, step).hs[u].phase.Authorized? ==> u in s.hs && s.hs[u].phase.Authorized?
  {
    hide StartAttempt, BeginProviderDispatch, CheckDispatchAuthority, DispatchSucceeded, DispatchFailedDefinitely,
      DispatchResolves, SaveCheckpoint, FinalizeSuccess, FinalizeInvalidReport, FinalizeDiagnosisFailure,
      FinalizeRetryableAttempt, FinalizeCancellation, CloseTx, LatestFinalCheckpoint, Decide;
  }

  lemma DoomedCheck(s: Sys, t: nat, reply: Reply, again: bool)
    requires Doomed(s.d)
    ensures t in DoCheck(s, t, reply, again).hs && DoCheck(s, t, reply, again).hs[t].phase.Authorized? ==>
      t in s.hs && s.hs[t].phase.Authorized?
  {
    hide LockLiveExecution;
    if t in s.hs && s.hs[t].at.Some? { LocksRefuse(s.d, s.now, ClaimOf(s.hs[t], t), s.hs[t].at.value, s.hs[t].no); }
  }

  lemma OnlyCallsLog(s: Sys, step: Step)
    requires !step.CallStep?
    ensures Apply(s, step).calls == s.calls
  {
    hide StartAttempt, BeginProviderDispatch, CheckDispatchAuthority, DispatchSucceeded, DispatchFailedDefinitely,
      DispatchResolves, SaveCheckpoint, FinalizeSuccess, FinalizeInvalidReport, FinalizeDiagnosisFailure,
      FinalizeRetryableAttempt, FinalizeCancellation, CloseTx, ReapExpired, RecoverStaleAttempt, RequestCancellation,
      ManualRequeue, RetryDiagnosis, LatestFinalCheckpoint, Decide;
  }

  /** A request uses up the authorization of its handler. */
  lemma CallConsumes(s: Sys, t: nat, outcome: Outcome)
    ensures var e := DoCall(s, t, outcome);
      && AuthorizedTokens(e) <= AuthorizedTokens(s) && s.calls <= e.calls
      && |e.calls| + |AuthorizedTokens(e)| <= |s.calls| + |AuthorizedTokens(s)|
  {
    var e := DoCall(s, t, outcome);
    if e != s { assert AuthorizedTokens(e) == AuthorizedTokens(s) - {t}; }
  }

  lemma NothingAuthorized(s: Sys, step: Step)
    requires Doomed(s.d) && !step.CallStep?
    ensures AuthorizedTokens(Apply(s, step)) <= AuthorizedTokens(s)
  {
    hide Doomed, DoCheck;
    if step.CheckStep? {
      DoomedCheck(s, step.t, step.reply, step.again);
      BearerMoves(s, step, step.t);
    } else {
      hide Apply;
      if Bearer(step).Some? {
        OnlyCheckAuthorizes(s, step, Bearer(step).value);
        BearerMoves(s, step, Bearer(step).value);
      } else {
        OthersMove(s, step);
      }
    }
  }

  lemma Fewer(a: set<nat>, b: set<nat>)
    requires a <= b
    ensures |a| <= |b|
  {
    assert b == a + (b - a);
  }

  lemma DoomedStep(s: Sys, step: Step)
    requires Doomed(s.d) && (s.d.job.status.Cancelled? ==> s.d.run.status.RunCancelled?)
    ensures Doomed(Apply(s, step).d) && NothingNew(s, Apply(s, step))
  {
    hide Doomed, DoCall, AuthorizedTokens;
    DoomedRowsStep(s, step);
    if step.CallStep? {
      CallConsumes(s, step.t, step.outcome);
    } else {
      hide Apply;
      OnlyCallsLog(s, step);
      NothingAuthorized(s, step);
      Fewer(AuthorizedTokens(Apply(s, step)), AuthorizedTokens(s));
    }
  }

  lemma AcceptedIsDoomed(d: Diagnosis)
    requires RequestCancellation(d).err == Ok
    ensures Doomed(RequestCancellation(d).d)
  {
  }

  /** From an accepted cancellation on, no attempt is inserted, no generation starts, no request is
      authorized, requests already authorized go out at most once each, and a CANCELLED verdict never
      changes again. */
  lemma {:induction false} CancellationKept(s: Sys, steps: seq<Step>)
    requires CoreInv(s) && Doomed(s.d)
    ensures CoreInv(Exec(s, steps)) && Doomed(Exec(s, steps).d) && NothingNew(s, Exec(s, steps))
  {
    hide Apply, CoreInv, Doomed, AuthorizedTokens;
    if steps != [] {
      var before := Exec(s, steps[..|steps| - 1]);
      CancellationKept(s, steps[..|steps| - 1]);
      StepKeepsCore(before, steps[|steps| - 1]);
      CoreCoupled(before);
      DoomedStep(before, steps[|steps| - 1]);
    }
  }

  lemma CoreCoupled(s: Sys)
    requires CoreInv(s)
    ensures Coupled(s.d)
  {
  }

  /* ----- sequences of steps ----- */

  lemma {:induction false} ExecAppend(s: Sys, a: seq<Step>, b: seq<Step>)
    ensures Exec(s, a + b) == Exec(Exec(s, a), b)
    decreases |b|
  {
    hide Apply;
    if b == [] {
      assert a + b == a;
    } else {
      var n := |b| - 1;
      assert (a + b)[..|a + b| - 1] == a + b[..n];
      ExecAppend(s, a, b[..n]);
    }
  }

  lemma ExecOne(s: Sys, a: seq<Step>, x: Step)
    ensures Exec(s, a + [x]) == Apply(Exec(s, a), x)
  {
    hide Apply;
    assert (a + [x])[..|a|] == a;
  }

  lemma {:induction false} CoreForever(s: Sys, steps: seq<Step>)
    requires CoreInv(s)
    ensures CoreInv(Exec(s, steps))
  {
    hide Apply, CoreInv;
    if steps != [] {
      CoreForever(s, steps[..|steps| - 1]);
      StepKeepsCore(Exec(s, steps[..|steps| - 1]), steps[|steps| - 1]);
    }
  }

  /* ----- one committed marker per request ----- */

  /** The handler has marked its next request and not sent it yet. */
  predicate Prepared(s: Sys, t: nat) { t in s.hs && (s.hs[t].phase.Marked? || s.hs[t].phase.Authorized?) }

  /** This step commits the dispatch marker of handler t, and the handler knows it. */
  predicate MarksDispatch(s: Sys, step: Step, t: nat) {
    && step.BeginStep? && step.t == t && step.reply.Faithful? && At(s, t)
    && BeginProviderDispatch(s.d, s.now, ClaimOf(s.hs[t], t), s.hs[t].at.value, s.hs[t].no).err == Ok
  }

  /** This step sends a request of handler t. */
  predicate Sends(s: Sys, step: Step, t: nat) { step.CallStep? && step.t == t && Apply(s, step).calls != s.calls }

  lemma OnlyBeginPrepares(s: Sys, step: Step, u: nat)
    requires Bearer(step) == Some(u) && !Prepared(s, u) && Prepared(Apply(s, step), u)
    ensures MarksDispatch(s, step, u)
  {
    hide StartAttempt, BeginProviderDispatch, CheckDispatchAuthority, DispatchSucceeded, DispatchFailedDefinitely,
      DispatchResolves, SaveCheckpoint, FinalizeSuccess, FinalizeInvalidReport, FinalizeDiagnosisFailure,
      FinalizeRetryableAttempt, FinalizeCancellation, CloseTx, LatestFinalCheckpoint, Decide;
  }

  lemma PreparedByBegin(s: Sys, step: Step, t: nat)
    requires !Prepared(s, t) && Prepared(Apply(s, step), t)
    ensures MarksDispatch(s, step, t)
  {
    hide Apply, MarksDispatch;
    if Bearer(step) == Some(t) {
      OnlyBeginPrepares(s, step, t);
    } else if Bearer(step).Some? {
      BearerMoves(s, step, Bearer(step).value);
    } else {
      OthersMove(s, step);
    }
  }

  /** Between a state without a prepared request and one with it, the marker was committed. */
  lemma {:induction false} PreparedSince(s: Sys, steps: seq<Step>, i: nat, j: nat, t: nat) returns (k: nat)
    requires i < j <= |steps| && !Prepared(Exec(s, steps[..i]), t) && Prepared(Exec(s, steps[..j]), t)
    ensures i <= k < j && MarksDispatch(Exec(s, steps[..k]), steps[k], t)
    decreases j
  {
    hide Apply, MarksDispatch, Prepared;
    assert steps[..j][..j - 1] == steps[..j - 1] && steps[..j][j - 1] == steps[j - 1];
    if !Prepared(Exec(s, steps[..j - 1]), t) {
      PreparedByBegin(Exec(s, steps[..j - 1]), steps[j - 1], t);
      k := j - 1;
    } else {
      k := PreparedSince(s, steps, i, j - 1, t);
    }
  }

  lemma SentIsDone(s: Sys, step: Step, t: nat)
    requires Sends(s, step, t)
    ensures Prepared(s, t) && !Prepared(Apply(s, step), t)
  {
  }

  /* ----- attempt charging ----- */

  /** The claims of the current generation that paid for an attempt paid for 1, 2, ..., attempt_count. */
  ghost predicate ChargesCover(s: Sys) {
    forall n | 1 <= n <= s.d.job.count :: Paid(s, n)
  }

  ghost predicate Paid(s: Sys, n: nat) {
    exists t :: t in s.claims && s.claims[t].gen == s.d.job.gen && s.claims[t].charged == Some(n)
  }

  lemma BearerKeepsPair(s: Sys, step: Step, u: nat)
    requires Bearer(step) == Some(u) && !step.StartStep?
    ensures Apply(s, step).d.job.gen == s.d.job.gen && Apply(s, step).d.job.count == s.d.job.count
  {
    hide LockExecution, LockLiveExecution, LockLiveJob, CloseRunning, LatestAttempt;
  }

  lemma OthersKeepPair(s: Sys, step: Step)
    requires Bearer(step).None? && !step.RequeueStep? && !step.RetryStep?
    ensures Apply(s, step).d.job.gen == s.d.job.gen && Apply(s, step).d.job.count == s.d.job.count
  {
    hide CloseRunning, LatestAttempt, FindAttempt, OutcomeUnknownMarker;
  }

  /** Only a durable start and a new generation move the counter, and no step forgets a claim. */
  lemma OnlyStartCharges(s: Sys, step: Step)
    requires CoreInv(s) && !step.StartStep? && !step.RequeueStep? && !step.RetryStep?
    ensures Apply(s, step).d.job.gen == s.d.job.gen && Apply(s, step).d.job.count == s.d.job.count
    ensures forall t :: t in s.claims ==> t in Apply(s, step).claims && Apply(s, step).claims[t] == s.claims[t]
  {
    hide Apply, AttemptsOk, HandlersOk, SuccessOk, JobOk;
    if Bearer(step).Some? {
      BearerKeepsPair(s, step, Bearer(step).value);
      BearerMoves(s, step, Bearer(step).value);
    } else {
      OthersKeepPair(s, step);
      OthersMove(s, step);
      assert s.next in s.claims ==> ClaimOk(s, s.next);
    }
  }

  /** A start either charges nothing, or moves the counter by one and charges a claim that had paid
      nothing; repeating it is a no-op. */
  lemma StartCharges(s: Sys, t: nat)
    requires CoreInv(s)
    ensures var e := DoStart(s, t);
      e == s || (t in s.claims && s.claims[t].charged.None? && s.claims[t].gen == s.d.job.gen
                 && e.d.job.gen == s.d.job.gen
                 && e.d.job.count == s.d.job.count + 1
                 && e.claims == s.claims[t := s.claims[t].(charged := Some(s.d.job.count + 1))])
    ensures DoStart(DoStart(s, t), t) == DoStart(s, t)
  {
    hide AttemptsOk, HandlersOk, SuccessOk;
    if t in s.claims { assert ClaimOk(s, t); }
  }

  lemma StepKeepsCharge(s: Sys, step: Step, t: nat)
    requires CoreInv(s) && t in s.claims && s.claims[t].charged.Some?
    ensures t in Apply(s, step).claims && Apply(s, step).claims[t] == s.claims[t]
  {
    hide CoreInv;
    if step.StartStep? {
      StartCharges(s, step.t);
    } else if !step.RequeueStep? && !step.RetryStep? {
      hide Apply;
      OnlyStartCharges(s, step);
    }
  }

  /** A claim pays for at most one attempt, whatever happens and however often the start is repeated. */
  lemma {:induction false} ChargedOnce(s: Sys, steps: seq<Step>, t: nat)
    requires CoreInv(s) && t in s.claims && s.claims[t].charged.Some?
    ensures t in Exec(s, steps).claims && Exec(s, steps).claims[t] == s.claims[t]
  {
    hide Apply, CoreInv;
    if steps != [] {
      ChargedOnce(s, steps[..|steps| - 1], t);
      CoreForever(s, steps[..|steps| - 1]);
      StepKeepsCharge(Exec(s, steps[..|steps| - 1]), steps[|steps| - 1], t);
    }
  }

  lemma StepKeepsCover(s: Sys, step: Step)
    requires CoreInv(s) && ChargesCover(s)
    ensures ChargesCover(Apply(s, step))
  {
    hide CoreInv;
    var e := Apply(s, step);
    if step.StartStep? {
      StartCharges(s, step.t);
      forall n | 1 <= n <= e.d.job.count ensures Paid(e, n) {
        if n <= s.d.job.count {
          assert Paid(s, n);
          var t :| t in s.claims && s.claims[t].gen == s.d.job.gen && s.claims[t].charged == Some(n);
          assert t in e.claims && e.claims[t] == s.claims[t];
        } else {
          assert step.t in e.claims && e.claims[step.t].charged == Some(n);
        }
      }
    } else if !step.RequeueStep? && !step.RetryStep? {
      hide Apply;
      OnlyStartCharges(s, step);
      forall n | 1 <= n <= e.d.job.count ensures Paid(e, n) {
        assert Paid(s, n);
        var t :| t in s.claims && s.claims[t].gen == s.d.job.gen && s.claims[t].charged == Some(n);
        assert t in e.claims && e.claims[t] == s.claims[t];
      }
    }
  }

  /** In every reachable state attempt_count is at most max_attempts, and each number from one to
      attempt_count was paid for by exactly one claim of the current generation. */
  lemma {:induction false} ChargesExact(now: nat, steps: seq<Step>)
    ensures var s := Exec(Init(now), steps);
      && CoreInv(s) && s.d.job.count <= MAX_ATTEMPTS && ChargesCover(s)
      && forall t, u | t in s.claims && u in s.claims && t != u :: DistinctCharge(s.claims[t], s.claims[u])
  {
    hide Apply;
    ReachableCore(now, steps);
    if steps != [] {
      ChargesExact(now, steps[..|steps| - 1]);
      StepKeepsCover(Exec(Init(now), steps[..|steps| - 1]), steps[|steps| - 1]);
    }
  }

  /** No two handler launches share a pair of generation and attempt number. */
  lemma LaunchesDistinct(now: nat, steps: seq<Step>, t: nat, u: nat)
    requires var s := Exec(Init(now), steps); t in s.hs && u in s.hs && t != u
    ensures var s := Exec(Init(now), steps); s.hs[t].gen != s.hs[u].gen || s.hs[t].no != s.hs[u].no
  {
    ReachableCore(now, steps);
    OwnRow(Exec(Init(now), steps), t, u);
  }
}
