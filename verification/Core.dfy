/** Facts that hold in every reachable state, whatever the workers do: job and run agree, attempts
    are numbered in order, every charge is unique, and what a handler believes about cancellation
    and finalization is true of the rows for as long as its claim is live. */
module Core {
  import opened Rows
  import opened Transactions
  import opened Handlers
  import opened Protocol

  /** The job row still names this token as its running owner. */
  predicate Live(d: Diagnosis, t: nat) { d.job.status.Running? && d.job.token == Some(t) }

  /** The job and the run reach the same verdict in the same step. */
  predicate Coupled(d: Diagnosis) {
    && (d.job.status.Succeeded? <==> d.run.status.RunSucceeded?)
    && (d.job.status.Failed? <==> d.run.status.RunFailed?)
    && (d.job.status.Cancelled? <==> d.run.status.RunCancelled?)
    && d.run.cancel == d.job.cancel
  }

  predicate JobOk(d: Diagnosis, next: nat) {
    var j := d.job;
    && Coupled(d)
    && 1 <= j.gen && j.max == MAX_ATTEMPTS && j.count <= j.max
    && (j.status.Running? ==> j.worker.Some? && j.token.Some? && j.lease.Some? && j.token.value < next)
    && (j.status.Pending? || j.status.RetryWait? || (j.status.Running? && !j.started) ==> j.count < j.max)
    && (j.status.Running? && j.started ==> 1 <= j.count)
  }

  predicate Before(a: Attempt, b: Attempt) { a.gen < b.gen || (a.gen == b.gen && a.no < b.no) }

  /** Attempt rows are strictly ordered by generation and number, and never ahead of the job. */
  predicate AttemptsOk(d: Diagnosis) {
    && (forall i, j :: 0 <= i < j < |d.attempts| ==> Before(d.attempts[i], d.attempts[j]))
    && (forall i :: 0 <= i < |d.attempts| ==> InRange(d, d.attempts[i]))
  }

  predicate InRange(d: Diagnosis, a: Attempt) {
    && 1 <= a.gen && 1 <= a.no
    && (a.gen < d.job.gen || (a.gen == d.job.gen && a.no <= d.job.count && !d.run.status.RunQueued?))
  }

  /** A succeeded run has one succeeded attempt, named by the run, with one valid report. */
  predicate SuccessOk(d: Diagnosis) {
    && (forall i :: 0 <= i < |d.attempts| && d.attempts[i].status.AttemptSucceeded? ==>
          d.run.status.RunSucceeded? && d.run.final == Some(i))
    && (d.run.status.RunSucceeded? ==>
          d.run.final.Some? && d.run.final.value < |d.attempts|
          && d.attempts[d.run.final.value].status.AttemptSucceeded?
          && Report(d.run.final.value, true) in d.reports)
    && (forall k :: 0 <= k < |d.reports| ==>
          d.reports[k].attempt < |d.attempts| && !d.attempts[d.reports[k].attempt].status.AttemptRunning?
          && (d.reports[k].valid ==> d.attempts[d.reports[k].attempt].status.AttemptSucceeded?))
    && (forall k, l :: 0 <= k < l < |d.reports| ==> d.reports[k].attempt != d.reports[l].attempt)
  }

  /** The attempt this claim paid for has not been inserted yet. */
  predicate NotInserted(d: Diagnosis, gen: nat, no: nat) {
    forall i :: 0 <= i < |d.attempts| ==> !(d.attempts[i].gen == gen && d.attempts[i].no == no)
  }

  predicate BeforeAttempt(s: Sys, t: nat) {
    t !in s.hs || s.hs[t].phase.Launched? || s.hs[t].phase.Entered?
  }

  predicate ClaimOk(s: Sys, t: nat)
    requires t in s.claims
  {
    var c := s.claims[t];
    var j := s.d.job;
    && t < s.next && 1 <= c.gen <= j.gen
    && (c.charged.Some? ==> 1 <= c.charged.value && (c.gen == j.gen ==> c.charged.value <= j.count))
    && (c.charged.Some? && BeforeAttempt(s, t) ==> NotInserted(s.d, c.gen, c.charged.value))
    && (Live(s.d, t) ==>
          j.worker == Some(c.worker) && c.gen == j.gen
          && c.charged == (if j.started then Some(j.count) else None)
          && (c.cancel ==> j.cancel))
  }

  predicate DistinctCharge(c: ClaimInfo, e: ClaimInfo) {
    c.charged.Some? && c.gen == e.gen ==> c.charged != e.charged
  }

  predicate ClaimsOk(s: Sys) {
    && (forall t :: t in s.claims ==> ClaimOk(s, t))
    && (s.d.job.status.Running? && s.d.job.token.Some? ==> s.d.job.token.value in s.claims)
    && (forall t, u :: t in s.claims && u in s.claims && t != u ==> DistinctCharge(s.claims[t], s.claims[u]))
  }

  predicate NeedsAttempt(p: Phase) {
    !(p.Launched? || p.Entered? || p.Unsettled? || p.Returned? || p.Closing? || p.Done?)
  }

  /** While the claim is live, the durable cancellation flag is set. */
  predicate CancelSeen(d: Diagnosis, t: nat) { Live(d, t) ==> d.job.cancel }

  predicate RetTrue(d: Diagnosis, t: nat, ret: Ret) {
    && (ret.RetNil? || ret.RetFinalized? ==> !Live(d, t))
    && (ret.RetCancelled? ==> CancelSeen(d, t))
  }

  predicate PhaseTrue(d: Diagnosis, t: nat, no: nat, p: Phase) {
    match p
    case Ended(kind, _) => kind == ExecError(CancelRequested) ==> CancelSeen(d, t)
    case Judged(kind, _, _) => kind == ExecError(CancelRequested) ==> CancelSeen(d, t)
    case Saved(kind, _) => kind == ExecError(CancelRequested) ==> CancelSeen(d, t)
    case Cancelling => CancelSeen(d, t)
    case Unsettled(_, ret) => RetTrue(d, t, ret)
    case Returned(ret) => RetTrue(d, t, ret)
    case Closing(CloseSuccess) => !Live(d, t)
    case Closing(CloseCancel) => CancelSeen(d, t)
    case Closing(CloseFailure(_, _, _, terminal)) => terminal || no < MAX_ATTEMPTS
    case _ => true
  }

  predicate HandlerOk(s: Sys, t: nat)
    requires t in s.hs
  {
    var h := s.hs[t];
    && t in s.claims && s.claims[t].charged == Some(h.no) && s.claims[t].worker == h.worker && s.claims[t].gen == h.gen
    && (NeedsAttempt(h.phase) ==> h.at.Some?)
    && (h.at.Some? ==> h.at.value < |s.d.attempts| && s.d.attempts[h.at.value].gen == h.gen
                       && s.d.attempts[h.at.value].no == h.no && s.d.attempts[h.at.value].worker == h.worker)
    && (h.cause.UserCancelCause? ==> CancelSeen(s.d, t))
    && PhaseTrue(s.d, t, h.no, h.phase)
  }

  predicate HandlersOk(s: Sys) {
    forall t :: t in s.hs ==> HandlerOk(s, t)
  }

  predicate CoreInv(s: Sys) {
    && JobOk(s.d, s.next)
    && AttemptsOk(s.d)
    && SuccessOk(s.d)
    && ClaimsOk(s)
    && HandlersOk(s)
  }

  /* ----- frames: what a step of one actor leaves true for the others ----- */

  predicate SameIdentity(a: Attempt, b: Attempt) { a.gen == b.gen && a.no == b.no && a.worker == b.worker }

  /** Every row of d is still in e, at its place, with its generation, number and worker. */
  predicate Kept(d: Diagnosis, e: Diagnosis) {
    |d.attempts| <= |e.attempts| && forall i :: 0 <= i < |d.attempts| ==> SameIdentity(d.attempts[i], e.attempts[i])
  }

  /** A claim can lose its life but not its cancellation. */
  predicate Calm(d: Diagnosis, e: Diagnosis, u: nat) {
    Live(e, u) ==> Live(d, u) && (d.job.cancel ==> e.job.cancel)
  }

  predicate SameOwner(j: Job, k: Job) {
    && j.status == k.status && j.token == k.token && j.worker == k.worker && j.started == k.started
    && (j.cancel ==> k.cancel)
  }

  /** A status changes only by closing a running attempt, or from abandoned to failed. */
  predicate Closes(a: Attempt, b: Attempt) {
    b.status == a.status || a.status.AttemptRunning? || (a.status.AttemptAbandoned? && b.status.AttemptFailedTerminal?)
  }

  /** No attempt is inserted, no charge is made, and a running job keeps its owner. */
  predicate Quiet(d: Diagnosis, e: Diagnosis) {
    && Kept(d, e) && |e.attempts| == |d.attempts|
    && e.job.gen == d.job.gen && e.job.count == d.job.count
    && (e.job.status.Running? ==> SameOwner(d.job, e.job))
    && (e.run.status.RunQueued? ==> d.run.status.RunQueued?)
    && (forall i :: 0 <= i < |d.attempts| ==> Closes(d.attempts[i], e.attempts[i]))
  }

  /** Neither a success nor a report is recorded. */
  predicate NoVerdict(d: Diagnosis, e: Diagnosis) {
    && e.reports == d.reports
    && (e.run.status.RunSucceeded? <==> d.run.status.RunSucceeded?)
    && (d.run.status.RunSucceeded? ==> e.run.final == d.run.final)
    && (forall i :: 0 <= i < |e.attempts| && e.attempts[i].status.AttemptSucceeded? ==>
          i < |d.attempts| && d.attempts[i].status.AttemptSucceeded?)
  }

  lemma HandlersStay(s: Sys, e: Sys, t: nat)
    requires HandlersOk(s) && Kept(s.d, e.d)
    requires forall u :: u in s.hs && u != t ==> Calm(s.d, e.d, u)
    requires forall u :: u in s.claims && u != t ==> u in e.claims && e.claims[u] == s.claims[u]
    requires forall u :: u in e.hs && u != t ==> u in s.hs && e.hs[u] == s.hs[u]
    requires t in e.hs ==> HandlerOk(e, t)
    ensures HandlersOk(e)
  {
    forall u | u in e.hs && u != t ensures HandlerOk(e, u) {
      assert HandlerOk(s, u);
    }
  }

  lemma ClaimsStay(s: Sys, e: Sys)
    requires ClaimsOk(s) && e.claims == s.claims && e.next == s.next && Quiet(s.d, e.d)
    requires forall u :: u in s.claims && BeforeAttempt(e, u) ==> BeforeAttempt(s, u)
    ensures ClaimsOk(e)
  {
    forall u | u in e.claims ensures ClaimOk(e, u) {
      assert ClaimOk(s, u);
    }
  }

  lemma AttemptsStay(d: Diagnosis, e: Diagnosis)
    requires AttemptsOk(d) && Kept(d, e) && |e.attempts| == |d.attempts|
    requires d.job.gen < e.job.gen || (e.job.gen == d.job.gen && d.job.count <= e.job.count)
    requires e.job.gen == d.job.gen && e.run.status.RunQueued? ==> d.run.status.RunQueued?
    ensures AttemptsOk(e)
  {
    forall i, j | 0 <= i < j < |e.attempts| ensures Before(e.attempts[i], e.attempts[j]) {
      assert SameIdentity(d.attempts[i], e.attempts[i]) && SameIdentity(d.attempts[j], e.attempts[j]);
    }
    forall i | 0 <= i < |e.attempts| ensures InRange(e, e.attempts[i]) {
      assert SameIdentity(d.attempts[i], e.attempts[i]) && InRange(d, d.attempts[i]);
    }
  }

  lemma SuccessStays(d: Diagnosis, e: Diagnosis)
    requires SuccessOk(d) && NoVerdict(d, e) && |d.attempts| <= |e.attempts|
    requires forall i :: 0 <= i < |d.attempts| ==> Closes(d.attempts[i], e.attempts[i])
    ensures SuccessOk(e)
  {
    forall k | 0 <= k < |e.reports|
      ensures !e.attempts[e.reports[k].attempt].status.AttemptRunning?
      ensures e.reports[k].valid ==> e.attempts[e.reports[k].attempt].status.AttemptSucceeded?
    {
      assert Closes(d.attempts[d.reports[k].attempt], e.attempts[d.reports[k].attempt]);
    }
  }

  /** Rows change quietly and no handler moves. */
  lemma QuietKeepsCore(s: Sys, e: Diagnosis)
    requires CoreInv(s) && Quiet(s.d, e) && JobOk(e, s.next) && SuccessOk(e)
    ensures CoreInv(s.(d := e))
  {
    hide HandlersOk, ClaimsOk, SuccessOk, AttemptsOk, JobOk;
    HandlersKeepQuiet(s, e);
    ClaimsStay(s, s.(d := e));
    AttemptsStay(s.d, e);
  }

  lemma HandlersKeepQuiet(s: Sys, e: Diagnosis)
    requires HandlersOk(s) && Quiet(s.d, e)
    ensures HandlersOk(s.(d := e))
  {
    forall u | u in s.hs ensures HandlerOk(s.(d := e), u) {
      assert HandlerOk(s, u);
    }
  }

  /** A handler moves and no row changes. */
  lemma MoveKeepsCore(s: Sys, t: nat, p: Phase)
    requires CoreInv(s) && t in s.hs && PhaseTrue(s.d, t, s.hs[t].no, p)
    requires NeedsAttempt(p) ==> s.hs[t].at.Some?
    requires p.Launched? || p.Entered? ==> BeforeAttempt(s, t)
    ensures CoreInv(Move(s, t, s.d, p))
  {
    hide HandlersOk, ClaimsOk, SuccessOk, AttemptsOk, JobOk;
    MoveHandlers(s, t, p);
    ClaimsStay(s, Move(s, t, s.d, p));
  }

  lemma MoveHandlers(s: Sys, t: nat, p: Phase)
    requires HandlersOk(s) && t in s.hs && PhaseTrue(s.d, t, s.hs[t].no, p)
    requires NeedsAttempt(p) ==> s.hs[t].at.Some?
    ensures HandlersOk(Move(s, t, s.d, p))
  {
    assert HandlerOk(s, t);
    HandlersStay(s, Move(s, t, s.d, p), t);
  }

  /** A handler moves together with a quiet change of the rows. */
  lemma QuietMoveKeepsCore(s: Sys, t: nat, e: Diagnosis, p: Phase)
    requires CoreInv(s) && t in s.hs && Quiet(s.d, e) && JobOk(e, s.next) && SuccessOk(e)
    requires PhaseTrue(e, t, s.hs[t].no, p)
    requires NeedsAttempt(p) ==> s.hs[t].at.Some?
    requires !p.Launched? && !p.Entered?
    ensures CoreInv(Move(s, t, e, p))
  {
    hide *;
    QuietKeepsCore(s, e);
    MoveKeepsCore(s.(d := e), t, p);
    MoveTwice(s, t, e, p);
  }

  lemma MoveTwice(s: Sys, t: nat, e: Diagnosis, p: Phase)
    requires t in s.hs
    ensures Move(s.(d := e), t, s.(d := e).d, p) == Move(s, t, e, p)
  {
  }

  /** Two handlers never work on the same attempt row. */
  lemma OwnRow(s: Sys, t: nat, u: nat)
    requires HandlersOk(s) && ClaimsOk(s) && t in s.hs && u in s.hs && t != u
    ensures s.hs[t].gen == s.hs[u].gen ==> s.hs[t].no != s.hs[u].no
    ensures s.hs[t].at.Some? && s.hs[u].at.Some? ==> s.hs[t].at.value != s.hs[u].at.value
  {
    assert HandlerOk(s, t) && HandlerOk(s, u);
    assert DistinctCharge(s.claims[t], s.claims[u]);
  }
}
