/** What every verdict rests on, in every run: a success on a valid final checkpoint, an invalid report on an
    invalid one, an exhausted failure on used-up attempts. */
module Verdicts {
  import opened Rows
  import opened Transactions
  import opened Handlers
  import opened Protocol
  import opened Core

  predicate Final(k: CheckpointKind) { k.FinalValid? || k.FinalInvalid? }

  /** No earlier attempt of its generation has a final checkpoint. */
  predicate NoneFinalBefore(atts: seq<Attempt>, a: nat)
    requires a < |atts|
  {
    forall k | 0 <= k < a && atts[k].gen == atts[a].gen :: !Final(atts[k].kind)
  }

  predicate NoneInvalidBefore(atts: seq<Attempt>, a: nat)
    requires a < |atts|
  {
    forall k | 0 <= k < a && atts[k].gen == atts[a].gen :: !atts[k].kind.FinalInvalid?
  }

  /** A failure is terminal because it is permanent, or because the attempts are used up. */
  predicate Earned(cls: ErrorClass, reason: TerminalReason, no: nat) {
    || (cls.Permanent? && reason.PermanentReason?)
    || (cls.Retryable? && reason.RetryableExhausted? && MAX_ATTEMPTS <= no)
  }

  predicate RetTold(ret: Ret, no: nat) { ret.RetPolicy? ==> Earned(ret.cls, ret.reason, no) }

  /** What a handler is about to write is what it has seen. */
  predicate Told(atts: seq<Attempt>, h: Handler) {
    match h.phase
    case Idle(_) => Owned(atts, h) ==> NoneFinalBefore(atts, h.at.value)
    case Marked(_) => Owned(atts, h) ==> NoneFinalBefore(atts, h.at.value)
    case Authorized(_) => Owned(atts, h) ==> NoneFinalBefore(atts, h.at.value)
    case Answered(_, _) => Owned(atts, h) ==> NoneFinalBefore(atts, h.at.value)
    case Ended(kind, _) => kind.ExecValid? && Owned(atts, h) ==> NoneInvalidBefore(atts, h.at.value)
    case Judged(kind, _, _) => kind.ExecValid? && Owned(atts, h) ==> NoneInvalidBefore(atts, h.at.value)
    case Terminating(cls, _, _) => cls.Permanent? || (cls.Retryable? && MAX_ATTEMPTS <= h.no)
    case Unsettled(_, ret) => RetTold(ret, h.no)
    case Returned(ret) => RetTold(ret, h.no)
    case Closing(CloseFailure(cls, _, reason, terminal)) =>
      if terminal then reason.Some? && Earned(cls, reason.value, h.no)
      else cls.Retryable? && reason.None? && h.no < MAX_ATTEMPTS
    case _ => true
  }

  predicate Owned(atts: seq<Attempt>, h: Handler) { h.at.Some? && h.at.value < |atts| }

  /** A terminal job says why: permanent, exhausted after its last attempt, or cancelled. */
  predicate JobJudged(j: Job) {
    && (j.status.Failed? ==>
          && j.errClass.Some? && j.errCode.Some?
          && (if j.errClass == Some(Permanent) then j.reason == Some(PermanentReason)
              else j.reason == Some(RetryableExhausted) && j.count == MAX_ATTEMPTS))
    && (j.status.Cancelled? ==> j.reason == Some(CancelledReason))
    && (!j.status.Failed? && !j.status.Cancelled? ==> j.reason == None)
  }

  /** A success has a valid final checkpoint, a report row matches the checkpoint of its attempt, and after an
      invalid final checkpoint its generation gets no valid one. */
  predicate RowsJudged(d: Diagnosis) {
    && (d.run.status.RunSucceeded? ==>
          d.run.final.Some? && d.run.final.value < |d.attempts| && d.attempts[d.run.final.value].kind.FinalValid?)
    && (forall k | 0 <= k < |d.reports| :: d.reports[k].attempt < |d.attempts|
          && d.attempts[d.reports[k].attempt].kind == if d.reports[k].valid then FinalValid else FinalInvalid)
    && (forall i | 0 <= i < |d.attempts| :: Final(d.attempts[i].kind) ==> d.attempts[i].completed)
    && (forall i, k | 0 <= i < k < |d.attempts| && d.attempts[i].gen == d.attempts[k].gen ::
          d.attempts[i].kind.FinalInvalid? && Final(d.attempts[k].kind) ==> d.attempts[k].kind.FinalInvalid?)
  }

  predicate VerdictInv(s: Sys) {
    RowsJudged(s.d) && JobJudged(s.d.job) && forall t :: t in s.hs ==> Told(s.d.attempts, s.hs[t])
  }

  /* ----- rows that keep their checkpoints ----- */

  /** Rows are added without a checkpoint, none changes its checkpoint, and no success appears. */
  predicate KindsKept(d: Diagnosis, e: Diagnosis) {
    && |d.attempts| <= |e.attempts| && e.reports == d.reports
    && (forall i | 0 <= i < |d.attempts| :: SameKind(d.attempts[i], e.attempts[i]))
    && (forall i | |d.attempts| <= i < |e.attempts| :: e.attempts[i].kind.NoCheckpoint?)
    && (e.run.status.RunSucceeded? ==> d.run.status.RunSucceeded? && e.run.final == d.run.final)
  }

  predicate SameKind(a: Attempt, b: Attempt) { b.gen == a.gen && b.kind == a.kind && b.completed == a.completed }

  lemma KeptJudged(d: Diagnosis, e: Diagnosis)
    requires RowsJudged(d) && KindsKept(d, e)
    ensures RowsJudged(e)
  {
    assert forall i | 0 <= i < |d.attempts| :: SameKind(d.attempts[i], e.attempts[i]);
  }

  /** A handler keeps what it knows as long as the earlier rows of its generation keep their checkpoints. */
  lemma ToldStays(atts: seq<Attempt>, more: seq<Attempt>, h: Handler)
    requires Told(atts, h) && |atts| <= |more| && (h.at.Some? ==> h.at.value < |atts|)
    requires forall i | 0 <= i < |atts| :: more[i].gen == atts[i].gen
    requires forall i | 0 <= i < |atts| && h.at.Some? && i < h.at.value && atts[i].gen == atts[h.at.value].gen ::
      more[i].kind == atts[i].kind
    ensures Told(more, h)
  {
  }

  lemma AllTold(s: Sys, e: Sys, t: nat)
    requires CoreInv(s) && VerdictInv(s) && KindsKept(s.d, e.d)
    requires forall u :: u in e.hs && u != t ==> u in s.hs && e.hs[u] == s.hs[u]
    requires t in e.hs ==> Told(e.d.attempts, e.hs[t])
    ensures forall u :: u in e.hs ==> Told(e.d.attempts, e.hs[u])
  {
    hide Told, RowsJudged, JobJudged, AttemptsOk, SuccessOk, JobOk, ClaimsOk;
    forall u | u in e.hs && u != t ensures Told(e.d.attempts, e.hs[u]) {
      assert HandlerOk(s, u);
      assert forall i | 0 <= i < |s.d.attempts| :: SameKind(s.d.attempts[i], e.d.attempts[i]);
      ToldStays(s.d.attempts, e.d.attempts, s.hs[u]);
    }
  }

  /** A step that keeps every checkpoint and moves at most handler t. */
  lemma KeepsVerdicts(s: Sys, e: Sys, t: nat)
    requires CoreInv(s) && VerdictInv(s) && KindsKept(s.d, e.d) && JobJudged(e.d.job)
    requires forall u :: u in e.hs && u != t ==> u in s.hs && e.hs[u] == s.hs[u]
    requires t in e.hs ==> Told(e.d.attempts, e.hs[t])
    ensures VerdictInv(e)
  {
    hide CoreInv, Told, RowsJudged, JobJudged, KindsKept;
    KeptJudged(s.d, e.d);
    AllTold(s, e, t);
  }
}
