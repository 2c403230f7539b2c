/** The facts behind "a provider request that may have taken effect is never replayed
    automatically". They are kept by every step but one: the worker's decision that replaces a
    terminal failure policy by a retry although the dispatch marker is still set. */
module Safety {
  import opened Rows
  import opened Transactions
  import opened Handlers
  import opened Protocol
  import opened Core
  import opened Markers

  /** Attempts with a request that succeeded or whose outcome is unknown. */
  function Effects(calls: seq<Call>): set<nat> {
    set k | 0 <= k < |calls| && !calls[k].outcome.CallFailedDefinitely? :: calls[k].at
  }

  /** All requests of one generation that may have taken effect belong to one attempt. */
  predicate NoReplay(s: Sys) {
    forall e, f | e in Effects(s.calls) && f in Effects(s.calls) && e < |s.d.attempts| && f < |s.d.attempts| ::
      s.d.attempts[e].gen == s.d.attempts[f].gen ==> e == f
  }

  /** A marker is set only on the current attempt of its generation, and it blocks every retry. */
  predicate MarkOk(d: Diagnosis, a: Attempt) {
    && MarkSound(a)
    && (a.unresolved && a.gen == d.job.gen ==>
          a.no == d.job.count
          && (d.job.status.Failed? || d.job.status.Cancelled?
              || (d.job.status.Running? && d.job.started && (a.status.AttemptRunning? || a.status.AttemptAbandoned?))))
  }

  predicate MarksOk(d: Diagnosis) {
    && (forall i :: 0 <= i < |d.attempts| ==> MarkOk(d, d.attempts[i]))
    && (forall i, k ::
        0 <= k < i < |d.attempts| && d.attempts[i].unresolved && d.attempts[k].gen == d.attempts[i].gen ==>
          !FinalCheckpoint(d.attempts[k]))
  }

  predicate EffectsOk(s: Sys) {
    && (forall e :: e in Effects(s.calls) ==>
          e < |s.d.attempts| && (s.d.attempts[e].unresolved || FinalCheckpoint(s.d.attempts[e])))
    && (forall i :: 0 <= i < |s.d.attempts| && s.d.attempts[i].successSeen ==> i in Effects(s.calls))
    && NoReplay(s)
  }

  /** The attempt numbered no of this generation carries no marker. */
  predicate Clear(d: Diagnosis, gen: nat, no: nat) {
    forall i ::
      0 <= i < |d.attempts| && d.attempts[i].gen == gen && d.attempts[i].no == no ==> !d.attempts[i].unresolved
  }

  /** Scheduling a retry under claim t cannot repeat an effect. */
  predicate RetryOk(d: Diagnosis, t: nat, gen: nat, no: nat) { Live(d, t) ==> d.job.cancel || Clear(d, gen, no) }

  /** A marker left on that attempt stands for a request that really went out. */
  predicate Backed(s: Sys, gen: nat, no: nat) {
    forall i | 0 <= i < |s.d.attempts| && s.d.attempts[i].gen == gen && s.d.attempts[i].no == no ::
      s.d.attempts[i].unresolved ==> i in Effects(s.calls)
  }

  predicate NoFinalBefore(d: Diagnosis, a: nat)
    requires a < |d.attempts|
  {
    forall k :: 0 <= k < a && d.attempts[k].gen == d.attempts[a].gen ==> !FinalCheckpoint(d.attempts[k])
  }

  /** Every effect of this generation came from attempt a. */
  predicate Exclusive(s: Sys, gen: nat, a: nat) {
    forall e :: e in Effects(s.calls) && e < |s.d.attempts| && s.d.attempts[e].gen == gen ==> e == a
  }

  predicate InFlight(p: Phase) { p.Marked? || p.Authorized? }

  predicate RetSafe(s: Sys, t: nat, h: Handler, ret: Ret) {
    match ret
    case RetLost => h.cause.OwnershipLostCause? || RetryOk(s.d, t, h.gen, h.no)
    case RetShutdown => h.cause.ShutdownCause?
    case RetCancelled => RetryOk(s.d, t, h.gen, h.no)
    case RetRetryable(_) => RetryOk(s.d, t, h.gen, h.no)
    case RetPermanent(_) => RetryOk(s.d, t, h.gen, h.no)
    case RetPolicy(cls, code, _) => if code.ProviderOutcomeUnknown? then cls.Permanent? else Backed(s, h.gen, h.no)
    case _ => true
  }

  /** What the phase of a handler says about the markers of its attempt. */
  predicate PhaseSafe(s: Sys, t: nat, h: Handler, p: Phase)
    requires h.at.Some? ==> h.at.value < |s.d.attempts|
    requires NeedsAttempt(p) ==> h.at.Some?
  {
    match p
    case Unsettled(_, ret) => RetSafe(s, t, h, ret)
    case Returned(ret) => RetSafe(s, t, h, ret)
    case Closing(CloseFailure(_, _, _, terminal)) => terminal || RetryOk(s.d, t, h.gen, h.no)
    case _ => NeedsAttempt(p) ==> RowSafe(s, h.at.value, p)
  }

  /** What the log of calls and the other rows say about the attempt of a handler in this phase. */
  predicate RowSafe(s: Sys, a: nat, p: Phase)
    requires a < |s.d.attempts|
  {
    var row := s.d.attempts[a];
    var effect := a in Effects(s.calls);
    && RowPhase(row, p)
    && match p
       case Loading => !effect
       case Idle(ans) => (effect ==> row.successSeen) && (ans ==> row.successSeen) && NoFinalBefore(s.d, a)
       case Marked(ans) =>
         && (effect ==> row.successSeen) && (ans ==> row.successSeen)
         && NoFinalBefore(s.d, a) && Exclusive(s, row.gen, a)
       case Authorized(ans) =>
         && (effect ==> row.successSeen) && (ans ==> row.successSeen)
         && NoFinalBefore(s.d, a) && Exclusive(s, row.gen, a)
       case Answered(o, ans) =>
         (if o.CallFailedDefinitely? then effect ==> row.successSeen else effect) && (ans ==> row.successSeen)
         && NoFinalBefore(s.d, a)
       case Ended(kind, _) => kind.ExecValid? || kind.ExecInvalid? ==> (row.unresolved ==> effect)
       case Judged(kind, _, _) => kind.ExecValid? || kind.ExecInvalid? ==> (row.unresolved ==> effect)
       case Terminating(cls, code, _) =>
         if code.ProviderOutcomeUnknown? then cls.Permanent? else row.unresolved ==> effect
       case _ => true
  }

  predicate HandlerSafe(s: Sys, t: nat)
    requires t in s.hs && HandlerOk(s, t)
  {
    PhaseSafe(s, t, s.hs[t], s.hs[t].phase)
  }

  predicate HandlersSafe(s: Sys)
    requires HandlersOk(s)
  {
    forall t :: t in s.hs ==> HandlerSafe(s, t)
  }

  /** At most one handler of a generation is between its marker and its request. */
  predicate OneInFlight(s: Sys) {
    forall t, u | t in s.hs && u in s.hs && InFlight(s.hs[t].phase) && InFlight(s.hs[u].phase) ::
      s.hs[t].gen == s.hs[u].gen ==> t == u
  }

  predicate SafeInv(s: Sys)
    requires CoreInv(s)
  {
    MarksOk(s.d) && EffectsOk(s) && HandlersSafe(s) && OneInFlight(s)
  }

  /** The one decision that loses a policy: the handler asked for a terminal failure other than
      "outcome unknown", an infrastructure cause replaces it by a retry, attempts remain, the claim
      is still live, nobody cancelled, and the marker is still set. */
  predicate LossyOverride(s: Sys, step: Step) {
    step.DecideStep? && step.t in s.hs
    && var h := s.hs[step.t];
       h.phase.Returned? && h.phase.ret.RetPolicy? && !PreservedPolicy(h.phase.ret) && h.cause.RetryableCause?
       && h.no < MAX_ATTEMPTS && Live(s.d, step.t) && !s.d.job.cancel && !Clear(s.d, h.gen, h.no)
  }

  /* ----- frames ----- */

  predicate SameMarks(a: Attempt, b: Attempt) { b == a.(status := b.status) }

  predicate StatusOnly(d: Diagnosis, e: Diagnosis) {
    |e.attempts| == |d.attempts| && forall i :: 0 <= i < |d.attempts| ==> SameMarks(d.attempts[i], e.attempts[i])
  }

  lemma StatusKeepsHandler(s: Sys, e: Sys, u: nat)
    requires u in s.hs && HandlerOk(s, u) && HandlerSafe(s, u)
    requires u in e.hs && e.hs[u] == s.hs[u] && HandlerOk(e, u)
    requires StatusOnly(s.d, e.d) && e.calls == s.calls && Calm(s.d, e.d, u)
    ensures HandlerSafe(e, u)
  {
    assert forall i :: 0 <= i < |s.d.attempts| ==> SameMarks(s.d.attempts[i], e.d.attempts[i]);
  }

  lemma StatusKeepsEffects(s: Sys, e: Sys)
    requires EffectsOk(s) && StatusOnly(s.d, e.d) && e.calls == s.calls
    ensures EffectsOk(e)
  {
    assert forall i :: 0 <= i < |s.d.attempts| ==> SameMarks(s.d.attempts[i], e.d.attempts[i]);
  }

  /** A step that touches no marker, no call and no handler. */
  lemma StatusKeepsSafe(s: Sys, e: Sys)
    requires CoreInv(s) && SafeInv(s) && CoreInv(e)
    requires StatusOnly(s.d, e.d) && e.calls == s.calls && e.hs == s.hs
    requires forall u :: u in s.hs ==> Calm(s.d, e.d, u)
    requires MarksOk(e.d)
    ensures SafeInv(e)
  {
    hide MarksOk, EffectsOk, HandlerSafe, HandlerOk, StatusOnly, AttemptsOk, SuccessOk, JobOk, ClaimsOk;
    StatusKeepsEffects(s, e);
    forall u | u in e.hs ensures HandlerSafe(e, u) {
      StatusKeepsHandler(s, e, u);
    }
  }

  lemma MoveKeepsOthers(s: Sys, t: nat, p: Phase, u: nat)
    requires t in s.hs && u in s.hs && u != t && HandlerOk(s, u) && HandlerSafe(s, u)
    requires HandlerOk(Move(s, t, s.d, p), u)
    ensures HandlerSafe(Move(s, t, s.d, p), u)
  {
  }

  /** A handler moves and no row changes. */
  lemma MoveKeepsSafe(s: Sys, t: nat, p: Phase)
    requires CoreInv(s) && SafeInv(s) && t in s.hs && CoreInv(Move(s, t, s.d, p))
    requires (s.hs[t].at.Some? ==> s.hs[t].at.value < |s.d.attempts|) && (NeedsAttempt(p) ==> s.hs[t].at.Some?)
    requires PhaseSafe(s, t, s.hs[t], p)
    requires InFlight(p) ==> InFlight(s.hs[t].phase)
    ensures SafeInv(Move(s, t, s.d, p))
  {
    hide MarksOk, HandlerSafe, HandlerOk, AttemptsOk, SuccessOk, JobOk, ClaimsOk;
    var e := Move(s, t, s.d, p);
    forall u | u in e.hs ensures HandlerSafe(e, u) {
      if u == t { MoverSafe(s, t, p); } else { MoveKeepsOthers(s, t, p, u); }
    }
  }

  lemma MoverSafe(s: Sys, t: nat, p: Phase)
    requires t in s.hs && HandlerOk(Move(s, t, s.d, p), t)
    requires (s.hs[t].at.Some? ==> s.hs[t].at.value < |s.d.attempts|) && (NeedsAttempt(p) ==> s.hs[t].at.Some?)
    requires PhaseSafe(s, t, s.hs[t], p)
    ensures HandlerSafe(Move(s, t, s.d, p), t)
  {
  }
}
