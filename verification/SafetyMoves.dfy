/** Steps of a handler and the safety facts: local moves, verdicts, and changes of its own row. */
module SafetyMoves {
  import opened Rows
  import opened Transactions
  import opened Handlers
  import opened Protocol
  import opened Core
  import opened CoreSteps
  import opened Safety
  import opened SafetySteps

  lemma SafeHolds(s: Sys, t: nat)
    requires CoreInv(s) && SafeInv(s)
    ensures MarksOk(s.d) && EffectsOk(s) && OneInFlight(s)
    ensures t in s.hs ==> HandlerOk(s, t) && HandlerSafe(s, t)
  {
  }

  /** The row a handler works on is the only one with its number. */
  lemma OneRow(s: Sys, t: nat)
    requires CoreInv(s) && t in s.hs && s.hs[t].at.Some?
    ensures s.hs[t].at.value < |s.d.attempts|
    ensures forall i | 0 <= i < |s.d.attempts| && s.d.attempts[i].gen == s.hs[t].gen
      && s.d.attempts[i].no == s.hs[t].no ::
      i == s.hs[t].at.value
  {
    hide ClaimsOk, SuccessOk, JobOk;
    var a := s.hs[t].at.value;
    assert HandlerOk(s, t);
    forall i | 0 <= i < |s.d.attempts| && s.d.attempts[i].gen == s.hs[t].gen && s.d.attempts[i].no == s.hs[t].no
      ensures i == a
    {
      assert i < a ==> Before(s.d.attempts[i], s.d.attempts[a]);
      assert a < i ==> Before(s.d.attempts[a], s.d.attempts[i]);
    }
  }

  lemma OwnClear(s: Sys, t: nat)
    requires CoreInv(s) && t in s.hs
    requires (s.hs[t].at.Some? && s.hs[t].at.value < |s.d.attempts| && !s.d.attempts[s.hs[t].at.value].unresolved)
             || s.hs[t].phase.Launched? || s.hs[t].phase.Entered?
    ensures Clear(s.d, s.hs[t].gen, s.hs[t].no)
  {
    if s.hs[t].at.Some? && s.hs[t].at.value < |s.d.attempts| && !s.d.attempts[s.hs[t].at.value].unresolved {
      hide CoreInv;
      OneRow(s, t);
    } else {
      assert HandlerOk(s, t) && ClaimOk(s, t);
    }
  }

  lemma OwnBacked(s: Sys, t: nat)
    requires CoreInv(s) && t in s.hs && s.hs[t].at.Some? && s.hs[t].at.value < |s.d.attempts|
    requires s.d.attempts[s.hs[t].at.value].unresolved ==> s.hs[t].at.value in Effects(s.calls)
    ensures Backed(s, s.hs[t].gen, s.hs[t].no)
  {
    hide CoreInv, Effects;
    OneRow(s, t);
  }

  /* ----- local moves ----- */

  lemma EnterKeepsSafe(s: Sys, t: nat, ok: bool)
    requires CoreInv(s) && SafeInv(s) && CoreInv(DoEnter(s, t, ok))
    ensures SafeInv(DoEnter(s, t, ok))
  {
    hide CoreInv, SafeInv, HandlerOk;
    if t in s.hs && s.hs[t].phase.Launched? {
      SafeHolds(s, t);
      HandlerRange(s, t);
      OwnClear(s, t);
      MoveKeepsSafe(s, t, DoEnter(s, t, ok).hs[t].phase);
    }
  }

  lemma LoadKeepsSafe(s: Sys, t: nat, ok: bool, compatible: bool, sound: bool)
    requires CoreInv(s) && SafeInv(s) && CoreInv(DoLoad(s, t, ok, compatible, sound))
    ensures SafeInv(DoLoad(s, t, ok, compatible, sound))
  {
    hide CoreInv, SafeInv, HandlerOk, Effects;
    if At(s, t) && s.hs[t].phase.Loading? {
      SafeHolds(s, t);
      OwnClear(s, t);
      HandlerRange(s, t);
      OwnGen(s, t);
      MoveKeepsSafe(s, t, DoLoad(s, t, ok, compatible, sound).hs[t].phase);
    }
  }

  lemma OwnGen(s: Sys, t: nat)
    requires CoreInv(s) && At(s, t)
    ensures s.d.attempts[s.hs[t].at.value].gen == s.hs[t].gen && s.d.attempts[s.hs[t].at.value].no == s.hs[t].no
  {
    assert HandlerOk(s, t);
  }

  lemma CheckKeepsSafe(s: Sys, t: nat, reply: Reply, again: bool)
    requires CoreInv(s) && SafeInv(s) && CoreInv(DoCheck(s, t, reply, again))
    ensures SafeInv(DoCheck(s, t, reply, again))
  {
    hide CoreInv, SafeInv, HandlerOk, Effects, CheckDispatchAuthority, NoFinalBefore, Exclusive;
    if At(s, t) && s.hs[t].phase.Marked? {
      SafeHolds(s, t);
      MoveKeepsSafe(s, t, DoCheck(s, t, reply, again).hs[t].phase);
    }
  }

  lemma EndKeepsSafe(s: Sys, t: nat, kind: ExecKind, result: bool)
    requires CoreInv(s) && SafeInv(s) && CoreInv(DoEnd(s, t, kind, result))
    ensures SafeInv(DoEnd(s, t, kind, result))
  {
    hide CoreInv, SafeInv, HandlerOk, Effects, NoFinalBefore;
    if At(s, t) && s.hs[t].phase.Idle? && DoEnd(s, t, kind, result) != s {
      SafeHolds(s, t);
      SeenIsEffect(s, s.hs[t].at.value);
      MoveKeepsSafe(s, t, DoEnd(s, t, kind, result).hs[t].phase);
    }
  }

  lemma SeenIsEffect(s: Sys, a: nat)
    requires EffectsOk(s) && a < |s.d.attempts|
    ensures s.d.attempts[a].successSeen ==> a in Effects(s.calls)
  {
  }

  lemma InspectKeepsSafe(s: Sys, t: nat, ok: bool)
    requires CoreInv(s) && SafeInv(s) && CoreInv(DoInspect(s, t, ok))
    ensures SafeInv(DoInspect(s, t, ok))
  {
    hide CoreInv, SafeInv, HandlerOk, Effects;
    if At(s, t) && s.hs[t].phase.Ended? {
      SafeHolds(s, t);
      MoveKeepsSafe(s, t, DoInspect(s, t, ok).hs[t].phase);
    }
  }

  lemma {:induction false} RouteKeepsSafe(s: Sys, t: nat, cls: ErrorClass, code: ErrorCode, oversize: bool)
    requires CoreInv(s) && SafeInv(s) && CoreInv(DoRoute(s, t, cls, code, oversize))
    ensures SafeInv(DoRoute(s, t, cls, code, oversize))
  {
    hide CoreInv, SafeInv, HandlerOk, Effects, Clear, NoFinalBefore, Exclusive;
    if At(s, t) && s.hs[t].phase.Saved? {
      SafeHolds(s, t);
      if !s.d.attempts[s.hs[t].at.value].unresolved { OwnClear(s, t); }
      MoveKeepsSafe(s, t, DoRoute(s, t, cls, code, oversize).hs[t].phase);
    }
  }

  lemma DivertKeepsSafe(s: Sys, t: nat)
    requires CoreInv(s) && SafeInv(s) && CoreInv(DoDivert(s, t))
    ensures SafeInv(DoDivert(s, t))
  {
    hide CoreInv, SafeInv, HandlerOk, Effects, Clear;
    if At(s, t) && DoDivert(s, t) != s {
      SafeHolds(s, t);
      if !s.d.attempts[s.hs[t].at.value].unresolved { OwnClear(s, t); }
      MoveKeepsSafe(s, t, DoDivert(s, t).hs[t].phase);
    }
  }

  lemma ResolveKeepsSafe(s: Sys, t: nat, ok: bool)
    requires CoreInv(s) && SafeInv(s) && CoreInv(DoResolve(s, t, ok))
    ensures SafeInv(DoResolve(s, t, ok))
  {
    hide CoreInv, SafeInv, HandlerOk, RetSafe;
    if t in s.hs && s.hs[t].phase.Unsettled? {
      SafeHolds(s, t);
      HandlerRange(s, t);
      MoveKeepsSafe(s, t, DoResolve(s, t, ok).hs[t].phase);
    }
  }

  /** A decision is safe unless it is the lossy override. */
  lemma DecideKeepsSafe(s: Sys, t: nat)
    requires CoreInv(s) && SafeInv(s) && CoreInv(DoDecide(s, t)) && !LossyOverride(s, DecideStep(t))
    ensures SafeInv(DoDecide(s, t))
  {
    hide CoreInv, SafeInv, HandlerOk, Clear, Backed;
    if t in s.hs && s.hs[t].phase.Returned? {
      SafeHolds(s, t);
      HandlerRange(s, t);
      CoreHolds(s, t);
      ReturnTrue(s, t);
      MoveKeepsSafe(s, t, DoDecide(s, t).hs[t].phase);
    }
  }

  lemma ReturnTrue(s: Sys, t: nat)
    requires t in s.hs && HandlerOk(s, t) && s.hs[t].phase.Returned?
    ensures RetTrue(s.d, t, s.hs[t].phase.ret)
  {
  }
}
