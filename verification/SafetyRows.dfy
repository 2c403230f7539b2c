/** Steps that change markers, checkpoints or the call log, and the safety facts. */
module SafetyRows {
  import opened Rows
  import opened Transactions
  import opened Handlers
  import opened Protocol
  import opened Core
  import opened CoreSteps
  import opened Safety
  import opened SafetySteps
  import opened SafetyMoves
  import opened SafetyVerdicts

  /** While a handler holds the lock its row is the newest of its generation. */
  lemma Newest(s: Sys, t: nat)
    requires CoreInv(s) && At(s, t) && Live(s.d, t)
    ensures forall k | s.hs[t].at.value < k < |s.d.attempts| :: s.d.attempts[k].gen != s.hs[t].gen
  {
    hide SuccessOk;
    CoreHolds(s, t);
    forall k | s.hs[t].at.value < k < |s.d.attempts| ensures s.d.attempts[k].gen != s.hs[t].gen {
      assert InRange(s.d, s.d.attempts[k]) && Before(s.d.attempts[s.hs[t].at.value], s.d.attempts[k]);
    }
  }

  /** A handler that changes only its own row, without turning an older row final, disturbs nobody. */
  lemma OwnRowUndisturbed(s: Sys, t: nat, row: Attempt, p: Phase, u: nat)
    requires CoreInv(s) && At(s, t) && u in s.hs && u != t
    requires SameIdentity(s.d.attempts[s.hs[t].at.value], row)
    requires FinalCheckpoint(row) ==> Live(s.d, t)
    ensures Undisturbed(s, Move(s, t, SetAttempt(s.d, s.hs[t].at.value, row), p), u)
  {
    hide SuccessOk, JobOk, AttemptsOk, ClaimsOk, Effects;
    OwnRow(s, t, u);
    assert HandlerOk(s, t) && HandlerOk(s, u);
    if FinalCheckpoint(row) { Newest(s, t); }
    assert Kept(s.d, SetAttempt(s.d, s.hs[t].at.value, row));
  }

  /** Markers after one row changed its marks. */
  lemma SetRowMarks(d: Diagnosis, a: nat, row: Attempt)
    requires MarksOk(d) && a < |d.attempts| && SameIdentity(d.attempts[a], row) && MarkOk(d, row)
    requires row.unresolved && !d.attempts[a].unresolved ==> NoFinalBefore(d, a)
    requires FinalCheckpoint(row) ==> forall k | a < k < |d.attempts| :: d.attempts[k].gen != row.gen
    ensures MarksOk(SetAttempt(d, a, row))
  {
    var e := SetAttempt(d, a, row);
    forall i | 0 <= i < |e.attempts| ensures MarkOk(e, e.attempts[i]) {
      assert MarkOk(d, d.attempts[i]);
    }
  }

  lemma SetRowEffects(s: Sys, t: nat, row: Attempt, p: Phase)
    requires EffectsOk(s) && At(s, t) && SameIdentity(s.d.attempts[s.hs[t].at.value], row)
    requires s.hs[t].at.value in Effects(s.calls) ==> row.unresolved || FinalCheckpoint(row)
    requires row.successSeen ==> s.hs[t].at.value in Effects(s.calls)
    ensures EffectsOk(Move(s, t, SetAttempt(s.d, s.hs[t].at.value, row), p))
  {
    hide Effects;
  }

  /** The handler changes the marks of its own row and moves. */
  lemma OwnRowKeepsSafe(s: Sys, t: nat, row: Attempt, p: Phase)
    requires CoreInv(s) && SafeInv(s) && At(s, t) && Live(s.d, t)
    requires SameIdentity(s.d.attempts[s.hs[t].at.value], row) && MarkOk(s.d, row)
    requires row.unresolved && !s.d.attempts[s.hs[t].at.value].unresolved ==> NoFinalBefore(s.d, s.hs[t].at.value)
    requires s.hs[t].at.value in Effects(s.calls) ==> row.unresolved || FinalCheckpoint(row)
    requires row.successSeen ==> s.hs[t].at.value in Effects(s.calls)
    requires NeedsAttempt(p) && RowSafe(s.(d := SetAttempt(s.d, s.hs[t].at.value, row)), s.hs[t].at.value, p)
    requires OneInFlight(Move(s, t, SetAttempt(s.d, s.hs[t].at.value, row), p))
    requires CoreInv(Move(s, t, SetAttempt(s.d, s.hs[t].at.value, row), p))
    ensures SafeInv(Move(s, t, SetAttempt(s.d, s.hs[t].at.value, row), p))
  {
    hide CoreInv, SafeInv, HandlerOk, MarksOk, EffectsOk, MarkOk, OneInFlight, Effects, RowSafe, Undisturbed,
      FinalCheckpoint, NoFinalBefore;
    var e := Move(s, t, SetAttempt(s.d, s.hs[t].at.value, row), p);
    SafeHolds(s, t);
    OwnGen(s, t);
    Newest(s, t);
    SetRowMarks(s.d, s.hs[t].at.value, row);
    SetRowEffects(s, t, row, p);
    forall u | u in e.hs && u != t ensures u in s.hs && Undisturbed(s, e, u) {
      OwnRowUndisturbed(s, t, row, p, u);
    }
    MoverRowSafe(s, t, row, p);
    OthersStaySafe(s, e, t);
  }

  lemma MoverRowSafe(s: Sys, t: nat, row: Attempt, p: Phase)
    requires At(s, t) && NeedsAttempt(p)
    requires RowSafe(s.(d := SetAttempt(s.d, s.hs[t].at.value, row)), s.hs[t].at.value, p)
    requires CoreInv(Move(s, t, SetAttempt(s.d, s.hs[t].at.value, row), p))
    ensures HandlerOk(Move(s, t, SetAttempt(s.d, s.hs[t].at.value, row), p), t)
    ensures HandlerSafe(Move(s, t, SetAttempt(s.d, s.hs[t].at.value, row), p), t)
  {
    assert HandlerOk(Move(s, t, SetAttempt(s.d, s.hs[t].at.value, row), p), t);
  }

  /* ----- dispatch ----- */

  /** Before a marker is set, every effect of the generation came from the same attempt. */
  lemma DispatchExclusive(s: Sys, t: nat)
    requires CoreInv(s) && SafeInv(s) && At(s, t) && Live(s.d, t) && NoFinalBefore(s.d, s.hs[t].at.value)
    ensures Exclusive(s, s.hs[t].gen, s.hs[t].at.value)
  {
    hide CoreInv, SafeInv, Effects, HandlerOk, FinalCheckpoint;
    var a := s.hs[t].at.value;
    CoreHolds(s, t);
    SafeHolds(s, t);
    OwnGen(s, t);
    Newest(s, t);
    OneRow(s, t);
    forall x | x in Effects(s.calls) && x < |s.d.attempts| && s.d.attempts[x].gen == s.hs[t].gen ensures x == a {
      assert MarkOk(s.d, s.d.attempts[x]);
    }
  }

  /** A handler between its marker and its request works on the current attempt of its generation. */
  lemma FlightIsCurrent(s: Sys, u: nat)
    requires CoreInv(s) && SafeInv(s) && u in s.hs && InFlight(s.hs[u].phase)
    ensures s.hs[u].gen == s.d.job.gen ==> s.hs[u].no == s.d.job.count
  {
    hide CoreInv, SafeInv, Effects;
    SafeHolds(s, u);
    MarkedRow(s.d, s.hs[u].at.value);
  }

  /** No other handler of the generation is between its marker and its request. */
  lemma DispatchAlone(s: Sys, t: nat, u: nat)
    requires CoreInv(s) && SafeInv(s) && At(s, t) && Live(s.d, t) && u in s.hs && u != t && s.hs[u].gen == s.hs[t].gen
    ensures !InFlight(s.hs[u].phase)
  {
    hide CoreInv, SafeInv, InFlight;
    CoreHolds(s, t);
    OwnRowOf(s, t, u);
    if InFlight(s.hs[u].phase) { FlightIsCurrent(s, u); }
  }

  lemma OwnRowOf(s: Sys, t: nat, u: nat)
    requires CoreInv(s) && t in s.hs && u in s.hs && t != u
    ensures s.hs[t].gen == s.hs[u].gen ==> s.hs[t].no != s.hs[u].no
    ensures s.hs[t].at.Some? && s.hs[u].at.Some? ==> s.hs[t].at.value != s.hs[u].at.value
  {
    OwnRow(s, t, u);
  }

  lemma BeginKeepsSafe(s: Sys, t: nat, reply: Reply, again: bool)
    requires CoreInv(s) && SafeInv(s) && CoreInv(DoBegin(s, t, reply, again))
    ensures SafeInv(DoBegin(s, t, reply, again))
  {
    hide CoreInv, SafeInv, HandlerOk, Effects, NoFinalBefore, BeginProviderDispatch;
    if At(s, t) && s.hs[t].phase.Idle? {
      SafeHolds(s, t);
      var tx := BeginProviderDispatch(s.d, s.now, ClaimOf(s.hs[t], t), s.hs[t].at.value, s.hs[t].no);
      BeginRow(s, t);
      if tx.err == Ok && !reply.NotExecuted? {
        BeginCommitted(s, t, DoBegin(s, t, reply, again).hs[t].phase);
      } else {
        MoveKeepsSafe(s, t, DoBegin(s, t, reply, again).hs[t].phase);
      }
    }
  }

  lemma BeginRow(s: Sys, t: nat)
    requires At(s, t)
    ensures var tx := BeginProviderDispatch(s.d, s.now, ClaimOf(s.hs[t], t), s.hs[t].at.value, s.hs[t].no);
      tx.d == if tx.err != Ok then s.d
              else SetAttempt(s.d, s.hs[t].at.value, s.d.attempts[s.hs[t].at.value].(unresolved := true))
  {
  }

  lemma BeginCommitted(s: Sys, t: nat, p: Phase)
    requires CoreInv(s) && SafeInv(s) && At(s, t) && s.hs[t].phase.Idle?
    requires BeginProviderDispatch(s.d, s.now, ClaimOf(s.hs[t], t), s.hs[t].at.value, s.hs[t].no).err == Ok
    requires p == Marked(s.hs[t].phase.answered) || p == s.hs[t].phase || (p.Ended? && p.kind.ExecError?)
    requires CoreInv(Move(s, t, SetAttempt(s.d, s.hs[t].at.value, s.d.attempts[s.hs[t].at.value].(unresolved := true)),
                          p))
    ensures SafeInv(Move(s, t, SetAttempt(s.d, s.hs[t].at.value, s.d.attempts[s.hs[t].at.value].(unresolved := true)),
                         p))
  {
    hide CoreInv, SafeInv, HandlerOk, Effects, FinalCheckpoint;
    var a := s.hs[t].at.value;
    var row := s.d.attempts[a].(unresolved := true);
    var e := Move(s, t, SetAttempt(s.d, a, row), p);
    SafeHolds(s, t);
    CoreHolds(s, t);
    OwnGen(s, t);
    RefusalTrue(s, t, LockLiveExecution(s.d, s.now, ClaimOf(s.hs[t], t), a, s.hs[t].no));
    DispatchExclusive(s, t);
    NotFinal(s.d.attempts[a], row);
    assert OneInFlight(e) by {
      forall u | u in s.hs && u != t && s.hs[u].gen == s.hs[t].gen ensures !InFlight(s.hs[u].phase) {
        DispatchAlone(s, t, u);
      }
    }
    BeginRowSafe(s, t, row, p);
    OwnRowKeepsSafe(s, t, row, p);
  }

  lemma NotFinal(a: Attempt, row: Attempt)
    ensures a.kind.NoCheckpoint? && row.kind == a.kind ==> !FinalCheckpoint(row)
  {
  }

  lemma BeginRowSafe(s: Sys, t: nat, row: Attempt, p: Phase)
    requires At(s, t) && s.hs[t].phase.Idle? && RowSafe(s, s.hs[t].at.value, s.hs[t].phase)
    requires row == s.d.attempts[s.hs[t].at.value].(unresolved := true)
    requires p == Marked(s.hs[t].phase.answered) || p == s.hs[t].phase || (p.Ended? && p.kind.ExecError?)
    requires Exclusive(s, row.gen, s.hs[t].at.value)
    ensures NeedsAttempt(p) && RowSafe(s.(d := SetAttempt(s.d, s.hs[t].at.value, row)), s.hs[t].at.value, p)
  {
    hide Effects, FinalCheckpoint;
  }

  /* ----- the request itself ----- */

  lemma CallEffects(calls: seq<Call>, c: Call)
    ensures Effects(calls + [c]) == Effects(calls) + (if c.outcome.CallFailedDefinitely? then {} else {c.at})
  {
    var after := calls + [c];
    forall x | x in Effects(calls) ensures x in Effects(after) {
      var k :| 0 <= k < |calls| && !calls[k].outcome.CallFailedDefinitely? && calls[k].at == x;
      assert after[k] == calls[k];
    }
    if !c.outcome.CallFailedDefinitely? { assert after[|calls|] == c; }
  }

  lemma CallKeepsSafe(s: Sys, t: nat, outcome: Outcome)
    requires CoreInv(s) && SafeInv(s) && CoreInv(DoCall(s, t, outcome))
    ensures SafeInv(DoCall(s, t, outcome))
  {
    hide CoreInv, SafeInv, HandlerOk, Effects, Undisturbed, HandlerSafe, OneInFlight, EffectsOk;
    if At(s, t) && s.hs[t].phase.Authorized? {
      var e := DoCall(s, t, outcome);
      SafeHolds(s, t);
      CallLogOk(s, t, outcome);
      forall u | u in e.hs && u != t ensures u in s.hs && Undisturbed(s, e, u) { CallUndisturbed(s, t, outcome, u); }
      CallerSafe(s, t, outcome);
      OthersStaySafe(s, e, t);
    }
  }

  lemma CallLogOk(s: Sys, t: nat, outcome: Outcome)
    requires CoreInv(s) && SafeInv(s) && At(s, t) && s.hs[t].phase.Authorized?
    ensures EffectsOk(DoCall(s, t, outcome)) && OneInFlight(DoCall(s, t, outcome))
  {
    hide CoreInv, SafeInv, Effects;
    SafeHolds(s, t);
    OwnGen(s, t);
    CallEffects(s.calls, Call(s.hs[t].at.value, outcome));
  }

  lemma CallUndisturbed(s: Sys, t: nat, outcome: Outcome, u: nat)
    requires CoreInv(s) && SafeInv(s) && At(s, t) && s.hs[t].phase.Authorized? && u in s.hs && u != t
    ensures Undisturbed(s, DoCall(s, t, outcome), u)
  {
    hide CoreInv, SafeInv, Effects, HandlerOk, HandlerSafe, EffectsOk, MarksOk, FinalCheckpoint;
    OwnRowOf(s, t, u);
    SafeHolds(s, t);
    OwnGen(s, t);
    CallEffects(s.calls, Call(s.hs[t].at.value, outcome));
  }

  lemma CallerSafe(s: Sys, t: nat, outcome: Outcome)
    requires CoreInv(s) && SafeInv(s) && At(s, t) && s.hs[t].phase.Authorized? && CoreInv(DoCall(s, t, outcome))
    ensures HandlerOk(DoCall(s, t, outcome), t) && HandlerSafe(DoCall(s, t, outcome), t)
  {
    hide CoreInv, SafeInv, Effects;
    SafeHolds(s, t);
    CoreHolds(DoCall(s, t, outcome), t);
    CallEffects(s.calls, Call(s.hs[t].at.value, outcome));
  }

  /* ----- the answer ----- */

  lemma SettleKeepsSafe(s: Sys, t: nat, reply: Reply, again: bool)
    requires CoreInv(s) && SafeInv(s) && CoreInv(DoSettle(s, t, reply, again))
    ensures SafeInv(DoSettle(s, t, reply, again))
  {
    hide CoreInv, SafeInv, HandlerOk, Effects, NoFinalBefore, LockLiveExecution;
    if At(s, t) && s.hs[t].phase.Answered? {
      var e := DoSettle(s, t, reply, again);
      SafeHolds(s, t);
      if e.d == s.d {
        MoveKeepsSafe(s, t, e.hs[t].phase);
      } else if s.hs[t].phase.outcome.CallSucceeded? {
        SettleSeen(s, t, reply, again);
      } else {
        SettleCleared(s, t, reply, again);
      }
    }
  }

  /** A success is recorded on the attempt. */
  lemma SettleSeen(s: Sys, t: nat, reply: Reply, again: bool)
    requires CoreInv(s) && SafeInv(s) && At(s, t) && s.hs[t].phase.Answered? && CoreInv(DoSettle(s, t, reply, again))
    requires DoSettle(s, t, reply, again).d != s.d && s.hs[t].phase.outcome.CallSucceeded?
    ensures SafeInv(DoSettle(s, t, reply, again))
  {
    hide CoreInv, SafeInv, HandlerOk, Effects, FinalCheckpoint, LockLiveExecution, OneInFlight, EffectsOk, MarksOk;
    var a := s.hs[t].at.value;
    var e := DoSettle(s, t, reply, again);
    var row := s.d.attempts[a].(successSeen := true);
    SafeHolds(s, t);
    RefusalTrue(s, t, LockLiveExecution(s.d, s.now, ClaimOf(s.hs[t], t), a, s.hs[t].no));
    MarkedRow(s.d, a);
    NotFinal(s.d.attempts[a], row);
    assert e == Move(s, t, SetAttempt(s.d, a, row), e.hs[t].phase);
    StillOneInFlight(s, t, e);
    OwnRowKeepsSafe(s, t, row, e.hs[t].phase);
  }

  /** A definite failure clears the marker of an attempt without a seen success. */
  lemma SettleCleared(s: Sys, t: nat, reply: Reply, again: bool)
    requires CoreInv(s) && SafeInv(s) && At(s, t) && s.hs[t].phase.Answered? && CoreInv(DoSettle(s, t, reply, again))
    requires DoSettle(s, t, reply, again).d != s.d && !s.hs[t].phase.outcome.CallSucceeded?
    ensures SafeInv(DoSettle(s, t, reply, again))
  {
    hide CoreInv, SafeInv, HandlerOk, Effects, FinalCheckpoint, LockLiveExecution, OneInFlight, EffectsOk, MarksOk;
    var a := s.hs[t].at.value;
    var e := DoSettle(s, t, reply, again);
    var row := s.d.attempts[a].(unresolved := false);
    SafeHolds(s, t);
    RefusalTrue(s, t, LockLiveExecution(s.d, s.now, ClaimOf(s.hs[t], t), a, s.hs[t].no));
    MarkedRow(s.d, a);
    NotFinal(s.d.attempts[a], row);
    assert e == Move(s, t, SetAttempt(s.d, a, row), e.hs[t].phase);
    StillOneInFlight(s, t, e);
    OwnRowKeepsSafe(s, t, row, e.hs[t].phase);
  }

  lemma MarkedRow(d: Diagnosis, a: nat)
    requires MarksOk(d) && a < |d.attempts|
    ensures MarkOk(d, d.attempts[a])
  {
  }

  lemma StillOneInFlight(s: Sys, t: nat, e: Sys)
    requires OneInFlight(s) && t in s.hs && t in e.hs && e.hs == s.hs[t := e.hs[t]] && !InFlight(e.hs[t].phase)
    ensures OneInFlight(e)
  {
  }

  /* ----- checkpoints ----- */

  lemma SaveKeepsSafe(s: Sys, t: nat, reply: Reply, oversize: bool)
    requires CoreInv(s) && SafeInv(s) && CoreInv(DoSave(s, t, reply, oversize))
    ensures SafeInv(DoSave(s, t, reply, oversize))
  {
    hide CoreInv, SafeInv, HandlerOk, Effects, LockLiveExecution;
    if At(s, t) && s.hs[t].phase.Judged? {
      var e := DoSave(s, t, reply, oversize);
      SafeHolds(s, t);
      if !s.hs[t].phase.result || oversize || reply.NotExecuted?
         || LockLiveExecution(s.d, s.now, ClaimOf(s.hs[t], t), s.hs[t].at.value, s.hs[t].no) != Ok {
        MoveKeepsSafe(s, t, e.hs[t].phase);
      } else {
        SaveRow(s, t, reply);
      }
    }
  }

  lemma SaveRow(s: Sys, t: nat, reply: Reply)
    requires CoreInv(s) && SafeInv(s) && At(s, t) && s.hs[t].phase.Judged? && CoreInv(DoSave(s, t, reply, false))
    requires s.hs[t].phase.result && !reply.NotExecuted?
    requires LockLiveExecution(s.d, s.now, ClaimOf(s.hs[t], t), s.hs[t].at.value, s.hs[t].no) == Ok
    ensures SafeInv(DoSave(s, t, reply, false))
  {
    hide CoreInv, SafeInv, HandlerOk, Effects, LockLiveExecution;
    var a := s.hs[t].at.value;
    var e := DoSave(s, t, reply, false);
    var row := e.d.attempts[a];
    SafeHolds(s, t);
    RefusalTrue(s, t, LockLiveExecution(s.d, s.now, ClaimOf(s.hs[t], t), a, s.hs[t].no));
    assert MarkOk(s.d, s.d.attempts[a]);
    assert e == Move(s, t, SetAttempt(s.d, a, row), e.hs[t].phase);
    OwnRowKeepsSafe(s, t, row, e.hs[t].phase);
  }

  /* ----- a new attempt ----- */

  lemma AttemptKeepsSafe(s: Sys, t: nat, reply: Reply)
    requires CoreInv(s) && SafeInv(s) && CoreInv(DoAttempt(s, t, reply))
    ensures SafeInv(DoAttempt(s, t, reply))
  {
    hide CoreInv, SafeInv, HandlerOk, Clear;
    if t in s.hs && s.hs[t].phase.Entered? {
      var tx := StartAttempt(s.d, s.now, ClaimOf(s.hs[t], t), ExpectedAttemptNo(s.hs[t].no));
      SafeHolds(s, t);
      HandlerRange(s, t);
      OwnClear(s, t);
      CoreHolds(s, t);
      if tx.err != Ok || reply.NotExecuted? {
        MoveKeepsSafe(s, t, DoAttempt(s, t, reply).hs[t].phase);
      } else {
        InsertKeepsSafe(s, DoAttempt(s, t, reply), t);
      }
    }
  }

  /** e inserts a fresh row for handler t, which either works on it or never learned of it. */
  predicate Inserted(s: Sys, e: Sys, t: nat) {
    && t in s.hs && s.hs[t].phase.Entered? && e.calls == s.calls && e.claims == s.claims
    && |e.d.attempts| == |s.d.attempts| + 1 && e.d.attempts[..|s.d.attempts|] == s.d.attempts
    && e.d.attempts[|s.d.attempts|].(worker := 0) == Attempt(s.hs[t].gen, s.hs[t].no, 0, AttemptRunning, false, false,
                                                             NoCheckpoint, false, false)
    && e.d.job == s.d.job
    && t in e.hs && e.hs == s.hs[t := e.hs[t]] && e.hs[t].gen == s.hs[t].gen && e.hs[t].no == s.hs[t].no
    && ((e.hs[t].phase.Loading? && e.hs[t].at == Some(|s.d.attempts|))
        || e.hs[t].phase == Returned(RetRetryable(OtherCode)))
  }

  lemma InsertKeepsSafe(s: Sys, e: Sys, t: nat)
    requires CoreInv(s) && SafeInv(s) && CoreInv(e) && Inserted(s, e, t) && Clear(s.d, s.hs[t].gen, s.hs[t].no)
    ensures SafeInv(e)
  {
    hide CoreInv, SafeInv, HandlerOk, HandlerSafe, Effects, Undisturbed, MarksOk, EffectsOk, Clear;
    SafeHolds(s, t);
    InsertMarks(s, e, t);
    forall u | u in e.hs && u != t ensures u in s.hs && Undisturbed(s, e, u) { InsertUndisturbed(s, e, t, u); }
    InserterSafe(s, e, t);
    OthersStaySafe(s, e, t);
  }

  lemma InsertMarks(s: Sys, e: Sys, t: nat)
    requires MarksOk(s.d) && EffectsOk(s) && OneInFlight(s) && Inserted(s, e, t)
    ensures MarksOk(e.d) && EffectsOk(e) && OneInFlight(e)
  {
    hide Effects, FinalCheckpoint;
    var n := |s.d.attempts|;
    assert forall i :: 0 <= i < n ==> e.d.attempts[i] == s.d.attempts[i] && MarkOk(s.d, s.d.attempts[i]);
    assert !e.d.attempts[n].unresolved && !e.d.attempts[n].successSeen;
  }

  lemma InsertUndisturbed(s: Sys, e: Sys, t: nat, u: nat)
    requires CoreInv(s) && Inserted(s, e, t) && u in s.hs && u != t && EffectsOk(s)
    ensures Undisturbed(s, e, u)
  {
    hide Effects, AttemptsOk, SuccessOk, JobOk;
    assert forall i :: 0 <= i < |s.d.attempts| ==> e.d.attempts[i] == s.d.attempts[i];
    OwnRow(s, t, u);
    assert HandlerOk(s, u);
  }

  lemma InserterSafe(s: Sys, e: Sys, t: nat)
    requires CoreInv(e) && Inserted(s, e, t) && EffectsOk(s) && Clear(s.d, s.hs[t].gen, s.hs[t].no)
    ensures HandlerOk(e, t) && HandlerSafe(e, t)
  {
    hide Effects, AttemptsOk, SuccessOk, JobOk, ClaimsOk;
    assert forall i :: 0 <= i < |s.d.attempts| ==> e.d.attempts[i] == s.d.attempts[i];
    assert HandlerOk(e, t);
  }

  /* ----- launch and context causes ----- */

  lemma SameRowsUndisturbed(s: Sys, e: Sys, u: nat)
    requires u in s.hs && u in e.hs && e.hs[u] == s.hs[u] && e.d == s.d && e.calls == s.calls
    ensures Undisturbed(s, e, u)
  {
    hide Effects, FinalCheckpoint;
  }

  lemma LaunchKeepsSafe(s: Sys, t: nat)
    requires CoreInv(s) && SafeInv(s) && CoreInv(DoLaunch(s, t))
    ensures SafeInv(DoLaunch(s, t))
  {
    hide CoreInv, SafeInv, HandlerOk, Undisturbed, MarksOk, Effects, RowSafe, RetSafe;
    var e := DoLaunch(s, t);
    if e != s {
      SafeHolds(s, t);
      CoreHolds(e, t);
      forall u | u in e.hs && u != t ensures u in s.hs && Undisturbed(s, e, u) { SameRowsUndisturbed(s, e, u); }
      OthersStaySafe(s, e, t);
    }
  }

  lemma CauseKeepsSafe(s: Sys, t: nat, cause: Cause)
    requires CoreInv(s) && SafeInv(s) && CoreInv(DoCause(s, t, cause))
    ensures SafeInv(DoCause(s, t, cause))
  {
    hide CoreInv, SafeInv, HandlerOk, HandlerSafe, Undisturbed, MarksOk, Effects;
    var e := DoCause(s, t, cause);
    if e != s {
      SafeHolds(s, t);
      CoreHolds(e, t);
      CausedSafe(s, t, cause);
      forall u | u in e.hs && u != t ensures u in s.hs && Undisturbed(s, e, u) { SameRowsUndisturbed(s, e, u); }
      OthersStaySafe(s, e, t);
    }
  }

  /** A cause arriving while there was none does not invalidate what the handler returned. */
  lemma CausedSafe(s: Sys, t: nat, cause: Cause)
    requires t in s.hs && HandlerOk(s, t) && HandlerSafe(s, t) && HandlerOk(DoCause(s, t, cause), t)
    ensures HandlerSafe(DoCause(s, t, cause), t)
  {
    hide Effects, FinalCheckpoint;
  }

  /* ----- all steps, all runs ----- */

  lemma StepKeepsSafe(s: Sys, step: Step)
    requires CoreInv(s) && SafeInv(s) && CoreInv(Apply(s, step)) && !LossyOverride(s, step)
    ensures SafeInv(Apply(s, step))
  {
    hide CoreInv, SafeInv, DoClaim, DoStart, DoCause, DoLaunch, DoEnter, DoAttempt, DoLoad, DoBegin, DoCheck, DoCall,
      DoSettle, DoEnd, DoInspect, DoSave, DoRoute, DoDivert, DoFinalize, DoResolve, DoDecide, DoClose;
    match step
    case Tick(_) => OwnershipStepKeepsSafe(s, step);
    case ClaimStep(_, _, _) => OwnershipStepKeepsSafe(s, step);
    case StartStep(_) => OwnershipStepKeepsSafe(s, step);
    case RequeueStep => OwnershipStepKeepsSafe(s, step);
    case RetryStep => OwnershipStepKeepsSafe(s, step);
    case ReturnStep(_) => RowStepKeepsSafe(s, step);
    case RenewStep(_, _) => RowStepKeepsSafe(s, step);
    case ReapStep(_) => RowStepKeepsSafe(s, step);
    case SweepStep(_) => RowStepKeepsSafe(s, step);
    case CancelStep => RowStepKeepsSafe(s, step);
    case CauseStep(t, cause) => CauseKeepsSafe(s, t, cause);
    case LaunchStep(t) => LaunchKeepsSafe(s, t);
    case EnterStep(t, ok) => EnterKeepsSafe(s, t, ok);
    case AttemptStep(t, reply) => AttemptKeepsSafe(s, t, reply);
    case LoadStep(t, ok, compatible, sound) => LoadKeepsSafe(s, t, ok, compatible, sound);
    case BeginStep(t, reply, again) => BeginKeepsSafe(s, t, reply, again);
    case CheckStep(t, reply, again) => CheckKeepsSafe(s, t, reply, again);
    case CallStep(t, outcome) => CallKeepsSafe(s, t, outcome);
    case SettleStep(t, reply, again) => SettleKeepsSafe(s, t, reply, again);
    case EndStep(t, kind, result) => EndKeepsSafe(s, t, kind, result);
    case InspectStep(t, ok) => InspectKeepsSafe(s, t, ok);
    case SaveStep(t, reply, oversize) => SaveKeepsSafe(s, t, reply, oversize);
    case RouteStep(t, cls, code, oversize) => RouteKeepsSafe(s, t, cls, code, oversize);
    case DivertStep(t) => DivertKeepsSafe(s, t);
    case FinalizeStep(t, reply) => FinalizeKeepsSafe(s, t, reply);
    case ResolveStep(t, ok) => ResolveKeepsSafe(s, t, ok);
    case DecideStep(t) => DecideKeepsSafe(s, t);
    case CloseStep(t, reply, nextRun, stop) => CloseKeepsSafe(s, t, reply, nextRun, stop);
  }

  /** A run in which no decision loses the policy of a handler whose marker is still set. */
  predicate Lossless(now: nat, steps: seq<Step>) {
    forall k :: 0 <= k < |steps| ==> !LossyOverride(Exec(Init(now), steps[..k]), steps[k])
  }

  lemma {:induction false} ReachableSafe(now: nat, steps: seq<Step>)
    requires Lossless(now, steps)
    ensures CoreInv(Exec(Init(now), steps)) && SafeInv(Exec(Init(now), steps))
  {
    hide SafeInv, CoreInv, LossyOverride, Apply;
    ReachableCore(now, steps);
    if steps == [] {
      InitSafe(now);
    } else {
      var n := |steps| - 1;
      var before := steps[..n];
      forall k | 0 <= k < |before| ensures !LossyOverride(Exec(Init(now), before[..k]), before[k]) {
        assert before[..k] == steps[..k];
      }
      ReachableSafe(now, before);
      StepKeepsSafe(Exec(Init(now), before), steps[n]);
    }
  }

  lemma InitSafe(now: nat)
    ensures CoreInv(Init(now)) && SafeInv(Init(now))
  {
  }
}
