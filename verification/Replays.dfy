/** Schedules that show what the hypotheses of the main results are for: wherever the lossy override is
    possible it can be continued to a second request, and wherever a retry is scheduled over an unclosed
    attempt, to two running ones. */
module Replays {
  import opened Rows
  import opened Transactions
  import opened Handlers
  import opened Protocol
  import opened Core
  import opened CoreSteps
  import opened Safety
  import opened SafetyMoves
  import opened SafetyRows
  import opened Runs
  import opened Recovery
  import opened Theorems

  /** A worker claims the job, starts it and enters its handler. */
  function EnterSteps(t: nat): seq<Step> { [ClaimStep(0, 1, 0), StartStep(t), LaunchStep(t), EnterStep(t, true)] }

  /** The handler inserts its attempt, finds no checkpoint, and sends one request. */
  function DispatchSteps(t: nat, outcome: Outcome): seq<Step> {
    [AttemptStep(t, Faithful), LoadStep(t, true, true, true), BeginStep(t, Faithful, false),
     CheckStep(t, Faithful, false),
     CallStep(t, outcome)]
  }

  lemma FourSteps(s: Sys, a: Step, b: Step, c: Step, d: Step)
    ensures Exec(s, [a, b, c, d]) == Apply(Apply(Apply(Apply(s, a), b), c), d)
  {
    hide Apply;
    ExecOne(s, [], a);
    ExecOne(s, [a], b);
    ExecOne(s, [a, b], c);
    ExecOne(s, [a, b, c], d);
    assert [] + [a] == [a] && [a] + [b] == [a, b] && [a, b] + [c] == [a, b, c] && [a, b, c] + [d] == [a, b, c, d];
  }

  predicate Open(s: Sys) {
    && Claimable(s.d.job, s.now) && !s.d.job.cancel && !s.d.run.cancel && !TerminalRun(s.d.run.status)
    && s.next !in s.claims && s.next !in s.hs
  }

  /** The rows and the handler just before the attempt is inserted. */
  predicate AtDoor(s: Sys, e: Sys, t: nat) {
    var no := s.d.job.count + 1;
    && e.calls == s.calls && e.now == s.now && e.d.attempts == s.d.attempts && e.d.reports == s.d.reports
    && e.d.run == s.d.run
    && t in e.hs && e.hs[t] == Handler(0, s.d.job.gen, no, None, NoCause, Entered)
    && e.d.job == s.d.job.(status := Running, worker := Some(0), token := Some(t), lease := Some(s.now + 1),
                           started := true, count := no)
  }

  /** After the claim and the durable start. */
  function Started(s: Sys): Sys {
    var t, no := s.next, s.d.job.count + 1;
    s.(d := s.d.(job := s.d.job.(status := Running, worker := Some(0), token := Some(t), lease := Some(s.now + 1),
                                 started := true, count := no)),
       next := t + 1, claims := s.claims[t := ClaimInfo(0, s.d.job.gen, false, Some(no))])
  }

  lemma StartWorks(s: Sys)
    requires Open(s)
    ensures DoStart(DoClaim(s, 0, 1, 0), s.next) == Started(s)
  {
  }

  lemma LaunchWorks(s: Sys)
    requires Open(s)
    ensures AtDoor(s, DoEnter(DoLaunch(Started(s), s.next), s.next, true), s.next)
  {
  }

  lemma EnterWorks(s: Sys)
    requires Open(s)
    ensures AtDoor(s, Exec(s, EnterSteps(s.next)), s.next)
  {
    hide Exec, DoClaim, DoStart, DoLaunch, DoEnter, AtDoor, Started;
    StartWorks(s);
    LaunchWorks(s);
    FourSteps(s, ClaimStep(0, 1, 0), StartStep(s.next), LaunchStep(s.next), EnterStep(s.next, true));
  }

  /** The handler of token t works on a new row in phase p; everything else is as in c. */
  function Working(c: Sys, t: nat, p: Phase, mark: bool): Sys {
    c.(d := c.d.(run := c.d.run.(status := RunRunning),
                 attempts := c.d.attempts + [Attempt(c.d.job.gen, c.d.job.count, 0, AttemptRunning, mark, false,
                                                     NoCheckpoint, false, false)]),
       hs := c.hs[t := Handler(0, c.d.job.gen, c.d.job.count, Some(|c.d.attempts|), NoCause, p)])
  }

  /** Handler t is about to insert the attempt of the execution in progress. */
  predicate Doorstep(c: Sys, t: nat) {
    && t in c.hs && c.hs[t] == Handler(0, c.d.job.gen, c.d.job.count, None, NoCause, Entered)
    && Owns(c.d.job, 0, t) && c.d.job.started && !c.d.job.cancel && !c.d.run.cancel && LiveLease(c.d.job, c.now)
    && 1 <= c.d.job.count && (c.d.run.status.RunQueued? || c.d.run.status.RunRunning?)
  }

  /** ... and no earlier attempt of the generation left a final checkpoint. */
  predicate Door(c: Sys, t: nat) {
    Doorstep(c, t) && forall i | 0 <= i < |c.d.attempts| && c.d.attempts[i].gen == c.d.job.gen ::
      !FinalCheckpoint(c.d.attempts[i])
  }

  lemma InsertWorks(c: Sys, t: nat)
    requires Doorstep(c, t)
    ensures DoAttempt(c, t, Faithful) == Working(c, t, Loading, false)
  {
  }

  lemma LoadWorks(c: Sys, t: nat)
    requires Door(c, t)
    ensures DoLoad(Working(c, t, Loading, false), t, true, true, true) == Working(c, t, Idle(false), false)
  {
  }

  lemma BeginWorks(c: Sys, t: nat)
    requires Door(c, t)
    ensures DoBegin(Working(c, t, Idle(false), false), t, Faithful, false) == Working(c, t, Marked(false), true)
  {
  }

  lemma CheckWorks(c: Sys, t: nat)
    requires Door(c, t)
    ensures DoCheck(Working(c, t, Marked(false), true), t, Faithful, false) == Working(c, t, Authorized(false), true)
  {
  }

  lemma CallWorks(c: Sys, t: nat, outcome: Outcome)
    requires Door(c, t)
    ensures DoCall(Working(c, t, Authorized(false), true), t, outcome)
      == Working(c, t, Answered(outcome, false), true).(calls := c.calls + [Call(|c.d.attempts|, outcome)])
  {
  }

  lemma DispatchWorks(c: Sys, t: nat, outcome: Outcome)
    requires Door(c, t)
    ensures Exec(c, DispatchSteps(t, outcome))
      == Working(c, t, Answered(outcome, false), true).(calls := c.calls + [Call(|c.d.attempts|, outcome)])
  {
    hide Doorstep, Working, DoAttempt, DoLoad, DoBegin, DoCheck, DoCall, Exec;
    InsertWorks(c, t);
    LoadWorks(c, t);
    BeginWorks(c, t);
    CheckWorks(c, t);
    CallWorks(c, t, outcome);
    FourSteps(c, AttemptStep(t, Faithful), LoadStep(t, true, true, true), BeginStep(t, Faithful, false),
              CheckStep(t, Faithful, false));
    assert DispatchSteps(t, outcome) == DispatchSteps(t, outcome)[..4] + [CallStep(t, outcome)];
    assert DispatchSteps(t, outcome)[..4] == [AttemptStep(t, Faithful), LoadStep(t, true, true, true),
                                              BeginStep(t, Faithful, false), CheckStep(t, Faithful, false)];
    ExecOne(c, DispatchSteps(t, outcome)[..4], CallStep(t, outcome));
  }

  function RequestSteps(t: nat, outcome: Outcome): seq<Step> { EnterSteps(t) + DispatchSteps(t, outcome) }

  lemma DoorOpens(s: Sys, c: Sys, t: nat)
    requires Open(s) && AtDoor(s, c, t)
    requires forall i | 0 <= i < |s.d.attempts| && s.d.attempts[i].gen == s.d.job.gen ::
      !FinalCheckpoint(s.d.attempts[i])
    ensures Door(c, t)
  {
  }

  /** A claimable diagnosis whose generation holds no final checkpoint sends a request again. */
  lemma RequestGoesOut(s: Sys, outcome: Outcome)
    requires Open(s)
    requires forall i | 0 <= i < |s.d.attempts| && s.d.attempts[i].gen == s.d.job.gen ::
      !FinalCheckpoint(s.d.attempts[i])
    ensures var e := Exec(s, RequestSteps(s.next, outcome)); var c := Exec(s, EnterSteps(s.next));
      && AtDoor(s, c, s.next) && Door(c, s.next)
      && e == Working(c, s.next, Answered(outcome, false), true).(calls := s.calls + [Call(|s.d.attempts|, outcome)])
  {
    hide Exec, Working, Door, EnterSteps, DispatchSteps;
    EnterWorks(s);
    var c := Exec(s, EnterSteps(s.next));
    DoorOpens(s, c, s.next);
    DispatchWorks(c, s.next, outcome);
    ExecAppend(s, EnterSteps(s.next), DispatchSteps(s.next, outcome));
  }

  /* ----- the lossy override ----- */

  /** After the override the job waits for a retry although its marker is set. */
  function Overridden(s: Sys, t: nat): Sys { DoClose(DoDecide(s, t), t, Faithful, 0, false) }

  lemma OverriddenSteps(s: Sys, t: nat)
    ensures Apply(Apply(s, DecideStep(t)), CloseStep(t, Faithful, 0, false)) == Overridden(s, t)
  {
    hide DoClose, DoDecide;
  }

  lemma OverrideSchedules(s: Sys, t: nat)
    requires CoreInv(s) && LossyOverride(s, DecideStep(t))
    ensures var e := Overridden(s, t);
      && e.d.attempts == s.d.attempts && e.calls == s.calls && e.next == s.next && e.claims == s.claims
      && e.hs.Keys == s.hs.Keys
      && e.d.job.gen == s.d.job.gen && e.d.run == s.d.run && e.d.job.status.RetryWait? && e.d.job.nextRun == 0
      && !e.d.job.cancel
      && s.hs[t].gen == s.d.job.gen && s.hs[t].no == s.d.job.count
  {
    hide CoreInv;
    CoreHolds(s, t);
  }

  lemma OverrideOpens(s: Sys, t: nat)
    requires CoreInv(s) && LossyOverride(s, DecideStep(t))
    ensures Open(Overridden(s, t))
  {
    hide CoreInv, Overridden, LossyOverride;
    OverrideSchedules(s, t);
    FreshEverywhere(s);
    LossyRunning(s, t);
    CoreCoupled(s);
  }

  lemma LossyRunning(s: Sys, t: nat)
    requires LossyOverride(s, DecideStep(t))
    ensures s.d.job.status.Running? && !s.d.job.cancel
  {
  }

  lemma FreshEverywhere(s: Sys)
    requires CoreInv(s)
    ensures s.next !in s.claims && s.next !in s.hs
  {
    forall t | t in s.claims ensures t < s.next { assert ClaimOk(s, t); }
    forall t | t in s.hs ensures t < s.next { assert HandlerOk(s, t) && ClaimOk(s, t); }
  }

  /** The marker that the override ignored stands for a request that went out, and its generation
      has no final checkpoint to fall back on. */
  lemma LossyMarker(s: Sys, t: nat) returns (i: nat)
    requires CoreInv(s) && SafeInv(s) && LossyOverride(s, DecideStep(t))
    ensures i < |s.d.attempts| && s.d.attempts[i].gen == s.d.job.gen && i in Effects(s.calls)
    ensures forall k | 0 <= k < |s.d.attempts| && s.d.attempts[k].gen == s.d.job.gen ::
      !FinalCheckpoint(s.d.attempts[k])
  {
    hide CoreInv, SafeInv, Effects, FinalCheckpoint;
    CoreHolds(s, t);
    SafeHolds(s, t);
    i :| 0 <= i < |s.d.attempts| && s.d.attempts[i].gen == s.hs[t].gen && s.d.attempts[i].no == s.hs[t].no
      && s.d.attempts[i].unresolved;
    assert MarkOk(s.d, s.d.attempts[i]);
    LastOfGeneration(s, i);
  }

  lemma LastOfGeneration(s: Sys, i: nat)
    requires CoreInv(s) && i < |s.d.attempts| && s.d.attempts[i].gen == s.d.job.gen
    requires s.d.attempts[i].no == s.d.job.count
    ensures forall k | i < k < |s.d.attempts| :: s.d.attempts[k].gen != s.d.job.gen
  {
    hide ClaimsOk, HandlersOk, SuccessOk;
    forall k | i < k < |s.d.attempts| ensures s.d.attempts[k].gen != s.d.job.gen {
      assert InRange(s.d, s.d.attempts[k]) && Before(s.d.attempts[i], s.d.attempts[k]);
    }
  }

  /** The hypothesis of NeverReplayed is exact: wherever the override can happen, it has a
      continuation in which another attempt of the generation sends the request a second time. */
  lemma OverrideReplays(now: nat, steps: seq<Step>, t: nat)
    requires Lossless(now, steps) && LossyOverride(Reach(now, steps), DecideStep(t))
    ensures exists more: seq<Step> :: !NoReplay(Exec(Reach(now, steps), [DecideStep(t)] + more))
  {
    hide CoreInv, SafeInv, Effects, Exec, Apply, Working, Door, AtDoor, LossyOverride;
    var s := Reach(now, steps);
    ReachableSafe(now, steps);
    var i := LossyMarker(s, t);
    var o := Overridden(s, t);
    OverrideSchedules(s, t);
    OverrideOpens(s, t);
    var more := [CloseStep(t, Faithful, 0, false)] + RequestSteps(s.next, CallOutcomeUnknown);
    RequestGoesOut(o, CallOutcomeUnknown);
    var e := Exec(o, RequestSteps(s.next, CallOutcomeUnknown));
    SecondRequest(s, o, e, i);
    ExecOne(s, [], DecideStep(t));
    ExecOne(s, [DecideStep(t)], CloseStep(t, Faithful, 0, false));
    OverriddenSteps(s, t);
    NoSteps(s);
    assert [] + [DecideStep(t)] == [DecideStep(t)];
    ExecAppend(s, [DecideStep(t)] + [CloseStep(t, Faithful, 0, false)], RequestSteps(s.next, CallOutcomeUnknown));
    assert [DecideStep(t)] + more
        == [DecideStep(t)] + [CloseStep(t, Faithful, 0, false)] + RequestSteps(s.next, CallOutcomeUnknown);
    assert !NoReplay(Exec(s, [DecideStep(t)] + more));
  }

  lemma NoSteps(s: Sys)
    ensures Exec(s, []) == s
  {
  }

  lemma SecondRequest(s: Sys, o: Sys, e: Sys, i: nat)
    requires i < |s.d.attempts| && s.d.attempts[i].gen == s.d.job.gen && i in Effects(s.calls)
    requires o.d.attempts == s.d.attempts && o.calls == s.calls && o.d.job.gen == s.d.job.gen
    requires exists c: Sys ::
      && AtDoor(o, c, o.next)
      && e.(calls := []) == Working(c, o.next, Answered(CallOutcomeUnknown, false), true).(calls := [])
      && e.calls == o.calls + [Call(|o.d.attempts|, CallOutcomeUnknown)]
    ensures !NoReplay(e)
  {
    CallEffects(s.calls, Call(|s.d.attempts|, CallOutcomeUnknown));
    assert i in Effects(e.calls) && |s.d.attempts| in Effects(e.calls);
    assert e.d.attempts[i].gen == e.d.attempts[|s.d.attempts|].gen;
  }

  /* ----- two RUNNING attempts ----- */

  predicate TwoRunning(d: Diagnosis) {
    exists i, k ::
      0 <= i < k < |d.attempts| && d.attempts[i].status.AttemptRunning? && d.attempts[k].status.AttemptRunning?
  }

  lemma LeftoverSchedules(s: Sys, step: Step)
    requires CoreInv(s) && LeavesRunning(s, step)
    ensures var o := Apply(Apply(s, step), Tick(step.nextRun)); Open(o) && o.d.attempts == s.d.attempts
  {
    FreshEverywhere(s);
    CoreCoupled(s);
  }

  lemma DoorstepReached(s: Sys, c: Sys, t: nat)
    requires Open(s) && AtDoor(s, c, t)
    ensures Doorstep(c, t)
  {
  }

  /** The hypothesis of OneRunning is exact: a retry scheduled over an unclosed attempt can always be
      continued to two RUNNING attempts. */
  lemma LeftoverDoubles(now: nat, steps: seq<Step>, step: Step)
    requires LeavesRunning(Reach(now, steps), step)
    ensures exists more: seq<Step> :: TwoRunning(Exec(Reach(now, steps), [step] + more).d)
  {
    hide CoreInv, Exec, Apply, Working, AtDoor, Doorstep, EnterSteps, LeavesRunning;
    var s := Reach(now, steps);
    ReachableCore(now, steps);
    LeftoverAt(s, step);
    var i :| 0 <= i < |s.d.attempts| && s.d.attempts[i].status.AttemptRunning?;
    LeftoverSchedules(s, step);
    var o := Apply(Apply(s, step), Tick(step.nextRun));
    EnterWorks(o);
    var c := Exec(o, EnterSteps(o.next));
    DoorstepReached(o, c, o.next);
    InsertWorks(c, o.next);
    SecondRunning(o, c, o.next, i);
    var more := [Tick(step.nextRun)] + EnterSteps(o.next) + [AttemptStep(o.next, Faithful)];
    TwoSteps(s, step, Tick(step.nextRun));
    ExecAppend(s, [step, Tick(step.nextRun)], EnterSteps(o.next));
    ExecOne(s, [step, Tick(step.nextRun)] + EnterSteps(o.next), AttemptStep(o.next, Faithful));
    AttemptApplies(c, o.next);
    assert [step] + more == [step, Tick(step.nextRun)] + EnterSteps(o.next) + [AttemptStep(o.next, Faithful)];
    assert TwoRunning(Exec(s, [step] + more).d);
  }

  lemma AttemptApplies(c: Sys, t: nat)
    ensures Apply(c, AttemptStep(t, Faithful)) == DoAttempt(c, t, Faithful)
  {
    hide DoAttempt;
  }

  lemma LeftoverAt(s: Sys, step: Step)
    requires LeavesRunning(s, step)
    ensures step.CloseStep? && exists i :: 0 <= i < |s.d.attempts| && s.d.attempts[i].status.AttemptRunning?
  {
  }

  lemma SecondRunning(o: Sys, c: Sys, t: nat, i: nat)
    requires AtDoor(o, c, t) && i < |o.d.attempts| && o.d.attempts[i].status.AttemptRunning?
    ensures TwoRunning(Working(c, t, Loading, false).d)
  {
    var d := Working(c, t, Loading, false).d;
    assert d.attempts[i].status.AttemptRunning? && d.attempts[|o.d.attempts|].status.AttemptRunning?;
  }
}
