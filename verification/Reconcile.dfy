/** The worker's loops against a store that may commit and still report an error. Between any two
    operations the rest of the system takes arbitrary steps; a round of input fixes which ones, how
    the operation was answered, and whether the durable row could be read back. */
module Reconcile {
  import opened Rows
  import opened Transactions
  import opened Handlers
  import opened Protocol
  import opened Core
  import opened CoreSteps
  import opened SafetySteps
  import opened Runs
  import Shutdown


  /** Steps of everybody else. The lease renewer and the pollers of claim t may run as well. */
  predicate Foreign(steps: seq<Step>, t: nat) {
    forall k :: 0 <= k < |steps| ==> Bearer(steps[k]) != Some(t) || steps[k].RenewStep? || steps[k].CauseStep?
  }

  lemma ForeignStep(s: Sys, step: Step, t: nat)
    requires t in s.hs && (Bearer(step) != Some(t) || step.RenewStep? || step.CauseStep?)
    ensures t in Apply(s, step).hs && Apply(s, step).hs[t] == s.hs[t].(cause := Apply(s, step).hs[t].cause)
  {
    hide Apply;
    if Bearer(step).Some? { BearerMoves(s, step, Bearer(step).value); } else { OthersMove(s, step); }
  }

  /** Nobody else moves the handler of claim t. */
  lemma {:induction false} ForeignKeepsHandler(s: Sys, steps: seq<Step>, t: nat)
    requires Foreign(steps, t) && t in s.hs
    ensures t in Exec(s, steps).hs && Exec(s, steps).hs[t] == s.hs[t].(cause := Exec(s, steps).hs[t].cause)
  {
    hide Apply;
    if steps != [] {
      ForeignKeepsHandler(s, steps[..|steps| - 1], t);
      ForeignStep(Exec(s, steps[..|steps| - 1]), steps[|steps| - 1], t);
    }
  }

  /* ----- finalization ----- */

  /** The row still carries the identity of the execution that the worker is closing. */
  predicate SameClaim(j: Job, h: Handler, t: nat) {
    j.started && j.worker == Some(h.worker) && j.token == Some(t) && j.gen == h.gen
  }

  predicate CancelExpected(j: Job) { j.status.Cancelled? && j.cancel && j.reason == Some(CancelledReason) }

  /** The row shows the verdict that was asked for, or a cancellation accepted in the meantime. */
  predicate Expected(dec: Decision, j: Job) {
    match dec
    case Leave => false
    case CloseSuccess => j.status.Succeeded? || CancelExpected(j)
    case CloseCancel => CancelExpected(j)
    case CloseFailure(cls, code, reason, terminal) =>
      CancelExpected(j)
      || ((if terminal then j.status.Failed? && reason.Some? && j.reason == reason else j.status.RetryWait?)
          && j.errClass == Some(cls) && j.errCode == Some(code))
  }

  datatype Round = Round(before: seq<Step>, reply: Reply, between: seq<Step>, readable: bool)

  datatype Resolution = Confirmed | ClaimLost | LeftClaim | ContextEnded

  /** A transition that the store acknowledges shows the expected row under the same claim. */
  lemma AcknowledgedIsExpected(s: Sys, t: nat, dec: Decision, nextRun: nat)
    requires CoreInv(s) && t in s.hs && s.hs[t].phase == Closing(dec) && !dec.Leave?
    requires (dec.CloseFailure? && dec.terminal ==> dec.reason.Some?)
    requires CloseTx(s, s.hs[t], t, dec, nextRun).err == Ok
    ensures var j := CloseTx(s, s.hs[t], t, dec, nextRun).d.job; Expected(dec, j) && SameClaim(j, s.hs[t], t)
  {
    hide CoreInv, CloseRunning, LatestAttempt;
    CoreHolds(s, t);
  }

  lemma ClosingLeavesRunning(d: Diagnosis, worker: nat, t: nat, dec: Decision, nextRun: nat)
    ensures var e := ConditionalFinalizeCancel(d, worker, t).d;
      e != d ==> OwnedRunning(d.job, worker, t) && !e.job.status.Running?
    ensures var e := ConditionalFinalizeSuccess(d, worker, t).d;
      e != d ==> OwnedRunning(d.job, worker, t) && !e.job.status.Running?
    ensures dec.CloseFailure? ==>
      var e := ConditionalFinalizeFailure(d, worker, t, dec.cls, dec.code, dec.reason, dec.terminal, nextRun).d;
      e != d ==> OwnedRunning(d.job, worker, t) && !e.job.status.Running?
  {
    hide CloseRunning, LatestAttempt;
  }

  /** A transition that changes the row ends the claim, so it can never be applied again. */
  lemma TransitionEndsClaim(s: Sys, t: nat, reply: Reply, nextRun: nat)
    requires t in s.hs && s.hs[t].phase.Closing? && DoClose(s, t, reply, nextRun, false).d != s.d
    ensures !Live(DoClose(s, t, reply, nextRun, false).d, t) && Live(s.d, t)
  {
    hide ConditionalFinalizeCancel, ConditionalFinalizeSuccess, ConditionalFinalizeFailure;
    ClosingLeavesRunning(s.d, s.hs[t].worker, t, s.hs[t].phase.decision, nextRun);
  }

  /** One attempt to close the claim, with what everybody else does around it. */
  function CloseRound(t: nat, nextRun: nat, r: Round): seq<Step> {
    r.before + [CloseStep(t, r.reply, nextRun, false)] + r.between
  }

  /** The steps of the first n rounds. */
  function CloseRun(t: nat, nextRun: nat, rounds: seq<Round>, n: nat): seq<Step>
    requires n <= |rounds|
  {
    if n == 0 then [] else CloseRun(t, nextRun, rounds, n - 1) + CloseRound(t, nextRun, rounds[n - 1])
  }

  lemma CloseNone(t: nat, nextRun: nat, rounds: seq<Round>)
    ensures CloseRun(t, nextRun, rounds, 0) == []
  {
  }

  lemma CloseNext(t: nat, nextRun: nat, rounds: seq<Round>, n: nat)
    requires n < |rounds|
    ensures CloseRun(t, nextRun, rounds, n + 1) == CloseRun(t, nextRun, rounds, n) + rounds[n].before
              + [CloseStep(t, rounds[n].reply, nextRun, false)] + rounds[n].between
  {
  }

  lemma ExecNone(s: Sys)
    ensures Exec(s, []) == s
  {
  }

  /** This step closes the claim or hands it back, and the rows show it. */
  predicate Applies(s: Sys, step: Step, t: nat) {
    (step.CloseStep? || step.ReturnStep?) && step.t == t && Apply(s, step).d != s.d
  }

  function Applied(s: Sys, steps: seq<Step>, t: nat): nat {
    if steps == [] then 0
    else
      var n := |steps| - 1;
      Applied(s, steps[..n], t) + if Applies(Exec(s, steps[..n]), steps[n], t) then 1 else 0
  }

  lemma AppliedEnds(s: Sys, step: Step, t: nat)
    requires Applies(s, step, t)
    ensures Live(s.d, t) && !Live(Apply(s, step).d, t)
  {
    hide ConditionalFinalizeCancel, ConditionalFinalizeSuccess, ConditionalFinalizeFailure;
    if step.CloseStep? && t in s.hs && s.hs[t].phase.Closing? {
      ClosingLeavesRunning(s.d, s.hs[t].worker, t, s.hs[t].phase.decision, step.nextRun);
    }
  }

  /** Over any run, a claim is closed or handed back at most once, however often it is tried. */
  lemma {:induction false} AppliedOnce(s: Sys, steps: seq<Step>, t: nat)
    requires t < s.next
    ensures Applied(s, steps, t) <= 1 && t < Exec(s, steps).next
    ensures Applied(s, steps, t) == 1 || !Live(s.d, t) ==> !Live(Exec(s, steps).d, t)
  {
    hide Apply, Applies, Live;
    if steps != [] {
      var n := |steps| - 1;
      var before := Exec(s, steps[..n]);
      AppliedOnce(s, steps[..n], t);
      if !Live(before.d, t) { DeadStays(before, steps[n], t); } else { StepTokens(before, steps[n]); }
      if Applies(before, steps[n], t) { AppliedEnds(before, steps[n], t); }
    }
  }

  lemma StepTokens(s: Sys, step: Step)
    ensures s.next <= Apply(s, step).next
  {
    hide Apply;
    if Bearer(step).Some? { BearerMoves(s, step, Bearer(step).value); } else { OthersMove(s, step); }
  }

  /* ----- durable start ----- */

  datatype StartRound = StartRound(stop: bool, before: seq<Step>, reply: Reply, between: seq<Step>, readable: bool,
                                   stopAfter: bool, until: nat, renewal: Reply, stopWait: bool)

  /** The loop is told to stop in this round. */
  predicate Stops(r: StartRound) { r.stop || r.stopAfter || r.stopWait }

  datatype StartResolution = Started(count: nat) | NotStarted | StartLost | StartUnknown | StartPending

  function StartTried(t: nat, r: StartRound): seq<Step> {
    r.before + if r.reply.NotExecuted? then [] else [StartStep(t)]
  }

  function StartRead(t: nat, r: StartRound): seq<Step> { StartTried(t, r) + r.between }

  function StartRun(t: nat, rounds: seq<StartRound>, n: nat): seq<Step>
    requires n <= |rounds|
  {
    if n == 0 then []
    else
      var r := rounds[n - 1];
      StartRun(t, rounds, n - 1) + StartRead(t, r) + if r.renewal.NotExecuted? then [] else [RenewStep(t, r.until)]
  }

  lemma StartNone(t: nat, rounds: seq<StartRound>)
    ensures StartRun(t, rounds, 0) == []
  {
  }

  lemma StartNext(t: nat, rounds: seq<StartRound>, n: nat)
    requires n < |rounds|
    ensures StartRun(t, rounds, n + 1) == StartRun(t, rounds, n) + StartTried(t, rounds[n]) + rounds[n].between
              + if rounds[n].renewal.NotExecuted? then [] else [RenewStep(t, rounds[n].until)]
  {
  }

  /* ----- returning an unstarted claim ----- */

  /** One round of the return loop: what everybody else does before the renewal and before the return, how
      the store answers both, and where the cleanup deadline has passed. */
  datatype ReturnRound = ReturnRound(before: seq<Step>, lateFirst: bool, until: nat, renewal: Reply,
                                     between: seq<Step>, lateNext: bool, reply: Reply, lateLast: bool)

  /** The return of this round is carried out by the store, whatever the worker hears. */
  predicate ReachesStore(r: ReturnRound) { !r.lateFirst && !r.lateNext && !r.reply.NotExecuted? }

  /** The worker hears the truth about its return, so the claim is settled. */
  predicate Acknowledged(r: ReturnRound) { ReachesStore(r) && r.reply.Faithful? }

  predicate LateAtEnd(r: ReturnRound) { r.lateFirst || r.lateNext || r.lateLast }

  function RenewPart(t: nat, r: ReturnRound): seq<Step> {
    r.before + if r.lateFirst || r.renewal.NotExecuted? then [] else [RenewStep(t, r.until)]
  }

  function ReturnRun(t: nat, rounds: seq<ReturnRound>, n: nat): seq<Step>
    requires n <= |rounds|
  {
    if n == 0 then []
    else
      var r := rounds[n - 1];
      ReturnRun(t, rounds, n - 1) + RenewPart(t, r) + r.between + if ReachesStore(r) then [ReturnStep(t)] else []
  }

  lemma ReturnNone(t: nat, rounds: seq<ReturnRound>)
    ensures ReturnRun(t, rounds, 0) == []
  {
  }

  lemma ReturnNext(t: nat, rounds: seq<ReturnRound>, n: nat)
    requires n < |rounds|
    ensures ReturnRun(t, rounds, n + 1) == ReturnRun(t, rounds, n) + RenewPart(t, rounds[n]) + rounds[n].between
              + if ReachesStore(rounds[n]) then [ReturnStep(t)] else []
  {
  }

  /** StillTrying: the rounds ran out before the deadline did. */
  datatype HandBack = HandedBack | LeftToLease | StillTrying

  lemma ForeignClaimStep(s: Sys, step: Step, t: nat)
    requires CoreInv(s) && t in s.claims && t !in s.hs
    requires (Bearer(step) != Some(t) || step.RenewStep? || step.CauseStep?)
    ensures var e := Apply(s, step); t in e.claims && e.claims[t] == s.claims[t] && t !in e.hs
  {
    assert ClaimOk(s, t);
    hide Apply, CoreInv;
    if Bearer(step) == Some(t) { RenewOrCause(s, step, t); }
    if Bearer(step).Some? { BearerMoves(s, step, Bearer(step).value); } else { OthersMove(s, step); }
  }

  lemma RenewOrCause(s: Sys, step: Step, t: nat)
    requires t !in s.hs
    requires (step == RenewStep(t, if step.RenewStep? then step.until else 0) || (step.CauseStep? && step.t == t))
    ensures t !in Apply(s, step).hs
  {
  }

  /** Nobody else charges claim t or launches its handler. */
  lemma {:induction false} ForeignKeepsClaim(s: Sys, steps: seq<Step>, t: nat)
    requires CoreInv(s) && Foreign(steps, t) && t in s.claims && t !in s.hs
    ensures var e := Exec(s, steps); t in e.claims && e.claims[t] == s.claims[t] && t !in e.hs
  {
    hide Apply, CoreInv;
    if steps != [] {
      ForeignKeepsClaim(s, steps[..|steps| - 1], t);
      CoreForever(s, steps[..|steps| - 1]);
      ForeignClaimStep(Exec(s, steps[..|steps| - 1]), steps[|steps| - 1], t);
    }
  }

  /** What the start transaction answers and does for a claim that paid nothing yet. */
  lemma StartAnswer(s: Sys, t: nat)
    requires CoreInv(s) && t in s.claims && s.claims[t].charged.None? && t !in s.hs
    ensures
      var tx := MarkExecutionStarted(s.d, s.now, Claim(s.claims[t].worker, t, s.claims[t].gen));
      var e := Apply(s, StartStep(t));
      && t in e.claims && t !in e.hs && e.claims[t].worker == s.claims[t].worker && e.claims[t].gen == s.claims[t].gen
      && e.d.job.gen == s.d.job.gen && e.d.job.count >= s.d.job.count
      && (if tx.err == Ok then e.claims[t].charged == Some(tx.d.job.count)
          else tx.err == OwnershipLost && e == s
               && !(Owns(s.d.job, s.claims[t].worker, t) && LiveLease(s.d.job, s.now)))
  {
    hide CoreInv;
    PaidIfStarted(s, t);
  }

  lemma RenewAnswer(s: Sys, t: nat, until: nat)
    requires t in s.claims
    ensures var tx := RenewLease(s.d, s.now, s.claims[t].worker, t, until); var e := Apply(s, RenewStep(t, until));
      && e.claims == s.claims && e.hs == s.hs && Live(e.d, t) == Live(s.d, t)
      && e.d.job.gen == s.d.job.gen && e.d.job.count == s.d.job.count
      && (tx.err == OwnershipLost ==> e == s && !(Owns(s.d.job, s.claims[t].worker, t) && LiveLease(s.d.job, s.now)))
  {
  }

  /** What the return does once it reaches the store, for a claim that paid nothing. */
  lemma ReturnAnswer(s: Sys, t: nat)
    requires CoreInv(s) && t in s.claims && s.claims[t].charged.None?
    ensures var e := Apply(s, ReturnStep(t));
      && e.claims == s.claims && e.hs == s.hs && !Live(e.d, t) && (e.d != s.d ==> Live(s.d, t))
      && e.d.job.gen == s.d.job.gen && e.d.job.count == s.d.job.count
  {
    hide CoreInv;
    PaidIfStarted(s, t);
  }

  lemma ReturnSettles(d: Diagnosis, c: Claim)
    ensures var err := ReturnUndispatchedClaim(d, c).err; err == Ok || err == OwnershipLost
  {
  }

  /** A claim that paid for an attempt cannot be handed back, so no charge is ever refunded. */
  lemma ChargedNotReturned(s: Sys, t: nat)
    requires CoreInv(s) && t in s.claims && s.claims[t].charged.Some?
    ensures Apply(s, ReturnStep(t)) == s
  {
    hide CoreInv;
    PaidIfStarted(s, t);
  }

  lemma ClaimTaken(s: Sys, t: nat)
    requires CoreInv(s) && t in s.claims
    ensures t < s.next
  {
    assert ClaimOk(s, t);
  }

  lemma Launches(s: Sys, t: nat)
    requires t in s.claims && t !in s.hs && s.claims[t].charged.Some?
    ensures var e := Apply(s, LaunchStep(t));
      t in e.hs && e.claims == s.claims && e.d == s.d && Some(e.hs[t].no) == s.claims[t].charged
  {
  }

  lemma PaidIfStarted(s: Sys, t: nat)
    requires CoreInv(s) && t in s.claims
    ensures Live(s.d, t) ==> s.claims[t].charged == (if s.d.job.started then Some(s.d.job.count) else None)
    ensures Live(s.d, t) ==> s.d.job.gen == s.claims[t].gen && s.d.job.worker == Some(s.claims[t].worker)
  {
    assert ClaimOk(s, t);
  }

  /* ----- when an unstarted claim is handed back ----- */

  predicate AllForeign(rounds: seq<ReturnRound>, t: nat) {
    forall k | 0 <= k < |rounds| :: Foreign(rounds[k].before, t) && Foreign(rounds[k].between, t)
  }

  /** No return among the first n rounds was carried out by the store. */
  predicate NoneReached(rounds: seq<ReturnRound>, n: nat)
    requires n <= |rounds|
  {
    forall k | 0 <= k < n :: !ReachesStore(rounds[k])
  }

  /** No step of anybody else in this run ends the claim. */
  predicate Spared(s: Sys, steps: seq<Step>, t: nat) {
    forall k | 0 <= k < |steps| && Bearer(steps[k]) != Some(t) && Live(Exec(s, steps[..k]).d, t) ::
      Live(Exec(s, steps[..k + 1]).d, t)
  }

  /** No run takes an attempt back. */
  lemma NeverBack(s: Sys)
    ensures forall steps: seq<Step> :: NotEarlier(s.d.job, Exec(s, steps).d.job)
  {
    hide Exec;
    forall steps: seq<Step> ensures NotEarlier(s.d.job, Exec(s, steps).d.job) { RunEvolves(s, steps); }
  }

  /** The claim has paid nothing and has no handler. */
  predicate Unstarted(s: Sys, t: nat) { CoreInv(s) && t in s.claims && s.claims[t].charged.None? && t !in s.hs }

  /** A lease that is live at every step spares the claim. */
  lemma LeaseSpares(s: Sys, steps: seq<Step>, t: nat)
    requires forall k | 0 <= k < |steps| :: LiveLease(Exec(s, steps[..k]).d.job, Exec(s, steps[..k]).now)
    ensures Spared(s, steps, t)
  {
    hide Apply, Live, LiveLease;
    forall k | 0 <= k < |steps| && Bearer(steps[k]) != Some(t) && Live(Exec(s, steps[..k]).d, t)
      ensures Live(Exec(s, steps[..k + 1]).d, t)
    {
      LeaseExclusive(Exec(s, steps[..k]), steps[k], t);
      assert steps[..k + 1] == steps[..k] + [steps[k]];
      ExecOne(s, steps[..k], steps[k]);
    }
  }

  lemma RenewKeepsLive(s: Sys, step: Step, t: nat)
    requires Bearer(step) == Some(t) && (step.RenewStep? || step.CauseStep?)
    ensures Live(Apply(s, step).d, t) == Live(s.d, t)
  {
  }

  lemma {:induction false} SparedStaysLive(s: Sys, steps: seq<Step>, t: nat)
    requires Foreign(steps, t) && Spared(s, steps, t) && Live(s.d, t)
    ensures Live(Exec(s, steps).d, t)
  {
    hide Apply, Live;
    if steps != [] {
      var n := |steps| - 1;
      forall k | 0 <= k < n && Bearer(steps[k]) != Some(t) && Live(Exec(s, steps[..n][..k]).d, t)
        ensures Live(Exec(s, steps[..n][..k + 1]).d, t)
      {
        assert steps[..n][..k] == steps[..k] && steps[..n][..k + 1] == steps[..k + 1];
      }
      SparedStaysLive(s, steps[..n], t);
      if Bearer(steps[n]) == Some(t) { RenewKeepsLive(Exec(s, steps[..n]), steps[n], t); }
      assert steps[..n + 1] == steps;
    }
  }

  lemma {:induction false} NoReturns(t: nat, rounds: seq<ReturnRound>, n: nat)
    requires n <= |rounds| && AllForeign(rounds, t) && NoneReached(rounds, n)
    ensures Foreign(ReturnRun(t, rounds, n), t)
  {
    if n > 0 { NoReturns(t, rounds, n - 1); }
  }

  lemma ForeignRun(s: Sys, steps: seq<Step>, t: nat)
    requires Unstarted(s, t) && Foreign(steps, t)
    ensures Unstarted(Exec(s, steps), t)
  {
    hide CoreInv, Exec;
    CoreForever(s, steps);
    ForeignKeepsClaim(s, steps, t);
  }

  /** The claim stays unstarted through the loop, and a return that reaches the store ends it for good. */
  lemma {:induction false} ReachedEnds(s: Sys, t: nat, rounds: seq<ReturnRound>, n: nat)
    requires n <= |rounds| && AllForeign(rounds, t) && Unstarted(s, t)
    ensures var e := Exec(s, ReturnRun(t, rounds, n));
      Unstarted(e, t) && (!NoneReached(rounds, n) ==> !Live(e.d, t))
  {
    hide Exec, Apply, Unstarted, Live;
    if n == 0 {
      ExecNone(s);
    } else {
      var r := rounds[n - 1];
      var steps := RenewPart(t, r) + r.between;
      var before := Exec(s, ReturnRun(t, rounds, n - 1));
      ReachedEnds(s, t, rounds, n - 1);
      ForeignRun(before, steps, t);
      ExecAppend(s, ReturnRun(t, rounds, n - 1), steps);
      var e := Exec(before, steps);
      if !Live(before.d, t) { StaysDead(before, steps, t); }
      var sofar := ReturnRun(t, rounds, n - 1) + steps;
      if ReachesStore(r) {
        ReturnEnds(e, t);
        ExecOne(s, sofar, ReturnStep(t));
        assert ReturnRun(t, rounds, n) == sofar + [ReturnStep(t)];
      } else {
        assert ReturnRun(t, rounds, n) == sofar;
        assert NoneReached(rounds, n) == NoneReached(rounds, n - 1);
      }
    }
  }

  lemma StaysDead(s: Sys, steps: seq<Step>, t: nat)
    requires Unstarted(s, t) && !Live(s.d, t)
    ensures !Live(Exec(s, steps).d, t)
  {
    hide CoreInv, Exec;
    ClaimTaken(s, t);
    DeadForever(s, steps, t);
  }

  lemma ReturnEnds(s: Sys, t: nat)
    requires Unstarted(s, t)
    ensures var e := Apply(s, ReturnStep(t)); Unstarted(e, t) && !Live(e.d, t)
  {
    hide CoreInv, Apply;
    ReturnAnswer(s, t);
    StepKeepsCore(s, ReturnStep(t));
  }

  /** What the loop achieves: the return is applied at most once and refunds nothing, and a claim that
      nobody else ends is still live exactly if no return reached the store. */
  lemma HandBackExact(s: Sys, t: nat, rounds: seq<ReturnRound>, n: nat)
    requires n <= |rounds| && AllForeign(rounds, t) && Unstarted(s, t)
    ensures var steps := ReturnRun(t, rounds, n); var e := Exec(s, steps);
      && Applied(s, steps, t) <= 1 && NotEarlier(s.d.job, e.d.job)
      && (Live(e.d, t) ==> NoneReached(rounds, n))
      && (Live(s.d, t) && Spared(s, steps, t) ==> (Live(e.d, t) <==> NoneReached(rounds, n)))
  {
    hide CoreInv, Exec, Applied, ReturnRun, Spared, Live;
    var steps := ReturnRun(t, rounds, n);
    ClaimTaken(s, t);
    AppliedOnce(s, steps, t);
    RunEvolves(s, steps);
    ReachedEnds(s, t, rounds, n);
    if NoneReached(rounds, n) && Live(s.d, t) && Spared(s, steps, t) {
      NoReturns(t, rounds, n);
      SparedStaysLive(s, steps, t);
    }
  }

  class Worker {
    /** The durable state as the whole system left it. */
    var s: Sys

    constructor (start: Sys)
      ensures s == start
    {
      s := start;
    }

    /** Repeats a claim-fenced finalization until the durable row settles what happened. It confirms
        only if the row shows the requested verdict under this claim, and however many replies are
        lost, the transition is applied at most once. */
    method ResolveFinalization(t: nat, dec: Decision, nextRun: nat, rounds: seq<Round>)
      returns (r: Resolution, ghost last: nat, ghost steps: seq<Step>)
      requires CoreInv(s) && t in s.hs && s.hs[t].phase == Closing(dec) && !dec.Leave?
      requires dec.CloseFailure? && dec.terminal ==> dec.reason.Some?
      requires forall k | 0 <= k < |rounds| :: Foreign(rounds[k].before, t) && Foreign(rounds[k].between, t)
      modifies this
      ensures CoreInv(s) && t in s.hs && s == Exec(old(s), steps) && Applied(old(s), steps, t) <= 1
      ensures last <= |rounds| && CloseRun(t, nextRun, rounds, last) <= steps
      ensures if r.ContextEnded? then last == |rounds| && steps == CloseRun(t, nextRun, rounds, last)
              else
                last < |rounds| && steps <= CloseRun(t, nextRun, rounds, last + 1)
                && CloseRun(t, nextRun, rounds, last) + rounds[last].before
                   + [CloseStep(t, rounds[last].reply, nextRun, false)] <= steps
      ensures r.Confirmed? ==> Expected(dec, s.d.job) && SameClaim(s.d.job, s.hs[t], t)
      ensures r.ClaimLost? ==> !SameClaim(s.d.job, s.hs[t], t)
      ensures r.LeftClaim? ==> SameClaim(s.d.job, s.hs[t], t) && !s.d.job.status.Running? && !Expected(dec, s.d.job)
      ensures r.ClaimLost? || r.LeftClaim? ==> rounds[last].readable && steps == CloseRun(t, nextRun, rounds, last + 1)
      ensures r.ContextEnded? && rounds != [] && rounds[|rounds| - 1].readable ==>
        SameClaim(s.d.job, s.hs[t], t) && s.d.job.status.Running?
    {
      hide CoreInv, CloseTx, Expected, Foreign, Applied, Apply, Exec, CloseRun, Live;
      steps := [];
      ExecNone(s);
      CloseNone(t, nextRun, rounds);
      var k := 0;
      TokenTaken(s, t);
      AppliedOnce(s, steps, t);
      while k < |rounds|
        invariant k <= |rounds| && CoreInv(s) && t in s.hs && s.hs[t].phase == Closing(dec) && t < s.next
        invariant s == Exec(old(s), steps) && steps == CloseRun(t, nextRun, rounds, k)
        invariant k > 0 && rounds[k - 1].readable ==> SameClaim(s.d.job, s.hs[t], t) && s.d.job.status.Running?
      {
        var round := rounds[k];
        CloseNext(t, nextRun, rounds, k);
        Others(round.before, t);
        ExecAppend(old(s), steps, round.before);
        steps := steps + round.before;
        var err := Seen(CloseTx(s, s.hs[t], t, dec, nextRun), round.reply);
        if round.reply.Faithful? && err == Ok { AcknowledgedIsExpected(s, t, dec, nextRun); }
        var h := s.hs[t];
        Close(t, round.reply, nextRun, dec);
        ExecOne(old(s), steps, CloseStep(t, round.reply, nextRun, false));
        steps := steps + [CloseStep(t, round.reply, nextRun, false)];
        AppliedOnce(old(s), steps, t);
        if err == Ok { return Confirmed, k, steps; }
        Others(round.between, t);
        ExecAppend(old(s), steps, round.between);
        steps := steps + round.between;
        AppliedOnce(old(s), steps, t);
        if round.readable {
          var j := s.d.job;
          if !SameClaim(j, h, t) { return ClaimLost, k, steps; }
          if Expected(dec, j) { return Confirmed, k, steps; }
          if !j.status.Running? { return LeftClaim, k, steps; }
        }
        k := k + 1;
      }
      AppliedOnce(old(s), steps, t);
      return ContextEnded, k, steps;
    }

    /** The transition reaches the store, or does not. */
    method Close(t: nat, reply: Reply, nextRun: nat, dec: Decision)
      requires CoreInv(s) && t in s.hs && s.hs[t].phase == Closing(dec) && !dec.Leave?
      modifies this
      ensures s == Apply(old(s), CloseStep(t, reply, nextRun, false)) && CoreInv(s) && s.next == old(s).next
      ensures var tx := CloseTx(old(s), old(s).hs[t], t, dec, nextRun);
        && s.d == Committed(old(s), tx, reply) && t in s.hs
        && s.hs[t] == old(s).hs[t].(phase := if Seen(tx, reply) == Ok then Done else Closing(dec))
    {
      hide CoreInv, CloseTx;
      ClosedRow(s, t, reply, nextRun, dec);
      StepKeepsCore(s, CloseStep(t, reply, nextRun, false));
      s := Apply(s, CloseStep(t, reply, nextRun, false));
    }

    /** Commits the attempt charge before a handler may run. The answer is Started only if the durable
        claim paid for exactly that attempt, and NotStarted only if it paid for none. */
    method StartClaimedExecution(t: nat, rounds: seq<StartRound>)
      returns (r: StartResolution, ghost last: nat, ghost steps: seq<Step>)
      requires Unstarted(s, t)
      requires forall k | 0 <= k < |rounds| :: Foreign(rounds[k].before, t) && Foreign(rounds[k].between, t)
      modifies this
      ensures CoreInv(s) && t in s.claims && t !in s.hs && s == Exec(old(s), steps)
      ensures NotEarlier(old(s).d.job, s.d.job)
      ensures last <= |rounds| && StartRun(t, rounds, last) <= steps
      ensures forall i | 0 <= i < last :: !Stops(rounds[i]) && rounds[i].readable
      ensures last < |rounds| ==> steps <= StartRun(t, rounds, last + 1)
      ensures last < |rounds| && !rounds[last].stop ==> StartRun(t, rounds, last) + StartTried(t, rounds[last]) <= steps
      ensures last < |rounds| && rounds[last].stop ==> r.NotStarted? && steps == StartRun(t, rounds, last)
      ensures r.Started? ==> s.claims[t].charged == Some(r.count)
      ensures r.NotStarted? ==> s.claims[t].charged.None? && last < |rounds| && Stops(rounds[last])
      ensures r.NotStarted? && !rounds[last].stop ==> StartRun(t, rounds, last) + StartRead(t, rounds[last]) <= steps
      ensures r.StartUnknown? ==> last < |rounds| && !rounds[last].readable
      ensures r.StartLost? ==> !(Owns(s.d.job, s.claims[t].worker, t) && LiveLease(s.d.job, s.now))
      ensures r.StartPending? <==> last == |rounds|
    {
      hide CoreInv, Apply, RenewLease, Exec, StartRun, Foreign, NotEarlier;
      NeverBack(s);
      steps := [];
      ExecNone(s);
      StartNone(t, rounds);
      var k := 0;
      var c := Claim(s.claims[t].worker, t, s.claims[t].gen);
      while k < |rounds|
        invariant k <= |rounds| && CoreInv(s) && t in s.claims && s.claims[t].charged.None? && t !in s.hs
        invariant c == Claim(s.claims[t].worker, t, s.claims[t].gen)
        invariant s == Exec(old(s), steps) && steps == StartRun(t, rounds, k)
        invariant forall i | 0 <= i < k :: !Stops(rounds[i]) && rounds[i].readable
      {
        var round := rounds[k];
        StartNext(t, rounds, k);
        if round.stop { return NotStarted, k, steps; }
        var err, count := TryStart(t, round);
        ExecAppend(old(s), steps, StartTried(t, round));
        steps := steps + StartTried(t, round);
        if err == Ok { return Started(count), k, steps; }
        if err == OwnershipLost { return StartLost, k, steps; }
        WhileClaimed(round.between, t);
        ExecAppend(old(s), steps, round.between);
        steps := steps + round.between;
        if !round.readable { return StartUnknown, k, steps; }
        var j := s.d.job;
        PaidIfStarted(s, t);
        if !(j.status.Running? && j.worker == Some(c.worker) && j.token == Some(t) && j.gen == c.gen) {
          return StartLost, k, steps;
        }
        if j.started { return Started(j.count), k, steps; }
        if round.stopAfter { return NotStarted, k, steps; }
        var renewal := RenewLease(s.d, s.now, c.worker, t, round.until);
        RenewAnswer(s, t, round.until);
        if !round.renewal.NotExecuted? {
          Renew(t, round.until);
          ExecOne(old(s), steps, RenewStep(t, round.until));
          steps := steps + [RenewStep(t, round.until)];
        }
        assert steps == StartRun(t, rounds, k + 1);
        if Seen(renewal, round.renewal) == OwnershipLost { return StartLost, k, steps; }
        if round.stopWait { return NotStarted, k, steps; }
        k := k + 1;
      }
      return StartPending, k, steps;
    }

    /** One durable start and what the worker hears of it. */
    method TryStart(t: nat, round: StartRound) returns (err: Err, count: nat)
      requires CoreInv(s) && t in s.claims && s.claims[t].charged.None? && t !in s.hs && Foreign(round.before, t)
      modifies this
      ensures s == Exec(old(s), StartTried(t, round)) && CoreInv(s) && t in s.claims && t !in s.hs
      ensures s.claims[t].worker == old(s).claims[t].worker && s.claims[t].gen == old(s).claims[t].gen
      ensures err == Ok ==> s.claims[t].charged == Some(count)
      ensures err == OwnershipLost ==> !(Owns(s.d.job, s.claims[t].worker, t) && LiveLease(s.d.job, s.now))
    {
      hide CoreInv, Apply, MarkExecutionStarted, Exec, Foreign;
      WhileClaimed(round.before, t);
      var tx := MarkExecutionStarted(s.d, s.now, Claim(s.claims[t].worker, t, s.claims[t].gen));
      StartAnswer(s, t);
      assert round.before + [] == round.before;
      if !round.reply.NotExecuted? {
        StepKeepsCore(s, StartStep(t));
        s := Apply(s, StartStep(t));
        ExecOne(old(s), round.before, StartStep(t));
      }
      return Seen(tx, round.reply), tx.d.job.count;
    }

    /** Hands an unstarted claim back: renews the lease, tries to return it, and repeats on errors until the
        cleanup deadline. */
    method ReturnUndispatchedClaims(t: nat, rounds: seq<ReturnRound>) returns (r: HandBack, ghost tried: nat)
      requires Unstarted(s, t) && AllForeign(rounds, t)
      modifies this
      ensures tried <= |rounds| && s == Exec(old(s), ReturnRun(t, rounds, tried))
      ensures Applied(old(s), ReturnRun(t, rounds, tried), t) <= 1 && NotEarlier(old(s).d.job, s.d.job)
      ensures Live(s.d, t) ==> NoneReached(rounds, tried)
      ensures Live(old(s).d, t) && Spared(old(s), ReturnRun(t, rounds, tried), t) ==>
        (Live(s.d, t) <==> NoneReached(rounds, tried))
      ensures CoreInv(s) && t in s.claims && s.claims[t] == old(s).claims[t] && t !in s.hs
      ensures forall k | 0 <= k < tried - 1 :: !Acknowledged(rounds[k]) && !LateAtEnd(rounds[k])
      ensures r.HandedBack? <==> tried > 0 && Acknowledged(rounds[tried - 1])
      ensures r.LeftToLease? <==> tried > 0 && !Acknowledged(rounds[tried - 1]) && LateAtEnd(rounds[tried - 1])
      ensures r.StillTrying? ==> tried == |rounds|
    {
      hide CoreInv, Apply, RenewLease, ReturnUndispatchedClaim, Live, Foreign, Exec, ReturnRun,
        Applied, NotEarlier, Spared;
      ghost var steps: seq<Step> := [];
      ExecNone(s);
      ReturnNone(t, rounds);
      var k := 0;
      var c := Claim(s.claims[t].worker, t, s.claims[t].gen);
      while k < |rounds|
        invariant k <= |rounds| && CoreInv(s) && t in s.claims && s.claims[t] == old(s).claims[t] && t !in s.hs
        invariant s == Exec(old(s), steps) && steps == ReturnRun(t, rounds, k)
        invariant forall i | 0 <= i < k :: !Acknowledged(rounds[i]) && !LateAtEnd(rounds[i])
      {
        var round := rounds[k];
        ReturnNext(t, rounds, k);
        var late := round.lateFirst;
        WhileClaimed(round.before, t);
        ExecAppend(old(s), steps, round.before);
        steps := steps + round.before;
        if !late && !round.renewal.NotExecuted? {
          Renew(t, round.until);
          ExecOne(old(s), steps, RenewStep(t, round.until));
          steps := steps + [RenewStep(t, round.until)];
        }
        WhileClaimed(round.between, t);
        ExecAppend(old(s), steps, round.between);
        steps := steps + round.between;
        late := late || round.lateNext;
        var done := false;
        if !late {
          var err := Seen(ReturnUndispatchedClaim(s.d, c), round.reply);
          ReturnSettles(s.d, c);
          if !round.reply.NotExecuted? {
            Return(t);
            ExecOne(old(s), steps, ReturnStep(t));
            steps := steps + [ReturnStep(t)];
          }
          done := err == Ok || err == OwnershipLost;
        }
        k := k + 1;
        assert steps == ReturnRun(t, rounds, k);
        HandBackExact(old(s), t, rounds, k);
        if done { return HandedBack, k; }
        if late || round.lateLast { return LeftToLease, k; }
      }
      HandBackExact(old(s), t, rounds, k);
      return StillTrying, k;
    }

    method Renew(t: nat, until: nat)
      requires CoreInv(s) && t in s.claims
      modifies this
      ensures s == Apply(old(s), RenewStep(t, until)) && CoreInv(s)
      ensures s.claims == old(s).claims && s.hs == old(s).hs
    {
      hide CoreInv, Apply;
      StepKeepsCore(s, RenewStep(t, until));
      RenewAnswer(s, t, until);
      s := Apply(s, RenewStep(t, until));
    }

    method Return(t: nat)
      requires CoreInv(s) && t in s.claims && s.claims[t].charged.None?
      modifies this
      ensures s == Apply(old(s), ReturnStep(t)) && CoreInv(s)
      ensures s.claims == old(s).claims && s.hs == old(s).hs
    {
      hide CoreInv, Apply;
      StepKeepsCore(s, ReturnStep(t));
      ReturnAnswer(s, t);
      s := Apply(s, ReturnStep(t));
    }

    /** A handler runs only for a started claim, under the number it paid for, and only if the look at the
        launch gate found no stop. A claim that did not start goes to the return loop. */
    method StartAndDispatchClaim(t: nat, rounds: seq<StartRound>, gate: Shutdown.State, i: nat,
                                 cleanup: seq<ReturnRound>)
      returns (state: StartResolution, launched: bool, back: HandBack, ghost last: nat, ghost steps: seq<Step>,
               ghost tried: nat)
      requires Unstarted(s, t) && AllForeign(cleanup, t)
      requires forall k | 0 <= k < |rounds| :: Foreign(rounds[k].before, t) && Foreign(rounds[k].between, t)
      requires i < |gate.claims| && gate.claims[i].Inside?
      modifies this
      ensures CoreInv(s) && t in s.claims && (launched <==> t in s.hs) && tried <= |cleanup|
      ensures last <= |rounds| && StartRun(t, rounds, last) <= steps
      ensures last < |rounds| ==> steps <= StartRun(t, rounds, last + 1)
      ensures s == Exec(old(s), steps + (if launched then [LaunchStep(t)] else ReturnRun(t, cleanup, tried)))
      ensures launched <==> state.Started? && !gate.stopped && !Shutdown.StopSeen(gate)
      ensures state.Started? ==> s.claims[t].charged == Some(state.count)
      ensures launched ==> s.hs[t].no == state.count
      ensures state.NotStarted? ==> s.claims[t].charged.None? && (Live(s.d, t) ==> NoneReached(cleanup, tried))
      ensures NotEarlier(old(s).d.job, s.d.job)
      ensures !state.NotStarted? ==> tried == 0
      ensures state.NotStarted? && back.HandedBack? ==> tried > 0 && Acknowledged(cleanup[tried - 1])
      ensures state.NotStarted? && back.LeftToLease? ==> tried > 0 && LateAtEnd(cleanup[tried - 1])
    {
      hide CoreInv, Apply, Exec, StartRun, ReturnRun, NotEarlier, Live, NoneReached, Applied, Spared, AllForeign;
      launched, back, tried := false, StillTrying, 0;
      NeverBack(s);
      state, last, steps := StartClaimedExecution(t, rounds);
      ReturnNone(t, cleanup);
      assert steps + [] == steps;
      match state {
        case NotStarted =>
          back, tried := ReturnUndispatchedClaims(t, cleanup);
          ExecAppend(old(s), steps, ReturnRun(t, cleanup, tried));
        case Started(_) =>
          if Shutdown.NextPhase(gate, i, true).Cleared? {
            StepKeepsCore(s, LaunchStep(t));
            Launches(s, t);
            ExecOne(old(s), steps, LaunchStep(t));
            s := Apply(s, LaunchStep(t));
            launched := true;
          }
        case _ =>
      }
    }

    /** Everybody else runs while claim t has no handler yet. */
    method WhileClaimed(steps: seq<Step>, t: nat)
      requires CoreInv(s) && t in s.claims && t !in s.hs && Foreign(steps, t)
      modifies this
      ensures s == Exec(old(s), steps) && CoreInv(s)
      ensures t in s.claims && s.claims[t] == old(s).claims[t] && t !in s.hs
    {
      hide CoreInv, Apply;
      CoreForever(s, steps);
      ForeignKeepsClaim(s, steps, t);
      s := Exec(s, steps);
    }

    /** Everybody else runs. */
    method Others(steps: seq<Step>, t: nat)
      requires CoreInv(s) && t in s.hs && Foreign(steps, t) && t < s.next
      modifies this
      ensures s == Exec(old(s), steps) && CoreInv(s) && t in s.hs && t < s.next
      ensures s.hs[t] == old(s).hs[t].(cause := s.hs[t].cause)
      ensures !Live(old(s).d, t) ==> !Live(s.d, t)
    {
      hide CoreInv, Live, Apply;
      CoreForever(s, steps);
      ForeignKeepsHandler(s, steps, t);
      TokenTaken(Exec(s, steps), t);
      if !Live(s.d, t) { DeadForever(s, steps, t); }
      s := Exec(s, steps);
    }
  }

  lemma ClosedRow(s: Sys, t: nat, reply: Reply, nextRun: nat, dec: Decision)
    requires t in s.hs && s.hs[t].phase == Closing(dec) && !dec.Leave?
    ensures var e := Apply(s, CloseStep(t, reply, nextRun, false)); var tx := CloseTx(s, s.hs[t], t, dec, nextRun);
      && e.d == Committed(s, tx, reply) && t in e.hs && e.next == s.next
      && e.hs[t] == s.hs[t].(phase := if Seen(tx, reply) == Ok then Done else Closing(dec))
  {
    hide CloseTx;
  }

  /* ----- a claim that is left behind ----- */

  /** A new diagnosis, claimed by a worker that is about to hand it back. */
  function JustClaimed(): Sys { Exec(Init(0), [ClaimStep(0, 1, 0)]) }

  lemma JustClaimedUnstarted()
    ensures Unstarted(JustClaimed(), 0) && Live(JustClaimed().d, 0)
  {
    ReachableCore(0, [ClaimStep(0, 1, 0)]);
    assert [ClaimStep(0, 1, 0)][..0] == [];
  }

  /** The store answers neither the renewal nor the return before the deadline: the claim is left live. */
  method LeftBehind() returns (r: HandBack, w: Worker)
    ensures r.LeftToLease? && Live(w.s.d, 0)
  {
    hide CoreInv, Applied, Spared;
    JustClaimedUnstarted();
    w := new Worker(JustClaimed());
    var rounds := [ReturnRound([], false, 0, NotExecuted, [], false, NotExecuted, true)];
    ghost var tried: nat;
    r, tried := w.ReturnUndispatchedClaims(0, rounds);
    ReturnNone(0, rounds);
    ReturnNext(0, rounds, 0);
    assert ReturnRun(0, rounds, tried) == [];
  }
}
