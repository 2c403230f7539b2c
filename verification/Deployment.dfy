/** Any number of diagnoses on the shared tables, together with what the worker processes remember about
    each of them. Every operation is carried out by the stores, and the cluster keeps, for each
    diagnosis, the steps of the protocol that it has taken: the tables never leave the states that the
    protocol reaches, so everything proved about its runs is true of every row. */
module Deployment {
  import opened Rows
  import opened Handlers
  import opened Protocol
  import opened Core
  import opened CoreSteps
  import opened Runs
  import opened Theorems
  import opened Database
  import T = Transactions

  /** What the processes remember about one diagnosis. */
  datatype Local = Local(next: nat, claims: map<nat, ClaimInfo>, hs: map<nat, Handler>, calls: seq<Call>)

  function LocalOf(s: Sys): Local { Local(s.next, s.claims, s.hs, s.calls) }

  function Join(d: Diagnosis, now: nat, l: Local): Sys { Sys(d, now, l.next, l.claims, l.hs, l.calls) }

  /** The state is the one that these steps lead to, so it has all that runs have. */
  ghost predicate Traced(s: Sys, born: nat, history: seq<Step>) { s == Reach(born, history) && CoreInv(s) }

  lemma TracedNext(s: Sys, born: nat, history: seq<Step>, step: Step)
    requires Traced(s, born, history)
    ensures Traced(Apply(s, step), born, history + [step])
  {
    hide CoreInv, Apply;
    ExecOne(Init(born), history, step);
    ReachableCore(born, history + [step]);
  }

  lemma TracedNew(now: nat)
    ensures Traced(Init(now), now, [])
  {
    hide CoreInv;
    ReachableCore(now, []);
  }

  /** Only a claim takes a token, and only the clock moves the clock. */
  lemma KeepsTokens(s: Sys, step: Step)
    requires !step.ClaimStep? && !step.Tick?
    ensures var e := Apply(s, step); e.next == s.next && e.claims.Keys == s.claims.Keys && e.now == s.now
  {
    if Bearer(step).Some? {
      hide Apply;
      BearerMoves(s, step, Bearer(step).value);
    }
  }

  /** Steps that touch no row: a local move of a handler, or the provider call itself. */
  predicate LocalStep(step: Step) {
    step.CauseStep? || step.LaunchStep? || step.EnterStep? || step.LoadStep? || step.CheckStep? || step.CallStep?
    || step.EndStep? || step.InspectStep? || step.RouteStep? || step.DivertStep? || step.ResolveStep?
    || step.DecideStep?
  }

  lemma LocalKeepsRows(s: Sys, step: Step)
    requires LocalStep(step)
    ensures Apply(s, step).d == s.d
  {
    hide T.CheckDispatchAuthority, T.LatestFinalCheckpoint, Decide;
  }

  predicate QueueStep(step: Step) {
    step.StartStep? || step.ReturnStep? || step.RenewStep? || step.ReapStep? || step.SweepStep? || step.CancelStep?
    || step.RequeueStep? || step.RetryStep?
  }

  predicate WorkStep(step: Step) { step.AttemptStep? || step.BeginStep? || step.SettleStep? || step.SaveStep? }

  /** The transaction by which a handler works on its own attempt. */
  function WorkTx(s: Sys, h: Handler, step: Step): Tx
    requires WorkStep(step)
  {
    var c := ClaimOf(h, step.t);
    if step.AttemptStep? && h.phase.Entered? then T.StartAttempt(s.d, s.now, c, T.ExpectedAttemptNo(h.no))
    else if h.at.None? || h.at.value >= |s.d.attempts| then Tx(Ok, s.d)
    else if step.BeginStep? && h.phase.Idle? then T.BeginProviderDispatch(s.d, s.now, c, h.at.value, h.no)
    else if step.SettleStep? && h.phase.Answered? && h.phase.outcome.CallSucceeded? then
      T.DispatchSucceeded(s.d, s.now, c, h.at.value, h.no)
    else if step.SettleStep? && h.phase.Answered? && h.phase.outcome.CallFailedDefinitely? then
      T.DispatchFailedDefinitely(s.d, s.now, c, h.at.value, h.no)
    else if step.SaveStep? && h.phase.Judged? && h.phase.result && !step.oversize then
      T.SaveCheckpoint(s.d, s.now, c, h.at.value, h.no, CheckpointOf(h.phase.kind), h.phase.kind.ExecUnknown?)
    else Tx(Ok, s.d)
  }

  lemma {:induction false} WorkRows(s: Sys, step: Step)
    requires WorkStep(step)
    ensures Apply(s, step).d ==
      if step.t !in s.hs || step.reply.NotExecuted? then s.d else WorkTx(s, s.hs[step.t], step).d
  {
    hide T.StartAttempt, T.BeginProviderDispatch, T.DispatchSucceeded, T.DispatchFailedDefinitely, T.SaveCheckpoint,
      T.DispatchResolves;
  }

  /** The transaction that a handler in this phase finishes with. */
  function VerdictTx(d: Diagnosis, c: Claim, a: nat, p: Phase): Tx {
    match p
    case Terminating(cls, code, _) => T.FinalizeDiagnosisFailure(d, c, a, cls, code)
    case Invalidating => T.FinalizeInvalidReport(d, c, a)
    case Succeeding => T.FinalizeSuccess(d, c, a)
    case Retrying(_) => T.FinalizeRetryableAttempt(d, c, a)
    case Cancelling => T.FinalizeCancellation(d, c, a)
    case _ => Tx(Ok, d)
  }

  lemma VerdictRows(s: Sys, t: nat, reply: Reply)
    ensures Apply(s, FinalizeStep(t, reply)).d ==
      if !At(s, t) || reply.NotExecuted? then s.d
      else VerdictTx(s.d, ClaimOf(s.hs[t], t), s.hs[t].at.value, s.hs[t].phase).d
  {
    hide T.FinalizeDiagnosisFailure, T.FinalizeInvalidReport, T.FinalizeSuccess, T.FinalizeRetryableAttempt,
      T.FinalizeCancellation;
  }

  lemma CloseRows(s: Sys, t: nat, reply: Reply, nextRun: nat, stop: bool)
    ensures Apply(s, CloseStep(t, reply, nextRun, stop)).d ==
      if t in s.hs && s.hs[t].phase.Closing? && !s.hs[t].phase.decision.Leave? && !reply.NotExecuted?
      then CloseTx(s, s.hs[t], t, s.hs[t].phase.decision, nextRun).d else s.d
  {
    hide CloseTx;
  }

  function Numbered(n: nat): (ids: seq<nat>)
    ensures forall r | 0 <= r < n :: r in ids
  {
    if n == 0 then [] else Numbered(n - 1) + [n - 1]
  }

  function Repeated(step: Step, n: nat): (steps: seq<Step>)
    ensures |steps| == n && forall r | 0 <= r < n :: steps[r] == step
  {
    seq(n, _ => step)
  }

  /** What the reaper does to each diagnosis, should it be selected. */
  function ReapSteps(jobs: seq<Job>, now: nat, delay: nat -> nat): (steps: seq<Step>)
    ensures |steps| == |jobs| && forall r | 0 <= r < |jobs| :: steps[r] == ReapStep(now + delay(jobs[r].count))
  {
    seq(|jobs|, r requires 0 <= r < |jobs| => ReapStep(now + delay(jobs[r].count)))
  }

  function SomeNext(history: seq<seq<Step>>, ids: seq<nat>, steps: seq<Step>): (h: seq<seq<Step>>)
    requires |steps| == |history|
    ensures |h| == |history|
    ensures forall r | 0 <= r < |h| :: h[r] == if r in ids then history[r] + [steps[r]] else history[r]
  {
    seq(|history|, r requires 0 <= r < |history| => if r in ids then history[r] + [steps[r]] else history[r])
  }

  /** What the processes remember of a diagnosis after a claim. */
  function Claimed(l: Local, token: nat, worker: nat, gen: nat, cancel: bool): Local {
    l.(next := token + 1, claims := l.claims[token := ClaimInfo(worker, gen, cancel, None)])
  }

  predicate Increasing(ids: seq<nat>, bound: nat) {
    (forall k | 0 <= k < |ids| :: ids[k] < bound) && forall k, l | 0 <= k < l < |ids| :: ids[k] < ids[l]
  }

  /** The job at position ids[k] was claimed under the token first + k. */
  function ClaimAll(locals: seq<Local>, jobs: seq<Job>, ids: seq<nat>, first: nat, worker: nat): (out: seq<Local>)
    requires |jobs| == |locals| && Increasing(ids, |locals|)
    ensures |out| == |locals| && forall r | 0 <= r < |locals| && r !in ids :: out[r] == locals[r]
    ensures forall k | 0 <= k < |ids| ::
      out[ids[k]] == Claimed(locals[ids[k]], first + k, worker, jobs[ids[k]].gen, jobs[ids[k]].cancel)
  {
    if ids == [] then locals
    else
      var n := |ids| - 1;
      ClaimAll(locals, jobs, ids[..n], first, worker)
      [ids[n] := Claimed(locals[ids[n]], first + n, worker, jobs[ids[n]].gen, jobs[ids[n]].cancel)]
  }

  function ClaimSteps(locals: seq<Local>, ids: seq<nat>, first: nat, worker: nat, duration: nat): (steps: seq<Step>)
    requires Increasing(ids, |locals|) && forall r | 0 <= r < |locals| :: locals[r].next <= first
    ensures |steps| == |locals|
    ensures forall k | 0 <= k < |ids| :: steps[ids[k]] == ClaimStep(worker, duration, first + k - locals[ids[k]].next)
  {
    if ids == [] then seq(|locals|, _ => ClaimStep(worker, duration, 0))
    else
      var n := |ids| - 1;
      ClaimSteps(locals, ids[..n], first, worker, duration)
      [ids[n] := ClaimStep(worker, duration, first + n - locals[ids[n]].next)]
  }

  predicate Apart(locals: seq<Local>) {
    forall r, q | 0 <= r < q < |locals| :: locals[r].claims.Keys !! locals[q].claims.Keys
  }

  predicate Below(locals: seq<Local>, token: nat) {
    forall r | 0 <= r < |locals| :: locals[r].next <= token && forall t | t in locals[r].claims :: t < locals[r].next
  }

  /** Fresh tokens keep the diagnoses apart. */
  lemma {:induction false} ClaimsStayApart(locals: seq<Local>, jobs: seq<Job>, ids: seq<nat>, first: nat, worker: nat)
    requires |jobs| == |locals| && Increasing(ids, |locals|) && Apart(locals) && Below(locals, first)
    ensures var out := ClaimAll(locals, jobs, ids, first, worker); Apart(out) && Below(out, first + |ids|)
  {
    hide Apart, Below;
    if ids != [] {
      var n := |ids| - 1;
      var before := ClaimAll(locals, jobs, ids[..n], first, worker);
      ClaimsStayApart(locals, jobs, ids[..n], first, worker);
      assert before[ids[n]] == locals[ids[n]];
      ClaimStaysApart(before, ids[n], first + n, worker, jobs[ids[n]].gen, jobs[ids[n]].cancel);
    }
  }

  lemma {:induction false} ClaimStaysApart(locals: seq<Local>, r: nat, token: nat, worker: nat, gen: nat, cancel: bool)
    requires Apart(locals) && Below(locals, token) && r < |locals|
    ensures var out := locals[r := Claimed(locals[r], token, worker, gen, cancel)]; Apart(out) && Below(out, token + 1)
  {
    var out := locals[r := Claimed(locals[r], token, worker, gen, cancel)];
    forall i, j | 0 <= i < j < |out| ensures out[i].claims.Keys !! out[j].claims.Keys {
      assert locals[i].claims.Keys !! locals[j].claims.Keys;
      assert token !in locals[i].claims && token !in locals[j].claims;
    }
  }

  lemma ClaimTakes(s: Sys, worker: nat, duration: nat, token: nat)
    requires s.next <= token && T.Claimable(s.d.job, s.now)
    ensures Apply(s, ClaimStep(worker, duration, token - s.next))
         == Join(T.ClaimJob(s.d, s.now, worker, token, duration).d, s.now,
                 Claimed(LocalOf(s), token, worker, s.d.job.gen, s.d.job.cancel))
  {
  }

  lemma ClaimSetsToken(d: Diagnosis, now: nat, worker: nat, token: nat, duration: nat)
    requires T.Claimable(d.job, now)
    ensures T.ClaimJob(d, now, worker, token, duration).d.job.token == Some(token)
  {
  }

  lemma TokensBelow(s: Sys, born: nat, history: seq<Step>, t: nat)
    requires Traced(s, born, history) && t in s.claims
    ensures t < s.next
  {
    assert ClaimOk(s, t);
  }

  lemma ReapCommits(s: Sys, born: nat, history: seq<Step>, delay: nat -> nat)
    requires Traced(s, born, history) && T.Expired(s.d.job, s.now)
    ensures Recovered(s.d, s.now, delay).err == Ok
  {
    hide CoreInv, T.ReapExpired;
    ReaperCommits(born, history, s.now + delay(s.d.job.count));
  }

  ghost predicate AllTraced(all: seq<Sys>, born: seq<nat>, history: seq<seq<Step>>) {
    |born| == |all| && |history| == |all| && forall r | 0 <= r < |all| :: Traced(all[r], born[r], history[r])
  }

  /** Some diagnoses take one step each, the others none. */
  ghost predicate Advanced(was: seq<Sys>, all: seq<Sys>, ids: seq<nat>, steps: seq<Step>) {
    && |all| == |was| == |steps|
    && forall r | 0 <= r < |all| :: all[r] == if r in ids then Apply(was[r], steps[r]) else was[r]
  }

  lemma AdvancedTraced(was: seq<Sys>, all: seq<Sys>, born: seq<nat>, history: seq<seq<Step>>, ids: seq<nat>,
                       steps: seq<Step>)
    requires AllTraced(was, born, history) && Advanced(was, all, ids, steps)
    ensures AllTraced(all, born, SomeNext(history, ids, steps))
  {
    hide Traced, Apply;
    forall r | 0 <= r < |all| ensures Traced(all[r], born[r], SomeNext(history, ids, steps)[r]) {
      if r in ids { TracedNext(was[r], born[r], history[r], steps[r]); }
    }
  }

  /** A batch of claims, rows and memory together, is one claim step for each selected diagnosis. */
  lemma {:induction false} ClaimsAdvance(was: seq<Sys>, all: seq<Sys>, locals: seq<Local>, jobs: seq<Job>,
                                         ids: seq<nat>, first: nat, worker: nat, duration: nat)
    requires |was| == |all| == |locals| == |jobs| && Increasing(ids, |locals|) && Below(locals, first)
    requires forall r | 0 <= r < |was| :: LocalOf(was[r]) == locals[r] && was[r].d.job == jobs[r]
    requires forall r | 0 <= r < |all| :: LocalOf(all[r]) == ClaimAll(locals, jobs, ids, first, worker)[r]
    requires forall r | 0 <= r < |all| :: all[r].now == was[r].now && (r !in ids ==> all[r].d == was[r].d)
    requires forall k | 0 <= k < |ids| :: T.Claimable(jobs[ids[k]], was[ids[k]].now)
    requires forall k | 0 <= k < |ids| ::
      all[ids[k]].d == T.ClaimJob(was[ids[k]].d, was[ids[k]].now, worker, first + k, duration).d
    ensures Advanced(was, all, ids, ClaimSteps(locals, ids, first, worker, duration))
  {
    hide Apply, ClaimAll, ClaimSteps, Claimed, T.ClaimJob, T.Claimable;
    var steps := ClaimSteps(locals, ids, first, worker, duration);
    forall r: nat | r < |all| ensures all[r] == if r in ids then Apply(was[r], steps[r]) else was[r] {
      if r in ids {
        var k :| 0 <= k < |ids| && ids[k] == r;
        ClaimTakes(was[r], worker, duration, first + k);
      }
    }
  }

  class Cluster {
    const tables: Tables
    var locals: seq<Local>
    /** When each diagnosis was created, and the steps it has taken since. */
    ghost var born: seq<nat>
    ghost var history: seq<seq<Step>>

    ghost predicate Shaped()
      reads this, tables
    {
      tables.Valid() && |locals| == |tables.jobs| && |born| == |locals| && |history| == |locals|
    }

    function Snapshot(r: nat): Sys
      requires Shaped() && r < |locals|
      reads this, tables
    {
      Join(tables.View(r), tables.now, locals[r])
    }

    ghost function All(): (all: seq<Sys>)
      requires Shaped()
      reads this, tables
      ensures |all| == |locals| && forall r | 0 <= r < |all| :: all[r] == Snapshot(r)
    {
      seq(|locals|, r requires 0 <= r < |locals| && Shaped() reads this, tables => Snapshot(r))
    }

    /** Every diagnosis is where its history leads, every token handed out is below the counter, and no two
        diagnoses ever used the same token. */
    ghost predicate Valid()
      reads this, tables
    {
      && Shaped() && AllTraced(All(), born, history) && Apart(locals)
      && forall r | 0 <= r < |locals| :: locals[r].next <= tables.nextToken
    }

    /** The selected diagnoses each took their step of the protocol; every other one is as it was. */
    twostate predicate Took(ids: seq<nat>, steps: seq<Step>)
      requires old(Valid())
      reads this, tables
    {
      && Valid() && |steps| == old(|locals|) && Advanced(old(All()), All(), ids, steps)
      && born == old(born) && history == SomeNext(old(history), ids, steps)
    }

    constructor (clock: nat)
      ensures Valid() && fresh(tables) && locals == [] && tables.now == clock
    {
      tables := new Tables(clock);
      locals, born, history := [], [], [];
    }

    method Create() returns (r: nat)
      requires Valid()
      modifies this, tables
      ensures Valid() && r == old(|locals|) && tables.now == old(tables.now)
      ensures All() == old(All()) + [Init(tables.now)] && history == old(history) + [[]]
    {
      hide Traced;
      r := tables.Create();
      locals, born, history := locals + [Local(0, map[], map[], [])], born + [tables.now], history + [[]];
      TracedNew(tables.now);
      assert All() == old(All()) + [Init(tables.now)];
    }

    method Tick(dt: nat)
      requires Valid()
      modifies this, tables
      ensures Took(Numbered(|locals|), Repeated(Step.Tick(dt), |locals|)) && tables.now == old(tables.now) + dt
    {
      hide AllTraced;
      ghost var ids, steps := Numbered(|locals|), Repeated(Step.Tick(dt), |locals|);
      ghost var was := All();
      tables.Tick(dt);
      ghost var all := All();
      AdvancedTraced(was, all, born, history, ids, steps);
      history := SomeNext(history, ids, steps);
      assert All() == all;
    }

    /* ----- what the stores do for a step ----- */

    /** Claims, recovery and users. */
    method WriteQueue(r: nat, step: Step)
      requires Valid() && r < |locals| && QueueStep(step)
      modifies tables
      ensures tables.Became(r, Apply(old(Snapshot(r)), step).d)
    {
      hide Traced, T.ManualRequeue, T.RetryDiagnosis, T.RequestCancellation, T.RecoverStaleAttempt;
      var err, count;
      match step {
        case StartStep(t) =>
          if t in locals[r].claims {
            var c := locals[r].claims[t];
            err, count := tables.MarkExecutionStarted(r, Claim(c.worker, t, c.gen));
          }
        case ReturnStep(t) =>
          if t in locals[r].claims {
            var c := locals[r].claims[t];
            err := tables.ReturnUndispatchedClaim(r, Claim(c.worker, t, c.gen));
          }
        case RenewStep(t, until) =>
          if t in locals[r].claims { err := tables.RenewLease(r, locals[r].claims[t].worker, t, until); }
        case ReapStep(nextRun) =>
          if T.Expired(tables.jobs[r], tables.now) { err := tables.ReapOne(r, nextRun); }
        case SweepStep(a) => err := tables.RecoverStaleAttempt(r, a);
        case CancelStep => err := tables.RequestCancellation(r);
        case RequeueStep => err := tables.ManualRequeue(r);
        case RetryStep => err := tables.RetryDiagnosis(r);
      }
    }

    /** The handler's own attempt: its insertion, the dispatch marker and the checkpoint. */
    method WriteWork(r: nat, step: Step)
      requires Valid() && r < |locals| && WorkStep(step)
      modifies tables
      ensures tables.Became(r, Apply(old(Snapshot(r)), step).d)
    {
      hide Traced, Apply, T.StartAttempt, T.BeginProviderDispatch, T.DispatchSucceeded, T.DispatchFailedDefinitely,
        T.SaveCheckpoint, T.DispatchResolves;
      WorkRows(Snapshot(r), step);
      if step.t !in locals[r].hs || step.reply.NotExecuted? { return; }
      var h := locals[r].hs[step.t];
      var c := ClaimOf(h, step.t);
      var err;
      if step.AttemptStep? {
        if h.phase.Entered? { err := tables.StartAttempt(r, c, T.ExpectedAttemptNo(h.no)); }
        return;
      }
      if !(h.at.Some? && h.at.value < |tables.attempts[r]|) { return; }
      var a := h.at.value;
      if step.BeginStep? && h.phase.Idle? {
        err := tables.BeginProviderDispatch(r, c, a, h.no);
      } else if step.SettleStep? && h.phase.Answered? && h.phase.outcome.CallSucceeded? {
        err := tables.DispatchSucceeded(r, c, a, h.no);
      } else if step.SettleStep? && h.phase.Answered? && h.phase.outcome.CallFailedDefinitely? {
        var resolved;
        resolved, err := tables.DispatchFailedDefinitely(r, c, a, h.no);
      } else if step.SaveStep? && h.phase.Judged? && h.phase.result && !step.oversize {
        err := tables.SaveCheckpoint(r, c, a, h.no, CheckpointOf(h.phase.kind), h.phase.kind.ExecUnknown?);
      }
    }

    /** The verdicts of the handler. */
    method WriteVerdict(r: nat, t: nat, reply: Reply)
      requires Valid() && r < |locals|
      modifies tables
      ensures tables.Became(r, Apply(old(Snapshot(r)), FinalizeStep(t, reply)).d)
    {
      hide Traced, Apply, T.FinalizeDiagnosisFailure, T.FinalizeInvalidReport, T.FinalizeSuccess,
        T.FinalizeRetryableAttempt, T.FinalizeCancellation;
      VerdictRows(Snapshot(r), t, reply);
      if t !in locals[r].hs { return; }
      var h := locals[r].hs[t];
      if !(h.at.Some? && h.at.value < |tables.attempts[r]|) || reply.NotExecuted? { return; }
      var c := ClaimOf(h, t);
      var a := h.at.value;
      var err;
      match h.phase {
        case Terminating(cls, code, _) => err := tables.FinalizeDiagnosisFailure(r, c, a, cls, code);
        case Invalidating => err := tables.FinalizeInvalidReport(r, c, a);
        case Succeeding => err := tables.FinalizeSuccess(r, c, a);
        case Retrying(_) => err := tables.FinalizeRetryableAttempt(r, c, a);
        case Cancelling => err := tables.FinalizeCancellation(r, c, a);
        case _ =>
      }
    }

    /** The worker's generic finalization. */
    method WriteClose(r: nat, t: nat, reply: Reply, nextRun: nat, stop: bool)
      requires Valid() && r < |locals|
      modifies tables
      ensures tables.Became(r, Apply(old(Snapshot(r)), CloseStep(t, reply, nextRun, stop)).d)
    {
      hide Traced, Apply, T.ConditionalFinalizeSuccess, T.ConditionalFinalizeCancel, T.ConditionalFinalizeFailure;
      CloseRows(Snapshot(r), t, reply, nextRun, stop);
      if t !in locals[r].hs { return; }
      var h := locals[r].hs[t];
      if !h.phase.Closing? || reply.NotExecuted? { return; }
      var err;
      match h.phase.decision {
        case Leave =>
        case CloseSuccess => err := tables.ConditionalFinalizeSuccess(r, h.worker, t);
        case CloseCancel => err := tables.ConditionalFinalizeCancel(r, h.worker, t);
        case CloseFailure(cls, code, reason, terminal) =>
          err := tables.ConditionalFinalizeFailure(r, h.worker, t, cls, code, reason, terminal, nextRun);
      }
    }

    method Write(r: nat, step: Step)
      requires Valid() && r < |locals| && !step.ClaimStep? && !step.Tick?
      modifies tables
      ensures tables.Became(r, Apply(old(Snapshot(r)), step).d)
    {
      hide Traced, Apply;
      if QueueStep(step) {
        WriteQueue(r, step);
      } else if WorkStep(step) {
        WriteWork(r, step);
      } else if step.FinalizeStep? {
        WriteVerdict(r, step.t, step.reply);
      } else if step.CloseStep? {
        WriteClose(r, step.t, step.reply, step.nextRun, step.stop);
      } else {
        LocalKeepsRows(Snapshot(r), step);
      }
    }

    /** Any step of the protocol other than a claim and the clock, carried out by the stores on the rows of
        one diagnosis and by its processes on what they remember. */
    method Perform(r: nat, step: Step)
      requires Valid() && r < |locals| && !step.ClaimStep? && !step.Tick?
      modifies this, tables
      ensures Took([r], Repeated(step, |locals|)) && tables.now == old(tables.now)
    {
      hide AllTraced, Apply;
      ghost var was, steps := All(), Repeated(step, |locals|);
      var e := Apply(Snapshot(r), step);
      KeepsTokens(Snapshot(r), step);
      Write(r, step);
      locals := locals[r := LocalOf(e)];
      ghost var all := All();
      AdvancedTraced(was, all, born, history, [r], steps);
      history := SomeNext(history, [r], steps);
      assert All() == all;
    }

    /** Claims a batch: the first claimable jobs, each under a token that no diagnosis ever used. */
    method ClaimJobs(worker: nat, limit: nat, duration: nat) returns (ids: seq<nat>)
      requires Valid()
      modifies this, tables
      ensures Valid() && |locals| == old(|locals|) && tables.now == old(tables.now)
      ensures |ids| <= limit && Increasing(ids, |locals|)
      ensures forall k | 0 <= k < |ids| :: old(T.Claimable(tables.jobs[ids[k]], tables.now))
      ensures forall r | 0 <= r < |locals| && r !in ids && old(T.Claimable(tables.jobs[r], tables.now)) ::
        |ids| == limit
      ensures forall k | 0 <= k < |ids| :: tables.jobs[ids[k]].token == Some(old(tables.nextToken) + k)
      ensures Below(old(locals), old(tables.nextToken))
      ensures Took(ids, ClaimSteps(old(locals), ids, old(tables.nextToken), worker, duration))
    {
      hide AllTraced, Advanced, Apart, ClaimSteps, SomeNext, T.ClaimJob, T.Claimable;
      var first, jobs := tables.nextToken, tables.jobs;
      ghost var was := All();
      AllBelow();
      ids := tables.ClaimJobs(worker, limit, duration);
      forall k | 0 <= k < |ids| ensures tables.jobs[ids[k]].token == Some(first + k) {
        ClaimSetsToken(was[ids[k]].d, tables.now, worker, first + k, duration);
      }
      Remember(was, jobs, ids, first, worker, duration);
    }

    /** The worker keeps the claims that the store just gave it. */
    method Remember(ghost was: seq<Sys>, jobs: seq<Job>, ids: seq<nat>, first: nat, worker: nat, ghost duration: nat)
      requires Shaped() && |was| == |jobs| == |locals| && Increasing(ids, |locals|) && tables.nextToken == first + |ids|
      requires AllTraced(was, born, history) && Apart(locals) && Below(locals, first)
      requires forall r | 0 <= r < |was| ::
        LocalOf(was[r]) == locals[r] && was[r].d.job == jobs[r] && was[r].now == tables.now
      requires forall r | 0 <= r < |was| && r !in ids :: tables.View(r) == was[r].d
      requires forall k | 0 <= k < |ids| :: T.Claimable(jobs[ids[k]], tables.now)
      requires forall k | 0 <= k < |ids| ::
        tables.View(ids[k]) == T.ClaimJob(was[ids[k]].d, tables.now, worker, first + k, duration).d
      modifies this`locals, this`history
      ensures Valid() && Advanced(was, All(), ids, ClaimSteps(old(locals), ids, first, worker, duration))
      ensures history == SomeNext(old(history), ids, ClaimSteps(old(locals), ids, first, worker, duration))
    {
      hide AllTraced, Advanced, Apart, ClaimAll, ClaimSteps, SomeNext, T.ClaimJob, T.Claimable;
      ClaimsStayApart(locals, jobs, ids, first, worker);
      ghost var steps := ClaimSteps(locals, ids, first, worker, duration);
      locals := ClaimAll(locals, jobs, ids, first, worker);
      ghost var all := All();
      ClaimsAdvance(was, all, old(locals), jobs, ids, first, worker, duration);
      AdvancedTraced(was, all, born, history, ids, steps);
      history := SomeNext(history, ids, steps);
      assert All() == all;
    }

    lemma AllBelow()
      requires Valid()
      ensures Below(locals, tables.nextToken)
    {
      forall r, t | 0 <= r < |locals| && t in locals[r].claims ensures t < locals[r].next {
        TokensBelow(Snapshot(r), born[r], history[r], t);
      }
    }

    /** Reaps a batch in one transaction. It always commits: no reachable row can make it fail. */
    method ReapExpiredJobs(limit: nat, delay: nat -> nat) returns (count: nat, err: Err, ghost ids: seq<nat>)
      requires Valid()
      modifies this, tables
      ensures Valid() && |locals| == old(|locals|) && tables.now == old(tables.now)
      ensures err == Ok && count == |ids| <= limit && Increasing(ids, |locals|)
      ensures forall k | 0 <= k < |ids| :: old(T.Expired(tables.jobs[ids[k]], tables.now))
      ensures forall r | 0 <= r < |locals| && r !in ids && old(T.Expired(tables.jobs[r], tables.now)) :: |ids| == limit
      ensures Took(ids, ReapSteps(old(tables.jobs), tables.now, delay))
    {
      hide Traced, T.ReapExpired, T.Expired;
      ghost var was, steps := All(), ReapSteps(tables.jobs, tables.now, delay);
      forall r | 0 <= r < |locals| && T.Expired(tables.jobs[r], tables.now)
        ensures Recovered(tables.View(r), tables.now, delay).err == Ok
      {
        ReapCommits(Snapshot(r), born[r], history[r], delay);
      }
      count, err, ids := tables.ReapExpiredJobs(limit, delay);
      ghost var all := All();
      AdvancedTraced(was, all, born, history, ids, steps);
      history := SomeNext(history, ids, steps);
      assert All() == all;
    }
  }

  /* ----- what the tables say at any time ----- */

  /** The job and the run of every diagnosis agree on the verdict and on the cancellation flag. */
  lemma RowsAgree(c: Cluster, r: nat)
    requires c.Valid() && r < |c.locals|
    ensures var j, u := c.tables.jobs[r], c.tables.runs[r];
      && (TerminalJob(j.status) <==> TerminalRun(u.status)) && j.cancel == u.cancel
      && (j.status.Succeeded? <==> u.status.RunSucceeded?)
      && (j.status.Failed? <==> u.status.RunFailed?)
      && (j.status.Cancelled? <==> u.status.RunCancelled?)
  {
    hide CoreInv, Reach;
    assert Traced(c.All()[r], c.born[r], c.history[r]);
    VerdictsCoupled(c.born[r], c.history[r]);
  }

  /** Two jobs never run under the same token. */
  lemma OwnersApart(c: Cluster, r: nat, q: nat)
    requires c.Valid() && r < q < |c.locals| && c.tables.jobs[r].status.Running? && c.tables.jobs[q].status.Running?
    ensures c.tables.jobs[r].token.Some? && c.tables.jobs[q].token.Some?
    ensures c.tables.jobs[r].token != c.tables.jobs[q].token
  {
    OwnerKnown(c.All()[r], c.born[r], c.history[r]);
    OwnerKnown(c.All()[q], c.born[q], c.history[q]);
    assert c.locals[r].claims.Keys !! c.locals[q].claims.Keys;
  }

  lemma OwnerKnown(s: Sys, born: nat, history: seq<Step>)
    requires Traced(s, born, history) && s.d.job.status.Running?
    ensures s.d.job.token.Some? && s.d.job.token.value in s.claims
  {
  }
}
