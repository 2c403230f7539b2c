/** A worker process and its graceful shutdown: the claim loop, one goroutine per claim, the execution
    each of them may launch, and any number of stop requests.

    A move is one operation on a shared variable by one goroutine. Moves interleave freely, and a move
    whose goroutine is blocked changes nothing. */
module Shutdown {
  import opened Rows

  datatype Config = Config(concurrency: nat, batchSize: nat)

  /** The claim loop. The slots it holds itself are in brackets; jobs are those the store gave it. */
  datatype Loop =
    | Head
    | Reserving(reserved: nat)
    | Asking(reserved: nat)
    | Releasing(reserved: nat, jobs: nat)
    | Spawning(jobs: nat)
    | Waiting
    | Exited

  /** The goroutine of one claim: resolving the durable start, waiting for the gate, holding it before and
      after the look at the stop flag, holding it with the execution published, waiting for that
      execution, and on its way out before and after its slot is given back. */
  datatype ClaimPhase =
    | Starting | Queued | Inside | Cleared | Refused | Published | Awaiting | Leaving | Freed | Gone

  /** A graceful stop: the request takes the gate, sets the flag, closes the stop channel and returns; then
      the caller waits for the loops and for the counted jobs. */
  datatype StopPhase = Called | Holding | Flagged | Signalled | Returned | LoopsDone | Drained | GaveUp

  datatype Owner = ByClaim(i: nat) | ByStop(k: nat)

  /** reaping says that the reaper loop runs; counted is the job wait group, gate the holder of the dispatch
      mutex and cancelled the parent context. launched and running are the claims whose execution was ever
      launched and still runs. */
  datatype State = State(
    loop: Loop,
    reaping: bool,
    occupied: nat,
    counted: nat,
    stopped: bool,
    signalled: bool,
    cancelled: bool,
    gate: Option<Owner>,
    claims: seq<ClaimPhase>,
    stops: seq<StopPhase>,
    launched: set<nat>,
    running: set<nat>)

  datatype ClaimAnswer = ClaimFailed | Claimed(n: nat)

  datatype Move =
    | LoopMove(answer: ClaimAnswer, timer: bool)
    | ClaimMove(i: nat, started: bool)
    | ExecutionEnds(i: nat)
    | StopArrives
    | ReaperMove
    | StopMove(k: nat, expired: bool)
    | ContextEnds

  function Init(): State { State(Head, true, 0, 0, false, false, false, None, [], [], {}, {}) }

  function Pred(n: nat): nat { if n > 0 then n - 1 else 0 }

  /** Something tells the process to stop claiming. */
  predicate StopSeen(s: State) { s.signalled || s.cancelled }

  predicate SlotFree(c: Config, s: State) {
    s.loop.Reserving? && s.loop.reserved < c.batchSize && s.occupied < c.concurrency
  }

  function NextLoop(c: Config, s: State, answer: ClaimAnswer, timer: bool): Loop {
    match s.loop
    case Head => if StopSeen(s) then Exited else Reserving(0)
    case Reserving(n) => if SlotFree(c, s) then Reserving(n + 1) else if n == 0 then Waiting else Asking(n)
    case Asking(n) =>
      if answer.ClaimFailed? then Releasing(n, 0) else Releasing(n, if answer.n < n then answer.n else n)
    case Releasing(n, jobs) => if n > jobs then Releasing(n - 1, jobs) else if n == 0 then Waiting else Spawning(n)
    case Spawning(jobs) => if jobs == 0 then Head else Spawning(jobs - 1)
    case Waiting => if timer then Head else if StopSeen(s) then Exited else Waiting
    case Exited => Exited
  }

  /** The loop takes and returns single slots, counts its jobs before it starts their goroutines. */
  function LoopStep(c: Config, s: State, answer: ClaimAnswer, timer: bool): State {
    var l := s.loop;
    s.(loop := NextLoop(c, s, answer, timer),
       occupied := if SlotFree(c, s) then s.occupied + 1
                   else if l.Releasing? && l.reserved > l.jobs then Pred(s.occupied)
                   else s.occupied,
       counted := if l.Releasing? && l.reserved <= l.jobs then s.counted + l.reserved else s.counted,
       claims := if l.Spawning? && l.jobs > 0 then s.claims + [Starting] else s.claims)
  }

  function NextPhase(s: State, i: nat, started: bool): ClaimPhase
    requires i < |s.claims|
  {
    match s.claims[i]
    case Starting => if started then Queued else Leaving
    case Queued => if s.gate.None? then Inside else Queued
    case Inside => if s.stopped || StopSeen(s) then Refused else Cleared
    case Cleared => Published
    case Refused => Leaving
    case Published => Awaiting
    case Awaiting => if i in s.running then Awaiting else Leaving
    case Leaving => Freed
    case Freed => Gone
    case Gone => Gone
  }

  /** A claim goroutine takes the gate, looks, publishes its execution and lets the gate go; at the end it
      gives its slot back and then leaves the wait group. */
  function ClaimStep(s: State, i: nat, started: bool): State {
    if i >= |s.claims| then s
    else
      var p := s.claims[i];
      s.(claims := s.claims[i := NextPhase(s, i, started)],
         gate := if p.Queued? && s.gate.None? then Some(ByClaim(i))
                 else if p.Refused? || p.Published? then None
                 else s.gate,
         launched := if p.Cleared? then s.launched + {i} else s.launched,
         running := if p.Cleared? then s.running + {i} else s.running,
         occupied := if p.Leaving? then Pred(s.occupied) else s.occupied,
         counted := if p.Freed? then Pred(s.counted) else s.counted)
  }

  /** Once the grace period of its caller is over, a stop that still waits gives up. */
  function NextStop(s: State, k: nat, expired: bool): StopPhase
    requires k < |s.stops|
  {
    match s.stops[k]
    case Called => if s.gate.None? then Holding else Called
    case Holding => Flagged
    case Flagged => Signalled
    case Signalled => Returned
    case Returned => if expired then GaveUp else if s.loop.Exited? && !s.reaping then LoopsDone else Returned
    case LoopsDone => if expired then GaveUp else if s.counted == 0 then Drained else LoopsDone
    case Drained => Drained
    case GaveUp => GaveUp
  }

  function StopStep(s: State, k: nat, expired: bool): State {
    if k >= |s.stops| then s
    else
      var p := s.stops[k];
      s.(stops := s.stops[k := NextStop(s, k, expired)],
         gate := if p.Called? && s.gate.None? then Some(ByStop(k)) else if p.Signalled? then None else s.gate,
         stopped := s.stopped || p.Holding?,
         signalled := s.signalled || p.Flagged?)
  }

  function Apply(c: Config, s: State, m: Move): State {
    match m
    case LoopMove(answer, timer) => LoopStep(c, s, answer, timer)
    case ClaimMove(i, started) => ClaimStep(s, i, started)
    case ExecutionEnds(i) => s.(running := s.running - {i})
    case StopArrives => s.(stops := s.stops + [Called])
    case ReaperMove => s.(reaping := s.reaping && !StopSeen(s))
    case StopMove(k, expired) => StopStep(s, k, expired)
    case ContextEnds => s.(cancelled := true)
  }

  function Exec(c: Config, s: State, moves: seq<Move>): State {
    if moves == [] then s else Apply(c, Exec(c, s, moves[..|moves| - 1]), moves[|moves| - 1])
  }

  /* ----- counting goroutines ----- */

  function Slot(p: ClaimPhase): nat { if p.Freed? || p.Gone? then 0 else 1 }

  function Alive(p: ClaimPhase): nat { if p.Gone? then 0 else 1 }

  function Sum<T>(f: T -> nat, claims: seq<T>): nat {
    if claims == [] then 0 else Sum(f, claims[..|claims| - 1]) + f(claims[|claims| - 1])
  }

  lemma {:induction false} SumPut<T>(f: T -> nat, claims: seq<T>, i: nat, p: T)
    requires i < |claims|
    ensures Sum(f, claims[i := p]) == Sum(f, claims) - f(claims[i]) + f(p)
  {
    var n := |claims| - 1;
    if i < n {
      SumPut(f, claims[..n], i, p);
      assert claims[i := p][..n] == claims[..n][i := p];
    } else {
      assert claims[i := p][..n] == claims[..n];
    }
  }

  lemma {:induction false} SumPush<T>(f: T -> nat, claims: seq<T>, p: T)
    ensures Sum(f, claims + [p]) == Sum(f, claims) + f(p)
  {
    assert (claims + [p])[..|claims|] == claims;
  }

  /** Goroutines that each weigh one are no more than the sum. */
  lemma {:induction false} SumCovers(f: ClaimPhase -> nat, claims: seq<ClaimPhase>, some: set<nat>)
    requires forall i | i in some :: i < |claims| && f(claims[i]) == 1
    ensures |some| <= Sum(f, claims)
  {
    if claims == [] {
      assert some == {};
    } else {
      var n := |claims| - 1;
      SumCovers(f, claims[..n], some - {n});
      assert n !in some ==> some - {n} == some;
    }
  }

  /* ----- what every interleaving keeps ----- */

  /** The slots the loop holds itself, and the jobs it has counted but not handed to a goroutine. */
  function Held(loop: Loop): nat {
    match loop
    case Reserving(n) => n
    case Asking(n) => n
    case Releasing(n, _) => n
    case Spawning(jobs) => jobs
    case _ => 0
  }

  function Promised(loop: Loop): nat { if loop.Spawning? then loop.jobs else 0 }

  predicate Counts(c: Config, s: State) {
    && s.occupied == Held(s.loop) + Sum(Slot, s.claims) <= c.concurrency
    && s.counted == Promised(s.loop) + Sum(Alive, s.claims) && Held(s.loop) <= c.batchSize
  }

  predicate HoldsGate(p: ClaimPhase) { p.Inside? || p.Cleared? || p.Refused? || p.Published? }

  predicate StopHoldsGate(p: StopPhase) { p.Holding? || p.Flagged? || p.Signalled? }

  /** One goroutine at a time holds the gate, and whoever holds it after a look that found no stop has not
      been overtaken by one. */
  predicate Gated(s: State) {
    && (forall i | 0 <= i < |s.claims| :: HoldsGate(s.claims[i]) <==> s.gate == Some(ByClaim(i)))
    && (forall k | 0 <= k < |s.stops| :: StopHoldsGate(s.stops[k]) <==> s.gate == Some(ByStop(k)))
    && (forall i | 0 <= i < |s.claims| :: s.claims[i].Cleared? ==> !s.stopped)
    && (s.gate.Some? ==> if s.gate.value.ByClaim? then s.gate.value.i < |s.claims| else s.gate.value.k < |s.stops|)
  }

  predicate Stopping(s: State) {
    && (forall k | 0 <= k < |s.stops| :: !(s.stops[k].Called? || s.stops[k].Holding?) ==> s.stopped)
    && (forall k | 0 <= k < |s.stops| ::
          !(s.stops[k].Called? || s.stops[k].Holding? || s.stops[k].Flagged?) ==> s.signalled)
    && (forall k | 0 <= k < |s.stops| ::
          s.stops[k].LoopsDone? || s.stops[k].Drained? ==> s.loop.Exited? && !s.reaping)
    && (forall k | 0 <= k < |s.stops| :: s.stops[k].Drained? ==> s.counted == 0)
    && (s.loop.Exited? || !s.reaping ==> StopSeen(s))
  }

  predicate AfterLaunch(p: ClaimPhase) { p.Published? || p.Awaiting? || p.Leaving? || p.Freed? || p.Gone? }

  /** A launched execution belongs to a claim goroutine, which outlives it. */
  predicate Launched(s: State) {
    && s.running <= s.launched
    && (forall i | i in s.launched :: i < |s.claims| && AfterLaunch(s.claims[i]))
    && (forall i | i in s.running :: i < |s.claims| && (s.claims[i].Published? || s.claims[i].Awaiting?))
  }

  predicate Inv(c: Config, s: State) { Counts(c, s) && Gated(s) && Stopping(s) && Launched(s) }

  lemma {:induction false} LoopCounts(c: Config, s: State, answer: ClaimAnswer, timer: bool)
    requires Counts(c, s)
    ensures Counts(c, LoopStep(c, s, answer, timer))
  {
    hide Sum;
    SumPush(Slot, s.claims, Starting);
    SumPush(Alive, s.claims, Starting);
  }

  lemma {:induction false} ClaimCounts(c: Config, s: State, i: nat, started: bool)
    requires Counts(c, s)
    ensures Counts(c, ClaimStep(s, i, started))
  {
    hide Sum;
    if i < |s.claims| {
      SumPut(Slot, s.claims, i, NextPhase(s, i, started));
      SumPut(Alive, s.claims, i, NextPhase(s, i, started));
    }
  }

  lemma {:induction false} CountsKept(c: Config, s: State, m: Move)
    requires Counts(c, s)
    ensures Counts(c, Apply(c, s, m))
  {
    hide Sum, LoopStep, ClaimStep;
    match m
    case LoopMove(answer, timer) => LoopCounts(c, s, answer, timer);
    case ClaimMove(i, started) => ClaimCounts(c, s, i, started);
    case _ =>
  }

  lemma {:induction false} GatedKept(c: Config, s: State, m: Move)
    requires Gated(s)
    ensures Gated(Apply(c, s, m))
  {
  }

  /** Once the jobs are drained nothing is left that could count another one. */
  lemma {:induction false} StoppingKept(c: Config, s: State, m: Move)
    requires Stopping(s)
    ensures Stopping(Apply(c, s, m))
  {
  }

  lemma {:induction false} LaunchedKept(c: Config, s: State, m: Move)
    requires Launched(s)
    ensures Launched(Apply(c, s, m))
  {
  }

  lemma {:induction false} InvForever(c: Config, s: State, moves: seq<Move>)
    requires Inv(c, s)
    ensures Inv(c, Exec(c, s, moves))
  {
    hide Counts, Gated, Stopping, Launched, Apply;
    if moves != [] {
      var m := moves[|moves| - 1];
      var before := Exec(c, s, moves[..|moves| - 1]);
      InvForever(c, s, moves[..|moves| - 1]);
      CountsKept(c, before, m);
      GatedKept(c, before, m);
      StoppingKept(c, before, m);
      LaunchedKept(c, before, m);
    }
  }

  /** The state of a worker that started with this configuration, after any interleaving. */
  function Reach(c: Config, moves: seq<Move>): State { Exec(c, Init(), moves) }

  lemma Reachable(c: Config, moves: seq<Move>)
    ensures Inv(c, Reach(c, moves))
  {
    InvForever(c, Init(), moves);
  }

  /* ----- the results ----- */

  /** In every state the occupied slots are exactly the claims still being processed plus those the loop
      holds itself, never more than the concurrency; at the head and after the exit it holds none, and never
      more than a batch. */
  lemma SlotsConserved(c: Config, moves: seq<Move>)
    ensures var s := Reach(c, moves);
      && s.occupied == Held(s.loop) + Sum(Slot, s.claims) <= c.concurrency
      && (s.loop.Head? || s.loop.Waiting? || s.loop.Exited? ==> s.occupied == Sum(Slot, s.claims))
      && Held(s.loop) <= c.batchSize
  {
    Reachable(c, moves);
  }

  /** The loops of a worker run until a stop was signalled or its context was cancelled. */
  lemma LoopsKeepRunning(c: Config, moves: seq<Move>)
    ensures var s := Reach(c, moves); !StopSeen(s) ==> !s.loop.Exited? && s.reaping
  {
    Reachable(c, moves);
  }

  lemma {:induction false} NoLaunch(c: Config, s: State, m: Move)
    requires Gated(s) && s.stopped
    ensures Apply(c, s, m).launched == s.launched && Apply(c, s, m).stopped
  {
  }

  lemma {:induction false} NoLaunches(c: Config, s: State, moves: seq<Move>)
    requires Inv(c, s) && s.stopped
    ensures Exec(c, s, moves).launched == s.launched && Exec(c, s, moves).stopped
  {
    hide Counts, Gated, Stopping, Launched, Apply;
    if moves != [] {
      NoLaunches(c, s, moves[..|moves| - 1]);
      InvForever(c, s, moves[..|moves| - 1]);
      NoLaunch(c, Exec(c, s, moves[..|moves| - 1]), moves[|moves| - 1]);
    }
  }

  /** Once any stop request has returned, no execution is ever launched again. */
  lemma NoLaunchAfterStop(c: Config, moves: seq<Move>, k: nat, later: seq<Move>)
    requires k < |Reach(c, moves).stops|
    requires var p := Reach(c, moves).stops[k]; p.Returned? || p.LoopsDone? || p.Drained? || p.GaveUp?
    ensures Exec(c, Reach(c, moves), later).launched == Reach(c, moves).launched
  {
    Reachable(c, moves);
    NoLaunches(c, Reach(c, moves), later);
  }

  /** Every execution that still runs is waited for by its claim goroutine, which the wait group counts and
      whose slot is taken. */
  lemma LaunchesCounted(c: Config, moves: seq<Move>)
    ensures var s := Reach(c, moves);
      && (forall i | i in s.running :: i < |s.claims| && (s.claims[i].Published? || s.claims[i].Awaiting?))
      && |s.running| <= s.counted && |s.running| <= s.occupied <= c.concurrency
  {
    var s := Reach(c, moves);
    Reachable(c, moves);
    SumCovers(Slot, s.claims, s.running);
    SumCovers(Alive, s.claims, s.running);
  }

  /** A drained worker has nothing left: no execution, no claim goroutine and no slot, now or later. */
  lemma DrainedForGood(c: Config, moves: seq<Move>, k: nat, later: seq<Move>)
    requires k < |Reach(c, moves).stops| && Reach(c, moves).stops[k].Drained?
    ensures var e := Exec(c, Reach(c, moves), later);
      && e.running == {} && e.occupied == 0 && e.counted == 0 && e.loop.Exited? && !e.reaping
      && e.claims == Reach(c, moves).claims
  {
    var s := Reach(c, moves);
    Reachable(c, moves);
    DrainedStays(c, s, k, later);
    var e := Exec(c, s, later);
    InvForever(c, s, later);
    SumCovers(Alive, e.claims, e.running);
    SlotsLast(e.claims);
  }

  /** A goroutine gives its slot back before the wait group forgets it. */
  lemma {:induction false} SlotsLast(claims: seq<ClaimPhase>)
    ensures Sum(Slot, claims) <= Sum(Alive, claims)
  {
    if claims != [] { SlotsLast(claims[..|claims| - 1]); }
  }

  lemma {:induction false} DrainedStays(c: Config, s: State, k: nat, later: seq<Move>)
    requires Inv(c, s) && k < |s.stops| && s.stops[k].Drained?
    ensures var e := Exec(c, s, later); k < |e.stops| && e.stops[k].Drained? && e.claims == s.claims
  {
    hide Counts, Gated, Stopping, Launched, Apply;
    if later != [] {
      DrainedStays(c, s, k, later[..|later| - 1]);
      InvForever(c, s, later[..|later| - 1]);
      DrainedStep(c, Exec(c, s, later[..|later| - 1]), k, later[|later| - 1]);
    }
  }

  lemma {:induction false} DrainedStep(c: Config, s: State, k: nat, m: Move)
    requires Inv(c, s) && k < |s.stops| && s.stops[k].Drained?
    ensures var e := Apply(c, s, m); k < |e.stops| && e.stops[k].Drained? && e.claims == s.claims
  {
    hide Gated, Launched;
    if m.ClaimMove? && m.i < |s.claims| { AllGone(s.claims, m.i); }
  }

  lemma {:induction false} AllGone(claims: seq<ClaimPhase>, i: nat)
    requires i < |claims| && Sum(Alive, claims) == 0
    ensures claims[i].Gone?
  {
    if i < |claims| - 1 { AllGone(claims[..|claims| - 1], i); }
  }

  /** The move of the goroutine that holds the gate. */
  function HolderMove(o: Owner): Move { if o.ByClaim? then ClaimMove(o.i, true) else StopMove(o.k, false) }

  /** How many moves the holder still needs before it lets go. */
  function Remaining(s: State): nat {
    match s.gate
    case None => 0
    case Some(ByClaim(i)) =>
      if i >= |s.claims| then 0
      else if s.claims[i].Inside? then (if s.stopped || s.signalled || s.cancelled then 2 else 3)
      else if s.claims[i].Cleared? then 2
      else 1
    case Some(ByStop(k)) =>
      if k >= |s.stops| then 0 else if s.stops[k].Holding? then 3 else if s.stops[k].Flagged? then 2 else 1
  }

  lemma {:induction false} HolderAdvances(c: Config, s: State)
    requires Gated(s) && s.gate.Some?
    ensures var e := Apply(c, s, HolderMove(s.gate.value));
      1 <= Remaining(s) <= 3 && Remaining(e) == Remaining(s) - 1 && (e.gate.Some? ==> e.gate == s.gate)
  {
    hide LoopStep;
    if s.gate.value.ByClaim? {
      assert HoldsGate(s.claims[s.gate.value.i]);
    } else {
      assert StopHoldsGate(s.stops[s.gate.value.k]);
    }
  }

  lemma {:induction false} ExecFirst(c: Config, s: State, m: Move, moves: seq<Move>)
    ensures Exec(c, s, [m] + moves) == Exec(c, Apply(c, s, m), moves)
  {
    hide Apply;
    var n := |moves|;
    if n == 0 {
      assert [m] + moves == [m] && Exec(c, s, [m][..0]) == s;
    } else {
      assert ([m] + moves)[..n] == [m] + moves[..n - 1] && ([m] + moves)[n] == moves[n - 1];
      ExecFirst(c, s, m, moves[..n - 1]);
    }
  }

  lemma {:induction false} HolderLetsGo(c: Config, s: State) returns (own: seq<Move>)
    requires Inv(c, s)
    ensures |own| == Remaining(s) <= 3 && Exec(c, s, own).gate.None?
    ensures forall k | 0 <= k < |own| :: s.gate.Some? && own[k] == HolderMove(s.gate.value)
    decreases Remaining(s)
  {
    hide Counts, Stopping, Launched, Gated, Apply;
    own := [];
    if s.gate.Some? {
      var m := HolderMove(s.gate.value);
      HolderAdvances(c, s);
      InvForever(c, s, [m]);
      ExecFirst(c, s, m, []);
      var rest := HolderLetsGo(c, Apply(c, s, m));
      ExecFirst(c, s, m, rest);
      own := [m] + rest;
    }
  }

  /** The gate is never held across a wait: at most three moves of the holder alone free it. */
  lemma GateComesFree(c: Config, moves: seq<Move>) returns (own: seq<Move>)
    ensures |own| <= 3 && Exec(c, Reach(c, moves), own).gate.None?
    ensures forall k | 0 <= k < |own| ::
      Reach(c, moves).gate.Some? && own[k] == HolderMove(Reach(c, moves).gate.value)
  {
    hide Inv, Apply;
    Reachable(c, moves);
    own := HolderLetsGo(c, Reach(c, moves));
  }
}
