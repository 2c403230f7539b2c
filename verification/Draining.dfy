/** A graceful stop that is given enough time drains the worker, whatever the worker was doing when it came. */
module Draining {
  import opened Rows
  import opened Shutdown

  /* ----- how much is left to do ----- */

  function ClaimWork(p: ClaimPhase): nat {
    match p
    case Starting => 10
    case Queued => 9
    case Inside => 8
    case Cleared => 7
    case Refused => 7
    case Published => 5
    case Awaiting => 4
    case Leaving => 3
    case Freed => 2
    case Gone => 0
  }

  function StopWork(p: StopPhase): nat {
    match p
    case Called => 6
    case Holding => 5
    case Flagged => 4
    case Signalled => 3
    case Returned => 2
    case LoopsDone => 1
    case Drained => 0
    case GaveUp => 0
  }

  /** Each slot the loop holds may become a claim goroutine. */
  function LoopWork(c: Config, l: Loop): int {
    match l
    case Reserving(n) => 13 * c.concurrency + 6 - n
    case Asking(n) => 12 * n + 5
    case Releasing(n, _) => 12 * n + 4
    case Spawning(jobs) => 11 * jobs + 3
    case Head => 1
    case Waiting => 1
    case Exited => 0
  }

  function Work(c: Config, s: State): int {
    LoopWork(c, s.loop) + Sum(ClaimWork, s.claims) + Sum(StopWork, s.stops) + |s.running| + if s.reaping then 1 else 0
  }

  lemma WorkIsNat(c: Config, s: State)
    requires Counts(c, s)
    ensures Work(c, s) >= 0
  {
    hide Sum;
  }

  /* ----- the next move ----- */

  /** The first claim goroutine that is not gone. */
  function FirstAlive(claims: seq<ClaimPhase>, i: nat): (k: nat)
    requires i <= |claims| && forall j | 0 <= j < i :: claims[j].Gone?
    ensures k <= |claims| && (k < |claims| ==> !claims[k].Gone?) && forall j | 0 <= j < k :: claims[j].Gone?
    decreases |claims| - i
  {
    if i == |claims| || !claims[i].Gone? then i else FirstAlive(claims, i + 1)
  }

  /** What happens next on the way to the drained stop k: the stop itself, then the two loops, then the claim
      goroutines one after the other; whoever holds the gate first lets it go. */
  function Next(s: State, k: nat): Move
    requires k < |s.stops|
  {
    var i := FirstAlive(s.claims, 0);
    match s.stops[k]
    case Called => if s.gate.None? then StopMove(k, false) else HolderMove(s.gate.value)
    case Returned =>
      if !s.loop.Exited? then LoopMove(ClaimFailed, false)
      else if s.reaping then ReaperMove
      else StopMove(k, false)
    case LoopsDone =>
      if i == |s.claims| then StopMove(k, false)
      else if i in s.running then ExecutionEnds(i)
      else if s.claims[i].Queued? && s.gate.Some? then HolderMove(s.gate.value)
      else ClaimMove(i, true)
    case _ => StopMove(k, false)
  }

  lemma StopHelps(c: Config, s: State, k: nat)
    requires Inv(c, s) && k < |s.stops|
    requires match s.stops[k] {
      case Called => s.gate.None?
      case Returned => s.loop.Exited? && !s.reaping
      case LoopsDone => s.counted == 0
      case Drained => false
      case GaveUp => false
      case _ => true
    }
    ensures var e := Apply(c, s, StopMove(k, false));
      Work(c, e) < Work(c, s) && k < |e.stops| && !e.stops[k].GaveUp?
  {
    hide Sum, Counts, Gated, Stopping, Launched;
    SumPut(StopWork, s.stops, k, NextStop(s, k, false));
  }

  lemma RunningGrows(s: State, i: nat, started: bool)
    ensures var e := ClaimStep(s, i, started);
      && |e.running| <= |s.running| + (if i < |s.claims| && s.claims[i].Cleared? then 1 else 0)
      && e.loop == s.loop && e.reaping == s.reaping && e.stops == s.stops
      && e.claims == if i < |s.claims| then s.claims[i := NextPhase(s, i, started)] else s.claims
  {
    hide NextPhase;
    if i in s.running { assert s.running + {i} == s.running; } else { assert |s.running + {i}| == |s.running| + 1; }
  }

  lemma ClaimHelps(c: Config, s: State, i: nat, started: bool)
    requires i < |s.claims| && !s.claims[i].Gone? && (s.claims[i].Queued? ==> s.gate.None?)
    requires s.claims[i].Awaiting? ==> i !in s.running
    ensures var e := Apply(c, s, ClaimMove(i, started)); Work(c, e) < Work(c, s) && e.stops == s.stops
  {
    hide Sum, ClaimStep, Launched, LoopWork;
    SumPut(ClaimWork, s.claims, i, NextPhase(s, i, started));
    RunningGrows(s, i, started);
  }

  lemma HolderHelps(c: Config, s: State)
    requires Inv(c, s) && s.gate.Some?
    ensures var e := Apply(c, s, HolderMove(s.gate.value));
      && Work(c, e) < Work(c, s) && |e.stops| == |s.stops|
      && forall k | 0 <= k < |s.stops| && s.gate != Some(ByStop(k)) :: e.stops[k] == s.stops[k]
  {
    hide Counts, Stopping, Sum, Work;
    match s.gate.value
    case ByClaim(i) =>
      assert HoldsGate(s.claims[i]);
      ClaimHelps(c, s, i, true);
    case ByStop(k) =>
      assert StopHoldsGate(s.stops[k]);
      StopHelps(c, s, k);
  }

  lemma LoopHelps(c: Config, s: State)
    requires Counts(c, s) && StopSeen(s) && !s.loop.Exited?
    ensures var e := Apply(c, s, LoopMove(ClaimFailed, false)); Work(c, e) < Work(c, s) && e.stops == s.stops
  {
    hide Sum;
    SumPush(ClaimWork, s.claims, Starting);
  }

  lemma ExecutionHelps(c: Config, s: State, i: nat)
    requires i in s.running
    ensures var e := Apply(c, s, ExecutionEnds(i)); Work(c, e) < Work(c, s) && e.stops == s.stops
  {
    hide Sum;
    assert |s.running - {i}| == |s.running| - 1;
  }

  lemma {:induction false} NoneAlive(claims: seq<ClaimPhase>)
    requires forall j | 0 <= j < |claims| :: claims[j].Gone?
    ensures Sum(Alive, claims) == 0
  {
    if claims != [] { NoneAlive(claims[..|claims| - 1]); }
  }

  lemma NextHelps(c: Config, s: State, k: nat)
    requires Inv(c, s) && k < |s.stops| && !s.stops[k].Drained? && !s.stops[k].GaveUp?
    ensures var e := Apply(c, s, Next(s, k));
      Work(c, e) < Work(c, s) && k < |e.stops| && !e.stops[k].GaveUp?
  {
    hide Work, Sum, Apply, Gated;
    var i := FirstAlive(s.claims, 0);
    match s.stops[k]
    case Called =>
      if s.gate.None? { StopHelps(c, s, k); } else { CallerWaits(s, k); HolderHelps(c, s); }
    case Returned =>
      if !s.loop.Exited? {
        LoopHelps(c, s);
      } else if s.reaping {
        ReaperHelps(c, s);
      } else {
        StopHelps(c, s, k);
      }
    case LoopsDone =>
      if i == |s.claims| {
        NoneAlive(s.claims);
        StopHelps(c, s, k);
      } else if i in s.running {
        ExecutionHelps(c, s, i);
      } else if s.claims[i].Queued? && s.gate.Some? {
        CallerWaits(s, k);
        HolderHelps(c, s);
      } else {
        ClaimHelps(c, s, i, true);
      }
    case _ => StopHelps(c, s, k);
  }

  /** A stop that does not hold the gate is not the one that a holder's move changes. */
  lemma CallerWaits(s: State, k: nat)
    requires Gated(s) && k < |s.stops| && !StopHoldsGate(s.stops[k])
    ensures s.gate != Some(ByStop(k))
  {
  }

  lemma ReaperHelps(c: Config, s: State)
    requires StopSeen(s) && s.reaping
    ensures var e := Apply(c, s, ReaperMove); Work(c, e) < Work(c, s) && e.stops == s.stops
  {
    hide Sum;
  }

  lemma {:induction false} Drains(c: Config, s: State, k: nat) returns (rest: seq<Move>)
    requires Inv(c, s) && k < |s.stops| && !s.stops[k].GaveUp?
    ensures var e := Exec(c, s, rest); |rest| <= Work(c, s) && k < |e.stops| && e.stops[k].Drained?
    decreases Work(c, s)
  {
    hide Inv, Apply, Work;
    rest := [];
    WorkLeft(c, s);
    if !s.stops[k].Drained? {
      var m := Next(s, k);
      NextHelps(c, s, k);
      InvForever(c, s, [m]);
      ExecFirst(c, s, m, []);
      WorkLeft(c, Apply(c, s, m));
      var more := Drains(c, Apply(c, s, m), k);
      ExecFirst(c, s, m, more);
      rest := [m] + more;
    }
  }

  lemma WorkLeft(c: Config, s: State)
    requires Inv(c, s)
    ensures Work(c, s) >= 0
  {
    WorkIsNat(c, s);
  }

  /** From every state of every interleaving, a stop request whose caller has not given up can drain the worker
      within a bounded number of moves: no claim, launch or other stop can keep it from ending. */
  lemma GracefulStopDrains(c: Config, moves: seq<Move>, k: nat) returns (rest: seq<Move>)
    requires k < |Reach(c, moves).stops| && !Reach(c, moves).stops[k].GaveUp?
    ensures var s := Reach(c, moves); var e := Exec(c, s, rest);
      && |rest| <= Work(c, s) && k < |e.stops| && e.stops[k].Drained?
      && e.running == {} && e.occupied == 0 && e.loop.Exited? && !e.reaping
  {
    hide Inv, Apply, Work;
    var s := Reach(c, moves);
    Reachable(c, moves);
    rest := Drains(c, s, k);
    InvForever(c, s, rest);
    Emptied(c, Exec(c, s, rest), k);
  }

  lemma Emptied(c: Config, s: State, k: nat)
    requires Inv(c, s) && k < |s.stops| && s.stops[k].Drained?
    ensures s.running == {} && s.occupied == 0 && s.loop.Exited? && !s.reaping
  {
    hide Sum, Gated;
    SumCovers(Alive, s.claims, s.running);
    SlotsLast(s.claims);
  }

  /** Once the grace period is over, a stop that still waits gives up and touches nothing else. */
  lemma GraceOver(c: Config, s: State, k: nat)
    requires k < |s.stops| && (s.stops[k].Returned? || s.stops[k].LoopsDone?)
    ensures Apply(c, s, StopMove(k, true)) == s.(stops := s.stops[k := GaveUp])
  {
  }

  /* ----- every claimed job gets its goroutine ----- */

  function LoopRuns(c: Config, s: State, n: nat): State
    decreases n
  {
    if n == 0 then s else LoopRuns(c, LoopStep(c, s, ClaimFailed, false), n - 1)
  }

  function Beginning(n: nat): seq<ClaimPhase> { seq(n, _ => Starting) }

  lemma {:induction false} Spawns(c: Config, s: State, jobs: nat)
    requires s.loop == Spawning(jobs)
    ensures LoopRuns(c, s, jobs + 1) == s.(loop := Head, claims := s.claims + Beginning(jobs))
    decreases jobs
  {
    if jobs == 0 {
      assert s.claims + Beginning(0) == s.claims && LoopRuns(c, s, 1) == LoopStep(c, s, ClaimFailed, false);
    } else {
      Spawns(c, LoopStep(c, s, ClaimFailed, false), jobs - 1);
      assert s.claims + [Starting] + Beginning(jobs - 1) == s.claims + Beginning(jobs);
    }
  }

  lemma {:induction false} Releases(c: Config, s: State, n: nat, jobs: nat)
    requires s.loop == Releasing(n, jobs) && 0 < jobs <= n <= s.occupied
    ensures LoopRuns(c, s, n - jobs + 1 + jobs + 1)
         == s.(loop := Head, occupied := s.occupied - (n - jobs), counted := s.counted + jobs,
               claims := s.claims + Beginning(jobs))
    decreases n - jobs
  {
    if n == jobs {
      Spawns(c, LoopStep(c, s, ClaimFailed, false), jobs);
    } else {
      Releases(c, LoopStep(c, s, ClaimFailed, false), n - 1, jobs);
    }
  }

  /** The loop keeps exactly one slot for each job that the store gave it, counts them and starts one goroutine
      for each, before it claims again. */
  lemma ClaimedAllDispatched(c: Config, s: State, n: nat, jobs: nat, timer: bool)
    requires s.loop == Asking(n) && 0 < jobs <= n <= s.occupied
    ensures LoopRuns(c, Apply(c, s, LoopMove(Claimed(jobs), timer)), n + 2)
         == s.(loop := Head, occupied := s.occupied - (n - jobs), counted := s.counted + jobs,
               claims := s.claims + Beginning(jobs))
  {
    hide LoopRuns;
    Releases(c, Apply(c, s, LoopMove(Claimed(jobs), timer)), n, jobs);
  }

  /* ----- which claims are launched ----- */

  /** The goroutine of a claim that paid for its attempt and finds the gate free and no stop launches its
      execution in four moves. */
  lemma StartedLaunches(c: Config, s: State, i: nat)
    requires i < |s.claims| && s.claims[i].Starting? && s.gate.None? && !s.stopped && !StopSeen(s)
    ensures var m := ClaimMove(i, true); var e := Apply(c, Apply(c, Apply(c, Apply(c, s, m), m), m), m);
      e == s.(claims := s.claims[i := Published], gate := Some(ByClaim(i)), launched := s.launched + {i},
              running := s.running + {i})
  {
    var m := ClaimMove(i, true);
    var queued := Apply(c, s, m);
    var inside := Apply(c, queued, m);
    var cleared := Apply(c, inside, m);
    assert queued.claims == s.claims[i := Queued] && inside.claims == s.claims[i := Inside];
    assert cleared.claims == s.claims[i := Cleared] && Apply(c, cleared, m).claims == s.claims[i := Published];
  }

  /** A claim goroutine on its way out, without an execution of its own. */
  predicate Unlaunched(s: State, i: nat) {
    i < |s.claims| && (s.claims[i].Leaving? || s.claims[i].Freed? || s.claims[i].Gone?) && i !in s.launched
  }

  lemma UnlaunchedStep(c: Config, s: State, i: nat, m: Move)
    requires Unlaunched(s, i)
    ensures Unlaunched(Apply(c, s, m), i)
  {
  }

  lemma {:induction false} UnlaunchedForever(c: Config, s: State, i: nat, moves: seq<Move>)
    requires Unlaunched(s, i)
    ensures Unlaunched(Exec(c, s, moves), i)
  {
    hide Apply, Unlaunched;
    if moves != [] {
      UnlaunchedForever(c, s, i, moves[..|moves| - 1]);
      UnlaunchedStep(c, Exec(c, s, moves[..|moves| - 1]), i, moves[|moves| - 1]);
    }
  }

  /** A claim whose start was not confirmed never runs. */
  lemma UnstartedNeverLaunches(c: Config, moves: seq<Move>, i: nat, later: seq<Move>)
    requires i < |Reach(c, moves).claims| && Reach(c, moves).claims[i].Starting?
    ensures i !in Exec(c, Apply(c, Reach(c, moves), ClaimMove(i, false)), later).launched
  {
    hide Exec;
    Reachable(c, moves);
    UnlaunchedForever(c, Apply(c, Reach(c, moves), ClaimMove(i, false)), i, later);
  }
}
