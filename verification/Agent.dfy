/** The bounded tool loop of the agent: its budgets, its conversation and its trace. */
module Agent {
  import opened Rows

  /** A tool call as the model asked for it. Calls are compared by name and arguments. */
  datatype ToolCall = ToolCall(id: nat, name: string, args: string)

  datatype Key = Key(name: string, args: string)

  function KeyOf(c: ToolCall): Key { Key(c.name, c.args) }

  function Keys(calls: seq<ToolCall>): (ks: seq<Key>)
    ensures |ks| == |calls| && forall i | 0 <= i < |calls| :: ks[i] == KeyOf(calls[i])
  {
    seq(|calls|, i requires 0 <= i < |calls| => KeyOf(calls[i]))
  }

  const SEARCH_CODE := "search_code"

  /** How many of the calls are to a tool with one of these names. */
  function Named(s: seq<Key>, names: set<string>): (n: nat)
    ensures n <= |s|
  {
    if s == [] then 0 else Named(s[..|s| - 1], names) + if s[|s| - 1].name in names then 1 else 0
  }

  function Searched(s: seq<Key>): nat { Named(s, {SEARCH_CODE}) }

  lemma NamedNext(s: seq<Key>, k: Key, names: set<string>)
    ensures Named(s + [k], names) == Named(s, names) + if k.name in names then 1 else 0
  {
    assert (s + [k])[..|s|] == s;
  }

  datatype Limits = Limits(maxSteps: int, maxToolCalls: int, maxSearchCalls: int, maxRepeatCalls: int,
                           maxOutputTokens: int)

  function Times(s: seq<Key>, k: Key): nat {
    if s == [] then 0 else Times(s[..|s| - 1], k) + if s[|s| - 1] == k then 1 else 0
  }

  /** How often the last key is repeated at the end. */
  function Tail(s: seq<Key>): (n: nat)
    ensures n <= |s| && (s != [] ==> 1 <= n)
    ensures forall i | |s| - n <= i < |s| :: s[i] == s[|s| - 1]
  {
    if s == [] then 0
    else if |s| >= 2 && s[|s| - 2] == s[|s| - 1] then 1 + Tail(s[..|s| - 1]) else 1
  }

  function Max(a: int, b: int): int { if a < b then b else a }

  /** No key is accepted more than n times in a row. */
  predicate RunsAtMost(s: seq<Key>, n: int) {
    s == [] || (Tail(s) <= n && RunsAtMost(s[..|s| - 1], n))
  }

  /** What the bound on runs means: among any n + 1 neighbours two differ. */
  lemma {:induction false} RunsMeaning(s: seq<Key>, n: nat, i: nat)
    requires RunsAtMost(s, n) && i + n < |s|
    ensures exists j :: i <= j < i + n && s[j] != s[i + n]
    decreases |s|
  {
    var l := |s| - 1;
    if i + n < l {
      RunsMeaning(s[..l], n, i);
      var j :| i <= j < i + n && s[..l][j] != s[..l][i + n];
      assert s[j] != s[i + n];
    } else {
      TailStops(s, n, i);
    }
  }

  lemma {:induction false} TailStops(s: seq<Key>, n: nat, i: nat)
    requires s != [] && Tail(s) <= n && i + n + 1 == |s|
    ensures exists j :: i <= j < i + n && s[j] != s[i + n]
  {
    var t := Tail(s);
    TailMaximal(s);
    assert s[|s| - 1 - t] != s[|s| - 1];
  }

  lemma {:induction false} TailMaximal(s: seq<Key>)
    requires s != [] && Tail(s) < |s|
    ensures s[|s| - 1 - Tail(s)] != s[|s| - 1]
  {
    if s[|s| - 2] == s[|s| - 1] {
      TailMaximal(s[..|s| - 1]);
    }
  }

  /** The budgets hold for everything accepted so far. */
  ghost predicate WithinBudget(lim: Limits, accepted: seq<Key>, searches: nat) {
    && |accepted| <= Max(lim.maxToolCalls, 0)
    && (lim.maxSearchCalls > 0 ==> searches <= lim.maxSearchCalls)
    && (forall k :: Times(accepted, k) <= 3)
    && RunsAtMost(accepted, Max(1, lim.maxRepeatCalls))
  }

  function Count(history: map<Key, nat>, k: Key): nat { if k in history then history[k] else 0 }

  /** The history counts how often each key was accepted. */
  ghost predicate Counted(accepted: seq<Key>, history: map<Key, nat>) {
    forall k :: Times(accepted, k) == Count(history, k)
  }

  /** The counters of a guard that has refused nothing describe what it accepted. */
  ghost predicate Tracks(accepted: seq<Key>, tools: nat, history: map<Key, nat>, last: Option<Key>, same: nat) {
    && tools == |accepted| && Counted(accepted, history)
    && last == (if accepted == [] then None else Some(accepted[|accepted| - 1]))
    && (accepted != [] ==> same + 1 == Tail(accepted))
  }

  /** A call may run: the total and its own count are not used up, and it would not be repeated too often. */
  predicate Allowed(lim: Limits, accepted: seq<Key>, k: Key) {
    && |accepted| < lim.maxToolCalls && Times(accepted, k) < 3
    && (accepted != [] && accepted[|accepted| - 1] == k ==> Tail(accepted) < lim.maxRepeatCalls)
  }

  lemma AllowedByCounters(lim: Limits, accepted: seq<Key>, k: Key, tools: nat, history: map<Key, nat>,
                          last: Option<Key>, same: nat)
    requires Tracks(accepted, tools, history, last, same)
    ensures Allowed(lim, accepted, k) <==>
      tools < lim.maxToolCalls && Count(history, k) < 3 && (last == Some(k) ==> same + 1 < lim.maxRepeatCalls)
  {
    hide Times, Tail;
  }

  /** The guard is as permissive as its budgets: a call may run exactly if they still hold with it. */
  lemma AllowedExactly(lim: Limits, accepted: seq<Key>, searches: nat, k: Key)
    requires WithinBudget(lim, accepted, searches)
    ensures Allowed(lim, accepted, k) <==> WithinBudget(lim, accepted + [k], searches)
  {
    hide Times, Tail;
    AcceptTail(accepted, k);
    AcceptTimes(accepted, k, k);
    assert (accepted + [k])[..|accepted|] == accepted;
    if Allowed(lim, accepted, k) { AcceptBudget(lim, accepted, searches, k, Times(accepted, k) + 1); }
  }

  class AgentGuard {
    const lim: Limits
    var stepCount: nat
    var toolCallCount: nat
    var searchCallCount: nat
    var history: map<Key, nat>
    var last: Option<Key>
    var consecutiveSame: nat
    /** The calls accepted so far; open says that none was refused yet. */
    ghost var accepted: seq<Key>
    ghost var searches: nat
    ghost var open: bool

    ghost predicate Valid()
      reads this
      ensures Valid() ==> WithinBudget(lim, accepted, searches)
    {
      && WithinBudget(lim, accepted, searches)
      && (open ==> searchCallCount == searches && Tracks(accepted, toolCallCount, history, last, consecutiveSame))
    }

    constructor (lim: Limits)
      ensures Valid() && this.lim == lim && stepCount == 0 && accepted == [] && searches == 0 && open
    {
      this.lim := lim;
      stepCount, toolCallCount, searchCallCount, consecutiveSame := 0, 0, 0, 0;
      history, last := map[], None;
      accepted, searches, open := [], 0, true;
    }

    method RecordStep() returns (ok: bool)
      requires Valid()
      modifies this
      ensures Valid() && open == old(open) && accepted == old(accepted) && searches == old(searches)
      ensures stepCount == old(stepCount) + 1 && ok == (stepCount <= lim.maxSteps)
    {
      stepCount := stepCount + 1;
      ok := stepCount <= lim.maxSteps;
    }

    method RecordSearchCall() returns (ok: bool)
      requires Valid() && open
      modifies this
      ensures Valid() && accepted == old(accepted) && stepCount == old(stepCount) && open == ok
      ensures searches == old(searches) + (if ok then 1 else 0)
      ensures ok <==> lim.maxSearchCalls <= 0 || old(searches) < lim.maxSearchCalls
    {
      searchCallCount := searchCallCount + 1;
      ok := !(lim.maxSearchCalls > 0 && searchCallCount > lim.maxSearchCalls);
      if ok { searches := searches + 1; } else { open := false; }
    }

    method RecordToolCall(k: Key) returns (ok: bool)
      requires Valid() && open
      modifies this
      ensures Valid() && searches == old(searches) && stepCount == old(stepCount) && open == ok
      ensures accepted == if ok then old(accepted) + [k] else old(accepted)
      ensures ok <==> Allowed(lim, old(accepted), k)
    {
      hide WithinBudget, Tracks, Allowed;
      AllowedByCounters(lim, accepted, k, toolCallCount, history, last, consecutiveSame);
      open := false;
      toolCallCount := toolCallCount + 1;
      if toolCallCount > lim.maxToolCalls { return false; }
      if last == Some(k) {
        consecutiveSame := consecutiveSame + 1;
        if consecutiveSame >= lim.maxRepeatCalls { return false; }
      } else {
        consecutiveSame := 0;
        last := Some(k);
      }
      history := history[k := Count(history, k) + 1];
      if history[k] > 3 { return false; }
      Accepts(lim, accepted, searches, k, old(toolCallCount), old(history), old(last), old(consecutiveSame));
      accepted, open := accepted + [k], true;
      ok := true;
    }
  }

  /** A call that passes every check keeps the budgets and the counters. */
  lemma Accepts(lim: Limits, s: seq<Key>, searches: nat, k: Key, tools: nat, history: map<Key, nat>, last: Option<Key>,
                same: nat)
    requires WithinBudget(lim, s, searches) && Tracks(s, tools, history, last, same)
    requires tools < lim.maxToolCalls && Count(history, k) < 3 && (last == Some(k) ==> same + 1 < lim.maxRepeatCalls)
    ensures WithinBudget(lim, s + [k], searches)
    ensures Tracks(s + [k], tools + 1, history[k := Count(history, k) + 1], Some(k),
                   if last == Some(k) then same + 1 else 0)
  {
    hide Times, Tail, WithinBudget, Counted;
    AcceptCounted(s, history, k);
    AcceptTail(s, k);
    AcceptBudget(lim, s, searches, k, Count(history, k) + 1);
  }

  lemma AcceptTail(s: seq<Key>, k: Key)
    ensures Tail(s + [k]) == if s != [] && s[|s| - 1] == k then Tail(s) + 1 else 1
  {
    assert (s + [k])[..|s|] == s;
  }

  lemma AcceptTimes(s: seq<Key>, k: Key, q: Key)
    ensures Times(s + [k], q) == Times(s, q) + if q == k then 1 else 0
  {
    assert (s + [k])[..|s|] == s;
  }

  lemma AcceptCounted(s: seq<Key>, history: map<Key, nat>, k: Key)
    requires Counted(s, history)
    ensures Counted(s + [k], history[k := Count(history, k) + 1]) && Times(s + [k], k) == Count(history, k) + 1
  {
    var after := history[k := Count(history, k) + 1];
    forall q ensures Times(s + [k], q) == Count(after, q) {
      AcceptTimes(s, k, q);
      assert Times(s, q) == Count(history, q);
    }
  }

  lemma AcceptBudget(lim: Limits, s: seq<Key>, searches: nat, k: Key, times: nat)
    requires WithinBudget(lim, s, searches) && |s| < lim.maxToolCalls && times == Times(s + [k], k) <= 3
    requires Tail(s + [k]) <= Max(1, lim.maxRepeatCalls)
    ensures WithinBudget(lim, s + [k], searches)
  {
    forall q ensures Times(s + [k], q) <= 3 { AcceptTimes(s, k, q); }
    assert (s + [k])[..|s|] == s;
  }

  /* ----- conversations ----- */

  datatype Message =
    | System
    | User
    | Assistant(calls: seq<ToolCall>)
    | ToolResult(id: nat, ran: Option<Key>)

  /** The tool calls that were let through, in order. */
  function Ran(ms: seq<Message>): seq<Key> {
    if ms == [] then []
    else
      var m := ms[|ms| - 1];
      Ran(ms[..|ms| - 1]) + (if m.ToolResult? && m.ran.Some? then [m.ran.value] else [])
  }

  /** One tool message per call, in order; a call that was let through ran with its own name and arguments. */
  predicate Answers(ms: seq<Message>, calls: seq<ToolCall>) {
    |ms| == |calls| && forall k | 0 <= k < |calls| :: Answer(ms[k], calls[k])
  }

  predicate Answer(m: Message, c: ToolCall) {
    m.ToolResult? && m.id == c.id && (m.ran.Some? ==> m.ran.value == KeyOf(c))
  }

  /** The tool calls the model asked for, answer by answer. */
  function Turns(ms: seq<Message>): seq<seq<ToolCall>> {
    if ms == [] then []
    else Turns(ms[..|ms| - 1]) + (if ms[|ms| - 1].Assistant? then [ms[|ms| - 1].calls] else [])
  }

  lemma {:induction false} TurnsAppend(a: seq<Message>, b: seq<Message>)
    ensures Turns(a + b) == Turns(a) + Turns(b)
    decreases |b|
  {
    if b == [] {
      assert a + b == a;
    } else {
      assert (a + b)[..|a + b| - 1] == a + b[..|b| - 1];
      TurnsAppend(a, b[..|b| - 1]);
    }
  }

  lemma {:induction false} NoTurns(ms: seq<Message>)
    requires forall k | 0 <= k < |ms| :: !ms[k].Assistant?
    ensures Turns(ms) == []
  {
    if ms != [] { NoTurns(ms[..|ms| - 1]); }
  }

  /** The first message together with the answers it needs. */
  function Block(ms: seq<Message>): (n: nat)
    requires ms != []
    ensures 1 <= n
  {
    if ms[0].Assistant? then |ms[0].calls| + 1 else 1
  }

  predicate HeadAnswered(ms: seq<Message>)
    requires ms != []
  {
    Block(ms) <= |ms| && !ms[0].ToolResult? && (ms[0].Assistant? ==> Answers(ms[1..Block(ms)], ms[0].calls))
  }

  /** Each assistant message is followed by one tool message per call, in order, before anything else. */
  predicate WellFormed(ms: seq<Message>) {
    ms == [] || (HeadAnswered(ms) && WellFormed(ms[Block(ms)..]))
  }

  lemma HeadAppend(a: seq<Message>, b: seq<Message>)
    requires a != [] && HeadAnswered(a)
    ensures HeadAnswered(a + b) && Block(a + b) == Block(a) <= |a| && (a + b)[Block(a)..] == a[Block(a)..] + b
  {
    hide Answers;
    assert (a + b)[1..Block(a)] == a[1..Block(a)];
  }

  lemma {:induction false} WellFormedAppend(a: seq<Message>, b: seq<Message>)
    requires WellFormed(a) && WellFormed(b)
    ensures WellFormed(a + b)
    decreases |a|
  {
    hide HeadAnswered, Block;
    if a == [] {
      assert a + b == b;
    } else {
      HeadAppend(a, b);
      WellFormedAppend(a[Block(a)..], b);
    }
  }

  /** An answer with its tool messages extends a well-formed conversation. */
  lemma AnsweredExtends(before: seq<Message>, calls: seq<ToolCall>, results: seq<Message>)
    requires WellFormed(before) && Answers(results, calls)
    ensures WellFormed(before + [Assistant(calls)] + results)
  {
    hide Answer;
    var block := [Assistant(calls)] + results;
    assert block[1..|calls| + 1] == results && block[|calls| + 1..] == [];
    WellFormedAppend(before, block);
    assert before + block == before + [Assistant(calls)] + results;
  }

  /** What well-formedness means position by position. */
  lemma {:induction false} EveryCallAnswered(ms: seq<Message>, i: nat, k: nat)
    requires WellFormed(ms) && i < |ms| && ms[i].Assistant? && k < |ms[i].calls|
    ensures i + 1 + k < |ms| && Answer(ms[i + 1 + k], ms[i].calls[k])
    decreases |ms|
  {
    var n := Block(ms);
    if i == 0 {
      assert ms[1..n][k] == ms[1 + k];
    } else {
      assert forall j | 1 <= j < n :: ms[j] == ms[1..n][j - 1];
      EveryCallAnswered(ms[n..], i - n, k);
    }
  }

  /** It is one more turn, and what it let through ran after everything before it. */
  lemma TurnAdded(before: seq<Message>, calls: seq<ToolCall>, results: seq<Message>)
    requires Answers(results, calls)
    ensures Turns(before + [Assistant(calls)] + results) == Turns(before) + [calls]
    ensures Ran(before + [Assistant(calls)] + results) == Ran(before) + Ran(results)
  {
    TurnsAppend(before, [Assistant(calls)]);
    TurnsAppend(before + [Assistant(calls)], results);
    NoTurns(results);
    assert Turns([Assistant(calls)][..0]) == [] && Ran([Assistant(calls)][..0]) == [];
    RanAppend(before, [Assistant(calls)]);
    RanAppend(before + [Assistant(calls)], results);
  }

  lemma {:induction false} RanAppend(a: seq<Message>, b: seq<Message>)
    ensures Ran(a + b) == Ran(a) + Ran(b)
    decreases |b|
  {
    if b == [] {
      assert a + b == a;
    } else {
      assert (a + b)[..|a + b| - 1] == a + b[..|b| - 1];
      RanAppend(a, b[..|b| - 1]);
    }
  }
}
