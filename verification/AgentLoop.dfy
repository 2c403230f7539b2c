/** The loop itself, for every sequence of model answers and every behaviour of the guarded provider. */
module AgentLoop {
  import opened Rows
  import opened Protocol
  import opened Handlers
  import opened Markers
  import opened Dispatch
  import opened Agent

  /** One generation as the environment plays it: the passes through the guard, whether the context was
      cancelled before it, and the model's answer should one arrive. */
  datatype Generation = Generation(cancelled: bool, passes: seq<Pass>, calls: seq<ToolCall>, finishLength: bool,
                                   blank: bool, prompt: nat, completion: nat, parses: bool)

  datatype Request = Request(messages: seq<Message>, tools: bool)

  datatype Status = ContextCancelled | ProviderError | OutputTruncated | InvalidReport | ValidReport

  datatype Reason = NoBudgetHit | RoundBudget | SearchBudget | ToolBudget

  datatype LoopResult = LoopResult(status: Status, reason: Reason, prompt: nat, completion: nat,
                                   toolCalls: nat, searchCalls: nat, providerCalls: nat)

  predicate Truncated(lim: Limits, g: Generation) {
    g.finishLength || (lim.maxOutputTokens > 0 && g.blank && g.calls == [] && g.completion >= lim.maxOutputTokens)
  }

  /** The status that an answer earns which ends the run: cut off exactly if the model stopped for length, or
      spent its whole output budget on an empty answer; otherwise valid exactly if its report parses. */
  predicate Concludes(lim: Limits, g: Generation, s: Status) {
    match s
    case OutputTruncated => g.finishLength || (g.blank && g.calls == [] && g.completion >= lim.maxOutputTokens > 0)
    case ValidReport =>
      g.parses && !g.finishLength && (g.blank && g.calls == [] ==> !(g.completion >= lim.maxOutputTokens > 0))
    case InvalidReport =>
      !g.parses && !g.finishLength && (g.blank && g.calls == [] ==> !(g.completion >= lim.maxOutputTokens > 0))
    case _ => false
  }

  /** How an answered final generation ends. */
  function Judge(lim: Limits, g: Generation): (s: Status)
    ensures Concludes(lim, g, s)
  {
    if Truncated(lim, g) then OutputTruncated else if g.parses then ValidReport else InvalidReport
  }

  function SumPrompt(gs: seq<Generation>): nat {
    if gs == [] then 0 else SumPrompt(gs[..|gs| - 1]) + gs[|gs| - 1].prompt
  }

  function SumCompletion(gs: seq<Generation>): nat {
    if gs == [] then 0 else SumCompletion(gs[..|gs| - 1]) + gs[|gs| - 1].completion
  }

  lemma SumNext(gs: seq<Generation>, n: nat)
    requires n < |gs|
    ensures SumPrompt(gs[..n + 1]) == SumPrompt(gs[..n]) + gs[n].prompt
    ensures SumCompletion(gs[..n + 1]) == SumCompletion(gs[..n]) + gs[n].completion
  {
    assert gs[..n + 1][..n] == gs[..n];
  }

  /** The numbers 1, 2, ..., n, each once and in order. */
  function Numbers(n: nat): (s: seq<nat>)
    ensures |s| == n
  {
    seq(n, i requires 0 <= i < n => i + 1)
  }

  lemma NumbersNext(n: nat)
    ensures Numbers(n) + [n + 1] == Numbers(n + 1)
  {
  }

  /* ----- the provider ----- */

  predicate Playable(lim: Limits, maxRetry: nat, script: seq<Generation>) {
    Max(lim.maxSteps, 0) < |script| && forall i | 0 <= i < |script| :: |script[i].passes| > maxRetry
  }

  function RowAfter(row: Attempt, log: seq<Generated>): Attempt { if log == [] then row else log[|log| - 1].row }

  /** The first n generations of the script, each on the row that the one before it left. */
  function Plays(c: Claim, no: nat, maxRetry: nat, row: Attempt, script: seq<Generation>, n: nat): (log: seq<Generated>)
    requires n <= |script| && forall i | 0 <= i < |script| :: |script[i].passes| > maxRetry
    requires MarkSound(row) && !FinalCheckpoint(row)
    ensures |log| == n && MarkSound(RowAfter(row, log)) && !FinalCheckpoint(RowAfter(row, log))
  {
    if n == 0 then []
    else
      var log := Plays(c, no, maxRetry, row, script, n - 1);
      log + [Retried(c, no, maxRetry, RowAfter(row, log), script[n - 1].passes, 1)]
  }

  function Attempts(log: seq<Generated>): (tries: seq<nat>)
    ensures |tries| == |log| && forall i | 0 <= i < |log| :: tries[i] == log[i].attempts
  {
    seq(|log|, i requires 0 <= i < |log| => log[i].attempts)
  }

  lemma AttemptsNext(log: seq<Generated>, g: Generated)
    ensures Attempts(log + [g]) == Attempts(log) + [g.attempts]
  {
  }

  /** All passes through the provider, generation by generation. */
  function Total(tries: seq<nat>): nat { if tries == [] then 0 else Total(tries[..|tries| - 1]) + tries[|tries| - 1] }

  predicate Once(tries: seq<nat>) { forall i | 0 <= i < |tries| :: tries[i] == 1 }

  predicate Tried(tries: seq<nat>, maxRetry: nat) { forall i | 0 <= i < |tries| :: 1 <= tries[i] <= 1 + maxRetry }

  lemma {:induction false} TotalOnce(tries: seq<nat>, maxRetry: nat)
    requires Tried(tries, maxRetry)
    ensures Total(tries) >= |tries| && (Total(tries) == |tries| <==> Once(tries))
  {
    if tries != [] { TotalOnce(tries[..|tries| - 1], maxRetry); }
  }

  lemma TotalNext(tries: seq<nat>, n: nat)
    ensures Total(tries + [n]) == Total(tries) + n && (tries + [n])[..|tries|] == tries
  {
    assert (tries + [n])[..|tries|] == tries;
  }

  /** The condition under which the reported provider calls are the passes that were made: no budget ran
      out, or no generation before the finalizing one was retried and neither was a truncated final one. */
  predicate CountsExactly(r: LoopResult, tries: seq<nat>) {
    r.reason.NoBudgetHit? || tries == []
    || (Once(tries[..|tries| - 1]) && (r.status.OutputTruncated? ==> tries[|tries| - 1] == 1))
  }

  /** The passes of the answered generations: counted in full, and enough for the requests sent so far. */
  predicate Spent(log: seq<Generated>, calls: nat, sent: nat, seen: bool, maxRetry: nat) {
    && Tried(Attempts(log), maxRetry) && calls == Total(Attempts(log)) && sent <= Total(Attempts(log))
    && (if log == [] then sent == 0 else seen && sent <= |log| + maxRetry)
    && (forall i | 0 <= i < |log| :: log[i].answer.Response?)
  }

  /** What a finished run reports about the provider: all generations but possibly the last were answered,
      requests and passes are bounded, the counter never exceeds the passes, and it equals them exactly
      under the condition above. */
  predicate Accounted(r: LoopResult, log: seq<Generated>, answered: nat, sent: nat, maxRetry: nat) {
    var tries := Attempts(log);
    && Tried(tries, maxRetry) && sent <= Total(tries) && sent <= |tries| + maxRetry && r.providerCalls <= Total(tries)
    && (r.providerCalls == Total(tries) <==> CountsExactly(r, tries))
    && answered <= |log| <= answered + 1 && (forall i | 0 <= i < |log| :: log[i].answer.Response? <==> i < answered)
  }

  /** A generation on a row whose success was or was not seen before. */
  predicate Next(g: Generated, seen: bool, maxRetry: nat) {
    && 1 <= g.attempts <= 1 + maxRetry && |g.sent| <= (if seen then 1 else g.attempts)
    && (g.answer.Response? || seen ==> g.row.successSeen)
  }

  function Received(log: seq<Generated>, g: Generated): nat { if g.answer.Response? then |log| + 1 else |log| }

  lemma SpendNext(log: seq<Generated>, calls: nat, sent: nat, seen: bool, maxRetry: nat, g: Generated)
    requires Spent(log, calls, sent, seen, maxRetry) && Next(g, seen, maxRetry)
    ensures g.answer.Response? ==>
      Spent(log + [g], calls + g.attempts, sent + |g.sent|, g.row.successSeen, maxRetry)
    ensures forall r: LoopResult | r.reason.NoBudgetHit? && r.providerCalls == calls + g.attempts ::
      Accounted(r, log + [g], Received(log, g), sent + |g.sent|, maxRetry)
  {
    hide Total, Attempts;
    AttemptsNext(log, g);
    TotalNext(Attempts(log), g.attempts);
  }

  lemma SpentSoFar(r: LoopResult, log: seq<Generated>, sent: nat, seen: bool, maxRetry: nat)
    requires Spent(log, r.providerCalls, sent, seen, maxRetry) && r.reason.NoBudgetHit?
    ensures Accounted(r, log, |log|, sent, maxRetry)
  {
    hide Total, Attempts;
  }

  /** The finalizing generation reports the rounds before it instead of their passes. */
  lemma SpendLast(r: LoopResult, log: seq<Generated>, calls: nat, sent: nat, seen: bool, maxRetry: nat, g: Generated)
    requires Spent(log, calls, sent, seen, maxRetry) && Next(g, seen, maxRetry)
    requires !r.reason.NoBudgetHit? && r.providerCalls == |log| + if r.status.OutputTruncated? then 1 else g.attempts
    ensures Accounted(r, log + [g], Received(log, g), sent + |g.sent|, maxRetry)
  {
    hide Total, Attempts;
    AttemptsNext(log, g);
    TotalNext(Attempts(log), g.attempts);
    TotalOnce(Attempts(log), maxRetry);
  }

  /** Without retries the report is always exact. */
  lemma ExactWithoutRetry(r: LoopResult, log: seq<Generated>, answered: nat, sent: nat)
    requires Accounted(r, log, answered, sent, 0)
    ensures r.providerCalls == Total(Attempts(log))
  {
    hide Total, Attempts;
    assert Once(Attempts(log));
  }

  /* ----- the conversation ----- */

  function Called(script: seq<Generation>, n: nat): (turns: seq<seq<ToolCall>>)
    requires n <= |script|
    ensures |turns| == n && forall i | 0 <= i < n :: turns[i] == script[i].calls
  {
    seq(n, i requires 0 <= i < n => script[i].calls)
  }

  /** The loop goes on after this answer: it was not cut off and asks for tools. */
  predicate Goes(lim: Limits, g: Generation) { !Truncated(lim, g) && g.calls != [] }

  /** The conversation after the first n answers of the script, all of which asked for tools. */
  predicate Conversation(lim: Limits, script: seq<Generation>, messages: seq<Message>, n: nat) {
    && n <= |script| && WellFormed(messages) && Turns(messages) == Called(script, n)
    && forall i | 0 <= i < n :: Goes(lim, script[i])
  }

  /** What a run has sent and received so far: well-formed requests, all but the last offering tools, and
      totals that are the sums over the answers. */
  predicate Consistent(lim: Limits, script: seq<Generation>, requests: seq<Request>, answered: nat, prompt: nat,
                       completion: nat) {
    && |requests| <= Max(lim.maxSteps, 0) + 1 && (forall i | 0 <= i < |requests| :: WellFormed(requests[i].messages))
    && (forall i | 0 <= i < |requests| - 1 :: requests[i].tools)
    && answered <= |requests| <= answered + 1 && answered <= |script|
    && prompt == SumPrompt(script[..answered]) && completion == SumCompletion(script[..answered])
  }

  /** Request i offers tools and shows the whole conversation after i answers; the finalizing one adds a user
      message to all of it. */
  predicate Shows(script: seq<Generation>, requests: seq<Request>, messages: seq<Message>) {
    forall i | 0 <= i < |requests| :: Shown(script, i, requests[i], messages)
  }

  predicate Shown(script: seq<Generation>, i: nat, q: Request, messages: seq<Message>) {
    if q.tools then q.messages <= messages && i <= |script| && Turns(q.messages) == Called(script, i)
    else q.messages == messages + [User]
  }

  /** Every generation so far was answered and offered tools, and there is room for another. */
  predicate Going(lim: Limits, script: seq<Generation>, requests: seq<Request>, answered: nat, prompt: nat,
                  completion: nat) {
    && Consistent(lim, script, requests, answered, prompt, completion)
    && answered == |requests| <= Max(lim.maxSteps, 0) < |script|
    && (forall i | 0 <= i < |requests| :: requests[i].tools)
  }

  lemma Asked(lim: Limits, script: seq<Generation>, requests: seq<Request>, answered: nat, prompt: nat,
              completion: nat, next: Request)
    requires Going(lim, script, requests, answered, prompt, completion) && WellFormed(next.messages)
    ensures var g := script[answered];
      && Consistent(lim, script, requests + [next], answered, prompt, completion)
      && Consistent(lim, script, requests + [next], answered + 1, prompt + g.prompt, completion + g.completion)
      && (next.tools && answered < Max(lim.maxSteps, 0) ==>
          Going(lim, script, requests + [next], answered + 1, prompt + g.prompt, completion + g.completion))
  {
    hide WellFormed, SumPrompt, SumCompletion;
    SumNext(script, answered);
  }

  /** The loop may go on with this conversation. */
  predicate Talking(lim: Limits, script: seq<Generation>, requests: seq<Request>, messages: seq<Message>,
                    answered: nat, prompt: nat, completion: nat) {
    && Going(lim, script, requests, answered, prompt, completion)
    && Shows(script, requests, messages) && Conversation(lim, script, messages, answered)
  }

  /** What the next request leaves true, answered or not. */
  lemma Talked(lim: Limits, script: seq<Generation>, requests: seq<Request>, messages: seq<Message>,
               answered: nat, prompt: nat, completion: nat, next: Request)
    requires Talking(lim, script, requests, messages, answered, prompt, completion) && WellFormed(next.messages)
    requires next.messages == if next.tools then messages else messages + [User]
    ensures Consistent(lim, script, requests, answered, prompt, completion)
    ensures Consistent(lim, script, requests + [next], answered, prompt, completion)
    ensures answered < |script| && Shows(script, requests, messages) && Shows(script, requests + [next], messages)
    ensures Conversation(lim, script, messages, answered)
    ensures var g := script[answered];
      Consistent(lim, script, requests + [next], answered + 1, prompt + g.prompt, completion + g.completion)
  {
    hide WellFormed, Consistent, Turns, Called;
    Asked(lim, script, requests, answered, prompt, completion, next);
  }

  lemma IsWellFormed(lim: Limits, script: seq<Generation>, requests: seq<Request>, messages: seq<Message>,
                     answered: nat, prompt: nat, completion: nat)
    requires Talking(lim, script, requests, messages, answered, prompt, completion)
    ensures WellFormed(messages)
  {
  }

  /** After an answer that asks for tools, the loop goes on with one more turn. */
  lemma TalkGrows(lim: Limits, script: seq<Generation>, requests: seq<Request>, messages: seq<Message>,
                  answered: nat, prompt: nat, completion: nat, more: seq<Message>)
    requires Talking(lim, script, requests, messages, answered, prompt, completion) && answered < Max(lim.maxSteps, 0)
    requires Goes(lim, script[answered]) && messages <= more && WellFormed(more)
    requires Turns(more) == Turns(messages) + [script[answered].calls]
    ensures var g := script[answered];
      Talking(lim, script, requests + [Request(messages, true)], more, answered + 1, prompt + g.prompt,
              completion + g.completion)
  {
    hide WellFormed, Consistent, Turns, Goes;
    Asked(lim, script, requests, answered, prompt, completion, Request(messages, true));
    assert Called(script, answered + 1) == Called(script, answered) + [script[answered].calls];
  }

  /* ----- tool calls and budgets ----- */

  lemma OneMore(results: seq<Message>, calls: seq<ToolCall>, i: nat, ran: Option<Key>)
    requires i < |calls| && Answers(results, calls[..i]) && (ran.Some? ==> ran.value == KeyOf(calls[i]))
    ensures Answers(results + [ToolResult(calls[i].id, ran)], calls[..i + 1])
    ensures Ran(results + [ToolResult(calls[i].id, ran)]) == Ran(results) + (if ran.Some? then [ran.value] else [])
    ensures Keys(calls[..i + 1]) == Keys(calls[..i]) + [KeyOf(calls[i])]
  {
    assert (results + [ToolResult(calls[i].id, ran)])[..|results|] == results;
  }

  lemma NothingRan(calls: seq<ToolCall>)
    ensures Answers([], calls[..0]) && Ran([]) == [] && Keys(calls[..0]) == [] && calls[..|calls|] == calls
  {
  }

  /** The calls that were not run are answered too. */
  method AppendBudgetResults(results: seq<Message>, calls: seq<ToolCall>, from: nat) returns (out: seq<Message>)
    requires from <= |calls| && Answers(results, calls[..from])
    ensures Answers(out, calls) && Ran(out) == Ran(results)
  {
    out := results;
    for i := from to |calls|
      invariant Answers(out, calls[..i]) && Ran(out) == Ran(results)
    {
      OneMore(out, calls, i, None);
      out := out + [ToolResult(calls[i].id, None)];
    }
  }

  /** The generation that the provider's row and the passes lead to. */
  function Played(provider: GuardedProvider, g: Generation): Generated
    requires provider.Valid() && |g.passes| > provider.maxRetry
    reads provider
  {
    Retried(provider.claim, provider.no, provider.maxRetry, provider.row, g.passes, 1)
  }

  lemma PlayedNext(provider: GuardedProvider, g: Generation)
    requires provider.Valid() && |g.passes| > provider.maxRetry
    ensures Next(Played(provider, g), provider.row.successSeen, provider.maxRetry)
  {
  }

  /** The one generation left when a budget is exhausted. No tool is offered, and the number of its only
      trace step is taken before the request. */
  method FinalizeOnly(lim: Limits, provider: GuardedProvider, g: Generation, messages: seq<Message>, reason: Reason,
                      prompt: nat, completion: nat, toolCalls: nat, searchCalls: nat, rounds: nat, lastStep: nat,
                      steps: seq<nat>)
    returns (r: LoopResult, request: Request, trace: seq<nat>)
    requires provider.Valid() && |g.passes| > provider.maxRetry && WellFormed(messages)
    modifies provider
    ensures provider.Valid() && WellFormed(request.messages) && request == Request(messages + [User], false)
    ensures var played := old(Played(provider, g)); var received := played.answer.Response?;
      && provider.log == old(provider.log) + [played] && provider.row == played.row
      && provider.sent == old(provider.sent) + played.sent
      && (if received then Concludes(lim, g, r.status) else r.status.ProviderError?)
      && r.prompt == prompt + (if received then g.prompt else 0)
      && r.completion == completion + (if received then g.completion else 0)
      && r.providerCalls == rounds + if r.status.OutputTruncated? then 1 else played.attempts
    ensures r.toolCalls == toolCalls && r.searchCalls == searchCalls && r.reason == reason
    ensures trace == steps + [lastStep + 1]
  {
    hide Retried;
    var stepNo := lastStep + 1;
    WellFormedAppend(messages, [User]);
    request := Request(messages + [User], false);
    ghost var requests;
    var answer, attempts;
    answer, attempts, requests := provider.Generate(g.passes);
    trace := steps + [stepNo];
    if !answer.Response? {
      r := LoopResult(ProviderError, reason, prompt, completion, toolCalls, searchCalls, rounds + attempts);
      return;
    }
    var status := Judge(lim, g);
    var calls := if status.OutputTruncated? || attempts <= 1 then rounds + 1 else rounds + attempts;
    r := LoopResult(status, reason, prompt + g.prompt, completion + g.completion, toolCalls, searchCalls, calls);
  }

  /** The reported counts are the calls and searches that ran, plus the one that hit its budget. Only a
      search that the tool budget refused was accepted without being run. */
  predicate Reported(ran: seq<Key>, searches: nat, hit: Reason, toolCalls: nat, searchCalls: nat) {
    && toolCalls == |ran| + (if hit.ToolBudget? then 1 else 0)
    && searchCalls == searches + (if hit.SearchBudget? then 1 else 0)
    && Searched(ran) <= searches <= Searched(ran) + 1 && (!hit.ToolBudget? ==> searches == Searched(ran))
  }

  /** A call was refused by the budget that is named, and not before that budget was used up. */
  predicate Refused(lim: Limits, ran: seq<Key>, searches: nat, hit: Reason, c: ToolCall) {
    && (hit.SearchBudget? ==> c.name == SEARCH_CODE && 0 < lim.maxSearchCalls <= searches)
    && (hit.ToolBudget? ==>
          !Allowed(lim, ran, KeyOf(c)) && searches == Searched(ran) + if c.name == SEARCH_CODE then 1 else 0)
  }

  lemma RanOne(ran: seq<Key>, k: Key, known: set<string>)
    ensures Searched(ran + [k]) == Searched(ran) + if k.name == SEARCH_CODE then 1 else 0
    ensures Named(ran + [k], known) == Named(ran, known) + if k.name in known then 1 else 0
  {
    NamedNext(ran, k, {SEARCH_CODE});
    NamedNext(ran, k, known);
  }

  /** Runs the tool calls of one answer. Exactly a prefix of them is run, all of them unless the next one is
      refused by a budget, and every call gets exactly one tool message. */
  method ExecuteCalls(guard: AgentGuard, calls: seq<ToolCall>, known: set<string>, before: seq<Message>,
                      tools: nat, searched: nat, lastStep: nat, steps: seq<nat>)
    returns (hit: Reason, messages: seq<Message>, toolCalls: nat, searchCalls: nat, stepNo: nat, trace: seq<nat>)
    requires guard.Valid() && guard.open && Reported(guard.accepted, guard.searches, NoBudgetHit, tools, searched)
    requires WellFormed(before) && guard.accepted == Ran(before) && steps == Numbers(lastStep)
    modifies guard
    ensures guard.Valid() && guard.stepCount == old(guard.stepCount) && (hit.NoBudgetHit? ==> guard.open)
    ensures !hit.RoundBudget?
    ensures WellFormed(messages) && before + [Assistant(calls)] <= messages && |messages| == |before| + 1 + |calls|
    ensures Turns(messages) == Turns(before) + [calls]
    ensures guard.accepted == Ran(messages) && Reported(guard.accepted, guard.searches, hit, toolCalls, searchCalls)
    ensures var n := |Ran(messages)| - |Ran(before)|;
      && 0 <= n <= |calls| && Ran(messages) == Ran(before) + Keys(calls[..n])
      && (hit.NoBudgetHit? <==> n == |calls|)
      && (n < |calls| ==> Refused(guard.lim, guard.accepted, guard.searches, hit, calls[n]))
    ensures trace == Numbers(stepNo)
    ensures stepNo - toolCalls - Named(Ran(messages), known) == lastStep - tools - Named(Ran(before), known)
  {
    hide Numbers, AgentGuard.Valid, WellFormed, Ran, Answers, Allowed, WithinBudget, KeyOf, Named, Keys, Turns;
    var results: seq<Message> := [];
    NothingRan(calls);
    toolCalls, searchCalls, stepNo, trace, hit := tools, searched, lastStep, steps, NoBudgetHit;
    var i := 0;
    while i < |calls| && hit.NoBudgetHit?
      invariant i <= |calls| && guard.Valid() && guard.stepCount == old(guard.stepCount)
      invariant (hit.NoBudgetHit? ==> guard.open) && !hit.RoundBudget?
      invariant Ran(results) == Keys(calls[..i]) && guard.accepted == Ran(before) + Ran(results)
      invariant Reported(guard.accepted, guard.searches, hit, toolCalls, searchCalls)
      invariant !hit.NoBudgetHit? ==> i < |calls| && Refused(guard.lim, guard.accepted, guard.searches, hit, calls[i])
      invariant Answers(results, calls[..i]) && trace == Numbers(stepNo)
      invariant stepNo - toolCalls - Named(guard.accepted, known) == lastStep - tools - Named(Ran(before), known)
      decreases |calls| - i, hit.NoBudgetHit?
    {
      if calls[i].name == SEARCH_CODE {
        searchCalls := searchCalls + 1;
        var allowed := guard.RecordSearchCall();
        if !allowed {
          hit := SearchBudget;
          continue;
        }
      }
      toolCalls := toolCalls + 1;
      ghost var ran := guard.accepted;
      var accepted := guard.RecordToolCall(KeyOf(calls[i]));
      trace, stepNo := Record(trace, stepNo);
      if !accepted {
        hit := ToolBudget;
        continue;
      }
      if calls[i].name in known { trace, stepNo := Record(trace, stepNo); }
      NameOfKey(calls[i]);
      RanOne(ran, KeyOf(calls[i]), known);
      OneMore(results, calls, i, Some(KeyOf(calls[i])));
      results := results + [ToolResult(calls[i].id, Some(KeyOf(calls[i])))];
      i := i + 1;
    }
    results := AppendBudgetResults(results, calls, i);
    messages := before + [Assistant(calls)] + results;
    AnsweredExtends(before, calls, results);
    TurnAdded(before, calls, results);
  }

  lemma NameOfKey(c: ToolCall)
    ensures KeyOf(c).name == c.name
  {
  }

  /** The step counter moves on, and the step is recorded under its new value. */
  method Record(steps: seq<nat>, lastStep: nat) returns (trace: seq<nat>, stepNo: nat)
    requires steps == Numbers(lastStep)
    ensures stepNo == lastStep + 1 && trace == Numbers(stepNo)
  {
    stepNo := lastStep + 1;
    NumbersNext(lastStep);
    trace := steps + [stepNo];
  }

  /** The provider played the first n generations of the script. */
  ghost predicate Follows(provider: GuardedProvider, row: Attempt, script: seq<Generation>, n: nat)
    reads provider
  {
    && MarkSound(row) && !FinalCheckpoint(row) && n <= |script|
    && (forall i | 0 <= i < |script| :: |script[i].passes| > provider.maxRetry)
    && provider.log == Plays(provider.claim, provider.no, provider.maxRetry, row, script, n)
    && provider.row == RowAfter(row, provider.log)
  }

  /** The generation that comes next is the next one of the script. */
  lemma PlaysNext(provider: GuardedProvider, row: Attempt, script: seq<Generation>, n: nat)
    requires provider.Valid() && n < |script| && Follows(provider, row, script, n)
    ensures Plays(provider.claim, provider.no, provider.maxRetry, row, script, n + 1)
         == provider.log + [Played(provider, script[n])]
  {
    hide Retried;
  }

  /** The provider played n generations, all answered, and this is the count of its passes. */
  ghost predicate Booked(provider: GuardedProvider, row: Attempt, script: seq<Generation>, n: nat, calls: nat)
    reads provider
  {
    && provider.Valid() && Follows(provider, row, script, n)
    && Spent(provider.log, calls, |provider.sent|, provider.row.successSeen, provider.maxRetry)
  }

  /** One generation of the loop: a call for the round, and one more for every retry. */
  method Ask(provider: GuardedProvider, ghost row: Attempt, script: seq<Generation>, n: nat, counted: nat)
    returns (answer: Answer, providerCalls: nat)
    requires n < |script| && Booked(provider, row, script, n, counted)
    modifies provider
    ensures provider.Valid() && Follows(provider, row, script, n + 1)
    ensures answer.Response? ==> Booked(provider, row, script, n + 1, providerCalls)
    ensures forall r: LoopResult | r.reason.NoBudgetHit? && r.providerCalls == providerCalls ::
      Accounted(r, provider.log, if answer.Response? then n + 1 else n, |provider.sent|, provider.maxRetry)
  {
    hide Spent, Accounted, Next, Retried, MarkSound, Plays;
    ghost var log, sent, seen := provider.log, |provider.sent|, provider.row.successSeen;
    ghost var requests: seq<Attempt>;
    PlayedNext(provider, script[n]);
    PlaysNext(provider, row, script, n);
    providerCalls := counted + 1;
    var attempts;
    answer, attempts, requests := provider.Generate(script[n].passes);
    SpendNext(log, counted, sent, seen, provider.maxRetry, Generated(provider.row, requests, answer, attempts));
    if attempts > 1 { providerCalls := providerCalls + attempts - 1; }
  }

  /** The finalizing generation of a run, in the accounts of the whole run. */
  method Conclude(lim: Limits, provider: GuardedProvider, ghost row: Attempt, script: seq<Generation>, n: nat,
                  messages: seq<Message>, ghost counted: nat, so: LoopResult, lastStep: nat, steps: seq<nat>)
    returns (r: LoopResult, request: Request, trace: seq<nat>, ghost received: bool)
    requires n < |script| && Booked(provider, row, script, n, counted) && WellFormed(messages)
    requires !so.reason.NoBudgetHit? && steps == Numbers(lastStep)
    modifies provider
    ensures provider.Valid() && Follows(provider, row, script, n + 1)
    ensures Accounted(r, provider.log, if received then n + 1 else n, |provider.sent|, provider.maxRetry)
    ensures r.toolCalls == so.toolCalls && r.searchCalls == so.searchCalls && r.reason == so.reason
    ensures if received then Concludes(lim, script[n], r.status) else r.status.ProviderError?
    ensures r.prompt == so.prompt + (if received then script[n].prompt else 0)
    ensures r.completion == so.completion + (if received then script[n].completion else 0)
    ensures WellFormed(request.messages) && request == Request(messages + [User], false)
    ensures trace == Numbers(lastStep + 1)
  {
    hide Spent, Accounted, Next, Retried, MarkSound, Plays, WellFormed, Numbers, Judge;
    ghost var log, sent, seen := provider.log, |provider.sent|, provider.row.successSeen;
    ghost var played := Played(provider, script[n]);
    PlayedNext(provider, script[n]);
    PlaysNext(provider, row, script, n);
    NumbersNext(lastStep);
    r, request, trace := FinalizeOnly(lim, provider, script[n], messages, so.reason, so.prompt, so.completion,
                                      so.toolCalls, so.searchCalls, n, lastStep, steps);
    received := played.answer.Response?;
    SpendLast(r, log, counted, sent, seen, provider.maxRetry, played);
  }

  /* ----- the loop ----- */

  /** A budget was used up: the rounds, or one that refused a call of the last answer. */
  predicate Exhausted(lim: Limits, script: seq<Generation>, hit: Reason, rounds: nat, ran: seq<Key>, searches: nat) {
    match hit
    case NoBudgetHit => true
    case RoundBudget => rounds == Max(lim.maxSteps, 0)
    case _ =>
      0 < rounds <= |script| && exists c | c in script[rounds - 1].calls :: Refused(lim, ran, searches, hit, c)
  }

  /** A run between two rounds. so is its result up to now. Every round recorded its start, every tool call
      itself and every known tool its result. */
  ghost predicate Standing(lim: Limits, script: seq<Generation>, known: set<string>, so: LoopResult,
                           requests: seq<Request>, messages: seq<Message>, stepNo: nat, searches: nat) {
    && Talking(lim, script, requests, messages, |requests|, so.prompt, so.completion)
    && WithinBudget(lim, Ran(messages), searches)
    && Reported(Ran(messages), searches, so.reason, so.toolCalls, so.searchCalls)
    && Exhausted(lim, script, so.reason, |requests|, Ran(messages), searches)
    && stepNo == |requests| + so.toolCalls + Named(Ran(messages), known)
    && (forall i | 0 <= i < |requests| :: !script[i].cancelled)
  }

  /** A finished run. Request i shows the conversation after i answers, all of which asked for tools; what ran
      kept every budget, and a budget is reported only if it was used up; the token totals are the sums over
      the answers; the status is the one that the last answer earns; a cancelled context stops the loop before
      its next request; and steps is the number of its trace steps. */
  ghost predicate Ends(lim: Limits, script: seq<Generation>, known: set<string>, r: LoopResult, requests: seq<Request>,
                       messages: seq<Message>, steps: nat, answered: nat, searches: nat) {
    && Consistent(lim, script, requests, answered, r.prompt, r.completion) && Shows(script, requests, messages)
    && WithinBudget(lim, Ran(messages), searches)
    && Reported(Ran(messages), searches, r.reason, r.toolCalls, r.searchCalls)
    && (lim.maxSearchCalls > 0 ==> Searched(Ran(messages)) <= lim.maxSearchCalls)
    && (r.reason.SearchBudget? ==> Searched(Ran(messages)) == lim.maxSearchCalls > 0)
    && steps == |requests| + r.toolCalls + Named(Ran(messages), known) + (if Ordinary(r) then 1 else 0)
    && (if r.status.ContextCancelled? then
          |requests| < |script| && script[|requests|].cancelled && Conversation(lim, script, messages, |requests|)
          && r.reason.NoBudgetHit? && answered == |requests|
        else
          requests != [] && Conversation(lim, script, messages, |requests| - 1)
          && Exhausted(lim, script, r.reason, |requests| - 1, Ran(messages), searches)
          && (r.status.ProviderError? <==> answered < |requests|)
          && (r.status.ProviderError? || Concludes(lim, script[answered - 1], r.status))
          && (Ordinary(r) && !r.status.ProviderError? ==> !Goes(lim, script[answered - 1])))
    && (r.reason.NoBudgetHit? ==> |requests| <= Max(lim.maxSteps, 0))
    && (forall i | 0 <= i < |requests| && i < |script| && requests[i].tools :: !script[i].cancelled)
  }

  /** The loop itself ended, neither cancelled nor by a budget. */
  predicate Ordinary(r: LoopResult) { r.reason.NoBudgetHit? && !r.status.ContextCancelled? }

  /** The searches that ran are within a positive limit, and have used it up if the search budget was hit. */
  lemma SearchBound(lim: Limits, script: seq<Generation>, ran: seq<Key>, searches: nat, hit: Reason, rounds: nat,
                    toolCalls: nat, searchCalls: nat)
    requires WithinBudget(lim, ran, searches) && Reported(ran, searches, hit, toolCalls, searchCalls)
    requires Exhausted(lim, script, hit, rounds, ran, searches)
    ensures lim.maxSearchCalls > 0 ==> Searched(ran) <= lim.maxSearchCalls
    ensures hit.SearchBudget? ==> Searched(ran) == lim.maxSearchCalls > 0
  {
    hide Searched;
  }

  lemma EndsCancelled(lim: Limits, script: seq<Generation>, known: set<string>, so: LoopResult, requests: seq<Request>,
                      messages: seq<Message>, stepNo: nat, searches: nat)
    requires Standing(lim, script, known, so, requests, messages, stepNo, searches)
    requires |requests| < |script| && script[|requests|].cancelled
    requires so.reason.NoBudgetHit? && so.status.ContextCancelled?
    ensures Ends(lim, script, known, so, requests, messages, stepNo, |requests|, searches)
  {
    hide Consistent, Shows, WithinBudget, Reported, Conversation, Named, Searched, Ran;
    SearchBound(lim, script, Ran(messages), searches, so.reason, |requests|, so.toolCalls, so.searchCalls);
  }

  /** The loop ends with a failed request, or with an answer that does not ask for tools. */
  lemma EndsAsked(lim: Limits, script: seq<Generation>, known: set<string>, so: LoopResult, requests: seq<Request>,
                  messages: seq<Message>, stepNo: nat, searches: nat, r: LoopResult)
    requires Standing(lim, script, known, so, requests, messages, stepNo, searches)
    requires so.reason.NoBudgetHit? && |requests| < Max(lim.maxSteps, 0) && |requests| < |script|
    requires !script[|requests|].cancelled
    requires var g := script[|requests|];
      || r == so.(status := ProviderError, providerCalls := r.providerCalls)
      || (r == so.(status := r.status, prompt := so.prompt + g.prompt, completion := so.completion + g.completion,
                   providerCalls := r.providerCalls) && Concludes(lim, g, r.status) && !Goes(lim, g))
    ensures Ends(lim, script, known, r, requests + [Request(messages, true)], messages, stepNo + 2,
                 if r.status.ProviderError? then |requests| else |requests| + 1, searches)
  {
    hide Consistent, Shows, WithinBudget, Reported, Conversation, Named, Searched, Ran, Goes, WellFormed;
    SearchBound(lim, script, Ran(messages), searches, so.reason, |requests|, so.toolCalls, so.searchCalls);
    IsWellFormed(lim, script, requests, messages, |requests|, so.prompt, so.completion);
    Talked(lim, script, requests, messages, |requests|, so.prompt, so.completion, Request(messages, true));
  }

  lemma EndsConcluded(lim: Limits, script: seq<Generation>, known: set<string>, so: LoopResult, requests: seq<Request>,
                      messages: seq<Message>, stepNo: nat, searches: nat, r: LoopResult, received: bool)
    requires Standing(lim, script, known, so, requests, messages, stepNo, searches)
    requires !so.reason.NoBudgetHit? && |requests| < |script| && WellFormed(messages + [User])
    requires var g := script[|requests|];
      && (if received then Concludes(lim, g, r.status) else r.status.ProviderError?)
      && r == so.(status := r.status, providerCalls := r.providerCalls,
                  prompt := so.prompt + (if received then g.prompt else 0),
                  completion := so.completion + (if received then g.completion else 0))
    ensures Ends(lim, script, known, r, requests + [Request(messages + [User], false)], messages, stepNo + 1,
                 if received then |requests| + 1 else |requests|, searches)
  {
    hide Consistent, Shows, WithinBudget, Reported, Conversation, Named, Searched, Ran, WellFormed;
    SearchBound(lim, script, Ran(messages), searches, so.reason, |requests|, so.toolCalls, so.searchCalls);
    Talked(lim, script, requests, messages, |requests|, so.prompt, so.completion, Request(messages + [User], false));
  }

  lemma StandsUnasked(lim: Limits, script: seq<Generation>, known: set<string>, so: LoopResult, requests: seq<Request>,
                      messages: seq<Message>, stepNo: nat, searches: nat)
    requires Standing(lim, script, known, so, requests, messages, stepNo, searches)
    requires so.reason.NoBudgetHit? && |requests| == Max(lim.maxSteps, 0)
    ensures Standing(lim, script, known, so.(reason := RoundBudget), requests, messages, stepNo, searches)
  {
    hide Talking, WithinBudget, Named, Ran;
  }

  lemma StandsReported(lim: Limits, script: seq<Generation>, known: set<string>, so: LoopResult, requests: seq<Request>,
                       messages: seq<Message>, stepNo: nat, searches: nat)
    requires Standing(lim, script, known, so, requests, messages, stepNo, searches)
    ensures Reported(Ran(messages), searches, so.reason, so.toolCalls, so.searchCalls)
  {
  }

  /** A round whose answer asked for tools. */
  lemma StandsOn(lim: Limits, script: seq<Generation>, known: set<string>, so: LoopResult, requests: seq<Request>,
                 messages: seq<Message>, stepNo: nat, searches: nat, now: LoopResult, more: seq<Message>, laterNo: nat,
                 later: nat, n: nat)
    requires Standing(lim, script, known, so, requests, messages, stepNo, searches)
    requires |requests| < Max(lim.maxSteps, 0) && |requests| < |script| && Goes(lim, script[|requests|])
    requires !script[|requests|].cancelled
    requires WithinBudget(lim, Ran(more), later)
    requires Reported(Ran(more), later, now.reason, now.toolCalls, now.searchCalls)
    requires WellFormed(more) && messages <= more && Turns(more) == Turns(messages) + [script[|requests|].calls]
    requires var calls := script[|requests|].calls;
      && n <= |calls| && !now.reason.RoundBudget? && (now.reason.NoBudgetHit? <==> n == |calls|)
      && (n < |calls| ==> Refused(lim, Ran(more), later, now.reason, calls[n]))
    requires laterNo - now.toolCalls - Named(Ran(more), known)
          == stepNo + 1 - so.toolCalls - Named(Ran(messages), known)
    requires now.prompt == so.prompt + script[|requests|].prompt
    requires now.completion == so.completion + script[|requests|].completion
    ensures Standing(lim, script, known, now, requests + [Request(messages, true)], more, laterNo, later)
  {
    hide Talking, WithinBudget, Named, Ran, Reported, Refused, WellFormed, Turns, Goes;
    TalkGrows(lim, script, requests, messages, |requests|, so.prompt, so.completion, more);
  }

  /** The bounded loop, whatever the model answers and however the provider behaves. The provider plays the
      script from its beginning, the run ends as described above, its step numbers are 1..n, and the
      reported provider calls are the passes exactly under the stated condition. */
  method Run(lim: Limits, provider: GuardedProvider, script: seq<Generation>, known: set<string>)
    returns (r: LoopResult, requests: seq<Request>, messages: seq<Message>, trace: seq<nat>,
             ghost answered: nat, ghost searches: nat)
    requires provider.Valid() && Playable(lim, provider.maxRetry, script)
    requires provider.sent == [] && provider.log == [] && !provider.row.successSeen
    modifies provider
    ensures provider.Valid() && Follows(provider, old(provider.row), script, |requests|)
    ensures Accounted(r, provider.log, answered, |provider.sent|, provider.maxRetry)
    ensures Ends(lim, script, known, r, requests, messages, |trace|, answered, searches) && trace == Numbers(|trace|)
  {
    hide WithinBudget, WellFormed, Numbers, Standing, Ends, AgentGuard.Valid, Ran, Accounted, GuardedProvider.Valid,
      Follows, Booked, Judge, Truncated, Named, Refused, Turns, Reported, Keys;
    var guard := new AgentGuard(lim);
    messages, requests, trace := [System, User], [], [];
    var so := LoopResult(ContextCancelled, NoBudgetHit, 0, 0, 0, 0, 0);
    var rounds: nat, stepNo: nat := 0, 0;
    Start(lim, script, known, so);
    BookedNone(lim, provider, script);
    while so.reason.NoBudgetHit?
      invariant fresh(guard) && guard.Valid() && guard.lim == lim && guard.accepted == Ran(messages)
      invariant so.reason.NoBudgetHit? ==> guard.open && guard.stepCount == rounds
      invariant so.status.ContextCancelled? && |requests| == rounds <= Max(lim.maxSteps, 0) && WellFormed(messages)
      invariant Standing(lim, script, known, so, requests, messages, stepNo, guard.searches) && trace == Numbers(stepNo)
      invariant Booked(provider, old(provider.row), script, rounds, so.providerCalls)
      decreases Max(lim.maxSteps, 0) - |requests|, so.reason.NoBudgetHit?
    {
      var g := script[rounds];
      searches := guard.searches;
      if g.cancelled {
        BookedSoFar(so, provider, old(provider.row), script, rounds);
        EndsCancelled(lim, script, known, so, requests, messages, stepNo, searches);
        return so, requests, messages, trace, rounds, searches;
      }
      var more := guard.RecordStep();
      if !more {
        StandsUnasked(lim, script, known, so, requests, messages, stepNo, searches);
        so := so.(reason := RoundBudget);
        continue;
      }
      ghost var before, beforeNo := messages, stepNo;
      trace, stepNo := Record(trace, stepNo);
      var request := Request(messages, true);
      var answer, providerCalls := Ask(provider, old(provider.row), script, rounds, so.providerCalls);
      rounds := rounds + 1;
      if !answer.Response? {
        trace, stepNo := Record(trace, stepNo);
        r := so.(status := ProviderError, providerCalls := providerCalls);
        EndsAsked(lim, script, known, so, requests, messages, beforeNo, searches, r);
        return r, requests + [request], messages, trace, rounds - 1, searches;
      }
      var now := so.(prompt := so.prompt + g.prompt, completion := so.completion + g.completion,
                     providerCalls := providerCalls);
      if Truncated(lim, g) || g.calls == [] {
        trace, stepNo := Record(trace, stepNo);
        r := now.(status := Judge(lim, g));
        EndsAsked(lim, script, known, so, requests, messages, beforeNo, searches, r);
        return r, requests + [request], messages, trace, rounds, searches;
      }
      StandsReported(lim, script, known, so, requests, messages, beforeNo, searches);
      var hit, toolCalls, searchCalls;
      hit, messages, toolCalls, searchCalls, stepNo, trace :=
        ExecuteCalls(guard, g.calls, known, messages, so.toolCalls, so.searchCalls, stepNo, trace);
      now := now.(reason := hit, toolCalls := toolCalls, searchCalls := searchCalls);
      StandsOn(lim, script, known, so, requests, before, beforeNo, searches, now, messages, stepNo, guard.searches,
               |Ran(messages)| - |Ran(before)|);
      so, requests := now, requests + [request];
    }
    searches := guard.searches;
    ghost var received: bool;
    var request: Request;
    ghost var lastNo := stepNo;
    r, request, trace, received :=
      Conclude(lim, provider, old(provider.row), script, rounds, messages, so.providerCalls, so, stepNo, trace);
    EndsConcluded(lim, script, known, so, requests, messages, lastNo, searches, r, received);
    requests, answered := requests + [request], if received then rounds + 1 else rounds;
  }

  lemma Start(lim: Limits, script: seq<Generation>, known: set<string>, so: LoopResult)
    requires Max(lim.maxSteps, 0) < |script| && so == LoopResult(ContextCancelled, NoBudgetHit, 0, 0, 0, 0, 0)
    ensures WellFormed([System, User]) && Ran([System, User]) == [] && Numbers(0) == []
    ensures Standing(lim, script, known, so, [], [System, User], 0, 0)
  {
    assert [System, User][1..] == [User] && [User][1..] == [];
    assert [System, User][..1] == [System] && [System][..0] == [];
    assert script[..0] == [];
  }

  lemma BookedNone(lim: Limits, provider: GuardedProvider, script: seq<Generation>)
    requires provider.Valid() && Playable(lim, provider.maxRetry, script)
    requires provider.sent == [] && provider.log == [] && !provider.row.successSeen
    ensures Booked(provider, provider.row, script, 0, 0)
  {
  }

  lemma BookedSoFar(r: LoopResult, provider: GuardedProvider, row: Attempt, script: seq<Generation>, n: nat)
    requires Booked(provider, row, script, n, r.providerCalls) && r.reason.NoBudgetHit?
    ensures provider.Valid() && Follows(provider, row, script, n)
    ensures Accounted(r, provider.log, n, |provider.sent|, provider.maxRetry)
  {
    hide Accounted;
    SpentSoFar(r, provider.log, |provider.sent|, provider.row.successSeen, provider.maxRetry);
  }

  /** What the accounts of a run mean for the requests that left the process. */
  lemma RequestBound(lim: Limits, script: seq<Generation>, requests: seq<Request>, answered: nat, r: LoopResult,
                     log: seq<Generated>, sent: nat, maxRetry: nat)
    requires Consistent(lim, script, requests, answered, r.prompt, r.completion) && |log| == |requests|
    requires Accounted(r, log, answered, sent, maxRetry)
    ensures sent <= Max(lim.maxSteps, 0) + 1 + maxRetry
  {
  }

  /* ----- a run that reports too few provider calls ----- */

  /** A generation whose first pass fails temporarily, whose second one succeeds, and whose answer is cut off. */
  function RetriedAnswer(): Generation {
    var job := Job(Running, 1, 1, 3, true, Some(0), Some(0), Some(1), 0, false, None, None, None);
    var access := Access(job, Rows.Run(RunRunning, false, None), AttemptRunning, 0, Faithful);
    Generation(false, [Pass(access, access, CallFailedDefinitely, access, true, false),
                       Pass(access, access, CallSucceeded, access, false, false)], [], true, false, 0, 0, false)
  }

  function NewAttempt(): Attempt { Attempt(1, 1, 0, AttemptRunning, false, false, NoCheckpoint, false, false) }

  lemma RetriedTwice()
    ensures var g := Retried(Claim(0, 0, 1), 1, 1, NewAttempt(), RetriedAnswer().passes, 1);
      g.attempts == 2 && g.answer.Response?
  {
    var c := Claim(0, 0, 1);
    var passes := RetriedAnswer().passes;
    var x := Guarded(c, 1, NewAttempt(), passes[0]);
    assert x.answer == Failure(true) && x.row == NewAttempt();
    NextPass(c, 1, 1, NewAttempt(), passes, 1);
    assert Guarded(c, 1, NewAttempt(), passes[1]).answer.Response?;
    NextPass(c, 1, 1, NewAttempt(), passes, 2);
  }

  /** Two passes are made and fewer are reported: a truncated finalizing answer counts once, retried or not. */
  method Undercounted() returns (r: LoopResult, provider: GuardedProvider)
    ensures r.providerCalls < Total(Attempts(provider.log)) == 2 && r.status.OutputTruncated? && r.reason.RoundBudget?
  {
    hide Retried, Consistent, Reported, WithinBudget, WellFormed, Shows, Ran, Numbers, Conversation, Refused, Named;
    provider := new GuardedProvider(1, Claim(0, 0, 1), NewAttempt());
    var lim := Limits(0, 1, 1, 1, 0);
    var script := [RetriedAnswer()];
    RetriedTwice();
    var requests, messages, trace;
    ghost var answered, searches;
    r, requests, messages, trace, answered, searches := Run(lim, provider, script, {});
    AtMost(lim, script, requests, answered, r);
    assert Attempts(provider.log) == [2];
  }

  lemma AtMost(lim: Limits, script: seq<Generation>, requests: seq<Request>, answered: nat, r: LoopResult)
    requires Consistent(lim, script, requests, answered, r.prompt, r.completion)
    ensures |requests| <= Max(lim.maxSteps, 0) + 1 && answered <= |requests|
  {
  }
}
