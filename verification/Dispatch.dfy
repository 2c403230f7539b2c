/** A provider whose every concrete request passes the durable dispatch guard, wrapped by a small
    explicit retry budget. */
module Dispatch {
  import opened Rows
  import opened Transactions
  import opened Handlers
  import opened Protocol
  import opened Markers

  /** One transaction of the guard: what everybody else has made of the job, the run and the status of this
      attempt by then, and how the store answers. Nobody else touches the marks of the attempt. */
  datatype Access = Access(job: Job, run: Run, status: AttemptStatus, now: nat, reply: Reply)

  /** One pass through the guard: the marker, the authority check, how the request ends, the record of that
      end, and whether the failure is one that the provider declares temporary. */
  datatype Pass = Pass(begin: Access, check: Access, outcome: Outcome, settle: Access, temporary: bool, cancelled: bool)

  datatype Answer = Response | Failure(temporary: bool) | OutcomeUnknown

  /** The row after a pass, the row at the moment the request left the process, and what the caller gets. */
  datatype Passed = Passed(row: Attempt, sent: Option<Attempt>, answer: Answer)

  /** The rows that a transaction sees; other attempts play no part in it. */
  function Around(x: Access, row: Attempt): Diagnosis { Diagnosis(x.job, x.run, [row.(status := x.status)], []) }

  /** The attempt after a transaction, as the store really left it. */
  function After(x: Access, tx: Tx, row: Attempt): Attempt {
    if x.reply.NotExecuted? || |tx.d.attempts| != 1 then row else tx.d.attempts[0]
  }

  /** The store commits this transaction for the attempt and says so. */
  predicate Granted(x: Access, c: Claim, no: nat, row: Attempt) {
    x.reply.Faithful? && LockLiveExecution(Around(x, row), x.now, c, 0, no) == Ok
  }

  /** The end of a request that left the process is recorded before anybody hears of it. */
  function Settle(c: Claim, no: nat, row: Attempt, p: Pass): (r: Passed)
    requires row.unresolved && !FinalCheckpoint(row)
    ensures MarkSound(r.row) && r.sent == Some(row)
    ensures r.answer.Failure? ==> r.answer.temporary == p.temporary
    ensures r.answer.Response? ==> r.row.unresolved && r.row.successSeen
    ensures r.answer.Failure? ==> !r.row.unresolved && !row.successSeen
    ensures r.answer.OutcomeUnknown? ==>
      r.row.unresolved || (p.outcome.CallFailedDefinitely? && p.settle.reply.LostReply? && !row.successSeen)
    ensures row.successSeen ==> r.row.successSeen
  {
    var d := Around(p.settle, row);
    match p.outcome
    case CallSucceeded =>
      var tx := DispatchSucceeded(d, p.settle.now, c, 0, no);
      Passed(After(p.settle, tx, row), Some(row), if Seen(tx, p.settle.reply) == Ok then Response else OutcomeUnknown)
    case CallFailedDefinitely =>
      var tx := DispatchFailedDefinitely(d, p.settle.now, c, 0, no);
      var resolved := Seen(tx, p.settle.reply) == Ok && DispatchResolves(d, p.settle.now, c, 0, no);
      Passed(After(p.settle, tx, row), Some(row), if resolved then Failure(p.temporary) else OutcomeUnknown)
    case CallOutcomeUnknown => Passed(row, Some(row), OutcomeUnknown)
  }

  /** One guarded request. It leaves the process at most once, and only after this very pass committed the
      marker; after a recorded success no later error is reported as safe to retry. */
  function Guarded(c: Claim, no: nat, row: Attempt, p: Pass): (r: Passed)
    requires MarkSound(row) && !FinalCheckpoint(row)
    ensures MarkSound(r.row) && !FinalCheckpoint(r.row)
    ensures r.sent.Some? ==> r.sent.value.unresolved && p.begin.reply.Faithful?
    ensures r.sent.Some? ==> BeginProviderDispatch(Around(p.begin, row), p.begin.now, c, 0, no).err == Ok
    ensures r.answer.Failure? && r.answer.temporary ==> p.temporary
    ensures r.answer.Response? ==> r.sent.Some? && r.row.unresolved && r.row.successSeen
    ensures r.answer.Failure? && r.sent.Some? ==> !r.row.unresolved && !row.successSeen
    ensures r.answer.OutcomeUnknown? ==> r.sent.Some?
    ensures r.answer.OutcomeUnknown? ==>
      r.row.unresolved || (p.outcome.CallFailedDefinitely? && p.settle.reply.LostReply? && !row.successSeen)
    ensures row.successSeen ==> r.row.successSeen
  {
    var begin := BeginProviderDispatch(Around(p.begin, row), p.begin.now, c, 0, no);
    var marked := After(p.begin, begin, row);
    var d := Around(p.check, marked);
    var check := Tx(CheckDispatchAuthority(d, p.check.now, c, 0, no), d);
    var begun, checked := Seen(begin, p.begin.reply), Seen(check, p.check.reply);
    if begun != Ok then Passed(marked, None, Failure(p.temporary && begun.Rejected?))
    else if checked != Ok then Passed(marked, None, Failure(p.temporary && checked.Rejected?))
    else Settle(c, no, marked, p)
  }

  /** What the caller hears of a request is what happened to it, if the store recorded that for the attempt; in
      every other case the outcome is unknown. */
  lemma SettleExact(c: Claim, no: nat, row: Attempt, p: Pass)
    requires row.unresolved && !FinalCheckpoint(row)
    ensures var r := Settle(c, no, row, p);
      if !Granted(p.settle, c, no, row) then r.answer.OutcomeUnknown?
      else
        match p.outcome {
          case CallSucceeded => r.answer.Response? && r.row == row.(status := p.settle.status, successSeen := true)
          case CallFailedDefinitely =>
            if row.successSeen then r.answer.OutcomeUnknown? && r.row == row.(status := p.settle.status)
            else r.answer == Failure(p.temporary) && r.row == row.(status := p.settle.status, unresolved := false)
          case CallOutcomeUnknown => r.answer.OutcomeUnknown? && r.row == row
        }
  {
  }

  /** A request leaves exactly if the store granted the marker and then the authority. A pass that was refused
      is a failure, temporary exactly if the store itself failed before it refused anything. */
  lemma GuardedExact(c: Claim, no: nat, row: Attempt, p: Pass)
    requires MarkSound(row) && !FinalCheckpoint(row)
    ensures var r := Guarded(c, no, row, p);
      var marked := row.(status := p.begin.status, unresolved := true);
      if Granted(p.begin, c, no, row) && Granted(p.check, c, no, marked) then r == Settle(c, no, marked, p)
      else
        && r.sent.None? && r.answer.Failure?
        && (r.answer.temporary <==>
              p.temporary && (!p.begin.reply.Faithful? || (Granted(p.begin, c, no, row) && !p.check.reply.Faithful?)))
  {
    hide Settle, LockExecution;
    Locks(Around(p.begin, row), p.begin.now, c, no);
    Locks(Around(p.check, row.(status := p.begin.status, unresolved := true)), p.check.now, c, no);
  }

  /** A lock is refused for a reason of its own, never as a failure of the store. */
  lemma Locks(d: Diagnosis, now: nat, c: Claim, no: nat)
    ensures !LockLiveExecution(d, now, c, 0, no).Rejected?
  {
  }

  /** A generation: the row after it, the row at each request it sent, what the caller gets and the number of
      passes that were counted. */
  datatype Generated = Generated(row: Attempt, sent: seq<Attempt>, answer: Answer, attempts: nat)

  predicate TriesAgain(maxRetry: nat, attempt: nat, answer: Answer, p: Pass) {
    answer.Failure? && answer.temporary && attempt <= maxRetry && !p.cancelled
  }

  /** The generation from the given pass on. Temporary failures are retried within the budget; once a
      success has been recorded in the attempt, at most one request leaves the process. */
  function Retried(c: Claim, no: nat, maxRetry: nat, row: Attempt, passes: seq<Pass>, attempt: nat): (g: Generated)
    requires 1 <= attempt <= 1 + maxRetry <= |passes| && MarkSound(row) && !FinalCheckpoint(row)
    ensures MarkSound(g.row) && !FinalCheckpoint(g.row) && attempt <= g.attempts <= 1 + maxRetry
    ensures |g.sent| <= if row.successSeen then 1 else 1 + g.attempts - attempt
    ensures forall k | 0 <= k < |g.sent| :: g.sent[k].unresolved
    ensures g.answer.Response? || row.successSeen ==> g.row.successSeen
    ensures g.attempts <= maxRetry && g.answer.Failure? && g.answer.temporary ==> passes[g.attempts - 1].cancelled
    ensures forall k | attempt - 1 <= k < g.attempts - 1 :: passes[k].temporary && !passes[k].cancelled
    decreases 1 + maxRetry - attempt
  {
    var x := Guarded(c, no, row, passes[attempt - 1]);
    var sent := if x.sent.Some? then [x.sent.value] else [];
    if !TriesAgain(maxRetry, attempt, x.answer, passes[attempt - 1]) then Generated(x.row, sent, x.answer, attempt)
    else
      var rest := Retried(c, no, maxRetry, x.row, passes, attempt + 1);
      rest.(sent := sent + rest.sent)
  }

  lemma NextPass(c: Claim, no: nat, maxRetry: nat, row: Attempt, passes: seq<Pass>, attempt: nat)
    requires 1 <= attempt <= 1 + maxRetry <= |passes| && MarkSound(row) && !FinalCheckpoint(row)
    ensures var g := Retried(c, no, maxRetry, row, passes, attempt);
      var x := Guarded(c, no, row, passes[attempt - 1]);
      var sent := if x.sent.Some? then [x.sent.value] else [];
      if TriesAgain(maxRetry, attempt, x.answer, passes[attempt - 1]) then
        var rest := Retried(c, no, maxRetry, x.row, passes, attempt + 1);
        g == Generated(rest.row, sent + rest.sent, rest.answer, rest.attempts)
      else g == Generated(x.row, sent, x.answer, attempt)
  {
    hide Guarded;
  }

  class GuardedProvider {
    const maxRetry: nat
    const claim: Claim
    const no: nat
    /** The durable row of the attempt, and the row as it was each time a request left the process. */
    var row: Attempt
    var sent: seq<Attempt>
    /** Every generation so far, with the passes it made. */
    ghost var log: seq<Generated>

    ghost predicate Valid()
      reads this
    {
      MarkSound(row) && !FinalCheckpoint(row) && forall k | 0 <= k < |sent| :: sent[k].unresolved
    }

    constructor (maxRetry: nat, claim: Claim, row: Attempt)
      requires MarkSound(row) && !FinalCheckpoint(row)
      ensures Valid() && this.maxRetry == maxRetry && this.claim == claim && no == row.no && this.row == row
      ensures sent == [] && log == []
    {
      this.maxRetry, this.claim, no := maxRetry, claim, row.no;
      this.row, sent, log := row, [], [];
    }

    /** One generation, pass by pass. */
    method Generate(passes: seq<Pass>) returns (r: Answer, attempts: nat, ghost requests: seq<Attempt>)
      requires Valid() && |passes| > maxRetry
      modifies this
      ensures Valid() && sent == old(sent) + requests
      ensures Generated(row, requests, r, attempts) == Retried(claim, no, maxRetry, old(row), passes, 1)
      ensures log == old(log) + [Generated(row, requests, r, attempts)]
    {
      hide Guarded, Retried, MarkSound, FinalCheckpoint, BeginProviderDispatch, Around;
      attempts, requests := 1, [];
      while true
        invariant 1 <= attempts <= 1 + maxRetry && Valid() && sent == old(sent) + requests && log == old(log)
        invariant var rest := Retried(claim, no, maxRetry, row, passes, attempts);
          Retried(claim, no, maxRetry, old(row), passes, 1)
          == Generated(rest.row, requests + rest.sent, rest.answer, rest.attempts)
        decreases 1 + maxRetry - attempts
      {
        NextPass(claim, no, maxRetry, row, passes, attempts);
        var x := Guarded(claim, no, row, passes[attempts - 1]);
        row, r := x.row, x.answer;
        if x.sent.Some? { sent, requests := sent + [x.sent.value], requests + [x.sent.value]; }
        if r.Response? || attempts > maxRetry || !(r.Failure? && r.temporary) || passes[attempts - 1].cancelled {
          log := log + [Generated(row, requests, r, attempts)];
          return;
        }
        attempts := attempts + 1;
      }
    }
  }
}
