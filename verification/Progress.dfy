/** Every open diagnosis can be brought to its end by one more attempt, which asks the provider exactly if no
    final checkpoint of the generation is stored. */
module Progress {
  import opened Rows
  import opened Handlers
  import opened Protocol
  import opened Core
  import opened CoreSteps
  import opened Runs
  import opened Replays
  import opened Outcomes

  /** From an answered request, or from a stored checkpoint, to the verdict. */
  function ReportSteps(t: nat): seq<Step> {
    [InspectStep(t, true), SaveStep(t, Faithful, false), RouteStep(t, Permanent, OtherCode, false),
     FinalizeStep(t, Faithful)]
  }

  lemma ReportWorks(s: Sys, t: nat)
    ensures Exec(s, ReportSteps(t)) == Concluded(s, t)
  {
    hide Exec, Apply;
    FourSteps(s, InspectStep(t, true), SaveStep(t, Faithful, false), RouteStep(t, Permanent, OtherCode, false),
              FinalizeStep(t, Faithful));
  }

  lemma TwoSteps(s: Sys, a: Step, b: Step)
    ensures Exec(s, [a, b]) == Apply(Apply(s, a), b)
  {
    hide Apply;
    ExecOne(s, [], a);
    ExecOne(s, [a], b);
    assert [] + [a] == [a] && [a] + [b] == [a, b];
  }

  /** A handler whose request was answered, on the row it marked. */
  predicate Answering(s: Sys, t: nat) {
    && Writable(s, t) && LiveLease(s.d.job, s.now) && s.hs[t].cause.NoCause?
    && s.hs[t].phase.Answered? && s.hs[t].phase.outcome.CallSucceeded? && s.d.attempts[s.hs[t].at.value].unresolved
  }

  /** The executor parses the answer and returns its report. */
  function Parsed(s: Sys, t: nat, valid: bool): Sys {
    Apply(Apply(s, SettleStep(t, Faithful, false)), EndStep(t, if valid then ExecValid else ExecInvalid, true))
  }

  lemma AnswerParses(s: Sys, t: nat, valid: bool)
    requires CoreInv(s) && Answering(s, t)
    ensures var e := Parsed(s, t, valid);
      && CoreInv(e) && Writable(e, t) && LiveLease(e.d.job, e.now) && e.calls == s.calls
      && e.hs[t] == s.hs[t].(phase := Ended(if valid then ExecValid else ExecInvalid, true))
  {
    hide CoreInv, Apply;
    var b := Apply(s, SettleStep(t, Faithful, false));
    AnswerRecorded(s, t, false);
    StepKeepsCore(s, SettleStep(t, Faithful, false));
    EndGoes(b, t, if valid then ExecValid else ExecInvalid, true);
    StepKeepsCore(b, EndStep(t, if valid then ExecValid else ExecInvalid, true));
  }

  function AnswerSteps(t: nat, valid: bool): seq<Step> {
    [SettleStep(t, Faithful, false), EndStep(t, if valid then ExecValid else ExecInvalid, true)] + ReportSteps(t)
  }

  lemma AnswerDecides(s: Sys, t: nat, valid: bool)
    requires CoreInv(s) && Answering(s, t)
    ensures Reported(Exec(s, AnswerSteps(t, valid)), s.hs[t].at, valid)
    ensures Exec(s, AnswerSteps(t, valid)).calls == s.calls
  {
    hide Exec, CoreInv, Apply, Concluded, Reported;
    var kind := if valid then ExecValid else ExecInvalid;
    AnswerParses(s, t, valid);
    ReportDecides(Parsed(s, t, valid), t);
    TwoSteps(s, SettleStep(t, Faithful, false), EndStep(t, kind, true));
    ReportWorks(Parsed(s, t, valid), t);
    ExecAppend(s, [SettleStep(t, Faithful, false), EndStep(t, kind, true)], ReportSteps(t));
    ConcludedQuiet(Parsed(s, t, valid), t);
  }

  /** Ending an execution sends nothing. */
  lemma ConcludedQuiet(s: Sys, t: nat)
    ensures Concluded(s, t).calls == s.calls
  {
    hide Apply;
    var judged := Apply(s, InspectStep(t, true));
    var saved := Apply(judged, SaveStep(t, Faithful, false));
    OnlyCallsLog(s, InspectStep(t, true));
    OnlyCallsLog(judged, SaveStep(t, Faithful, false));
    OnlyCallsLog(saved, RouteStep(t, Permanent, OtherCode, false));
    OnlyCallsLog(Apply(saved, RouteStep(t, Permanent, OtherCode, false)), FinalizeStep(t, Faithful));
  }

  /** An open diagnosis without a final checkpoint can be ended by one more attempt with exactly one request:
      it succeeds if the answer is a valid report and fails if it is not. */
  lemma AskedOnce(s: Sys, valid: bool)
    requires CoreInv(s) && Open(s)
    requires forall i | 0 <= i < |s.d.attempts| && s.d.attempts[i].gen == s.d.job.gen ::
      !FinalCheckpoint(s.d.attempts[i])
    ensures var e := Exec(s, RequestSteps(s.next, CallSucceeded) + AnswerSteps(s.next, valid));
      && Reported(e, Some(|s.d.attempts|), valid)
      && e.calls == s.calls + [Call(|s.d.attempts|, CallSucceeded)]
  {
    hide Exec, CoreInv, Reported, RequestSteps, AnswerSteps, EnterSteps;
    var asked := Exec(s, RequestSteps(s.next, CallSucceeded));
    RequestGoesOut(s, CallSucceeded);
    CoreForever(s, RequestSteps(s.next, CallSucceeded));
    AnswerDecides(asked, s.next, valid);
    ExecAppend(s, RequestSteps(s.next, CallSucceeded), AnswerSteps(s.next, valid));
  }

  function ReplaySteps(t: nat, sound: bool): seq<Step> {
    EnterSteps(t) + [AttemptStep(t, Faithful), LoadStep(t, true, true, sound)] + ReportSteps(t)
  }

  lemma ReplayingWritable(s: Sys, c: Sys, t: nat, i: nat)
    requires Open(s) && AtDoor(s, c, t) && NewestFinal(s.d.attempts, s.d.job.gen, i)
    ensures var e := Working(c, t, Loading, false);
      && Doorstep(c, t) && Writable(e, t) && LiveLease(e.d.job, e.now) && e.hs[t].at == Some(|s.d.attempts|)
      && e.hs[t].cause.NoCause? && e.hs[t].phase.Loading?
      && NewestFinal(e.d.attempts, e.hs[t].gen, i) && e.d.attempts[i] == s.d.attempts[i] && e.calls == s.calls
  {
  }

  /** An open diagnosis with a final checkpoint can be ended by one more attempt without any request: as the
      stored report says, if it still passes validation. */
  lemma ReplayedOnce(s: Sys, i: nat, sound: bool)
    requires CoreInv(s) && Open(s) && NewestFinal(s.d.attempts, s.d.job.gen, i)
    ensures var e := Exec(s, ReplaySteps(s.next, sound));
      && Reported(e, Some(|s.d.attempts|), s.d.attempts[i].kind.FinalValid? && sound)
      && e.calls == s.calls
  {
    hide Exec, CoreInv, Reported, EnterSteps, Apply, AtDoor, Working, NewestFinal, Concluded, ReportSteps;
    var t := s.next;
    var c := Exec(s, EnterSteps(t));
    EnterWorks(s);
    CoreForever(s, EnterSteps(t));
    ReplayingWritable(s, c, t, i);
    AttemptWorks(c, t);
    var b := Apply(c, AttemptStep(t, Faithful));
    StepKeepsCore(c, AttemptStep(t, Faithful));
    ReplayDecides(b, t, i, sound);
    var a := Apply(b, LoadStep(t, true, true, sound));
    ReplayGoes(b, t, i, sound);
    ReportWorks(a, t);
    ConcludedQuiet(a, t);
    TwoSteps(c, AttemptStep(t, Faithful), LoadStep(t, true, true, sound));
    ExecAppend(s, EnterSteps(t), [AttemptStep(t, Faithful), LoadStep(t, true, true, sound)]);
    ExecAppend(s, EnterSteps(t) + [AttemptStep(t, Faithful), LoadStep(t, true, true, sound)], ReportSteps(t));
  }

  lemma AttemptWorks(c: Sys, t: nat)
    requires Doorstep(c, t)
    ensures Apply(c, AttemptStep(t, Faithful)) == Working(c, t, Loading, false)
  {
    hide DoAttempt, Doorstep, Working;
    InsertWorks(c, t);
  }
}
