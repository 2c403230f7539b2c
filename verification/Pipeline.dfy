/** Preparation of an analysis revision: three stages (snapshot, code index, retrieval index), each with a
    resource row and a job row, driven by claimed jobs, terminal failures and explicit retries. */
module Pipeline {
  import opened Rows

  datatype RevisionStatus = Preparing | Ready | RevisionFailed

  datatype ResourceStatus = Created | Building | Published | ResourceFailed

  /** The part of a stage job that the pipeline decides on. */
  datatype StageJob = StageJob(status: JobStatus, gen: nat, count: nat, started: bool)

  const SNAPSHOT: nat := 0
  const CODE: nat := 1
  const SEARCH: nat := 2
  const STAGES: nat := 3

  /** A resource or job that is None was never created. A linked build id on the revision is a resource
      that is Some. Stage 3 means that the revision is complete. */
  datatype Revision = Revision(status: RevisionStatus, stage: nat, gen: nat, resources: seq<Option<ResourceStatus>>,
                               jobs: seq<Option<StageJob>>)

  predicate Shaped(r: Revision) { |r.resources| == STAGES && |r.jobs| == STAGES && r.stage <= STAGES }

  function FreshJob(gen: nat): Option<StageJob> { Some(StageJob(Pending, gen, 0, false)) }

  /** A new revision has its snapshot row and job; the snapshot is born in its building state. */
  function CreatePreparation(): Revision {
    Revision(Preparing, SNAPSHOT, 1, [Some(Building), None, None], [FreshJob(1), None, None])
  }

  predicate JobIs(r: Revision, i: nat, status: JobStatus)
    requires Shaped(r)
  {
    i < STAGES && r.jobs[i].Some? && r.jobs[i].value.status == status
  }

  function SetJob(r: Revision, i: nat, j: StageJob): Revision
    requires Shaped(r) && i < STAGES
  {
    r.(jobs := r.jobs[i := Some(j)])
  }

  function SetResource(r: Revision, i: nat, s: ResourceStatus): Revision
    requires Shaped(r) && i < STAGES
  {
    r.(resources := r.resources[i := Some(s)])
  }

  datatype Step =
    | ClaimJob(i: nat)
    | Start(i: nat)
    | Return(i: nat)
    | RetryLater(i: nat)
    | MarkBuilding(i: nat)
    | Succeed(i: nat)
    | Fail(i: nat)
    | Retry

  /** A claimed, started job publishes its resource and hands over to the next stage. The resource must be
      building, the revision must be preparing and the stage before it published; otherwise nothing changes. */
  function FinalizeSuccess(r: Revision, i: nat): Revision
    requires Shaped(r)
  {
    if !(JobIs(r, i, Running) && r.jobs[i].value.started) || r.status != Preparing || r.resources[i] != Some(Building)
       || (i == SEARCH && r.resources[CODE] != Some(Published)) then r
    else
      var done := SetResource(SetJob(r, i, r.jobs[i].value.(status := Succeeded)), i, Published);
      if i == SEARCH then done.(status := Ready, stage := STAGES)
      else
        var next := i + 1;
        done.(stage := next,
              resources := if done.resources[next].None? then done.resources[next := Some(Created)] else done.resources,
              jobs := if done.jobs[next].None? then done.jobs[next := FreshJob(r.gen)] else done.jobs)
  }

  /** A terminal failure of a stage job fails its resource and its revision with it, or changes nothing. */
  function FailStage(r: Revision, i: nat): Revision
    requires Shaped(r)
  {
    if !(JobIs(r, i, Running) && r.jobs[i].value.started) then r
    else if r.resources[i].None? || r.resources[i] == Some(Published) then r
    else if r.stage != i || r.status == Ready then r
    else SetResource(SetJob(r, i, r.jobs[i].value.(status := Failed)), i, ResourceFailed).(status := RevisionFailed)
  }

  /** The first stage whose resource is missing or unpublished. */
  function FirstOpen(r: Revision): (i: nat)
    requires Shaped(r)
    ensures i <= STAGES && (i < STAGES ==> r.resources[i] != Some(Published))
    ensures forall k | 0 <= k < i :: r.resources[k] == Some(Published)
  {
    if r.resources[SNAPSHOT] != Some(Published) then SNAPSHOT
    else if r.resources[CODE] != Some(Published) then CODE
    else if r.resources[SEARCH] != Some(Published) then SEARCH
    else STAGES
  }

  /** Restart a failed revision at its first unpublished stage. An unpublished snapshot also resets the
      builds that the revision already links to. */
  function RetryPreparation(r: Revision): Revision
    requires Shaped(r)
  {
    if r.status != RevisionFailed then r
    else
      var i := FirstOpen(r);
      var s := r.(status := Preparing, gen := r.gen + 1, stage := i);
      if i == STAGES then s.(status := Ready)
      else
        var t := SetResource(SetJob(s, i, StageJob(Pending, s.gen, 0, false)), i,
                             if i == SNAPSHOT then Building else Created);
        if i != SNAPSHOT then t
        else t.(resources := [t.resources[0], if t.resources[CODE].Some? then Some(Created) else None,
                              if t.resources[SEARCH].Some? then Some(Created) else None])
  }

  function Apply(r: Revision, step: Step): Revision
    requires Shaped(r)
  {
    match step
    case ClaimJob(i) =>
      if !(JobIs(r, i, Pending) || JobIs(r, i, RetryWait)) then r
      else SetJob(r, i, r.jobs[i].value.(status := Running, started := false))
    case Start(i) =>
      if !JobIs(r, i, Running) || r.jobs[i].value.started then r
      else SetJob(r, i, r.jobs[i].value.(started := true, count := r.jobs[i].value.count + 1))
    case Return(i) =>
      if JobIs(r, i, Running) && !r.jobs[i].value.started then SetJob(r, i, r.jobs[i].value.(status := Pending)) else r
    case RetryLater(i) =>
      if JobIs(r, i, Running) && r.jobs[i].value.started then SetJob(r, i, r.jobs[i].value.(status := RetryWait)) else r
    case MarkBuilding(i) =>
      if (i == CODE || i == SEARCH) && r.resources[i] == Some(Created) then SetResource(r, i, Building) else r
    case Succeed(i) => FinalizeSuccess(r, i)
    case Fail(i) => FailStage(r, i)
    case Retry => RetryPreparation(r)
  }

  /** Job, resource and revision agree on every stage, and the revision is never stranded. */
  predicate StageOk(r: Revision, i: nat)
    requires Shaped(r) && i < STAGES
  {
    if i < r.stage then r.resources[i] == Some(Published) && JobIs(r, i, Succeeded)
    else if i > r.stage then r.resources[i].None? && r.jobs[i].None?
    else
      r.jobs[i].Some? && r.jobs[i].value.gen == r.gen
      && (if r.status == RevisionFailed then JobIs(r, i, Failed) && r.resources[i] == Some(ResourceFailed)
          else (JobIs(r, i, Pending) || JobIs(r, i, Running) || JobIs(r, i, RetryWait))
               && (JobIs(r, i, RetryWait) || Executing(r, i) ==> 1 <= r.jobs[i].value.count)
               && (r.resources[i] == Some(Building) || (i != SNAPSHOT && r.resources[i] == Some(Created))))
  }

  predicate Inv(r: Revision) {
    && Shaped(r) && (r.status == Ready <==> r.stage == STAGES)
    && forall i | 0 <= i < STAGES :: StageOk(r, i)
  }

  lemma SuccessKeepsInv(r: Revision, i: nat)
    requires Inv(r)
    ensures Inv(FinalizeSuccess(r, i))
  {
    assert StageOk(r, 0) && StageOk(r, 1) && StageOk(r, 2);
  }

  lemma FailureKeepsInv(r: Revision, i: nat)
    requires Inv(r)
    ensures Inv(FailStage(r, i))
  {
    assert StageOk(r, 0) && StageOk(r, 1) && StageOk(r, 2);
  }

  lemma RetryKeepsInv(r: Revision)
    requires Inv(r)
    ensures Inv(RetryPreparation(r))
  {
    assert StageOk(r, 0) && StageOk(r, 1) && StageOk(r, 2);
  }

  /** Every step of every worker, handler and user keeps the agreement. */
  lemma StepKeepsInv(r: Revision, step: Step)
    requires Inv(r)
    ensures Inv(Apply(r, step))
  {
    hide FinalizeSuccess, FailStage, RetryPreparation;
    match step
    case Succeed(i) => SuccessKeepsInv(r, i);
    case Fail(i) => FailureKeepsInv(r, i);
    case Retry => RetryKeepsInv(r);
    case _ => assert StageOk(r, 0) && StageOk(r, 1) && StageOk(r, 2);
  }

  function Exec(r: Revision, steps: seq<Step>): (e: Revision)
    requires Inv(r)
    ensures Inv(e)
    decreases |steps|
  {
    if steps == [] then r
    else
      var before := Exec(r, steps[..|steps| - 1]);
      StepKeepsInv(before, steps[|steps| - 1]);
      Apply(before, steps[|steps| - 1])
  }

  function Reach(steps: seq<Step>): (r: Revision)
    ensures Inv(r)
  {
    StartsConsistent();
    Exec(CreatePreparation(), steps)
  }

  lemma StartsConsistent()
    ensures Inv(CreatePreparation())
  {
  }

  predicate Active(r: Revision, i: nat)
    requires Shaped(r)
  {
    JobIs(r, i, Pending) || JobIs(r, i, Running) || JobIs(r, i, RetryWait)
  }

  /** A preparing revision always has exactly one job that can still move it, the job of its stage in its
      generation; a failed or ready revision has none. */
  lemma NeverStranded(steps: seq<Step>, i: nat)
    requires i < STAGES
    ensures var r := Reach(steps);
      && (Active(r, i) <==> r.status == Preparing && r.stage == i)
      && (Active(r, i) ==> r.jobs[i].value.gen == r.gen && r.resources[i] != Some(Published))
  {
    assert StageOk(Reach(steps), i);
  }

  /** A stage job, its resource and the revision fail in the same step, and only together. */
  lemma FailTogether(steps: seq<Step>, i: nat)
    requires i < STAGES
    ensures var r := Reach(steps);
      && (JobIs(r, i, Failed) <==> r.resources[i] == Some(ResourceFailed))
      && (JobIs(r, i, Failed) <==> r.status == RevisionFailed && r.stage == i)
  {
    assert StageOk(Reach(steps), i);
  }

  /** A build linked to the revision implies that everything before it is published. So a retry never finds
      builds to reset behind an unpublished snapshot. */
  lemma LinkedBuildNeedsPublished(steps: seq<Step>)
    ensures var r := Reach(steps);
      && (r.resources[CODE].Some? ==> r.resources[SNAPSHOT] == Some(Published))
      && (r.resources[SEARCH].Some? ==> r.resources[CODE] == Some(Published))
  {
    var r := Reach(steps);
    assert StageOk(r, SNAPSHOT) && StageOk(r, CODE) && StageOk(r, SEARCH);
  }

  /** A retry of a failed revision moves to the next generation, restarts exactly the job of the failed
      stage and leaves every other row alone; it never publishes. Any other revision is left as it is. */
  lemma RetryRestartsOneStage(steps: seq<Step>)
    ensures var r := Reach(steps); var e := RetryPreparation(r);
      && (r.status != RevisionFailed ==> e == r)
      && (r.status == RevisionFailed ==>
            && r.stage < STAGES && e.status == Preparing && e.gen == r.gen + 1 && e.stage == r.stage
            && e.jobs == r.jobs[r.stage := FreshJob(r.gen + 1)]
            && e.resources == r.resources[r.stage := Some(if r.stage == SNAPSHOT then Building else Created)])
  {
    var r := Reach(steps);
    assert StageOk(r, SNAPSHOT) && StageOk(r, CODE) && StageOk(r, SEARCH);
  }

  /** The job of stage i is being executed. */
  predicate Executing(r: Revision, i: nat)
    requires Shaped(r)
  {
    JobIs(r, i, Running) && r.jobs[i].value.started
  }

  /** A terminal failure of an executing stage always takes effect, on the job, its resource and the revision;
      any other failure report changes nothing. */
  lemma FailureTakesEffect(steps: seq<Step>, i: nat)
    ensures var r := Reach(steps); var e := Apply(r, Fail(i));
      if Executing(r, i) then
        && e.status == RevisionFailed && e.stage == r.stage == i && e.gen == r.gen
        && e.jobs == r.jobs[i := Some(r.jobs[i].value.(status := Failed))]
        && e.resources == r.resources[i := Some(ResourceFailed)]
      else e == r
  {
    var r := Reach(steps);
    if i < STAGES { assert StageOk(r, i); }
  }

  /** A success of an executing stage whose resource is being built publishes it and opens the next stage with
      a fresh job of the same generation; after the last stage the revision is ready. Any other success report
      changes nothing. */
  lemma SuccessTakesEffect(steps: seq<Step>, i: nat)
    ensures var r := Reach(steps); var e := Apply(r, Succeed(i));
      if Executing(r, i) && r.resources[i] == Some(Building) then
        && r.stage == i && e.stage == i + 1 && e.gen == r.gen
        && e.status == (if i == SEARCH then Ready else Preparing)
        && e.jobs == (var done := r.jobs[i := Some(r.jobs[i].value.(status := Succeeded))];
                      if i == SEARCH then done else done[i + 1 := FreshJob(r.gen)])
        && e.resources == (var done := r.resources[i := Some(Published)];
                           if i == SEARCH then done else done[i + 1 := Some(Created)])
      else e == r
  {
    var r := Reach(steps);
    assert StageOk(r, SNAPSHOT) && StageOk(r, CODE) && StageOk(r, SEARCH);
  }

  /** One turn of a stage job touches nothing else: a claim does not start it, only a start costs an attempt, and
      handing it back or retrying it later leaves what it cost. */
  lemma JobTurns(steps: seq<Step>, i: nat)
    requires i < STAGES && Reach(steps).jobs[i].Some?
    ensures var r := Reach(steps); var j := r.jobs[i].value;
      && Apply(r, ClaimJob(i)) == SetJob(r, i, if j.status.Pending? || j.status.RetryWait?
                                               then j.(status := Running, started := false) else j)
      && Apply(r, Start(i)) == SetJob(r, i, if j.status.Running? && !j.started
                                            then j.(started := true, count := j.count + 1) else j)
      && Apply(r, Return(i)) == SetJob(r, i, if j.status.Running? && !j.started then j.(status := Pending) else j)
      && Apply(r, RetryLater(i)) == SetJob(r, i, if j.status.Running? && j.started then j.(status := RetryWait) else j)
  {
    var r := Reach(steps);
    assert SetJob(r, i, r.jobs[i].value) == r;
  }

  /* ----- every revision can be finished ----- */

  lemma ExecOne(r: Revision, steps: seq<Step>, x: Step)
    requires Inv(r)
    ensures Exec(r, steps + [x]) == Apply(Exec(r, steps), x)
  {
    hide Apply, Inv;
    assert (steps + [x])[..|steps|] == steps;
  }

  lemma {:induction false} ExecAppend(r: Revision, a: seq<Step>, b: seq<Step>)
    requires Inv(r)
    ensures Exec(r, a + b) == Exec(Exec(r, a), b)
    decreases |b|
  {
    hide Apply, Inv;
    if b == [] {
      assert a + b == a;
    } else {
      var n := |b| - 1;
      assert (a + b)[..|a + b| - 1] == a + b[..n];
      ExecAppend(r, a, b[..n]);
    }
  }

  /** One more step of a revision that is not ready: retry it, or push its stage job forward. */
  function Push(r: Revision): Step
    requires Inv(r) && r.status != Ready
  {
    var i := r.stage;
    assert StageOk(r, i);
    if r.status == RevisionFailed then Retry
    else if JobIs(r, i, Pending) || JobIs(r, i, RetryWait) then ClaimJob(i)
    else if !r.jobs[i].value.started then Start(i)
    else if r.resources[i] == Some(Created) then MarkBuilding(i)
    else Succeed(i)
  }

  /** How far a revision is from being ready: four pushes per stage, and a retry. */
  function Distance(r: Revision): nat
    requires Inv(r)
  {
    if r.status == Ready then 0
    else
      var i := r.stage;
      assert StageOk(r, i);
      6 * (STAGES - i)
      - (if r.status == RevisionFailed then 0
         else if JobIs(r, i, Pending) || JobIs(r, i, RetryWait) then 1
         else if !r.jobs[i].value.started then 2
         else if r.resources[i] == Some(Created) then 3 else 4)
  }

  lemma PushHelps(r: Revision)
    requires Inv(r) && r.status != Ready
    ensures Inv(Apply(r, Push(r))) && Distance(Apply(r, Push(r))) < Distance(r)
  {
    StepKeepsInv(r, Push(r));
    var i := r.stage;
    assert StageOk(r, i);
    var e := Apply(r, Push(r));
    if Push(r).Succeed? {
      assert r.resources[i] == Some(Building) && StageOk(r, CODE);
      assert i < SEARCH ==> StageOk(r, i + 1) && StageOk(e, i + 1);
    } else {
      assert StageOk(e, i);
    }
  }

  /** From every reachable state the revision can still become ready, within six steps per open stage. */
  lemma {:induction false} CanFinish(r: Revision) returns (steps: seq<Step>)
    requires Inv(r)
    ensures Exec(r, steps).status == Ready && |steps| <= Distance(r) <= 6 * STAGES
    decreases Distance(r)
  {
    if r.status == Ready {
      steps := [];
    } else {
      PushHelps(r);
      var rest := CanFinish(Apply(r, Push(r)));
      steps := [Push(r)] + rest;
      ExecOne(r, [], Push(r));
      assert [] + [Push(r)] == [Push(r)];
      ExecAppend(r, [Push(r)], rest);
    }
  }

  /* ----- the stores ----- */

  /** The rows of one revision, updated in place by the three stores. */
  class RevisionRows {
    var status: RevisionStatus
    var stage: nat
    var gen: nat
    var resources: seq<Option<ResourceStatus>>
    var jobs: seq<Option<StageJob>>

    ghost function View(): Revision
      reads this
    {
      Revision(status, stage, gen, resources, jobs)
    }

    constructor ()
      ensures View() == CreatePreparation()
    {
      status, stage, gen := Preparing, SNAPSHOT, 1;
      resources := [Some(Building), None, None];
      jobs := [FreshJob(1), None, None];
    }

    /** Publishes a stage, creates what the next stage needs, and completes the claimed job; a conflict found
        on the way undoes the resource update. */
    method FinalizeStage(i: nat) returns (ok: bool)
      requires Inv(View()) && i < STAGES
      modifies this
      ensures View() == FinalizeSuccess(old(View()), i) && Inv(View()) && (ok <==> View() != old(View()))
    {
      StepKeepsInv(View(), Succeed(i));
      if jobs[i].None? || jobs[i].value.status != Running || !jobs[i].value.started { return false; }
      if resources[i] != Some(Building) { return false; }
      var savedResources := resources;
      resources := resources[i := Some(Published)];
      if status != Preparing || (i == SEARCH && resources[CODE] != Some(Published)) {
        resources := savedResources;
        return false;
      }
      jobs := jobs[i := Some(jobs[i].value.(status := Succeeded))];
      if i == SEARCH {
        status, stage := Ready, STAGES;
      } else {
        if resources[i + 1].None? { resources := resources[i + 1 := Some(Created)]; }
        if jobs[i + 1].None? { jobs := jobs[i + 1 := FreshJob(gen)]; }
        stage := i + 1;
      }
      return true;
    }

    /** Fails the job, then its resource, then the revision; a conflict undoes them all. */
    method FailTerminally(i: nat) returns (ok: bool)
      requires Inv(View()) && i < STAGES
      modifies this
      ensures View() == FailStage(old(View()), i) && Inv(View()) && (ok <==> View() != old(View()))
    {
      StepKeepsInv(View(), Fail(i));
      if jobs[i].None? || jobs[i].value.status != Running || !jobs[i].value.started { return false; }
      var savedJobs, savedResources := jobs, resources;
      jobs := jobs[i := Some(jobs[i].value.(status := Failed))];
      if resources[i] == Some(Created) || resources[i] == Some(Building) {
        resources := resources[i := Some(ResourceFailed)];
      } else if resources[i] != Some(ResourceFailed) {
        assert resources[i].Some? ==> resources[i].value.Published?;
        jobs := savedJobs;
        return false;
      }
      if status == Preparing && stage == i {
        status := RevisionFailed;
      } else if !(status == RevisionFailed && stage == i) {
        jobs, resources := savedJobs, savedResources;
        return false;
      }
      return true;
    }

    /** Restarts a failed revision at its first unpublished stage. */
    method RetryOnce() returns (ok: bool)
      requires Inv(View())
      modifies this
      ensures View() == RetryPreparation(old(View())) && Inv(View()) && (ok <==> old(status) == RevisionFailed)
    {
      StepKeepsInv(View(), Retry);
      if status != RevisionFailed { return false; }
      status, gen, stage := Preparing, gen + 1, SNAPSHOT;
      if resources[SNAPSHOT] != Some(Published) {
        resources := resources[SNAPSHOT := Some(Building)];
        if resources[CODE].Some? { resources := resources[CODE := Some(Created)]; }
        if resources[SEARCH].Some? { resources := resources[SEARCH := Some(Created)]; }
        ResetJob(SNAPSHOT);
        return true;
      }
      if resources[CODE] != Some(Published) {
        resources := resources[CODE := Some(Created)];
        stage := CODE;
        ResetJob(CODE);
        return true;
      }
      if resources[SEARCH] != Some(Published) {
        resources := resources[SEARCH := Some(Created)];
        stage := SEARCH;
        ResetJob(SEARCH);
        return true;
      }
      status, stage := Ready, STAGES;
      return true;
    }

    method ResetJob(i: nat)
      requires i < |jobs|
      modifies this`jobs
      ensures jobs == old(jobs)[i := Some(StageJob(Pending, gen, 0, false))]
    {
      jobs := jobs[i := Some(StageJob(Pending, gen, 0, false))];
    }
  }
}
