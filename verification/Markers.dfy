/** The dispatch marker of one attempt, in every run: a seen success keeps it set until a final
    checkpoint, a handler that asks for a retry has cleared it, and the current attempt of a running
    execution stays where the reaper looks for it while the marker is set. */
module Markers {
  import opened Rows
  import opened Handlers
  import opened Protocol
  import opened Core

  /** A seen success keeps the marker, and a final checkpoint has cleared it. */
  predicate MarkSound(a: Attempt) {
    (a.successSeen ==> a.unresolved) && (a.unresolved ==> !FinalCheckpoint(a))
  }

  predicate Current(d: Diagnosis, a: Attempt) {
    d.job.status.Running? && d.job.started && a.gen == d.job.gen && a.no == d.job.count
  }

  predicate RowMarked(d: Diagnosis, a: Attempt) {
    && MarkSound(a)
    && (a.unresolved && Current(d, a) ==> a.status.AttemptRunning? || a.status.AttemptAbandoned?)
  }

  predicate RowsMarked(d: Diagnosis) {
    forall i :: 0 <= i < |d.attempts| ==> RowMarked(d, d.attempts[i])
  }

  /** What the phase of a handler says about its own row. */
  predicate RowPhase(row: Attempt, p: Phase) {
    match p
    case Loading => row.kind.NoCheckpoint? && !row.unresolved
    case Idle(_) => row.kind.NoCheckpoint?
    case Marked(_) => row.kind.NoCheckpoint? && row.unresolved
    case Authorized(_) => row.kind.NoCheckpoint? && row.unresolved
    case Answered(_, _) => row.kind.NoCheckpoint? && row.unresolved
    case Ended(kind, result) => row.kind.NoCheckpoint? && (kind.ExecValid? || kind.ExecInvalid? ==> result)
    case Judged(kind, unknown, result) =>
      row.kind.NoCheckpoint? && (kind.ExecValid? || kind.ExecInvalid? ==> result)
      && (kind.ExecError? ==> !row.unresolved) && (kind.ExecUnknown? ==> unknown)
    case Saved(kind, _) =>
      && (kind.ExecValid? ==> row.kind.FinalValid? && row.completed)
      && (kind.ExecInvalid? ==> row.kind.FinalInvalid? && row.completed)
      && (!kind.ExecUnknown? ==> !row.unresolved)
    case Succeeding => !row.unresolved && row.kind.FinalValid? && row.completed
    case Invalidating => !row.unresolved && row.kind.FinalInvalid? && row.completed
    case Retrying(_) => !row.unresolved
    case _ => true
  }

  predicate PhaseMarked(s: Sys, t: nat)
    requires t in s.hs && HandlerOk(s, t)
  {
    NeedsAttempt(s.hs[t].phase) ==> RowPhase(s.d.attempts[s.hs[t].at.value], s.hs[t].phase)
  }

  predicate MarkInv(s: Sys)
    requires CoreInv(s)
  {
    RowsMarked(s.d) && forall t :: t in s.hs ==> PhaseMarked(s, t)
  }
}
