# A verified model of RepoLens execution

RepoLens runs repository diagnoses as database-backed jobs: workers claim a job under a lease, charge an
attempt, call an external model provider, checkpoint what came back, and write a verdict. Workers die, lose
their lease, or get an error from a commit that actually happened; a reaper, a sweeper, users and stale
handlers act at the same time. This project models that protocol and the code around it in Dafny and proves
what holds in every interleaving.

Check the whole project with `dafny verify dfyconfig.toml`. Every statement below is a theorem about the model.

## How the model is built

- `Rows`, `Transactions`: the job, run, attempt and report rows of one diagnosis, and one total function per
  store transaction (rolled-back transactions return the rows unchanged with the error the store reports).
  A run has exactly one job, so the rows of one run form one unit of state.
- `Database`: the same transactions in the stores' own form, as methods of a class of tables that lock, check,
  update in place and undo. Every method is proved equal to its transaction function on the rows it touches and
  to leave every other diagnosis alone. The claim and reap batches are loops over the table.
- `Deployment`: any number of diagnoses on those tables, with what the worker processes remember about each.
  Every operation is carried out by the methods of `Database`, and the class keeps for each diagnosis the steps
  of the protocol it has taken, so every result about runs is a result about the tables.
- `Handlers`, `Protocol`: what a handler remembers between two store calls, and 28 kinds of atomic steps:
  transactions of workers, reaper, sweeper and users, local moves of handlers (also of those whose claim is
  gone), and the external request itself. A reply can be faithful, lost after the commit, or mean that nothing
  happened. `Exec` runs any sequence of steps.
- `Core`, `CoreSteps`: facts kept by every step. `Markers`, `MarkerSteps`: the dispatch marker, in every run.
  `Safety`, `SafetySteps`, `SafetyMoves`, `SafetyVerdicts`, `SafetyRows`: the facts behind "no automatic
  replay", kept by every step except the one described below.
- `Verdicts`, `VerdictSteps`: what every verdict rests on, in every run. `Outcomes`: what each path of a handler
  comes to in the rows, from its launch to its finalization. `Endings`: the same for the worker after the handler
  returned, for the reaper, for claims and leases, and for users. `Progress`: how an open diagnosis is ended.
- `Runs`, `Theorems`, `Recovery`: results over whole runs. `Replays`, `Witnesses`: exactness of the hypotheses,
  and concrete runs for claims that the code does not meet.
- `Reconcile`: the worker's loops against a store that may commit and still report failure, with arbitrary steps
  of everybody else between any two operations.
- `Shutdown`: one worker process as a transition system: the claim loop, a goroutine per claim, the executions
  they launch and any number of stop requests, interleaved at every operation on a shared variable. `Draining`: a
  stop can always come to its end.
- `Dispatch`, `Agent`, `AgentLoop`: the guarded provider, the retry wrapper, the guard and the bounded loop.
- `Evidence`, `Pipeline`, `SearchBudget`, `Chunker`: checkpoint replay, revision preparation, the search byte
  budget and the chunker.

## Where the code does not meet a plausible claim

- *No automatic replay* (promised in docs/provider-execution-semantics.md:15). When a handler's terminal failure
  policy is not "outcome unknown", a lease-renewal or cancel-poll failure replaces it by a retry
  (internal/jobs/worker.go:731-736), even while the dispatch marker is set. `Theorems.NeverReplayed` holds for
  every run without such a decision; `Replays.OverrideReplays` shows that wherever the decision is possible it
  can be continued to a second request; `Witnesses.OverrideReachable` reaches it.
- *At most one RUNNING attempt.* A failed checkpoint lookup returns without closing the attempt
  (internal/worker/job_handler.go:134-136). `Recovery.OneRunning` holds for every run in which no retry is
  scheduled over an unclosed attempt; `Replays.LeftoverDoubles` is the converse; `Witnesses.LeftoverReachable`
  reaches it.
- *A cancellation is always accepted* (docs/state-machines.md:37 draws PENDING to CANCELLED). A RUNNING run whose
  job went back to PENDING refuses it. `Theorems.CancellationAccepted` gives the exact condition and
  `Witnesses.CancellationRefused` a run that ends there.
- *Chunking a file always returns.* The fallback overlap of 10 can reach or exceed the target. `Chunker.ReturnsExactly`
  gives the exact settings and file lengths for which the loop returns, runs for ever or panics;
  `Chunker.StuckChunkers` has an instance of each failure.
- *The reported provider calls are the calls made.* The finalizing generation reports the rounds before it, not
  their retries, and counts a truncated answer once (internal/agent/loop.go:401-427). `AgentLoop.Run` states the
  exact condition on the passes that the provider logged, `AgentLoop.Undercounted` is a run that reports too few,
  and `AgentLoop.ExactWithoutRetry` the settings under which it cannot happen.
- *An unstarted claim is always handed back.* At the cleanup deadline the worker leaves it to lease recovery
  (internal/jobs/worker.go:542-547). `Reconcile.HandBackExact` states that a claim which nobody else ends is still
  live exactly if no return reached the store; `Reconcile.LeftBehind` is a run that ends so.

## Model

| member | source | states |
|---|---|---|
| CoreSteps.ReachableCore | internal/jobs/store.go:142-1308 | after every sequence of steps the job and run rows agree, attempts are strictly ordered by generation and number, charges are unique, and what each handler believes about cancellation and finalization is true while its claim lives |
| CoreSteps.StepKeepsCore | internal/jobs/worker.go:360-808 | each of the 28 step kinds keeps those facts, for every reply and every stale handler |
| MarkerSteps.ReachableMarks | internal/diagnosis/store.go:216-290 | in every run: a seen success keeps its marker, a marked attempt has no final checkpoint, and a handler that retries or succeeds has cleared its marker |
| SafetyRows.ReachableSafe | internal/worker/job_handler.go:130-217 | in every lossless run: a marker sits only on the current attempt of its generation, effects are marked or checkpointed, and at most one handler per generation is between its marker and its request |
| SafetyRows.StepKeepsSafe | internal/jobs/worker.go:683-808 | every step except the lossy override keeps those facts; what a decision of the worker writes is stated by Endings.WorkerDecides |
| Theorems.NeverReplayed | internal/diagnosis/store.go:216-290 | once a request of a generation may have taken effect, no other attempt of that generation ever sends a request again (runs without the lossy override) |
| Theorems.MarkerEndsGeneration | internal/diagnosis/store.go:216-290 | an unresolved marker is on the newest attempt of its generation; the job is still running that attempt or is FAILED or CANCELLED, never waiting for a retry and never SUCCEEDED, and no other attempt of the generation is marked (runs without the lossy override) |
| Replays.OverrideReplays | internal/jobs/worker.go:731-736 | from every lossless run, a possible lossy override has a continuation in which a second attempt repeats a request that may have taken effect |
| Witnesses.OverrideReachable | internal/jobs/worker.go:731-736 | the override is reachable from a new diagnosis by a lossless run: a request succeeds, its checkpoint and its failure verdict are not written, and a poll fails |
| Theorems.VerdictsCoupled | internal/jobs/store.go:376-626 | in every reachable state the run is SUCCEEDED, FAILED or CANCELLED exactly when its job is, and both carry the same cancellation flag |
| Theorems.OneSuccess | internal/diagnosis/store.go:354-418 | a SUCCEEDED attempt exists exactly on a SUCCEEDED run, is the one named by final_attempt_id, holds a completed valid checkpoint and has exactly one report |
| Theorems.SuccessIsValid | internal/worker/job_handler.go:262-483 | in every run the attempt of a SUCCEEDED run holds a completed valid checkpoint, a report row is valid exactly if the checkpoint of its attempt is, and no attempt of a generation gets a valid checkpoint after an invalid one |
| Theorems.FailureExplained | internal/jobs/worker.go:770-808 | in every run a failure is PERMANENT exactly if its class is, otherwise exhausted with every attempt charged; a job has a reason only when it is FAILED or CANCELLED |
| VerdictSteps.ReachableVerdicts | internal/worker/job_handler.go:130-483 | those facts, together with what every handler is about to write, hold after every sequence of steps |
| Outcomes.VerdictOf | internal/worker/job_handler.go:262-483 | an execution that nobody interrupted gets the verdict of its end: a valid report succeeds; an invalid, an oversized one and an unknown outcome fail for good; an error fails for good if it is permanent or the attempts are used up, otherwise only its attempt is closed |
| Outcomes.FinalizeWrites | internal/diagnosis/store.go:354-626 | what each finalization of a writable execution changes on job, run, attempt and reports |
| Outcomes.FinalizeRefused | internal/worker/job_handler.go:297-316 | a refused finalization writes nothing: a cancellation takes its place, a lost or finished claim ends the handler |
| Outcomes.CancellingWrites | internal/worker/job_handler.go:637-652 | a handler that cancels writes the cancellation on attempt, run and job, or nothing if its claim is gone |
| Outcomes.FinalizeUnheard | internal/worker/job_handler.go:309-316 | a finalization whose answer was lost leaves the same rows and the policy under which the worker will close |
| Outcomes.InterruptedRoute | internal/worker/job_handler.go:262-267 | an interruption decides instead of the end of the execution, but a shutdown does not hide an unknown outcome |
| Outcomes.InterruptedFailure | internal/worker/job_handler.go:654-706 | the same just before a failure is written |
| Outcomes.SaveWrites | internal/diagnosis/store.go:913-980 | the checkpoint that the end of an execution earns; only a final one resolves the marker |
| Outcomes.SaveFails | internal/worker/job_handler.go:232-259 | a checkpoint that is not saved ends the run, with the code that says why |
| Outcomes.NothingToReplay | internal/worker/job_handler.go:130-136 | a generation without a final checkpoint is worked on; a failed lookup gives the attempt back as retryable |
| Outcomes.ReportDecides | internal/worker/job_handler.go:216-483 | from the end of an executor with a report to the verdict: valid succeeds, invalid fails |
| Outcomes.ReplayDecides | internal/worker/job_handler.go:130-168 | replaying the newest final checkpoint ends the run as that checkpoint says, if it still passes validation |
| Outcomes.LaunchGoes | internal/jobs/worker.go:671-681 | a handler starts with the number its claim paid for; a cancelled claim is closed instead |
| Outcomes.EnterGoes | internal/worker/job_handler.go:50-76 | what a handler does on entry: shutdown and loss first, then a broken specification, then a finished run |
| Outcomes.CauseSticks | internal/jobs/worker.go:578-640 | the first cause of an interruption stays; a user cancellation is believed exactly if the row of the live claim says so |
| Outcomes.AttemptInserts | internal/diagnosis/store.go:123-168 | exactly the paid attempt is inserted under a live lease; every refusal is returned as such |
| Outcomes.RequestGoes | internal/worker/provider_dispatch.go:20-25 | a writable execution gets its marker, its authority and its request |
| Outcomes.AnswerRecorded | internal/diagnosis/store.go:245-290 | what is recorded about an answered request, and what the handler then believes |
| Outcomes.GuardRefused | internal/diagnosis/store.go:200-243 | a cancelled or lost execution gets no further request and ends with the reason |
| Outcomes.GuardExpired | internal/diagnosis/store.go:200-243 | neither does one with an expired lease or without its marker |
| Outcomes.GuardAgain | internal/llm/retry.go:47-67 | a guard that got no answer is asked again from the marker on, within the retry budget |
| Theorems.AttemptNumbersDistinct | internal/diagnosis/store.go:123-168 | attempt rows carry distinct, increasing pairs of generation and number without relying on the unique index |
| Theorems.ReaperCommits | internal/jobs/store.go:925-1065 | in every reachable state the reaper's transaction commits for a job exactly when its lease has expired, so no job can make its batch fail |
| Endings.ReaperDecides | internal/jobs/store.go:925-1065 | after every run: a live lease is spared; otherwise a cancellation wins, an unstarted claim is queued again at no cost, an execution in doubt fails as outcome unknown, and any other one waits for its next attempt exactly while attempts are left, else it is exhausted |
| Endings.ReapRetries | internal/jobs/store.go:1037-1058 | the last two branches: the same generation and count wait for the given time with the attempt abandoned, or job, run and attempts fail together |
| Endings.ReapInDoubt | internal/jobs/store.go:1079-1124 | the attempt in doubt ends the run |
| Endings.ReapCancelled | internal/jobs/store.go:1126-1174 | a cancelled expired job is cancelled with its run and its current attempt |
| Endings.ReapUnstarted | internal/jobs/store.go:970-991 | an unstarted expired claim can be claimed at once and cost no attempt |
| Endings.ReapSpares | internal/jobs/store.go:925-960 | nothing happens to a job whose lease has not expired |
| Endings.WorkerDecides | internal/jobs/worker.go:683-808 | after every run, what the worker writes for a handler that returned under a live claim: by what it returned, or by the cause that interrupted it |
| Endings.ReturnCloses | internal/jobs/worker.go:739-808 | permanent failures and policies fail with their own class, code and reason; a retryable one waits exactly while attempts are left; everything else leaves the rows |
| Endings.CauseCloses | internal/jobs/worker.go:724-736 | a lost claim and a shutdown leave the rows, a failed lease or poll retries, and only an unknown outcome survives a cause |
| Endings.CancelledCloses | internal/jobs/store.go:442-519 | a requested cancellation wins over whatever the worker decided to write |
| Endings.DeadCloses | internal/jobs/store.go:521-538 | a worker whose claim is gone writes nothing |
| Endings.UnsettledCloses | internal/jobs/worker.go:841-864 | an ambiguous finalization is settled from the row |
| Endings.LostFailure | internal/jobs/worker.go:694-808 | a terminal failure whose transaction was lost is written by the worker with the same class, code and reason |
| Endings.LostSuccess | internal/jobs/worker.go:694-808 | a success whose transaction was lost is tried again while attempts are left |
| Endings.CommittedUnheard | internal/jobs/worker.go:685-693 | a finalization that committed without an answer is recognized and nothing more is written |
| Endings.FinishedIsDone | internal/jobs/worker.go:746-773 | the worker is done at once exactly after a handler that finalized, lost its claim or was stopped |
| Endings.CloseAgain | internal/jobs/worker.go:870-922 | a close that was not executed is tried again unless the worker stops trying |
| Theorems.ReaperRespectsMarker | internal/jobs/store.go:992-1036 | an expired execution with an unresolved marker ends FAILED with PROVIDER_OUTCOME_UNKNOWN or CANCELLED, never in a retry, even if the sweeper abandoned the attempt first |
| Theorems.SeenKeepsMarker | internal/diagnosis/store.go:245-267 | success_seen implies unresolved in every reachable state |
| Theorems.CallUnderMarker | internal/llm/provider.go:112-116 | in every run, lossy ones included, a request leaves the process only while the marker of its own attempt row is set and no final checkpoint is there |
| Theorems.MarkerPerCall | internal/worker/provider_dispatch.go:20-25 | in every run a handler commits the marker before its first request and again between any two of its requests |
| Theorems.CancellationNeverLost | internal/diagnosis/store.go:1101-1188 | after an accepted cancellation no run starts an attempt or generation, authorizes a request, or becomes SUCCEEDED or FAILED; the requests sent afterwards are at most the handlers authorized at that moment; CANCELLED is absorbing |
| Theorems.CancellationAccepted | internal/diagnosis/store.go:1123-1156 | a cancellation is accepted exactly when the run is not terminal and is not RUNNING with a PENDING job |
| Theorems.GenericSuccessNeverWrites | internal/jobs/store.go:376-426 | the worker's generic success path never changes a row of a diagnosis |
| Runs.Fenced | internal/jobs/store.go:521-538 | a step that presents a token which is not the running owner's changes no job, run, attempt or report row |
| Runs.DeadForever | internal/jobs/store.go:195-240 | a superseded or cleared token never becomes live again in any run |
| Runs.FencedForever | internal/diagnosis/store.go:170-212 | once a token is dead, no later step of any run that presents it writes any row |
| Runs.LeaseExclusive | internal/jobs/store.go:142-240 | while a lease has not expired, no step of anybody else ends, moves or replaces the claim or its charge |
| Runs.RunEvolves | internal/diagnosis/store.go:354-626 | over any run attempt rows are never removed or renumbered, closed attempts never reopen, and (generation, attempt_count) never decreases |
| Runs.ClosedStaysClosed | internal/jobs/store.go:1079-1097 | the only change of a closed attempt is ABANDONED to FAILED_TERMINAL by the reaper, on the current attempt, together with the outcome-unknown verdict |
| Runs.SeenClearedByCheckpoint | internal/diagnosis/store.go:913-980 | once a success is seen, no step clears the marker except one that saves a final checkpoint |
| Runs.CancellationKept | internal/jobs/store.go:447-452 | from any consistent cancelled state every continuation keeps the flag, starts nothing new and uses each authorization at most once |
| Runs.ChargedOnce | internal/jobs/store.go:243-297 | what a claim was charged never changes, however often the start is repeated and whatever else happens |
| Runs.StartCharges | internal/jobs/store.go:243-297 | a start either changes nothing or moves attempt_count by one and charges a claim that had paid nothing; repeating it is a no-op |
| Runs.ChargesExact | internal/jobs/store.go:243-297 | attempt_count never exceeds max_attempts and each number up to it was paid for by exactly one claim of the generation |
| Runs.LaunchesDistinct | internal/jobs/worker.go:360-396 | no two handler launches share a generation and attempt number |
| Recovery.RecoveryFinishes | internal/jobs/store.go:925-1065 | from every consistent state, clock, claims, starts and the reaper alone lead to a terminal verdict within a bounded number of steps, CANCELLED if a cancellation was accepted |
| Progress.AskedOnce | internal/worker/job_handler.go:50-483 | an open diagnosis without a final checkpoint can be ended by one more attempt with exactly one request, and succeeds exactly if the answer is a valid report |
| Progress.ReplayedOnce | internal/worker/job_handler.go:130-168 | one with a final checkpoint can be ended by one more attempt without any request, as the checkpoint says |
| Recovery.OneRunning | internal/worker/job_handler.go:134-136 | at most one attempt is RUNNING in every run that schedules no retry over an unclosed attempt |
| Replays.LeftoverDoubles | internal/jobs/store.go:479-494 | a retry scheduled over an unclosed attempt can always be continued to two RUNNING attempts |
| Witnesses.LeftoverReachable | internal/worker/job_handler.go:134-136 | that step is reachable: the checkpoint lookup fails and the attempt stays RUNNING |
| Witnesses.CancellationRefused | internal/jobs/store.go:970-991 | a reachable state with a RUNNING run and a PENDING job refuses a cancellation |
| Replays.RequestGoesOut | internal/worker/provider_dispatch.go:20-25 | a claimable diagnosis without a final checkpoint in its generation can be driven to a new request under its own marker |
| Transactions.LatestFinalCheckpoint | internal/diagnosis/store.go:867-883 | the newest final checkpoint of the generation; nothing is returned only if no attempt of the generation is final |
| Transactions.LatestAttempt | internal/jobs/store.go:617-619 | the last attempt of the generation, or none exists |
| Transactions.FindAttempt | internal/jobs/store.go:1067-1077 | an attempt with this generation and number, or none exists |
| Database.Tables.Create | internal/diagnosis/store.go:632-660 | a queued run and its pending job appear together and nothing else changes |
| Database.Tables.ClaimJobs | internal/jobs/store.go:142-240 | exactly the first claimable jobs up to the batch size become RUNNING, each under its own fresh token; every other diagnosis is untouched |
| Database.Tables.SelectClaimable | internal/jobs/store.go:149-157 | the claimable ids in order, complete unless the limit is reached |
| Endings.ClaimTakes | internal/jobs/store.go:142-240 | a claim takes exactly a waiting job whose time has come |
| Endings.StartPays | internal/jobs/store.go:243-297 | a start charges one attempt exactly for an unstarted live claim under a live lease |
| Endings.ReturnHandsBack | internal/jobs/store.go:319-346 | a claim goes back exactly if it is live and unstarted, with count and generation kept |
| Endings.RenewExtends | internal/jobs/store.go:349-373 | a lease moves exactly for the live claim before it expires |
| Endings.SweepAbandons | internal/diagnosis/store.go:1205-1263 | a running attempt is abandoned exactly if it is not the one of the live claim |
| Endings.CancelAsks | internal/diagnosis/store.go:1101-1188 | which state a cancellation flags, which it ends and which it leaves, in every consistent state |
| Endings.RequeueRestarts | internal/jobs/store.go:1181-1256 | exactly an exhausted run gets a fresh generation that can be claimed now |
| Endings.RetryRestarts | internal/jobs/store.go:1274-1334 | exactly a failure of the provider or of a checkpoint does |
| Database.Tables.MarkExecutionStarted | internal/jobs/store.go:243-297 | the start transaction of the model, with the durable attempt count as answer |
| Database.Tables.ReturnUndispatchedClaim | internal/jobs/store.go:319-346 | hands back an unstarted claim and nothing else |
| Database.Tables.RenewLease | internal/jobs/store.go:349-373 | extends the lease only for the live owner |
| Database.Tables.LockLiveJob | internal/diagnosis/store.go:170-198 | the refusal or grant of the model for every row |
| Database.Tables.LockExecution | internal/diagnosis/store.go:292-350 | same, for the finalizer lock that does not look at the lease |
| Database.Tables.LockLiveExecution | internal/diagnosis/store.go:200-212 | same, for the dispatch lock that needs a live lease and the right number |
| Database.Tables.StartAttempt | internal/diagnosis/store.go:123-168 | inserts one attempt and moves the run, or leaves every row alone |
| Database.Tables.BeginProviderDispatch | internal/diagnosis/store.go:216-228 | sets the marker of the locked attempt only |
| Database.Tables.CheckDispatchAuthority | internal/diagnosis/store.go:232-243 | grants exactly under a live lock with the marker set, and writes nothing |
| Database.Tables.DispatchSucceeded | internal/diagnosis/store.go:245-267 | records the success under a set marker |
| Database.Tables.DispatchFailedDefinitely | internal/diagnosis/store.go:271-290 | clears the marker exactly when no success was seen, and says so |
| Database.Tables.SaveCheckpoint | internal/diagnosis/store.go:913-980 | writes the checkpoint; a final one resolves the marker |
| Database.Tables.FinalizeSuccess | internal/diagnosis/store.go:354-418 | report, attempt, run and job change together or not at all |
| Database.Tables.FinalizeInvalidReport | internal/diagnosis/store.go:424-502 | same, for an invalid report |
| Database.Tables.FinalizeDiagnosisFailure | internal/diagnosis/store.go:508-561 | same, for a terminal failure, with the reason its class earns |
| Database.Tables.FinalizeRetryableAttempt | internal/diagnosis/store.go:566-588 | closes the attempt and nothing else |
| Database.Tables.FinalizeCancellation | internal/diagnosis/store.go:590-626 | attempt, run and job become CANCELLED together or not at all |
| Database.Tables.ConditionalFinalizeSuccess | internal/jobs/store.go:376-426 | success, or cancellation when one was accepted |
| Database.Tables.ConditionalFinalizeFailure | internal/jobs/store.go:442-519 | retry, terminal failure with its business rows, or cancellation; a business conflict undoes the job update |
| Database.Tables.ConditionalFinalizeCancel | internal/jobs/store.go:786-870 | job, run and running attempts of the generation are cancelled together; a conflict undoes them |
| Database.Tables.FailBusiness | internal/jobs/store.go:543-626 | the run and the running attempts of the generation fail together |
| Database.Tables.CancelExpired | internal/jobs/store.go:1126-1174 | the reaper's cancellation, undone on conflict |
| Database.Tables.FailOutcomeUnknown | internal/jobs/store.go:1079-1124 | the reaper's outcome-unknown verdict, undone on conflict |
| Database.Tables.ReapOne | internal/jobs/store.go:962-1058 | one recovered job, in all five branches, as its transaction; what each branch decides is stated by Endings.ReaperDecides |
| Database.Tables.ReapEach | internal/jobs/store.go:962-1058 | the loop recovers each job as if it were alone and stops at the first conflict |
| Database.Tables.ReapExpiredJobs | internal/jobs/store.go:925-1065 | the batch commits exactly when every selected job does, and otherwise changes nothing |
| Database.Tables.RecoverStaleAttempt | internal/diagnosis/store.go:1205-1263 | abandons a running attempt unless the live claim is its own |
| Database.Tables.RequestCancellation | internal/diagnosis/store.go:1101-1188 | flags a running job, or cancels both rows, or refuses |
| Database.Tables.ManualRequeue | internal/jobs/store.go:1181-1256 | a new generation for an exhausted failure; a job in the wrong state undoes the run update |
| Database.Tables.RetryDiagnosis | internal/jobs/store.go:1274-1311 | a new generation for a retryable provider failure only |
| Deployment.Cluster.Perform | internal/jobs/worker.go:360-961 | every step of the protocol, carried out by the stores on one diagnosis of the shared tables, is that step for it and nothing for any other; all tables stay where the protocol's runs lead, tokens stay fresh and no two diagnoses share one |
| Deployment.Cluster.Create | internal/diagnosis/store.go:632-660 | a new diagnosis starts a run of its own and leaves the others alone |
| Deployment.Cluster.ClaimJobs | internal/jobs/store.go:142-240 | the batch is one claim step for each selected job, under tokens that no diagnosis ever used |
| Deployment.Cluster.ReapExpiredJobs | internal/jobs/store.go:925-1065 | the batch always commits, recovers each selected job by its reap step, and leaves an expired job behind only if the limit is reached |
| Deployment.RowsAgree | internal/jobs/store.go:376-626 | on the tables, every job and its run agree on the verdict and the cancellation flag at any time |
| Deployment.OwnersApart | internal/jobs/store.go:195-240 | on the tables, two running jobs never carry the same token |
| Deployment.ClaimsStayApart | internal/jobs/store.go:195-240 | a batch of fresh tokens keeps the tokens of all diagnoses disjoint and below the counter |
| Reconcile.Worker.ResolveFinalization | internal/jobs/worker.go:870-922 | runs exactly the given rounds up to the one that settles it; over that run the claim is closed at most once; confirms only if the durable row shows the requested verdict or an accepted cancellation under this claim, reports a lost or left claim only if a readable row says so, gives up only after the last round and while the claim still runs or cannot be read |
| Reconcile.Worker.StartClaimedExecution | internal/jobs/worker.go:401-473 | runs exactly the given rounds up to the first that stops or settles it; answers started only if the durable claim paid for exactly that attempt, not-started only on that stop and if it paid for none, lost only if the claim or its lease is gone |
| Reconcile.Worker.StartAndDispatchClaim | internal/jobs/worker.go:360-396 | a handler runs exactly for a started claim whose look at the launch gate found no stop, under the number it paid for; an unstarted claim goes through the return loop, anything else is left alone; attempt_count never goes back |
| Reconcile.Worker.ReturnUndispatchedClaims | internal/jobs/worker.go:499-557 | runs exactly the rounds up to the first acknowledged return or passed deadline; the return is applied at most once and refunds nothing; a claim that nobody else ends is still live exactly if no return reached the store |
| Reconcile.HandBackExact | internal/jobs/worker.go:499-557 | the same for every number of rounds, as a statement about the run alone |
| Reconcile.LeaseSpares | internal/jobs/store.go:925-960 | a lease that is live at every step keeps everybody else from ending the claim |
| Reconcile.LeftBehind | internal/jobs/worker.go:542-547 | a run in which the deadline passes without an executed return and the claim is left live |
| Reconcile.AppliedOnce | internal/jobs/store.go:319-519 | over any run whatsoever, a claim is closed or handed back at most once, however often it is tried |
| Reconcile.ChargedNotReturned | internal/jobs/store.go:319-346 | a claim that paid for an attempt cannot be handed back, so no charge is refunded |
| Reconcile.AcknowledgedIsExpected | internal/jobs/worker.go:924-961 | a transition the store acknowledges shows the expected row under the same claim |
| Reconcile.TransitionEndsClaim | internal/jobs/store.go:442-519 | a finalization that changes the row ends the claim |
| Reconcile.ForeignKeepsHandler | internal/jobs/worker.go:578-660 | no step of anybody else moves a handler |
| Shutdown.SlotsConserved | internal/jobs/worker.go:264-345 | in every interleaving the occupied slots are exactly the claims still processed plus those the loop holds itself, at most the concurrency; the loop never holds more than a batch, and at its head and after its exit it holds none |
| Shutdown.NoLaunchAfterStop | internal/jobs/worker.go:172-180 | once a stop request has returned, whether its caller drains or gives up, no interleaving ever launches another execution |
| Shutdown.LaunchesCounted | internal/jobs/worker.go:379-396 | every execution still running is awaited by its claim goroutine, counted by the wait group and holds a slot |
| Shutdown.DrainedForGood | internal/jobs/worker.go:151-170 | once a graceful stop has drained within its grace period, both loops have ended and no execution, claim goroutine or slot is left, now or later |
| Shutdown.GateComesFree | internal/jobs/worker.go:357-359 | whoever holds the dispatch mutex releases it within three moves of its own, so it is never held across a wait |
| Shutdown.InvForever | internal/jobs/worker.go:264-396 | every move keeps the mutual exclusion of the gate, the slot and job counts, and the link from executions to their goroutines |
| Shutdown.LoopsKeepRunning | internal/jobs/worker.go:264-345 | neither loop ends before a stop was signalled or the context was cancelled |
| Draining.GracefulStopDrains | internal/jobs/worker.go:151-170 | from every state of every interleaving a stop whose caller has not given up can drain the worker within a bounded number of moves |
| Draining.GraceOver | internal/jobs/worker.go:191-201 | once its grace period is over a waiting stop gives up and changes nothing |
| Draining.ClaimedAllDispatched | internal/jobs/worker.go:316-343 | the loop keeps one slot per claimed job, counts the jobs and starts one goroutine for each |
| Draining.StartedLaunches | internal/jobs/worker.go:379-396 | a started claim that finds the gate free and no stop is launched |
| Draining.UnstartedNeverLaunches | internal/jobs/worker.go:360-377 | a claim whose start was not confirmed never runs, in any continuation |
| Dispatch.Guarded | internal/llm/provider.go:112-136 | at most one request per pass, sent only after this pass committed the marker; a response only with a recorded success, a failure after a request only with a cleared marker and no earlier success, and an unknown outcome with the marker set unless a clearing commit lost its reply |
| Dispatch.Settle | internal/llm/provider.go:117-135 | the end of a request is recorded before the caller hears of it, for every answer of the store; a failure is temporary exactly if the provider said so |
| Dispatch.SettleExact | internal/llm/provider.go:117-135 | the caller hears what happened exactly if the store recorded it for the attempt; otherwise the outcome is unknown |
| Dispatch.GuardedExact | internal/llm/provider.go:112-116 | a request leaves exactly if marker and authority were granted; a refused pass is temporary exactly if the store itself failed |
| Dispatch.Retried | internal/llm/retry.go:47-67 | at most 1 + maxRetry requests, each under a set marker, and at most one once a success was recorded; every retried pass was temporary and not cancelled, and a temporary failure ends the generation early only if it was cancelled |
| Dispatch.GuardedProvider.Generate | internal/llm/retry.go:47-67 | the retry loop computes that generation, pass by pass |
| Agent.AgentGuard.RecordStep | internal/agent/guard.go:54-60 | counts every round and allows it exactly up to the limit |
| Agent.AgentGuard.RecordSearchCall | internal/agent/guard.go:39-45 | a search is accepted exactly while a positive limit is not used up |
| Agent.AgentGuard.RecordToolCall | internal/agent/guard.go:62-87 | a call is accepted exactly if the total, its own count of three and the repeat limit leave room; accepted calls are at most max(1, MaxRepeatCalls) in a row |
| Agent.AllowedExactly | internal/agent/guard.go:62-87 | the guard is as permissive as its budgets: a call is accepted exactly if they still hold with it |
| Agent.RunsMeaning | internal/agent/guard.go:71-78 | a bound on runs means that among any n + 1 neighbouring calls two differ |
| Agent.EveryCallAnswered | internal/agent/loop.go:234-294 | in a well-formed conversation every tool call has its own tool message at its own place, and a call that ran did so with its own name and arguments |
| AgentLoop.ExecuteCalls | internal/agent/loop.go:234-294 | runs exactly a prefix of the calls, all of them unless the next one is refused, and then by the budget that is named and used up; every call gets exactly one tool message in order; searches that ran, calls and step numbers are counted exactly |
| AgentLoop.AppendBudgetResults | internal/agent/loop.go:353-362 | answers the remaining calls without running any |
| AgentLoop.FinalizeOnly | internal/agent/loop.go:387-449 | one well-formed request without tools under the next step number, one generation of the provider, counted into the totals exactly when it is answered; truncated exactly if the model stopped for length or spent its output budget on nothing, otherwise valid exactly if the report parses; reports the rounds before it plus its own passes, or one if truncated |
| AgentLoop.Ask | internal/agent/loop.go:172-201 | plays the next generation of the script and adds its passes to the counter exactly, within the bounds on requests |
| AgentLoop.Run | internal/agent/loop.go:136-341 | the provider plays the script from its beginning; request i shows the whole conversation after i answers, all of which asked for tools; searches and calls that ran keep every budget, and a budget is reported only if it refused a call or the rounds ran out; step numbers are 1..n for exactly the steps of the run; token totals are the sums over the answers; a cancelled context stops it before its next request; the status of the last answer is truncated exactly if the model stopped for length or spent its output budget on nothing, otherwise valid exactly if its report parses; the reported provider calls never exceed the passes of the provider and equal them exactly if no budget ran out, or no generation before the finalizing one was retried and a truncated final one took one pass |
| AgentLoop.SearchBound | internal/agent/loop.go:236-241 | the searches that ran never exceed a positive MaxSearchCalls, and have used it up if the search budget was hit |
| AgentLoop.ExactWithoutRetry | internal/agent/loop.go:401-427 | without retries the reported provider calls are always exact |
| AgentLoop.Conclude | internal/agent/loop.go:387-449 | the finalizing generation, with the status its answer earns, in the accounts of the whole run |
| AgentLoop.RequestBound | internal/agent/loop.go:136-341 | that means at most MaxSteps + 1 + maxRetry concrete requests |
| AgentLoop.Undercounted | internal/agent/loop.go:410-427 | a run that makes two passes and reports fewer |
| AgentLoop.SpendLast | internal/agent/loop.go:401-427 | the condition under which the counter of a finalized run is exact, for every log of generations |
| Evidence.ReadAgain | internal/platform/snapshotstore/snapshotstore.go:303-420 | reading the lines a bounded read returned, without a bound, gives the same range |
| Evidence.ReadsWholeLines | internal/platform/snapshotstore/snapshotstore.go:303-420 | a bounded read returns the longest run of whole lines from the first one asked for that fits, and fails exactly if there is none |
| Evidence.IssueKeepsGenuine | internal/evidence/item.go:152-208 | issuing keeps every handle genuine and never changes an existing one |
| Evidence.IssueExact | internal/evidence/item.go:152-208 | a handle is issued exactly for a readable range and an attempt of the lineage, and its item holds what was read and its redaction |
| Evidence.IssueAgain | internal/evidence/item.go:168-174 | issuing again returns the same handle and creates none |
| Evidence.ResolveCites | internal/evidence/report_draft.go:119-168 | when a citation is valid, what it then shows, and which error it carries otherwise |
| Evidence.CitesQuotes | internal/evidence/report_draft.go:160-168 | a valid citation of issued evidence quotes the snapshot and shows its redaction |
| Evidence.GenuineResolves | internal/evidence/item.go:254-279 | a handle of a genuine item resolves exactly for its own attempt |
| Evidence.RebindPreserves | internal/worker/job_handler.go:490-528 | rebinding a draft to a new attempt and resolving it gives the report of the old attempt |
| Evidence.ReplayPreserves | internal/worker/job_handler.go:165-168 | replaying a checkpoint through any number of later attempts keeps validity, path, lines, hash and excerpt of every citation |
| Evidence.EvidenceIssuer.IssueItem | internal/evidence/item.go:152-208 | find-or-create of a handle: it names the attempt, the path and exactly the lines that were read |
| Evidence.EvidenceIssuer.RebindCheckpointDraft | internal/worker/job_handler.go:490-528 | the nested loops compute the rebinding, finding by finding |
| Evidence.EvidenceIssuer.ResolveFinding | internal/evidence/report_draft.go:121-170 | the citations of one finding, each as the citation rules say |
| Evidence.EvidenceIssuer.ResolveReportDraft | internal/evidence/report_draft.go:96-172 | finding by finding, a citation is valid exactly if its handle names an item of this attempt and lineage whose lines still read the same; it then shows the place of that item, and for issued items the content is that of the snapshot and the excerpt its redaction; otherwise its error says what is missing |
| Pipeline.StepKeepsInv | internal/jobs/store.go:543-688 | every pipeline step keeps job, resource and revision in agreement on all three stages |
| Pipeline.NeverStranded | internal/snapshot/store.go:177-272 | a PREPARING revision has exactly one active job, that of its stage in its generation; other revisions have none |
| Pipeline.FailTogether | internal/jobs/store.go:632-688 | a stage job is FAILED exactly when its resource is, and exactly when the revision failed at that stage |
| Pipeline.FailureTakesEffect | internal/jobs/store.go:543-688 | a terminal failure of an executing stage always fails job, resource and revision; any other report changes nothing |
| Pipeline.SuccessTakesEffect | internal/codeintel/store/store.go:427-502 | a success of an executing stage publishes its resource and opens the next stage with a fresh job of the generation; the last one makes the revision ready; any other report changes nothing |
| Pipeline.JobTurns | internal/jobs/store.go:142-346 | claiming, starting, handing back and retrying a stage job touch nothing else, and only a start costs an attempt |
| Pipeline.LinkedBuildNeedsPublished | internal/analysispipeline/store.go:174-188 | a linked build implies that the stage before it is READY, so a retry never resets builds behind an unfinished snapshot |
| Pipeline.RetryRestartsOneStage | internal/analysispipeline/store.go:129-275 | a retry bumps the generation by one, restarts exactly the job of the failed stage, and never publishes |
| Pipeline.CanFinish | internal/analysispipeline/store.go:129-275 | from every consistent state a bounded number of steps makes the revision READY |
| Pipeline.FirstOpen | internal/analysispipeline/store.go:167-262 | the first unpublished stage: everything before it is published |
| Pipeline.RevisionRows.FinalizeStage | internal/codeintel/store/store.go:427-502 | publishes a stage and hands over, or undoes its update |
| Pipeline.RevisionRows.FailTerminally | internal/jobs/store.go:543-688 | fails job, resource and revision together, or undoes them |
| Pipeline.RevisionRows.RetryOnce | internal/analysispipeline/store.go:129-275 | the retry transaction |
| SearchBudget.SixFold | internal/tools/search_code.go:206-213 | six encoded bytes per raw byte always suffice |
| SearchBudget.EscapeRoundTrip | internal/tools/search_code.go:206-213 | the counted length of a byte is that of its JSON escape, from which a reader gets every ASCII byte back |
| SearchBudget.FilledFits | internal/tools/search_code.go:206-220 | however kept rows are filled within n encoded bytes per snippet, they are no longer than the rows with that reserve |
| SearchBudget.AllowanceFits | internal/tools/search_code.go:206-220 | rows padded to six times the chosen allowance fit the limit |
| SearchBudget.ResultsWithinBudget | internal/tools/search_code.go:186-228 | keeps the longest prefix that leaves room for a snippet byte per row, and any filling of it with snippets that encode to at most six bytes per allowed raw byte stays within the limit |
| SearchBudget.GrownFits | internal/tools/search_code.go:168-172 | snippets that encode to g bytes more than their share exceed the limit by at most g bytes per row |
| SearchBudget.RedactedFits | internal/evidence/item.go:175-175 | a redacted excerpt stays within the share of its raw bytes if every piece is replaced by one that encodes to at most six bytes per raw byte it replaces |
| SearchBudget.Overflow | internal/tools/search_code.go:168-172 | an excerpt that outgrows its share breaks the limit |
| Chunker.ChunkFile | internal/indexing/chunk.go:50-108 | chunks carry their true line numbers, are at most target lines long, and dropping each later overlap restores the file |
| Chunker.ReturnsExactly | internal/indexing/chunk.go:37-108 | for all settings and file lengths: chunking returns exactly if the file fits one chunk or the chunker advances, panics exactly if the overlap exceeds the target, runs for ever exactly if they are equal; and the exact settings that advance, with the defaults of 60 and 10 |
| Chunker.NeverArrives | internal/indexing/chunk.go:78-105 | the position of a chunker that does not advance after any number of rounds |
| Chunker.StuckChunkers | internal/indexing/chunk.go:37-48 | target 10 and overlap 10 never return on 11 lines; target 5 and overlap 5 panic on 6 lines |

## Left out

- Version and timestamp columns, heartbeats, deadlines and error messages: no decision of the modelled code depends on them (the sweeper's staleness test is a free choice of the step).
- Token and tool counters stored on attempts, raw outputs, trace payloads, citations as rows: data that the protocol only carries.
- SQL dialects, row locks and isolation: each transaction is one atomic step on one clock.
- Legacy and unfenced paths (ClaimRun, StartAttempt, CloseAttempt, FinishAttempt, FinishAttemptAndRun, RequestCancel, revision-less snapshots, manual requeue of builds without a revision): production diagnosis and revision jobs do not use them.
- internal/revision/store.go MarkSnapshotReady, MarkCodeIndexReady and MarkRetrievalReady: production finalizes through the claim-fenced transactions that the pipeline model uses.
- The early cancellation branch of the handler (internal/worker/job_handler.go:123-126): a cancelled claim never reaches the handler, and StartAttempt refuses a cancelled run first.
- Claims and leases of pipeline jobs: a pipeline step stands for the current owner; fencing is proved for diagnosis jobs, whose claim transactions are the same.
- The codeintel finalizer bodies beyond their guards and status updates, AST extraction, BM25, structural retrieval.
- JSON decoding, SHA-256 and path cleaning: hashes are modelled by the content itself, paths by their clean form.
- The redaction rules: redaction is an arbitrary function of the content. The byte limit of search results is computed for raw snippets while the redacted excerpt is sent (internal/tools/search_code.go:168-172), so it holds under the condition of `SearchBudget.RedactedFits`; `SearchBudget.GrownFits` bounds the excess of a redaction that breaks the condition and `SearchBudget.Overflow` shows one.
- Reconcile.Worker.ReturnUndispatchedClaims: for the one claim that the worker hands back; the source's loop takes a list, which never has more than one element.
- Database work inside the moves of `Shutdown`: what a claim goroutine does with the database between two moves is the subject of `Reconcile`, and the cancellation of executions after the grace period that of the causes in `Protocol`.
- Database.Tables.ReapExpiredJobs: scans in id order, one of the orders an unordered query may return.
- HTTP handlers, web interface, command-line tools, demo data, Git and file-system access, evaluation metrics.
