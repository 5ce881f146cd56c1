# Verified model of the golden-path control plane

The control plane registers services, queues readiness evaluations for them, lets workers turn each queued
job into a scored snapshot, and approves or rejects deployment candidates on the latest snapshot. All of it
runs over one PostgreSQL database, and its safety rests on small guarded SQL updates issued by processes
that race, time out and crash. This project models those protocols and proves what every run of them keeps.

Two state machines carry the theorems; one step is one SQL statement or transaction of one process, or one
tick of the clock, and every sequence of steps is a run:

- `Queue`: the jobs table, the batch each worker still holds in memory, and, as history, every claim of
  every job with how it was settled. Any number of workers, leases that run out, marks that fail or whose
  reply is lost, workers that stop anywhere.
- `ControlPlane`: the queue embedded in the rest of the database (services, snapshots, check rows, audit
  events, candidates, decisions) with the program counters of workers, patching clients and evaluating
  clients. History records the claim and service record behind each snapshot, and the ticks at which the
  evaluation that decided a candidate started, read and committed.

The Go code is modelled in its own form beside them: classes whose methods are the SQL statements, the use
cases `EvaluateDeploymentCandidate`, `ProcessServiceEvaluationJob` and `UpdateService`, the worker's
`runOnce` with its claim, its jobs and its marks, and `Apply`, each proved to be a run of its machine under
every schedule of the other processes. `SkipLocked` splits the claim statement into its phases and proves
that they refine one atomic claim.

| file | contents |
|---|---|
| Wrappers.dfy, Sums.dfy | options, results and store errors; sums over finite maps |
| Jobs.dfy | a job row and what each statement does to the table; backoff |
| Queue.dfy | the queue machine and its inductive invariant |
| QueueSafety.dfy | fencing, exclusivity within the lease, row shape, claim spacing |
| QueueProgress.dfy | termination measure, quiescence, bounded overtaking |
| Stranding.dfy | which jobs stay processing for good |
| QueueIdempotence.dfy | repeated enqueues |
| SkipLocked.dfy | the claim in phases, with row locks |
| JobStore.dfy | `jobs.go` and `EnqueueJob` as imperative code |
| Domain.dfy | validation, patches and their algebra |
| PlatformChecks.dfy | the evaluator and what its score means |
| ControlPlane.dfy | the machine of the whole system |
| Evidence.dfy, Audits.dfy | stored services, snapshots, check rows and audit events over whole runs |
| Gate.dfy, Provenance.dfy | candidates and decisions over whole runs; where a verdict comes from |
| OvertakenApproval.dfy | a run that approves on a snapshot no longer the latest |
| Processes.dfy | which action is whose, and what a process keeps while others act |
| PlaneStore.dfy | `candidates.go`, `services.go` and the use cases as imperative code |
| WorkerLoop.dfy | `runOnce` as imperative code, over the whole system |
| LostUpdates.dfy | interleaved patches |
| Migrations.dfy | the migration engine |

## Assumptions

- One monotone clock. `NOW()` in the database and `time.Now()` in workers and API servers read it, possibly
  at different moments of one call; times are integer microseconds.
- A statement or a transaction takes effect at one moment, a read sees one committed state, and an update
  that waited for a row lock checks its guard again. A call ends in one of three ways: done and
  acknowledged, done with the reply lost, or not done. Nothing a process sent takes effect after it gave up.
- `lease` in the queue theorems is a lower bound on the lease of every worker; worker ids are unique.
- Ids are values a run chooses freely. Where the schema has a primary or unique key, a collision is an
  error of the statement, so no theorem needs ids to be fresh.
- The order of `RETURNING`, of rows with equal sort keys and of `schema_migrations` is left open.
- Address and URL syntax (`net/mail`, `net/url`) are arbitrary functions of the string. Blankness is
  `strings.TrimSpace` spelled out. Percentages are reals.
- A released migration script never changes, and the advisory lock keeps two `Apply` runs apart.

## What does not hold, and when it does

- A job need not end completed or failed. It stays processing for good iff it is on its last attempt and no
  worker can still reach its handle (`Stranding.ProcessingForeverIff`). A worker that stops on the last
  attempt does that (`Stranding.StopStrands`, `QueueProgress.StrandedJob`), and so does a live one that drops
  the rest of its batch because an earlier mark failed: in `Stranding.StrandedByOvertakenHead` every call
  succeeds and no process stops. `QueueProgress.QuiescentIff` says what a finished queue looks like.
- The job an enqueue answers with may be for another service. `QueueIdempotence.AnswerForAnotherService` is
  a run in which it is, `AnswerIsForRequestedServiceIff` says exactly when it is not.
- Of two concurrent patches one may be lost. `LostUpdates.PatchLost` is a run that loses a field,
  `LostUpdates.InterleavedPatches` says which patch survives, and exactly when nothing is lost.
- The approving snapshot need not be the latest at the commit. `Provenance.ApprovedOnLatestIff` says exactly
  when it is, `OvertakenApproval.ApprovedOnOvertakenSnapshot` is a run in which it is not.
- Scripts need not have run in the order of the list when a release adds a file that sorts before an old
  one, and `EnsureCompatible` accepts the database all the same: `Migrations.RanOutOfOrder`.
  `Migrations.InListOrderIff` says exactly when they have.

## Model

| member | source | states |
|---|---|---|
| QueueSafety.OwnerFencesAttempt | internal/postgres/jobs.go:62-113 | in every reachable state and for every handle a worker still holds, the row has at least the handle's attempts, and is processing under that worker iff it has exactly as many: the owner guard checks the attempt |
| QueueSafety.MarkSettlesIssuingClaim | internal/postgres/jobs.go:62-113 | a mark whose handle carries the row's attempt settles the very claim that issued the handle, writes exactly the completed or failed row, and touches nothing else |
| QueueSafety.OvertakenMarkIsNoOp | internal/postgres/jobs.go:78-80 | a mark whose handle was overtaken by a later claim changes no row, and ends the batch |
| Queue.MarkHitSettlesOwnClaim | internal/postgres/jobs.go:70-72 | whenever the guard lets a mark through, attempts and locked_at of row and handle agree and the claim is the last and unsettled one |
| QueueSafety.ExclusiveWithinLease | internal/postgres/jobs.go:24 | until the lease of a claim has run out no other worker has claimed any row of the batch, and a mark hits |
| QueueSafety.RowShape | internal/postgres/jobs.go:21-37 | in every reachable state: processing iff locked_at is set iff an owner is, pending iff no attempts, attempts within the budget and equal to the number of claims |
| QueueSafety.LockedGuardRedundant | internal/postgres/jobs.go:24 | on every stored row the conjunct locked_at IS NOT NULL decides nothing |
| QueueSafety.RunEvolves | internal/postgres/jobs.go:30-37 | over any run a row keeps its identity, attempts never drop, pending is never re-entered, completed is absorbing |
| QueueSafety.StepMovesTable | internal/postgres/jobs.go:30-37 | which rows a step moves and how: claimed with one more attempt, or released from processing; every other row keeps all but updated_at |
| QueueSafety.StepWrites | internal/postgres/jobs.go:30-103 | in every reachable state, column by column: what a claim, a mark of either kind and an enqueue write to each stored row, and that they write nothing else |
| QueueSafety.EnqueueWrites | internal/postgres/services.go:266-283 | a row is added exactly by an enqueue of a supported job under a free id and a free key, and every column of it comes from that call |
| QueueSafety.RunGrowsLog | internal/postgres/jobs.go:30-37 | over any run the claim history of a job only grows, and a settled claim stays settled as it was |
| QueueSafety.ClaimsAreSpaced | internal/postgres/jobs.go:86-103 | two consecutive claims of a job are more than a lease apart, or the first failed and the second waited out min(2^attempt, 60) seconds |
| QueueSafety.ClaimsPerWindow | internal/postgres/jobs.go:15-37 | any window of length D holds at most 1 + D / min(lease, 2 s) claims of one job |
| QueueSafety.BackoffElapsed | internal/postgres/jobs.go:86-103 | once a job has k >= 5 recorded failures, at least 62 + 60(k-5) seconds lie between its first claim and its next one |
| QueueSafety.TotalBackoffValue | internal/postgres/jobs.go:87-90 | the delays after the first k >= 5 attempts add up to 62 + 60(k-5) seconds |
| Jobs.BackoffValues | internal/postgres/jobs.go:87-90 | the delays after attempts 1 to 5, and 60 seconds from the sixth on |
| Jobs.BackoffIsCappedPower | internal/postgres/jobs.go:87-90 | the delay is min(2^attempt, 60) seconds for every attempt: capping the shift at 6 changes nothing |
| Jobs.InOrderSize | internal/postgres/jobs.go:26-27 | a claim takes min(batch size, eligible rows that are not locked) rows |
| Jobs.InOrderSkips | internal/postgres/jobs.go:26-28 | a claim leaves out an eligible row that is not locked only when its batch is full and no row taken became available later, or at the same time and was created later |
| QueueProgress.MeasureDrops | internal/postgres/jobs.go:21-37 | the sum over jobs of 2(max_attempts - attempts) plus 1 if processing drops by one per row claimed, completed or failed, and only a new row adds to it |
| QueueProgress.BoundedWork | internal/jobs/worker.go:40-55 | the claims, completions and failures of any run are at most the measure at its start plus the budgets enqueued on the way |
| QueueProgress.QuiescentIff | internal/postgres/jobs.go:21-25 | no row can ever be claimed again iff every row is completed or out of attempts |
| QueueProgress.StrandedJob | internal/postgres/jobs.go:21 | a run whose only job stays processing and can never be claimed again |
| Stranding.ProcessingForeverIff | internal/jobs/worker.go:57-81 | for every job of every reachable state: it is processing after every run from there iff it is processing on its last attempt and no worker holds its handle with every handle of the batch up to it still carrying its row's attempt |
| Stranding.StopStrands | internal/jobs/worker.go:40-55 | a worker that stops while it could still settle a job on its last attempt strands it |
| Stranding.StrandedByOvertakenHead | internal/jobs/worker.go:63-78 | a run in which every call succeeds and no process stops, and a job on its only attempt is stranded: an earlier row of its batch was overtaken, so the mark of that row conflicts and the batch is dropped |
| QueueProgress.OvertakingIsBounded | internal/postgres/jobs.go:21-28 | over any run: while an available job waits unclaimed, every claim call that did not find it locked uses up at least a batch of the attempts ahead of it, counting those that enqueues in flight when it became available still put there |
| QueueProgress.ClaimedInTime | internal/postgres/jobs.go:21-28 | hence it is claimed within floor(attempts ahead / batch size) + 1 such calls, whatever other rows they skip as locked |
| QueueIdempotence.RepeatIsStutter | internal/postgres/services.go:274-275 | an enqueue with a taken key changes nothing but updated_at |
| QueueIdempotence.RepeatsErased | internal/postgres/services.go:266-283 | any run, repeats anywhere among worker steps, reaches the queue of the run with its repeats erased, up to updated_at |
| QueueIdempotence.ErasedHasNoRepeat | internal/postgres/services.go:266-283 | the erased run holds no repeat |
| QueueIdempotence.FirstJobAnswers | internal/postgres/services.go:276-283 | once a key is taken every later enqueue with it answers with the first job and that job's resource, and inserts nothing |
| QueueIdempotence.AnswerIsForRequestedServiceIff | internal/postgres/services.go:274 | the answer is for the requested service iff no stored job of another service holds the key |
| QueueIdempotence.AnswerForAnotherService | internal/postgres/services.go:274 | a run in which it is not |
| SkipLocked.PhasesRefineAtomicClaims | internal/postgres/jobs.go:17-40 | every interleaving of selecting, locking, updating and committing claims is a run of the queue in which each claim is one atomic step |
| SkipLocked.ClaimInPhases | internal/postgres/jobs.go:17-40 | conversely, the phases of a claim, one after the other, of rows no open claim holds do exactly what the atomic claim does, from any state that phases can reach |
| SkipLocked.CommitIsAtomicClaim | internal/postgres/jobs.go:28-37 | at its commit every row a claim locked, however long ago, is still eligible, and there are at most batch size of them |
| SkipLocked.ConcurrentClaimsDisjoint | internal/postgres/jobs.go:28 | claims open at the same time never hold a row in common |
| JobStore.Store.SelectCandidates | internal/postgres/jobs.go:18-29 | returns distinct eligible rows that no other claim holds locked, at most the limit, and leaves such a row out only if the batch is full and no row taken sorts after it |
| JobStore.Store.ClaimJobs | internal/postgres/jobs.go:14-60 | claims exactly such a selection, among any locked rows: status, lock, owner, attempts and updated_at of each row taken change and no other column does, all other rows are unchanged, and the rows returned are the updated ones |
| JobStore.Store.MarkJobCompleted | internal/postgres/jobs.go:62-83 | completes the row and releases it iff it is processing under the caller, otherwise a state conflict and no change |
| JobStore.Store.MarkJobFailed | internal/postgres/jobs.go:85-113 | likewise, with the row available again after the backoff of the handle's attempt |
| JobStore.Store.EnqueueJob | internal/postgres/services.go:260-284 | inserts the job or touches the one that holds its key, answers with the stored row that holds the key, and says exactly when it is refused |
| Domain.InputAcceptedIff | internal/domain/models.go:222-284 | an input is accepted iff the service made of it is valid |
| Domain.PatchAcceptedIff | internal/domain/models.go:286-359 | a patch is accepted iff it is not empty and leaves every valid service valid, although the validator never sees the service |
| Domain.AcceptedPatchesKeepValid | internal/domain/models.go:286-359 | any sequence of accepted patches keeps a valid service valid, and its id and name |
| Domain.PatchesAreOnePatch | internal/postgres/services.go:323-368 | any sequence of patches is one patch, the right-biased merge |
| Domain.ReapplyingIsNoOp | internal/postgres/services.go:323-368 | reapplying a patch changes nothing, also after patches that commute with it |
| Domain.ServiceRecord.ApplyPatch | internal/postgres/services.go:323-368 | the in-place update sets exactly the fields the patch carries |
| LostUpdates.UpdateLands | internal/postgres/services.go:61-123 | whatever others do between the read and the write of a call, what is then stored is the patch applied to what was read |
| LostUpdates.InterleavedPatches | internal/postgres/services.go:61-123 | of two calls that both read before either writes, anywhere in any run and with any actions of others in between, both writes land and the second is its patch applied to what it read; both patches survive iff each field of the first is also set by the second or already had that value |
| LostUpdates.PatchLost | internal/postgres/services.go:61-123 | a run from the empty database in which tracing is declared successfully and the service ends without it |
| PlatformChecks.Evaluate | internal/platformchecks/evaluator.go:18-89 | the counting and stamping loops return ten rows, each name at its place with this service, snapshot and time, passing iff the service declares what it asks for; the snapshot has the clamped score, is ready iff nothing is missing and blocked iff a blocking declaration is |
| PlatformChecks.EachCheckOnce | internal/platformchecks/evaluator.go:19-41 | each of the ten names occurs once, with pass iff its field is declared, and fail or warn by whether it blocks |
| PlatformChecks.StateByDeclarations | internal/platformchecks/evaluator.go:59-68 | blocked iff a blocking declaration is missing, ready iff none of the ten is |
| PlatformChecks.ReadyIff | internal/platformchecks/evaluator.go:54-68 | for any service: ready iff all ten checks pass iff the score is 100; the score is between 0 and 100 |
| PlatformChecks.MorePassesScoreNoLower | internal/platformchecks/evaluator.go:43-68 | a service that passes every check another passes never scores lower, and is never in a worse state |
| PlatformChecks.ValidServiceScore | internal/platformchecks/evaluator.go:18-68 | a valid service is blocked iff it has no CI, degraded iff CI but not both tracing and metrics; score 100 - 30[no CI] - 10([no tracing] + [no metrics]); the clamp is never reached |
| Evidence.StoredServicesValid | internal/postgres/services.go:61-123 | under any interleaving of stale read-modify-write patches every stored service is valid |
| Evidence.SnapshotsHold | internal/postgres/services.go:146-187 | every stored snapshot and its check rows were computed from one valid service record under one claim of its job, no claim has two, and a worker about to save has none yet |
| Evidence.SnapshotScores | internal/platformchecks/evaluator.go:54-68 | state and score of every snapshot ever saved, in terms of that service record; never below 50 |
| Evidence.ScorecardConsistent | internal/postgres/services.go:146-187 | every stored snapshot has its ten check rows: they are those of the service record it was computed from, name by name, and the ones its state and score count |
| Audits.AuditsHold | internal/app/controlplane.go:285-293 | every 'service.evaluated' event names a stored snapshot of the job and the service it was written for, no two name one snapshot, and a completed job has one |
| Audits.EvidenceConservation | internal/jobs/worker.go:63-78 | for every job of every run: claims = attempts <= max_attempts; evaluation events <= snapshots <= attempts; completed implies at least one of each |
| Audits.EvidenceIsOnly | internal/app/controlplane.go:274-294 | in every reachable state the snapshot and the event a processed claim left are the only ones of that claim, and the snapshot was computed from the service record it names as its origin |
| Gate.GateHolds | internal/postgres/candidates.go:77-105 | in every reachable state a decision exists for a candidate iff it is not pending, and then status, reason and snapshot agree |
| Gate.ConflictBranchUnreachable | internal/postgres/candidates.go:98-102 | whenever a decision goes through none exists for the candidate: DO UPDATE is never taken |
| Gate.StatusStep | internal/domain/models.go:418-427 | every change of a status is one CanTransitionTo allows, and a decided candidate does not change |
| Gate.FirstVerdictStands | internal/postgres/candidates.go:84-93 | of any number of concurrent evaluations of a candidate at most one commits, and its verdict stands for the rest of the run |
| Provenance.VerdictProvenance | internal/app/controlplane.go:205-264 | every verdict, approval or rejection, is the one the snapshot latest at the evaluation's read calls for; the candidate was pending from the start of the evaluation to its commit |
| Provenance.ApprovalProvenance | internal/app/controlplane.go:205-264 | every approval names a stored ready snapshot of the candidate's service that was latest at a moment between start and commit, computed from a service record stored at an earlier moment that passes all ten checks |
| Provenance.RejectionProvenance | internal/app/controlplane.go:220-234 | every rejection was due: at the read the service had no snapshot, and the candidate names none, or the latest one, which it names, was not ready |
| Provenance.SnapshotStands | internal/postgres/services.go:155-158 | a stored snapshot, and the record of what it was computed from, never change |
| Provenance.ApprovedOnLatestIff | internal/app/controlplane.go:205-264 | for every approved candidate of every run: the approving snapshot is still latest at the commit iff no save between the evaluation's read and its commit goes through with a free id and a newer snapshot of the service |
| OvertakenApproval.ApprovedOnOvertakenSnapshot | internal/app/controlplane.go:205-264 | a run from the empty database that ends in an approval on a snapshot no longer the latest |
| PlaneStore.Store.GetLatestSnapshot | internal/postgres/candidates.go:33-60 | finds a snapshot of the service with the greatest evaluated_at, or none iff there is none |
| PlaneStore.Store.SavePromotionDecision | internal/postgres/candidates.go:62-112 | both rows are written iff the candidate is pending and no key is violated, otherwise neither; a call that loses the race answers with a state conflict, one whose decision id is another decision's with a violated key |
| PlaneStore.Store.GetDeploymentCandidate | internal/postgres/candidates.go:114-171 | answers iff the candidate exists; between any two transactions the answer carries a decision iff its status is not pending, and then status, reason and snapshot of the two agree |
| PlaneStore.Store.SaveReadinessEvaluation | internal/postgres/services.go:146-187 | the snapshot and all its check rows are written, or, if any of the inserts fails, nothing is |
| PlaneStore.Store.EvaluateDeploymentCandidate | internal/app/controlplane.go:205-264 | under any schedule of other processes the use case issues its statements in order, each once; success means this call's own decision stands, is the verdict on what was latest at its read, is what it answers, and is logged; a conflict means another decision stands, and every other refusal has its one reason; if no call fails, a candidate that is pending when the decision is saved under a free id is decided |
| PlaneStore.Store.ProcessJob | internal/app/controlplane.go:274-294 | under any schedule it issues its statements in order, each once; success means a snapshot of the service as read, its ten checks and the audit event are stored; each failure has its one reason, so that a job of a stored service with no failing call and a free snapshot id succeeds |
| PlaneStore.Store.UpdateService | internal/app/controlplane.go:98-116 | under any schedule it issues its statements in order, each once; on success the patch applied to what was read was stored, the answer is what was stored when it was read back, and the event is logged; an invalid patch changes nothing and is refused with the validator's error; a valid patch of a stored service fails only if a call does |
| WorkerLoop.Worker.RunBatch | internal/jobs/worker.go:63-80 | the loop over a batch: processes and marks in order, returns at the first mark that fails, with the reason, and leaves the rows before it settled as their processing turned out |
| WorkerLoop.Worker.RunOnce | internal/jobs/worker.go:57-81 | in any reachable state and under any schedule of others one iteration is a run of the system that starts with one claim; each row up to the first failed mark is settled as processJob turned out; each success has left exactly one snapshot made under that claim and one event; a failure means a failed call, a refused check row or a snapshot id that another claim used; an error means a failed call or a row claimed again, so with no failed call at claim and marks a batch finished within the lease of its claim gives none |
| WorkerLoop.ResourcesHold | internal/app/controlplane.go:118-121 | in every reachable state every job is for a stored service, so no worker ever fails for a missing one |
| ControlPlane.QueueRunIn | internal/app/controlplane.go:118-156 | the queue inside any run of the system, from any state, is a run of the queue machine |
| Migrations.MigrationEntries | internal/migrations/migrations.go:221-240 | exactly the .sql files of the directory, in lexicographic order of their names (Migrations.LessIff) |
| Migrations.LessIff | internal/migrations/migrations.go:235-237 | a name sorts before another iff it is a proper prefix of it or has the smaller character where they first differ |
| Migrations.Database.Apply | internal/migrations/migrations.go:51-122 | interrupted anywhere it has run and recorded a prefix of the missing scripts, each once and in order, and the schema is the fold of them; success means all; if no call fails, an error names the script that does not run |
| Migrations.Database.EnsureCompatible | internal/migrations/migrations.go:124-156 | accepts iff the two lists are equal as sets, ahead iff a recorded version is unknown, otherwise behind with exactly the missing versions in order; uninitialized iff there is no table |
| Migrations.EveryRunKeepsDb | internal/migrations/migrations.go:87-119 | under any sequence of interrupted runs by binaries with any lists no script commits twice, the record is exact, and the schema is the fold of the history |
| Migrations.CrashRestart | internal/migrations/migrations.go:82-121 | with an append-only list what ran is always a prefix of it; a completed run reaches the whole list, and another run has nothing to do |
| Migrations.InListOrderIff | internal/migrations/migrations.go:235-237 | after a completed run of a longer list the scripts have run in list order iff every added name sorts after every old one |
| Migrations.RanOutOfOrder | internal/migrations/migrations.go:235-237 | two completed runs after which the scripts have run as b.sql, a.sql, while the second list has a.sql first and the record equals it as a set |
| Migrations.AcceptedAfterApplyIff | internal/migrations/migrations.go:124-156 | after a completed run the database is accepted iff it was not ahead before |

## Left out

- HTTP, routing, JSON, authentication, OIDC, configuration loading, metrics, logging, the CLI and deployment files: plumbing over libraries, or one fact per branch.
- Payload, last_error, messages, hints, actor columns and row timestamps of services: nothing in the protocols reads them.
- Environment, version, commit and requester of a candidate, and the validation of a candidate input: carried through unchanged.
- Clock skew between database, workers and API servers: one clock is assumed.
- MVCC, deadlocks, isolation anomalies, and a statement that takes effect after its caller gave up: PostgreSQL internals and the driver are assumed to behave as stated above.
- Floating point NaN in an availability target: percentages are reals.
- The nanosecond to microsecond truncation of stored times: times are integers throughout.
- `GetLatestScorecard` reads service, snapshot and checks in three statements: only the snapshot and its checks, which never change, are proved consistent.
- `RegisterService`, `QueueServiceEvaluation` and `CreateDeploymentCandidate` are single actions of the machine and not methods: they add one guarded insert each.
- `Run`, the endless ticker loop of the worker: the machine lets every worker claim again at any time.
- PlaneStore.Store.SavePromotionDecision: stamps evaluated_at at the statement and not just before it; no theorem reads the column.
- Check row ids: which check-row insert of a save fails, if one does, is left to the schedule.
- Migrations.Database.Apply: the connection, the lock and the search path are calls that fail or not, with no effect on the schema.
