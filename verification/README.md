# Verification model of the CI server's lease, retry and queue protocol

The CI server keeps its jobs, attempts and workers in a database and its live
queue and delayed retries in two Redis sorted sets. Separate functions update
these stores: job creation, claims, renewals, completion reports, and four
reaper sweeps. None of them checks the whole picture. This project models all of
them in Dafny, with the pipeline executor that produces the reports, and proves
what they keep together over whole runs.

## How the model is built

- `Records`: the tables, the settings, and the effect of each server function on
  one job's rows. A job's rows are grouped by their foreign key, so an attempt is
  named by its job and its position among the job's rows.
- `Protocol`: the server as a state machine. Every `now()` or `time.time()` takes
  the next reading of a clock oracle `tick`; theorems hold for every oracle that
  never goes back. An `Op` is one action on the stores. A sweep is a clock
  reading followed by one `Op` per row its query selected, in whatever order the
  query returned them. `Run` executes any interleaving of actions, `Enabled` is
  the condition under which a sweep selects a row.
- `CiServer` (module `Server`): the functions themselves, with their loops, over
  mutable maps. Each is proved to perform exactly the actions `Protocol`
  prescribes, including the order and number of its clock readings.
- `JobLife`, `Database`, `Guarantees`: the invariant of the system of record and
  what follows over whole runs in which Redis may fail in any way. The action
  `RedisFault` replaces both sorted sets by anything at all: a crash between a
  commit and a Redis call, a flush, duplicates, stale and early entries are
  special cases.
- `History`, `Accounts`: the tables as accounts of what happened. Every column of
  every row, in every state a run from the empty server reaches, is told by the
  actions of that run and the clock readings they took.
- `Sweeps`, `Ticks`: sweeps, reaper ticks and lives of the server (requests and
  ticks in any order) are runs, so every theorem about runs applies to them.
- `Tidy`, `Automaton`, `Ordering`, `Fairness`: runs without Redis faults. A job's
  phases form an automaton (`Ready`, `Backoff`, `Held`, `Done`), which the four
  stores together implement; who is claimed before whom, by the moments at which
  the run enqueued them, and how long a queued job can wait.
- `Recovery`, `Diligence`: what ticks do for silent holders, dead workers and
  waiting retries, and what they never do to a diligent holder.
- `Executor`, `Verdicts`: the step loop under its deadline, with Docker as an
  oracle of outcomes, and the path from an execution to the job's verdict.
- `QueueScore`, `SortedSet`, `DelayedEntry`, `Options`: scores with rounding,
  sorted sets, the text of a delayed entry.

Redis faults, clients' tokens, ids of new rows, query orders, Docker and both
clocks are parameters. Job and worker ids that already exist are refused, as a
primary key refuses them; nothing is assumed about tokens.

## Where the code and its documentation disagree

The model follows the code.

- `reconcile_orphaned_jobs` is documented to re-enqueue jobs whose Redis entry was
  lost. It skips every job with a LEASED attempt, and a waiting job always has
  one, so it never acts (`NothingToReconcile`); a forgotten job waits for ever
  (`ForgottenForever`).
- The repository's README.md (lines 450-453) calls every timeout and Docker
  failure infrastructure. Outside the steps they are (`InfrastructureIff`). A step
  without `allow_failure` that is reached in time and fails is reported as
  permanent whatever made it fail (`PermanentIff`), so a timeout or Docker failure
  is misclassified exactly when it strikes inside such a step
  (`MisclassifiedIff`). Two concrete executions: `TimeoutInsideStepIsPermanent`,
  `DockerErrorInsideStepIsPermanent`.
- It also promises FIFO order within one priority (lines 455-457). Scores are
  floats, so jobs enqueued close together can tie and then sort by id: in
  `RoundingLosesFifo` two jobs are created a second apart and the later one is
  leased first. The order is kept exactly when the two scores differ or the
  earlier job's id sorts first (`FifoIff`); how far apart is far enough is
  `EqualPriorityFifoBeyondRounding`.
- It says that a stale worker cannot update a terminal attempt (lines 437-439).
  `/complete` stores the log tail before judging the report; when that changes
  the row is `RejectedReportWritesTail`, and a run in which it does is
  `LateTailReachable`.
- `mark_running` has no status guard. As the second half of one `/renew` it is
  harmless; separated from the first half it can undo a verdict
  (`MarkRunningSafeIff`, `SplitRenewalReachable`, `SplitRenewalUndoesVerdict`).

## Model

| member | source | states |
|---|---|---|
| Guarantees.JobsOnlyProgress | backend/app/scheduler/lease_manager.py:54-233 | Over any run, Redis faults included: no row disappears or is renumbered; a row once leased keeps its worker and token for ever; a terminal row keeps its outcome; a log only grows at its end; a final job keeps status and number of attempts |
| Guarantees.VerdictsAreFinal | backend/app/scheduler/lease_manager.py:113-183 | After SUCCEEDED, FAILED or ERRORED nothing about the job or its attempts ever changes except stored log text |
| Guarantees.ErroredSpentBudget | backend/app/scheduler/lease_manager.py:163-166 | An ERRORED job has exactly max(1, max_job_attempts) attempts, all INFRA_ERROR |
| Guarantees.OneOutcome | backend/app/scheduler/lease_manager.py:126-160 | Over any run the accepted reports and the reapings of one attempt together number at most one, and exactly one if the run is what ended it |
| Guarantees.StepSettles | backend/app/scheduler/lease_manager.py:130-137 | An action makes an attempt terminal if and only if it is an accepted report on it or the reaper striking it, and neither can hit a terminal attempt |
| Guarantees.ZombieReportIgnored | backend/app/scheduler/lease_manager.py:126-137 | A report on an attempt that is not its job's latest, with any token, leaves the database exactly as it was, unless a log tail comes with the attempt's own token: then exactly that tail is appended to its row |
| Guarantees.RejectedReportWritesTail | backend/app/api/attempts.py:59-75 | A rejected report leaves the database unchanged if and only if its token does not match the row or its log tail is empty |
| Guarantees.LateTailReachable | backend/app/api/attempts.py:59-75 | From the empty server: register, create, claim, an accepted report; a second report with the same token is rejected and its tail is appended to the terminal row |
| Guarantees.ClaimsAreBounded | backend/app/scheduler/lease_manager.py:54-90 | In any run, whatever happens to Redis, a job is claimed at most max(1, max_job_attempts) times |
| Guarantees.GrantsAreCounted | backend/app/scheduler/lease_manager.py:71-88 | The claims of a job over a run equal the growth of its leased rows: no attempt is leased twice |
| Guarantees.NothingToReconcile | backend/app/scheduler/lease_manager.py:285-308 | In every reachable state the reconciliation sweep selects no job |
| Guarantees.OrphanOpsIff | backend/app/scheduler/lease_manager.py:285-308 | In any database whatever, the sweep selects exactly the QUEUED jobs none of whose attempts is LEASED or RUNNING |
| Guarantees.ReconcileDoesNothing | backend/app/scheduler/lease_manager.py:271-308 | Hence the sweep changes nothing, not even the clock position |
| Guarantees.ForgottenForever | backend/app/scheduler/lease_manager.py:271-308 | A waiting job that is in neither Redis set stays QUEUED, in neither set, with every column of every attempt but the log unchanged, through every run that does not restore an entry for it |
| Guarantees.MarkRunningSafeIff | backend/app/scheduler/lease_manager.py:104-110 | mark_running on its own keeps the database invariant if and only if it is not aimed at a terminal attempt with a matching token |
| Guarantees.SplitRenewalReachable | backend/app/api/attempts.py:50-56 | A run from the empty server in which the second half of a renewal arrives after the success report and breaks the invariant |
| Guarantees.SplitRenewalUndoesVerdict | backend/app/scheduler/lease_manager.py:104-110 | After that, the reaper sends a finished job with budget left back to the queue with a new attempt |
| Guarantees.ReapKeepsFailedStep | backend/app/scheduler/lease_manager.py:226 | The reaper stores lease_expired exactly where no failed step, or an empty one, is stored |
| JobLife.MoveKeepsInv | backend/app/scheduler/lease_manager.py:71-183 | Every move keeps: attempts numbered 1..n within the budget, all but the last INFRA_ERROR, outcome columns explaining each status, job status a function of the last attempt |
| JobLife.ActiveIsLast | backend/app/scheduler/lease_manager.py:69-84 | Only the last attempt can be LEASED or RUNNING, and one that was handed out belongs to a RUNNING job |
| Database.StepMoves | backend/app/scheduler/lease_manager.py:54-233 | Every action of the server moves every job by at most one move of its life |
| Database.StepKeepsDb | backend/app/scheduler/job_manager.py:12-43 | Every action, a Redis fault included, keeps the database invariant |
| Database.RunKeepsDb | backend/app/redis_client.py:9-11 | So does every run: Redis is out of the durability path |
| Ticks.RedisIsDisposable | backend/app/redis_client.py:9-11 | From the empty server on, over every life with arbitrary Redis faults, the database invariant holds |
| History.StepWrites | backend/app/scheduler/lease_manager.py:71-260 | What each action writes to each row: the columns of one happening (inserted, handed out, prolonged, cut off, log text, report, timed out) with the readings taken for it, guarded by token, status and expiry, and no other column of any row |
| History.RowsTellHistory | backend/app/scheduler/lease_manager.py:44-233 | After any run from the empty server, Redis faults included, a row exists exactly if it has a history, and each column is what the last happening to write it wrote; the log is all appended texts in order |
| Accounts.ClaimWrites | backend/app/scheduler/lease_manager.py:80-88 | A claim that pops a QUEUED job sets worker, LEASED, token, expiry = first reading + lease and started = second reading on its last row, makes the job RUNNING, and leaves every other row alone |
| Accounts.ClaimOfBareJob | backend/app/scheduler/lease_manager.py:77-78 | A claimed job without any attempt, which no run produces, is given attempt 1 and leased |
| Accounts.GrantIsKept | backend/app/scheduler/lease_manager.py:80-88 | An attempt with an owner still bears worker, token and second clock reading of a claim of the run that handed it out |
| Accounts.ReportWrites | backend/app/scheduler/lease_manager.py:126-160 | An accepted report replaces status, finished, exit code, failed step and permanence of its row by its own and no other column of any row; a rejected one changes no row and no set |
| Accounts.ReportIsKept | backend/app/scheduler/lease_manager.py:126-160 | An attempt with an exit code carries the five columns of the one report that the run accepted on it |
| Accounts.WorkersTellHistory | backend/app/api/workers.py:13-44 | After any run a worker exists exactly if registered; it is DEAD if the last of its registration, heartbeats and declarations of death is the latter and ONLINE otherwise; its heartbeat column is the reading of its last registration or heartbeat |
| Accounts.ClaimPopsIff | backend/app/scheduler/lease_manager.py:58-63 | A claim takes the least entry off the live queue exactly if there is one and the worker is registered and not last declared dead; otherwise it changes nothing |
| Accounts.JobsTellHistory | backend/app/scheduler/job_manager.py:22-40 | After any run a job exists exactly if some creation with a valid pipeline and a 32-bit priority named it, and it has the priority of the first such creation |
| Accounts.RefusedCreate | backend/app/scheduler/job_manager.py:22-24 | A creation with an invalid pipeline, a priority out of range or a used id leaves the whole server as it was |
| Accounts.AcceptedCreate | backend/app/scheduler/job_manager.py:26-42 | Any other stores a QUEUED job with one blank LEASED attempt and enqueues it, in exact arithmetic with score reading - priority * 10^13 |
| Accounts.StepReadings | backend/app/scheduler/lease_manager.py:33-34 | How many times each action reads the clock |
| Ticks.DeadSweep | backend/app/scheduler/lease_manager.py:236-268 | The dead-worker sweep marks exactly the stale workers and cuts exactly the leases they hold |
| Ticks.SweepEnabled | backend/app/scheduler/lease_manager.py:193-308 | Each row a sweep selected is still selected when its turn comes, so a sweep is a run of enabled actions and keeps the invariant |
| Ticks.LifeIsRun | backend/app/scheduler/scheduler.py:32-54 | Every sequence of requests and reaper ticks is a run of enabled actions |
| Ticks.TickReconcilesIff | backend/app/scheduler/scheduler.py:32-38 | Reconciliation runs exactly if promotion met no malformed entry: an orphaned job missing from the live queue after promotion is put there exactly in that case |
| Tidy.StepKeepsTidy | backend/app/scheduler/lease_manager.py:61-205 | Without Redis faults every action keeps each waiting job in exactly one set, any other job in neither, delayed scores equal to the retry time, and retries paced |
| Tidy.WorkIsConserved | backend/app/scheduler/job_manager.py:30-42 | After every fault-free run a job is QUEUED exactly when its id is in exactly one of live queue and delayed set, and is otherwise in neither |
| Tidy.ClaimNeverStale | backend/app/scheduler/lease_manager.py:65-67 | In fault-free runs a claim never pops a stale entry |
| Tidy.BackoffIsHonoured | backend/app/scheduler/lease_manager.py:177-205 | In fault-free runs attempt n+1 never starts before attempt n finished plus backoff_seconds(n) |
| Accounts.BackoffBetweenActions | backend/app/scheduler/lease_manager.py:177-205 | In fault-free runs the claim that started attempt n+1 took its reading no earlier than the reading with which a report or the reaper had ended attempt n, plus backoff_seconds(n) |
| Tidy.StepRedis | backend/app/redis_client.py:28-42 | What each action does to the two sorted sets, stale claims and reconciliation included |
| Records.BackoffDoublesUpToCap | backend/app/scheduler/lease_manager.py:37-40 | The backoff is the base for attempt 1, doubles with each attempt, never decreases and is capped |
| Automaton.StepSimulates | backend/app/scheduler/lease_manager.py:54-308 | Every action of a fault-free run takes each job along one transition of the phase automaton, or leaves its phase alone |
| Automaton.RunRefinesAutomaton | backend/app/scheduler/lease_manager.py:54-308 | Every fault-free run carries each job along a walk of the automaton, with the readings that decided each transition |
| Automaton.FailureSimulates | backend/app/scheduler/lease_manager.py:163-190 | A reaped or infra-reported attempt n leads to Backoff(n+1) at its reading plus the backoff, or to ERRORED if the budget is spent |
| Automaton.NextDescends | backend/app/scheduler/lease_manager.py:163-183 | Promotion, claim, completion and reaping strictly decrease (attempts left, phase); renewal and lease cuts leave it alone |
| Automaton.JobsTerminate | backend/app/scheduler/lease_manager.py:54-233 | Over any fault-free run a job advances at most 3 * max(1, max_job_attempts) + 1 times |
| Ordering.ClaimTakesHighestPriority | backend/app/redis_client.py:28-42 | In every fault-free reachable state the job a claim pops has a priority no job in the live queue exceeds, with every score rounded to a float |
| Ordering.ClaimIsFifo | backend/app/redis_client.py:28-42 | In every fault-free run from the empty server, no queued job of the popped job's priority was enqueued at an earlier clock reading, unless its rounded score ties with the popped job's and its id sorts after it; in exact arithmetic none was at all |
| Ordering.NoOvertaking | backend/app/redis_client.py:28-42 | Over whole fault-free runs, of two queued jobs the one ahead by score, then id, is claimed first, whatever is enqueued, promoted or retried meanwhile |
| Ordering.PriorityNeverOvertaken | backend/app/redis_client.py:28-32 | So a queued job of higher priority is claimed before one of lower priority, rounding included |
| Ordering.EarlierNeverOvertaken | backend/app/redis_client.py:28-32 | In exact arithmetic, of two queued jobs of one priority the one that the run enqueued at the earlier reading is claimed first in every continuation |
| Ordering.StepKeepsScored | backend/app/scheduler/lease_manager.py:193-205 | Every queue entry is scored with its own job's priority at one of the clock readings already taken; retries rejoin with their job's priority |
| Ordering.ScoredWhenEnqueued | backend/app/redis_client.py:28-32 | After every fault-free run the score of a queued job is that of its priority and of the reading taken by the last action of the run that enqueued it, its creation or its promotion |
| Ordering.QueueOrigin | backend/app/redis_client.py:28-32 | A queue entry after an action was there before with the same score, or the action has just enqueued the job, which was not in the queue |
| Fairness.OvertakenIff | backend/app/redis_client.py:35-42 | Of two queued jobs the first is claimed first in every fault-free continuation if and only if it is ahead by score, then id; otherwise a continuation of claims alone takes the second first |
| Fairness.FifoIff | backend/app/redis_client.py:28-42 | Of two queued jobs of one priority the one enqueued earlier is never overtaken if and only if the scores rounded at their two enqueue readings differ or its id sorts first |
| Fairness.RoundingLosesFifo | backend/app/redis_client.py:28-32 | A concrete run from the empty server: two jobs of priority 1000 created one second apart, and the claim leases the later one |
| Fairness.LeasedWithinQueue | backend/app/scheduler/lease_manager.py:54-90 | A job in the live queue is leased by one of the next as many claims of ONLINE workers as the queue has entries, if nothing is put ahead of it meanwhile |
| QueueScore.HigherPriorityFirst | backend/app/redis_client.py:28-32 | Rounding never lets a lower priority score before a higher one, for 32-bit priorities and timestamps below 10^12 |
| QueueScore.EqualPriorityWeaklyFifo | backend/app/redis_client.py:28-32 | Within one priority rounded scores never invert the order of enqueueing |
| QueueScore.EqualPriorityFifoBeyondRounding | backend/app/redis_client.py:28-32 | They keep it strictly for moments further apart than the two scores' rounding errors together |
| QueueScore.ScoresTieWithinASecond | backend/app/redis_client.py:28-32 | At priority 1000, of any three moments half a second apart two adjacent ones get the same float score |
| QueueScore.NearestEvenIsRounding | backend/app/redis_client.py:28-32 | The rounding assumptions are satisfiable by a rounding that is not the identity |
| QueueScore.ExactScoreIsLexicographic | backend/app/redis_client.py:28-32 | In exact arithmetic scores order exactly by priority descending, then time |
| QueueScore.ScoreRoundsFirst | backend/app/redis_client.py:31 | priority * 10^13 is rounded before the time is added: priorities whose products round alike score alike |
| Recovery.TickBuriesTheDead | backend/app/scheduler/lease_manager.py:208-268 | After a tick no DEAD worker holds an active attempt if and only if no lease was cut or the clock advanced between the first two sweeps |
| Recovery.NoDeadHolderEver | backend/app/api/workers.py:32-44 | Over every life whose ticks advance the clock there, with workers dying and coming back, no DEAD worker ever holds a LEASED or RUNNING attempt between events |
| Recovery.TickRecovers | backend/app/scheduler/scheduler.py:32-38 | One tick later than since + min(lease, dead_after), whose clock moves on between its first two sweeps, makes a silent holder's attempt INFRA_ERROR and its job QUEUED with one more attempt, or ERRORED; a holder that is not ONLINE but has a running lease is given that lease |
| Recovery.BoundedRecovery | backend/app/scheduler/lease_manager.py:163-268 | The same at the end of any life in which the holder stays silent, whatever else the server does, however its clock stood still in earlier ticks and however Redis fails |
| Recovery.ExpirySweep | backend/app/scheduler/lease_manager.py:208-233 | The expiry sweep reaps exactly the rows expired by its first reading and leaves all others alone |
| Recovery.BackoffRejoins | backend/app/scheduler/lease_manager.py:193-205 | In a fault-free life from the empty server a job in backoff stays in the delayed set through every request and every earlier tick, and the first tick whose promotion reads the clock at or after its ready time moves it to the live queue |
| Diligence.DiligentNeverReaped | backend/app/scheduler/lease_manager.py:84-101 | Over any interleaving of single actions a holder whose renewals and heartbeats keep pace keeps its row, token and worker, which stays ONLINE, with an expiry that follows its last renewal |
| Diligence.DiligentHolderKeepsLease | backend/app/worker/worker.py:118-123 | The same over lives of the server with whole reaper ticks |
| Executor.ExecOkIff | backend/app/worker/docker_executor.py:154-197 | An exec succeeds if and only if its stream ended while the clock was before the deadline and the daemon reported code 0; a failure never carries code 0 and its code is that of its cause: deadline, creation, inspection, missing code, command; it reads the clock once per get |
| Executor.EvaluationExplained | backend/app/worker/docker_executor.py:97-143 | Recorded steps are an in-order prefix of the pipeline, each begun by the deadline with its own exec's code; the run ended by success, by a step not allowed to fail, or by the deadline between steps |
| Executor.SuccessIff | backend/app/worker/docker_executor.py:117-143 | Exit code 0 if and only if checkout succeeded and every step was due in time and exited 0 or was allowed to fail |
| Executor.PermanentIff | backend/app/worker/docker_executor.py:130-140 | A failure is permanent if and only if some step was reached in time, failed for any cause and was not allowed to; that step is the one reported, with the code of its cause |
| Executor.InfrastructureIff | backend/app/worker/docker_executor.py:62-126 | A failure is classified as infrastructure if and only if image, container or checkout failed or some step was due after the deadline |
| Executor.InfraErrorIff | backend/app/worker/docker_executor.py:62-126 | Which infrastructure error is reported, told by the inputs: pull, start, checkout, lateness or none, each if and only if it occurred, with its exit code and failed step |
| Executor.MisclassifiedIff | backend/app/worker/docker_executor.py:177-197 | A permanent failure is not the command's own if and only if the deadline or Docker struck inside a step without allow_failure that was reached in time |
| Executor.AllowedFailureGoesOn | backend/app/worker/docker_executor.py:131-134 | Any failure inside a step with allow_failure lets the loop go on: whatever ends the run comes after it |
| Executor.OneEnding | backend/app/worker/docker_executor.py:117-143 | Success, lateness and a fatal step exclude one another, and a fatal step has one index and one cause |
| Executor.TimeoutInsideStepIsPermanent | backend/app/worker/docker_executor.py:177-181 | A concrete execution: a command that never ends is stopped by the deadline inside a step and reported permanent with exit code 124 |
| Executor.DockerErrorInsideStepIsPermanent | backend/app/worker/docker_executor.py:195-197 | A concrete execution: exec creation raises inside a step and is reported permanent with exit code 1 |
| Verdicts.VerdictOfExecution | backend/app/worker/worker.py:128-146 | When the report of an execution is accepted the job is SUCCEEDED iff every step passed, FAILED iff the configuration was invalid or a step failed that was not allowed to, else QUEUED or ERRORED by its budget |
| Verdicts.ReportExplained | backend/app/worker/worker.py:94-146 | Exit code, permanence and failed step of the worker's report, told by the inputs: parse failure, failed set-up, checkout cause, all passed, late for step n, fatal step n with its cause |
| DelayedEntry.EntryRoundTrip | backend/app/scheduler/lease_manager.py:190-202 | rpartition and int recover exactly the printed pair, for ids with colons and negative priorities |
| DelayedEntry.EntryInjective | backend/app/scheduler/lease_manager.py:190 | Different (job, priority) pairs print differently |
| DelayedEntry.PrintedIff | backend/app/scheduler/lease_manager.py:190 | The printed priority is the one text without plus sign or leading zero that reads back as it |
| DelayedEntry.ParseNatIff | backend/app/scheduler/lease_manager.py:202 | int accepts exactly digits with single underscores between them, after blanks and sign |
| DelayedEntry.StripIff | backend/app/scheduler/lease_manager.py:202 | Surrounding blanks, and only those, are ignored |
| SortedSet.FindMin | backend/app/redis_client.py:35-42 | Finds the member that zpopmin takes: least score, ties by text |
| SortedSet.MinUnique | backend/app/redis_client.py:35-42 | That member is determined by the set alone |
| SortedSet.LexLeqIff | backend/app/redis_client.py:35-42 | Among equal scores a prefix comes first, else the first differing character decides |
| SortedSet.RangeByScore | backend/app/scheduler/lease_manager.py:198 | Lists exactly the members scored within the bounds, in the set's order |
| Server.CiServer.RegisterWorker | backend/app/api/workers.py:13-24 | A new worker is ONLINE with a heartbeat at the time of registration (`WorkersTellHistory`) |
| Server.CiServer.HeartbeatFrom | backend/app/api/workers.py:32-44 | Stamps the heartbeat and brings a DEAD worker back ONLINE (`WorkersTellHistory`); unknown workers change nothing |
| Server.CiServer.ClaimJob | backend/app/api/workers.py:47-68 | 404, 204 or a lease: a lease exactly when an ONLINE worker pops a QUEUED job; the new state is the prescribed one (`ClaimWrites`) and the caller holds the lease it is told of |
| Server.CiServer.DequeueOne | backend/app/redis_client.py:35-42 | Removes and returns the least member, or None on an empty queue |
| Server.CiServer.RenewOnly | backend/app/scheduler/lease_manager.py:93-101 | Extends the lease exactly when token and status match, expired or not |
| Server.CiServer.MarkRunningOnly | backend/app/scheduler/lease_manager.py:104-110 | Sets RUNNING exactly when the token matches |
| Server.CiServer.RenewRequest | backend/app/api/attempts.py:50-56 | Both halves, the second only after the first |
| Server.CiServer.AppendLogChunk | backend/app/api/attempts.py:23-36 | Appends exactly when the caller holds the lease |
| Server.CiServer.MaybeRetry | backend/app/scheduler/lease_manager.py:163-183 | Inserts the next attempt and a delayed entry, or gives the job up, by the budget |
| Server.CiServer.Finalize | backend/app/scheduler/lease_manager.py:113-160 | complete_attempt: accepts exactly when every guard passes, stores the report (`ReportWrites`) and says whether the job was requeued |
| Server.CiServer.Complete | backend/app/api/attempts.py:59-91 | The handler: log tail first, then the report |
| Server.CiServer.CreateAndEnqueueJob | backend/app/scheduler/job_manager.py:12-43 | Creates the job with its first attempt and enqueues it (`AcceptedCreate`), or refuses and changes nothing (`RefusedCreate`) |
| Server.CiServer.PromoteDelayed | backend/app/scheduler/lease_manager.py:193-205 | Promotes the due entries in order up to the first malformed one, at which it raises |
| Server.CiServer.ReapExpired | backend/app/scheduler/lease_manager.py:208-233 | Reaps every expired lease in the order queried and counts them |
| Server.CiServer.ReapDead | backend/app/scheduler/lease_manager.py:236-268 | Marks stale workers DEAD and cuts the leases of each, in the order queried |
| Server.CiServer.BuryWorker | backend/app/scheduler/lease_manager.py:251-265 | One iteration of that loop; owners and statuses of rows stay as they are |
| Server.CiServer.ReconcileOrphaned | backend/app/scheduler/lease_manager.py:271-308 | Re-enqueues exactly the QUEUED jobs without an active attempt and counts them |
| Server.CiServer.RunReaperOnce | backend/app/scheduler/scheduler.py:32-54 | The four sweeps in order; an exception in promotion skips reconciliation |
| Executor.DockerExecutor.RunOne | backend/app/worker/docker_executor.py:154-197 | The exec loop computes the recursive evaluation of the exec |
| Executor.DockerExecutor.RunStep | backend/app/worker/docker_executor.py:118-129 | One iteration of the step loop: start reading, deadline check, exec, timed result |
| Executor.DockerExecutor.RunEach | backend/app/worker/docker_executor.py:117-143 | The step loop computes the recursive evaluation of the steps |
| Executor.DockerExecutor.RunPipeline | backend/app/worker/docker_executor.py:54-73 | run_pipeline computes the evaluation that the theorems explain, the answers before the step loop included (`InfraErrorIff`) |

## Left out

- FastAPI routing, Pydantic, SQLAlchemy sessions, WebSockets and Redis pub/sub: plumbing around the functions modelled here; only the guards of the handlers are kept.
- Races inside one server function: the repository has no row locks, so each function is taken to be atomic. Theorems about runs also cover sweeps cut into single actions with requests in between, but only sweeps that check again, at each row, the condition their query selected it by (`Enabled`); the code queries once and then writes, so a renewal or report that slips in between would be overwritten. Because the two halves of a renewal are one action, `MarkRunningSafeIff` says what their separation would cost.
- Crash points inside a function: a crash between a commit and a Redis call is a `RedisFault`; a rollback after a Redis call has been made leaves the database of before and is a `RedisFault` too.
- Columns nobody decides on: names, capacity, metadata, branches, created_at, updated_at and registered_at, with the clock readings these take. Worker capacity is never enforced by the code.
- Docker, git, image pulls, threads and HTTP: an oracle of outcomes; log lines of the executor, its `finally` clean-up and the worker's polling loops are not modelled.
- YAML parsing: the worker starts from a parsed pipeline or a parse failure, job creation from a flag.
- The AI subsystem, webhooks, project CRUD, the frontend and deployment files.
- CANCELLED and OFFLINE: the states exist in the model, no modelled function sets them, as in the source.
- Rounding of timestamps and of the delayed set's scores: times are reals; only the live queue's scores are rounded.
- Server.CiServer.PromoteDelayed: `int` is modelled on ASCII text of any length; digits and blanks of other scripts, and Python's limit on the number of digits, are not. The server never prints either.
- Recovery.BackoffRejoins: takes the two backoff settings to be non-negative; a negative ready time is below the range that promotion queries.
