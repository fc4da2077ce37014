# The task lifecycle of GoTaskQueue, in Dafny

GoTaskQueue is a task queue: API creators, scheduler ticks and worker goroutines share a Postgres table of tasks, a Redis
stream with a consumer group, a Redis ZSET of delayed tasks, a dead-letter stream and a metrics registry. There is no
lock. What the program promises (at-least-once delivery, bounded retries, absorbing terminal states, two recovery paths)
rests on single-row conditional updates and on the order of writes, publishes and acks. This project models that protocol
and proves those promises for every interleaving, every handler and every fault.

## How it is built

**A step system.** `Protocol.dfy` gives the state of all stores, the clock, and for each actor a program counter with its
locals (a `Job`). Every action is one SQL statement, one Redis command, one metrics call or one local decision, so a
sequence of enabled actions (`Valid`, `RunFrom`) is an interleaving of the program. `Abort` ends a job anywhere: a crash, a
command that failed, or a reply that was lost after its effect. Two sets record which tasks had their next step cut off
(`lost`) or their dead-letter record (`unburied`) that way; they are history only, no guard reads them, and what they mean
for a task is read from the stores (`Stranded`). Each stream entry carries the attempt it was published for, which is
the row's retry_count at that moment; the program does not store it.

- `Safety`, `Delivery`, `DeadLetters`, `Guarantees`: invariants, kept by every action.
- `Theorems`: the promises, over every reachable state and run.
- `Histories`: what a run writes to one task, and the bounds that follow.
- `Executions`: no task ends without its handler's answer, and none starts without a claim. `Columns`: what each write leaves
  in the columns of a row, and what a submission stores.
- `Deadlines`: what holds of time, most of it with a single scheduler. `Staleness`: exactly when it holds.
- `Passes`: what a tick achieves among everybody else. `Progress`: what is taken up and let go of without a fault has been
  written, in whatever order things happen.
- `Conservation`: the metrics.
- `Scans`, `Draining`: runs without a cut-off step can be finished. `Origins`: where jobs and ZSET members come from.
  `Carriers`, `Stranded`, `Losses`: exactly which runs can be finished. `Burials`: exactly which dead letters can be written.
- `Rounds`: a bounded number of faultless rounds, in any order, finishes what can be finished. `Playing`: there is always a
  round. `Claims`: when repeated recoveries get to an entry behind others.
- `Scenarios`: short runs of a few actors, from which the existence proofs of `Staleness` and `Losses` are put together.
- `FanOut`: the worker's main loop, semaphore, wait group and goroutines. `Batches`: a batch is a run of single deliveries.

**Imperative classes.** `Store`, `Queues`, `Metrics` hold the stores, with the statements and commands as methods.
`Cluster` puts them together as one actor sees them: before each command the other actors may run and the command may
fail. `Service`, `Scheduler`, `Worker` are the program's own methods over it, and each is proved to be a run of the step
system in which the actor takes exactly the actions it owes. `Runner` is `Worker.Run` against `FanOut`. The interference
methods (`Pause`, `Await`, `Runner.Pause`, `Runner.Consume`) have contracts that allow any behaviour of the others, and
callers are verified against those contracts only; their bodies are one instance, the quiet one.
What a tick has done at its end is stated under interference (`PassDone`, `TickDone`); with the constant `calm` the
interference is switched off as well, and the loops get their exact final states. The small methods of the stores
(`Store.Get`, `ScheduledQueue.Remove`, `TaskStream.Ack`, `Registry.Observe`) are the primitives the rest is built on and state
the one effect they have.

The methods of the stores state their results in columns, scores and fields, and not only through the functions the step
system uses, so those functions are held to the statements of the program.

**Small parts.** `Statuses`, `Retry`, `Rows`, `Errors`, `Codec`.

## Where the code and its documents differ

The code is what is modelled.

- docs/mvp.md:104 and docs/mvp.md:163 let a worker take a task from retrying to running, and internal/task/status.go:15-36
  declares that edge and running to retrying and running to dead. No call site takes them: `HistoryIsWord` shows that every
  retry goes through failed, retrying and pending.
- docs/mvp.md:259 adds jitter to the backoff. internal/task/retry.go:28-37 has none and doubles from 1 to 32 seconds.

## What is false without a condition

- A retry can be dispatched before its next_retry_at, and a run failed before its timeout has passed, if and only if there
  are two schedulers that can find something (`EarlyRetryExactlyWithTwo`, `EarlyRecoveryExactlyWithTwo`): one acts on a scan
  that the other has made stale.
- Pending recovery is off when its idle time, batch or interval is not positive (internal/worker/worker.go:185-194). Then an
  entry nobody is at work on stays un-acked for ever (`LeftPendingForEver`), and a worker that dies before its claim strands
  its task although no owed step was cut off; with it on, only cut-off steps strand tasks
  (`OnlyLossesStrandExactlyWithRecovery`).
- Not every run can be finished. A ZADD or publish that failed and a crash in the middle of a finalization leave a row that
  nothing ever touches again (`FailedZAddStrands`, `FailedPublishStrands`, `AbandonedFailureStrands`). A reachable state can
  be finished if and only if every row can go on (`DrainsExactlyIfAllCanGoOn`): a scheduled one has its ZSET member or its
  creator, a pending one a message of any attempt that can still be handed out or an actor that publishes or holds one, a failed one the actor
  between its `MarkFailed` and its `CompleteFailure`. A row that cannot go on never does (`StrandedForEver`).
- That a step was cut off is not enough to strand a task: a worker that died before its ack may have left a message that
  still brings the next attempt in (`LostCanGoOn`).
- A dead row can still get its dead letter if and only if an actor with a dead publisher owes it (`RecordedExactlyIfOwed`);
  a crash before the publish loses it in every configuration (`DeadLettersGetLost`).
- Entries of rows abandoned in the middle of a finalization are never acked (`UnackableForEver`) and come back to the front
  of every recovery. An entry behind such entries gets its turn if and only if they are fewer than the recoveries within one
  idle time can claim (`TurnComesExactly`).
- A published message is read back exactly when its task id and type are not empty (`RoundTrip`), and one message that
  cannot be decoded refuses its whole batch, which is pending and handled by nobody then (`DecodeAll`, `ReadAndSpawn`). The
  API refuses blank types (internal/httpserver/tasks.go:103-106), and the step system's creators do too.

## Model

| member | source | states |
|---|---|---|
| Theorems.NoTaskIsOrphaned | internal/worker/worker.go:221-278 | In every reachable state a non-terminal task whose next step was not cut off is in the ZSET, has an un-acked message of its current attempt, will be found by a scan, or has an actor that owes its next step |
| Delivery.StepNoOrphan | internal/scheduler/scheduler.go:124-238 | Every action of every actor keeps that, worker, scheduler and creator alike |
| Theorems.AckClosesTheAttempt | internal/worker/worker.go:231-275 | An acked message's attempt is over (terminal row or higher retry_count), so the message of a pending row's attempt is never acked, despite stale and duplicate deliveries |
| Delivery.StepAckCloses | internal/worker/worker.go:231-275 | Every action keeps "acked implies over" |
| Theorems.FinalizationIsExclusive | internal/task/store.go:483-560 | The actor between MarkFailed and CompleteFailure is alone, the row is failed with the retry_count it read, and its CompleteFailure matches and adds to that count |
| Theorems.NobodyElseFinalizes | internal/worker/worker.go:300-318 | No action of another actor changes the row or the job meanwhile |
| Safety.HeldFrozen | internal/task/store.go:483-560 | The conditional updates of all other actors miss a row that is being finalized |
| Safety.StepOneFinalizer | internal/task/store.go:483-517 | At most one actor per task comes past MarkFailed |
| Theorems.FailedIsFinalizedOnlyByItsHolder | internal/worker/worker.go:300-318 | A failed row can leave failed if and only if an actor is between its MarkFailed and its CompleteFailure |
| Stranded.StrandedForEver | internal/scheduler/scheduler.go:85-122 | A row that cannot go on (no ZSET member or creator, no un-acked message or bringer, no finalizer) is never written again, in any run |
| Stranded.StaysStranded | internal/worker/worker.go:221-278 | No action of anybody lets a stranded row go on again |
| Losses.FailedZAddStrands | internal/task/service.go:61-93 | In every configuration a run strands a scheduled row: the ZADD after the insert fails |
| Losses.FailedPublishStrands | internal/task/service.go:61-93 | In every configuration a run strands a pending row: the publish after the insert fails |
| Losses.AbandonedFailureStrands | internal/worker/worker.go:300-318 | In every configuration a run strands a failed row: the worker dies between MarkFailed and CompleteFailure |
| Losses.LostCanGoOn | internal/worker/worker.go:231-275 | A row whose publish was cut off may still go on, by an un-acked message of an earlier attempt |
| Losses.DeadWorkerStrands | internal/worker/worker.go:185-188 | Without pending recovery a worker that dies before its claim strands a row although no owed step was cut off |
| Losses.OnlyLossesStrandExactlyWithRecovery | internal/worker/worker.go:185-209 | Every row without a cut-off step can go on, in every reachable state, if and only if there is pending recovery |
| Losses.DeadLettersGetLost | internal/worker/worker.go:328-341 | In every configuration some run leaves a dead row whose dead letter can never be written |
| Theorems.DeadLettersAgreeForEver | internal/worker/worker.go:328-341 | A dead-letter record is the only one of its task, names a dead row with the same error and retry_count, and neither ever changes |
| Theorems.DeadRowsAreRecorded | internal/scheduler/scheduler.go:147-163 | With both dead publishers configured, every dead row has its record, an actor owing it, or a recorded fault |
| Theorems.DeathIsRecorded | internal/worker/worker.go:300-341 | The same for each owner by itself: a row that a worker (or scheduler) with a dead publisher turns dead has its record, an actor owing it, or a recorded fault ever after, whatever the other is configured with |
| DeadLetters.StepRecords | internal/worker/worker.go:315-341 | Every action keeps the agreement of records and rows, and that a record is owed at most once |
| DeadLetters.StepAllBuried | internal/scheduler/scheduler.go:135-163 | Every action keeps that dead rows are recorded or owed |
| DeadLetters.AssuredStays | internal/scheduler/scheduler.go:147-163 | A record that is written, owed or cut off stays so under every action, with any configuration |
| Burials.RecordedExactlyIfOwed | internal/worker/worker.go:328-341 | A dead row of a reachable state can still get its record if and only if it has it or an actor with a dead publisher owes it |
| Burials.UnrecordedForEver | internal/scheduler/scheduler.go:147-163 | Otherwise it never gets one, in any run |
| Theorems.ScansHideNothing | internal/task/store.go:232-236 | Which columns are set follows from the status, so the NOT NULL filters of the two scans hide no row: it is found from its instant on and not before |
| Safety.StepFrame | internal/task/store.go:440-560 | Rows take only the protocol's writes and keep their shape (finished_at, next_retry_at, worker_id, 0 <= retry_count <= max_retries); logs only grow |
| Safety.StepRooted | internal/task/store.go:440-560 | Every action keeps what all jobs, stream entries, ZSET members and ticks rely on |
| Theorems.ZSetScanIsExact | internal/queue/redis_scheduled.go:24-50 | In every reachable state a ZSET member whose run_at has come is due, and none is due a full second early |
| Theorems.OneMessageForEachAttempt | internal/scheduler/scheduler.go:210-238 | The stream holds at most one message for each task and attempt, and at most retry_count + 1 for a task |
| Delivery.StepOneMessage | internal/task/service.go:61-93 | Every action keeps that each attempt is published, or about to be, once |
| Histories.MessagesAreBounded | internal/scheduler/scheduler.go:210-238 | Counting form of the same bound |
| Guarantees.StepInv | internal/worker/worker.go:221-341 | All invariants together are kept by every action |
| Guarantees.RunKeepsTasks | internal/task/store.go:440-560 | Rows are never deleted and what a task was submitted with never changes |
| Guarantees.AckedIsOver | internal/worker/worker.go:247-278 | A message somebody held is acked later only if its attempt is over |
| Guarantees.StepKeys | migrations/000001_create_tasks.up.sql:27-29 | Idempotency keys stay unique |
| Services.OneTaskForEachKey | internal/task/store.go:57-120 | Over any run an idempotency key names one task |
| Histories.HistoryIsWord | README.md:139-146 | The writes to a task spell scheduled? (pending running failed retrying)^retry_count and then the attempt its status is part of |
| Histories.HistoryFollowsTable | internal/task/status.go:15-59 | Every write is an edge of the declared table, although MarkFailed and CompleteFailure bypass CanTransition |
| Histories.HistoryFacts | internal/task/retry.go:11-26 | The failed-to-retrying writes number retry_count <= max_retries, at most max_retries + 1 claims succeed, at most 4 * max_retries + 5 writes happen |
| Histories.WritesAreBounded | internal/task/store.go:440-560 | Each write lowers 4 * (max_retries - retry_count) + rank(status), so every run writes a task at most that often |
| Histories.TerminalRowsAreFrozen | internal/task/status.go:47-49 | A success or dead row never changes again, in any run |
| Executions.EndsAreAnswered | internal/worker/worker.go:254-318 | A row is success only if some handler run of that task answered so, and dead with retries left only if one answered with a non-retryable error |
| Stranded.DrainsExactlyIfAllCanGoOn | internal/scheduler/scheduler.go:85-107 | With pending recovery or without: from a reachable state the program's own actions can lead to all rows terminal, the ZSET empty and every message delivered (and acked, with recovery), whatever the handlers answer, if and only if every row can go on; given one scheduler and a positive batch size |
| Stranded.AllRescued | internal/worker/worker.go:196-278 | If every row can go on, a run brings each of them to somebody who attends to it, be it by a message of an attempt long over |
| Carriers.StaysOn | internal/worker/worker.go:221-278 | Without pending recovery no action but a fault takes from a row what carries it on |
| Stranded.LeftPendingForEver | internal/worker/worker.go:185-188 | Without pending recovery an entry nobody is at work on is never acked, in any run |
| Stranded.UnackableForEver | internal/worker/worker.go:236-278 | No message of a row abandoned while it was finalized is ever acked, in any run |
| Claims.ClaimedExactlyWithinBatch | internal/queue/redis_consumer.go:86-134 | A recovery claims an entry if and only if it is idle and fewer idle entries than a batch come before it |
| Claims.ClaimedInTime | internal/worker/worker.go:185-209 | Whatever others ack, claim and deliver, an entry that stays idle is claimed by one of the recoveries within an idle time, if these can claim more than the entries pending before it |
| Claims.TurnComesExactly | internal/worker/worker.go:185-209 | Behind entries that nobody acks, with k recoveries to an idle time, an entry is ever claimed if and only if these are fewer than k batches hold |
| Rounds.RoundsFinish | internal/worker/worker.go:113-163 | In any order of actions: after as many faultless rounds (each from rest to rest, with one tick late enough and every open message handed out) as row potentials and ZSET members add up to, every task is over, if every row could go on at the start |
| Rounds.RoundsDrain | internal/scheduler/scheduler.go:85-107 | One more round, and every message is delivered, and acked if there is pending recovery |
| Rounds.OneRound | internal/scheduler/scheduler.go:85-179 | Each round lowers that sum unless every task is over, and leaves every row able to go on |
| Playing.RoundExists | internal/scheduler/scheduler.go:85-107 | From every reachable state at rest there is such a round, with one scheduler |
| Draining.EveryRunCanBeDrained | internal/scheduler/scheduler.go:85-107 | In particular, with pending recovery, from every reachable state in which no step was cut off |
| Draining.Drains | internal/worker/worker.go:196-278 | The same by a lexicographic measure: row potential, then entries left, then work under way |
| Draining.ActorGoesOn | internal/worker/worker.go:221-341 | An actor with a job always has an action that lowers the measure |
| Draining.TickGoesOn | internal/scheduler/scheduler.go:85-179 | So has a scheduler in the middle of a tick |
| Origins.StepCreators | internal/task/service.go:61-93 | Every action keeps that a task being created has one creator, is in no ZSET yet, and still waits if it is delayed |
| Origins.StepMembers | internal/scheduler/scheduler.go:166-208 | Every action keeps that what a tick took from the ZSET is a member of it as long as its row is scheduled |
| Progress.HandlingMovesOn | internal/worker/worker.go:221-278 | In whatever order things happen: when a worker is done with a pending task's message, or a running task's recovered one, without a fault of its own, the row has been written |
| Progress.PassesMoveOn | internal/scheduler/scheduler.go:85-179 | So has every expired run, every due retry and every scheduled member that a settled scan found |
| Passes.TicksAchieve | internal/scheduler/scheduler.go:85-107 | Whatever everybody else does and whatever fails for them, a scheduler that meets no fault of its own has at the end of its tick made its three scans and settled what they found |
| Passes.PassesAchieve | internal/scheduler/scheduler.go:166-208 | The same for each scan and loop: an expired run is over, a member is dispatched and gone from the ZSET, a retry is dispatched, and what was dispatched is published or in the recorded hands of another |
| Passes.StepPledged | internal/scheduler/scheduler.go:166-238 | Every action keeps a scanned task on the tick's list, under the tick's hands, or dealt with |
| Passes.OpenedIsPublished | internal/scheduler/scheduler.go:210-238 | In every reachable state each attempt that was opened has its message in the stream, an actor owing it, or a recorded fault |
| Passes.SettledMemberIsSent | internal/scheduler/scheduler.go:181-208 | With a single scheduler: after a tick without a fault of its own, every member its scan found is no longer scheduled, out of the ZSET, and has its first message in the stream, unless that publish was cut off |
| Scans.ScanExists | internal/task/store.go:279-283 | ORDER BY with LIMIT has a result, empty only if nothing is due |
| Columns.DispatchedAsSubmitted | internal/scheduler/scheduler.go:166-208 | Over any run a delayed task is not dispatched a second or more before the instant it was submitted for, with any number of schedulers |
| Deadlines.DispatchedOnTime | internal/queue/redis_scheduled.go:24-57 | The same of the stored run_at, in every reachable state |
| Deadlines.RetriedOnTime | internal/scheduler/scheduler.go:85-107 | With one scheduler no retry is dispatched before its next_retry_at |
| Deadlines.RecoveredOnTime | internal/scheduler/scheduler.go:109-143 | With one scheduler timeout recovery never fails a run that has not exceeded its timeout |
| Deadlines.StepTimely | internal/task/store.go:279-283 | What the scheduler's scan saw stays good enough until it acts, whatever the workers do meanwhile |
| Deadlines.RunIsPaced | internal/task/retry.go:11-37 | Over any run with one scheduler the failure decisions of a task are spaced by its backoff delays, whoever takes them, but for the part of a microsecond the column drops |
| Deadlines.BackoffIsWaited | internal/worker/worker.go:308-318 | From the first to the n-th failure decision of a task at least its first n - 1 backoff delays pass, less under a microsecond each |
| Staleness.EarlyRetryExactlyWithTwo | internal/scheduler/scheduler.go:96-105 | Some run dispatches a retry before its next_retry_at if and only if there are two schedulers and a positive batch size |
| Staleness.EarlyRecoveryExactlyWithTwo | internal/scheduler/scheduler.go:109-143 | Some run fails a task before its timeout has passed if and only if there are two schedulers and a positive batch size |
| Conservation.MetricsAreConserved | internal/metrics/metrics.go:60-85 | started = succeeded + failed + in flight + cut off; retried + dead = failed + between the increments + cut off; rows and counters agree up to what is uncounted, cut off or done by the scheduler |
| Conservation.SucceededIsCovered | internal/worker/worker.go:254-259 | The success counter never exceeds the success rows |
| Conservation.RetriesAreCounted | internal/worker/worker.go:319-326 | If no actor is cut off, counted, scheduler-made and uncounted retries add up to the retry counts of all rows, and likewise for dead and success |
| Retry.BackoffDelay | internal/task/retry.go:28-37 | A delay lies between 1 and 32 seconds |
| Retry.BackoffIsMonotone | internal/task/retry.go:28-37 | Later retries never wait less |
| Retry.TotalBackoffClosedForm | internal/task/retry.go:28-37 | n retries wait 2^n - 1 seconds in all for n <= 6, then 32 more each |
| Retry.ChainOfRetries | internal/task/retry.go:11-26 | A chain of decisions, each fed with the last one's count, hands out exactly the terms of that series while the budget lasts, and then none |
| Statuses.TerminalIsAbsorbing | internal/task/status.go:15-59 | Terminal statuses are exactly those the table has no edge out of |
| Histories.TableAloneBoundsNothing | internal/task/status.go:22-35 | The declared table by itself allows histories of any length |
| Histories.TableIsTakenAndThree | internal/task/status.go:15-36 | The declared table is the edges the protocol's writes take, and three edges that nothing takes |
| Errors.NonRetryableAtAnyDepth | internal/worker/errors.go:43-46 | IsNonRetryable holds if and only if some chain of Unwrap steps reaches a NonRetryableError |
| Errors.WrappingKeepsClass | internal/worker/errors.go:5-46 | No wrapping, not even with Retryable, changes the class |
| Errors.WrappingPrefixesText | internal/worker/errors.go:5-27 | Markers do not show in an error's text; messages come before it, the outermost first |
| Errors.DurationTextReads | internal/worker/worker.go:294-296 | The timeout's text names hours, minutes and seconds that add up to it |
| Errors.Retryable | internal/worker/errors.go:29-34 | nil stays nil, and neither text nor class change |
| Errors.NonRetryable | internal/worker/errors.go:36-41 | nil stays nil, and any other error becomes non-retryable with its text unchanged |
| Errors.DeadWithRetriesLeft | internal/worker/worker.go:284-318 | A failed run with retries left goes to dead if and only if its error wraps a NonRetryableError and the deadline had not passed; it then keeps its retry_count |
| FanOut.FanOutIsBounded | internal/worker/worker.go:113-183 | Handlers never exceed the limit, tokens are the running handlers and the slot held before a spawn, and after Run nothing runs and all slots are free |
| FanOut.UnspawnedIsUnacked | internal/worker/worker.go:155-162 | A message read but not spawned is not acked by this worker, and none is left out before cancellation |
| FanOut.RecoveriesAreSpaced | internal/worker/worker.go:185-194 | Two recoveries of pending messages are at least a recovery interval apart |
| FanOut.TurnRecovers | internal/worker/worker.go:185-194 | A turn that was not cancelled recovers if and only if recovery is on and it is the first, or an interval has passed since the latest recovery |
| FanOut.RecoveriesKeepUp | internal/worker/worker.go:129-139 | Over any run with recovery on, no turn lies an interval or more after the latest recovery recorded by then |
| FanOut.NoRecoveries | internal/worker/worker.go:185-188 | With a setting that is not positive there is no recovery, in any run |
| FanOut.RecoveriesAreClaims | internal/worker/worker.go:196-209 | Each recovery is one call of ClaimPending, and there are no other calls |
| FanOut.SlotIsThere | internal/worker/worker.go:165-172 | While fewer handlers run than may, the next message is not held up |
| FanOut.GoroutinesGetOut | internal/worker/worker.go:174-183 | A goroutine never blocks when it leaves, and the wait group's counter never goes below zero |
| FanOut.StepInv | internal/worker/worker.go:113-209 | Every action of the main loop, of a goroutine or from outside keeps the slot count, the wait group and the fate of messages consistent |
| Runners.Runner.Run | internal/worker/worker.go:113-163 | Against any goroutines, consumers and cancellation Run is a run of the fan-out system; after a start it returns with no handler running, all slots free and unspawned messages still pending |
| Runners.Runner.Turn | internal/worker/worker.go:121-162 | Stops only with the context done; otherwise it has polled at the given instant and spawned everything it was given, and pending messages were recovered less than an interval before, if recovery is on, and never if it is off |
| Runners.Runner.ShouldRecoverPending | internal/worker/worker.go:185-194 | True if and only if the three settings are positive and it is the first time or an interval has passed; records the instant exactly then |
| Runners.Runner.RecoverPending | internal/worker/worker.go:196-209 | Returns Recovered only with everything read so far spawned (unless the context is done), Canceled only with the context done; each result leaves the main loop where Run expects it |
| Runners.Runner.AcquireSlot | internal/worker/worker.go:165-172 | Returns with a slot, or with the context done |
| Runners.Runner.SpawnHandle | internal/worker/worker.go:174-183 | The head of the batch gets a goroutine in the wait group that owns the slot |
| Runners.Runner.SpawnAll | internal/worker/worker.go:155-161 | Every message of a batch is spawned, unless the context is done first |
| Runners.Runner.WaitForGroup | internal/worker/worker.go:119-119 | The deferred Wait returns once every goroutine has left |
| Workers.Worker.HandleMessage | internal/worker/worker.go:221-278 | Against any interference the goroutine takes all the actions it owes unless a command fails, runs the handler at most once, under the stored timeout; the run counts as success if and only if the handler returned nil before the deadline, and otherwise fails with the timeout or the handler's error, non-retryable exactly as that error is; nil is returned only with the message acked and its attempt over |
| Workers.Worker.Begin | internal/worker/worker.go:221-251 | Reads the task and acks it if terminal, else claims and counts it, or takes over a recovered running one |
| Workers.Worker.Start | internal/worker/worker.go:236-251 | Claims a pending task, unless a recovered message finds it running |
| Workers.Worker.CountStart | internal/worker/worker.go:236-246 | A start is counted with the time since the task was created |
| Clusters.Cluster.Count | internal/metrics/metrics.go:60-85 | The counter the job owes, observed with the interval it stands for: since creation for a start, since the start for an end |
| Clusters.Cluster.Call | internal/metrics/metrics.go:132-143 | The summary of the counter grows by the duration, a negative one counting as zero, and the other summary stays |
| Executions.StartsAreClaimed | internal/worker/worker.go:236-251 | A handler starts only on its worker's own claim of a pending task, or on a recovered message of a running one |
| Workers.Worker.Execute | internal/worker/worker.go:254-278 | The handler's answer decides between the success and the failure path |
| Workers.Worker.ExecuteWithTimeout | internal/worker/worker.go:284-298 | Before the deadline the error is the handler's own; past it, whatever the handler returned, even nil, it is a timeout error that names the timeout and is retryable |
| Workers.Worker.HandleExecutionFailure | internal/worker/worker.go:300-342 | MarkFailed, decision, CompleteFailure, counter and dead letter, in that order and none left out unless a command fails |
| Schedulers.Scheduler.Tick | internal/scheduler/scheduler.go:85-107 | Against any interference one tick reads one instant and takes the actions of its three scans and loops in order; if none of its own commands failed, everything its scans found is settled at its end |
| Schedulers.Scheduler.RecoverExpiredRunning | internal/scheduler/scheduler.go:109-122 | Against any interference every expired run its scan found is over at its end, if none of its own commands failed |
| Schedulers.Scheduler.RecoverRunningTask | internal/scheduler/scheduler.go:124-164 | Fails an expired run with the tick's instant, skipping one that ended meanwhile |
| Schedulers.Scheduler.ScheduleDueZSetTasks | internal/scheduler/scheduler.go:166-179 | Against any interference every scanned member is dispatched, published and gone from the ZSET, if none of its own commands failed; undisturbed it removes exactly those and nothing else changes |
| Schedulers.Scheduler.ScheduleZSetTask | internal/scheduler/scheduler.go:181-208 | Returns nil only with the member removed; a task still scheduled was dispatched first |
| Schedulers.Scheduler.ScheduleTask | internal/scheduler/scheduler.go:210-238 | Row first, then publish; a lost race is no error, another status is refused without a command |
| Schedulers.Scheduler.ScheduleDueRetries | internal/scheduler/scheduler.go:95-106 | Against any interference every scanned retry is dispatched and published, if none of its own commands failed; undisturbed nothing else changes |
| Schedulers.PassedNext | internal/scheduler/scheduler.go:171-176 | One dispatch extends the exact result of a pass by one task |
| Services.Service.Create | internal/task/service.go:52-94 | Against any interference: a new task was not there before, is stored with the submitted columns, its given trace id trimmed or else the generated one, scheduled if and only if run_at is after the insert, has its first message in the stream or is in the ZSET as long as it is scheduled, and was counted; for a taken key the stored row comes back and the creator does nothing |
| Services.TrimSpaceTrims | internal/task/service.go:53-59 | The stored trace id is the given one less exactly its surrounding space |
| Services.TraceIdIsGivenOrGenerated | internal/task/service.go:53-59 | A given trace id that is not blank is kept, trimmed; otherwise the generated one is taken |
| Columns.StaysAsSubmitted | internal/task/store.go:39-123 | Over any run a task is, and stays, what the submission that created it asked for |
| Columns.SomebodyCreated | internal/task/store.go:39-123 | Every row was created by one submission of the run |
| Columns.LastWrite | internal/task/store.go:440-560 | Every row is as some action of the run wrote it, column by column |
| Columns.RunningIsItsClaimers | internal/task/store.go:449-450 | A running task is in the name of the worker whose claim it was, and runs since that claim |
| Columns.EndedWhenItEnded | internal/task/store.go:452-452 | A task that is over ended at the instant of the write that ended it |
| Clusters.Cluster.Transition | internal/task/store.go:440-481 | Taken amid interference, the update is the one protocol action the caller's job owes |
| Clusters.Cluster.MarkFailed | internal/task/store.go:483-517 | Amid interference the caller comes to hold the task exactly when the update matched |
| Clusters.Cluster.CompleteFailure | internal/task/store.go:519-560 | Amid interference success returns the stored row, which has taken the decision the caller's job holds, and the caller goes on to its counter or its dead letter |
| Clusters.Cluster.Create | internal/task/store.go:39-123 | Amid interference the caller owes a publish or a ZADD exactly when the row is new |
| Clusters.Cluster.PublishTask | internal/queue/redis_stream.go:28-45 | The message that is appended carries its task's stored type and trace id, empty exactly when none is stored, and is published for the attempt the caller owes |
| Clusters.Cluster.PublishDead | internal/worker/worker.go:328-341 | The dead letter that is appended carries its task's stored type and trace id with the error and retry_count the caller's job holds; every letter and message in the streams does, in every state |
| Stores.Store.Create | internal/task/store.go:39-123 | Inserts a row with the submitted columns, run_at to the microsecond, scheduled if and only if run_at is after the insert, and every other column empty; or returns the stored row of a taken key and inserts nothing; check and primary key violations are errors without effect |
| Stores.Store.Transition | internal/task/store.go:440-481 | Succeeds if and only if the table allows the edge and the row is in the from status, and then changes exactly the columns of that target status: the claim sets worker_id and started_at, an end finished_at, pending clears next_retry_at; every other case leaves the table alone and says which |
| Stores.Store.MarkFailed | internal/task/store.go:483-517 | Succeeds if and only if the row is running, and writes status, error and updated_at only |
| Stores.Store.CompleteFailure | internal/task/store.go:519-560 | Succeeds if and only if the decision is retrying or dead and the row is failed; writes the decision's columns, finished_at only for dead |
| Stores.Store.DueRetrying | internal/task/store.go:211-256 | The due retries in order of next_retry_at and then created_at, at most limit; what is left out is due no earlier than any of them, and only if the limit is reached |
| Stores.Store.MetricsSnapshot | internal/task/store.go:305-322 | The backlog is the number of pending rows, of scheduled rows whose run_at has come and of retrying rows whose next_retry_at has come, together; the other gauge is the number of running rows |
| Theorems.BacklogCanBeFound | internal/task/store.go:305-322 | In every reachable state what the backlog counts is there to be taken up: by its message, its ZSET member, the retry scan, or the actor that owes its step |
| Stores.Store.ExpiredRunning | internal/task/store.go:258-303 | The expired runs in order of started_at and then created_at, at most limit; what is left out started no earlier, and only if the limit is reached |
| Stores.OrderByLimit | internal/task/store.go:279-283 | A selection loop meets the meaning of ORDER BY with LIMIT |
| Queues.TaskStream.PublishTask | internal/queue/redis_stream.go:28-45 | Appends one entry and touches no delivery state |
| Queues.TaskStream.ReadBatch | internal/queue/redis_consumer.go:55-84 | Delivers the next entries in order, each once, and makes them pending, also when one cannot be decoded and the whole batch is refused; a missing group is created and reads as no messages |
| Queues.TaskStream.ClaimPending | internal/queue/redis_consumer.go:86-134 | Takes over the first entries idle for long enough and resets their idle time, also when one cannot be decoded and the whole batch is refused |
| Queues.BlankTypesAreRefused | internal/queue/redis_consumer.go:155-175 | Of what the program publishes the consumer refuses exactly blank task types |
| Batches.BatchIsDelivered | internal/queue/redis_consumer.go:55-84 | What one XREADGROUP delivers is a run of single deliveries to as many fresh goroutines |
| Batches.BatchIsReclaimed | internal/queue/redis_consumer.go:86-134 | What one XCLAIM takes over is a run of single claims of the first idle entries |
| Batches.ReadAndSpawn | internal/worker/worker.go:139-161 | Reading a batch and spawning it is a run of the step system: what is returned is with its goroutines, what is refused stays pending and is with nobody |
| Batches.ClaimAndSpawn | internal/worker/worker.go:196-209 | The same for claimed batches |
| Queues.ScheduledQueue.DueTaskIDs | internal/queue/redis_scheduled.go:34-50 | The members whose score in seconds has come, lowest score first, at most limit, none for a limit of 0 or less; what is left out comes no earlier, and only if the limit is reached |
| Queues.ScheduledQueue.ScheduleTask | internal/queue/redis_scheduled.go:24-32 | The score is the second run_at lies in |
| Queues.DeadStream.PublishDead | internal/queue/redis_dead_stream.go:30-49 | Appends one record |
| Queues.DeadLettersAreTold | internal/queue/redis_dead_stream.go:30-49 | Two dead letters have the same fields on the wire if and only if they are the same, although empty trace ids and errors are not sent |
| Codec.DeadFieldsTellAll | internal/queue/redis_dead_stream.go:30-49 | The fields of a dead letter determine all it says |
| Metrics.Registry.TaskStarted | internal/metrics/metrics.go:64-67 | Counts and observes together, so observations and counters stay equal in number; the wait summary grows by the wait |
| Metrics.Registry.TaskFailed | internal/metrics/metrics.go:74-77 | Counts and observes one execution, so their numbers stay equal; the execution summary grows by its duration |
| Codec.RoundTrip | internal/queue/redis_consumer.go:155-175 | A published message is read back as it was if and only if its id and type are not empty, and refused otherwise |
| Codec.SameReadingsDecodeAlike | internal/queue/redis_consumer.go:177-194 | Bytes read like text and any other value like none |
| Codec.RefusedFor | internal/queue/redis_consumer.go:155-175 | An entry is refused for its task id if that is missing or empty, and only otherwise for its task type |
| Codec.EmptyIsNotSent | internal/queue/redis_stream.go:28-45 | Empty trace ids and errors are not sent |
| Codec.DecodeReadsThreeFields | internal/queue/redis_consumer.go:155-194 | Decoding depends on three fields only, and bytes read like strings |
| Codec.DecodedWasEncoded | internal/queue/redis_stream.go:28-45 | What can be decoded decodes the same after being published again |
| Codec.DecodeAll | internal/queue/redis_consumer.go:136-146 | A batch decodes if and only if all of its messages do; otherwise the first failure is returned |

## Left out

- Payloads, logging, trace id generation, Prometheus text output and the gauges' floating point.
- HTTP server, dashboard, process wiring, configuration, handlers and the handler registry: a handler is an oracle that
  answers anything, or runs past its deadline.
- Generated ids are naturals; a collision is the primary key violation of `Stores.Store.Create`.
- A nil metrics registry: the counters are always configured. The two dead publishers may be absent.
- `DueDispatchable`, `DueScheduled`, `CountByStatus`, `RecentByStatus`, `Recent`: no part of the protocol.
- Postgres isolation, Redis persistence and go-redis's own retries: a statement or command is one atomic step, and a reply
  that is lost is an `Abort` after it. A command repeated below the program is not modelled.
- Queues.TaskStream.ClaimPending: XPENDING followed by XCLAIM is one step, which checks the idle time as XCLAIM does: an entry
  that another consumer takes over between the two commands is not modelled.
- Timestamps the program passes are stored to the microsecond (`Rows.Stored`); those of the database's own now() have the
  program's resolution.
- The metrics registry is one for all actors, as when the program runs as one process.
- One clock serves the program and the database. It never goes back, but durations given to the registry may be negative.
- Draining.Drains: is possibility, not fairness; some continuation of the run gets there, in which every claim takes the
  entry it needs. What holds in any order is in `Rounds`, and which entries recoveries get to is in `Claims`.
- Rounds.RoundsDrain: a round hands out every open message, so it assumes that recoveries get to all of them.
- Entries written to the stream by others, malformed or with a trace id of their own, do not occur in the step system; `Codec`, `Queues` and `Batches` say
  what the consumer does.
- Runners.Runner.Consume: its batches are any batches; `Batches` says which ones the stream gives.
- Runners.Runner.Run: the context is done at the latest when the given readings of the clock are used up, because Dafny
  wants every loop to end; how many there are is arbitrary.
- Clusters.Cluster.Transition: a failed command has no effect in the body; its contract, which is all callers know, also
  allows an effect whose reply was lost.
