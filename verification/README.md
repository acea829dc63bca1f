# strego: a verified model of the task lifecycle

strego is a task queue on Redis Streams: clients enqueue or schedule tasks, a scheduler promotes what is due,
workers receive messages through a consumer group, failed tasks wait in a retry set and end in a dead letter queue,
and a dashboard and an optional PostgreSQL store sit beside it. This project models that protocol in Dafny and proves
what it keeps under every interleaving of any number of clients, schedulers and workers.

`dafny verify dfyconfig.toml` checks everything.

## How it is built

| files | content |
|---|---|
| `Tasks`, `Streams`, `Keys` | the task record; streams with one consumer group, sorted sets and counters as values; each broker operation as a function on all keys (`Db`) |
| `Lifecycle` | the state machine: keys, messages in the memory of workers, and a record of what happened. Its steps are enqueue, junk publishes, single promotions, first delivery, redelivery by claim or own recovery, the idempotency gate, handler success and failure, acknowledgement, crash, key expiry, and the lookup and the pipeline of a redrive |
| `Places`, `Affinity`, `NoLoss`, `States`, `FirstAttempt`, `Uniqueness` | theorems for unrestricted interleavings: duplicate task IDs, and claims that take messages from live owners |
| `Ownership`, `Conservation`, `Idempotency`, `Stages`, `Progress` | theorems for runs in which every task ID is enqueued once, a message is only taken over when nobody alive holds it, and a redrive finds its message still there (`OwnedEnabled`) |
| `QueueMeaning` | the single numbers of GetQueueInfo, as numbers of tasks in the stages of `Stages` |
| `QueueReads`, `Redrives` | what remains of them when others act between the reads of GetQueueInfo, and when a redrive is stale |
| `Promotion`, `ScriptRuns`, `Schedules` | the two Lua scripts: order, batching, counting, timing, and that a script run is a run of the lifecycle; when scheduled tasks enter their streams, over whole runs |
| `Redis`, `RedisBroker`, `Workers`, `Clients` | the same operations in imperative form: a Redis server object whose commands change keys in place, the broker on top of it, the worker with its recovery loops, the client and the dashboard. Each method is tied to the functions of `Keys` |
| `Turns`, `Interference` | the specification of the worker's loops: the turn of one message, and the trace of events of a whole loop; what others may do meanwhile |
| `ReadRuns`, `WorkerRuns`, `TraceRuns` | reads, claims, the processing of a message and the traces of whole loops, with whatever others do in between, taken apart into lifecycle steps, also under the rules of `Ownership`, so that the theorems of both kinds apply to them |
| `DeadLetters` | listing and redriving the dead letter queue |
| `Backoff`, `ConsumeLoop` | delays in wrapping 64-bit arithmetic; the error counter of the consume loop |
| `Sets`, `Wrappers` | stock definitions |
| `Filters`, `StoreRows`, `Pagination` | the store: the query compiler, creates and updates that race, and the pages of the task list |

The step functions of the lifecycle are written once in `Keys`. Proofs about all steps at once go through `Places`,
which reduces a step to at most one task that leaves a place and one that comes to a place.

## Assumptions

- A pipeline is one atomic step. The source uses plain pipelines; `RetryFromDLQ` depends on it, because it adds the
  message before it deletes the processed key. Its lookup is a step of its own.
- A client that lives sets its unique key and publishes in one step of the lifecycle; one that dies in between is the
  step `Abandon`. The method `Clients.TaskClient.Enqueue` has others act between the two commands.
- Broker writes succeed. A write that fails is covered as a crash of the worker at that point; an error reply to SET NX
  is modelled, with the key set or not.
- The methods of `Workers` share Redis with others, who act before every command that reads messages, before every
  message and while its handler runs. The recovery of a consumer ends provided that nothing is delivered to that
  consumer meanwhile, by nobody's claim either, not even that of its own background claimer; the claim loop ends
  provided that nothing new is delivered to the group. `Interference.StepMayFollow` shows that every other step of the
  lifecycle is allowed.
- The methods of `RedisBroker` and `Clients` that send several commands let others act between them, too. What any
  contract says under `alone` holds when nobody else acts.
- There is one consumer group. Message IDs are natural numbers that are never reused.
- A decoded task equals the encoded one; the scripts change nothing but the state. The byte order of encoded members,
  which decides between equal scores, is an arbitrary total order (`less`).
- Handlers, the clock, the network and the choice of stale messages are nondeterministic. A panic or a timeout of a
  handler is a failure. A ghost log records each run of a handler with its task and its answer. Expiry of a processed
  or unique key can happen at any time.
- A task comes to `Enqueue` with metadata and with a failure count below its limit, as the constructors of the source
  make it.
- A factor above 2^62 in the backoff does not fit into 64 bits; its conversion is the parameter `huge`.
- XAUTOCLAIM drops pending entries whose message is gone, as Redis 7 does.

## Where the code differs from what is written about it

- The processed key is set before the handler runs. A crash between the two makes the takeover skip the task, so
  delivery is at least once, but a completed run is not. `FirstAttempt.TakeoverRunsIff` states exactly when the attempt
  is repeated, `FirstAttempt.LossIsReachable` how it is lost, and `NoLoss.NothingIsLost` carries the exception.
- A task type without a handler goes through the ordinary retries, not straight to the dead letter queue
  (server.go:325).
- `EnqueueUnique` ignores its time to live (client.go:126-139); unique keys simply expire at some time.
- `claimStale` starts at "0" every time, so the model promises that it ends, not that it finds every stale message.
- `CountTasks` ignores several states, search and dates: `Filters.CountAgreesWithList`.
- An update that has to create its row drops retry count, times, error and worker: `StoreRows.ProgressKeptIff`. It can
  also leave no trace: `StoreRows.UpdateLostIff`.
- The pages of the task list are sorted by one column without a tie-breaker, so a row can be shown twice and another one
  not at all: `Pagination.PagesCoverIff`.
- A redrive looks a task up first and moves it with a pipeline that does not look again. Two redrives of the same dead
  task can so make two tasks of it, which breaks the sum of the queue's numbers and more: `Redrives`. It happens exactly
  when a redrive is stale (`Conservation.RedriveConservesIff`), and the theorems that need it exclude that.
- GetQueueInfo reads six times, so its numbers need not fit together: `QueueReads`.
- The retry and scheduled sets are per queue; the layout in the repository's README has one of each.
- Redriving a task without metadata dereferences a nil pointer; `DeadLetters` models it as a panic.

## Model

| member | source | states |
|---|---|---|
| `NoLoss.NothingIsLost` | server.go:285-455 | in every reachable state, under any claims, crashes, expiries and duplicates, each accepted task has a copy in a stream, sorted set or dead letter queue, or runs attempt 0, or has succeeded, or its worker died during attempt 0 |
| `NoLoss.SafeStep` | broker/redis/redis.go:257-285 | every single step keeps the invariant behind it, which also says that a processed key is only set for a task whose first attempt has begun |
| `NoLoss.EveryPlaceFits` | task.go:114-120 | every copy of a task is on the task's own queue, that queue is known to the scheduler, and its failure count is below the limit (at least 1 in the retry set, exactly the limit in the dead letter queue) |
| `States.EveryStateFits` | broker/redis/redis.go:559-624 | in every reachable state, under any interleaving, a copy of a task records the state pending if and only if it is in a stream, scheduled if and only if it is in the scheduled set, retry in the retry set, and dead in the dead letter queue |
| `States.MoverArrives` | server.go:385-395 | nothing else of a task changes on its way: a promotion changes the state only; a failure raises the count by exactly one and records the error; a redrive sets the count to 0 and clears the error; enqueueing changes the state only |
| `Affinity.BaseStep` | broker/redis/redis.go:244-276 | queue affinity and retry budget are kept by every step, together with the fact that each held message comes from its task's own stream and carries its message ID |
| `FirstAttempt.FirstAttemptStartsOnce` | server.go:295-306 | over any run, attempt 0 of a task starts at most once plus once for every expiry, redrive or gate error |
| `FirstAttempt.TakeoverRunsIff` | README.md:12 | after a crash and a takeover the handler runs again if and only if the task has failed before or its processed key is gone |
| `FirstAttempt.CrashLosesFirstAttempt` | server.go:297-313 | from every state in which attempt 0 runs with its key set, crash and takeover end the task without a successful run |
| `FirstAttempt.LossIsReachable` | server.go:295-313 | for every task that is published at once, a run from the first state, with one crash and no expiry, ends with the task done and never succeeded |
| `Uniqueness.OneTaskPerKey` | client.go:63-78 | over any run, at most one task per unique key is accepted, plus one for every expiry of the key |
| `Uniqueness.RefusalsAreBacked` | client.go:71-77 | as long as no client dies between setting a key and publishing, every key that is set belongs to an accepted task |
| `Uniqueness.AbandonedKeyRefuses` | client.go:71-100 | a client that does die there leaves a key that refuses later tasks although none was accepted |
| `Ownership.OwnedAlways` | broker/redis/redis.go:326-358 | when only dead owners lose messages and no redrive is stale, every reachable state has each task in one place, each message with one holder, and the pending entries within the stream |
| `Ownership.OwnedStep` | broker/redis/redis.go:394-401 | each step keeps that invariant |
| `Conservation.QueueInfoAddsUp` | broker/redis/redis.go:716-769 | if nobody acts between the six reads and no redrive is stale: pending + active + scheduled + retry + dead + completed is the number of accepted tasks of the queue plus its undecodable messages, and the clamp at zero has no effect |
| `QueueMeaning.QueueInfoMeans` | broker/redis/redis.go:738-766 | for all runs under the rules of `Ownership`: dead is the number of accepted tasks of the queue that are buried, completed of those done, scheduled + retry of those in a sorted set, pending of those not yet delivered, and active of those delivered and not acknowledged, with the messages without a task in the last two |
| `QueueReads.QueueInfoDrifts` | broker/redis/redis.go:720-766 | with any steps between the reads, that sum is off by at most the number of steps that touch the queue, plus the messages handed out between the first two reads |
| `QueueReads.ReadsDrift` | broker/redis/redis.go:726-736 | and the clamp has no effect unless a message is handed out between the first two reads |
| `QueueReads.ClampFires` | broker/redis/redis.go:732-736 | a task that arrives and is handed out between them makes the difference -1 |
| `Conservation.RedriveConservesIff` | broker/redis/redis.go:684-696 | a redrive conserves the number of tasks if and only if its message is still in the dead letter queue |
| `Redrives.TasksDouble` | broker/redis/redis.go:657-663 | two requests that both look a dead task up before either moves it: a run from the first state that accepts one task ends with two messages that carry it |
| `Redrives.DoubledBreaks` | broker/redis/redis.go:688-696 | then the queue counts two tasks where one was accepted, and once the first copy starts, the second is undelivered while its processed key is set |
| `Conservation.RetryIsNewMember` | broker/redis/redis.go:579-585 | the ZADD of a failed attempt never collapses with a member of the retry set |
| `Conservation.FailTotal` | broker/redis/redis.go:588-624 | a failed attempt moves one task and neither creates nor destroys one |
| `Idempotency.UndeliveredIsUnprocessed` | server.go:297-299 | under the rules of `Ownership`, a message that was never delivered and has not failed never has its processed key set, also after a redrive |
| `Idempotency.SkipsFollowACrash` | server.go:303-306 | under the rules of `Ownership`, the gate turns away only redeliveries, after a success or a crash during attempt 0 |
| `Idempotency.IdempotentStep` | broker/redis/redis.go:702-707 | each step keeps the invariant that ties processed keys to places and holders |
| `Stages.StepEvolves` | server.go:385-455 | under the rules of `Ownership`, each step of the whole system is one step of a ten-state automaton for one task, failure counts rising by one up to the limit, and leaves every other task as it is |
| `Progress.RunsEnd` | broker/redis/redis.go:499-543 | without new tasks, crashes and redrives, the number of steps that carry tasks on is bounded by a measure that each of them decreases |
| `Progress.CalmRunsEnd` | broker/redis/redis.go:257-285 | without new messages, crashes and redrives, the steps that carry on with a task or move a message without a task out of the way number at most the measure plus the undelivered messages without a task |
| `Progress.AtRestAllIsOver` | server.go:385-455 | in a state where no such step is left, every accepted task is done or dead |
| `Progress.CanComplete` | broker/redis/redis.go:147-254 | from every state that owned runs reach, a run of such steps, no longer than that bound, ends every task |
| `Progress.NeverStuck` | broker/redis/redis.go:221-240 | as long as some task is neither done nor dead, some step can carry a task on, or move a message without a task out of its way |
| `Progress.HandlerRunsBounded` | server.go:395-402 | a task with limit M is run at most M times, plus once per crash of its holder and M times per redrive |
| `Promotion.OrderedIsListing` | broker/redis/redis.go:456-456 | the ready list holds exactly the due members, each once, by score and then member |
| `Promotion.PromoteListPromotes` | broker/redis/redis.go:458-475 | the inner loop removes exactly its members and appends them in order as pending messages, counting each as enqueued |
| `Promotion.RunsMovePrefix` | broker/redis/redis.go:482-496 | k runs of the script, each with its own order of the queues, move the first k * limit ready tasks of every queue that they visit, in order, and leave the rest ready |
| `Promotion.RunsAt` | broker/redis/redis.go:452-456 | repeated runs serve every queue by itself, whatever the orders |
| `Promotion.RunsAreUnlimited` | broker/redis/redis.go:545-557 | enough runs with any positive limit leave a queue as one run without a limit does |
| `Promotion.ScriptAt` | broker/redis/redis.go:452-479 | the limit applies to each queue by itself, and other queues and keys stay as they are |
| `Promotion.ScriptCounts` | broker/redis/redis.go:450-479 | the returned count is the number of tasks moved, summed over the queues |
| `Promotion.ScriptOrderIrrelevant` | broker/redis/redis.go:444-448 | the order in which SMEMBERS lists the queues changes neither the result nor the count |
| `ScriptRuns.ScriptIsRun` | broker/redis/redis.go:433-480 | a script run is a run of single promotions of the lifecycle |
| `ScriptRuns.PromotionTiming` | broker/redis/redis.go:483-487 | a task due at p moves at t only if t > p - 1 s, and is ready whenever t >= p |
| `Schedules.EntersOnlyWhenDue` | client.go:80-101 | over all runs in which promotions come from script runs: a task accepted with a time p in the future is in its queue's scheduled set with score p in whole seconds, and in no stream and nobody's hands, until a script run at t > p - 1 s; every script run at t >= p finds it ready |
| `Backoff.DelayIsCappedPower` | server.go:457-468 | for every attempt from 1 on, the delay is min(base * 2^(n-1), max) if and only if the product fits into 64 bits, or what the machine makes of it is at least max |
| `Backoff.DelayMonotone` | server.go:459-466 | without wrap-around, delays never decrease |
| `Backoff.DefaultsExact` | server.go:460-460 | with the default configuration the formula holds for attempts 1 to 34 |
| `Backoff.DefaultsWrap` | server.go:462-464 | at attempt 35 the default delay is negative |
| `Backoff.TotalDelayBeforeDeath` | server.go:427-436 | the default delays before the dead letter queue add up to 2^(M-1) - 1 s for M <= 11, and 1023 + 600 (M - 11) s above |
| `ConsumeLoop.Consume` | broker/redis/redis.go:175-241 | the loop gives up exactly at the eleventh transient error in a row; since the last other outcome it has slept 1, 2, 4, 8, 16, 30, 30, ... s, one sleep per error, at most 181 s in all |
| `ConsumeLoop.TotalSleepIs` | broker/redis/redis.go:218-229 | n sleeps in a row last 2^n - 1 s in all up to the fifth, and 31 + 30 (n - 5) s from there on |
| `Redis.Client.XReadGroupOwn` | broker/redis/redis.go:294-312 | returns the first pending messages of one consumer and redelivers exactly these |
| `Redis.Client.XReadGroupNew` | broker/redis/redis.go:181-187 | returns the first undelivered messages and moves the read position past them |
| `Redis.Client.XAutoClaim` | broker/redis/redis.go:329-344 | at most a batch of pending messages change hands, in order, and some pending entries without a message go |
| `RedisBroker.Broker.Publish` | broker/redis/redis.go:116-145 | the message with the task is the new last one of the queue's stream, the queue name is recorded, and one more task counts as enqueued; nothing else changes |
| `RedisBroker.Broker.Schedule` | broker/redis/redis.go:403-431 | the task is a member of its queue's scheduled set with the time in whole seconds as score, the queue name is recorded and the counter raised; nothing else changes |
| `RedisBroker.Broker.Ack` | broker/redis/redis.go:393-401 | the message leaves stream and pending entries, and one more task counts as completed |
| `RedisBroker.Broker.Retry` | broker/redis/redis.go:559-589 | the received message goes, and the task enters the retry set with state retry, but otherwise as it is, with now + delay in whole seconds as score |
| `RedisBroker.Broker.MoveToDLQ` | broker/redis/redis.go:591-624 | the received message goes, and the task, with state dead but otherwise as it is, is the last message of the dead letter queue |
| `RedisBroker.Broker.EnqueueDue` | broker/redis/redis.go:499-557 | the nested loops of both scripts equal the script function, for some order of the queues |
| `RedisBroker.Broker.GetDLQ` | broker/redis/redis.go:626-654 | lists the decodable tasks up to the limit, oldest first |
| `RedisBroker.Broker.RetryFromDLQ` | broker/redis/redis.go:656-700 | looks the oldest message with the task ID up, or reports that there is none; whatever others do then, its pipeline moves what it has found, even if it is gone by now |
| `RedisBroker.Broker.SetProcessed` | broker/redis/redis.go:703-707 | succeeds exactly if the key was not set, and sets it |
| `RedisBroker.Broker.SetUnique` | broker/redis/redis.go:709-714 | succeeds exactly if the key was not set, and keeps the first holder |
| `RedisBroker.Broker.GetQueueInfo` | broker/redis/redis.go:717-769 | six reads with others acting between them, and which of them each number comes from; pending is never negative; alone, if every pending entry has its message, pending is the number of messages that nobody has |
| `DeadLetters.FindsFirst` | broker/redis/redis.go:664-675 | the scan finds the oldest decodable message with the ID, and nothing only if there is none |
| `DeadLetters.HeadIsFound` | ui/server.go:946-950 | looking up the head of the listing by ID finds that very message, even with duplicate IDs |
| `DeadLetters.RedriveAllMoves` | broker/redis/redis.go:676-696 | redriving a list moves exactly these messages, in order, to the end of the stream with fresh counts, deletes their processed keys and changes nothing else |
| `Clients.Dashboard.RetryAllDead` | ui/server.go:936-954 | alone, retry-all moves exactly the first min(1000, n) decodable tasks, up to the first one without metadata; in company, it counts no more than it has listed |
| `Clients.TaskClient.Enqueue` | client.go:56-122 | refuses exactly the tasks whose unique key is set, without a change. A task with a time in the future is only added to its queue's scheduled set, in state scheduled and with its time in whole seconds; any other one is only appended to its queue's stream, in state pending; on top of whatever others do after the key is set |
| `Workers.Server.HandleFailure` | server.go:384-455 | count and error are recorded; below the limit, which is 3 unless set, the task enters the retry set, due after the backoff of this count, and from the limit on the dead letter queue, on its own queue |
| `Workers.Server.ProcessMessage` | server.go:285-382 | the handler runs exactly for a task that the gate does not stop and whose type has one, once, and sees the task as active with its count, message ID and worker; the task is acknowledged exactly if it answers without an error, and otherwise fails with that very error, or with the one for a missing handler; the new keys on top of whatever others do while the handler runs |
| `Workers.Server.ProcessAll` | broker/redis/redis.go:313-319 | every message of the batch has its turn, in order, with others acting before and during it, and the log of handler runs grows by those of the turns; a batch leaves none of its messages pending in the scope into which nobody else delivers, and for messages that have been delivered already, others may do anything |
| `Workers.Server.ProcessNew` | broker/redis/redis.go:231-240 | the next messages of one stream are read, and each has its turn; none is left pending, whatever others do; if nobody else delivers to this consumer, its own background claimer included, nothing more is pending for it; alone, the pending entries are as before |
| `Workers.Server.ConsumeOnce` | broker/redis/redis.go:179-188 | each stream is read once, and every message that was read has its turn; the first two of these promises for all the streams |
| `Workers.Server.RecoverOwnPending` | broker/redis/redis.go:287-323 | every message that it reads has its turn; while others do anything but deliver to this consumer, it ends with nothing pending for it on any of its queues; alone, it leaves the pending entries of others untouched |
| `Workers.Server.ClaimStale` | broker/redis/redis.go:325-358 | every message that it claims has its turn; while others do anything but deliver new messages to the group, it ends with a claim that has found nothing, and what it claimed is no longer pending; alone, it leaves the rest as it was |
| `Interference.StepMayFollow` | broker/redis/redis.go:362-391 | every step of the lifecycle but those deliveries is something that others may do meanwhile, and every step at all as far as delivered messages are concerned |
| `Interference.ReadIsDelivered` | broker/redis/redis.go:181-187 | the messages of a read have IDs below the read position |
| `Interference.DeliveredStays` | broker/redis/redis.go:394-401 | and every step keeps them there |
| `Interference.AffinityGivesOwnQueue` | server.go:399-404 | queue affinity is what the two loops need to end |
| `TraceRuns.LoopIsRun` | broker/redis/redis.go:147-254 | whatever a loop of a worker does from a reachable state on, while others take any steps of the lifecycle between its reads and turns and while its handlers run, is a run of the lifecycle that ends with the same keys; the tasks whose handlers answered without an error have succeeded; under the rules of `Ownership` if the others keep to them |
| `TraceRuns.LoopLosesNothing` | broker/redis/redis.go:257-285 | so nothing is lost in the loops: afterwards every accepted task has a copy in Redis, runs attempt 0, has succeeded, or its crash is on record |
| `TraceRuns.AloneLoopIsRun` | broker/redis/redis.go:287-358 | alone, this holds without a condition on others, and exactly the tasks whose handlers answered without an error have newly succeeded; if nobody held a message, it is a run under the rules of `Ownership` |
| `WorkerRuns.MessageIsRun` | broker/redis/redis.go:271-285 | processing a message without interruption is a run of the lifecycle, also under the rules of `Ownership`, with the same keys |
| `WorkerRuns.DiscardIsRun` | broker/redis/redis.go:257-269 | so is the acknowledgement of a message without a task |
| `WorkerRuns.GoneIsRun` | broker/redis/redis.go:258-262 | and that of a pending message whose entry is gone |
| `WorkerRuns.RetryIsDue` | server.go:427-436 | a retry is moved only at less than a second before its failure time plus its backoff, and is ready from then on |
| `ReadRuns.ReadNewIsRun` | broker/redis/redis.go:179-190 | a read of new messages is a run of first deliveries, also under the rules of `Ownership` |
| `ReadRuns.RereadIsRun` | broker/redis/redis.go:297-305 | a read of pending messages, and a claim, is a run of redeliveries |
| `ReadRuns.RereadIsOwnedRun` | broker/redis/redis.go:330-337 | and one under the rules of `Ownership`, if nobody holds these messages |
| `Filters.BuildList` | store/postgres/postgres.go:324-370 | the compiled WHERE clause means the filter, for every row and every ILIKE; placeholders are 1 to the number of arguments, in order and of the right type |
| `Filters.BuildCount` | store/postgres/postgres.go:480-505 | the same for what CountTasks reads of a filter |
| `Filters.CountAgreesWithList` | store/postgres/postgres.go:481-515 | counting and listing agree on all rows if and only if search and dates are unset and the list of states adds nothing |
| `StoreRows.Store.CreateTask` | store/postgres/postgres.go:64-147 | inserts the row, unless there is one, with each column from the task or its default, and no progress |
| `StoreRows.Store.UpdateTask` | store/postgres/postgres.go:149-210 | replaces state, retry count, times, error and worker by those of the task, and the group if it has one, or creates the row |
| `StoreRows.LastEffectiveWins` | store/postgres/postgres.go:168-206 | for any interleaving of single statements, the last one that inserts or updates the row decides the state, and the progress columns are what it reports if it is an update |
| `StoreRows.LastGroupWins` | store/postgres/postgres.go:176-176 | the consumer group is that of the last such statement that has one |
| `StoreRows.FirstInsertStays` | store/postgres/postgres.go:111-119 | the other columns are those of the first insert |
| `StoreRows.LastUpdateWins` | store/postgres/postgres.go:168-179 | for any order of whole calls, the last update decides the state column; a late create changes nothing |
| `StoreRows.ProgressKeptIff` | store/postgres/postgres.go:200-206 | what else the last update reports is kept exactly if it was not the first call about the task |
| `StoreRows.FirstCallStays` | store/postgres/postgres.go:112-119 | the columns that only an insert sets come from the first call, whichever it was |
| `StoreRows.UpdateLostIff` | store/postgres/postgres.go:180-206 | an update that finds no row leaves no trace if and only if somebody inserts the row between its two statements |
| `StoreRows.StartIsLost` | client.go:101-107 | a worker that is faster than the client's create loses its update to active |
| `Pagination.HandleTasks` | ui/server.go:698-742 | 20 rows a page unless another number is given, at most 100; the page shown is the page asked for if and only if its offset fits into 64 bits; the number of pages is the least that covers the rows |
| `Pagination.PagesCoverIff` | store/postgres/postgres.go:399-407 | turning all the pages shows every row once, whatever order each query finds equal values in, if and only if no two rows with equal values lie on both sides of a page boundary |
| `Pagination.TiedRows` | store/postgres/postgres.go:382-392 | two rows with the same sort value on pages of one: one row may be shown twice and the other not at all |
| `Pagination.ShownInOrder` | store/postgres/postgres.go:393-397 | the values that are shown are in order all the same |

## Left out

- JSON and cjson encoding and number formatting in cjson; labels are the text that they are encoded to.
- The wire protocols, clients, contexts, logging, signals and shutdown; the class of a read error is an input.
- PurgeQueue, PurgeDLQ, Cancel and cleanupDeadConsumers: they delete data, or act on a count that may be stale.
- Several consumer groups on one stream.
- The store writes inside Enqueue and processTask: their failures are ignored by the source, and their effect is the
  subject of `StoreRows`.
- UpdateTaskState, GetTask and DeleteTask of the store, and the conflict on its unique-key index.
- The text of SQL statements, sorting of the list, and the meaning of ILIKE, which is an arbitrary relation.
- Dashboard pages and templates, formatting and the page range.
- Timeouts and panics of handlers as such; they are failures.
- The option setters of tasks: queue and retry limit are read as they are.
- Workers.Server.ClaimStale: which stale messages it finds is not stated, because the source restarts at "0" and
  discards the cursor, and idle times belong to Redis.
- Interference.StepMayFollow: is about the promise that the loops end; `TraceRuns.LoopIsRun` puts no such limit on the
  others.
- TraceRuns.LoopIsRun: what others do at the very moment of a read or claim is put before or after it.
- Schedules.EntersOnlyWhenDue: is about a task whose ID is enqueued once.
- Redis.Client.XAutoClaim: idle times and the scan limit are not modelled; any pending messages may be claimed.
- Progress.NeverStuck: says that a step is possible, not that a scheduler ever takes it; fairness is not modelled, and
  a promotion counts as possible before it is due. `ScriptRuns.PromotionTiming` says when it is.
- ReadRuns.RereadIsRun: covers pending messages whose entries still exist, which in every reachable state are all of
  them; the others are the subject of `WorkerRuns.GoneIsRun`.
- Clients.Dashboard.RetryAllDead: which tasks it moves while others act is not stated beyond its single calls.
- Pagination.PagesCoverIff: the rows do not change while the pages are turned.
- Pagination.HandleTasks: the sum in the page count is taken without 64-bit wrap-around.
- Backoff.DefaultsWrap: a single configuration; `Backoff.DelayIsCappedPower` covers all of them.
