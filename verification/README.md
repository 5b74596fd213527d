# Verification of miniq

miniq is a single-host task queue with at-least-once delivery. A worker claims a task for a
visibility timeout, runs its function, stores the outcome in a second store and only then
settles the task (ack, retry or dead letter). A claim that is not settled in time is
released by a later dequeue. Nothing checks, when a worker settles, that the claim is still
its own. These files model that protocol, both queue backends, both result backends, the
worker, the retry policies and the two table updates of the command line, and prove what
holds and, where a promise of the documentation fails, exactly when it holds.

`dafny verify dfyconfig.toml` checks everything.

## How it is built

- `RetryPolicies.dfy`: a policy as a tree of jitter decorators over a base policy; delays are
  reals and random draws are inputs.
- `Tasks.dfy`, `TaskTable.dfy`: the task object (a class), the rows of the two tables, and
  each SQL statement as a function of its table. The classes and the state machine share
  these functions.
- `Protocol.dfy`: the state machine. Any number of workers, each idle or holding a private
  copy of a task; every transaction is one step; workers crash anywhere; time passes;
  failed tasks are replayed; old ones are purged. History fields record how a task was
  enqueued, which claim on it is in force, and how many executions were settled.
- `AllRuns.dfy`, `Exclusion.dfy`, `Lifecycle.dfy`: what holds in all runs, late settles
  included, and for mutual exclusion and the lifecycle exactly when they hold.
- `TimelyRuns.dfy`: what holds when every store and settle comes from the claim in force.
  `Outcomes.dfy`: when rows and stored outcomes agree, in all runs and in timely ones.
  `Scenarios.dfy`, `Divergence.dfy`: runs in which promises fail.
- `SqliteQueue.dfy`, `MemoryQueue.dfy`, `Results.dfy`, `MemoryResults.dfy`, `Worker.dfy`,
  `MemoryWorker.dfy`, `Cli.dfy`: the source's classes, with the loops of the source, each
  method proved against the functions above. What other workers or threads do in between is
  an input. `Worker.dfy` also proves that every `run_once`, interleaved with the steps of
  other workers, is a path of the state machine.
- `Delivery.dfy`, `MemoryRuns.dfy`, `AtLeastOnce.dfy`, `Draining.dfy`, `MemoryDraining.dfy`,
  `Agreement.dfy`, `SharedOutcomes.dfy`, `Starvation.dfy`, `MemoryExclusion.dfy`: delivery
  order and bounds, at-least-once delivery and what can put it off, termination of a draining
  worker, how far the two backends agree, what undoes an outcome filed in memory, and mutual
  exclusion in the in-memory queue. `EndToEnd.dfy`: what a function came to is what the
  caller's `get` reports.

## Where the code and its documentation differ

- `src/miniq/queue/base.py:10-16` promises that a claimed task is invisible to other workers
  until it is acked, nacked by the claiming worker, or expires. A settle by another worker
  can take the claim in force away from a live worker. For the tables,
  `Exclusion.ExclusionFailsIff`: in any run of the protocol, two workers come to hold
  unexpired claims on a task exactly when the task is claimed while a worker that was
  dispossessed of it is still at work. The settle may be a nack followed by any delay
  (`Scenarios.LateNackBreaksExclusion`) or a dead letter followed by a replay
  (`Scenarios.LateDeadLetterBreaksExclusion`). For the in-memory queue,
  `MemoryExclusion.SharedOnlyAfterSettle`: a task is handed out again before the claim on it
  expires only after somebody acked or nacked it. A late nack for retry makes that happen
  (`MemoryExclusion.LateNackShares`); a late ack drops a task that another worker still holds
  (`MemoryExclusion.LateAckDrops`).
- `src/miniq/queue/base.py:18-23` promises that another worker will reclaim the task of a
  crashed one. Reclaim in the tables is lazy: an expired claim is delivered again only by or
  after a dequeue that finds nothing ready (`Starvation.RedeliveredOnlyWhenIdle`), and for any
  number of dequeues there is a history in which the most urgent task is passed over by all
  of them (`Starvation.ExpiredClaimStarves`).
- A late nack can put a finished task back to waiting (`Scenarios.LateNackResurrects`), and a
  late ack can overwrite a finished row (`Scenarios.LateAckRewrites`);
  `Lifecycles.LifecycleIff` says exactly which steps keep a row to its lifecycle.
- `README.md:153` says that both backends hold the contract identically. They choose different
  tasks exactly when something is waiting and an expired claim outranks all of it
  (`Agreement.SameChoiceIff`, `Agreement.BackendsAgree`, and a run in
  `Divergence.BackendsDiffer`).
- The comment at `src/miniq/queue/sqlite.py:169-170` says that the dequeue loop retries after
  a lock. That is so for the claims. A lock during the reclaim between two claims is always
  raised, unless the first claim has already raised because a row does not decode
  (`SqliteQueue.SQLiteQueue.DequeueRound`). And a lock during the first claim makes the round
  reclaim before it selects, even though something was waiting.
- One row that does not decode makes `dequeue` raise and roll back, every time it is the best
  row; size() dequeues can deliver everything exactly when every active row decodes
  (`Delivery.CanDrainIff`, and a run in `Scenarios.UndecodableBlocks`).
- The in-memory result backend files the queue's own task object. A dequeue undoes a stored
  outcome exactly when its object is an overdue claim or the one picked
  (`SharedOutcomes.DequeueUndoesIff`), and a nack exactly when it puts that object back. This
  happens when a claim expires between store and ack
  (`SharedOutcomes.RedeliveryUndoesOutcome`) and when a worker stores after its claim was
  reclaimed (`SharedOutcomes.LateStoreIsUndone`). `AsyncResult.get` then reaches its
  unexpected-status error exactly when such a change falls between its wait and its test of
  the status (`MemoryResults.InMemoryAsyncResult.Get`, and a call in
  `SharedOutcomes.MarkSurprisesGet`).
- A terminal row and its stored outcome may disagree. In any run they never do exactly when
  every store of a finished task repeats its row and every ack or dead letter finds its own
  copy's outcome stored (`Outcomes.StoryIff`). A late store breaks this without any purge
  (`Scenarios.LateStoreContradicts`). A purge, which deletes rows and results independently,
  breaks it by deleting the outcome of a worker that has yet to settle, whether its claim is
  in force (`Scenarios.PurgeLosesOutcome`) or not (`Scenarios.SparingPurgeLosesOutcome`);
  `Outcomes.PurgeThenSettleIff` is the exact condition. In timely runs only the workers with
  a claim in force have to be spared (`Outcomes.PurgeKeepsCoherentIff`).

## Model

| member | source | states |
|---|---|---|
| RetryPolicies.JitterComposition | src/miniq/retry.py:115-125 | for any nesting of jitter over any valid policy and any draws: declines iff the innermost policy never retries, raises iff it raises, and otherwise lies between the base delay times the product of all (1-j) and times the product of all (1+j) |
| RetryPolicies.JitterBoundsAreTight | src/miniq/retry.py:120-125 | both of those bounds are reached, at the extreme draws |
| RetryPolicies.ClampNeverActs | src/miniq/retry.py:125 | the clamp at zero never changes a delay, at any depth of nesting |
| RetryPolicies.JitterWithinSpread | src/miniq/retry.py:124-125 | one jitter level stays within its spread, reaches both ends, and is base*(1-j) plus twice base*j times the draw |
| RetryPolicies.BaseDelayIsNonNegative | src/miniq/retry.py:44-63 | base policies decline only as NoRetry, raise only for attempts below 1, and never return a negative delay |
| RetryPolicies.ExponentialShape | src/miniq/retry.py:81-95 | delays are monotone in the attempt, start at base, never pass the cap, and stay at the cap once there |
| RetryPolicies.ExponentialValues | src/miniq/retry.py:91-95 | the delay is base times factor^(attempt-1) up to the cap and the cap from then on; each delay is factor times the one before, or the cap |
| RetryPolicies.DefaultDelays | src/miniq/retry.py:75-95 | the default policy: 1, 2, ..., 256 at attempt 9, and 300 from attempt 10 |
| RetryPolicies.FactorOneIsFixed | src/miniq/retry.py:60-95 | exponential backoff with factor 1 is the fixed delay |
| RetryPolicies.GeometricTotal | src/miniq/retry.py:91-95 | n delays below the cap sum to base*(factor^n - 1)/(factor - 1) |
| RetryPolicies.TotalIsBounded | src/miniq/retry.py:91-95 | any n delays sum to between n*base and n*cap |
| RetryPolicies.DelayAtLeastLeast | src/miniq/retry.py:91-125 | no delay is below the lower bound that the protocol proofs add up |
| RetryPolicies.LeastIsReached | src/miniq/retry.py:115-125 | that lower bound is reached at the lowest draws |
| RetryPolicies.LeastTotalIsTotal | src/miniq/retry.py:60-95 | without jitter the sum of the lower bounds is the sum of the delays |
| Tasks.Task.MarkRunning | src/miniq/task.py:68-71 | status and start time change, all other fields stay |
| Tasks.Task.MarkSuccess | src/miniq/task.py:73-77 | the status is SUCCESS, the result is the value given, the finish time is now; all other fields stay |
| Tasks.Task.MarkFailed | src/miniq/task.py:79-83 | the status is FAILED, the error is the message given, the finish time is now; all other fields stay |
| Tasks.Task.MarkPending | src/miniq/task.py:85-92 | status changes and the start time is cleared, all other fields stay |
| TaskTable.EnqueueRoundTrip | src/miniq/queue/sqlite.py:82-107 | a task that is inserted and decoded again is the same task in every field |
| TaskTable.BestIff | src/miniq/queue/sqlite.py:142-151 | a row may be claimed iff it is pending and available, and every other such row has a lower priority, or the same and was not created earlier |
| SqliteQueue.Connection.Begin | src/miniq/_sqlite.py:43 | opens a transaction that remembers the table, or fails and changes nothing |
| SqliteQueue.Connection.End | src/miniq/_sqlite.py:44-49 | keeps the new table iff the body did not raise and COMMIT succeeded; restores the old one otherwise |
| SqliteQueue.SQLiteQueue.Enqueue | src/miniq/queue/sqlite.py:82-107 | inserts exactly the task, or raises the right error and changes nothing |
| SqliteQueue.SQLiteQueue.TryClaim | src/miniq/queue/sqlite.py:135-171 | either a pending, available row of the highest priority, and of those one created first, becomes RUNNING until now + timeout, is the only row changed and is returned; or nothing changes: nothing pending and available, locked at BEGIN or COMMIT, or undecodable |
| SqliteQueue.ClaimedCopyIsRow | src/miniq/queue/sqlite.py:156-167 | the returned copy, decoded from the row before the update, equals the row after it; no other row changes |
| SqliteQueue.SettledRowIsCopy | src/miniq/queue/sqlite.py:187-223 | after an ack, dead letter or retry by the worker that holds its copy, the row decodes to that copy again; no other row changes |
| SqliteQueue.SQLiteQueue.ReclaimExpired | src/miniq/queue/sqlite.py:173-185 | exactly the expired claims are released; a lock is raised |
| SqliteQueue.SQLiteQueue.DequeueRound | src/miniq/queue/sqlite.py:116-133 | one round under any locks, with other workers between its three transactions: claims from the table as it is if something is ready and no lock is met and from the reclaimed table otherwise; a locked reclaim that is reached is raised, and nothing else raises a lock; None only if nothing is ready after the reclaim or a lock met the second claim. A smooth round is one delivery, or nothing is ready, or a best row does not decode |
| SqliteQueue.SQLiteQueue.Dequeue | src/miniq/queue/sqlite.py:109-133 | the polling loop, with locks in every round and other workers changing the table before and within every round: every earlier round came to nothing before the deadline, and the last one claims, raises or meets the deadline |
| SqliteQueue.PollingIsOneReclaim | src/miniq/queue/sqlite.py:116-133 | a worker alone that polls in vain leaves the table of one single reclaim at the last poll |
| SqliteQueue.SQLiteQueue.Ack | src/miniq/queue/sqlite.py:187-196 | writes the copy's outcome to its row whoever holds the claim, or raises and changes nothing |
| SqliteQueue.SQLiteQueue.Nack | src/miniq/queue/sqlite.py:198-223 | requeues with the copy's retries and available_at, or dead-letters, whoever holds the claim |
| TimelyRuns.SizeCounts | src/miniq/queue/sqlite.py:225-231 | timely runs: the number of active rows that size() counts is enqueues and replays less acks and dead letters, whatever is purged |
| MemoryQueue.InMemoryQueue.Enqueue | src/miniq/queue/memory.py:47-50 | the task object goes to the back of the deque |
| MemoryQueue.InMemoryQueue.Scan | src/miniq/queue/memory.py:63-75 | the loop with its three running variables finds the first available task of the highest priority created first, and nothing iff none is available |
| MemoryQueue.ScanFindsFirstBest | src/miniq/queue/memory.py:63-75 | the choice is None iff nothing is available; otherwise every available entry has a lower priority, or the same and was not created earlier, and of equals it is the first in the deque |
| MemoryQueue.InMemoryQueue.ReclaimExpired | src/miniq/queue/memory.py:112-124 | exactly the expired claims go to the back of the deque, in claim order, marked pending; no other task changes status |
| MemoryQueue.InMemoryQueue.ClaimAt | src/miniq/queue/memory.py:77-85 | the chosen object leaves the deque and is claimed, marked running; a new claim comes last in the dict and no other claim moves |
| MemoryQueue.PutOrder | src/miniq/queue/memory.py:81-84 | dict order: a new key comes last, an old one keeps its place |
| MemoryQueue.InMemoryQueue.DequeueRound | src/miniq/queue/memory.py:60-85 | reclaim, scan and claim on shared objects refine one step of the abstract queue; the object returned is an available one, waiting or overdue, of the highest priority and created first among those, None iff there is none; it is running, overdue ones are pending, no other object changes status |
| MemoryQueue.InMemoryQueue.Dequeue | src/miniq/queue/memory.py:52-94 | the waiting loop, with any calls and writes of other threads between its rounds: earlier rounds came to nothing before the deadline, the last one claims or meets the deadline |
| MemoryQueue.InMemoryQueue.Ack | src/miniq/queue/memory.py:96-98 | drops the claim on that id if there is one, nothing else |
| MemoryQueue.InMemoryQueue.Nack | src/miniq/queue/memory.py:100-106 | drops the claim, and for a retry puts the same object back, marked pending |
| MemoryQueue.InMemoryQueue.Size | src/miniq/queue/memory.py:108-110 | counts waiting and claimed tasks |
| Protocol.SafeStep | src/miniq/worker.py:56-100 | every step of every worker, late or not, keeps retries within budget, available_at behind the back-off, claims dated and terminal rows finished |
| Protocol.DecideIsSafe | src/miniq/worker.py:81-100 | after a failure the worker never passes max_retries, never schedules before the back-off, and the policy never raises |
| Protocol.DecideIff | src/miniq/worker.py:64-100 | the verdict field by field: after a failure a retry iff retries are left and the policy returns a delay, with one retry more and available_at exactly that delay from now; otherwise FAILED with the message; SUCCESS with the value returned |
| AllRuns.NeverEarly | src/miniq/queue/sqlite.py:142-151 | all runs: no claim, across retries, reclaims, replays and late nacks, before the available_at of the enqueue |
| AllRuns.BackoffRespected | src/miniq/worker.py:86-93 | all runs: a claim of a row with r retries is no earlier than enqueue plus the least delays before retries 1 to r |
| AllRuns.RetryBudget | src/miniq/worker.py:86-95 | all runs: every row and every worker's copy, stale ones too, has 0 <= retries <= max_retries as enqueued |
| AllRuns.PayloadRoundTrip | src/miniq/queue/sqlite.py:238-255 | all runs: every row decodes, to the function, arguments, budget, priority and age it was enqueued with |
| AllRuns.NothingLost | src/miniq/worker.py:76-100 | all runs without purge: every task is waiting, claimed with a deadline, or terminal with a terminal stored outcome |
| AllRuns.DisappearsIff | src/miniq/cli.py:184-210 | all runs: a row, and likewise a stored outcome, disappears exactly by a purge of its status that finds it old enough |
| TimelyRuns.OwnedStep | src/miniq/queue/sqlite.py:135-223 | timely steps keep ownership: a row is RUNNING iff a claim on it is in force, an unexpired claim is in force, retries count failed executions |
| TimelyRuns.MutualExclusion | src/miniq/queue/base.py:10-16 | timely runs: two workers never hold unexpired claims on one task |
| TimelyRuns.ClaimIsExclusive | src/miniq/queue/base.py:10-16 | timely runs: a claim is made only when every earlier claim on the task has expired or is over |
| TimelyRuns.Lifecycle | src/miniq/queue/sqlite.py:135-223 | timely runs: statuses move only along the legal edges, each by its own step, and terminal rows change only by replay |
| TimelyRuns.SettledCountsExecutions | src/miniq/worker.py:86-100 | the settled counter is the number of acks and nacks since the enqueue or the last replay |
| TimelyRuns.RetriesCountExecutions | src/miniq/worker.py:86-95 | timely runs: retries of an active row are its failed executions, so at most max_retries + 1 executions complete |
| Lifecycles.LifecycleIff | src/miniq/queue/sqlite.py:187-223 | all runs, every step: a row moves along a legal edge and if terminal changes only by replay, iff the step is no settle of it, or meets it RUNNING, or repeats what a terminal row says, or puts back a waiting one |
| Exclusion.OwnsOrDispossessed | src/miniq/queue/sqlite.py:135-223 | all runs: an unexpired claim is the claim in force, or an earlier settle by another worker dispossessed its holder while it was |
| Exclusion.ExclusionUnlessDispossessed | src/miniq/queue/base.py:10-16 | all runs, late stores and settles included: no two unexpired claims on a task unless a settle dispossessed a worker still at work on it |
| Exclusion.ClaimSharesIff | src/miniq/queue/sqlite.py:135-214 | all runs: a claim, of whatever origin and delay, shares the task with an unexpired claim iff a dispossessed worker is still at work on it |
| Exclusion.ExclusionFailsIff | src/miniq/queue/base.py:10-16 | all runs: two unexpired claims on a task ever coexist iff the run has such a claim |
| Exclusion.ClaimedStep | src/miniq/queue/sqlite.py:135-223 | every step, late or not, keeps: RUNNING with a deadline iff a claim is in force, and its holder has that deadline |
| Scenarios.LateNackBreaksExclusion | src/miniq/queue/sqlite.py:198-214 | a run with a ten-second retry delay in which two workers hold unexpired claims on one task |
| Scenarios.LateDeadLetterBreaksExclusion | src/miniq/cli.py:148-161 | a run without any nack for retry in which a late dead letter and a replay do the same |
| Scenarios.LateNackResurrects | src/miniq/queue/sqlite.py:198-214 | a run in which a task that has succeeded is waiting again |
| Scenarios.LateAckRewrites | src/miniq/queue/sqlite.py:187-196 | a run in which a late ack overwrites the finish time of a task that has succeeded |
| Scenarios.PurgeLosesOutcome | src/miniq/cli.py:184-210 | a timely run in which a purge between store and ack leaves a succeeded task without outcome |
| Scenarios.LateStoreContradicts | src/miniq/results.py:145-165 | a run without purge in which a late store makes the outcome of a task that has succeeded say failed |
| Scenarios.SparingPurgeLosesOutcome | src/miniq/cli.py:184-210 | a run whose one purge spares every worker with a claim in force, and that ends with a failed task without outcome |
| Scenarios.UndecodableBlocks | src/miniq/queue/sqlite.py:156-167 | a run after which the only task never decodes, is never delivered, and makes dequeue raise |
| Outcomes.CoherentStep | src/miniq/worker.py:76-100 | timely steps other than purge keep each terminal row's outcome stored and telling the same |
| Outcomes.PurgeKeepsCoherentIff | src/miniq/cli.py:184-210 | in coherent states of timely runs: purge keeps the stores coherent iff it deletes no outcome that a worker with a claim in force has yet to settle |
| Outcomes.StoryIff | src/miniq/worker.py:76-100 | all runs, late stores and settles and purges included: a task's terminal row and its stored outcome never disagree iff every store on a terminal row repeats it and every ack or dead letter finds its own copy's outcome stored |
| Outcomes.PurgeThenSettleIff | src/miniq/cli.py:184-210 | for any worker, timely or late, if a purge falls between its store and its settle: the row is coherent afterwards iff it was purged too, or the stored outcome is the worker's own and is spared |
| Outcomes.DeletedOutcomeIsLost | src/miniq/cli.py:190-210 | otherwise the worker's settle leaves a terminal row without outcome |
| Outcomes.OutcomeCoherence | src/miniq/results.py:145-165 | over timely runs whose purges spare every worker with a claim in force, as a corollary of StoryIff: a terminal row's stored outcome has its status, error and finish time, and was stored no earlier |
| Delivery.DeliversUnlessEmpty | src/miniq/queue/sqlite.py:116-171 | a dequeue delivers or raises iff something is ready after the lazy reclaim; it cannot raise where every active row decodes |
| Delivery.DeliversTheBest | src/miniq/queue/sqlite.py:116-151 | a dequeue delivers a waiting, available task of the highest priority created first; only if there is none, such a task among those whose claim has expired |
| Delivery.NothingToDeliver | src/miniq/queue/sqlite.py:116-151 | it finds nothing iff no task is waiting or expired, and available |
| Delivery.DrainOrder | src/miniq/queue/sqlite.py:142-151 | successive dequeues never repeat a task; waiting ones come before expired ones, each group by priority descending, then created_at ascending |
| Delivery.BoundedDelivery | src/miniq/queue/sqlite.py:116-133 | when everything is due, at most size() tasks are delivered, size() deliveries are all of them, and where every row decodes the next dequeue delivers iff there were fewer |
| AtLeastOnce.EveryTaskIsDelivered | src/miniq/queue/base.py:18-23 | after any run without purge and with an invertible serializer, an enqueued task is finished with a stored outcome, or from some moment on size() dequeues with nothing in between are always possible and deliver it, exactly once |
| Starvation.RedeliveredOnlyWhenIdle | src/miniq/queue/base.py:20-22 | whatever is enqueued and settled meanwhile, a claimed task that nobody settles is delivered again only by or after a dequeue that finds nothing ready |
| Starvation.ExpiredClaimStarves | src/miniq/queue/sqlite.py:116-127 | for any number of dequeues a history in which the most urgent task's claim has expired and all of them deliver others |
| Starvation.OnlyUrgentGoFirst | src/miniq/queue/sqlite.py:142-151 | once a task is ready, whatever is enqueued and settled meanwhile, every dequeue delivers it or a task that it does not outrank |
| AtLeastOnce.ReachableTables | src/miniq/queue/sqlite.py:135-223 | every reachable table meets what the delivery, agreement and drain theorems assume |
| Delivery.DrainExists | src/miniq/queue/sqlite.py:116-133 | where every active row decodes, drains exist for every number of dequeues up to size() |
| Delivery.CanDrainIff | src/miniq/queue/sqlite.py:141-171 | size() dequeues can deliver everything iff every active row decodes |
| AtLeastOnce.ReachableDecodes | src/miniq/queue/sqlite.py:238-255 | with an invertible serializer every row of every reachable table decodes |
| MemoryRuns.DrainIsTaken | src/miniq/queue/memory.py:60-85 | repeated dequeues at one clock return what repeated scans take after one reclaim |
| MemoryRuns.TakesTheReady | src/miniq/queue/memory.py:63-85 | exactly the ready tasks are returned, as a permutation |
| MemoryRuns.TakesInOrder | src/miniq/queue/memory.py:70-75 | sorted by priority descending, then created_at ascending, both written out |
| MemoryRuns.TakesStably | src/miniq/queue/memory.py:70-75 | ties come out in deque order |
| MemoryRuns.LeavesTheDelayed | src/miniq/queue/memory.py:68-69 | the delayed tasks stay, in their original order |
| MemoryRuns.BoundedDelivery | src/miniq/queue/memory.py:60-85 | when everything is due and nothing is queued twice, size() dequeues deliver every task exactly once, in one common order |
| MemoryRuns.ActiveUntilRemoved | src/miniq/queue/memory.py:47-124 | all runs, duplicates and writes to shared objects included: an enqueued task stays active until an ack or dead-lettering nack of that task |
| MemoryRuns.AckRemovesIff | src/miniq/queue/memory.py:96-98 | an ack ends a task's activity iff it is not also waiting |
| MemoryRuns.TimelyRunsAreClean | src/miniq/queue/memory.py:47-124 | timely runs: nothing is queued twice, and size() is enqueues less acks and dead letters |
| MemoryRuns.TimelyStep | src/miniq/queue/memory.py:47-124 | a timely operation adds or removes exactly the task it is about |
| MemoryRuns.RetryKeepsCleanIff | src/miniq/queue/memory.py:100-106 | a nack for retry duplicates a task iff the task is already waiting |
| MemoryExclusion.SharedOnlyAfterSettle | src/miniq/queue/base.py:10-16 | all runs: a task queued once is not handed out again before the claim on it expires, unless somebody acked or nacked it in between |
| MemoryExclusion.HeldStep | src/miniq/queue/memory.py:47-124 | no operation but an ack, nack or new enqueue of the task touches an unexpired claim on it |
| MemoryExclusion.LateSettleFreesIff | src/miniq/queue/memory.py:96-106 | a settle of a held task ends the claim whoever makes it: the task is waiting again iff it is a nack for retry, and gone otherwise |
| MemoryExclusion.LateNackShares | src/miniq/queue/memory.py:100-106 | from the empty queue: a late nack lets a third worker have the task that the second still holds |
| MemoryExclusion.LateAckDrops | src/miniq/queue/memory.py:96-98 | from the empty queue: a late ack drops the task that another worker still holds |
| Agreement.TableDelivers | src/miniq/queue/sqlite.py:116-171 | the tasks table refines the abstract queue with lazy reclaim |
| Agreement.MemoryDelivers | src/miniq/queue/memory.py:60-85 | the in-memory queue refines the abstract queue with eager reclaim |
| Agreement.SameChoiceIff | src/miniq/queue/sqlite.py:116-127 | both choose the same task iff no expired claim outranks everything waiting; otherwise which task each one chooses |
| Agreement.DequeueAgrees | src/miniq/queue/memory.py:60-85 | one dequeue on both sides: same task iff not overtaken, and then the states agree again |
| Agreement.OtherCallsAgree | src/miniq/queue/memory.py:96-106 | enqueue, settle, retry and the passing of time keep the states in agreement |
| Agreement.AgreeAlong | src/miniq/queue/sqlite.py:109-223 | the states agree all along a run until a dequeue is overtaken |
| Agreement.BackendsAgree | src/miniq/queue/sqlite.py:109-231 | over whole paired runs: same tasks and same size() up to the first overtaken dequeue, and exactly there different tasks |
| Divergence.BackendsDiffer | src/miniq/queue/memory.py:60-85 | a paired run of five calls after which the backends return different tasks |
| Results.StoreRoundTrip | src/miniq/results.py:145-212 | a stored outcome is read back as it was |
| Results.TableHoldsLastStored | src/miniq/results.py:145-173 | after any stores the table holds, per task, exactly the last one |
| Results.OneStoreMore | src/miniq/results.py:145-165 | a store that serializes makes its task the last stored under its id, and touches no other; one that does not changes nothing |
| Results.SQLiteResultBackend.Store | src/miniq/results.py:145-165 | replaces that task's outcome, or raises and changes nothing |
| Results.SQLiteResultBackend.Wait | src/miniq/results.py:175-193 | returns at the first look at which the stored outcome is a success or a failure, and only then; times out at the first look past the deadline with none so far |
| Results.AsyncResult.Get | src/miniq/task.py:107-119 | whatever was stored before and arrives meanwhile: the value or error of the last stored outcome at the first look at which it is a success or a failure, and iff it is by then; a timeout only past the deadline; never the unexpected-status error |
| MemoryResults.InMemoryResultBackend.Wait | src/miniq/results.py:85-104 | with other threads storing tasks and changing filed objects between looks: returns the filed object at the first look at which it is terminal, or times out at the deadline with none so far |
| MemoryResults.FiledHoldsLast | src/miniq/results.py:76-83 | after any stores, under each id lies exactly the object last stored for it |
| MemoryResults.InMemoryAsyncResult.Get | src/miniq/task.py:107-119 | whatever other threads store and change: the value or error of the object last stored, and the unexpected-status error exactly when a change after the wait made that object non-terminal |
| SharedOutcomes.DequeueUndoesIff | src/miniq/queue/memory.py:60-85 | a terminal stored outcome stays terminal after a dequeue iff its object is neither an overdue claim nor the one picked |
| SharedOutcomes.NackUndoesIff | src/miniq/queue/memory.py:100-106 | and after a nack iff the nack does not put that very object back |
| SharedOutcomes.RedeliveryUndoesOutcome | src/miniq/queue/memory.py:112-122 | from the empty queue: a claim that expires between store and ack undoes the outcome |
| SharedOutcomes.LateStoreIsUndone | src/miniq/queue/memory.py:77-85 | from the empty queue: an outcome stored after the claim was reclaimed is undone by the next dequeue |
| SharedOutcomes.MarkSurprisesGet | src/miniq/task.py:114-119 | a success is stored, the object is marked running or pending between wait and the test of the status, and get raises its unexpected-status error |
| Workers.Worker.RunOnce | src/miniq/worker.py:56-79 | the whole run_once with its polling, under any locks and with other workers changing the tables between any two of its transactions: claims as dequeue does, stores before it settles; a claim followed by no lock ends True, with the row SUCCESS, FAILED with the message, or PENDING with one retry more after the policy's delay |
| Workers.HandlesMeans | src/miniq/worker.py:64-100 | what run_once does with a claimed task, column by column, with and without locks at its store and its settle |
| Workers.Worker.HandleFailure | src/miniq/worker.py:81-95 | retries exactly if retries are left and the policy returns a delay, with one retry more and available_at that delay from now; otherwise FAILED with the message, stored and dead-lettered |
| Workers.Worker.DeadLetter | src/miniq/worker.py:97-100 | the failed outcome is stored before the row is settled; no outcome, no settle |
| Workers.RunOnceIsPath | src/miniq/worker.py:56-100 | every run_once, whether it claims, comes back empty-handed or raises, with the steps of any other workers in between, is a path of the protocol, so all-runs results cover it |
| Workers.LoneRunOnceIsPath | src/miniq/worker.py:56-100 | for a lone worker the path needs nothing but its own steps and time passing |
| Workers.EnqueueIsStep | src/miniq/queue/sqlite.py:82-107 | an enqueue of a new task is a step of the protocol |
| Workers.ReplayIsStep | src/miniq/cli.py:148-161 | and so is a replay |
| Workers.PurgeIsStep | src/miniq/cli.py:184-210 | and a purge |
| EndToEnd.RunThenGet | src/miniq/worker.py:56-100 | run_once and then get: a function that returned v makes get return v, and a failure that is not retried makes it raise with its message |
| EndToEnd.RunThenGetInMemory | src/miniq/worker.py:56-100 | the same over the in-memory backends, whatever other threads do to the queue until the function ends |
| MemoryWorkers.MemoryWorker.RunOnce | src/miniq/worker.py:56-79 | over shared objects, with any calls of other threads while it waits and while the function runs: a claimed task is retried or finished, as the verdict says; a finished task's own object is filed and says the value returned or the message; a lone worker leaves outcomes filed before as they were |
| MemoryWorkers.ProcessedMeans | src/miniq/worker.py:64-100 | what becomes of the queue and of what is filed, field by field, for each way an execution can end |
| MemoryWorkers.MemoryWorker.HandleFailure | src/miniq/worker.py:81-95 | retries exactly if retries are left and the policy returns a delay, with one retry more and available_at that delay from now, the write showing wherever the object is queued; otherwise FAILED with the message and filed |
| MemoryWorkers.ChangedClaim | src/miniq/worker.py:89-92 | in a queue without duplicates that write shows nowhere but in the claim that is dropped |
| MemoryWorkers.MemoryWorker.DeadLetter | src/miniq/worker.py:97-100 | the failed object is filed and its claim dropped |
| Draining.TurnsAreBounded | src/miniq/worker.py:86-100 | calls of which some use up one execution each and the others none: the former are bounded by the total budget, and a task has left iff it was finished exactly once |
| Draining.CallUsesBudget | src/miniq/worker.py:56-100 | every run_once over the tables uses one execution of its task's budget if it returns True and none otherwise; outcomes are only added or replaced by terminal ones, and a finished task has one |
| Draining.WorkerDrains | src/miniq/worker.py:56-100 | any policy, outcomes and locks, with empty-handed and raising calls in between: at most the sum of remaining executions calls return True; a task no longer active was finished exactly once and has a terminal outcome |
| Draining.ClaimIsTurn | src/miniq/worker.py:56-100 | a call that claimed a task and then met no lock returned True |
| Draining.WorkerFinishes | src/miniq/worker.py:56-104 | as many lock-free calls at due times as the active tasks have executions left finish every task, exactly once and with a terminal outcome |
| MemoryDraining.MemoryCallUsesBudget | src/miniq/queue/memory.py:96-110 | the same for one run_once over the in-memory queue, which files one outcome if and only if it finishes its task |
| MemoryDraining.MemoryWorkerDrains | src/miniq/queue/memory.py:96-110 | the same bound for the in-memory queue, with empty-handed and raising calls in between; at size() 0 every queued task was finished exactly once and a terminal outcome is filed for it |
| MemoryDraining.MemoryWorkerFinishes | src/miniq/worker.py:56-104 | the same for the in-memory queue |
| Cli.Database.Replay | src/miniq/cli.py:140-175 | exit code 0 iff the task had failed: it is then ready at any time with its whole budget and no other row changes; otherwise 1 and no change |
| Cli.Database.Purge | src/miniq/cli.py:178-215 | per task and per stored result: it goes iff it is finished (and failed ones are included) and old enough, and stays unchanged otherwise; counts both |
| Cli.ReplayRevives | src/miniq/cli.py:148-161 | a replayed task is ready at any time with its whole budget; no other row changes |

## Left out

- WorkerPool, signals and process spawning: a worker's death is a crash step.
- Argument parsing, printing, `status` and `dlq list`: they change nothing.
- SQLite itself (WAL, indexes, busy timeout, the SQL text): each table is a map, each transaction one atomic step that may find the database locked.
- JSON encoding: the serializer is abstract; theorems about payloads assume that it reads back what it wrote.
- Condition variables, sleeping and real threads: each lock-held body is atomic, waiting is a sequence of rounds, and per-field atomicity of shared task objects is not claimed.
- Floating point: times and delays are reals, `factor ** (attempt - 1)` does not overflow, and the random generator is replaced by draws within the spread.
- Registry, exception classes, `Miniq` and `TaskWrapper`: a lookup succeeds or fails, an enqueued task has any priority, budget and `available_at`.
- Duplicate enqueues of an id in memory, enqueues of tasks that are not PENDING or have retries, negative `max_retries`: excluded from runs; a duplicate INSERT raises in `SQLiteQueue.Enqueue`. Two objects with one id are excluded where threads write to shared objects.
- Wall clock and monotonic clock are one clock, read once per dequeue round (for its claims and its reclaim) and once when the function ends.
- One-line methods whose contract says no more than their body (`SQLiteQueue.Size`, `SQLiteResultBackend.Get`, `InMemoryResultBackend.Store` and `Get`): the table names the theorems about them instead.
- AtLeastOnce.EveryTaskIsDelivered: the size() dequeues follow one another directly; with enqueues and settles among them, `Starvation.RedeliveredOnlyWhenIdle` and `Starvation.OnlyUrgentGoFirst` say what a task may have to wait for.
- RetryPolicies.GeometricTotal: states the sum multiplied by (factor - 1) instead of divided.
- Agreement.BackendsAgree: assumes that no two active tasks have the same priority and creation time, because SQLite breaks such ties as it likes.
- Outcomes.OutcomeCoherence: for timely runs; `Outcomes.StoryIff` is the condition for all runs.
