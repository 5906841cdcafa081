# Webhook delivery engine: a verified model

This project models the delivery engine of a webhook platform and proves what it
guarantees. Events become rows in Postgres and ids in Redis; workers reserve ids,
call the webhook and settle the row; a scheduler promotes what is due and reaps
what was abandoned; an operator replays dead letters.

## How it is built

The engine is one transition system (`Protocol`). Its state is the five Redis
structures, the `jobs` and `delivery_attempts` tables, a clock, and where each
worker, enqueuer and replayer has got to. Every Lua script, Redis command and SQL
statement is one step; between two steps anybody else may run. A crash, an
abandoned job and a stall without end are all the same thing: the actor takes no
further step. A claim is one turn of a worker's loop, a hand is one enqueue call
or one turn of the replay loop. Any number of each, and of self-believed leading
schedulers, act at once.

There are two kinds of run.

- In a *free* run there is no timing assumption. A stalled worker may act long
  after its lease is gone, on an id that others have claimed since.
- In a *timely* run a worker acts only while its own lease runs (the premise at
  src/queue.ts:37-44) and no clock reading lies in the future. Crashes are still
  possible between any two steps; enqueuers, replayers and schedulers may stall.

The proofs go through `JobView`, the same machine as one job id sees it:
`Projection` shows that every step of the system is, for each id, one step of its
view or none. `FreeRuns`, `TimelyRuns` and `Budgets` hold the invariants of the
view; `Theorems`, `TimelyTheorems` and `BudgetTheorems` state them of whole runs,
`AuditTheorems` sets the audit trail against the requests made, `OrderTheorems`
shows that `ready` and the dead-letter queue are served in order, `Recovery` says
exactly when a live job can be lost, `Patience` how soon an abandoned or delayed
one is back, and `ReplayTheorems` what a replayed one starts with. `Scenarios`,
`LateWorker` and `Shortfalls` build concrete runs.

The services are also modelled as they are written, as classes whose methods
change the stores in place, and each is tied to the protocol: `JobService`,
`Worker` and `Uninterrupted` show that an undisturbed call, worker loop, enqueue,
replay or sweep is a run of it, so what holds of every reachable state holds after
it (`Worker.WorkerKeepsNumbering`). `Outcomes` says what one call of `process` comes
to by the stores alone.

The token bucket, the circuit breaker, the lock and the idempotency slot are
modelled once as stores and once as histories or protocols of their own;
`EnqueueTheorems` ties an undisturbed enqueue call to the slot's.

Conventions: an id is a number (a UUID in fixed-width hex orders as its number);
Redis lists have their head at index 0; a Redis key with a time to live is gone
exactly when the clock is past its expiry; times are whole milliseconds; token
counts are real numbers; an HTTP response is an optional status code and a random
draw is any real in [0, 1).

## Where the comments promise more than the code does

- src/queue.ts:73-75 says the reaper deals with an inflight id that has no lease.
  The script scans leases only, so it never does: `Shortfalls.ReaperNeverComes` is
  such a run, and by `TimelyTheorems.OnlyTheClaimerEndsTheWindow` nobody but the
  stopped claimer can ever end it.
- "The job is never lost" (src/modules/jobs/job.service.ts:118-126) fails for a
  replayed job when a worker still holds an ack from its former life:
  `LateWorker.LateAckLosesReplay` is such a run. `Recovery.NeverLostIff` is the
  exact condition, and `Recovery.NoPushLost` the guarantee under it, over all runs.
- A dead row's id need not be in the dead-letter queue. A worker may stop between
  the UPDATE and the script, after which the id is reaped and acked away, on time
  throughout: `Shortfalls.DeadRowOutsideDlq`. `BudgetTheorems.DeadIsInDlqIff` gives
  the exact condition.
- "At most one job per key" (src/idempotency.ts:7-9) fails when an abort frees a
  slot whose row was written (`IdempotencyTheorems.LateAbortAllowsSecondJob`);
  while no row is deleted and the slot does not expire,
  `IdempotencyTheorems.RowsPerKey` is the exact count and
  `IdempotencyTheorems.SecondJobIff` the exact condition. It also fails, with no
  error at all, when a job's row is deleted: src/modules/jobs/job.service.ts:66-67
  means to create one fresh job and reuse the slot, but two duplicates that find
  the row gone each create one (`IdempotencyTheorems.StraysCreateTwoJobs`).
  `IdempotencyTheorems.RowsExactly` is the exact count whatever happens to the
  key, and `IdempotencyTheorems.SecondLiveJobIff` says exactly when deletions
  alone leave more than one live job.
- "Two tenants' keys can never collide" (src/idempotency.ts:34-35) holds exactly
  for tenants neither of which continues the other after a colon, for the
  non-empty keys that reserve a slot at all:
  `Idempotency.TenantsShareSlotIff`.
- That a job in flight is owned by exactly one worker
  (src/modules/deliveries/delivery.repository.ts:33-34) holds in timely runs
  (`TimelyTheorems.OneOwner`) and not in free ones
  (`LateWorker.TwoWorkersOneJob`: two requests for one job under one number).
  `LateWorker.SecondOwnerIff` says exactly which step ends it: taking the job while
  a claim on it is unfinished, which only a claim past its lease can be. The
  numbering it is meant to protect holds in all runs.
- "One row per HTTP request actually made"
  (src/modules/deliveries/delivery.repository.ts:4) fails for a request cut off
  before its INSERT and, in free runs, for one whose number another worker took:
  `AuditTheorems.RowsAndRequests` counts the requests exactly in every run, and by
  `AuditTheorems.RowPerRequest` only the first kind is left in timely ones.
- A succeeded row stays succeeded in timely runs only.
  `LateWorker.LateWorkerUndoesSuccess` is a free run that queues it again, and
  `LateWorker.SuccessUndoneOnlyLate` says exactly which steps can be the first to
  do so: all come from workers past their lease.
- `updateState` clears `lastError` whenever it is omitted
  (src/modules/jobs/job.repository.ts:98), so a deferral erases the last error:
  `Shortfalls.DeferralErases`, and a run in `Shortfalls.DeferralForgetsError`.

## Model

| member | source | states |
|---|---|---|
| `Theorems.NoJobLost` | src/queue.ts:67-205 | in every free run, a job pushed to Redis whose row exists and was never terminal is in `ready`, in `delayed`, or under a lease, unless some worker stands between BRPOPLPUSH and ZADD with it |
| `Recovery.NoPushLost` | src/modules/jobs/job.service.ts:118-306 | in every free run, in any life: from the step that pushes it, and while its row is live, a job is in `ready`, in `delayed`, under a lease or in the reserve window, provided no claim on it stood before an ack or a dead-letter script when it was pushed |
| `Recovery.NeverLostIff` | src/modules/jobs/job.service.ts:118-126 | a live waiting job can be lost by some continuation with its row live throughout if and only if some claim on it stands just before an ack or a dead-letter script; the same if everybody reads the clock as it stands and sweeps 100 at a time |
| `Patience.TicksBringBack` | src/entrypoints/scheduler.ts:69-78 | each tick reading the clock anew: an abandoned id with k leases at or before its own is back in `ready` after n ticks of 100 past its expiry iff k <= 100 n |
| `Patience.TicksPromote` | src/entrypoints/scheduler.ts:69-78 | the same for an id in `delayed` with k scores at or before its own |
| `Patience.OutInTurn` | src/queue.ts:164-205 | in every free run, whatever others do between the sweeps: by the time 100 per sweep that came late enough adds up to its place in line and those who pushed in before it, an id has left its place in `delayed` or `leases` at a step of that stretch, swept into `ready` or released or given another time by someone who held it |
| `Patience.TicksAreARun` | src/entrypoints/scheduler.ts:69-78 | any number of a leader's ticks are a run of the protocol that leaves every row alone |
| `Theorems.AttemptNumbersAreSequential` | src/modules/deliveries/delivery.repository.ts:25-60 | in every free run the attempt numbers of a job are 1, 2, ..., n in order of insertion |
| `Theorems.ReachableNumbersAreSequential` | src/modules/deliveries/delivery.repository.ts:25-44 | so they are in every state some run comes to |
| `Theorems.RecordRefusedIff` | migrations/001_init.sql:43-54 | in every free run an audit INSERT is refused exactly when the row is gone or the number was recorded first, and an accepted one has number n + 1 |
| `Theorems.FreeReach` | src/modules/jobs/job.service.ts:118-126 | the free-run invariants hold of every job in every reachable state |
| `Theorems.TimelyReach` | src/queue.ts:37-44 | the timely-run invariants hold of every job in every reachable state |
| `Theorems.SettledMeansTerminal` | src/modules/jobs/job.service.ts:138-144 | a job remembered as settled had a terminal row at some earlier state of the run |
| `Theorems.JobsKeepTheirWebhook` | src/modules/jobs/job.repository.ts:24-140 | in every free run a job keeps the webhook and the retry budget it was enqueued with, replays included |
| `OrderTheorems.ReadyIsFifo` | src/queue.ts:50-98 | in every free run the ids taken, then those still in `ready`, are the ids that arrived in `ready`, in that order, a sweep's by their times |
| `OrderTheorems.DlqIsFifo` | src/queue.ts:143-278 | in every free run the dead letters taken up for replay, then those that wait, are the dead letters in the order of their burial |
| `TimelyTheorems.OneLocation` | src/queue.ts:67-91 | each id is at most once across `ready`, `inflight`, `delayed`, `dlq` and the hands of enqueuers and replayers; a lease belongs to an inflight id; an inflight id has no lease exactly when its claimer is, or stopped, in the reserve window |
| `TimelyTheorems.OneOwner` | src/modules/deliveries/delivery.repository.ts:33-34 | no two workers may act on one job |
| `TimelyTheorems.OnlyTheClaimerEndsTheWindow` | src/queue.ts:73-75 | an id whose claimer takes no further step in the reserve window stays in flight, leaseless and out of `ready`, whatever everybody else does |
| `TimelyTheorems.SweepsConserve` | src/entrypoints/scheduler.ts:51-79 | a promotion or reap by any number of schedulers leaves the multiset of all ids in Redis as it was |
| `TimelyTheorems.RedisAgreesWithPostgres` | src/modules/jobs/job.service.ts:269-281 | a delayed id has a queued row due at its score, a dead letter has a dead row, and a live row's id waits in exactly one of `ready`, `inflight`, `delayed` or is in someone's hands |
| `TimelyTheorems.SucceededRowsFreeze` | src/modules/jobs/job.service.ts:138-144 | from the state in which a row succeeded it stays the same until it is deleted |
| `TimelyTheorems.SucceededIsFinal` | src/modules/jobs/job.service.ts:138-144 | a succeeded row never changes again and its job is never called again |
| `BudgetTheorems.AttemptsCountOutcomes` | src/modules/jobs/job.service.ts:201-259 | attempts equals the claims of the current life whose outcome was counted; the other HTTP calls of that life belong to claims that stand between the call and the UPDATE; a live row has budget left |
| `BudgetTheorems.CallsAreClaims` | src/modules/deliveries/delivery.service.ts:86-108 | the HTTP calls of a life, read off the run, number the claims that made one |
| `AuditTheorems.RowsAndRequests` | src/modules/deliveries/delivery.repository.ts:1-7 | in every free run, while the job exists, counted off the run's steps: the HTTP requests ever made for it are its audit rows, plus claims between the request and its INSERT, plus INSERTs turned down because another worker had taken the number |
| `AuditTheorems.RowPerRequest` | src/modules/deliveries/delivery.service.ts:82-133 | in every timely run no INSERT is turned down while the job exists, so the requests are its audit rows plus the claims that stand, for now or for good, between the request and its INSERT |
| `BudgetTheorems.OutcomeDecides` | src/modules/jobs/job.service.ts:198-259 | a counted outcome makes the row succeeded iff it is a 2xx, dead iff it is permanent or the last attempt, and otherwise queued within the backoff cap, judged by the row as it stands and not as it was read |
| `BudgetTheorems.ConstraintsNeverFire` | migrations/001_init.sql:34 | while the row exists neither the CHECK on attempts nor UNIQUE (jobId, attemptNumber) makes a worker throw |
| `BudgetTheorems.OnlyOutcomesSpendAttempts` | src/modules/jobs/job.service.ts:148-187 | no step but a counted outcome or a replay of this very job changes its attempts; deferrals in particular do not |
| `BudgetTheorems.BackoffPerLife` | src/modules/jobs/job.service.ts:218-259 | the retries one life schedules, read off the run, are at most maxAttempts - 1, and their delays sum to at most min(1000 (2^(maxAttempts-1) - 1), 60000 (maxAttempts-1)) ms |
| `BudgetTheorems.DelaysAreScheduled` | src/modules/jobs/job.service.ts:249-259 | the delays a job remembers are those the outcomes of its current life scheduled in the run |
| `BudgetTheorems.DeadIsInDlqIff` | src/modules/jobs/job.service.ts:228-236 | a dead row's id is in the DLQ or popped by a replay exactly when no worker stopped between the UPDATE and the dead-letter script |
| `BudgetTheorems.NoEarlyCall` | src/modules/jobs/job.service.ts:82-92 | no HTTP call starts before `runAt` unless the step that last put the id in `ready` was a reap |
| `BudgetTheorems.ArrivalsAreSeen` | src/queue.ts:164-205 | the arrival a job remembers is the last step of the run at which `ready` gained its id |
| `LateWorker.LateWorkerUndoesSuccess` | src/modules/jobs/job.service.ts:252-259 | a free run in which a worker past its lease turns a succeeded row back to queued |
| `LateWorker.SuccessUndoneOnlyLate` | src/modules/jobs/job.repository.ts:86-114 | after any timely run, a step undoes a success iff it is one of these UPDATEs, and each comes from a worker whose lease is over |
| `LateWorker.TwoWorkersOneJob` | src/modules/deliveries/delivery.repository.ts:33-44 | a free run in which two workers have one job's request on its way under one attempt number |
| `LateWorker.SecondOwnerIff` | src/modules/deliveries/delivery.repository.ts:33-34 | after a timely run, a step leaves two unfinished claims on a job iff it takes the job while another claim on it is unfinished; every claim it takes the job from has recorded a lease and outlived it |
| `LateWorker.LateAckLosesReplay` | src/modules/jobs/job.service.ts:138-144 | a free run that ends with a replayed job's row queued and its id in no Redis structure and nobody's hands |
| `Shortfalls.DeadRowOutsideDlq` | src/modules/jobs/job.service.ts:228-236 | a timely run that ends with a dead row whose id is in no Redis structure and nobody's hands |
| `Shortfalls.ReaperNeverComes` | src/queue.ts:73-91 | a timely run in which a reap, however late, leaves a leaseless id in flight |
| `Shortfalls.DeferralErases` | src/modules/jobs/job.repository.ts:94-108 | in every timely run a deferral leaves the row without an error and its attempts as they were |
| `Shortfalls.DeferralForgetsError` | src/modules/jobs/job.service.ts:177-180 | a timely run in which a deferral erases the error of the attempt before |
| `Projection.ProjectStep` | src/queue.ts:77-223 | every step of the whole system is, seen from any one job, a step of that job's view or none |
| `Projection.ProjectTiming` | src/queue.ts:37-44 | a timely step is timely seen from every job |
| `FreeRuns.NeverLostStep` | src/modules/jobs/job.service.ts:118-267 | every step of anyone keeps the recoverability invariant |
| `FreeRuns.NumberingStep` | src/modules/deliveries/delivery.repository.ts:36-60 | every step keeps recorded numbers sequential and read numbers at most one beyond them |
| `TimelyRuns.LocatedStep` | src/queue.ts:77-223 | every timely step keeps single location and single ownership |
| `TimelyRuns.AgreedStep` | src/modules/jobs/job.service.ts:127-306 | every timely step keeps the agreement of Redis, Postgres and what each acting worker has read |
| `Budgets.BudgetedStep` | src/modules/jobs/job.service.ts:127-267 | every timely step keeps the attempt and delay budgets |
| `Budgets.InterredStep` | src/modules/jobs/job.service.ts:228-243 | every timely step keeps the account of where a dead row's id is |
| `Budgets.PunctualStep` | src/modules/jobs/job.service.ts:156-187 | every timely step keeps ids in `ready` and with workers due, reaped ones apart |
| `Queue.RedisQueue.PushReady` | src/queue.ts:50-52 | prepends to `ready`, changes nothing else, returns the length |
| `Queue.RedisQueue.Schedule` | src/queue.ts:55-61 | sets the id's score in `delayed` and changes nothing else |
| `Queue.RedisQueue.PopToInflight` | src/queue.ts:81-87 | moves the tail of `ready` to the head of `inflight`, or nothing when empty |
| `Queue.RedisQueue.Reserve` | src/queue.ts:77-91 | pop, then lease; if the second command fails the id is left in flight without a lease |
| `Queue.RedisQueue.Acknowledge` | src/queue.ts:100-108 | removes one inflight occurrence and the lease |
| `Queue.RedisQueue.Retry` | src/queue.ts:113-134 | the same, and schedules the id |
| `Queue.RedisQueue.Bury` | src/queue.ts:143-152 | the same, and prepends the id to the DLQ |
| `Queue.RedisQueue.PromoteBatch` | src/queue.ts:164-188 | the loop moves exactly the first due ids in (score, id) order, and counts them |
| `Queue.RedisQueue.ReapBatch` | src/queue.ts:197-223 | the loop frees exactly the first expired leases in (score, id) order, and returns them |
| `Queue.RedisQueue.PopDeadLetter` | src/queue.ts:276-278 | removes the oldest dead letter and pushes it nowhere |
| `Promotion.SweepsPromoteInOrder` | src/queue.ts:158-171 | n sweeps of a batch are one sweep of n times the batch: the first n * batchSize due ids, in order, and nothing else |
| `Promotion.SweepsRefineOnePromotion` | src/queue.ts:164-171 | sweeping to exhaustion is one promotion of all due ids, whatever the batch size; exactly the ids not yet due stay |
| `Promotion.SweepFindsNothingIff` | src/queue.ts:173-188 | a sweep finds nothing iff the sweeps before it had room for every due id |
| `Promotion.LeavesDelayedByRank` | src/queue.ts:164-171 | an id with k due ids at or before it has left `delayed` after n sweeps iff k <= n * batchSize |
| `Redis.DueOrderIsSorted` | src/queue.ts:165 | due ids are promoted by score, ties by id |
| `Promotion.PromotionConserves` | src/queue.ts:158-171 | a promotion makes and drops no id |
| `Reaping.ReapsFreeInOrder` | src/queue.ts:190-205 | n reaps of a batch are one reap of n times the batch: the first n * batchSize expired leases, in order, and nothing else |
| `Reaping.LosesLeaseByRank` | src/queue.ts:197-205 | an id with k expired leases at or before its own has lost it after n reaps iff k <= n * batchSize |
| `Reaping.ReapConservesIff` | src/queue.ts:197-205 | a reap makes no id exactly when every expired lease belongs to an inflight id |
| `Reaping.ReaperSkipsLeaseless` | src/queue.ts:197-205 | the reaper leaves an id without a lease where it is |
| `Jobs.JobRepository.Insert` | src/modules/jobs/job.repository.ts:24-51 | adds one row with the column defaults |
| `Jobs.JobRepository.FindById` | src/modules/jobs/job.repository.ts:53-58 | a row comes back iff there is one, and it is that job's |
| `Jobs.JobRepository.FindByIds` | src/modules/jobs/job.repository.ts:69-78 | the rows of these ids in the order of the ids, missing ones dropped |
| `Jobs.RowsForIs` | src/modules/jobs/job.repository.ts:69-78 | the rows are looked up one after the other, each there or not |
| `Jobs.JobRepository.UpdateState` | src/modules/jobs/job.repository.ts:86-114 | overwrites state and last error, adds to attempts, keeps `runAt` when omitted; changes nothing when the row is gone or the CHECK fails |
| `Jobs.JobRepository.ResetForReplay` | src/modules/jobs/job.repository.ts:125-140 | a fresh life for this row only |
| `Deliveries.DeliveryRepository.NextAttemptNumber` | src/modules/deliveries/delivery.repository.ts:36-44 | MAX + 1, which no recorded attempt of the job has |
| `Deliveries.DeliveryRepository.Insert` | src/modules/deliveries/delivery.repository.ts:46-60 | appends the row iff the job exists and its number is new |
| `Deliveries.NextAfterSequential` | src/modules/deliveries/delivery.repository.ts:38-40 | over 1..n the next number is n + 1 |
| `Deliveries.NextIsNew` | src/modules/deliveries/delivery.repository.ts:25-35 | the next number exceeds every recorded one, so a replayed job never reuses one |
| `Backoff.BackoffMs` | src/backoff.ts:30-36 | every delay is at least 0 and below the capped exponential |
| `Backoff.EveryDelayIsDrawn` | src/backoff.ts:34-35 | full jitter: every whole delay below the cap is reached by some draw |
| `Backoff.EqualShares` | src/backoff.ts:34-35 | each whole delay has an equal slice of the draws |
| `Backoff.CapDoubles` | src/backoff.ts:18-33 | the cap is a second after the first attempt and doubles with each further one up to a minute |
| `Backoff.OutcomeClasses` | src/backoff.ts:53-58 | an outcome is a success, retryable or permanent; which ones are permanent, both ways |
| `Backoff.TotalBackoff` | src/backoff.ts:18-36 | delays within their caps sum to at most the geometric and the linear bound |
| `Processing.ProcessIsARun` | src/modules/jobs/job.service.ts:118-267 | `process` run to its end is a run of the protocol made of that claim's steps alone |
| `JobService.Processor.Process` | src/modules/jobs/job.service.ts:127-267 | the call changes Redis and Postgres as the protocol's steps do; and, by the stores alone: a finished or missing job is let go; behind an open breaker nothing is sent, no token is spent and row and id are put off by the cooldown; with less than a token they are put off until one is there; past both gates one request is made, recorded and settled by its outcome; the webhook's breaker hears of one check and of that outcome, its bucket of one token |
| `Outcomes.GateIs` | src/modules/jobs/job.service.ts:157-187 | the breaker decides first, then the bucket, and by how much a job is put off |
| `Outcomes.BlockedIff` | src/circuit.ts:42-59 | a breaker stops a job exactly while its key has not expired, its state is open and the cooldown has not passed |
| `Outcomes.PutOffMeans` | src/modules/jobs/job.service.ts:157-187 | put off: the row queued for then with nothing spent, the id scheduled for then and unleased, everything else untouched |
| `Outcomes.AwaitsTokenMeans` | src/modules/jobs/job.service.ts:172-186 | put off for a token: for the price of what is missing, to the millisecond, and a tenth of a second at least |
| `Outcomes.SentMeans` | src/modules/deliveries/delivery.service.ts:126-133 | one more audit row, with the outcome, numbered above all that the job had |
| `Outcomes.SettledMeans` | src/modules/jobs/job.service.ts:201-259 | a 2xx leaves the row succeeded; no answer, 408, 429 or 5xx with attempts left leaves it queued and the id delayed for less than the cap; anything else leaves it dead and the id the newest dead letter; an attempt is spent and the lease gone in any case |
| `Outcomes.WebhooksKeepApart` | src/modules/jobs/job.service.ts:146-178 | no two webhooks share a breaker or a bucket |
| `Outcomes.BreakerTold` | src/modules/jobs/job.service.ts:195-205 | a 2xx is told to the breaker as a success, any other recorded outcome as a failure, and nothing else is |
| `JobService.Processor.ProcessLive` | src/modules/jobs/job.service.ts:146-267 | the same once a live row has been read: the gates, then the delivery |
| `JobService.Processor.Defer` | src/modules/jobs/job.service.ts:157-187 | row put off, then id, and neither if the UPDATE throws |
| `JobService.Processor.Attempt` | src/modules/jobs/job.service.ts:192-267 | marks, delivers, tells the breaker, settles; stops where something throws |
| `JobService.Processor.Finish` | src/modules/jobs/job.service.ts:201-259 | with the outcome recorded: the breaker is told of it, then row and queue are settled |
| `JobService.Processor.Deliver` | src/modules/deliveries/delivery.service.ts:66-151 | number, call, audit row, in that order |
| `JobService.Processor.Conclude` | src/modules/jobs/job.service.ts:201-259 | the row and then the queue, by the recorded outcome |
| `Worker.WorkerProcess.Consume` | src/entrypoints/worker.ts:43-73 | the loop is reserve and process, turn after turn, each under a claim of its own; a turn that throws does not end it; and every turn serves the tail of `ready` |
| `Worker.WorkerProcess.ConsumeOne` | src/entrypoints/worker.ts:46-70 | one turn, with the failures it survives: the tail of `ready` is taken, leased and handled |
| `Worker.ServedMoves` | src/entrypoints/worker.ts:46-61 | the turn's claim is on the id at the tail of `ready` and past its lease |
| `Worker.ServedDiscards` | src/entrypoints/worker.ts:46-61 | a missing or finished job is out of flight after the turn, and nothing else happened |
| `Worker.ServedDelivers` | src/entrypoints/worker.ts:46-61 | a live job within budget and past its gates has one more audit row, with the outcome, and one attempt spent; its id is unleased and out of flight; it succeeded iff the outcome was a 2xx |
| `Worker.WorkerIsARun` | src/entrypoints/worker.ts:43-73 | any number of turns is a run of the protocol |
| `Worker.WorkerKeepsNumbering` | src/entrypoints/worker.ts:43-73 | from a reachable state it leads to a reachable one, where every job's attempts are still numbered 1..n |
| `Enqueue.Enqueuer.Admit` | src/modules/jobs/job.service.ts:42-73 | who is refused, who gets the existing job, who goes on, and what becomes of the slot |
| `Enqueue.Enqueuer.Create` | src/modules/jobs/job.service.ts:75-92 | row first, id second, where its due time says; what is left behind when either fails, before or after taking effect |
| `Enqueue.Enqueuer.Submit` | src/modules/jobs/job.service.ts:27-116 | only the owner of an active webhook is served, who else is told not found or inactive, and refusals leave no trace; what a caller is given is a stored row, its own new one queued for this webhook and waiting where its time says; every store's contents in each case, for failures before and after taking effect and an abort that fails too |
| `EnqueueTheorems.SubmitIsARun` | src/modules/jobs/job.service.ts:27-116 | what one undisturbed keyed call promises of slot, rows and answer, with its failures, is what a chain of that request's own steps among the interleaved calls' ends with |
| `EnqueueTheorems.RetryTold` | src/modules/jobs/job.service.ts:94-115 | after a first call that found the key free, a retry gets that job iff the slot names it, is told to wait iff the slot stayed pending, and makes a second job iff the first call failed after its row was written and its abort took effect |
| `Replay.ReplayService.ReplayOne` | src/modules/jobs/job.service.ts:286-298 | one dead letter: popped, its row reset, pushed; dropped if it has no row |
| `Replay.ReplayService.Replay` | src/modules/jobs/job.service.ts:282-306 | consumes the oldest min(limit, size) ids, returns in order those with rows, resets only their rows, each at its own time, and appends them to `ready` in that order |
| `Replay.ReplayedRows` | src/modules/jobs/job.repository.ts:116-140 | exactly the consumed ids' rows are reset, each to the time of one of its turns |
| `Uninterrupted.CreateIsARun` | src/modules/jobs/job.service.ts:75-92 | an undisturbed enqueue is a run of the protocol |
| `Uninterrupted.ReplayOneIsARun` | src/modules/jobs/job.service.ts:286-298 | so is one turn of replay |
| `Uninterrupted.ReplayIsARun` | src/modules/jobs/job.service.ts:282-306 | so is the whole replay loop |
| `Uninterrupted.ReplayedJobsLive` | src/modules/jobs/job.service.ts:269-281 | after a replay each returned job is in `ready` with a queued row, its whole budget and its audit trail as before |
| `Uninterrupted.ReplayStaysReachable` | src/modules/jobs/job.service.ts:282-306 | from a reachable state the whole replay leads to a reachable one |
| `ReplayTheorems.ReplayedJobsPassTheGuard` | src/modules/jobs/job.service.ts:138-144 | in every timely run: from the reset on, until its first attempt or its deletion, whoever reads the job finds it alive with its whole budget, however much later and whatever others do |
| `ReplayTheorems.ReplayedJobsNextAttempt` | src/modules/deliveries/delivery.repository.ts:25-44 | and that first attempt is numbered one past the n recorded before the replay, a number none of them has |
| `Uninterrupted.SweepIsARun` | src/entrypoints/scheduler.ts:69-78 | so are a leader's two sweeps |
| `Scheduler.SchedulerProcess.Tick` | src/entrypoints/scheduler.ts:51-79 | renews or acquires, gives leadership up when the renew fails, and sweeps only as the lock's holder |
| `Scheduler.SweptIs` | src/entrypoints/scheduler.ts:69-78 | the due ids enter `ready` first and the abandoned ones after them, at most a hundred of each |
| `Ratelimit.RateLimiter.Take` | src/ratelimit.ts:34-107 | the script's answer and its whole effect at any rate, key expiry and the failure at a rate of zero included |
| `Ratelimit.RateLimiter.Expire` | src/ratelimit.ts:70-71 | sets the expiry and nothing else, or deletes the key when the time to live is not positive |
| `RatelimitTheorems.AvailableIsLeastRoom` | src/ratelimit.ts:45-54 | the refilled count is the least of `burst` and, for every past request time s, burst + rate (t - s) / 1000 - cost admitted since s |
| `RatelimitTheorems.DeniedIff` | src/ratelimit.ts:56-65 | a request is denied exactly when it would break the bound on some window or exceeds the burst |
| `RatelimitTheorems.AdmissionBound` | src/ratelimit.ts:52-60 | for any clock, one that steps back included, 0 <= tokens <= burst and admitted cost is at most burst plus what accrued over the steps forward |
| `RatelimitTheorems.AccruedIsElapsed` | src/ratelimit.ts:52-54 | with a clock that only advances, that is the plain elapsed time |
| `RatelimitTheorems.DenialsAreInvisible` | src/ratelimit.ts:52-67 | with all denied requests removed every later count is the same |
| `RatelimitTheorems.AcceptedStayAccepted` | src/ratelimit.ts:52-67 | the admitted requests on their own are all admitted |
| `RatelimitTheorems.DenialsLeaveNoTrace` | src/ratelimit.ts:67 | any number of denials in a row changes no later count |
| `RatelimitTheorems.RetryAfterIsTight` | src/ratelimit.ts:61-65 | with no other admission in between a retry d ms later succeeds iff d >= retryAfterMs |
| `RatelimitTheorems.ReclaimIsUnobservable` | src/ratelimit.ts:68-71 | a bucket that expires answers as one that never does, over every request sequence |
| `RatelimitTheorems.EachBucketItsOwn` | src/ratelimit.ts:34-73 | after any sequence of calls on any keys, each stored entry is what that key's own requests made of it |
| `RatelimitTheorems.TakeAnswers` | src/ratelimit.ts:56-65 | after any such sequence the next call is let through iff admitting it breaks the bound on no window of its own key's requests, nor the cap; then there is nothing to wait for, and otherwise there is |
| `Circuit.CircuitStore.Check` | src/circuit.ts:42-59 | the answer, and that only the move to half-open writes |
| `Circuit.CircuitStore.RecordSuccess` | src/circuit.ts:63-68 | closes and clears the count, keeping `openedAt` |
| `Circuit.CircuitStore.RecordFailure` | src/circuit.ts:72-95 | reopens a half-open breaker, otherwise counts and opens at the threshold |
| `CircuitTheorems.StoredReflectsHistory` | src/circuit.ts:42-95 | the stored fields and the key's expiry are what the events and their times say |
| `CircuitTheorems.LapsesIff` | src/circuit.ts:36-37 | the key is gone exactly when more than an hour has passed since the last success, failure or first probing check, read off the events |
| `CircuitTheorems.BreakerRefinesHistory` | src/circuit.ts:36-95 | every answer is a function of the events and their times alone, lapses included, for any threshold and cooldown |
| `CircuitTheorems.OpenIff` | src/circuit.ts:51-58 | without a lapse: closed iff fewer failures than needed since the last success, open iff tripped and t < last failure + cooldown |
| `CircuitTheorems.OpenedAtIsLastFailure` | src/circuit.ts:80-91 | while tripped `openedAt` is the time of the last failure |
| `CircuitTheorems.EachKeyItsOwn` | src/circuit.ts:42-95 | after any sequence of calls on any keys, each stored entry is what that key's own events made of it |
| `CircuitTheorems.CheckTells` | src/circuit.ts:42-59 | so a check answers what the history of its own key says |
| `CircuitTheorems.FailureTripsIff` | src/circuit.ts:72-95 | and a failure is answered open iff it completes enough failures in a row since the last success or lapse |
| `Lock.LockStore.Acquire` | src/lock.ts:51-61 | succeeds iff nobody holds the key, and changes nothing otherwise |
| `Lock.LockStore.Release` | src/lock.ts:66-77 | deletes the key iff it holds our token |
| `Lock.LockStore.Renew` | src/lock.ts:81-105 | extends the key iff it holds our token |
| `LockTheorems.LeadershipIsDisjoint` | src/lock.ts:12-27 | two unreleased tokens are never both within the time to live of their last success, over all runs with stalls and expiries |
| `LockTheorems.TimelyRenewSucceeds` | src/lock.ts:79-105 | a renew within the time to live always succeeds |
| `LockTheorems.StaleHolderIsHarmless` | src/lock.ts:24-27 | nobody's renew, release or acquire changes a leader's key |
| `LockTheorems.FailoverAfterTtl` | src/lock.ts:20-22 | an acquire leads iff the key is free or its time is up |
| `LockTheorems.ReleaseFreesTheLock` | src/lock.ts:66-77 | a holder that releases in time frees the lock: the next acquire, whenever it comes, leads |
| `LockTheorems.StoreFollows` | src/lock.ts:51-105 | along a run the stored key is the one the theorems speak of, and no other key is touched |
| `Idempotency.IdempotencyStore.Begin` | src/idempotency.ts:50-67 | the slot reserved; or, whatever others did between the two commands, what the slot says by then |
| `Idempotency.IdempotencyStore.Complete` | src/idempotency.ts:70-77 | the slot names the job for another day |
| `Idempotency.IdempotencyStore.Abort` | src/idempotency.ts:83-89 | the slot is free |
| `Idempotency.SlotHeldForADay` | src/idempotency.ts:50-89 | a slot written is found for exactly a day, a freed one not at all, and no other slot is touched |
| `Idempotency.SameTenantKeysDiffer` | src/idempotency.ts:36-38 | one tenant's keys share a slot iff they are equal |
| `Idempotency.TenantsShareSlotIff` | src/idempotency.ts:34-38 | two tenants can collide, with keys that are not empty, iff one name continues the other after a colon |
| `IdempotencyTheorems.RowsPerKey` | src/modules/jobs/job.service.ts:48-116 | while no row is deleted and the slot does not expire, the rows created are exactly one for each slot freed after its row was written, and one if a job is under way |
| `IdempotencyTheorems.SecondJobIff` | src/modules/jobs/job.service.ts:108-115 | while no row is deleted and the slot does not expire, a key has more than one job iff two such aborts happened, or one and a job is under way |
| `IdempotencyTheorems.RowsExactly` | src/modules/jobs/job.service.ts:48-116 | in every run, counted off its steps: rows written are slots won, less those won with no row to show for it, plus rows by strays; rows live are rows written less rows deleted; and a slot is won at most once more than it was freed or expired |
| `IdempotencyTheorems.SecondLiveJobIff` | src/modules/jobs/job.service.ts:57-68 | while the slot was never freed, more than one job is live iff strays wrote more rows than were deleted or are still owed by the slot's winner |
| `IdempotencyTheorems.RowsAtMost` | src/modules/jobs/job.service.ts:48-116 | hence at most one row, plus aborts by requests that had written one or were strays, plus rows by strays, plus expiries |
| `IdempotencyTheorems.StraysCreateTwoJobs` | src/modules/jobs/job.service.ts:57-68 | a run with one deletion and no error that ends with two live jobs for one key |
| `IdempotencyTheorems.NoLateAborts` | src/modules/jobs/job.service.ts:108-115 | errors at or before the insert free no slot late |
| `IdempotencyTheorems.OneJobPerKey` | src/idempotency.ts:7-9 | then there is at most one row and every accepted request returns it |
| `IdempotencyTheorems.LateAbortAllowsSecondJob` | src/modules/jobs/job.service.ts:108-115 | the bound is reached: a failed push lets a retry create a second job |

## Left out

- HTTP, routes, request schemas, configuration, logging, connection handling, migrations of the schema, and everything under web/ and scripts/.
- Signing, URL checks, headers, the response body, its error text and the call's duration: an outcome is a status code or none, and the recorded failure is derived from it.
- Reads that change nothing: queue statistics, the dead-letter peek, listings by tenant, the attempt list.
- The job state `failed`, which nothing writes, and the columns no decision reads (tenant, event type, payload, timestamps).
- Blocking of BRPOPLPUSH, pauses between ticks, and the shutdown sequences: a worker or scheduler that shuts down takes no further step.
- Rebuilding Redis from Postgres after a flush (ARCHITECTURE.md:199-200): there is no code to model.
- A webhook's cascade deletes its rows one after the other in `Protocol`, where the database deletes them at once; this only adds interleavings.
- In `Protocol` the breaker and the bucket may say anything at any time, which covers every state they can be in; `JobService.Processor.Process` uses the real ones.
- All actors read one clock, possibly late; clocks that run ahead of it are outside timely runs.
- Theorems.NoJobLost: is about first lives; Recovery.NoPushLost and Recovery.NeverLostIff are about every life. None speaks of a job whose row has been deleted, since there is nothing to deliver.
- Patience.TicksBringBack: nobody else acts between the ticks; Patience.OutInTurn covers every interleaving, one way.
- Enqueue.Enqueuer.Submit: nobody acts between its calls; crashes and interleavings are steps of IdempotencyTheorems and Protocol, to which EnqueueTheorems and Uninterrupted tie it. A lookup that throws changes nothing and is left out.
- IdempotencyTheorems.OneJobPerKey: supposes that no row is deleted and the slot does not expire; IdempotencyTheorems.RowsExactly is the count without that.
- Ratelimit.RateLimiter.Take: real numbers stand for Redis's decimal strings and floats, and what PEXPIRE does with an infinite or non-positive time is Redis's behaviour, not the repository's.
- RatelimitTheorems.RetryAfterIsTight: for a positive rate; at any other the answer names no time at which enough has accrued.
- RatelimitTheorems.ReclaimIsUnobservable: for a positive rate; at zero no expiry is ever set.
- Worker.WorkerProcess.Consume: the `running` flag is the number of turns, and nobody else acts between them; interleavings are Protocol's.
