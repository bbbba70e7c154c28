# Verified model of the distributed task queue

A Dafny model of the task queue's core and machine-checked proofs about it:

- the in-memory broker as a class over its tables, and as a state machine whose
  histories the run properties talk about;
- the Redis broker as a class whose methods follow the Lua scripts, proved to
  simulate the in-memory broker;
- the cron parser, the calendar search behind `Next`, and the protocol by which
  several schedulers fire ticks;
- the weighted queue selector and the retry backoff.

Every broker operation is one atomic call. A call changes the state through a
short list of elementary events, each about one job: `BrokerModel.Apply` says
what an event does, `BrokerModel.Events` which events a call causes, and
`BrokerModel.Enabled` what had been checked when an event happens. A run of the
system is a sequence of calls by any number of producers, workers, operators and
maintenance loops; crashed workers make no more calls and stalled ones call late.
Everything proved of legal histories therefore holds over every interleaving.

Times are integers in Unix milliseconds; `Calendar` alone counts days from the
start of year 1, and `Backoff` works in nanoseconds. Clocks, random draws and
minted identifiers are parameters.

## Files

| file | contents |
|---|---|
| `Order.dfy`, `Decimal.dfy`, `Text.dfy` | (time, ID) order, decimal text, string operations |
| `Jobs.dfy`, `BrokerModel.dfy` | job envelopes and lifecycle, broker state, events, calls |
| `Placement.dfy`, `CallPlacement.dfy` | the placement invariant, per event and per call |
| `Outcomes.dfy`, `Sweeps.dfy` | what each call does to the tables, from its arguments alone; waiting jobs over runs |
| `MemoryBroker.dfy`, `Census.dfy` | the in-memory broker class, statistics |
| `Delivery.dfy`, `Budget.dfy`, `UniqueKeys.dfy`, `Overtaking.dfy`, `Runs.dfy` | properties of histories and runs |
| `RedisModel.dfy`, `RedisBroker.dfy`, `RedisSweep.dfy`, `RedisAgreement.dfy` | the Redis keyspace, its scripts, its reap as one batch, where the brokers agree |
| `Calendar.dfy`, `CronSchedule.dfy`, `CronLiveness.dfy` | the Gregorian calendar, `Next`, which schedules fire |
| `CronParser.dfy`, `CronRender.dfy` | the cron grammar, the parser, writing and parsing back |
| `CronNotation.dfy` | names, numbers, term forms and descriptors, written out |
| `CronStore.dfy`, `CronProtocol.dfy` | the table of cron entries, the firing protocol |
| `TickJobs.dfy`, `Scheduler.dfy` | the job a tick gets, one scheduler process |
| `QueueSelector.dfy`, `Backoff.dfy` | weighted sampling, saturating backoff |

## Where the code does less than one may expect

The members named state the exact condition of each point and, where one is named
beside it, a case that shows it.

- `Enqueue` of a caller-chosen ID that is still in use keeps the in-memory broker's
  indexes consistent only if both jobs are scheduled, and `RetryDead` only if no
  dead job is named twice (`CallPlacement.InsertPlacedExactly`,
  `EnqueueTwiceBreaks`, `ReplayPlacedExactly`, `ReplayTwiceBreaks`).
- The Redis broker tolerates no reuse of an ID while it holds any envelope under it,
  a completed one it retains included: HSET leaves the time to live of that hash in
  place, and the new job expires with it (`RedisBroker.Broker.Enqueue`).
- The Redis broker promotes delayed jobs before retries, the in-memory broker by due
  time. A call promotes the same jobs exactly when each delayed job it takes comes
  before every due retry (`RedisAgreement.PromoteAgreesIff`, `PromoteDiffers`).
- The Redis broker applies the reap limit to each queue, the in-memory broker to all
  of them together. They take the same jobs exactly when no more than the limit are
  expired or all that are lie in one queue, and with no queue named only if nothing
  is expired (`RedisAgreement.ReapAgreesIff`, `ReapUnnamedIff`, `ReapDiffers`).
- A report on a completed job gets "lease lost" from Redis and "not found" from the
  in-memory broker exactly while the completed envelope is retained
  (`RedisAgreement.FenceAgreesIff`, `FenceDiffers`).
- In the millisecond a unique key expires it is free in the in-memory broker and
  still held in Redis; otherwise both answer an enqueue alike
  (`RedisAgreement.EnqueueAgreesIff`).
- A comment in `scheduler.go` says the unique key leaves one job per tick
  regardless. A tick gets a second job exactly when some enqueue of it lands five
  minutes or more after the last one that stored (`CronProtocol.SecondJobIff`,
  `CrashThenLate`).
- A schedule for 29 February gives up across a century that is no leap year, since
  the search is cut off after five years (`CronLiveness.GivesUpExactly`,
  `LeapDayGap`).
- In the day-of-week field 7 is Sunday, but a range that ends in 7 parses exactly if
  it starts on Sunday (`CronParser.SundayEndsNoRange`, `FridayToSevenFails`).
- A comment in `backoff.go` puts the default policy at about three and a half hours
  of retrying. Its delays add up to 2 hours 37 minutes before jitter
  (`Backoff.DefaultSpan`).

## Model

| member | source | states |
|---|---|---|
| Order.SortedUnique | internal/memory/memory.go:388-395 | sorting by (time, ID) has one possible result, whatever order the candidates were gathered in |
| Order.SortedAscending | internal/memory/memory.go:388-395 | the candidates come soonest first with ties broken by ID, each once |
| Order.TakenIff | internal/memory/memory.go:388-401 | sorting and cutting off at the limit keeps a candidate if and only if fewer than the limit are sooner, or as soon with a smaller ID |
| Order.DictionaryOrder | internal/memory/memory.go:388-395 | IDs compare as in a dictionary: a prefix first, else the first difference decides |
| Decimal.ValueOfDigits | cron.go:107-109 | printing a number in decimal and reading it back gives the number |
| Decimal.PlaceValue | internal/cron/cron.go:213-217 | a run of digits has its decimal place value |
| Decimal.SignedInjective | cron.go:107-109 | distinct fire times print differently, negative ones included |
| MemoryBroker.Broker.constructor | internal/memory/memory.go:80-98 | a new broker is empty and satisfies the placement invariant |
| MemoryBroker.Broker.Enqueue | internal/memory/memory.go:117-177 | refusals leave the state alone; acceptance stores the completed envelope and claims the unique key; the invariant survives if and only if the ID is storable |
| MemoryBroker.Broker.Dequeue | internal/memory/memory.go:180-225 | hands out the head of the first queue, in the order given, that holds a ready job: one attempt more, leased to the worker for the time asked, its queue keeping the rest; or reports why not; the invariant is kept |
| MemoryBroker.Broker.OwnedActive | internal/memory/memory.go:228-238 | the fencing check: not found, lease lost, or owned |
| MemoryBroker.Broker.Ack | internal/memory/memory.go:241-261 | only the lease holder removes the job, and it is counted as processed; otherwise nothing changes |
| MemoryBroker.Broker.Nack | internal/memory/memory.go:263-289 | the holder's failure waits until the time given with the reason given, or is dead-lettered with it if the attempts are spent; anyone else changes nothing |
| MemoryBroker.Broker.Kill | internal/memory/memory.go:292-309 | the holder dead-letters the job with its reason, last in the list; anyone else changes nothing |
| MemoryBroker.Broker.MoveToDead | internal/memory/memory.go:312-317 | the dead-letter list grows at its end and the failure counter by one |
| MemoryBroker.Broker.Extend | internal/memory/memory.go:320-347 | renews exactly the requested leases the worker holds and reports the others in request order |
| MemoryBroker.Broker.Reap | internal/memory/memory.go:350-423 | recovers or dead-letters exactly the longest-expired leases of the wanted queues, up to the limit, and counts them |
| MemoryBroker.Broker.CollectExpired | internal/memory/memory.go:371-386 | gathers exactly the expired active jobs of the wanted queues |
| MemoryBroker.Broker.RecoverOne | internal/memory/memory.go:402-419 | an expired job returns to the front of its queue, or is dead-lettered with an orphan note if its attempts are spent |
| MemoryBroker.Broker.Promote | internal/memory/memory.go:426-478 | moves exactly the soonest due waiting jobs, up to the limit, to the ends of their queues |
| MemoryBroker.Broker.CollectDue | internal/memory/memory.go:444-452 | gathers exactly the due members of one waiting table |
| MemoryBroker.Broker.GetStats | internal/memory/memory.go:545-591 | the numbers of every queue equal a recount of the stored jobs by state, and so does the dead count |
| MemoryBroker.Broker.RetryDead | internal/memory/memory.go:616-641 | returns the selected dead jobs to their queues with fresh attempts; the invariant survives if and only if none is selected twice |
| MemoryBroker.Broker.PurgeDead | internal/memory/memory.go:644-663 | deletes exactly the selected dead jobs and counts each once |
| MemoryBroker.Broker.SelectDeadIds | internal/memory/memory.go:666-681 | keeps the requested IDs that are dead, in request order; no request means all |
| MemoryBroker.Broker.RemoveDead | internal/memory/memory.go:684-691 | the first occurrence leaves the dead-letter list and the rest keeps its order |
| MemoryBroker.Broker.Shutdown | internal/memory/memory.go:713-718 | closing is the only change and keeps the invariant |
| Outcomes.EnqueueStores | internal/memory/memory.go:134-177 | an accepted job is stored with every default filled in, 25 attempts among them, waits for its time or joins the end of its queue, and takes its key for its TTL or one hour; nothing else changes |
| Outcomes.EnqueueRefused | internal/memory/memory.go:117-142 | which refusal answers what, and that it changes nothing |
| Outcomes.DequeueClaims | internal/memory/memory.go:196-222 | the first queue in the caller's order that holds a job gives up its head, with the lease, the attempt and every table stated |
| Outcomes.DequeueRefused | internal/memory/memory.go:180-225 | without a worker, a lease length or a ready job nothing is handed out and nothing changes |
| Outcomes.AckDeletes | internal/memory/memory.go:241-261 | the holder's success deletes the job and counts it |
| Outcomes.NackFails | internal/memory/memory.go:263-289 | retry time, reason, phase and owner after a failure are those of the call, or the job is dead-lettered last with the reason |
| Outcomes.KillBuries | internal/memory/memory.go:292-317 | the job is dead with the reason of the call, listed last and counted |
| Outcomes.ReportRefused | internal/memory/memory.go:228-238 | a report by anyone but the holder changes nothing and says whether the job exists |
| Outcomes.ClosedForGood | internal/memory/memory.go:713-718 | once closed, no call changes anything |
| Sweeps.ExtendRenews | internal/memory/memory.go:336-344 | every requested lease the worker holds ends the time asked for after now |
| Sweeps.ExtendSpares | internal/memory/memory.go:336-344 | a renewal touches no other job |
| Sweeps.LostConcat | internal/memory/memory.go:336-346 | the lost IDs come in request order |
| Sweeps.PickedIff | internal/memory/memory.go:371-401 | a reap takes a job if and only if its lease ran out, its queue is wanted and fewer than the limit ran out sooner |
| Sweeps.ReapRecovers | internal/memory/memory.go:397-420 | each job taken is ready again with one recovery more, or dead with the orphan note, exactly as its attempts say |
| Sweeps.ReapSpares | internal/memory/memory.go:350-423 | a reap leaves every other job alone |
| Sweeps.PromotedIff | internal/memory/memory.go:444-464 | a promotion takes a job if and only if its time has come and fewer than the limit were due sooner |
| Sweeps.PromoteReadies | internal/memory/memory.go:460-475 | each job taken leaves the waiting tables and is ready in its own queue |
| Sweeps.PromoteSpares | internal/memory/memory.go:426-478 | a promotion leaves every other job alone |
| Sweeps.PromoteLinesUp | internal/memory/memory.go:460-475 | the promoted jobs of a queue line up behind what it holds |
| Sweeps.PicksAscend | internal/memory/memory.go:454-459 | they are taken soonest first |
| Sweeps.KeptConcat | internal/memory/memory.go:666-681 | the dead jobs selected come in request order |
| Sweeps.ReplayRestarts | internal/memory/memory.go:616-641 | each requested dead job, or all if none is named, is ready again with nothing spent |
| Sweeps.ReplaySpares | internal/memory/memory.go:616-641 | a replay leaves every other job alone |
| Sweeps.PurgeDeletes | internal/memory/memory.go:644-663 | each requested dead job, or all if none is named, is deleted |
| Sweeps.PurgeSpares | internal/memory/memory.go:644-663 | a purge leaves every other job alone |
| Sweeps.NotBeforeItsTime | internal/memory/memory.go:426-478 | over every run of calls made before its time, a waiting job stays exactly as it is |
| Sweeps.BackoffServed | internal/memory/memory.go:263-289 | after a failure the job waits with its reason, nobody's, over every run of calls before the retry time given |
| Sweeps.DelayServed | internal/memory/memory.go:117-177 | a delayed job waits over every run of calls before its time |
| Placement.ApplyPlaced | internal/memory/memory.go:117-718 | every event keeps each job in exactly the place its state names, with the owner set exactly while active, and leaves every other job alone |
| Placement.InsertPlaced | internal/memory/memory.go:152-176 | storing a fresh job keeps the placement invariant |
| CallPlacement.CallLegal | internal/memory/memory.go:117-478 | every call, with any arguments its callers may use, is a legal history and keeps the placement invariant |
| CallPlacement.ReapLegal | internal/memory/memory.go:350-423 | a reap of any number of jobs is legal event by event and keeps the invariant |
| CallPlacement.PromoteLegal | internal/memory/memory.go:426-478 | a promotion of any number of jobs is legal event by event and keeps the invariant |
| CallPlacement.InsertPlacedExactly | internal/memory/memory.go:152-176 | storing a job keeps the invariant if and only if its ID is unused, or both the holder and the newcomer are scheduled |
| CallPlacement.EnqueueTwiceBreaks | internal/memory/memory.go:117-177 | enqueuing one ready job twice breaks the invariant |
| CallPlacement.ReplayPlacedExactly | internal/memory/memory.go:616-641 | a replay keeps the invariant if and only if no dead job is selected twice |
| CallPlacement.ReplayTwiceBreaks | internal/memory/memory.go:616-641 | naming any dead job twice in one replay breaks the invariant |
| CallPlacement.ApplyTransition | job.go:43-64 | every state change any event makes is an edge of the lifecycle graph |
| CallPlacement.ExactlyOnePlace | internal/memory/memory.go:117-478 | counted over all indexes and queues a stored job occurs exactly once and an unknown ID never |
| Census.StatsAddUp | internal/memory/memory.go:545-591 | the queue numbers plus the dead count add up to the number of stored jobs |
| Delivery.HolderIsOwner | internal/memory/memory.go:228-238 | the owner field is the worker of the latest claim with no release since |
| Delivery.FencedAt | internal/memory/memory.go:180-309 | claims and releases of a job strictly alternate, and only the latest claimant reports successfully |
| Delivery.NoLoss | internal/memory/memory.go:152-260 | an enqueued job is still stored, or was acked by its holder, or was purged after a claim |
| Delivery.AckedOnce | internal/memory/memory.go:241-261 | no job is acked twice |
| Delivery.Conservation | internal/memory/memory.go:256-317 | enqueued equals stored plus processed plus purged, and failed equals dead plus replayed plus purged |
| Delivery.DeliveredIntact | internal/memory/memory.go:180-478 | a stored job is the one that was enqueued, unchanged in everything the producer set, and carries the reason of its latest failure |
| Budget.LegalBudget | internal/memory/memory.go:212-217 | over every history waiting jobs have attempts left, no job exceeds its attempts, and recoveries never exceed attempts |
| Budget.ClaimsBounded | job.go:145-149 | between replays a job is claimed at most its maximum number of times, whatever its workers do |
| Budget.RecoveriesCounted | internal/memory/memory.go:404-405 | over every history the recovery counter is the number of times the job was taken back since it was enqueued or replayed |
| Budget.ApplyPotential | internal/memory/memory.go:402-419 | every effective step that brings in no new work strictly lowers a computable measure |
| Budget.EffectiveStepsBounded | internal/memory/memory.go:279-288 | a run without enqueues and replays takes at most that measure of effective steps |
| UniqueKeys.TableHoldsWinner | internal/memory/memory.go:134-176 | over every history the unique table remembers exactly the latest winner of each key |
| UniqueKeys.WinsSpaced | internal/memory/memory.go:134-176 | successive enqueues under one key are at least the earlier one's TTL apart |
| UniqueKeys.RefusalNamesWinner | internal/memory/memory.go:134-176 | an enqueue is refused exactly while the latest winner's TTL runs, names that winner and changes nothing |
| Overtaking.Position | internal/memory/memory.go:198-219 | a ready job's place is its starting place plus recoveries pushed onto its queue minus claims from it |
| Overtaking.ClaimedInTurn | internal/memory/memory.go:198-219 | once more claims than its place plus the recoveries were made, the job was among them |
| Overtaking.ReapQueue | internal/memory/memory.go:413-418 | one reap turns a queue into its recovered jobs in reverse followed by its old contents |
| Runs.RunLegal | internal/memory/memory.go:117-478 | every run of calls is a legal history and keeps the placement invariant |
| Runs.ReportSucceedsIff | internal/memory/memory.go:228-238 | after any run a report succeeds if and only if its worker made the latest unreleased claim |
| Runs.RunNoLoss | internal/memory/memory.go:152-260 | the delivery guarantee, stated for runs of calls |
| Runs.NothingGetsAhead | internal/memory/memory.go:336-344 | no call puts a job ahead of an expired lease in reap order |
| Runs.ReapTakesOldest | internal/memory/memory.go:388-401 | a reap passes over an expired job only for ones before it in (deadline, ID) order |
| Runs.BoundedRecovery | internal/memory/memory.go:350-423 | an expired lease with k jobs ahead is gone after k / limit + 1 reaps of its queues, in whatever order they are named and whatever else is called in between |
| Runs.TurnsRecover | internal/memory/memory.go:350-423 | the same for any legal sequence of events, not only for the calls of this broker |
| Runs.LeaseShields | internal/memory/memory.go:372-375 | before its deadline only its owner's report or renewal touches a leased job |
| Runs.RenewalKeepsLease | internal/memory/memory.go:320-347 | while each renewal lands before the lease ends, no reap takes the job and nobody else is handed it |
| RedisModel.EffectSim | internal/rdb/scripts/nack.lua:1-56 | what the scripts write for one event takes related states to related states |
| RedisModel.WriteSim | internal/rdb/scripts/enqueue.lua:1-79 | what enqueue.lua writes takes related states to related states |
| RedisModel.SimNoDangling | internal/rdb/scripts/dequeue.lua:31-64 | a related keyspace has no index entry pointing at a missing, completed or expiring hash |
| RedisBroker.Broker.constructor | internal/rdb/rdb.go:81-125 | an empty keyspace simulates an empty broker |
| RedisBroker.Broker.Enqueue | internal/rdb/scripts/enqueue.lua:27-79 | refusals change nothing; acceptance writes the hash, list or delayed entry and unique key stated field by field, and stays related to the in-memory broker if and only if the keyspace held no envelope under its ID |
| RedisBroker.Broker.WriteHash | internal/rdb/scripts/enqueue.lua:53-76 | the hash is overwritten but keeps its time to live, the job is routed by its time and the unique key is taken |
| RedisBroker.InStepIff | internal/rdb/scripts/enqueue.lua:53-76 | storing under an ID still in use or still retained puts the keyspace out of step, and nothing else does |
| RedisBroker.Broker.Dequeue | internal/rdb/scripts/dequeue.lua:31-64 | pops the head of the first list, in the order given, that holds anything, with lease, attempt and every key stated; the in-memory broker would reply the same, and the two stay related |
| RedisBroker.Broker.Ack | internal/rdb/scripts/ack.lua:1-45 | succeeds exactly when the worker holds the lease; then the job is counted and its envelope kept for the retention or deleted, and the two stay related |
| RedisBroker.Broker.Nack | internal/rdb/scripts/nack.lua:1-56 | the hash and the retry set hold the reason and the time given, the zero time as 0, or the job is dead-lettered with the reason; the two stay related |
| RedisBroker.Broker.Kill | internal/rdb/scripts/kill.lua:1-42 | dead-letters the job with its reason, stated key by key, and stays related |
| RedisBroker.Broker.Extend | internal/rdb/scripts/extend.lua:1-55 | renews the same leases, reports the same lost IDs in the same order and stays related |
| RedisBroker.Broker.ReapQueue | internal/rdb/scripts/reap.lua:33-71 | for one queue, recovers and dead-letters the same jobs in the same order as the in-memory broker |
| RedisBroker.Broker.Reap | internal/rdb/maintenance.go:27-47 | reaps queue by queue with the limit applied to each, every step related to an in-memory reap of that queue |
| RedisBroker.Broker.Promote | internal/rdb/scripts/promote.lua:35-55 | promotes due delayed jobs first and retries with what is left of the limit, and stays related to the history of those promotions |
| RedisBroker.Broker.Fenced | internal/rdb/complete.go:56-84 | the fencing reply is success exactly when the worker holds the lease |
| RedisAgreement.RedisDelivery | internal/rdb/scripts/ack.lua:1-45 | the delivery guarantee holds of the Redis keyspace |
| RedisAgreement.PromoteAgreesIff | internal/rdb/scripts/promote.lua:35-55 | one call promotes the same jobs in the same order in both brokers if and only if each delayed job it takes precedes every due retry |
| RedisAgreement.PromoteAlwaysAgreesIff | internal/rdb/scripts/promote.lua:35-55 | they agree for every limit if and only if every due delayed job precedes every due retry |
| RedisAgreement.PromoteDiffers | internal/rdb/scripts/promote.lua:35-55 | a legal history after which they promote different jobs |
| RedisSweep.SweepIsBatch | internal/rdb/maintenance.go:27-47 | reaping queue by queue is one batch of the jobs each queue gives up |
| RedisSweep.SameTakenIff | internal/rdb/maintenance.go:23-47 | both reaps take the same jobs if and only if the limit does not bind or everything expired is in one queue |
| RedisAgreement.ReapAgreesIff | internal/rdb/maintenance.go:23-47 | the same, stated of the histories of both brokers |
| RedisAgreement.ReapUnnamedIff | internal/rdb/maintenance.go:27-47 | with no queue named they agree if and only if nothing is expired |
| RedisAgreement.ReapAgreement | internal/rdb/scripts/reap.lua:33-71 | when they take the same jobs they leave every ready list and every job the same |
| RedisAgreement.ReapDiffers | internal/rdb/maintenance.go:23-47 | a legal history after which they reap different jobs |
| RedisAgreement.QueueRecovery | internal/rdb/scripts/reap.lua:33-71 | in the Redis broker an expired lease waits only for the jobs ahead of it in its own queue |
| RedisAgreement.EnqueueAgreesIff | internal/rdb/scripts/enqueue.lua:34-46 | both brokers answer an enqueue alike if and only if it does not fall in the millisecond its unique key expires |
| RedisAgreement.EnqueueRecords | internal/rdb/enqueue.go:17-80 | an accepted enqueue records what the in-memory broker does with the job as the script keeps it |
| RedisAgreement.FenceAgreesIff | internal/rdb/complete.go:56-84 | both brokers answer a report alike if and only if no completed envelope of the job is retained |
| RedisAgreement.AckRetains | internal/rdb/scripts/ack.lua:33-43 | every ack under a positive retention leaves such an envelope for as long as the retention lasts |
| RedisAgreement.FenceDiffers | internal/rdb/scripts/ack.lua:16-43 | enqueue, claim and ack lead to a keyspace that answers differently |
| Calendar.YearUnique | internal/cron/cron.go:246-256 | the year whose span contains a day is the day's year |
| Calendar.Fields | internal/cron/cron.go:246-256 | year, month and day of month of a date come back from its day number |
| Calendar.NextMonthStart | internal/cron/cron.go:249-249 | month m + 1, also month 13, starts where month m ends |
| Calendar.EpochDay | internal/cron/cron.go:237-243 | the day that minute zero falls on is 1 January 1970 |
| Calendar.EpochThursday | internal/cron/cron.go:276-279 | 1 January 1970 was a Thursday, and every weekday is counted from there |
| Calendar.WeekdayNext | internal/cron/cron.go:276-279 | the days of the week follow one another |
| Calendar.CalendarIs | internal/cron/cron.go:246-256 | where every month and year starts, with the leap rule written out |
| CronSchedule.Next | internal/cron/cron.go:237-268 | the skipping search terminates and returns what trying every minute returns |
| CronSchedule.Skip | internal/cron/cron.go:246-265 | one turn passes over no minute at which the schedule fires |
| CronSchedule.SkipMonth | internal/cron/cron.go:247-251 | no minute of a month that is not allowed fires |
| CronSchedule.SkipDay | internal/cron/cron.go:252-255 | no minute of a day the day rule excludes fires |
| CronSchedule.SkipHour | internal/cron/cron.go:256-259 | no minute of an hour that is not allowed fires |
| CronSchedule.NextIsLeast | internal/cron/cron.go:237-268 | the result is the least firing whole minute after t, or none fires before the search limit |
| CronSchedule.NextAdvances | internal/cron/cron.go:237-268 | the next fire is strictly later |
| CronSchedule.FiresOnDates | internal/cron/cron.go:247-290 | a schedule fires at a date and time if and only if its fields allow it, the weekday being counted from Thursday, 1 January 1970 |
| CronSchedule.NextByDate | internal/cron/cron.go:237-268 | the result is the first allowed date and time after t, or none is allowed within five years of 365 days |
| CronSchedule.NextOnWeekday | internal/cron/cron.go:276-290 | a schedule for one day of the week fires on a day that many days after a Sunday |
| CronSchedule.EveryFires | internal/cron/cron.go:238-240 | an `@every` schedule fires at whole multiples of its period |
| CronLiveness.GivesUpOnlyIf | internal/cron/cron.go:243-290 | the search gives up only on a starred weekday with a day of month that no common year has |
| CronLiveness.GivesUpIff | internal/cron/cron.go:35-35 | a schedule gives up at some moment if and only if that is so |
| CronLiveness.GivesUpExactly | internal/cron/cron.go:243-268 | from a given moment the search gives up if and only if no common year has the day, and no year has it or the search falls between two leap days eight years apart |
| CronLiveness.FiresEverIff | internal/cron/cron.go:32-35 | a schedule fires at some time if and only if its day rule can be met in some year |
| CronLiveness.LeapDayGap | internal/cron/cron.go:35-35 | from 1 March before a century that is no leap year the search gives up though the schedule fires again |
| Text.JoinOfSplit | internal/cron/cron.go:139-139 | splitting a field at commas loses nothing and leaves no comma in a piece |
| Text.SplitOfJoin | internal/cron/cron.go:139-139 | joining comma-free pieces and splitting gives the pieces |
| Text.WordsOfJoin | internal/cron/cron.go:107-110 | joining words by spaces and splitting at white space gives the words |
| CronParser.ParseValue | internal/cron/cron.go:204-228 | an accepted value lies in the range of its field |
| CronParser.TermIff | internal/cron/cron.go:153-193 | a term is read as an interval if and only if the grammar, written by concatenation, derives that interval |
| CronParser.TermInterval | internal/cron/cron.go:153-193 | an accepted term is a non-empty interval within the range with a positive 32-bit step |
| CronParser.SetBits | internal/cron/cron.go:197-201 | the step loop ends without wrapping round and sets exactly the bits of the interval |
| CronParser.ParseTerm | internal/cron/cron.go:153-202 | fails exactly as the grammar does, else sets exactly the bits the term denotes |
| CronParser.ParseField | internal/cron/cron.go:137-151 | accepts exactly the fields all of whose terms are in the grammar and returns the union of what they denote |
| CronParser.ParseFields | internal/cron/cron.go:107-131 | accepts exactly five good fields and records a star only for a literal star |
| CronParser.Parse | internal/cron/cron.go:86-134 | accepts exactly the specifications of the grammar, descriptors and `@every` included, and returns what they spell |
| CronParser.SpelledCanonical | internal/cron/cron.go:136-202 | parsed masks are never empty, stay in range, and a starred field allows its whole range |
| CronParser.SpelledFires | internal/cron/cron.go:136-290 | a parsed specification has a next fire from every moment if and only if its day rule can be met in every year |
| CronParser.SpellsOne | internal/cron/cron.go:86-134 | a specification spells one schedule at most |
| CronParser.SundayEndsNoRange | internal/cron/cron.go:219-222 | a range ending in 7 parses if and only if it starts at Sunday, and is then that one day |
| CronParser.FridayToSevenFails | internal/cron/cron.go:177-186 | the range 5-7 is refused as inverted |
| Text.TrimPadding | internal/cron/cron.go:87-87 | blanks and tabs around a text come off and nothing else does |
| CronNotation.DayOfWeekIff | internal/cron/cron.go:71-73 | a day of the week is exactly one of seven names in any case, Sunday being 0, or a number up to 6, or 7 for Sunday; anything else is refused |
| CronNotation.MonthIff | internal/cron/cron.go:66-69 | a month is exactly one of twelve names in any case, or a number from 1 to 12 |
| CronNotation.NumberIff | internal/cron/cron.go:113-119 | minutes, hours and days of the month are exactly the numbers of their ranges |
| CronNotation.NamesAsNumerals | internal/cron/cron.go:204-228 | each of the 19 names reads as its numeral does |
| CronNotation.ReadsValue | internal/cron/cron.go:184-189 | a value alone allows that value |
| CronNotation.ReadsRange | internal/cron/cron.go:171-182 | a range allows what lies in it and must not descend |
| CronNotation.ReadsRangeStep | internal/cron/cron.go:153-202 | a range with a step allows every n-th value from its start |
| CronNotation.ReadsOpenStep | internal/cron/cron.go:190-194 | a value with a step above 1 allows every n-th value up to the end of the field |
| CronNotation.ReadsStar | internal/cron/cron.go:168-169 | a star allows the whole field, with a step every n-th value of it |
| CronNotation.ReadsList | internal/cron/cron.go:137-151 | a list allows what its parts allow and is refused if one of them is |
| CronNotation.Yearly | internal/cron/cron.go:76-76 | midnight of 1 January, on the masks |
| CronNotation.Annually | internal/cron/cron.go:77-77 | the same |
| CronNotation.Monthly | internal/cron/cron.go:78-78 | midnight of the first of every month |
| CronNotation.Weekly | internal/cron/cron.go:79-79 | midnight of every Sunday |
| CronNotation.Daily | internal/cron/cron.go:80-80 | every midnight |
| CronNotation.Midnight | internal/cron/cron.go:81-81 | the same |
| CronNotation.Hourly | internal/cron/cron.go:82-82 | every full hour |
| CronNotation.Every | internal/cron/cron.go:92-101 | `@every` repeats with the duration that follows, which must be positive |
| CronRender.RoundTrip | internal/cron/cron.go:86-134 | the specification written for any canonical schedule parses back to it |
| CronRender.Rewrite | internal/cron/cron.go:86-134 | the same, through the parser |
| CronStore.Store.constructor | internal/memory/memory.go:80-98 | the table starts empty |
| CronStore.Store.ScheduleCronIfAbsent | internal/memory/cron.go:16-32 | records a first fire time and never moves a running schedule |
| CronStore.Store.DueCron | internal/memory/cron.go:35-67 | returns the due ticks, soonest first, up to the limit |
| CronStore.Store.ClaimCron | internal/memory/cron.go:70-86 | wins if and only if the entry is still at the expected tick, and only then moves it |
| CronStore.DueTicksSoonest | internal/memory/cron.go:46-66 | what is reported is due and current, soonest first and each entry once, and nothing left out is sooner |
| CronStore.AllReported | internal/memory/cron.go:63-66 | everything due is reported when the limit allows |
| CronStore.ReportedIff | internal/memory/cron.go:46-66 | an entry is reported if and only if it is due and fewer than the limit are due sooner |
| CronProtocol.TickKeyInjective | cron.go:107-109 | distinct ticks have distinct unique keys, colons in IDs notwithstanding |
| CronProtocol.RunKeeps | scheduler.go:106-178 | the protocol invariant holds after every interleaving of seeding, firing, claiming and crashing schedulers and other broker use |
| CronProtocol.TicksClaimedOnce | scheduler.go:160-170 | claims of one entry move strictly forward in time, so no tick is claimed twice |
| CronProtocol.NoTickSkipped | scheduler.go:136-159 | an entry leaves a tick only by a claim that moves it forward, after a job for the tick was stored |
| CronProtocol.AttemptStoresIff | scheduler.go:140-159 | an attempt stores a job if and only if it is the first for its tick or comes five minutes after the latest |
| CronProtocol.SecondJobIff | server.go:48-51 | a tick gets a second job in a run if and only if some attempt of it came late |
| CronProtocol.ClaimedTickHasOneJob | scheduler.go:106-178 | every claimed tick has a job, and exactly one if and only if no attempt came late |
| CronProtocol.CrashThenLate | scheduler.go:136-170 | a run with one crash and one late restart that stores two jobs for a tick |
| CronProtocol.PassFires | scheduler.go:106-178 | an undisturbed pass stores a job for the first due tick unless it has one, and moves its entry past now |
| TickJobs.TickEnters | scheduler.go:140-150 | a tick whose key is free gets a job with the entry's queue, type and payload, its attempts or 25, nothing spent and the key of the tick for five minutes, at the end of the entry's queue; no other job, queue or key changes |
| TickJobs.TickRefused | scheduler.go:151-159 | a tick whose key is held gets none and nothing changes |
| TickJobs.StockedTurn | scheduler.go:116-159 | over a pass the ticks that can be fired and have no job get one each, lined up in order, and nothing else is stored |
| Scheduler.Process.SeedSchedules | scheduler.go:81-103 | every entry without a fire time gets its first one, running schedules stay, a closed store changes nothing; what was done is a run of the protocol |
| Scheduler.Process.FireDueSchedules | scheduler.go:106-178 | an undisturbed pass over at most 100 due ticks, with a clock reading for each, gives every reported tick of a known entry that goes on and has no job the job stated field by field, moves each such entry to its next fire, and leaves all others; what was done is a run of the protocol |
| Scheduler.Process.FireOne | scheduler.go:116-177 | unknown entries and ones that cannot fire again are left alone, any other tick is claimed and, if its key is free, gets the job stated field by field at the end of the entry's queue |
| Scheduler.AdvancedOthers | scheduler.go:116-122 | a pass leaves the fire time of every entry it did not handle |
| Scheduler.AdvancedAt | scheduler.go:124-137 | a pass moves the entry of each tick it can fire to its first fire after the time of the pass, or after the tick if that is later |
| Scheduler.SeededAt | scheduler.go:81-103 | seeding gives an entry without a fire time its first fire after now and moves no other |
| QueueSelector.Selector.constructor | queues.go:26-45 | every queue gets its configured weight or 1, and the total is their sum |
| QueueSelector.Selector.Next | queues.go:51-93 | for all draws the order is a permutation of the queue names, and the configured order when strict |
| QueueSelector.Selector.DrawAll | queues.go:66-90 | the remaining weight stays the sum over the pool and the draws are spent as sampling without replacement |
| QueueSelector.Selector.Walk | queues.go:76-83 | the cumulative walk always hits, at the one position the draw falls into |
| QueueSelector.SamplePermutes | queues.go:51-93 | whatever is drawn, every queue of the pool comes up exactly once |
| QueueSelector.ShareIsWeight | queues.go:73-83 | at each step exactly weight(i) of the possible draws pick queue i |
| QueueSelector.LeadShare | queues.go:58-64 | a queue leads the order for exactly its weight out of the total first draws |
| Backoff.Saturate | backoff.go:84-129 | on wrapping 64-bit integers the loop computes min(base * 2^(attempt-1), cap) for every attempt, base and cap, in at most 63 passes |
| Backoff.DelayMonotone | backoff.go:84-129 | the delay never shrinks with the attempt and stays positive and within the cap |
| Backoff.FirstDelay | backoff.go:84-95 | the first wait is the configured base, or one second, and at most the configured cap, or ten minutes |
| Backoff.NextDelay | backoff.go:111-129 | each further wait doubles the one before, up to the cap |
| Backoff.NextInRange | backoff.go:37-61 | jittered delays stay in their documented intervals |
| Backoff.JitterCovers | backoff.go:44-61 | every value of the interval comes from exactly one draw |
| Backoff.DefaultSpan | backoff.go:8-14 | the default policy's waits over 25 attempts add up to 9423 seconds |

## Left out

- The Go plumbing around the scripts (client calls, script loading, key strings, reply decoding): each key family is its own map.
- The server runtime: goroutines, contexts, draining, heartbeats, panic recovery, logging.
- Named leases and leader election: the protocol is proved without relying on them.
- Listing operations (`ListDead`, `Workers`, `Heartbeat`): they read or refresh one table and take no part in delivery.
- `RemoveCron`: an entry that is removed and seeded again may return to an earlier tick.
- CronProtocol.PassFires: speaks of the first due tick; `Scheduler.Process.FireDueSchedules` covers the whole pass.
- Scheduler.Process.FireDueSchedules: states what a pass does when nothing happens between its calls; passes that interleave are covered by `CronProtocol`, whose steps are the single calls.
- Time zones and daylight saving: times are UTC, as the source recommends.
- Sub-millisecond times: two ticks of one entry within a millisecond would share a unique key.
- The text of an `@every` duration: how it reads is a parameter of the parser.
- Field masks are sets of bit positions rather than 64-bit words; every position is proved to be below 64.
- Strings are sequences of characters, so malformed UTF-8 is not modelled.
- Randomness: properties are proved for all draws, and draws are counted instead of probabilities.
- Wrong types and missing fields in a Redis hash: hashes only ever hold what the scripts wrote.
- MemoryBroker.Broker.GetStats: does not count live workers, whose heartbeats are not modelled.
- MemoryBroker.Broker.Enqueue: later calls are specified from states that satisfy the placement invariant, which an enqueue under an ID in use can leave.
- RedisBroker.Broker.Enqueue: later calls are specified from keyspaces in step with the in-memory broker, which an enqueue under an ID in use leaves.
- QueueSelector.Selector.constructor: the sum of the weights is an unbounded integer.
