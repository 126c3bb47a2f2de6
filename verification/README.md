# A verified model of the Snerd job engine

Snerd is an embedded background job engine: an append-only log store, a concurrent
scheduler on top of it, and a lease protocol that divides shards among daemons. This
project models its core in Dafny and proves what the engine promises about whole runs:
every interleaving of its threads, every log, every set of daemons.

`dafny verify dfyconfig.toml` checks everything.

## How the model is laid out

**The record** (`Tasks.dfy`) is one task as it is written to the log, with the two stamps
that are not written (`created_at`, `updated_at`) kept apart in `Task`, because reading a
line back stamps it anew. Times are whole nanoseconds.

**The log store.** `LogReplay.dfy` says what a log means (the last line of each id, unless
it is a tombstone) and what compaction makes of it. `DepGraph.dfy` is the theory of the
dependency graph. `StoreSpec.dfy` gives the store as a value and its runs.
`FileStore.dfy` is the class, with the loops over lines and the depth-first search.

**The scheduler.** `Scheduler.dfy` gives one function for each critical section.
`SnerdQueue.dfy` is the queue object with the collections behind its mutexes, its methods
proved against those functions and, in the fields of the record and of the queue, against
what each promises; `SweepSpec.dfy` says what a whole sweep does in any visiting order,
`PopOrder.dfy` in what order a heap hands its tasks out. `Machine.dfy` lets any number of enqueuers, sweeps, dispatcher loops and executions
take those critical sections in any order, with clock ticks, evictions, compactions and
crashes in between; a sweep reads the store in one step and visits each task it read in a
later one, so what it read may be stale. `Exclusive`, `Permits`, `Completion`, `Journal`,
`Dedupe`, `Durable`, `Attempts` and `DepOrder` are the theorems over all runs of that machine,
and `AcyclicRuns` is the dependency graph over them; `Timing` says when tasks come back, and
`Service` whether anyone comes for a task in a heap. `StaleSweep` and `LateParents`, with the
parts in `Scripts`, give runs that show why some of them need the assumptions below.

**Shards.** `Membership.dfy` is the lease record and its operations, `LeaseProtocol.dfy`
any number of daemons using it with their own clocks, `Heartbeat.dfy` one daemon's round.

**Arithmetic and boot.** `RateLimiter.dfy` is the fixed-window limiter and its sliding
bound, `Sharding.dfy` the routing hash, `BootRace.dfy` any number of daemons booting at
once on one directory.

## Assumptions some theorems make

They are stated as predicates over events, so that each theorem shows which it needs.

- `Journal.FreshVisit`, `Attempts.CountVisit`, `Journal.LiveVisit`: if a sweep's visit queues a
  record, that record is the one in the store; or carries the stored retry count; or its id
  is at least live. Each is weaker than the one before, and none asks anything of a visit
  that queues nothing. A sweep whose read and visits are not interrupted satisfies all three
  (`Journal.UninterruptedIsFresh`).
- `Journal.FaithfulCompaction`: a compaction rolls no save back. Strictly increasing parse
  stamps are enough for that. `Attempts.CountCompaction` asks only that it keeps retry counts.
- `Durable.NoReuse`: an accepted id is not enqueued again.
- `Attempts.Ordinary`, for the attempt bound: queued and compacted records carry the stored
  count, ids are not reused, new tasks start with a count of zero, no crash. The first two
  are exact (`Attempts.AccurateRunIff`).
- `DepOrder.KeepsClear`, for dependency order: queued ids are live, and nothing is accepted that
  a task in flight waits for. With ids not reused that is exact (`DepOrder.ClearRunIff`).
- `DepOrder.NoLateDependent`, for the children of a task that failed for good: no dependent of
  it is accepted between the scan for them and its delete. That is exact, too
  (`DepOrder.CoveredRunIff`). Compaction may have any stamps in both.
- `DepOrder.Orderly`: these two, no reuse, and every task is accepted before any task that
  waits for it has been queued (`DepOrder.BeforeDependents`).
- `Journal.ChecksAtOnce` and `AcyclicRuns.LiveSave`, for the graph: each accept comes right
  after its check, and what is put off or saved again is live. A run that keeps everything
  in flight clear satisfies the second.
- `Dedupe.KeepsHashes`, against duplicates: what is queued has its hash to itself, and a
  compaction keeps live hashes. Fresh visits with faithful compaction (`Journal.Merged`)
  satisfy it, and so do, with ids not reused, live visits with any compaction.

- `Timing.Lasting`, for the time a task was put off to: no reuse, and no compaction after the
  save rolls one back.
- `Service.Strands`, for the tasks in a heap: negated, it is exact (`Service.ServedRunIff`).

Exclusive execution, permits, completion, durability and `Timing.NeverEarly` need none of
those on visits and compaction.

## Where the code does less than its comments or names say

- A compaction that reads two lines of one task with equal parse stamps keeps the older
  line, and so undoes the later save (`LogReplay.TiedStampsRollBack`);
  `LogReplay.CompactKeepsLatestIff` gives the exact condition for keeping the later record.
  The set of live ids survives in any case, but a retry count can be lost
  (`StaleSweep.TiedCompactionBreaksTheCount`), and if ids are reused an old hash can come
  back next to a new task that carries it (`StaleSweep.TiedCompactionMakesDuplicates`).
- The cycle check and the save are two steps. Two enqueues that race can each pass the check
  and together make a cycle (`StoreSpec.RacingEnqueuesMakeCycle`).
- A re-save (a retry, a cron reschedule, a task put off) is not checked at all. With each check
  and save as one step the graph stays acyclic as long as what is saved again is live
  (`AcyclicRuns.AcyclicAlways`), but a task that was tombstoned while its copy was queued
  comes back when it is put off, and can close a cycle in which nothing is ever ready
  (`LateParents.PutOffMakesCycle`). `AcyclicRuns.AcyclicRunIff` is the exact condition.
- Ids that are not in the store count as completed, so a task can be queued before one it
  waits for is accepted. If that one then fails for good, the task starts although it is
  blocked (`LateParents.LateParentBreaksTheOrder`). A dependent accepted between the scan for
  the children of a task that failed for good and that task's delete is not blocked at all
  (`LateParents.LateDependentEscapes`).
- The sweep checks the live sets of queued and executing ids, but the records it queues come
  from an earlier read. One such stale record is enough for a task to start once more than
  it is allowed (`StaleSweep.StaleVisitBreaksTheBound`), for a blocked task to start
  (`StaleSweep.StaleVisitBreaksTheOrder`), since the visit never asks whether the id is still
  live, and for two live tasks to share a payload hash
  (`StaleSweep.StaleVisitMakesDuplicates`), since putting a task off does not ask whether it
  has completed.
- The check that a task has not completed and the start of its handler are two steps. No
  handler starts for a completed id all the same, because execution is exclusive
  (`Completion.CompletionFinal`), until the entry is evicted after a minute
  (`Completion.NoRerunWithinTtl`).
- A sweep starts a dispatcher unless two are counted, but a dispatcher that has found the
  heap empty is counted until it is gone. If two such are counted when a sweep pushes a task,
  the task waits with nobody to take it (`Service.LostWakeup`) until another task is pushed to
  the same heap or the process restarts (`Service.StrandedStays`), since later sweeps pass
  over it as queued already.
- A line that cannot be decoded as text ends every scan of the log, so a save after it is
  lost at the next restart (`LogReplay.AppendSurvivesRestart` states exactly when), and at
  the next compaction, which reads the same part of the file. What is saved after that
  compaction is safe again (`LogReplay.CompactionInvisible`).
- An enqueue that is refused for a cycle keeps its payload hash registered
  (`SnerdQueues.SnerdQueue.Enqueue`).
- The limiter's limit is per window, not per minute: a minute can hold one grant less than
  twice the limit (`RateLimiting.SlidingBound`), and for every limit a run reaches that
  (`RateLimiting.BoundIsReached`). Only a limit of one, or none, holds for every minute
  (`RateLimiting.LimitPerMinuteIff`).

## Model

| member | source | states |
|---|---|---|
| `LogReplay.FoldIsLastLine` | src/file_store.rs:52-66 | an id is in the replay with a record exactly when its last parsable line carries that record and is no tombstone |
| `LogReplay.ReplayMatchesDashboard` | src/dashboard.rs:40-50 | the replay is the dashboard's latest line per id with the tombstones filtered out |
| `LogReplay.AppendSurvivesRestart` | src/file_store.rs:52-53 | a saved line counts after a restart exactly when every earlier line can be read or the line changes nothing |
| `LogReplay.CompactPicksWinner` | src/file_store.rs:239-257 | what compaction keeps of an id: among its lines after the last tombstone, the first with the highest stamp |
| `LogReplay.CompactKeepsLiveIds` | src/file_store.rs:239-257 | whatever the stamps, compaction keeps exactly the live ids |
| `LogReplay.CompactKeepsLatestIff` | src/file_store.rs:248-252 | compaction keeps the record replay gives for an id if and only if every contending line with another record is beaten, by stamp and on a tie by position, by a line with that record |
| `LogReplay.CompactIsReplayIff` | src/file_store.rs:239-257 | the compacted map is the replayed one if and only if that holds for every live id |
| `LogReplay.StrictStampsKeepLatest` | src/task.rs:88-89 | strictly increasing parse stamps satisfy that condition on every log |
| `LogReplay.TiedStampsRollBack` | src/file_store.rs:250-252 | for any two records of one id: with equal stamps compaction keeps the older |
| `LogReplay.ReplayWriteOut` | src/file_store.rs:259-262 | writing a map out in any order and replaying the file gives the map back |
| `LogReplay.WriteOutCounts` | src/file_store.rs:259-269 | of the lines written out each is a live one and none a tombstone |
| `LogReplay.CompactionInvisible` | src/file_store.rs:212-283 | when no save is rolled back, a restart on the compacted log plus any suffix finds what a restart on the original plus that suffix finds, if and only if the original has no unreadable line or the suffix says nothing new |
| `LogReplay.CompactionInvisibleIff` | src/file_store.rs:212-283 | for any stamps and order, the compacted log replays as the original if and only if no save is rolled back |
| `LogReplay.CompactionCrashSafe` | src/file_store.rs:264-265 | a crash before or after the rename rebuilds the same live ids |
| `DepGraph.ClosedSetBlocks` | src/file_store.rs:154-169 | a visited set closed under dependencies and without the new id proves that it cannot be reached |
| `DepGraph.InsertAcyclicIff` | src/queue.rs:219-226 | adding or replacing a task keeps the graph acyclic if and only if its id is not reachable from its dependencies |
| `DepGraph.FewerEdgesAcyclic` | src/file_store.rs:172-190 | a store with fewer dependencies, as after a delete, stays acyclic |
| `DepGraph.LiveResaveIsSafe` | src/queue.rs:518-519 | a re-save of a live task that keeps its dependencies would pass the check |
| `DepGraph.SomethingIsReady` | src/file_store.rs:143-146 | an acyclic store that is not empty has a live task none of whose dependencies is live |
| `StoreSpec.OpenAgrees` | src/file_store.rs:36-73 | opening a log gives a cache equal to its replay, and counters of the live lines and of the tombstones among those that could be read at this opening |
| `StoreSpec.AppendAgrees` | src/file_store.rs:86-121 | a save keeps cache and counters in agreement with the lines taken in, on a damaged log too |
| `StoreSpec.CompactAgrees` | src/file_store.rs:259-276 | a compaction, whatever its stamps and order, leaves them in agreement |
| `StoreSpec.CompactCounts` | src/file_store.rs:267-269 | after a compaction the three counters are the number of survivors, zero and zero |
| `StoreSpec.SavesCounted` | src/file_store.rs:47-121 | in every run the append counter is the number of parsable lines since the store was last opened or rewritten, and of those read then if it was opened |
| `StoreSpec.CacheAgreement` | src/file_store.rs:47-121 | in every run of enqueues, saves, deletes, compactions and restarts the cache is the replay of the lines taken in (those that could be read when the store was last opened or rewritten in this run, and all appended since), total is the number of live ones among them and deleted the number of tombstones |
| `StoreSpec.AgreesMeans` | src/file_store.rs:47-121 | if every line is readable, the lines taken in are the whole log, so cache and counters are what a restart would rebuild |
| `StoreSpec.AlwaysAcyclic` | src/queue.rs:219-226 | in every run with check and save as one step, no dependency list rolled back by a compaction, and every re-save one that would pass the check, restarts on a damaged log included, the live graph stays acyclic, and a store that is not empty always has a ready task |
| `StoreSpec.WriteAcyclicIff` | src/file_store.rs:79-81 | a save without check keeps the graph acyclic if and only if it is a tombstone or would pass the check |
| `StoreSpec.ResaveAfterDeleteMakesCycle` | src/file_store.rs:79-81 | for any two tasks that wait for each other: enqueue one, delete it, enqueue the other, save the first again, and there is a cycle |
| `StoreSpec.TiedCompactionMakesCycle` | src/file_store.rs:250-252 | for any task enqueued again without its dependency, and another that waits for it: each enqueue passes the check, and a compaction at tied stamps leaves a cycle |
| `StoreSpec.RacingEnqueuesMakeCycle` | src/queue.rs:219-226 | two enqueues that both check before either saves can make a cycle |
| `FileStores.FileStore.Open` | src/file_store.rs:22-34 | opening yields a valid store that is the replay of the file, with its live lines, tombstones and parsable lines counted |
| `FileStores.FileStore.RebuildMetadata` | src/file_store.rs:36-73 | the rebuilt cache and counters are those of the readable lines |
| `FileStores.ScanLog` | src/file_store.rs:47-66 | the loop over lines computes the replay and the three counts |
| `FileStores.FileStore.SaveTask` | src/file_store.rs:86-131 | one line; a live record goes into the cache and raises the total, a tombstone takes it out and raises the deleted, either raises the appends; the store stays valid |
| `FileStores.FileStore.DeleteTask` | src/file_store.rs:172-190 | the id is gone from the live tasks and nothing else is, by one line that is its record with a deletion time; an absent id changes nothing |
| `FileStores.FileStore.CompactLog` | src/file_store.rs:212-283 | does nothing while another compaction runs, fails without a file, else leaves a readable log of the surviving tasks in some order that agrees with the cache and with the counters |
| `FileStores.ScanSurvivors` | src/file_store.rs:234-257 | the loop computes the map of surviving tasks |
| `FileStores.WriteSurvivors` | src/file_store.rs:259-262 | each survivor is written once, in some order, so that the lines replay to the map |
| `FileStores.FileStore.ReadTasks` | src/file_store.rs:133-136 | each live task once, and nothing else |
| `FileStores.FileStore.DetectCycle` | src/file_store.rs:148-170 | ends on every cache, cyclic ones included, and reports a cycle exactly when the new id is reachable from the given dependencies |
| `FileStores.SearchPop` | src/file_store.rs:154-168 | each turn of the search keeps its invariant and comes closer to the end |
| `Tasks.RetryUnique` | src/task.rs:171-189 | one record only has the count one higher, the error in both places, the delay in whole seconds cut toward zero and all else as it was |
| `SweepSpec.PushesMeans` | src/queue.rs:283-304 | a visit pushes a record if and only if both its times have come, it is no tombstone, nothing it waits for is live, it is neither queued nor executing, and its own pool or the default one has a heap; that heap is where it goes |
| `SweepSpec.VisitsMakeTheSweep` | src/queue.rs:265-305 | visiting all the live tasks, in any order, queues exactly those of which that was true before the first visit, each once in its home heap and in no other, and pushes to exactly the pools that are a home of one |
| `SnerdQueues.SnerdQueue.constructor` | src/queue.rs:77-177 | a queue opens with the hashes of the live tasks, empty heaps, full pools and a default pool |
| `SnerdQueues.SnerdQueue.Enqueue` | src/queue.rs:210-235 | a duplicate is accepted and dropped, a cycle is refused and changes no store, anything else is appended as live |
| `SnerdQueues.SnerdQueue.VisitTask` | src/queue.rs:282-304 | one turn of the sweep: a record is queued, in its own pool's heap or else the default one, if and only if its times have come, nothing it waits for is live, and it is no tombstone, not queued and not executing; otherwise nothing changes |
| `SnerdQueues.SnerdQueue.PushDue` | src/queue.rs:276-306 | the locked loop visits the tasks in order and collects the pools it pushed to |
| `SnerdQueues.SnerdQueue.SpawnDispatchers` | src/queue.rs:309-318 | one more loop for each pool pushed to that has fewer than two |
| `SnerdQueues.SnerdQueue.ProcessDueTasks` | src/queue.rs:265-319 | an undisturbed sweep queues exactly the live tasks that are due, by both their times and their dependencies, not queued and not executing, each once in its home heap, and adds one dispatcher to each pool that got one and had fewer than two |
| `SnerdQueues.SnerdQueue.PopTask` | src/queue.rs:346-353 | no task left has a higher score than the popped one, a missing score ranking as zero; one copy of it leaves the heap, and nothing else changes; none only if the heap is empty |
| `PopOrder.MostUrgent` | src/task.rs:248-255 | a heap that is not empty has a task that no score there exceeds |
| `PopOrder.TopIsPoppable` | src/task.rs:248-255 | a task may be popped if and only if it is in the heap and no score there exceeds its own |
| `PopOrder.PopsDescend` | src/queue.rs:346-353 | popping a heap until it is empty hands out every task, as often as it is there, with scores that never rise |
| `PopOrder.DrainExists` | src/queue.rs:346-391 | every heap can be popped until it is empty |
| `SnerdQueues.SnerdQueue.DeferTask` | src/queue.rs:363-366 | a rate-limited task is saved with its retry time a minute from now and nothing else changed, and leaves the queued ids |
| `SnerdQueues.SnerdQueue.StartTask` | src/queue.rs:375-384 | the id moves from queued to executing, unless it executes already |
| `SnerdQueues.SnerdQueue.EvictExpiredCompleted` | src/queue.rs:32-34 | an entry stays, with its time, if and only if it is younger than a minute, and none appears |
| `SnerdQueues.SnerdQueue.FailChildren` | src/queue.rs:524-541 | exactly the direct dependents leave the live tasks |
| `SnerdQueues.SnerdQueue.FinishTask` | src/queue.rs:577-584 | the id is completed and gone from the store, and its hash is free |
| `SnerdQueues.SnerdQueue.ExecuteTask` | src/queue.rs:405-588 | for every outcome what becomes of the store, the saved record field by field, the completed ids and the hashes; one dead letter for a task that failed for good and has a webhook or a max-retry handler, none otherwise |
| `SnerdQueues.SnerdQueue.Succeed` | src/queue.rs:485-512 | a cron task with a next time is saved with that time, no failures and no error, any other task is finished |
| `SnerdQueues.SnerdQueue.Fail` | src/queue.rs:513-585 | with an attempt left the task is saved for it, one failure more, with the error, and put off by its delay in whole seconds; otherwise its children and the task go, and its dead letter is sent if there is a receiver |
| `Exclusive.ExclusionStep` | src/queue.rs:281-384 | every step of every thread keeps the invariant of exclusive execution |
| `Exclusive.ExclusionAlways` | src/queue.rs:265-418 | in every run, stale sweeps included: one copy of an id across heaps and dispatchers, `queued` is exactly those ids and is disjoint from `executing`, and no id has two executions |
| `Exclusive.HeldNotExecuting` | src/queue.rs:375-384 | a task in a dispatcher's hands is queued and not executing |
| `Exclusive.OthersDiffer` | src/queue.rs:414-418 | two executions under guard are of different ids |
| `Permits.ConservedStep` | src/queue.rs:338-402 | every step keeps free plus held permits of each pool at its capacity |
| `Permits.CountedStep` | src/queue.rs:308-402 | every step keeps each loop counter equal to the number of its dispatcher loops, and at most two |
| `Permits.NoUnderflow` | src/queue.rs:398-401 | the counter is positive whenever a loop decrements it |
| `Permits.ConservedAlways` | src/queue.rs:308-402 | both hold in every run |
| `Completion.CompletionFinal` | src/queue.rs:405-418 | in every run, stale sweeps included, no handler starts for an id recorded as completed |
| `Completion.NoRerunWithinTtl` | src/queue.rs:31-34 | in every run, without a crash in between, no handler starts for an id within a minute of its completion, whenever evictions happen |
| `Completion.NotAheadAlways` | src/queue.rs:504 | in every run no completion is recorded for a later time than now |
| `Journal.JournaledAlways` | src/file_store.rs:86-121 | in every run of the scheduler, crashes and tied compactions included, the live tasks are the replay of the log |
| `Journal.UninterruptedIsFresh` | src/queue.rs:265-306 | a sweep whose read and visits are not interrupted queues no stale record |
| `Dedupe.DedupeStep` | src/queue.rs:211-226 | every step keeps each hash with one owner, if what is queued has its hash to itself and a compaction keeps live hashes |
| `Dedupe.VisitOwnedIff` | src/queue.rs:281-304 | a visit keeps each hash with one owner if and only if what it queues has a registered hash that only copies of the same task hold, none of them still being enqueued, or no hash |
| `Dedupe.ReleasedAlone` | src/queue.rs:506-510 | when an execution frees a hash, nothing else still carries it |
| `Dedupe.DedupedRun` | src/queue.rs:211-226 | in every run in which what is queued has its hash to itself and compactions keep live hashes, no two live tasks carry the same payload hash and every live hash is registered |
| `Dedupe.DedupedAlways` | src/queue.rs:211-226 | so it is in every run that queues only fresh records and rolls no save back |
| `Dedupe.DedupedWithoutReuse` | src/queue.rs:211-226 | so it is in every run that reuses no id and queues only live ids, in any version, with any stamps in a compaction |
| `Durable.AccountedStep` | src/queue.rs:484-584 | every step keeps every accepted task live or accounted for |
| `Durable.NothingLostAlways` | src/queue.rs:484-584 | at every moment of every run, crashes included, a restart would find each accepted task unless it succeeded, failed its last attempt or waited for one that did |
| `Timing.VisitMeans` | src/queue.rs:281-304 | what any visit of the machine does, in the fields of the record it visits |
| `Timing.NeverEarly` | src/queue.rs:281-298 | in every run, stale sweeps and crashes included, a record in a heap, in a dispatcher's hands or in its handler was put there by a sweep at whose time both its times had come, and with no live dependency then |
| `Timing.PopsTheMostUrgent` | src/queue.rs:346-353 | whatever a dispatcher takes in any run, no score in its heap is higher |
| `Timing.NextVisit` | src/queue.rs:281-304 | in every run the next visit to queue a task that was saved for later queues the record saved, not before either of its times, if and only if it is up to date |
| `Timing.RetryWaits` | src/queue.rs:513-519 | in every run a task whose attempt failed comes back as the record of that failure, not before the failure's time plus the delay in whole seconds, if and only if the visit that queues it is up to date |
| `Timing.CronWaits` | src/queue.rs:485-497 | so for a cron task and its next time |
| `Timing.DeferWaits` | src/queue.rs:362-369 | so for a task over its rate limit and the minute it is put off |
| `Service.ServedStepIff` | src/queue.rs:308-402 | a step leaves every heap that is not empty with a dispatcher or sweep yet to look into it if and only if it is not the decision of a sweep to start no dispatcher when none that is counted will look again |
| `Service.ServedRunIff` | src/queue.rs:308-402 | so does a whole run |
| `Service.StrandedStays` | src/queue.rs:281-318 | a heap nobody tends stays as it is, untended, until a task is pushed to it or the process restarts |
| `Service.LostWakeup` | src/queue.rs:308-402 | for any task without webhook, a run, every step ordinary and merged and every accept right after its check, that leaves it live and queued in its heap with no thread left |
| `Attempts.AccurateStep` | src/queue.rs:487-519 | every ordinary step keeps counts and records level |
| `Attempts.AttemptsAlways` | src/queue.rs:513-579 | in every ordinary run a task starts at most max(1, max_retries) times between successes, its stored count is its failures, and if every attempt failed its dead letter is sent once, unless it has neither webhook nor max-retry handler; otherwise it is never sent |
| `Attempts.VisitLevel` | src/queue.rs:281-304 | a visit that queues only live ids keeps every queued record level with the counts if and only if what it queues carries the stored retry count |
| `Attempts.CompactAccurateIff` | src/file_store.rs:248-257 | a compaction keeps counts and records level if and only if it keeps the retry count of every live task that no execution is busy with |
| `Attempts.AccurateStepIff` | src/queue.rs:281-304 | a step keeps counts and records level if and only if what it queues and compacts carries the stored count, given live visits, fresh ids, new tasks and no crash |
| `Attempts.AccurateRunIff` | src/queue.rs:281-304 | so does a whole run of such steps |
| `StaleSweep.StaleVisitBreaksTheBound` | src/queue.rs:265-306 | for any plain task with two attempts or more, a run with one stale visit, all else ordinary, in which it starts once more than it is allowed |
| `StaleSweep.TiedCompactionBreaksTheCount` | src/file_store.rs:250-252 | for any such task, a run with one compaction at tied stamps, all else ordinary, in which the stored count falls behind the failures |
| `StaleSweep.StaleVisitBreaksTheOrder` | src/queue.rs:281-298 | for any parent with one attempt and child, a run with one stale visit, all else orderly, in which the blocked child starts |
| `StaleSweep.StaleVisitMakesDuplicates` | src/queue.rs:357-366 | for any two tasks of one hash, the first rate limited, a run with one stale visit, all else merged and without reuse, in which both are live |
| `StaleSweep.TiedCompactionMakesDuplicates` | src/file_store.rs:250-252 | for any two versions of a reused id and a task with the hash of the first, a run with one compaction at tied stamps, all else merged, in which two live tasks carry that hash |
| `StaleSweep.SuchTasksExist` | src/task.rs:93-109 | there are tasks for which the runs above are stated |
| `DepOrder.OrderedStep` | src/queue.rs:281-298 | every orderly step, a compaction with any stamps included, keeps dependents behind their dependencies and blocked tasks unstarted |
| `DepOrder.VisitClear` | src/queue.rs:281-304 | a visit keeps every queued task live and free of live dependencies if and only if it queues only a live task |
| `DepOrder.DependenciesFirst` | src/queue.rs:281-298 | in every run without reuse of ids that meets the condition of ClearRunIff, no task is queued, held or executed while one of its dependencies is live, and a blocked one is gone, is not queued, and no handler starts for it |
| `DepOrder.ChildrenFallFirst` | src/queue.rs:517-579 | in every such run without late dependents, when a task that failed for good leaves the store none of its direct dependents is live: each is blocked or had finished |
| `DepOrder.ClearStepIff` | src/queue.rs:219-304 | a step keeps everything in flight free of live dependencies if and only if it queues only live ids and accepts nothing that something in flight waits for |
| `DepOrder.ClearRunIff` | src/queue.rs:219-304 | in every run without reuse of ids, nothing in flight ever waits for a live task if and only if every step meets that condition |
| `DepOrder.AcceptCovered` | src/queue.rs:524-541 | an accept leaves the children of every task that failed for good covered, by the scan or because there are none, if and only if it accepts none between the scan and the delete |
| `DepOrder.CoveredRunIff` | src/queue.rs:524-541 | so does a whole run |
| `DepOrder.BlockedNeverStarted` | src/queue.rs:524-541 | if every task is accepted before anything that waits for it was queued, a blocked task has never started, and all that waited for a task that failed for good are blocked when it leaves the store |
| `DepOrder.AcceptClear` | src/queue.rs:219-226 | an accept keeps every task in flight free of live dependencies if and only if none of them waits for the new task |
| `LateParents.LateParentBreaksTheOrder` | src/queue.rs:281-304 | for any task accepted after one that waits for it was queued, a run, every step ordinary and merged and every accept right after its check, in which the blocked one starts |
| `LateParents.LateDependentEscapes` | src/queue.rs:524-541 | for any dependent accepted between the scan for the children of a failed task and its delete, such a run in which the dependent is not blocked and becomes ready |
| `LateParents.PutOffMakesCycle` | src/queue.rs:363-366 | for any three tasks in a knot, such a run of 38 steps in which putting a blocked task off closes a cycle, and nothing live is ever ready |
| `LateParents.SuchTasksExist` | src/task.rs:93-109 | there are tasks for which these runs are stated |
| `AcyclicRuns.StepAcyclicIff` | src/queue.rs:219-226 | a step of the machine keeps the live graph acyclic if and only if the record it saves, if any, would pass the check |
| `AcyclicRuns.AcyclicRunIff` | src/queue.rs:219-226 | in every run without reuse of ids the live graph is acyclic throughout if and only if every accept, put-off and re-save would pass the check at its moment |
| `AcyclicRuns.AcyclicAlways` | src/queue.rs:219-226 | in every run without reuse of ids, with each accept right after its check and every put-off and re-save of a live id, the live graph stays acyclic and a store that is not empty has a ready task |
| `AcyclicRuns.ClearRunsAreAcyclic` | src/queue.rs:219-226 | every run that meets the condition of ClearRunIff, with each accept right after its check, keeps the live graph acyclic |
| `Membership.ShardKeyInjective` | src/membership.rs:83-85 | different indices have different shard names |
| `Membership.ClaimableInOrder` | src/membership.rs:115-128 | the claimable shards are in range and in index order |
| `Membership.ClaimableExactly` | src/membership.rs:115-128 | an in-range shard is listed if and only if a claim of it would be accepted |
| `Membership.ClaimableOnce` | src/membership.rs:115-128 | each is listed once, and each would be accepted |
| `Membership.MembershipStore.Init` | src/membership.rs:163-174 | one-shot: succeeds exactly when there is no record |
| `Membership.MembershipStore.Load` | src/membership.rs:314-323 | succeeds exactly when there is a record, with that record; a missing and an unparsable one have each their own error |
| `Membership.MembershipStore.Claim` | src/membership.rs:208-255 | refuses exactly a shard that another owner holds within expiry plus margin; else the lease ends thirty seconds from now, with the outcome that says which; a refusal changes nothing |
| `Membership.MembershipStore.Renew` | src/membership.rs:273-284 | extends exactly a lease the caller owns, to thirty seconds from now; otherwise nothing changes |
| `Membership.MembershipStore.Release` | src/membership.rs:288-298 | drops exactly a claim the caller owns; otherwise nothing changes |
| `Membership.MembershipStore.RevertClaim` | src/membership.rs:260-269 | drops the claim only if it is still the caller's; always succeeds on a record |
| `LeaseProtocol.LeaseSafety` | src/membership.rs:96-298 | with clocks at most the margin apart no two daemons ever hold an unexpired lease on one shard by their own clocks, even if `now` was read before the lock |
| `LeaseProtocol.MarginIsTight` | src/membership.rs:96-98 | with clocks one nanosecond further apart two daemons can |
| `LeaseProtocol.VersionStep` | src/membership.rs:340-348 | a step leaves the record alone, or raises the version by one and touches one shard |
| `LeaseProtocol.EqualVersionsEqualClaims` | src/membership.rs:340-348 | in a run equal versions mean equal records |
| `Heartbeat.ClaimsAfterMeans` | src/sharded_queue.rs:140-158 | after the claim loop: a new lease on each lockable shard, none on the others tried, the rest as before |
| `Heartbeat.ShardedQueue.ClaimAll` | src/sharded_queue.rs:138-158 | if nobody else mutates, every claim of the loop succeeds; owned shards, claims, version and engines afterwards |
| `Heartbeat.ShardedQueue.ReconcileShards` | src/sharded_queue.rs:231-242 | exactly the engines of shards owned in this round are kept |
| `Heartbeat.ShardedQueue.Round` | src/sharded_queue.rs:133-162 | the record and the engines after an undisturbed round, from what was claimable before it |
| `RateLimiting.RateLimiter.CheckAndIncrement` | src/rate_limiter.rs:27-79 | a window younger than a minute is kept, any other starts anew; granted exactly below the limit, and then counted; an unparsable file starts over |
| `RateLimiting.OtherGroupsUnaffected` | src/rate_limiter.rs:56-69 | a call changes no other group's window |
| `RateLimiting.StartsApart` | src/rate_limiter.rs:56-69 | a window's start is a grant, at least a minute after the start before it |
| `RateLimiting.SlidingBound` | src/rate_limiter.rs:53-69 | in every run any half-open minute holds at most 2L - 1 grants of a group with limit L, none if L is not positive; the minute from a window's start holds at most L, and the stored count is their number |
| `RateLimiting.BoundIsReached` | src/rate_limiter.rs:53-69 | for every limit L >= 1 a run with 2L - 1 grants in one half-open minute |
| `RateLimiting.LimitPerMinuteIff` | src/rate_limiter.rs:53-69 | every run keeps every half-open minute within L if and only if L is at most one |
| `Sharding.Fnv1a64` | src/sharding.rs:48-55 | the loop computes the hash, byte by byte from the left |
| `Sharding.XorTwice` | src/sharding.rs:51 | exclusive or with the same number twice gives the word back |
| `Sharding.MultiplicationUndone` | src/sharding.rs:52 | the wrapping multiplication by the prime has an inverse |
| `Sharding.StepBijective` | src/sharding.rs:51-52 | each step is a bijection on 64-bit words |
| `Sharding.FnvFromBijective` | src/sharding.rs:48-55 | for any string every word is its hash from exactly one starting state |
| `Sharding.SuffixCancels` | src/sharding.rs:48-55 | hash(a+s) equals hash(b+s) if and only if hash(a) equals hash(b) |
| `Sharding.OneByteNeverCollides` | src/sharding.rs:48-55 | strings of one length that differ in exactly one byte never collide |
| `Sharding.KnownVectors` | src/sharding.rs:309-310 | the published values for the empty string and "a" |
| `Sharding.RouteShard` | src/sharding.rs:59-63 | the answer is one of the given shards, and depends only on the id and the list |
| `BootRace.QueueDir.MigrateLegacyUnlocked` | src/sharding.rs:78-117 | refuses while a legacy daemon runs, fails without a log, else moves log and lock; a failure changes nothing |
| `BootRace.QueueDir.ResolveLayout` | src/sharding.rs:121-158 | a fresh directory gets a record of the requested count and answers it; a legacy one is refused while its daemon runs, else gets one shard with the log and lock moved; an existing record is answered unchanged, a broken one is an error |
| `BootRace.BootTwice` | src/sharding.rs:126-157 | after a successful boot the directory is detected as sharded, and any later boot gives the same answer and changes nothing |
| `BootRace.StepsMakeTheBoot` | src/sharding.rs:121-158 | one daemon's steps taken alone amount to what `ResolveLayout` does |
| `BootRace.LoneBoot` | src/sharding.rs:138-157 | a daemon alone in a fresh directory gets the count it asked for, and the record says so; in a legacy one that nobody serves, one shard with the log |
| `BootRace.FreshCountWasAsked` | src/sharding.rs:151-156 | in every interleaving on a fresh directory the record has the queue and count that one daemon asked for before it was written, and every boot succeeds with a count asked for |
| `BootRace.AgreedStep` | src/sharding.rs:121-158 | every step of every booting daemon keeps the invariant of the race |
| `BootRace.CountNeverChanges` | src/membership.rs:163-174 | once written, the shard count stays |
| `BootRace.BootAgreement` | src/sharding.rs:121-158 | in every interleaving all daemons that succeed are told the same count, and it is the recorded one |
| `BootRace.LegacyAdoption` | src/sharding.rs:138-150 | in every interleaving a legacy log's lines, appends included, are at exactly one of the two paths at every step, and every success answers 1 |
| `BootRace.BootFailures` | src/sharding.rs:121-158 | a boot fails only for a running legacy daemon or an unparsable record: the log to be moved is always there |
| `BootRace.NoDeadlock` | src/sharding.rs:138-157 | while a daemon is not done, some daemon can step and comes nearer its end |

## Left out

- Failing reads and writes, torn appends and fsync: each append is one whole line, and each
  rename happens or does not.
- When compaction runs (`should_compact`): the model lets it run at any moment.
- The text of a line: a line is blank, unreadable, unparsable or a record. A record's own
  JSON form, NaN scores and floating-point rounding are not part of this model; hours and
  urgency are exact reals.
- Integer widths outside the hash: counts, limits, versions and times are unbounded.
- Webhooks, handlers, cron schedules, time-outs and progress messages: their outcome is a
  parameter of the step. A closure that outlives its time-out is not counted.
- Heaps shared by the shards of one daemon (src/sharded_queue.rs:190-197): a dispatcher may
  run another shard's task against its own store. The scheduler theorems are about one
  queue with its own heaps.
- That a dispatcher gets its permit and its turn in the end: nothing is claimed about fairness.
- Engines that keep running after a lost lease: `reconcile_shards` drops the map's entry
  while the processor keeps a clone. Lease safety is about the record and the clocks.
- Dependents of dependents of a task that failed for good: the code fails direct dependents only.
- `write_membership_atomic`, which skips the version, and `add-shards`.
- Stable routing over time: the list of owned shards comes in a hash map's order.
- ExclusionAlways: visits of one sweep may be interleaved with other steps, which the code's
  locks prevent; the theorem covers more runs than the code has.
- DedupedRun: assumes that what is queued has its hash to itself and that compactions keep
  live hashes. The runs of StaleVisitMakesDuplicates and TiedCompactionMakesDuplicates break
  one each.
- AttemptsAlways: assumes no crash, because an attempt cut off by a crash is not recorded by
  the code. For a cron task the counters restart with each success. A dead letter is the
  webhook called or the max-retry handler run; what they return is not part of the model.
- DependenciesFirst: assumes that queued ids are live (StaleVisitBreaksTheOrder breaks it
  otherwise) and that nothing is accepted that a task in flight waits for
  (LateParentBreaksTheOrder). That a blocked task has no start on record is left to
  BlockedNeverStarted, since a task can be blocked between two attempts.
- ChildrenFallFirst: assumes besides that no dependent is accepted late (LateDependentEscapes).
- NothingLostAlways: assumes that ids are not reused; what it says of a task that had a
  failed dependency is that this dependency is the reason.
- NoRerunWithinTtl: the completed ids live in memory, so a crash ends what it promises.
- CompactionCrashSafe: states the live ids; when no save is rolled back
  CompactionInvisibleIff gives the records as well.
- ClaimAll: the loop when no other daemon changes the record; what holds with others is
  LeaseSafety.
- BootAgreement: no daemon crashes half-way, no log of shard 0 exists before the record does,
  and no legacy daemon starts after the boots have begun (one may be running already).
- MigrateLegacyUnlocked: creating and removing directories is not part of the state.
- CheckAndIncrement: failing file operations; a dispatcher treats such a failure like a refusal.
- KnownVectors: two of the three values in the repository's own list.
