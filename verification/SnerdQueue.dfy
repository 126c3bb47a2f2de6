/** The queue object of src/queue.rs: the collections behind its mutexes, updated in place.
    Each method is one critical section, or several in the order one thread takes them. */
module SnerdQueues {
  import opened Wrappers
  import opened Tasks
  import opened LogReplay
  import opened DepGraph
  import opened StoreSpec
  import opened FileStores
  import opened Scheduler
  import opened SweepSpec
  import opened PopOrder

  /** How a handler run ended: `Succeeded` carries the next time of a cron task. */
  datatype Outcome = Succeeded(next: Option<Time>) | Failed(error: string)

  class SnerdQueue {
    var activeHashes: set<Hash>
    var executingTasks: set<Id>
    var queuedTasks: set<Id>
    var completedTasks: map<Id, Time>
    var sharedPqs: map<Pool, multiset<Record>>
    var workerPools: map<Pool, nat>
    var dispatcherCounts: map<Pool, nat>
    const fileStore: FileStore

    ghost function View(): Shared
      reads this
    {
      Shared(activeHashes, queuedTasks, executingTasks, completedTasks, sharedPqs, workerPools, dispatcherCounts)
    }

    ghost function Live(): map<Id, Record>
      reads fileStore
    {
      fileStore.View().Live()
    }

    /** `new_with_pools`: the hashes of the live tasks, empty heaps, full pools; a default
        pool of a hundred permits is added when none is given. */
    constructor (store: FileStore, pools: map<Pool, nat>)
      requires store.Valid()
      ensures fileStore == store
      ensures View() == Opened(Live(), if DEFAULT_POOL in pools then pools else pools[DEFAULT_POOL := 100])
      ensures workerPools == if "default" in pools then pools else pools["default" := 100]
      ensures activeHashes == set id | id in Live() && Live()[id].payloadHash.Some? :: Live()[id].payloadHash.value
      ensures queuedTasks == executingTasks == {} && completedTasks == map[]
      ensures forall p :: p in sharedPqs ==> sharedPqs[p] == multiset{} && dispatcherCounts[p] == 0
      ensures sharedPqs.Keys == dispatcherCounts.Keys == workerPools.Keys
    {
      var caps := if DEFAULT_POOL in pools then pools else pools[DEFAULT_POOL := 100];
      fileStore := store;
      activeHashes, executingTasks, queuedTasks, completedTasks := {}, {}, {}, map[];
      sharedPqs := map p | p in caps :: multiset{};
      workerPools := caps;
      dispatcherCounts := map p | p in caps :: 0;
      new;
      var tasks := fileStore.ReadTasks();
      activeHashes := HashesOf(tasks);
      assert activeHashes == Opened(Live(), caps).hashes by {
        forall id | id in Live() ensures exists i :: 0 <= i < |tasks| && tasks[i].rec == Live()[id] {
          var i :| 0 <= i < |tasks| && tasks[i] == fileStore.cache[id];
        }
        forall i | 0 <= i < |tasks| ensures tasks[i].rec.id in Live() && Live()[tasks[i].rec.id] == tasks[i].rec {}
      }
    }

    /** `enqueue`: a duplicate is dropped silently, a cycle is refused after the hash has
        been taken, anything else reaches the store. */
    method Enqueue(task: Task) returns (result: Result<(), string>)
      requires fileStore.Valid()
      modifies this`activeHashes, fileStore
      ensures fileStore.Valid()
      ensures Duplicate(old(View()), task.rec) <==> task.rec.payloadHash.Some? && task.rec.payloadHash.value in old(activeHashes)
      ensures Duplicate(old(View()), task.rec) ==> result.Ok? && View() == old(View()) && fileStore.View() == old(fileStore.View())
      ensures !Duplicate(old(View()), task.rec) ==>
                activeHashes == old(activeHashes) + if task.rec.payloadHash.Some? then {task.rec.payloadHash.value} else {}
      ensures !Duplicate(old(View()), task.rec) ==>
                if Reaches(old(Live()), task.rec.Deps(), task.rec.id) then result.Err? && fileStore.View() == old(fileStore.View())
                else
                  && result.Ok? && fileStore.View() == Append(old(fileStore.View()), task.(rec := task.rec.(deletedAt := None)))
                  && Live() == old(Live())[task.rec.id := task.rec.(deletedAt := None)]
    {
      AppendLive(fileStore.View(), task.(rec := task.rec.(deletedAt := None)));
      if task.rec.payloadHash.Some? {
        var hash := task.rec.payloadHash.value;
        if hash in activeHashes {
          return Ok(());
        }
        activeHashes := activeHashes + {hash};
      }
      if task.rec.triggerAfterIds.Some? {
        var cycle := fileStore.DetectCycle(task.rec.id, task.rec.triggerAfterIds.value);
        if cycle {
          return Err("cycle");
        }
      } else {
        NoDepsNoCycle(Live(), task.rec.id);
      }
      fileStore.SaveTask(task.(rec := task.rec.(deletedAt := None)));
      result := Ok(());
    }

    /** One turn of the locked loop of `process_due_tasks`: the pool it pushed to, if any. */
    method VisitTask(r: Record, now: Time) returns (pushed: Option<Pool>)
      modifies this`queuedTasks, this`sharedPqs
      ensures View() == Visit(old(View()), Live(), r, now)
      ensures pushed == if Pushes(old(View()), Live(), r, now) then PoolFor(old(View()), r) else None
      ensures pushed.Some? <==>
                && Due(r, Live(), now) && r.id !in old(queuedTasks) && r.id !in executingTasks
                && Home(r, old(sharedPqs).Keys) in old(sharedPqs)
      ensures pushed.Some? ==>
                && pushed.value == Home(r, old(sharedPqs).Keys) && queuedTasks == old(queuedTasks) + {r.id}
                && sharedPqs == old(sharedPqs)[pushed.value := old(sharedPqs)[pushed.value] + multiset{r}]
      ensures pushed.None? ==> queuedTasks == old(queuedTasks) && sharedPqs == old(sharedPqs)
    {
      PushesMeans(View(), Live(), r, now);
      pushed := None;
      var ready := fileStore.AreTasksCompleted(r.Deps());
      assert ready == DepsDone(Live(), r);
      if ready && r.executeAt <= now && r.retryAfterTime <= now && r.deletedAt.None?
         && r.id !in executingTasks && r.id !in queuedTasks
      {
        var name := if r.pool.Some? then r.pool.value else DEFAULT_POOL;
        if name !in sharedPqs {
          name := DEFAULT_POOL;
        }
        if name in sharedPqs {
          queuedTasks := queuedTasks + {r.id};
          sharedPqs := sharedPqs[name := sharedPqs[name] + multiset{r}];
          pushed := Some(name);
        }
      }
    }

    /** The locked loop of `process_due_tasks` over the tasks it read. */
    method PushDue(tasks: seq<Task>, now: Time) returns (pools: set<Pool>)
      modifies this`queuedTasks, this`sharedPqs
      ensures View() == VisitAll(old(View()), Live(), RecordsOf(tasks), now)
      ensures pools == PushedPools(old(View()), Live(), RecordsOf(tasks), now)
    {
      pools := {};
      ghost var before := View();
      ghost var all := RecordsOf(tasks);
      var i := 0;
      while i < |tasks|
        invariant i <= |tasks|
        invariant View() == VisitAll(before, Live(), all[..i], now)
        invariant pools == PushedPools(before, Live(), all[..i], now)
      {
        VisitOneMore(before, Live(), all, now, i);
        var pushed := VisitTask(tasks[i].rec, now);
        if pushed.Some? {
          pools := pools + {pushed.value};
        }
        i := i + 1;
      }
      assert all[..i] == all;
    }

    /** The tail of `process_due_tasks`: at most two loops a pool. */
    method SpawnDispatchers(pools: set<Pool>) returns (spawned: set<Pool>)
      modifies this`dispatcherCounts
      ensures dispatcherCounts == SpawnAll(old(dispatcherCounts), pools)
      ensures spawned == set p | p in pools && Loops(old(View()), p) < 2
      ensures forall p :: Loops(View(), p) == Loops(old(View()), p) + if p in spawned then 1 else 0
    {
      spawned := {};
      var left := pools;
      ghost var done: set<Pool> := {};
      ghost var before := dispatcherCounts;
      assert dispatcherCounts == SpawnAll(before, {});
      while left != {}
        invariant done + left == pools && done !! left
        invariant dispatcherCounts == SpawnAll(before, done)
        invariant spawned == set p | p in done && (if p in before then before[p] else 0) < MAX_DISPATCHERS
        decreases left
      {
        var p :| p in left;
        SpawnOneMore(before, done, p);
        left := left - {p};
        done := done + {p};
        var count := if p in dispatcherCounts then dispatcherCounts[p] else 0;
        if count < MAX_DISPATCHERS {
          count := count + 1;
          spawned := spawned + {p};
        }
        dispatcherCounts := dispatcherCounts[p := count];
      }
      assert done == pools;
    }

    /** `process_due_tasks` with nothing in between: exactly the due tasks become queued,
        each in its heap, whatever order the store lists them in, and a pool that got one
        and has fewer than two dispatchers gets one more. */
    method ProcessDueTasks(now: Time) returns (spawned: set<Pool>)
      requires fileStore.Valid()
      modifies this`queuedTasks, this`sharedPqs, this`dispatcherCounts
      ensures Swept(old(View()), View().(counts := old(dispatcherCounts)), Live(), now)
      ensures forall p :: p in spawned <==> Loops(old(View()), p) < 2 && Gains(old(View()), Live(), p, now)
      ensures forall p :: Loops(View(), p) == Loops(old(View()), p) + if p in spawned then 1 else 0
    {
      var tasks := fileStore.ReadTasks();
      ghost var todo, before := RecordsOf(tasks), View();
      ListsLive(tasks, fileStore.cache, Live());
      var pools := PushDue(tasks, now);
      VisitsMakeTheSweep(before, Live(), todo, now);
      spawned := SpawnDispatchers(pools);
    }

    /** The pop of a dispatcher: a most urgent task of the heap, or none. */
    method PopTask(p: Pool) returns (task: Option<Record>)
      modifies this`sharedPqs
      ensures task.Some? ==> Poppable(old(View()), p, task.value) && View() == Pop(old(View()), p, task.value)
      ensures task.None? ==> View() == old(View()) && (p in sharedPqs ==> sharedPqs[p] == multiset{})
      ensures task.Some? ==>
                && p in old(sharedPqs) && task.value in old(sharedPqs)[p]
                && sharedPqs == old(sharedPqs)[p := old(sharedPqs)[p] - multiset{task.value}]
                && forall x :: x in sharedPqs[p] ==> NoMoreUrgent(x, task.value)
    {
      if p !in sharedPqs || sharedPqs[p] == multiset{} {
        return None;
      }
      ghost var top := Highest(View(), p);
      var r :| r in sharedPqs[p] && forall x :: x in sharedPqs[p] ==> Urgency(x) <= Urgency(r);
      TopIsPoppable(View(), p, r);
      sharedPqs := sharedPqs[p := sharedPqs[p] - multiset{r}];
      task := Some(r);
    }

    /** The rate-limited branch of a dispatcher. */
    method DeferTask(task: Task, now: Time)
      requires fileStore.Valid()
      modifies this`queuedTasks, fileStore
      ensures fileStore.Valid() && View() == Unqueue(old(View()), task.rec.id)
      ensures fileStore.View() == Append(old(fileStore.View()), task.(rec := Deferred(task.rec, now)))
      ensures queuedTasks == old(queuedTasks) - {task.rec.id}
      ensures task.rec.deletedAt.None? ==>
                Live() == old(Live())[task.rec.id := task.rec.(retryAfterTime := now + 60 * SECOND)]
    {
      AppendLive(fileStore.View(), task.(rec := Deferred(task.rec, now)));
      fileStore.SaveTask(task.(rec := task.rec.(retryAfterTime := now + RATE_LIMIT_DELAY)));
      queuedTasks := queuedTasks - {task.rec.id};
    }

    /** The move from queued to executing. */
    method StartTask(id: Id) returns (started: bool)
      modifies this`queuedTasks, this`executingTasks
      ensures started <==> id !in old(executingTasks)
      ensures View() == Scheduler.Start(old(View()), id)
      ensures queuedTasks == old(queuedTasks) - {id} && executingTasks == old(executingTasks) + {id}
    {
      queuedTasks := queuedTasks - {id};
      if id in executingTasks {
        return false;
      }
      executingTasks := executingTasks + {id};
      started := true;
    }

    /** `evict_expired_completed`. */
    method EvictExpiredCompleted(now: Time)
      modifies this`completedTasks
      ensures View() == Evict(old(View()), now)
      ensures forall id :: id in completedTasks <==> id in old(completedTasks) && now - old(completedTasks)[id] < 60 * SECOND
      ensures forall id :: id in completedTasks ==> completedTasks[id] == old(completedTasks)[id]
    {
      completedTasks := map id | id in completedTasks && now - completedTasks[id] < COMPLETED_TTL :: completedTasks[id];
    }

    /** `execute_task` with no other thread in between. `hasHandler` says whether the task
        has a webhook or a registered handler, `outcome` what it returned; `hasMaxHandler`
        whether a max-retry handler is registered. A dead letter is the webhook called, or
        that handler run, for a task that failed for good. */
    method ExecuteTask(task: Task, hasHandler: bool, outcome: Outcome, hasMaxHandler: bool, now: Time, instant: Time)
      returns (ran: bool, deadLetters: nat)
      requires fileStore.Valid()
      requires outcome.Succeeded? && outcome.next.Some? ==> task.rec.cron.Some?
      requires task.rec.deletedAt.None?
      modifies this`executingTasks, this`completedTasks, this`activeHashes, fileStore
      ensures fileStore.Valid()
      ensures ran <==> task.rec.id !in old(completedTasks) && hasHandler
      ensures task.rec.id in old(completedTasks) ==> View() == old(View()) && Live() == old(Live())
      ensures task.rec.id !in old(completedTasks) ==> executingTasks == old(executingTasks) - {task.rec.id}
      ensures !ran ==> Live() == old(Live()) && completedTasks == old(completedTasks) && activeHashes == old(activeHashes)
      ensures MayRetry(task.rec) <==> task.rec.retryCount < task.rec.maxRetries - 1
      ensures ran && outcome.Succeeded? && outcome.next.Some? ==>
                && Live() == old(Live())[task.rec.id := task.rec.(executeAt := outcome.next.value, retryCount := 0,
                                                                  lastErrorObj := None, lastJobError := None)]
                && completedTasks == old(completedTasks) && activeHashes == old(activeHashes)
      ensures ran && outcome.Failed? && MayRetry(task.rec) ==>
                && task.rec.id in Live() && Live() == old(Live())[task.rec.id := Live()[task.rec.id]]
                && RetryOf(Live()[task.rec.id], task.rec, outcome.error, now)
                && completedTasks == old(completedTasks) && activeHashes == old(activeHashes)
      ensures ran && outcome.Succeeded? && outcome.next.None? ==> Live() == old(Live()) - {task.rec.id}
      ensures ran && outcome.Failed? && !MayRetry(task.rec) ==>
                Live() == old(Live()) - {task.rec.id} - ChildrenOf(old(Live()), task.rec.id)
      ensures ran && ((outcome.Succeeded? && outcome.next.None?) || (outcome.Failed? && !MayRetry(task.rec))) ==>
                && completedTasks == old(completedTasks)[task.rec.id := instant]
                && activeHashes == old(activeHashes) - HashSet(task.rec)
      ensures deadLetters ==
                if ran && outcome.Failed? && !MayRetry(task.rec) && (task.rec.webhookUrl.Some? || hasMaxHandler) then 1 else 0
    {
      ran, deadLetters := false, 0;
      if task.rec.id in completedTasks {
        return;
      }
      ran := hasHandler;
      if hasHandler {
        match outcome {
          case Succeeded(next) => Succeed(task, next, now, instant);
          case Failed(error) => deadLetters := Fail(task, error, hasMaxHandler, now, instant);
        }
      }
      executingTasks := executingTasks - {task.rec.id};
    }

    /** The `Ok` branch: a cron task is rescheduled, any other is finished. */
    method Succeed(task: Task, next: Option<Time>, now: Time, instant: Time)
      requires fileStore.Valid() && task.rec.deletedAt.None?
      modifies this`completedTasks, this`activeHashes, fileStore
      ensures fileStore.Valid()
      ensures next.Some? ==>
                && Live() == old(Live())[task.rec.id := task.rec.(executeAt := next.value, retryCount := 0,
                                                                  lastErrorObj := None, lastJobError := None)]
                && completedTasks == old(completedTasks) && activeHashes == old(activeHashes)
      ensures next.None? ==>
                && Live() == old(Live()) - {task.rec.id}
                && completedTasks == old(completedTasks)[task.rec.id := instant]
                && activeHashes == old(activeHashes) - HashSet(task.rec)
    {
      if next.Some? {
        Resave(task.(rec := Rescheduled(task.rec, next.value)));
      } else {
        FinishTask(task, now, instant);
      }
    }

    /** The `Err` branch: another attempt, or the end for the task and its children. */
    method Fail(task: Task, error: string, hasMaxHandler: bool, now: Time, instant: Time) returns (deadLetters: nat)
      requires fileStore.Valid() && task.rec.deletedAt.None?
      modifies this`completedTasks, this`activeHashes, fileStore
      ensures fileStore.Valid()
      ensures MayRetry(task.rec) <==> task.rec.retryCount < task.rec.maxRetries - 1
      ensures MayRetry(task.rec) ==>
                && task.rec.id in Live() && Live() == old(Live())[task.rec.id := Live()[task.rec.id]]
                && RetryOf(Live()[task.rec.id], task.rec, error, now)
                && completedTasks == old(completedTasks) && activeHashes == old(activeHashes)
      ensures !MayRetry(task.rec) ==>
                && Live() == old(Live()) - {task.rec.id} - ChildrenOf(old(Live()), task.rec.id)
                && completedTasks == old(completedTasks)[task.rec.id := instant]
                && activeHashes == old(activeHashes) - HashSet(task.rec)
      ensures deadLetters == if !MayRetry(task.rec) && (task.rec.webhookUrl.Some? || hasMaxHandler) then 1 else 0
    {
      deadLetters := 0;
      if task.rec.retryCount < task.rec.maxRetries - 1 {
        RetryMeans(task.rec, error, now);
        Resave(Task(task.rec.UpdateRetryConfig(Some(error), now), task.createdAt, now));
      } else {
        if task.rec.webhookUrl.Some? || hasMaxHandler {
          deadLetters := 1;
        }
        GiveUp(task, now, instant);
      }
    }

    /** The task has failed for good: first its children go, then the task. */
    method GiveUp(task: Task, now: Time, instant: Time)
      requires fileStore.Valid()
      modifies this`completedTasks, this`activeHashes, fileStore
      ensures fileStore.Valid() && Live() == old(Live()) - {task.rec.id} - ChildrenOf(old(Live()), task.rec.id)
      ensures View() == ReleaseHash(MarkCompleted(old(View()), task.rec.id, instant), task.rec)
      ensures completedTasks == old(completedTasks)[task.rec.id := instant] && activeHashes == old(activeHashes) - HashSet(task.rec)
    {
      MinusSwaps(Live(), ChildrenOf(Live(), task.rec.id), {task.rec.id});
      FailChildren(task.rec.id, now);
      FinishTask(task, now, instant);
    }

    /** A save that keeps the task live. */
    method Resave(task: Task)
      requires fileStore.Valid() && task.rec.deletedAt.None?
      modifies fileStore
      ensures fileStore.Valid() && Live() == old(Live())[task.rec.id := task.rec]
    {
      AppendLive(fileStore.View(), task);
      fileStore.SaveTask(task);
    }

    /** The end of a task that is done or failed for good. */
    method FinishTask(task: Task, now: Time, instant: Time)
      requires fileStore.Valid()
      modifies this`completedTasks, this`activeHashes, fileStore
      ensures fileStore.Valid() && Live() == old(Live()) - {task.rec.id}
      ensures View() == ReleaseHash(MarkCompleted(old(View()), task.rec.id, instant), task.rec)
      ensures completedTasks == old(completedTasks)[task.rec.id := instant] && activeHashes == old(activeHashes) - HashSet(task.rec)
    {
      completedTasks := completedTasks[task.rec.id := instant];
      fileStore.DeleteTask(task.rec.id, now);
      if task.rec.payloadHash.Some? {
        activeHashes := activeHashes - {task.rec.payloadHash.value};
      }
    }

    method BlockChild(child: Task, parent: Id, now: Time)
      requires fileStore.Valid()
      modifies fileStore
      ensures fileStore.Valid() && Live() == old(Live()) - {child.rec.id}
      ensures fileStore.View() == Append(old(fileStore.View()), Task(Blocked(child.rec, parent, now), child.createdAt, now))
      ensures var lines := fileStore.View().lines;
              && lines != [] && lines[..|lines| - 1] == old(fileStore.View().lines) && lines[|lines| - 1].Json?
              && var tombstone := lines[|lines| - 1].rec;
                 && tombstone.deletedAt == Some(now)
                 && RetryOf(tombstone.(deletedAt := child.rec.deletedAt), child.rec, "blocked_by_failed_parent: " + parent, now)
    {
      RetryMeans(child.rec, "blocked_by_failed_parent: " + parent, now);
      var tombstone := Task(Blocked(child.rec, parent, now), child.createdAt, now);
      AppendLive(fileStore.View(), tombstone);
      fileStore.SaveTask(tombstone);
    }

    /** The children of a task that failed for good are tombstoned. */
    method FailChildren(parent: Id, now: Time)
      requires fileStore.Valid()
      modifies fileStore
      ensures fileStore.Valid() && Live() == old(Live()) - ChildrenOf(old(Live()), parent)
    {
      var tasks := fileStore.ReadTasks();
      ListsLive(tasks, fileStore.cache, Live());
      WaitersAreChildren(tasks, Live(), parent);
      BlockWaiters(tasks, parent, now);
    }

    method BlockWaiters(tasks: seq<Task>, parent: Id, now: Time)
      requires fileStore.Valid()
      modifies fileStore
      ensures fileStore.Valid() && Live() == old(Live()) - Waiters(tasks, |tasks|, parent)
    {
      ghost var live := Live();
      var i := 0;
      while i < |tasks|
        invariant i <= |tasks| && fileStore.Valid()
        invariant Live() == live - Waiters(tasks, i, parent)
      {
        BlockNext(tasks, i, parent, now, live);
        i := i + 1;
      }
    }

    method BlockNext(tasks: seq<Task>, i: nat, parent: Id, now: Time, ghost live: map<Id, Record>)
      requires fileStore.Valid() && i < |tasks| && Live() == live - Waiters(tasks, i, parent)
      modifies fileStore
      ensures fileStore.Valid() && Live() == live - Waiters(tasks, i + 1, parent)
    {
      OneMoreWaiter(live, tasks, i, parent);
      if parent in tasks[i].rec.Deps() {
        BlockChild(tasks[i], parent, now);
      }
    }
  }

  /** The payload hash of `r`, if it has one. */
  function HashSet(r: Record): set<Hash> {
    if r.payloadHash.Some? then {r.payloadHash.value} else {}
  }

  /** The ids of those of the first `n` tasks that wait for `parent`. */
  function Waiters(tasks: seq<Task>, n: nat, parent: Id): set<Id>
    requires n <= |tasks|
  {
    set j | 0 <= j < n && parent in tasks[j].rec.Deps() :: tasks[j].rec.id
  }

  lemma OneMoreWaiter(live: map<Id, Record>, tasks: seq<Task>, n: nat, parent: Id)
    requires n < |tasks|
    ensures live - Waiters(tasks, n + 1, parent) ==
            if parent in tasks[n].rec.Deps() then (live - Waiters(tasks, n, parent)) - {tasks[n].rec.id}
            else live - Waiters(tasks, n, parent)
  {
    assert Waiters(tasks, n + 1, parent) ==
           Waiters(tasks, n, parent) + if parent in tasks[n].rec.Deps() then {tasks[n].rec.id} else {};
  }

  lemma WaitersAreChildren(tasks: seq<Task>, live: map<Id, Record>, parent: Id)
    requires KeyedAndLive(live)
    requires forall r :: r in RecordsOf(tasks) <==> r.id in live && live[r.id] == r
    ensures Waiters(tasks, |tasks|, parent) == ChildrenOf(live, parent)
  {
    forall k | k in ChildrenOf(live, parent) ensures k in Waiters(tasks, |tasks|, parent) {
      assert live[k] in RecordsOf(tasks);
      var j :| 0 <= j < |tasks| && RecordsOf(tasks)[j] == live[k];
    }
    forall j | 0 <= j < |tasks| && parent in tasks[j].rec.Deps() ensures tasks[j].rec.id in ChildrenOf(live, parent) {
      assert RecordsOf(tasks)[j] in RecordsOf(tasks);
    }
  }

  /** The payload hashes of the tasks that carry one and are not tombstones. */
  function HashesOf(tasks: seq<Task>): set<Hash> {
    set i | 0 <= i < |tasks| && tasks[i].rec.deletedAt.None? && tasks[i].rec.payloadHash.Some? :: tasks[i].rec.payloadHash.value
  }

  function RecordsOf(tasks: seq<Task>): (r: seq<Record>)
    ensures |r| == |tasks| && forall i :: 0 <= i < |tasks| ==> r[i] == tasks[i].rec
  {
    seq(|tasks|, i requires 0 <= i < |tasks| => tasks[i].rec)
  }

  lemma ListsLive(tasks: seq<Task>, cache: map<Id, Task>, live: map<Id, Record>)
    requires live == Records(cache) && KeyedAndLive(live)
    requires forall i :: 0 <= i < |tasks| ==> tasks[i].rec.id in cache && cache[tasks[i].rec.id] == tasks[i]
    requires forall i, j :: 0 <= i < j < |tasks| ==> tasks[i].rec.id != tasks[j].rec.id
    requires forall id :: id in cache ==> cache[id] in tasks
    ensures DistinctIds(RecordsOf(tasks))
    ensures forall r :: r in RecordsOf(tasks) <==> r.id in live && live[r.id] == r
  {
    forall r: Record | r.id in live && live[r.id] == r ensures r in RecordsOf(tasks) {
      var i :| 0 <= i < |tasks| && tasks[i] == cache[r.id];
      assert RecordsOf(tasks)[i] == r;
    }
  }

  lemma MinusSwaps(live: map<Id, Record>, a: set<Id>, b: set<Id>)
    ensures live - a - b == live - b - a
  {}

  function ChildrenOf(live: map<Id, Record>, parent: Id): set<Id> {
    set k | k in live && parent in live[k].Deps()
  }

  lemma NoDepsNoCycle(g: Graph, id: Id)
    ensures !Reaches(g, [], id)
  {
    ClosedSetBlocks(g, {}, [], id);
  }
}
