/** The log store of src/file_store.rs: the file, the cache and the counters it updates
    in place. The file lock makes each method one step. */
module FileStores {
  import opened Wrappers
  import opened Tasks
  import opened LogReplay
  import opened DepGraph
  import opened StoreSpec

  class FileStore {
    var disk: Option<seq<Line>> // None: the file does not exist
    var cache: map<Id, Task>
    var totalTasks: nat
    var deletedTasks: nat
    var appendCount: nat
    var compacting: bool

    ghost function View(): Store
      reads this
    {
      Store(if disk.Some? then disk.value else [], cache, totalTasks, deletedTasks, appendCount)
    }

    ghost predicate Valid()
      reads this
    {
      Agrees(View())
    }

    /** `new` with `rebuild_metadata`: line `i` of the file is parsed at `stamps[i]`. */
    constructor Open(file: Option<seq<Line>>, stamps: seq<Time>)
      requires file.Some? ==> |file.value| <= |stamps|
      ensures Valid() && !compacting && disk == file
      ensures View() == OpenStore(if file.Some? then file.value else [], stamps)
      ensures file.Some? ==>
                && totalTasks == |LiveLines(Readable(file.value))| && deletedTasks == |TombstoneLines(Readable(file.value))|
                && appendCount == |ParsableLines(Readable(file.value))|
    {
      disk, cache, totalTasks, deletedTasks, appendCount, compacting := file, map[], 0, 0, 0, false;
      new;
      RebuildMetadata(stamps);
      OpenAgrees(View().lines, stamps);
    }

    /** `rebuild_metadata`. */
    method RebuildMetadata(stamps: seq<Time>)
      requires disk.Some? ==> |disk.value| <= |stamps|
      requires disk.None? ==> cache == map[] && totalTasks == deletedTasks == appendCount == 0
      modifies `cache, `totalTasks, `deletedTasks, `appendCount
      ensures View() == OpenStore(old(View()).lines, stamps)
    {
      if disk.None? {
        return;
      }
      var live, total, deleted, appended := ScanLog(disk.value, stamps);
      cache, totalTasks, deletedTasks, appendCount := live, total, deleted, appended;
    }

    /** `save_task_inner`: append the line, then update the cache and the counters. */
    method SaveTask(task: Task)
      requires Valid()
      modifies this
      ensures Valid() && compacting == old(compacting) && disk.Some?
      ensures View() == Append(old(View()), task)
      ensures disk.value == (if old(disk).Some? then old(disk).value else []) + [Json(task.rec)]
      ensures task.rec.deletedAt.None? ==>
                cache == old(cache)[task.rec.id := task] && totalTasks == old(totalTasks) + 1 && deletedTasks == old(deletedTasks)
      ensures task.rec.deletedAt.Some? ==>
                cache == old(cache) - {task.rec.id} && totalTasks == old(totalTasks) && deletedTasks == old(deletedTasks) + 1
      ensures appendCount == old(appendCount) + 1
    {
      AppendAgrees(View(), task);
      disk := Some((if disk.Some? then disk.value else []) + [Json(task.rec)]);
      var isDeleted := task.rec.deletedAt.Some?;
      if isDeleted {
        cache := cache - {task.rec.id};
      } else {
        cache := cache[task.rec.id := task];
      }
      appendCount := appendCount + 1;
      if isDeleted {
        deletedTasks := deletedTasks + 1;
      } else {
        totalTasks := totalTasks + 1;
      }
    }

    /** `delete_task` with nothing between its two halves: one tombstone if the task is
        live, nothing at all otherwise. */
    method DeleteTask(id: Id, now: Time)
      requires Valid()
      modifies this
      ensures Valid() && compacting == old(compacting)
      ensures View() == Delete(old(View()), id, now)
      ensures id !in old(cache) ==> unchanged(this)
      ensures id in old(cache) ==>
                && disk.Some? && disk.value == old(View().lines) + [Json(old(cache)[id].rec.(deletedAt := Some(now)))]
                && deletedTasks == old(deletedTasks) + 1 && totalTasks == old(totalTasks)
      ensures View().Live() == old(View().Live()) - {id}
    {
      assert id in cache ==> View().Live()[id] == cache[id].rec;
      if id in cache && cache[id].rec.deletedAt.None? {
        AppendLive(View(), cache[id].MarkDeleted(now));
        SaveTask(cache[id].MarkDeleted(now));
      }
    }

    /** `compact_log`: refuses a missing file, does nothing while another compaction runs. */
    method CompactLog(stamps: seq<Time>) returns (result: Result<(), ()>, ghost order: seq<Id>)
      requires Valid()
      requires disk.Some? ==> |disk.value| <= |stamps|
      modifies this
      ensures Valid() && compacting == old(compacting)
      ensures result.Err? <==> !old(compacting) && old(disk).None?
      ensures result.Err? || old(compacting) ==> unchanged(this)
      ensures result.Ok? && !old(compacting) ==>
                && CanCompact(old(View()), stamps, order)
                && View() == Compact(old(View()), stamps, order)
                && AllReadable(View().lines)
                && totalTasks == |View().lines| == |cache| && deletedTasks == 0 && appendCount == 0
    {
      order := [];
      if compacting {
        return Ok(()), order;
      }
      if disk.None? {
        return Err(()), order;
      }
      var taskMap := ScanSurvivors(disk.value, stamps);
      var out, written := WriteSurvivors(taskMap);
      order := written;
      RewriteAgrees(View(), stamps, order);
      Replace(out, taskMap);
      result := Ok(());
    }

    /** The rename, with the counters and the cache that go with it. */
    method Replace(out: seq<Line>, taskMap: map<Id, Task>)
      modifies `disk, `cache, `totalTasks, `deletedTasks, `appendCount
      ensures disk.Some? && View() == Store(out, taskMap, |taskMap|, 0, 0)
    {
      disk := Some(out);
      totalTasks, deletedTasks, appendCount := |taskMap|, 0, 0;
      cache := taskMap;
    }

    /** `read_tasks`: every live task once, in whatever order the map yields them. */
    method ReadTasks() returns (tasks: seq<Task>)
      requires Valid()
      ensures forall i :: 0 <= i < |tasks| ==> tasks[i].rec.id in cache && cache[tasks[i].rec.id] == tasks[i]
      ensures forall i, j :: 0 <= i < j < |tasks| ==> tasks[i].rec.id != tasks[j].rec.id
      ensures forall id :: id in cache ==> cache[id] in tasks
    {
      tasks := [];
      var left := cache.Keys;
      while left != {}
        invariant left <= cache.Keys
        invariant forall i :: 0 <= i < |tasks| ==> tasks[i].rec.id in cache && cache[tasks[i].rec.id] == tasks[i] && tasks[i].rec.id !in left
        invariant forall i, j :: 0 <= i < j < |tasks| ==> tasks[i].rec.id != tasks[j].rec.id
        invariant forall id :: id in cache ==> id in left || cache[id] in tasks
        decreases left
      {
        var id :| id in left;
        assert View().Live()[id].id == id;
        ghost var before := tasks;
        tasks := tasks + [cache[id]];
        left := left - {id};
        assert forall x :: x in before ==> x in tasks;
        assert tasks[|tasks| - 1] == cache[id];
      }
    }

    /** `are_tasks_completed`: an id that is not live counts as done. */
    predicate AreTasksCompleted(ids: seq<Id>)
      reads this
    {
      forall i :: 0 <= i < |ids| ==> ids[i] !in cache
    }

    /** `detect_cycle`: true when it returns the error. Terminates on every cache. */
    method DetectCycle(newId: Id, deps: seq<Id>) returns (cycle: bool)
      ensures cycle <==> Reaches(View().Live(), deps, newId)
    {
      ghost var g := View().Live();
      ghost var universe := Universe(g, deps);
      var visited: set<Id> := {};
      var stack := deps;
      SearchStart(g, deps, newId);
      while stack != []
        invariant Searching(g, deps, newId, visited, stack)
        decreases |universe - visited|, |stack|
      {
        var current := stack[|stack| - 1];
        SearchPop(g, deps, newId, visited, stack);
        stack := stack[..|stack| - 1];
        if current == newId {
          return true;
        }
        if current in visited {
          continue;
        }
        visited := visited + {current};
        var next := if current in cache then cache[current].rec.Deps() else [];
        assert next == Edges(g, current);
        stack := stack + next;
      }
      SearchDone(g, deps, newId, visited, stack);
      cycle := false;
    }
  }

  /** The state of the depth-first search: everything met is reachable, and every edge of
      a visited id leads to one that is visited or still on the stack. */
  ghost predicate Searching(g: Graph, deps: seq<Id>, newId: Id, visited: set<Id>, stack: seq<Id>) {
    && newId !in visited
    && visited <= Universe(g, deps)
    && (forall v :: v in stack ==> v in Universe(g, deps) && Reaches(g, deps, v))
    && (forall v :: v in deps ==> v in visited || v in stack)
    && (forall v, w :: v in visited && w in Edges(g, v) ==> w in visited || w in stack)
  }

  lemma SplitLast(s: seq<Id>)
    requires s != []
    ensures s == s[..|s| - 1] + [s[|s| - 1]]
  {}

  lemma SearchStart(g: Graph, deps: seq<Id>, newId: Id)
    ensures Searching(g, deps, newId, {}, deps)
  {
    forall v | v in deps ensures Reaches(g, deps, v) {
      ReachesStart(g, deps, v);
    }
  }

  /** Taking the top off the stack keeps the search going in each of its three cases. */
  lemma SearchPop(g: Graph, deps: seq<Id>, newId: Id, visited: set<Id>, stack: seq<Id>)
    requires Searching(g, deps, newId, visited, stack) && stack != []
    ensures var current := stack[|stack| - 1];
            var rest := stack[..|stack| - 1];
            && (current == newId ==> Reaches(g, deps, newId))
            && (current in visited ==> Searching(g, deps, newId, visited, rest))
            && (current !in visited && current != newId ==>
                  && Searching(g, deps, newId, visited + {current}, rest + Edges(g, current))
                  && |Universe(g, deps) - (visited + {current})| < |Universe(g, deps) - visited|)
  {
    var current := stack[|stack| - 1];
    var rest := stack[..|stack| - 1];
    SplitLast(stack);
    assert forall v :: v in stack <==> v in rest || v == current;
    if current !in visited && current != newId {
      PushedAreReachable(g, deps, current);
      assert forall v :: v in rest + Edges(g, current) <==> v in rest || v in Edges(g, current);
      var u := Universe(g, deps);
      assert current in u - visited;
      StrictSubsetSmaller(u - (visited + {current}), u - visited);
    }
  }

  lemma SearchDone(g: Graph, deps: seq<Id>, newId: Id, visited: set<Id>, stack: seq<Id>)
    requires Searching(g, deps, newId, visited, stack) && stack == []
    ensures !Reaches(g, deps, newId)
  {
    assert forall w :: w !in stack;
    assert Closed(g, visited);
    ClosedSetBlocks(g, visited, deps, newId);
  }

  lemma PushedAreReachable(g: Graph, starts: seq<Id>, current: Id)
    requires Reaches(g, starts, current)
    ensures forall w :: w in Edges(g, current) ==> w in Universe(g, starts) && Reaches(g, starts, w)
  {
    forall w | w in Edges(g, current) ensures Reaches(g, starts, w) {
      ReachesStep(g, starts, current, w);
    }
  }

  /** What reading one more line adds to the replay and to each count. */
  lemma ScanOneMore(seen: seq<Line>, stamps: seq<Time>, i: nat)
    requires i < |seen| <= |stamps|
    ensures ReplayTasks(seen[..i + 1], stamps) ==
            if !seen[i].Json? then ReplayTasks(seen[..i], stamps)
            else if seen[i].rec.deletedAt.Some? then ReplayTasks(seen[..i], stamps) - {seen[i].rec.id}
            else ReplayTasks(seen[..i], stamps)[seen[i].rec.id := Parse(seen[i].rec, stamps[i])]
    ensures |ParsableLines(seen[..i + 1])| == |ParsableLines(seen[..i])| + if seen[i].Json? then 1 else 0
    ensures |LiveLines(seen[..i + 1])| == |LiveLines(seen[..i])| + if seen[i].Json? && seen[i].rec.deletedAt.None? then 1 else 0
    ensures |TombstoneLines(seen[..i + 1])| == |TombstoneLines(seen[..i])| + if seen[i].Json? && seen[i].rec.deletedAt.Some? then 1 else 0
  {
    assert seen[..i + 1][..i] == seen[..i];
    assert seen[..i + 1] == seen[..i] + [seen[i]];
    LinesAppend(seen[..i], seen[i]);
  }

  /** The replay loop. */
  method ScanLog(lines: seq<Line>, stamps: seq<Time>)
    returns (live: map<Id, Task>, total: nat, deleted: nat, appended: nat)
    requires |lines| <= |stamps|
    ensures Store(lines, live, total, deleted, appended) == OpenStore(lines, stamps)
  {
    ghost var seen := Readable(lines);
    live, total, deleted, appended := map[], 0, 0, 0;
    var i := 0;
    ReadableStops(lines);
    while i < |lines| && lines[i] != Unreadable
      invariant i <= |seen|
      invariant live == ReplayTasks(seen[..i], stamps)
      invariant total == |LiveLines(seen[..i])| && deleted == |TombstoneLines(seen[..i])|
      invariant appended == |ParsableLines(seen[..i])|
    {
      ScanOneMore(seen, stamps, i);
      if lines[i].Json? {
        var r := lines[i].rec;
        appended := appended + 1;
        if r.deletedAt.Some? {
          deleted := deleted + 1;
          live := live - {r.id};
        } else {
          total := total + 1;
          live := live[r.id := Parse(r, stamps[i])];
        }
      }
      i := i + 1;
    }
    assert seen[..i] == seen;
  }

  /** The rewritten store is valid, and its counters say how many survivors there are. */
  lemma RewriteAgrees(st: Store, stamps: seq<Time>, order: seq<Id>)
    requires CanCompact(st, stamps, order)
    ensures var st' := Compact(st, stamps, order);
            Agrees(st') && AllReadable(st'.lines) && st'.total == |st'.lines| == |st'.cache| && st'.deleted == st'.appended == 0
  {
    CompactAgrees(st, stamps, order);
    CompactCounts(st, stamps, order);
  }

  /** The compaction scan. */
  method ScanSurvivors(lines: seq<Line>, stamps: seq<Time>) returns (taskMap: map<Id, Task>)
    requires |lines| <= |stamps|
    ensures taskMap == CompactFold(Readable(lines), stamps)
  {
    ghost var seen := Readable(lines);
    taskMap := map[];
    var i := 0;
    while i < |lines| && lines[i] != Unreadable
      invariant i <= |seen|
      invariant taskMap == CompactFold(seen[..i], stamps)
    {
      ReadableStops(lines);
      assert seen[..i + 1][..i] == seen[..i];
      if lines[i].Json? {
        var r := lines[i].rec;
        if r.deletedAt.Some? {
          taskMap := taskMap - {r.id};
        } else if r.id in taskMap {
          if stamps[i] > taskMap[r.id].updatedAt {
            taskMap := taskMap[r.id := Parse(r, stamps[i])];
          }
        } else {
          taskMap := taskMap[r.id := Parse(r, stamps[i])];
        }
      }
      i := i + 1;
    }
    ReadableStops(lines);
    assert seen[..i] == seen;
  }

  /** The rewrite: one line per survivor, in whatever order the hash map yields them. */
  method WriteSurvivors(taskMap: map<Id, Task>) returns (lines: seq<Line>, ghost order: seq<Id>)
    ensures Enumerates(order, taskMap)
    ensures lines == WriteOut(order, Records(taskMap))
    ensures KeyedAndLive(Records(taskMap)) ==> Fold(lines) == Records(taskMap) && |LiveLines(lines)| == |lines| == |taskMap|
  {
    lines, order := [], [];
    var left := taskMap.Keys;
    while left != {}
      invariant left <= taskMap.Keys
      invariant forall i :: 0 <= i < |order| ==> order[i] in taskMap && order[i] !in left
      invariant forall i, j :: 0 <= i < j < |order| ==> order[i] != order[j]
      invariant forall id :: id in taskMap ==> id in left || id in order
      invariant lines == WriteOut(order, Records(taskMap))
      decreases left
    {
      var id :| id in left;
      assert Records(taskMap)[id] == taskMap[id].rec;
      ghost var before := order;
      lines := lines + [Json(taskMap[id].rec)];
      order := order + [id];
      left := left - {id};
      assert forall k :: k in before ==> k in order;
      assert order[|order| - 1] == id;
    }
    if KeyedAndLive(Records(taskMap)) {
      assert Enumerates(order, Records(taskMap));
      ReplayWriteOut(order, Records(taskMap));
      WriteOutCounts(order, Records(taskMap));
      assert Records(taskMap).Keys == taskMap.Keys;
    }
  }
}
