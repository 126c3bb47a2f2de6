/** What each critical section of the log store does to the file, the cache and the
    counters, and what every run of them keeps. */
module StoreSpec {
  import opened Wrappers
  import opened Tasks
  import opened LogReplay
  import opened DepGraph

  datatype Store = Store(lines: seq<Line>, cache: map<Id, Task>, total: nat, deleted: nat, appended: nat) {
    /** The live tasks without their stamps. */
    function Live(): map<Id, Record> { Records(cache) }
  }

  /** `save_task_inner`: one appended line, the cache and the counters, under the file lock. */
  function Append(st: Store, t: Task): Store {
    var dead := t.rec.deletedAt.Some?;
    Store(
      st.lines + [Json(t.rec)],
      if dead then st.cache - {t.rec.id} else st.cache[t.rec.id := t],
      if dead then st.total else st.total + 1,
      if dead then st.deleted + 1 else st.deleted,
      st.appended + 1)
  }

  /** `delete_task` when nothing comes between its read and its write. */
  function Delete(st: Store, id: Id, now: Time): Store {
    if id in st.cache && st.cache[id].rec.deletedAt.None? then Append(st, st.cache[id].MarkDeleted(now)) else st
  }

  ghost predicate CanCompact(st: Store, stamps: seq<Time>, order: seq<Id>) {
    && |Readable(st.lines)| <= |stamps|
    && Enumerates(order, CompactFold(Readable(st.lines), stamps))
  }

  /** `compact_log`, with line `i` parsed at `stamps[i]` and the survivors written in `order`. */
  function Compact(st: Store, stamps: seq<Time>, order: seq<Id>): Store
    requires CanCompact(st, stamps, order)
  {
    var kept := CompactFold(Readable(st.lines), stamps);
    Store(Compacted(st.lines, stamps, order), kept, |kept|, 0, 0)
  }

  /** The scan of `rebuild_metadata`: the last live line of each id wins, whatever its stamp. */
  function ReplayTasks(lines: seq<Line>, stamps: seq<Time>): map<Id, Task>
    requires |lines| <= |stamps|
  {
    if lines == [] then map[]
    else
      var m := ReplayTasks(lines[..|lines| - 1], stamps);
      match lines[|lines| - 1]
      case Json(r) => if r.deletedAt.Some? then m - {r.id} else m[r.id := Parse(r, stamps[|lines| - 1])]
      case _ => m
  }

  function OpenStore(lines: seq<Line>, stamps: seq<Time>): Store
    requires |Readable(lines)| <= |stamps|
  {
    var seen := Readable(lines);
    Store(lines, ReplayTasks(seen, stamps), |LiveLines(seen)|, |TombstoneLines(seen)|, |ParsableLines(seen)|)
  }

  lemma {:induction false} ReplayTasksIsFold(lines: seq<Line>, stamps: seq<Time>)
    requires |lines| <= |stamps|
    ensures Records(ReplayTasks(lines, stamps)) == Fold(lines)
  {
    if lines != [] {
      var init := lines[..|lines| - 1];
      ReplayTasksIsFold(init, stamps);
      assert Records(ReplayTasks(lines, stamps)) == ApplyLine(Records(ReplayTasks(init, stamps)), lines[|lines| - 1]);
    }
  }

  // ------------------------------------------------------- the invariant

  /** The lines a store has taken in: those of the first `n` that could be read when it was
      opened or rewritten, and all that were appended since. */
  function Taken(lines: seq<Line>, n: nat): seq<Line>
    requires n <= |lines|
  {
    Readable(lines[..n]) + lines[n..]
  }

  ghost predicate AgreesFrom(st: Store, n: nat) {
    && n <= |st.lines| && AllReadable(st.lines[n..])
    && st.Live() == Fold(Taken(st.lines, n))
    && st.total == |LiveLines(Taken(st.lines, n))| && st.deleted == |TombstoneLines(Taken(st.lines, n))|
  }

  /** The cache is the replay of the lines taken in (up to the two stamps no line carries),
      and the two counters count the live ones and the tombstones among them. */
  ghost predicate Agrees(st: Store) {
    KeyedAndLive(st.Live()) && exists n: nat :: AgreesFrom(st, n)
  }

  /** With every line readable these are all the lines. */
  lemma AgreesMeans(st: Store)
    requires Agrees(st) && AllReadable(st.lines)
    ensures st.Live() == Fold(st.lines) == Replay(st.lines)
    ensures st.total == |LiveLines(st.lines)| && st.deleted == |TombstoneLines(st.lines)|
  {
    var n: nat :| AgreesFrom(st, n);
    TakenAll(st.lines, n);
    ReadableAll(st.lines);
  }

  lemma TakenAll(lines: seq<Line>, n: nat)
    requires n <= |lines| && AllReadable(lines)
    ensures Taken(lines, n) == lines
  {
    ReadableAll(lines[..n]);
    assert lines == lines[..n] + lines[n..];
  }

  lemma AppendLive(st: Store, t: Task)
    ensures Append(st, t).Live() == ApplyLine(st.Live(), Json(t.rec))
  {}

  lemma AppendAgrees(st: Store, t: Task)
    requires Agrees(st)
    ensures Agrees(Append(st, t))
  {
    AppendLive(st, t);
    var n: nat :| AgreesFrom(st, n);
    AppendAgreesFrom(st, t, n);
    assert forall id :: id in Append(st, t).Live() ==> id in st.Live() || id == t.rec.id;
  }

  lemma TakenAppend(lines: seq<Line>, n: nat, line: Line)
    requires n <= |lines| && AllReadable(lines[n..]) && line != Unreadable
    ensures Taken(lines + [line], n) == Taken(lines, n) + [line] && AllReadable((lines + [line])[n..])
  {
    assert (lines + [line])[..n] == lines[..n] && (lines + [line])[n..] == lines[n..] + [line];
  }

  lemma AppendAgreesFrom(st: Store, t: Task, n: nat)
    requires AgreesFrom(st, n)
    ensures AgreesFrom(Append(st, t), n)
  {
    AppendLive(st, t);
    TakenAppend(st.lines, n, Json(t.rec));
    FoldAppend(Taken(st.lines, n), Json(t.rec));
    LinesAppend(Taken(st.lines, n), Json(t.rec));
  }

  lemma WholeAgrees(st: Store)
    requires AllReadable(st.lines) && st.Live() == Fold(st.lines)
    requires st.total == |LiveLines(st.lines)| && st.deleted == |TombstoneLines(st.lines)|
    ensures AgreesFrom(st, |st.lines|)
  {
    TakenAll(st.lines, |st.lines|);
  }

  lemma CompactAgrees(st: Store, stamps: seq<Time>, order: seq<Id>)
    requires CanCompact(st, stamps, order)
    ensures Agrees(Compact(st, stamps, order))
    ensures AgreesFrom(Compact(st, stamps, order), |Compact(st, stamps, order).lines|)
    ensures AllReadable(Compact(st, stamps, order).lines)
  {
    var kept := CompactFold(Readable(st.lines), stamps);
    CompactIsKeyed(Readable(st.lines), stamps);
    CompactCounts(st, stamps, order);
    assert kept.Keys == Records(kept).Keys;
    ReplayWriteOut(order, Records(kept));
    WriteOutCounts(order, Records(kept));
    WholeAgrees(Compact(st, stamps, order));
  }

  lemma OpenAgrees(lines: seq<Line>, stamps: seq<Time>)
    requires |Readable(lines)| <= |stamps|
    ensures Agrees(OpenStore(lines, stamps)) && AgreesFrom(OpenStore(lines, stamps), |lines|)
    ensures OpenStore(lines, stamps).Live() == Replay(lines)
  {
    ReplayTasksIsFold(Readable(lines), stamps);
    FoldKeys(Readable(lines));
    assert lines[..|lines|] == lines && Taken(lines, |lines|) == Readable(lines);
    assert AgreesFrom(OpenStore(lines, stamps), |lines|);
  }

  // ------------------------------------------------------------------ runs

  /** The atomic steps of a store shared by many threads. A delete is a read followed by
      a `Write` of whatever tombstone was built from the copy read, however old. */
  datatype StoreOp =
    | Enqueue(task: Task)
    | Write(task: Task)
    | Purge(id: Id, now: Time)
    | Rewrite(stamps: seq<Time>, order: seq<Id>)
    | Restart(stamps: seq<Time>)

  ghost predicate Enabled(st: Store, op: StoreOp) {
    match op
    case Rewrite(stamps, order) => CanCompact(st, stamps, order)
    case Restart(stamps) => |Readable(st.lines)| <= |stamps|
    case _ => true
  }

  ghost function Do(st: Store, op: StoreOp): Store
    requires Enabled(st, op)
  {
    match op
    case Enqueue(t) => if Reaches(st.Live(), t.rec.Deps(), t.rec.id) then st else Append(st, t.(rec := t.rec.(deletedAt := None)))
    case Write(t) => Append(st, t)
    case Purge(id, now) => Delete(st, id, now)
    case Rewrite(stamps, order) => Compact(st, stamps, order)
    case Restart(stamps) => OpenStore(st.lines, stamps)
  }

  ghost predicate IsRun(states: seq<Store>, ops: seq<StoreOp>) {
    && |states| == |ops| + 1
    && forall i :: 0 <= i < |ops| ==> Enabled(states[i], ops[i]) && states[i + 1] == Do(states[i], ops[i])
  }

  lemma DoAgrees(st: Store, op: StoreOp)
    requires Agrees(st) && Enabled(st, op)
    ensures Agrees(Do(st, op))
  {
    match op
    case Enqueue(t) => AppendAgrees(st, t.(rec := t.rec.(deletedAt := None)));
    case Write(t) => AppendAgrees(st, t);
    case Purge(id, now) =>
      if id in st.cache && st.cache[id].rec.deletedAt.None? {
        AppendAgrees(st, st.cache[id].MarkDeleted(now));
      }
    case Rewrite(stamps, order) => CompactAgrees(st, stamps, order);
    case Restart(stamps) => OpenAgrees(st.lines, stamps);
  }

  /** How many lines the store held when it was last opened or rewritten, if it held `n` such
      lines before `op`. */
  ghost function TakenBy(st: Store, op: StoreOp, n: nat): nat
    requires Enabled(st, op)
  {
    if op.Rewrite? || op.Restart? then |Do(st, op).lines| else n
  }

  lemma DoAgreesFrom(st: Store, op: StoreOp, n: nat)
    requires AgreesFrom(st, n) && Enabled(st, op)
    ensures AgreesFrom(Do(st, op), TakenBy(st, op, n))
  {
    match op
    case Enqueue(t) => AppendAgreesFrom(st, t.(rec := t.rec.(deletedAt := None)), n);
    case Write(t) => AppendAgreesFrom(st, t, n);
    case Purge(id, now) =>
      if id in st.cache && st.cache[id].rec.deletedAt.None? {
        AppendAgreesFrom(st, st.cache[id].MarkDeleted(now), n);
      }
    case Rewrite(stamps, order) => CompactAgrees(st, stamps, order);
    case Restart(stamps) => OpenAgrees(st.lines, stamps);
  }

  /** The number of lines in the file when the store was last opened or rewritten, after the
      first `i` operations of a run that opens it with `n`. */
  ghost function TakenAt(states: seq<Store>, ops: seq<StoreOp>, n: nat, i: nat): nat
    requires IsRun(states, ops) && i <= |ops|
  {
    if i == 0 then n else TakenBy(states[i - 1], ops[i - 1], TakenAt(states, ops, n, i - 1))
  }

  /** Main result: in every run of saves, deletes, compactions and restarts of a store opened
      on `n` lines, the cache is the replay of the lines that could be read when it was last
      opened or rewritten and of all appended since: since then each live line has raised
      `total` by one, each tombstone `deleted`, and nothing else has moved them. */
  lemma {:induction false} CacheAgreement(states: seq<Store>, ops: seq<StoreOp>, n: nat, i: nat)
    requires IsRun(states, ops) && i <= |ops|
    requires KeyedAndLive(states[0].Live()) && AgreesFrom(states[0], n)
    ensures AgreesFrom(states[i], TakenAt(states, ops, n, i)) && Agrees(states[i])
  {
    if i > 0 {
      CacheAgreement(states, ops, n, i - 1);
      DoAgreesFrom(states[i - 1], ops[i - 1], TakenAt(states, ops, n, i - 1));
      DoAgrees(states[i - 1], ops[i - 1]);
    }
  }

  /** Right after a compaction the counters say how many survivors there are, and nothing else. */
  lemma CompactCounts(st: Store, stamps: seq<Time>, order: seq<Id>)
    requires CanCompact(st, stamps, order)
    ensures var st' := Compact(st, stamps, order);
            st'.total == |st'.lines| == |st'.cache| == |LiveLines(st'.lines)| && st'.deleted == 0 && st'.appended == 0
  {
    var kept := CompactFold(Readable(st.lines), stamps);
    CompactIsKeyed(Readable(st.lines), stamps);
    assert kept.Keys == Records(kept).Keys;
    assert |kept| == |kept.Keys| && |Records(kept)| == |Records(kept).Keys|;
    ReplayWriteOut(order, Records(kept));
    WriteOutCounts(order, Records(kept));
  }

  /** `appended` counts the parsable lines since the first `n`, and those of the first `n`
      that were read if the log was `read` when it held `n`. */
  ghost predicate CountsSaves(st: Store, n: nat, read: bool) {
    && n <= |st.lines|
    && st.appended == |ParsableLines(st.lines[n..])| + if read then |ParsableLines(Readable(st.lines[..n]))| else 0
  }

  /** Whether the last thing to set the counters afresh, in the first `i` operations of a run,
      was an opening and not a rewrite. */
  predicate OpenedLast(ops: seq<StoreOp>, i: nat)
    requires i <= |ops|
  {
    i == 0 || ops[i - 1].Restart? || (!ops[i - 1].Rewrite? && OpenedLast(ops, i - 1))
  }

  lemma AppendCountsSaves(st: Store, t: Task, n: nat, read: bool)
    requires CountsSaves(st, n, read)
    ensures CountsSaves(Append(st, t), n, read)
  {
    var lines := st.lines + [Json(t.rec)];
    assert lines[..n] == st.lines[..n] && lines[n..] == st.lines[n..] + [Json(t.rec)];
    LinesAppend(st.lines[n..], Json(t.rec));
  }

  lemma OpenCountsSaves(lines: seq<Line>, stamps: seq<Time>)
    requires |Readable(lines)| <= |stamps|
    ensures CountsSaves(OpenStore(lines, stamps), |lines|, true)
  {
    assert lines[..|lines|] == lines && ParsableLines(lines[|lines|..]) == {};
  }

  lemma DoCountsSaves(st: Store, op: StoreOp, n: nat, read: bool)
    requires CountsSaves(st, n, read) && Enabled(st, op)
    ensures CountsSaves(Do(st, op), TakenBy(st, op, n), op.Restart? || (!op.Rewrite? && read))
  {
    match op
    case Enqueue(t) => AppendCountsSaves(st, t.(rec := t.rec.(deletedAt := None)), n, read);
    case Write(t) => AppendCountsSaves(st, t, n, read);
    case Purge(id, now) =>
      if id in st.cache && st.cache[id].rec.deletedAt.None? {
        AppendCountsSaves(st, st.cache[id].MarkDeleted(now), n, read);
      }
    case Rewrite(stamps, order) => assert |ParsableLines([])| == 0;
    case Restart(stamps) => OpenCountsSaves(st.lines, stamps);
  }

  /** The third counter over runs: the parsable lines appended since the log was last opened
      or rewritten, and those read if it was opened. */
  lemma {:induction false} SavesCounted(states: seq<Store>, ops: seq<StoreOp>, n: nat, i: nat)
    requires IsRun(states, ops) && i <= |ops|
    requires CountsSaves(states[0], n, true)
    ensures CountsSaves(states[i], TakenAt(states, ops, n, i), OpenedLast(ops, i))
  {
    if i > 0 {
      SavesCounted(states, ops, n, i - 1);
      DoCountsSaves(states[i - 1], ops[i - 1], TakenAt(states, ops, n, i - 1), OpenedLast(ops, i - 1));
    }
  }

  // -------------------------------------------------- acyclicity over runs

  /** Compaction keeps the dependency list that a restart would find for each live id. */
  ghost predicate KeepsLists(st: Store, stamps: seq<Time>)
    requires |Readable(st.lines)| <= |stamps|
  {
    var kept := CompactFold(Readable(st.lines), stamps);
    forall id :: id in kept && id in Replay(st.lines) ==> kept[id].rec.Deps() == Replay(st.lines)[id].Deps()
  }

  /** What keeps the graph acyclic: a re-save, which the code does not check, would pass the
      check of an enqueue, and compaction rolls no dependency list back. */
  ghost predicate KeepsGraph(st: Store, op: StoreOp) {
    match op
    case Write(t) => t.rec.deletedAt.Some? || !Reaches(st.Live(), t.rec.Deps(), t.rec.id)
    case Rewrite(stamps, order) => CanCompact(st, stamps, order) ==> KeepsLists(st, stamps)
    case _ => true
  }

  /** For a re-save that condition is exact. */
  lemma WriteAcyclicIff(st: Store, t: Task)
    requires Acyclic(st.Live())
    ensures Acyclic(Do(st, Write(t)).Live()) <==> t.rec.deletedAt.Some? || !Reaches(st.Live(), t.rec.Deps(), t.rec.id)
  {
    AppendLive(st, t);
    if t.rec.deletedAt.Some? {
      FewerEdgesAcyclic(st.Live(), Do(st, Write(t)).Live());
    } else {
      InsertAcyclicIff(st.Live(), t.rec);
    }
  }

  /** The live graph is acyclic, and so is the one a restart would find. */
  ghost predicate GraphHolds(st: Store) {
    Agrees(st) && Acyclic(st.Live()) && Acyclic(Replay(st.lines))
  }

  /** After a save a restart finds the live tasks, or what it would have found before. */
  lemma AppendReplay(st: Store, t: Task)
    requires Agrees(st)
    ensures var st' := Append(st, t);
            Replay(st'.lines) == st'.Live() || Replay(st'.lines) == Replay(st.lines)
  {
    ReadableAppend(st.lines, Json(t.rec));
    if AllReadable(st.lines) {
      AppendAgrees(st, t);
      AgreesMeans(Append(st, t));
    }
  }

  /** A save keeps the graph if it would pass the check or is a tombstone. */
  lemma AppendKeepsGraph(st: Store, t: Task)
    requires GraphHolds(st)
    requires t.rec.deletedAt.Some? || !Reaches(st.Live(), t.rec.Deps(), t.rec.id)
    ensures GraphHolds(Append(st, t))
  {
    AppendAgrees(st, t);
    AppendReplay(st, t);
    WriteAcyclicIff(st, t);
  }

  lemma CompactKeepsGraph(st: Store, stamps: seq<Time>, order: seq<Id>)
    requires GraphHolds(st) && CanCompact(st, stamps, order) && KeepsLists(st, stamps)
    ensures GraphHolds(Compact(st, stamps, order))
  {
    CompactAgrees(st, stamps, order);
    AgreesMeans(Compact(st, stamps, order));
    CompactKeepsLiveIds(Readable(st.lines), stamps);
    var g := Compact(st, stamps, order).Live();
    forall v, w | w in Edges(g, v) ensures w in Edges(Replay(st.lines), v) {
      assert v in CompactFold(Readable(st.lines), stamps).Keys;
    }
    FewerEdgesAcyclic(Replay(st.lines), g);
  }

  lemma RestartKeepsGraph(st: Store, stamps: seq<Time>)
    requires GraphHolds(st) && |Readable(st.lines)| <= |stamps|
    ensures GraphHolds(OpenStore(st.lines, stamps))
  {
    OpenAgrees(st.lines, stamps);
  }

  lemma DoAcyclic(st: Store, op: StoreOp)
    requires GraphHolds(st) && Enabled(st, op) && KeepsGraph(st, op)
    ensures GraphHolds(Do(st, op))
  {
    match op
    case Enqueue(t) =>
      if !Reaches(st.Live(), t.rec.Deps(), t.rec.id) { AppendKeepsGraph(st, t.(rec := t.rec.(deletedAt := None))); }
    case Write(t) => AppendKeepsGraph(st, t);
    case Purge(id, now) =>
      if id in st.cache && st.cache[id].rec.deletedAt.None? { AppendKeepsGraph(st, st.cache[id].MarkDeleted(now)); }
    case Rewrite(stamps, order) => CompactKeepsGraph(st, stamps, order);
    case Restart(stamps) => RestartKeepsGraph(st, stamps);
  }

  /** The graph of live tasks stays acyclic in every run in which the check and the save of
      an enqueue are one step, every re-save would pass the check too, and no dependency list
      is rolled back, restarts on a damaged file included; so a store that is not empty can
      always run something. */
  lemma {:induction false} AlwaysAcyclic(states: seq<Store>, ops: seq<StoreOp>, i: nat)
    requires IsRun(states, ops) && GraphHolds(states[0]) && i <= |ops|
    requires forall k :: 0 <= k < i ==> KeepsGraph(states[k], ops[k])
    ensures GraphHolds(states[i])
    ensures states[i].Live() != map[] ==> exists id :: Ready(states[i].Live(), id)
  {
    if i > 0 {
      AlwaysAcyclic(states, ops, i - 1);
      DoAcyclic(states[i - 1], ops[i - 1]);
    }
    if states[i].Live() != map[] {
      SomethingIsReady(states[i].Live());
    }
  }

  /** The condition on re-saves is needed: a task that was deleted and is then saved again can
      close a cycle with one accepted in between, although each enqueue was checked. */
  lemma ResaveAfterDeleteMakesCycle(k: Task, n: Task, now: Time)
    requires k.rec.id != n.rec.id && k.rec.deletedAt.None? && n.rec.deletedAt.None?
    requires k.rec.triggerAfterIds == Some([n.rec.id]) && n.rec.triggerAfterIds == Some([k.rec.id])
    ensures var s1 := Do(Store([], map[], 0, 0, 0), Enqueue(k));
            var s2 := Do(s1, Purge(k.rec.id, now));
            var s3 := Do(s2, Enqueue(n));
            && s1.Live() == map[k.rec.id := k.rec] && s2.Live() == map[] && s3.Live() == map[n.rec.id := n.rec]
            && !Acyclic(Do(s3, Write(k)).Live())
  {
    var s0 := Store([], map[], 0, 0, 0);
    ClosedSetBlocks(s0.Live(), {n.rec.id}, k.rec.Deps(), k.rec.id);
    EnqueuePasses(s0, k);
    var s1 := Do(s0, Enqueue(k));
    var s2 := Do(s1, Purge(k.rec.id, now));
    assert s2.Live() == map[];
    ClosedSetBlocks(s2.Live(), {k.rec.id}, n.rec.Deps(), n.rec.id);
    EnqueuePasses(s2, n);
    var s3 := Do(s2, Enqueue(n));
    assert s3.Live() == map[n.rec.id := n.rec];
    TwoCycle(Do(s3, Write(k)).Live(), k.rec.id, n.rec.id);
  }

  /** The condition on compaction is needed: with an id enqueued again, a tie between the
      stamps brings back a dependency list that later checks did not see. */
  lemma TiedCompactionMakesCycle(older: Task, newer: Task, other: Task, t: Time) returns (s3: Store)
    requires older.rec.id == newer.rec.id && older.rec.id != other.rec.id
    requires older.rec.deletedAt.None? && newer.rec.deletedAt.None? && other.rec.deletedAt.None?
    requires older.rec.triggerAfterIds == Some([other.rec.id]) && newer.rec.triggerAfterIds.None?
    requires other.rec.triggerAfterIds == Some([older.rec.id])
    ensures s3 == Do(Do(Do(Store([], map[], 0, 0, 0), Enqueue(older)), Enqueue(newer)), Enqueue(other))
    ensures s3.Live() == map[newer.rec.id := newer.rec, other.rec.id := other.rec]
    ensures var order := [older.rec.id, other.rec.id];
            CanCompact(s3, [t, t, t], order) && !Acyclic(Compact(s3, [t, t, t], order).Live())
  {
    var s0 := Store([], map[], 0, 0, 0);
    ClosedSetBlocks(s0.Live(), {other.rec.id}, older.rec.Deps(), older.rec.id);
    EnqueuePasses(s0, older);
    var s1 := Do(s0, Enqueue(older));
    ClosedSetBlocks(s1.Live(), {}, newer.rec.Deps(), newer.rec.id);
    EnqueuePasses(s1, newer);
    var s2 := Do(s1, Enqueue(newer));
    assert s2.Live() == map[newer.rec.id := newer.rec];
    ClosedSetBlocks(s2.Live(), {newer.rec.id}, other.rec.Deps(), other.rec.id);
    EnqueuePasses(s2, other);
    s3 := Do(s2, Enqueue(other));
    CompactThreeTied(s3, older.rec, newer.rec, other.rec, t);
  }

  lemma EnqueuePasses(st: Store, t: Task)
    requires t.rec.deletedAt.None? && !Reaches(st.Live(), t.rec.Deps(), t.rec.id)
    ensures var st' := Do(st, Enqueue(t));
            st'.lines == st.lines + [Json(t.rec)] && st'.Live() == st.Live()[t.rec.id := t.rec]
  {
    assert t.(rec := t.rec.(deletedAt := None)) == t;
    AppendLive(st, t);
  }

  lemma CompactThreeTied(st: Store, older: Record, newer: Record, other: Record, t: Time)
    requires st.lines == [Json(older), Json(newer), Json(other)] && older.id == newer.id && older.id != other.id
    requires older.deletedAt.None? && newer.deletedAt.None? && other.deletedAt.None?
    requires older.triggerAfterIds == Some([other.id]) && other.triggerAfterIds == Some([older.id])
    ensures CanCompact(st, [t, t, t], [older.id, other.id]) && !Acyclic(Compact(st, [t, t, t], [older.id, other.id]).Live())
  {
    TiedStampsRollBackBeside(older, newer, other, t);
    var kept := CompactFold(st.lines, [t, t, t]);
    assert kept.Keys == {older.id, other.id} by { assert Records(kept).Keys == {older.id, other.id}; }
    assert Enumerates([older.id, other.id], kept);
    TwoCycle(Records(kept), older.id, other.id);
  }

  /** So is one step for the check and the save of an enqueue: two enqueues that both pass the
      check on the empty store and then both save leave a cycle. */
  lemma RacingEnqueuesMakeCycle(a: Task, b: Task)
    requires a.rec.id != b.rec.id && a.rec.deletedAt.None? && b.rec.deletedAt.None?
    requires a.rec.triggerAfterIds == Some([b.rec.id]) && b.rec.triggerAfterIds == Some([a.rec.id])
    ensures var empty := Store([], map[], 0, 0, 0);
            && !Reaches(empty.Live(), a.rec.Deps(), a.rec.id)
            && !Reaches(empty.Live(), b.rec.Deps(), b.rec.id)
            && !Acyclic(Append(Append(empty, a), b).Live())
  {
    var empty := Store([], map[], 0, 0, 0);
    ClosedSetBlocks(empty.Live(), {b.rec.id}, a.rec.Deps(), a.rec.id);
    ClosedSetBlocks(empty.Live(), {a.rec.id}, b.rec.Deps(), b.rec.id);
    TwoCycle(Append(Append(empty, a), b).Live(), a.rec.id, b.rec.id);
  }
}
