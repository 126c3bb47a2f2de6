/** One queue as a machine: every thread of src/queue.rs, one step per critical section.
    A run may interleave the steps in any order. */
module Machine {
  import opened Wrappers
  import opened Tasks
  import opened LogReplay
  import opened DepGraph
  import opened Scheduler

  type Tid = nat

  /** A dispatcher loop between two critical sections. */
  datatype DispState =
    | Waiting
    | Permitted
    | Popped(task: Record)
    | Limited(task: Record)
    | Saved(task: Record)
    | Granted(task: Record)
    | Dropping(again: bool)
    | Exiting

  /** `execute_task` between two critical sections: before and after the completed check,
      in the handler, saving, failing for good, deleting, and letting go. */
  datatype ExecState =
    | Starting(task: Record)
    | Cleared(task: Record)
    | Running(task: Record)
    | Saving(task: Record)
    | Scanning(task: Record)
    | Blocking(task: Record, kids: seq<Record>)
    | Marking(task: Record)
    | Deleting(task: Record)
    | Burying(task: Record, copy: Record)
    | Unhashing(task: Record)
    | Unguarding(id: Id)
    | Releasing

  /** Where a thread stands and what it holds. A dispatcher loop and an execution belong
      to a pool; a sweep carries the tasks not yet visited and the pools it pushed to. */
  datatype Local =
    | Enqueuing(task: Record, checked: bool)
    | Sweeping(todo: seq<Record>, now: Time, pools: set<Pool>)
    | Dispatching(pool: Pool, disp: DispState)
    | Executing(pool: Pool, exec: ExecState)

  /** What happened so far. The counters of an id restart when it is rescheduled. A dead
      letter is the webhook called, or the max-retry handler run, for a task that failed for
      good; `silent` are the tasks that had neither. */
  datatype History = History(
    accepted: map<Id, Record>,
    starts: map<Id, nat>,
    fails: map<Id, nat>,
    deadLetters: map<Id, nat>,
    succeeded: set<Id>,
    exhausted: set<Id>,
    blocked: set<Id>,
    silent: set<Id>)

  datatype Sys = Sys(
    sh: Shared,
    log: seq<Line>,
    live: map<Id, Record>,
    threads: map<Tid, Local>,
    clock: Time,
    hist: History)

  function Count(m: map<Id, nat>, id: Id): nat {
    if id in m then m[id] else 0
  }

  /** `save_task`: one line, and the cache. */
  function Save(s: Sys, r: Record): Sys {
    s.(log := s.log + [Json(r)], live := ApplyLine(s.live, Json(r)))
  }

  function At(s: Sys, t: Tid, l: Local): Sys {
    s.(threads := s.threads[t := l])
  }

  function Gone(s: Sys, t: Tid): Sys {
    s.(threads := s.threads - {t})
  }

  /** `todo` lists the live tasks, each once. */
  ghost predicate Snapshot(todo: seq<Record>, live: map<Id, Record>) {
    && (forall i :: 0 <= i < |todo| ==> todo[i].id in live && live[todo[i].id] == todo[i])
    && (forall i, j :: 0 <= i < j < |todo| ==> todo[i].id != todo[j].id)
    && (forall id :: id in live ==> live[id] in todo)
  }

  /** `kids` lists the live tasks that wait for `parent`. */
  ghost predicate Children(kids: seq<Record>, live: map<Id, Record>, parent: Id) {
    && (forall i :: 0 <= i < |kids| ==> kids[i].id in live && live[kids[i].id] == kids[i] && parent in kids[i].Deps())
    && (forall id :: id in live && parent in live[id].Deps() ==> live[id] in kids)
  }

  // ---------------------------------------------------------------- events

  /** The steps of a thread that enqueues or sweeps. */
  datatype SweepEvent =
    | Submit(task: Record)
    | Check
    | Accept
    | ReadStore(todo: seq<Record>, now: Time)
    | VisitNext
    | Spawn(pool: Pool, child: Tid)
    | SweepEnd

  datatype DispatchEvent =
    | Acquire
    | PopTask(task: Record)
    | FoundEmpty
    | Limit(allowed: bool)
    | Defer(now: Time)
    | UnqueueLimited
    | Begin(child: Tid)
    | DropPermit
    | Exit

  datatype ExecEvent =
    | CheckCompleted
    | Invoke(handler: bool)
    | ReturnOk(next: Option<Time>)
    | ReturnErr(error: string, now: Time)
    | Resave
    | ScanChildren(kids: seq<Record>)
    | BlockChild(now: Time)
    | DeadLetter(receiver: bool)
    | Mark
    | DeleteRead
    | DeleteWrite(now: Time)
    | Unhash
    | DropGuard
    | Release

  datatype WorldEvent =
    | Tick(clock: Time)
    | EvictExpired
    | CompactLog(stamps: seq<Time>, order: seq<Id>)
    | Crash

  datatype Event =
    | Sweeper(t: Tid, sweep: SweepEvent)
    | Dispatcher(t: Tid, dispatch: DispatchEvent)
    | Execution(t: Tid, exec: ExecEvent)
    | World(world: WorldEvent)

  // ---- enqueue and sweep

  ghost predicate SweepEnabled(s: Sys, t: Tid, e: SweepEvent) {
    match e
    case Submit(_) => t !in s.threads
    case Check => t in s.threads && s.threads[t].Enqueuing? && !s.threads[t].checked
    case Accept => t in s.threads && s.threads[t].Enqueuing? && s.threads[t].checked
    case ReadStore(todo, _) => t !in s.threads && Snapshot(todo, s.live)
    case VisitNext => t in s.threads && s.threads[t].Sweeping? && s.threads[t].todo != []
    case Spawn(pool, child) =>
      && t in s.threads && s.threads[t].Sweeping? && s.threads[t].todo == []
      && pool in s.threads[t].pools && child !in s.threads
    case SweepEnd => t in s.threads && s.threads[t].Sweeping? && s.threads[t].todo == [] && s.threads[t].pools == {}
  }

  ghost function DoSweep(s: Sys, t: Tid, e: SweepEvent): Sys
    requires SweepEnabled(s, t, e)
  {
    match e
    case Submit(task) =>
      if Duplicate(s.sh, task) then s else At(s, t, Enqueuing(task, false)).(sh := RegisterHash(s.sh, task))
    case Check =>
      var task := s.threads[t].task;
      if Reaches(s.live, task.Deps(), task.id) then Gone(s, t) else At(s, t, Enqueuing(task, true))
    case Accept =>
      var task := s.threads[t].task.(deletedAt := None);
      Gone(Save(s, task), t).(hist := s.hist.(accepted := s.hist.accepted[task.id := task]))
    case ReadStore(todo, now) => At(s, t, Sweeping(todo, now, {}))
    case VisitNext =>
      var l := s.threads[t];
      var r := l.todo[0];
      if Pushes(s.sh, s.live, r, l.now) then
        var p := PoolFor(s.sh, r).value;
        At(s, t, Sweeping(l.todo[1..], l.now, l.pools + {p})).(sh := Push(s.sh, p, r))
      else At(s, t, Sweeping(l.todo[1..], l.now, l.pools))
    case Spawn(pool, child) =>
      var l := s.threads[t];
      var s' := At(s, t, Sweeping([], l.now, l.pools - {pool}));
      if Loops(s.sh, pool) < MAX_DISPATCHERS then At(s', child, Dispatching(pool, Waiting)).(sh := AddLoop(s.sh, pool))
      else s'
    case SweepEnd => Gone(s, t)
  }

  // ---- dispatcher

  ghost predicate DispatchEnabled(s: Sys, t: Tid, e: DispatchEvent) {
    && t in s.threads && s.threads[t].Dispatching?
    && var pool := s.threads[t].pool;
       var d := s.threads[t].disp;
       match e
       case Acquire => d.Waiting? && pool in s.sh.permits && s.sh.permits[pool] > 0
       case PopTask(r) => d.Permitted? && Poppable(s.sh, pool, r)
       case FoundEmpty => d.Permitted? && (pool in s.sh.pqs ==> s.sh.pqs[pool] == multiset{})
       case Limit(allowed) =>
         d.Popped? && (d.task.rateLimitGroup.None? || d.task.maxPerMinute.None? ==> allowed)
       case Defer(_) => d.Limited?
       case UnqueueLimited => d.Saved?
       case Begin(child) => d.Granted? && child !in s.threads
       case DropPermit => d.Dropping?
       case Exit => d.Exiting? && Loops(s.sh, pool) > 0
  }

  ghost function DoDispatch(s: Sys, t: Tid, e: DispatchEvent): Sys
    requires DispatchEnabled(s, t, e)
  {
    var pool := s.threads[t].pool;
    var d := s.threads[t].disp;
    match e
    case Acquire => At(s, t, Dispatching(pool, Permitted)).(sh := TakePermit(s.sh, pool))
    case PopTask(r) => At(s, t, Dispatching(pool, Popped(r))).(sh := Pop(s.sh, pool, r))
    case FoundEmpty => At(s, t, Dispatching(pool, Dropping(false)))
    case Limit(allowed) => At(s, t, if allowed then Dispatching(pool, Granted(d.task)) else Dispatching(pool, Limited(d.task)))
    case Defer(now) =>
      var r := Deferred(d.task, now);
      At(Save(s, r), t, Dispatching(pool, Saved(r)))
    case UnqueueLimited => At(s, t, Dispatching(pool, Dropping(true))).(sh := Unqueue(s.sh, d.task.id))
    case Begin(child) =>
      var s' := s.(sh := Start(s.sh, d.task.id));
      if d.task.id in s.sh.executing then At(s', t, Dispatching(pool, Dropping(true)))
      else At(At(s', t, Dispatching(pool, Waiting)), child, Executing(pool, Starting(d.task)))
    case DropPermit =>
      At(s, t, if d.again then Dispatching(pool, Waiting) else Dispatching(pool, Exiting)).(sh := GivePermit(s.sh, pool))
    case Exit => Gone(s, t).(sh := DropLoop(s.sh, pool))
  }

  // ---- execution

  ghost predicate ExecEnabled(s: Sys, t: Tid, e: ExecEvent) {
    && t in s.threads && s.threads[t].Executing?
    && var x := s.threads[t].exec;
       match e
       case CheckCompleted => x.Starting?
       case Invoke(handler) => x.Cleared? && (x.task.webhookUrl.Some? ==> handler)
       case ReturnOk(next) => x.Running? && (next.Some? ==> x.task.cron.Some?)
       case ReturnErr(_, _) => x.Running?
       case Resave => x.Saving?
       case ScanChildren(kids) => x.Scanning? && Children(kids, s.live, x.task.id)
       case BlockChild(_) => x.Blocking? && x.kids != []
       case DeadLetter(receiver) => x.Blocking? && x.kids == [] && (x.task.webhookUrl.Some? ==> receiver)
       case Mark => x.Marking?
       case DeleteRead => x.Deleting?
       case DeleteWrite(_) => x.Burying?
       case Unhash => x.Unhashing?
       case DropGuard => x.Unguarding?
       case Release => x.Releasing?
  }

  /** Execution `t` moves on to `x`. */
  function To(s: Sys, t: Tid, x: ExecState): Sys
    requires t in s.threads && s.threads[t].Executing?
  {
    At(s, t, Executing(s.threads[t].pool, x))
  }

  ghost function DoExec(s: Sys, t: Tid, e: ExecEvent): Sys
    requires ExecEnabled(s, t, e)
  {
    var pool := s.threads[t].pool;
    var x := s.threads[t].exec;
    var h := s.hist;
    match e
    case CheckCompleted => To(s, t, if x.task.id in s.sh.completed then Releasing else Cleared(x.task))
    case Invoke(handler) =>
      if !handler then To(s, t, Unguarding(x.task.id))
      else
        To(s, t, Running(x.task))
        .(hist := h.(starts := h.starts[x.task.id := Count(h.starts, x.task.id) + 1]))
    case ReturnOk(next) =>
      if next.Some? then
        To(s, t, Saving(Rescheduled(x.task, next.value)))
        .(hist := h.(starts := h.starts[x.task.id := 0], fails := h.fails[x.task.id := 0]))
      else
        To(s, t, Marking(x.task)).(hist := h.(succeeded := h.succeeded + {x.task.id}))
    case ReturnErr(error, now) =>
      var h' := h.(fails := h.fails[x.task.id := Count(h.fails, x.task.id) + 1]);
      if MayRetry(x.task) then To(s, t, Saving(x.task.UpdateRetryConfig(Some(error), now))).(hist := h')
      else To(s, t, Scanning(x.task)).(hist := h'.(exhausted := h.exhausted + {x.task.id}))
    case Resave => To(Save(s, x.task), t, Unguarding(x.task.id))
    case ScanChildren(kids) => To(s, t, Blocking(x.task, kids))
    case BlockChild(now) =>
      To(Save(s, Blocked(x.kids[0], x.task.id, now)), t, Blocking(x.task, x.kids[1..]))
      .(hist := h.(blocked := h.blocked + {x.kids[0].id}))
    case DeadLetter(receiver) =>
      To(s, t, Marking(x.task))
      .(hist := if receiver then h.(deadLetters := h.deadLetters[x.task.id := Count(h.deadLetters, x.task.id) + 1])
                else h.(silent := h.silent + {x.task.id}))
    case Mark => To(s, t, Deleting(x.task)).(sh := MarkCompleted(s.sh, x.task.id, s.clock))
    case DeleteRead =>
      if x.task.id in s.live && s.live[x.task.id].deletedAt.None? then
        To(s, t, Burying(x.task, s.live[x.task.id]))
      else To(s, t, Unhashing(x.task))
    case DeleteWrite(now) => To(Save(s, x.copy.MarkDeleted(now)), t, Unhashing(x.task))
    case Unhash => To(s, t, Unguarding(x.task.id)).(sh := ReleaseHash(s.sh, x.task))
    case DropGuard => To(s, t, Releasing).(sh := Unguard(s.sh, x.id))
    case Release => Gone(s, t).(sh := GivePermit(s.sh, pool))
  }

  // ---- the world

  ghost predicate WorldEnabled(s: Sys, e: WorldEvent) {
    match e
    case Tick(c) => c >= s.clock
    case CompactLog(stamps, order) =>
      |Readable(s.log)| <= |stamps| && Enumerates(order, CompactFold(Readable(s.log), stamps))
    case _ => true
  }

  ghost function DoWorld(s: Sys, caps: map<Pool, nat>, e: WorldEvent): Sys
    requires WorldEnabled(s, e)
  {
    match e
    case Tick(c) => s.(clock := c)
    case EvictExpired => s.(sh := Evict(s.sh, s.clock))
    case CompactLog(stamps, order) =>
      s.(log := Compacted(s.log, stamps, order), live := Records(CompactFold(Readable(s.log), stamps)))
    case Crash => s.(live := Replay(s.log), threads := map[], sh := Opened(Replay(s.log), caps))
  }

  // ------------------------------------------------------------------ runs

  ghost predicate Enabled(s: Sys, e: Event) {
    match e
    case Sweeper(t, x) => SweepEnabled(s, t, x)
    case Dispatcher(t, x) => DispatchEnabled(s, t, x)
    case Execution(t, x) => ExecEnabled(s, t, x)
    case World(x) => WorldEnabled(s, x)
  }

  ghost function Do(s: Sys, caps: map<Pool, nat>, e: Event): Sys
    requires Enabled(s, e)
  {
    match e
    case Sweeper(t, x) => DoSweep(s, t, x)
    case Dispatcher(t, x) => DoDispatch(s, t, x)
    case Execution(t, x) => DoExec(s, t, x)
    case World(x) => DoWorld(s, caps, x)
  }

  /** A queue opened on an empty store. */
  ghost predicate Init(s: Sys, caps: map<Pool, nat>) {
    && s.log == [] && s.live == map[] && s.threads == map[]
    && s.sh == Opened(map[], caps)
    && s.hist == History(map[], map[], map[], map[], {}, {}, {}, {})
  }

  ghost predicate IsRun(states: seq<Sys>, caps: map<Pool, nat>, events: seq<Event>) {
    && |states| == |events| + 1
    && Init(states[0], caps)
    && forall i {:trigger Enabled(states[i], events[i])} ::
         0 <= i < |events| ==> Enabled(states[i], events[i]) && states[i + 1] == Do(states[i], caps, events[i])
  }

  // ---- what the steps of each thread leave alone

  lemma SweepFrame(s: Sys, t: Tid, e: SweepEvent)
    requires SweepEnabled(s, t, e)
    ensures var s' := DoSweep(s, t, e);
            && s'.sh.completed == s.sh.completed && s'.sh.executing == s.sh.executing && s'.clock == s.clock
            && forall u :: u in s.threads && u != t ==> u in s'.threads && s'.threads[u] == s.threads[u]
    ensures forall u :: u in DoSweep(s, t, e).threads && DoSweep(s, t, e).threads[u].Executing? ==> u in s.threads && s.threads[u] == DoSweep(s, t, e).threads[u]
  {}

  lemma DispatchFrame(s: Sys, t: Tid, e: DispatchEvent)
    requires DispatchEnabled(s, t, e)
    ensures var s' := DoDispatch(s, t, e);
            s'.sh.completed == s.sh.completed && s'.sh.hashes == s.sh.hashes && s'.clock == s.clock && s'.hist == s.hist
  {
    if e.Acquire? {} else if e.PopTask? {} else if e.FoundEmpty? {} else if e.Limit? {} else if e.Defer? {}
    else if e.UnqueueLimited? {} else if e.Begin? {} else if e.DropPermit? {} else {}
  }

  lemma DispatchThreads(s: Sys, t: Tid, e: DispatchEvent)
    requires DispatchEnabled(s, t, e)
    ensures forall u :: u in s.threads && u != t ==> u in DoDispatch(s, t, e).threads && DoDispatch(s, t, e).threads[u] == s.threads[u]
  {}

  lemma ExecFrame(s: Sys, t: Tid, e: ExecEvent)
    requires ExecEnabled(s, t, e)
    ensures var s' := DoExec(s, t, e);
            && s'.sh.queued == s.sh.queued && s'.sh.pqs == s.sh.pqs && s'.clock == s.clock
            && (forall id :: id in s.sh.completed ==> id in s'.sh.completed)
            && (forall id :: id in s'.sh.completed && !(e.Mark? && s.threads[t].exec.task.id == id) ==> id in s.sh.completed && s'.sh.completed[id] == s.sh.completed[id])
            && (forall u :: u != t ==> (u in s'.threads <==> u in s.threads) && (u in s.threads ==> s'.threads[u] == s.threads[u]))
  {
    ExecOthersFrame(s, t, e);
    ExecCompletedFrame(s, t, e);
  }

  lemma ExecOthersFrame(s: Sys, t: Tid, e: ExecEvent)
    requires ExecEnabled(s, t, e)
    ensures var s' := DoExec(s, t, e);
            && s'.sh.queued == s.sh.queued && s'.sh.pqs == s.sh.pqs && s'.clock == s.clock
            && (forall u :: u != t ==> (u in s'.threads <==> u in s.threads) && (u in s.threads ==> s'.threads[u] == s.threads[u]))
  {}

  lemma ExecCompletedFrame(s: Sys, t: Tid, e: ExecEvent)
    requires ExecEnabled(s, t, e)
    ensures DoExec(s, t, e).sh.completed == if e.Mark? then s.sh.completed[s.threads[t].exec.task.id := s.clock] else s.sh.completed
  {}

  lemma ExecLive(s: Sys, t: Tid, e: ExecEvent)
    requires ExecEnabled(s, t, e)
    ensures !e.Resave? && !e.BlockChild? && !e.DeleteWrite? ==> DoExec(s, t, e).live == s.live
    ensures e.BlockChild? ==> DoExec(s, t, e).live == s.live - {s.threads[t].exec.kids[0].id}
    ensures e.DeleteWrite? ==> DoExec(s, t, e).live == s.live - {s.threads[t].exec.copy.id}
  {}

  lemma ClockStep(s: Sys, caps: map<Pool, nat>, e: Event)
    requires Enabled(s, e)
    ensures s.clock <= Do(s, caps, e).clock
  {
    match e
    case Sweeper(t, x) => SweepFrame(s, t, x);
    case Dispatcher(t, x) => DispatchFrame(s, t, x);
    case Execution(t, x) => ExecFrame(s, t, x);
    case World(x) =>
  }

  lemma RunStep(states: seq<Sys>, caps: map<Pool, nat>, events: seq<Event>, i: nat)
    requires IsRun(states, caps, events) && i < |events|
    ensures Enabled(states[i], events[i]) && states[i + 1] == Do(states[i], caps, events[i])
  {
    assert Enabled(states[i], events[i]);
  }

  /** What holds at first and is kept by every step holds always. */
  lemma {:induction false} Induct(states: seq<Sys>, inv: Sys -> bool)
    requires states != [] && inv(states[0])
    requires forall i :: 0 <= i < |states| - 1 && inv(states[i]) ==> inv(states[i + 1])
    ensures forall i :: 0 <= i < |states| ==> inv(states[i])
  {
    var n := |states| - 1;
    if n > 0 {
      forall i | 0 <= i < n - 1 && inv(states[..n][i]) ensures inv(states[..n][i + 1]) {
        assert inv(states[i]);
      }
      Induct(states[..n], inv);
      forall i | 0 <= i < |states| ensures inv(states[i]) {
        assert inv(states[..n][n - 1]);
        if i < n { assert inv(states[..n][i]); } else { assert inv(states[n - 1]); }
      }
    }
  }
}
