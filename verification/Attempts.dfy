/** The attempt bound and the dead-letter action. */
module Attempts {
  import opened Wrappers
  import opened Tasks
  import opened LogReplay
  import opened Scheduler
  import opened Machine
  import opened Exclusive
  import opened Journal
  import opened Durable

  /** How often a task may start, between successes if it is a cron task. */
  function Allowed(r: Record): nat {
    if r.maxRetries >= 1 then r.maxRetries else 1
  }

  function Starts(h: History, id: Id): nat { Count(h.starts, id) }
  function Fails(h: History, id: Id): nat { Count(h.fails, id) }
  function Letters(h: History, id: Id): nat { Count(h.deadLetters, id) }

  /** `r` is at rest: every start so far failed, its count says so, and one more is allowed. */
  ghost predicate Level(h: History, r: Record) {
    && r.id in h.accepted && r.maxRetries == h.accepted[r.id].maxRetries
    && r.retryCount == Fails(h, r.id) == Starts(h, r.id)
    && Fails(h, r.id) < Allowed(r)
  }

  /** `r` is being run: one start is not decided yet. */
  ghost predicate InFlight(h: History, r: Record) {
    && r.id in h.accepted && r.maxRetries == h.accepted[r.id].maxRetries
    && r.retryCount == Fails(h, r.id) && Starts(h, r.id) == Fails(h, r.id) + 1
    && Fails(h, r.id) < Allowed(r)
  }

  ghost predicate LocalLevel(h: History, l: Local) {
    && (l.Enqueuing? ==> l.task.retryCount == 0)
    && (Held(l).Some? ==> Level(h, Held(l).value))
    && (l.Executing? ==>
          && (l.exec.Starting? || l.exec.Cleared? || l.exec.Saving? ==> Level(h, l.exec.task))
          && (l.exec.Running? ==> InFlight(h, l.exec.task))
          && (l.exec.Scanning? || l.exec.Blocking? ==> l.exec.task.id in h.exhausted && Letters(h, l.exec.task.id) == 0 && l.exec.task.id !in h.silent))
  }

  /** Some execution has started `id` and has not put its record back. */
  ghost predicate BusyAt(s: Sys, t: Tid, id: Id) {
    && t in s.threads && s.threads[t].Executing?
    && !s.threads[t].exec.Starting? && !s.threads[t].exec.Cleared? && !s.threads[t].exec.Unhashing?
    && !s.threads[t].exec.Unguarding? && !s.threads[t].exec.Releasing?
    && s.threads[t].exec.task.id == id
  }

  ghost predicate ThreadsLevel(s: Sys) {
    forall t :: t in s.threads ==> LocalLevel(s.hist, s.threads[t])
  }

  ghost predicate HeapsLevel(s: Sys) {
    forall p, r :: p in s.sh.pqs && r in s.sh.pqs[p] ==> Level(s.hist, r)
  }

  ghost predicate StoreLevel(s: Sys) {
    forall id :: id in s.live ==> Level(s.hist, s.live[id]) || exists t :: BusyAt(s, t, id)
  }

  /** The bound, for every task ever accepted; nothing is counted for any other id. */
  ghost predicate Bounded(h: History) {
    && (forall id :: id in h.accepted ==> Fails(h, id) <= Starts(h, id) <= Allowed(h.accepted[id]))
    && (forall id :: id in h.accepted && Fails(h, id) == Allowed(h.accepted[id]) ==> id in h.exhausted)
    && (forall id :: id !in h.accepted ==> Starts(h, id) == Fails(h, id) == Letters(h, id) == 0 && id !in h.exhausted)
  }

  ghost predicate Dying(s: Sys, t: Tid, id: Id) {
    && t in s.threads && s.threads[t].Executing? && (s.threads[t].exec.Scanning? || s.threads[t].exec.Blocking?)
    && s.threads[t].exec.task.id == id
  }

  /** The dead letter of a task whose attempts are used up is sent once, when its execution
      gets there and if there is anyone to receive it, and never for any other. */
  ghost predicate LetterRight(s: Sys, id: Id) {
    && Letters(s.hist, id) <= 1
    && (Letters(s.hist, id) == 1 ==> id in s.hist.exhausted)
    && (id in s.hist.silent ==> id in s.hist.exhausted && Letters(s.hist, id) == 0)
    && (id in s.hist.exhausted ==>
          && id in s.hist.accepted
          && Fails(s.hist, id) == Starts(s.hist, id) == Allowed(s.hist.accepted[id])
          && (Letters(s.hist, id) == 1 || id in s.hist.silent || exists t :: Dying(s, t, id)))
  }

  ghost predicate LettersRight(s: Sys) {
    forall id :: LetterRight(s, id)
  }

  ghost predicate Accurate(s: Sys) {
    && Exclusion(s) && Journaled(s)
    && ThreadsLevel(s) && HeapsLevel(s) && StoreLevel(s) && Bounded(s.hist) && LettersRight(s)
  }

  // -------------------------------------------------------------- hypotheses

  ghost predicate NewTask(e: Event) {
    e.Sweeper? && e.sweep.Submit? ==> e.sweep.task.retryCount == 0
  }

  /** A task that is queued is live, and no attempt failed since the sweep read it. */
  ghost predicate CountVisit(s: Sys, e: Event) {
    Queues(s, e) ==>
      var r := s.threads[e.t].todo[0];
      r.id in s.live && s.live[r.id].retryCount == r.retryCount
  }

  /** A compaction keeps the retry count of every live task that no execution is busy with,
      whatever else it rolls back. */
  ghost predicate CountCompaction(s: Sys, e: Event) {
    e.World? && e.world.CompactLog? && Enabled(s, e) ==>
      var kept := CompactFold(Readable(s.log), e.world.stamps);
      forall id :: id in s.live && id in kept && !Busy(s, id) ==>
        kept[id].rec.retryCount == s.live[id].retryCount
  }

  /** Queued tasks and compacted ones carry the stored count, ids are not reused, tasks are
      submitted as `new` makes them, and the process does not die. */
  ghost predicate Ordinary(s: Sys, e: Event) {
    CountVisit(s, e) && CountCompaction(s, e) && NoReuse(s, e) && NewTask(e) && e != World(Crash)
  }

  // ---------------------------------------------------------- sweep events

  lemma BusyExecutes(s: Sys, t: Tid, id: Id)
    requires Exclusion(s) && BusyAt(s, t, id)
    ensures id in s.sh.executing
  {
    assert Guards(s, t, id);
  }

  lemma AcceptAccurate(s: Sys, t: Tid)
    requires Accurate(s) && SweepEnabled(s, t, Accept) && NoReuse(s, Sweeper(t, Accept))
    ensures var s' := DoSweep(s, t, Accept);
            ThreadsLevel(s') && HeapsLevel(s') && Bounded(s'.hist)
  {
    var s' := DoSweep(s, t, Accept);
    AcceptLevel(s.hist, s.threads[t].task.(deletedAt := None));
    assert s'.sh.pqs == s.sh.pqs;
  }

  /** What was level before an id was accepted for the first time is level after. */
  lemma AcceptLevel(h: History, task: Record)
    requires Bounded(h) && task.id !in h.accepted
    ensures var h' := h.(accepted := h.accepted[task.id := task]);
            Bounded(h') && forall r :: Level(h, r) ==> Level(h', r)
    ensures forall l :: LocalLevel(h, l) ==> LocalLevel(h.(accepted := h.accepted[task.id := task]), l)
  {
    AcceptLevelRecords(h, task);
  }

  lemma AcceptLevelRecords(h: History, task: Record)
    requires task.id !in h.accepted
    ensures var h' := h.(accepted := h.accepted[task.id := task]);
            (forall r :: Level(h, r) ==> Level(h', r)) && (forall r :: InFlight(h, r) ==> InFlight(h', r))
  {
    var h' := h.(accepted := h.accepted[task.id := task]);
    forall r: Record | Level(h, r) ensures Level(h', r) { assert r.id != task.id; }
    forall r: Record | InFlight(h, r) ensures InFlight(h', r) { assert r.id != task.id; }
  }

  lemma AcceptStore(s: Sys, t: Tid)
    requires Accurate(s) && SweepEnabled(s, t, Accept) && NoReuse(s, Sweeper(t, Accept))
    ensures StoreLevel(DoSweep(s, t, Accept))
  {
    var s' := DoSweep(s, t, Accept);
    var task := s.threads[t].task.(deletedAt := None);
    assert LocalLevel(s.hist, s.threads[t]);
    assert Level(s'.hist, task);
    forall id | id in s'.live ensures Level(s'.hist, s'.live[id]) || exists u :: BusyAt(s', u, id) {
      if id != task.id {
        if u :| BusyAt(s, u, id) { assert BusyAt(s', u, id); }
      }
    }
  }

  lemma AcceptLetters(s: Sys, t: Tid)
    requires Accurate(s) && SweepEnabled(s, t, Accept) && NoReuse(s, Sweeper(t, Accept))
    ensures LettersRight(DoSweep(s, t, Accept))
  {
    var s' := DoSweep(s, t, Accept);
    forall id ensures LetterRight(s', id) {
      assert LetterRight(s, id);
      if u :| Dying(s, u, id) { assert Dying(s', u, id); }
    }
  }

  /** The visit of a live id keeps the queued tasks level exactly if no attempt of what it
      queues has failed since the sweep read it. */
  lemma VisitLevel(s: Sys, t: Tid)
    requires Accurate(s) && Accounted(s) && SweepEnabled(s, t, VisitNext) && LiveVisit(s, Sweeper(t, VisitNext))
    ensures HeapsLevel(DoSweep(s, t, VisitNext)) <==> CountVisit(s, Sweeper(t, VisitNext))
  {
    var s' := DoSweep(s, t, VisitNext);
    var r := s.threads[t].todo[0];
    forall p, x | p in s'.sh.pqs && x in s'.sh.pqs[p]
      ensures (p in s.sh.pqs && x in s.sh.pqs[p]) || (x == r && Queues(s, Sweeper(t, VisitNext)))
    {}
    if Queues(s, Sweeper(t, VisitNext)) {
      if u :| BusyAt(s, u, r.id) { BusyExecutes(s, u, r.id); }
      assert Level(s.hist, s.live[r.id]);
      assert ReadBy(s.threads[t])[0] == r;
      assert LocalKnown(s.hist.accepted, s.threads[t]);
      assert r in s'.sh.pqs[PoolFor(s.sh, r).value];
      assert Level(s.hist, r) <==> s.live[r.id].retryCount == r.retryCount;
    }
  }

  lemma SweepQuiet(s: Sys, t: Tid, e: SweepEvent)
    requires SweepEnabled(s, t, e) && !e.Accept?
    ensures DoSweep(s, t, e).hist == s.hist && DoSweep(s, t, e).live == s.live
    ensures !e.VisitNext? ==> DoSweep(s, t, e).sh.pqs == s.sh.pqs
  {}

  lemma SweepThreadsLevel(s: Sys, t: Tid, e: SweepEvent)
    requires ThreadsLevel(s) && SweepEnabled(s, t, e) && NewTask(Sweeper(t, e)) && !e.Accept?
    ensures ThreadsLevel(DoSweep(s, t, e))
  {
    SweepQuiet(s, t, e);
    var s' := DoSweep(s, t, e);
    forall u | u in s'.threads ensures LocalLevel(s'.hist, s'.threads[u]) {
      if u in s.threads { assert LocalLevel(s.hist, s.threads[u]); }
    }
  }

  /** Executions are as they were: what is said about the store and the letters stands. */
  lemma SameExecutions(s: Sys, s': Sys)
    requires StoreLevel(s) && LettersRight(s)
    requires s'.hist == s.hist && s'.live == s.live
    requires forall u :: u in s.threads && s.threads[u].Executing? ==> u in s'.threads && s'.threads[u] == s.threads[u]
    ensures StoreLevel(s') && LettersRight(s')
  {
    forall id | id in s'.live ensures Level(s'.hist, s'.live[id]) || exists t :: BusyAt(s', t, id) {
      if u :| BusyAt(s, u, id) { assert BusyAt(s', u, id); }
    }
    SameLetters(s, s');
  }

  lemma SameLetters(s: Sys, s': Sys)
    requires LettersRight(s) && s'.hist == s.hist
    requires forall u :: u in s.threads && s.threads[u].Executing? ==> u in s'.threads && s'.threads[u] == s.threads[u]
    ensures LettersRight(s')
  {
    forall id ensures LetterRight(s', id) {
      assert LetterRight(s, id);
      if u :| Dying(s, u, id) { assert Dying(s', u, id); }
    }
  }

  lemma SweepExecutions(s: Sys, t: Tid, e: SweepEvent)
    requires SweepEnabled(s, t, e)
    ensures forall u :: u in s.threads && s.threads[u].Executing? ==> u in DoSweep(s, t, e).threads && DoSweep(s, t, e).threads[u] == s.threads[u]
  {
    SweepFrame(s, t, e);
  }

  lemma SweepAccurate(s: Sys, t: Tid, e: SweepEvent)
    requires Accurate(s) && Accounted(s) && Enabled(s, Sweeper(t, e)) && Ordinary(s, Sweeper(t, e))
    ensures var s' := DoSweep(s, t, e);
            ThreadsLevel(s') && HeapsLevel(s') && StoreLevel(s') && Bounded(s'.hist) && LettersRight(s')
  {
    if e.Accept? {
      AcceptAccurate(s, t);
      AcceptStore(s, t);
      AcceptLetters(s, t);
    } else {
      SweepQuiet(s, t, e);
      SweepThreadsLevel(s, t, e);
      if e.VisitNext? { VisitLevel(s, t); }
      SweepFrame(s, t, e);
      SweepExecutions(s, t, e);
      SameExecutions(s, DoSweep(s, t, e));
    }
  }

  // ----------------------------------------------------- dispatcher events

  lemma DispatchHeapsLevel(s: Sys, t: Tid, e: DispatchEvent)
    requires HeapsLevel(s) && DispatchEnabled(s, t, e)
    ensures HeapsLevel(DoDispatch(s, t, e))
  {
    DispatchFrame(s, t, e);
    var s' := DoDispatch(s, t, e);
    forall p, x | p in s'.sh.pqs && x in s'.sh.pqs[p] ensures p in s.sh.pqs && x in s.sh.pqs[p] {}
  }

  lemma DispatchThreadsLevel(s: Sys, t: Tid, e: DispatchEvent)
    requires ThreadsLevel(s) && HeapsLevel(s) && DispatchEnabled(s, t, e)
    ensures ThreadsLevel(DoDispatch(s, t, e))
  {
    DispatchFrame(s, t, e);
    var s' := DoDispatch(s, t, e);
    assert LocalLevel(s.hist, s.threads[t]);
    if t in s'.threads { assert LocalLevel(s.hist, s'.threads[t]); }
    if e.Begin? && e.child in s'.threads { assert LocalLevel(s.hist, s'.threads[e.child]); }
    forall u | u in s'.threads && u != t && !(e.Begin? && u == e.child) ensures LocalLevel(s'.hist, s'.threads[u]) {
      assert LocalLevel(s.hist, s.threads[u]);
    }
  }

  lemma DispatchStays(s: Sys, t: Tid, e: DispatchEvent)
    requires Accurate(s) && DispatchEnabled(s, t, e)
    ensures StoreLevel(DoDispatch(s, t, e)) && LettersRight(DoDispatch(s, t, e))
  {
    DispatchFrame(s, t, e);
    DispatchThreads(s, t, e);
    var s' := DoDispatch(s, t, e);
    if e.Defer? {
      assert LocalLevel(s.hist, s.threads[t]);
      var r := Deferred(s.threads[t].disp.task, e.now);
      var mid := s'.(live := s.live);
      SameExecutions(s, mid);
      assert Level(s.hist, r);
      forall id | id in s'.live ensures Level(s'.hist, s'.live[id]) || exists u :: BusyAt(s', u, id) {
        if id != r.id {
          if u :| BusyAt(mid, u, id) { assert BusyAt(s', u, id); }
        }
      }
      SameLetters(s, s');
    } else {
      SameExecutions(s, s');
    }
  }

  // ------------------------------------------------------ execution events

  /** The id an execution guards is in no heap, with no dispatcher, in no other execution. */
  lemma OnlyMine(s: Sys, t: Tid)
    requires Exclusion(s) && t in s.threads && Guarded(s.threads[t]).Some?
    ensures var id := Guarded(s.threads[t]).value;
            && (forall p, r :: p in s.sh.pqs && r in s.sh.pqs[p] ==> r.id != id)
            && (forall u :: u in s.threads && Held(s.threads[u]).Some? ==> Held(s.threads[u]).value.id != id)
            && (forall u :: u in s.threads && u != t ==> Guarded(s.threads[u]) != Some(id))
  {
    var id := Guarded(s.threads[t]).value;
    assert Guards(s, t, id);
    forall p, r | p in s.sh.pqs && r in s.sh.pqs[p] ensures r.id != id { assert Copy(s, InHeap(p), r); }
    forall u | u in s.threads && Held(s.threads[u]).Some? ensures Held(s.threads[u]).value.id != id {
      assert Copy(s, InThread(u), Held(s.threads[u]).value);
    }
    OthersDiffer(s, t);
  }

  /** Only the counters of `id` differ. */
  ghost predicate Apart(h: History, h': History, id: Id) {
    && h'.accepted == h.accepted
    && forall k :: k != id ==> Starts(h', k) == Starts(h, k) && Fails(h', k) == Fails(h, k) && Letters(h', k) == Letters(h, k)
                               && (k in h'.exhausted <==> k in h.exhausted) && (k in h'.silent <==> k in h.silent)
  }

  lemma ExecApart(s: Sys, t: Tid, e: ExecEvent)
    requires ExecEnabled(s, t, e)
    ensures var x := s.threads[t].exec;
            if e.Invoke? || e.ReturnOk? || e.ReturnErr? || e.DeadLetter? then Apart(s.hist, DoExec(s, t, e).hist, x.task.id)
            else DoExec(s, t, e).hist == s.hist.(blocked := DoExec(s, t, e).hist.blocked)
  {
    if e.Invoke? {} else if e.ReturnOk? {} else if e.ReturnErr? {} else if e.BlockChild? {} else if e.DeadLetter? {} else {
      assert DoExec(s, t, e).hist == s.hist;
    }
  }

  lemma ExecOthersLevel(s: Sys, t: Tid, e: ExecEvent)
    requires Accurate(s) && ExecEnabled(s, t, e)
    ensures var s' := DoExec(s, t, e);
            && HeapsLevel(s')
            && forall u :: u in s'.threads && u != t ==> LocalLevel(s'.hist, s'.threads[u])
  {
    ExecFrame(s, t, e);
    ExecApart(s, t, e);
    if e.Invoke? || e.ReturnOk? || e.ReturnErr? || e.DeadLetter? {
      OnlyMine(s, t);
      OthersKeep(s, DoExec(s, t, e), t, s.threads[t].exec.task.id);
    } else {
      SameCounts(s, DoExec(s, t, e), t);
    }
  }

  lemma SameCounts(s: Sys, s': Sys, t: Tid)
    requires ThreadsLevel(s) && HeapsLevel(s) && s'.hist == s.hist.(blocked := s'.hist.blocked) && s'.sh.pqs == s.sh.pqs
    requires forall u :: u != t ==> (u in s'.threads <==> u in s.threads) && (u in s.threads ==> s'.threads[u] == s.threads[u])
    ensures HeapsLevel(s')
    ensures forall u :: u in s'.threads && u != t ==> LocalLevel(s'.hist, s'.threads[u])
  {
    forall r: Record ensures Level(s'.hist, r) == Level(s.hist, r) {}
    forall u | u in s'.threads && u != t ensures LocalLevel(s'.hist, s'.threads[u]) {
      assert LocalLevel(s.hist, s.threads[u]);
    }
  }

  lemma OthersKeep(s: Sys, s': Sys, t: Tid, id: Id)
    requires ThreadsLevel(s) && HeapsLevel(s) && Apart(s.hist, s'.hist, id) && s'.sh.pqs == s.sh.pqs
    requires forall u :: u != t ==> (u in s'.threads <==> u in s.threads) && (u in s.threads ==> s'.threads[u] == s.threads[u])
    requires forall p, r :: p in s.sh.pqs && r in s.sh.pqs[p] ==> r.id != id
    requires forall u :: u in s.threads && Held(s.threads[u]).Some? ==> Held(s.threads[u]).value.id != id
    requires forall u :: u in s.threads && u != t ==> Guarded(s.threads[u]) != Some(id)
    ensures HeapsLevel(s')
    ensures forall u :: u in s'.threads && u != t ==> LocalLevel(s'.hist, s'.threads[u])
  {
    forall r: Record | r.id != id ensures Level(s'.hist, r) == Level(s.hist, r) && InFlight(s'.hist, r) == InFlight(s.hist, r) {}
    forall u | u in s'.threads && u != t ensures LocalLevel(s'.hist, s'.threads[u]) {
      assert LocalLevel(s.hist, s.threads[u]);
    }
  }

  lemma ExecMineLevel(s: Sys, t: Tid, e: ExecEvent)
    requires Accurate(s) && ExecEnabled(s, t, e) && t in DoExec(s, t, e).threads
    ensures LocalLevel(DoExec(s, t, e).hist, DoExec(s, t, e).threads[t])
  {
    assert LocalLevel(s.hist, s.threads[t]);
    if e.Invoke? || e.ReturnOk? || e.ReturnErr? {
      AttemptLevel(s, t, e);
    } else if e.CheckCompleted? || e.ScanChildren? || e.BlockChild? {
      CarryLevel(s, t, e);
    } else {
      ExecRests(s, t, e);
    }
  }

  /** A start, a success and a failure, counted. */
  lemma AttemptLevel(s: Sys, t: Tid, e: ExecEvent)
    requires Accurate(s) && ExecEnabled(s, t, e) && (e.Invoke? || e.ReturnOk? || e.ReturnErr?)
    ensures LocalLevel(DoExec(s, t, e).hist, DoExec(s, t, e).threads[t])
  {
    var x := s.threads[t].exec;
    assert LocalLevel(s.hist, s.threads[t]) && LetterRight(s, x.task.id);
    if e.Invoke? {
    } else if e.ReturnOk? {
    } else if !MayRetry(x.task) {
      assert x.task.id !in s.hist.exhausted;
    }
  }

  lemma CarryLevel(s: Sys, t: Tid, e: ExecEvent)
    requires ExecEnabled(s, t, e) && (e.CheckCompleted? || e.ScanChildren? || e.BlockChild?)
    requires LocalLevel(s.hist, s.threads[t])
    ensures LocalLevel(DoExec(s, t, e).hist, DoExec(s, t, e).threads[t])
  {
    if e.CheckCompleted? {} else if e.ScanChildren? {} else {}
  }

  /** After these steps the execution carries no count any more. */
  lemma ExecRests(s: Sys, t: Tid, e: ExecEvent)
    requires ExecEnabled(s, t, e) && t in DoExec(s, t, e).threads
    requires e.Resave? || e.DeadLetter? || e.Mark? || e.DeleteRead? || e.DeleteWrite? || e.Unhash? || e.DropGuard?
    ensures var x := DoExec(s, t, e).threads[t];
            x.Executing? && (x.exec.Marking? || x.exec.Deleting? || x.exec.Burying? || x.exec.Unhashing? || x.exec.Unguarding? || x.exec.Releasing?)
  {}

  lemma ExecBounded(s: Sys, t: Tid, e: ExecEvent)
    requires Accurate(s) && ExecEnabled(s, t, e)
    ensures Bounded(DoExec(s, t, e).hist)
  {
    ExecApart(s, t, e);
    assert LocalLevel(s.hist, s.threads[t]);
    if e.Invoke? || e.ReturnOk? || e.ReturnErr? || e.DeadLetter? {
      AttemptBounded(s, t, e);
    }
  }

  lemma AttemptBounded(s: Sys, t: Tid, e: ExecEvent)
    requires Accurate(s) && ExecEnabled(s, t, e) && (e.Invoke? || e.ReturnOk? || e.ReturnErr? || e.DeadLetter?)
    ensures Bounded(DoExec(s, t, e).hist)
  {
    var h, h' := s.hist, DoExec(s, t, e).hist;
    var id := s.threads[t].exec.task.id;
    assert LocalLevel(h, s.threads[t]);
    ExecApart(s, t, e);
    assert id in h.accepted && h'.accepted == h.accepted;
    assert Fails(h', id) <= Starts(h', id) <= Allowed(h.accepted[id]) && (Fails(h', id) == Allowed(h.accepted[id]) ==> id in h'.exhausted) by {
      if e.Invoke? {} else if e.ReturnOk? {} else if e.ReturnErr? {} else { assert LetterRight(s, id); }
    }
  }

  lemma OwnRecord(s: Sys, t: Tid)
    requires Accurate(s) && t in s.threads && Guarded(s.threads[t]).Some?
    ensures var id := Guarded(s.threads[t]).value;
            id in s.live ==> Level(s.hist, s.live[id]) || BusyAt(s, t, id)
  {
    var id := Guarded(s.threads[t]).value;
    if id in s.live && !Level(s.hist, s.live[id]) {
      var u :| BusyAt(s, u, id);
      assert Guards(s, u, id) && Guards(s, t, id);
    }
  }

  /** The record of the executing id: busy until it is put back or buried. */
  lemma ExecOwnRecord(s: Sys, t: Tid, e: ExecEvent)
    requires Accurate(s) && ExecEnabled(s, t, e) && Guarded(s.threads[t]).Some?
    requires e.DeleteWrite? ==> s.threads[t].exec.copy.id == s.threads[t].exec.task.id
    ensures var s' := DoExec(s, t, e);
            var id := Guarded(s.threads[t]).value;
            id in s'.live ==> Level(s'.hist, s'.live[id]) || BusyAt(s', t, id)
  {
    var s' := DoExec(s, t, e);
    var id := Guarded(s.threads[t]).value;
    OwnRecord(s, t);
    ExecLive(s, t, e);
    if e.Resave? {
      assert LocalLevel(s.hist, s.threads[t]);
      assert s'.hist == s.hist;
    } else if e.DeleteWrite? {
    } else if e.CheckCompleted? || (e.Invoke? && !e.handler) || e.Unhash? || e.DropGuard? || e.DeleteRead? {
      QuietRecord(s, t, e);
    } else {
      StaysBusy(s, t, e);
    }
  }

  lemma QuietRecord(s: Sys, t: Tid, e: ExecEvent)
    requires ExecEnabled(s, t, e) && Guarded(s.threads[t]).Some? && KeyedAndLive(s.live)
    requires e.CheckCompleted? || (e.Invoke? && !e.handler) || e.Unhash? || e.DropGuard? || e.DeleteRead?
    ensures DoExec(s, t, e).hist == s.hist && DoExec(s, t, e).live == s.live
    ensures var id := Guarded(s.threads[t]).value;
            BusyAt(s, t, id) ==> BusyAt(DoExec(s, t, e), t, id) || id !in s.live
  {}

  lemma StaysBusy(s: Sys, t: Tid, e: ExecEvent)
    requires ExecEnabled(s, t, e) && Guarded(s.threads[t]).Some?
    requires (e.Invoke? && e.handler) || e.ReturnOk? || e.ReturnErr? || e.ScanChildren? || e.BlockChild? || e.DeadLetter? || e.Mark?
    ensures BusyAt(DoExec(s, t, e), t, Guarded(s.threads[t]).value)
  {}

  lemma ExecOtherRecords(s: Sys, t: Tid, e: ExecEvent)
    requires ExecEnabled(s, t, e)
    requires e.DeleteWrite? ==> s.threads[t].exec.copy.id == s.threads[t].exec.task.id
    ensures var s' := DoExec(s, t, e);
            forall id :: id in s'.live && Guarded(s.threads[t]) != Some(id) ==> id in s.live && s'.live[id] == s.live[id]
  {}

  lemma ExecStoreLevel(s: Sys, t: Tid, e: ExecEvent)
    requires Accurate(s) && ExecEnabled(s, t, e)
    requires e.DeleteWrite? ==> s.threads[t].exec.copy.id == s.threads[t].exec.task.id
    ensures StoreLevel(DoExec(s, t, e))
  {
    var s' := DoExec(s, t, e);
    ExecFrame(s, t, e);
    ExecApart(s, t, e);
    ExecOtherRecords(s, t, e);
    forall id | id in s'.live ensures Level(s'.hist, s'.live[id]) || exists u :: BusyAt(s', u, id) {
      if Guarded(s.threads[t]) == Some(id) {
        ExecOwnRecord(s, t, e);
      } else if u :| BusyAt(s, u, id) {
        assert u != t;
        assert BusyAt(s', u, id);
      } else {
        assert Level(s.hist, s.live[id]);
      }
    }
  }

  lemma ExecLetters(s: Sys, t: Tid, e: ExecEvent)
    requires Accurate(s) && ExecEnabled(s, t, e)
    ensures LettersRight(DoExec(s, t, e))
  {
    var s' := DoExec(s, t, e);
    ExecFrame(s, t, e);
    ExecApart(s, t, e);
    assert LocalLevel(s.hist, s.threads[t]);
    forall id ensures LetterRight(s', id) {
      assert LetterRight(s, id);
      if !s.threads[t].exec.Unguarding? && !s.threads[t].exec.Releasing? && id == s.threads[t].exec.task.id {
        MyLetter(s, t, e);
      } else {
        OtherLetter(s, s', t, id);
      }
    }
  }

  lemma OtherLetter(s: Sys, s': Sys, t: Tid, id: Id)
    requires LetterRight(s, id) && !Dying(s, t, id) && s'.hist.accepted == s.hist.accepted
    requires Starts(s'.hist, id) == Starts(s.hist, id) && Fails(s'.hist, id) == Fails(s.hist, id)
    requires Letters(s'.hist, id) == Letters(s.hist, id) && (id in s'.hist.exhausted <==> id in s.hist.exhausted)
    requires id in s'.hist.silent <==> id in s.hist.silent
    requires forall u :: u in s.threads && u != t ==> u in s'.threads && s'.threads[u] == s.threads[u]
    ensures LetterRight(s', id)
  {
    if u :| Dying(s, u, id) { assert Dying(s', u, id); }
  }

  /** Running out of attempts makes the task exhausted with its letter still to come; the
      letter comes when the last child is blocked. */
  lemma MyLetter(s: Sys, t: Tid, e: ExecEvent)
    requires Accurate(s) && ExecEnabled(s, t, e) && !s.threads[t].exec.Unguarding? && !s.threads[t].exec.Releasing?
    ensures LetterRight(DoExec(s, t, e), s.threads[t].exec.task.id)
  {
    var s' := DoExec(s, t, e);
    var id := s.threads[t].exec.task.id;
    assert LocalLevel(s.hist, s.threads[t]) && LetterRight(s, id);
    if e.Invoke? || e.ReturnOk? || e.DeadLetter? {
      MyLetterCounts(s, t, e);
    } else if e.ReturnErr? {
      MyLetterCounts(s, t, e);
    } else if e.ScanChildren? || e.BlockChild? {
      assert Dying(s', t, id);
    } else {
      ExecApart(s, t, e);
      ExecFrame(s, t, e);
      if !Dying(s, t, id) { OtherLetter(s, s', t, id); }
    }
  }

  lemma MyLetterCounts(s: Sys, t: Tid, e: ExecEvent)
    requires Accurate(s) && ExecEnabled(s, t, e) && (e.Invoke? || e.ReturnOk? || e.ReturnErr? || e.DeadLetter?)
    ensures LetterRight(DoExec(s, t, e), s.threads[t].exec.task.id)
  {
    var s' := DoExec(s, t, e);
    var id := s.threads[t].exec.task.id;
    assert LocalLevel(s.hist, s.threads[t]) && LetterRight(s, id);
    if e.ReturnErr? {
      assert !MayRetry(s.threads[t].exec.task) ==> Dying(s', t, id);
    } else if e.Invoke? {
      assert id !in s.hist.exhausted;
    } else if e.ReturnOk? {
      assert id !in s.hist.exhausted;
    } else {
    }
  }

  // ------------------------------------------------------------------- runs

  lemma ExecAccurate(s: Sys, t: Tid, e: ExecEvent)
    requires Accurate(s) && Accounted(s) && ExecEnabled(s, t, e)
    ensures var s' := DoExec(s, t, e);
            ThreadsLevel(s') && HeapsLevel(s') && StoreLevel(s') && Bounded(s'.hist) && LettersRight(s')
  {
    assert Justified(s.hist, s.threads[t].exec);
    ExecOthersLevel(s, t, e);
    if t in DoExec(s, t, e).threads { ExecMineLevel(s, t, e); }
    ExecStoreLevel(s, t, e);
    ExecBounded(s, t, e);
    ExecLetters(s, t, e);
  }

  lemma DispatchAccurate(s: Sys, t: Tid, e: DispatchEvent)
    requires Accurate(s) && DispatchEnabled(s, t, e)
    ensures var s' := DoDispatch(s, t, e);
            ThreadsLevel(s') && HeapsLevel(s') && StoreLevel(s') && Bounded(s'.hist) && LettersRight(s')
  {
    DispatchFrame(s, t, e);
    DispatchHeapsLevel(s, t, e);
    DispatchThreadsLevel(s, t, e);
    DispatchStays(s, t, e);
  }

  /** What compaction makes of the record of a task that no execution is busy with is level
      with the counts exactly if its retry count is the stored one. */
  lemma KeptLevel(s: Sys, id: Id, r: Record)
    requires StoreLevel(s) && StoreKnown(s) && KeyedAndLive(s.live) && id in s.live && !Busy(s, id)
    requires r.id == id && Known(s.hist.accepted, r)
    ensures Level(s.hist, r) <==> r.retryCount == s.live[id].retryCount
  {
    assert Level(s.hist, s.live[id]) && Known(s.hist.accepted, s.live[id]);
  }

  /** Some execution is busy with `id`. */
  ghost predicate Busy(s: Sys, id: Id) {
    exists t :: BusyAt(s, t, id)
  }

  lemma KeptStoreIff(s: Sys, s': Sys)
    requires StoreLevel(s) && StoreKnown(s) && StoreKnown(s') && KeyedAndLive(s.live) && KeyedAndLive(s'.live)
    requires s'.threads == s.threads && s'.hist == s.hist && s'.live.Keys == s.live.Keys
    ensures StoreLevel(s') <==> forall id :: id in s.live && id in s'.live && !Busy(s, id) ==> s'.live[id].retryCount == s.live[id].retryCount
  {
    forall id ensures id in s'.live <==> id in s.live { assert id in s'.live.Keys <==> id in s.live.Keys; }
    forall t, id ensures BusyAt(s', t, id) <==> BusyAt(s, t, id) {}
    forall id ensures Busy(s', id) <==> Busy(s, id) {}
    forall id | id in s.live && !Busy(s, id)
      ensures Level(s'.hist, s'.live[id]) <==> s'.live[id].retryCount == s.live[id].retryCount
    {
      KeptLevel(s, id, s'.live[id]);
    }
  }

  lemma CompactStoreIff(s: Sys, caps: map<Pool, nat>, stamps: seq<Time>, order: seq<Id>)
    requires Accurate(s) && Accounted(s) && WorldEnabled(s, CompactLog(stamps, order))
    ensures StoreLevel(DoWorld(s, caps, CompactLog(stamps, order))) <==> CountCompaction(s, World(CompactLog(stamps, order)))
  {
    var e := CompactLog(stamps, order);
    WorldProvenance(s, caps, e);
    JournalStep(s, caps, World(e));
    KeptStoreIff(s, DoWorld(s, caps, e));
  }

  /** A compaction keeps everything that is said about the counts exactly if it keeps the
      stored ones. */
  lemma CompactAccurateIff(s: Sys, caps: map<Pool, nat>, stamps: seq<Time>, order: seq<Id>)
    requires Accurate(s) && Accounted(s) && WorldEnabled(s, CompactLog(stamps, order))
    ensures Accurate(DoWorld(s, caps, CompactLog(stamps, order))) <==> CountCompaction(s, World(CompactLog(stamps, order)))
  {
    var e := CompactLog(stamps, order);
    CompactStoreIff(s, caps, stamps, order);
    ExclusionStep(s, caps, World(e));
    JournalStep(s, caps, World(e));
    SameLetters(s, DoWorld(s, caps, e));
    SameCountsLevel(s, DoWorld(s, caps, e));
  }

  lemma SameCountsLevel(s: Sys, s': Sys)
    requires ThreadsLevel(s) && HeapsLevel(s) && s'.hist == s.hist && s'.threads == s.threads && s'.sh.pqs == s.sh.pqs
    ensures ThreadsLevel(s') && HeapsLevel(s')
  {}

  lemma WorldAccurate(s: Sys, caps: map<Pool, nat>, e: WorldEvent)
    requires Accurate(s) && Accounted(s) && WorldEnabled(s, e) && CountCompaction(s, World(e)) && !e.Crash?
    ensures var s' := DoWorld(s, caps, e);
            ThreadsLevel(s') && HeapsLevel(s') && StoreLevel(s') && Bounded(s'.hist) && LettersRight(s')
  {
    if e.CompactLog? {
      CompactAccurateIff(s, caps, e.stamps, e.order);
    } else {
      SameExecutions(s, DoWorld(s, caps, e));
      SameCountsLevel(s, DoWorld(s, caps, e));
    }
  }

  lemma AccurateStep(s: Sys, caps: map<Pool, nat>, e: Event)
    requires Accurate(s) && Accounted(s) && Enabled(s, e) && Ordinary(s, e)
    ensures Accurate(Do(s, caps, e))
  {
    ExclusionStep(s, caps, e);
    JournalStep(s, caps, e);
    match e
    case Sweeper(t, x) => SweepAccurate(s, t, x);
    case Dispatcher(t, x) => DispatchAccurate(s, t, x);
    case Execution(t, x) => ExecAccurate(s, t, x);
    case World(x) => WorldAccurate(s, caps, x);
  }

  /** The other hypotheses of an ordinary run. */
  ghost predicate Plausible(s: Sys, e: Event) {
    LiveVisit(s, e) && NoReuse(s, e) && NewTask(e) && e != World(Crash)
  }

  /** A step keeps counts and records level exactly if what it queues and what it compacts
      carries the stored count. */
  lemma AccurateStepIff(s: Sys, caps: map<Pool, nat>, e: Event)
    requires Accurate(s) && Accounted(s) && Enabled(s, e) && Plausible(s, e)
    ensures Accurate(Do(s, caps, e)) <==> CountVisit(s, e) && CountCompaction(s, e)
  {
    if CountVisit(s, e) && CountCompaction(s, e) {
      AccurateStep(s, caps, e);
    } else if e.Sweeper? {
      VisitLevel(s, e.t);
    } else {
      CompactAccurateIff(s, caps, e.world.stamps, e.world.order);
    }
  }

  /** What a caller is promised about task `id`. */
  ghost predicate AttemptsKept(s: Sys, id: Id)
    requires id in s.hist.accepted
  {
    var allowed := Allowed(s.hist.accepted[id]);
    && Starts(s.hist, id) <= allowed
    && (id in s.live && id !in s.sh.executing ==> s.live[id].retryCount == Fails(s.hist, id))
    && Letters(s.hist, id) <= 1
    && (Letters(s.hist, id) == 1 || id in s.hist.silent ==> Fails(s.hist, id) == allowed)
    && (id in s.hist.silent ==> Letters(s.hist, id) == 0)
    && (Fails(s.hist, id) == allowed && id !in s.sh.executing ==> Letters(s.hist, id) == 1 || id in s.hist.silent)
  }

  lemma AccurateMeans(s: Sys, id: Id)
    requires Accurate(s) && id in s.hist.accepted
    ensures AttemptsKept(s, id)
  {
    assert LetterRight(s, id);
    if id !in s.sh.executing {
      NoGuard(s, id);
      assert forall t :: !BusyAt(s, t, id);
      assert forall t :: Dying(s, t, id) ==> BusyAt(s, t, id);
    }
  }

  lemma AccurateAlways(states: seq<Sys>, caps: map<Pool, nat>, events: seq<Event>)
    requires IsRun(states, caps, events)
    requires forall i :: 0 <= i < |events| ==> Ordinary(states[i], events[i])
    requires forall i :: 0 <= i < |states| ==> Accounted(states[i])
    ensures forall i :: 0 <= i < |states| ==> Accurate(states[i])
  {
    EmptyExcludes(states[0], caps);
    forall i | 0 <= i < |events| && Accurate(states[i]) ensures Accurate(states[i + 1]) {
      RunStep(states, caps, events, i);
      AccurateStep(states[i], caps, events[i]);
    }
    Induct(states, s => Accurate(s));
  }

  lemma NothingCountedAtFirst(s: Sys, caps: map<Pool, nat>)
    requires Init(s, caps)
    ensures Accurate(s)
  {
    EmptyExcludes(s, caps);
  }

  lemma AccurateInRun(states: seq<Sys>, caps: map<Pool, nat>, events: seq<Event>, i: nat)
    requires IsRun(states, caps, events) && i < |events|
    requires Accurate(states[i]) && Accounted(states[i]) && Plausible(states[i], events[i])
    ensures Accurate(states[i + 1]) <==> CountVisit(states[i], events[i]) && CountCompaction(states[i], events[i])
  {
    RunStep(states, caps, events, i);
    AccurateStepIff(states[i], caps, events[i]);
  }

  /** Main result: in a run that queues only live ids, reuses none, is given new tasks and is
      not cut off, counts and records stay level throughout exactly if whatever is queued or
      compacted carries the stored count. */
  lemma AccurateRunIff(states: seq<Sys>, caps: map<Pool, nat>, events: seq<Event>)
    requires IsRun(states, caps, events)
    requires forall i :: 0 <= i < |events| ==> Plausible(states[i], events[i])
    ensures (forall i :: 0 <= i < |states| ==> Accurate(states[i]))
       <==> (forall i :: 0 <= i < |events| ==> CountVisit(states[i], events[i]) && CountCompaction(states[i], events[i]))
  {
    AccountedAlways(states, caps, events);
    if forall i :: 0 <= i < |events| ==> CountVisit(states[i], events[i]) && CountCompaction(states[i], events[i]) {
      NothingCountedAtFirst(states[0], caps);
      forall i | 0 <= i < |events| && Accurate(states[i]) ensures Accurate(states[i + 1]) {
        assert Accounted(states[i]) && Plausible(states[i], events[i]);
        AccurateInRun(states, caps, events, i);
      }
      Induct(states, s => Accurate(s));
    }
    if forall i :: 0 <= i < |states| ==> Accurate(states[i]) {
      forall i | 0 <= i < |events| ensures CountVisit(states[i], events[i]) && CountCompaction(states[i], events[i]) {
        assert Accurate(states[i]) && Accurate(states[i + 1]) && Accounted(states[i]) && Plausible(states[i], events[i]);
        AccurateInRun(states, caps, events, i);
      }
    }
  }

  /** Main result: in every ordinary run a task starts at most max(1, max_retries) times
      (between successes, for a cron task), its stored count is the number of its failures,
      and if every allowed attempt failed its dead letter is sent once, unless it has neither
      a webhook nor a max-retry handler; otherwise it is never sent. */
  lemma AttemptsAlways(states: seq<Sys>, caps: map<Pool, nat>, events: seq<Event>)
    requires IsRun(states, caps, events)
    requires forall i :: 0 <= i < |events| ==> Ordinary(states[i], events[i])
    ensures forall i, id :: 0 <= i < |states| && id in states[i].hist.accepted ==> AttemptsKept(states[i], id)
  {
    AccountedAlways(states, caps, events);
    AccurateAlways(states, caps, events);
    forall i, id | 0 <= i < |states| && id in states[i].hist.accepted ensures AttemptsKept(states[i], id) {
      AccurateMeans(states[i], id);
    }
  }
}
