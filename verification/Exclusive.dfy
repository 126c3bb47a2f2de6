/** Exclusive execution: one copy per id, one execution per id. */
module Exclusive {
  import opened Wrappers
  import opened Tasks
  import opened Scheduler
  import opened Machine

  /** Where a copy of a task waits to be started. */
  datatype Place = InHeap(pool: Pool) | InThread(t: Tid)

  /** The queued copy a dispatcher holds. */
  function Held(l: Local): Option<Record> {
    if l.Dispatching? && (l.disp.Popped? || l.disp.Limited? || l.disp.Saved? || l.disp.Granted?)
    then Some(l.disp.task) else None
  }

  /** The id an execution keeps in `executing`. */
  function Guarded(l: Local): Option<Id> {
    if !l.Executing? || l.exec.Releasing? then None
    else if l.exec.Unguarding? then Some(l.exec.id)
    else Some(l.exec.task.id)
  }

  ghost predicate Copy(s: Sys, pl: Place, r: Record) {
    match pl
    case InHeap(p) => p in s.sh.pqs && r in s.sh.pqs[p]
    case InThread(t) => t in s.threads && Held(s.threads[t]) == Some(r)
  }

  ghost predicate Guards(s: Sys, t: Tid, id: Id) {
    t in s.threads && Guarded(s.threads[t]) == Some(id)
  }

  ghost predicate CopiesQueued(s: Sys) {
    forall pl, r :: Copy(s, pl, r) ==> r.id in s.sh.queued
  }

  ghost predicate CopiesUnique(s: Sys) {
    && (forall pl, r, pl', r' :: Copy(s, pl, r) && Copy(s, pl', r') && r.id == r'.id ==> pl == pl' && r == r')
    && (forall p, r :: p in s.sh.pqs ==> s.sh.pqs[p][r] <= 1)
  }

  ghost predicate QueuedHaveCopies(s: Sys) {
    forall id :: id in s.sh.queued ==> exists pl, r :: Copy(s, pl, r) && r.id == id
  }

  ghost predicate GuardsUnique(s: Sys) {
    && (forall t, id :: Guards(s, t, id) ==> id in s.sh.executing)
    && (forall t, u, id :: Guards(s, t, id) && Guards(s, u, id) ==> t == u)
  }

  /** The invariant. */
  ghost predicate Exclusion(s: Sys) {
    && CopiesQueued(s) && CopiesUnique(s) && QueuedHaveCopies(s) && GuardsUnique(s)
    && s.sh.queued !! s.sh.executing
  }

  /** Nothing this invariant looks at has changed. */
  ghost predicate SameFlight(s: Sys, s': Sys) {
    && s'.sh.queued == s.sh.queued && s'.sh.executing == s.sh.executing && s'.sh.pqs == s.sh.pqs
    && (forall pl, r :: Copy(s', pl, r) <==> Copy(s, pl, r))
    && (forall t, id :: Guards(s', t, id) <==> Guards(s, t, id))
  }

  lemma SameFlightKeeps(s: Sys, s': Sys)
    requires Exclusion(s) && SameFlight(s, s')
    ensures Exclusion(s')
  {}

  /** A thread that changes what it holds in no way, or a new thread that holds nothing. */
  lemma MoveKeeps(s: Sys, s': Sys, t: Tid, l: Local)
    requires Exclusion(s)
    requires s'.sh.queued == s.sh.queued && s'.sh.executing == s.sh.executing && s'.sh.pqs == s.sh.pqs
    requires s'.threads == s.threads[t := l]
    requires Held(l) == if t in s.threads then Held(s.threads[t]) else None
    requires Guarded(l) == if t in s.threads then Guarded(s.threads[t]) else None
    ensures Exclusion(s')
  {
    assert SameFlight(s, s');
    SameFlightKeeps(s, s');
  }

  lemma GoneKeeps(s: Sys, s': Sys, t: Tid)
    requires Exclusion(s)
    requires s'.sh.queued == s.sh.queued && s'.sh.executing == s.sh.executing && s'.sh.pqs == s.sh.pqs
    requires t in s.threads && s'.threads == s.threads - {t}
    requires Held(s.threads[t]).None? && Guarded(s.threads[t]).None?
    ensures Exclusion(s')
  {
    assert SameFlight(s, s');
    SameFlightKeeps(s, s');
  }

  lemma PushKeeps(s: Sys, s': Sys, p: Pool, r: Record)
    requires Exclusion(s)
    requires r.id !in s.sh.queued && r.id !in s.sh.executing && p in s.sh.pqs
    requires s'.sh.queued == s.sh.queued + {r.id} && s'.sh.executing == s.sh.executing
    requires s'.sh.pqs == s.sh.pqs[p := s.sh.pqs[p] + multiset{r}]
    requires forall t, x :: Copy(s', InThread(t), x) <==> Copy(s, InThread(t), x)
    requires forall t, id :: Guards(s', t, id) <==> Guards(s, t, id)
    ensures Exclusion(s')
  {
    assert !Copy(s, InHeap(p), r);
    forall pl, x ensures Copy(s', pl, x) <==> Copy(s, pl, x) || (pl == InHeap(p) && x == r) {
      if pl.InThread? { assert pl == InThread(pl.t); }
    }
    forall id | id in s'.sh.queued ensures exists pl, x :: Copy(s', pl, x) && x.id == id {
      if id == r.id {
        assert Copy(s', InHeap(p), r);
      } else {
        var pl, x :| Copy(s, pl, x) && x.id == id;
        assert Copy(s', pl, x);
      }
    }
  }

  lemma PopKeeps(s: Sys, s': Sys, t: Tid, l: Local, p: Pool, r: Record)
    requires Exclusion(s)
    requires t in s.threads && Held(s.threads[t]).None? && Guarded(s.threads[t]).None?
    requires Copy(s, InHeap(p), r)
    requires s'.sh.queued == s.sh.queued && s'.sh.executing == s.sh.executing
    requires s'.sh.pqs == s.sh.pqs[p := s.sh.pqs[p] - multiset{r}]
    requires s'.threads == s.threads[t := l] && Held(l) == Some(r) && Guarded(l).None?
    ensures Exclusion(s')
  {
    assert s.sh.pqs[p][r] == 1;
    forall pl, x ensures Copy(s', pl, x) <==> (Copy(s, pl, x) && !(pl == InHeap(p) && x == r)) || (pl == InThread(t) && x == r) {
      if pl.InHeap? && pl.pool == p && x != r {
        assert s'.sh.pqs[p][x] == s.sh.pqs[p][x];
      }
    }
    assert forall u, id :: Guards(s', u, id) <==> Guards(s, u, id);
    forall id | id in s'.sh.queued ensures exists pl, x :: Copy(s', pl, x) && x.id == id {
      var pl, x :| Copy(s, pl, x) && x.id == id;
      if pl == InHeap(p) && x == r {
        assert Copy(s', InThread(t), r);
      } else {
        assert Copy(s', pl, x);
      }
    }
  }

  /** A dispatcher lets its copy go and the id leaves `queued`. */
  lemma UnqueueKeeps(s: Sys, s': Sys, t: Tid, l: Local)
    requires Exclusion(s)
    requires t in s.threads && Held(s.threads[t]).Some?
    requires Held(l).None? && Guarded(l).None?
    requires s'.sh.queued == s.sh.queued - {Held(s.threads[t]).value.id}
    requires s'.sh.executing == s.sh.executing && s'.sh.pqs == s.sh.pqs
    requires s'.threads == s.threads[t := l]
    ensures Exclusion(s')
  {
    var r := Held(s.threads[t]).value;
    assert Copy(s, InThread(t), r);
    assert forall pl, x :: Copy(s', pl, x) <==> Copy(s, pl, x) && pl != InThread(t);
    assert forall u, id :: Guards(s', u, id) <==> Guards(s, u, id);
    forall id | id in s'.sh.queued ensures exists pl, x :: Copy(s', pl, x) && x.id == id {
      var pl, x :| Copy(s, pl, x) && x.id == id;
      assert Copy(s', pl, x);
    }
  }

  /** A new execution takes its guard; its id was in neither set. */
  lemma GuardKeeps(s: Sys, s': Sys, t: Tid, l: Local)
    requires Exclusion(s) && t !in s.threads
    requires Held(l).None? && Guarded(l).Some?
    requires Guarded(l).value !in s.sh.queued && Guarded(l).value !in s.sh.executing
    requires s'.sh.queued == s.sh.queued && s'.sh.pqs == s.sh.pqs
    requires s'.sh.executing == s.sh.executing + {Guarded(l).value}
    requires s'.threads == s.threads[t := l]
    ensures Exclusion(s')
  {
    assert forall pl, x :: Copy(s', pl, x) <==> Copy(s, pl, x);
    assert forall u, id :: Guards(s', u, id) <==> Guards(s, u, id) || (u == t && id == Guarded(l).value);
  }

  lemma UnguardKeeps(s: Sys, s': Sys, t: Tid, l: Local)
    requires Exclusion(s)
    requires t in s.threads && Held(s.threads[t]).None? && Guarded(s.threads[t]).Some?
    requires Held(l).None? && Guarded(l).None?
    requires s'.sh.queued == s.sh.queued && s'.sh.pqs == s.sh.pqs
    requires s'.sh.executing == s.sh.executing || s'.sh.executing == s.sh.executing - {Guarded(s.threads[t]).value}
    requires s'.threads == s.threads[t := l]
    ensures Exclusion(s')
  {
    assert Guards(s, t, Guarded(s.threads[t]).value);
    assert forall pl, x :: Copy(s', pl, x) <==> Copy(s, pl, x);
    assert forall u, id :: Guards(s', u, id) <==> Guards(s, u, id) && u != t;
  }

  lemma VisitKeeps(s: Sys, t: Tid)
    requires Exclusion(s) && SweepEnabled(s, t, VisitNext)
    ensures Exclusion(DoSweep(s, t, VisitNext))
  {
    var s' := DoSweep(s, t, VisitNext);
    var l := s.threads[t];
    var r := l.todo[0];
    if Pushes(s.sh, s.live, r, l.now) {
      PushKeeps(s, s', PoolFor(s.sh, r).value, r);
    } else {
      MoveKeeps(s, s', t, s'.threads[t]);
    }
  }

  lemma SpawnKeeps(s: Sys, t: Tid, pool: Pool, child: Tid)
    requires Exclusion(s) && SweepEnabled(s, t, Spawn(pool, child))
    ensures Exclusion(DoSweep(s, t, Spawn(pool, child)))
  {
    var s' := DoSweep(s, t, Spawn(pool, child));
    var mid := At(s, t, s'.threads[t]);
    MoveKeeps(s, mid, t, s'.threads[t]);
    if child in s'.threads {
      MoveKeeps(mid, s', child, Dispatching(pool, Waiting));
    }
  }

  lemma SweepKeeps(s: Sys, t: Tid, e: SweepEvent)
    requires Exclusion(s) && SweepEnabled(s, t, e)
    ensures Exclusion(DoSweep(s, t, e))
  {
    var s' := DoSweep(s, t, e);
    match e
    case Submit(task) => if !Duplicate(s.sh, task) { MoveKeeps(s, s', t, s'.threads[t]); }
    case Check => if t in s'.threads { MoveKeeps(s, s', t, s'.threads[t]); } else { GoneKeeps(s, s', t); }
    case Accept => GoneKeeps(s, s', t);
    case ReadStore(_, _) => MoveKeeps(s, s', t, s'.threads[t]);
    case VisitNext => VisitKeeps(s, t);
    case Spawn(pool, child) => SpawnKeeps(s, t, pool, child);
    case SweepEnd => GoneKeeps(s, s', t);
  }

  /** The second check of the dispatcher never fires: a task it holds is not executing. */
  lemma HeldNotExecuting(s: Sys, t: Tid)
    requires Exclusion(s) && t in s.threads && Held(s.threads[t]).Some?
    ensures Held(s.threads[t]).value.id in s.sh.queued
    ensures Held(s.threads[t]).value.id !in s.sh.executing
  {
    assert Copy(s, InThread(t), Held(s.threads[t]).value);
  }

  /** An id that does not execute has no execution past the guard. */
  lemma NoGuard(s: Sys, id: Id)
    requires Exclusion(s) && id !in s.sh.executing
    ensures forall t :: t in s.threads ==> Guarded(s.threads[t]) != Some(id)
  {
    forall t | t in s.threads ensures Guarded(s.threads[t]) != Some(id) {
      assert Guards(s, t, id) ==> id in s.sh.executing;
    }
  }

  lemma OthersDiffer(s: Sys, t: Tid)
    requires Exclusion(s) && t in s.threads && Guarded(s.threads[t]).Some?
    ensures forall u :: u in s.threads && u != t ==> Guarded(s.threads[u]) != Guarded(s.threads[t])
  {
    forall u | u in s.threads && u != t ensures Guarded(s.threads[u]) != Guarded(s.threads[t]) {
      if Guarded(s.threads[u]) == Guarded(s.threads[t]) {
        assert Guards(s, t, Guarded(s.threads[t]).value) && Guards(s, u, Guarded(s.threads[t]).value);
      }
    }
  }

  lemma DeferKeeps(s: Sys, t: Tid, now: Time)
    requires Exclusion(s) && DispatchEnabled(s, t, Defer(now))
    ensures Exclusion(DoDispatch(s, t, Defer(now)))
  {
    var s' := DoDispatch(s, t, Defer(now));
    var before, after := s.threads[t].disp.task, s'.threads[t].disp.task;
    assert forall pl, x :: Copy(s', pl, x) <==> (Copy(s, pl, x) && pl != InThread(t)) || (pl == InThread(t) && x == after);
    assert Copy(s, InThread(t), before) && before.id == after.id;
    assert forall u, id :: Guards(s', u, id) <==> Guards(s, u, id);
    forall id | id in s'.sh.queued ensures exists pl, x :: Copy(s', pl, x) && x.id == id {
      var pl, x :| Copy(s, pl, x) && x.id == id;
      if pl == InThread(t) {
        assert Copy(s', pl, after);
      } else {
        assert Copy(s', pl, x);
      }
    }
  }

  lemma BeginKeeps(s: Sys, t: Tid, child: Tid)
    requires Exclusion(s) && DispatchEnabled(s, t, Begin(child))
    ensures Exclusion(DoDispatch(s, t, Begin(child)))
  {
    HeldNotExecuting(s, t);
    var s' := DoDispatch(s, t, Begin(child));
    var pool, r := s.threads[t].pool, s.threads[t].disp.task;
    var mid := At(s.(sh := Unqueue(s.sh, r.id)), t, Dispatching(pool, Waiting));
    UnqueueKeeps(s, mid, t, Dispatching(pool, Waiting));
    GuardKeeps(mid, s', child, Executing(pool, Starting(r)));
  }

  lemma DispatchKeeps(s: Sys, t: Tid, e: DispatchEvent)
    requires Exclusion(s) && DispatchEnabled(s, t, e)
    ensures Exclusion(DoDispatch(s, t, e))
  {
    var s' := DoDispatch(s, t, e);
    if e.PopTask? { PopKeeps(s, s', t, s'.threads[t], s.threads[t].pool, e.task); }
    else if e.UnqueueLimited? { UnqueueKeeps(s, s', t, s'.threads[t]); }
    else if e.Begin? { BeginKeeps(s, t, e.child); }
    else if e.Exit? { GoneKeeps(s, s', t); }
    else if e.Defer? { DeferKeeps(s, t, e.now); }
    else { MoveKeeps(s, s', t, s'.threads[t]); }
  }

  lemma ExecKeeps(s: Sys, t: Tid, e: ExecEvent)
    requires Exclusion(s) && ExecEnabled(s, t, e)
    ensures Exclusion(DoExec(s, t, e))
  {
    var s' := DoExec(s, t, e);
    if e.Release? { GoneKeeps(s, s', t); }
    else if e.DropGuard? || s'.threads[t].exec.Releasing? { UnguardKeeps(s, s', t, s'.threads[t]); }
    else { MoveKeeps(s, s', t, s'.threads[t]); }
  }

  lemma WorldKeeps(s: Sys, caps: map<Pool, nat>, e: WorldEvent)
    requires Exclusion(s) && WorldEnabled(s, e)
    ensures Exclusion(DoWorld(s, caps, e))
  {
    var s' := DoWorld(s, caps, e);
    if e.Crash? {
      EmptyExcludes(s', caps);
    } else {
      SameFlightKeeps(s, s');
    }
  }

  lemma EmptyExcludes(s: Sys, caps: map<Pool, nat>)
    requires s.threads == map[] && s.sh == Opened(s.live, caps)
    ensures Exclusion(s)
  {
    assert forall pl, r :: !Copy(s, pl, r);
    assert forall t, id :: !Guards(s, t, id);
  }

  lemma ExclusionStep(s: Sys, caps: map<Pool, nat>, e: Event)
    requires Exclusion(s) && Enabled(s, e)
    ensures Exclusion(Do(s, caps, e))
  {
    match e
    case Sweeper(t, x) => SweepKeeps(s, t, x);
    case Dispatcher(t, x) => DispatchKeeps(s, t, x);
    case Execution(t, x) => ExecKeeps(s, t, x);
    case World(x) => WorldKeeps(s, caps, x);
  }

  /** Main result: in every run, whatever the sweeps read and whenever they act on it,
      each id has at most one copy waiting, `queued` is exactly those ids, no queued id
      executes, and no id has two executions past the guard. */
  lemma ExclusionAlways(states: seq<Sys>, caps: map<Pool, nat>, events: seq<Event>)
    requires IsRun(states, caps, events)
    ensures forall i :: 0 <= i < |states| ==> Exclusion(states[i])
  {
    EmptyExcludes(states[0], caps);
    forall i | 0 <= i < |events| && Exclusion(states[i]) ensures Exclusion(states[i + 1]) {
      RunStep(states, caps, events, i);
      ExclusionStep(states[i], caps, events[i]);
    }
    Induct(states, s => Exclusion(s));
  }
}
