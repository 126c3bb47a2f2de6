/** Permit conservation and the count of dispatcher loops. */
module Permits {
  import opened Wrappers
  import opened Tasks
  import opened Scheduler
  import opened Machine

  /** The pool whose permit a thread holds. */
  function PermitOf(l: Local): Option<Pool> {
    if l.Executing? || (l.Dispatching? && !l.disp.Waiting? && !l.disp.Exiting?) then Some(l.pool) else None
  }

  /** The pool a dispatcher loop serves. */
  function LoopOf(l: Local): Option<Pool> {
    if l.Dispatching? then Some(l.pool) else None
  }

  /** The threads that `f` assigns to pool `p`. */
  function Where(threads: map<Tid, Local>, f: Local -> Option<Pool>, p: Pool): set<Tid> {
    set t | t in threads && f(threads[t]) == Some(p)
  }

  lemma SetWithout<T>(a: set<T>, b: set<T>, x: T)
    requires x in a && b == a - {x}
    ensures |a| == |b| + 1
  {}

  lemma WhereGains(threads: map<Tid, Local>, threads': map<Tid, Local>, f: Local -> Option<Pool>, t: Tid, q: Option<Pool>)
    requires t in threads' && f(threads'[t]) == q
    requires t in threads ==> f(threads[t]).None?
    requires forall u :: u != t ==> (u in threads' <==> u in threads) && (u in threads ==> threads'[u] == threads[u])
    ensures forall p :: |Where(threads', f, p)| == |Where(threads, f, p)| + if q == Some(p) then 1 else 0
  {
    forall p ensures |Where(threads', f, p)| == |Where(threads, f, p)| + if q == Some(p) then 1 else 0 {
      var a, b := Where(threads', f, p), Where(threads, f, p);
      if q == Some(p) {
        assert b == a - {t};
        SetWithout(a, b, t);
      } else {
        assert a == b;
      }
    }
  }

  lemma WhereSame(threads: map<Tid, Local>, threads': map<Tid, Local>, f: Local -> Option<Pool>)
    requires forall u :: (u in threads' && f(threads'[u]).Some?) <==> (u in threads && f(threads[u]).Some?)
    requires forall u :: u in threads && u in threads' ==> f(threads'[u]) == f(threads[u])
    ensures forall p :: Where(threads', f, p) == Where(threads, f, p)
  {
    forall p ensures Where(threads', f, p) == Where(threads, f, p) {
      forall u ensures u in Where(threads', f, p) <==> u in Where(threads, f, p) {}
    }
  }

  /** Thread `t` changes, arrives or leaves; no other thread does. */
  ghost predicate Elsewhere(s: Sys, s': Sys, t: Tid) {
    forall u :: u != t ==> (u in s'.threads <==> u in s.threads) && (u in s.threads ==> s'.threads[u] == s.threads[u])
  }

  // ---------------------------------------------------------------- permits

  /** For each pool, free permits plus held permits make the capacity. */
  ghost predicate Conserved(s: Sys, caps: map<Pool, nat>) {
    && s.sh.permits.Keys == caps.Keys
    && (forall p :: p in caps ==> s.sh.permits[p] + |Where(s.threads, PermitOf, p)| == caps[p])
    && (forall t :: t in s.threads && PermitOf(s.threads[t]).Some? ==> s.threads[t].pool in caps)
  }

  function PermitAt(s: Sys, t: Tid): Option<Pool> {
    if t in s.threads then PermitOf(s.threads[t]) else None
  }

  lemma StayConserves(s: Sys, s': Sys, caps: map<Pool, nat>, t: Tid)
    requires Conserved(s, caps) && Elsewhere(s, s', t)
    requires s'.sh.permits == s.sh.permits && PermitAt(s', t) == PermitAt(s, t)
    ensures Conserved(s', caps)
  {
    WhereSame(s.threads, s'.threads, PermitOf);
  }

  lemma TakeConserves(s: Sys, s': Sys, caps: map<Pool, nat>, t: Tid, p: Pool)
    requires Conserved(s, caps) && Elsewhere(s, s', t)
    requires p in s.sh.permits && s.sh.permits[p] > 0 && s'.sh.permits == s.sh.permits[p := s.sh.permits[p] - 1]
    requires PermitAt(s, t).None? && PermitAt(s', t) == Some(p)
    ensures Conserved(s', caps)
  {
    WhereGains(s.threads, s'.threads, PermitOf, t, Some(p));
  }

  lemma GiveConserves(s: Sys, s': Sys, caps: map<Pool, nat>, t: Tid, p: Pool)
    requires Conserved(s, caps) && Elsewhere(s, s', t)
    requires p in s.sh.permits && s'.sh.permits == s.sh.permits[p := s.sh.permits[p] + 1]
    requires PermitAt(s, t) == Some(p) && PermitAt(s', t).None?
    ensures Conserved(s', caps)
  {
    WhereGains(s'.threads, s.threads, PermitOf, t, Some(p));
  }

  /** The permit a dispatcher acquired travels with the task it starts. */
  lemma BeginConserves(s: Sys, caps: map<Pool, nat>, t: Tid, child: Tid)
    requires Conserved(s, caps) && DispatchEnabled(s, t, Begin(child))
    ensures Conserved(DoDispatch(s, t, Begin(child)), caps)
  {
    var s' := DoDispatch(s, t, Begin(child));
    var p := s.threads[t].pool;
    var r := s.threads[t].disp.task;
    if r.id in s.sh.executing {
      StayConserves(s, s', caps, t);
    } else {
      assert s'.threads == s.threads[t := Dispatching(p, Waiting)][child := Executing(p, Starting(r))];
      HandOver(s, s', caps, t, child, p);
    }
  }

  /** Thread `t` passes its permit on to the new thread `child`. */
  lemma HandOver(s: Sys, s': Sys, caps: map<Pool, nat>, t: Tid, child: Tid, p: Pool)
    requires Conserved(s, caps) && PermitAt(s, t) == Some(p)
    requires s'.sh.permits == s.sh.permits && child !in s.threads && t != child
    requires s'.threads.Keys == s.threads.Keys + {child} && forall u :: u in s.threads && u != t ==> s'.threads[u] == s.threads[u]
    requires PermitAt(s', t).None? && PermitAt(s', child) == Some(p)
    ensures Conserved(s', caps)
  {
    var mid := s.threads[t := s'.threads[t]];
    WhereGains(mid, s.threads, PermitOf, t, Some(p));
    WhereGains(mid, s'.threads, PermitOf, child, Some(p));
  }

  lemma SpawnConserves(s: Sys, caps: map<Pool, nat>, t: Tid, pool: Pool, child: Tid)
    requires Conserved(s, caps) && SweepEnabled(s, t, Spawn(pool, child))
    ensures Conserved(DoSweep(s, t, Spawn(pool, child)), caps)
  {
    var s' := DoSweep(s, t, Spawn(pool, child));
    var mid := At(s, t, s'.threads[t]);
    StayConserves(s, mid, caps, t);
    StayConserves(mid, s', caps, child);
  }

  lemma OpenedConserves(s: Sys, caps: map<Pool, nat>)
    requires s.threads == map[] && s.sh == Opened(s.live, caps)
    ensures Conserved(s, caps)
  {
    forall p ensures Where(s.threads, PermitOf, p) == {} {}
  }

  lemma DispatchConserves(s: Sys, caps: map<Pool, nat>, t: Tid, e: DispatchEvent)
    requires Conserved(s, caps) && DispatchEnabled(s, t, e)
    ensures Conserved(DoDispatch(s, t, e), caps)
  {
    var s' := DoDispatch(s, t, e);
    if e.Begin? { BeginConserves(s, caps, t, e.child); }
    else if e.Acquire? { TakeConserves(s, s', caps, t, s.threads[t].pool); }
    else if e.DropPermit? { GiveConserves(s, s', caps, t, s.threads[t].pool); }
    else {
      DispatchKeepsPermit(s, t, e);
      StayConserves(s, s', caps, t);
    }
  }

  lemma DispatchKeepsPermit(s: Sys, t: Tid, e: DispatchEvent)
    requires DispatchEnabled(s, t, e) && !e.Begin? && !e.Acquire? && !e.DropPermit?
    ensures DoDispatch(s, t, e).sh.permits == s.sh.permits && PermitAt(DoDispatch(s, t, e), t) == PermitAt(s, t)
    ensures Elsewhere(s, DoDispatch(s, t, e), t)
  {}

  lemma ExecConserves(s: Sys, caps: map<Pool, nat>, t: Tid, e: ExecEvent)
    requires Conserved(s, caps) && ExecEnabled(s, t, e)
    ensures Conserved(DoExec(s, t, e), caps)
  {
    var s' := DoExec(s, t, e);
    ExecFrame(s, t, e);
    if e.Release? {
      GiveConserves(s, s', caps, t, s.threads[t].pool);
    } else {
      ExecKeepsPermit(s, t, e);
      StayConserves(s, s', caps, t);
    }
  }

  lemma ExecKeepsPermit(s: Sys, t: Tid, e: ExecEvent)
    requires ExecEnabled(s, t, e) && !e.Release?
    ensures DoExec(s, t, e).sh.permits == s.sh.permits && PermitAt(DoExec(s, t, e), t) == PermitAt(s, t)
  {}

  lemma SweepConserves(s: Sys, caps: map<Pool, nat>, t: Tid, e: SweepEvent)
    requires Conserved(s, caps) && SweepEnabled(s, t, e)
    ensures Conserved(DoSweep(s, t, e), caps)
  {
    if e.Spawn? { SpawnConserves(s, caps, t, e.pool, e.child); }
    else { StayConserves(s, DoSweep(s, t, e), caps, t); }
  }

  lemma ConservedStep(s: Sys, caps: map<Pool, nat>, e: Event)
    requires Conserved(s, caps) && Enabled(s, e)
    ensures Conserved(Do(s, caps, e), caps)
  {
    match e
    case Sweeper(t, x) => SweepConserves(s, caps, t, x);
    case Dispatcher(t, x) => DispatchConserves(s, caps, t, x);
    case Execution(t, x) => ExecConserves(s, caps, t, x);
    case World(x) => if x.Crash? { OpenedConserves(Do(s, caps, e), caps); }
  }

  // ------------------------------------------------------------------ loops

  /** A pool's count is the number of its dispatcher loops, spawned and not finished;
      there are never more than two. */
  ghost predicate Counted(s: Sys) {
    && (forall p :: Loops(s.sh, p) == |Where(s.threads, LoopOf, p)|)
    && (forall p :: Loops(s.sh, p) <= 2)
  }

  function LoopAt(s: Sys, t: Tid): Option<Pool> {
    if t in s.threads then LoopOf(s.threads[t]) else None
  }

  lemma StayCounted(s: Sys, s': Sys, t: Tid)
    requires Counted(s) && Elsewhere(s, s', t)
    requires s'.sh.counts == s.sh.counts && LoopAt(s', t) == LoopAt(s, t)
    ensures Counted(s')
  {
    WhereSame(s.threads, s'.threads, LoopOf);
  }

  lemma AddLoopCounted(s: Sys, s': Sys, t: Tid, p: Pool)
    requires Counted(s) && Elsewhere(s, s', t)
    requires Loops(s.sh, p) < MAX_DISPATCHERS && s'.sh.counts == s.sh.counts[p := Loops(s.sh, p) + 1]
    requires t !in s.threads && LoopAt(s', t) == Some(p)
    ensures Counted(s')
  {
    WhereGains(s.threads, s'.threads, LoopOf, t, Some(p));
  }

  lemma DropLoopCounted(s: Sys, s': Sys, t: Tid, p: Pool)
    requires Counted(s) && Elsewhere(s, s', t)
    requires Loops(s.sh, p) > 0 && s'.sh.counts == s.sh.counts[p := Loops(s.sh, p) - 1]
    requires t !in s'.threads && LoopAt(s, t) == Some(p)
    ensures Counted(s')
  {
    WhereGains(s'.threads, s.threads, LoopOf, t, Some(p));
  }

  /** The decrement at the end of a loop never underflows. */
  lemma NoUnderflow(s: Sys, t: Tid)
    requires Counted(s) && t in s.threads && s.threads[t].Dispatching?
    ensures Loops(s.sh, s.threads[t].pool) > 0
  {
    assert t in Where(s.threads, LoopOf, s.threads[t].pool);
  }

  lemma SpawnCounted(s: Sys, t: Tid, pool: Pool, child: Tid)
    requires Counted(s) && SweepEnabled(s, t, Spawn(pool, child))
    ensures Counted(DoSweep(s, t, Spawn(pool, child)))
  {
    var s' := DoSweep(s, t, Spawn(pool, child));
    var mid := At(s, t, s'.threads[t]);
    StayCounted(s, mid, t);
    if child in s'.threads {
      AddLoopCounted(mid, s', child, pool);
    }
  }

  lemma BeginCounted(s: Sys, t: Tid, child: Tid)
    requires Counted(s) && DispatchEnabled(s, t, Begin(child))
    ensures Counted(DoDispatch(s, t, Begin(child)))
  {
    var s' := DoDispatch(s, t, Begin(child));
    var mid := At(s, t, s'.threads[t]);
    StayCounted(s, mid, t);
    StayCounted(mid, s', child);
  }

  lemma OpenedCounted(s: Sys, caps: map<Pool, nat>)
    requires s.threads == map[] && s.sh == Opened(s.live, caps)
    ensures Counted(s)
  {
    forall p ensures Where(s.threads, LoopOf, p) == {} {}
  }

  lemma DispatchCounted(s: Sys, t: Tid, e: DispatchEvent)
    requires Counted(s) && DispatchEnabled(s, t, e)
    ensures Counted(DoDispatch(s, t, e))
  {
    if e.Begin? { BeginCounted(s, t, e.child); }
    else if e.Exit? { DropLoopCounted(s, DoDispatch(s, t, e), t, s.threads[t].pool); }
    else { StayCounted(s, DoDispatch(s, t, e), t); }
  }

  lemma SweepCounted(s: Sys, t: Tid, e: SweepEvent)
    requires Counted(s) && SweepEnabled(s, t, e)
    ensures Counted(DoSweep(s, t, e))
  {
    if e.Spawn? { SpawnCounted(s, t, e.pool, e.child); }
    else { StayCounted(s, DoSweep(s, t, e), t); }
  }

  lemma ExecCounted(s: Sys, t: Tid, e: ExecEvent)
    requires Counted(s) && ExecEnabled(s, t, e)
    ensures Counted(DoExec(s, t, e))
  {
    StayCounted(s, DoExec(s, t, e), t);
  }

  lemma CountedStep(s: Sys, caps: map<Pool, nat>, e: Event)
    requires Counted(s) && Enabled(s, e)
    ensures Counted(Do(s, caps, e))
  {
    match e
    case Sweeper(t, x) => SweepCounted(s, t, x);
    case Dispatcher(t, x) => DispatchCounted(s, t, x);
    case Execution(t, x) => ExecCounted(s, t, x);
    case World(x) =>
      if x.Crash? { OpenedCounted(Do(s, caps, e), caps); }
      else { assert forall p :: Loops(Do(s, caps, e).sh, p) == Loops(s.sh, p); }
  }

  // ------------------------------------------------------------------- runs

  /** Main result: permits are conserved and loops are counted in every run, and the
      decrement of a finishing loop finds a positive count. */
  lemma ConservedAlways(states: seq<Sys>, caps: map<Pool, nat>, events: seq<Event>)
    requires IsRun(states, caps, events)
    ensures forall i :: 0 <= i < |states| ==> Conserved(states[i], caps) && Counted(states[i])
  {
    OpenedConserves(states[0], caps);
    OpenedCounted(states[0], caps);
    forall i | 0 <= i < |events| && Conserved(states[i], caps) ensures Conserved(states[i + 1], caps) {
      RunStep(states, caps, events, i);
      ConservedStep(states[i], caps, events[i]);
    }
    forall i | 0 <= i < |events| && Counted(states[i]) ensures Counted(states[i + 1]) {
      RunStep(states, caps, events, i);
      CountedStep(states[i], caps, events[i]);
    }
    Induct(states, s => Conserved(s, caps));
    Induct(states, s => Counted(s));
  }
}
