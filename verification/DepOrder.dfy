/** Dependency order: a task waits for what it depends on, and falls with it. */
module DepOrder {
  import opened Wrappers
  import opened Tasks
  import opened LogReplay
  import opened Scheduler
  import opened Machine
  import opened Exclusive
  import opened Journal
  import opened Durable
  import opened Completion

  /** `r` is in the store and nothing it waits for is. */
  ghost predicate Clear(live: map<Id, Record>, r: Record) {
    r.id in live && DepsDone(live, r)
  }

  /** The copy a thread holds on the way from the heap to the end of its execution. */
  function Carried(l: Local): Option<Record> {
    if Held(l).Some? then Held(l)
    else if l.Executing? && !l.exec.Unhashing? && !l.exec.Unguarding? && !l.exec.Releasing? then Some(l.exec.task)
    else None
  }

  ghost predicate HeapsClear(s: Sys) {
    forall p, r :: p in s.sh.pqs && r in s.sh.pqs[p] ==> Clear(s.live, r)
  }

  ghost predicate ThreadsClear(s: Sys) {
    forall t :: t in s.threads && Carried(s.threads[t]).Some? ==> Clear(s.live, Carried(s.threads[t]).value)
  }

  ghost predicate FailedForGood(h: History, id: Id) {
    id in h.exhausted && id !in h.succeeded
  }

  ghost predicate DependsOn(live: map<Id, Record>, k: Id, parent: Id) {
    k in live && parent in live[k].Deps()
  }

  /** Between the scan and the delete of a task that failed for good, its live dependents
      are exactly the ones still to be blocked, and in the end none. */
  ghost predicate CoversChildren(s: Sys, x: ExecState) {
    && (x.Blocking? ==> forall k :: DependsOn(s.live, k, x.task.id) ==> exists i :: 0 <= i < |x.kids| && x.kids[i].id == k)
    && ((x.Marking? || x.Deleting? || x.Burying?) && FailedForGood(s.hist, x.task.id) ==>
          forall k :: !DependsOn(s.live, k, x.task.id))
  }

  ghost predicate ChildrenCovered(s: Sys) {
    forall t :: t in s.threads && s.threads[t].Executing? ==> CoversChildren(s, s.threads[t].exec)
  }

  ghost predicate HasLiveDep(s: Sys, k: Id)
    requires k in s.hist.accepted
  {
    exists i :: 0 <= i < |s.hist.accepted[k].Deps()| && s.hist.accepted[k].Deps()[i] in s.live
  }

  /** A task with a live dependency is live or blocked, and has never started; a blocked
      task is gone and never started. */
  ghost predicate Waiting(s: Sys) {
    && (forall k :: k in s.hist.accepted && HasLiveDep(s, k) ==> (k in s.live || k in s.hist.blocked) && k !in s.hist.starts)
    && (forall k :: k in s.hist.blocked ==> k in s.hist.accepted && k !in s.live && k !in s.hist.starts)
    && (forall k :: k in s.hist.starts ==> k in s.hist.accepted)
  }

  /** Nothing in flight waits for a live task. */
  ghost predicate FlightClear(s: Sys) {
    HeapsClear(s) && ThreadsClear(s)
  }

  ghost predicate Flight(s: Sys) {
    Exclusion(s) && Accounted(s) && FlightClear(s)
  }

  ghost predicate Ordered(s: Sys) {
    Flight(s) && ChildrenCovered(s) && Waiting(s)
  }

  // -------------------------------------------------------------- hypotheses

  /** A copy of `k` is in a heap, with a dispatcher or in an execution. */
  ghost predicate InFlight(s: Sys, k: Id) {
    || (exists p, r :: p in s.sh.pqs && r in s.sh.pqs[p] && r.id == k)
    || (exists u :: u in s.threads && Carried(s.threads[u]).Some? && Carried(s.threads[u]).value.id == k)
  }

  ghost predicate Accepts(s: Sys, e: Event) {
    e.Sweeper? && e.sweep.Accept? && SweepEnabled(s, e.t, Accept)
  }

  /** No task in flight waits for one that is accepted. */
  ghost predicate NoneInFlightWaits(s: Sys, e: Event) {
    Accepts(s, e) ==>
      forall k :: k in s.hist.accepted && InFlight(s, k) ==> s.threads[e.t].task.id !in s.hist.accepted[k].Deps()
  }

  /** The execution is between the scan for the children of a task and that task's delete, if
      the task failed for good. */
  predicate PastScan(x: ExecState) {
    x.Blocking? || x.Marking? || x.Deleting? || x.Burying?
  }

  ghost predicate Failing(h: History, x: ExecState) {
    PastScan(x) && (x.Blocking? || FailedForGood(h, x.task.id))
  }

  /** No dependent of a task that failed for good is accepted then. */
  ghost predicate NoLateDependent(s: Sys, e: Event) {
    Accepts(s, e) ==>
      forall u :: u in s.threads && s.threads[u].Executing? && Failing(s.hist, s.threads[u].exec)
        ==> s.threads[u].exec.task.id !in s.threads[e.t].task.Deps()
  }

  /** A task is accepted before anything that waits for it has been queued: its dependents
      are live and untouched, or already blocked. */
  ghost predicate BeforeDependents(s: Sys, e: Event) {
    Accepts(s, e) ==>
      forall k :: k in s.hist.accepted && s.threads[e.t].task.id in s.hist.accepted[k].Deps() ==>
        || k in s.hist.blocked
        || (k in s.live && k !in s.sh.queued && k !in s.sh.executing && k !in s.hist.starts)
  }

  /** What keeps everything in flight free of live dependencies. */
  ghost predicate KeepsClear(s: Sys, e: Event) {
    LiveVisit(s, e) && NoneInFlightWaits(s, e)
  }

  ghost predicate Orderly(s: Sys, e: Event) {
    LiveVisit(s, e) && NoReuse(s, e) && BeforeDependents(s, e) && NoLateDependent(s, e)
  }

  // ------------------------------------------------------------------ clear

  lemma ClearSameKeys(live: map<Id, Record>, live': map<Id, Record>)
    requires live'.Keys == live.Keys
    ensures forall r: Record :: Clear(live', r) == Clear(live, r)
  {
    forall id ensures id in live' <==> id in live {}
    forall r: Record ensures Clear(live', r) == Clear(live, r) {}
  }

  lemma InFlightIsBusy(s: Sys, k: Id)
    requires Flight(s) && InFlight(s, k)
    ensures k in s.hist.accepted && k in s.live && (k in s.sh.queued || k in s.sh.executing)
  {
    if p, r :| p in s.sh.pqs && r in s.sh.pqs[p] && r.id == k {
      HeapRecord(s, p, r);
      assert Copy(s, InHeap(p), r);
    } else {
      var u :| u in s.threads && Carried(s.threads[u]).Some? && Carried(s.threads[u]).value.id == k;
      CarriedRecord(s, u);
      if Held(s.threads[u]).Some? { HeldNotExecuting(s, u); } else { assert Guards(s, u, k); }
    }
  }

  /** An accept keeps every task in flight free of live dependencies exactly if none of them
      waits for the new one. */
  lemma AcceptClear(s: Sys, t: Tid)
    requires Flight(s) && SweepEnabled(s, t, Accept) && NoReuse(s, Sweeper(t, Accept))
    ensures FlightClear(DoSweep(s, t, Accept)) <==> NoneInFlightWaits(s, Sweeper(t, Accept))
  {
    var id := s.threads[t].task.id;
    AcceptKeepsFlight(s, t);
    OneMoreLive(s, id, DoSweep(s, t, Accept).live);
  }

  lemma AcceptKeepsFlight(s: Sys, t: Tid)
    requires SweepEnabled(s, t, Accept)
    ensures var s' := DoSweep(s, t, Accept);
            && s'.live.Keys == s.live.Keys + {s.threads[t].task.id}
            && (FlightClear(s') <==> FlightClear(s.(live := s'.live)))
  {
    var s' := DoSweep(s, t, Accept);
    assert s'.sh.pqs == s.sh.pqs;
    assert forall u :: u in s.threads && u != t ==> u in s'.threads && s'.threads[u] == s.threads[u];
  }

  /** With `id` live as well, everything in flight is clear exactly if nothing in flight waits
      for it. */
  lemma OneMoreLive(s: Sys, id: Id, live': map<Id, Record>)
    requires Flight(s) && live'.Keys == s.live.Keys + {id}
    ensures FlightClear(s.(live := live')) <==>
            forall k :: k in s.hist.accepted && InFlight(s, k) ==> id !in s.hist.accepted[k].Deps()
  {
    forall p, r | p in s.sh.pqs && r in s.sh.pqs[p]
      ensures InFlight(s, r.id) && r.id in s.hist.accepted && (Clear(live', r) <==> id !in s.hist.accepted[r.id].Deps())
    {
      HeapRecord(s, p, r);
      NewDepIsLive(s, id, live', r);
    }
    CarriedDeps(s, id, live');
    if FlightClear(s.(live := live')) {
      forall k | k in s.hist.accepted && InFlight(s, k) ensures id !in s.hist.accepted[k].Deps() {
        if p, r :| p in s.sh.pqs && r in s.sh.pqs[p] && r.id == k {
          assert Clear(live', r);
        }
      }
    }
  }

  lemma CarriedDeps(s: Sys, id: Id, live': map<Id, Record>)
    requires Flight(s) && live'.Keys == s.live.Keys + {id}
    ensures forall u :: u in s.threads && Carried(s.threads[u]).Some? ==>
              var r := Carried(s.threads[u]).value;
              && InFlight(s, r.id) && r.id in s.hist.accepted
              && (Clear(live', r) <==> id !in s.hist.accepted[r.id].Deps())
  {
    forall u | u in s.threads && Carried(s.threads[u]).Some?
      ensures var r := Carried(s.threads[u]).value;
              InFlight(s, r.id) && r.id in s.hist.accepted && (Clear(live', r) <==> id !in s.hist.accepted[r.id].Deps())
    {
      CarriedRecord(s, u);
      NewDepIsLive(s, id, live', Carried(s.threads[u]).value);
    }
  }

  lemma NewDepIsLive(s: Sys, id: Id, live': map<Id, Record>, r: Record)
    requires Known(s.hist.accepted, r) && Clear(s.live, r) && live'.Keys == s.live.Keys + {id}
    ensures Clear(live', r) <==> id !in s.hist.accepted[r.id].Deps()
  {
    forall k ensures k in live' <==> k in s.live || k == id {}
    if id in r.Deps() {
      var i :| 0 <= i < |r.Deps()| && r.Deps()[i] == id;
      assert r.Deps()[i] in live';
    }
  }

  /** No task in flight waits for one that is accepted before its dependents. */
  lemma BeforeDependentsClear(s: Sys, e: Event)
    requires Ordered(s) && Orderly(s, e)
    ensures KeepsClear(s, e)
  {
    if Accepts(s, e) {
      forall k | k in s.hist.accepted && InFlight(s, k) ensures s.threads[e.t].task.id !in s.hist.accepted[k].Deps() {
        InFlightIsBusy(s, k);
      }
    }
  }

  /** A visit keeps the heaps clear exactly if it queues only a live task. */
  lemma VisitClear(s: Sys, t: Tid)
    requires HeapsClear(s) && SweepEnabled(s, t, VisitNext)
    ensures HeapsClear(DoSweep(s, t, VisitNext)) <==> LiveVisit(s, Sweeper(t, VisitNext))
  {
    var s' := DoSweep(s, t, VisitNext);
    var r := s.threads[t].todo[0];
    forall p, x | p in s'.sh.pqs && x in s'.sh.pqs[p]
      ensures (p in s.sh.pqs && x in s.sh.pqs[p]) || (x == r && Queues(s, Sweeper(t, VisitNext)) && DepsDone(s.live, r))
    {}
    if Queues(s, Sweeper(t, VisitNext)) {
      var p := PoolFor(s.sh, r).value;
      assert s'.live == s.live && p in s'.sh.pqs && r in s'.sh.pqs[p];
      if HeapsClear(s') { assert Clear(s'.live, r); }
    } else {
      assert s'.live == s.live && s'.sh == s.sh;
    }
  }

  lemma SweepStays(s: Sys, t: Tid, e: SweepEvent)
    requires SweepEnabled(s, t, e) && !e.Accept?
    ensures DoSweep(s, t, e).live == s.live && DoSweep(s, t, e).hist == s.hist
    ensures !e.VisitNext? ==> DoSweep(s, t, e).sh.pqs == s.sh.pqs
    ensures forall u :: u in DoSweep(s, t, e).threads && Carried(DoSweep(s, t, e).threads[u]).Some? ==>
              u in s.threads && Carried(s.threads[u]) == Carried(DoSweep(s, t, e).threads[u])
  {}

  lemma SweepClear(s: Sys, t: Tid, e: SweepEvent)
    requires Flight(s) && SweepEnabled(s, t, e) && NoReuse(s, Sweeper(t, e))
    ensures FlightClear(DoSweep(s, t, e)) <==> KeepsClear(s, Sweeper(t, e))
  {
    if e.Accept? {
      AcceptClear(s, t);
    } else {
      SweepStays(s, t, e);
      if e.VisitNext? { VisitClear(s, t); }
    }
  }

  /** Whatever a dispatcher saves was live: no id appears or disappears. */
  lemma DispatchKeys(s: Sys, t: Tid, e: DispatchEvent)
    requires ThreadsClear(s) && ThreadsKnown(s) && DispatchEnabled(s, t, e)
    ensures DoDispatch(s, t, e).live.Keys == s.live.Keys
    ensures e.Defer? || DoDispatch(s, t, e).live == s.live
  {
    DispatchFrame(s, t, e);
    if e.Defer? {
      assert Carried(s.threads[t]).Some?;
      assert LocalKnown(s.hist.accepted, s.threads[t]);
    }
  }

  lemma DispatchClear(s: Sys, t: Tid, e: DispatchEvent)
    requires Flight(s) && DispatchEnabled(s, t, e)
    ensures HeapsClear(DoDispatch(s, t, e)) && ThreadsClear(DoDispatch(s, t, e))
  {
    DispatchKeys(s, t, e);
    ClearSameKeys(s.live, DoDispatch(s, t, e).live);
    DispatchHeapsClear(s, t, e);
    DispatchThreadsClear(s, t, e);
  }

  lemma DispatchHeapsClear(s: Sys, t: Tid, e: DispatchEvent)
    requires HeapsClear(s) && DispatchEnabled(s, t, e)
    requires forall r: Record :: Clear(DoDispatch(s, t, e).live, r) == Clear(s.live, r)
    ensures HeapsClear(DoDispatch(s, t, e))
  {
    var s' := DoDispatch(s, t, e);
    forall p, x | p in s'.sh.pqs && x in s'.sh.pqs[p] ensures p in s.sh.pqs && x in s.sh.pqs[p] {}
  }

  /** Where a copy held after a dispatcher's step comes from. */
  lemma DispatchCarries(s: Sys, t: Tid, e: DispatchEvent, u: Tid)
    requires DispatchEnabled(s, t, e)
    requires u in DoDispatch(s, t, e).threads && Carried(DoDispatch(s, t, e).threads[u]).Some?
    ensures var r' := Carried(DoDispatch(s, t, e).threads[u]).value;
            if e.PopTask? && u == t then r' == e.task
            else
              var r := Carried(s.threads[if u in s.threads then u else t]);
              r.Some? && r'.id == r.value.id && r'.Deps() == r.value.Deps()
  {}

  lemma DispatchThreadsClear(s: Sys, t: Tid, e: DispatchEvent)
    requires HeapsClear(s) && ThreadsClear(s) && DispatchEnabled(s, t, e)
    requires forall r: Record :: Clear(DoDispatch(s, t, e).live, r) == Clear(s.live, r)
    ensures ThreadsClear(DoDispatch(s, t, e))
  {
    var s' := DoDispatch(s, t, e);
    forall u | u in s'.threads && Carried(s'.threads[u]).Some? ensures Clear(s.live, Carried(s'.threads[u]).value) {
      DispatchCarries(s, t, e, u);
      var r' := Carried(s'.threads[u]).value;
      if e.PopTask? && u == t {
        assert Clear(s.live, r');
      } else {
        var r := Carried(s.threads[if u in s.threads then u else t]).value;
        assert Clear(s.live, r) && r'.id == r.id && r'.Deps() == r.Deps();
      }
    }
  }

  // ---- execution: three events change the store

  lemma ExecKeys(s: Sys, t: Tid, e: ExecEvent)
    requires Flight(s) && ExecEnabled(s, t, e)
    ensures var s' := DoExec(s, t, e);
            var x := s.threads[t].exec;
            && (!e.BlockChild? && !e.DeleteWrite? ==> s'.live.Keys == s.live.Keys)
            && (e.BlockChild? ==> s'.live == s.live - {x.kids[0].id})
            && (e.DeleteWrite? ==> x.copy.id == x.task.id && s'.live == s.live - {x.task.id})
  {
    assert Justified(s.hist, s.threads[t].exec);
    assert LocalKnown(s.hist.accepted, s.threads[t]);
    if e.Resave? {
      assert Carried(s.threads[t]).Some?;
      ResaveKeys(s, s.threads[t].exec.task);
    } else {
      ExecLive(s, t, e);
    }
  }

  lemma ResaveKeys(s: Sys, r: Record)
    requires r.id in s.live && r.deletedAt.None?
    ensures Save(s, r).live.Keys == s.live.Keys
  {}

  /** A child that is being blocked is nowhere in flight: its parent is still live. */
  lemma KidNotInFlight(s: Sys, t: Tid, r: Record)
    requires Flight(s) && ExecEnabled(s, t, BlockChild(0))
    requires Known(s.hist.accepted, r) && Clear(s.live, r)
    ensures r.id != s.threads[t].exec.kids[0].id
    ensures Clear(s.live - {s.threads[t].exec.kids[0].id}, r)
  {
    var l := s.threads[t];
    var kid := l.exec.kids[0];
    assert LocalKnown(s.hist.accepted, l) && Known(s.hist.accepted, ReadBy(l)[0]);
    assert Justified(s.hist, l.exec);
    assert Carried(l).Some? && l.exec.task.id in s.live;
    var i :| 0 <= i < |kid.Deps()| && kid.Deps()[i] == l.exec.task.id;
    assert kid.Deps()[i] in s.live;
    assert r.id == kid.id ==> r.Deps() == kid.Deps();
  }

  lemma HeapRecord(s: Sys, p: Pool, r: Record)
    requires Flight(s) && p in s.sh.pqs && r in s.sh.pqs[p]
    ensures Known(s.hist.accepted, r) && Clear(s.live, r)
  {}

  lemma CarriedRecord(s: Sys, u: Tid)
    requires Flight(s) && u in s.threads && Carried(s.threads[u]).Some?
    ensures Known(s.hist.accepted, Carried(s.threads[u]).value) && Clear(s.live, Carried(s.threads[u]).value)
  {
    assert LocalKnown(s.hist.accepted, s.threads[u]);
    assert WorkOn(s.threads[u]) == Carried(s.threads[u]);
  }

  lemma BlockClear(s: Sys, t: Tid, now: Time)
    requires Flight(s) && ExecEnabled(s, t, BlockChild(now))
    ensures HeapsClear(DoExec(s, t, BlockChild(now))) && ThreadsClear(DoExec(s, t, BlockChild(now)))
  {
    var s' := DoExec(s, t, BlockChild(now));
    ExecKeys(s, t, BlockChild(now));
    ExecOthersFrame(s, t, BlockChild(now));
    forall p, r | p in s'.sh.pqs && r in s'.sh.pqs[p] ensures Clear(s'.live, r) {
      HeapRecord(s, p, r);
      KidNotInFlight(s, t, r);
    }
    BlockThreadsClear(s, t, now);
  }

  lemma BlockThreadsClear(s: Sys, t: Tid, now: Time)
    requires Flight(s) && ExecEnabled(s, t, BlockChild(now))
    ensures ThreadsClear(DoExec(s, t, BlockChild(now)))
  {
    var s' := DoExec(s, t, BlockChild(now));
    ExecKeys(s, t, BlockChild(now));
    ExecOthersFrame(s, t, BlockChild(now));
    forall u | u in s'.threads && Carried(s'.threads[u]).Some? ensures Clear(s'.live, Carried(s'.threads[u]).value) {
      assert Carried(s'.threads[u]) == Carried(s.threads[u]);
      CarriedRecord(s, u);
      KidNotInFlight(s, t, Carried(s.threads[u]).value);
    }
  }

  lemma DeleteClear(s: Sys, t: Tid, now: Time)
    requires Flight(s) && ExecEnabled(s, t, DeleteWrite(now))
    ensures HeapsClear(DoExec(s, t, DeleteWrite(now))) && ThreadsClear(DoExec(s, t, DeleteWrite(now)))
  {
    var s' := DoExec(s, t, DeleteWrite(now));
    ExecKeys(s, t, DeleteWrite(now));
    ExecOthersFrame(s, t, DeleteWrite(now));
    assert Guards(s, t, s.threads[t].exec.task.id);
    forall p, r | p in s'.sh.pqs && r in s'.sh.pqs[p] ensures Clear(s'.live, r) {
      HeapRecord(s, p, r);
      assert Copy(s, InHeap(p), r);
    }
    DeleteThreadsClear(s, t, now);
  }

  lemma DeleteThreadsClear(s: Sys, t: Tid, now: Time)
    requires Flight(s) && ExecEnabled(s, t, DeleteWrite(now))
    ensures ThreadsClear(DoExec(s, t, DeleteWrite(now)))
  {
    var s' := DoExec(s, t, DeleteWrite(now));
    ExecKeys(s, t, DeleteWrite(now));
    ExecOthersFrame(s, t, DeleteWrite(now));
    assert Guards(s, t, s.threads[t].exec.task.id);
    forall u | u in s'.threads && Carried(s'.threads[u]).Some? ensures Clear(s'.live, Carried(s'.threads[u]).value) {
      assert u != t && s'.threads[u] == s.threads[u];
      CarriedRecord(s, u);
      if Held(s.threads[u]).Some? {
        assert Copy(s, InThread(u), Held(s.threads[u]).value);
      } else {
        OthersDiffer(s, t);
      }
    }
  }

  lemma ExecCarries(s: Sys, t: Tid, e: ExecEvent)
    requires ExecEnabled(s, t, e)
    requires t in DoExec(s, t, e).threads && Carried(DoExec(s, t, e).threads[t]).Some?
    ensures var r, r' := Carried(s.threads[t]), Carried(DoExec(s, t, e).threads[t]).value;
            r.Some? && r'.id == r.value.id && r'.Deps() == r.value.Deps()
  {}

  lemma ExecClear(s: Sys, t: Tid, e: ExecEvent)
    requires Flight(s) && ExecEnabled(s, t, e)
    ensures HeapsClear(DoExec(s, t, e)) && ThreadsClear(DoExec(s, t, e))
  {
    if e.BlockChild? {
      BlockClear(s, t, e.now);
    } else if e.DeleteWrite? {
      DeleteClear(s, t, e.now);
    } else {
      var s' := DoExec(s, t, e);
      ExecKeys(s, t, e);
      ExecFrame(s, t, e);
      ClearSameKeys(s.live, s'.live);
      forall u | u in s'.threads && Carried(s'.threads[u]).Some? ensures Clear(s.live, Carried(s'.threads[u]).value) {
        if u == t {
          ExecCarries(s, t, e);
          CarriedRecord(s, t);
        } else {
          CarriedRecord(s, u);
        }
      }
    }
  }

  // --------------------------------------------------------------- children

  /** Thread states that the coverage says nothing about stay silent; the others have a
      live parent, so no dependent of it can be saved. */
  lemma CoverFrame(s: Sys, s': Sys, x: ExecState)
    requires !x.Unguarding? && !x.Releasing? && CoversChildren(s, x)
    requires forall k :: DependsOn(s'.live, k, x.task.id) ==> DependsOn(s.live, k, x.task.id)
    requires FailedForGood(s'.hist, x.task.id) ==> FailedForGood(s.hist, x.task.id)
    ensures CoversChildren(s', x)
  {}

  /** An accept keeps the children of every failing task covered exactly if it accepts none. */
  lemma AcceptCovered(s: Sys, t: Tid)
    requires Flight(s) && ChildrenCovered(s) && SweepEnabled(s, t, Accept) && NoReuse(s, Sweeper(t, Accept))
    ensures ChildrenCovered(DoSweep(s, t, Accept)) <==> NoLateDependent(s, Sweeper(t, Accept))
  {
    var s' := DoSweep(s, t, Accept);
    SweepFrame(s, t, Accept);
    forall u | u in s.threads && s.threads[u].Executing?
      ensures CoversChildren(s', s.threads[u].exec)
         <==> (Failing(s.hist, s.threads[u].exec) ==> s.threads[u].exec.task.id !in s.threads[t].task.Deps())
    {
      AcceptCoversOne(s, t, u);
    }
  }

  lemma AcceptCoversOne(s: Sys, t: Tid, u: Tid)
    requires Flight(s) && ChildrenCovered(s) && SweepEnabled(s, t, Accept) && NoReuse(s, Sweeper(t, Accept))
    requires u in s.threads && s.threads[u].Executing?
    ensures CoversChildren(DoSweep(s, t, Accept), s.threads[u].exec)
       <==> (Failing(s.hist, s.threads[u].exec) ==> s.threads[u].exec.task.id !in s.threads[t].task.Deps())
  {
    var s' := DoSweep(s, t, Accept);
    var task, x := s.threads[t].task, s.threads[u].exec;
    assert CoversChildren(s, x);
    if Failing(s.hist, x) {
      forall k ensures DependsOn(s'.live, k, x.task.id) <==> DependsOn(s.live, k, x.task.id) || (k == task.id && x.task.id in task.Deps()) {}
      if x.task.id in task.Deps() {
        NotAKid(s, u, task.id);
        assert DependsOn(s'.live, task.id, x.task.id);
      } else {
        CoverFrame(s, s', x);
      }
    }
  }

  /** An id that was never accepted is not among the children a scan found. */
  lemma NotAKid(s: Sys, u: Tid, id: Id)
    requires ThreadsKnown(s) && u in s.threads && id !in s.hist.accepted
    ensures s.threads[u].Executing? && s.threads[u].exec.Blocking? ==>
              forall i :: 0 <= i < |s.threads[u].exec.kids| ==> s.threads[u].exec.kids[i].id != id
  {
    var l := s.threads[u];
    assert LocalKnown(s.hist.accepted, l);
    if l.Executing? && l.exec.Blocking? {
      forall i | 0 <= i < |l.exec.kids| ensures l.exec.kids[i].id != id {
        assert ReadBy(l)[i] == l.exec.kids[i];
      }
    }
  }

  /** Saving a version of a task in flight adds no dependent of a live task. */
  lemma SaveAddsNoDependent(s: Sys, r: Record, parent: Id)
    requires Clear(s.live, r) && parent in s.live
    ensures forall k :: DependsOn(Save(s, r).live, k, parent) ==> DependsOn(s.live, k, parent)
  {}

  lemma DispatchCovered(s: Sys, t: Tid, e: DispatchEvent)
    requires Flight(s) && ChildrenCovered(s) && DispatchEnabled(s, t, e)
    ensures ChildrenCovered(DoDispatch(s, t, e))
  {
    var s' := DoDispatch(s, t, e);
    DispatchFrame(s, t, e);
    DispatchKeys(s, t, e);
    DispatchExecutions(s, t, e);
    assert ChildrenCovered(s);
    forall u | u in s'.threads && s'.threads[u].Executing? ensures CoversChildren(s', s'.threads[u].exec) {
      if s'.threads[u].exec.Starting? {
      } else if e.Defer? {
        DeferCovered(s, t, e.now, u);
      } else {
        SameStoreCovers(s, s', s.threads[u].exec);
      }
    }
  }

  lemma SameStoreCovers(s: Sys, s': Sys, x: ExecState)
    requires CoversChildren(s, x) && s'.live == s.live && s'.hist == s.hist
    ensures CoversChildren(s', x)
  {}

  lemma DeferCovered(s: Sys, t: Tid, now: Time, u: Tid)
    requires Flight(s) && ChildrenCovered(s) && DispatchEnabled(s, t, Defer(now)) && u in s.threads && s.threads[u].Executing?
    ensures CoversChildren(DoDispatch(s, t, Defer(now)), s.threads[u].exec)
  {
    var x := s.threads[u].exec;
    assert CoversChildren(s, x);
    if x.Blocking? || x.Marking? || x.Deleting? || x.Burying? {
      CarriedRecord(s, u);
      CarriedRecord(s, t);
      SaveAddsNoDependent(s, Deferred(s.threads[t].disp.task, now), x.task.id);
      CoverFrame(s, DoDispatch(s, t, Defer(now)), x);
    }
  }

  lemma DispatchExecutions(s: Sys, t: Tid, e: DispatchEvent)
    requires DispatchEnabled(s, t, e)
    ensures forall u :: u in DoDispatch(s, t, e).threads && DoDispatch(s, t, e).threads[u].Executing? ==>
              (u in s.threads && s.threads[u] == DoDispatch(s, t, e).threads[u]) || DoDispatch(s, t, e).threads[u].exec.Starting?
  {}

  lemma ExecOthersCovered(s: Sys, t: Tid, e: ExecEvent, u: Tid)
    requires Flight(s) && ChildrenCovered(s) && ExecEnabled(s, t, e) && u != t && u in s.threads && s.threads[u].Executing?
    ensures CoversChildren(DoExec(s, t, e), s.threads[u].exec)
  {
    var x := s.threads[u].exec;
    assert CoversChildren(s, x);
    if PastScan(x) {
      ExecAddsNoDependent(s, t, e, u);
      ExecVerdictsOthers(s, t, e, u);
      CoverFrame(s, DoExec(s, t, e), x);
    }
  }

  /** No step of another execution adds a dependent of a task that is past its scan. */
  lemma ExecAddsNoDependent(s: Sys, t: Tid, e: ExecEvent, u: Tid)
    requires Flight(s) && ChildrenCovered(s) && ExecEnabled(s, t, e) && u in s.threads && s.threads[u].Executing? && PastScan(s.threads[u].exec)
    ensures forall k :: DependsOn(DoExec(s, t, e).live, k, s.threads[u].exec.task.id) ==> DependsOn(s.live, k, s.threads[u].exec.task.id)
  {
    CarriedRecord(s, u);
    ExecLiveShape(s, t, e);
    if e.Resave? {
      CarriedRecord(s, t);
      SaveAddsNoDependent(s, s.threads[t].exec.task, s.threads[u].exec.task.id);
    }
  }

  lemma ExecVerdictsOthers(s: Sys, t: Tid, e: ExecEvent, u: Tid)
    requires Flight(s) && ChildrenCovered(s) && ExecEnabled(s, t, e) && u != t && u in s.threads && s.threads[u].Executing? && PastScan(s.threads[u].exec)
    ensures FailedForGood(DoExec(s, t, e).hist, s.threads[u].exec.task.id) ==> FailedForGood(s.hist, s.threads[u].exec.task.id)
  {
    ExecVerdictsMine(s, t, e);
    assert Guards(s, u, s.threads[u].exec.task.id);
    if Guarded(s.threads[t]).Some? { OthersDiffer(s, t); }
  }

  lemma ExecLiveShape(s: Sys, t: Tid, e: ExecEvent)
    requires Flight(s) && ChildrenCovered(s) && ExecEnabled(s, t, e)
    ensures var s' := DoExec(s, t, e);
            && (e.Resave? ==> s'.live == Save(s, s.threads[t].exec.task).live)
            && (!e.Resave? ==> forall k :: k in s'.live ==> k in s.live && s'.live[k] == s.live[k])
  {}

  lemma ExecVerdictsMine(s: Sys, t: Tid, e: ExecEvent)
    requires ExecEnabled(s, t, e)
    ensures forall id :: Guarded(s.threads[t]) != Some(id) ==>
              (FailedForGood(DoExec(s, t, e).hist, id) <==> FailedForGood(s.hist, id))
    ensures !e.ReturnErr? && !e.ReturnOk? ==> forall id :: FailedForGood(DoExec(s, t, e).hist, id) <==> FailedForGood(s.hist, id)
  {
    if e.Invoke? {} else if e.ReturnOk? {} else if e.ReturnErr? {} else if e.BlockChild? {} else if e.DeadLetter? {} else {
      assert DoExec(s, t, e).hist == s.hist;
    }
  }

  lemma ExecMineCovered(s: Sys, t: Tid, e: ExecEvent)
    requires Flight(s) && ChildrenCovered(s) && ExecEnabled(s, t, e)
    requires t in DoExec(s, t, e).threads && DoExec(s, t, e).threads[t].Executing?
    ensures CoversChildren(DoExec(s, t, e), DoExec(s, t, e).threads[t].exec)
  {
    if e.ScanChildren? {
      ScanMineCovered(s, t, e.kids);
    } else if e.BlockChild? {
      BlockMineCovered(s, t, e.now);
    } else if e.ReturnOk? || e.DeadLetter? || e.Mark? || e.DeleteRead? {
      FinishMineCovered(s, t, e);
    }
  }

  /** The scan finds every dependent. */
  lemma ScanMineCovered(s: Sys, t: Tid, kids: seq<Record>)
    requires ExecEnabled(s, t, ScanChildren(kids)) && KeyedAndLive(s.live)
    ensures CoversChildren(DoExec(s, t, ScanChildren(kids)), DoExec(s, t, ScanChildren(kids)).threads[t].exec)
  {
    forall k | DependsOn(s.live, k, s.threads[t].exec.task.id) ensures exists i :: 0 <= i < |kids| && kids[i].id == k {
      var i :| 0 <= i < |kids| && kids[i] == s.live[k];
      assert kids[i].id == k;
    }
  }

  /** A task that failed for good has no dependents left when its last child is blocked, and
      gets none until it is deleted; a task that succeeded needs none blocked. */
  lemma FinishMineCovered(s: Sys, t: Tid, e: ExecEvent)
    requires Flight(s) && ChildrenCovered(s) && ExecEnabled(s, t, e) && (e.ReturnOk? || e.DeadLetter? || e.Mark? || e.DeleteRead?)
    ensures CoversChildren(DoExec(s, t, e), DoExec(s, t, e).threads[t].exec)
  {
    assert CoversChildren(s, s.threads[t].exec);
    if e.ReturnOk? {} else if e.DeadLetter? {} else if e.Mark? {} else {}
  }

  lemma BlockMineCovered(s: Sys, t: Tid, now: Time)
    requires Flight(s) && ChildrenCovered(s) && ExecEnabled(s, t, BlockChild(now))
    ensures CoversChildren(DoExec(s, t, BlockChild(now)), DoExec(s, t, BlockChild(now)).threads[t].exec)
  {
    var s' := DoExec(s, t, BlockChild(now));
    var x := s.threads[t].exec;
    assert CoversChildren(s, x);
    ExecKeys(s, t, BlockChild(now));
    forall k | DependsOn(s'.live, k, x.task.id) ensures exists i :: 0 <= i < |x.kids[1..]| && x.kids[1..][i].id == k {
      assert DependsOn(s.live, k, x.task.id);
      var i :| 0 <= i < |x.kids| && x.kids[i].id == k;
      assert i > 0 && x.kids[1..][i - 1].id == k;
    }
  }

  lemma ExecCovered(s: Sys, t: Tid, e: ExecEvent)
    requires Flight(s) && ChildrenCovered(s) && ExecEnabled(s, t, e)
    ensures ChildrenCovered(DoExec(s, t, e))
  {
    var s' := DoExec(s, t, e);
    ExecFrame(s, t, e);
    forall u | u in s'.threads && s'.threads[u].Executing? ensures CoversChildren(s', s'.threads[u].exec) {
      if u == t { ExecMineCovered(s, t, e); } else { ExecOthersCovered(s, t, e, u); }
    }
  }

  // ---------------------------------------------------------------- waiting

  lemma AcceptWaiting(s: Sys, t: Tid)
    requires Ordered(s) && SweepEnabled(s, t, Accept) && Orderly(s, Sweeper(t, Accept))
    ensures Waiting(DoSweep(s, t, Accept))
  {
    var s' := DoSweep(s, t, Accept);
    var id := s.threads[t].task.id;
    forall k | k in s'.hist.accepted && HasLiveDep(s', k)
      ensures (k in s'.live || k in s'.hist.blocked) && k !in s'.hist.starts
    {
      if k != id {
        var i :| 0 <= i < |s'.hist.accepted[k].Deps()| && s'.hist.accepted[k].Deps()[i] in s'.live;
        if s.hist.accepted[k].Deps()[i] != id { assert HasLiveDep(s, k); }
      }
    }
  }

  /** No id becomes live, and only `gone` stops being so. */
  lemma FewerLiveWaiting(s: Sys, s': Sys)
    requires Waiting(s)
    requires s'.hist.accepted == s.hist.accepted && s'.hist.starts == s.hist.starts && s'.hist.blocked == s.hist.blocked
    requires s'.live.Keys == s.live.Keys
    ensures Waiting(s')
  {
    forall k | k in s'.hist.accepted && HasLiveDep(s', k) ensures HasLiveDep(s, k) {
      var i :| 0 <= i < |s'.hist.accepted[k].Deps()| && s'.hist.accepted[k].Deps()[i] in s'.live;
      assert s.hist.accepted[k].Deps()[i] in s.live;
    }
    forall k ensures k in s'.live <==> k in s.live { assert k in s'.live.Keys <==> k in s.live.Keys; }
  }

  lemma ClearHasNoLiveDep(s: Sys, r: Record)
    requires Known(s.hist.accepted, r) && Clear(s.live, r)
    ensures !HasLiveDep(s, r.id)
  {}

  lemma BlockWaiting(s: Sys, t: Tid, now: Time)
    requires Ordered(s) && ExecEnabled(s, t, BlockChild(now))
    ensures Waiting(DoExec(s, t, BlockChild(now)))
  {
    var s' := DoExec(s, t, BlockChild(now));
    var l := s.threads[t];
    var kid := l.exec.kids[0];
    ExecKeys(s, t, BlockChild(now));
    CarriedRecord(s, t);
    assert LocalKnown(s.hist.accepted, l) && Known(s.hist.accepted, ReadBy(l)[0]);
    assert Justified(s.hist, l.exec);
    assert HasLiveDep(s, kid.id) by {
      var i :| 0 <= i < |kid.Deps()| && kid.Deps()[i] == l.exec.task.id;
      assert s.hist.accepted[kid.id].Deps()[i] in s.live;
    }
    forall k | k in s'.hist.accepted && HasLiveDep(s', k) ensures HasLiveDep(s, k) {
      var i :| 0 <= i < |s'.hist.accepted[k].Deps()| && s'.hist.accepted[k].Deps()[i] in s'.live;
      assert s.hist.accepted[k].Deps()[i] in s.live;
    }
  }

  lemma DeleteWaiting(s: Sys, t: Tid, now: Time)
    requires Ordered(s) && ExecEnabled(s, t, DeleteWrite(now))
    ensures Waiting(DoExec(s, t, DeleteWrite(now)))
  {
    var s' := DoExec(s, t, DeleteWrite(now));
    ExecKeys(s, t, DeleteWrite(now));
    CarriedRecord(s, t);
    ClearHasNoLiveDep(s, s.threads[t].exec.task);
    forall k | k in s'.hist.accepted && HasLiveDep(s', k) ensures HasLiveDep(s, k) {
      var i :| 0 <= i < |s'.hist.accepted[k].Deps()| && s'.hist.accepted[k].Deps()[i] in s'.live;
      assert s.hist.accepted[k].Deps()[i] in s.live;
    }
  }

  lemma RunWaiting(s: Sys, t: Tid, e: ExecEvent)
    requires Ordered(s) && ExecEnabled(s, t, e) && (e.Invoke? || e.ReturnOk?)
    ensures Waiting(DoExec(s, t, e))
  {
    var s' := DoExec(s, t, e);
    var id := s.threads[t].exec.task.id;
    CarriedRecord(s, t);
    ClearHasNoLiveDep(s, s.threads[t].exec.task);
    assert forall k :: k in s'.hist.starts ==> k in s.hist.starts || k == id;
    forall k | k in s'.hist.accepted ensures HasLiveDep(s', k) == HasLiveDep(s, k) {}
  }

  lemma ExecQuietHistory(s: Sys, t: Tid, e: ExecEvent)
    requires ExecEnabled(s, t, e) && !e.Invoke? && !e.ReturnOk? && !e.BlockChild?
    ensures var h, h' := s.hist, DoExec(s, t, e).hist;
            h'.accepted == h.accepted && h'.starts == h.starts && h'.blocked == h.blocked
  {
    if e.ReturnErr? {} else if e.DeadLetter? {} else {
      assert DoExec(s, t, e).hist == s.hist;
    }
  }

  lemma ExecWaiting(s: Sys, t: Tid, e: ExecEvent)
    requires Ordered(s) && ExecEnabled(s, t, e)
    ensures Waiting(DoExec(s, t, e))
  {
    if e.BlockChild? { BlockWaiting(s, t, e.now); }
    else if e.DeleteWrite? { DeleteWaiting(s, t, e.now); }
    else if e.Invoke? || e.ReturnOk? { RunWaiting(s, t, e); }
    else {
      ExecKeys(s, t, e);
      ExecQuietHistory(s, t, e);
      FewerLiveWaiting(s, DoExec(s, t, e));
    }
  }

  // ------------------------------------------------------------------- steps

  lemma WorldClear(s: Sys, caps: map<Pool, nat>, e: WorldEvent)
    requires Flight(s) && WorldEnabled(s, e)
    ensures FlightClear(DoWorld(s, caps, e)) && DoWorld(s, caps, e).live.Keys == s.live.Keys
  {
    var s' := DoWorld(s, caps, e);
    WorldProvenance(s, caps, e);
    ClearSameKeys(s.live, s'.live);
  }

  /** Whatever the stamps, compaction and restart keep the live ids, and with ids not
      reused every record of an id has the same dependencies. */
  lemma WorldCovered(s: Sys, caps: map<Pool, nat>, e: WorldEvent)
    requires Flight(s) && ChildrenCovered(s) && WorldEnabled(s, e)
    ensures ChildrenCovered(DoWorld(s, caps, e))
  {
    var s' := DoWorld(s, caps, e);
    WorldProvenance(s, caps, e);
    JournalStep(s, caps, World(e));
    SameDependents(s, s');
    forall u | u in s'.threads && s'.threads[u].Executing? ensures CoversChildren(s', s'.threads[u].exec) {
      SameDependentsCover(s, s', s.threads[u].exec);
    }
  }

  lemma SameDependents(s: Sys, s': Sys)
    requires StoreKnown(s) && StoreKnown(s') && s'.hist == s.hist && s'.live.Keys == s.live.Keys
    requires KeyedAndLive(s.live) && KeyedAndLive(s'.live)
    ensures forall k, parent :: DependsOn(s'.live, k, parent) == DependsOn(s.live, k, parent)
  {
    forall k | k in s.live ensures k in s'.live && s'.live[k].Deps() == s.live[k].Deps() {
      assert k in s'.live.Keys;
      assert Known(s.hist.accepted, s.live[k]) && Known(s'.hist.accepted, s'.live[k]);
    }
    forall k | k in s'.live ensures k in s.live { assert k in s.live.Keys; }
  }

  lemma SameDependentsCover(s: Sys, s': Sys, x: ExecState)
    requires CoversChildren(s, x) && s'.hist == s.hist
    requires forall k, parent :: DependsOn(s'.live, k, parent) == DependsOn(s.live, k, parent)
    ensures CoversChildren(s', x)
  {}

  /** A step keeps everything in flight free of live dependencies exactly if it queues only
      live ids and accepts nothing that something in flight waits for. */
  lemma ClearStepIff(s: Sys, caps: map<Pool, nat>, e: Event)
    requires Flight(s) && Enabled(s, e) && NoReuse(s, e)
    ensures FlightClear(Do(s, caps, e)) <==> KeepsClear(s, e)
    ensures KeepsClear(s, e) ==> Flight(Do(s, caps, e))
  {
    ExclusionStep(s, caps, e);
    AccountedStep(s, caps, e);
    match e
    case Sweeper(t, x) => SweepClear(s, t, x);
    case Dispatcher(t, x) => DispatchClear(s, t, x);
    case Execution(t, x) => ExecClear(s, t, x);
    case World(x) => WorldClear(s, caps, x);
  }

  /** A step keeps the children of every failing task covered exactly if it accepts none. */
  lemma CoveredStepIff(s: Sys, caps: map<Pool, nat>, e: Event)
    requires Flight(s) && ChildrenCovered(s) && Enabled(s, e) && NoReuse(s, e)
    ensures ChildrenCovered(Do(s, caps, e)) <==> NoLateDependent(s, e)
  {
    match e
    case Sweeper(t, x) =>
      if x.Accept? { AcceptCovered(s, t); } else { SweepCovered(s, t, x); }
    case Dispatcher(t, x) => DispatchCovered(s, t, x);
    case Execution(t, x) => ExecCovered(s, t, x);
    case World(x) => WorldCovered(s, caps, x);
  }

  lemma SweepCovered(s: Sys, t: Tid, e: SweepEvent)
    requires ChildrenCovered(s) && SweepEnabled(s, t, e) && !e.Accept?
    ensures ChildrenCovered(DoSweep(s, t, e))
  {
    SweepStays(s, t, e);
    SweepFrame(s, t, e);
    var s' := DoSweep(s, t, e);
    forall u | u in s'.threads && s'.threads[u].Executing? ensures CoversChildren(s', s'.threads[u].exec) {
      SameStoreCovers(s, s', s.threads[u].exec);
    }
  }

  lemma WaitingStep(s: Sys, caps: map<Pool, nat>, e: Event)
    requires Ordered(s) && Enabled(s, e) && Orderly(s, e)
    ensures Waiting(Do(s, caps, e))
  {
    match e
    case Sweeper(t, x) =>
      if x.Accept? { AcceptWaiting(s, t); } else { SweepStays(s, t, x); FewerLiveWaiting(s, DoSweep(s, t, x)); }
    case Dispatcher(t, x) => DispatchFrame(s, t, x); DispatchKeys(s, t, x); FewerLiveWaiting(s, DoDispatch(s, t, x));
    case Execution(t, x) => ExecWaiting(s, t, x);
    case World(x) => WorldClear(s, caps, x); FewerLiveWaiting(s, DoWorld(s, caps, x));
  }

  lemma OrderedStep(s: Sys, caps: map<Pool, nat>, e: Event)
    requires Ordered(s) && Enabled(s, e) && Orderly(s, e)
    ensures Ordered(Do(s, caps, e)) && KeepsClear(s, e)
  {
    BeforeDependentsClear(s, e);
    ClearStepIff(s, caps, e);
    CoveredStepIff(s, caps, e);
    WaitingStep(s, caps, e);
  }

  // ------------------------------------------------------------- blocked tasks

  /** A blocked task is gone. */
  ghost predicate BlockedGone(s: Sys) {
    forall k :: k in s.hist.blocked ==> k in s.hist.accepted && k !in s.live
  }

  /** An accepted task is live, has finished one way or the other, or is blocked. */
  ghost predicate Explained(s: Sys) {
    forall k :: k in s.hist.accepted ==> k in s.live || k in s.hist.succeeded || k in s.hist.exhausted || k in s.hist.blocked
  }

  lemma ExecBlocked(s: Sys, t: Tid, e: ExecEvent)
    requires Flight(s) && BlockedGone(s) && Explained(s) && ExecEnabled(s, t, e)
    ensures BlockedGone(DoExec(s, t, e)) && Explained(DoExec(s, t, e))
  {
    ExecHistory(s, t, e);
    ExecKeys(s, t, e);
    ExecBlockedSet(s, t, e);
    if e.BlockChild? {
      assert LocalKnown(s.hist.accepted, s.threads[t]) && Known(s.hist.accepted, ReadBy(s.threads[t])[0]);
    } else if e.DeleteWrite? {
      assert Justified(s.hist, s.threads[t].exec);
    } else {
      SameKeysBlocked(s, DoExec(s, t, e));
    }
  }

  lemma ExecBlockedSet(s: Sys, t: Tid, e: ExecEvent)
    requires ExecEnabled(s, t, e)
    ensures DoExec(s, t, e).hist.blocked == s.hist.blocked + if e.BlockChild? then {s.threads[t].exec.kids[0].id} else {}
  {
    if e.Invoke? {} else if e.ReturnOk? {} else if e.ReturnErr? {} else if e.BlockChild? {} else if e.DeadLetter? {} else {
      assert DoExec(s, t, e).hist == s.hist;
    }
  }

  lemma SameKeysBlocked(s: Sys, s': Sys)
    requires BlockedGone(s) && Explained(s) && s'.live.Keys == s.live.Keys
    requires s'.hist.accepted == s.hist.accepted && s'.hist.blocked == s.hist.blocked
    requires s.hist.succeeded <= s'.hist.succeeded && s.hist.exhausted <= s'.hist.exhausted
    ensures BlockedGone(s') && Explained(s')
  {
    forall k ensures k in s'.live <==> k in s.live { assert k in s'.live.Keys <==> k in s.live.Keys; }
  }

  lemma BlockedStep(s: Sys, caps: map<Pool, nat>, e: Event)
    requires Flight(s) && BlockedGone(s) && Explained(s) && Enabled(s, e) && NoReuse(s, e)
    ensures BlockedGone(Do(s, caps, e)) && Explained(Do(s, caps, e))
  {
    match e
    case Sweeper(t, x) =>
      if !x.Accept? { SweepStays(s, t, x); }
    case Dispatcher(t, x) => DispatchFrame(s, t, x); DispatchKeys(s, t, x); SameKeysBlocked(s, DoDispatch(s, t, x));
    case Execution(t, x) => ExecBlocked(s, t, x);
    case World(x) => WorldClear(s, caps, x); SameKeysBlocked(s, DoWorld(s, caps, x));
  }

  lemma QueuedIsInFlight(s: Sys, k: Id)
    requires Flight(s) && k in s.sh.queued
    ensures InFlight(s, k)
  {
    var pl, r :| Copy(s, pl, r) && r.id == k;
    match pl {
      case InHeap(p) => HeapRecord(s, p, r);
      case InThread(t) => CarriedRecord(s, t);
    }
  }

  /** A task in flight is live, so a blocked one is not in flight, not queued, and no handler
      starts for it. */
  lemma BlockedIsIdle(s: Sys, k: Id)
    requires Flight(s) && BlockedGone(s) && k in s.hist.blocked
    ensures !InFlight(s, k) && k !in s.sh.queued
    ensures forall e :: !StartsHandler(s, e, k)
  {
    if InFlight(s, k) { InFlightIsBusy(s, k); }
    if k in s.sh.queued { QueuedIsInFlight(s, k); }
    forall e ensures !StartsHandler(s, e, k) {
      if StartsHandler(s, e, k) { CarriedRecord(s, e.t); }
    }
  }

  // ------------------------------------------------------------------- runs

  /** Main result: with ids not reused, nothing in flight waits for a live task throughout a
      run exactly if every sweep queues only live ids and nothing is accepted that something
      in flight waits for. */
  lemma ClearRunIff(states: seq<Sys>, caps: map<Pool, nat>, events: seq<Event>)
    requires IsRun(states, caps, events)
    requires forall i :: 0 <= i < |events| ==> NoReuse(states[i], events[i])
    ensures (forall i :: 0 <= i < |states| ==> FlightClear(states[i]))
       <==> (forall i :: 0 <= i < |events| ==> KeepsClear(states[i], events[i]))
  {
    ExclusionAlways(states, caps, events);
    AccountedAlways(states, caps, events);
    if forall i :: 0 <= i < |events| ==> KeepsClear(states[i], events[i]) {
      NothingInFlightAtFirst(states[0], caps);
      forall i | 0 <= i < |events| && FlightClear(states[i]) ensures FlightClear(states[i + 1]) {
        assert Exclusion(states[i]) && Accounted(states[i]) && KeepsClear(states[i], events[i]);
        ClearInRun(states, caps, events, i);
      }
      Induct(states, s => FlightClear(s));
    }
    if forall i :: 0 <= i < |states| ==> FlightClear(states[i]) {
      forall i | 0 <= i < |events| ensures KeepsClear(states[i], events[i]) {
        assert Exclusion(states[i]) && Accounted(states[i]) && FlightClear(states[i]) && FlightClear(states[i + 1]);
        ClearInRun(states, caps, events, i);
      }
    }
  }

  lemma ClearInRun(states: seq<Sys>, caps: map<Pool, nat>, events: seq<Event>, i: nat)
    requires IsRun(states, caps, events) && i < |events| && Flight(states[i]) && NoReuse(states[i], events[i])
    ensures FlightClear(states[i + 1]) <==> KeepsClear(states[i], events[i])
  {
    RunStep(states, caps, events, i);
    ClearStepIff(states[i], caps, events[i]);
  }

  lemma NothingInFlightAtFirst(s: Sys, caps: map<Pool, nat>)
    requires Init(s, caps)
    ensures FlightClear(s) && ChildrenCovered(s) && BlockedGone(s) && Explained(s)
  {
    assert forall p :: p in s.sh.pqs ==> s.sh.pqs[p] == multiset{};
  }

  /** The hypotheses of a run in which everything in flight stays clear. */
  ghost predicate ClearRun(states: seq<Sys>, caps: map<Pool, nat>, events: seq<Event>) {
    && IsRun(states, caps, events)
    && forall i :: 0 <= i < |events| ==> NoReuse(states[i], events[i]) && KeepsClear(states[i], events[i])
  }

  lemma FlightAlways(states: seq<Sys>, caps: map<Pool, nat>, events: seq<Event>)
    requires ClearRun(states, caps, events)
    ensures forall i :: 0 <= i < |states| ==> Flight(states[i]) && BlockedGone(states[i]) && Explained(states[i])
  {
    ExclusionAlways(states, caps, events);
    AccountedAlways(states, caps, events);
    ClearRunIff(states, caps, events);
    forall i | 0 <= i < |states| ensures Flight(states[i]) {
      assert Exclusion(states[i]) && Accounted(states[i]) && FlightClear(states[i]);
    }
    forall i | 0 <= i < |events| && BlockedGone(states[i]) && Explained(states[i])
      ensures BlockedGone(states[i + 1]) && Explained(states[i + 1])
    {
      assert Flight(states[i]);
      RunStep(states, caps, events, i);
      BlockedStep(states[i], caps, events[i]);
    }
    Induct(states, s => BlockedGone(s) && Explained(s));
  }

  /** Main result: in such a run no task waits in a heap, with a dispatcher or in an execution
      while something it depends on is live; a task blocked by a failed parent is gone for
      good, is never queued, and no handler starts for it. */
  lemma DependenciesFirst(states: seq<Sys>, caps: map<Pool, nat>, events: seq<Event>, i: nat)
    requires ClearRun(states, caps, events) && i < |states|
    ensures forall p, r :: p in states[i].sh.pqs && r in states[i].sh.pqs[p] ==> DepsDone(states[i].live, r)
    ensures forall t :: t in states[i].threads && Carried(states[i].threads[t]).Some? ==>
              DepsDone(states[i].live, Carried(states[i].threads[t]).value)
    ensures forall k :: k in states[i].hist.blocked ==>
              k !in states[i].live && k !in states[i].sh.queued && forall e :: !StartsHandler(states[i], e, k)
  {
    FlightAlways(states, caps, events);
    var s := states[i];
    assert Flight(s) && BlockedGone(s);
    forall p, r | p in s.sh.pqs && r in s.sh.pqs[p] ensures DepsDone(s.live, r) { HeapRecord(s, p, r); }
    forall t | t in s.threads && Carried(s.threads[t]).Some? ensures DepsDone(s.live, Carried(s.threads[t]).value) { CarriedRecord(s, t); }
    forall k | k in s.hist.blocked ensures k !in s.sh.queued && forall e :: !StartsHandler(s, e, k) { BlockedIsIdle(s, k); }
  }

  /** Main result: in such a run the children of every failing task stay covered throughout
      exactly if no dependent of one is accepted late. */
  lemma CoveredRunIff(states: seq<Sys>, caps: map<Pool, nat>, events: seq<Event>)
    requires ClearRun(states, caps, events)
    ensures (forall i :: 0 <= i < |states| ==> ChildrenCovered(states[i]))
       <==> (forall i :: 0 <= i < |events| ==> NoLateDependent(states[i], events[i]))
  {
    FlightAlways(states, caps, events);
    if forall i :: 0 <= i < |events| ==> NoLateDependent(states[i], events[i]) {
      NothingInFlightAtFirst(states[0], caps);
      forall i | 0 <= i < |events| && ChildrenCovered(states[i]) ensures ChildrenCovered(states[i + 1]) {
        CoveredInRun(states, caps, events, i);
        assert NoLateDependent(states[i], events[i]);
      }
      Induct(states, s => ChildrenCovered(s));
    }
    if forall i :: 0 <= i < |states| ==> ChildrenCovered(states[i]) {
      forall i | 0 <= i < |events| ensures NoLateDependent(states[i], events[i]) {
        assert ChildrenCovered(states[i]) && ChildrenCovered(states[i + 1]);
        CoveredInRun(states, caps, events, i);
      }
    }
  }

  lemma CoveredInRun(states: seq<Sys>, caps: map<Pool, nat>, events: seq<Event>, i: nat)
    requires IsRun(states, caps, events) && i < |events| && Flight(states[i]) && ChildrenCovered(states[i]) && NoReuse(states[i], events[i])
    ensures ChildrenCovered(states[i + 1]) <==> NoLateDependent(states[i], events[i])
  {
    RunStep(states, caps, events, i);
    CoveredStepIff(states[i], caps, events[i]);
  }

  /** Main result: in such a run without late dependents, when a task that failed for good
      leaves the store, no task that depends on it is live: each has been blocked, or had
      finished before. */
  lemma ChildrenFallFirst(states: seq<Sys>, caps: map<Pool, nat>, events: seq<Event>, i: nat, t: Tid, now: Time)
    requires ClearRun(states, caps, events) && i < |events|
    requires forall k :: 0 <= k < |events| ==> NoLateDependent(states[k], events[k])
    requires events[i] == Execution(t, DeleteWrite(now))
    requires ExecEnabled(states[i], t, DeleteWrite(now)) && FailedForGood(states[i].hist, states[i].threads[t].exec.task.id)
    ensures forall k :: k in states[i].hist.accepted && states[i].threads[t].exec.task.id in states[i].hist.accepted[k].Deps() ==>
              k !in states[i].live && (k in states[i].hist.blocked || k in states[i].hist.succeeded || k in states[i].hist.exhausted)
  {
    FlightAlways(states, caps, events);
    CoveredRunIff(states, caps, events);
    var s := states[i];
    assert Flight(s) && ChildrenCovered(s) && Explained(s);
    var id := s.threads[t].exec.task.id;
    assert CoversChildren(s, s.threads[t].exec);
    forall k | k in s.hist.accepted && id in s.hist.accepted[k].Deps() ensures k !in s.live {
      NoDependentIsGone(s, k, id);
    }
  }

  /** With ids not reused a task that is live depends on what it was accepted with. */
  lemma NoDependentIsGone(s: Sys, k: Id, parent: Id)
    requires StoreKnown(s) && KeyedAndLive(s.live) && k in s.hist.accepted && parent in s.hist.accepted[k].Deps()
    ensures k in s.live <==> DependsOn(s.live, k, parent)
  {
    if k in s.live { assert Known(s.hist.accepted, s.live[k]); }
  }

  // ------------------------------------------------------------- orderly runs

  lemma OrderedAlways(states: seq<Sys>, caps: map<Pool, nat>, events: seq<Event>)
    requires IsRun(states, caps, events)
    requires forall i :: 0 <= i < |events| ==> Orderly(states[i], events[i])
    ensures forall i :: 0 <= i < |states| ==> Ordered(states[i])
    ensures ClearRun(states, caps, events)
  {
    EmptyExcludes(states[0], caps);
    forall i | 0 <= i < |events| && Ordered(states[i]) ensures Ordered(states[i + 1]) {
      RunStep(states, caps, events, i);
      OrderedStep(states[i], caps, events[i]);
    }
    Induct(states, s => Ordered(s));
    forall i | 0 <= i < |events| ensures NoReuse(states[i], events[i]) && KeepsClear(states[i], events[i]) {
      assert Ordered(states[i]);
      BeforeDependentsClear(states[i], events[i]);
    }
  }

  /** If moreover every task is accepted before anything that waits for it has been queued, a
      blocked task has never started, and all that waited for a task that failed for good have
      been blocked when it leaves the store. */
  lemma BlockedNeverStarted(states: seq<Sys>, caps: map<Pool, nat>, events: seq<Event>, i: nat)
    requires IsRun(states, caps, events) && i < |states|
    requires forall k :: 0 <= k < |events| ==> Orderly(states[k], events[k])
    ensures ClearRun(states, caps, events)
    ensures forall k :: k in states[i].hist.blocked ==> Count(states[i].hist.starts, k) == 0
    ensures forall t, now, k :: ExecEnabled(states[i], t, DeleteWrite(now)) && FailedForGood(states[i].hist, states[i].threads[t].exec.task.id)
              && k in states[i].hist.accepted && states[i].threads[t].exec.task.id in states[i].hist.accepted[k].Deps()
              ==> k in states[i].hist.blocked
  {
    OrderedAlways(states, caps, events);
    var s := states[i];
    assert Ordered(s);
    forall t, now, k | ExecEnabled(s, t, DeleteWrite(now)) && FailedForGood(s.hist, s.threads[t].exec.task.id)
                       && k in s.hist.accepted && s.threads[t].exec.task.id in s.hist.accepted[k].Deps()
      ensures k in s.hist.blocked
    {
      WaiterIsBlocked(s, t, now, k);
    }
  }

  lemma WaiterIsBlocked(s: Sys, t: Tid, now: Time, k: Id)
    requires Ordered(s) && ExecEnabled(s, t, DeleteWrite(now)) && FailedForGood(s.hist, s.threads[t].exec.task.id)
    requires k in s.hist.accepted && s.threads[t].exec.task.id in s.hist.accepted[k].Deps()
    ensures k in s.hist.blocked
  {
    var id := s.threads[t].exec.task.id;
    CarriedRecord(s, t);
    assert CoversChildren(s, s.threads[t].exec);
    var j :| 0 <= j < |s.hist.accepted[k].Deps()| && s.hist.accepted[k].Deps()[j] == id;
    assert HasLiveDep(s, k);
    NoDependentIsGone(s, k, id);
  }
}
