/** Whether a task that waits in a heap has anyone to take it. */
module Service {
  import opened Wrappers
  import opened Tasks
  import opened Scheduler
  import opened Machine
  import opened Journal
  import opened Scripts
  import opened LateParents

  /** `l` will look into the heap of `p` before it ends: a dispatcher that has not found it
      empty, or a sweep that pushed to it and has not yet seen to its dispatchers. */
  predicate Tends(l: Local, p: Pool) {
    || (l.Dispatching? && l.pool == p && l.disp != Dropping(false) && !l.disp.Exiting?)
    || (l.Sweeping? && p in l.pools)
  }

  ghost predicate Tended(s: Sys, p: Pool) {
    exists t :: t in s.threads && Tends(s.threads[t], p)
  }

  ghost predicate Waits(s: Sys, p: Pool) {
    p in s.sh.pqs && s.sh.pqs[p] != multiset{}
  }

  /** Every heap that is not empty has somebody. */
  ghost predicate Served(s: Sys) {
    forall p :: Waits(s, p) ==> Tended(s, p)
  }

  /** A sweep starts no dispatcher, because two are counted, but both have found the heap
      empty and are on their way out, and no other sweep is about to look. */
  ghost predicate Strands(s: Sys, e: Event) {
    && e.Sweeper? && e.sweep.Spawn? && SweepEnabled(s, e.t, e.sweep)
    && Waits(s, e.sweep.pool) && Loops(s.sh, e.sweep.pool) >= 2
    && forall u :: u in s.threads && u != e.t ==> !Tends(s.threads[u], e.sweep.pool)
  }

  lemma SweepServed(s: Sys, t: Tid, e: SweepEvent)
    requires Served(s) && SweepEnabled(s, t, e) && !e.Spawn?
    ensures Served(DoSweep(s, t, e))
  {
    var s' := DoSweep(s, t, e);
    forall p | Waits(s', p) ensures Tended(s', p) {
      if e.VisitNext? && p in s'.threads[t].pools {
        assert Tends(s'.threads[t], p);
      } else {
        assert Waits(s, p);
        var u :| u in s.threads && Tends(s.threads[u], p);
        assert u in s'.threads && Tends(s'.threads[u], p);
      }
    }
  }

  lemma SpawnServedIff(s: Sys, t: Tid, pool: Pool, child: Tid)
    requires Served(s) && SweepEnabled(s, t, Spawn(pool, child))
    ensures Served(DoSweep(s, t, Spawn(pool, child))) <==> !Strands(s, Sweeper(t, Spawn(pool, child)))
  {
    var s' := DoSweep(s, t, Spawn(pool, child));
    forall p | p != pool && Waits(s', p) ensures Tended(s', p) {
      assert Waits(s, p);
      var u :| u in s.threads && Tends(s.threads[u], p);
      assert u in s'.threads && Tends(s'.threads[u], p);
    }
    if Strands(s, Sweeper(t, Spawn(pool, child))) {
      assert Waits(s', pool) && !Tended(s', pool);
    } else if Waits(s', pool) {
      if Loops(s.sh, pool) < 2 {
        assert Tends(s'.threads[child], pool);
      } else {
        var u :| u in s.threads && u != t && Tends(s.threads[u], pool);
        assert u in s'.threads && Tends(s'.threads[u], pool);
      }
    }
  }

  lemma DispatchServed(s: Sys, t: Tid, e: DispatchEvent)
    requires Served(s) && DispatchEnabled(s, t, e)
    ensures Served(DoDispatch(s, t, e))
  {
    var s' := DoDispatch(s, t, e);
    DispatchThreads(s, t, e);
    forall p | Waits(s', p) ensures Tended(s', p) {
      DispatchWaits(s, t, e, p);
      var u :| u in s.threads && Tends(s.threads[u], p);
      if u == t { DispatchTends(s, t, e, p); }
      assert u in s'.threads && Tends(s'.threads[u], p);
    }
  }

  lemma DispatchWaits(s: Sys, t: Tid, e: DispatchEvent, p: Pool)
    requires DispatchEnabled(s, t, e) && Waits(DoDispatch(s, t, e), p)
    ensures Waits(s, p)
  {
    var s' := DoDispatch(s, t, e);
    var r :| r in s'.sh.pqs[p];
    assert p in s.sh.pqs && r in s.sh.pqs[p];
  }

  /** A dispatcher stops tending its heap only when it finds it empty. */
  lemma DispatchTends(s: Sys, t: Tid, e: DispatchEvent, p: Pool)
    requires DispatchEnabled(s, t, e) && Tends(s.threads[t], p) && Waits(s, p)
    ensures t in DoDispatch(s, t, e).threads && Tends(DoDispatch(s, t, e).threads[t], p)
  {}

  lemma ExecServed(s: Sys, t: Tid, e: ExecEvent)
    requires Served(s) && ExecEnabled(s, t, e)
    ensures Served(DoExec(s, t, e))
  {
    ExecOthersFrame(s, t, e);
    var s' := DoExec(s, t, e);
    forall p | Waits(s', p) ensures Tended(s', p) {
      assert Waits(s, p);
      var u :| u in s.threads && Tends(s.threads[u], p);
      assert u in s'.threads && Tends(s'.threads[u], p);
    }
  }

  lemma WorldServed(s: Sys, caps: map<Pool, nat>, e: WorldEvent)
    requires Served(s) && WorldEnabled(s, e)
    ensures Served(DoWorld(s, caps, e))
  {
    var s' := DoWorld(s, caps, e);
    forall p | Waits(s', p) ensures Tended(s', p) {
      assert Waits(s, p);
      var u :| u in s.threads && Tends(s.threads[u], p);
      assert u in s'.threads && Tends(s'.threads[u], p);
    }
  }

  /** A step leaves every waiting task with somebody exactly if it strands none. */
  lemma ServedStepIff(s: Sys, caps: map<Pool, nat>, e: Event)
    requires Served(s) && Enabled(s, e)
    ensures Served(Do(s, caps, e)) <==> !Strands(s, e)
  {
    match e
    case Sweeper(t, x) => if x.Spawn? { SpawnServedIff(s, t, x.pool, x.child); } else { SweepServed(s, t, x); }
    case Dispatcher(t, x) => DispatchServed(s, t, x);
    case Execution(t, x) => ExecServed(s, t, x);
    case World(x) => WorldServed(s, caps, x);
  }

  /** Main result: in every run each heap that is not empty always has somebody to look into
      it if and only if no sweep relies on two dispatchers that are both on their way out. */
  lemma ServedRunIff(states: seq<Sys>, caps: map<Pool, nat>, events: seq<Event>)
    requires IsRun(states, caps, events)
    ensures (forall i :: 0 <= i < |states| ==> Served(states[i])) <==> (forall i :: 0 <= i < |events| ==> !Strands(states[i], events[i]))
  {
    assert Served(states[0]);
    if forall i :: 0 <= i < |states| ==> Served(states[i]) {
      forall i | 0 <= i < |events| ensures !Strands(states[i], events[i]) {
        ServedInRun(states, caps, events, i);
        assert Served(states[i + 1]);
      }
    } else if forall i :: 0 <= i < |events| ==> !Strands(states[i], events[i]) {
      forall i | 0 <= i < |events| && Served(states[i]) ensures Served(states[i + 1]) {
        ServedInRun(states, caps, events, i);
      }
      Induct(states, s => Served(s));
    }
  }

  lemma ServedInRun(states: seq<Sys>, caps: map<Pool, nat>, events: seq<Event>, i: nat)
    requires IsRun(states, caps, events) && i < |events| && Served(states[i])
    ensures Served(states[i + 1]) <==> !Strands(states[i], events[i])
  {
    RunStep(states, caps, events, i);
    ServedStepIff(states[i], caps, events[i]);
  }

  // ------------------------------------------------------- what a stranded heap needs

  /** The event brings a task to the heap of `p`, or empties every heap. */
  ghost predicate Wakes(s: Sys, caps: map<Pool, nat>, e: Event, p: Pool)
    requires Enabled(s, e)
  {
    || e == World(Crash)
    || (Queues(s, e) && PoolFor(s.sh, s.threads[e.t].todo[0]) == Some(p))
  }

  /** Nobody comes to a stranded heap until another task is pushed to it. */
  lemma StrandedStays(s: Sys, caps: map<Pool, nat>, e: Event, p: Pool)
    requires p in s.sh.pqs && !Tended(s, p) && Enabled(s, e) && !Wakes(s, caps, e, p)
    ensures var s' := Do(s, caps, e);
            p in s'.sh.pqs && s'.sh.pqs[p] == s.sh.pqs[p] && !Tended(s', p)
  {
    match e
    case Sweeper(t, x) => SweepStranded(s, t, x, p);
    case Dispatcher(t, x) => DispatchStranded(s, t, x, p);
    case Execution(t, x) => ExecOthersFrame(s, t, x);
    case World(x) =>
  }

  lemma SweepStranded(s: Sys, t: Tid, e: SweepEvent, p: Pool)
    requires p in s.sh.pqs && !Tended(s, p) && SweepEnabled(s, t, e)
    requires !(Queues(s, Sweeper(t, e)) && PoolFor(s.sh, s.threads[t].todo[0]) == Some(p))
    ensures var s' := DoSweep(s, t, e);
            p in s'.sh.pqs && s'.sh.pqs[p] == s.sh.pqs[p] && !Tended(s', p)
  {
    var s' := DoSweep(s, t, e);
    forall u | u in s'.threads ensures !Tends(s'.threads[u], p) {
      assert u in s.threads ==> !Tends(s.threads[u], p);
      if e.Spawn? { assert !Tends(s.threads[t], p); }
    }
  }

  lemma DispatchStranded(s: Sys, t: Tid, e: DispatchEvent, p: Pool)
    requires p in s.sh.pqs && !Tended(s, p) && DispatchEnabled(s, t, e)
    ensures var s' := DoDispatch(s, t, e);
            p in s'.sh.pqs && s'.sh.pqs[p] == s.sh.pqs[p] && !Tended(s', p)
  {
    var s' := DoDispatch(s, t, e);
    assert !Tends(s.threads[t], p);
    forall u | u in s'.threads ensures !Tends(s'.threads[u], p) {
      assert u in s.threads ==> !Tends(s.threads[u], p);
    }
  }

  // ------------------------------------------------------------------ one such run

  /** A task without webhook that is popped and has no handler: it stays live, unqueued. */
  lemma PassThrough(states: seq<Sys>, events: seq<Event>, rule: Rule, odd: nat, r: Record) returns (states': seq<Sys>, events': seq<Event>)
    requires Story(states, events, rule, odd) && AloneInHeap(Last(states), r) && r.webhookUrl.None?
    ensures Story(states', events', rule, odd) && |events'| == |events| + 8
    ensures var s := Last(states);
            Last(states') == s.(sh := s.sh.(queued := s.sh.queued - {r.id}, pqs := s.sh.pqs[P := multiset{}]))
  {
    var s := Last(states);
    states', events' := TakeIt(states, events, rule, odd, r);
    states', events' := BeginIt(states', events', rule, odd, r);
    states', events' := NoHandler(states', events', rule, odd, r);
    states', events' := LetGo(states', events', rule, odd, r.id);
    assert Last(states').threads == s.threads;
    SharedAfter(s.sh, r);
  }

  lemma NoHandler(states: seq<Sys>, events: seq<Event>, rule: Rule, odd: nat, r: Record) returns (states': seq<Sys>, events': seq<Event>)
    requires Story(states, events, rule, odd) && r.webhookUrl.None?
    requires var s := Last(states);
             3 in s.threads && s.threads[3] == Executing(P, Starting(r)) && r.id !in s.sh.completed
    ensures Story(states', events', rule, odd) && |events'| == |events| + 2
    ensures Last(states') == At(Last(states), 3, Executing(P, Unguarding(r.id)))
  {
    var s := Last(states);
    states', events' := Continue(states, events, rule, odd, Execution(3, CheckCompleted));
    assert Last(states') == At(s, 3, Executing(P, Cleared(r)));
    states', events' := Continue(states', events', rule, odd, Execution(3, Invoke(false)));
    assert Last(states').threads == s.threads[3 := Executing(P, Unguarding(r.id))];
  }

  /** Dispatcher `t` finds the heap empty, gives its permit back and is about to end. */
  lemma FindEmpty(states: seq<Sys>, events: seq<Event>, rule: Rule, odd: nat, t: Tid) returns (states': seq<Sys>, events': seq<Event>)
    requires Story(states, events, rule, odd)
    requires var s := Last(states);
             && t in s.threads && s.threads[t] == Dispatching(P, Waiting)
             && P in s.sh.permits && s.sh.permits[P] == 1 && P in s.sh.pqs && s.sh.pqs[P] == multiset{}
    ensures Story(states', events', rule, odd) && |events'| == |events| + 3
    ensures Last(states') == At(Last(states), t, Dispatching(P, Exiting))
  {
    var s := Last(states);
    states', events' := Continue(states, events, rule, odd, Dispatcher(t, Acquire));
    states', events' := Continue(states', events', rule, odd, Dispatcher(t, FoundEmpty));
    states', events' := Continue(states', events', rule, odd, Dispatcher(t, DropPermit));
    assert Last(states').sh.permits == s.sh.permits;
    assert Last(states').threads == s.threads[t := Dispatching(P, Exiting)];
  }

  /** The queue with `r` in its store and nothing else, in the heap or not. */
  function Stage(r: Record, waiting: bool, loops: nat, threads: map<Tid, Local>): Sys {
    var sh := Accepted(r).sh;
    Accepted(r).(threads := threads,
                 sh := sh.(queued := if waiting then {r.id} else {},
                           pqs := map[P := if waiting then multiset{r} else multiset{}],
                           counts := map[P := loops]))
  }

  /** A sweep queues `r` again and starts a dispatcher if fewer than two are counted. */
  lemma SweepAgain(states: seq<Sys>, events: seq<Event>, rule: Rule, odd: nat, r: Record, loops: nat, threads: map<Tid, Local>, child: Tid)
      returns (states': seq<Sys>, events': seq<Event>)
    requires AllowsBlameless(rule) && Due(r) && r.id !in r.Deps()
    requires Story(states, events, rule, odd) && Last(states) == Stage(r, false, loops, threads)
    requires 1 !in threads && child !in threads && child != 1
    ensures Story(states', events', rule, odd) && |events'| == |events| + 4
    ensures Last(states') == AfterSweep(r, loops, threads, child)
  {
    states', events' := ReadAgain(states, events, rule, odd, r, loops, threads);
    states', events' := SpawnIt(states', events', rule, odd, 1, child);
    SpawnedAgain(r, loops, threads, child);
  }

  function AfterSweep(r: Record, loops: nat, threads: map<Tid, Local>, child: Tid): Sys {
    if loops < 2 then Stage(r, true, loops + 1, threads[child := Dispatching(P, Waiting)]) else Stage(r, true, loops, threads)
  }

  lemma ReadAgain(states: seq<Sys>, events: seq<Event>, rule: Rule, odd: nat, r: Record, loops: nat, threads: map<Tid, Local>)
      returns (states': seq<Sys>, events': seq<Event>)
    requires AllowsBlameless(rule) && Due(r) && r.id !in r.Deps() && 1 !in threads
    requires Story(states, events, rule, odd) && Last(states) == Stage(r, false, loops, threads)
    ensures Story(states', events', rule, odd) && |events'| == |events| + 2
    ensures Last(states') == At(Stage(r, true, loops, threads), 1, Sweeping([], 0, {P}))
  {
    var sh := Last(states).sh;
    BlamelessVisit(At(Last(states), 1, Sweeping([r], 0, {})), 1);
    states', events' := ReadAndQueue(states, events, rule, odd, r);
    assert sh.queued + {r.id} == {r.id} && sh.pqs[P := multiset{r}] == map[P := multiset{r}];
  }

  lemma SpawnedAgain(r: Record, loops: nat, threads: map<Tid, Local>, child: Tid)
    requires 1 !in threads && child !in threads && child != 1
    ensures Gone(AfterSpawn(At(Stage(r, true, loops, threads), 1, Sweeping([], 0, {P})), child), 1) == AfterSweep(r, loops, threads, child)
  {
    var s' := Gone(AfterSpawn(At(Stage(r, true, loops, threads), 1, Sweeping([], 0, {P})), child), 1);
    assert s'.threads == AfterSweep(r, loops, threads, child).threads;
    assert s'.sh.counts == AfterSweep(r, loops, threads, child).sh.counts;
  }

  /** `r` is taken from the heap and let go again. */
  lemma PassAgain(states: seq<Sys>, events: seq<Event>, rule: Rule, odd: nat, r: Record, loops: nat, threads: map<Tid, Local>)
      returns (states': seq<Sys>, events': seq<Event>)
    requires Story(states, events, rule, odd) && Last(states) == Stage(r, true, loops, threads) && r.webhookUrl.None?
    requires 2 in threads && threads[2] == Dispatching(P, Waiting) && 3 !in threads
    ensures Story(states', events', rule, odd) && |events'| == |events| + 8
    ensures Last(states') == Stage(r, false, loops, threads)
  {
    states', events' := PassThrough(states, events, rule, odd, r);
    assert {r.id} - {r.id} == {};
    assert Last(states').sh.pqs == map[P := multiset{}];
  }

  /** Both dispatchers have found the heap empty and are about to end. */
  lemma BothLeaving(rule: Rule, odd: nat, r: Record) returns (states: seq<Sys>, events: seq<Event>)
    requires AllowsBlameless(rule) && Due(r) && r.retryCount == 0 && r.id !in r.Deps() && r.webhookUrl.None?
    ensures Story(states, events, rule, odd) && |events| == 33
    ensures Last(states) == Stage(r, false, 2, map[2 := Dispatching(P, Exiting), 4 := Dispatching(P, Exiting)])
  {
    var waiting := Dispatching(P, Waiting);
    states, events := ChildQueued(rule, odd, r);
    assert Last(states) == Stage(r, true, 1, map[2 := waiting]);
    states, events := PassAgain(states, events, rule, odd, r, 1, map[2 := waiting]);
    states, events := SweepAgain(states, events, rule, odd, r, 1, map[2 := waiting], 4);
    assert map[2 := waiting][4 := waiting] == map[2 := waiting, 4 := waiting];
    states, events := PassAgain(states, events, rule, odd, r, 2, map[2 := waiting, 4 := waiting]);
    states, events := FindEmpty(states, events, rule, odd, 2);
    states, events := FindEmpty(states, events, rule, odd, 4);
    assert Last(states).threads == map[2 := Dispatching(P, Exiting), 4 := Dispatching(P, Exiting)];
  }

  lemma LeaveIt(states: seq<Sys>, events: seq<Event>, rule: Rule, odd: nat, r: Record) returns (states': seq<Sys>, events': seq<Event>)
    requires Story(states, events, rule, odd)
    requires Last(states) == Stage(r, true, 2, map[2 := Dispatching(P, Exiting), 4 := Dispatching(P, Exiting)])
    ensures Story(states', events', rule, odd) && |events'| == |events| + 2
    ensures Last(states') == Stage(r, true, 0, map[])
  {
    states', events' := Continue(states, events, rule, odd, Dispatcher(2, Exit));
    assert Last(states') == Stage(r, true, 1, map[4 := Dispatching(P, Exiting)]) by {
      assert Last(states').threads == map[4 := Dispatching(P, Exiting)];
      assert Last(states').sh.counts == map[P := 1];
    }
    states', events' := Continue(states', events', rule, odd, Dispatcher(4, Exit));
    assert Last(states').threads == map[];
    assert Last(states').sh.counts == map[P := 0];
  }

  /** The condition can fail: for any task without dependencies on itself there is a run, with
      no stale sweep, crash or compaction, after which it waits in its heap, live and queued,
      with no thread left at all and no dispatcher counted. */
  lemma LostWakeup(r: Record) returns (states: seq<Sys>, events: seq<Event>)
    requires Due(r) && r.retryCount == 0 && r.id !in r.Deps() && r.webhookUrl.None?
    ensures IsRun(states, CAPS, events) && ChecksAtOnce(events)
    ensures forall i :: 0 <= i < |events| ==> Blameless(states[i], events[i])
    ensures exists i :: 0 <= i < |events| && Strands(states[i], events[i])
    ensures var s := states[|events|];
            && s.threads == map[] && s.sh.pqs == map[P := multiset{r}] && s.sh.queued == {r.id}
            && s.live == map[r.id := r] && Loops(s.sh, P) == 0
  {
    states, events := AllGone((s, e) => Blameless(s, e), 99, r);
    assert Waits(states[|events|], P) && !Tended(states[|events|], P);
    ServedRunIff(states, CAPS, events);
  }

  lemma AllGone(rule: Rule, odd: nat, r: Record) returns (states: seq<Sys>, events: seq<Event>)
    requires AllowsBlameless(rule) && Due(r) && r.retryCount == 0 && r.id !in r.Deps() && r.webhookUrl.None?
    ensures Story(states, events, rule, odd) && |events| == 39 && Last(states) == Stage(r, true, 0, map[])
  {
    states, events := BothLeaving(rule, odd, r);
    states, events := SweepAgain(states, events, rule, odd, r, 2, map[2 := Dispatching(P, Exiting), 4 := Dispatching(P, Exiting)], 5);
    states, events := LeaveIt(states, events, rule, odd, r);
  }
}
