/** Building one particular run of the machine, a few steps at a time: what an enqueue, a
    sweep, a dispatcher and an execution do when nothing gets in their way. */
module Scripts {
  import opened Wrappers
  import opened Tasks
  import opened LogReplay
  import opened DepGraph
  import opened Scheduler
  import opened Machine
  import opened Journal

  const P := DEFAULT_POOL
  const CAPS: map<Pool, nat> := map[P := 1]

  /** A queue with one pool of one permit, opened on an empty store. */
  const EMPTY := Sys(Opened(map[], CAPS), [], map[], map[], 0, History(map[], map[], map[], map[], {}, {}, {}, {}))

  /** A hypothesis on the events of a run. */
  type Rule = (Sys, Event) -> bool

  /** Steps that no hypothesis is about. */
  predicate Routine(e: Event) {
    || e.Dispatcher? || e.Execution?
    || (e.Sweeper? && (e.sweep.Check? || e.sweep.ReadStore? || e.sweep.Spawn? || e.sweep.SweepEnd?))
  }

  ghost predicate Lenient(rule: Rule) {
    forall s, e :: Routine(e) ==> rule(s, e)
  }

  function Last(states: seq<Sys>): Sys
    requires states != []
  {
    states[|states| - 1]
  }

  /** A run in which every accept comes right after its check, and every step keeps the rule,
      except perhaps step `odd`. */
  ghost predicate Story(states: seq<Sys>, events: seq<Event>, rule: Rule, odd: nat) {
    && IsRun(states, CAPS, events) && ChecksAtOnce(events) && Lenient(rule)
    && forall i :: 0 <= i < |events| && i != odd ==> rule(states[i], events[i])
  }

  lemma StartStory(rule: Rule, odd: nat) returns (states: seq<Sys>, events: seq<Event>)
    requires Lenient(rule)
    ensures Story(states, events, rule, odd) && events == [] && Last(states) == EMPTY
  {
    states, events := [EMPTY], [];
  }

  lemma Continue(states: seq<Sys>, events: seq<Event>, rule: Rule, odd: nat, e: Event) returns (states': seq<Sys>, events': seq<Event>)
    requires Story(states, events, rule, odd) && Enabled(Last(states), e)
    requires |events| == odd || Routine(e) || rule(Last(states), e)
    requires e.Sweeper? && e.sweep.Accept? ==> events != [] && events[|events| - 1] == Sweeper(e.t, Check)
    ensures Story(states', events', rule, odd)
    ensures events' == events + [e] && states' == states + [Last(states')]
    ensures Last(states') == Do(Last(states), CAPS, e)
  {
    states', events' := states + [Do(Last(states), CAPS, e)], events + [e];
    forall i | 0 <= i < |events'|
      ensures Enabled(states'[i], events'[i]) && states'[i + 1] == Do(states'[i], CAPS, events'[i])
      ensures i != odd ==> rule(states'[i], events'[i])
    {
      if i < |events| {
        RunStep(states, CAPS, events, i);
        assert states'[i] == states[i] && states'[i + 1] == states[i + 1];
      }
    }
  }

  // ------------------------------------------------------------ sweep threads

  /** The state after thread `t` has submitted and saved `r`. */
  function Enqueued(s: Sys, r: Record): Sys {
    Save(s.(sh := RegisterHash(s.sh, r)), r).(hist := s.hist.(accepted := s.hist.accepted[r.id := r]))
  }

  lemma SubmitIt(states: seq<Sys>, events: seq<Event>, rule: Rule, odd: nat, t: Tid, r: Record) returns (states': seq<Sys>, events': seq<Event>)
    requires Story(states, events, rule, odd) && t !in Last(states).threads
    requires !Duplicate(Last(states).sh, r) && !Reaches(Last(states).live, r.Deps(), r.id)
    requires rule(Last(states), Sweeper(t, Submit(r)))
    ensures Story(states', events', rule, odd) && |events'| == |events| + 2 && events <= events'
    ensures events'[|events'| - 1] == Sweeper(t, Check)
    ensures Last(states') == At(Last(states), t, Enqueuing(r, true)).(sh := RegisterHash(Last(states).sh, r))
  {
    var s := Last(states);
    states', events' := Continue(states, events, rule, odd, Sweeper(t, Submit(r)));
    assert Last(states') == At(s, t, Enqueuing(r, false)).(sh := RegisterHash(s.sh, r));
    states', events' := Continue(states', events', rule, odd, Sweeper(t, Check));
    assert Last(states').threads == s.threads[t := Enqueuing(r, true)];
  }

  lemma EnqueueIt(states: seq<Sys>, events: seq<Event>, rule: Rule, odd: nat, t: Tid, r: Record) returns (states': seq<Sys>, events': seq<Event>)
    requires Story(states, events, rule, odd) && t !in Last(states).threads && r.deletedAt.None?
    requires !Duplicate(Last(states).sh, r) && !Reaches(Last(states).live, r.Deps(), r.id)
    requires rule(Last(states), Sweeper(t, Submit(r)))
    requires rule(At(Last(states), t, Enqueuing(r, true)).(sh := RegisterHash(Last(states).sh, r)), Sweeper(t, Accept))
    ensures Story(states', events', rule, odd) && |events'| == |events| + 3 && events <= events'
    ensures Last(states') == Enqueued(Last(states), r)
  {
    var s := Last(states);
    states', events' := SubmitIt(states, events, rule, odd, t, r);
    states', events' := Continue(states', events', rule, odd, Sweeper(t, Accept));
    assert r.(deletedAt := None) == r;
    assert Last(states').threads == s.threads;
  }

  /** Thread `t` reads the store. */
  lemma ReadIt(states: seq<Sys>, events: seq<Event>, rule: Rule, odd: nat, t: Tid, todo: seq<Record>) returns (states': seq<Sys>, events': seq<Event>)
    requires Story(states, events, rule, odd) && t !in Last(states).threads && Snapshot(todo, Last(states).live)
    ensures Story(states', events', rule, odd) && |events'| == |events| + 1 && events <= events'
    ensures Last(states') == At(Last(states), t, Sweeping(todo, 0, {}))
  {
    states', events' := Continue(states, events, rule, odd, Sweeper(t, ReadStore(todo, 0)));
  }

  /** Due at once, in the only pool. */
  predicate Due(r: Record) {
    r.executeAt == r.retryAfterTime == 0 && r.deletedAt.None? && r.pool.None?
  }

  /** Thread `t` visits `r` as it read it, and queues it. */
  lemma QueueMore(states: seq<Sys>, events: seq<Event>, rule: Rule, odd: nat, t: Tid, r: Record, rest: seq<Record>)
      returns (states': seq<Sys>, events': seq<Event>)
    requires Story(states, events, rule, odd) && Due(r)
    requires var s := Last(states);
             && t in s.threads && s.threads[t] == Sweeping([r] + rest, 0, {})
             && r.id !in s.sh.queued && r.id !in s.sh.executing && P in s.sh.pqs && DepsDone(s.live, r)
    requires |events| == odd || rule(Last(states), Sweeper(t, VisitNext))
    ensures Story(states', events', rule, odd) && events' == events + [Sweeper(t, VisitNext)]
    ensures var s := Last(states);
            Last(states') == At(s, t, Sweeping(rest, 0, {P}))
              .(sh := s.sh.(queued := s.sh.queued + {r.id}, pqs := s.sh.pqs[P := s.sh.pqs[P] + multiset{r}]))
  {
    var s := Last(states);
    assert ([r] + rest)[1..] == rest && ([r] + rest)[0] == r && PoolFor(s.sh, r) == Some(P);
    assert {} + {P} == {P};
    states', events' := Continue(states, events, rule, odd, Sweeper(t, VisitNext));
  }

  /** The same for an empty heap. */
  lemma QueueIt(states: seq<Sys>, events: seq<Event>, rule: Rule, odd: nat, t: Tid, r: Record, rest: seq<Record>)
      returns (states': seq<Sys>, events': seq<Event>)
    requires Story(states, events, rule, odd) && Due(r)
    requires var s := Last(states);
             && t in s.threads && s.threads[t] == Sweeping([r] + rest, 0, {})
             && r.id !in s.sh.queued && r.id !in s.sh.executing && P in s.sh.pqs && s.sh.pqs[P] == multiset{}
             && DepsDone(s.live, r)
    requires |events| == odd || rule(Last(states), Sweeper(t, VisitNext))
    ensures Story(states', events', rule, odd) && events' == events + [Sweeper(t, VisitNext)]
    ensures var s := Last(states);
            Last(states') == At(s, t, Sweeping(rest, 0, {P})).(sh := s.sh.(queued := s.sh.queued + {r.id}, pqs := s.sh.pqs[P := multiset{r}]))
  {
    states', events' := QueueMore(states, events, rule, odd, t, r, rest);
    assert multiset{} + multiset{r} == multiset{r};
  }

  /** Thread `t` passes over `r`. */
  lemma SkipIt(states: seq<Sys>, events: seq<Event>, rule: Rule, odd: nat, t: Tid, r: Record, pools: set<Pool>)
      returns (states': seq<Sys>, events': seq<Event>)
    requires Story(states, events, rule, odd)
    requires var s := Last(states);
             t in s.threads && s.threads[t] == Sweeping([r], 0, pools) && !Pushes(s.sh, s.live, r, 0)
    requires rule(Last(states), Sweeper(t, VisitNext))
    ensures Story(states', events', rule, odd) && |events'| == |events| + 1 && events <= events'
    ensures Last(states') == At(Last(states), t, Sweeping([], 0, pools))
  {
    assert [r][1..] == [];
    states', events' := Continue(states, events, rule, odd, Sweeper(t, VisitNext));
  }

  /** The dispatcher loops of the pool after a sweep has pushed to it. */
  function AfterSpawn(s: Sys, child: Tid): Sys {
    if Loops(s.sh, P) < MAX_DISPATCHERS then At(s, child, Dispatching(P, Waiting)).(sh := AddLoop(s.sh, P)) else s
  }

  /** Thread `t` starts a dispatcher, unless there are two, and ends. */
  lemma SpawnIt(states: seq<Sys>, events: seq<Event>, rule: Rule, odd: nat, t: Tid, child: Tid) returns (states': seq<Sys>, events': seq<Event>)
    requires Story(states, events, rule, odd)
    requires var s := Last(states);
             t in s.threads && s.threads[t] == Sweeping([], 0, {P}) && child !in s.threads
    ensures Story(states', events', rule, odd) && |events'| == |events| + 2 && events <= events'
    ensures Last(states') == Gone(AfterSpawn(Last(states), child), t)
  {
    var s := Last(states);
    states', events' := Continue(states, events, rule, odd, Sweeper(t, Spawn(P, child)));
    assert {P} - {P} == {};
    assert Last(states') == AfterSpawn(At(s, t, Sweeping([], 0, {})), child);
    states', events' := EndIt(states', events', rule, odd, t);
    assert Last(states').threads == AfterSpawn(s, child).threads - {t};
  }

  lemma EndIt(states: seq<Sys>, events: seq<Event>, rule: Rule, odd: nat, t: Tid) returns (states': seq<Sys>, events': seq<Event>)
    requires Story(states, events, rule, odd)
    requires var s := Last(states); t in s.threads && s.threads[t] == Sweeping([], 0, {})
    ensures Story(states', events', rule, odd) && |events'| == |events| + 1 && events <= events'
    ensures Last(states') == Gone(Last(states), t)
  {
    states', events' := Continue(states, events, rule, odd, Sweeper(t, SweepEnd));
  }

  // --------------------------------------------------------------- dispatcher

  /** `r` is alone in the heap, and dispatcher 2 waits for the pool's one permit. */
  predicate AloneInHeap(s: Sys, r: Record) {
    && 2 in s.threads && s.threads[2] == Dispatching(P, Waiting) && 3 !in s.threads
    && P in s.sh.permits && s.sh.permits[P] == 1 && P in s.sh.pqs && s.sh.pqs[P] == multiset{r}
    && r.id !in s.sh.executing && r.id !in s.sh.completed
  }

  /** The pool's one permit is free and dispatcher 2 waits for it; nothing in the heap is more
      urgent than `r`. */
  ghost predicate Startable(s: Sys, r: Record) {
    && 2 in s.threads && s.threads[2] == Dispatching(P, Waiting) && 3 !in s.threads
    && P in s.sh.permits && s.sh.permits[P] == 1 && Poppable(s.sh, P, r)
    && r.id !in s.sh.executing && r.id !in s.sh.completed
  }

  /** The dispatcher pops a most urgent task. */
  lemma TakeIt(states: seq<Sys>, events: seq<Event>, rule: Rule, odd: nat, r: Record) returns (states': seq<Sys>, events': seq<Event>)
    requires Story(states, events, rule, odd)
    requires var s := Last(states);
             && 2 in s.threads && s.threads[2] == Dispatching(P, Waiting)
             && P in s.sh.permits && s.sh.permits[P] == 1 && Poppable(s.sh, P, r)
    ensures Story(states', events', rule, odd) && |events'| == |events| + 2 && events <= events'
    ensures Last(states') == At(Last(states), 2, Dispatching(P, Popped(r))).(sh := Pop(TakePermit(Last(states).sh, P), P, r))
  {
    var s := Last(states);
    states', events' := Continue(states, events, rule, odd, Dispatcher(2, Acquire));
    assert Last(states') == At(s, 2, Dispatching(P, Permitted)).(sh := TakePermit(s.sh, P));
    states', events' := Continue(states', events', rule, odd, Dispatcher(2, PopTask(r)));
    assert Last(states').threads == s.threads[2 := Dispatching(P, Popped(r))];
  }

  /** The dispatcher starts the task it popped, as thread 3. */
  lemma BeginIt(states: seq<Sys>, events: seq<Event>, rule: Rule, odd: nat, r: Record) returns (states': seq<Sys>, events': seq<Event>)
    requires Story(states, events, rule, odd)
    requires var s := Last(states);
             2 in s.threads && s.threads[2] == Dispatching(P, Popped(r)) && 3 !in s.threads && r.id !in s.sh.executing
    ensures Story(states', events', rule, odd) && |events'| == |events| + 2 && events <= events'
    ensures var s := Last(states);
            Last(states') == At(At(s, 2, Dispatching(P, Waiting)), 3, Executing(P, Starting(r))).(sh := Start(s.sh, r.id))
  {
    var s := Last(states);
    states', events' := Continue(states, events, rule, odd, Dispatcher(2, Limit(true)));
    assert Last(states') == At(s, 2, Dispatching(P, Granted(r)));
    states', events' := Continue(states', events', rule, odd, Dispatcher(2, Begin(3)));
    assert Last(states').threads == s.threads[2 := Dispatching(P, Waiting)][3 := Executing(P, Starting(r))];
  }

  function OneMore(m: map<Id, nat>, id: Id): map<Id, nat> {
    m[id := Count(m, id) + 1]
  }

  /** Thread 3 finds the task not completed and runs its handler. */
  lemma InvokeIt(states: seq<Sys>, events: seq<Event>, rule: Rule, odd: nat, r: Record) returns (states': seq<Sys>, events': seq<Event>)
    requires Story(states, events, rule, odd)
    requires var s := Last(states);
             3 in s.threads && s.threads[3] == Executing(P, Starting(r)) && r.id !in s.sh.completed
    ensures Story(states', events', rule, odd) && |events'| == |events| + 2 && events <= events'
    ensures var s := Last(states);
            Last(states') == At(s, 3, Executing(P, Running(r))).(hist := s.hist.(starts := OneMore(s.hist.starts, r.id)))
  {
    var s := Last(states);
    states', events' := Continue(states, events, rule, odd, Execution(3, CheckCompleted));
    assert Last(states') == At(s, 3, Executing(P, Cleared(r)));
    states', events' := Continue(states', events', rule, odd, Execution(3, Invoke(true)));
    assert Last(states').threads == s.threads[3 := Executing(P, Running(r))];
  }

  /** From the heap to a running handler: six steps. */
  lemma StartIt(states: seq<Sys>, events: seq<Event>, rule: Rule, odd: nat, r: Record) returns (states': seq<Sys>, events': seq<Event>)
    requires Story(states, events, rule, odd) && Startable(Last(states), r)
    ensures Story(states', events', rule, odd) && |events'| == |events| + 6 && events <= events'
    ensures var s := Last(states);
            Last(states') == At(s, 3, Executing(P, Running(r)))
              .(sh := Start(Pop(TakePermit(s.sh, P), P, r), r.id), hist := s.hist.(starts := OneMore(s.hist.starts, r.id)))
  {
    var s := Last(states);
    states', events' := TakeIt(states, events, rule, odd, r);
    states', events' := BeginIt(states', events', rule, odd, r);
    assert Last(states').threads == s.threads[3 := Executing(P, Starting(r))];
    states', events' := InvokeIt(states', events', rule, odd, r);
    assert Last(states').threads == s.threads[3 := Executing(P, Running(r))];
  }

  /** The dispatcher pops a task over its limit and puts it off: it is saved, without a look
      at whether it has completed. */
  lemma PutOff(states: seq<Sys>, events: seq<Event>, rule: Rule, odd: nat, a: Record) returns (states': seq<Sys>, events': seq<Event>)
    requires Story(states, events, rule, odd)
    requires var s := Last(states);
             && 2 in s.threads && s.threads[2] == Dispatching(P, Waiting)
             && P in s.sh.permits && s.sh.permits[P] == 1 && P in s.sh.pqs && s.sh.pqs[P] == multiset{a}
    requires a.rateLimitGroup.Some? && a.maxPerMinute.Some? && a.deletedAt.None?
    ensures Story(states', events', rule, odd) && |events'| == |events| + 4 && events <= events'
    ensures Last(states').live == Last(states).live[a.id := Deferred(a, 0)]
  {
    states', events' := TakeIt(states, events, rule, odd, a);
    var s := Last(states');
    states', events' := Continue(states', events', rule, odd, Dispatcher(2, Limit(false)));
    assert Last(states') == At(s, 2, Dispatching(P, Limited(a)));
    states', events' := Continue(states', events', rule, odd, Dispatcher(2, Defer(0)));
  }

  // ---------------------------------------------------------------- execution

  function Retried(r: Record): Record {
    r.UpdateRetryConfig(Some("failed"), 0)
  }

  /** The handler fails with another attempt allowed, and the task is saved for it. */
  lemma FailIt(states: seq<Sys>, events: seq<Event>, rule: Rule, odd: nat, r: Record) returns (states': seq<Sys>, events': seq<Event>)
    requires Story(states, events, rule, odd) && MayRetry(r) && r.deletedAt.None?
    requires var s := Last(states); 3 in s.threads && s.threads[3] == Executing(P, Running(r))
    ensures Story(states', events', rule, odd) && |events'| == |events| + 2 && events <= events'
    ensures var s := Last(states);
            Last(states') == At(Save(s, Retried(r)), 3, Executing(P, Unguarding(r.id))).(hist := s.hist.(fails := OneMore(s.hist.fails, r.id)))
  {
    var s := Last(states);
    states', events' := Continue(states, events, rule, odd, Execution(3, ReturnErr("failed", 0)));
    assert Last(states') == At(s, 3, Executing(P, Saving(Retried(r)))).(hist := s.hist.(fails := OneMore(s.hist.fails, r.id)));
    states', events' := Continue(states', events', rule, odd, Execution(3, Resave));
    assert Last(states').threads == s.threads[3 := Executing(P, Unguarding(r.id))];
  }

  /** Thread 3 lets go of the task and of its permit. */
  lemma LetGo(states: seq<Sys>, events: seq<Event>, rule: Rule, odd: nat, id: Id) returns (states': seq<Sys>, events': seq<Event>)
    requires Story(states, events, rule, odd)
    requires var s := Last(states); 3 in s.threads && s.threads[3] == Executing(P, Unguarding(id))
    ensures Story(states', events', rule, odd) && |events'| == |events| + 2 && events <= events'
    ensures Last(states') == Gone(Last(states), 3).(sh := GivePermit(Unguard(Last(states).sh, id), P))
  {
    var s := Last(states);
    states', events' := Continue(states, events, rule, odd, Execution(3, DropGuard));
    assert Last(states') == At(s, 3, Executing(P, Releasing)).(sh := Unguard(s.sh, id));
    states', events' := Continue(states', events', rule, odd, Execution(3, Release));
    assert Last(states').threads == s.threads - {3};
  }

  /** The task is recorded as completed, tombstoned, and its hash is free again. */
  lemma BuryIt(states: seq<Sys>, events: seq<Event>, rule: Rule, odd: nat, r: Record, copy: Record) returns (states': seq<Sys>, events': seq<Event>)
    requires Story(states, events, rule, odd)
    requires var s := Last(states);
             && 3 in s.threads && s.threads[3] == Executing(P, Marking(r))
             && r.id in s.live && s.live[r.id] == copy && copy.id == r.id && copy.deletedAt.None?
    ensures Story(states', events', rule, odd) && |events'| == |events| + 4 && events <= events'
    ensures var s := Last(states);
            Last(states') == At(Save(s, copy.MarkDeleted(0)), 3, Executing(P, Unguarding(r.id)))
              .(sh := ReleaseHash(MarkCompleted(s.sh, r.id, s.clock), r))
  {
    var s := Last(states);
    states', events' := Continue(states, events, rule, odd, Execution(3, Mark));
    assert Last(states') == At(s, 3, Executing(P, Deleting(r))).(sh := MarkCompleted(s.sh, r.id, s.clock));
    states', events' := Continue(states', events', rule, odd, Execution(3, DeleteRead));
    assert Last(states') == At(s, 3, Executing(P, Burying(r, copy))).(sh := MarkCompleted(s.sh, r.id, s.clock));
    states', events' := UnhashIt(states', events', rule, odd, r, copy);
    assert Last(states').threads == s.threads[3 := Executing(P, Unguarding(r.id))];
  }

  lemma UnhashIt(states: seq<Sys>, events: seq<Event>, rule: Rule, odd: nat, r: Record, copy: Record) returns (states': seq<Sys>, events': seq<Event>)
    requires Story(states, events, rule, odd)
    requires var s := Last(states); 3 in s.threads && s.threads[3] == Executing(P, Burying(r, copy))
    ensures Story(states', events', rule, odd) && |events'| == |events| + 2 && events <= events'
    ensures var s := Last(states);
            Last(states') == At(Save(s, copy.MarkDeleted(0)), 3, Executing(P, Unguarding(r.id))).(sh := ReleaseHash(s.sh, r))
  {
    var s := Last(states);
    states', events' := Continue(states, events, rule, odd, Execution(3, DeleteWrite(0)));
    assert Last(states') == At(Save(s, copy.MarkDeleted(0)), 3, Executing(P, Unhashing(r)));
    states', events' := Continue(states', events', rule, odd, Execution(3, Unhash));
    assert Last(states').threads == s.threads[3 := Executing(P, Unguarding(r.id))];
  }

  /** From the end of its execution to its disappearance. */
  lemma VanishIt(states: seq<Sys>, events: seq<Event>, rule: Rule, odd: nat, r: Record) returns (states': seq<Sys>, events': seq<Event>)
    requires Story(states, events, rule, odd) && r.deletedAt.None?
    requires var s := Last(states);
             3 in s.threads && s.threads[3] == Executing(P, Marking(r)) && r.id in s.live && s.live[r.id] == r
    ensures Story(states', events', rule, odd) && |events'| == |events| + 6 && events <= events'
    ensures var s, s' := Last(states), Last(states');
            && s'.threads == s.threads - {3} && s'.live == s.live - {r.id} && s'.hist == s.hist && s'.clock == s.clock
            && s'.sh == GivePermit(Unguard(ReleaseHash(MarkCompleted(s.sh, r.id, s.clock), r), r.id), P)
  {
    var s := Last(states);
    states', events' := BuryIt(states, events, rule, odd, r, r);
    states', events' := LetGo(states', events', rule, odd, r.id);
    assert Last(states').threads == s.threads - {3};
  }

  /** `parent` has one attempt and no dependencies, and `child` waits for it. */
  predicate Kin(parent: Record, child: Record) {
    && parent.id != child.id && parent.retryCount == 0 && parent.maxRetries <= 1
    && parent.deletedAt.None? && child.deletedAt.None?
    && parent.triggerAfterIds.None? && parent.id in child.Deps()
  }

  /** The parent's only attempt fails, and its child is blocked. */
  lemma ParentFails(states: seq<Sys>, events: seq<Event>, rule: Rule, odd: nat, parent: Record, child: Record) returns (states': seq<Sys>, events': seq<Event>)
    requires Story(states, events, rule, odd) && Kin(parent, child)
    requires var s := Last(states);
             && 3 in s.threads && s.threads[3] == Executing(P, Running(parent))
             && s.live == map[parent.id := parent, child.id := child]
    ensures Story(states', events', rule, odd) && |events'| == |events| + 4 && events <= events'
    ensures var s, s' := Last(states), Last(states');
            && s'.threads == s.threads[3 := Executing(P, Marking(parent))] && s'.sh == s.sh && s'.clock == s.clock
            && s'.live == map[parent.id := parent]
            && s'.hist.accepted == s.hist.accepted && s'.hist.starts == s.hist.starts && s'.hist.blocked == s.hist.blocked + {child.id}
  {
    states', events' := ScanOnly(states, events, rule, odd, parent, child);
    states', events' := BlockOnly(states', events', rule, odd, parent, child);
  }

  lemma ScanOnly(states: seq<Sys>, events: seq<Event>, rule: Rule, odd: nat, parent: Record, child: Record) returns (states': seq<Sys>, events': seq<Event>)
    requires Story(states, events, rule, odd) && Kin(parent, child)
    requires var s := Last(states);
             && 3 in s.threads && s.threads[3] == Executing(P, Running(parent))
             && s.live == map[parent.id := parent, child.id := child]
    ensures Story(states', events', rule, odd) && |events'| == |events| + 2 && events <= events'
    ensures var s, s' := Last(states), Last(states');
            && s' == At(s, 3, Executing(P, Blocking(parent, [child]))).(hist := s'.hist)
            && s'.hist.accepted == s.hist.accepted && s'.hist.starts == s.hist.starts && s'.hist.blocked == s.hist.blocked
  {
    var s := Last(states);
    states', events' := Continue(states, events, rule, odd, Execution(3, ReturnErr("failed", 0)));
    assert Last(states') == At(s, 3, Executing(P, Scanning(parent))).(hist := Last(states').hist);
    assert Children([child], s.live, parent.id);
    states', events' := Continue(states', events', rule, odd, Execution(3, ScanChildren([child])));
    assert Last(states').threads == s.threads[3 := Executing(P, Blocking(parent, [child]))];
  }

  lemma BlockOnly(states: seq<Sys>, events: seq<Event>, rule: Rule, odd: nat, parent: Record, child: Record) returns (states': seq<Sys>, events': seq<Event>)
    requires Story(states, events, rule, odd) && Kin(parent, child)
    requires var s := Last(states);
             && 3 in s.threads && s.threads[3] == Executing(P, Blocking(parent, [child]))
             && s.live == map[parent.id := parent, child.id := child]
    ensures Story(states', events', rule, odd) && |events'| == |events| + 2 && events <= events'
    ensures var s, s' := Last(states), Last(states');
            && s'.threads == s.threads[3 := Executing(P, Marking(parent))] && s'.sh == s.sh && s'.clock == s.clock
            && s'.live == map[parent.id := parent]
            && s'.hist.accepted == s.hist.accepted && s'.hist.starts == s.hist.starts && s'.hist.blocked == s.hist.blocked + {child.id}
  {
    var s := Last(states);
    states', events' := Continue(states, events, rule, odd, Execution(3, BlockChild(0)));
    assert [child][1..] == [];
    assert Last(states').threads == s.threads[3 := Executing(P, Blocking(parent, []))];
    assert Last(states').live == map[parent.id := parent];
    states', events' := Continue(states', events', rule, odd, Execution(3, DeadLetter(true)));
    assert Last(states').threads == s.threads[3 := Executing(P, Marking(parent))];
  }

  // ----------------------------------------------------------- whole attempts

  /** A task that has been popped, started and let go of is no longer queued; nothing else
      has changed. */
  lemma SharedAfter(sh: Shared, r: Record)
    requires P in sh.permits && sh.permits[P] == 1 && P in sh.pqs && sh.pqs[P] == multiset{r} && r.id !in sh.executing
    ensures GivePermit(Unguard(Start(Pop(TakePermit(sh, P), P, r), r.id), r.id), P) ==
            sh.(queued := sh.queued - {r.id}, pqs := sh.pqs[P := multiset{}])
  {
    var sh' := GivePermit(Unguard(Start(Pop(TakePermit(sh, P), P, r), r.id), r.id), P);
    assert sh'.permits == sh.permits;
    assert sh'.executing == sh.executing;
    assert sh'.pqs == sh.pqs[P := multiset{}];
  }

  /** What the dispatcher and its execution do to a task alone in the heap: ten steps, one
      failed attempt. */
  lemma AttemptIt(states: seq<Sys>, events: seq<Event>, rule: Rule, odd: nat, r: Record) returns (states': seq<Sys>, events': seq<Event>)
    requires Story(states, events, rule, odd) && MayRetry(r) && r.deletedAt.None? && AloneInHeap(Last(states), r)
    ensures Story(states', events', rule, odd) && |events'| == |events| + 10 && events <= events'
    ensures var s, s' := Last(states), Last(states');
            && s' == s.(sh := s.sh.(queued := s.sh.queued - {r.id}, pqs := s.sh.pqs[P := multiset{}]),
                        log := s.log + [Json(Retried(r))], live := s.live[r.id := Retried(r)],
                        hist := s.hist.(starts := OneMore(s.hist.starts, r.id), fails := OneMore(s.hist.fails, r.id)))
  {
    var s := Last(states);
    states', events' := StartIt(states, events, rule, odd, r);
    states', events' := FailIt(states', events', rule, odd, r);
    states', events' := LetGo(states', events', rule, odd, r.id);
    assert Last(states').threads == s.threads;
    SharedAfter(s.sh, r);
  }

  lemma ReadAndQueue(states: seq<Sys>, events: seq<Event>, rule: Rule, odd: nat, r: Record) returns (states': seq<Sys>, events': seq<Event>)
    requires Story(states, events, rule, odd) && Due(r) && DepsDone(Last(states).live, r)
    requires var s := Last(states);
             && s.live == map[r.id := r] && 1 !in s.threads && r.id !in s.sh.queued && r.id !in s.sh.executing
             && P in s.sh.pqs && s.sh.pqs[P] == multiset{}
    requires rule(At(Last(states), 1, Sweeping([r], 0, {})), Sweeper(1, VisitNext))
    ensures Story(states', events', rule, odd) && |events'| == |events| + 2 && events <= events'
    ensures var s := Last(states);
            Last(states') == At(s, 1, Sweeping([], 0, {P})).(sh := s.sh.(queued := s.sh.queued + {r.id}, pqs := s.sh.pqs[P := multiset{r}]))
  {
    states', events' := ReadIt(states, events, rule, odd, 1, [r]);
    assert [r] + [] == [r];
    states', events' := QueueIt(states', events', rule, odd, 1, r, []);
    assert Last(states').threads == Last(states).threads[1 := Sweeping([], 0, {P})];
  }

  /** A task alone in an empty queue: read, queued, and a first dispatcher waiting. */
  lemma FirstSweep(states: seq<Sys>, events: seq<Event>, rule: Rule, odd: nat, r: Record) returns (states': seq<Sys>, events': seq<Event>)
    requires Story(states, events, rule, odd) && Due(r) && DepsDone(Last(states).live, r)
    requires var s := Last(states);
             && s.live == map[r.id := r] && s.threads == map[] && r.id !in s.sh.queued && r.id !in s.sh.executing
             && P in s.sh.pqs && s.sh.pqs[P] == multiset{} && Loops(s.sh, P) == 0
    requires rule(At(Last(states), 1, Sweeping([r], 0, {})), Sweeper(1, VisitNext))
    ensures Story(states', events', rule, odd) && |events'| == |events| + 4 && events <= events'
    ensures var s := Last(states);
            Last(states') == s.(sh := AddLoop(s.sh.(queued := s.sh.queued + {r.id}, pqs := s.sh.pqs[P := multiset{r}]), P),
                                threads := map[2 := Dispatching(P, Waiting)])
  {
    var s := Last(states);
    states', events' := ReadAndQueue(states, events, rule, odd, r);
    states', events' := SpawnIt(states', events', rule, odd, 1, 2);
    assert Last(states').threads == map[2 := Dispatching(P, Waiting)];
  }

  /** The empty queue once `r` has been saved. */
  function Accepted(r: Record): Sys {
    EMPTY.(sh := RegisterHash(EMPTY.sh, r), log := [Json(r)], live := map[r.id := r], hist := EMPTY.hist.(accepted := map[r.id := r]))
  }

  lemma FirstEnqueue(rule: Rule, odd: nat, r: Record) returns (states: seq<Sys>, events: seq<Event>)
    requires Lenient(rule) && r.deletedAt.None? && !Reaches(EMPTY.live, r.Deps(), r.id)
    requires rule(EMPTY, Sweeper(1, Submit(r)))
    requires rule(At(EMPTY, 1, Enqueuing(r, true)).(sh := RegisterHash(EMPTY.sh, r)), Sweeper(1, Accept))
    ensures Story(states, events, rule, odd) && |events| == 3 && Last(states) == Accepted(r)
  {
    states, events := StartStory(rule, odd);
    states, events := EnqueueIt(states, events, rule, odd, 1, r);
    assert Last(states).live == map[r.id := r] && Last(states).log == [Json(r)];
    assert Last(states).hist.accepted == map[r.id := r];
  }

  /** The empty queue once `r` has been saved and queued, and a first dispatcher waits. */
  function QueuedFirst(r: Record): Sys {
    var sh := RegisterHash(EMPTY.sh, r).(queued := {r.id}, pqs := map[P := multiset{r}]);
    Accepted(r).(sh := AddLoop(sh, P), threads := map[2 := Dispatching(P, Waiting)])
  }

  /** From the empty queue: `r` is enqueued and a first sweep queues it. */
  lemma EnqueueAndSweep(rule: Rule, odd: nat, r: Record) returns (states: seq<Sys>, events: seq<Event>)
    requires Lenient(rule) && Due(r) && DepsDone(Accepted(r).live, r) && !Reaches(EMPTY.live, r.Deps(), r.id)
    requires rule(EMPTY, Sweeper(1, Submit(r)))
    requires rule(At(EMPTY, 1, Enqueuing(r, true)).(sh := RegisterHash(EMPTY.sh, r)), Sweeper(1, Accept))
    requires rule(At(Accepted(r), 1, Sweeping([r], 0, {})), Sweeper(1, VisitNext))
    ensures Story(states, events, rule, odd) && |events| == 7 && Last(states) == QueuedFirst(r)
  {
    states, events := FirstEnqueue(rule, odd, r);
    states, events := FirstSweep(states, events, rule, odd, r);
    var sh := Accepted(r).sh;
    assert sh.queued + {r.id} == {r.id} && sh.pqs[P := multiset{r}] == map[P := multiset{r}];
  }
}
