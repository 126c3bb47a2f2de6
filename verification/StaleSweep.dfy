/** Why the attempt bound, dependency order and the absence of duplicates need the
    hypotheses they have: runs that break one hypothesis once, and then the property. In
    three of them a sweep queues what it read before something happened to the task; in
    two a compaction rolls a save back. */
module StaleSweep {
  import opened Wrappers
  import opened Tasks
  import opened LogReplay
  import opened DepGraph
  import opened Scheduler
  import opened Machine
  import opened Journal
  import opened Durable
  import opened Dedupe
  import opened Attempts
  import opened Scripts
  import DepOrder

  // ------------------------------------------------------------- attempt bound

  /** A task without hash or dependencies, due at once and, after a failure, again at once. */
  predicate Plain(r: Record) {
    && Due(r) && r.retryCount == 0 && r.retryAfterHours == 0.0
    && r.payloadHash.None? && r.triggerAfterIds.None?
  }

  /** Between two attempts: dispatchers 2 and 5 wait, `r` is alone in the store, and all of
      its `n` starts so far have failed. */
  predicate Resting(s: Sys, r: Record, n: nat) {
    && s.threads == map[2 := Dispatching(P, Waiting), 5 := Dispatching(P, Waiting)]
    && P in s.sh.permits && s.sh.permits[P] == 1 && Loops(s.sh, P) == 2
    && P in s.sh.pqs && s.sh.pqs[P] == multiset{}
    && r.id !in s.sh.queued && r.id !in s.sh.executing && r.id !in s.sh.completed
    && s.live == map[r.id := r] && Due(r) && r.retryAfterHours == 0.0 && r.triggerAfterIds.None?
    && r.id in s.hist.accepted && s.hist.accepted[r.id].maxRetries == r.maxRetries
    && Starts(s.hist, r.id) == Fails(s.hist, r.id) == n
  }

  lemma RetriedIsDue(r: Record)
    requires Due(r) && r.retryAfterHours == 0.0
    ensures Due(Retried(r)) && Retried(r).retryAfterHours == 0.0 && Retried(r).retryCount == r.retryCount + 1
    ensures Retried(r).id == r.id && Retried(r).maxRetries == r.maxRetries && Retried(r).triggerAfterIds == r.triggerAfterIds
  {
    assert TruncatedSeconds(0.0) == 0;
  }

  /** What the rule of a run must allow: ordinary steps. */
  ghost predicate AllowsOrdinary(rule: Rule) {
    Lenient(rule) && forall s, e :: Ordinary(s, e) ==> rule(s, e)
  }

  lemma OrdinarySubmit(s: Sys, t: Tid, r: Record)
    requires r.retryCount == 0
    ensures Ordinary(s, Sweeper(t, Submit(r)))
  {}

  lemma OrdinaryAccept(s: Sys, t: Tid)
    requires t in s.threads && s.threads[t].Enqueuing? && s.threads[t].task.id !in s.hist.accepted
    ensures Ordinary(s, Sweeper(t, Accept))
  {}

  lemma OrdinaryVisit(s: Sys, t: Tid)
    requires t in s.threads && s.threads[t].Sweeping? && s.threads[t].todo != []
    requires s.threads[t].todo[0].id in s.live && s.live[s.threads[t].todo[0].id] == s.threads[t].todo[0]
    ensures Ordinary(s, Sweeper(t, VisitNext))
  {}

  /** A plain task is enqueued and queued by a first sweep. */
  lemma PlainStart(rule: Rule, odd: nat, r: Record) returns (states: seq<Sys>, events: seq<Event>)
    requires Plain(r) && AllowsOrdinary(rule)
    ensures Story(states, events, rule, odd) && |events| == 7 && Last(states) == QueuedFirst(r)
  {
    OrdinarySubmit(EMPTY, 1, r);
    OrdinaryAccept(At(EMPTY, 1, Enqueuing(r, true)).(sh := RegisterHash(EMPTY.sh, r)), 1);
    OrdinaryVisit(At(Accepted(r), 1, Sweeping([r], 0, {})), 1);
    ClosedSetBlocks(EMPTY.live, {}, [], r.id);
    states, events := EnqueueAndSweep(rule, odd, r);
  }

  /** A second sweep reads it; then its first attempt fails. */
  lemma ReadBeforeFailure(rule: Rule, odd: nat, r: Record) returns (states: seq<Sys>, events: seq<Event>)
    requires Plain(r) && r.maxRetries >= 2 && AllowsOrdinary(rule)
    ensures Story(states, events, rule, odd) && |events| == 18
    ensures var s := Last(states);
            && s.threads == map[2 := Dispatching(P, Waiting), 4 := Sweeping([r], 0, {})]
            && s.sh == AddLoop(EMPTY.sh, P)
            && s.live == map[r.id := Retried(r)] && s.hist.accepted == map[r.id := r]
            && Starts(s.hist, r.id) == Fails(s.hist, r.id) == 1
  {
    states, events := PlainStart(rule, odd, r);
    states, events := ReadIt(states, events, rule, odd, 4, [r]);
    states, events := AttemptIt(states, events, rule, odd, r);
    NothingQueued(r);
    assert Last(states).threads == map[2 := Dispatching(P, Waiting), 4 := Sweeping([r], 0, {})];
    assert Last(states).live == map[r.id := Retried(r)];
  }

  lemma NothingQueued(r: Record)
    requires r.payloadHash.None?
    ensures var sh := QueuedFirst(r).sh;
            sh.(queued := sh.queued - {r.id}, pqs := sh.pqs[P := multiset{}]) == AddLoop(EMPTY.sh, P)
  {
    var sh := QueuedFirst(r).sh;
    assert sh.queued - {r.id} == {} && sh.pqs[P := multiset{}] == map[P := multiset{}];
  }

  /** The second sweep queues what it read, after the failure. */
  lemma StaleQueue(rule: Rule, r: Record) returns (states: seq<Sys>, events: seq<Event>)
    requires Plain(r) && r.maxRetries >= 2 && AllowsOrdinary(rule)
    ensures Story(states, events, rule, 18) && |events| == 21 && events[18] == Sweeper(4, VisitNext)
    ensures var s := Last(states);
            && s.threads == map[2 := Dispatching(P, Waiting), 5 := Dispatching(P, Waiting)]
            && s.sh == AddLoop(AddLoop(EMPTY.sh, P), P).(queued := {r.id}, pqs := map[P := multiset{r}])
            && s.live == map[r.id := Retried(r)] && s.hist.accepted == map[r.id := r]
            && Starts(s.hist, r.id) == Fails(s.hist, r.id) == 1
  {
    states, events := StaleVisit(rule, r);
    states, events := SpawnIt(states, events, rule, 18, 4, 5);
    assert Last(states).threads == map[2 := Dispatching(P, Waiting), 5 := Dispatching(P, Waiting)];
  }

  lemma StaleVisit(rule: Rule, r: Record) returns (states: seq<Sys>, events: seq<Event>)
    requires Plain(r) && r.maxRetries >= 2 && AllowsOrdinary(rule)
    ensures Story(states, events, rule, 18) && |events| == 19 && events[18] == Sweeper(4, VisitNext)
    ensures var s := Last(states);
            && s.threads == map[2 := Dispatching(P, Waiting), 4 := Sweeping([], 0, {P})]
            && s.sh == AddLoop(EMPTY.sh, P).(queued := {r.id}, pqs := map[P := multiset{r}])
            && s.live == map[r.id := Retried(r)] && s.hist.accepted == map[r.id := r]
            && Starts(s.hist, r.id) == Fails(s.hist, r.id) == 1
  {
    states, events := ReadBeforeFailure(rule, 18, r);
    assert [r] + [] == [r];
    var sh := Last(states).sh;
    states, events := QueueIt(states, events, rule, 18, 4, r, []);
    assert sh.queued + {r.id} == {r.id} && sh.pqs[P := multiset{r}] == map[P := multiset{r}];
    assert Last(states).threads == map[2 := Dispatching(P, Waiting), 4 := Sweeping([], 0, {P})];
  }

  /** The attempt it leads to fails as well. */
  lemma StaleAttempt(rule: Rule, r: Record) returns (states: seq<Sys>, events: seq<Event>)
    requires Plain(r) && r.maxRetries >= 2 && AllowsOrdinary(rule)
    ensures Story(states, events, rule, 18) && |events| == 31 && events[18] == Sweeper(4, VisitNext)
    ensures Resting(Last(states), Retried(r), 2)
  {
    states, events := StaleQueue(rule, r);
    states, events := AttemptIt(states, events, rule, 18, r);
    RetriedIsDue(r);
    assert Last(states).live == map[r.id := Retried(r)];
  }

  /** A third sweep reads and queues the task as it is in the store. */
  lemma NextVisit(states: seq<Sys>, events: seq<Event>, rule: Rule, odd: nat, r: Record, n: nat) returns (states': seq<Sys>, events': seq<Event>)
    requires Story(states, events, rule, odd) && Resting(Last(states), r, n)
    requires AllowsOrdinary(rule)
    ensures Story(states', events', rule, odd) && events <= events'
    ensures var s := Last(states);
            Last(states') == At(s, 4, Sweeping([], 0, {P})).(sh := s.sh.(queued := s.sh.queued + {r.id}, pqs := s.sh.pqs[P := multiset{r}]))
  {
    states', events' := ReadIt(states, events, rule, odd, 4, [r]);
    assert [r] + [] == [r];
    OrdinaryVisit(Last(states'), 4);
    states', events' := QueueIt(states', events', rule, odd, 4, r, []);
    assert Last(states').threads == Last(states).threads[4 := Sweeping([], 0, {P})];
  }

  /** One more sweep, of the task as it is in the store. */
  lemma NextSweep(states: seq<Sys>, events: seq<Event>, rule: Rule, odd: nat, r: Record, n: nat) returns (states': seq<Sys>, events': seq<Event>)
    requires Story(states, events, rule, odd) && Resting(Last(states), r, n)
    requires AllowsOrdinary(rule)
    ensures Story(states', events', rule, odd) && events <= events'
    ensures var s, s' := Last(states), Last(states');
            && s'.sh == s.sh.(queued := s.sh.queued + {r.id}, pqs := s.sh.pqs[P := multiset{r}])
            && s' == s.(sh := s'.sh)
  {
    states', events' := NextVisit(states, events, rule, odd, r, n);
    states', events' := SpawnIt(states', events', rule, odd, 4, 6);
    assert Last(states').threads == Last(states).threads;
  }

  /** Fresh attempts until the stored count allows no more. */
  lemma {:induction false} KeepTrying(states: seq<Sys>, events: seq<Event>, rule: Rule, odd: nat, r: Record, n: nat)
      returns (states': seq<Sys>, events': seq<Event>, r': Record)
    requires Story(states, events, rule, odd) && Resting(Last(states), r, n)
    requires AllowsOrdinary(rule)
    requires r.retryCount == n - 1 && n <= r.maxRetries
    ensures Story(states', events', rule, odd) && events <= events'
    ensures r'.id == r.id && r'.maxRetries == r.maxRetries && Resting(Last(states'), r', r.maxRetries)
    decreases r.maxRetries - n
  {
    states', events', r' := states, events, r;
    if n < r.maxRetries {
      states', events' := NextSweep(states, events, rule, odd, r, n);
      states', events' := AttemptIt(states', events', rule, odd, r);
      RetriedIsDue(r);
      states', events', r' := KeepTrying(states', events', rule, odd, Retried(r), n + 1);
    }
  }

  /** Main result: one stale visit is enough. Every other step of this run is ordinary, and
      yet the task starts once more than it is allowed. */
  lemma StaleVisitBreaksTheBound(r: Record) returns (states: seq<Sys>, events: seq<Event>, stale: nat)
    requires Plain(r) && r.maxRetries >= 2
    ensures IsRun(states, CAPS, events) && stale < |events| && events[stale] == Sweeper(4, VisitNext)
    ensures forall i :: 0 <= i < |events| && i != stale ==> Ordinary(states[i], events[i])
    ensures var h := Last(states).hist;
            && r.id in h.accepted && Allowed(h.accepted[r.id]) == Allowed(r) && Starts(h, r.id) == Allowed(r) + 1
            && !AttemptsKept(Last(states), r.id)
  {
    var rule: Rule := (s, e) => Ordinary(s, e);
    assert AllowsOrdinary(rule);
    stale := 18;
    states, events := StaleAttempt(rule, r);
    RetriedIsDue(r);
    var r';
    states, events, r' := KeepTrying(states, events, rule, stale, Retried(r), 2);
    states, events := NextSweep(states, events, rule, stale, r', r.maxRetries);
    states, events := StartIt(states, events, rule, stale, r');
  }

  /** Main result: one compaction that parses two lines at the same instant is enough, too:
      after a failure the stored count is zero again. */
  lemma TiedCompactionBreaksTheCount(r: Record) returns (states: seq<Sys>, events: seq<Event>, tied: nat)
    requires Plain(r) && r.maxRetries >= 2
    ensures IsRun(states, CAPS, events) && tied < |events| && events[tied] == World(CompactLog([0, 0], [r.id]))
    ensures forall i :: 0 <= i < |events| && i != tied ==> Ordinary(states[i], events[i])
    ensures var s := Last(states);
            && r.id in s.hist.accepted && Fails(s.hist, r.id) == 1 && s.live == map[r.id := r] && r.retryCount == 0
            && !AttemptsKept(s, r.id)
  {
    var rule: Rule := (s, e) => Ordinary(s, e);
    assert AllowsOrdinary(rule);
    tied := 17;
    states, events := PlainStart(rule, tied, r);
    states, events := AttemptIt(states, events, rule, tied, r);
    RetriedIsDue(r);
    assert Last(states).log == [Json(r), Json(Retried(r))];
    states, events := RollBack(states, events, rule, r);
  }

  lemma RollBack(states: seq<Sys>, events: seq<Event>, rule: Rule, r: Record) returns (states': seq<Sys>, events': seq<Event>)
    requires Story(states, events, rule, 17) && |events| == 17 && Plain(r)
    requires Last(states).log == [Json(r), Json(Retried(r))]
    ensures Story(states', events', rule, 17) && events' == events + [World(CompactLog([0, 0], [r.id]))]
    ensures Last(states').live == map[r.id := r] && Last(states').hist == Last(states).hist && Last(states').sh == Last(states).sh
  {
    var s := Last(states);
    RetriedIsDue(r);
    TiedStampsRollBack(r, Retried(r), 0);
    ReadableAll(s.log);
    assert CompactFold(s.log, [0, 0]).Keys == {r.id} by {
      assert Records(CompactFold(s.log, [0, 0])).Keys == {r.id};
    }
    assert Enumerates([r.id], CompactFold(s.log, [0, 0]));
    states', events' := Continue(states, events, rule, 17, World(CompactLog([0, 0], [r.id])));
  }

  // ---------------------------------------------------------- dependency order

  /** `parent` has one attempt, and `child` waits for it. */
  predicate Family(parent: Record, child: Record) {
    && Due(parent) && Due(child) && parent.id != child.id
    && parent.retryCount == 0 && parent.maxRetries <= 1
    && parent.triggerAfterIds.None? && child.triggerAfterIds == Some([parent.id])
    && parent.payloadHash.None? && child.payloadHash.None?
  }

  /** Both are enqueued; a first sweep queues the parent only; a second one reads both. */
  lemma FamilyIsRead(rule: Rule, odd: nat, parent: Record, child: Record) returns (states: seq<Sys>, events: seq<Event>)
    requires Family(parent, child) && odd >= 12 && Lenient(rule) && forall s, e :: DepOrder.Orderly(s, e) ==> rule(s, e)
    ensures Story(states, events, rule, odd) && |events| == 12
    ensures var s := Last(states);
            && s.threads == map[2 := Dispatching(P, Waiting), 4 := Sweeping([child, parent], 0, {})]
            && s.sh == AddLoop(EMPTY.sh.(queued := {parent.id}, pqs := map[P := multiset{parent}]), P)
            && s.live == map[parent.id := parent, child.id := child]
            && s.hist == EMPTY.hist.(accepted := map[parent.id := parent, child.id := child])
  {
    states, events := ParentIsQueued(rule, odd, parent, child);
    states, events := SpawnIt(states, events, rule, odd, 1, 2);
    assert Last(states).threads == map[2 := Dispatching(P, Waiting)];
    states, events := ReadIt(states, events, rule, odd, 4, [child, parent]);
    assert Last(states).threads == map[2 := Dispatching(P, Waiting), 4 := Sweeping([child, parent], 0, {})];
  }

  lemma ParentIsQueued(rule: Rule, odd: nat, parent: Record, child: Record) returns (states: seq<Sys>, events: seq<Event>)
    requires Family(parent, child) && Lenient(rule) && forall s, e :: DepOrder.Orderly(s, e) ==> rule(s, e)
    ensures Story(states, events, rule, odd) && |events| == 9
    ensures var s := Last(states);
            && s.threads == map[1 := Sweeping([], 0, {P})]
            && s.sh == EMPTY.sh.(queued := {parent.id}, pqs := map[P := multiset{parent}])
            && s.live == map[parent.id := parent, child.id := child]
            && s.hist == EMPTY.hist.(accepted := map[parent.id := parent, child.id := child])
  {
    states, events := ParentIsVisited(rule, odd, parent, child);
    states, events := ChildWaits(states, events, rule, odd, parent, child);
    assert Last(states).threads == map[1 := Sweeping([], 0, {P})];
  }

  lemma ParentIsVisited(rule: Rule, odd: nat, parent: Record, child: Record) returns (states: seq<Sys>, events: seq<Event>)
    requires Family(parent, child) && Lenient(rule) && forall s, e :: DepOrder.Orderly(s, e) ==> rule(s, e)
    ensures Story(states, events, rule, odd) && |events| == 8
    ensures var s := Last(states);
            && s.threads == map[1 := Sweeping([child], 0, {P})]
            && s.sh == EMPTY.sh.(queued := {parent.id}, pqs := map[P := multiset{parent}])
            && s.live == map[parent.id := parent, child.id := child]
            && s.hist == EMPTY.hist.(accepted := map[parent.id := parent, child.id := child])
  {
    states, events := FamilyListed(rule, odd, parent, child);
    OrderlyVisit(Last(states), 1);
    states, events := QueueIt(states, events, rule, odd, 1, parent, [child]);
    assert Last(states).sh.queued == {parent.id} && Last(states).sh.pqs == map[P := multiset{parent}];
    assert Last(states).threads == map[1 := Sweeping([child], 0, {P})];
  }

  lemma FamilyListed(rule: Rule, odd: nat, parent: Record, child: Record) returns (states: seq<Sys>, events: seq<Event>)
    requires Family(parent, child) && Lenient(rule) && forall s, e :: DepOrder.Orderly(s, e) ==> rule(s, e)
    ensures Story(states, events, rule, odd) && |events| == 7
    ensures var s := Last(states);
            && s.threads == map[1 := Sweeping([parent] + [child], 0, {})] && s.sh == EMPTY.sh
            && s.live == map[parent.id := parent, child.id := child]
            && s.hist == EMPTY.hist.(accepted := map[parent.id := parent, child.id := child])
  {
    states, events := BothEnqueued(rule, odd, parent, child);
    states, events := ReadIt(states, events, rule, odd, 1, [parent] + [child]);
  }

  lemma OrderlyVisit(s: Sys, t: Tid)
    requires t in s.threads && s.threads[t].Sweeping? && s.threads[t].todo != [] && s.threads[t].todo[0].id in s.live
    ensures DepOrder.Orderly(s, Sweeper(t, VisitNext))
  {}

  /** The sweep passes over the child, whose parent is live. */
  lemma ChildWaits(states: seq<Sys>, events: seq<Event>, rule: Rule, odd: nat, parent: Record, child: Record) returns (states': seq<Sys>, events': seq<Event>)
    requires Story(states, events, rule, odd) && Family(parent, child) && parent.id in Last(states).live
    requires forall s, e :: DepOrder.Orderly(s, e) ==> rule(s, e)
    requires var s := Last(states); 1 in s.threads && s.threads[1] == Sweeping([child], 0, {P})
    ensures Story(states', events', rule, odd) && |events'| == |events| + 1 && events <= events'
    ensures Last(states') == At(Last(states), 1, Sweeping([], 0, {P}))
  {
    var s := Last(states);
    assert !DepsDone(s.live, child) by { assert child.Deps()[0] in s.live; }
    assert DepOrder.Orderly(s, Sweeper(1, VisitNext));
    states', events' := SkipIt(states, events, rule, odd, 1, child, {P});
  }

  lemma BothEnqueued(rule: Rule, odd: nat, parent: Record, child: Record) returns (states: seq<Sys>, events: seq<Event>)
    requires Family(parent, child) && Lenient(rule) && forall s, e :: DepOrder.Orderly(s, e) ==> rule(s, e)
    ensures Story(states, events, rule, odd) && |events| == 6
    ensures var s := Last(states);
            && s.threads == map[] && s.sh == EMPTY.sh
            && s.live == map[parent.id := parent, child.id := child]
            && s.hist == EMPTY.hist.(accepted := map[parent.id := parent, child.id := child])
  {
    states, events := StartStory(rule, odd);
    ClosedSetBlocks(EMPTY.live, {}, [], parent.id);
    states, events := EnqueueIt(states, events, rule, odd, 1, parent);
    assert Last(states).live == map[parent.id := parent];
    ClosedSetBlocks(Last(states).live, {parent.id}, [parent.id], child.id);
    states, events := EnqueueIt(states, events, rule, odd, 1, child);
    assert Last(states).live == map[parent.id := parent, child.id := child];
    assert Last(states).hist.accepted == map[parent.id := parent, child.id := child];
  }

  /** From the empty queue to the moment the parent is gone and the second sweep has visited
      neither. */
  lemma ParentIsGone(rule: Rule, odd: nat, parent: Record, child: Record) returns (states: seq<Sys>, events: seq<Event>)
    requires Family(parent, child) && odd >= 28 && Lenient(rule) && forall s, e :: DepOrder.Orderly(s, e) ==> rule(s, e)
    ensures Story(states, events, rule, odd) && |events| == 28
    ensures var s := Last(states);
            && s.threads == map[2 := Dispatching(P, Waiting), 4 := Sweeping([child, parent], 0, {})]
            && s.sh.queued == {} && s.sh.executing == {} && s.sh.completed.Keys == {parent.id}
            && s.sh.pqs == map[P := multiset{}] && s.sh.permits == map[P := 1]
            && s.live == map[] && s.hist.starts.Keys == {parent.id} && s.hist.blocked == {child.id}
  {
    states, events := FamilyIsRead(rule, odd, parent, child);
    states, events := StartIt(states, events, rule, odd, parent);
    assert Last(states).sh.queued == {} && Last(states).sh.executing == {parent.id};
    assert Last(states).sh.pqs == map[P := multiset{}] && Last(states).sh.permits == map[P := 0];
    states, events := ParentFails(states, events, rule, odd, parent, child);
    states, events := ParentGoes(states, events, rule, odd, parent, child);
  }

  /** Main result: a sweep that read a child before its parent failed for good queues the
      child after it was blocked, because the dependency it asks about is gone. Every other
      step of this run is orderly, and yet a blocked task starts. */
  lemma StaleVisitBreaksTheOrder(parent: Record, child: Record) returns (states: seq<Sys>, events: seq<Event>, stale: nat)
    requires Family(parent, child)
    ensures IsRun(states, CAPS, events) && stale < |events| && events[stale] == Sweeper(4, VisitNext)
    ensures forall i :: 0 <= i < |events| && i != stale ==> DepOrder.Orderly(states[i], events[i])
    ensures var s := Last(states);
            child.id in s.hist.blocked && child.id !in s.live && Count(s.hist.starts, child.id) == 1
  {
    var rule: Rule := (s, e) => DepOrder.Orderly(s, e);
    assert Lenient(rule);
    stale := 28;
    states, events := ParentIsGone(rule, stale, parent, child);
    assert [child] + [parent] == [child, parent];
    states, events := QueueIt(states, events, rule, stale, 4, child, [parent]);
    states, events := StartIt(states, events, rule, stale, child);
  }

  /** The parent is deleted, and the pool is as it was before it was queued. */
  lemma ParentGoes(states: seq<Sys>, events: seq<Event>, rule: Rule, odd: nat, parent: Record, child: Record) returns (states': seq<Sys>, events': seq<Event>)
    requires Story(states, events, rule, odd) && Family(parent, child)
    requires var s := Last(states);
             && s.threads == map[2 := Dispatching(P, Waiting), 4 := Sweeping([child, parent], 0, {}), 3 := Executing(P, Marking(parent))]
             && s.sh.queued == {} && s.sh.executing == {parent.id} && s.sh.completed == map[]
             && s.sh.pqs == map[P := multiset{}] && s.sh.permits == map[P := 0]
             && s.live == map[parent.id := parent]
    ensures Story(states', events', rule, odd) && |events'| == |events| + 6 && events <= events'
    ensures var s, s' := Last(states), Last(states');
            && s'.threads == map[2 := Dispatching(P, Waiting), 4 := Sweeping([child, parent], 0, {})]
            && s'.sh.queued == {} && s'.sh.executing == {} && s'.sh.completed.Keys == {parent.id}
            && s'.sh.pqs == map[P := multiset{}] && s'.sh.permits == map[P := 1]
            && s'.live == map[] && s'.hist == s.hist
  {
    states', events' := VanishIt(states, events, rule, odd, parent);
    assert Last(states').threads == map[2 := Dispatching(P, Waiting), 4 := Sweeping([child, parent], 0, {})];
  }

  // ---------------------------------------------------------------- duplicates

  /** Two tasks with one payload hash; the first is in a rate-limit group. */
  predicate Twins(a: Record, b: Record) {
    && Due(a) && b.deletedAt.None? && a.id != b.id
    && a.triggerAfterIds.None? && b.triggerAfterIds.None?
    && a.payloadHash.Some? && a.payloadHash == b.payloadHash
    && a.rateLimitGroup.Some? && a.maxPerMinute.Some?
  }

  /** What the run keeps but for one step. */
  ghost predicate Careful(s: Sys, e: Event) {
    Merged(s, e) && NoReuse(s, e)
  }

  lemma CarefulStart(rule: Rule, odd: nat, a: Record) returns (states: seq<Sys>, events: seq<Event>)
    requires Due(a) && a.triggerAfterIds.None? && Lenient(rule) && forall s, e :: Careful(s, e) ==> rule(s, e)
    ensures Story(states, events, rule, odd) && |events| == 7 && Last(states) == QueuedFirst(a)
  {
    assert Careful(EMPTY, Sweeper(1, Submit(a)));
    assert Careful(At(EMPTY, 1, Enqueuing(a, true)).(sh := RegisterHash(EMPTY.sh, a)), Sweeper(1, Accept));
    assert Careful(At(Accepted(a), 1, Sweeping([a], 0, {})), Sweeper(1, VisitNext));
    ClosedSetBlocks(EMPTY.live, {}, [], a.id);
    states, events := EnqueueAndSweep(rule, odd, a);
  }

  /** The first twin is enqueued, queued by a first sweep, read by a second, and succeeds. */
  lemma FirstTwinSucceeds(rule: Rule, odd: nat, a: Record, b: Record) returns (states: seq<Sys>, events: seq<Event>)
    requires Twins(a, b) && odd >= 21 && Lenient(rule) && forall s, e :: Careful(s, e) ==> rule(s, e)
    ensures Story(states, events, rule, odd) && |events| == 21
    ensures var s := Last(states);
            && s.threads == map[2 := Dispatching(P, Waiting), 4 := Sweeping([a], 0, {})]
            && s.sh.queued == {} && s.sh.executing == {} && s.sh.hashes == {}
            && s.sh.pqs == map[P := multiset{}] && s.sh.permits == map[P := 1]
            && s.live == map[] && s.hist.accepted == map[a.id := a]
  {
    states, events := TwinRuns(rule, odd, a);
    states, events := TwinGoes(states, events, rule, odd, a);
  }

  lemma TwinRuns(rule: Rule, odd: nat, a: Record) returns (states: seq<Sys>, events: seq<Event>)
    requires Due(a) && a.triggerAfterIds.None? && a.payloadHash.Some? && odd >= 14
    requires Lenient(rule) && forall s, e :: Careful(s, e) ==> rule(s, e)
    ensures Story(states, events, rule, odd) && |events| == 14
    ensures var s := Last(states);
            && s.threads == map[2 := Dispatching(P, Waiting), 4 := Sweeping([a], 0, {}), 3 := Executing(P, Running(a))]
            && s.sh.queued == {} && s.sh.executing == {a.id} && s.sh.hashes == {a.payloadHash.value}
            && s.sh.pqs == map[P := multiset{}] && s.sh.permits == map[P := 0]
            && s.live == map[a.id := a] && s.hist.accepted == map[a.id := a]
  {
    states, events := CarefulStart(rule, odd, a);
    states, events := ReadIt(states, events, rule, odd, 4, [a]);
    states, events := StartIt(states, events, rule, odd, a);
    TwinShared(a);
    assert Last(states).threads == map[2 := Dispatching(P, Waiting), 4 := Sweeping([a], 0, {}), 3 := Executing(P, Running(a))];
  }

  lemma TwinShared(a: Record)
    requires a.payloadHash.Some?
    ensures var sh := Start(Pop(TakePermit(QueuedFirst(a).sh, P), P, a), a.id);
            && sh.queued == {} && sh.executing == {a.id} && sh.hashes == {a.payloadHash.value}
            && sh.pqs == map[P := multiset{}] && sh.permits == map[P := 0]
  {
    var sh := Start(Pop(TakePermit(QueuedFirst(a).sh, P), P, a), a.id);
    assert sh.pqs == map[P := multiset{}] && sh.permits == map[P := 0];
  }

  /** The second one takes over the hash. */
  lemma SecondTwinEnqueued(rule: Rule, odd: nat, a: Record, b: Record) returns (states: seq<Sys>, events: seq<Event>)
    requires Twins(a, b) && odd >= 24 && Lenient(rule) && forall s, e :: Careful(s, e) ==> rule(s, e)
    ensures Story(states, events, rule, odd) && |events| == 24
    ensures var s := Last(states);
            && s.threads == map[2 := Dispatching(P, Waiting), 4 := Sweeping([a], 0, {})]
            && s.sh.queued == {} && s.sh.executing == {}
            && s.sh.pqs == map[P := multiset{}] && s.sh.permits == map[P := 1] && s.live == map[b.id := b]
  {
    states, events := FirstTwinSucceeds(rule, odd, a, b);
    var s := Last(states);
    ClosedSetBlocks(s.live, {}, [], b.id);
    assert Careful(s, Sweeper(1, Submit(b)));
    assert Careful(At(s, 1, Enqueuing(b, true)).(sh := RegisterHash(s.sh, b)), Sweeper(1, Accept));
    states, events := EnqueueIt(states, events, rule, odd, 1, b);
    assert Last(states).live == map[b.id := b];
  }

  lemma TwinGoes(states: seq<Sys>, events: seq<Event>, rule: Rule, odd: nat, a: Record) returns (states': seq<Sys>, events': seq<Event>)
    requires Story(states, events, rule, odd) && a.payloadHash.Some? && a.deletedAt.None?
    requires var s := Last(states);
             && s.threads == map[2 := Dispatching(P, Waiting), 4 := Sweeping([a], 0, {}), 3 := Executing(P, Running(a))]
             && s.sh.queued == {} && s.sh.executing == {a.id} && s.sh.hashes == {a.payloadHash.value}
             && s.sh.pqs == map[P := multiset{}] && s.sh.permits == map[P := 0]
             && s.live == map[a.id := a]
    ensures Story(states', events', rule, odd) && |events'| == |events| + 7 && events <= events'
    ensures var s, s' := Last(states), Last(states');
            && s'.threads == map[2 := Dispatching(P, Waiting), 4 := Sweeping([a], 0, {})]
            && s'.sh.queued == {} && s'.sh.executing == {} && s'.sh.hashes == {}
            && s'.sh.pqs == map[P := multiset{}] && s'.sh.permits == map[P := 1]
            && s'.live == map[] && s'.hist.accepted == s.hist.accepted
  {
    states', events' := SucceedIt(states, events, rule, odd, a);
    states', events' := VanishIt(states', events', rule, odd, a);
    assert Last(states').threads == map[2 := Dispatching(P, Waiting), 4 := Sweeping([a], 0, {})];
  }

  lemma SucceedIt(states: seq<Sys>, events: seq<Event>, rule: Rule, odd: nat, a: Record) returns (states': seq<Sys>, events': seq<Event>)
    requires Story(states, events, rule, odd)
    requires var s := Last(states); 3 in s.threads && s.threads[3] == Executing(P, Running(a))
    ensures Story(states', events', rule, odd) && |events'| == |events| + 1 && events <= events'
    ensures var s := Last(states);
            Last(states') == At(s, 3, Executing(P, Marking(a))).(hist := s.hist.(succeeded := s.hist.succeeded + {a.id}))
  {
    states', events' := Continue(states, events, rule, odd, Execution(3, ReturnOk(None)));
  }

  /** Main result: a sweep that read a task before it succeeded queues it afterwards, and
      putting it off for its rate limit makes it live again, next to a new task that took
      over its hash. Every other step of this run keeps every hypothesis. */
  lemma StaleVisitMakesDuplicates(a: Record, b: Record) returns (states: seq<Sys>, events: seq<Event>, stale: nat)
    requires Twins(a, b)
    ensures IsRun(states, CAPS, events) && stale < |events| && events[stale] == Sweeper(4, VisitNext)
    ensures forall i :: 0 <= i < |events| && i != stale ==> Merged(states[i], events[i]) && NoReuse(states[i], events[i])
    ensures !NoDuplicates(Last(states))
  {
    var rule: Rule := (s, e) => Careful(s, e);
    assert Lenient(rule);
    stale := 24;
    states, events := SecondTwinEnqueued(rule, stale, a, b);
    assert [a] + [] == [a];
    states, events := QueueIt(states, events, rule, stale, 4, a, []);
    states, events := PutOff(states, events, rule, stale, a);
    var live := Last(states).live;
    assert a.id in live && b.id in live && Clash(live[a.id], live[b.id]);
  }

  /** Two versions of one id with different hashes, and a task with the first hash. */
  predicate Reused(first: Record, second: Record, b: Record) {
    && first.id == second.id && first.id != b.id
    && first.deletedAt.None? && second.deletedAt.None? && b.deletedAt.None?
    && first.triggerAfterIds.None? && second.triggerAfterIds.None? && b.triggerAfterIds.None?
    && first.payloadHash.Some? && second.payloadHash.Some? && first.payloadHash != second.payloadHash
    && b.payloadHash == first.payloadHash
  }

  /** An id is enqueued twice; a restart registers the second hash only; a task with the
      first hash is enqueued. */
  lemma HashForgotten(rule: Rule, odd: nat, first: Record, second: Record, b: Record) returns (states: seq<Sys>, events: seq<Event>)
    requires Reused(first, second, b) && Lenient(rule) && forall s, e :: Merged(s, e) ==> rule(s, e)
    ensures Story(states, events, rule, odd) && |events| == 10
    ensures Last(states).log == [Json(first), Json(second), Json(b)]
  {
    states, events := BothVersions(rule, odd, first, second);
    states, events := RestartIt(states, events, rule, odd, first, second);
    states, events := EnqueueMore(states, events, rule, odd, b);
  }

  lemma BothVersions(rule: Rule, odd: nat, first: Record, second: Record) returns (states: seq<Sys>, events: seq<Event>)
    requires first.deletedAt.None? && second.deletedAt.None? && first.triggerAfterIds.None? && second.triggerAfterIds.None?
    requires first.payloadHash.Some? && first.payloadHash != second.payloadHash
    requires Lenient(rule) && forall s, e :: Merged(s, e) ==> rule(s, e)
    ensures Story(states, events, rule, odd) && |events| == 6 && Last(states).log == [Json(first), Json(second)]
  {
    assert Merged(EMPTY, Sweeper(1, Submit(first)));
    assert Merged(At(EMPTY, 1, Enqueuing(first, true)).(sh := RegisterHash(EMPTY.sh, first)), Sweeper(1, Accept));
    ClosedSetBlocks(EMPTY.live, {}, [], first.id);
    states, events := FirstEnqueue(rule, odd, first);
    states, events := EnqueueMore(states, events, rule, odd, second);
  }

  lemma RestartIt(states: seq<Sys>, events: seq<Event>, rule: Rule, odd: nat, first: Record, second: Record) returns (states': seq<Sys>, events': seq<Event>)
    requires Story(states, events, rule, odd) && forall s, e :: Merged(s, e) ==> rule(s, e)
    requires Last(states).log == [Json(first), Json(second)] && first.id == second.id
    requires first.deletedAt.None? && second.deletedAt.None? && second.payloadHash.Some?
    ensures Story(states', events', rule, odd) && |events'| == |events| + 1 && events <= events'
    ensures var s, s' := Last(states), Last(states');
            s'.log == s.log && s'.threads == map[] && s'.sh.hashes == {second.payloadHash.value}
  {
    assert Merged(Last(states), World(Crash));
    states', events' := Continue(states, events, rule, odd, World(Crash));
    OnlySecondLive(first, second);
    OneHash(second);
  }

  lemma OneHash(r: Record)
    requires r.payloadHash.Some?
    ensures Opened(map[r.id := r], CAPS).hashes == {r.payloadHash.value}
  {
    assert r.id in map[r.id := r];
  }

  lemma EnqueueMore(states: seq<Sys>, events: seq<Event>, rule: Rule, odd: nat, r: Record) returns (states': seq<Sys>, events': seq<Event>)
    requires Story(states, events, rule, odd) && forall s, e :: Merged(s, e) ==> rule(s, e)
    requires Last(states).threads == map[] && !Duplicate(Last(states).sh, r) && r.deletedAt.None? && r.triggerAfterIds.None?
    ensures Story(states', events', rule, odd) && |events'| == |events| + 3 && events <= events'
    ensures Last(states') == Enqueued(Last(states), r)
  {
    var s := Last(states);
    ClosedSetBlocks(s.live, {}, [], r.id);
    assert Merged(s, Sweeper(1, Submit(r)));
    assert Merged(At(s, 1, Enqueuing(r, true)).(sh := RegisterHash(s.sh, r)), Sweeper(1, Accept));
    states', events' := EnqueueIt(states, events, rule, odd, 1, r);
  }

  lemma OnlySecondLive(first: Record, second: Record)
    requires first.id == second.id && first.deletedAt.None? && second.deletedAt.None?
    ensures Replay([Json(first), Json(second)]) == map[second.id := second]
  {
    var lines := [Json(first), Json(second)];
    ReadableAll(lines);
    assert lines[..1] == [Json(first)] && lines[..1][..0] == [];
    assert Fold(lines[..1]) == map[first.id := first];
  }

  lemma CompactThree(states: seq<Sys>, events: seq<Event>, rule: Rule, first: Record, second: Record, b: Record) returns (states': seq<Sys>, events': seq<Event>)
    requires Story(states, events, rule, 10) && |events| == 10 && Reused(first, second, b)
    requires Last(states).log == [Json(first), Json(second), Json(b)]
    ensures Story(states', events', rule, 10) && events' == events + [World(CompactLog([0, 0, 0], [first.id, b.id]))]
    ensures Last(states').live == map[first.id := first, b.id := b]
  {
    var s := Last(states);
    TiedStampsRollBackBeside(first, second, b, 0);
    var kept := CompactFold(s.log, [0, 0, 0]);
    assert kept.Keys == {first.id, b.id} by { assert Records(kept).Keys == {first.id, b.id}; }
    assert Enumerates([first.id, b.id], kept);
    states', events' := Continue(states, events, rule, 10, World(CompactLog([0, 0, 0], [first.id, b.id])));
  }

  /** Main result: with an id reused, one compaction at tied stamps brings an old hash back
      that a restart has forgotten and a new task has taken. Every other step is merged. */
  lemma TiedCompactionMakesDuplicates(first: Record, second: Record, b: Record) returns (states: seq<Sys>, events: seq<Event>, tied: nat)
    requires Reused(first, second, b)
    ensures IsRun(states, CAPS, events) && tied < |events| && events[tied].World? && events[tied].world.CompactLog?
    ensures forall i :: 0 <= i < |events| && i != tied ==> Merged(states[i], events[i])
    ensures !NoDuplicates(Last(states))
  {
    var rule: Rule := (s, e) => Merged(s, e);
    assert Lenient(rule);
    tied := 10;
    states, events := HashForgotten(rule, tied, first, second, b);
    states, events := CompactThree(states, events, rule, first, second, b);
    var live := Last(states).live;
    assert live == map[first.id := first, b.id := b];
    assert first.id in live && b.id in live && Clash(live[first.id], live[b.id]);
  }

  // -------------------------------------------------------- such tasks exist

  const SAMPLE: Record := Record(
    "a", 0, 1, 0.0, 0, "", "", None, None, None, None, None, None, None, None, 0, None, None, None, None, None)

  /** None of the runs above is about nothing. */
  lemma SuchTasksExist()
    ensures exists r :: Plain(r) && r.maxRetries >= 2
    ensures exists parent, child :: Family(parent, child)
    ensures exists a, b :: Twins(a, b)
    ensures exists first, second, b :: Reused(first, second, b)
  {
    assert Plain(SAMPLE.(maxRetries := 2));
    var other := SAMPLE.(id := "b");
    assert other.id != SAMPLE.id;
    assert Family(SAMPLE, other.(triggerAfterIds := Some(["a"])));
    var hashed := SAMPLE.(payloadHash := Some("h"));
    assert Twins(hashed.(rateLimitGroup := Some("g"), maxPerMinute := Some(1)), other.(payloadHash := Some("h")));
    var second := SAMPLE.(payloadHash := Some("k"));
    assert "h" != "k";
    assert Reused(hashed, second, other.(payloadHash := Some("h")));
  }
}
