/** Runs in which a task is accepted out of order: after one that waits for it has been
    queued, or between the scan for the children of a task it waits for and that task's
    delete. No sweep is stale, no save is rolled back and every accept comes right after its
    check, and still a blocked task starts, the graph gets a cycle, or a child escapes. */
module LateParents {
  import opened Wrappers
  import opened Tasks
  import opened DepGraph
  import opened Scheduler
  import opened Machine
  import opened Journal
  import opened Attempts
  import opened Scripts
  import DepOrder

  /** What every step of the first two runs keeps. */
  ghost predicate Blameless(s: Sys, e: Event) {
    Ordinary(s, e) && Merged(s, e) && DepOrder.NoLateDependent(s, e)
  }

  ghost predicate AllowsBlameless(rule: Rule) {
    Lenient(rule) && forall s, e :: Blameless(s, e) ==> rule(s, e)
  }

  lemma BlamelessSubmit(s: Sys, t: Tid, r: Record)
    requires r.retryCount == 0
    ensures Blameless(s, Sweeper(t, Submit(r)))
  {}

  lemma BlamelessAccept(s: Sys, t: Tid)
    requires t in s.threads && s.threads[t].Enqueuing? && s.threads[t].task.id !in s.hist.accepted
    requires forall u :: u in s.threads ==> !s.threads[u].Executing?
    ensures Blameless(s, Sweeper(t, Accept))
  {}

  lemma BlamelessVisit(s: Sys, t: Tid)
    requires t in s.threads && s.threads[t].Sweeping? && s.threads[t].todo != []
    requires s.threads[t].todo[0].id in s.live && s.live[s.threads[t].todo[0].id] == s.threads[t].todo[0]
    ensures Blameless(s, Sweeper(t, VisitNext))
  {}

  /** `k` waits for `q` and perhaps for others; `q` waits for nothing, has one attempt and is
      no less urgent. */
  predicate Impatient(k: Record, q: Record) {
    && Due(k) && Due(q) && Kin(q, k) && k.retryCount == 0
    && k.id !in k.Deps() && k.payloadHash.None? && q.payloadHash.None?
    && Urgency(k) <= Urgency(q)
  }

  lemma NoDepsReachNothing(g: Graph, id: Id)
    ensures !Reaches(g, [], id)
  {
    ClosedSetBlocks(g, {}, [], id);
  }

  /** In an empty store a task reaches just the ids it lists. */
  lemma EmptyReaches(deps: seq<Id>, id: Id)
    requires id !in deps
    ensures !Reaches(map[], deps, id)
  {
    ClosedSetBlocks(map[], (set d | d in deps), deps, id);
  }

  /** `k` is enqueued and queued, since nothing it waits for is in the store; then `q` is
      enqueued. */
  lemma ChildFirst(rule: Rule, odd: nat, k: Record, q: Record) returns (states: seq<Sys>, events: seq<Event>)
    requires Impatient(k, q) && AllowsBlameless(rule)
    ensures Story(states, events, rule, odd) && |events| == 10
    ensures var s := Last(states);
            && s.threads == map[2 := Dispatching(P, Waiting)] && s.sh == QueuedFirst(k).sh
            && s.live == map[k.id := k, q.id := q] && s.hist == QueuedFirst(k).hist.(accepted := map[k.id := k, q.id := q])
  {
    states, events := ChildQueued(rule, odd, k);
    var s := Last(states);
    NoDepsReachNothing(s.live, q.id);
    BlamelessSubmit(s, 1, q);
    BlamelessAccept(At(s, 1, Enqueuing(q, true)).(sh := RegisterHash(s.sh, q)), 1);
    states, events := EnqueueIt(states, events, rule, odd, 1, q);
    assert Last(states).live == map[k.id := k, q.id := q];
    assert Last(states).hist.accepted == map[k.id := k, q.id := q];
  }

  lemma ChildQueued(rule: Rule, odd: nat, k: Record) returns (states: seq<Sys>, events: seq<Event>)
    requires Due(k) && k.retryCount == 0 && k.id !in k.Deps() && AllowsBlameless(rule)
    ensures Story(states, events, rule, odd) && |events| == 7 && Last(states) == QueuedFirst(k)
  {
    EmptyReaches(k.Deps(), k.id);
    BlamelessSubmit(EMPTY, 1, k);
    BlamelessAccept(At(EMPTY, 1, Enqueuing(k, true)).(sh := RegisterHash(EMPTY.sh, k)), 1);
    BlamelessVisit(At(Accepted(k), 1, Sweeping([k], 0, {})), 1);
    states, events := EnqueueAndSweep(rule, odd, k);
  }

  /** A second sweep queues `q` next to `k`. */
  lemma BothQueued(rule: Rule, odd: nat, k: Record, q: Record) returns (states: seq<Sys>, events: seq<Event>)
    requires Impatient(k, q) && AllowsBlameless(rule)
    ensures Story(states, events, rule, odd) && |events| == 15
    ensures var s := Last(states);
            && s.threads == map[2 := Dispatching(P, Waiting), 5 := Dispatching(P, Waiting)]
            && s.sh.queued == {k.id, q.id} && s.sh.executing == {} && s.sh.completed == map[] && s.sh.hashes == {}
            && s.sh.pqs == map[P := multiset{k, q}] && s.sh.permits == map[P := 1]
            && s.live == map[k.id := k, q.id := q] && s.hist == QueuedFirst(k).hist.(accepted := map[k.id := k, q.id := q])
  {
    states, events := ParentQueued(rule, odd, k, q);
    states, events := SpawnIt(states, events, rule, odd, 4, 5);
    assert Last(states).threads == map[2 := Dispatching(P, Waiting), 5 := Dispatching(P, Waiting)];
  }

  lemma ParentQueued(rule: Rule, odd: nat, k: Record, q: Record) returns (states: seq<Sys>, events: seq<Event>)
    requires Impatient(k, q) && AllowsBlameless(rule)
    ensures Story(states, events, rule, odd) && |events| == 13
    ensures var s := Last(states);
            && s.threads == map[2 := Dispatching(P, Waiting), 4 := Sweeping([], 0, {P})]
            && s.sh.queued == {k.id, q.id} && s.sh.executing == {} && s.sh.completed == map[] && s.sh.hashes == {}
            && s.sh.pqs == map[P := multiset{k, q}] && s.sh.permits == map[P := 1] && Loops(s.sh, P) == 1
            && s.live == map[k.id := k, q.id := q] && s.hist == QueuedFirst(k).hist.(accepted := map[k.id := k, q.id := q])
  {
    states, events := ParentVisited(rule, odd, k, q);
    BlamelessVisit(Last(states), 4);
    states, events := SkipIt(states, events, rule, odd, 4, k, {P});
    assert Last(states).threads == map[2 := Dispatching(P, Waiting), 4 := Sweeping([], 0, {P})];
  }

  lemma ParentVisited(rule: Rule, odd: nat, k: Record, q: Record) returns (states: seq<Sys>, events: seq<Event>)
    requires Impatient(k, q) && AllowsBlameless(rule)
    ensures Story(states, events, rule, odd) && |events| == 12
    ensures var s := Last(states);
            && s.threads == map[2 := Dispatching(P, Waiting), 4 := Sweeping([k], 0, {P})]
            && s.sh.queued == {k.id, q.id} && s.sh.executing == {} && s.sh.completed == map[] && s.sh.hashes == {}
            && s.sh.pqs == map[P := multiset{k, q}] && s.sh.permits == map[P := 1] && Loops(s.sh, P) == 1
            && s.live == map[k.id := k, q.id := q] && s.hist == QueuedFirst(k).hist.(accepted := map[k.id := k, q.id := q])
  {
    states, events := FamilyRead(rule, odd, k, q);
    BlamelessVisit(Last(states), 4);
    var sh := Last(states).sh;
    states, events := QueueMore(states, events, rule, odd, 4, q, [k]);
    assert multiset{k} + multiset{q} == multiset{k, q};
    assert sh.queued + {q.id} == {k.id, q.id} && sh.pqs[P := multiset{k, q}] == map[P := multiset{k, q}];
    assert Last(states).threads == map[2 := Dispatching(P, Waiting), 4 := Sweeping([k], 0, {P})];
  }

  lemma FamilyRead(rule: Rule, odd: nat, k: Record, q: Record) returns (states: seq<Sys>, events: seq<Event>)
    requires Impatient(k, q) && AllowsBlameless(rule)
    ensures Story(states, events, rule, odd) && |events| == 11
    ensures var s := Last(states);
            && s.threads == map[2 := Dispatching(P, Waiting), 4 := Sweeping([q] + [k], 0, {})] && s.sh == QueuedFirst(k).sh
            && s.live == map[k.id := k, q.id := q] && s.hist == QueuedFirst(k).hist.(accepted := map[k.id := k, q.id := q])
  {
    states, events := ChildFirst(rule, odd, k, q);
    states, events := ReadIt(states, events, rule, odd, 4, [q] + [k]);
  }

  /** `q` runs first and fails for good; `k` is tombstoned, and its copy is still queued. */
  lemma ParentFailsFirst(rule: Rule, odd: nat, k: Record, q: Record) returns (states: seq<Sys>, events: seq<Event>)
    requires Impatient(k, q) && AllowsBlameless(rule)
    ensures Story(states, events, rule, odd) && |events| == 25
    ensures var s := Last(states);
            && s.threads == map[2 := Dispatching(P, Waiting), 5 := Dispatching(P, Waiting), 3 := Executing(P, Marking(q))]
            && s.sh.queued == {k.id} && s.sh.executing == {q.id} && s.sh.completed == map[] && s.sh.hashes == {}
            && s.sh.pqs == map[P := multiset{k}] && s.sh.permits == map[P := 0]
            && s.live == map[q.id := q] && s.hist.accepted == map[k.id := k, q.id := q]
            && s.hist.starts == map[q.id := 1] && s.hist.blocked == {k.id}
  {
    states, events := ParentRuns(rule, odd, k, q);
    states, events := ParentFails(states, events, rule, odd, q, k);
  }

  lemma ParentRuns(rule: Rule, odd: nat, k: Record, q: Record) returns (states: seq<Sys>, events: seq<Event>)
    requires Impatient(k, q) && AllowsBlameless(rule)
    ensures Story(states, events, rule, odd) && |events| == 21
    ensures var s := Last(states);
            && s.threads == map[2 := Dispatching(P, Waiting), 5 := Dispatching(P, Waiting), 3 := Executing(P, Running(q))]
            && s.sh.queued == {k.id} && s.sh.executing == {q.id} && s.sh.completed == map[] && s.sh.hashes == {}
            && s.sh.pqs == map[P := multiset{k}] && s.sh.permits == map[P := 0]
            && s.live == map[q.id := q, k.id := k] && s.hist.accepted == map[k.id := k, q.id := q]
            && s.hist.starts == map[q.id := 1] && s.hist.blocked == {}
  {
    states, events := BothQueued(rule, odd, k, q);
    states, events := ParentStarts(states, events, rule, odd, k, q);
  }

  lemma ParentStarts(states: seq<Sys>, events: seq<Event>, rule: Rule, odd: nat, k: Record, q: Record) returns (states': seq<Sys>, events': seq<Event>)
    requires Story(states, events, rule, odd) && k.id != q.id && Urgency(k) <= Urgency(q)
    requires var s := Last(states);
             && s.threads == map[2 := Dispatching(P, Waiting), 5 := Dispatching(P, Waiting)]
             && s.sh.queued == {k.id, q.id} && s.sh.executing == {} && s.sh.completed == map[]
             && s.sh.pqs == map[P := multiset{k, q}] && s.sh.permits == map[P := 1] && s.hist.starts == map[]
    ensures Story(states', events', rule, odd) && |events'| == |events| + 6
    ensures var s, s' := Last(states), Last(states');
            && s'.threads == map[2 := Dispatching(P, Waiting), 5 := Dispatching(P, Waiting), 3 := Executing(P, Running(q))]
            && s'.sh.queued == {k.id} && s'.sh.executing == {q.id} && s'.sh.completed == map[] && s'.sh.hashes == s.sh.hashes
            && s'.sh.pqs == map[P := multiset{k}] && s'.sh.permits == map[P := 0] && s'.live == s.live
            && s'.hist == s.hist.(starts := map[q.id := 1])
  {
    PoppedFirst(Last(states).sh, k, q);
    states', events' := StartIt(states, events, rule, odd, q);
    assert Last(states').hist.starts == map[q.id := 1];
  }

  lemma PoppedFirst(sh: Shared, k: Record, q: Record)
    requires k.id != q.id && Urgency(k) <= Urgency(q)
    requires sh.queued == {k.id, q.id} && sh.executing == {} && sh.pqs == map[P := multiset{k, q}] && sh.permits == map[P := 1]
    ensures Poppable(sh, P, q)
    ensures var sh' := Start(Pop(TakePermit(sh, P), P, q), q.id);
            && sh'.queued == {k.id} && sh'.executing == {q.id} && sh'.completed == sh.completed && sh'.hashes == sh.hashes
            && sh'.pqs == map[P := multiset{k}] && sh'.permits == map[P := 0]
  {
    MostUrgentOfTwo(sh, k, q);
    assert multiset{k, q} - multiset{q} == multiset{k};
    var popped := Pop(TakePermit(sh, P), P, q);
    assert popped.pqs == map[P := multiset{k}] && popped.permits == map[P := 0] && popped.queued == sh.queued && popped.executing == {};
    assert {k.id, q.id} - {q.id} == {k.id};
  }

  lemma MostUrgentOfTwo(sh: Shared, k: Record, q: Record)
    requires Urgency(k) <= Urgency(q) && sh.pqs == map[P := multiset{k, q}]
    ensures Poppable(sh, P, q)
  {
    forall x | x in sh.pqs[P] ensures Urgency(x) <= Urgency(q) {
      assert x == k || x == q;
    }
  }

  /** `q` is gone, and the copy of the blocked `k` is alone in the heap. */
  lemma BlockedInHeap(rule: Rule, odd: nat, k: Record, q: Record) returns (states: seq<Sys>, events: seq<Event>)
    requires Impatient(k, q) && AllowsBlameless(rule)
    ensures Story(states, events, rule, odd) && |events| == 31
    ensures var s := Last(states);
            && s.threads == map[2 := Dispatching(P, Waiting), 5 := Dispatching(P, Waiting)]
            && s.sh.queued == {k.id} && s.sh.executing == {} && s.sh.completed.Keys == {q.id} && s.sh.hashes == {}
            && s.sh.pqs == map[P := multiset{k}] && s.sh.permits == map[P := 1]
            && s.live == map[] && s.hist.accepted == map[k.id := k, q.id := q]
            && s.hist.starts == map[q.id := 1] && s.hist.blocked == {k.id}
  {
    states, events := ParentFailsFirst(rule, odd, k, q);
    states, events := VanishIt(states, events, rule, odd, q);
    assert Last(states).threads == map[2 := Dispatching(P, Waiting), 5 := Dispatching(P, Waiting)];
  }

  /** Main result: a task that is accepted after one that waits for it has been queued can
      fail for good while that one is still queued, which then starts although it is blocked.
      Every step of this run is ordinary and merged, and none accepts a late dependent. */
  lemma LateParentBreaksTheOrder(k: Record, q: Record) returns (states: seq<Sys>, events: seq<Event>)
    requires Impatient(k, q)
    ensures IsRun(states, CAPS, events) && ChecksAtOnce(events)
    ensures forall i :: 0 <= i < |events| ==>
              Ordinary(states[i], events[i]) && Merged(states[i], events[i]) && DepOrder.NoLateDependent(states[i], events[i])
    ensures var s := Last(states);
            k.id in s.hist.blocked && k.id !in s.live && Count(s.hist.starts, k.id) == 1
  {
    var rule: Rule := (s, e) => Blameless(s, e);
    assert AllowsBlameless(rule);
    states, events := BlockedInHeap(rule, 37, k, q);
    states, events := StartIt(states, events, rule, 37, k);
  }

  // -------------------------------------------------------------------- a cycle

  /** `k` waits for `q` and `n` and is in a rate-limit group, and `n` waits for `k`. */
  predicate Knot(k: Record, q: Record, n: Record) {
    && Impatient(k, q) && k.triggerAfterIds == Some([q.id, n.id]) && k.rateLimitGroup.Some? && k.maxPerMinute.Some?
    && n.id != k.id && n.id != q.id && n.triggerAfterIds == Some([k.id])
    && n.deletedAt.None? && n.retryCount == 0 && n.payloadHash.None?
  }

  /** `n` is accepted: `k` is not in the store, so nothing is reachable through it. */
  lemma KnotAccepted(rule: Rule, odd: nat, k: Record, q: Record, n: Record) returns (states: seq<Sys>, events: seq<Event>)
    requires Knot(k, q, n) && AllowsBlameless(rule)
    ensures Story(states, events, rule, odd) && |events| == 34
    ensures var s := Last(states);
            && 2 in s.threads && s.threads[2] == Dispatching(P, Waiting)
            && s.sh.pqs == map[P := multiset{k}] && s.sh.permits == map[P := 1] && s.live == map[n.id := n]
  {
    states, events := BlockedInHeap(rule, odd, k, q);
    var s := Last(states);
    EmptyReaches([k.id], n.id);
    BlamelessSubmit(s, 1, n);
    BlamelessAccept(At(s, 1, Enqueuing(n, true)).(sh := RegisterHash(s.sh, n)), 1);
    states, events := EnqueueIt(states, events, rule, odd, 1, n);
    assert Last(states).live == map[n.id := n];
  }

  /** Main result: putting a blocked task off makes it live again without a check, and so can
      close a cycle with a task accepted in the meantime: nothing in the store is ever ready
      again. Every step of this run is ordinary and merged, none accepts a late dependent, and
      every accept comes right after its check. */
  lemma PutOffMakesCycle(k: Record, q: Record, n: Record) returns (states: seq<Sys>, events: seq<Event>)
    requires Knot(k, q, n)
    ensures IsRun(states, CAPS, events) && ChecksAtOnce(events)
    ensures forall i :: 0 <= i < |events| ==>
              Ordinary(states[i], events[i]) && Merged(states[i], events[i]) && DepOrder.NoLateDependent(states[i], events[i])
    ensures var live := Last(states).live;
            live.Keys == {k.id, n.id} && !Acyclic(live) && forall id :: !Ready(live, id)
  {
    var rule: Rule := (s, e) => Blameless(s, e);
    assert AllowsBlameless(rule);
    states, events := KnotAccepted(rule, 38, k, q, n);
    states, events := PutOff(states, events, rule, 38, k);
    var live := Last(states).live;
    assert live == map[n.id := n, k.id := Deferred(k, 0)];
    assert n.id == k.Deps()[1] && k.id == n.Deps()[0];
    TwoCycle(live, k.id, n.id);
  }

  // ------------------------------------------------------------- a late dependent

  /** What every step of the third run keeps. */
  ghost predicate Timely(s: Sys, e: Event) {
    Ordinary(s, e) && Merged(s, e) && DepOrder.BeforeDependents(s, e)
  }

  /** `x` is scanned for children while it has none. */
  lemma ScannedTooEarly(rule: Rule, odd: nat, x: Record) returns (states: seq<Sys>, events: seq<Event>)
    requires Due(x) && x.retryCount == 0 && x.maxRetries <= 1 && x.triggerAfterIds.None? && x.payloadHash.None?
    requires Lenient(rule) && forall s, e :: Timely(s, e) ==> rule(s, e)
    ensures Story(states, events, rule, odd) && |events| == 16
    ensures var s := Last(states);
            && s.threads == map[2 := Dispatching(P, Waiting), 3 := Executing(P, Marking(x))]
            && s.live == map[x.id := x] && s.sh.hashes == {} && s.hist.accepted == map[x.id := x]
            && s.hist.exhausted == {x.id} && s.hist.succeeded == {} && s.hist.blocked == {}
  {
    NoDepsReachNothing(EMPTY.live, x.id);
    assert Timely(EMPTY, Sweeper(1, Submit(x)));
    assert Timely(At(EMPTY, 1, Enqueuing(x, true)).(sh := RegisterHash(EMPTY.sh, x)), Sweeper(1, Accept));
    assert Timely(At(Accepted(x), 1, Sweeping([x], 0, {})), Sweeper(1, VisitNext));
    states, events := EnqueueAndSweep(rule, odd, x);
    states, events := StartIt(states, events, rule, odd, x);
    states, events := FailAlone(states, events, rule, odd, x);
  }

  lemma FailAlone(states: seq<Sys>, events: seq<Event>, rule: Rule, odd: nat, x: Record) returns (states': seq<Sys>, events': seq<Event>)
    requires Story(states, events, rule, odd) && x.retryCount == 0 && x.maxRetries <= 1 && x.triggerAfterIds.None?
    requires var s := Last(states);
             && s.threads.Keys == {2, 3} && s.threads[2] == Dispatching(P, Waiting) && s.threads[3] == Executing(P, Running(x))
             && s.live == map[x.id := x]
    ensures Story(states', events', rule, odd) && |events'| == |events| + 3 && events <= events'
    ensures var s, s' := Last(states), Last(states');
            && s'.threads == map[2 := Dispatching(P, Waiting), 3 := Executing(P, Marking(x))]
            && s'.live == s.live && s'.sh == s.sh && s'.hist.accepted == s.hist.accepted
            && s'.hist.exhausted == s.hist.exhausted + {x.id} && s'.hist.succeeded == s.hist.succeeded
            && s'.hist.blocked == s.hist.blocked
  {
    var s := Last(states);
    states', events' := ScanAlone(states, events, rule, odd, x);
    states', events' := Continue(states', events', rule, odd, Execution(3, DeadLetter(true)));
    assert Last(states').threads == map[2 := Dispatching(P, Waiting), 3 := Executing(P, Marking(x))];
  }

  lemma ScanAlone(states: seq<Sys>, events: seq<Event>, rule: Rule, odd: nat, x: Record) returns (states': seq<Sys>, events': seq<Event>)
    requires Story(states, events, rule, odd) && x.retryCount == 0 && x.maxRetries <= 1 && x.triggerAfterIds.None?
    requires var s := Last(states); 3 in s.threads && s.threads[3] == Executing(P, Running(x)) && s.live == map[x.id := x]
    ensures Story(states', events', rule, odd) && |events'| == |events| + 2 && events <= events'
    ensures var s, s' := Last(states), Last(states');
            && s'.threads == s.threads[3 := Executing(P, Blocking(x, []))]
            && s'.live == s.live && s'.sh == s.sh && s'.hist.accepted == s.hist.accepted
            && s'.hist.exhausted == s.hist.exhausted + {x.id} && s'.hist.succeeded == s.hist.succeeded
            && s'.hist.blocked == s.hist.blocked
  {
    var s := Last(states);
    states', events' := Continue(states, events, rule, odd, Execution(3, ReturnErr("failed", 0)));
    assert Last(states').threads == s.threads[3 := Executing(P, Scanning(x))] && Last(states').live == s.live;
    assert Children([], s.live, x.id);
    states', events' := Continue(states', events', rule, odd, Execution(3, ScanChildren([])));
    assert Last(states').threads == s.threads[3 := Executing(P, Blocking(x, []))];
  }

  /** Main result: a dependent accepted between the scan for the children of a task that failed
      for good and that task's delete is not blocked: it stays, with nothing to wait for. */
  lemma LateDependentEscapes(x: Record, c: Record) returns (states: seq<Sys>, events: seq<Event>)
    requires Due(x) && x.retryCount == 0 && x.maxRetries <= 1 && x.triggerAfterIds.None? && x.payloadHash.None?
    requires c.id != x.id && c.retryCount == 0 && c.deletedAt.None? && c.triggerAfterIds == Some([x.id]) && c.payloadHash.None?
    ensures IsRun(states, CAPS, events) && ChecksAtOnce(events)
    ensures forall i :: 0 <= i < |events| ==>
              Ordinary(states[i], events[i]) && Merged(states[i], events[i]) && DepOrder.BeforeDependents(states[i], events[i])
    ensures var s := Last(states);
            && x.id in s.hist.exhausted && x.id !in s.hist.succeeded && x.id in c.Deps()
            && s.live == map[c.id := c] && c.id !in s.hist.blocked && Ready(s.live, c.id)
  {
    var rule: Rule := (s, e) => Timely(s, e);
    assert Lenient(rule);
    states, events := AcceptedTooLate(rule, 25, x, c);
    states, events := VanishIt(states, events, rule, 25, x);
    assert Last(states).live == map[c.id := c];
    assert c.Deps()[0] == x.id;
  }

  lemma AcceptedTooLate(rule: Rule, odd: nat, x: Record, c: Record) returns (states: seq<Sys>, events: seq<Event>)
    requires Due(x) && x.retryCount == 0 && x.maxRetries <= 1 && x.triggerAfterIds.None? && x.payloadHash.None?
    requires c.id != x.id && c.retryCount == 0 && c.deletedAt.None? && c.triggerAfterIds == Some([x.id]) && c.payloadHash.None?
    requires Lenient(rule) && forall s, e :: Timely(s, e) ==> rule(s, e)
    ensures Story(states, events, rule, odd) && |events| == 19
    ensures var s := Last(states);
            && 3 in s.threads && s.threads[3] == Executing(P, Marking(x))
            && s.live == map[x.id := x, c.id := c]
            && s.hist.exhausted == {x.id} && s.hist.succeeded == {} && s.hist.blocked == {}
  {
    states, events := ScannedTooEarly(rule, odd, x);
    var s := Last(states);
    ClosedSetBlocks(s.live, {x.id}, [x.id], c.id);
    assert Timely(s, Sweeper(1, Submit(c)));
    assert Timely(At(s, 1, Enqueuing(c, true)).(sh := RegisterHash(s.sh, c)), Sweeper(1, Accept));
    states, events := EnqueueIt(states, events, rule, odd, 1, c);
    assert Last(states).live == map[x.id := x, c.id := c];
  }

  // -------------------------------------------------------- such tasks exist

  lemma SuchTasksExist()
    ensures exists k, q :: Impatient(k, q)
    ensures exists k, q, n :: Knot(k, q, n)
  {
    var q := Record(
      "q", 0, 1, 0.0, 0, "", "", None, None, None, None, None, None, None, None, 0, None, None, None, None, None);
    var k := q.(id := "k", triggerAfterIds := Some(["q", "n"]), rateLimitGroup := Some("g"), maxPerMinute := Some(1));
    var n := q.(id := "n", triggerAfterIds := Some(["k"]));
    assert "k" != "q" && "k" != "n" && "q" != "n";
    assert k.Deps()[0] == q.id;
    assert Impatient(k, q);
    assert Knot(k, q, n);
  }
}
