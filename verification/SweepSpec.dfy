/** What a whole sweep does, whatever order it visits the tasks in. */
module SweepSpec {
  import opened Wrappers
  import opened Tasks
  import opened Scheduler

  /** The time of `r` has come, by both of its stamps; it is no tombstone, and nothing it
      waits for is live. */
  ghost predicate Due(r: Record, live: map<Id, Record>, now: Time) {
    && r.executeAt <= now && r.retryAfterTime <= now
    && r.deletedAt.None?
    && (r.triggerAfterIds.Some? ==> forall id :: id in r.triggerAfterIds.value ==> id !in live)
  }

  /** The heap `r` belongs in: its own pool's if there is one, else the default pool's. */
  function Home(r: Record, pools: set<Pool>): Pool {
    if r.pool.Some? && r.pool.value in pools then r.pool.value else "default"
  }

  lemma PushesMeans(sh: Shared, live: map<Id, Record>, r: Record, now: Time)
    ensures Pushes(sh, live, r, now) <==>
            Due(r, live, now) && r.id !in sh.queued && r.id !in sh.executing && Home(r, sh.pqs.Keys) in sh.pqs
    ensures Pushes(sh, live, r, now) ==> PoolFor(sh, r) == Some(Home(r, sh.pqs.Keys))
  {
    if DepsDone(live, r) && r.triggerAfterIds.Some? {
      forall id | id in r.triggerAfterIds.value ensures id !in live {
        var i :| 0 <= i < |r.Deps()| && r.Deps()[i] == id;
      }
    }
  }

  /** The loop of `process_due_tasks` over `todo`. */
  function VisitAll(sh: Shared, live: map<Id, Record>, todo: seq<Record>, now: Time): Shared {
    if todo == [] then sh
    else Visit(VisitAll(sh, live, todo[..|todo| - 1], now), live, todo[|todo| - 1], now)
  }

  ghost predicate DistinctIds(todo: seq<Record>) {
    forall i, j :: 0 <= i < j < |todo| ==> todo[i].id != todo[j].id
  }

  lemma VisitElsewhere(sh: Shared, mid: Shared, live: map<Id, Record>, r: Record, now: Time)
    requires mid.executing == sh.executing && mid.pqs.Keys == sh.pqs.Keys && (r.id in mid.queued <==> r.id in sh.queued)
    ensures PoolFor(mid, r) == PoolFor(sh, r) && Pushes(mid, live, r, now) == Pushes(sh, live, r, now)
  {
    assert forall p :: p in mid.pqs <==> p in mid.pqs.Keys;
  }

  lemma {:induction false} VisitsFrame(sh: Shared, live: map<Id, Record>, todo: seq<Record>, now: Time)
    ensures var sh' := VisitAll(sh, live, todo, now);
            sh' == sh.(queued := sh'.queued, pqs := sh'.pqs) && sh'.pqs.Keys == sh.pqs.Keys
  {
    if todo != [] {
      VisitsFrame(sh, live, todo[..|todo| - 1], now);
    }
  }

  /** The sweep pushes exactly the tasks that were due before it started: no visit makes
      another task due or not due. */
  lemma {:induction false} SweepPushesTheDue(sh: Shared, live: map<Id, Record>, todo: seq<Record>, now: Time)
    requires DistinctIds(todo)
    ensures var sh' := VisitAll(sh, live, todo, now);
            && sh' == sh.(queued := sh'.queued, pqs := sh'.pqs) && sh'.pqs.Keys == sh.pqs.Keys
            && (forall id :: id in sh'.queued <==> id in sh.queued || exists r :: r in todo && r.id == id && Pushes(sh, live, r, now))
  {
    VisitsFrame(sh, live, todo, now);
    if todo != [] {
      var n := |todo| - 1;
      var init, last := todo[..n], todo[n];
      var mid := VisitAll(sh, live, init, now);
      SweepPushesTheDue(sh, live, init, now);
      assert forall r :: r in todo <==> r in init || r == last;
      assert forall r :: r in init ==> r.id != last.id;
      VisitElsewhere(sh, mid, live, last, now);
      var sh' := VisitAll(sh, live, todo, now);
      forall id
        ensures id in sh'.queued <==> id in sh.queued || exists r :: r in todo && r.id == id && Pushes(sh, live, r, now)
      {
        if id == last.id && Pushes(sh, live, last, now) { assert last in todo; }
      }
    }
  }

  function Pushed(sh: Shared, live: map<Id, Record>, todo: seq<Record>, now: Time, p: Pool): multiset<Record> {
    if todo == [] then multiset{}
    else
      var r := todo[|todo| - 1];
      Pushed(sh, live, todo[..|todo| - 1], now, p)
      + if Pushes(sh, live, r, now) && PoolFor(sh, r) == Some(p) then multiset{r} else multiset{}
  }

  /** Each pushed task lands once, in the heap chosen for it; nothing else moves. */
  lemma {:induction false} SweepFillsHeaps(sh: Shared, live: map<Id, Record>, todo: seq<Record>, now: Time, p: Pool)
    requires DistinctIds(todo) && p in sh.pqs
    ensures p in VisitAll(sh, live, todo, now).pqs
    ensures VisitAll(sh, live, todo, now).pqs[p] == sh.pqs[p] + Pushed(sh, live, todo, now, p)
  {
    if todo != [] {
      SweepFillsHeaps(sh, live, todo[..|todo| - 1], now, p);
      LastUndisturbed(sh, live, todo, now);
    }
  }

  /** The visits before it do not change what the last one does. */
  lemma LastUndisturbed(sh: Shared, live: map<Id, Record>, todo: seq<Record>, now: Time)
    requires DistinctIds(todo) && todo != []
    ensures var mid := VisitAll(sh, live, todo[..|todo| - 1], now);
            var last := todo[|todo| - 1];
            PoolFor(mid, last) == PoolFor(sh, last) && Pushes(mid, live, last, now) == Pushes(sh, live, last, now)
  {
    var init, last := todo[..|todo| - 1], todo[|todo| - 1];
    SweepPushesTheDue(sh, live, init, now);
    assert forall r :: r in init ==> r.id != last.id;
    VisitElsewhere(sh, VisitAll(sh, live, init, now), live, last, now);
  }

  /** The pools the sweep pushed to. */
  function PushedPools(sh: Shared, live: map<Id, Record>, todo: seq<Record>, now: Time): set<Pool> {
    if todo == [] then {}
    else
      var init := todo[..|todo| - 1];
      var r := todo[|todo| - 1];
      var sh' := VisitAll(sh, live, init, now);
      PushedPools(sh, live, init, now) + if Pushes(sh', live, r, now) then {PoolFor(sh', r).value} else {}
  }

  /** A task is pushed to a heap once or not at all. */
  lemma {:induction false} PushedOnce(sh: Shared, live: map<Id, Record>, todo: seq<Record>, now: Time, p: Pool, r: Record)
    requires DistinctIds(todo)
    ensures Pushed(sh, live, todo, now, p)[r] ==
            if r in todo && Pushes(sh, live, r, now) && PoolFor(sh, r) == Some(p) then 1 else 0
  {
    if todo != [] {
      var n := |todo| - 1;
      PushedOnce(sh, live, todo[..n], now, p, r);
      assert r in todo <==> r in todo[..n] || r == todo[n];
      assert r == todo[n] ==> r !in todo[..n];
    }
  }

  /** `p` gets a task from the sweep. */
  ghost predicate Receives(sh: Shared, live: map<Id, Record>, todo: seq<Record>, now: Time, p: Pool) {
    exists r :: r in todo && Pushes(sh, live, r, now) && PoolFor(sh, r) == Some(p)
  }

  lemma {:induction false} PushedPoolsReceive(sh: Shared, live: map<Id, Record>, todo: seq<Record>, now: Time, p: Pool)
    requires DistinctIds(todo)
    ensures p in PushedPools(sh, live, todo, now) <==> Receives(sh, live, todo, now, p)
  {
    if todo != [] {
      var n := |todo| - 1;
      PushedPoolsReceive(sh, live, todo[..n], now, p);
      LastUndisturbed(sh, live, todo, now);
      assert forall r :: r in todo <==> r in todo[..n] || r == todo[n];
    }
  }

  /** The sweep takes the task `id`: it is due, neither queued nor executing, and has a heap. */
  ghost predicate Takes(sh: Shared, live: map<Id, Record>, id: Id, now: Time) {
    && id in live && Due(live[id], live, now)
    && id !in sh.queued && id !in sh.executing
    && Home(live[id], sh.pqs.Keys) in sh.pqs
  }

  ghost predicate ListsAll(todo: seq<Record>, live: map<Id, Record>) {
    && (forall id :: id in live ==> live[id].id == id)
    && forall r: Record :: r in todo <==> r.id in live && live[r.id] == r
  }

  /** `p` is the home of a task that the sweep takes. */
  ghost predicate Gains(sh: Shared, live: map<Id, Record>, p: Pool, now: Time) {
    exists id :: Takes(sh, live, id, now) && Home(live[id], sh.pqs.Keys) == p
  }

  /** `after` is `before` with exactly the tasks the sweep takes queued, each once in its
      home heap and in no other. */
  ghost predicate Swept(before: Shared, after: Shared, live: map<Id, Record>, now: Time) {
    && after == before.(queued := after.queued, pqs := after.pqs) && after.pqs.Keys == before.pqs.Keys
    && (forall id :: id in after.queued <==> id in before.queued || Takes(before, live, id, now))
    && (forall p, r: Record :: p in before.pqs ==> after.pqs[p][r] == before.pqs[p][r] + Share(before, live, p, r, now))
  }

  /** How many copies of `r` the sweep adds to the heap of `p`. */
  ghost function Share(sh: Shared, live: map<Id, Record>, p: Pool, r: Record, now: Time): nat {
    if Takes(sh, live, r.id, now) && live[r.id] == r && Home(r, sh.pqs.Keys) == p then 1 else 0
  }

  /** The visits to all the live tasks, in any order, make a sweep. */
  lemma VisitsMakeTheSweep(sh: Shared, live: map<Id, Record>, todo: seq<Record>, now: Time)
    requires DistinctIds(todo) && ListsAll(todo, live)
    ensures Swept(sh, VisitAll(sh, live, todo, now), live, now)
    ensures forall p :: p in PushedPools(sh, live, todo, now) <==> Gains(sh, live, p, now)
  {
    SweepPushesTheDue(sh, live, todo, now);
    SweepTakes(sh, live, todo, now);
    var sh' := VisitAll(sh, live, todo, now);
    forall p, r: Record | p in sh.pqs ensures sh'.pqs[p][r] == sh.pqs[p][r] + Share(sh, live, p, r, now) {
      SweepFillsHome(sh, live, todo, now, p, r);
    }
    forall p ensures p in PushedPools(sh, live, todo, now) <==> Gains(sh, live, p, now) {
      PushedPoolsReceive(sh, live, todo, now, p);
      ReceivesMeans(sh, live, todo, now, p);
    }
  }

  lemma SweepTakes(sh: Shared, live: map<Id, Record>, todo: seq<Record>, now: Time)
    requires DistinctIds(todo) && ListsAll(todo, live)
    ensures forall id :: id in VisitAll(sh, live, todo, now).queued <==> id in sh.queued || Takes(sh, live, id, now)
  {
    SweepPushesTheDue(sh, live, todo, now);
    forall id
      ensures (exists r :: r in todo && r.id == id && Pushes(sh, live, r, now)) <==> id !in sh.queued && Takes(sh, live, id, now)
    {
      if id in live { PushesMeans(sh, live, live[id], now); }
    }
  }

  lemma ReceivesMeans(sh: Shared, live: map<Id, Record>, todo: seq<Record>, now: Time, p: Pool)
    requires ListsAll(todo, live)
    ensures Receives(sh, live, todo, now, p) <==> Gains(sh, live, p, now)
  {
    if Receives(sh, live, todo, now, p) {
      var r :| r in todo && Pushes(sh, live, r, now) && PoolFor(sh, r) == Some(p);
      PushesMeans(sh, live, r, now);
      assert Takes(sh, live, r.id, now);
    }
    if Gains(sh, live, p, now) {
      var id :| Takes(sh, live, id, now) && Home(live[id], sh.pqs.Keys) == p;
      PushesMeans(sh, live, live[id], now);
      assert live[id] in todo;
    }
  }

  /** And what it adds to each heap. */
  lemma SweepFillsHome(sh: Shared, live: map<Id, Record>, todo: seq<Record>, now: Time, p: Pool, r: Record)
    requires DistinctIds(todo) && ListsAll(todo, live) && p in sh.pqs
    ensures p in VisitAll(sh, live, todo, now).pqs
    ensures VisitAll(sh, live, todo, now).pqs[p][r] == sh.pqs[p][r] + Share(sh, live, p, r, now)
  {
    SweepFillsHeaps(sh, live, todo, now, p);
    PushedOnce(sh, live, todo, now, p, r);
    PushesMeans(sh, live, r, now);
  }

  lemma VisitOneMore(sh: Shared, live: map<Id, Record>, todo: seq<Record>, now: Time, i: nat)
    requires i < |todo|
    ensures var mid := VisitAll(sh, live, todo[..i], now);
            && VisitAll(sh, live, todo[..i + 1], now) == Visit(mid, live, todo[i], now)
            && PushedPools(sh, live, todo[..i + 1], now) ==
               PushedPools(sh, live, todo[..i], now) + if Pushes(mid, live, todo[i], now) then {PoolFor(mid, todo[i]).value} else {}
  {
    assert todo[..i + 1][..i] == todo[..i];
  }

  /** One loop is added for each pool that has fewer than two. */
  function SpawnAll(counts: map<Pool, nat>, pools: set<Pool>): map<Pool, nat> {
    map p | p in counts.Keys + pools ::
      var c := if p in counts then counts[p] else 0;
      if p in pools && c < MAX_DISPATCHERS then c + 1 else c
  }

  /** Dealing with one more pool changes its count and no other. */
  lemma SpawnOneMore(counts: map<Pool, nat>, pools: set<Pool>, p: Pool)
    requires p !in pools
    ensures var c := if p in counts then counts[p] else 0;
            && SpawnAll(counts, pools + {p}) == SpawnAll(counts, pools)[p := if c < MAX_DISPATCHERS then c + 1 else c]
            && (p in SpawnAll(counts, pools) <==> p in counts) && (p in counts ==> SpawnAll(counts, pools)[p] == c)
  {}
}
