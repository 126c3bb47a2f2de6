/** Deduplication: no two live tasks carry the same payload hash. */
module Dedupe {
  import opened Wrappers
  import opened Tasks
  import opened LogReplay
  import opened Scheduler
  import opened Machine
  import opened Exclusive
  import opened Journal
  import opened Durable

  /** Everything that can still put a record, and with it a payload hash, into the store. */
  datatype Holder = Stored(id: Id) | Pending(t: Tid) | Waits(place: Place) | Runs(t: Tid)

  ghost predicate Holds(s: Sys, w: Holder, r: Record) {
    match w
    case Stored(id) => id in s.live && s.live[id] == r
    case Pending(t) => t in s.threads && s.threads[t].Enqueuing? && s.threads[t].task == r
    case Waits(pl) => Copy(s, pl, r)
    case Runs(t) =>
      && t in s.threads && s.threads[t].Executing?
      && !s.threads[t].exec.Unguarding? && !s.threads[t].exec.Releasing? && s.threads[t].exec.task == r
  }

  predicate Clash(r: Record, r': Record) {
    r.payloadHash.Some? && r.payloadHash == r'.payloadHash
  }

  /** Every hash that is held is active; holders of one hash are copies of one task, and a
      task not yet saved holds its hash alone. */
  ghost predicate HashesOwned(s: Sys) {
    && (forall w, r :: Holds(s, w, r) && r.payloadHash.Some? ==> r.payloadHash.value in s.sh.hashes)
    && (forall w, r, w', r' :: Holds(s, w, r) && Holds(s, w', r') && Clash(r, r') ==> r.id == r'.id)
    && (forall t, r, w, r' :: Holds(s, Pending(t), r) && Holds(s, w, r') && Clash(r, r') ==> w == Pending(t))
  }

  /** When an execution is about to release its hash, the store no longer carries it. */
  ghost predicate Buried(s: Sys) {
    forall t :: t in s.threads && s.threads[t].Executing? ==>
      var x := s.threads[t].exec;
      && (x.Burying? ==> x.copy.id == x.task.id)
      && (x.Unhashing? && x.task.id in s.live ==> !Clash(x.task, s.live[x.task.id]))
  }

  ghost predicate Deduped(s: Sys) {
    Exclusion(s) && Journaled(s) && HashesOwned(s) && Buried(s)
  }

  /** What a caller is promised: no two live tasks share a hash, and a live hash is active,
      so that a new task with it is dropped. */
  ghost predicate NoDuplicates(s: Sys) {
    && (forall i, j :: i in s.live && j in s.live && Clash(s.live[i], s.live[j]) ==> i == j)
    && (forall i :: i in s.live && s.live[i].payloadHash.Some? ==> s.live[i].payloadHash.value in s.sh.hashes)
  }

  lemma DedupedMeans(s: Sys)
    requires Deduped(s)
    ensures NoDuplicates(s)
  {
    forall i, j | i in s.live && j in s.live && Clash(s.live[i], s.live[j]) ensures i == j {
      assert Holds(s, Stored(i), s.live[i]) && Holds(s, Stored(j), s.live[j]);
    }
    forall i | i in s.live && s.live[i].payloadHash.Some? ensures s.live[i].payloadHash.value in s.sh.hashes {
      assert Holds(s, Stored(i), s.live[i]);
    }
  }

  // --------------------------------------------------------- hash ownership

  /** New holders are copies of one that was there; a task that was pending leaves. */
  lemma Inherit(s: Sys, s': Sys, w0: Holder, r0: Record)
    requires HashesOwned(s) && s'.sh.hashes == s.sh.hashes && Holds(s, w0, r0)
    requires forall w, r :: Holds(s', w, r) ==>
               Holds(s, w, r) || (!w.Pending? && r.id == r0.id && r.payloadHash == r0.payloadHash)
    requires w0.Pending? ==> !Holds(s', w0, r0)
    ensures HashesOwned(s')
  {}

  lemma Fewer(s: Sys, s': Sys)
    requires HashesOwned(s) && s'.sh.hashes == s.sh.hashes
    requires forall w, r :: Holds(s', w, r) ==> Holds(s, w, r)
    ensures HashesOwned(s')
  {}

  lemma SubmitOwned(s: Sys, t: Tid, task: Record)
    requires HashesOwned(s) && SweepEnabled(s, t, Submit(task))
    ensures HashesOwned(DoSweep(s, t, Submit(task)))
  {
    var s' := DoSweep(s, t, Submit(task));
    if !Duplicate(s.sh, task) {
      assert forall w, r :: Holds(s', w, r) ==> Holds(s, w, r) || (w == Pending(t) && r == task);
    }
  }

  lemma AcceptOwned(s: Sys, t: Tid)
    requires HashesOwned(s) && Journaled(s) && SweepEnabled(s, t, Accept)
    ensures HashesOwned(DoSweep(s, t, Accept))
  {
    assert Holds(s, Pending(t), s.threads[t].task);
    Inherit(s, DoSweep(s, t, Accept), Pending(t), s.threads[t].task);
  }

  predicate SameHash(live: map<Id, Record>, r: Record) {
    r.id in live && live[r.id].id == r.id && live[r.id].payloadHash == r.payloadHash
  }

  /** The hash of `r`, if it has one, is registered, and only copies of its task hold it, none
      of them pending. */
  ghost predicate HashIsItsOwn(s: Sys, r: Record) {
    r.payloadHash.Some? ==>
      && r.payloadHash.value in s.sh.hashes
      && forall w, x :: Holds(s, w, x) && Clash(r, x) ==> x.id == r.id && !w.Pending?
  }

  /** What a sweep queues has its hash to itself; a compaction keeps every live hash. */
  ghost predicate KeepsHashes(s: Sys, caps: map<Pool, nat>, e: Event) {
    && (Queues(s, e) ==> HashIsItsOwn(s, s.threads[e.t].todo[0]))
    && (e.World? && Enabled(s, e) ==>
          var live := Do(s, caps, e).live;
          live.Keys == s.live.Keys && forall id :: id in s.live ==> SameHash(s.live, live[id]))
  }

  /** A record with the hash of the live one of its id has it to itself. */
  lemma SameHashIsItsOwn(s: Sys, r: Record)
    requires HashesOwned(s) && SameHash(s.live, r)
    ensures HashIsItsOwn(s, r)
  {
    assert Holds(s, Stored(r.id), s.live[r.id]);
  }

  /** A visit keeps the hashes owned exactly if what it queues has its hash to itself. */
  lemma VisitOwnedIff(s: Sys, t: Tid)
    requires HashesOwned(s) && SweepEnabled(s, t, VisitNext)
    ensures HashesOwned(DoSweep(s, t, VisitNext))
       <==> (Queues(s, Sweeper(t, VisitNext)) ==> HashIsItsOwn(s, s.threads[t].todo[0]))
  {
    var s' := DoSweep(s, t, VisitNext);
    var r := s.threads[t].todo[0];
    if Queues(s, Sweeper(t, VisitNext)) {
      QueuedHolds(s, t);
      var w0 := Waits(InHeap(PoolFor(s.sh, r).value));
      assert Holds(s', w0, r);
      if HashIsItsOwn(s, r) { NewHolder(s, s', r); }
    } else {
      Fewer(s, s');
    }
  }

  /** A visit that queues adds the queued record to the holders, and takes none away. */
  lemma QueuedHolds(s: Sys, t: Tid)
    requires SweepEnabled(s, t, VisitNext) && Queues(s, Sweeper(t, VisitNext))
    ensures var s' := DoSweep(s, t, VisitNext);
            var r := s.threads[t].todo[0];
            && s'.sh.hashes == s.sh.hashes
            && Holds(s', Waits(InHeap(PoolFor(s.sh, r).value)), r)
            && (forall w, x :: Holds(s, w, x) ==> Holds(s', w, x))
            && (forall w, x :: Holds(s', w, x) ==> Holds(s, w, x) || (!w.Pending? && x == r))
  {
    var s' := DoSweep(s, t, VisitNext);
    var r := s.threads[t].todo[0];
    var p := PoolFor(s.sh, r).value;
    assert r in s'.sh.pqs[p];
    forall w, x | Holds(s', w, x) ensures Holds(s, w, x) || (!w.Pending? && x == r) {
      if w.Waits? && w.place.InHeap? {
        assert x in s'.sh.pqs[w.place.pool];
      }
    }
    forall w, x | Holds(s, w, x) ensures Holds(s', w, x) {
      if w.Waits? && w.place.InHeap? {
        assert x in s'.sh.pqs[w.place.pool];
      }
    }
  }

  lemma NewHolder(s: Sys, s': Sys, r: Record)
    requires HashesOwned(s) && HashIsItsOwn(s, r) && s'.sh.hashes == s.sh.hashes
    requires forall w, x :: Holds(s', w, x) ==> Holds(s, w, x) || (!w.Pending? && x == r)
    ensures HashesOwned(s')
  {}

  lemma SweepOwned(s: Sys, caps: map<Pool, nat>, t: Tid, e: SweepEvent)
    requires HashesOwned(s) && Journaled(s) && SweepEnabled(s, t, e) && KeepsHashes(s, caps, Sweeper(t, e))
    ensures HashesOwned(DoSweep(s, t, e))
  {
    match e
    case Submit(task) => SubmitOwned(s, t, task);
    case Accept => AcceptOwned(s, t);
    case VisitNext => VisitOwnedIff(s, t);
    case Check => Fewer(s, DoSweep(s, t, e));
    case ReadStore(_, _) => Fewer(s, DoSweep(s, t, e));
    case Spawn(_, _) => Fewer(s, DoSweep(s, t, e));
    case SweepEnd => Fewer(s, DoSweep(s, t, e));
  }

  lemma PopOwned(s: Sys, t: Tid, r: Record)
    requires HashesOwned(s) && DispatchEnabled(s, t, PopTask(r))
    ensures HashesOwned(DoDispatch(s, t, PopTask(r)))
  {
    var p := s.threads[t].pool;
    assert Holds(s, Waits(InHeap(p)), r);
    Inherit(s, DoDispatch(s, t, PopTask(r)), Waits(InHeap(p)), r);
  }

  lemma HeldOwned(s: Sys, t: Tid, e: DispatchEvent)
    requires HashesOwned(s) && DispatchEnabled(s, t, e) && (e.Limit? || e.Defer? || e.Begin?)
    ensures HashesOwned(DoDispatch(s, t, e))
  {
    var r := s.threads[t].disp.task;
    assert Holds(s, Waits(InThread(t)), r);
    if e.Begin? {
      Inherit(s, DoDispatch(s, t, e), Waits(InThread(t)), r);
    } else if e.Defer? {
      Inherit(s, DoDispatch(s, t, e), Waits(InThread(t)), r);
    } else {
      Inherit(s, DoDispatch(s, t, e), Waits(InThread(t)), r);
    }
  }

  lemma DispatchOwned(s: Sys, t: Tid, e: DispatchEvent)
    requires HashesOwned(s) && DispatchEnabled(s, t, e)
    ensures HashesOwned(DoDispatch(s, t, e))
  {
    if e.PopTask? {
      PopOwned(s, t, e.task);
    } else if e.Limit? || e.Defer? || e.Begin? {
      HeldOwned(s, t, e);
    } else {
      DispatchFrame(s, t, e);
      Fewer(s, DoDispatch(s, t, e));
    }
  }

  lemma ExecOwned(s: Sys, t: Tid, e: ExecEvent)
    requires HashesOwned(s) && ExecEnabled(s, t, e) && !e.Unhash?
    ensures HashesOwned(DoExec(s, t, e))
  {
    if e.DropGuard? || e.Release? {
      Fewer(s, DoExec(s, t, e));
    } else if e.Resave? || e.BlockChild? || e.DeleteWrite? {
      ExecSaveOwned(s, t, e);
    } else {
      ExecQuietOwned(s, t, e);
    }
  }

  /** These steps save nothing, and keep the task or its id and hash. */
  lemma ExecQuietOwned(s: Sys, t: Tid, e: ExecEvent)
    requires HashesOwned(s) && ExecEnabled(s, t, e)
    requires !e.Unhash? && !e.DropGuard? && !e.Release? && !e.Resave? && !e.BlockChild? && !e.DeleteWrite?
    ensures HashesOwned(DoExec(s, t, e))
  {
    var s' := DoExec(s, t, e);
    var task := s.threads[t].exec.task;
    ExecFrame(s, t, e);
    ExecLive(s, t, e);
    QuietTask(s, t, e);
    assert Holds(s, Runs(t), task);
    Inherit(s, s', Runs(t), task);
  }

  lemma QuietTask(s: Sys, t: Tid, e: ExecEvent)
    requires ExecEnabled(s, t, e)
    requires !e.Unhash? && !e.DropGuard? && !e.Release? && !e.Resave? && !e.BlockChild? && !e.DeleteWrite?
    ensures DoExec(s, t, e).sh.hashes == s.sh.hashes && t in DoExec(s, t, e).threads
    ensures var l := DoExec(s, t, e).threads[t];
            && l.Executing?
            && (!l.exec.Unguarding? && !l.exec.Releasing? ==>
                  l.exec.task.id == s.threads[t].exec.task.id && l.exec.task.payloadHash == s.threads[t].exec.task.payloadHash)
  {
    if e.ReturnOk? {} else if e.ReturnErr? {} else {}
  }

  lemma ExecSaveOwned(s: Sys, t: Tid, e: ExecEvent)
    requires HashesOwned(s) && ExecEnabled(s, t, e) && (e.Resave? || e.BlockChild? || e.DeleteWrite?)
    ensures HashesOwned(DoExec(s, t, e))
  {
    var x := s.threads[t].exec;
    assert Holds(s, Runs(t), x.task);
    Inherit(s, DoExec(s, t, e), Runs(t), x.task);
  }

  /** No one else holds the hash an execution releases. */
  lemma ReleasedAlone(s: Sys, t: Tid, w: Holder, r: Record)
    requires Deduped(s) && ExecEnabled(s, t, Unhash)
    requires Holds(s, w, r) && Clash(s.threads[t].exec.task, r)
    ensures w == Runs(t)
  {
    var task := s.threads[t].exec.task;
    assert Holds(s, Runs(t), task);
    assert r.id == task.id;
    assert Guards(s, t, task.id);
    match w
    case Stored(id) =>
    case Pending(u) =>
    case Waits(pl) =>
    case Runs(u) => OthersDiffer(s, t);
  }

  lemma UnhashOwned(s: Sys, t: Tid)
    requires Deduped(s) && ExecEnabled(s, t, Unhash)
    ensures HashesOwned(DoExec(s, t, Unhash))
  {
    var s' := DoExec(s, t, Unhash);
    var task := s.threads[t].exec.task;
    forall w, r | Holds(s', w, r) ensures Holds(s, w, r) && !Clash(task, r) {
      assert w != Runs(t);
      if Clash(task, r) { ReleasedAlone(s, t, w, r); }
    }
  }

  /** The same holders, of records with the same id and hash. */
  lemma SameHolders(s: Sys, s': Sys)
    requires HashesOwned(s) && s'.sh.hashes == s.sh.hashes
    requires forall w, r :: Holds(s', w, r) ==> exists r0 :: Holds(s, w, r0) && r0.id == r.id && r0.payloadHash == r.payloadHash
    ensures HashesOwned(s')
  {
    forall w, r | Holds(s', w, r) && r.payloadHash.Some? ensures r.payloadHash.value in s'.sh.hashes {
      var r0 :| Holds(s, w, r0) && r0.id == r.id && r0.payloadHash == r.payloadHash;
    }
    forall w, r, w', r' | Holds(s', w, r) && Holds(s', w', r') && Clash(r, r')
      ensures r.id == r'.id && (w.Pending? ==> w' == w)
    {
      var r0 :| Holds(s, w, r0) && r0.id == r.id && r0.payloadHash == r.payloadHash;
      var r1 :| Holds(s, w', r1) && r1.id == r'.id && r1.payloadHash == r'.payloadHash;
      assert Clash(r0, r1);
    }
  }

  lemma WorldOwned(s: Sys, caps: map<Pool, nat>, e: WorldEvent)
    requires HashesOwned(s) && Journaled(s) && WorldEnabled(s, e) && KeepsHashes(s, caps, World(e))
    ensures HashesOwned(DoWorld(s, caps, e))
  {
    var s' := DoWorld(s, caps, e);
    if e.Crash? {
      ReadableAll(s.log);
      forall w, r | Holds(s', w, r) ensures Holds(s, w, r) && w.Stored? {}
    } else if e.CompactLog? {
      JournalStep(s, caps, World(e));
      StoredHoldersMove(s, s');
    } else {
      Fewer(s, s');
    }
  }

  /** Only the stored records change, to others of the same ids and hashes. */
  lemma StoredHoldersMove(s: Sys, s': Sys)
    requires HashesOwned(s) && s'.sh == s.sh && s'.threads == s.threads && KeyedAndLive(s'.live)
    requires s'.live.Keys == s.live.Keys && forall id :: id in s.live ==> SameHash(s.live, s'.live[id])
    ensures HashesOwned(s')
  {
    forall w, r | Holds(s', w, r) ensures exists r0 :: Holds(s, w, r0) && r0.id == r.id && r0.payloadHash == r.payloadHash {
      if w.Stored? {
        assert w.id in s.live.Keys && SameHash(s.live, s'.live[w.id]);
        assert Holds(s, w, s.live[w.id]);
      } else {
        assert Holds(s, w, r);
      }
    }
    SameHolders(s, s');
  }

  // ------------------------------------------------------------- burial

  /** A save of `r` disturbs no burial: whoever saves it does not share both its id and
      its hash with an execution that has buried its task. */
  ghost predicate Undisturbed(s: Sys, r: Record) {
    forall t :: t in s.threads && s.threads[t].Executing? && s.threads[t].exec.Unhashing? && s.threads[t].exec.task.id == r.id
      ==> r.deletedAt.Some? || !Clash(s.threads[t].exec.task, r)
  }

  lemma SaveBuried(s: Sys, s': Sys, r: Record)
    requires Buried(s) && Undisturbed(s, r)
    requires s'.live == ApplyLine(s.live, Json(r))
    requires forall t :: t in s'.threads && s'.threads[t].Executing? && (s'.threads[t].exec.Burying? || s'.threads[t].exec.Unhashing?)
               ==> t in s.threads && s'.threads[t] == s.threads[t]
    ensures Buried(s')
  {}

  lemma SweepBuried(s: Sys, t: Tid, e: SweepEvent)
    requires Deduped(s) && SweepEnabled(s, t, e)
    ensures Buried(DoSweep(s, t, e))
  {
    SweepFrame(s, t, e);
    if e.Accept? {
      var r := s.threads[t].task.(deletedAt := None);
      assert Holds(s, Pending(t), s.threads[t].task);
      forall u | u in s.threads && s.threads[u].Executing? && s.threads[u].exec.Unhashing? && s.threads[u].exec.task.id == r.id
        ensures !Clash(s.threads[u].exec.task, r)
      {
        assert Holds(s, Runs(u), s.threads[u].exec.task);
      }
      SaveBuried(s, DoSweep(s, t, e), r);
    }
  }

  lemma DispatchBuried(s: Sys, t: Tid, e: DispatchEvent)
    requires Deduped(s) && DispatchEnabled(s, t, e)
    ensures Buried(DoDispatch(s, t, e))
  {
    if e.Defer? {
      var r := Deferred(s.threads[t].disp.task, e.now);
      HeldNotExecuting(s, t);
      NoGuard(s, r.id);
      SaveBuried(s, DoDispatch(s, t, e), r);
    }
  }

  lemma ResaveBuried(s: Sys, t: Tid)
    requires Deduped(s) && ExecEnabled(s, t, Resave)
    ensures Buried(DoExec(s, t, Resave))
  {
    var r := s.threads[t].exec.task;
    OthersDiffer(s, t);
    SaveBuried(s, DoExec(s, t, Resave), r);
  }

  lemma ExecBuried(s: Sys, t: Tid, e: ExecEvent)
    requires Deduped(s) && ExecEnabled(s, t, e)
    ensures Buried(DoExec(s, t, e))
  {
    if e.Resave? {
      ResaveBuried(s, t);
    } else {
      ExecLive(s, t, e);
      ExecFrame(s, t, e);
      assert forall u :: u in s.threads && s.threads[u].Executing? && s.threads[u].exec.Burying? ==> s.threads[u].exec.copy.id == s.threads[u].exec.task.id;
    }
  }

  // ------------------------------------------------------------------- runs

  lemma WorldBuried(s: Sys, caps: map<Pool, nat>, e: WorldEvent)
    requires Deduped(s) && WorldEnabled(s, e) && KeepsHashes(s, caps, World(e))
    ensures Buried(DoWorld(s, caps, e))
  {
    JournalStep(s, caps, World(e));
    forall id | id in DoWorld(s, caps, e).live ensures id in s.live && SameHash(s.live, DoWorld(s, caps, e).live[id]) {
      assert id in s.live.Keys;
    }
  }

  lemma DedupeStep(s: Sys, caps: map<Pool, nat>, e: Event)
    requires Deduped(s) && Enabled(s, e) && KeepsHashes(s, caps, e)
    ensures Deduped(Do(s, caps, e))
  {
    ExclusionStep(s, caps, e);
    JournalStep(s, caps, e);
    match e
    case Sweeper(t, x) => SweepOwned(s, caps, t, x); SweepBuried(s, t, x);
    case Dispatcher(t, x) => DispatchOwned(s, t, x); DispatchBuried(s, t, x);
    case Execution(t, x) =>
      ExecBuried(s, t, x);
      if x.Unhash? { UnhashOwned(s, t); } else { ExecOwned(s, t, x); }
    case World(x) =>
      WorldOwned(s, caps, x);
      WorldBuried(s, caps, x);
  }

  lemma MergedKeepsHashes(s: Sys, caps: map<Pool, nat>, e: Event)
    requires Deduped(s) && Enabled(s, e) && Merged(s, e)
    ensures KeepsHashes(s, caps, e)
  {
    if Queues(s, e) { SameHashIsItsOwn(s, s.threads[e.t].todo[0]); }
    if e.World? { WorldKeepsLive(s, caps, e.world); }
  }

  /** With ids not reused every version of a task has the hash it was accepted with. */
  lemma NoReuseKeepsHashes(s: Sys, caps: map<Pool, nat>, e: Event)
    requires Deduped(s) && Accounted(s) && Enabled(s, e) && LiveVisit(s, e)
    ensures KeepsHashes(s, caps, e)
  {
    if Queues(s, e) {
      var r := s.threads[e.t].todo[0];
      assert ReadBy(s.threads[e.t])[0] == r;
      assert LocalKnown(s.hist.accepted, s.threads[e.t]);
      assert Known(s.hist.accepted, s.live[r.id]);
      SameHashIsItsOwn(s, r);
    }
    if e.World? {
      WorldProvenance(s, caps, e.world);
      JournalStep(s, caps, e);
      var s' := Do(s, caps, e);
      forall id | id in s.live ensures SameHash(s.live, s'.live[id]) {
        assert id in s'.live.Keys;
        assert Known(s.hist.accepted, s.live[id]) && Known(s.hist.accepted, s'.live[id]);
      }
    }
  }

  lemma NothingHeldAtFirst(s: Sys, caps: map<Pool, nat>)
    requires Init(s, caps)
    ensures Deduped(s)
  {
    EmptyExcludes(s, caps);
    assert forall w, r :: !Holds(s, w, r);
  }

  /** Main result: from an empty store, no two live tasks ever carry the same payload hash
      and every live hash is active: across enqueues, retries, rate-limit saves, cron
      reschedules, completions, blocked children and restarts. This is for runs in which what
      a sweep queues has its hash to itself and a compaction keeps every live hash. */
  lemma DedupedRun(states: seq<Sys>, caps: map<Pool, nat>, events: seq<Event>)
    requires IsRun(states, caps, events)
    requires forall i :: 0 <= i < |events| && Deduped(states[i]) ==> KeepsHashes(states[i], caps, events[i])
    ensures forall i :: 0 <= i < |states| ==> NoDuplicates(states[i])
  {
    NothingHeldAtFirst(states[0], caps);
    forall i | 0 <= i < |events| && Deduped(states[i]) ensures Deduped(states[i + 1]) {
      RunStep(states, caps, events, i);
      DedupeStep(states[i], caps, events[i]);
    }
    Induct(states, s => Deduped(s));
    forall i | 0 <= i < |states| ensures NoDuplicates(states[i]) {
      DedupedMeans(states[i]);
    }
  }

  /** One kind of such runs: every queued record is as it is in the store and compaction rolls
      no save back. */
  lemma DedupedAlways(states: seq<Sys>, caps: map<Pool, nat>, events: seq<Event>)
    requires IsRun(states, caps, events)
    requires forall i :: 0 <= i < |events| ==> Merged(states[i], events[i])
    ensures forall i :: 0 <= i < |states| ==> NoDuplicates(states[i])
  {
    forall i | 0 <= i < |events| && Deduped(states[i]) ensures KeepsHashes(states[i], caps, events[i]) {
      RunStep(states, caps, events, i);
      MergedKeepsHashes(states[i], caps, events[i]);
    }
    DedupedRun(states, caps, events);
  }

  /** Another: ids are not reused and what a sweep queues is live, in whatever version, with
      any stamps in a compaction. */
  lemma DedupedWithoutReuse(states: seq<Sys>, caps: map<Pool, nat>, events: seq<Event>)
    requires IsRun(states, caps, events)
    requires forall i :: 0 <= i < |events| ==> NoReuse(states[i], events[i]) && LiveVisit(states[i], events[i])
    ensures forall i :: 0 <= i < |states| ==> NoDuplicates(states[i])
  {
    AccountedAlways(states, caps, events);
    forall i | 0 <= i < |events| && Deduped(states[i]) ensures KeepsHashes(states[i], caps, events[i]) {
      assert Accounted(states[i]);
      RunStep(states, caps, events, i);
      NoReuseKeepsHashes(states[i], caps, events[i]);
    }
    DedupedRun(states, caps, events);
  }
}
