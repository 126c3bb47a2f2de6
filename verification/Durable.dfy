/** Durability: no accepted task disappears without a reason. */
module Durable {
  import opened Wrappers
  import opened Tasks
  import opened LogReplay
  import opened Scheduler
  import opened Machine
  import opened Journal

  /** The id of an accepted task is not used again. */
  ghost predicate NoReuse(s: Sys, e: Event) {
    e.Sweeper? && e.sweep.Accept? && SweepEnabled(s, e.t, Accept) ==> s.threads[e.t].task.id !in s.hist.accepted
  }

  /** `r` is a version of an accepted task, with the dependency list, payload hash and
      allowed attempts it was accepted with. */
  predicate Known(accepted: map<Id, Record>, r: Record) {
    && r.id in accepted && r.Deps() == accepted[r.id].Deps()
    && r.payloadHash == accepted[r.id].payloadHash && r.maxRetries == accepted[r.id].maxRetries
  }

  /** The copy a dispatcher or an execution works on. */
  function WorkOn(l: Local): Option<Record> {
    if l.Dispatching? && (l.disp.Popped? || l.disp.Limited? || l.disp.Saved? || l.disp.Granted?) then Some(l.disp.task)
    else if l.Executing? && !l.exec.Unguarding? && !l.exec.Releasing? then Some(l.exec.task)
    else None
  }

  /** The records a thread read from the store and has not dealt with. */
  function ReadBy(l: Local): seq<Record> {
    if l.Sweeping? then l.todo
    else if l.Executing? && l.exec.Blocking? then l.exec.kids
    else if l.Executing? && l.exec.Burying? then [l.exec.copy]
    else []
  }

  ghost predicate StoreKnown(s: Sys) {
    && (forall i :: 0 <= i < |s.log| && s.log[i].Json? ==> Known(s.hist.accepted, s.log[i].rec))
    && (forall id :: id in s.live ==> Known(s.hist.accepted, s.live[id]))
  }

  ghost predicate HeapsKnown(s: Sys) {
    forall p, r :: p in s.sh.pqs && r in s.sh.pqs[p] ==> Known(s.hist.accepted, r) && r.deletedAt.None?
  }

  /** Thread state `l` works on a live version of a known task and has read known records. */
  ghost predicate LocalKnown(accepted: map<Id, Record>, l: Local) {
    && (WorkOn(l).Some? ==> Known(accepted, WorkOn(l).value) && WorkOn(l).value.deletedAt.None?)
    && (forall i :: 0 <= i < |ReadBy(l)| ==> Known(accepted, ReadBy(l)[i]))
  }

  ghost predicate ThreadsKnown(s: Sys) {
    forall t :: t in s.threads ==> LocalKnown(s.hist.accepted, s.threads[t])
  }

  ghost predicate Provenance(s: Sys) {
    StoreKnown(s) && HeapsKnown(s) && ThreadsKnown(s)
  }

  /** An execution that is past its verdict has it on record, and only deletes its own
      task and the children of a task that failed for good. */
  ghost predicate Justified(h: History, x: ExecState) {
    && (x.Scanning? || x.Blocking? ==> x.task.id in h.exhausted)
    && (x.Blocking? ==> forall i :: 0 <= i < |x.kids| ==> x.task.id in x.kids[i].Deps())
    && (x.Marking? || x.Deleting? || x.Burying? || x.Unhashing? ==> x.task.id in h.succeeded || x.task.id in h.exhausted)
    && (x.Burying? ==> x.copy.id == x.task.id)
  }

  ghost predicate Verdicts(s: Sys) {
    forall t :: t in s.threads && s.threads[t].Executing? ==> Justified(s.hist, s.threads[t].exec)
  }

  /** The only reasons for an accepted task to be gone. */
  ghost predicate Settled(s: Sys, id: Id)
    requires id in s.hist.accepted
  {
    || id in s.hist.succeeded
    || id in s.hist.exhausted
    || exists p :: p in s.hist.accepted[id].Deps() && p in s.hist.exhausted
  }

  ghost predicate NothingLost(s: Sys) {
    forall id :: id in s.hist.accepted ==> id in s.live || Settled(s, id)
  }

  ghost predicate Accounted(s: Sys) {
    Journaled(s) && Provenance(s) && Verdicts(s) && NothingLost(s)
  }

  // ------------------------------------------------------------- provenance

  lemma SaveKnown(s: Sys, s': Sys, r: Record)
    requires StoreKnown(s) && Known(s.hist.accepted, r)
    requires s'.log == s.log + [Json(r)] && s'.live == ApplyLine(s.live, Json(r)) && s'.hist.accepted == s.hist.accepted
    ensures StoreKnown(s')
  {
    forall i | 0 <= i < |s'.log| && s'.log[i].Json? ensures Known(s'.hist.accepted, s'.log[i].rec) {
      if i < |s.log| { assert s'.log[i] == s.log[i]; }
    }
  }

  /** Accepting a new id makes nothing unknown. */
  lemma AcceptKnown(s: Sys, t: Tid)
    requires Provenance(s) && SweepEnabled(s, t, Accept) && NoReuse(s, Sweeper(t, Accept))
    ensures Provenance(DoSweep(s, t, Accept))
  {
    var task := s.threads[t].task.(deletedAt := None);
    var accepted := s.hist.accepted[task.id := task];
    var mid := s.(hist := s.hist.(accepted := accepted));
    forall r | Known(s.hist.accepted, r) ensures Known(accepted, r) {}
    assert StoreKnown(mid);
    SaveKnown(mid, DoSweep(s, t, Accept), task);
  }

  lemma SweepHeaps(s: Sys, t: Tid, e: SweepEvent)
    requires Provenance(s) && SweepEnabled(s, t, e) && !e.Accept?
    ensures HeapsKnown(DoSweep(s, t, e))
  {
    if e.VisitNext? {
      var r := ReadBy(s.threads[t])[0];
      assert Known(s.hist.accepted, r);
      forall p, x | p in DoSweep(s, t, e).sh.pqs && x in DoSweep(s, t, e).sh.pqs[p]
        ensures (p in s.sh.pqs && x in s.sh.pqs[p]) || (x == r && r.deletedAt.None?)
      {}
    }
  }

  lemma SweepThreads(s: Sys, t: Tid, e: SweepEvent)
    requires Provenance(s) && SweepEnabled(s, t, e) && !e.Accept?
    ensures ThreadsKnown(DoSweep(s, t, e))
  {
    var s' := DoSweep(s, t, e);
    if e.ReadStore? {
      assert LocalKnown(s.hist.accepted, s'.threads[t]);
    } else if e.VisitNext? {
      var l := s.threads[t];
      assert forall i :: 0 <= i < |l.todo[1..]| ==> l.todo[1..][i] == ReadBy(l)[i + 1];
      assert LocalKnown(s.hist.accepted, s'.threads[t]);
    }
  }

  lemma SweepProvenance(s: Sys, t: Tid, e: SweepEvent)
    requires Provenance(s) && SweepEnabled(s, t, e) && NoReuse(s, Sweeper(t, e))
    ensures Provenance(DoSweep(s, t, e))
  {
    if e.Accept? {
      AcceptKnown(s, t);
    } else {
      SweepHeaps(s, t, e);
      SweepThreads(s, t, e);
    }
  }

  lemma DispatchStore(s: Sys, t: Tid, e: DispatchEvent)
    requires Provenance(s) && DispatchEnabled(s, t, e)
    ensures StoreKnown(DoDispatch(s, t, e))
  {
    DispatchFrame(s, t, e);
    if e.Defer? {
      assert LocalKnown(s.hist.accepted, s.threads[t]);
      SaveKnown(s, DoDispatch(s, t, e), Deferred(s.threads[t].disp.task, e.now));
    }
  }

  lemma DispatchHeaps(s: Sys, t: Tid, e: DispatchEvent)
    requires HeapsKnown(s) && DispatchEnabled(s, t, e)
    ensures HeapsKnown(DoDispatch(s, t, e))
  {
    var s' := DoDispatch(s, t, e);
    DispatchFrame(s, t, e);
    if e.PopTask? {
      PopHeaps(s, t, e.task);
      SmallerHeapsKnown(s, s');
    } else {
      DispatchPqs(s, t, e);
    }
  }

  lemma SmallerHeapsKnown(s: Sys, s': Sys)
    requires HeapsKnown(s) && s'.hist == s.hist
    requires forall p, x :: p in s'.sh.pqs && x in s'.sh.pqs[p] ==> p in s.sh.pqs && x in s.sh.pqs[p]
    ensures HeapsKnown(s')
  {}

  lemma PopHeaps(s: Sys, t: Tid, r: Record)
    requires DispatchEnabled(s, t, PopTask(r))
    ensures forall p, x :: p in DoDispatch(s, t, PopTask(r)).sh.pqs && x in DoDispatch(s, t, PopTask(r)).sh.pqs[p] ==>
              p in s.sh.pqs && x in s.sh.pqs[p]
  {}

  lemma DispatchPqs(s: Sys, t: Tid, e: DispatchEvent)
    requires DispatchEnabled(s, t, e) && !e.PopTask?
    ensures DoDispatch(s, t, e).sh.pqs == s.sh.pqs
  {
    if e.Acquire? {} else if e.FoundEmpty? {} else if e.Limit? {} else if e.Defer? {} else if e.UnqueueLimited? {}
    else if e.Begin? {} else if e.DropPermit? {} else {}
  }

  lemma DispatchThreadsKnown(s: Sys, t: Tid, e: DispatchEvent)
    requires Provenance(s) && DispatchEnabled(s, t, e)
    ensures ThreadsKnown(DoDispatch(s, t, e))
  {
    var s' := DoDispatch(s, t, e);
    DispatchFrame(s, t, e);
    forall u | u in s'.threads ensures LocalKnown(s.hist.accepted, s'.threads[u]) {
      assert LocalKnown(s.hist.accepted, s.threads[if u in s.threads then u else t]);
      if u == t || u !in s.threads { DispatchMineKnown(s, t, e, u); } else { DispatchThreads(s, t, e); }
    }
  }

  lemma DispatchMineKnown(s: Sys, t: Tid, e: DispatchEvent, u: Tid)
    requires HeapsKnown(s) && DispatchEnabled(s, t, e) && LocalKnown(s.hist.accepted, s.threads[t])
    requires u in DoDispatch(s, t, e).threads && (u == t || u !in s.threads)
    ensures LocalKnown(s.hist.accepted, DoDispatch(s, t, e).threads[u])
  {
    if e.PopTask? {} else if e.Limit? {} else if e.Defer? {} else if e.Begin? {} else {
      assert DoDispatch(s, t, e).threads[u].Dispatching? && WorkOn(DoDispatch(s, t, e).threads[u]).None?;
    }
  }

  lemma ExecStore(s: Sys, t: Tid, e: ExecEvent)
    requires Provenance(s) && ExecEnabled(s, t, e)
    ensures StoreKnown(DoExec(s, t, e))
  {
    var s' := DoExec(s, t, e);
    var x := s.threads[t].exec;
    assert LocalKnown(s.hist.accepted, s.threads[t]);
    if e.Resave? {
      SaveKnown(s, s', x.task);
    } else if e.BlockChild? {
      assert Known(s.hist.accepted, ReadBy(s.threads[t])[0]);
      SaveKnown(s, s', Blocked(x.kids[0], x.task.id, e.now));
    } else if e.DeleteWrite? {
      assert Known(s.hist.accepted, ReadBy(s.threads[t])[0]);
      SaveKnown(s, s', x.copy.MarkDeleted(e.now));
    }
  }

  lemma ExecHeaps(s: Sys, t: Tid, e: ExecEvent)
    requires HeapsKnown(s) && ExecEnabled(s, t, e)
    ensures HeapsKnown(DoExec(s, t, e))
  {
    ExecOthersFrame(s, t, e);
    ExecHistory(s, t, e);
  }

  lemma ExecHistory(s: Sys, t: Tid, e: ExecEvent)
    requires ExecEnabled(s, t, e)
    ensures var h, h' := s.hist, DoExec(s, t, e).hist;
            h'.accepted == h.accepted && h.succeeded <= h'.succeeded && h.exhausted <= h'.exhausted
  {
    var x := s.threads[t].exec;
    if e.Invoke? {} else if e.ReturnOk? {} else if e.ReturnErr? {} else if e.BlockChild? {} else if e.DeadLetter? {} else {
      assert DoExec(s, t, e).hist == s.hist;
    }
  }

  lemma ExecLocal(s: Sys, t: Tid, e: ExecEvent)
    requires StoreKnown(s) && ExecEnabled(s, t, e) && LocalKnown(s.hist.accepted, s.threads[t])
    requires t in DoExec(s, t, e).threads
    ensures LocalKnown(s.hist.accepted, DoExec(s, t, e).threads[t])
  {
    if e.BlockChild? {
      BlockLocal(s, t, e.now);
    } else if e.ScanChildren? {
      ScanLocal(s, t, e.kids);
    } else if e.DeleteRead? {
      ReadLocal(s, t);
    } else {
      ExecReadsNothing(s, t, e);
    }
  }

  lemma BlockLocal(s: Sys, t: Tid, now: Time)
    requires ExecEnabled(s, t, BlockChild(now)) && LocalKnown(s.hist.accepted, s.threads[t])
    ensures LocalKnown(s.hist.accepted, DoExec(s, t, BlockChild(now)).threads[t])
  {
    var kids := s.threads[t].exec.kids;
    assert forall i :: 0 <= i < |kids[1..]| ==> kids[1..][i] == ReadBy(s.threads[t])[i + 1];
  }

  lemma ReadLocal(s: Sys, t: Tid)
    requires StoreKnown(s) && ExecEnabled(s, t, DeleteRead) && LocalKnown(s.hist.accepted, s.threads[t])
    ensures LocalKnown(s.hist.accepted, DoExec(s, t, DeleteRead).threads[t])
  {}

  lemma ScanLocal(s: Sys, t: Tid, kids: seq<Record>)
    requires StoreKnown(s) && ExecEnabled(s, t, ScanChildren(kids)) && LocalKnown(s.hist.accepted, s.threads[t])
    ensures LocalKnown(s.hist.accepted, DoExec(s, t, ScanChildren(kids)).threads[t])
  {
    assert ReadBy(DoExec(s, t, ScanChildren(kids)).threads[t]) == kids;
  }

  lemma ExecReadsNothing(s: Sys, t: Tid, e: ExecEvent)
    requires ExecEnabled(s, t, e) && !e.BlockChild? && !e.ScanChildren? && !e.DeleteRead?
    requires t in DoExec(s, t, e).threads
    ensures var l, l' := s.threads[t], DoExec(s, t, e).threads[t];
            && ReadBy(l') == []
            && (WorkOn(l').Some? ==>
                  && WorkOn(l).Some? && WorkOn(l').value.id == WorkOn(l).value.id
                  && WorkOn(l').value.Deps() == WorkOn(l).value.Deps() && WorkOn(l').value.deletedAt == WorkOn(l).value.deletedAt)
  {
    if e.ReturnOk? {} else if e.ReturnErr? {} else {
      ExecSameTask(s, t, e);
    }
  }

  lemma ExecSameTask(s: Sys, t: Tid, e: ExecEvent)
    requires ExecEnabled(s, t, e) && !e.BlockChild? && !e.ScanChildren? && !e.DeleteRead? && !e.ReturnOk? && !e.ReturnErr?
    requires t in DoExec(s, t, e).threads
    ensures ReadBy(DoExec(s, t, e).threads[t]) == []
    ensures WorkOn(DoExec(s, t, e).threads[t]).Some? ==> WorkOn(DoExec(s, t, e).threads[t]) == WorkOn(s.threads[t])
  {}

  lemma ExecThreads(s: Sys, t: Tid, e: ExecEvent)
    requires Provenance(s) && ExecEnabled(s, t, e)
    ensures ThreadsKnown(DoExec(s, t, e))
  {
    ExecFrame(s, t, e);
    ExecHistory(s, t, e);
    if t in DoExec(s, t, e).threads {
      ExecLocal(s, t, e);
    }
  }

  /** Every record that replay or compaction yields is a line of the log. */
  lemma CompactKnown(s: Sys, caps: map<Pool, nat>, stamps: seq<Time>, order: seq<Id>)
    requires StoreKnown(s) && Journaled(s) && WorldEnabled(s, CompactLog(stamps, order))
    ensures StoreKnown(DoWorld(s, caps, CompactLog(stamps, order)))
    ensures DoWorld(s, caps, CompactLog(stamps, order)).live.Keys == s.live.Keys
  {
    ReadableAll(s.log);
    CompactKeepsLiveIds(s.log, stamps);
    KeptAreKnown(s, stamps);
  }

  lemma KeptAreKnown(s: Sys, stamps: seq<Time>)
    requires StoreKnown(s) && |s.log| <= |stamps|
    ensures forall id :: id in CompactFold(s.log, stamps) ==> Known(s.hist.accepted, CompactFold(s.log, stamps)[id].rec)
  {
    forall id | id in CompactFold(s.log, stamps) ensures Known(s.hist.accepted, CompactFold(s.log, stamps)[id].rec) {
      CompactPicksWinner(s.log, stamps, id);
    }
  }

  lemma WorldProvenance(s: Sys, caps: map<Pool, nat>, e: WorldEvent)
    requires Provenance(s) && Journaled(s) && WorldEnabled(s, e)
    ensures Provenance(DoWorld(s, caps, e))
    ensures DoWorld(s, caps, e).live.Keys == s.live.Keys
  {
    if e.CompactLog? {
      CompactKnown(s, caps, e.stamps, e.order);
    } else if e.Crash? {
      CrashProvenance(s, caps);
    } else {
      assert DoWorld(s, caps, e).live == s.live && DoWorld(s, caps, e).log == s.log && DoWorld(s, caps, e).threads == s.threads;
    }
  }

  lemma CrashProvenance(s: Sys, caps: map<Pool, nat>)
    requires StoreKnown(s) && Journaled(s)
    ensures Provenance(DoWorld(s, caps, Crash)) && DoWorld(s, caps, Crash).live == s.live
  {
    ReadableAll(s.log);
  }

  // ----------------------------------------------------------- nothing lost

  /** A save that takes no task away, or takes away one that is settled. */
  lemma SaveLosesNothing(s: Sys, r: Record)
    requires NothingLost(s)
    requires r.deletedAt.Some? && r.id in s.hist.accepted ==> Settled(s, r.id)
    ensures NothingLost(Save(s, r))
  {}

  /** Verdicts only accumulate. */
  lemma MoreVerdicts(s: Sys, s': Sys)
    requires NothingLost(s)
    requires s'.live == s.live && s'.hist.accepted == s.hist.accepted
    requires s.hist.succeeded <= s'.hist.succeeded && s.hist.exhausted <= s'.hist.exhausted
    ensures NothingLost(s')
  {
    forall id | id in s'.hist.accepted ensures id in s'.live || Settled(s', id) {
      if id !in s.live {
        assert Settled(s, id);
      }
    }
  }

  lemma ExecLosesNothing(s: Sys, t: Tid, e: ExecEvent)
    requires Accounted(s) && ExecEnabled(s, t, e)
    ensures NothingLost(DoExec(s, t, e))
  {
    var s' := DoExec(s, t, e);
    var x := s.threads[t].exec;
    if e.Resave? {
      SaveLosesNothing(s, x.task);
    } else if e.BlockChild? {
      var kid := x.kids[0];
      assert LocalKnown(s.hist.accepted, s.threads[t]) && Known(s.hist.accepted, ReadBy(s.threads[t])[0]);
      assert x.task.id in s.hist.accepted[kid.id].Deps();
      SaveLosesNothing(s, Blocked(kid, x.task.id, e.now));
      MoreVerdicts(Save(s, Blocked(kid, x.task.id, e.now)), s');
    } else if e.DeleteWrite? {
      assert LocalKnown(s.hist.accepted, s.threads[t]);
      SaveLosesNothing(s, x.copy.MarkDeleted(e.now));
    } else {
      MoreVerdicts(s, s');
    }
  }

  lemma SweepLosesNothing(s: Sys, t: Tid, e: SweepEvent)
    requires Accounted(s) && SweepEnabled(s, t, e) && NoReuse(s, Sweeper(t, e))
    ensures NothingLost(DoSweep(s, t, e))
  {
    var s' := DoSweep(s, t, e);
    if e.Accept? {
      forall id | id in s'.hist.accepted ensures id in s'.live || Settled(s', id) {
        if id in s.hist.accepted && id !in s.live { assert Settled(s, id); }
      }
    } else {
      assert s'.live == s.live && s'.hist == s.hist;
      MoreVerdicts(s, s');
    }
  }

  lemma DispatchLosesNothing(s: Sys, t: Tid, e: DispatchEvent)
    requires Accounted(s) && DispatchEnabled(s, t, e)
    ensures NothingLost(DoDispatch(s, t, e))
  {
    DispatchFrame(s, t, e);
    if e.Defer? {
      SaveLosesNothing(s, Deferred(s.threads[t].disp.task, e.now));
    } else {
      MoreVerdicts(s, DoDispatch(s, t, e));
    }
  }

  lemma WorldLosesNothing(s: Sys, caps: map<Pool, nat>, e: WorldEvent)
    requires Accounted(s) && WorldEnabled(s, e)
    ensures NothingLost(DoWorld(s, caps, e))
  {
    WorldProvenance(s, caps, e);
    var s' := DoWorld(s, caps, e);
    forall id | id in s'.hist.accepted ensures id in s'.live || Settled(s', id) {
      if id !in s.live { assert Settled(s, id); }
    }
  }

  lemma ExecVerdicts(s: Sys, t: Tid, e: ExecEvent)
    requires Accounted(s) && ExecEnabled(s, t, e)
    ensures Verdicts(DoExec(s, t, e))
  {
    ExecOthersFrame(s, t, e);
    var s' := DoExec(s, t, e);
    ExecHistory(s, t, e);
    forall x | Justified(s.hist, x) ensures Justified(s'.hist, x) {}
    if t in s'.threads { ExecMineJustified(s, t, e); }
  }

  lemma ExecMineJustified(s: Sys, t: Tid, e: ExecEvent)
    requires Verdicts(s) && ExecEnabled(s, t, e) && KeyedAndLive(s.live) && t in DoExec(s, t, e).threads
    ensures DoExec(s, t, e).threads[t].Executing? && Justified(DoExec(s, t, e).hist, DoExec(s, t, e).threads[t].exec)
  {
    assert Justified(s.hist, s.threads[t].exec);
    if e.ReturnOk? {} else if e.ReturnErr? {} else if e.ScanChildren? {} else if e.BlockChild? {} else if e.DeadLetter? {} else {}
  }

  lemma VerdictsStep(s: Sys, caps: map<Pool, nat>, e: Event)
    requires Accounted(s) && Enabled(s, e)
    ensures Verdicts(Do(s, caps, e))
  {
    match e
    case Sweeper(t, x) => SweepFrame(s, t, x); SweepHistory(s, t, x);
    case Dispatcher(t, x) => DispatchFrame(s, t, x); DispatchVerdicts(s, t, x);
    case Execution(t, x) => ExecVerdicts(s, t, x);
    case World(x) =>
  }

  lemma SweepHistory(s: Sys, t: Tid, e: SweepEvent)
    requires SweepEnabled(s, t, e)
    ensures DoSweep(s, t, e).hist.succeeded == s.hist.succeeded && DoSweep(s, t, e).hist.exhausted == s.hist.exhausted
  {}

  lemma DispatchVerdicts(s: Sys, t: Tid, e: DispatchEvent)
    requires Verdicts(s) && DispatchEnabled(s, t, e)
    ensures Verdicts(DoDispatch(s, t, e))
  {}

  lemma AccountedStep(s: Sys, caps: map<Pool, nat>, e: Event)
    requires Accounted(s) && Enabled(s, e) && NoReuse(s, e)
    ensures Accounted(Do(s, caps, e))
  {
    JournalStep(s, caps, e);
    VerdictsStep(s, caps, e);
    match e
    case Sweeper(t, x) => SweepProvenance(s, t, x); SweepLosesNothing(s, t, x);
    case Dispatcher(t, x) =>
      DispatchStore(s, t, x); DispatchHeaps(s, t, x); DispatchThreadsKnown(s, t, x);
      DispatchLosesNothing(s, t, x);
    case Execution(t, x) =>
      ExecStore(s, t, x); ExecHeaps(s, t, x); ExecThreads(s, t, x);
      ExecLosesNothing(s, t, x);
    case World(x) => WorldProvenance(s, caps, x); WorldLosesNothing(s, caps, x);
  }

  lemma AccountedAlways(states: seq<Sys>, caps: map<Pool, nat>, events: seq<Event>)
    requires IsRun(states, caps, events)
    requires forall i :: 0 <= i < |events| ==> NoReuse(states[i], events[i])
    ensures forall i :: 0 <= i < |states| ==> Accounted(states[i])
  {
    forall i | 0 <= i < |events| && Accounted(states[i]) ensures Accounted(states[i + 1]) {
      RunStep(states, caps, events, i);
      AccountedStep(states[i], caps, events[i]);
    }
    Induct(states, s => Accounted(s));
  }

  /** Main result: in every run, crashes and stale sweeps included, an accepted task is
      found by a restart unless it succeeded, used up its attempts, or waited directly for
      a task that did. */
  lemma NothingLostAlways(states: seq<Sys>, caps: map<Pool, nat>, events: seq<Event>)
    requires IsRun(states, caps, events)
    requires forall i :: 0 <= i < |events| ==> NoReuse(states[i], events[i])
    ensures forall i, id :: 0 <= i < |states| && id in states[i].hist.accepted ==>
              id in Replay(states[i].log) || Settled(states[i], id)
  {
    AccountedAlways(states, caps, events);
    forall i | 0 <= i < |states| ensures Replay(states[i].log) == states[i].live {
      ReadableAll(states[i].log);
    }
  }
}
