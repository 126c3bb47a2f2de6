/** When tasks start: no task before its time, and none before the time it was put off to. */
module Timing {
  import opened Wrappers
  import opened Tasks
  import opened SweepSpec
  import opened PopOrder
  import opened Machine
  import opened Exclusive
  import opened Journal
  import opened Durable

  // ------------------------------------------------------- not before its time

  /** What a visit does, in the fields of the record visited and of the queue. */
  lemma VisitMeans(s: Sys, t: Tid)
    requires SweepEnabled(s, t, VisitNext)
    ensures var (r, now, sh') := (s.threads[t].todo[0], s.threads[t].now, DoSweep(s, t, VisitNext).sh);
            var home := Home(r, s.sh.pqs.Keys);
            if Due(r, s.live, now) && r.id !in s.sh.queued && r.id !in s.sh.executing && home in s.sh.pqs
            then sh' == s.sh.(queued := s.sh.queued + {r.id}, pqs := s.sh.pqs[home := s.sh.pqs[home] + multiset{r}])
            else sh' == s.sh
  {
    PushesMeans(s.sh, s.live, s.threads[t].todo[0], s.threads[t].now);
  }

  /** The event visits `r`, and its time has come by the clock of that sweep. */
  ghost predicate VisitsDue(s: Sys, e: Event, r: Record) {
    && e.Sweeper? && e.sweep.VisitNext? && SweepEnabled(s, e.t, VisitNext) && s.threads[e.t].todo[0] == r
    && r.executeAt <= s.threads[e.t].now && r.retryAfterTime <= s.threads[e.t].now
    && r.deletedAt.None?
    && forall i :: 0 <= i < |r.Deps()| ==> r.Deps()[i] !in s.live
  }

  /** The task `l` has taken from a heap and not begun to handle, or handles now. */
  function Taken(l: Local): Option<Record> {
    if l.Dispatching? && (l.disp.Popped? || l.disp.Limited? || l.disp.Granted?) then Some(l.disp.task)
    else if l.Executing? && (l.exec.Starting? || l.exec.Cleared? || l.exec.Running?) then Some(l.exec.task)
    else None
  }

  ghost predicate InHeap(s: Sys, r: Record) {
    exists p :: p in s.sh.pqs && r in s.sh.pqs[p]
  }

  ghost predicate InThread(s: Sys, r: Record) {
    exists t :: t in s.threads && Taken(s.threads[t]) == Some(r)
  }

  /** `r` is on its way from a heap to the end of its handler. */
  ghost predicate Underway(s: Sys, r: Record) {
    InHeap(s, r) || InThread(s, r)
  }

  lemma SweepUnderway(s: Sys, t: Tid, e: SweepEvent, r: Record)
    requires SweepEnabled(s, t, e) && Underway(DoSweep(s, t, e), r)
    ensures Underway(s, r) || VisitsDue(s, Sweeper(t, e), r)
  {
    var s' := DoSweep(s, t, e);
    if InHeap(s', r) {
      var p :| p in s'.sh.pqs && r in s'.sh.pqs[p];
      if e.VisitNext? {
        VisitMeans(s, t);
        if r == s.threads[t].todo[0] && Due(r, s.live, s.threads[t].now) {
        } else {
          assert p in s.sh.pqs && r in s.sh.pqs[p];
        }
      } else {
        assert p in s.sh.pqs && r in s.sh.pqs[p];
      }
    } else {
      var u :| u in s'.threads && Taken(s'.threads[u]) == Some(r);
      assert u in s.threads && Taken(s.threads[u]) == Some(r);
    }
  }

  lemma DispatchUnderway(s: Sys, t: Tid, e: DispatchEvent, r: Record)
    requires DispatchEnabled(s, t, e) && Underway(DoDispatch(s, t, e), r)
    ensures Underway(s, r)
  {
    var s' := DoDispatch(s, t, e);
    if InHeap(s', r) {
      var p :| p in s'.sh.pqs && r in s'.sh.pqs[p];
      assert p in s.sh.pqs && r in s.sh.pqs[p];
    } else {
      var u :| u in s'.threads && Taken(s'.threads[u]) == Some(r);
      if e.PopTask? && u == t {
        assert s.threads[t].pool in s.sh.pqs && r in s.sh.pqs[s.threads[t].pool];
      } else {
        DispatchTakes(s, t, e, u);
      }
    }
  }

  lemma DispatchTakes(s: Sys, t: Tid, e: DispatchEvent, u: Tid)
    requires DispatchEnabled(s, t, e)
    requires u in DoDispatch(s, t, e).threads && Taken(DoDispatch(s, t, e).threads[u]).Some? && !(e.PopTask? && u == t)
    ensures Taken(s.threads[if u in s.threads then u else t]) == Taken(DoDispatch(s, t, e).threads[u])
  {}

  lemma ExecUnderway(s: Sys, t: Tid, e: ExecEvent, r: Record)
    requires ExecEnabled(s, t, e) && Underway(DoExec(s, t, e), r)
    ensures Underway(s, r)
  {
    ExecOthersFrame(s, t, e);
    var s' := DoExec(s, t, e);
    if !InHeap(s', r) {
      var u :| u in s'.threads && Taken(s'.threads[u]) == Some(r);
      if u == t { ExecTakes(s, t, e); }
      assert u in s.threads && Taken(s.threads[u]) == Some(r);
    }
  }

  lemma ExecTakes(s: Sys, t: Tid, e: ExecEvent)
    requires ExecEnabled(s, t, e) && t in DoExec(s, t, e).threads && Taken(DoExec(s, t, e).threads[t]).Some?
    ensures Taken(s.threads[t]) == Taken(DoExec(s, t, e).threads[t])
  {}

  lemma UnderwayStep(s: Sys, caps: map<Pool, nat>, e: Event, r: Record)
    requires Enabled(s, e) && Underway(Do(s, caps, e), r)
    ensures Underway(s, r) || VisitsDue(s, e, r)
  {
    match e
    case Sweeper(t, x) => SweepUnderway(s, t, x, r);
    case Dispatcher(t, x) => DispatchUnderway(s, t, x, r);
    case Execution(t, x) => ExecUnderway(s, t, x, r);
    case World(x) => if !x.Crash? { assert InThread(Do(s, caps, e), r) <==> InThread(s, r); }
  }

  lemma NothingUnderwayAtFirst(s: Sys, caps: map<Pool, nat>, r: Record)
    requires Machine.Init(s, caps)
    ensures !Underway(s, r)
  {}

  /** Main result: in every run, stale sweeps and crashes included, what waits in a heap, is
      held by a dispatcher or is handled was put there by a sweep at whose time both of its
      stamps had passed, and it had no live dependency then. */
  lemma {:induction false} NeverEarly(states: seq<Sys>, caps: map<Pool, nat>, events: seq<Event>, i: nat, r: Record) returns (k: nat)
    requires IsRun(states, caps, events) && i < |states| && Underway(states[i], r)
    ensures k < i && VisitsDue(states[k], events[k], r)
  {
    if i == 0 {
      NothingUnderwayAtFirst(states[0], caps, r);
      assert false;
    } else {
      RunStep(states, caps, events, i - 1);
      UnderwayStep(states[i - 1], caps, events[i - 1], r);
      if Underway(states[i - 1], r) {
        k := NeverEarly(states, caps, events, i - 1, r);
      } else {
        k := i - 1;
      }
    }
  }

  /** The task a dispatcher takes from its heap has the highest score there. */
  lemma PopsTheMostUrgent(s: Sys, t: Tid, r: Record)
    requires DispatchEnabled(s, t, PopTask(r))
    ensures s.threads[t].pool in s.sh.pqs && Top(r, s.sh.pqs[s.threads[t].pool])
  {
    TopIsPoppable(s.sh, s.threads[t].pool, r);
  }

  // ---------------------------------------------------- not before the time put off to

  /** `saved` is what the store has for `id`, if anything, and nothing else of the task is
      left in flight: no heap has it, a dispatcher that has it has just saved it, and an
      execution of it has only its guard to drop. */
  ghost predicate Parked(s: Sys, id: Id, saved: Record) {
    && id in s.hist.accepted
    && (id in s.live ==> s.live[id] == saved)
    && HeapsWithout(s, id) && ThreadsWithout(s, id)
  }

  ghost predicate HeapsWithout(s: Sys, id: Id) {
    forall p, r :: p in s.sh.pqs && r in s.sh.pqs[p] ==> r.id != id
  }

  /** Thread state `l` will not save or start `id`. */
  predicate DoneWith(l: Local, id: Id) {
    && (Held(l).Some? && Held(l).value.id == id ==> l.disp.Saved?)
    && (Guarded(l) == Some(id) ==> l.exec.Unguarding?)
  }

  ghost predicate ThreadsWithout(s: Sys, id: Id) {
    forall t :: t in s.threads ==> DoneWith(s.threads[t], id)
  }

  /** The event is a visit that queues `id`. */
  ghost predicate QueuesId(s: Sys, e: Event, id: Id) {
    Queues(s, e) && s.threads[e.t].todo[0].id == id
  }

  lemma SweepParked(s: Sys, t: Tid, e: SweepEvent, id: Id, saved: Record)
    requires Parked(s, id, saved) && SweepEnabled(s, t, e) && NoReuse(s, Sweeper(t, e))
    requires !QueuesId(s, Sweeper(t, e), id)
    ensures Parked(DoSweep(s, t, e), id, saved)
  {
    SweepHeapsWithout(s, t, e, id);
    SweepThreadsWithout(s, t, e, id);
  }

  lemma SweepHeapsWithout(s: Sys, t: Tid, e: SweepEvent, id: Id)
    requires HeapsWithout(s, id) && SweepEnabled(s, t, e) && !QueuesId(s, Sweeper(t, e), id)
    ensures HeapsWithout(DoSweep(s, t, e), id)
  {
    if !e.VisitNext? { assert DoSweep(s, t, e).sh.pqs == s.sh.pqs; }
  }

  lemma SweepThreadsWithout(s: Sys, t: Tid, e: SweepEvent, id: Id)
    requires ThreadsWithout(s, id) && SweepEnabled(s, t, e)
    ensures ThreadsWithout(DoSweep(s, t, e), id)
  {
    var s' := DoSweep(s, t, e);
    forall u | u in s'.threads ensures DoneWith(s'.threads[u], id) {
      assert u in s.threads ==> DoneWith(s.threads[u], id);
    }
  }

  lemma DispatchParked(s: Sys, t: Tid, e: DispatchEvent, id: Id, saved: Record)
    requires Parked(s, id, saved) && DispatchEnabled(s, t, e)
    ensures Parked(DoDispatch(s, t, e), id, saved)
  {
    DispatchFrame(s, t, e);
    assert DoneWith(s.threads[t], id);
    DispatchHeapsWithout(s, t, e, id);
    DispatchThreadsWithout(s, t, e, id);
    if e.Defer? { assert s.threads[t].disp.task.id != id; }
  }

  lemma DispatchHeapsWithout(s: Sys, t: Tid, e: DispatchEvent, id: Id)
    requires HeapsWithout(s, id) && DispatchEnabled(s, t, e)
    ensures HeapsWithout(DoDispatch(s, t, e), id)
  {
    var s' := DoDispatch(s, t, e);
    forall p, r | p in s'.sh.pqs && r in s'.sh.pqs[p] ensures r.id != id {
      assert p in s.sh.pqs && r in s.sh.pqs[p];
    }
  }

  lemma DispatchThreadsWithout(s: Sys, t: Tid, e: DispatchEvent, id: Id)
    requires HeapsWithout(s, id) && ThreadsWithout(s, id) && DispatchEnabled(s, t, e)
    ensures ThreadsWithout(DoDispatch(s, t, e), id)
  {
    var s' := DoDispatch(s, t, e);
    assert DoneWith(s.threads[t], id);
    forall u | u in s'.threads ensures DoneWith(s'.threads[u], id) {
      if u in s.threads && u != t {
        DispatchThreads(s, t, e);
        assert DoneWith(s.threads[u], id);
      } else {
        DispatchMineDone(s, t, e, u, id);
      }
    }
  }

  lemma DispatchMineDone(s: Sys, t: Tid, e: DispatchEvent, u: Tid, id: Id)
    requires HeapsWithout(s, id) && DispatchEnabled(s, t, e) && DoneWith(s.threads[t], id)
    requires u in DoDispatch(s, t, e).threads && (u !in s.threads || u == t)
    ensures DoneWith(DoDispatch(s, t, e).threads[u], id)
  {}

  lemma ExecParked(s: Sys, t: Tid, e: ExecEvent, id: Id, saved: Record)
    requires Parked(s, id, saved) && ExecEnabled(s, t, e)
    ensures Parked(DoExec(s, t, e), id, saved)
  {
    ExecOthersFrame(s, t, e);
    ExecHistory(s, t, e);
    ExecLive(s, t, e);
    assert DoneWith(s.threads[t], id);
    assert t in DoExec(s, t, e).threads ==> DoneWith(DoExec(s, t, e).threads[t], id);
  }

  lemma WorldParked(s: Sys, caps: map<Pool, nat>, e: WorldEvent, id: Id, saved: Record)
    requires Journaled(s) && Parked(s, id, saved) && WorldEnabled(s, e) && FaithfulCompaction(s, World(e))
    ensures Parked(DoWorld(s, caps, e), id, saved)
  {
    WorldKeepsLive(s, caps, e);
  }

  lemma ParkedStep(s: Sys, caps: map<Pool, nat>, e: Event, id: Id, saved: Record)
    requires Journaled(s) && Parked(s, id, saved) && Enabled(s, e) && NoReuse(s, e) && FaithfulCompaction(s, e)
    requires !QueuesId(s, e, id)
    ensures Parked(Do(s, caps, e), id, saved)
  {
    match e
    case Sweeper(t, x) => SweepParked(s, t, x, id, saved);
    case Dispatcher(t, x) => DispatchParked(s, t, x, id, saved);
    case Execution(t, x) => ExecParked(s, t, x, id, saved);
    case World(x) => WorldParked(s, caps, x, id, saved);
  }

  /** `j` is the first visit from step `i` on that queues `id`. */
  ghost predicate NextQueued(states: seq<Sys>, events: seq<Event>, i: nat, j: nat, id: Id)
    requires |states| == |events| + 1
  {
    && i <= j < |events| && QueuesId(states[j], events[j], id)
    && forall k :: i <= k < j ==> !QueuesId(states[k], events[k], id)
  }

  /** No id is accepted twice, and no compaction from step `i` on rolls a save back. */
  ghost predicate Lasting(states: seq<Sys>, events: seq<Event>, i: nat)
    requires |states| == |events| + 1
  {
    && (forall k :: 0 <= k < |events| ==> NoReuse(states[k], events[k]))
    && (forall k :: i <= k < |events| ==> FaithfulCompaction(states[k], events[k]))
  }

  lemma {:induction false} ParkedUntil(states: seq<Sys>, caps: map<Pool, nat>, events: seq<Event>, i: nat, j: nat, id: Id, saved: Record)
    requires IsRun(states, caps, events) && i <= j < |states| && Lasting(states, events, i)
    requires Parked(states[i], id, saved) && forall k :: i <= k < j ==> !QueuesId(states[k], events[k], id)
    ensures Parked(states[j], id, saved)
  {
    if i < j {
      ParkedUntil(states, caps, events, i, j - 1, id, saved);
      JournaledAlways(states, caps, events);
      RunStep(states, caps, events, j - 1);
      ParkedStep(states[j - 1], caps, events[j - 1], id, saved);
    }
  }

  /** The next time a parked task is queued it is queued as it was saved, and not before its
      time, exactly if the sweep is up to date. */
  lemma NextVisit(states: seq<Sys>, caps: map<Pool, nat>, events: seq<Event>, i: nat, j: nat, id: Id, saved: Record)
    requires IsRun(states, caps, events) && i < |states| && Lasting(states, events, i)
    requires Parked(states[i], id, saved) && NextQueued(states, events, i, j, id)
    ensures FreshVisit(states[j], events[j]) <==> id in states[j].live && VisitsDue(states[j], events[j], saved)
  {
    ParkedUntil(states, caps, events, i, j, id, saved);
    assert states[j].threads[events[j].t].todo[0].id == id;
  }

  // ---- what parks a task

  lemma ResaveParks(s: Sys, t: Tid)
    requires Exclusion(s) && Provenance(s) && ExecEnabled(s, t, ExecEvent.Resave)
    ensures var saved := s.threads[t].exec.task;
            Parked(DoExec(s, t, ExecEvent.Resave), saved.id, saved)
  {
    var saved := s.threads[t].exec.task;
    assert LocalKnown(s.hist.accepted, s.threads[t]);
    assert Guards(s, t, saved.id);
    OthersDiffer(s, t);
    forall p, r | p in s.sh.pqs && r in s.sh.pqs[p] ensures r.id != saved.id {
      assert Copy(s, Place.InHeap(p), r);
    }
    forall u | u in s.threads && u != t ensures DoneWith(s.threads[u], saved.id) {
      if Held(s.threads[u]).Some? { HeldNotExecuting(s, u); }
    }
  }

  lemma DeferParks(s: Sys, t: Tid, now: Time)
    requires Exclusion(s) && Provenance(s) && DispatchEnabled(s, t, Defer(now))
    ensures var r := s.threads[t].disp.task;
            Parked(DoDispatch(s, t, Defer(now)), r.id, r.(retryAfterTime := now + 60 * SECOND))
  {
    var r := s.threads[t].disp.task;
    assert LocalKnown(s.hist.accepted, s.threads[t]);
    HeldNotExecuting(s, t);
    NoGuard(s, r.id);
    assert Copy(s, Place.InThread(t), r);
    forall p, x | p in s.sh.pqs && x in s.sh.pqs[p] ensures x.id != r.id {
      assert Copy(s, Place.InHeap(p), x);
    }
    forall u | u in s.threads && u != t ensures DoneWith(s.threads[u], r.id) {
      if Held(s.threads[u]).Some? { assert Copy(s, Place.InThread(u), Held(s.threads[u]).value); }
    }
  }

  // ---- runs

  /** The event is one of thread `t`, or a crash. */
  predicate Touches(e: Event, t: Tid) {
    match e
    case Sweeper(u, _) => u == t
    case Dispatcher(u, _) => u == t
    case Execution(u, _) => u == t
    case World(x) => x.Crash?
  }

  lemma Untouched(s: Sys, caps: map<Pool, nat>, e: Event, t: Tid)
    requires Enabled(s, e) && t in s.threads && !Touches(e, t)
    ensures t in Do(s, caps, e).threads && Do(s, caps, e).threads[t] == s.threads[t]
  {
    match e
    case Sweeper(u, x) => SweepFrame(s, u, x);
    case Dispatcher(u, x) => DispatchThreads(s, u, x);
    case Execution(u, x) => ExecFrame(s, u, x);
    case World(x) =>
  }

  lemma {:induction false} UntouchedUntil(states: seq<Sys>, caps: map<Pool, nat>, events: seq<Event>, i: nat, j: nat, t: Tid)
    requires IsRun(states, caps, events) && i <= j < |states| && t in states[i].threads
    requires forall k :: i <= k < j ==> !Touches(events[k], t)
    ensures t in states[j].threads && states[j].threads[t] == states[i].threads[t]
  {
    if i < j {
      UntouchedUntil(states, caps, events, i, j - 1, t);
      RunStep(states, caps, events, j - 1);
      Untouched(states[j - 1], caps, events[j - 1], t);
    }
  }

  /** A record that thread `t` is about to save at step `i`, and saves at step `m`, is parked
      from then on. */
  lemma SavedIsParked(states: seq<Sys>, caps: map<Pool, nat>, events: seq<Event>, i: nat, m: nat, t: Tid, saved: Record)
    requires IsRun(states, caps, events) && i <= m < |events| && Lasting(states, events, m)
    requires t in states[i].threads && states[i].threads[t].Executing? && states[i].threads[t].exec == Saving(saved)
    requires events[m] == Execution(t, ExecEvent.Resave) && forall k :: i <= k < m ==> !Touches(events[k], t)
    ensures Parked(states[m + 1], saved.id, saved)
  {
    UntouchedUntil(states, caps, events, i, m, t);
    ExclusionAlways(states, caps, events);
    AccountedAlways(states, caps, events);
    RunStep(states, caps, events, m);
    ResaveParks(states[m], t);
  }

  /** Main result: after an attempt that failed at `now` the task does not come back before
      `now + d`, where `d` is its delay in whole seconds: the next visit to queue it queues what
      the failed attempt saved, if and only if that visit is up to date. */
  lemma RetryWaits(states: seq<Sys>, caps: map<Pool, nat>, events: seq<Event>, i: nat, m: nat, j: nat, t: Tid, error: string, now: Time, d: Time)
    returns (saved: Record)
    requires IsRun(states, caps, events) && i < m < |events| && Lasting(states, events, m)
    requires events[i] == Execution(t, ReturnErr(error, now)) && Enabled(states[i], events[i])
    requires var r := states[i].threads[t].exec.task;
             && r.retryCount < r.maxRetries - 1 && CutSeconds(d, r.retryAfterHours * 3600.0)
             && NextQueued(states, events, m + 1, j, r.id)
    requires events[m] == Execution(t, ExecEvent.Resave) && forall k :: i < k < m ==> !Touches(events[k], t)
    ensures var r := states[i].threads[t].exec.task;
            && RetryOf(saved, r, error, now)
            && (FreshVisit(states[j], events[j]) <==> r.id in states[j].live && VisitsDue(states[j], events[j], saved))
            && (FreshVisit(states[j], events[j]) ==> now + d <= states[j].threads[events[j].t].now)
  {
    var r := states[i].threads[t].exec.task;
    saved := r.UpdateRetryConfig(Some(error), now);
    RetryMeans(r, error, now);
    RunStep(states, caps, events, i);
    SavedIsParked(states, caps, events, i + 1, m, t, saved);
    NextVisit(states, caps, events, m + 1, j, r.id, saved);
    CutUnique(d, saved.retryAfterTime - now, r.retryAfterHours * 3600.0);
  }

  /** A cron task that succeeded comes back at its next time and not before. */
  lemma CronWaits(states: seq<Sys>, caps: map<Pool, nat>, events: seq<Event>, i: nat, m: nat, j: nat, t: Tid, next: Time)
    requires IsRun(states, caps, events) && i < m < |events| && Lasting(states, events, m)
    requires events[i] == Execution(t, ReturnOk(Some(next))) && Enabled(states[i], events[i])
    requires NextQueued(states, events, m + 1, j, states[i].threads[t].exec.task.id)
    requires events[m] == Execution(t, ExecEvent.Resave) && forall k :: i < k < m ==> !Touches(events[k], t)
    ensures var r := states[i].threads[t].exec.task;
            var saved := r.(executeAt := next, retryCount := 0, lastErrorObj := None, lastJobError := None);
            && (FreshVisit(states[j], events[j]) <==> r.id in states[j].live && VisitsDue(states[j], events[j], saved))
            && (FreshVisit(states[j], events[j]) ==> next <= states[j].threads[events[j].t].now)
  {
    var r := states[i].threads[t].exec.task;
    var saved := r.(executeAt := next, retryCount := 0, lastErrorObj := None, lastJobError := None);
    RunStep(states, caps, events, i);
    SavedIsParked(states, caps, events, i + 1, m, t, saved);
    NextVisit(states, caps, events, m + 1, j, r.id, saved);
  }

  /** A task put off by the rate limit comes back after a minute and not before. */
  lemma DeferWaits(states: seq<Sys>, caps: map<Pool, nat>, events: seq<Event>, m: nat, j: nat, t: Tid, now: Time)
    requires IsRun(states, caps, events) && m < |events| && Lasting(states, events, m)
    requires events[m] == Dispatcher(t, Defer(now)) && Enabled(states[m], events[m])
    requires NextQueued(states, events, m + 1, j, states[m].threads[t].disp.task.id)
    ensures var r := states[m].threads[t].disp.task;
            var saved := r.(retryAfterTime := now + 60 * SECOND);
            && (FreshVisit(states[j], events[j]) <==> r.id in states[j].live && VisitsDue(states[j], events[j], saved))
            && (FreshVisit(states[j], events[j]) ==> now + 60 * SECOND <= states[j].threads[events[j].t].now)
  {
    var r := states[m].threads[t].disp.task;
    ExclusionAlways(states, caps, events);
    AccountedAlways(states, caps, events);
    RunStep(states, caps, events, m);
    DeferParks(states[m], t, now);
    NextVisit(states, caps, events, m + 1, j, r.id, r.(retryAfterTime := now + 60 * SECOND));
  }
}
