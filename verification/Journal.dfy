/** The store inside the machine: the cache is what the log replays to, at every step. */
module Journal {
  import opened Wrappers
  import opened Tasks
  import opened LogReplay
  import opened Machine
  import opened Scheduler

  ghost predicate Journaled(s: Sys) {
    AllReadable(s.log) && s.live == Fold(s.log) && KeyedAndLive(s.live)
  }

  lemma SaveJournaled(s: Sys, r: Record)
    requires Journaled(s)
    ensures Journaled(Save(s, r))
  {
    FoldAppend(s.log, Json(r));
    ApplyKeyed(s.live, r);
    assert AllReadable(s.log + [Json(r)]);
  }

  lemma WorldJournaled(s: Sys, caps: map<Pool, nat>, e: WorldEvent)
    requires Journaled(s) && WorldEnabled(s, e)
    ensures Journaled(DoWorld(s, caps, e))
  {
    ReadableAll(s.log);
    if e.CompactLog? {
      var kept := Records(CompactFold(Readable(s.log), e.stamps));
      CompactIsKeyed(Readable(s.log), e.stamps);
      ReplayWriteOut(e.order, kept);
    }
  }

  lemma JournalStep(s: Sys, caps: map<Pool, nat>, e: Event)
    requires Journaled(s) && Enabled(s, e)
    ensures Journaled(Do(s, caps, e))
  {
    match e
    case Sweeper(t, x) => if x.Accept? { SaveJournaled(s, s.threads[t].task.(deletedAt := None)); }
    case Dispatcher(t, x) => if x.Defer? { SaveJournaled(s, Do(s, caps, e).threads[t].disp.task); }
    case Execution(t, x) => ExecJournaled(s, t, x);
    case World(x) => WorldJournaled(s, caps, x);
  }

  lemma ExecJournaled(s: Sys, t: Tid, e: ExecEvent)
    requires Journaled(s) && ExecEnabled(s, t, e)
    ensures Journaled(DoExec(s, t, e))
  {
    var x := s.threads[t].exec;
    if e.Resave? { SaveJournaled(s, x.task); }
    else if e.BlockChild? { SaveJournaled(s, Blocked(x.kids[0], x.task.id, e.now)); }
    else if e.DeleteWrite? { SaveJournaled(s, x.copy.MarkDeleted(e.now)); }
  }

  lemma JournaledAlways(states: seq<Sys>, caps: map<Pool, nat>, events: seq<Event>)
    requires IsRun(states, caps, events)
    ensures forall i :: 0 <= i < |states| ==> Journaled(states[i])
  {
    forall i | 0 <= i < |events| && Journaled(states[i]) ensures Journaled(states[i + 1]) {
      RunStep(states, caps, events, i);
      JournalStep(states[i], caps, events[i]);
    }
    Induct(states, s => Journaled(s));
  }

  // ------------------------------------------------- runs with merged sweeps

  /** The visit of a sweep that queues the record it visits. */
  ghost predicate Queues(s: Sys, e: Event) {
    && e.Sweeper? && e.sweep.VisitNext? && SweepEnabled(s, e.t, VisitNext)
    && Pushes(s.sh, s.live, s.threads[e.t].todo[0], s.threads[e.t].now)
  }

  /** A record that is queued is the one in the store now. A sweep whose read and visits
      are one step queues no other. */
  ghost predicate FreshVisit(s: Sys, e: Event) {
    Queues(s, e) ==>
      var r := s.threads[e.t].todo[0];
      r.id in s.live && s.live[r.id] == r
  }

  /** A task that is queued is live; the record queued may be older than the store's. */
  ghost predicate LiveVisit(s: Sys, e: Event) {
    Queues(s, e) ==> s.threads[e.t].todo[0].id in s.live
  }

  /** Each accept comes right after its own check: that is what "check and save are one step"
      means. */
  ghost predicate ChecksAtOnce(events: seq<Event>) {
    forall i {:trigger events[i]} :: 0 <= i < |events| && events[i].Sweeper? && events[i].sweep.Accept? ==>
      i > 0 && events[i - 1] == Sweeper(events[i].t, Check)
  }

  /** A compaction rolls no save back: exactly then it changes no live record. */
  ghost predicate FaithfulCompaction(s: Sys, e: Event) {
    e.World? && e.world.CompactLog? && Enabled(s, e) ==> KeepsLatest(Readable(s.log), e.world.stamps)
  }

  ghost predicate Merged(s: Sys, e: Event) {
    FreshVisit(s, e) && FaithfulCompaction(s, e)
  }

  /** Compaction and restart change no live record. */
  lemma WorldKeepsLive(s: Sys, caps: map<Pool, nat>, e: WorldEvent)
    requires Journaled(s) && WorldEnabled(s, e) && FaithfulCompaction(s, World(e))
    ensures DoWorld(s, caps, e).live == s.live
  {
    ReadableAll(s.log);
    if e.CompactLog? {
      CompactIsReplayIff(Readable(s.log), e.stamps);
    }
  }

  /** Nothing but the visits themselves happens between the read of sweep `t` and the
      visit at `j`: that is what "the sweep is one step" means. */
  ghost predicate Uninterrupted(events: seq<Event>, t: Tid, i: nat, j: nat) {
    && i < j < |events|
    && events[i].Sweeper? && events[i].t == t && events[i].sweep.ReadStore?
    && forall k :: i < k <= j ==> events[k] == Sweeper(t, VisitNext)
  }

  /** Every visit of an uninterrupted sweep is fresh. */
  lemma {:induction false} UninterruptedIsFresh(
      states: seq<Sys>, caps: map<Pool, nat>, events: seq<Event>, t: Tid, i: nat, j: nat)
    requires IsRun(states, caps, events) && Uninterrupted(events, t, i, j)
    ensures FreshVisit(states[j], events[j])
  {
    UninterruptedSweep(states, caps, events, t, i, j);
    var s := states[j];
    if SweepEnabled(s, t, VisitNext) {
      assert s.threads[t].todo[0] in s.threads[t].todo;
    }
  }

  lemma {:induction false} UninterruptedSweep(
      states: seq<Sys>, caps: map<Pool, nat>, events: seq<Event>, t: Tid, i: nat, j: nat)
    requires IsRun(states, caps, events) && Uninterrupted(events, t, i, j)
    ensures var s := states[j];
            && t in s.threads && s.threads[t].Sweeping?
            && forall r :: r in s.threads[t].todo ==> r.id in s.live && s.live[r.id] == r
    decreases j - i
  {
    RunStep(states, caps, events, j - 1);
    if i < j - 1 {
      assert Uninterrupted(events, t, i, j - 1);
      UninterruptedSweep(states, caps, events, t, i, j - 1);
      VisitShrinks(states[j - 1], t);
    }
  }

  lemma VisitShrinks(s: Sys, t: Tid)
    requires SweepEnabled(s, t, VisitNext)
    ensures var s' := DoSweep(s, t, VisitNext);
            && s'.live == s.live && t in s'.threads && s'.threads[t].Sweeping?
            && s'.threads[t].todo == s.threads[t].todo[1..]
  {}
}
