/** The dependency graph over runs of the whole machine: exactly when it stays acyclic. */
module AcyclicRuns {
  import opened Wrappers
  import opened Tasks
  import opened DepGraph
  import opened Scheduler
  import opened Machine
  import opened Journal
  import opened Durable
  import DepOrder

  /** The live record that a step saves, if it saves one. */
  ghost function Saved(s: Sys, e: Event): Option<Record>
    requires Enabled(s, e)
  {
    match e
    case Sweeper(t, x) => if x.Accept? then Some(s.threads[t].task.(deletedAt := None)) else None
    case Dispatcher(t, x) => if x.Defer? then Some(Deferred(s.threads[t].disp.task, x.now)) else None
    case Execution(t, x) => if x.Resave? then Some(s.threads[t].exec.task) else None
    case World(_) => None
  }

  /** A record that is saved live would pass the check of an enqueue at that moment. */
  ghost predicate CheckedSave(s: Sys, e: Event) {
    Enabled(s, e) && Saved(s, e).Some? ==> !Reaches(s.live, Saved(s, e).value.Deps(), Saved(s, e).value.id)
  }

  lemma SaveAcyclicIff(s: Sys, r: Record)
    requires Acyclic(s.live)
    ensures Acyclic(Save(s, r).live) <==> r.deletedAt.Some? || !Reaches(s.live, r.Deps(), r.id)
  {
    if r.deletedAt.Some? {
      FewerEdgesAcyclic(s.live, s.live - {r.id});
    } else {
      InsertAcyclicIff(s.live, r);
    }
  }

  lemma SweepAcyclicIff(s: Sys, t: Tid, e: SweepEvent)
    requires Acyclic(s.live) && SweepEnabled(s, t, e)
    ensures Acyclic(DoSweep(s, t, e).live) <==> CheckedSave(s, Sweeper(t, e))
  {
    if e.Accept? {
      SaveAcyclicIff(s, s.threads[t].task.(deletedAt := None));
    } else {
      SweepKeepsLive(s, t, e);
    }
  }

  lemma SweepKeepsLive(s: Sys, t: Tid, e: SweepEvent)
    requires SweepEnabled(s, t, e) && !e.Accept?
    ensures DoSweep(s, t, e).live == s.live
  {}

  lemma DispatchAcyclicIff(s: Sys, t: Tid, e: DispatchEvent)
    requires Acyclic(s.live) && ThreadsKnown(s) && DispatchEnabled(s, t, e)
    ensures Acyclic(DoDispatch(s, t, e).live) <==> CheckedSave(s, Dispatcher(t, e))
  {
    if e.Defer? {
      assert LocalKnown(s.hist.accepted, s.threads[t]);
      SaveAcyclicIff(s, Deferred(s.threads[t].disp.task, e.now));
    } else {
      DispatchKeepsLive(s, t, e);
    }
  }

  lemma DispatchKeepsLive(s: Sys, t: Tid, e: DispatchEvent)
    requires DispatchEnabled(s, t, e) && !e.Defer?
    ensures DoDispatch(s, t, e).live == s.live
  {
    if e.Acquire? {} else if e.PopTask? {} else if e.FoundEmpty? {} else if e.Limit? {} else if e.UnqueueLimited? {}
    else if e.Begin? {} else if e.DropPermit? {} else {}
  }

  lemma ExecAcyclicIff(s: Sys, t: Tid, e: ExecEvent)
    requires Acyclic(s.live) && ThreadsKnown(s) && ExecEnabled(s, t, e)
    ensures Acyclic(DoExec(s, t, e).live) <==> CheckedSave(s, Execution(t, e))
  {
    var x := s.threads[t].exec;
    if e.Resave? {
      assert LocalKnown(s.hist.accepted, s.threads[t]);
      SaveAcyclicIff(s, x.task);
    } else {
      ExecLive(s, t, e);
      FewerEdgesAcyclic(s.live, DoExec(s, t, e).live);
    }
  }

  /** Compaction with any stamps and restart keep the live ids, and with ids not reused every
      version of a task has the same dependencies. */
  lemma WorldKeepsGraph(s: Sys, caps: map<Pool, nat>, e: WorldEvent)
    requires Acyclic(s.live) && Accounted(s) && WorldEnabled(s, e)
    ensures Acyclic(DoWorld(s, caps, e).live)
  {
    var s' := DoWorld(s, caps, e);
    WorldProvenance(s, caps, e);
    JournalStep(s, caps, World(e));
    DepOrder.SameDependents(s, s');
    forall v, w | w in Edges(s'.live, v) ensures w in Edges(s.live, v) {
      assert DepOrder.DependsOn(s'.live, v, w);
    }
    FewerEdgesAcyclic(s.live, s'.live);
  }

  /** A step keeps the graph acyclic exactly if what it saves would pass the check. */
  lemma StepAcyclicIff(s: Sys, caps: map<Pool, nat>, e: Event)
    requires Acyclic(s.live) && Accounted(s) && Enabled(s, e)
    ensures Acyclic(Do(s, caps, e).live) <==> CheckedSave(s, e)
  {
    match e
    case Sweeper(t, x) => SweepAcyclicIff(s, t, x);
    case Dispatcher(t, x) => DispatchAcyclicIff(s, t, x);
    case Execution(t, x) => ExecAcyclicIff(s, t, x);
    case World(x) => WorldKeepsGraph(s, caps, x);
  }

  lemma EmptyIsAcyclic()
    ensures Acyclic(map[])
  {
    var g: Graph := map[];
    assert forall p :: IsPath(g, p) && |p| >= 2 ==> p[1] in Edges(g, p[0]);
  }

  /** Main result: with ids not reused, the live graph is acyclic throughout a run exactly if
      every task accepted, put off or saved again would pass the check at that moment. */
  lemma AcyclicRunIff(states: seq<Sys>, caps: map<Pool, nat>, events: seq<Event>)
    requires IsRun(states, caps, events)
    requires forall i :: 0 <= i < |events| ==> NoReuse(states[i], events[i])
    ensures (forall i :: 0 <= i < |states| ==> Acyclic(states[i].live))
       <==> (forall i :: 0 <= i < |events| ==> CheckedSave(states[i], events[i]))
  {
    AccountedAlways(states, caps, events);
    EmptyIsAcyclic();
    forall i | 0 <= i < |events| && Acyclic(states[i].live)
      ensures Acyclic(states[i + 1].live) <==> CheckedSave(states[i], events[i])
    {
      RunStep(states, caps, events, i);
      StepAcyclicIff(states[i], caps, events[i]);
    }
    if forall i :: 0 <= i < |events| ==> CheckedSave(states[i], events[i]) {
      forall i | 0 <= i < |events| && Acyclic(states[i].live) ensures Acyclic(states[i + 1].live) {
        assert CheckedSave(states[i], events[i]);
      }
      Induct(states, (s: Sys) => Acyclic(s.live));
    }
  }

  // ------------------------------------------------- what a caller can arrange

  /** A task that is put off or saved again is live. */
  ghost predicate LiveSave(s: Sys, e: Event) {
    Enabled(s, e) && Saved(s, e).Some? && !e.Sweeper? ==> Saved(s, e).value.id in s.live
  }

  lemma CheckedAtOnce(states: seq<Sys>, caps: map<Pool, nat>, events: seq<Event>, i: nat)
    requires IsRun(states, caps, events) && ChecksAtOnce(events) && i < |events|
    requires events[i].Sweeper? && events[i].sweep.Accept?
    ensures CheckedSave(states[i], events[i])
  {
    assert events[i - 1] == Sweeper(events[i].t, Check);
    RunStep(states, caps, events, i - 1);
    RunStep(states, caps, events, i);
  }

  lemma LiveSaveIsChecked(s: Sys, e: Event)
    requires Acyclic(s.live) && Accounted(s) && LiveSave(s, e) && !e.Sweeper?
    ensures CheckedSave(s, e)
  {
    if Enabled(s, e) && Saved(s, e).Some? {
      var r := Saved(s, e).value;
      assert LocalKnown(s.hist.accepted, s.threads[e.t]);
      assert Known(s.hist.accepted, s.live[r.id]);
      LiveResaveIsSafe(s.live, r);
    }
  }

  /** Main result: with ids not reused, each accept right after its check, and every task that
      is put off or saved again live, the live graph stays acyclic, and so a store that is
      not empty always has a task none of whose dependencies is live. */
  lemma AcyclicAlways(states: seq<Sys>, caps: map<Pool, nat>, events: seq<Event>)
    requires IsRun(states, caps, events) && ChecksAtOnce(events)
    requires forall i :: 0 <= i < |events| ==> NoReuse(states[i], events[i]) && LiveSave(states[i], events[i])
    ensures forall i :: 0 <= i < |states| ==> Acyclic(states[i].live)
    ensures forall i :: 0 <= i < |states| && states[i].live != map[] ==> exists id :: Ready(states[i].live, id)
  {
    AccountedAlways(states, caps, events);
    EmptyIsAcyclic();
    forall i | 0 <= i < |events| && Acyclic(states[i].live) ensures Acyclic(states[i + 1].live) {
      RunStep(states, caps, events, i);
      if !events[i].Sweeper? {
        LiveSaveIsChecked(states[i], events[i]);
      } else if events[i].sweep.Accept? {
        CheckedAtOnce(states, caps, events, i);
      }
      StepAcyclicIff(states[i], caps, events[i]);
    }
    Induct(states, (s: Sys) => Acyclic(s.live));
    forall i | 0 <= i < |states| && states[i].live != map[] ensures exists id :: Ready(states[i].live, id) {
      SomethingIsReady(states[i].live);
    }
  }

  /** While everything in flight is clear, whatever is put off or saved again is live. */
  lemma ClearSavesAreLive(s: Sys, e: Event)
    requires DepOrder.Flight(s)
    ensures LiveSave(s, e)
  {
    if Enabled(s, e) && Saved(s, e).Some? && !e.Sweeper? {
      DepOrder.CarriedRecord(s, e.t);
    }
  }

  /** So a run in which every sweep queues only live ids, nothing is accepted that something
      in flight waits for, and each accept comes right after its check keeps the graph
      acyclic. */
  lemma ClearRunsAreAcyclic(states: seq<Sys>, caps: map<Pool, nat>, events: seq<Event>)
    requires DepOrder.ClearRun(states, caps, events) && ChecksAtOnce(events)
    ensures forall i :: 0 <= i < |states| ==> Acyclic(states[i].live)
  {
    DepOrder.FlightAlways(states, caps, events);
    forall i | 0 <= i < |events| ensures LiveSave(states[i], events[i]) {
      assert DepOrder.Flight(states[i]);
      ClearSavesAreLive(states[i], events[i]);
    }
    AcyclicAlways(states, caps, events);
  }
}
