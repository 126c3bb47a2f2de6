/** Completion is final: a completed id is not run again while its entry stands. */
module Completion {
  import opened Tasks
  import opened Scheduler
  import opened Machine
  import opened Exclusive

  /** The execution has passed the completed check and has not recorded completion. */
  predicate Unmarked(l: Local) {
    l.Executing? && (l.exec.Cleared? || l.exec.Running? || l.exec.Saving? || l.exec.Scanning? || l.exec.Blocking? || l.exec.Marking?)
  }

  ghost predicate OpenNotCompleted(s: Sys) {
    forall t :: t in s.threads && Unmarked(s.threads[t]) ==> s.threads[t].exec.task.id !in s.sh.completed
  }

  lemma CompletionExec(s: Sys, t: Tid, e: ExecEvent)
    requires Exclusion(s) && OpenNotCompleted(s) && ExecEnabled(s, t, e)
    ensures OpenNotCompleted(DoExec(s, t, e))
  {
    if e.Mark? {
      OthersDiffer(s, t);
    }
  }

  lemma CompletionDispatch(s: Sys, t: Tid, e: DispatchEvent)
    requires OpenNotCompleted(s) && DispatchEnabled(s, t, e)
    ensures OpenNotCompleted(DoDispatch(s, t, e))
  {}

  lemma CompletionStep(s: Sys, caps: map<Pool, nat>, e: Event)
    requires Exclusion(s) && OpenNotCompleted(s) && Enabled(s, e)
    ensures OpenNotCompleted(Do(s, caps, e))
  {
    match e
    case Sweeper(t, x) => SweepFrame(s, t, x);
    case Dispatcher(t, x) => CompletionDispatch(s, t, x);
    case Execution(t, x) => CompletionExec(s, t, x);
    case World(x) =>
  }

  /** No completion is recorded for a later time than now. */
  ghost predicate NotAhead(s: Sys) {
    forall id :: id in s.sh.completed ==> s.sh.completed[id] <= s.clock
  }

  lemma NotAheadStep(s: Sys, caps: map<Pool, nat>, e: Event)
    requires NotAhead(s) && Enabled(s, e)
    ensures NotAhead(Do(s, caps, e))
  {
    ClockStep(s, caps, e);
    match e
    case Sweeper(t, x) => SweepFrame(s, t, x);
    case Dispatcher(t, x) => DispatchFrame(s, t, x);
    case Execution(t, x) => ExecFrame(s, t, x); ExecCompletedFrame(s, t, x);
    case World(x) =>
  }

  lemma NotAheadAlways(states: seq<Sys>, caps: map<Pool, nat>, events: seq<Event>)
    requires IsRun(states, caps, events)
    ensures forall i :: 0 <= i < |states| ==> NotAhead(states[i])
  {
    forall i | 0 <= i < |events| && NotAhead(states[i]) ensures NotAhead(states[i + 1]) {
      RunStep(states, caps, events, i);
      NotAheadStep(states[i], caps, events[i]);
    }
    Induct(states, s => NotAhead(s));
  }

  /** The event starts the handler of `id`. */
  ghost predicate StartsHandler(s: Sys, e: Event, id: Id) {
    e.Execution? && e.exec == Invoke(true) && Enabled(s, e) && s.threads[e.t].exec.task.id == id
  }

  /** In every run no handler starts for an id that is recorded as completed. The check
      and the start are two steps; exclusive execution closes the gap between them. */
  lemma CompletionFinal(states: seq<Sys>, caps: map<Pool, nat>, events: seq<Event>)
    requires IsRun(states, caps, events)
    ensures forall i :: 0 <= i < |states| ==> OpenNotCompleted(states[i])
    ensures forall i, id :: 0 <= i < |events| && id in states[i].sh.completed ==> !StartsHandler(states[i], events[i], id)
  {
    ExclusionAlways(states, caps, events);
    forall i | 0 <= i < |events| && OpenNotCompleted(states[i]) ensures OpenNotCompleted(states[i + 1]) {
      RunStep(states, caps, events, i);
      CompletionStep(states[i], caps, events[i]);
    }
    Induct(states, s => OpenNotCompleted(s));
  }

  lemma EntryStaysExec(s: Sys, t: Tid, e: ExecEvent, id: Id, since: Time)
    requires ExecEnabled(s, t, e)
    requires id in s.sh.completed && since <= s.sh.completed[id] && since <= s.clock
    ensures id in DoExec(s, t, e).sh.completed && since <= DoExec(s, t, e).sh.completed[id]
  {}

  /** An entry younger than the time to live survives every step but a crash. */
  lemma EntryStays(s: Sys, caps: map<Pool, nat>, e: Event, id: Id, since: Time)
    requires Enabled(s, e) && e != World(Crash)
    requires id in s.sh.completed && since <= s.sh.completed[id] && since <= s.clock
    requires s.clock - since < 60 * SECOND
    ensures var s' := Do(s, caps, e);
            id in s'.sh.completed && since <= s'.sh.completed[id] && s.clock <= s'.clock
  {
    ClockStep(s, caps, e);
    match e
    case Sweeper(t, x) => SweepFrame(s, t, x);
    case Dispatcher(t, x) => DispatchFrame(s, t, x);
    case Execution(t, x) => EntryStaysExec(s, t, x, id, since);
    case World(x) =>
  }

  /** Main result: for a full minute after an id is recorded, no handler starts for it,
      however the sweeps, dispatchers and evictions interleave, unless the process dies. */
  lemma {:induction false} NoRerunWithinTtl(
      states: seq<Sys>, caps: map<Pool, nat>, events: seq<Event>, i: nat, j: nat, id: Id)
    requires IsRun(states, caps, events) && i <= j < |events|
    requires id in states[i].sh.completed
    requires forall k :: i <= k < j ==> events[k] != World(Crash)
    requires states[j].clock - states[i].sh.completed[id] < 60 * SECOND
    ensures !StartsHandler(states[j], events[j], id)
  {
    CompletionFinal(states, caps, events);
    NotAheadAlways(states, caps, events);
    assert NotAhead(states[i]);
    EntryStaysUntil(states, caps, events, i, j, id);
  }

  lemma {:induction false} ClockGrows(states: seq<Sys>, caps: map<Pool, nat>, events: seq<Event>, i: nat, j: nat)
    requires IsRun(states, caps, events) && i <= j < |states|
    ensures states[i].clock <= states[j].clock
    decreases j - i
  {
    if i < j {
      ClockGrows(states, caps, events, i, j - 1);
      RunStep(states, caps, events, j - 1);
      ClockStep(states[j - 1], caps, events[j - 1]);
    }
  }

  lemma {:induction false} EntryStaysUntil(
      states: seq<Sys>, caps: map<Pool, nat>, events: seq<Event>, i: nat, j: nat, id: Id)
    requires IsRun(states, caps, events) && i <= j < |states|
    requires id in states[i].sh.completed && states[i].sh.completed[id] <= states[i].clock
    requires forall k :: i <= k < j ==> events[k] != World(Crash)
    requires states[j].clock - states[i].sh.completed[id] < 60 * SECOND
    ensures id in states[j].sh.completed && states[i].sh.completed[id] <= states[j].sh.completed[id]
    ensures states[i].sh.completed[id] <= states[j].clock
    decreases j - i
  {
    if i < j {
      ClockGrows(states, caps, events, j - 1, j);
      EntryStaysUntil(states, caps, events, i, j - 1, id);
      RunStep(states, caps, events, j - 1);
      EntryStays(states[j - 1], caps, events[j - 1], id, states[i].sh.completed[id]);
    }
  }
}
