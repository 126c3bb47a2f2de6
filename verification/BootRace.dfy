/** Booting on a queue directory (src/sharding.rs): what one daemon does, and what any number
    of daemons booting at once on one directory agree on. */
module BootRace {
  import opened Wrappers
  import opened Membership
  import LogReplay

  type Line = LogReplay.Line
  type DaemonId = nat

  datatype Layout = Sharded | Legacy | Fresh

  datatype BootError = AnotherDaemon | NoSuchFile | Record(error: MembershipError)

  /** The files that booting looks at. `legacyAlive`: a daemon from before sharding still
      runs here and holds its lock on the root lock file. */
  datatype Dir = Dir(
    file: MembersFile, rootLog: Option<seq<Line>>, rootLock: bool,
    shardLog: Option<seq<Line>>, shardLock: bool, legacyAlive: bool)

  function Count(file: MembersFile): Result<nat, BootError> {
    match file
    case Missing => Err(Record(NotInitialized))
    case Corrupt => Err(Record(Unparsable))
    case Present(m) => Ok(m.shards)
  }

  // ---------------------------------------------------------- one daemon alone

  function Detected(file: MembersFile, rootLog: Option<seq<Line>>): Layout {
    if !file.Missing? then Sharded else if rootLog.Some? then Legacy else Fresh
  }

  function Adopted(d: Dir, queue: string): Dir {
    d.(file := Present(Members(queue, 1, 0, map[])),
       rootLog := None, shardLog := d.rootLog,
       rootLock := false, shardLock := d.shardLock || d.rootLock)
  }

  /** Booting with nobody else around: the directory afterwards, and the answer. */
  function Boot(d: Dir, queue: string, requested: nat): (Dir, Result<nat, BootError>) {
    match Detected(d.file, d.rootLog)
    case Sharded => (d, Count(d.file))
    case Legacy =>
      if d.rootLock && d.legacyAlive then (d, Err(AnotherDaemon)) else (Adopted(d, queue), Ok(1))
    case Fresh => (d.(file := Present(Members(queue, requested, 0, map[]))), Ok(requested))
  }

  /** A directory that has booted is sharded, and boots again to the same count, whatever
      is requested, without changing. */
  lemma BootTwice(d: Dir, queue: string, requested: nat, queue': string, requested': nat)
    requires Boot(d, queue, requested).1.Ok?
    ensures var (d', answer) := Boot(d, queue, requested);
            && Detected(d'.file, d'.rootLog) == Sharded
            && Boot(d', queue', requested') == (d', answer)
  {
    match Detected(d.file, d.rootLog)
    case Sharded =>
    case Legacy =>
    case Fresh =>
  }

  class QueueDir {
    const store: MembershipStore
    var rootLog: Option<seq<Line>>
    var rootLock: bool
    var shardLog: Option<seq<Line>>
    var shardLock: bool
    var legacyAlive: bool

    constructor (store: MembershipStore, rootLog: Option<seq<Line>>, rootLock: bool, legacyAlive: bool)
      ensures this.store == store && Now() == Dir(store.file, rootLog, rootLock, None, false, legacyAlive)
    {
      this.store := store;
      this.rootLog, this.rootLock, this.shardLog, this.shardLock, this.legacyAlive :=
        rootLog, rootLock, None, false, legacyAlive;
    }

    ghost function Now(): Dir
      reads this, store
    {
      Dir(store.file, rootLog, rootLock, shardLog, shardLock, legacyAlive)
    }

    /** `detect_layout`. */
    method DetectLayout() returns (layout: Layout)
      ensures layout.Sharded? <==> !store.file.Missing?
      ensures layout.Legacy? <==> store.file.Missing? && rootLog.Some?
      ensures layout.Fresh? <==> store.file.Missing? && rootLog.None?
    {
      if !store.file.Missing? {
        layout := Sharded;
      } else if rootLog.Some? {
        layout := Legacy;
      } else {
        layout := Fresh;
      }
    }

    /** `migrate_legacy_unlocked`: probe the old lock, then move the log, then the lock. */
    method MigrateLegacyUnlocked() returns (result: Result<(), BootError>)
      modifies this
      ensures result == if old(rootLock && legacyAlive) then Err(AnotherDaemon)
                        else if old(rootLog).None? then Err(NoSuchFile) else Ok(())
      ensures result.Err? ==> Now() == old(Now())
      ensures result.Ok? ==>
                && rootLog == None && shardLog == old(rootLog)
                && !rootLock && shardLock == old(shardLock || rootLock) && legacyAlive == old(legacyAlive)
    {
      if rootLock && legacyAlive {
        return Err(AnotherDaemon);
      }
      if rootLog.None? {
        return Err(NoSuchFile);
      }
      shardLog, rootLog := rootLog, None;
      if rootLock {
        shardLock, rootLock := true, false;
      }
      result := Ok(());
    }

    /** `resolve_layout`. */
    method ResolveLayout(queue: string, requested: nat) returns (result: Result<nat, BootError>)
      modifies this, store
      ensures (Now(), result) == Boot(old(Now()), queue, requested)
      ensures old(store.file).Present? ==> result == Ok(old(store.file).m.shards) && Now() == old(Now())
      ensures old(store.file).Corrupt? ==> result == Err(Record(Unparsable)) && Now() == old(Now())
      ensures old(store.file.Missing? && rootLog.None?) ==>
                && result == Ok(requested) && Now() == old(Now()).(file := store.file)
                && store.file == Present(Members(queue, requested, 0, map[]))
      ensures old(store.file.Missing? && rootLog.Some? && rootLock && legacyAlive) ==>
                result == Err(AnotherDaemon) && Now() == old(Now())
      ensures old(store.file.Missing? && rootLog.Some? && !(rootLock && legacyAlive)) ==>
                && result == Ok(1) && store.file == Present(Members(queue, 1, 0, map[]))
                && rootLog == None && shardLog == old(rootLog)
                && !rootLock && shardLock == old(shardLock || rootLock) && legacyAlive == old(legacyAlive)
    {
      var layout := DetectLayout();
      match layout
      case Sharded =>
        result := Stored();
      case Legacy =>
        if !store.file.Missing? {
          result := Stored();
          return;
        }
        var moved := MigrateLegacyUnlocked();
        if moved.Err? {
          return Err(moved.error);
        }
        var written := store.Init(queue, 1);
        match written {
          case Err(e) => return Err(Record(e));
          case Ok(_) => result := Ok(1);
        }
      case Fresh =>
        if store.file.Missing? {
          var written := store.Init(queue, requested);
          match written {
            case Err(e) => return Err(Record(e));
            case Ok(_) =>
          }
        }
        result := Stored();
    }

    method Stored() returns (result: Result<nat, BootError>)
      ensures result == Count(store.file)
    {
      var loaded := store.Load();
      result := match loaded case Ok(m) => Ok(m.shards) case Err(e) => Err(Record(e));
    }
  }

  // -------------------------------------------------------- many daemons at once

  /** How far a daemon has got in `resolve_layout`. From `Adopting` to `LockMoved`, in
      `Initializing` and in `Leaving` it holds the membership lock. */
  datatype Progress =
    | Started(queue: string, requested: nat)
    | NoRecord(queue: string, requested: nat) // saw no membership file
    | SawSharded
    | SawLegacy(queue: string)
    | SawFresh(queue: string, requested: nat)
    | Adopting(queue: string) // rechecked: still no membership file
    | Probed(queue: string)
    | LogMoved(queue: string)
    | LockMoved(queue: string)
    | Initializing(queue: string, requested: nat)
    | Leaving(result: Result<nat, BootError>)
    | Done(result: Result<nat, BootError>)

  /** `accepted` is what the legacy log held at first and every line appended since. */
  datatype Sys = Sys(dir: Dir, lock: Option<DaemonId>, boots: map<DaemonId, Progress>, accepted: seq<Line>)

  datatype Event =
    | Arrive(d: DaemonId, queue: string, requested: nat)
    | Advance(d: DaemonId)
    | LegacyAppend(line: Line)
    | LegacyStop
    | ShardAppend(line: Line) // an engine of this version writes to shard 0
    | Mutate(claims: map<Shard, Claim>) // a claim, renewal, release or revert

  predicate HoldsLock(p: Progress) {
    p.Adopting? || p.Probed? || p.LogMoved? || p.LockMoved? || p.Initializing? || p.Leaving?
  }

  predicate NeedsLock(p: Progress) {
    p.SawSharded? || p.SawLegacy? || p.SawFresh?
  }

  predicate Enabled(s: Sys, e: Event) {
    match e
    case Arrive(d, _, _) => d !in s.boots
    case Advance(d) => d in s.boots && !s.boots[d].Done? && (NeedsLock(s.boots[d]) ==> s.lock.None?)
    case LegacyAppend(_) => s.dir.legacyAlive
    case LegacyStop => s.dir.legacyAlive
    case ShardAppend(_) => s.dir.file.Present?
    case Mutate(_) => s.dir.file.Present? && s.lock.None?
  }

  function Appended(log: Option<seq<Line>>, line: Line): Option<seq<Line>> {
    Some((if log.Some? then log.value else []) + [line])
  }

  /** What a daemon's next step does to the directory, and where it leaves the daemon. */
  function Move(dir: Dir, p: Progress): (Dir, Progress)
    requires !p.Done?
  {
    match p
    case Started(q, n) => (dir, if dir.file.Missing? then NoRecord(q, n) else SawSharded)
    case NoRecord(q, n) => (dir, if dir.rootLog.Some? then SawLegacy(q) else SawFresh(q, n))
    case SawSharded => (dir, Leaving(Count(dir.file)))
    case SawLegacy(q) => (dir, if dir.file.Missing? then Adopting(q) else Leaving(Count(dir.file)))
    case SawFresh(q, n) => (dir, Initializing(q, n))
    case Adopting(q) => (dir, if dir.rootLock && dir.legacyAlive then Leaving(Err(AnotherDaemon)) else Probed(q))
    case Probed(q) =>
      if dir.rootLog.None? then (dir, Leaving(Err(NoSuchFile)))
      else (dir.(rootLog := None, shardLog := dir.rootLog), LogMoved(q))
    case LogMoved(q) => (if dir.rootLock then dir.(rootLock := false, shardLock := true) else dir, LockMoved(q))
    case LockMoved(q) =>
      if dir.file.Missing? then (dir.(file := Present(Members(q, 1, 0, map[]))), Leaving(Ok(1)))
      else (dir, Leaving(Err(Record(AlreadyInitialized))))
    case Initializing(q, n) =>
      var file := if dir.file.Missing? then Present(Members(q, n, 0, map[])) else dir.file;
      (dir.(file := file), Leaving(Count(file)))
    case Leaving(r) => (dir, Done(r))
  }

  function Do(s: Sys, e: Event): Sys
    requires Enabled(s, e)
  {
    match e
    case Arrive(d, q, n) => s.(boots := s.boots[d := Started(q, n)])
    case Advance(d) =>
      var (dir, p) := Move(s.dir, s.boots[d]);
      Sys(dir, if HoldsLock(p) then Some(d) else if HoldsLock(s.boots[d]) then None else s.lock, s.boots[d := p], s.accepted)
    case LegacyAppend(line) => s.(dir := s.dir.(rootLog := Appended(s.dir.rootLog, line)), accepted := s.accepted + [line])
    case LegacyStop => s.(dir := s.dir.(legacyAlive := false))
    case ShardAppend(line) => s.(dir := s.dir.(shardLog := Appended(s.dir.shardLog, line)), accepted := s.accepted + [line])
    case Mutate(claims) => s.(dir := s.dir.(file := Present(Bump(s.dir.file.m, claims))))
  }

  /** No daemon has started; an unsharded directory has no log of shard 0. */
  ghost predicate Init(s: Sys) {
    && s.lock == None && s.boots == map[]
    && s.accepted == (if s.dir.rootLog.Some? then s.dir.rootLog.value else [])
    && (s.dir.file.Missing? ==> s.dir.shardLog == None)
    && (s.dir.legacyAlive ==> s.dir.rootLock)
  }

  ghost predicate IsRun(states: seq<Sys>, events: seq<Event>) {
    && |states| == |events| + 1
    && Init(states[0])
    && forall i {:trigger Enabled(states[i], events[i])} ::
         0 <= i < |events| ==> Enabled(states[i], events[i]) && states[i + 1] == Do(states[i], events[i])
  }

  // ------------------------------------------------------------------ invariants

  ghost predicate Locked(s: Sys) {
    && (s.lock.Some? ==> s.lock.value in s.boots)
    && forall d :: d in s.boots ==> (HoldsLock(s.boots[d]) <==> s.lock == Some(d))
  }

  predicate Moving(p: Progress) {
    p.LogMoved? || p.LockMoved?
  }

  /** The lock holder is between moving the log and writing the record. */
  predicate MidMove(s: Sys) {
    s.lock.Some? && s.lock.value in s.boots && Moving(s.boots[s.lock.value])
  }

  /** What the directory looks like from where one daemon stands. */
  predicate Consistent(s: Sys, p: Progress) {
    && (p.Adopting? || p.Probed? || Moving(p) ==> s.dir.file.Missing?)
    && (p.Probed? || Moving(p) ==> !s.dir.legacyAlive)
    && (p.SawSharded? ==> !s.dir.file.Missing?)
    && (p.SawLegacy? || p.Adopting? || p.Probed? ==> s.dir.file.Missing? && !MidMove(s) ==> s.dir.rootLog.Some?)
    && (p.Leaving? || p.Done? ==>
          if p.result.Ok? then s.dir.file.Present? && s.dir.file.m.shards == p.result.value
          else p.result.error == AnotherDaemon || (s.dir.file.Corrupt? && p.result.error == Record(Unparsable)))
  }

  ghost predicate Agreed(s: Sys) {
    && Locked(s)
    && (s.dir.legacyAlive ==> s.dir.rootLock)
    && (s.dir.file.Missing? && !MidMove(s) ==> s.dir.shardLog.None?)
    && forall d :: d in s.boots ==> Consistent(s, s.boots[d])
  }

  lemma LockedStep(s: Sys, e: Event)
    requires Locked(s) && Enabled(s, e)
    ensures Locked(Do(s, e))
  {}

  /** Only the lock holder's steps change the record, and once written it is not unwritten. */
  lemma RecordKept(s: Sys, e: Event)
    requires Enabled(s, e)
    ensures s.dir.file.Present? ==> Do(s, e).dir.file.Present? && Do(s, e).dir.file.m.shards == s.dir.file.m.shards
    ensures s.dir.file.Corrupt? ==> Do(s, e).dir.file.Corrupt?
    ensures s.dir.file.Missing? && !Do(s, e).dir.file.Missing? ==> e.Advance? && HoldsLock(s.boots[e.d])
  {}

  lemma AgreedAdvance(s: Sys, d: DaemonId)
    requires Agreed(s) && Enabled(s, Advance(d))
    ensures Agreed(Do(s, Advance(d)))
  {
    var s' := Do(s, Advance(d));
    LockedStep(s, Advance(d));
    RecordKept(s, Advance(d));
    assert Consistent(s, s.boots[d]);
    assert Consistent(s', s'.boots[d]);
    forall u | u in s'.boots && u != d ensures Consistent(s', s'.boots[u]) {
      assert Consistent(s, s.boots[u]);
    }
  }

  lemma AgreedStep(s: Sys, e: Event)
    requires Agreed(s) && Enabled(s, e)
    ensures Agreed(Do(s, e))
  {
    if e.Advance? {
      AgreedAdvance(s, e.d);
    } else {
      var s' := Do(s, e);
      LockedStep(s, e);
      assert MidMove(s') == MidMove(s);
      forall u | u in s'.boots ensures Consistent(s', s'.boots[u]) {
        if u in s.boots { assert Consistent(s, s.boots[u]); }
      }
    }
  }

  /** A directory that was legacy at first: every accepted line is at exactly one of the two
      paths, and the record, once written, says one shard. */
  ghost predicate Migrated(s: Sys) {
    && !s.dir.file.Corrupt?
    && (s.dir.file.Missing? && !MidMove(s) ==> s.dir.rootLog == Some(s.accepted) && s.dir.shardLog == None)
    && (s.dir.file.Present? || MidMove(s) ==>
          s.dir.rootLog == None && s.dir.shardLog == Some(s.accepted) && !s.dir.legacyAlive)
    && (s.dir.file.Present? ==> s.dir.file.m.shards == 1)
    && (forall d :: d in s.boots && (s.boots[d].SawFresh? || s.boots[d].Initializing?) ==> s.dir.rootLog == None)
  }

  lemma MigratedStep(s: Sys, e: Event)
    requires Agreed(s) && Migrated(s) && Enabled(s, e)
    ensures Migrated(Do(s, e))
  {
    var s' := Do(s, e);
    if e.Advance? {
      assert Consistent(s, s.boots[e.d]);
    } else {
      assert MidMove(s') == MidMove(s);
    }
  }

  // --------------------------------------------------------------- main results

  lemma RunStep(states: seq<Sys>, events: seq<Event>, i: nat)
    requires IsRun(states, events) && i < |events|
    ensures Enabled(states[i], events[i]) && states[i + 1] == Do(states[i], events[i])
  {
    assert Enabled(states[i], events[i]);
  }

  lemma {:induction false} AgreedAlways(states: seq<Sys>, events: seq<Event>, i: nat)
    requires IsRun(states, events) && i < |states|
    ensures Agreed(states[i])
  {
    if i > 0 {
      AgreedAlways(states, events, i - 1);
      RunStep(states, events, i - 1);
      AgreedStep(states[i - 1], events[i - 1]);
    }
  }

  lemma {:induction false} CountNeverChanges(states: seq<Sys>, events: seq<Event>, i: nat, j: nat)
    requires IsRun(states, events) && i <= j < |states|
    ensures states[i].dir.file.Present? ==>
              states[j].dir.file.Present? && states[j].dir.file.m.shards == states[i].dir.file.m.shards
  {
    if i < j {
      CountNeverChanges(states, events, i, j - 1);
      RunStep(states, events, j - 1);
      RecordKept(states[j - 1], events[j - 1]);
    }
  }

  /** Main result: whenever two daemons have booted, they were told the same count, and it is
      the count in the record then and ever after. */
  lemma BootAgreement(states: seq<Sys>, events: seq<Event>, i: nat, j: nat, a: DaemonId, b: DaemonId)
    requires IsRun(states, events) && i <= j < |states|
    requires a in states[i].boots && states[i].boots[a].Done? && states[i].boots[a].result.Ok?
    requires b in states[j].boots && states[j].boots[b].Done? && states[j].boots[b].result.Ok?
    ensures states[i].boots[a].result == states[j].boots[b].result
    ensures states[j].dir.file.Present? && states[j].dir.file.m.shards == states[i].boots[a].result.value
  {
    AgreedAlways(states, events, i);
    AgreedAlways(states, events, j);
    assert Consistent(states[i], states[i].boots[a]);
    assert Consistent(states[j], states[j].boots[b]);
    CountNeverChanges(states, events, i, j);
  }

  lemma {:induction false} LegacyStaysGone(states: seq<Sys>, events: seq<Event>, i: nat)
    requires IsRun(states, events) && i < |states| && !states[0].dir.legacyAlive
    ensures !states[i].dir.legacyAlive
    ensures forall d :: d in states[i].boots && (states[i].boots[d].Done? || states[i].boots[d].Leaving?) ==>
              states[i].boots[d].result != Err(AnotherDaemon)
  {
    if i > 0 {
      LegacyStaysGone(states, events, i - 1);
      RunStep(states, events, i - 1);
    }
  }

  /** One of the first `i` events is the arrival of a daemon for `queue` that asks for `n`. */
  ghost predicate Asked(events: seq<Event>, i: nat, queue: string, n: nat) {
    exists k, d :: 0 <= k < i && k < |events| && events[k] == Arrive(d, queue, n)
  }

  /** In a directory that was fresh at first, only what some daemon asked for is on its way
      to the record or in it. */
  ghost predicate AskedFor(s: Sys, events: seq<Event>, i: nat) {
    && s.dir.rootLog.None? && !s.dir.legacyAlive && !s.dir.file.Corrupt?
    && (s.dir.file.Present? ==> Asked(events, i, s.dir.file.m.queue, s.dir.file.m.shards))
    && forall d :: d in s.boots ==> Asks(s.boots[d], events, i)
  }

  ghost predicate Asks(p: Progress, events: seq<Event>, i: nat) {
    && (p.Started? || p.NoRecord? || p.SawFresh? || p.Initializing? ==> Asked(events, i, p.queue, p.requested))
    && !p.SawLegacy? && !p.Adopting? && !p.Probed? && !Moving(p)
  }

  lemma StillAsked(events: seq<Event>, i: nat, queue: string, n: nat)
    requires Asked(events, i, queue, n)
    ensures Asked(events, i + 1, queue, n)
  {}

  lemma AskedStep(s: Sys, events: seq<Event>, i: nat)
    requires i < |events| && Enabled(s, events[i]) && AskedFor(s, events, i)
    ensures AskedFor(Do(s, events[i]), events, i + 1)
  {
    var e, s' := events[i], Do(s, events[i]);
    forall queue, n | Asked(events, i, queue, n) ensures Asked(events, i + 1, queue, n) {
      StillAsked(events, i, queue, n);
    }
    if e.Arrive? { assert Asked(events, i + 1, e.queue, e.requested); }
    if e.Advance? { assert Asks(s.boots[e.d], events, i); }
    forall d | d in s'.boots ensures Asks(s'.boots[d], events, i + 1) {
      if d in s.boots { assert Asks(s.boots[d], events, i); }
    }
  }

  /** Main result: in a directory that was fresh at first, the record says what some daemon
      asked for before it was written, queue and count together. */
  lemma {:induction false} FreshCountWasAsked(states: seq<Sys>, events: seq<Event>, i: nat)
    requires IsRun(states, events) && i < |states|
    requires states[0].dir.file.Missing? && states[0].dir.rootLog.None? && !states[0].dir.legacyAlive
    ensures AskedFor(states[i], events, i)
    ensures forall d :: d in states[i].boots && states[i].boots[d].Done? ==>
              && states[i].boots[d].result.Ok?
              && exists queue :: Asked(events, i, queue, states[i].boots[d].result.value)
  {
    if i > 0 {
      FreshCountWasAsked(states, events, i - 1);
      RunStep(states, events, i - 1);
      AskedStep(states[i - 1], events, i - 1);
    }
    AgreedAlways(states, events, i);
    forall d | d in states[i].boots && states[i].boots[d].Done?
      ensures states[i].boots[d].result.Ok? && exists queue :: Asked(events, i, queue, states[i].boots[d].result.value)
    {
      assert Consistent(states[i], states[i].boots[d]);
      LegacyStaysGone(states, events, i);
    }
  }

  /** A boot fails only because a legacy daemon is still running or the record cannot be
      parsed; in particular the log to be moved is always there. */
  lemma BootFailures(states: seq<Sys>, events: seq<Event>, i: nat, d: DaemonId)
    requires IsRun(states, events) && i < |states|
    requires d in states[i].boots && states[i].boots[d].Done? && states[i].boots[d].result.Err?
    ensures var error := states[i].boots[d].result.error;
            if error == AnotherDaemon then states[0].dir.legacyAlive
            else error == Record(Unparsable) && states[0].dir.file.Corrupt?
  {
    AgreedAlways(states, events, i);
    assert Consistent(states[i], states[i].boots[d]);
    if !states[0].dir.legacyAlive {
      LegacyStaysGone(states, events, i);
    }
    if states[i].dir.file.Corrupt? {
      CorruptFromStart(states, events, i);
    }
  }

  lemma {:induction false} CorruptFromStart(states: seq<Sys>, events: seq<Event>, i: nat)
    requires IsRun(states, events) && i < |states| && states[i].dir.file.Corrupt?
    ensures states[0].dir.file.Corrupt?
  {
    if i > 0 {
      RunStep(states, events, i - 1);
      CorruptFromStart(states, events, i - 1);
    }
  }

  /** Main result: a legacy directory is adopted without losing a line. At every step the
      lines are at exactly one of the two paths, and every boot that succeeds is told 1. */
  lemma {:induction false} LegacyAdoption(states: seq<Sys>, events: seq<Event>, i: nat)
    requires IsRun(states, events) && i < |states|
    requires Detected(states[0].dir.file, states[0].dir.rootLog) == Legacy
    ensures Migrated(states[i])
    ensures states[0].accepted <= states[i].accepted
    ensures var d := states[i].dir;
            || (d.rootLog == Some(states[i].accepted) && d.shardLog == None)
            || (d.rootLog == None && d.shardLog == Some(states[i].accepted))
    ensures forall d :: d in states[i].boots && states[i].boots[d].Done? && states[i].boots[d].result.Ok? ==>
              states[i].boots[d].result.value == 1
  {
    if i > 0 {
      LegacyAdoption(states, events, i - 1);
      AgreedAlways(states, events, i - 1);
      RunStep(states, events, i - 1);
      MigratedStep(states[i - 1], events[i - 1]);
    }
    AgreedAlways(states, events, i);
    forall d | d in states[i].boots && states[i].boots[d].Done? && states[i].boots[d].result.Ok?
      ensures states[i].boots[d].result.value == 1
    {
      assert Consistent(states[i], states[i].boots[d]);
    }
  }

  // ----------------------------------------------- progress, and one daemon alone

  function StepsLeft(p: Progress): nat {
    match p
    case Started(_, _) => 8
    case NoRecord(_, _) => 7
    case SawLegacy(_) => 6
    case Adopting(_) => 5
    case Probed(_) => 4
    case LogMoved(_) => 3
    case LockMoved(_) => 2
    case SawFresh(_, _) => 3
    case SawSharded => 2
    case Initializing(_, _) => 2
    case Leaving(_) => 1
    case Done(_) => 0
  }

  /** Booting cannot get stuck: while a daemon is not done, one can step, and no daemon takes
      more than eight steps. */
  lemma NoDeadlock(s: Sys, d: DaemonId) returns (next: DaemonId)
    requires Agreed(s) && d in s.boots && !s.boots[d].Done?
    ensures Enabled(s, Advance(next))
    ensures StepsLeft(Do(s, Advance(next)).boots[next]) < StepsLeft(s.boots[next])
  {
    next := if s.lock.Some? then s.lock.value else d;
    assert s.lock.Some? ==> HoldsLock(s.boots[next]);
  }

  /** A daemon stepping until it is done, with nobody else taking a step. */
  function Alone(dir: Dir, p: Progress): (Dir, Result<nat, BootError>)
    decreases StepsLeft(p)
  {
    if p.Done? then (dir, p.result)
    else
      var (dir', p') := Move(dir, p);
      Alone(dir', p')
  }

  /** The machine's steps, taken by one daemon alone, are what `ResolveLayout` does. */
  lemma StepsMakeTheBoot(dir: Dir, queue: string, requested: nat)
    ensures Alone(dir, Started(queue, requested)) == Boot(dir, queue, requested)
  {
    if !dir.file.Missing? {
      assert Alone(dir, SawSharded) == (dir, Count(dir.file));
    } else if dir.rootLog.None? {
      var made := dir.(file := Present(Members(queue, requested, 0, map[])));
      assert Alone(made, Leaving(Ok(requested))) == (made, Ok(requested));
      assert Alone(dir, Initializing(queue, requested)) == (made, Ok(requested));
      assert Alone(dir, SawFresh(queue, requested)) == (made, Ok(requested));
    } else if dir.rootLock && dir.legacyAlive {
      assert Alone(dir, Adopting(queue)) == (dir, Err(AnotherDaemon));
      assert Alone(dir, SawLegacy(queue)) == (dir, Err(AnotherDaemon));
    } else {
      var moved := dir.(rootLog := None, shardLog := dir.rootLog);
      var unlocked := if moved.rootLock then moved.(rootLock := false, shardLock := true) else moved;
      var made := unlocked.(file := Present(Members(queue, 1, 0, map[])));
      assert made == Adopted(dir, queue);
      assert Alone(unlocked, LockMoved(queue)) == (made, Ok(1));
      assert Alone(moved, LogMoved(queue)) == (made, Ok(1));
      assert Alone(dir, Probed(queue)) == (made, Ok(1));
      assert Alone(dir, Adopting(queue)) == (made, Ok(1));
      assert Alone(dir, SawLegacy(queue)) == (made, Ok(1));
    }
  }

  /** A daemon alone in a fresh directory gets what it asked for; alone in a legacy one that
      nobody serves, it gets one shard with the log in it. */
  lemma LoneBoot(dir: Dir, queue: string, requested: nat)
    requires dir.file.Missing?
    ensures var (after, answer) := Alone(dir, Started(queue, requested));
            if dir.rootLog.None? then
              answer == Ok(requested) && after == dir.(file := Present(Members(queue, requested, 0, map[])))
            else if dir.rootLock && dir.legacyAlive then
              answer == Err(AnotherDaemon) && after == dir
            else
              && answer == Ok(1) && after.file == Present(Members(queue, 1, 0, map[]))
              && after.rootLog == None && after.shardLog == dir.rootLog
              && !after.rootLock && after.shardLock == (dir.shardLock || dir.rootLock)
  {
    StepsMakeTheBoot(dir, queue, requested);
  }
}
