/** Daemons sharing one membership record, each with its own clock. */
module LeaseProtocol {
  import opened Tasks
  import opened Membership

  /** `held` is what each daemon believes: the expiry of its last successful claim or
      renewal of a shard, until it gives the shard up. A daemon whose later claim is
      refused may go on believing. */
  datatype World = World(m: Members, clocks: map<Owner, Time>, held: map<(Owner, Shard), Time>)

  /** `now` is read from the daemon's clock at or before the step that holds the lock. */
  datatype Step =
    | Tick(owner: Owner, time: Time)
    | Claim(owner: Owner, shard: Shard, now: Time)
    | Renew(owner: Owner, shard: Shard, now: Time)
    | Release(owner: Owner, shard: Shard)
    | Revert(owner: Owner, shard: Shard)

  predicate Enabled(w: World, x: Step) {
    && x.owner in w.clocks
    && (x.Tick? ==> x.time >= w.clocks[x.owner])
    && (x.Claim? || x.Renew? ==> x.now <= w.clocks[x.owner])
  }

  /** A failed operation changes neither the record nor what the daemon believes. */
  function Do(w: World, skew: Time, x: Step): World
    requires Enabled(w, x)
  {
    match x
    case Tick(o, t) => w.(clocks := w.clocks[o := t])
    case Claim(o, s, now) =>
      if Accepts(w.m.claims, s, o, now, skew)
      then w.(m := Leased(w.m, s, o, now), held := w.held[(o, s) := now + LEASE]) else w
    case Renew(o, s, now) =>
      if Owns(w.m.claims, s, o)
      then w.(m := Leased(w.m, s, o, now), held := w.held[(o, s) := now + LEASE]) else w
    case Release(o, s) =>
      if Owns(w.m.claims, s, o) then w.(m := Freed(w.m, s), held := w.held - {(o, s)}) else w
    case Revert(o, s) => w.(m := Reverted(w.m, s, o), held := w.held - {(o, s)})
  }

  ghost predicate Synchronized(w: World, skew: Time) {
    forall a, b :: a in w.clocks && b in w.clocks ==> w.clocks[a] - w.clocks[b] <= skew
  }

  /** Daemon `o` holds an unexpired lease on `s`, by its own clock. */
  predicate Leases(w: World, o: Owner, s: Shard) {
    o in w.clocks && (o, s) in w.held && w.clocks[o] <= w.held[(o, s)]
  }

  ghost predicate Safe(w: World) {
    forall a, b, s :: Leases(w, a, s) && Leases(w, b, s) ==> a == b
  }

  /** What a daemon believes is what the record says, or has expired on its own clock. */
  ghost predicate Truthful(w: World) {
    forall o, s :: (o, s) in w.held ==>
      o in w.clocks && ((s in w.m.claims && w.m.claims[s] == ClaimOf(o, w.held[(o, s)])) || w.clocks[o] > w.held[(o, s)])
  }

  lemma TruthfulIsSafe(w: World)
    requires Truthful(w)
    ensures Safe(w)
  {}

  lemma TruthfulStep(w: World, skew: Time, x: Step)
    requires Truthful(w) && Enabled(w, x) && Synchronized(w, skew)
    ensures Truthful(Do(w, skew, x))
  {
    if x.Claim? && Accepts(w.m.claims, x.shard, x.owner, x.now, skew) {
      var w' := Do(w, skew, x);
      forall o, s | (o, s) in w'.held
        ensures o in w'.clocks && ((s in w'.m.claims && w'.m.claims[s] == ClaimOf(o, w'.held[(o, s)])) || w'.clocks[o] > w'.held[(o, s)])
      {
        if s == x.shard && o != x.owner {
          // a takeover: the old lease ran out more than the margin ago on the new owner's clock
          assert (o, s) in w.held;
          assert w.clocks[x.owner] - w.clocks[o] <= skew;
        }
      }
    }
  }

  ghost predicate IsRun(worlds: seq<World>, skew: Time, steps: seq<Step>) {
    && |worlds| == |steps| + 1
    && worlds[0].held == map[]
    && forall i :: 0 <= i < |steps| ==> Enabled(worlds[i], steps[i]) && worlds[i + 1] == Do(worlds[i], skew, steps[i])
  }

  /** Main result: in every run in which the clocks stay within the margin of each other,
      no two daemons ever hold an unexpired lease on the same shard. */
  lemma {:induction false} LeaseSafety(worlds: seq<World>, skew: Time, steps: seq<Step>)
    requires IsRun(worlds, skew, steps)
    requires forall i :: 0 <= i < |worlds| ==> Synchronized(worlds[i], skew)
    ensures forall i :: 0 <= i < |worlds| ==> Truthful(worlds[i]) && Safe(worlds[i])
    decreases |steps|
  {
    var n := |steps|;
    if n > 0 {
      LeaseSafety(worlds[..n], skew, steps[..n - 1]);
      assert worlds[..n][n - 1] == worlds[n - 1];
      TruthfulStep(worlds[n - 1], skew, steps[n - 1]);
      forall i | 0 <= i < |worlds| ensures Truthful(worlds[i]) {
        if i < n { assert worlds[..n][i] == worlds[i]; }
      }
    }
    forall i | 0 <= i < |worlds| ensures Safe(worlds[i]) {
      TruthfulIsSafe(worlds[i]);
    }
  }

  /** The margin cannot be one nanosecond smaller than the clocks' distance. */
  lemma MarginIsTight(a: Owner, b: Owner, s: Shard, q: string, skew: Time)
    requires a != b && skew >= 0
    ensures var w0 := World(Members(q, 1, 0, map[]), map[a := LEASE, b := LEASE + skew + 1], map[]);
            var w1 := Do(w0, skew, Claim(a, s, 0));
            && Synchronized(w0, skew + 1) && !Synchronized(w0, skew)
            && Enabled(w0, Claim(a, s, 0)) && Enabled(w1, Claim(b, s, LEASE + skew + 1))
            && !Safe(Do(w1, skew, Claim(b, s, LEASE + skew + 1)))
  {
    var w0 := World(Members(q, 1, 0, map[]), map[a := LEASE, b := LEASE + skew + 1], map[]);
    var w1 := Do(w0, skew, Claim(a, s, 0));
    var w2 := Do(w1, skew, Claim(b, s, LEASE + skew + 1));
    assert w0.clocks[b] - w0.clocks[a] == skew + 1;
    assert Leases(w2, a, s) && Leases(w2, b, s);
  }

  // ---------------------------------------------------------------- versions

  /** A step that changes the record raises the version by one and touches one shard. */
  lemma VersionStep(w: World, skew: Time, x: Step)
    requires Enabled(w, x)
    ensures var w' := Do(w, skew, x);
            || w'.m == w.m
            || (&& w'.m.version == w.m.version + 1 && w'.m.shards == w.m.shards && !x.Tick?
                && forall s :: s != x.shard ==> (s in w'.m.claims <==> s in w.m.claims) && (s in w.m.claims ==> w'.m.claims[s] == w.m.claims[s]))
  {}

  lemma {:induction false} VersionGrows(worlds: seq<World>, skew: Time, steps: seq<Step>, i: nat, j: nat)
    requires IsRun(worlds, skew, steps) && i <= j < |worlds|
    ensures worlds[i].m.version <= worlds[j].m.version
    ensures worlds[i].m.version == worlds[j].m.version ==> worlds[i].m == worlds[j].m
    decreases j - i
  {
    if i < j {
      VersionGrows(worlds, skew, steps, i, j - 1);
      VersionStep(worlds[j - 1], skew, steps[j - 1]);
    }
  }

  /** Two moments of a run with equal versions have equal records: comparing versions is
      enough to notice a takeover. */
  lemma EqualVersionsEqualClaims(worlds: seq<World>, skew: Time, steps: seq<Step>, i: nat, j: nat)
    requires IsRun(worlds, skew, steps) && i < |worlds| && j < |worlds|
    requires worlds[i].m.version == worlds[j].m.version
    ensures worlds[i].m == worlds[j].m
  {
    if i <= j { VersionGrows(worlds, skew, steps, i, j); } else { VersionGrows(worlds, skew, steps, j, i); }
  }
}
