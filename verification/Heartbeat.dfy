/** One heartbeat round of src/sharded_queue.rs: claim what can be claimed, give back what
    cannot be locked, drop the engines of shards that are no longer owned. */
module Heartbeat {
  import opened Tasks
  import opened Membership

  /** The claims after the first `k` shards of `keys` have been dealt with. */
  function ClaimsAfter(claims: map<Shard, Claim>, keys: seq<Shard>, lockable: set<Shard>, owner: Owner, now: Time): map<Shard, Claim> {
    if keys == [] then claims
    else
      var last := keys[|keys| - 1];
      var before := ClaimsAfter(claims, keys[..|keys| - 1], lockable, owner, now);
      if last in lockable then before[last := ClaimOf(owner, now + LEASE)] else before - {last}
  }

  function Locked(keys: seq<Shard>, lockable: set<Shard>): seq<Shard> {
    if keys == [] then []
    else
      var before := Locked(keys[..|keys| - 1], lockable);
      if keys[|keys| - 1] in lockable then before + [keys[|keys| - 1]] else before
  }

  ghost predicate Distinct(keys: seq<Shard>) {
    forall i, j :: 0 <= i < j < |keys| ==> keys[i] != keys[j]
  }

  /** What the round leaves: a new lease on each claimable shard that could be locked, no
      claim on the others, every other claim as it was. */
  lemma {:induction false} ClaimsAfterMeans(claims: map<Shard, Claim>, keys: seq<Shard>, lockable: set<Shard>, owner: Owner, now: Time)
    requires Distinct(keys)
    ensures var after := ClaimsAfter(claims, keys, lockable, owner, now);
            && (forall s :: s in keys && s in lockable ==> s in after && after[s] == ClaimOf(owner, now + 30 * SECOND))
            && (forall s :: s in keys && s !in lockable ==> s !in after)
            && (forall s :: s !in keys ==> (s in after <==> s in claims) && (s in claims ==> after[s] == claims[s]))
  {
    if keys != [] {
      var init := keys[..|keys| - 1];
      ClaimsAfterMeans(claims, init, lockable, owner, now);
      assert forall s :: s in keys <==> s in init || s == keys[|keys| - 1];
      assert keys[|keys| - 1] !in init;
    }
  }

  lemma {:induction false} LockedMeans(keys: seq<Shard>, lockable: set<Shard>)
    ensures forall s :: s in Locked(keys, lockable) <==> s in keys && s in lockable
  {
    if keys != [] {
      LockedMeans(keys[..|keys| - 1], lockable);
      assert forall s :: s in keys <==> s in keys[..|keys| - 1] || s == keys[|keys| - 1];
    }
  }

  class ShardedQueue {
    var shards: set<Shard> // the shards with a running engine
    const store: MembershipStore
    const owner: Owner

    constructor (store: MembershipStore, owner: Owner)
      ensures this.store == store && this.owner == owner && shards == {}
    {
      this.store, this.owner, shards := store, owner, {};
    }

    /** The claim loop, when no one else changes the record: every claim succeeds.
        `lockable` are the shards whose lock file can be taken. */
    method ClaimAll(claimable: seq<Shard>, now: Time, skew: Time, lockable: set<Shard>) returns (owned: seq<Shard>)
      requires Distinct(claimable)
      requires store.file.Present?
      requires forall i :: 0 <= i < |claimable| ==> Accepts(store.file.m.claims, claimable[i], owner, now, skew)
      modifies this, store
      ensures owned == Locked(claimable, lockable)
      ensures store.file.Present? && store.file.m.shards == old(store.file.m.shards)
      ensures store.file.m.claims == ClaimsAfter(old(store.file.m.claims), claimable, lockable, owner, now)
      ensures store.file.m.version == old(store.file.m.version) + 2 * |claimable| - |owned|
      ensures forall s :: s in shards <==>
                s in old(shards) || (s in owned && !Owns(old(store.file.m.claims), s, owner))
    {
      owned := [];
      ghost var claims0 := store.file.m.claims;
      ghost var version0 := store.file.m.version;
      var i := 0;
      while i < |claimable|
        invariant i <= |claimable|
        invariant owned == Locked(claimable[..i], lockable)
        invariant store.file.Present? && store.file.m.shards == old(store.file.m.shards)
        invariant store.file.m.claims == ClaimsAfter(claims0, claimable[..i], lockable, owner, now)
        invariant store.file.m.version == version0 + 2 * i - |owned|
        invariant forall s :: s in shards <==> s in old(shards) || (s in owned && !Owns(claims0, s, owner))
      {
        var shard := claimable[i];
        NotYetTouched(claims0, claimable, i, lockable, owner, now);
        assert claimable[..i + 1][..i] == claimable[..i];
        var outcome := store.Claim(shard, owner, now, skew);
        if outcome.Ok? {
          if shard in lockable {
            owned := owned + [shard];
            if !outcome.value.Renewed? {
              shards := shards + {shard};
            }
          } else {
            ghost var claims := ClaimsAfter(claims0, claimable[..i], lockable, owner, now);
            var _ := store.RevertClaim(shard, owner);
            assert claims[shard := ClaimOf(owner, now + LEASE)] - {shard} == claims - {shard};
          }
        }
        i := i + 1;
      }
      assert claimable[..i] == claimable;
    }

    /** `reconcile_shards`: engines of shards not owned in this round are dropped. */
    method ReconcileShards(currentOwned: seq<Shard>)
      modifies this
      ensures shards == set s | s in old(shards) && s in currentOwned
    {
      var existing := shards;
      while existing != {}
        invariant existing <= old(shards)
        invariant shards == set s | s in old(shards) && (s in existing || s in currentOwned)
        decreases existing
      {
        var shard :| shard in existing;
        existing := existing - {shard};
        if shard !in currentOwned {
          shards := shards - {shard};
        }
      }
    }

    /** A round with no other daemon in between. */
    method Round(now: Time, skew: Time, lockable: set<Shard>)
      modifies this, store
      ensures !old(store.file).Present? ==> store.file == old(store.file) && shards == {}
      ensures old(store.file).Present? ==>
                var m := old(store.file).m;
                && store.file.Present?
                && (forall s :: s in ClaimableShards(m, now, skew, owner) && s in lockable ==>
                      s in store.file.m.claims && store.file.m.claims[s] == ClaimOf(owner, now + 30 * SECOND))
                && (forall s :: s in ClaimableShards(m, now, skew, owner) && s !in lockable ==> s !in store.file.m.claims)
                && (forall s :: s !in ClaimableShards(m, now, skew, owner) ==>
                      (s in store.file.m.claims <==> s in m.claims) && (s in m.claims ==> store.file.m.claims[s] == m.claims[s]))
                && (forall s :: s in shards <==>
                      && s in ClaimableShards(m, now, skew, owner) && s in lockable
                      && (s in old(shards) || !Owns(m.claims, s, owner)))
    {
      var owned: seq<Shard> := [];
      var loaded := store.Load();
      if loaded.Ok? {
        var claimable := ClaimableShards(loaded.value, now, skew, owner);
        ClaimableOnce(loaded.value, now, skew, owner);
        owned := ClaimAll(claimable, now, skew, lockable);
        ClaimsAfterMeans(loaded.value.claims, claimable, lockable, owner, now);
        LockedMeans(claimable, lockable);
      }
      ReconcileShards(owned);
    }
  }

  /** The claim of the next shard is the one the round started with. */
  lemma NotYetTouched(claims: map<Shard, Claim>, keys: seq<Shard>, i: nat, lockable: set<Shard>, owner: Owner, now: Time)
    requires Distinct(keys) && i < |keys|
    ensures var after := ClaimsAfter(claims, keys[..i], lockable, owner, now);
            && (keys[i] in after <==> keys[i] in claims) && (keys[i] in claims ==> after[keys[i]] == claims[keys[i]])
  {
    ClaimsAfterMeans(claims, keys[..i], lockable, owner, now);
    assert keys[i] !in keys[..i];
  }
}
