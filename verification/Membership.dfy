/** The shard lease record of src/membership.rs and the operations on it. */
module Membership {
  import opened Wrappers
  import opened Tasks

  type Owner = string
  type Shard = string

  const LEASE: Time := 30 * SECOND

  datatype Claim = ClaimOf(owner: Owner, expiry: Time)

  datatype Members = Members(queue: string, shards: nat, version: nat, claims: map<Shard, Claim>)

  datatype MembersFile = Missing | Corrupt | Present(m: Members)

  datatype MembershipError =
    | NotInitialized
    | AlreadyInitialized
    | OwnedByOther(shard: Shard, owner: Owner)
    | LeaseLost(shard: Shard)
    | Unparsable

  datatype ClaimOutcome = Claimed | Renewed | TakenOver(previous: Owner)

  predicate IsLapsed(c: Claim, now: Time, skew: Time) {
    now > c.expiry + skew
  }

  /** `claim` accepts: the shard is free, the caller's own, or its lease has lapsed. */
  predicate Accepts(claims: map<Shard, Claim>, shard: Shard, owner: Owner, now: Time, skew: Time) {
    shard in claims ==> claims[shard].owner == owner || IsLapsed(claims[shard], now, skew)
  }

  predicate Owns(claims: map<Shard, Claim>, shard: Shard, owner: Owner) {
    shard in claims && claims[shard].owner == owner
  }

  /** A successful mutation: new claims, and the version one higher. */
  function Bump(m: Members, claims: map<Shard, Claim>): Members {
    m.(claims := claims, version := m.version + 1)
  }

  function Leased(m: Members, shard: Shard, owner: Owner, now: Time): Members {
    Bump(m, m.claims[shard := ClaimOf(owner, now + LEASE)])
  }

  function Freed(m: Members, shard: Shard): Members {
    Bump(m, m.claims - {shard})
  }

  function Reverted(m: Members, shard: Shard, owner: Owner): Members {
    if Owns(m.claims, shard, owner) then Freed(m, shard) else Bump(m, m.claims)
  }

  // ------------------------------------------------------------ shard names

  function Digit(d: nat): (c: char)
    requires d < 10
  {
    "0123456789"[d]
  }

  function Decimal(n: nat): (s: string)
    ensures s != []
  {
    if n < 10 then [Digit(n)] else Decimal(n / 10) + [Digit(n % 10)]
  }

  function ShardKey(index: nat): Shard {
    "shard-" + Decimal(index)
  }

  lemma {:induction false} DecimalInjective(a: nat, b: nat)
    requires Decimal(a) == Decimal(b)
    ensures a == b
  {
    var x, y := Decimal(a), Decimal(b);
    assert x[|x| - 1] == Digit(a % 10) && y[|y| - 1] == Digit(b % 10);
    assert a >= 10 <==> |x| >= 2;
    assert b >= 10 <==> |y| >= 2;
    if a >= 10 {
      assert x[..|x| - 1] == Decimal(a / 10) && y[..|y| - 1] == Decimal(b / 10);
      DecimalInjective(a / 10, b / 10);
    }
  }

  lemma ShardKeyInjective(a: nat, b: nat)
    requires ShardKey(a) == ShardKey(b)
    ensures a == b
  {
    assert ShardKey(a)[6..] == Decimal(a) && ShardKey(b)[6..] == Decimal(b);
    DecimalInjective(a, b);
  }

  // ------------------------------------------------------- claimable shards

  /** The claimable shards among the first `n`. */
  function ClaimableUpTo(m: Members, now: Time, skew: Time, owner: Owner, n: nat): seq<Shard> {
    if n == 0 then []
    else
      var before := ClaimableUpTo(m, now, skew, owner, n - 1);
      var key := ShardKey(n - 1);
      if key !in m.claims || m.claims[key].owner == owner || IsLapsed(m.claims[key], now, skew) then before + [key] else before
  }

  function ClaimableShards(m: Members, now: Time, skew: Time, owner: Owner): seq<Shard> {
    ClaimableUpTo(m, now, skew, owner, m.shards)
  }

  /** The listed shards are in range, in index order, and so each listed once. */
  lemma {:induction false} ClaimableInOrder(m: Members, now: Time, skew: Time, owner: Owner, n: nat) returns (index: seq<nat>)
    ensures var keys := ClaimableUpTo(m, now, skew, owner, n);
            && |index| == |keys|
            && (forall i :: 0 <= i < |keys| ==> index[i] < n && keys[i] == ShardKey(index[i]))
            && (forall i, j :: 0 <= i < j < |keys| ==> index[i] < index[j])
  {
    if n == 0 {
      index := [];
    } else {
      var rest := ClaimableInOrder(m, now, skew, owner, n - 1);
      index := if |ClaimableUpTo(m, now, skew, owner, n)| > |rest| then rest + [n - 1] else rest;
    }
  }

  /** An in-range shard is listed exactly when `claim` would accept it. */
  lemma {:induction false} ClaimableExactly(m: Members, now: Time, skew: Time, owner: Owner, n: nat, k: nat)
    requires k < n
    ensures ShardKey(k) in ClaimableUpTo(m, now, skew, owner, n) <==> Accepts(m.claims, ShardKey(k), owner, now, skew)
  {
    var before := ClaimableUpTo(m, now, skew, owner, n - 1);
    if k < n - 1 {
      ClaimableExactly(m, now, skew, owner, n - 1, k);
      if ShardKey(k) == ShardKey(n - 1) { ShardKeyInjective(k, n - 1); }
    } else {
      var index := ClaimableInOrder(m, now, skew, owner, n - 1);
      if ShardKey(k) in before {
        var i :| 0 <= i < |before| && before[i] == ShardKey(k);
        ShardKeyInjective(index[i], k);
      }
    }
  }

  lemma ClaimableOnce(m: Members, now: Time, skew: Time, owner: Owner)
    ensures var keys := ClaimableShards(m, now, skew, owner);
            && (forall i, j :: 0 <= i < j < |keys| ==> keys[i] != keys[j])
            && (forall i :: 0 <= i < |keys| ==> Accepts(m.claims, keys[i], owner, now, skew))
  {
    var keys := ClaimableShards(m, now, skew, owner);
    var index := ClaimableInOrder(m, now, skew, owner, m.shards);
    forall i, j | 0 <= i < j < |keys| ensures keys[i] != keys[j] {
      if keys[i] == keys[j] { ShardKeyInjective(index[i], index[j]); }
    }
    forall i | 0 <= i < |keys| ensures Accepts(m.claims, keys[i], owner, now, skew) {
      assert ShardKey(index[i]) in keys;
      ClaimableExactly(m, now, skew, owner, m.shards, index[i]);
    }
  }

  // -------------------------------------------------------------- the store

  /** One queue directory's `membership.json`. Every method holds the membership lock. */
  class MembershipStore {
    var file: MembersFile

    constructor (file: MembersFile)
      ensures this.file == file
    {
      this.file := file;
    }

    /** `init_unlocked`: one-shot. */
    method Init(queue: string, shards: nat) returns (result: Result<(), MembershipError>)
      modifies this
      ensures result.Ok? <==> old(file).Missing?
      ensures result.Ok? ==> file == Present(Members(queue, shards, 0, map[]))
      ensures result.Err? ==> result == Err(AlreadyInitialized) && file == old(file)
    {
      if !file.Missing? {
        return Err(AlreadyInitialized);
      }
      file := Present(Members(queue, shards, 0, map[]));
      result := Ok(());
    }

    /** `read_unlocked`. */
    method Load() returns (result: Result<Members, MembershipError>)
      ensures result.Ok? <==> file.Present?
      ensures result.Ok? ==> file == Present(result.value)
      ensures result == Err(NotInitialized) <==> file.Missing?
      ensures result == Err(Unparsable) <==> file.Corrupt?
    {
      result := match file case Missing => Err(NotInitialized) case Corrupt => Err(Unparsable) case Present(m) => Ok(m);
    }

    method Claim(shard: Shard, owner: Owner, now: Time, skew: Time) returns (result: Result<ClaimOutcome, MembershipError>)
      modifies this
      ensures !old(file).Present? ==> result.Err? && file == old(file)
      ensures old(file).Present? ==>
                var m := old(file).m;
                if shard in m.claims && m.claims[shard].owner != owner && now <= m.claims[shard].expiry + skew then
                  result == Err(OwnedByOther(shard, m.claims[shard].owner)) && file == old(file)
                else
                  && file == Present(m.(version := m.version + 1, claims := m.claims[shard := ClaimOf(owner, now + 30 * SECOND)]))
                  && result == Ok(if shard !in m.claims then Claimed
                                  else if m.claims[shard].owner == owner then Renewed
                                  else TakenOver(m.claims[shard].owner))
    {
      var loaded := Load();
      if loaded.Err? {
        return Err(loaded.error);
      }
      var m := loaded.value;
      var lease := ClaimOf(owner, now + LEASE);
      if shard !in m.claims {
        m := m.(claims := m.claims[shard := lease]);
        result := Ok(Claimed);
      } else if m.claims[shard].owner == owner {
        m := m.(claims := m.claims[shard := lease]);
        result := Ok(Renewed);
      } else if IsLapsed(m.claims[shard], now, skew) {
        result := Ok(TakenOver(m.claims[shard].owner));
        m := m.(claims := m.claims[shard := lease]);
      } else {
        return Err(OwnedByOther(shard, m.claims[shard].owner));
      }
      file := Present(m.(version := m.version + 1));
    }

    method Renew(shard: Shard, owner: Owner, now: Time) returns (result: Result<(), MembershipError>)
      modifies this
      ensures result.Ok? <==> old(file).Present? && Owns(old(file).m.claims, shard, owner)
      ensures result.Ok? ==>
                var m := old(file).m;
                file == Present(m.(version := m.version + 1, claims := m.claims[shard := ClaimOf(owner, now + 30 * SECOND)]))
      ensures result.Err? ==> file == old(file) && (old(file).Present? ==> result == Err(LeaseLost(shard)))
    {
      var loaded := Load();
      if loaded.Err? {
        return Err(loaded.error);
      }
      var m := loaded.value;
      if !Owns(m.claims, shard, owner) {
        return Err(LeaseLost(shard));
      }
      m := m.(claims := m.claims[shard := m.claims[shard].(expiry := now + LEASE)]);
      file := Present(m.(version := m.version + 1));
      result := Ok(());
    }

    method Release(shard: Shard, owner: Owner) returns (result: Result<(), MembershipError>)
      modifies this
      ensures result.Ok? <==> old(file).Present? && Owns(old(file).m.claims, shard, owner)
      ensures result.Ok? ==> var m := old(file).m; file == Present(m.(version := m.version + 1, claims := m.claims - {shard}))
      ensures result.Err? ==> file == old(file) && (old(file).Present? ==> result == Err(LeaseLost(shard)))
    {
      var loaded := Load();
      if loaded.Err? {
        return Err(loaded.error);
      }
      var m := loaded.value;
      if !Owns(m.claims, shard, owner) {
        return Err(LeaseLost(shard));
      }
      m := m.(claims := m.claims - {shard});
      file := Present(m.(version := m.version + 1));
      result := Ok(());
    }

    /** Removes the entry only if the caller still owns it; succeeds, and raises the
        version, in either case. */
    method RevertClaim(shard: Shard, owner: Owner) returns (result: Result<(), MembershipError>)
      modifies this
      ensures result.Ok? <==> old(file).Present?
      ensures result.Ok? ==>
                var m := old(file).m;
                var mine := shard in m.claims && m.claims[shard].owner == owner;
                file == Present(m.(version := m.version + 1, claims := if mine then m.claims - {shard} else m.claims))
      ensures result.Err? ==> file == old(file)
    {
      var loaded := Load();
      if loaded.Err? {
        return Err(loaded.error);
      }
      var m := loaded.value;
      if shard in m.claims && m.claims[shard].owner == owner {
        m := m.(claims := m.claims - {shard});
      }
      file := Present(m.(version := m.version + 1));
      result := Ok(());
    }
  }
}
