/** Routing by FNV-1a (src/sharding.rs): 64-bit words and bytes as bounded integers. */
module Sharding {

  const MODULUS: int := 0x1_0000_0000_0000_0000
  type Word = x: int | 0 <= x < MODULUS
  type Byte = x: int | 0 <= x < 256

  const OFFSET_BASIS: Word := 0xcbf29ce484222325
  const PRIME: Word := 0x100000001b3
  const INVERSE: Word := 0xce965057aff6957b // PRIME * INVERSE == 1 modulo 2^64

  /** Exclusive or, digit by binary digit. */
  function Xor(a: nat, b: nat): nat {
    if a == 0 && b == 0 then 0
    else (if a % 2 != b % 2 then 1 else 0) + 2 * Xor(a / 2, b / 2)
  }

  function Pow2(n: nat): nat {
    if n == 0 then 1 else 2 * Pow2(n - 1)
  }

  lemma {:induction false} XorBound(a: nat, b: nat, n: nat)
    requires a < Pow2(n) && b < Pow2(n)
    ensures Xor(a, b) < Pow2(n)
  {
    if n > 0 {
      XorBound(a / 2, b / 2, n - 1);
    }
  }

  lemma {:induction false} XorTwice(a: nat, b: nat)
    ensures Xor(Xor(a, b), b) == a
  {
    if a != 0 || b != 0 {
      XorTwice(a / 2, b / 2);
      var d := if a % 2 != b % 2 then 1 else 0;
      assert Xor(a, b) == d + 2 * Xor(a / 2, b / 2);
      assert Xor(a, b) % 2 == d && Xor(a, b) / 2 == Xor(a / 2, b / 2);
    }
  }

  lemma {:induction false} XorCommutes(a: nat, b: nat)
    ensures Xor(a, b) == Xor(b, a)
  {
    if a != 0 || b != 0 {
      XorCommutes(a / 2, b / 2);
    }
  }

  lemma EightMore(n: nat)
    ensures Pow2(n + 8) == 256 * Pow2(n)
  {
    assert Pow2(n + 4) == 2 * Pow2(n + 3) == 4 * Pow2(n + 2) == 8 * Pow2(n + 1) == 16 * Pow2(n);
    assert Pow2(n + 8) == 2 * Pow2(n + 7) == 4 * Pow2(n + 6) == 8 * Pow2(n + 5) == 16 * Pow2(n + 4);
  }

  lemma WordIs64Bits()
    ensures Pow2(64) == MODULUS
  {
    assert Pow2(0) == 1;
    EightMore(0);
    EightMore(8);
    EightMore(16);
    EightMore(24);
    EightMore(32);
    EightMore(40);
    EightMore(48);
    EightMore(56);
  }

  function XorWord(x: Word, b: Byte): (r: Word)
    ensures r == Xor(x, b)
  {
    WordIs64Bits();
    XorBound(x, b, 64);
    Xor(x, b)
  }

  function WrappingMul(x: Word, y: Word): Word {
    x * y % MODULUS
  }

  /** One byte: exclusive or, then a multiplication modulo 2^64. */
  function Step(hash: Word, b: Byte): Word {
    WrappingMul(XorWord(hash, b), PRIME)
  }

  function FnvFrom(hash: Word, data: seq<Byte>): Word {
    if data == [] then hash else Step(FnvFrom(hash, data[..|data| - 1]), data[|data| - 1])
  }

  function Fnv(data: seq<Byte>): Word {
    FnvFrom(OFFSET_BASIS, data)
  }

  /** `fnv1a64`. */
  method Fnv1a64(data: seq<Byte>) returns (hash: Word)
    ensures hash == Fnv(data)
  {
    hash := OFFSET_BASIS;
    for i := 0 to |data|
      invariant hash == Fnv(data[..i])
    {
      assert data[..i + 1][..i] == data[..i];
      hash := XorWord(hash, data[i]);
      hash := WrappingMul(hash, PRIME);
    }
    assert data[..|data|] == data;
  }

  // --------------------------------------------------- every step is a bijection

  lemma AddMultiple(x: Word, k: int)
    ensures (x + MODULUS * k) % MODULUS == x
  {}

  lemma UndoneByInverse(x: Word)
    ensures WrappingMul(WrappingMul(x, PRIME), INVERSE) == x
  {
    var q, r := x * PRIME / MODULUS, x * PRIME % MODULUS;
    assert r == x * PRIME - q * MODULUS;
    assert r * INVERSE == x + MODULUS * (887285111055 * x - q * INVERSE);
    AddMultiple(x, 887285111055 * x - q * INVERSE);
  }

  lemma UndoneByPrime(x: Word)
    ensures WrappingMul(WrappingMul(x, INVERSE), PRIME) == x
  {
    var q, r := x * INVERSE / MODULUS, x * INVERSE % MODULUS;
    assert r == x * INVERSE - q * MODULUS;
    assert r * PRIME == x + MODULUS * (887285111055 * x - q * PRIME);
    AddMultiple(x, 887285111055 * x - q * PRIME);
  }

  /** The multiplier is odd, so multiplying by it can be undone modulo 2^64. */
  lemma MultiplicationUndone(x: Word)
    ensures WrappingMul(WrappingMul(x, PRIME), INVERSE) == x
    ensures WrappingMul(WrappingMul(x, INVERSE), PRIME) == x
  {
    assert PRIME * INVERSE == 1 + 887285111055 * MODULUS;
    UndoneByInverse(x);
    UndoneByPrime(x);
  }

  /** The state before a step, from the state after it and the byte. */
  function Unstep(hash: Word, b: Byte): Word {
    XorWord(WrappingMul(hash, INVERSE), b)
  }

  lemma StepBijective(x: Word, b: Byte)
    ensures Unstep(Step(x, b), b) == x
    ensures Step(Unstep(x, b), b) == x
  {
    MultiplicationUndone(XorWord(x, b));
    MultiplicationUndone(x);
    XorTwice(x, b);
    XorTwice(WrappingMul(x, INVERSE), b);
  }

  /** From one state, different bytes lead to different states. */
  lemma StepSeparatesBytes(x: Word, b: Byte, c: Byte)
    requires Step(x, b) == Step(x, c)
    ensures b == c
  {
    MultiplicationUndone(XorWord(x, b));
    MultiplicationUndone(XorWord(x, c));
    XorCommutes(x, b);
    XorCommutes(x, c);
    XorTwice(b, x);
    XorTwice(c, x);
  }

  /** The starting state from which `s` hashes to `target`. */
  function Rewind(target: Word, s: seq<Byte>): Word
    decreases |s|
  {
    if s == [] then target else Rewind(Unstep(target, s[|s| - 1]), s[..|s| - 1])
  }

  /** Hashing `s` is a bijection on the starting states: every word is reached from one. */
  lemma {:induction false} FnvFromBijective(start: Word, target: Word, s: seq<Byte>)
    ensures FnvFrom(start, s) == target <==> start == Rewind(target, s)
    decreases |s|
  {
    if s != [] {
      var init, last := s[..|s| - 1], s[|s| - 1];
      StepBijective(FnvFrom(start, init), last);
      StepBijective(target, last);
      FnvFromBijective(start, Unstep(target, last), init);
    }
  }

  lemma {:induction false} FnvAppend(x: Word, a: seq<Byte>, s: seq<Byte>)
    ensures FnvFrom(x, a + s) == FnvFrom(FnvFrom(x, a), s)
  {
    if s == [] {
      assert a + s == a;
    } else {
      var init := s[..|s| - 1];
      FnvAppend(x, a, init);
      assert (a + s)[..|a + s| - 1] == a + init;
    }
  }

  /** Main result: a common suffix cancels. */
  lemma SuffixCancels(a: seq<Byte>, b: seq<Byte>, s: seq<Byte>)
    ensures Fnv(a + s) == Fnv(b + s) <==> Fnv(a) == Fnv(b)
  {
    FnvAppend(OFFSET_BASIS, a, s);
    FnvAppend(OFFSET_BASIS, b, s);
    if Fnv(a + s) == Fnv(b + s) {
      FnvFromBijective(Fnv(a), Fnv(a + s), s);
      FnvFromBijective(Fnv(b), Fnv(a + s), s);
    }
  }

  lemma LastByteDecides(prefix: seq<Byte>, b: Byte, c: Byte)
    ensures Fnv(prefix + [b]) == Fnv(prefix + [c]) <==> b == c
  {
    assert (prefix + [b])[..|prefix|] == prefix && (prefix + [c])[..|prefix|] == prefix;
    if Step(Fnv(prefix), b) == Step(Fnv(prefix), c) {
      StepSeparatesBytes(Fnv(prefix), b, c);
    }
  }

  /** Strings of one length that agree except perhaps at position `k` collide exactly when
      they are equal. */
  lemma OneByteNeverCollides(a: seq<Byte>, b: seq<Byte>, k: nat)
    requires |a| == |b| && k < |a|
    requires forall i :: 0 <= i < |a| && i != k ==> a[i] == b[i]
    ensures Fnv(a) == Fnv(b) <==> a[k] == b[k]
  {
    var prefix, suffix := a[..k], a[k + 1..];
    assert a == prefix + [a[k]] + suffix;
    assert b == prefix + [b[k]] + suffix;
    SuffixCancels(prefix + [a[k]], prefix + [b[k]], suffix);
    LastByteDecides(prefix, a[k], b[k]);
  }

  lemma {:induction false} XorZero(a: nat)
    ensures Xor(a, 0) == a
  {
    if a != 0 {
      XorZero(a / 2);
    }
  }

  /** The published values for the empty string and for "a". */
  lemma KnownVectors()
    ensures Fnv([]) == 0xcbf29ce484222325
    ensures Fnv([0x61]) == 0xaf63dc4c8601ec8c
  {
    var one: seq<Byte> := [0x61];
    assert one[..0] == [];
    var h: nat := 0xcbf29ce484222325;
    XorZero(h / 128);
    assert Xor(h / 64, 1) == h / 64 + 1;
    assert Xor(h / 16, 6) == 4 * (h / 64) + 4;
    assert Xor(h, 0x61) == 0xcbf29ce484222344;
  }

  /** `route_shard`: the caller must own a shard. */
  method RouteShard<T>(taskId: seq<Byte>, owned: seq<T>) returns (shard: T)
    requires owned != []
    ensures shard in owned && shard == owned[Fnv(taskId) % |owned|]
  {
    var hash := Fnv1a64(taskId);
    shard := owned[hash % |owned|];
  }
}
