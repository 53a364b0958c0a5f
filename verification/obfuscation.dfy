/** The keyed permutation that hides raw account ids: a four-round Feistel network over
    94-bit blocks, cycle-walked down to the 93-bit packed domain. */
module Obfuscation {
  import opened Domain
  import CycleWalk

  const HALF: int := 0x8000_0000_0000                            // 2^47
  const BLOCK: int := 0x4000_0000_0000_0000_0000_0000             // 2^94
  const PACKED: int := 0x2000_0000_0000_0000_0000_0000            // 2^93

  // ---- Exclusive or on naturals ----

  function Xor(a: nat, b: nat): nat
    decreases a + b
  {
    if a == 0 && b == 0 then 0
    else (if a % 2 == b % 2 then 0 else 1) + 2 * Xor(a / 2, b / 2)
  }

  lemma {:induction false} XorBack(a: nat, b: nat)
    ensures Xor(Xor(a, b), b) == a
    decreases a + b
  {
    if a > 0 || b > 0 {
      XorBack(a / 2, b / 2);
      assert Xor(a, b) / 2 == Xor(a / 2, b / 2);
    }
  }

  function Pow2(k: nat): (r: nat)
    ensures r >= 1
  {
    if k == 0 then 1 else 2 * Pow2(k - 1)
  }

  lemma {:induction false} XorBelow(a: nat, b: nat, k: nat)
    requires a < Pow2(k) && b < Pow2(k)
    ensures Xor(a, b) < Pow2(k)
    decreases k
  {
    if k > 0 && (a > 0 || b > 0) {
      XorBelow(a / 2, b / 2, k - 1);
    }
  }

  lemma Times256(k: nat)
    ensures Pow2(k + 8) == 0x100 * Pow2(k)
  {
    assert Pow2(k + 2) == 4 * Pow2(k);
    assert Pow2(k + 4) == 4 * Pow2(k + 2);
    assert Pow2(k + 6) == 4 * Pow2(k + 4);
    assert Pow2(k + 8) == 4 * Pow2(k + 6);
  }

  lemma HalfIsPow2()
    ensures Pow2(47) == HALF
  {
    assert Pow2(7) == 0x80;
    Times256(7);
    Times256(15);
    Times256(23);
    Times256(31);
    Times256(39);
  }

  lemma WordIsPow2()
    ensures Pow2(64) == TWO64
  {
    assert Pow2(0) == 1;
    Times256(0);
    Times256(8);
    Times256(16);
    Times256(24);
    Times256(32);
    Times256(40);
    Times256(48);
    Times256(56);
  }

  // ---- The round function ----

  function Xor64(a: u64, b: u64): u64 {
    WordIsPow2();
    XorBelow(a, b, 64);
    Xor(a, b)
  }

  /** Wrapping multiplication of 64-bit words. */
  function Mul64(a: u64, b: u64): u64 { a * b % 0x1_0000_0000_0000_0000 }

  /** SplitMix64's finalizer. */
  function Mix64(z: u64): u64 {
    var a := Mul64(Xor64(z, z / 0x4000_0000), 0xBF58_476D_1CE4_E5B9);
    var b := Mul64(Xor64(a, a / 0x800_0000), 0x94D0_49BB_1331_11EB);
    Xor64(b, b / 0x8000_0000)
  }

  function RoundKey(seed: u64, round: u64): u64 {
    Mix64(Xor64(seed, Mul64(round, 0x9E37_79B9_7F4A_7C15)))
  }

  /** A round function: the round's number and one half give the mask for the other. */
  type RoundFunction = (nat, nat) -> nat

  function Keyed(seed: u64): RoundFunction {
    (round, half) =>
      Mix64(Xor64(half % 0x1_0000_0000_0000_0000, RoundKey(seed, round % 0x1_0000_0000_0000_0000)))
  }

  // ---- The network, for any round function ----

  datatype Halves = Halves(l: nat, r: nat)

  predicate Narrow(h: Halves) { h.l < HALF && h.r < HALF }

  function Split(block: nat): (h: Halves)
    ensures Narrow(h)
  {
    Halves(block / HALF % HALF, block % HALF)
  }

  function Join(h: Halves): nat { h.l * HALF + h.r }

  function Round(rf: RoundFunction, i: nat, h: Halves): Halves {
    Halves(h.r, Xor(h.l, rf(i, h.r) % HALF) % HALF)
  }

  function Unround(rf: RoundFunction, i: nat, h: Halves): Halves {
    Halves(Xor(h.r, rf(i, h.l) % HALF) % HALF, h.l)
  }

  /** Rounds 0 .. n-1 in order. */
  function Rounds(rf: RoundFunction, n: nat, h: Halves): Halves {
    if n == 0 then h else Round(rf, n - 1, Rounds(rf, n - 1, h))
  }

  /** Rounds n-1 .. 0 undone. */
  function Unrounds(rf: RoundFunction, n: nat, h: Halves): Halves {
    if n == 0 then h else Unrounds(rf, n - 1, Unround(rf, n - 1, h))
  }

  function Encrypt(rf: RoundFunction, block: nat): nat { Join(Rounds(rf, 4, Split(block))) }

  function Decrypt(rf: RoundFunction, block: nat): nat { Join(Unrounds(rf, 4, Split(block))) }

  function Forward(rf: RoundFunction): nat -> nat { x => Encrypt(rf, x) }

  function Backward(rf: RoundFunction): nat -> nat { x => Decrypt(rf, x) }

  /** Masking an already narrow half with a narrow value loses nothing. */
  lemma MaskNarrow(a: nat, b: nat)
    requires a < HALF && b < HALF
    ensures Xor(a, b) % HALF == Xor(a, b)
    ensures Xor(Xor(a, b) % HALF, b) % HALF == a
  {
    HalfIsPow2();
    XorBelow(a, b, 47);
    XorBack(a, b);
  }

  lemma RoundInverse(rf: RoundFunction, i: nat, h: Halves)
    requires Narrow(h)
    ensures Narrow(Round(rf, i, h)) && Unround(rf, i, Round(rf, i, h)) == h
    ensures Narrow(Unround(rf, i, h)) && Round(rf, i, Unround(rf, i, h)) == h
  {
    MaskNarrow(h.l, rf(i, h.r) % HALF);
    MaskNarrow(h.r, rf(i, h.l) % HALF);
  }

  lemma {:induction false} RoundsInverse(rf: RoundFunction, n: nat, h: Halves)
    requires Narrow(h)
    ensures Narrow(Rounds(rf, n, h)) && Unrounds(rf, n, Rounds(rf, n, h)) == h
    ensures Narrow(Unrounds(rf, n, h)) && Rounds(rf, n, Unrounds(rf, n, h)) == h
  {
    hide Round, Unround, Narrow;
    if n > 0 {
      RoundsInverse(rf, n - 1, h);
      RoundInverse(rf, n - 1, Rounds(rf, n - 1, h));
      RoundInverse(rf, n - 1, h);
      RoundsInverse(rf, n - 1, Unround(rf, n - 1, h));
    }
  }

  lemma SplitJoin(h: Halves)
    requires Narrow(h)
    ensures Join(h) < BLOCK && Split(Join(h)) == h
  {
  }

  lemma JoinSplit(block: nat)
    requires block < BLOCK
    ensures Join(Split(block)) == block
  {
  }

  /** Any round function whatever makes the network a permutation of the 94-bit blocks,
      with `Decrypt` its inverse. */
  lemma NetworkInverse(rf: RoundFunction)
    ensures CycleWalk.Inverse(Forward(rf), Backward(rf), BLOCK)
  {
    forall x: nat | x < BLOCK
      ensures Encrypt(rf, x) < BLOCK && Decrypt(rf, Encrypt(rf, x)) == x
      ensures Decrypt(rf, x) < BLOCK && Encrypt(rf, Decrypt(rf, x)) == x
    {
      RoundsInverse(rf, 4, Split(x));
      SplitJoin(Rounds(rf, 4, Split(x)));
      SplitJoin(Unrounds(rf, 4, Split(x)));
      JoinSplit(x);
    }
  }

  // ---- The format-preserving permutation ----

  ghost function Obfuscated(rf: RoundFunction, p: nat): (q: nat)
    requires p < PACKED
    ensures q < PACKED
  {
    NetworkInverse(rf);
    CycleWalk.Walked(Forward(rf), Backward(rf), BLOCK, PACKED, p)
  }

  ghost function Deobfuscated(rf: RoundFunction, q: nat): (p: nat)
    requires q < PACKED
    ensures p < PACKED
  {
    NetworkInverse(rf);
    CycleWalk.Walked(Backward(rf), Forward(rf), BLOCK, PACKED, q)
  }

  /** Inverse on the packable values, for any round function: in particular both are
      one-to-one and onto. */
  lemma ObfuscationIsBijective(rf: RoundFunction, p: nat)
    requires p < PACKED
    ensures Deobfuscated(rf, Obfuscated(rf, p)) == p
    ensures Obfuscated(rf, Deobfuscated(rf, p)) == p
  {
    NetworkInverse(rf);
    CycleWalk.WalkedInverse(Forward(rf), Backward(rf), BLOCK, PACKED, p);
  }

  // ---- The code's own loops ----

  method Feistel94(block: nat, seed: u64) returns (r: nat)
    ensures r == Encrypt(Keyed(seed), block)
  {
    var rf := Keyed(seed);
    var h := Split(block);
    var left: nat, right: nat := h.l, h.r;
    for round := 0 to 4
      invariant Halves(left, right) == Rounds(rf, round, Split(block))
    {
      var f := rf(round, right) % HALF;
      var next := Xor(left, f) % HALF;
      left := right;
      right := next;
    }
    r := left * HALF + right;
  }

  method Feistel94Inv(block: nat, seed: u64) returns (r: nat)
    ensures r == Decrypt(Keyed(seed), block)
  {
    var rf := Keyed(seed);
    var h := Split(block);
    var left: nat, right: nat := h.l, h.r;
    for round := 4 downto 0
      invariant Unrounds(rf, round, Halves(left, right)) == Unrounds(rf, 4, Split(block))
    {
      var f := rf(round, left) % HALF;
      var prev := Xor(right, f) % HALF;
      right := left;
      left := prev;
    }
    r := left * HALF + right;
  }

  /** Terminates on every packed value under every seed. */
  method Obfuscate(p: nat, seed: u64) returns (q: nat)
    requires p < PACKED
    ensures q == Obfuscated(Keyed(seed), p)
  {
    hide Encrypt, Decrypt, Keyed, CycleWalk.Inverse;
    ghost var f := Forward(Keyed(seed));
    ghost var g := Backward(Keyed(seed));
    NetworkInverse(Keyed(seed));
    ghost var k, landing := CycleWalk.WalkEnds(f, g, BLOCK, PACKED, p);
    CycleWalk.WalkedIs(f, g, BLOCK, PACKED, p, k, landing);
    ghost var steps: nat := 1;
    q := Feistel94(p, seed);
    assert CycleWalk.Iterate(f, 0, p) == p;
    while q >= PACKED
      invariant 1 <= steps <= k && q == CycleWalk.Iterate(f, steps, p)
      decreases k - steps
    {
      q := Feistel94(q, seed);
      steps := steps + 1;
    }
  }

  method Deobfuscate(q: nat, seed: u64) returns (p: nat)
    requires q < PACKED
    ensures p == Deobfuscated(Keyed(seed), q)
  {
    hide Encrypt, Decrypt, Keyed, CycleWalk.Inverse;
    ghost var f := Forward(Keyed(seed));
    ghost var g := Backward(Keyed(seed));
    NetworkInverse(Keyed(seed));
    ghost var k, landing := CycleWalk.WalkEnds(g, f, BLOCK, PACKED, q);
    CycleWalk.WalkedIs(g, f, BLOCK, PACKED, q, k, landing);
    ghost var steps: nat := 1;
    p := Feistel94Inv(q, seed);
    assert CycleWalk.Iterate(g, 0, q) == q;
    while p >= PACKED
      invariant 1 <= steps <= k && p == CycleWalk.Iterate(g, steps, q)
      decreases k - steps
    {
      p := Feistel94Inv(p, seed);
      steps := steps + 1;
    }
  }
}
