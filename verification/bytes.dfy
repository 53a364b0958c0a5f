/** Big-endian integers and length-prefixed lists: the alphabet of the canonical
    encoding, with the decoder that undoes each piece. */
module Bytes {
  import opened Domain

  function Pow256(n: nat): (p: nat)
    ensures p > 0
  {
    if n == 0 then 1 else 256 * Pow256(n - 1)
  }

  /** `v` as `n` big-endian bytes (the low `n` bytes when it does not fit). */
  function Be(n: nat, v: nat): (b: seq<u8>)
    ensures |b| == n
  {
    if n == 0 then [] else Be(n - 1, v / 256) + [v % 256]
  }

  function FromBe(b: seq<u8>): nat {
    if b == [] then 0 else 256 * FromBe(b[..|b| - 1]) + b[|b| - 1]
  }

  lemma {:induction false} FromBeBe(n: nat, v: nat)
    requires v < Pow256(n)
    ensures FromBe(Be(n, v)) == v
  {
    if n > 0 {
      assert v / 256 < Pow256(n - 1);
      FromBeBe(n - 1, v / 256);
      assert Be(n, v)[..n - 1] == Be(n - 1, v / 256);
    }
  }

  lemma {:induction false} BeFromBe(b: seq<u8>)
    ensures FromBe(b) < Pow256(|b|)
    ensures Be(|b|, FromBe(b)) == b
  {
    if b != [] {
      var front, last := b[..|b| - 1], b[|b| - 1];
      BeFromBe(front);
      assert (256 * FromBe(front) + last) / 256 == FromBe(front);
      assert (256 * FromBe(front) + last) % 256 == last;
      assert b == front + [last];
    }
  }

  /** Two's complement of `v` in `n` bytes. */
  function BeSigned(n: nat, v: int): (b: seq<u8>)
    ensures |b| == n
  {
    Be(n, v % Pow256(n))
  }

  function FromBeSigned(b: seq<u8>): int {
    var u := FromBe(b);
    if 2 * u < Pow256(|b|) then u else u - Pow256(|b|)
  }

  predicate FitsSigned(n: nat, v: int) { 0 <= 2 * v + Pow256(n) && 2 * v < Pow256(n) }

  lemma SignedRoundTrip(n: nat, v: int)
    requires FitsSigned(n, v)
    ensures FromBeSigned(BeSigned(n, v)) == v
  {
    var p := Pow256(n);
    assert v % p == if v >= 0 then v else v + p by { ModSigned(v, p); }
    FromBeBe(n, v % p);
  }

  lemma ModSigned(v: int, p: int)
    requires p > 0 && -p <= v < p
    ensures v % p == if v >= 0 then v else v + p
  {
    if v >= 0 {
      assert v / p == 0;
    } else {
      assert v == p * (-1) + (v + p);
    }
  }

  lemma SignedSurjective(b: seq<u8>)
    ensures FitsSigned(|b|, FromBeSigned(b))
    ensures BeSigned(|b|, FromBeSigned(b)) == b
  {
    BeFromBe(b);
    ModSigned(FromBeSigned(b), Pow256(|b|));
  }

  lemma Pow256Values()
    ensures Pow256(2) == TWO16 && Pow256(4) == TWO32 && Pow256(8) == TWO64
    ensures Pow256(16) == TWO64 * TWO64
  {
    assert Pow256(4) == 256 * 256 * Pow256(2);
    assert Pow256(8) == 256 * 256 * 256 * 256 * Pow256(4);
    assert Pow256(12) == 256 * 256 * 256 * 256 * Pow256(8);
    assert Pow256(16) == 256 * 256 * 256 * 256 * Pow256(12);
  }

  // ----- decoding -----

  datatype Parsed<+T> = Malformed | Got(value: T, rest: seq<u8>) {
    predicate IsFailure() { Malformed? }
    function PropagateFailure<U>(): Parsed<U>
      requires Malformed?
    {
      Malformed
    }
    function Extract(): (T, seq<u8>)
      requires Got?
    {
      (value, rest)
    }
  }

  function Take(n: nat, b: seq<u8>): Parsed<seq<u8>> {
    if |b| < n then Malformed else Got(b[..n], b[n..])
  }

  function TakeUint(n: nat, b: seq<u8>): Parsed<nat> {
    if |b| < n then Malformed else Got(FromBe(b[..n]), b[n..])
  }

  function TakeInt(n: nat, b: seq<u8>): Parsed<int> {
    if |b| < n then Malformed else Got(FromBeSigned(b[..n]), b[n..])
  }

  lemma TakeAppend(b: seq<u8>, rest: seq<u8>)
    ensures Take(|b|, b + rest) == Got(b, rest)
  {
    assert (b + rest)[..|b|] == b && (b + rest)[|b|..] == rest;
  }

  lemma TakeUintAppend(n: nat, v: nat, rest: seq<u8>)
    requires v < Pow256(n)
    ensures TakeUint(n, Be(n, v) + rest) == Got(v, rest)
  {
    var b := Be(n, v);
    FromBeBe(n, v);
    assert (b + rest)[..n] == b && (b + rest)[n..] == rest;
  }

  lemma TakeIntAppend(n: nat, v: int, rest: seq<u8>)
    requires FitsSigned(n, v)
    ensures TakeInt(n, BeSigned(n, v) + rest) == Got(v, rest)
  {
    var b := BeSigned(n, v);
    SignedRoundTrip(n, v);
    assert (b + rest)[..n] == b && (b + rest)[n..] == rest;
  }

  function EncodeItems<T>(xs: seq<T>, enc: T -> seq<u8>): seq<u8> {
    if xs == [] then [] else EncodeItems(xs[..|xs| - 1], enc) + enc(xs[|xs| - 1])
  }

  lemma {:induction false} EncodeItemsFront<T>(xs: seq<T>, enc: T -> seq<u8>)
    requires xs != []
    ensures EncodeItems(xs, enc) == enc(xs[0]) + EncodeItems(xs[1..], enc)
  {
    var n := |xs| - 1;
    if n > 0 {
      EncodeItemsFront(xs[..n], enc);
      assert xs[..n][1..] == xs[1..][..n - 1];
      assert xs[1..][n - 1] == xs[n];
    }
  }

  function DecodeItems<T>(n: nat, b: seq<u8>, dec: seq<u8> -> Parsed<T>): Parsed<seq<T>> {
    if n == 0 then Got([], b)
    else
      var (x, b1) :- dec(b);
      var (xs, b2) :- DecodeItems(n - 1, b1, dec);
      Got([x] + xs, b2)
  }

  /** `dec` undoes `enc` on every well-formed item, whatever follows it. */
  ghost predicate Undoes<T(!new)>(enc: T -> seq<u8>, dec: seq<u8> -> Parsed<T>, ok: T -> bool) {
    forall x: T, rest: seq<u8> {:trigger enc(x) + rest} :: ok(x) ==> dec(enc(x) + rest) == Got(x, rest)
  }

  lemma {:induction false} DecodeItemsAppend<T(!new)>(
    xs: seq<T>, rest: seq<u8>, enc: T -> seq<u8>, dec: seq<u8> -> Parsed<T>, ok: T -> bool)
    requires Undoes(enc, dec, ok)
    requires forall i :: 0 <= i < |xs| ==> ok(xs[i])
    ensures DecodeItems(|xs|, EncodeItems(xs, enc) + rest, dec) == Got(xs, rest)
  {
    if xs == [] {
      assert EncodeItems(xs, enc) + rest == rest;
    } else {
      EncodeItemsFront(xs, enc);
      var tail := EncodeItems(xs[1..], enc) + rest;
      assert EncodeItems(xs, enc) + rest == enc(xs[0]) + tail;
      DecodeItemsAppend(xs[1..], rest, enc, dec, ok);
      assert dec(enc(xs[0]) + tail) == Got(xs[0], tail);
      assert xs == [xs[0]] + xs[1..];
    }
  }

  /** Most significant byte first. */
  lemma {:induction false} BeByte(n: nat, v: nat, k: nat)
    requires k < n
    ensures Be(n, v)[k] == (v / Pow256(n - 1 - k)) % 256
  {
    if k < n - 1 {
      BeByte(n - 1, v / 256, k);
      DivDiv(v, Pow256(n - 2 - k));
    }
  }

  lemma DivDiv(v: nat, p: nat)
    requires p > 0
    ensures v / 256 / p == v / (256 * p)
  {
    var q, r := v / 256 / p, v / 256 % p;
    assert v / 256 == q * p + r;
    var low := v - 256 * (v / 256);
    assert v == q * (256 * p) + (256 * r + low) by {
      assert v == 256 * (q * p + r) + low;
    }
    Quotient(v, 256 * p, q, 256 * r + low);
  }

  lemma Quotient(v: nat, d: nat, q: nat, r: nat)
    requires d > 0 && v == q * d + r && r < d
    ensures v / d == q
  {
    var q' := v / d;
    if q' < q {
      TimesGrows(q' + 1, q, d);
    } else if q' > q {
      TimesGrows(q + 1, q', d);
    }
  }

  lemma TimesGrows(a: nat, b: nat, d: nat)
    requires a <= b
    ensures a * d <= b * d
  {
  }
}
