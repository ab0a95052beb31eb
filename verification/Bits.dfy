/** Bit strings, most significant bit first, and fixed-width packing of numbers into them. */
module Bits {

  function Pow2(n: nat): (p: nat)
    ensures p > 0
  {
    if n == 0 then 1 else 2 * Pow2(n - 1)
  }

  /** The low `n` bits of `v`. */
  function BitsOf(v: nat, n: nat): (b: seq<bool>)
    ensures |b| == n
  {
    if n == 0 then [] else BitsOf(v / 2, n - 1) + [v % 2 == 1]
  }

  function ValueOf(b: seq<bool>): (v: nat)
    ensures v < Pow2(|b|)
  {
    if b == [] then 0
    else 2 * ValueOf(b[..|b| - 1]) + if b[|b| - 1] then 1 else 0
  }

  lemma {:induction false} ValueOfBits(v: nat, n: nat)
    requires v < Pow2(n)
    ensures ValueOf(BitsOf(v, n)) == v
  {
    if n > 0 {
      ValueOfBits(v / 2, n - 1);
      assert BitsOf(v, n)[..n - 1] == BitsOf(v / 2, n - 1);
    }
  }

  lemma LastBitOf(v: nat, last: bool)
    ensures var w := 2 * v + if last then 1 else 0; w / 2 == v && (w % 2 == 1 <==> last)
  {
  }

  lemma {:induction false} BitsOfValue(b: seq<bool>)
    ensures BitsOf(ValueOf(b), |b|) == b
  {
    if b != [] {
      var front, last := b[..|b| - 1], b[|b| - 1];
      BitsOfValue(front);
      LastBitOf(ValueOf(front), last);
      assert b == front + [last];
    }
  }

  /** Each number in `k` bits. */
  function Pack(xs: seq<nat>, k: nat): (b: seq<bool>)
    ensures |b| == k * |xs|
  {
    if xs == [] then [] else BitsOf(xs[0], k) + Pack(xs[1..], k)
  }

  /** `n` numbers of `k` bits each. */
  function Unpack(b: seq<bool>, k: nat, n: nat): (xs: seq<nat>)
    requires |b| == k * n
    ensures |xs| == n && forall i :: 0 <= i < n ==> xs[i] < Pow2(k)
    decreases n
  {
    if n == 0 then []
    else
      Step(k, n);
      [ValueOf(b[..k])] + Unpack(b[k..], k, n - 1)
  }

  lemma Step(k: nat, n: nat)
    requires n > 0
    ensures k * n == k + k * (n - 1)
  {
  }

  lemma UnpackCons(b: seq<bool>, rest: seq<bool>, k: nat, n: nat)
    requires |b| == k && |rest| == k * n
    ensures |b + rest| == k * (n + 1)
    ensures Unpack(b + rest, k, n + 1) == [ValueOf(b)] + Unpack(rest, k, n)
  {
    assert (b + rest)[..k] == b && (b + rest)[k..] == rest;
  }

  lemma {:induction false} UnpackPack(xs: seq<nat>, k: nat)
    requires forall i :: 0 <= i < |xs| ==> xs[i] < Pow2(k)
    ensures Unpack(Pack(xs, k), k, |xs|) == xs
  {
    if xs != [] {
      ValueOfBits(xs[0], k);
      UnpackPack(xs[1..], k);
      UnpackCons(BitsOf(xs[0], k), Pack(xs[1..], k), k, |xs| - 1);
    }
  }

  lemma {:induction false} PackUnpack(b: seq<bool>, k: nat, n: nat)
    requires |b| == k * n
    ensures Pack(Unpack(b, k, n), k) == b
    decreases n
  {
    if n > 0 {
      Step(k, n);
      BitsOfValue(b[..k]);
      PackUnpack(b[k..], k, n - 1);
      assert Unpack(b, k, n)[1..] == Unpack(b[k..], k, n - 1);
      assert b == b[..k] + b[k..];
    }
  }

  lemma {:induction false} PackConcat(xs: seq<nat>, ys: seq<nat>, k: nat)
    ensures Pack(xs + ys, k) == Pack(xs, k) + Pack(ys, k)
  {
    if xs == [] {
      assert xs + ys == ys;
    } else {
      assert (xs + ys)[1..] == xs[1..] + ys;
      PackConcat(xs[1..], ys, k);
    }
  }

  lemma PackNext(xs: seq<nat>, i: nat, k: nat)
    requires i < |xs|
    ensures Pack(xs[..i + 1], k) == Pack(xs[..i], k) + BitsOf(xs[i], k)
  {
    assert xs[..i + 1] == xs[..i] + [xs[i]];
    PackConcat(xs[..i], [xs[i]], k);
    assert Pack([xs[i]], k) == BitsOf(xs[i], k) + Pack([], k);
  }

  /** The bits of one number of the pack. */
  lemma {:induction false} PackAt(xs: seq<nat>, k: nat, i: nat)
    requires i < |xs|
    ensures 0 <= k * i <= k * i + k <= k * |xs|
    ensures Pack(xs, k)[k * i..k * i + k] == BitsOf(xs[i], k)
  {
    PackConcat(xs[..i], xs[i..], k);
    assert xs == xs[..i] + xs[i..];
    Step(k, |xs| - i);
    assert k * |xs| == k * i + k * (|xs| - i) by { Distribute(k, i, |xs| - i); }
  }

  lemma Distribute(k: nat, a: nat, b: nat)
    ensures k * (a + b) == k * a + k * b
  {
  }

  lemma UnpackAt(b: seq<bool>, k: nat, n: nat, i: nat)
    requires |b| == k * n && i < n
    ensures 0 <= k * i <= k * i + k <= |b|
    ensures Unpack(b, k, n)[i] == ValueOf(b[k * i..k * i + k])
  {
    PackUnpack(b, k, n);
    PackAt(Unpack(b, k, n), k, i);
    ValueOfBits(Unpack(b, k, n)[i], k);
  }

  /** One bit of the pack. */
  lemma PackBit(xs: seq<nat>, k: nat, p: nat)
    requires 0 < k && p < k * |xs|
    ensures p / k < |xs| && Pack(xs, k)[p] == BitsOf(xs[p / k], k)[p % k]
  {
    var i := p / k;
    assert p == k * i + p % k;
    if i >= |xs| { Distribute(k, |xs|, i - |xs|); }
    PackAt(xs, k, i);
    assert Pack(xs, k)[p] == Pack(xs, k)[k * i..k * i + k][p % k];
  }

  lemma {:induction false} BitAt(v: nat, n: nat, i: nat)
    requires i < n
    ensures BitsOf(v, n)[i] <==> v / Pow2(n - 1 - i) % 2 == 1
    decreases n
  {
    if i < n - 1 {
      BitAt(v / 2, n - 1, i);
      HalfThenDivide(v, Pow2(n - 2 - i));
    }
  }

  lemma HalfThenDivide(v: nat, d: nat)
    requires d > 0
    ensures v / 2 / d == v / (2 * d)
  {
    var q := v / (2 * d);
    assert v == (2 * d) * q + v % (2 * d);
    assert (2 * d) * q == 2 * (d * q);
    var r := v / 2 - d * q;
    assert 0 <= r < d;
    Quotient(v / 2, d, q, r);
  }

  lemma Quotient(x: nat, d: nat, q: nat, r: nat)
    requires x == d * q + r && r < d
    ensures x / d == q
  {
    var p := x / d;
    assert x == d * p + x % d;
    if p < q { Product(d, p + 1, q); } else if q < p { Product(d, q + 1, p); }
  }

  lemma Product(d: nat, a: nat, b: nat)
    requires a <= b
    ensures d * a <= d * b
  {
    Distribute(d, a, b - a);
  }
}
