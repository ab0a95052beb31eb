/**
  CRC32C, the Castagnoli checksum of section 12.1 of RFC 3720, in its reflected
  form: bytes enter at the low end of the register and bits leave to the right.
*/
module Crc32c {
  import opened Bits
  import opened Folds

  type byte = x: nat | x < 256

  const POLY: bv32 := 0x82F63B78

  /** One bit leaves the register. */
  function Shift1(x: bv32): bv32
  {
    if x & 1 == 1 then (x >> 1) ^ POLY else x >> 1
  }

  function Shift(x: bv32, n: nat): bv32
    decreases n
  {
    if n == 0 then x else Shift(Shift1(x), n - 1)
  }

  const BYTE_BITS: nat := 8

  /** Eight bits as the low byte of a word. */
  function Vec8(b: seq<bool>): bv32
    requires |b| == 8
  {
    (if b[0] then 0x80 else 0) | (if b[1] then 0x40 else 0) | (if b[2] then 0x20 else 0)
    | (if b[3] then 0x10 else 0) | (if b[4] then 0x08 else 0) | (if b[5] then 0x04 else 0)
    | (if b[6] then 0x02 else 0) | (if b[7] then 0x01 else 0)
  }

  /** The low byte of a word as eight bits. */
  function Bits8(v: bv32): (b: seq<bool>)
    ensures |b| == 8
  {
    [v & 0x80 != 0, v & 0x40 != 0, v & 0x20 != 0, v & 0x10 != 0,
     v & 0x08 != 0, v & 0x04 != 0, v & 0x02 != 0, v & 0x01 != 0]
  }

  lemma VecOfBits(b: seq<bool>)
    requires |b| == 8
    ensures Bits8(Vec8(b)) == b && Vec8(b) & 0xFFFF_FF00 == 0
  {
  }

  lemma BitsOfVec(v: bv32)
    ensures Vec8(Bits8(v)) == v & 0xFF
  {
  }

  /** A byte as a word, and the low byte of a word as a number. */
  function Vec(b: byte): bv32 { Vec8(BitsOf(b, 8)) }

  function Low(v: bv32): byte
  {
    assert Pow2(8) == 256;
    ValueOf(Bits8(v))
  }

  /** The register takes in one byte, given as the low byte of a word. */
  function Update(s: bv32, w: bv32): bv32 { Shift(s ^ w, BYTE_BITS) }

  function Register(s: bv32, ws: seq<bv32>): bv32 { Fold(Update, s, ws) }

  function Words(data: seq<byte>): (ws: seq<bv32>)
    ensures |ws| == |data| && forall i :: 0 <= i < |ws| ==> ws[i] == Vec(data[i])
  {
    if data == [] then [] else [Vec(data[0])] + Words(data[1..])
  }

  function Checksum(data: seq<byte>): bv32 { Register(0xFFFF_FFFF, Words(data)) ^ 0xFFFF_FFFF }

  // ----- Linearity and injectivity ----------------------------------------

  lemma Shift1Injective(x: bv32, y: bv32)
    requires Shift1(x) == Shift1(y)
    ensures x == y
  {
  }

  lemma {:induction false} ShiftInjective(x: bv32, y: bv32, n: nat)
    requires Shift(x, n) == Shift(y, n)
    ensures x == y
    decreases n
  {
    if n > 0 {
      ShiftInjective(Shift1(x), Shift1(y), n - 1);
      Shift1Injective(x, y);
    }
  }

  lemma OddOdd(x: bv32, y: bv32)
    requires x & 1 == 1 && y & 1 == 1
    ensures Shift1(x ^ y) == Shift1(x) ^ Shift1(y)
  {
  }

  lemma OddEven(x: bv32, y: bv32)
    requires x & 1 == 1 && y & 1 == 0
    ensures Shift1(x ^ y) == Shift1(x) ^ Shift1(y)
  {
  }

  lemma EvenEven(x: bv32, y: bv32)
    requires x & 1 == 0 && y & 1 == 0
    ensures Shift1(x ^ y) == Shift1(x) ^ Shift1(y)
  {
  }

  lemma Parity(x: bv32)
    ensures x & 1 == 0 || x & 1 == 1
  {
  }

  lemma Swap(x: bv32, y: bv32)
    ensures x ^ y == y ^ x
  {
  }

  lemma Shift1Linear(x: bv32, y: bv32)
    ensures Shift1(x ^ y) == Shift1(x) ^ Shift1(y)
  {
    Parity(x);
    Parity(y);
    if x & 1 == 1 && y & 1 == 1 {
      OddOdd(x, y);
    } else if x & 1 == 1 {
      OddEven(x, y);
    } else if y & 1 == 1 {
      OddEven(y, x);
      Swap(x, y);
      Swap(Shift1(x), Shift1(y));
    } else {
      EvenEven(x, y);
    }
  }

  ghost predicate Sum(z: bv32, x: bv32, y: bv32) { z == x ^ y }

  lemma Shift1Sum(x: bv32, y: bv32, z: bv32)
    requires Sum(z, x, y)
    ensures Sum(Shift1(z), Shift1(x), Shift1(y))
  {
    Shift1Linear(x, y);
  }

  lemma ShiftSumStep(x: bv32, y: bv32, z: bv32, n: nat)
    requires n > 0
    requires Sum(Shift(Shift1(z), n - 1), Shift(Shift1(x), n - 1), Shift(Shift1(y), n - 1))
    ensures Sum(Shift(z, n), Shift(x, n), Shift(y, n))
  {
  }

  /** Shifting is linear over exclusive or. */
  lemma {:induction false} ShiftSum(x: bv32, y: bv32, z: bv32, n: nat)
    requires Sum(z, x, y)
    ensures Sum(Shift(z, n), Shift(x, n), Shift(y, n))
    decreases n
  {
    if n > 0 {
      Shift1Sum(x, y, z);
      ShiftSum(Shift1(x), Shift1(y), Shift1(z), n - 1);
      ShiftSumStep(x, y, z, n);
    }
  }

  lemma Plain1(v: bv32)
    requires v & 0x8000_0000 == 0
    ensures Shift1(v << 1) == v
  {
  }

  lemma {:induction false} ShiftLast(x: bv32, n: nat)
    ensures Shift(x, n + 1) == Shift1(Shift(x, n))
    decreases n
  {
    if n > 0 { ShiftLast(Shift1(x), n - 1); }
  }

  function Up(v: bv32, n: nat): bv32
    decreases n
  {
    if n == 0 then v else Up(v << 1, n - 1)
  }

  predicate Fits(v: bv32, n: nat)
    decreases n
  {
    n == 0 || (v & 0x8000_0000 == 0 && Fits(v << 1, n - 1))
  }

  /** What was moved up `n` places falls back through `n` shifts unchanged. */
  lemma {:induction false} ShiftUp(v: bv32, n: nat)
    requires Fits(v, n)
    ensures Shift(Up(v, n), n) == v
    decreases n
  {
    if n > 0 {
      ShiftUp(v << 1, n - 1);
      ShiftLast(Up(v, n), n - 1);
      Plain1(v);
    }
  }

  lemma Doublings(v: bv32)
    requires v & 0xFF00_0000 == 0
    ensures (((((((v << 1) << 1) << 1) << 1) << 1) << 1) << 1) << 1 == v << 8
    ensures v & 0x8000_0000 == 0 && (v << 1) & 0x8000_0000 == 0 && (v << 2) & 0x8000_0000 == 0
    ensures (v << 3) & 0x8000_0000 == 0 && (v << 4) & 0x8000_0000 == 0 && (v << 5) & 0x8000_0000 == 0
    ensures (v << 6) & 0x8000_0000 == 0 && (v << 7) & 0x8000_0000 == 0
    ensures (v << 1) << 1 == v << 2 && (v << 2) << 1 == v << 3 && (v << 3) << 1 == v << 4
    ensures (v << 4) << 1 == v << 5 && (v << 5) << 1 == v << 6 && (v << 6) << 1 == v << 7
    ensures (v << 7) << 1 == v << 8
  {
  }

  lemma ByteUp(v: bv32)
    requires v & 0xFF00_0000 == 0
    ensures Fits(v, BYTE_BITS) && Up(v, BYTE_BITS) == v << 8
  {
    Doublings(v);
    assert Fits(v << 8, 0) && Up(v << 8, 0) == v << 8;
    assert Fits(v << 7, 1) && Up(v << 7, 1) == v << 8;
    assert Fits(v << 6, 2) && Up(v << 6, 2) == v << 8;
    assert Fits(v << 5, 3) && Up(v << 5, 3) == v << 8;
    assert Fits(v << 4, 4) && Up(v << 4, 4) == v << 8;
    assert Fits(v << 3, 5) && Up(v << 3, 5) == v << 8;
    assert Fits(v << 2, 6) && Up(v << 2, 6) == v << 8;
    assert Fits(v << 1, 7) && Up(v << 1, 7) == v << 8;
  }

  /** What enters after eight shifts could have entered, eight places up, before them. */
  lemma Absorb(x: bv32, v: bv32, y: bv32)
    requires v & 0xFF00_0000 == 0 && Sum(y, x, v << 8)
    ensures Sum(Shift(y, BYTE_BITS), Shift(x, BYTE_BITS), v)
  {
    ByteUp(v);
    ShiftUp(v, BYTE_BITS);
    ShiftSum(x, v << 8, y, BYTE_BITS);
  }

  // ----- Windows of four bytes --------------------------------------------

  lemma VecIsByte(b: byte)
    ensures Vec(b) & 0xFFFF_FF00 == 0 && Low(Vec(b)) == b
  {
    VecOfBits(BitsOf(b, 8));
    assert Pow2(8) == 256;
    ValueOfBits(b, 8);
  }

  predicate IsByte(w: bv32) { w & 0xFFFF_FF00 == 0 }

  /** Four bytes, the first one lowest. */
  function Word(a: bv32, b: bv32, c: bv32, d: bv32): bv32
  {
    a ^ (b << 8) ^ (c << 16) ^ (d << 24)
  }

  function Two(x: bv32): bv32 { Shift(Shift(x, BYTE_BITS), BYTE_BITS) }

  function Three(x: bv32): bv32 { Shift(Two(x), BYTE_BITS) }

  function Four(x: bv32): bv32 { Shift(Three(x), BYTE_BITS) }

  /** A word of at most 16 bits may enter two bytes early, one of at most 8 bits three. */
  lemma AbsorbTwice(x: bv32, v: bv32, y: bv32)
    requires v & 0xFFFF_0000 == 0 && Sum(y, x, v << 16)
    ensures Sum(Two(y), Two(x), v)
  {
    assert v << 16 == (v << 8) << 8;
    Absorb(x, v << 8, y);
    Absorb(Shift(x, BYTE_BITS), v, Shift(y, BYTE_BITS));
  }

  lemma AbsorbThrice(x: bv32, v: bv32, y: bv32)
    requires IsByte(v) && Sum(y, x, v << 24)
    ensures Sum(Three(y), Three(x), v)
  {
    assert v << 24 == (v << 16) << 8;
    Absorb(x, v << 16, y);
    AbsorbTwice(Shift(x, BYTE_BITS), v, Shift(y, BYTE_BITS));
  }

  lemma UpdateSum(s: bv32, w: bv32, x: bv32)
    requires Sum(x, s, w)
    ensures Update(s, w) == Shift(x, BYTE_BITS)
  {
  }

  lemma EnterAfterOne(x: bv32, w: bv32, y: bv32)
    requires IsByte(w) && Sum(y, x, w << 8)
    ensures Update(Shift(x, BYTE_BITS), w) == Two(y)
  {
    Absorb(x, w, y);
    UpdateSum(Shift(x, BYTE_BITS), w, Shift(y, BYTE_BITS));
  }

  lemma EnterAfterTwo(x: bv32, w: bv32, y: bv32)
    requires IsByte(w) && Sum(y, x, w << 16)
    ensures Update(Two(x), w) == Three(y)
  {
    AbsorbTwice(x, w, y);
    UpdateSum(Two(x), w, Two(y));
  }

  lemma EnterAfterThree(x: bv32, w: bv32, y: bv32)
    requires IsByte(w) && Sum(y, x, w << 24)
    ensures Update(Three(x), w) == Four(y)
  {
    AbsorbThrice(x, w, y);
    UpdateSum(Three(x), w, Three(y));
  }

  /** Four bytes enter as one word. */
  lemma WordEnters(s: bv32, a: bv32, b: bv32, c: bv32, d: bv32)
    requires IsByte(b) && IsByte(c) && IsByte(d)
    ensures Update(Update(Update(Update(s, a), b), c), d) == Four(s ^ Word(a, b, c, d))
  {
    var w := s ^ a;
    var x := w ^ (b << 8);
    var y := x ^ (c << 16);
    var z := y ^ (d << 24);
    EnterAfterOne(w, b, x);
    EnterAfterTwo(x, c, y);
    EnterAfterThree(y, d, z);
    Regroup(s, a, b << 8, c << 16, d << 24);
  }

  lemma Regroup(s: bv32, a: bv32, b: bv32, c: bv32, d: bv32)
    ensures (((s ^ a) ^ b) ^ c) ^ d == s ^ (((a ^ b) ^ c) ^ d)
  {
  }

  lemma FourInjective(x: bv32, y: bv32)
    requires Four(x) == Four(y)
    ensures x == y
  {
    ShiftInjective(Three(x), Three(y), BYTE_BITS);
    ShiftInjective(Two(x), Two(y), BYTE_BITS);
    ShiftInjective(Shift(x, BYTE_BITS), Shift(y, BYTE_BITS), BYTE_BITS);
    ShiftInjective(x, y, BYTE_BITS);
  }

  lemma WordInjective(s: bv32, a: bv32, b: bv32, c: bv32, d: bv32, a': bv32, b': bv32, c': bv32, d': bv32)
    requires IsByte(a) && IsByte(b) && IsByte(c) && IsByte(d)
    requires IsByte(a') && IsByte(b') && IsByte(c') && IsByte(d')
    requires s ^ Word(a, b, c, d) == s ^ Word(a', b', c', d')
    ensures a == a' && b == b' && c == c' && d == d'
  {
  }

  lemma UpdatesInjective(s: bv32, a: bv32, b: bv32, c: bv32, d: bv32, a': bv32, b': bv32, c': bv32, d': bv32)
    requires IsByte(a) && IsByte(b) && IsByte(c) && IsByte(d)
    requires IsByte(a') && IsByte(b') && IsByte(c') && IsByte(d')
    requires Update(Update(Update(Update(s, a), b), c), d) == Update(Update(Update(Update(s, a'), b'), c'), d')
    ensures a == a' && b == b' && c == c' && d == d'
  {
    WordEnters(s, a, b, c, d);
    WordEnters(s, a', b', c', d');
    FourInjective(s ^ Word(a, b, c, d), s ^ Word(a', b', c', d'));
    WordInjective(s, a, b, c, d, a', b', c', d');
  }

  /** The register tells any two windows of four bytes apart. */
  lemma WindowInjective(s: bv32, v: seq<bv32>, w: seq<bv32>)
    requires |v| == |w| == 4 && forall i :: 0 <= i < 4 ==> IsByte(v[i]) && IsByte(w[i])
    requires Register(s, v) == Register(s, w)
    ensures v == w
  {
    RegisterOfFour(s, v);
    RegisterOfFour(s, w);
    UpdatesInjective(s, v[0], v[1], v[2], v[3], w[0], w[1], w[2], w[3]);
  }

  lemma RegisterStep(s: bv32, w: bv32, rest: seq<bv32>)
    ensures Register(s, [w] + rest) == Register(Update(s, w), rest)
  {
    assert ([w] + rest)[1..] == rest;
  }

  lemma RegisterOne(s: bv32, w: bv32)
    ensures Register(s, [w]) == Update(s, w)
  {
    RegisterStep(s, w, []);
    assert [w] == [w] + [];
  }

  lemma RegisterOfFour(s: bv32, v: seq<bv32>)
    requires |v| == 4
    ensures Register(s, v) == Update(Update(Update(Update(s, v[0]), v[1]), v[2]), v[3])
  {
    var s1 := Update(s, v[0]);
    var s2 := Update(s1, v[1]);
    var s3 := Update(s2, v[2]);
    RegisterStep(s, v[0], v[1..]);
    RegisterStep(s1, v[1], v[2..]);
    RegisterStep(s2, v[2], v[3..]);
    RegisterStep(s3, v[3], []);
    assert v == [v[0]] + v[1..] && v[1..] == [v[1]] + v[2..] && v[2..] == [v[2]] + v[3..];
    assert v[3..] == [v[3]] + [];
  }

  lemma UpdateInjective(s: bv32, t: bv32, w: bv32)
    requires Update(s, w) == Update(t, w)
    ensures s == t
  {
    ShiftInjective(s ^ w, t ^ w, BYTE_BITS);
    Cancel(s, t, w);
  }

  lemma Cancel(s: bv32, t: bv32, w: bv32)
    requires s ^ w == t ^ w
    ensures s == t
  {
  }

  /** Different registers stay different whatever byte follows. */
  lemma UpdateKeepsApart()
    ensures KeepsStatesApart(Update)
  {
    forall s: bv32, t: bv32, w: bv32 | Update(s, w) == Update(t, w) ensures s == t {
      UpdateInjective(s, t, w);
    }
  }

  // ----- The last two bytes -----------------------------------------------

  function Pick(b: bool, column: bv32): bv32 { if b then column else 0 }

  predicate Bit(x: bv32, mask: bv32) { x & mask != 0 }

  /** What eight shifts make of each half of a byte, bit by bit. */
  function LowImage(x: bv32): bv32
  {
    Pick(Bit(x, 0x01), 0xF26B_8303) ^ Pick(Bit(x, 0x02), 0xE13B_70F7)
    ^ Pick(Bit(x, 0x04), 0xC79A_971F) ^ Pick(Bit(x, 0x08), 0x8AD9_58CF)
  }

  function HighImage(x: bv32): bv32
  {
    Pick(Bit(x, 0x10), 0x105E_C76F) ^ Pick(Bit(x, 0x20), 0x20BD_8EDE)
    ^ Pick(Bit(x, 0x40), 0x417B_1DBC) ^ Pick(Bit(x, 0x80), 0x82F6_3B78)
  }

  function NibbleImage(x: bv32): bv32
  {
    Pick(Bit(x, 1), 0x13A2_9877) ^ Pick(Bit(x, 2), 0x2745_30EE)
    ^ Pick(Bit(x, 4), 0x4E8A_61DC) ^ Pick(Bit(x, 8), 0x9D14_C3B8)
  }

  lemma LowColumns(x: bv32)
    requires x & 0xFFFF_FFF0 == 0
    ensures Shift(x, BYTE_BITS) == LowImage(x)
  {
  }

  lemma HighColumns(x: bv32)
    requires x & 0xFFFF_FF0F == 0
    ensures Shift(x, BYTE_BITS) == HighImage(x)
  {
  }

  lemma Halves(x: bv32, lo: bv32, hi: bv32)
    requires IsByte(x) && lo == x & 0x0F && hi == x & 0xF0
    ensures Sum(x, lo, hi) && lo & 0xFFFF_FFF0 == 0 && hi & 0xFFFF_FF0F == 0
  {
  }

  lemma HalfBits(x: bv32)
    ensures forall m: bv32 {:trigger Bit(x & 0x0F, m)} :: m & 0xFFFF_FFF0 == 0 ==> Bit(x & 0x0F, m) == Bit(x, m)
    ensures forall m: bv32 {:trigger Bit(x & 0xF0, m)} :: m & 0xFFFF_FF0F == 0 ==> Bit(x & 0xF0, m) == Bit(x, m)
  {
  }

  lemma HalfImages(x: bv32)
    ensures LowImage(x & 0x0F) == LowImage(x) && HighImage(x & 0xF0) == HighImage(x)
  {
    HalfBits(x);
  }

  /** What eight shifts make of a byte. */
  lemma ByteColumns(x: bv32)
    requires IsByte(x)
    ensures Sum(Shift(x, BYTE_BITS), LowImage(x), HighImage(x))
  {
    var lo, hi := x & 0x0F, x & 0xF0;
    Halves(x, lo, hi);
    HalfImages(x);
    LowColumns(lo);
    HighColumns(hi);
    ShiftSum(lo, hi, x, BYTE_BITS);
  }

  /** What sixteen shifts make of half a byte. */
  lemma NibbleColumns(x: bv32)
    requires x & 0xFFFF_FFF0 == 0
    ensures Two(x) == NibbleImage(x)
  {
  }

  lemma TwelveColumns(x: bv32, y: bv32)
    requires x & 0xFFFF_FFF0 == 0 && IsByte(y)
    requires (NibbleImage(x) ^ (LowImage(y) ^ HighImage(y))) & 0x003F_FFFF == 0
    ensures x == 0 && y == 0
  {
  }

  /** No change of the last twelve bits leaves the low 22 bits of the register alone. */
  lemma TwelveBits(x: bv32, y: bv32)
    requires x & 0xFFFF_FFF0 == 0 && IsByte(y)
    requires (Two(x) ^ Shift(y, BYTE_BITS)) & 0x003F_FFFF == 0
    ensures x == 0 && y == 0
  {
    NibbleColumns(x);
    ByteColumns(y);
    TwelveImages(x, y, Two(x), Shift(y, BYTE_BITS));
  }

  lemma TwelveImages(x: bv32, y: bv32, u: bv32, v: bv32)
    requires x & 0xFFFF_FFF0 == 0 && IsByte(y) && (u ^ v) & 0x003F_FFFF == 0
    requires u == NibbleImage(x) && Sum(v, LowImage(y), HighImage(y))
    ensures x == 0 && y == 0
  {
    TwelveColumns(x, y);
  }

  lemma UpdateDelta(s: bv32, t: bv32, a: bv32, b: bv32, x: bv32)
    requires x == (s ^ a) ^ (t ^ b)
    ensures Sum(Shift(x, BYTE_BITS), Update(s, a), Update(t, b))
  {
    ShiftSum(s ^ a, t ^ b, x, BYTE_BITS);
  }

  lemma Exchange(s: bv32, a: bv32, t: bv32, b: bv32)
    ensures (s ^ a) ^ (t ^ b) == (s ^ t) ^ (a ^ b)
    ensures s == t ==> (s ^ a) ^ (t ^ b) == a ^ b
  {
  }

  lemma FirstDelta(s: bv32, a: bv32, b: bv32)
    ensures Sum(Shift(a ^ b, BYTE_BITS), Update(s, a), Update(s, b))
  {
    Exchange(s, a, s, b);
    UpdateDelta(s, s, a, b, a ^ b);
  }

  lemma SameSum(z: bv32, x: bv32, y: bv32, u: bv32, v: bv32)
    requires Sum(z, x, y) && Sum(z, u, v)
    ensures Sum(x ^ y, u, v)
  {
  }

  lemma DeltaOf(s: bv32, t: bv32, a: bv32, b: bv32, p: bv32, e: bv32, z: bv32)
    requires Sum(p, s, t) && Sum(e, a, b) && Sum(z, p, e)
    ensures z == (s ^ a) ^ (t ^ b)
  {
  }

  lemma NextDelta(s: bv32, t: bv32, a: bv32, b: bv32, p: bv32, e: bv32, z: bv32)
    requires Sum(p, s, t) && Sum(e, a, b) && Sum(z, p, e)
    ensures Sum(Shift(p, BYTE_BITS) ^ Shift(e, BYTE_BITS), Update(s, a), Update(t, b))
  {
    DeltaOf(s, t, a, b, p, e, z);
    UpdateDelta(s, t, a, b, z);
    ShiftSum(p, e, z, BYTE_BITS);
    SameSum(Shift(z, BYTE_BITS), Shift(p, BYTE_BITS), Shift(e, BYTE_BITS), Update(s, a), Update(t, b));
  }

  /** How a change of the last two bytes shows in the register. */
  lemma TailDelta(s: bv32, a: bv32, b: bv32, c: bv32, d: bv32, x: bv32, y: bv32, u: bv32, v: bv32)
    requires Sum(x, a, c) && Sum(y, b, d)
    requires u == Update(Update(s, a), b) && v == Update(Update(s, c), d)
    ensures TailImage(x, y, u, v)
  {
    FirstDelta(s, a, c);
    SecondDelta(Update(s, a), Update(s, c), b, d, x, y, Shift(x, BYTE_BITS) ^ y);
  }

  lemma SecondDelta(q: bv32, r: bv32, b: bv32, d: bv32, x: bv32, y: bv32, z: bv32)
    requires Sum(Shift(x, BYTE_BITS), q, r) && Sum(y, b, d) && Sum(z, Shift(x, BYTE_BITS), y)
    ensures TailImage(x, y, Update(q, b), Update(r, d))
  {
    NextDelta(q, r, b, d, Shift(x, BYTE_BITS), y, z);
  }

  /** The changes `x` and `y` of the last two bytes turn the register `u` into `v`. */
  ghost predicate TailImage(x: bv32, y: bv32, u: bv32, v: bv32)
  {
    Sum(Shift(Shift(x, BYTE_BITS), BYTE_BITS) ^ Shift(y, BYTE_BITS), u, v)
  }

  lemma SumMask(z: bv32, x: bv32, y: bv32, mask: bv32)
    requires Sum(z, x, y)
    ensures (x ^ y) & mask == z & mask
  {
  }

  lemma TwelveBitsSeen(x: bv32, y: bv32, u: bv32, v: bv32)
    requires x & 0xFFFF_FFF0 == 0 && IsByte(y)
    requires TailImage(x, y, u, v) && (u ^ v) & 0x003F_FFFF == 0
    ensures x == 0 && y == 0
  {
    SumMask(Shift(Shift(x, BYTE_BITS), BYTE_BITS) ^ Shift(y, BYTE_BITS), u, v, 0x003F_FFFF);
    TwelveBits(x, y);
  }

  /** Two data blocks that differ in their last twelve bits leave registers that differ in their low 22. */
  lemma LastTwelve(s: bv32, a: bv32, b: bv32, c: bv32, d: bv32, u: bv32, v: bv32)
    requires IsByte(a) && IsByte(b) && IsByte(c) && IsByte(d) && (a ^ c) & 0xF0 == 0
    requires u == Update(Update(s, a), b) && v == Update(Update(s, c), d)
    requires (u ^ v) & 0x003F_FFFF == 0
    ensures a == c && b == d
  {
    var x, y := a ^ c, b ^ d;
    TailDelta(s, a, b, c, d, x, y, u, v);
    Differences(a, c);
    Differences(b, d);
    TwelveBitsSeen(x, y, u, v);
  }

  lemma Differences(x: bv32, y: bv32)
    requires IsByte(x) && IsByte(y)
    ensures IsByte(x ^ y) && (x ^ y == 0 ==> x == y)
    ensures (x ^ y) & 0xF0 == 0 ==> (x ^ y) & 0xFFFF_FFF0 == 0
    ensures (x ^ y) & 0xFE == 0 ==> x ^ y == 0 || x ^ y == 1
  {
  }

  lemma RegisterOfTwo(s: bv32, v: seq<bv32>)
    requires |v| == 2
    ensures Register(s, v) == Update(Update(s, v[0]), v[1])
  {
    RegisterStep(s, v[0], v[1..]);
    RegisterStep(Update(s, v[0]), v[1], []);
    assert v == [v[0]] + v[1..] && v[1..] == [v[1]] + [];
  }

  /** A change of the last bit alone shows in the low eleven bits of the register. */
  lemma LastBit(s: bv32, v: bv32, w: bv32)
    requires IsByte(v) && IsByte(w) && (v ^ w) & 0xFE == 0
    requires (Update(s, v) ^ Update(s, w)) & 0x7FF == 0
    ensures v == w
  {
    FirstDelta(s, v, w);
    Differences(v, w);
    if v ^ w == 1 {
      ByteColumns(1);
    }
  }
}
