/** Three neighbouring words of an aezeed phrase: where a change of them is always caught, and where not. */
module ThreeWords {
  import opened Bits
  import opened Sums
  import opened Crc32c
  import opened Aezeed
  import opened SeedTheorems
  import opened SeedErrors
  import opened WordErrors

  const DATA_BITS: nat := 232

  // ----- Seeds with a given body ------------------------------------------

  function Zeros(k: nat): (b: seq<bool>)
    ensures |b| == k && forall i :: 0 <= i < k ==> !b[i]
  {
    seq(k, i => false)
  }

  lemma {:induction false} ValueOfZeros(b: seq<bool>)
    requires forall i :: 0 <= i < |b| ==> !b[i]
    ensures ValueOf(b) == 0
  {
    if b != [] { ValueOfZeros(b[..|b| - 1]); }
  }

  /** The 29 bytes of a bit string. */
  function Body(b: seq<bool>): (body: Bytes)
    requires |b| == DATA_BITS
    ensures |body| == CHECKSUM_OFFSET
  {
    assert Pow2(8) == 256;
    AsBytes(Unpack(b, 8, CHECKSUM_OFFSET))
  }

  function Field(b: seq<bool>): (f: seq<bool>)
    requires |b| == DATA_BITS
    ensures |f| == 32
  {
    Pack(PutUint32(Checksum(Body(b))), 8)
  }

  lemma BodyBits(b: seq<bool>)
    requires |b| == DATA_BITS
    ensures Pack(Body(b), 8) == b
  {
    PackUnpack(b, 8, CHECKSUM_OFFSET);
  }

  lemma SealedBits(b: seq<bool>)
    requires |b| == DATA_BITS
    ensures |Sealed(Body(b))| == SEED_SIZE && Pack(Sealed(Body(b)), 8) == b + Field(b)
  {
    BodyBits(b);
    PackConcat(Body(b), PutUint32(Checksum(Body(b))), 8);
  }

  lemma FirstByte(b: seq<bool>)
    requires |b| == DATA_BITS && forall i :: 0 <= i < 8 ==> !b[i]
    ensures Body(b)[0] == 0
  {
    assert Pow2(8) == 256;
    UnpackAt(b, 8, CHECKSUM_OFFSET, 0);
    ValueOfZeros(b[8 * 0..8 * 0 + 8]);
  }

  lemma SealedAccepted(body: Bytes)
    requires |body| == CHECKSUM_OFFSET && body[0] == CIPHER_SEED_VERSION
    ensures |Sealed(body)| == SEED_SIZE && Accepts(Sealed(body))
  {
    var r := Sealed(body);
    assert r[..CHECKSUM_OFFSET] == body && r[CHECKSUM_OFFSET..] == PutUint32(Checksum(body));
    Uint32OfPut(Checksum(body));
  }

  // ----- Two bodies with one checksum, but for what is free ---------------

  /** The data bits within three words from word `i` on. */
  function Free(i: nat): nat
    requires 1 <= i <= 21
  {
    if i <= 18 then 33 else DATA_BITS - 11 * i
  }

  /** All zeros but for the bits of `x` in the window. */
  function Variant(i: nat, x: nat): (b: seq<bool>)
    requires 1 <= i <= 21
    ensures |b| == DATA_BITS
  {
    Zeros(11 * i) + BitsOf(x, Free(i)) + Zeros(DATA_BITS - 11 * i - Free(i))
  }

  /** The part of the checksum field that lies behind the window. */
  function Rest(i: nat, x: nat): (b: seq<bool>)
    requires 1 <= i <= 21
    ensures |b| == Free(i) - 1
  {
    Field(Variant(i, x))[33 - Free(i)..]
  }

  function RestValue(i: nat, x: nat): (v: nat)
    requires 1 <= i <= 21
    ensures v < Pow2(Free(i) - 1)
  {
    ValueOf(Rest(i, x))
  }

  function Values(f: nat -> nat, n: nat): (xs: seq<nat>)
    ensures |xs| == n && forall x :: 0 <= x < n ==> xs[x] == f(x)
  {
    if n == 0 then [] else Values(f, n - 1) + [f(n - 1)]
  }

  /** More numbers than there are to choose from: two are equal. */
  lemma Repeats(f: nat -> nat, n: nat, bound: nat) returns (x: nat, y: nat)
    requires n > bound && forall x :: f(x) < bound
    ensures x < y < n && f(x) == f(y)
  {
    var xs := Values(f, n);
    if forall p, q :: 0 <= p < q < |xs| ==> xs[p] != xs[q] { AtMost(xs, bound); }
    x, y :| 0 <= x < y < |xs| && xs[x] == xs[y];
  }

  lemma Twice(k: nat)
    requires k > 0
    ensures Pow2(k) > Pow2(k - 1)
  {
  }

  lemma RestOfValue(i: nat, x: nat, y: nat)
    requires 1 <= i <= 21 && RestValue(i, x) == RestValue(i, y)
    ensures Rest(i, x) == Rest(i, y)
  {
    SameValue(Rest(i, x), Rest(i, y));
  }

  lemma SameValue(b: seq<bool>, c: seq<bool>)
    requires |b| == |c| && ValueOf(b) == ValueOf(c)
    ensures b == c
  {
    BitsOfValue(b);
    BitsOfValue(c);
  }

  /** There is one bit more to choose than there is to meet. */
  lemma Collision(i: nat) returns (x: nat, y: nat)
    requires 1 <= i <= 21
    ensures x < y < Pow2(Free(i)) && Rest(i, x) == Rest(i, y)
  {
    Twice(Free(i));
    var f := (x: nat) => RestValue(i, x);
    x, y := Repeats(f, Pow2(Free(i)), Pow2(Free(i) - 1));
    RestOfValue(i, x, y);
  }

  lemma VariantsDiffer(i: nat, x: nat, y: nat)
    requires 1 <= i <= 21 && x < Pow2(Free(i)) && y < Pow2(Free(i)) && x != y
    ensures Variant(i, x) != Variant(i, y)
  {
    ValueOfBits(x, Free(i));
    ValueOfBits(y, Free(i));
    assert Variant(i, x)[11 * i..11 * i + Free(i)] == BitsOf(x, Free(i));
    assert Variant(i, y)[11 * i..11 * i + Free(i)] == BitsOf(y, Free(i));
  }

  lemma FieldsAgree(f: seq<bool>, g: seq<bool>, k: nat)
    requires |f| == |g| == 32 && k <= 32 && f[k..] == g[k..]
    ensures AgreeBut(f, g, 0, k)
  {
    assert forall p :: k <= p < 32 ==> f[p] == f[k..][p - k] && g[p] == g[k..][p - k];
  }

  lemma VariantsAgree(i: nat, x: nat, y: nat)
    requires 1 <= i <= 21 && Rest(i, x) == Rest(i, y)
    ensures AgreeBut(Variant(i, x) + Field(Variant(i, x)), Variant(i, y) + Field(Variant(i, y)), 11 * i, 11 * i + 33)
  {
    WithFields(i, x, y, Field(Variant(i, x)), Field(Variant(i, y)));
  }

  lemma WithFields(i: nat, x: nat, y: nat, f: seq<bool>, g: seq<bool>)
    requires 1 <= i <= 21 && |f| == |g| == 32 && f[33 - Free(i)..] == g[33 - Free(i)..]
    ensures AgreeBut(Variant(i, x) + f, Variant(i, y) + g, 11 * i, 11 * i + 33)
  {
    FieldsAgree(f, g, 33 - Free(i));
    BodiesAgree(i, x, y);
    Joined(Variant(i, x), Variant(i, y), f, g, 11 * i, 11 * i + Free(i), 33 - Free(i));
  }

  lemma BodiesAgree(i: nat, x: nat, y: nat)
    requires 1 <= i <= 21
    ensures AgreeBut(Variant(i, x), Variant(i, y), 11 * i, 11 * i + Free(i))
  {
    Between(Zeros(11 * i), BitsOf(x, Free(i)), BitsOf(y, Free(i)), Zeros(DATA_BITS - 11 * i - Free(i)));
  }

  lemma Between<T(!new)>(a: seq<T>, v: seq<T>, w: seq<T>, z: seq<T>)
    requires |v| == |w|
    ensures AgreeBut(a + v + z, a + w + z, |a|, |a| + |v|)
  {
  }

  /** The window may go on from the data into the checksum field. */
  lemma Joined(b: seq<bool>, c: seq<bool>, f: seq<bool>, g: seq<bool>, lo: nat, hi: nat, k: nat)
    requires |b| == |c| == DATA_BITS && lo <= hi <= DATA_BITS && (k == 0 || hi == DATA_BITS)
    requires AgreeBut(b, c, lo, hi) && AgreeBut(f, g, 0, k)
    ensures AgreeBut(b + f, c + g, lo, hi + k)
  {
    forall p | 0 <= p < |b + f| && !(lo <= p < hi + k) ensures (b + f)[p] == (c + g)[p] {
      if p >= DATA_BITS {
        assert (b + f)[p] == f[p - DATA_BITS] && (c + g)[p] == g[p - DATA_BITS];
      }
    }
  }

  // ----- The same change in any valid phrase ------------------------------

  /** `d` marks where `b` and `c` differ. */
  ghost predicate Marks(d: seq<bool>, b: seq<bool>, c: seq<bool>)
  {
    |d| == |b| == |c| && forall k :: 0 <= k < |d| ==> (d[k] <==> b[k] != c[k])
  }

  function Flipped(b: seq<bool>, d: seq<bool>): (c: seq<bool>)
    requires |b| == |d|
    ensures Marks(d, b, c)
  {
    seq(|b|, k requires 0 <= k < |b| => b[k] != d[k])
  }

  lemma MarksSlice(d: seq<bool>, b: seq<bool>, c: seq<bool>, i: nat, j: nat)
    requires Marks(d, b, c) && i <= j <= |d|
    ensures Marks(d[i..j], b[i..j], c[i..j])
  {
  }

  lemma MarksJoin(d: seq<bool>, b: seq<bool>, c: seq<bool>, d': seq<bool>, b': seq<bool>, c': seq<bool>)
    requires Marks(d, b, c) && Marks(d', b', c')
    ensures Marks(d + d', b + b', c + c')
  {
  }

  lemma MarkedWithin(d: seq<bool>, b: seq<bool>, c: seq<bool>, v: seq<bool>, w: seq<bool>, lo: int, hi: int)
    requires Marks(d, b, c) && Marks(d, v, w) && AgreeBut(v, w, lo, hi)
    ensures AgreeBut(b, c, lo, hi)
  {
  }

  lemma SumBit(z: bv32, s: bv32, t: bv32, m: bv32)
    requires Sum(z, s, t)
    ensures z & m == (s & m) ^ (t & m)
  {
  }

  predicate One(m: bv32) { m & (m - 1) == 0 }

  lemma MaskedOne(x: bv32, m: bv32)
    requires One(m)
    ensures x & m == 0 || x & m == m
  {
  }

  lemma XorOne(z: bv32, s: bv32, t: bv32, m: bv32)
    requires m != 0 && z == s ^ t && (s == 0 || s == m) && (t == 0 || t == m)
    ensures z != 0 <==> (s != 0) != (t != 0)
  {
  }

  lemma SumMarksBit(z: bv32, s: bv32, t: bv32, m: bv32)
    requires Sum(z, s, t) && One(m) && m != 0
    ensures z & m != 0 <==> (s & m != 0) != (t & m != 0)
  {
    SumBit(z, s, t, m);
    MaskedOne(s, m);
    MaskedOne(t, m);
    XorOne(z & m, s & m, t & m, m);
  }

  /** The bit at `m` of `z` is marked by those of `s` and `t`. */
  ghost predicate BitMarked(z: bv32, s: bv32, t: bv32, m: bv32) { Bit(z, m) <==> Bit(s, m) != Bit(t, m) }

  lemma SumMarksAt(z: bv32, s: bv32, t: bv32, m: bv32)
    requires Sum(z, s, t) && One(m) && m != 0
    ensures BitMarked(z, s, t, m)
  {
    SumMarksBit(z, s, t, m);
    MarkedByBits(z, s, t, m);
  }

  lemma MarkedByBits(z: bv32, s: bv32, t: bv32, m: bv32)
    requires z & m != 0 <==> (s & m != 0) != (t & m != 0)
    ensures BitMarked(z, s, t, m)
  {
  }

  ghost predicate HighMarked(z: bv32, s: bv32, t: bv32)
  {
    BitMarked(z, s, t, 0x80) && BitMarked(z, s, t, 0x40) && BitMarked(z, s, t, 0x20) && BitMarked(z, s, t, 0x10)
  }

  ghost predicate LowMarked(z: bv32, s: bv32, t: bv32)
  {
    BitMarked(z, s, t, 0x08) && BitMarked(z, s, t, 0x04) && BitMarked(z, s, t, 0x02) && BitMarked(z, s, t, 0x01)
  }

  lemma HighMarks(z: bv32, s: bv32, t: bv32)
    requires Sum(z, s, t)
    ensures HighMarked(z, s, t)
  {
    SumMarksAt(z, s, t, 0x80);
    SumMarksAt(z, s, t, 0x40);
    SumMarksAt(z, s, t, 0x20);
    SumMarksAt(z, s, t, 0x10);
  }

  lemma LowMarks(z: bv32, s: bv32, t: bv32)
    requires Sum(z, s, t)
    ensures LowMarked(z, s, t)
  {
    SumMarksAt(z, s, t, 0x08);
    SumMarksAt(z, s, t, 0x04);
    SumMarksAt(z, s, t, 0x02);
    SumMarksAt(z, s, t, 0x01);
  }

  /** Where bit `k` of a byte is. */
  function Mask(k: nat): bv32
    requires k < 8
  {
    [0x80, 0x40, 0x20, 0x10, 0x08, 0x04, 0x02, 0x01][k]
  }

  lemma BitIs(v: bv32, k: nat)
    requires k < 8
    ensures Bits8(v)[k] <==> Bit(v, Mask(k))
  {
  }

  lemma MarkedBit(z: bv32, s: bv32, t: bv32, k: nat)
    requires HighMarked(z, s, t) && LowMarked(z, s, t) && k < 8
    ensures BitMarked(z, s, t, Mask(k))
  {
  }

  lemma MarkedBits(z: bv32, s: bv32, t: bv32)
    requires HighMarked(z, s, t) && LowMarked(z, s, t)
    ensures Marks(Bits8(z), Bits8(s), Bits8(t))
  {
    forall k | 0 <= k < 8 ensures Bits8(z)[k] <==> Bits8(s)[k] != Bits8(t)[k] {
      MarkedBit(z, s, t, k);
      BitIs(z, k);
      BitIs(s, k);
      BitIs(t, k);
    }
  }

  lemma SumMarks(z: bv32, s: bv32, t: bv32)
    requires Sum(z, s, t)
    ensures Marks(Bits8(z), Bits8(s), Bits8(t))
  {
    HighMarks(z, s, t);
    LowMarks(z, s, t);
    MarkedBits(z, s, t);
  }

  lemma SameMarks(d: seq<bool>, e: seq<bool>, b: seq<bool>, c: seq<bool>)
    requires Marks(d, b, c) && Marks(e, b, c)
    ensures d == e
  {
  }

  lemma SumOfBytes(s: bv32, t: bv32, z: bv32)
    requires IsByte(s) && IsByte(t) && Sum(z, s, t)
    ensures z & 0xFF == z
  {
  }

  lemma ByteOfBits(b: seq<bool>, v: bv32)
    requires |b| == 8 && v == Vec8(b)
    ensures IsByte(v) && b == Bits8(v)
  {
    VecOfBits(b);
  }

  lemma BitsOfByte(d: seq<bool>, z: bv32)
    requires d == Bits8(z) && z & 0xFF == z
    ensures Vec8(d) == z
  {
    BitsOfVec(z);
  }

  lemma MarksSumOf(d: seq<bool>, b: seq<bool>, c: seq<bool>, z: bv32, v: bv32, w: bv32)
    requires |d| == 8 && Marks(d, b, c) && v == Vec8(b) && w == Vec8(c) && Sum(z, v, w)
    ensures Vec8(d) == z
  {
    ByteOfBits(b, v);
    ByteOfBits(c, w);
    SumMarks(z, v, w);
    SameMarks(d, Bits8(z), b, c);
    SumOfBytes(v, w, z);
    BitsOfByte(d, z);
  }

  /** The word of the marked bits is the exclusive or of the words. */
  lemma MarksSum(d: seq<bool>, b: seq<bool>, c: seq<bool>)
    requires |d| == 8 && Marks(d, b, c)
    ensures Sum(Vec8(d), Vec8(b), Vec8(c))
  {
    MarksSumOf(d, b, c, Vec8(b) ^ Vec8(c), Vec8(b), Vec8(c));
  }

  lemma WordOfBody(b: seq<bool>, p: nat)
    requires |b| == DATA_BITS && p < CHECKSUM_OFFSET
    ensures Words(Body(b))[p] == Vec8(b[8 * p..8 * p + 8])
  {
    assert Pow2(8) == 256;
    UnpackAt(b, 8, CHECKSUM_OFFSET, p);
    BitsOfValue(b[8 * p..8 * p + 8]);
  }

  ghost predicate Sums3(e: seq<bv32>, v: seq<bv32>, w: seq<bv32>)
  {
    |e| == |v| == |w| && forall k :: 0 <= k < |e| ==> Sum(e[k], v[k], w[k])
  }

  lemma WordSum(d: seq<bool>, b: seq<bool>, c: seq<bool>, p: nat)
    requires |d| == DATA_BITS && Marks(d, b, c) && p < CHECKSUM_OFFSET
    ensures Sum(Words(Body(d))[p], Words(Body(b))[p], Words(Body(c))[p])
  {
    MarksSlice(d, b, c, 8 * p, 8 * p + 8);
    MarksSum(d[8 * p..8 * p + 8], b[8 * p..8 * p + 8], c[8 * p..8 * p + 8]);
    WordOfBody(d, p);
    WordOfBody(b, p);
    WordOfBody(c, p);
  }

  lemma WordsSumOf(d: seq<bool>, b: seq<bool>, c: seq<bool>, e: seq<bv32>, v: seq<bv32>, w: seq<bv32>)
    requires |d| == DATA_BITS && Marks(d, b, c)
    requires e == Words(Body(d)) && v == Words(Body(b)) && w == Words(Body(c))
    ensures Sums3(e, v, w)
  {
    forall p | 0 <= p < CHECKSUM_OFFSET ensures Sum(e[p], v[p], w[p]) { WordSum(d, b, c, p); }
  }

  lemma WordsSum(d: seq<bool>, b: seq<bool>, c: seq<bool>)
    requires |d| == DATA_BITS && Marks(d, b, c)
    ensures Sums3(Words(Body(d)), Words(Body(b)), Words(Body(c)))
  {
    WordsSumOf(d, b, c, Words(Body(d)), Words(Body(b)), Words(Body(c)));
  }

  lemma UpdatesSum(p: bv32, s: bv32, t: bv32, e: bv32, a: bv32, b: bv32)
    requires Sum(p, s, t) && Sum(e, a, b)
    ensures Sum(Update(p, e), Update(s, a), Update(t, b))
  {
    var z := p ^ e;
    DeltaOf(s, t, a, b, p, e, z);
    UpdateDelta(s, t, a, b, z);
    UpdateSum(p, e, z);
  }

  /** The register is linear in its state and its input together. */
  lemma {:induction false} RegistersSum(p: bv32, s: bv32, t: bv32, e: seq<bv32>, v: seq<bv32>, w: seq<bv32>)
    requires Sum(p, s, t) && Sums3(e, v, w)
    ensures Sum(Register(p, e), Register(s, v), Register(t, w))
    decreases |e|
  {
    if e != [] {
      UpdatesSum(p, s, t, e[0], v[0], w[0]);
      RegistersSum(Update(p, e[0]), Update(s, v[0]), Update(t, w[0]), e[1..], v[1..], w[1..]);
    }
  }

  lemma Inverted(z: bv32, s: bv32, t: bv32)
    requires Sum(z, s, t)
    ensures Sum(z, s ^ 0xFFFF_FFFF, t ^ 0xFFFF_FFFF)
  {
  }

  lemma SameStart()
    ensures Sum(0, START, START)
  {
  }

  lemma ChecksumIs(body: Bytes, s: bv32)
    requires s == Register(START, Words(body))
    ensures Checksum(body) == s ^ 0xFFFF_FFFF
  {
  }

  lemma ChecksumsSumOf(z: bv32, s: bv32, t: bv32, b: Bytes, c: Bytes)
    requires Sum(z, s, t) && s == Register(START, Words(b)) && t == Register(START, Words(c))
    ensures Sum(z, Checksum(b), Checksum(c))
  {
    ChecksumIs(b, s);
    ChecksumIs(c, t);
    Inverted(z, s, t);
  }

  lemma RegistersOfBodies(d: seq<bool>, b: seq<bool>, c: seq<bool>)
    requires |d| == DATA_BITS && Marks(d, b, c)
    ensures Sum(Register(0, Words(Body(d))), Register(START, Words(Body(b))), Register(START, Words(Body(c))))
  {
    WordsSum(d, b, c);
    SameStart();
    RegistersSum(0, START, START, Words(Body(d)), Words(Body(b)), Words(Body(c)));
  }

  /** How a change of the data shows in the checksum. */
  lemma ChecksumsSum(d: seq<bool>, b: seq<bool>, c: seq<bool>)
    requires |d| == DATA_BITS && Marks(d, b, c)
    ensures Sum(Register(0, Words(Body(d))), Checksum(Body(b)), Checksum(Body(c)))
  {
    RegistersOfBodies(d, b, c);
    ChecksumsSumOf(Register(0, Words(Body(d))), Register(START, Words(Body(b))), Register(START, Words(Body(c))),
                   Body(b), Body(c));
  }

  /** The 32 bits of a checksum field. */
  function FieldOf(v: bv32): seq<bool> { FourBytes(v >> 24, v >> 16, v >> 8, v) }

  function FourBytes(a: bv32, b: bv32, c: bv32, d: bv32): seq<bool> { (Bits8(a) + Bits8(b)) + (Bits8(c) + Bits8(d)) }

  lemma PackLow(v: bv32)
    ensures Pack([Low(v)], 8) == Bits8(v)
  {
    BitsOfValue(Bits8(v));
    assert [Low(v)][1..] == [];
  }

  lemma PackTwo(a: nat, b: nat)
    ensures Pack([a, b], 8) == Pack([a], 8) + Pack([b], 8)
  {
    assert [a, b] == [a] + [b];
    PackConcat([a], [b], 8);
  }

  lemma PackFour(a: nat, b: nat, c: nat, d: nat)
    ensures Pack([a, b, c, d], 8) == (Pack([a], 8) + Pack([b], 8)) + (Pack([c], 8) + Pack([d], 8))
  {
    assert [a, b, c, d] == [a, b] + [c, d];
    PackConcat([a, b], [c, d], 8);
    PackTwo(a, b);
    PackTwo(c, d);
  }

  lemma FieldIs(v: bv32)
    ensures Pack(PutUint32(v), 8) == FieldOf(v)
  {
    PackLow(v >> 24);
    PackLow(v >> 16);
    PackLow(v >> 8);
    PackLow(v);
    PackFour(Low(v >> 24), Low(v >> 16), Low(v >> 8), Low(v));
  }

  lemma SumDown24(z: bv32, s: bv32, t: bv32)
    requires Sum(z, s, t)
    ensures Sum(z >> 24, s >> 24, t >> 24)
  {
  }

  lemma SumDown16(z: bv32, s: bv32, t: bv32)
    requires Sum(z, s, t)
    ensures Sum(z >> 16, s >> 16, t >> 16)
  {
  }

  lemma SumDown8(z: bv32, s: bv32, t: bv32)
    requires Sum(z, s, t)
    ensures Sum(z >> 8, s >> 8, t >> 8)
  {
  }

  lemma FieldMarks(z: bv32, s: bv32, t: bv32)
    requires Marks(FourBytes(z >> 24, z >> 16, z >> 8, z), FourBytes(s >> 24, s >> 16, s >> 8, s),
                   FourBytes(t >> 24, t >> 16, t >> 8, t))
    ensures Marks(FieldOf(z), FieldOf(s), FieldOf(t))
  {
  }

  lemma FourMarks(z: bv32, s: bv32, t: bv32)
    requires Sum(z >> 24, s >> 24, t >> 24) && Sum(z >> 16, s >> 16, t >> 16)
    requires Sum(z >> 8, s >> 8, t >> 8) && Sum(z, s, t)
    ensures Marks(FourBytes(z >> 24, z >> 16, z >> 8, z), FourBytes(s >> 24, s >> 16, s >> 8, s),
                  FourBytes(t >> 24, t >> 16, t >> 8, t))
  {
    FieldsSumOf(z >> 24, s >> 24, t >> 24, z >> 16, s >> 16, t >> 16, z >> 8, s >> 8, t >> 8, z, s, t);
  }

  lemma FieldsSum(z: bv32, s: bv32, t: bv32)
    requires Sum(z, s, t)
    ensures Marks(FieldOf(z), FieldOf(s), FieldOf(t))
  {
    SumDown24(z, s, t);
    SumDown16(z, s, t);
    SumDown8(z, s, t);
    FourMarks(z, s, t);
    FieldMarks(z, s, t);
  }

  lemma FieldsSumOf(z3: bv32, s3: bv32, t3: bv32, z2: bv32, s2: bv32, t2: bv32,
                    z1: bv32, s1: bv32, t1: bv32, z0: bv32, s0: bv32, t0: bv32)
    requires Sum(z3, s3, t3) && Sum(z2, s2, t2) && Sum(z1, s1, t1) && Sum(z0, s0, t0)
    ensures Marks(FourBytes(z3, z2, z1, z0), FourBytes(s3, s2, s1, s0), FourBytes(t3, t2, t1, t0))
  {
    TwoMarks(z3, s3, t3, z2, s2, t2);
    TwoMarks(z1, s1, t1, z0, s0, t0);
    MarksJoin(Bits8(z3) + Bits8(z2), Bits8(s3) + Bits8(s2), Bits8(t3) + Bits8(t2),
              Bits8(z1) + Bits8(z0), Bits8(s1) + Bits8(s0), Bits8(t1) + Bits8(t0));
  }

  lemma TwoMarks(z: bv32, s: bv32, t: bv32, z': bv32, s': bv32, t': bv32)
    requires Sum(z, s, t) && Sum(z', s', t')
    ensures Marks(Bits8(z) + Bits8(z'), Bits8(s) + Bits8(s'), Bits8(t) + Bits8(t'))
  {
    SumMarks(z, s, t);
    SumMarks(z', s', t');
    MarksJoin(Bits8(z), Bits8(s), Bits8(t), Bits8(z'), Bits8(s'), Bits8(t'));
  }

  /** What a change of the data makes of the checksum field. */
  function FieldChange(d: seq<bool>): seq<bool>
    requires |d| == DATA_BITS
  {
    FieldOf(Register(0, Words(Body(d))))
  }

  lemma FieldsMarked(d: seq<bool>, b: seq<bool>, c: seq<bool>)
    requires |d| == DATA_BITS && Marks(d, b, c)
    ensures Marks(FieldChange(d), Field(b), Field(c))
  {
    ChecksumsSum(d, b, c);
    FieldIs(Checksum(Body(b)));
    FieldIs(Checksum(Body(c)));
    FieldsSum(Register(0, Words(Body(d))), Checksum(Body(b)), Checksum(Body(c)));
  }

  // ----- Any change whatever ----------------------------------------------

  lemma AcceptedBits(r: Bytes)
    requires |r| == SEED_SIZE && r[0] == CIPHER_SEED_VERSION
    ensures |Pack(r[..CHECKSUM_OFFSET], 8)| == DATA_BITS && Body(Pack(r[..CHECKSUM_OFFSET], 8)) == r[..CHECKSUM_OFFSET]
    ensures Accepts(r) <==> Pack(r[CHECKSUM_OFFSET..], 8) == Field(Pack(r[..CHECKSUM_OFFSET], 8))
  {
    var body, sum := r[..CHECKSUM_OFFSET], r[CHECKSUM_OFFSET..];
    DataBits(body);
    PutOfUint32(sum);
    Uint32OfPut(Checksum(body));
    PackInjective(sum, PutUint32(Checksum(body)));
  }

  lemma PackInjective(a: Bytes, b: Bytes)
    requires |a| == |b|
    ensures Pack(a, 8) == Pack(b, 8) <==> a == b
  {
    assert Pow2(8) == 256;
    UnpackPack(a, 8);
    UnpackPack(b, 8);
  }

  lemma MarkedEnd(e: seq<bool>, f: seq<bool>, b: seq<bool>, c: seq<bool>, c': seq<bool>)
    requires Marks(e, b, c) && Marks(f, b, c')
    ensures c == c' <==> e == f
  {
    if e == f {
      forall k | 0 <= k < |c| ensures c[k] == c'[k] { assert e[k] == f[k]; }
    } else {
      var k :| 0 <= k < |e| && e[k] != f[k];
      assert c[k] != c'[k];
    }
  }

  /**
    Of every valid seed and every change of it that leaves the version: the
    change is missed exactly if what it turns in the checksum field is the image
    of what it turns in the data. The image does not depend on the seed.
  */
  lemma MissedExactly(r: Bytes, q: Bytes, d: seq<bool>, e: seq<bool>)
    requires |r| == |q| == SEED_SIZE && Accepts(r) && q[0] == CIPHER_SEED_VERSION && |d| == DATA_BITS
    requires Marks(d, Pack(r[..CHECKSUM_OFFSET], 8), Pack(q[..CHECKSUM_OFFSET], 8))
    requires Marks(e, Pack(r[CHECKSUM_OFFSET..], 8), Pack(q[CHECKSUM_OFFSET..], 8))
    ensures Accepts(q) <==> e == FieldChange(d)
  {
    var b, c := Pack(r[..CHECKSUM_OFFSET], 8), Pack(q[..CHECKSUM_OFFSET], 8);
    AcceptedBits(r);
    AcceptedBits(q);
    FieldsMarked(d, b, c);
    MarkedEnd(e, FieldChange(d), Field(b), Pack(q[CHECKSUM_OFFSET..], 8), Field(c));
  }

  // ----- Phrases ----------------------------------------------------------

  lemma IndexOfStream(seed: Bytes, j: nat)
    requires |seed| == SEED_SIZE && j < WORDS
    ensures Indices(seed)[j] == ValueOf(Pack(seed, 8)[11 * j..11 * j + 11])
  {
    Sizes();
    UnpackAt(Pack(seed, 8), WORD_BITS, WORDS, j);
  }

  lemma IndexAgrees(r: Bytes, q: Bytes, b: seq<bool>, c: seq<bool>, i: nat, j: nat)
    requires |r| == |q| == SEED_SIZE && j < WORDS && (j < i || j >= i + 3)
    requires b == Pack(r, 8) && c == Pack(q, 8) && |b| == |c| == 264 && AgreeBut(b, c, 11 * i, 11 * i + 33)
    ensures Indices(r)[j] == Indices(q)[j]
  {
    AgreedSlices(b, c, 11 * i, 11 * i + 33, 11 * j, 11 * j + 11);
    IndexOfStream(r, j);
    IndexOfStream(q, j);
  }

  /** Two valid phrases that differ, and only in three words from word `i` on. */
  predicate Pair(list: seq<string>, i: nat, m: seq<string>, n: seq<string>)
  {
    |m| == |n| == WORDS && Valid(list, m) && Valid(list, n) && m != n
    && forall j :: 0 <= j < WORDS && !(i <= j < i + 3) ==> m[j] == n[j]
  }

  lemma PhrasesAgree(list: seq<string>, r: Bytes, q: Bytes, i: nat)
    requires |list| == LIST_SIZE && |r| == |q| == SEED_SIZE
    requires AgreeBut(Pack(r, 8), Pack(q, 8), 11 * i, 11 * i + 33)
    ensures forall j :: 0 <= j < WORDS && !(i <= j < i + 3) ==> Mnemonic(list, r)[j] == Mnemonic(list, q)[j]
  {
    forall j | 0 <= j < WORDS && !(i <= j < i + 3) ensures Mnemonic(list, r)[j] == Mnemonic(list, q)[j] {
      IndexAgrees(r, q, Pack(r, 8), Pack(q, 8), i, j);
    }
  }

  /** A seed that passes the tests is the sealed form of its data. */
  lemma AcceptedSealed(r: Bytes)
    requires |r| == SEED_SIZE && Accepts(r)
    ensures Sealed(r[..CHECKSUM_OFFSET]) == r
  {
    PutOfUint32(r[CHECKSUM_OFFSET..]);
    assert r == r[..CHECKSUM_OFFSET] + r[CHECKSUM_OFFSET..];
  }

  lemma DataBits(body: Bytes)
    requires |body| == CHECKSUM_OFFSET
    ensures |Pack(body, 8)| == DATA_BITS && Body(Pack(body, 8)) == body
  {
    assert Pow2(8) == 256;
    UnpackPack(body, 8);
  }

  lemma VersionBits(body: Bytes, p: nat)
    requires |body| == CHECKSUM_OFFSET && body[0] == CIPHER_SEED_VERSION && p < 8
    ensures p < |Pack(body, 8)| && !Pack(body, 8)[p]
  {
    PackBit(body, 8, p);
    ZeroBit(8, p);
  }

  lemma {:induction false} ZeroBit(n: nat, p: nat)
    requires p < n
    ensures !BitsOf(0, n)[p]
    decreases n
  {
    if p < n - 1 { ZeroBit(n - 1, p); }
  }

  /** The change that takes variant `x` to variant `y` takes a valid seed to a valid one, within the window. */
  lemma ChangedSeed(body: Bytes, i: nat, x: nat, y: nat) returns (q: Bytes)
    requires |body| == CHECKSUM_OFFSET && body[0] == CIPHER_SEED_VERSION && 1 <= i <= 21
    requires Rest(i, x) == Rest(i, y) && Variant(i, x) != Variant(i, y)
    ensures |q| == |Sealed(body)| == SEED_SIZE && Accepts(q) && q != Sealed(body)
    ensures AgreeBut(Pack(Sealed(body), 8), Pack(q, 8), 11 * i, 11 * i + 33)
  {
    var b, v, w := Pack(body, 8), Variant(i, x), Variant(i, y);
    DataBits(body);
    var d := Flipped(v, w);
    var c := Flipped(b, d);
    q := Sealed(Body(c));
    SealedBits(b);
    SealedBits(c);
    ChangedVersion(body, i, x, y, d, c);
    SealedAccepted(Body(c));
    FieldsMarked(d, b, c);
    FieldsMarked(d, v, w);
    ChangedWithin(i, x, y, d, b, c);
    Apart(d, b, c, Field(b), Field(c), v, w);
  }

  lemma ChangedWithin(i: nat, x: nat, y: nat, d: seq<bool>, b: seq<bool>, c: seq<bool>)
    requires 1 <= i <= 21 && Rest(i, x) == Rest(i, y) && |b| == DATA_BITS
    requires Marks(d, b, c) && Marks(d, Variant(i, x), Variant(i, y))
    requires Marks(FieldChange(d), Field(b), Field(c))
    requires Marks(FieldChange(d), Field(Variant(i, x)), Field(Variant(i, y)))
    ensures AgreeBut(b + Field(b), c + Field(c), 11 * i, 11 * i + 33)
  {
    var v, w := Variant(i, x), Variant(i, y);
    MarksJoin(d, b, c, FieldChange(d), Field(b), Field(c));
    MarksJoin(d, v, w, FieldChange(d), Field(v), Field(w));
    VariantsAgree(i, x, y);
    MarkedWithin(d + FieldChange(d), b + Field(b), c + Field(c), v + Field(v), w + Field(w), 11 * i, 11 * i + 33);
  }

  lemma ChangedVersion(body: Bytes, i: nat, x: nat, y: nat, d: seq<bool>, c: seq<bool>)
    requires |body| == CHECKSUM_OFFSET && body[0] == CIPHER_SEED_VERSION && 1 <= i <= 21
    requires |c| == DATA_BITS && Marks(d, Pack(body, 8), c) && Marks(d, Variant(i, x), Variant(i, y))
    ensures Body(c)[0] == CIPHER_SEED_VERSION
  {
    BodiesAgree(i, x, y);
    MarkedWithin(d, Pack(body, 8), c, Variant(i, x), Variant(i, y), 11 * i, 11 * i + Free(i));
    StillZero(body, Pack(body, 8), c, 11 * i, 11 * i + Free(i));
    FirstByte(c);
  }

  lemma StillZero(body: Bytes, b: seq<bool>, c: seq<bool>, lo: nat, hi: nat)
    requires |body| == CHECKSUM_OFFSET && body[0] == CIPHER_SEED_VERSION && b == Pack(body, 8)
    requires AgreeBut(b, c, lo, hi) && lo >= 8
    ensures |c| >= 8 && forall p :: 0 <= p < 8 ==> !c[p]
  {
    forall p | 0 <= p < 8 ensures p < |b| && !b[p] { VersionBits(body, p); }
  }

  lemma Apart(d: seq<bool>, b: seq<bool>, c: seq<bool>, f: seq<bool>, g: seq<bool>, v: seq<bool>, w: seq<bool>)
    requires Marks(d, b, c) && Marks(d, v, w) && v != w
    ensures b + f != c + g
  {
    var k :| 0 <= k < |v| && v[k] != w[k];
    assert (b + f)[k] == b[k] && (c + g)[k] == c[k];
  }

  /** Every valid phrase has a twin that differs in three neighbouring words only, wherever but at its head. */
  lemma ThreeMissed(list: seq<string>, i: nat, m: seq<string>) returns (n: seq<string>)
    requires WordList(list) && 1 <= i <= 21 && |m| == WORDS && Valid(list, m)
    ensures Pair(list, i, m, n)
  {
    var x, y := Collision(i);
    VariantsDiffer(i, x, y);
    var r := CipherText(list, m);
    AcceptedSealed(r);
    var q := ChangedSeed(r[..CHECKSUM_OFFSET], i, x, y);
    n := Mnemonic(list, q);
    MnemonicThroughSeed(list, m);
    SeedThroughMnemonic(list, q);
    PhrasesAgree(list, r, q, i);
  }

  // ----- At the head of the phrase ----------------------------------------

  lemma HeadStreams(vs: seq<nat>, ws: seq<nat>)
    requires |vs| == |ws| == WORDS && AgreeBut(vs, ws, 0, 3)
    ensures AgreeBut(Stream(vs), Stream(ws), 0, 33)
  {
    forall p | 33 <= p < 8 * SEED_SIZE ensures Stream(vs)[p] == Stream(ws)[p] {
      BitOfStream(vs, p);
      BitOfStream(ws, p);
    }
  }

  lemma HeadBytes(v: seq<bv32>, w: seq<bv32>)
    requires Good(v) && Good(w) && v[0] == w[0] && AgreeBut(v, w, 0, 5)
    ensures v == w
  {
    assert AgreeBut(v, w, 1, 5);
    DataOnly(v, w, 1);
  }

  lemma HeadDecided(vs: seq<nat>, ws: seq<nat>)
    requires |vs| == |ws| == WORDS && AgreeBut(vs, ws, 0, 3) && Accepts(SeedBytes(vs)) && Accepts(SeedBytes(ws))
    ensures SeedBytes(vs) == SeedBytes(ws)
  {
    HeadStreams(vs, ws);
    BytesAgreeBut(vs, ws, 0, 33);
    AcceptedIsGood(vs);
    AcceptedIsGood(ws);
    assert SeedBytes(vs)[0] == SeedBytes(ws)[0];
    HeadBytes(Words(SeedBytes(vs)), Words(SeedBytes(ws)));
    WordsInjective(SeedBytes(vs), SeedBytes(ws));
  }

  /** The version byte takes eight of the bits: what is left lies in four bytes. */
  lemma HeadCaught(list: seq<string>, m: seq<string>, n: seq<string>)
    requires WordList(list) && |m| == |n| == WORDS && Valid(list, m) && Valid(list, n)
    requires forall j :: 3 <= j < WORDS ==> m[j] == n[j]
    ensures m == n
  {
    IndicesAgree(list, m, n, 0, 3);
    HeadDecided(ReverseAll(list, m), ReverseAll(list, n));
    MnemonicThroughSeed(list, m);
    MnemonicThroughSeed(list, n);
  }

  /**
    A change within three neighbouring words of a valid phrase is always caught
    if these are the first three, and otherwise never always.
  */
  lemma ThreeNeighbours(list: seq<string>, i: nat, m: seq<string>)
    requires WordList(list) && i + 3 <= WORDS && |m| == WORDS && Valid(list, m)
    ensures (forall n :: !Pair(list, i, m, n)) <==> i == 0
  {
    if i == 0 {
      forall n ensures !Pair(list, 0, m, n) {
        if Pair(list, 0, m, n) { HeadCaught(list, m, n); }
      }
    } else {
      var n := ThreeMissed(list, i, m);
    }
  }
}
