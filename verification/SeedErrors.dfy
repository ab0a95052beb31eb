/**
  What the checksum of an aezeed phrase catches: no two valid phrases differ in
  one word, or in two neighbouring ones, wherever these are.
*/
module SeedErrors {
  import opened Folds
  import opened Crc32c
  import opened Aezeed
  import opened SeedTheorems

  const START: bv32 := 0xFFFF_FFFF

  /** The version and checksum tests of `decipherCipherSeed`. */
  predicate Accepts(seed: Bytes)
    requires |seed| == SEED_SIZE
  {
    seed[0] == CIPHER_SEED_VERSION
    && Checksum(seed[..CHECKSUM_OFFSET]) == Uint32(seed[CHECKSUM_OFFSET..])
  }

  lemma AcceptsMeans(x: Suite, seed: Bytes, pass: Bytes)
    requires Inverse(x) && |seed| == SEED_SIZE
    ensures Accepts(seed) <==>
              Decipher(x, seed, pass) != Err(IncorrectVersion) && Decipher(x, seed, pass) != Err(IncorrectMnemonic)
  {
  }

  // ----- The checksum test over the bytes as words -------------------------

  function Tail(w: seq<bv32>): bv32
    requires |w| == SEED_SIZE
  {
    Join(w[29], w[30], w[31], w[32])
  }

  predicate Checked(w: seq<bv32>)
    requires |w| == SEED_SIZE
  {
    Register(START, w[..29]) == Flip(Tail(w))
  }

  function Flip(x: bv32): bv32 { x ^ START }

  lemma FlipBack(x: bv32, y: bv32)
    requires x ^ START == y
    ensures x == Flip(y)
  {
  }

  lemma {:induction false} WordsSlice(data: Bytes, i: nat, j: nat)
    requires i <= j <= |data|
    ensures Words(data[i..j]) == Words(data)[i..j]
  {
  }

  lemma AcceptedIsChecked(seed: Bytes)
    requires |seed| == SEED_SIZE && Accepts(seed)
    ensures Checked(Words(seed)) && AllBytes(Words(seed))
  {
    WordsSlice(seed, 0, 29);
    WordsSlice(seed, 29, 33);
    WordsAreBytes(seed);
    assert seed[..29] == seed[0..29] && seed[29..] == seed[29..33];
    assert Words(seed)[..29] == Words(seed)[0..29];
    FlipBack(Register(START, Words(seed)[..29]), Uint32(seed[29..]));
  }

  lemma SameTail(v: seq<bv32>, w: seq<bv32>)
    requires |v| == |w| == SEED_SIZE && AllBytes(v) && AllBytes(w) && Tail(v) == Tail(w)
    ensures v[29..] == w[29..]
  {
    JoinInjective(Tail(v), v[29], v[30], v[31], v[32], w[29], w[30], w[31], w[32]);
    FourEqual(v[29..], w[29..]);
  }

  lemma FourEqual<T>(v: seq<T>, w: seq<T>)
    requires |v| == |w| == 4 && v[0] == w[0] && v[1] == w[1] && v[2] == w[2] && v[3] == w[3]
    ensures v == w
  {
  }

  lemma Reassemble<T>(v: seq<T>, w: seq<T>, i: nat)
    requires |v| == |w| && i <= |v| && v[..i] == w[..i] && v[i..] == w[i..]
    ensures v == w
  {
    assert v == v[..i] + v[i..] && w == w[..i] + w[i..];
  }

  /** Equal data, equal checksum fields. */
  lemma SameData(v: seq<bv32>, w: seq<bv32>)
    requires |v| == |w| == SEED_SIZE && AllBytes(v) && AllBytes(w) && Checked(v) && Checked(w)
    requires v[..29] == w[..29]
    ensures v == w
  {
    SameTail(v, w);
    Reassemble(v, w, 29);
  }

  lemma SameRegister(v: seq<bv32>, w: seq<bv32>)
    requires |v| == |w| == SEED_SIZE && Checked(v) && Checked(w) && Tail(v) == Tail(w)
    ensures Register(START, v[..29]) == Register(START, w[..29])
  {
  }

  lemma WindowOfBytes(w: seq<bv32>, lo: nat)
    requires AllBytes(w) && lo + 4 <= |w|
    ensures AllBytes(w[lo..lo + 4])
  {
  }

  lemma OutsideWindow<T>(v: seq<T>, w: seq<T>, lo: nat)
    requires |v| == |w| == SEED_SIZE && lo + 4 <= 29 && v[..lo] == w[..lo] && v[lo + 4..] == w[lo + 4..]
    ensures v[..29][..lo] == w[..29][..lo] && v[..29][lo + 4..] == w[..29][lo + 4..]
    ensures v[29] == w[29] && v[30] == w[30] && v[31] == w[31] && v[32] == w[32]
    ensures v[..29][lo..lo + 4] == v[lo..lo + 4] && w[..29][lo..lo + 4] == w[lo..lo + 4]
    ensures v[lo..lo + 4] == w[lo..lo + 4] ==> v == w
  {
    SuffixAt(v, w, lo + 4, 29);
    SuffixAt(v, w, lo + 4, 30);
    SuffixAt(v, w, lo + 4, 31);
    SuffixAt(v, w, lo + 4, 32);
    SlicesOfPrefix(v, lo);
    SlicesOfPrefix(w, lo);
    if v[lo..lo + 4] == w[lo..lo + 4] { ThreeParts(v, w, lo, lo + 4); }
  }

  lemma SuffixAt<T>(v: seq<T>, w: seq<T>, i: nat, k: nat)
    requires |v| == |w| && i <= k < |v| && v[i..] == w[i..]
    ensures v[k] == w[k]
  {
    assert v[k] == v[i..][k - i] && w[k] == w[i..][k - i];
  }

  lemma SlicesOfPrefix<T>(v: seq<T>, lo: nat)
    requires |v| == SEED_SIZE && lo + 4 <= 29
    ensures v[..29][..lo] == v[..lo] && v[..29][lo..lo + 4] == v[lo..lo + 4]
    ensures v[..29][lo + 4..] == v[lo + 4..][..25 - lo]
  {
  }

  lemma ThreeParts<T>(v: seq<T>, w: seq<T>, i: nat, j: nat)
    requires |v| == |w| && i <= j <= |v| && v[..i] == w[..i] && v[i..j] == w[i..j] && v[j..] == w[j..]
    ensures v == w
  {
    assert v == v[..i] + v[i..j] + v[j..] && w == w[..i] + w[i..j] + w[j..];
  }

  /** Changes within four bytes of the data. */
  lemma DataWindow(v: seq<bv32>, w: seq<bv32>, lo: nat)
    requires |v| == |w| == SEED_SIZE && AllBytes(v) && AllBytes(w) && Checked(v) && Checked(w)
    requires lo + 4 <= 29 && v[..lo] == w[..lo] && v[lo + 4..] == w[lo + 4..]
    ensures v == w
  {
    OutsideWindow(v, w, lo);
    SameRegister(v, w);
    UpdateKeepsApart();
    WindowDecides(Update, START, v[..29], w[..29], lo, lo + 4);
    WindowOfBytes(v, lo);
    WindowOfBytes(w, lo);
    WindowInjective(Register(START, v[..29][..lo]), v[lo..lo + 4], w[lo..lo + 4]);
  }

  lemma JoinLow22(a: bv32, b: bv32, c: bv32, d: bv32, a': bv32, b': bv32)
    requires (b ^ b') & 0x3F == 0
    ensures (Join(a, b, c, d) ^ Join(a', b', c, d)) & 0x003F_FFFF == 0
  {
  }

  lemma JoinLow11(a: bv32, b: bv32, c: bv32, d: bv32, a': bv32, b': bv32, c': bv32)
    requires IsByte(c) && IsByte(c') && (c ^ c') & 0x07 == 0
    ensures (Join(a, b, c, d) ^ Join(a', b', c', d)) & 0x7FF == 0
  {
  }

  lemma MaskedThrough(u: bv32, v: bv32, x: bv32, y: bv32, mask: bv32)
    requires u == Flip(x) && v == Flip(y) && (x ^ y) & mask == 0
    ensures (u ^ v) & mask == 0
  {
  }

  lemma RegisterOf29(w: seq<bv32>)
    requires |w| == SEED_SIZE
    ensures Register(START, w[..29]) == Update(Update(Register(START, w[..27]), w[27]), w[28])
  {
    var last := [w[27], w[28]];
    assert w[..29] == w[..27] + last;
    FoldConcat(Update, START, w[..27], last);
    RegisterOfTwo(Register(START, w[..27]), last);
  }

  lemma RegisterOf28(w: seq<bv32>)
    requires |w| == SEED_SIZE
    ensures Register(START, w[..29]) == Update(Register(START, w[..28]), w[28])
  {
    assert w[..29] == w[..28] + [w[28]];
    FoldConcat(Update, START, w[..28], [w[28]]);
    RegisterOne(Register(START, w[..28]), w[28]);
  }

  lemma TwelveSeen(s: bv32, a: bv32, b: bv32, c: bv32, d: bv32, u: bv32, v: bv32, x: bv32, y: bv32)
    requires IsByte(a) && IsByte(b) && IsByte(c) && IsByte(d) && (a ^ c) & 0xF0 == 0
    requires u == Update(Update(s, a), b) && v == Update(Update(s, c), d)
    requires u == Flip(x) && v == Flip(y) && (x ^ y) & 0x003F_FFFF == 0
    ensures a == c && b == d
  {
    MaskedThrough(u, v, x, y, 0x003F_FFFF);
    LastTwelve(s, a, b, c, d, u, v);
  }

  lemma OneSeen(s: bv32, a: bv32, b: bv32, u: bv32, v: bv32, x: bv32, y: bv32)
    requires IsByte(a) && IsByte(b) && (a ^ b) & 0xFE == 0
    requires u == Update(s, a) && v == Update(s, b)
    requires u == Flip(x) && v == Flip(y) && (x ^ y) & 0x7FF == 0
    ensures a == b
  {
    MaskedThrough(u, v, x, y, 0x7FF);
    LastBit(s, a, b);
  }

  lemma PrefixAndTwo<T>(v: seq<T>, w: seq<T>)
    requires |v| == |w| == SEED_SIZE && v[..27] == w[..27] && v[27] == w[27] && v[28] == w[28]
    ensures v[..29] == w[..29]
  {
    assert v[..29] == v[..27] + [v[27], v[28]] && w[..29] == w[..27] + [w[27], w[28]];
  }

  lemma PrefixAndOne<T>(v: seq<T>, w: seq<T>)
    requires |v| == |w| == SEED_SIZE && v[..28] == w[..28] && v[28] == w[28]
    ensures v[..29] == w[..29]
  {
    assert v[..29] == v[..28] + [v[28]] && w[..29] == w[..28] + [w[28]];
  }

  /** Changes in the last twelve bits of the data and the first ten of the checksum. */
  lemma TwelveAndTen(v: seq<bv32>, w: seq<bv32>)
    requires |v| == |w| == SEED_SIZE && AllBytes(v) && AllBytes(w) && Checked(v) && Checked(w)
    requires v[..27] == w[..27] && (v[27] ^ w[27]) & 0xF0 == 0
    requires (Tail(v) ^ Tail(w)) & 0x003F_FFFF == 0
    ensures v == w
  {
    RegisterOf29(v);
    RegisterOf29(w);
    TwelveSeen(Register(START, v[..27]), v[27], v[28], w[27], w[28],
               Register(START, v[..29]), Register(START, w[..29]), Tail(v), Tail(w));
    PrefixAndTwo(v, w);
    SameData(v, w);
  }

  /** Changes in the last bit of the data and the first 21 of the checksum. */
  lemma OneAndTwentyOne(v: seq<bv32>, w: seq<bv32>)
    requires |v| == |w| == SEED_SIZE && AllBytes(v) && AllBytes(w) && Checked(v) && Checked(w)
    requires v[..28] == w[..28] && (v[28] ^ w[28]) & 0xFE == 0
    requires (Tail(v) ^ Tail(w)) & 0x7FF == 0
    ensures v == w
  {
    RegisterOf28(v);
    RegisterOf28(w);
    OneSeen(Register(START, v[..28]), v[28], w[28],
            Register(START, v[..29]), Register(START, w[..29]), Tail(v), Tail(w));
    PrefixAndOne(v, w);
    SameData(v, w);
  }
}
