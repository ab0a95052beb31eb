/** Changed words of an aezeed phrase, and what the checksum says of them. */
module WordErrors {
  import opened Bits
  import opened Crc32c
  import opened Aezeed
  import opened SeedTheorems
  import opened SeedErrors

  // ----- From words to bytes ----------------------------------------------

  ghost predicate AgreeBut<T(!new)>(v: seq<T>, w: seq<T>, lo: int, hi: int)
  {
    |v| == |w| && forall k :: 0 <= k < |v| && !(lo <= k < hi) ==> v[k] == w[k]
  }

  lemma AgreedSlices<T(!new)>(v: seq<T>, w: seq<T>, lo: int, hi: int, i: nat, j: nat)
    requires AgreeBut(v, w, lo, hi) && i <= j <= |v| && (j <= lo || hi <= i)
    ensures v[i..j] == w[i..j]
  {
  }

  lemma WiderWindow<T(!new)>(v: seq<T>, w: seq<T>, lo: int, hi: int, lo': int, hi': int)
    requires AgreeBut(v, w, lo, hi) && lo' <= lo && hi <= hi'
    ensures AgreeBut(v, w, lo', hi')
  {
  }

  function Stream(ws: seq<nat>): (b: seq<bool>)
    requires |ws| == WORDS
    ensures |b| == 8 * SEED_SIZE
  {
    Sizes();
    Pack(ws, WORD_BITS)
  }

  lemma BitOfStream(ws: seq<nat>, p: nat)
    requires |ws| == WORDS && p < 8 * SEED_SIZE
    ensures p / 11 < WORDS && Stream(ws)[p] == BitsOf(ws[p / 11], WORD_BITS)[p % 11]
  {
    Sizes();
    PackBit(ws, WORD_BITS, p);
  }

  /** Lists that agree but for two neighbours, bit by bit. */
  lemma StreamsAgree(vs: seq<nat>, ws: seq<nat>, i: nat)
    requires |vs| == |ws| == WORDS && i + 1 < WORDS && AgreeBut(vs, ws, i, i + 2)
    ensures AgreeBut(Stream(vs), Stream(ws), 11 * i, 11 * i + 22)
  {
    forall p | 0 <= p < 8 * SEED_SIZE && !(11 * i <= p < 11 * i + 22) ensures Stream(vs)[p] == Stream(ws)[p] {
      BitOfStream(vs, p);
      BitOfStream(ws, p);
    }
  }

  lemma ByteOfStream(ws: seq<nat>, p: nat)
    requires |ws| == WORDS && p < SEED_SIZE
    ensures Words(SeedBytes(ws))[p] == Vec8(Stream(ws)[8 * p..8 * p + 8])
  {
    Sizes();
    UnpackAt(Stream(ws), 8, SEED_SIZE, p);
    BitsOfValue(Stream(ws)[8 * p..8 * p + 8]);
  }

  lemma BytesAgreeBut(vs: seq<nat>, ws: seq<nat>, lo: nat, hi: nat)
    requires |vs| == |ws| == WORDS && AgreeBut(Stream(vs), Stream(ws), lo, hi)
    ensures AgreeBut(Words(SeedBytes(vs)), Words(SeedBytes(ws)), lo / 8, (hi + 7) / 8)
  {
    forall p | 0 <= p < SEED_SIZE && !(lo / 8 <= p < (hi + 7) / 8)
      ensures Words(SeedBytes(vs))[p] == Words(SeedBytes(ws))[p]
    {
      ByteOfStream(vs, p);
      ByteOfStream(ws, p);
      AgreedSlices(Stream(vs), Stream(ws), lo, hi, 8 * p, 8 * p + 8);
    }
  }

  // ----- Bytes that agree in some of their bits ---------------------------

  lemma TopFour(a: seq<bool>, b: seq<bool>)
    requires |a| == |b| == 8 && a[0] == b[0] && a[1] == b[1] && a[2] == b[2] && a[3] == b[3]
    ensures (Vec8(a) ^ Vec8(b)) & 0xF0 == 0
  {
  }

  lemma TopSeven(a: seq<bool>, b: seq<bool>)
    requires |a| == |b| == 8 && a[0] == b[0] && a[1] == b[1] && a[2] == b[2] && a[3] == b[3]
    requires a[4] == b[4] && a[5] == b[5] && a[6] == b[6]
    ensures (Vec8(a) ^ Vec8(b)) & 0xFE == 0
  {
  }

  lemma LowSix(a: seq<bool>, b: seq<bool>)
    requires |a| == |b| == 8 && a[2] == b[2] && a[3] == b[3]
    requires a[4] == b[4] && a[5] == b[5] && a[6] == b[6] && a[7] == b[7]
    ensures (Vec8(a) ^ Vec8(b)) & 0x3F == 0
  {
  }

  lemma LowThree(a: seq<bool>, b: seq<bool>)
    requires |a| == |b| == 8 && a[5] == b[5] && a[6] == b[6] && a[7] == b[7]
    ensures (Vec8(a) ^ Vec8(b)) & 0x07 == 0
  {
  }

  // ----- Two words, by where they stand -----------------------------------

  /** Bytes that pass the checksum test. */
  ghost predicate Good(w: seq<bv32>) { |w| == SEED_SIZE && AllBytes(w) && Checked(w) }

  lemma InData(v: seq<bv32>, w: seq<bv32>, i: nat)
    requires Good(v) && Good(w) && i <= 19 && AgreeBut(v, w, 11 * i / 8, (11 * i + 29) / 8)
    ensures v == w
  {
    var lo := if i == 19 then 25 else 11 * i / 8;
    WiderWindow(v, w, 11 * i / 8, (11 * i + 29) / 8, lo, lo + 4);
    DataOnly(v, w, lo);
  }

  lemma DataOnly(v: seq<bv32>, w: seq<bv32>, lo: nat)
    requires Good(v) && Good(w) && lo <= 25 && AgreeBut(v, w, lo, lo + 4)
    ensures v == w
  {
    Halves(v, w, lo, lo + 4);
    DataWindow(v, w, lo);
  }

  lemma Halves<T(!new)>(v: seq<T>, w: seq<T>, lo: nat, hi: nat)
    requires AgreeBut(v, w, lo, hi) && lo <= hi <= |v|
    ensures v[..lo] == w[..lo] && v[hi..] == w[hi..]
  {
  }

  lemma AcrossTwelve(v: seq<bv32>, w: seq<bv32>)
    requires Good(v) && Good(w) && AgreeBut(v, w, 27, 31)
    requires (v[27] ^ w[27]) & 0xF0 == 0 && (v[30] ^ w[30]) & 0x3F == 0
    ensures v == w
  {
    Halves(v, w, 27, 31);
    LastTwo(v, w);
    JoinLow22(v[29], v[30], v[31], v[32], w[29], w[30]);
    TwelveAndTen(v, w);
  }

  lemma LastTwo<T(!new)>(v: seq<T>, w: seq<T>)
    requires AgreeBut(v, w, 27, 31) && |v| == SEED_SIZE
    ensures v[31] == w[31] && v[32] == w[32]
  {
  }

  lemma AcrossOne(v: seq<bv32>, w: seq<bv32>)
    requires Good(v) && Good(w) && AgreeBut(v, w, 28, 32)
    requires (v[28] ^ w[28]) & 0xFE == 0 && (v[31] ^ w[31]) & 0x07 == 0
    ensures v == w
  {
    Halves(v, w, 28, 32);
    assert v[32] == w[32];
    JoinLow11(v[29], v[30], v[31], v[32], w[29], w[30], w[31]);
    OneAndTwentyOne(v, w);
  }

  lemma InChecksum(v: seq<bv32>, w: seq<bv32>)
    requires Good(v) && Good(w) && AgreeBut(v, w, 30, 33)
    ensures v == w
  {
    AgreedSlices(v, w, 30, 33, 0, 29);
    SameData(v, w);
  }

  // ----- The bits that decide which case it is ----------------------------

  lemma TwelveStays(vs: seq<nat>, ws: seq<nat>)
    requires |vs| == |ws| == WORDS && AgreeBut(Stream(vs), Stream(ws), 220, 242)
    ensures (Words(SeedBytes(vs))[27] ^ Words(SeedBytes(ws))[27]) & 0xF0 == 0
    ensures (Words(SeedBytes(vs))[30] ^ Words(SeedBytes(ws))[30]) & 0x3F == 0
  {
    FourStay(vs, ws, 220, 242, 27);
    SixStay(vs, ws, 220, 242, 30);
  }

  lemma OneStays(vs: seq<nat>, ws: seq<nat>)
    requires |vs| == |ws| == WORDS && AgreeBut(Stream(vs), Stream(ws), 231, 253)
    ensures (Words(SeedBytes(vs))[28] ^ Words(SeedBytes(ws))[28]) & 0xFE == 0
    ensures (Words(SeedBytes(vs))[31] ^ Words(SeedBytes(ws))[31]) & 0x07 == 0
  {
    SevenStay(vs, ws, 231, 253, 28);
    ThreeStay(vs, ws, 231, 253, 31);
  }

  // The bits of a byte that lie outside a window are untouched.

  lemma FourStay(vs: seq<nat>, ws: seq<nat>, lo: nat, hi: nat, p: nat)
    requires |vs| == |ws| == WORDS && AgreeBut(Stream(vs), Stream(ws), lo, hi) && p < SEED_SIZE && lo >= 8 * p + 4
    ensures (Words(SeedBytes(vs))[p] ^ Words(SeedBytes(ws))[p]) & 0xF0 == 0
  {
    var a, b := ByteBits(vs, ws, lo, hi, p);
    TopFour(a, b);
  }

  lemma SevenStay(vs: seq<nat>, ws: seq<nat>, lo: nat, hi: nat, p: nat)
    requires |vs| == |ws| == WORDS && AgreeBut(Stream(vs), Stream(ws), lo, hi) && p < SEED_SIZE && lo >= 8 * p + 7
    ensures (Words(SeedBytes(vs))[p] ^ Words(SeedBytes(ws))[p]) & 0xFE == 0
  {
    var a, b := ByteBits(vs, ws, lo, hi, p);
    TopSeven(a, b);
  }

  lemma SixStay(vs: seq<nat>, ws: seq<nat>, lo: nat, hi: nat, p: nat)
    requires |vs| == |ws| == WORDS && AgreeBut(Stream(vs), Stream(ws), lo, hi) && p < SEED_SIZE && hi <= 8 * p + 2
    ensures (Words(SeedBytes(vs))[p] ^ Words(SeedBytes(ws))[p]) & 0x3F == 0
  {
    var a, b := ByteBits(vs, ws, lo, hi, p);
    LowSix(a, b);
  }

  lemma ThreeStay(vs: seq<nat>, ws: seq<nat>, lo: nat, hi: nat, p: nat)
    requires |vs| == |ws| == WORDS && AgreeBut(Stream(vs), Stream(ws), lo, hi) && p < SEED_SIZE && hi <= 8 * p + 5
    ensures (Words(SeedBytes(vs))[p] ^ Words(SeedBytes(ws))[p]) & 0x07 == 0
  {
    var a, b := ByteBits(vs, ws, lo, hi, p);
    LowThree(a, b);
  }

  lemma ByteBits(vs: seq<nat>, ws: seq<nat>, lo: nat, hi: nat, p: nat) returns (a: seq<bool>, b: seq<bool>)
    requires |vs| == |ws| == WORDS && AgreeBut(Stream(vs), Stream(ws), lo, hi) && p < SEED_SIZE
    ensures |a| == |b| == 8 && Words(SeedBytes(vs))[p] == Vec8(a) && Words(SeedBytes(ws))[p] == Vec8(b)
    ensures forall k :: 0 <= k < 8 && !(lo <= 8 * p + k < hi) ==> a[k] == b[k]
  {
    ByteOfStream(vs, p);
    ByteOfStream(ws, p);
    a, b := Stream(vs)[8 * p..8 * p + 8], Stream(ws)[8 * p..8 * p + 8];
    SlicedBits(Stream(vs), Stream(ws), lo, hi, 8 * p, a, b);
  }

  lemma SlicedBits(s: seq<bool>, t: seq<bool>, lo: nat, hi: nat, i: nat, a: seq<bool>, b: seq<bool>)
    requires AgreeBut(s, t, lo, hi) && i + 8 <= |s| && a == s[i..i + 8] && b == t[i..i + 8]
    ensures forall k :: 0 <= k < 8 && !(lo <= i + k < hi) ==> a[k] == b[k]
  {
    assert forall k :: 0 <= k < 8 ==> a[k] == s[i + k] && b[k] == t[i + k];
  }

  /** What is known of the bytes of two lists that agree but for two neighbours. */
  ghost predicate Edges(v: seq<bv32>, w: seq<bv32>, i: nat)
  {
    && |v| == SEED_SIZE && AgreeBut(v, w, 11 * i / 8, (11 * i + 29) / 8)
    && (i == 20 ==> (v[27] ^ w[27]) & 0xF0 == 0 && (v[30] ^ w[30]) & 0x3F == 0)
    && (i == 21 ==> (v[28] ^ w[28]) & 0xFE == 0 && (v[31] ^ w[31]) & 0x07 == 0)
  }

  lemma GoodDecided(v: seq<bv32>, w: seq<bv32>, i: nat)
    requires Good(v) && Good(w) && i + 1 < WORDS && Edges(v, w, i)
    ensures v == w
  {
    if i <= 19 {
      InData(v, w, i);
    } else if i == 20 {
      AcrossTwelve(v, w);
    } else if i == 21 {
      AcrossOne(v, w);
    } else {
      InChecksum(v, w);
    }
  }

  lemma EdgesStay(vs: seq<nat>, ws: seq<nat>, i: nat)
    requires |vs| == |ws| == WORDS && i + 1 < WORDS && AgreeBut(Stream(vs), Stream(ws), 11 * i, 11 * i + 22)
    ensures Edges(Words(SeedBytes(vs)), Words(SeedBytes(ws)), i)
  {
    BytesAgreeBut(vs, ws, 11 * i, 11 * i + 22);
    if i == 20 { TwelveStays(vs, ws); }
    if i == 21 { OneStays(vs, ws); }
  }

  lemma SameBytes(vs: seq<nat>, ws: seq<nat>, i: nat)
    requires |vs| == |ws| == WORDS && i + 1 < WORDS && AgreeBut(Stream(vs), Stream(ws), 11 * i, 11 * i + 22)
    requires Good(Words(SeedBytes(vs))) && Good(Words(SeedBytes(ws)))
    ensures Words(SeedBytes(vs)) == Words(SeedBytes(ws))
  {
    EdgesStay(vs, ws, i);
    GoodDecided(Words(SeedBytes(vs)), Words(SeedBytes(ws)), i);
  }

  lemma AcceptedIsGood(ws: seq<nat>)
    requires |ws| == WORDS && Accepts(SeedBytes(ws))
    ensures Good(Words(SeedBytes(ws)))
  {
    AcceptedIsChecked(SeedBytes(ws));
  }

  /** Two accepted index lists that agree but for two neighbours are one. */
  lemma NeighboursDecided(vs: seq<nat>, ws: seq<nat>, i: nat)
    requires |vs| == |ws| == WORDS && i + 1 < WORDS && AgreeBut(vs, ws, i, i + 2)
    requires Accepts(SeedBytes(vs)) && Accepts(SeedBytes(ws))
    ensures SeedBytes(vs) == SeedBytes(ws)
  {
    StreamsAgree(vs, ws, i);
    AcceptedIsGood(vs);
    AcceptedIsGood(ws);
    SameBytes(vs, ws, i);
    WordsInjective(SeedBytes(vs), SeedBytes(ws));
  }

  // ----- Phrases ----------------------------------------------------------

  /** The version and checksum tests pass for the phrase. */
  predicate Valid(list: seq<string>, m: seq<string>)
    requires |m| == WORDS
  {
    FirstUnknown(list, m).None? && Accepts(CipherText(list, m))
  }

  /**
    A phrase that differs from a valid one in some of two neighbouring words,
    and has only words of the list, is rejected, whatever the passphrase.
  */
  lemma NeighboursDetected(list: seq<string>, x: Suite, m: seq<string>, n: seq<string>, i: nat, pass: Bytes)
    requires WordList(list) && Inverse(x) && |m| == |n| == WORDS
    requires Valid(list, m) && FirstUnknown(list, n).None?
    requires i + 1 < WORDS && AgreeBut(m, n, i, i + 2) && m != n
    ensures ToCipherSeed(list, x, n, pass) in {Err(IncorrectVersion), Err(IncorrectMnemonic)}
  {
    if Accepts(CipherText(list, n)) {
      PhrasesDecided(list, m, n, i);
    }
    AcceptsMeans(x, CipherText(list, n), Passphrase(pass));
  }

  lemma PhrasesDecided(list: seq<string>, m: seq<string>, n: seq<string>, i: nat)
    requires WordList(list) && |m| == |n| == WORDS && Valid(list, m) && Valid(list, n)
    requires i + 1 < WORDS && AgreeBut(m, n, i, i + 2)
    ensures m == n
  {
    IndicesAgree(list, m, n, i, i + 2);
    NeighboursDecided(ReverseAll(list, m), ReverseAll(list, n), i);
    MnemonicThroughSeed(list, m);
    MnemonicThroughSeed(list, n);
  }

  lemma IndicesAgree(list: seq<string>, m: seq<string>, n: seq<string>, lo: int, hi: int)
    requires AgreeBut(m, n, lo, hi)
    ensures AgreeBut(ReverseAll(list, m), ReverseAll(list, n), lo, hi)
  {
  }

  lemma KnownUpdate(list: seq<string>, m: seq<string>, i: nat, word: string)
    requires FirstUnknown(list, m).None? && i < |m| && word in list
    ensures FirstUnknown(list, m[i := word]).None?
  {
  }

  lemma ReplaceAgrees<T(!new)>(m: seq<T>, i: nat, j: nat, word: T)
    requires i < |m| && j <= i < j + 2 && m[i] != word
    ensures AgreeBut(m, m[i := word], j, j + 2) && m != m[i := word]
  {
    assert m[i := word][i] == word;
  }

  /** One word replaced by another word of the list. */
  lemma ReplacedWordDetected(list: seq<string>, x: Suite, m: seq<string>, i: nat, word: string, pass: Bytes)
    requires WordList(list) && Inverse(x) && |m| == WORDS && Valid(list, m)
    requires i < WORDS && word in list && word != m[i]
    ensures ToCipherSeed(list, x, m[i := word], pass) in {Err(IncorrectVersion), Err(IncorrectMnemonic)}
  {
    var j := if i + 1 < WORDS then i else i - 1;
    KnownUpdate(list, m, i, word);
    ReplaceAgrees(m, i, j, word);
    NeighboursDetected(list, x, m, m[i := word], j, pass);
  }

  lemma ExchangeAgrees<T(!new)>(m: seq<T>, i: nat)
    requires i + 1 < |m| && m[i] != m[i + 1]
    ensures AgreeBut(m, m[i := m[i + 1]][i + 1 := m[i]], i, i + 2) && m != m[i := m[i + 1]][i + 1 := m[i]]
  {
    assert m[i := m[i + 1]][i + 1 := m[i]][i] == m[i + 1];
  }

  /** Two different neighbouring words exchanged. */
  lemma ExchangedWordsDetected(list: seq<string>, x: Suite, m: seq<string>, i: nat, pass: Bytes)
    requires WordList(list) && Inverse(x) && |m| == WORDS && Valid(list, m)
    requires i + 1 < WORDS && m[i] != m[i + 1]
    ensures ToCipherSeed(list, x, m[i := m[i + 1]][i + 1 := m[i]], pass)
         in {Err(IncorrectVersion), Err(IncorrectMnemonic)}
  {
    KnownUpdate(list, m, i, m[i + 1]);
    KnownUpdate(list, m[i := m[i + 1]], i + 1, m[i]);
    ExchangeAgrees(m, i);
    NeighboursDetected(list, x, m, m[i := m[i + 1]][i + 1 := m[i]], i, pass);
  }
}
