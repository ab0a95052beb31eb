/** The checksum of Crc32c agrees with the published check value of CRC32C. */
module CrcCheckValue {
  import opened Bits
  import opened Folds
  import opened Crc32c

  lemma BitsNext(v: nat, n: nat)
    ensures BitsOf(v, n + 1) == BitsOf(v / 2, n) + [v % 2 == 1]
  {
  }

  lemma Halvings(v: nat)
    ensures v / 2 / 2 == v / 4 && v / 4 / 2 == v / 8 && v / 8 / 2 == v / 16
  {
  }

  lemma FourMore(s: seq<bool>, a: bool, b: bool, c: bool, d: bool)
    ensures s + [a] + [b] + [c] + [d] == s + [a, b, c, d]
  {
  }

  lemma LowFour(v: nat, n: nat)
    ensures BitsOf(v, n + 4) == BitsOf(v / 16, n) + [v / 8 % 2 == 1, v / 4 % 2 == 1, v / 2 % 2 == 1, v % 2 == 1]
  {
    Halvings(v);
    BitsNext(v, n + 3);
    BitsNext(v / 2, n + 2);
    BitsNext(v / 4, n + 1);
    BitsNext(v / 8, n);
    FourMore(BitsOf(v / 16, n), v / 8 % 2 == 1, v / 4 % 2 == 1, v / 2 % 2 == 1, v % 2 == 1);
  }

  lemma DigitHalves(d: nat)
    requires d < 10
    ensures (48 + d) / 16 == 3 && (48 + d) % 2 == d % 2
    ensures (48 + d) / 8 % 2 == d / 8 % 2 && (48 + d) / 4 % 2 == d / 4 % 2 && (48 + d) / 2 % 2 == d / 2 % 2
  {
  }

  /** The bits of the ASCII digit `d`. */
  lemma DigitBits(d: nat, n: nat)
    requires d < 10 && n == 0
    ensures BitsOf(48 + d, n + 4 + 4)
         == [false, false, true, true, d / 8 % 2 == 1, d / 4 % 2 == 1, d / 2 % 2 == 1, d % 2 == 1]
  {
    DigitHalves(d);
    LowFour(48 + d, n + 4);
    LowFour(3, n);
  }

  lemma DigitWord(d: nat, b: seq<bool>)
    requires d < 10 && b == [false, false, true, true, d / 8 % 2 == 1, d / 4 % 2 == 1, d / 2 % 2 == 1, d % 2 == 1]
    ensures Vec8(b) == [0x30, 0x31, 0x32, 0x33, 0x34, 0x35, 0x36, 0x37, 0x38, 0x39][d]
  {
  }

  lemma VecOfDigit(d: nat)
    requires d < 10
    ensures Vec(48 + d) == [0x30, 0x31, 0x32, 0x33, 0x34, 0x35, 0x36, 0x37, 0x38, 0x39][d]
  {
    DigitBits(d, 0);
    DigitWord(d, BitsOf(48 + d, 8));
  }

  lemma DigitUpdates()
    ensures Update(0xFFFF_FFFF, 0x31) == 0x6F0A_661C
    ensures Update(0x6F0A_661C, 0x32) == 0x8CAA_3B9F
    ensures Update(0x8CAA_3B9F, 0x33) == 0xEF84_D04D
    ensures Update(0xEF84_D04D, 0x34) == 0x09C5_0B11
    ensures Update(0x09C5_0B11, 0x35) == 0xE72E_DCCA
    ensures Update(0xE72E_DCCA, 0x36) == 0xBECA_8E79
    ensures Update(0xBECA_8E79, 0x37) == 0xEDBD_6815
    ensures Update(0xEDBD_6815, 0x38) == 0x9F78_7F65
    ensures Update(0x9F78_7F65, 0x39) == 0x1CF9_6D7C
  {
  }

  lemma RegisterOfThree(s: bv32, a: bv32, b: bv32, c: bv32)
    ensures Register(s, [a, b, c]) == Update(Update(Update(s, a), b), c)
  {
    RegisterStep(s, a, [b, c]);
    RegisterStep(Update(s, a), b, [c]);
    RegisterOne(Update(Update(s, a), b), c);
    assert [a, b, c] == [a] + [b, c] && [b, c] == [b] + [c];
  }

  lemma DigitRegister(w: seq<bv32>)
    requires w == [0x31, 0x32, 0x33] + [0x34, 0x35, 0x36] + [0x37, 0x38, 0x39]
    ensures Register(0xFFFF_FFFF, w) == 0x1CF9_6D7C
  {
    DigitUpdates();
    var a: seq<bv32>, b: seq<bv32>, c: seq<bv32> := [0x31, 0x32, 0x33], [0x34, 0x35, 0x36], [0x37, 0x38, 0x39];
    FoldConcat(Update, 0xFFFF_FFFF, a + b, c);
    FoldConcat(Update, 0xFFFF_FFFF, a, b);
    RegisterOfThree(0xFFFF_FFFF, 0x31, 0x32, 0x33);
    RegisterOfThree(0xEF84_D04D, 0x34, 0x35, 0x36);
    RegisterOfThree(0xBECA_8E79, 0x37, 0x38, 0x39);
  }

  lemma NineWords(w: seq<bv32>)
    requires |w| == 9
    requires forall i :: 0 <= i < 9 ==> w[i] == [0x30, 0x31, 0x32, 0x33, 0x34, 0x35, 0x36, 0x37, 0x38, 0x39][i + 1]
    ensures w == [0x31, 0x32, 0x33] + [0x34, 0x35, 0x36] + [0x37, 0x38, 0x39]
  {
  }

  /** The checksum of the digits 1 to 9 in ASCII is the published check value of CRC32C. */
  lemma CheckValue(digits: seq<byte>)
    requires |digits| == 9 && forall i :: 0 <= i < 9 ==> digits[i] == 49 + i
    ensures Checksum(digits) == 0xE306_9283
  {
    var w := Words(digits);
    forall i | 0 <= i < 9 ensures w[i] == [0x30, 0x31, 0x32, 0x33, 0x34, 0x35, 0x36, 0x37, 0x38, 0x39][i + 1] {
      assert digits[i] == 48 + (i + 1);
      VecOfDigit(i + 1);
    }
    NineWords(w);
    DigitRegister(w);
  }
}
