/** The loops of aezeed/cipherseed.go, each proved against the function it computes. */
module SeedLoops {
  import opened Options
  import opened Bits
  import opened Crc32c
  import opened Aezeed

  lemma BitOfStream(stream: Bytes, p: nat)
    requires p < 8 * |stream|
    ensures p / 8 < |stream|
    ensures stream[p / 8] / Pow2(7 - p % 8) % 2 == if Pack(stream, 8)[p] then 1 else 0
  {
    PackBit(stream, 8, p);
    BitAt(stream[p / 8], 8, p % 8);
  }

  lemma ExtendValue(b: seq<bool>, lo: nat, hi: nat)
    requires lo <= hi < |b|
    ensures ValueOf(b[lo..hi + 1]) == 2 * ValueOf(b[lo..hi]) + if b[hi] then 1 else 0
  {
    assert b[lo..hi + 1][..hi - lo] == b[lo..hi];
  }

  /** The bit stream reader: bits come out of each byte from the top. */
  class BitReader {
    const stream: Bytes
    var pos: nat

    constructor (stream: Bytes)
      ensures this.stream == stream && pos == 0
    {
      this.stream := stream;
      pos := 0;
    }

    /** None is io.EOF. */
    method ReadBits(n: nat) returns (r: Option<nat>)
      modifies this
      ensures r.Some? <==> old(pos) + n <= 8 * |stream|
      ensures r.Some? ==>
                pos == old(pos) + n && r.value == ValueOf(Pack(stream, 8)[old(pos)..old(pos) + n])
    {
      var v, i := 0, 0;
      while i < n
        invariant 0 <= i <= n && pos == old(pos) + i
        invariant i > 0 ==> pos <= 8 * |stream|
        invariant pos <= 8 * |stream| ==> v == ValueOf(Pack(stream, 8)[old(pos)..pos])
      {
        if pos >= 8 * |stream| { return None; }
        BitOfStream(stream, pos);
        ExtendValue(Pack(stream, 8), old(pos), pos);
        v := 2 * v + stream[pos / 8] / Pow2(7 - pos % 8) % 2;
        pos := pos + 1;
        i := i + 1;
      }
      if pos > 8 * |stream| { return None; }
      return Some(v);
    }
  }

  /** The bit stream writer. */
  class BitWriter {
    var bits: seq<bool>

    constructor ()
      ensures bits == []
    {
      bits := [];
    }

    method WriteBits(v: nat, n: nat)
      modifies this
      ensures bits == old(bits) + BitsOf(v, n)
    {
      var i := 0;
      while i < n
        invariant 0 <= i <= n
        invariant bits == old(bits) + BitsOf(v, n)[..i]
      {
        BitAt(v, n, i);
        bits := bits + [v / Pow2(n - 1 - i) % 2 == 1];
        i := i + 1;
      }
    }
  }

  lemma WordAt(list: seq<string>, seed: Bytes, i: nat, bits: seq<bool>, m: seq<string>)
    requires |list| == LIST_SIZE && |seed| == SEED_SIZE && i < WORDS
    requires bits == Pack(seed, 8) && m == Mnemonic(list, seed)
    ensures WORD_BITS * i + WORD_BITS <= |bits| && ValueOf(bits[WORD_BITS * i..WORD_BITS * i + WORD_BITS]) < LIST_SIZE
    ensures |m| == WORDS && m[i] == list[ValueOf(bits[WORD_BITS * i..WORD_BITS * i + WORD_BITS])]
  {
    Sizes();
    UnpackAt(bits, WORD_BITS, WORDS, i);
  }

  /** The next word of the phrase. */
  method ReadWord(list: seq<string>, reader: BitReader, ghost m: seq<string>, ghost i: nat) returns (word: string)
    requires |list| == LIST_SIZE && |reader.stream| == SEED_SIZE && m == Mnemonic(list, reader.stream)
    requires i < WORDS && reader.pos == WORD_BITS * i
    modifies reader
    ensures reader.pos == WORD_BITS * i + WORD_BITS
    ensures |m| == WORDS && word == m[i]
  {
    WordAt(list, reader.stream, i, Pack(reader.stream, 8), m);
    var index := reader.ReadBits(WORD_BITS);
    word := list[index.value];
  }

  method CipherTextToMnemonic(list: seq<string>, seed: Bytes) returns (words: seq<string>)
    requires |list| == LIST_SIZE && |seed| == SEED_SIZE
    ensures words == Mnemonic(list, seed)
  {
    ghost var m := Mnemonic(list, seed);
    words := [];
    var reader := new BitReader(seed);
    var i := 0;
    while i < WORDS
      invariant 0 <= i <= WORDS && reader.pos == WORD_BITS * i && reader.stream == seed
      invariant |words| == i && forall j :: 0 <= j < i ==> words[j] == m[j]
    {
      var word := ReadWord(list, reader, m, i);
      words := words + [word];
      i := i + 1;
    }
  }

  method MnemonicToCipherText(list: seq<string>, m: seq<string>) returns (seed: Bytes)
    requires |m| == WORDS
    ensures seed == CipherText(list, m)
  {
    Sizes();
    var writer := new BitWriter();
    ghost var ws := ReverseAll(list, m);
    var i := 0;
    while i < WORDS
      invariant 0 <= i <= WORDS
      invariant writer.bits == Pack(ws[..i], WORD_BITS)
    {
      writer.WriteBits(Reverse(list, m[i]), WORD_BITS);
      PackNext(ws, i, WORD_BITS);
      i := i + 1;
    }
    assert ws[..WORDS] == ws;
    seed := AsBytes(Unpack(writer.bits, 8, SEED_SIZE));
  }

  /** The word check at the head of `Mnemonic.Decipher`. */
  method CheckWords(list: seq<string>, m: seq<string>) returns (bad: Option<nat>)
    ensures bad == FirstUnknown(list, m)
  {
    var wordDict: set<string>, i := {}, 0;
    while i < |list|
      invariant 0 <= i <= |list|
      invariant forall w :: w in wordDict <==> w in list[..i]
    {
      wordDict := wordDict + {list[i]};
      i := i + 1;
    }
    assert list[..|list|] == list;
    i := 0;
    while i < |m|
      invariant 0 <= i <= |m|
      invariant forall j :: 0 <= j < i ==> m[j] in list
    {
      if m[i] !in wordDict { return Some(i); }
      i := i + 1;
    }
    return None;
  }

  /** `encipher`, filling the 33-byte array part by part. */
  method EncipherSeed(x: Suite, c: CipherSeed, pass: Bytes) returns (r: Result<Bytes>)
    requires Inverse(x) && Sized(c)
    ensures r == Encipher(x, c, pass)
  {
    var passphrase := pass;
    if |passphrase| == 0 { passphrase := DEFAULT_PASSPHRASE; }
    var key := x.scrypt(passphrase, c.salt);
    if key.None? { return Err(KeyFailed); }
    var text := x.encrypt(key.value, EncodeAD(CIPHER_SEED_VERSION, c.salt), Encode(c));

    var buffer := new byte[SEED_SIZE](_ => 0);
    buffer[0] := CIPHER_SEED_VERSION;
    forall i | 0 <= i < |text| { buffer[1 + i] := text[i]; }
    forall i | 0 <= i < SALT_SIZE { buffer[SALT_OFFSET + i] := c.salt[i]; }
    assert buffer[..CHECKSUM_OFFSET] == [CIPHER_SEED_VERSION] + text + c.salt;

    var checksum := PutUint32(Checksum(buffer[..CHECKSUM_OFFSET]));
    forall i | 0 <= i < 4 { buffer[CHECKSUM_OFFSET + i] := checksum[i]; }
    assert buffer[..] == Sealed([CIPHER_SEED_VERSION] + text + c.salt);
    return Ok(buffer[..]);
  }
}
