/** Round trips of the aezeed codec. */
module SeedTheorems {
  import opened Options
  import opened Bits
  import opened Crc32c
  import opened Aezeed

  // ----- 33 bytes and 24 words --------------------------------------------

  lemma BytesThroughIndices(seed: Bytes)
    requires |seed| == SEED_SIZE
    ensures SeedBytes(Indices(seed)) == seed
  {
    Sizes();
    PackUnpack(Pack(seed, 8), WORD_BITS, WORDS);
    UnpackPack(seed, 8);
    SeedOfBits(Indices(seed), Pack(seed, 8));
  }

  lemma SeedOfBits(ws: seq<nat>, bits: seq<bool>)
    requires |ws| == WORDS && bits == Pack(ws, WORD_BITS)
    ensures |bits| == 8 * SEED_SIZE && SeedBytes(ws) == Unpack(bits, 8, SEED_SIZE)
  {
    Sizes();
  }

  lemma IndicesThroughBytes(ws: seq<nat>)
    requires |ws| == WORDS && forall i :: 0 <= i < WORDS ==> ws[i] < LIST_SIZE
    ensures Indices(SeedBytes(ws)) == ws
  {
    Sizes();
    PackUnpack(Pack(ws, WORD_BITS), 8, SEED_SIZE);
    UnpackPack(ws, WORD_BITS);
  }

  lemma ReverseOfWord(list: seq<string>, i: nat)
    requires WordList(list) && i < LIST_SIZE
    ensures Reverse(list, list[i]) == i
  {
    assert list[i] in list;
  }

  /** Every 33-byte string is read back from its 24 words. */
  lemma SeedThroughMnemonic(list: seq<string>, seed: Bytes)
    requires WordList(list) && |seed| == SEED_SIZE
    ensures CipherText(list, Mnemonic(list, seed)) == seed
    ensures FirstUnknown(list, Mnemonic(list, seed)) == None
  {
    var m := Mnemonic(list, seed);
    forall i | 0 <= i < WORDS ensures ReverseAll(list, m)[i] == Indices(seed)[i] {
      ReverseOfWord(list, Indices(seed)[i]);
    }
    assert ReverseAll(list, m) == Indices(seed);
    BytesThroughIndices(seed);
  }

  /** Every phrase of 24 list words is the phrase of the bytes it is read as. */
  lemma MnemonicThroughSeed(list: seq<string>, m: seq<string>)
    requires WordList(list) && |m| == WORDS && FirstUnknown(list, m) == None
    ensures Mnemonic(list, CipherText(list, m)) == m
  {
    IndicesThroughBytes(ReverseAll(list, m));
  }

  // ----- The checksum field -----------------------------------------------

  lemma JoinOfParts(x: bv32)
    ensures Join((x >> 24) & 0xFF, (x >> 16) & 0xFF, (x >> 8) & 0xFF, x & 0xFF) == x
  {
  }

  lemma PartsOfJoin(x: bv32, a: bv32, b: bv32, c: bv32, d: bv32)
    requires IsByte(a) && IsByte(b) && IsByte(c) && IsByte(d) && x == Join(a, b, c, d)
    ensures (x >> 24) & 0xFF == a && (x >> 16) & 0xFF == b && (x >> 8) & 0xFF == c && x & 0xFF == d
  {
  }

  lemma JoinInjective(x: bv32, a: bv32, b: bv32, c: bv32, d: bv32, a': bv32, b': bv32, c': bv32, d': bv32)
    requires IsByte(a) && IsByte(b) && IsByte(c) && IsByte(d)
    requires IsByte(a') && IsByte(b') && IsByte(c') && IsByte(d')
    requires x == Join(a, b, c, d) && x == Join(a', b', c', d')
    ensures a == a' && b == b' && c == c' && d == d'
  {
    PartsOfJoin(x, a, b, c, d);
    PartsOfJoin(x, a', b', c', d');
  }

  lemma VecOfLow(v: bv32)
    ensures Vec(Low(v)) == v & 0xFF
  {
    BitsOfValue(Bits8(v));
    BitsOfVec(v);
  }

  lemma WordsOfPut(v: bv32)
    ensures var w := Words(PutUint32(v));
            w[0] == (v >> 24) & 0xFF && w[1] == (v >> 16) & 0xFF && w[2] == (v >> 8) & 0xFF && w[3] == v & 0xFF
  {
    VecOfLow(v >> 24);
    VecOfLow(v >> 16);
    VecOfLow(v >> 8);
    VecOfLow(v);
  }

  lemma Uint32OfPut(v: bv32)
    ensures Uint32(PutUint32(v)) == v
  {
    WordsOfPut(v);
    JoinOfParts(v);
  }

  ghost predicate AllBytes(w: seq<bv32>) { forall i :: 0 <= i < |w| ==> IsByte(w[i]) }

  lemma WordsAreBytes(data: Bytes)
    ensures AllBytes(Words(data))
  {
    forall i | 0 <= i < |data| ensures IsByte(Words(data)[i]) { VecIsByte(data[i]); }
  }

  lemma WordsInjective(a: Bytes, b: Bytes)
    requires Words(a) == Words(b)
    ensures a == b
  {
    assert |a| == |Words(a)| == |b|;
    forall i | 0 <= i < |a| ensures a[i] == b[i] {
      assert Words(a)[i] == Words(b)[i];
      VecIsByte(a[i]);
      VecIsByte(b[i]);
    }
  }

  lemma Uint32Injective(a: Bytes, b: Bytes)
    requires |a| == |b| == 4 && Uint32(a) == Uint32(b)
    ensures a == b
  {
    var v, w := Words(a), Words(b);
    WordsAreBytes(a);
    WordsAreBytes(b);
    JoinInjective(Uint32(a), v[0], v[1], v[2], v[3], w[0], w[1], w[2], w[3]);
    assert v == w;
    WordsInjective(a, b);
  }

  lemma PutOfUint32(b: Bytes)
    requires |b| == 4
    ensures PutUint32(Uint32(b)) == b
  {
    Uint32OfPut(Uint32(b));
    Uint32Injective(PutUint32(Uint32(b)), b);
  }

  // ----- Seeds ------------------------------------------------------------

  lemma DecodeEncode(c: CipherSeed)
    requires Sized(c)
    ensures |Encode(c)| == PLAIN_SIZE && Decode(Encode(c), c.salt) == c
  {
  }

  lemma EncodeDecode(plain: Bytes, salt: Bytes)
    requires |plain| == PLAIN_SIZE
    ensures Encode(Decode(plain, salt)) == plain
  {
  }

  /** Deciphering undoes enciphering, at the level of the 33 bytes. */
  lemma DecipherEncipher(x: Suite, c: CipherSeed, pass: Bytes)
    requires Inverse(x) && Sized(c) && Encipher(x, c, pass).Ok?
    ensures |Encipher(x, c, pass).value| == SEED_SIZE
    ensures Decipher(x, Encipher(x, c, pass).value, Passphrase(pass)) == Ok((Encode(c), c.salt))
  {
    var key := x.scrypt(Passphrase(pass), c.salt).value;
    var text := x.encrypt(key, EncodeAD(CIPHER_SEED_VERSION, c.salt), Encode(c));
    var body := [CIPHER_SEED_VERSION] + text + c.salt;
    var seed := Sealed(body);
    assert |text| == 23 && |body| == CHECKSUM_OFFSET;
    assert seed[..CHECKSUM_OFFSET] == body && seed[CHECKSUM_OFFSET..] == PutUint32(Checksum(body));
    Uint32OfPut(Checksum(body));
    assert seed[SALT_OFFSET..CHECKSUM_OFFSET] == c.salt && seed[1..SALT_OFFSET] == text;
    assert ExtractAD(seed) == EncodeAD(CIPHER_SEED_VERSION, c.salt);
  }

  /** A phrase made from a seed is turned back into that seed by the same passphrase. */
  lemma SeedRoundTrip(list: seq<string>, x: Suite, c: CipherSeed, pass: Bytes)
    requires WordList(list) && Inverse(x) && Sized(c)
    ensures ToMnemonic(list, x, c, pass).Ok? <==> x.scrypt(Passphrase(pass), c.salt).Some?
    ensures ToMnemonic(list, x, c, pass).Ok? ==>
              && |ToMnemonic(list, x, c, pass).value| == WORDS
              && ToCipherSeed(list, x, ToMnemonic(list, x, c, pass).value, pass) == Ok(c)
  {
    if Encipher(x, c, pass).Ok? {
      var seed := Encipher(x, c, pass).value;
      DecipherEncipher(x, c, pass);
      SeedThroughMnemonic(list, seed);
      DecodeEncode(c);
    }
  }

  /** What `Decipher` accepts is what `Encipher` makes, byte for byte. */
  lemma EncipherDecipher(x: Suite, seed: Bytes, pass: Bytes)
    requires Canonical(x) && |seed| == SEED_SIZE && |pass| > 0 && Decipher(x, seed, pass).Ok?
    ensures var (plain, salt) := Decipher(x, seed, pass).value;
            Encipher(x, Decode(plain, salt), pass) == Ok(seed)
  {
    var (plain, salt) := Decipher(x, seed, pass).value;
    var key := x.scrypt(pass, salt).value;
    EncodeDecode(plain, salt);
    SealedParts(seed, salt);
    Encrypted(x, key, ExtractAD(seed), seed[1..SALT_OFFSET], plain);
    EnciphersTo(x, Decode(plain, salt), pass, key, seed[1..SALT_OFFSET]);
  }

  lemma Encrypted(x: Suite, key: Bytes, ad: Bytes, text: Bytes, plain: Bytes)
    requires Canonical(x) && x.decrypt(key, ad, text) == Some(plain)
    ensures x.encrypt(key, ad, plain) == text
  {
  }

  lemma EnciphersTo(x: Suite, c: CipherSeed, pass: Bytes, key: Bytes, text: Bytes)
    requires |pass| > 0 && x.scrypt(pass, c.salt) == Some(key)
    requires x.encrypt(key, EncodeAD(CIPHER_SEED_VERSION, c.salt), Encode(c)) == text
    ensures Encipher(x, c, pass) == Ok(Sealed([CIPHER_SEED_VERSION] + text + c.salt))
  {
  }

  /** A seed with the right version and checksum, in its parts. */
  lemma SealedParts(seed: Bytes, salt: Bytes)
    requires |seed| == SEED_SIZE && seed[0] == CIPHER_SEED_VERSION && salt == seed[SALT_OFFSET..CHECKSUM_OFFSET]
    requires Checksum(seed[..CHECKSUM_OFFSET]) == Uint32(seed[CHECKSUM_OFFSET..])
    ensures Sealed([CIPHER_SEED_VERSION] + seed[1..SALT_OFFSET] + salt) == seed
    ensures ExtractAD(seed) == EncodeAD(CIPHER_SEED_VERSION, salt)
  {
    PutOfUint32(seed[CHECKSUM_OFFSET..]);
    assert seed[..CHECKSUM_OFFSET] == [CIPHER_SEED_VERSION] + seed[1..SALT_OFFSET] + salt;
    assert seed == seed[..CHECKSUM_OFFSET] + seed[CHECKSUM_OFFSET..];
  }

  /** Of every phrase: it deciphers to a seed exactly when it is the phrase of that seed. */
  lemma PhraseOfSeed(list: seq<string>, x: Suite, m: seq<string>, c: CipherSeed, pass: Bytes)
    requires WordList(list) && Canonical(x) && Sized(c) && |m| == WORDS
    ensures ToCipherSeed(list, x, m, pass) == Ok(c) <==> ToMnemonic(list, x, c, pass) == Ok(m)
  {
    SeedRoundTrip(list, x, c, pass);
    if ToCipherSeed(list, x, m, pass) == Ok(c) {
      MnemonicThroughSeed(list, m);
      EncipherDecipher(x, CipherText(list, m), Passphrase(pass));
    }
  }

  /** After a change of passphrase the new phrase holds the old phrase's seed. */
  lemma ChangePassKeepsSeed(list: seq<string>, x: Suite, m: seq<string>, oldPass: Bytes, newPass: Bytes)
    requires WordList(list) && Inverse(x) && |m| == WORDS
    ensures var r := ChangePass(list, x, m, oldPass, newPass);
            && (r.Ok? ==>
                  && |r.value| == WORDS
                  && ToCipherSeed(list, x, m, oldPass).Ok?
                  && ToCipherSeed(list, x, r.value, newPass) == ToCipherSeed(list, x, m, oldPass))
            && (ToCipherSeed(list, x, m, oldPass).Err? ==>
                  r == Err(ToCipherSeed(list, x, m, oldPass).error))
  {
    if ToCipherSeed(list, x, m, oldPass).Ok? {
      SeedRoundTrip(list, x, ToCipherSeed(list, x, m, oldPass).value, newPass);
    }
  }

  // ----- Birthdays --------------------------------------------------------

  const GENESIS: int := 1231006505 * 1_000_000_000
  const DAY: int := 24 * 3600 * 1_000_000_000
  const MAX_DURATION: int := 0x7FFF_FFFF_FFFF_FFFF
  const MIN_DURATION: int := -0x8000_0000_0000_0000

  /** time.Time.Sub saturates. */
  function Sub(a: int, b: int): int
  {
    if a - b > MAX_DURATION then MAX_DURATION else if a - b < MIN_DURATION then MIN_DURATION else a - b
  }

  /** Go's integer division truncates toward zero. */
  function Quo(a: int, b: int): int
    requires b > 0
  {
    if a >= 0 then a / b else -((-a) / b)
  }

  /** The birthday that `New` stores for a creation time in nanoseconds since the Unix epoch. */
  function Birthday(now: int): uint16 { Quo(Sub(now, GENESIS), DAY) % 0x1_0000 }

  function BirthdayTime(c: CipherSeed): int { GENESIS + c.birthday * DAY }

  /** `New`, with the entropy and salt that were read. */
  function NewSeed(version: byte, entropy: Bytes, salt: Bytes, now: int): CipherSeed
  {
    CipherSeed(version, Birthday(now), entropy, salt)
  }

  /** The stored birthday of every creation time: whole days, toward genesis, modulo 2^16, saturating. */
  lemma BirthdayExactly(now: int)
    ensures var d := now - 1231006505_000_000_000;
            && (0 <= d <= 0x7FFF_FFFF_FFFF_FFFF ==> Birthday(now) == d / 86400_000_000_000 % 65536)
            && (-0x8000_0000_0000_0000 <= d < 0 ==> (Birthday(now) + -d / 86400_000_000_000) % 65536 == 0)
            && (d > 0x7FFF_FFFF_FFFF_FFFF ==> Birthday(now) == 41215)
            && (d < -0x8000_0000_0000_0000 ==> Birthday(now) == 24321)
  {
  }

  /**
    The recovered birthday is at most a day before the creation time, and not
    after it, exactly for creation times in the 65536 days from genesis.
  */
  lemma BirthdayWithinDay(version: byte, entropy: Bytes, salt: Bytes, now: int)
    ensures var t := BirthdayTime(NewSeed(version, entropy, salt, now));
            t <= now < t + DAY <==> GENESIS <= now < GENESIS + 0x1_0000 * DAY
  {
    var d := Sub(now, GENESIS);
    var q := Quo(d, DAY);
    if now >= GENESIS {
      assert d / DAY * DAY <= d < d / DAY * DAY + DAY;
    }
  }
}
