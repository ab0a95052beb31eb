/**
  The aezeed cipher seed of aezeed/cipherseed.go: a 19-byte plaintext,
  enciphered under a key derived from a passphrase, wrapped with version, salt
  and checksum into 33 bytes, and written as 24 words of 11 bits.
*/
module Aezeed {
  import opened Options
  import opened Bits
  import opened Crc32c

  const CIPHER_SEED_VERSION: byte := 0
  const PLAIN_SIZE: nat := 19
  const SEED_SIZE: nat := 33
  const EXPANSION: nat := 4
  const ENTROPY_SIZE: nat := 16
  const WORDS: nat := 24
  const SALT_SIZE: nat := 5
  const WORD_BITS: nat := 11
  const SALT_OFFSET: nat := 24
  const CHECKSUM_OFFSET: nat := 29
  const LIST_SIZE: nat := 2048

  type uint16 = x: nat | x < 0x1_0000

  type Bytes = seq<byte>

  datatype CipherSeed = CipherSeed(version: byte, birthday: uint16, entropy: Bytes, salt: Bytes)

  /** The sizes of the arrays in the Go struct. */
  predicate Sized(c: CipherSeed) { |c.entropy| == ENTROPY_SIZE && |c.salt| == SALT_SIZE }

  datatype Error =
    | UnknownWord(word: string, index: nat)
    | IncorrectVersion
    | IncorrectMnemonic
    | KeyFailed
    | InvalidPass

  datatype Result<+T> = Ok(value: T) | Err(error: Error)

  /** The two primitives: key derivation (passphrase, salt) and AEAD (key, associated data, text). */
  datatype Suite = Suite(
    scrypt: (Bytes, Bytes) -> Option<Bytes>,
    encrypt: (Bytes, Bytes, Bytes) -> Bytes,
    decrypt: (Bytes, Bytes, Bytes) -> Option<Bytes>
  )

  /** Decryption inverts encryption under the same key and data; the text grows by the expansion. */
  ghost predicate Inverse(x: Suite)
  {
    && (forall k, ad, p :: |x.encrypt(k, ad, p)| == |p| + EXPANSION)
    && (forall k, ad, p :: x.decrypt(k, ad, x.encrypt(k, ad, p)) == Some(p))
    && (forall k, ad, c :: x.decrypt(k, ad, c).Some? ==> |x.decrypt(k, ad, c).value| + EXPANSION == |c|)
  }

  /** Moreover a text that decrypts is the one encryption of what it decrypts to. */
  ghost predicate Canonical(x: Suite)
  {
    Inverse(x)
    && forall k, ad, c :: x.decrypt(k, ad, c).Some? ==> x.encrypt(k, ad, x.decrypt(k, ad, c).value) == c
  }

  /** DefaultWordList: 2048 distinct words. */
  ghost predicate WordList(list: seq<string>)
  {
    |list| == LIST_SIZE && forall i, j :: 0 <= i < j < |list| ==> list[i] != list[j]
  }

  // ----- The plaintext ----------------------------------------------------

  /** `encode`: version, big-endian birthday, entropy. */
  function Encode(c: CipherSeed): Bytes
  {
    [c.version, c.birthday / 256, c.birthday % 256] + c.entropy
  }

  /** `decode` into a seed that already has its salt. */
  function Decode(plain: Bytes, salt: Bytes): CipherSeed
    requires |plain| == PLAIN_SIZE
  {
    var high: nat := plain[1];
    CipherSeed(plain[0], high * 256 + plain[2], plain[3..], salt)
  }

  /** `encodeAD`. */
  function EncodeAD(version: byte, salt: Bytes): Bytes { [version] + salt }

  /** `extractAD`. */
  function ExtractAD(seed: Bytes): Bytes
    requires |seed| == SEED_SIZE
  {
    [seed[0]] + seed[SALT_OFFSET..CHECKSUM_OFFSET]
  }

  /** The bytes of "aezeed". */
  const DEFAULT_PASSPHRASE: Bytes := [97, 101, 122, 101, 101, 100]

  function Passphrase(pass: Bytes): Bytes { if |pass| == 0 then DEFAULT_PASSPHRASE else pass }

  // ----- The 33 bytes -----------------------------------------------------

  /** binary.BigEndian.PutUint32. */
  function PutUint32(v: bv32): (b: Bytes)
    ensures |b| == 4
  {
    [Low(v >> 24), Low(v >> 16), Low(v >> 8), Low(v)]
  }

  /** binary.BigEndian.Uint32. */
  function Uint32(b: Bytes): bv32
    requires |b| == 4
  {
    Join(Words(b)[0], Words(b)[1], Words(b)[2], Words(b)[3])
  }

  function Join(a: bv32, b: bv32, c: bv32, d: bv32): bv32
  {
    (a << 24) | (b << 16) | (c << 8) | d
  }

  function Sealed(body: Bytes): Bytes { body + PutUint32(Checksum(body)) }

  /** `encipher`. */
  function Encipher(x: Suite, c: CipherSeed, pass: Bytes): Result<Bytes>
  {
    match x.scrypt(Passphrase(pass), c.salt)
    case None => Err(KeyFailed)
    case Some(key) =>
      var text := x.encrypt(key, EncodeAD(CIPHER_SEED_VERSION, c.salt), Encode(c));
      Ok(Sealed([CIPHER_SEED_VERSION] + text + c.salt))
  }

  /** `decipherCipherSeed`: the plaintext and the salt. */
  function Decipher(x: Suite, seed: Bytes, pass: Bytes): (r: Result<(Bytes, Bytes)>)
    requires Inverse(x) && |seed| == SEED_SIZE
    ensures r.Ok? ==> |r.value.0| == PLAIN_SIZE && |r.value.1| == SALT_SIZE
  {
    if seed[0] != CIPHER_SEED_VERSION then Err(IncorrectVersion)
    else if Checksum(seed[..CHECKSUM_OFFSET]) != Uint32(seed[CHECKSUM_OFFSET..]) then Err(IncorrectMnemonic)
    else
      var salt := seed[SALT_OFFSET..CHECKSUM_OFFSET];
      match x.scrypt(pass, salt)
      case None => Err(KeyFailed)
      case Some(key) =>
        match x.decrypt(key, ExtractAD(seed), seed[1..SALT_OFFSET])
        case None => Err(InvalidPass)
        case Some(plain) => Ok((plain, salt))
  }

  // ----- The 24 words -----------------------------------------------------

  lemma Sizes()
    ensures Pow2(8) == 256 && Pow2(WORD_BITS) == LIST_SIZE
    ensures 8 * SEED_SIZE == WORD_BITS * WORDS
  {
    assert Pow2(4) == 16 && Pow2(8) == 256 && Pow2(11) == 2048;
  }

  /** The 33 bytes as 24 indices of 11 bits. */
  function Indices(seed: Bytes): (ws: seq<nat>)
    requires |seed| == SEED_SIZE
    ensures |ws| == WORDS && forall i :: 0 <= i < WORDS ==> ws[i] < LIST_SIZE
  {
    Sizes();
    Unpack(Pack(seed, 8), WORD_BITS, WORDS)
  }

  /** 24 indices as 33 bytes. */
  function SeedBytes(ws: seq<nat>): (seed: Bytes)
    requires |ws| == WORDS
    ensures |seed| == SEED_SIZE
  {
    Sizes();
    AsBytes(Unpack(Pack(ws, WORD_BITS), 8, SEED_SIZE))
  }

  function AsBytes(xs: seq<nat>): (b: Bytes)
    requires forall i :: 0 <= i < |xs| ==> xs[i] < 256
    ensures b == xs
  {
    if xs == [] then [] else [xs[0]] + AsBytes(xs[1..])
  }

  /** `cipherTextToMnemonic`. */
  function Mnemonic(list: seq<string>, seed: Bytes): (m: seq<string>)
    requires |list| == LIST_SIZE && |seed| == SEED_SIZE
    ensures |m| == WORDS && forall i :: 0 <= i < WORDS ==> m[i] == list[Indices(seed)[i]]
  {
    seq(WORDS, i requires 0 <= i < WORDS => list[Indices(seed)[i]])
  }

  /** ReverseWordMap; a word that is not in the list is read as index 0. */
  function Reverse(list: seq<string>, word: string): (i: nat)
    ensures word in list ==> i < |list| && list[i] == word
    ensures word !in list ==> i == 0
  {
    if word !in list then 0
    else if list[0] == word then 0
    else 1 + Reverse(list[1..], word)
  }

  function ReverseAll(list: seq<string>, m: seq<string>): (ws: seq<nat>)
    ensures |ws| == |m| && forall i :: 0 <= i < |m| ==> ws[i] == Reverse(list, m[i])
  {
    if m == [] then [] else [Reverse(list, m[0])] + ReverseAll(list, m[1..])
  }

  /** `mnemonicToCipherText`. */
  function CipherText(list: seq<string>, m: seq<string>): (seed: Bytes)
    requires |m| == WORDS
    ensures |seed| == SEED_SIZE
  {
    SeedBytes(ReverseAll(list, m))
  }

  /** The first word of the phrase that is not in the list. */
  function FirstUnknown(list: seq<string>, m: seq<string>): (r: Option<nat>)
    ensures r.None? <==> forall i :: 0 <= i < |m| ==> m[i] in list
    ensures r.Some? ==> r.value < |m| && m[r.value] !in list
    ensures r.Some? ==> forall i :: 0 <= i < r.value ==> m[i] in list
  {
    if m == [] then None
    else if m[0] !in list then Some(0)
    else match FirstUnknown(list, m[1..])
      case None => None
      case Some(i) => Some(i + 1)
  }

  // ----- The exported operations ------------------------------------------

  function ToMnemonic(list: seq<string>, x: Suite, c: CipherSeed, pass: Bytes): Result<seq<string>>
    requires WordList(list) && Inverse(x) && Sized(c)
  {
    match Encipher(x, c, pass)
    case Err(e) => Err(e)
    case Ok(seed) => Ok(Mnemonic(list, seed))
  }

  /** `Decipher` of a phrase, then `decode`. */
  function ToCipherSeed(list: seq<string>, x: Suite, m: seq<string>, pass: Bytes): (r: Result<CipherSeed>)
    requires Inverse(x) && |m| == WORDS
    ensures r.Ok? ==> Sized(r.value)
  {
    match FirstUnknown(list, m)
    case Some(i) => Err(UnknownWord(m[i], i))
    case None =>
      match Decipher(x, CipherText(list, m), Passphrase(pass))
      case Err(e) => Err(e)
      case Ok((plain, salt)) => Ok(Decode(plain, salt))
  }

  function ChangePass(list: seq<string>, x: Suite, m: seq<string>, oldPass: Bytes, newPass: Bytes): Result<seq<string>>
    requires WordList(list) && Inverse(x) && |m| == WORDS
  {
    match ToCipherSeed(list, x, m, oldPass)
    case Err(e) => Err(e)
    case Ok(c) => ToMnemonic(list, x, c, newPass)
  }
}
