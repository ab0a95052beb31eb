/** What a phrase is made of, what each phrase is answered, and what becomes of a new seed. */
module SeedAnswers {
  import opened Options
  import opened Crc32c
  import opened Aezeed
  import opened SeedTheorems

  function Ascii(text: string): (b: Bytes)
    requires forall i :: 0 <= i < |text| ==> text[i] as int < 128
    ensures |b| == |text| && forall i :: 0 <= i < |b| ==> b[i] == text[i] as int
  {
    if text == [] then [] else [text[0] as int] + Ascii(text[1..])
  }

  /** The passphrase that is used. */
  function Used(pass: Bytes): Bytes { if pass == [] then Ascii("aezeed") else pass }

  lemma UsedIs(pass: Bytes)
    ensures Passphrase(pass) == Used(pass)
  {
    assert "aezeed" == ['a', 'e', 'z', 'e', 'e', 'd'];
    assert DEFAULT_PASSPHRASE == Ascii("aezeed");
  }

  /** No passphrase and the passphrase "aezeed" are one. */
  lemma DefaultPassphrase(list: seq<string>, x: Suite, c: CipherSeed, m: seq<string>)
    requires WordList(list) && Inverse(x) && Sized(c) && |m| == WORDS
    ensures ToMnemonic(list, x, c, []) == ToMnemonic(list, x, c, Ascii("aezeed"))
    ensures ToCipherSeed(list, x, m, []) == ToCipherSeed(list, x, m, Ascii("aezeed"))
  {
    UsedIs([]);
    UsedIs(Ascii("aezeed"));
  }

  // ----- What a phrase is made of -----------------------------------------

  /** The 33 bytes: version 0, the text, the salt, and the checksum of these, highest byte first. */
  ghost predicate MadeOf(seed: Bytes, text: Bytes, salt: Bytes)
  {
    && |seed| == 33 && seed[0] == 0 && seed[1..24] == text && seed[24..29] == salt
    && Field(seed) == Checksum(seed[..29])
  }

  function Field(seed: Bytes): bv32
    requires |seed| == 33
  {
    (Vec(seed[29]) << 24) | (Vec(seed[30]) << 16) | (Vec(seed[31]) << 8) | Vec(seed[32])
  }

  lemma FieldIs(seed: Bytes)
    requires |seed| == 33
    ensures Uint32(seed[29..]) == Field(seed)
  {
    var b := seed[29..];
    assert b[0] == seed[29] && b[1] == seed[30] && b[2] == seed[31] && b[3] == seed[32];
  }

  /** The plaintext: the internal version, the birthday in two bytes, highest first, and the entropy. */
  function Plain(c: CipherSeed): Bytes { [c.version, c.birthday / 256, c.birthday % 256] + c.entropy }

  /**
    The phrase of a seed holds the text that the key of the passphrase and the
    salt makes of the plaintext, under version and salt as associated data.
  */
  lemma PhraseMadeOf(list: seq<string>, x: Suite, c: CipherSeed, pass: Bytes)
    requires WordList(list) && Inverse(x) && Sized(c)
    ensures var r, key := ToMnemonic(list, x, c, pass), x.scrypt(Used(pass), c.salt);
            && (key.None? <==> r == Err(KeyFailed)) && (key.Some? <==> r.Ok?)
            && (r.Ok? ==> |r.value| == WORDS && FirstUnknown(list, r.value).None?
                          && MadeOf(CipherText(list, r.value), x.encrypt(key.value, [0] + c.salt, Plain(c)), c.salt))
  {
    UsedIs(pass);
    var key := x.scrypt(Used(pass), c.salt);
    if key.Some? {
      var text := x.encrypt(key.value, [0] + c.salt, Plain(c));
      SealedMadeOf(text, c.salt);
      SeedThroughMnemonic(list, Sealed([0] + text + c.salt));
    }
  }

  lemma SealedMadeOf(text: Bytes, salt: Bytes)
    requires |text| == 23 && |salt| == SALT_SIZE
    ensures var seed := Sealed([0] + text + salt); |seed| == SEED_SIZE && MadeOf(seed, text, salt)
  {
    var body: Bytes := [0] + text + salt;
    var seed := Sealed(body);
    assert seed[..29] == body && seed[29..] == PutUint32(Checksum(body));
    FieldIs(seed);
    Uint32OfPut(Checksum(body));
  }

  // ----- What a phrase is answered ----------------------------------------

  /** The 33 bytes pass both tests. */
  ghost predicate SoundSeed(seed: Bytes) { |seed| == 33 && seed[0] == 0 && Field(seed) == Checksum(seed[..29]) }

  lemma SeedErrorsExactly(x: Suite, seed: Bytes, pass: Bytes)
    requires Inverse(x) && |seed| == 33
    ensures var r, key := Decipher(x, seed, pass), x.scrypt(pass, seed[24..29]);
            && (r == Err(IncorrectVersion) <==> seed[0] != 0)
            && (r == Err(IncorrectMnemonic) <==> seed[0] == 0 && Field(seed) != Checksum(seed[..29]))
            && (r == Err(KeyFailed) <==> SoundSeed(seed) && key.None?)
            && (r == Err(InvalidPass) <==>
                  SoundSeed(seed) && key.Some? && x.decrypt(key.value, [0] + seed[24..29], seed[1..24]).None?)
            && (r.Ok? <==>
                  SoundSeed(seed) && key.Some? && x.decrypt(key.value, [0] + seed[24..29], seed[1..24]).Some?)
  {
    FieldIs(seed);
  }

  lemma Deciphered(list: seq<string>, x: Suite, m: seq<string>, pass: Bytes, d: Result<(Bytes, Bytes)>)
    requires Inverse(x) && |m| == WORDS && FirstUnknown(list, m).None?
    requires d == Decipher(x, CipherText(list, m), Passphrase(pass))
    ensures d.Err? ==> ToCipherSeed(list, x, m, pass) == Err(d.error)
    ensures d.Ok? ==> |d.value.0| == PLAIN_SIZE && ToCipherSeed(list, x, m, pass) == Ok(Decode(d.value.0, d.value.1))
  {
  }

  lemma FromSeed(list: seq<string>, x: Suite, m: seq<string>, pass: Bytes)
    requires Inverse(x) && |m| == WORDS && forall j :: 0 <= j < WORDS ==> m[j] in list
    ensures var r, d := ToCipherSeed(list, x, m, pass), Decipher(x, CipherText(list, m), Used(pass));
            (r.Err? <==> d.Err?) && (r.Err? ==> r.error == d.error)
  {
    UsedIs(pass);
    assert FirstUnknown(list, m).None?;
    Deciphered(list, x, m, pass, Decipher(x, CipherText(list, m), Used(pass)));
  }

  lemma FromWords(list: seq<string>, x: Suite, m: seq<string>, pass: Bytes, i: nat)
    requires Inverse(x) && |m| == WORDS && i < WORDS && m[i] !in list && forall j :: 0 <= j < i ==> m[j] in list
    ensures ToCipherSeed(list, x, m, pass) == Err(UnknownWord(m[i], i))
  {
    var k := FirstUnknown(list, m).value;
    assert !(k < i) && !(i < k);
  }

  lemma FirstOne(list: seq<string>, m: seq<string>) returns (i: nat)
    requires exists j :: 0 <= j < |m| && m[j] !in list
    ensures i < |m| && m[i] !in list && forall j :: 0 <= j < i ==> m[j] in list
  {
    i := FirstUnknown(list, m).value;
  }

  /** The error of every phrase and exactly when: first unknown word, then version, checksum, key and passphrase. */
  lemma PhraseErrors(list: seq<string>, x: Suite, m: seq<string>, pass: Bytes, i: nat)
    requires Inverse(x) && |m| == WORDS
    ensures var r, seed := ToCipherSeed(list, x, m, pass), CipherText(list, m);
            var known := forall j :: 0 <= j < WORDS ==> m[j] in list;
            var key := x.scrypt(Used(pass), seed[24..29]);
            && (i < WORDS ==> (r == Err(UnknownWord(m[i], i)) <==>
                                 m[i] !in list && forall j :: 0 <= j < i ==> m[j] in list))
            && (r == Err(IncorrectVersion) <==> known && seed[0] != 0)
            && (r == Err(IncorrectMnemonic) <==> known && seed[0] == 0 && Field(seed) != Checksum(seed[..29]))
            && (r == Err(KeyFailed) <==> known && SoundSeed(seed) && key.None?)
            && (r == Err(InvalidPass) <==>
                  && known && SoundSeed(seed) && key.Some?
                  && x.decrypt(key.value, [0] + seed[24..29], seed[1..24]).None?)
            && (r.Ok? <==>
                  && known && SoundSeed(seed) && key.Some?
                  && x.decrypt(key.value, [0] + seed[24..29], seed[1..24]).Some?)
  {
    if forall j :: 0 <= j < WORDS ==> m[j] in list {
      FromSeed(list, x, m, pass);
      SeedErrorsExactly(x, CipherText(list, m), Used(pass));
    } else {
      var k := FirstOne(list, m);
      FromWords(list, x, m, pass, k);
    }
  }

  lemma SeedHolds(x: Suite, seed: Bytes, pass: Bytes)
    requires Inverse(x) && |seed| == 33 && Decipher(x, seed, pass).Ok?
    ensures var (plain, salt) := Decipher(x, seed, pass).value;
            var key := x.scrypt(pass, salt);
            && SoundSeed(seed) && salt == seed[24..29] && key.Some?
            && x.decrypt(key.value, [0] + salt, seed[1..24]) == Some(plain)
  {
    FieldIs(seed);
  }

  lemma FromDeciphered(list: seq<string>, x: Suite, m: seq<string>, pass: Bytes)
    requires Inverse(x) && |m| == WORDS && ToCipherSeed(list, x, m, pass).Ok?
    ensures forall i :: 0 <= i < WORDS ==> m[i] in list
    ensures var d := Decipher(x, CipherText(list, m), Used(pass));
            d.Ok? && ToCipherSeed(list, x, m, pass).value == Decode(d.value.0, d.value.1)
  {
    UsedIs(pass);
  }

  /** And what is answered otherwise. */
  lemma PhraseHolds(list: seq<string>, x: Suite, m: seq<string>, pass: Bytes)
    requires Inverse(x) && |m| == WORDS && ToCipherSeed(list, x, m, pass).Ok?
    ensures var c, seed := ToCipherSeed(list, x, m, pass).value, CipherText(list, m);
            var key := x.scrypt(Used(pass), seed[24..29]);
            && (forall i :: 0 <= i < WORDS ==> m[i] in list) && SoundSeed(seed) && key.Some? && c.salt == seed[24..29]
            && x.decrypt(key.value, [0] + seed[24..29], seed[1..24]) == Some(Plain(c))
  {
    FromDeciphered(list, x, m, pass);
    var seed := CipherText(list, m);
    SeedHolds(x, seed, Used(pass));
    var (plain, salt) := Decipher(x, seed, Used(pass)).value;
    PlainOf(plain, salt);
  }

  lemma PlainOf(plain: Bytes, salt: Bytes)
    requires |plain| == PLAIN_SIZE
    ensures Plain(Decode(plain, salt)) == plain
  {
  }

  /** The passphrase changes exactly if the phrase can be read and the new key made; to the seed's new phrase. */
  lemma ChangeExactly(list: seq<string>, x: Suite, m: seq<string>, oldPass: Bytes, newPass: Bytes)
    requires WordList(list) && Inverse(x) && |m| == WORDS
    ensures var r, old' := ChangePass(list, x, m, oldPass, newPass), ToCipherSeed(list, x, m, oldPass);
            && (r.Ok? <==> old'.Ok? && x.scrypt(Used(newPass), old'.value.salt).Some?)
            && (r.Ok? ==> r == ToMnemonic(list, x, old'.value, newPass))
            && (r.Err? ==> r.error == if old'.Err? then old'.error else KeyFailed)
  {
    var old' := ToCipherSeed(list, x, m, oldPass);
    if old'.Ok? {
      ChangedTo(list, x, m, oldPass, newPass, old'.value);
      PhraseMadeOf(list, x, old'.value, newPass);
    }
  }

  lemma ChangedTo(list: seq<string>, x: Suite, m: seq<string>, oldPass: Bytes, newPass: Bytes, c: CipherSeed)
    requires WordList(list) && Inverse(x) && |m| == WORDS && Sized(c) && ToCipherSeed(list, x, m, oldPass) == Ok(c)
    ensures ChangePass(list, x, m, oldPass, newPass) == ToMnemonic(list, x, c, newPass)
  {
  }

  // ----- A new seed -------------------------------------------------------

  /**
    A seed made from given entropy, salt and time, written as a phrase and read
    back: the same version, entropy and salt; and a birthday at most a day before
    the creation time, and not after it, exactly for creation times in the 65536
    days from the genesis block, 1231006505 seconds after the Unix epoch.
  */
  lemma NewSeedComesBack(list: seq<string>, x: Suite, version: byte, entropy: Bytes, salt: Bytes, now: int, pass: Bytes)
    requires WordList(list) && Inverse(x) && |entropy| == ENTROPY_SIZE && |salt| == SALT_SIZE
    requires x.scrypt(Used(pass), salt).Some?
    ensures var c := NewSeed(version, entropy, salt, now);
            var m := ToMnemonic(list, x, c, pass);
            && m.Ok? && |m.value| == WORDS && ToCipherSeed(list, x, m.value, pass).Ok?
            && var back := ToCipherSeed(list, x, m.value, pass).value;
               && back.version == version && back.entropy == entropy && back.salt == salt
               && (BirthdayTime(back) <= now < BirthdayTime(back) + 86400_000_000_000 <==>
                     1231006505_000_000_000 <= now < 1231006505_000_000_000 + 65536 * 86400_000_000_000)
  {
    var c := NewSeed(version, entropy, salt, now);
    assert c.version == version && c.entropy == entropy && c.salt == salt;
    UsedIs(pass);
    SeedRoundTrip(list, x, c, pass);
    BirthdayOf(version, entropy, salt, now);
  }

  lemma BirthdayOf(version: byte, entropy: Bytes, salt: Bytes, now: int)
    ensures var t := BirthdayTime(NewSeed(version, entropy, salt, now));
            t <= now < t + 86400_000_000_000 <==>
              1231006505_000_000_000 <= now < 1231006505_000_000_000 + 65536 * 86400_000_000_000
  {
    BirthdayWithinDay(version, entropy, salt, now);
  }
}
