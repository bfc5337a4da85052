/** Symmetric stream ciphers: the tag and key/IV size table, the registry of
    cipher classes, and `botan_impl`, whose `stream_pos` counter every
    encrypt, decrypt and seek updates. */
module Symmetric {
  import opened Common
  import opened Registries

  /** `enum class symmetric_algorithm : uint16_t`. The high byte names the
      family (1 AES-CTR, 2 ChaCha, 3 XChaCha). */
  newtype SymmetricAlgorithm = x: int | 0 <= x < 0x1_0000

  const AES128: SymmetricAlgorithm := 0x0110
  const AES256: SymmetricAlgorithm := 0x0120
  const ChaCha20_8: SymmetricAlgorithm := 0x0208
  const ChaCha20_12: SymmetricAlgorithm := 0x020c
  const ChaCha20_20: SymmetricAlgorithm := 0x0212
  const ChaCha20: SymmetricAlgorithm := ChaCha20_20
  const XChaCha20_8: SymmetricAlgorithm := 0x0308
  const XChaCha20_12: SymmetricAlgorithm := 0x030c
  const XChaCha20_20: SymmetricAlgorithm := 0x0312
  const XChaCha20: SymmetricAlgorithm := XChaCha20_20

  predicate IsSymmetricAlgorithm(alg: SymmetricAlgorithm) {
    alg in {AES128, AES256, ChaCha20_8, ChaCha20_12, ChaCha20_20, XChaCha20_8, XChaCha20_12, XChaCha20_20}
  }

  /** The family an algorithm belongs to, read from the high byte of its tag. */
  function FamilyOf(alg: SymmetricAlgorithm): nat { alg as int / 0x100 }

  // ---------------------------------------------------------------------------
  // Properties

  /** `symmetric_properties`. */
  datatype SymmetricProperties = SymmetricProperties(keySize: nat, ivSize: nat)

  /** The specialisations `get_symmetric_properties<ALG>()`: 256-bit keys
      except AES-128, a 128-bit IV for AES-CTR, 64 bits for ChaCha and
      192 bits for XChaCha. */
  function StaticSymmetricProperties(alg: SymmetricAlgorithm): (p: SymmetricProperties)
    requires IsSymmetricAlgorithm(alg)
    ensures p.keySize == (if alg == AES128 then 16 else 32)
    ensures FamilyOf(alg) == 1 ==> p.ivSize == 16
    ensures FamilyOf(alg) == 2 ==> p.ivSize == 8
    ensures FamilyOf(alg) == 3 ==> p.ivSize == 24
  {
    if alg == AES128 then SymmetricProperties(128 / 8, 128 / 8)
    else if alg == AES256 then SymmetricProperties(256 / 8, 128 / 8)
    else if alg == ChaCha20_8 || alg == ChaCha20_12 || alg == ChaCha20_20 then SymmetricProperties(256 / 8, 64 / 8)
    else SymmetricProperties(256 / 8, 192 / 8)
  }

  /** The aliases are the same enumerators, so they share every property. */
  lemma AliasesAreTheSameTag()
    ensures ChaCha20 == ChaCha20_20 && XChaCha20 == XChaCha20_20
    ensures StaticSymmetricProperties(ChaCha20) == SymmetricProperties(32, 8)
    ensures StaticSymmetricProperties(XChaCha20) == SymmetricProperties(32, 24)
    ensures forall a | IsSymmetricAlgorithm(a) :: 1 <= FamilyOf(a) <= 3
  {
  }

  /** `get_symmetric_properties(alg)`: a lookup in `_symmetric_properties`,
      whose contents no code of the library fills, so it is a parameter. */
  function GetSymmetricProperties(table: map<SymmetricAlgorithm, SymmetricProperties>, alg: SymmetricAlgorithm)
    : (r: Result<SymmetricProperties>)
    ensures r.Success? <==> alg in table
    ensures r.Success? ==> r.value == table[alg]
    ensures r.Failure? ==> r.error == AlgorithmNotImplemented(SymmetricFamily, alg as u16)
  {
    Find(table, alg, AlgorithmNotImplemented(SymmetricFamily, alg as u16))
  }

  // ---------------------------------------------------------------------------
  // Keystream

  /** Byte `p` of the keystream Botan's stream cipher `name` produces under a
      key and IV. Every cipher here XORs this stream into the data. */
  type BotanKeystream = (string, Bytes, Bytes, nat) -> byte

  /** A cipher instance's name, key and IV. */
  datatype CipherKey = CipherKey(name: string, key: Bytes, iv: Bytes)

  /** The bytes of `m` combined with the keystream from position `pos`. */
  function Keystreamed(botan: BotanKeystream, c: CipherKey, pos: nat, m: Bytes): (r: Bytes)
    ensures |r| == |m|
  {
    seq(|m|, i requires 0 <= i < |m| => m[i] ^ botan(c.name, c.key, c.iv, pos + i))
  }

  /** Applying the keystream twice at the same position gives the message
      back: the property `F(F(M)) = M` the cipher wrapper relies on. */
  lemma KeystreamedInvolution(botan: BotanKeystream, c: CipherKey, pos: nat, m: Bytes)
    ensures Keystreamed(botan, c, pos, Keystreamed(botan, c, pos, m)) == m
  {
    var once := Keystreamed(botan, c, pos, m);
    var twice := Keystreamed(botan, c, pos, once);
    forall i | 0 <= i < |m| ensures twice[i] == m[i] {
      var k := botan(c.name, c.key, c.iv, pos + i);
      assert twice[i] == (m[i] ^ k) ^ k;
    }
  }

  /** Processing a message in two consecutive calls is the same as processing
      it in one: the second call starts where the first stopped. */
  lemma KeystreamedSplit(botan: BotanKeystream, c: CipherKey, pos: nat, a: Bytes, b: Bytes)
    ensures Keystreamed(botan, c, pos, a + b)
            == Keystreamed(botan, c, pos, a) + Keystreamed(botan, c, pos + |a|, b)
  {
    var whole := Keystreamed(botan, c, pos, a + b);
    var parts := Keystreamed(botan, c, pos, a) + Keystreamed(botan, c, pos + |a|, b);
    forall i | 0 <= i < |a| + |b| ensures whole[i] == parts[i] {
      if i >= |a| {
        assert (a + b)[i] == b[i - |a|];
        assert pos + i == pos + |a| + (i - |a|);
      }
    }
  }

  // ---------------------------------------------------------------------------
  // botan_impl

  const U64Modulus: nat := 0x1_0000_0000_0000_0000

  /** `botan_impl<Alg>`: a Botan stream cipher and the `uint64_t` counter
      `stream_pos`. `cipherPos` is the position inside the Botan object. */
  class BotanCipher {
    const alg: SymmetricAlgorithm
    const botan: BotanKeystream
    const key: CipherKey
    var cipherPos: nat
    var streamPos: u64

    /** `stream_pos` is the cipher's position reduced to 64 bits. */
    predicate Valid()
      reads this
    {
      streamPos as int == cipherPos % U64Modulus
    }

    /** The constructor of `botan_impl`: creates the cipher, sets key and IV. */
    constructor (alg: SymmetricAlgorithm, botan: BotanKeystream, name: string, key: Bytes, iv: Bytes)
      requires IsSymmetricAlgorithm(alg)
      requires |key| == StaticSymmetricProperties(alg).keySize && |iv| == StaticSymmetricProperties(alg).ivSize
      ensures this.alg == alg && this.botan == botan && this.key == CipherKey(name, key, iv)
      ensures Valid() && cipherPos == 0 && Pos() == 0
    {
      this.alg := alg;
      this.botan := botan;
      this.key := CipherKey(name, key, iv);
      cipherPos := 0;
      streamPos := 0;
    }

    /** `pos()`. */
    function Pos(): (p: u64)
      reads this
      requires Valid()
      ensures p as int == cipherPos % U64Modulus
    {
      streamPos
    }

    /** `alg()`: the class's template tag. */
    function Alg(): (a: SymmetricAlgorithm)
      ensures a == alg
    {
      alg
    }

    /** `cipher->cipher(in, out, n)` followed by `stream_pos += n`. */
    method Cipher(input: Bytes, output: array<byte>, n: nat)
      requires Valid() && n <= |input| && n <= output.Length
      modifies this, output
      ensures Valid() && cipherPos == old(cipherPos) + n
      ensures streamPos as int == (old(streamPos) as int + n) % U64Modulus
      ensures output[..n] == Keystreamed(botan, key, old(cipherPos), input[..n])
      ensures output[n..] == old(output[n..])
    {
      ghost var expected := Keystreamed(botan, key, cipherPos, input[..n]);
      var i := 0;
      while i < n
        modifies output
        invariant 0 <= i <= n
        invariant output[..i] == expected[..i]
        invariant output[n..] == old(output[n..])
      {
        output[i] := input[i] ^ botan(key.name, key.key, key.iv, cipherPos + i);
        i := i + 1;
      }
      assert output[..n] == expected;
      cipherPos := cipherPos + n;
      streamPos := ((streamPos as int + n) % U64Modulus) as u64;
    }

    /** `encrypt(inout)`: the whole buffer, in place. */
    method EncryptInPlace(inout: array<byte>)
      requires Valid()
      modifies this, inout
      ensures Valid() && cipherPos == old(cipherPos) + inout.Length
      ensures streamPos as int == (old(streamPos) as int + inout.Length) % U64Modulus
      ensures inout[..] == Keystreamed(botan, key, old(cipherPos), old(inout[..]))
    {
      Cipher(inout[..], inout, inout.Length);
    }

    /** `decrypt(inout)`: the same operation as `encrypt(inout)`. */
    method DecryptInPlace(inout: array<byte>)
      requires Valid()
      modifies this, inout
      ensures Valid() && cipherPos == old(cipherPos) + inout.Length
      ensures streamPos as int == (old(streamPos) as int + inout.Length) % U64Modulus
      ensures inout[..] == Keystreamed(botan, key, old(cipherPos), old(inout[..]))
    {
      Cipher(inout[..], inout, inout.Length);
    }

    /** `encrypt(input, output)`: processes as many bytes as both buffers
      have, returns that count, and leaves the rest of `output` alone. */
    method Encrypt(input: Bytes, output: array<byte>) returns (n: nat)
      requires Valid()
      modifies this, output
      ensures n == Min(|input|, output.Length)
      ensures Valid() && cipherPos == old(cipherPos) + n
      ensures streamPos as int == (old(streamPos) as int + n) % U64Modulus
      ensures output[..n] == Keystreamed(botan, key, old(cipherPos), input[..n])
      ensures output[n..] == old(output[n..])
    {
      n := Min(|input|, output.Length);
      Cipher(input, output, n);
    }

    /** `decrypt(input, output)`: the same operation as `encrypt(input, output)`. */
    method Decrypt(input: Bytes, output: array<byte>) returns (n: nat)
      requires Valid()
      modifies this, output
      ensures n == Min(|input|, output.Length)
      ensures Valid() && cipherPos == old(cipherPos) + n
      ensures streamPos as int == (old(streamPos) as int + n) % U64Modulus
      ensures output[..n] == Keystreamed(botan, key, old(cipherPos), input[..n])
      ensures output[n..] == old(output[n..])
    {
      n := Min(|input|, output.Length);
      Cipher(input, output, n);
    }

    /** The allocating `encrypt(input)`: a fresh buffer as long as the input. */
    method EncryptAlloc(input: Bytes) returns (out: Bytes)
      requires Valid()
      modifies this
      ensures |out| == |input|
      ensures out == Keystreamed(botan, key, old(cipherPos), input)
      ensures Valid() && cipherPos == old(cipherPos) + |input|
    {
      var ret := new byte[|input|];
      var _ := Encrypt(input, ret);
      assert input[..|input|] == input;
      out := ret[..];
    }

    /** The allocating `decrypt(input)`. */
    method DecryptAlloc(input: Bytes) returns (out: Bytes)
      requires Valid()
      modifies this
      ensures |out| == |input|
      ensures out == Keystreamed(botan, key, old(cipherPos), input)
      ensures Valid() && cipherPos == old(cipherPos) + |input|
    {
      var ret := new byte[|input|];
      var _ := Decrypt(input, ret);
      assert input[..|input|] == input;
      out := ret[..];
    }

    /** `seek(n)`: as if exactly `n` bytes had been processed since the start. */
    method Seek(newPos: u64)
      modifies this
      ensures Valid() && cipherPos == newPos as int && Pos() == newPos
    {
      streamPos := newPos;
      cipherPos := newPos as nat;
    }
  }

  /** Encrypting, seeking back to where encryption started and decrypting
      gives the plaintext back, and the position ends after the message. */
  method EncryptSeekDecrypt(c: BotanCipher, plaintext: Bytes) returns (ciphertext: Bytes, recovered: Bytes)
    requires c.Valid() && c.cipherPos < U64Modulus
    modifies c
    ensures |ciphertext| == |plaintext| && recovered == plaintext
    ensures c.Valid() && c.cipherPos == old(c.cipherPos) + |plaintext|
  {
    var start := c.Pos();
    ciphertext := c.EncryptAlloc(plaintext);
    c.Seek(start);
    recovered := c.DecryptAlloc(ciphertext);
    KeystreamedInvolution(c.botan, c.key, old(c.cipherPos), plaintext);
  }

  // ---------------------------------------------------------------------------
  // Registration

  /** One class generated by `C3_UPSILON_DEF_SYM_BOTAN`: its template tag
      and the Botan cipher name it creates. */
  datatype SymmetricClass = SymmetricClass(alg: SymmetricAlgorithm, botanName: string)

  /** The macro invocations as written, in source order: the last two
      XChaCha classes are filed, and tagged, as `XChaCha20_8`. */
  function SymmetricEntries(): seq<(SymmetricAlgorithm, SymmetricClass)> {
    [ (AES128, SymmetricClass(AES128, "CTR(AES-128)")),
      (AES256, SymmetricClass(AES256, "CTR(AES-256)")),
      (ChaCha20_8, SymmetricClass(ChaCha20_8, "ChaCha(8)")),
      (ChaCha20_12, SymmetricClass(ChaCha20_12, "ChaCha(12)")),
      (ChaCha20_20, SymmetricClass(ChaCha20_20, "ChaCha(20)")),
      (XChaCha20_8, SymmetricClass(XChaCha20_8, "ChaCha(8)")),
      (XChaCha20_8, SymmetricClass(XChaCha20_8, "ChaCha(12)")),
      (XChaCha20_8, SymmetricClass(XChaCha20_8, "ChaCha(20)")) ]
  }

  /** `_symmetric_functions` after static initialisation. */
  function SymmetricFuncs(): map<SymmetricAlgorithm, SymmetricClass> {
    Registered(SymmetricEntries())
  }

  /** Because `emplace` keeps the first entry, the eight-round class is the
      one filed under `XChaCha20_8`; the 12- and 20-round classes are
      dropped, and the `XChaCha20_12` and `XChaCha20_20` (= `XChaCha20`)
      tags are not registered at all. */
  lemma XChaChaShadowed()
    ensures SymmetricFuncs().Keys == {AES128, AES256, ChaCha20_8, ChaCha20_12, ChaCha20_20, XChaCha20_8}
    ensures SymmetricFuncs()[XChaCha20_8] == SymmetricClass(XChaCha20_8, "ChaCha(8)")
    ensures XChaCha20_12 !in SymmetricFuncs() && XChaCha20 !in SymmetricFuncs()
  {
    var es := SymmetricEntries();
    RegisteredKeys(map[], es);
    assert KeysOf(es) == {AES128, AES256, ChaCha20_8, ChaCha20_12, ChaCha20_20, XChaCha20_8} by {
      assert es[0].0 in KeysOf(es) && es[1].0 in KeysOf(es) && es[2].0 in KeysOf(es);
      assert es[3].0 in KeysOf(es) && es[4].0 in KeysOf(es) && es[5].0 in KeysOf(es);
    }
    FirstRegistrationWins(map[], es, 5);
  }

  /** The registrations with each class under its own tag. */
  function CorrectedSymmetricEntries(): seq<(SymmetricAlgorithm, SymmetricClass)> {
    [ (AES128, SymmetricClass(AES128, "CTR(AES-128)")),
      (AES256, SymmetricClass(AES256, "CTR(AES-256)")),
      (ChaCha20_8, SymmetricClass(ChaCha20_8, "ChaCha(8)")),
      (ChaCha20_12, SymmetricClass(ChaCha20_12, "ChaCha(12)")),
      (ChaCha20_20, SymmetricClass(ChaCha20_20, "ChaCha(20)")),
      (XChaCha20_8, SymmetricClass(XChaCha20_8, "ChaCha(8)")),
      (XChaCha20_12, SymmetricClass(XChaCha20_12, "ChaCha(12)")),
      (XChaCha20_20, SymmetricClass(XChaCha20_20, "ChaCha(20)")) ]
  }

  /** With the corrected registrations every declared tag is found, and the
      class found reports that tag from `alg()`. */
  lemma CorrectedRegistrationCoversEveryTag(alg: SymmetricAlgorithm)
    ensures alg in Registered(CorrectedSymmetricEntries()) <==> IsSymmetricAlgorithm(alg)
    ensures IsSymmetricAlgorithm(alg) ==> Registered(CorrectedSymmetricEntries())[alg].alg == alg
  {
    var es := CorrectedSymmetricEntries();
    RegisteredKeys(map[], es);
    if IsSymmetricAlgorithm(alg) {
      var i :=
        if alg == AES128 then 0 else if alg == AES256 then 1
        else if alg == ChaCha20_8 then 2 else if alg == ChaCha20_12 then 3
        else if alg == ChaCha20_20 then 4 else if alg == XChaCha20_8 then 5
        else if alg == XChaCha20_12 then 6 else 7;
      DistinctRegistered(es, i);
    } else {
      forall i | 0 <= i < |es| ensures es[i].0 != alg { }
    }
  }

  /** The key and IV lengths a class's constructor accepts. */
  predicate Fits(alg: SymmetricAlgorithm, key: Bytes, iv: Bytes) {
    IsSymmetricAlgorithm(alg)
    && |key| == StaticSymmetricProperties(alg).keySize
    && |iv| == StaticSymmetricProperties(alg).ivSize
  }

  /** `get_symmetric_function(alg, key, iv)`: a registry lookup, then the
      registered factory. The factory converts the key and IV to fixed-extent
      spans; a length that does not match the extent fails the span's
      contract check, which terminates the program. */
  method GetSymmetricFunction(registry: map<SymmetricAlgorithm, SymmetricClass>, botan: BotanKeystream,
                              alg: SymmetricAlgorithm, key: Bytes, iv: Bytes)
    returns (r: Result<BotanCipher>)
    ensures r.Success? <==> alg in registry && Fits(registry[alg].alg, key, iv)
    ensures alg !in registry ==> r == Failure(AlgorithmNotImplemented(SymmetricFamily, alg as u16))
    ensures alg in registry && !Fits(registry[alg].alg, key, iv) ==> r == Failure(ContractViolation)
    ensures r.Success? ==> fresh(r.value) && r.value.Valid() && r.value.Pos() == 0
    ensures r.Success? ==> r.value.Alg() == registry[alg].alg && r.value.key == CipherKey(registry[alg].botanName, key, iv)
  {
    if alg !in registry {
      return Failure(AlgorithmNotImplemented(SymmetricFamily, alg as u16));
    }
    var cls := registry[alg];
    if !Fits(cls.alg, key, iv) {
      return Failure(ContractViolation);
    }
    var c := new BotanCipher(cls.alg, botan, cls.botanName, key, iv);
    return Success(c);
  }
}
