/** Key agreement: the Curve25519 agreement function, its registries, the
    serialisable `remote_agreer`, and `agreer`, which runs the agreement and
    expands the result with a KDF. */
module KeyAgreement {
  import opened Common
  import opened Registries
  import opened KeyDerivation
  import Symmetric

  /** `enum class agreement_algorithm : uint16_t`. */
  newtype AgreementAlgorithm = x: int | 0 <= x < 0x1_0000

  const Curve25519: AgreementAlgorithm := 0x0000

  // ---------------------------------------------------------------------------
  // The Curve25519 primitive

  /** What the model knows of Botan's Curve25519 key: its public value, byte
      `i` of the raw shared secret with a peer's public value, and its PKCS#8
      BER encoding. */
  datatype Curve25519Ops = Curve25519Ops(
    publicValue: Bytes -> Bytes,
    sharedByte: (Bytes, Bytes, nat) -> byte,
    berEncode: Bytes -> Bytes)

  /** `curve25519::agree`: `derive_key(32, other)` with the "Raw" KDF. */
  function Agree(ops: Curve25519Ops, secret: Bytes, other: Bytes): (k: Bytes)
    ensures |k| == 32
  {
    seq(32, i requires 0 <= i < 32 => ops.sharedByte(secret, other, i))
  }

  /** The Diffie-Hellman property: each party, combining its secret with the
      other's public value, reaches the same raw secret. */
  ghost predicate Commutes(ops: Curve25519Ops) {
    forall a: Bytes, b: Bytes | |a| == 32 && |b| == 32 ::
      Agree(ops, a, ops.publicValue(b)) == Agree(ops, b, ops.publicValue(a))
  }

  /** A `curve25519` object: one 32-byte private key. */
  datatype AgreementFunction = Curve25519Function(secret: Bytes) {
    predicate Valid() { |secret| == 32 }
  }

  /** `curve25519(b)`: Botan accepts only a raw 32-byte private key. */
  function LoadCurve25519(b: Bytes): (r: Result<AgreementFunction>)
    ensures r.Success? <==> |b| == 32
    ensures r.Success? ==> r.value.secret == b && r.value.Valid()
    ensures r.Failure? ==> r.error == InvalidKeyEncoding
  {
    if |b| == 32 then Success(Curve25519Function(b)) else Failure(InvalidKeyEncoding)
  }

  /** `serialise_public`. */
  function SerialisePublic(ops: Curve25519Ops, f: AgreementFunction): Bytes {
    ops.publicValue(f.secret)
  }

  /** `serialise_private` as written: the PKCS#8 BER encoding. */
  function SerialisePrivate(ops: Curve25519Ops, f: AgreementFunction): Bytes {
    ops.berEncode(f.secret)
  }

  // ---------------------------------------------------------------------------
  // Registries

  /** The one class of agreement functions. */
  datatype AgreementClass = Curve25519Class

  /** `_agreement_functions` and `_ag_gens` after static initialisation: both
      hold the Curve25519 class, emplaced by the same boilerplate. */
  function AgreementEntries(): seq<(AgreementAlgorithm, AgreementClass)> {
    [(Curve25519, Curve25519Class)]
  }

  function AgreementFunctions(): map<AgreementAlgorithm, AgreementClass> {
    Registered(AgreementEntries())
  }

  function AgreementGenerators(): map<AgreementAlgorithm, AgreementClass> {
    Registered(AgreementEntries())
  }

  /** Curve25519 is the one tag in either map. */
  lemma AgreementRegistration(alg: AgreementAlgorithm)
    ensures alg in AgreementFunctions() <==> alg == Curve25519
    ensures alg in AgreementGenerators() <==> alg == Curve25519
  {
    RegisteredKeys(map[], AgreementEntries());
    assert KeysOf(AgreementEntries()) == {Curve25519} by {
      assert AgreementEntries()[0].0 == Curve25519;
    }
  }

  /** `get_agreement_function(alg, b)`: the lookup, then the class's loader. */
  function GetAgreementFunction(alg: AgreementAlgorithm, b: Bytes): (r: Result<AgreementFunction>)
    ensures alg != Curve25519 ==> r == Failure(AlgorithmNotImplemented(AgreementFamily, alg as u16))
    ensures alg == Curve25519 ==> r == LoadCurve25519(b)
  {
    AgreementRegistration(alg);
    var _ :- Find(AgreementFunctions(), alg, AlgorithmNotImplemented(AgreementFamily, alg as u16));
    LoadCurve25519(b)
  }

  /** `gen_agreement_function(alg)`: the lookup, then a key from the random
      generator, which is the parameter `secret`. */
  function GenAgreementFunction(alg: AgreementAlgorithm, secret: Bytes): (r: Result<AgreementFunction>)
    requires |secret| == 32
    ensures alg != Curve25519 ==> r == Failure(AlgorithmNotImplemented(AgreementFamily, alg as u16))
    ensures alg == Curve25519 ==> r == Success(Curve25519Function(secret)) && r.value.Valid()
  {
    AgreementRegistration(alg);
    var _ :- Find(AgreementGenerators(), alg, AlgorithmNotImplemented(AgreementFamily, alg as u16));
    Success(Curve25519Function(secret))
  }

  // ---------------------------------------------------------------------------
  // remote_agreer

  /** The three fields both `remote_agreer` and `agreer` serialise. */
  type AgreerFields = (KdfAlgorithm, AgreementAlgorithm, Bytes)

  /** `remote_agreer`: a peer's tags and public value. */
  datatype RemoteAgreer = RemoteAgreer(kdfAlg: KdfAlgorithm, agreementAlg: AgreementAlgorithm, sharedSecret: Bytes)

  function SerialiseRemote(c: Codec<AgreerFields>, r: RemoteAgreer): Bytes {
    c.encode((r.kdfAlg, r.agreementAlg, r.sharedSecret))
  }

  function DeserialiseRemote(c: Codec<AgreerFields>, b: Bytes): (r: Result<RemoteAgreer>)
    ensures r.Success? <==> c.decode(b).Some?
    ensures r.Success? ==> c.decode(b) == Some((r.value.kdfAlg, r.value.agreementAlg, r.value.sharedSecret))
  {
    match c.decode(b)
    case None => Failure(SerialisationFailure)
    case Some(f) => Success(RemoteAgreer(f.0, f.1, f.2))
  }

  /** The fields are read back in the order they were written. */
  lemma RemoteAgreerRoundTrip(c: Codec<AgreerFields>, r: RemoteAgreer)
    requires RoundTrips(c)
    ensures DeserialiseRemote(c, SerialiseRemote(c, r)) == Success(r)
  {
  }

  // ---------------------------------------------------------------------------
  // agreer

  /** `agreer`: an agreement tag, an agreement function and a KDF. */
  datatype Agreer = Agreer(agreementAlg: AgreementAlgorithm, func: AgreementFunction, kdf: Kdf) {

    /** `get_public`. */
    function GetPublic(ops: Curve25519Ops): Bytes {
      SerialisePublic(ops, func)
    }

    /** `derive_shared_secret(other, output)`: the KDF over the agreed secret
      fills the whole caller buffer. */
    method DeriveSharedSecretInto(ops: Curve25519Ops, shake: ShakeStream, other: Bytes, output: array<byte>)
      modifies output
      ensures output[..] == kdf.Expanded(shake, Agree(ops, func.secret, other), output.Length)
    {
      var raw := Agree(ops, func.secret, other);
      kdf.Expand(shake, raw, output);
    }

    /** `derive_shared_key<SymAlg>(other)`: a key of exactly the cipher's
      key size. */
    method DeriveSharedKey(ops: Curve25519Ops, shake: ShakeStream, symAlg: Symmetric.SymmetricAlgorithm, other: Bytes)
      returns (key: Bytes)
      requires Symmetric.IsSymmetricAlgorithm(symAlg)
      ensures |key| == Symmetric.StaticSymmetricProperties(symAlg).keySize
      ensures key == SharedSecret(ops, shake, this, other, |key|)
    {
      var raw := Agree(ops, func.secret, other);
      var ret := new byte[Symmetric.StaticSymmetricProperties(symAlg).keySize];
      kdf.Expand(shake, raw, ret);
      key := ret[..];
    }

    /** `derive_shared_secret(other, output_len)` and
      `derive_shared_secret<OutputLen>(other)` as written: both pass
      `agree(other)` to the buffer overload, which agrees a second time. */
    method DeriveSharedSecret(ops: Curve25519Ops, shake: ShakeStream, other: Bytes, outputLen: nat)
      returns (s: Bytes)
      ensures |s| == outputLen
      ensures s == DoubleAgreedSecret(ops, shake, this, other, outputLen)
    {
      var ret := new byte[outputLen];
      DeriveSharedSecretInto(ops, shake, Agree(ops, func.secret, other), ret);
      s := ret[..];
    }

    /** The length-taking overloads with a single agreement, as the buffer
      overload and `derive_shared_key` do it. */
    method DeriveSharedSecretCorrected(ops: Curve25519Ops, shake: ShakeStream, other: Bytes, outputLen: nat)
      returns (s: Bytes)
      ensures |s| == outputLen
      ensures s == SharedSecret(ops, shake, this, other, outputLen)
    {
      var ret := new byte[outputLen];
      DeriveSharedSecretInto(ops, shake, other, ret);
      s := ret[..];
    }
  }

  /** The secret an agreer derives from a peer's public value. */
  function SharedSecret(ops: Curve25519Ops, shake: ShakeStream, a: Agreer, other: Bytes, n: nat): (s: Bytes)
    ensures |s| == n
  {
    a.kdf.Expanded(shake, Agree(ops, a.func.secret, other), n)
  }

  /** The secret the length-taking overloads derive as written. */
  function DoubleAgreedSecret(ops: Curve25519Ops, shake: ShakeStream, a: Agreer, other: Bytes, n: nat): (s: Bytes)
    ensures |s| == n
    ensures s == SharedSecret(ops, shake, a, Agree(ops, a.func.secret, other), n)
  {
    a.kdf.Expanded(shake, Agree(ops, a.func.secret, Agree(ops, a.func.secret, other)), n)
  }

  /** Two parties using the same KDF derive the same secret from each other's
      public values, for any output length, when the agreement commutes. */
  lemma PartiesAgree(ops: Curve25519Ops, shake: ShakeStream, alice: Agreer, bob: Agreer, n: nat)
    requires Commutes(ops) && alice.func.Valid() && bob.func.Valid() && alice.kdf == bob.kdf
    ensures SharedSecret(ops, shake, alice, bob.GetPublic(ops), n)
            == SharedSecret(ops, shake, bob, alice.GetPublic(ops), n)
  {
    assert Agree(ops, alice.func.secret, ops.publicValue(bob.func.secret))
        == Agree(ops, bob.func.secret, ops.publicValue(alice.func.secret));
  }

  /** A toy agreement in which the public value is the secret itself and the
      shared secret's first byte is the product of the two first bytes, and a
      toy KDF that copies its input. */
  function ToyOps(): Curve25519Ops {
    Curve25519Ops(
      (s: Bytes) => s,
      (s: Bytes, o: Bytes, i: nat) => if i == 0 && |s| > 0 && |o| > 0 then s[0] * o[0] else 0,
      (s: Bytes) => s)
  }

  function ToyShake(): ShakeStream {
    (strength: nat, m: Bytes, i: nat) => if i < |m| then m[i] else 0
  }

  /** The toy agreement has the Diffie-Hellman property. */
  lemma ToyCommutes()
    ensures Commutes(ToyOps())
  {
    var ops := ToyOps();
    forall a: Bytes, b: Bytes | |a| == 32 && |b| == 32
      ensures Agree(ops, a, ops.publicValue(b)) == Agree(ops, b, ops.publicValue(a))
    {
      assert a[0] * b[0] == b[0] * a[0];
    }
  }

  /** Two toy parties, with every secret byte 1 and 2 respectively. */
  function ToyAlice(): Agreer { Agreer(Curve25519, Curve25519Function(seq(32, _ => 1)), Shake256Kdf) }
  function ToyBob(): Agreer { Agreer(Curve25519, Curve25519Function(seq(32, _ => 2)), Shake256Kdf) }

  /** The toy agreement commutes, so the parties' single agreements match,
      yet with the length-taking overloads as written they derive different
      secrets: `1·1·2 != 2·2·1`. */
  lemma DoubleAgreementDisagrees()
    ensures Commutes(ToyOps())
    ensures SharedSecret(ToyOps(), ToyShake(), ToyAlice(), ToyBob().GetPublic(ToyOps()), 1)
            == SharedSecret(ToyOps(), ToyShake(), ToyBob(), ToyAlice().GetPublic(ToyOps()), 1)
    ensures DoubleAgreedSecret(ToyOps(), ToyShake(), ToyAlice(), ToyBob().GetPublic(ToyOps()), 1)
            != DoubleAgreedSecret(ToyOps(), ToyShake(), ToyBob(), ToyAlice().GetPublic(ToyOps()), 1)
  {
    ToyCommutes();
    PartiesAgree(ToyOps(), ToyShake(), ToyAlice(), ToyBob(), 1);
    var ops, shake := ToyOps(), ToyShake();
    var one, two := ToyAlice().func.secret, ToyBob().func.secret;
    assert one[0] == 1 && two[0] == 2;
    var aliceOnce := Agree(ops, one, two);
    assert aliceOnce[0] == 2;
    var aliceTwice := Agree(ops, one, aliceOnce);
    assert aliceTwice[0] == 2;
    var bobOnce := Agree(ops, two, one);
    assert bobOnce[0] == 2;
    var bobTwice := Agree(ops, two, bobOnce);
    assert bobTwice[0] == 4;
    assert ShakeOutput(shake, 256, aliceTwice, 1)[0] == 2;
    assert ShakeOutput(shake, 256, bobTwice, 1)[0] == 4;
  }

  // ---------------------------------------------------------------------------
  // Construction, generation and serialisation

  /** `agreer(kdf_alg, agreement_alg, pub)`: the members are initialised in
      declaration order, so the agreement function is resolved (and its
      errors raised) before the KDF. */
  function AgreerFromPrivate(kdfAlg: KdfAlgorithm, agreementAlg: AgreementAlgorithm, b: Bytes): (r: Result<Agreer>)
    ensures r.Success? <==> agreementAlg == Curve25519 && |b| == 32 && GetKdf(kdfAlg).Success?
    ensures agreementAlg != Curve25519 ==> r == Failure(AlgorithmNotImplemented(AgreementFamily, agreementAlg as u16))
    ensures agreementAlg == Curve25519 && |b| != 32 ==> r == Failure(InvalidKeyEncoding)
    ensures r.Success? ==> r.value == Agreer(agreementAlg, Curve25519Function(b), GetKdf(kdfAlg).value)
  {
    var func :- GetAgreementFunction(agreementAlg, b);
    var kdf :- GetKdf(kdfAlg);
    Success(Agreer(agreementAlg, func, kdf))
  }

  /** `agreer::gen(kdf_alg, agreement_alg)`: a fresh key under the agreement
      tag, with the KDF registered under the KDF tag. */
  function Gen(kdfAlg: KdfAlgorithm, agreementAlg: AgreementAlgorithm, secret: Bytes): (r: Result<Agreer>)
    requires |secret| == 32
    ensures r.Success? <==> agreementAlg == Curve25519 && GetKdf(kdfAlg).Success?
    ensures r.Success? ==> r.value.agreementAlg == agreementAlg && r.value.kdf.Alg() == kdfAlg
    ensures r.Success? ==> r.value.func == Curve25519Function(secret) && r.value.func.Valid()
  {
    KdfRegistration(kdfAlg);
    var func :- GenAgreementFunction(agreementAlg, secret);
    var kdf :- GetKdf(kdfAlg);
    Success(Agreer(agreementAlg, func, kdf))
  }

  /** `agreer::gen(base)`: generates with the peer's two tags. */
  function GenFor(base: RemoteAgreer, secret: Bytes): (r: Result<Agreer>)
    requires |secret| == 32
    ensures r.Success? ==> r.value.agreementAlg == base.agreementAlg && r.value.kdf.Alg() == base.kdfAlg
    ensures r == Gen(base.kdfAlg, base.agreementAlg, secret)
  {
    Gen(base.kdfAlg, base.agreementAlg, secret)
  }

  /** `agreer::_serialise` as written: the KDF tag, the agreement tag and the
      BER-encoded private key. */
  function SerialiseAgreer(c: Codec<AgreerFields>, ops: Curve25519Ops, a: Agreer): Bytes {
    c.encode((a.kdf.Alg(), a.agreementAlg, SerialisePrivate(ops, a.func)))
  }

  /** `agreer`'s deserialiser: reads the three fields, then constructs from
      the payload through `get_agreement_function`. */
  function DeserialiseAgreer(c: Codec<AgreerFields>, b: Bytes): (r: Result<Agreer>)
    ensures c.decode(b).None? ==> r == Failure(SerialisationFailure)
    ensures c.decode(b).Some? ==> r == AgreerFromPrivate(c.decode(b).value.0, c.decode(b).value.1, c.decode(b).value.2)
  {
    match c.decode(b)
    case None => Failure(SerialisationFailure)
    case Some(f) => AgreerFromPrivate(f.0, f.1, f.2)
  }

  /** A serialised agreer does not load back: the private key is written in
      its BER encoding, which is not the 32 raw bytes the loader accepts. */
  lemma AgreerRoundTripFails(c: Codec<AgreerFields>, ops: Curve25519Ops, a: Agreer)
    requires RoundTrips(c)
    requires a.agreementAlg == Curve25519 && a.func.Valid()
    requires |ops.berEncode(a.func.secret)| != 32
    ensures DeserialiseAgreer(c, SerialiseAgreer(c, ops, a)) == Failure(InvalidKeyEncoding)
  {
  }

  /** `_serialise` writing the raw private key instead. */
  function SerialiseAgreerRaw(c: Codec<AgreerFields>, a: Agreer): Bytes {
    c.encode((a.kdf.Alg(), a.agreementAlg, a.func.secret))
  }

  /** With the raw key, every agreer that `gen` or the loader can produce
      deserialises to itself. */
  lemma AgreerRawRoundTrip(c: Codec<AgreerFields>, a: Agreer)
    requires RoundTrips(c)
    requires a.agreementAlg == Curve25519 && a.func.Valid()
    ensures DeserialiseAgreer(c, SerialiseAgreerRaw(c, a)) == Success(a)
  {
    KdfRegistration(a.kdf.Alg());
    assert a.kdf == Shake128Kdf || a.kdf == Shake256Kdf;
  }
}
