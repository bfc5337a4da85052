/** Signing identities: the Ed25519 verifier and signer classes registered
    under `signature_algorithm::Curve25519`, their registries, and the
    `identity`/`owned_identity` pairs of a signature algorithm with a
    message hasher. */
module Signatures {
  import opened Common
  import opened Registries
  import opened HashValues
  import opened Hashing

  /** `enum class signature_algorithm : uint16_t`. */
  newtype SignatureAlgorithm = x: int | 0 <= x < 0x1_0000

  const Curve25519: SignatureAlgorithm := 0x0000

  // ---------------------------------------------------------------------------
  // The Ed25519 primitive

  /** What the model knows of Botan's Ed25519 keys: the public key bits of a
      private key, and the signing and verification of a message. A private
      key is held as the 64 bytes `get_private_key` returns. */
  datatype Ed25519Ops = Ed25519Ops(
    publicOf: Bytes -> Bytes,
    sign: (Bytes, Bytes) -> Bytes,
    verify: (Bytes, Bytes, Bytes) -> bool)

  const PrivateKeySize: nat := 64
  const PublicKeySize: nat := 32

  /** Signature correctness: a signature made with a private key verifies
      under its public key, which is 32 bytes long. */
  ghost predicate Correct(ops: Ed25519Ops) {
    (forall k: Bytes | |k| == PrivateKeySize :: |ops.publicOf(k)| == PublicKeySize)
    && (forall k: Bytes, m: Bytes | |k| == PrivateKeySize :: ops.verify(ops.publicOf(k), m, ops.sign(k, m)))
  }

  /** `curve25519_verifier`: a public key. */
  datatype Verifier = Ed25519Verifier(pub: Bytes) {
    /** `verify(input_hash, sig)`: the hashed input goes to Botan unchanged. */
    function Verify(ops: Ed25519Ops, inputHash: Bytes, sig: Bytes): bool {
      ops.verify(pub, inputHash, sig)
    }

    /** `serialise_pub`. */
    function SerialisePub(): Bytes { pub }
  }

  /** `curve25519_signer`: a private key; its `pub` verifier is built from
      the same key. */
  datatype Signer = Ed25519Signer(priv: Bytes) {
    function Sign(ops: Ed25519Ops, inputHash: Bytes): Bytes {
      ops.sign(priv, inputHash)
    }

    function Verify(ops: Ed25519Ops, inputHash: Bytes, sig: Bytes): bool {
      ops.verify(ops.publicOf(priv), inputHash, sig)
    }

    function SerialisePub(ops: Ed25519Ops): Bytes { ops.publicOf(priv) }

    function SerialisePriv(): Bytes { priv }
  }

  /** A signer accepts its own signatures when the primitive is correct. */
  lemma SignerAcceptsOwnSignatures(ops: Ed25519Ops, s: Signer, inputHash: Bytes)
    requires Correct(ops) && |s.priv| == PrivateKeySize
    ensures s.Verify(ops, inputHash, s.Sign(ops, inputHash))
    ensures Ed25519Verifier(s.SerialisePub(ops)).Verify(ops, inputHash, s.Sign(ops, inputHash))
  {
  }

  /** `curve25519_verifier(b)`: Botan's Ed25519 public key takes 32 bytes. */
  function LoadVerifier(b: Bytes): (r: Result<Verifier>)
    ensures r.Success? <==> |b| == PublicKeySize
    ensures r.Success? ==> r.value.pub == b
    ensures r.Failure? ==> r.error == InvalidKeyEncoding
  {
    if |b| == PublicKeySize then Success(Ed25519Verifier(b)) else Failure(InvalidKeyEncoding)
  }

  /** `curve25519_signer(b)`: a private key in the form `serialise_priv` writes. */
  function LoadSigner(b: Bytes): (r: Result<Signer>)
    ensures r.Success? <==> |b| == PrivateKeySize
    ensures r.Success? ==> r.value.priv == b
    ensures r.Failure? ==> r.error == InvalidKeyEncoding
  {
    if |b| == PrivateKeySize then Success(Ed25519Signer(b)) else Failure(InvalidKeyEncoding)
  }

  // ---------------------------------------------------------------------------
  // Registries

  /** The one class pair the macro defines. */
  datatype SignatureClass = Curve25519Class

  /** `_signers`, `_verifiers` and `_sig_gens` after static initialisation:
      the macro emplaces Curve25519 into all three. */
  function SignatureEntries(): seq<(SignatureAlgorithm, SignatureClass)> {
    [(Curve25519, Curve25519Class)]
  }

  function Signers(): map<SignatureAlgorithm, SignatureClass> { Registered(SignatureEntries()) }
  function Verifiers(): map<SignatureAlgorithm, SignatureClass> { Registered(SignatureEntries()) }
  function SignerGenerators(): map<SignatureAlgorithm, SignatureClass> { Registered(SignatureEntries()) }

  /** Curve25519 is the one tag in each of the three maps. */
  lemma SignatureRegistration(alg: SignatureAlgorithm)
    ensures alg in Signers() <==> alg == Curve25519
    ensures alg in Verifiers() <==> alg == Curve25519
    ensures alg in SignerGenerators() <==> alg == Curve25519
  {
    RegisteredKeys(map[], SignatureEntries());
    assert KeysOf(SignatureEntries()) == {Curve25519} by {
      assert SignatureEntries()[0].0 == Curve25519;
    }
  }

  /** The error a signature lookup throws for a tag it does not hold. */
  function SignatureNotImplemented(alg: SignatureAlgorithm): Error {
    AlgorithmNotImplemented(SignatureFamily, alg as u16)
  }

  /** `get_verifier(alg, b)`. */
  function GetVerifier(alg: SignatureAlgorithm, b: Bytes): (r: Result<Verifier>)
    ensures alg != Curve25519 ==> r == Failure(SignatureNotImplemented(alg))
    ensures alg == Curve25519 ==> r == LoadVerifier(b)
  {
    SignatureRegistration(alg);
    var _ :- Find(Verifiers(), alg, SignatureNotImplemented(alg));
    LoadVerifier(b)
  }

  /** `get_signer(alg, b)`. */
  function GetSigner(alg: SignatureAlgorithm, b: Bytes): (r: Result<Signer>)
    ensures alg != Curve25519 ==> r == Failure(SignatureNotImplemented(alg))
    ensures alg == Curve25519 ==> r == LoadSigner(b)
  {
    SignatureRegistration(alg);
    var _ :- Find(Signers(), alg, SignatureNotImplemented(alg));
    LoadSigner(b)
  }

  /** `gen_signer(alg)`: the fresh private key from the random generator is
      the parameter `key`. */
  function GenSigner(alg: SignatureAlgorithm, key: Bytes): (r: Result<Signer>)
    requires |key| == PrivateKeySize
    ensures alg != Curve25519 ==> r == Failure(SignatureNotImplemented(alg))
    ensures alg == Curve25519 ==> r == Success(Ed25519Signer(key))
  {
    SignatureRegistration(alg);
    var _ :- Find(SignerGenerators(), alg, SignatureNotImplemented(alg));
    Success(Ed25519Signer(key))
  }

  // ---------------------------------------------------------------------------
  // identity and owned_identity

  /** `identity`: someone else's public identity. */
  datatype Identity = Identity(sigAlg: SignatureAlgorithm, msgHasher: Hasher, impl: Verifier) {
    /** `verify(b, sig)`: checks the signature of the message's hash. */
    function Verify(ops: Ed25519Ops, botan: BotanDigest, b: Bytes, sig: Bytes): bool {
      impl.Verify(ops, HashOf(botan, msgHasher, b), sig)
    }
  }

  /** `owned_identity`: one's own identity, holding the private key. */
  datatype OwnedIdentity = OwnedIdentity(sigAlg: SignatureAlgorithm, msgHasher: Hasher, impl: Signer) {
    /** `sign(b)`: signs the message's hash. */
    function Sign(ops: Ed25519Ops, botan: BotanDigest, b: Bytes): Bytes {
      impl.Sign(ops, HashOf(botan, msgHasher, b))
    }

    /** `verify(b, sig)`. */
    function Verify(ops: Ed25519Ops, botan: BotanDigest, b: Bytes, sig: Bytes): bool {
      impl.Verify(ops, HashOf(botan, msgHasher, b), sig)
    }

    /** The public identity matching this one. */
    function Public(ops: Ed25519Ops): Identity {
      Identity(sigAlg, msgHasher, Ed25519Verifier(impl.SerialisePub(ops)))
    }
  }

  /** Signing and verifying see the message only through its hash: two
      messages with the same hash get the same signature and the same
      verdicts. */
  lemma OnlyTheHashIsSigned(ops: Ed25519Ops, botan: BotanDigest, me: OwnedIdentity, id: Identity,
                            b1: Bytes, b2: Bytes, sig: Bytes)
    requires HashOf(botan, me.msgHasher, b1) == HashOf(botan, me.msgHasher, b2)
    requires HashOf(botan, id.msgHasher, b1) == HashOf(botan, id.msgHasher, b2)
    ensures me.Sign(ops, botan, b1) == me.Sign(ops, botan, b2)
    ensures me.Verify(ops, botan, b1, sig) == me.Verify(ops, botan, b2, sig)
    ensures id.Verify(ops, botan, b1, sig) == id.Verify(ops, botan, b2, sig)
  {
  }

  /** An identity whose hasher came from the registry and whose key has the
      stored form: what `gen` and the deserialisers produce. */
  predicate WellFormed(me: OwnedIdentity) {
    IsRegisteredHash(me.msgHasher.Properties().alg)
    && me.msgHasher == Hasher(StaticHashFunction(me.msgHasher.Properties().alg))
    && |me.impl.priv| == PrivateKeySize
  }

  /** `owned_identity::gen(sig_alg, msg_hash_alg)`: the hasher is looked up
      first, then a signer generated. */
  function GenOwnedIdentity(sigAlg: SignatureAlgorithm, hashAlg: HashAlgorithm, key: Bytes): (r: Result<OwnedIdentity>)
    requires |key| == PrivateKeySize
    ensures !IsRegisteredHash(hashAlg) ==> r == Failure(AlgorithmNotImplemented(HashFamily, hashAlg as u16))
    ensures IsRegisteredHash(hashAlg) && sigAlg != Curve25519 ==> r == Failure(SignatureNotImplemented(sigAlg))
    ensures r.Success? <==> IsRegisteredHash(hashAlg) && sigAlg == Curve25519
    ensures r.Success? ==> WellFormed(r.value) && r.value.sigAlg == sigAlg
    ensures r.Success? ==> r.value.msgHasher.Properties().alg == hashAlg && r.value.impl.priv == key
  {
    var h :- GetHasher(hashAlg);
    var s :- GenSigner(sigAlg, key);
    Success(OwnedIdentity(sigAlg, h, s))
  }

  /** The hybrid layout of both identities: signature tag, hash tag, key. */
  function SerialiseIdentity(c: Codec<Tagged>, id: Identity): Bytes {
    c.encode(Tagged(id.sigAlg as u16, id.msgHasher.Properties().alg as u16, id.impl.SerialisePub()))
  }

  /** `owned_identity::serialise_public`. */
  function SerialisePublic(c: Codec<Tagged>, ops: Ed25519Ops, me: OwnedIdentity): (b: Bytes)
    ensures b == SerialiseIdentity(c, me.Public(ops))
  {
    c.encode(Tagged(me.sigAlg as u16, me.msgHasher.Properties().alg as u16, me.impl.SerialisePub(ops)))
  }

  /** `owned_identity::_serialise`. */
  function SerialiseOwned(c: Codec<Tagged>, me: OwnedIdentity): Bytes {
    c.encode(Tagged(me.sigAlg as u16, me.msgHasher.Properties().alg as u16, me.impl.SerialisePriv()))
  }

  /** `identity`'s deserialiser: both tags are read first; then the hasher is
      resolved, then the verifier. */
  function DeserialiseIdentity(c: Codec<Tagged>, b: Bytes): (r: Result<Identity>)
    ensures c.decode(b).None? ==> r == Failure(SerialisationFailure)
    ensures c.decode(b).Some? && GetHasher(c.decode(b).value.second as HashAlgorithm).Failure? ==>
              r == Failure(GetHasher(c.decode(b).value.second as HashAlgorithm).error)
    ensures c.decode(b).Some? && GetHasher(c.decode(b).value.second as HashAlgorithm).Success? ==>
              var t := c.decode(b).value;
              var v := GetVerifier(t.first as SignatureAlgorithm, t.payload);
              (v.Failure? ==> r == Failure(v.error))
              && (v.Success? ==> r == Success(Identity(t.first as SignatureAlgorithm,
                                                       GetHasher(t.second as HashAlgorithm).value, v.value)))
  {
    match c.decode(b)
    case None => Failure(SerialisationFailure)
    case Some(t) =>
      var h :- GetHasher(t.second as HashAlgorithm);
      var v :- GetVerifier(t.first as SignatureAlgorithm, t.payload);
      Success(Identity(t.first as SignatureAlgorithm, h, v))
  }

  /** `owned_identity`'s deserialiser, in the same order. */
  function DeserialiseOwned(c: Codec<Tagged>, b: Bytes): (r: Result<OwnedIdentity>)
    ensures c.decode(b).None? ==> r == Failure(SerialisationFailure)
    ensures c.decode(b).Some? && GetHasher(c.decode(b).value.second as HashAlgorithm).Failure? ==>
              r == Failure(GetHasher(c.decode(b).value.second as HashAlgorithm).error)
    ensures c.decode(b).Some? && GetHasher(c.decode(b).value.second as HashAlgorithm).Success? ==>
              var t := c.decode(b).value;
              var s := GetSigner(t.first as SignatureAlgorithm, t.payload);
              (s.Failure? ==> r == Failure(s.error))
              && (s.Success? ==> r == Success(OwnedIdentity(t.first as SignatureAlgorithm,
                                                            GetHasher(t.second as HashAlgorithm).value, s.value)))
  {
    match c.decode(b)
    case None => Failure(SerialisationFailure)
    case Some(t) =>
      var h :- GetHasher(t.second as HashAlgorithm);
      var s :- GetSigner(t.first as SignatureAlgorithm, t.payload);
      Success(OwnedIdentity(t.first as SignatureAlgorithm, h, s))
  }

  /** The public serialisation of a well-formed Curve25519 identity loads as
      an `identity` equal to its public part. */
  lemma PublicIdentityRoundTrip(c: Codec<Tagged>, ops: Ed25519Ops, me: OwnedIdentity)
    requires RoundTrips(c) && Correct(ops) && WellFormed(me) && me.sigAlg == Curve25519
    ensures DeserialiseIdentity(c, SerialisePublic(c, ops, me)) == Success(me.Public(ops))
  {
    var alg := me.msgHasher.Properties().alg;
    var t := Tagged(me.sigAlg as u16, alg as u16, me.impl.SerialisePub(ops));
    assert c.decode(c.encode(t)) == Some(t);
    assert t.second as HashAlgorithm == alg;
    assert GetHasher(alg) == Success(me.msgHasher);
  }

  /** The private serialisation of a well-formed identity loads back as the
      same identity. */
  lemma OwnedIdentityRoundTrip(c: Codec<Tagged>, me: OwnedIdentity)
    requires RoundTrips(c) && WellFormed(me) && me.sigAlg == Curve25519
    ensures DeserialiseOwned(c, SerialiseOwned(c, me)) == Success(me)
  {
    var alg := me.msgHasher.Properties().alg;
    var t := Tagged(me.sigAlg as u16, alg as u16, me.impl.SerialisePriv());
    assert c.decode(c.encode(t)) == Some(t);
    assert t.second as HashAlgorithm == alg;
    assert GetHasher(alg) == Success(me.msgHasher);
  }

  /** A signature verifies under the identity that made it, under its
      deserialised public identity and under its reloaded private identity. */
  lemma SignaturesVerifyEverywhere(c: Codec<Tagged>, ops: Ed25519Ops, botan: BotanDigest, me: OwnedIdentity, msg: Bytes)
    requires RoundTrips(c) && Correct(ops) && WellFormed(me) && me.sigAlg == Curve25519
    ensures var sig := me.Sign(ops, botan, msg);
            && me.Verify(ops, botan, msg, sig)
            && DeserialiseIdentity(c, SerialisePublic(c, ops, me)).Success?
            && DeserialiseIdentity(c, SerialisePublic(c, ops, me)).value.Verify(ops, botan, msg, sig)
            && DeserialiseOwned(c, SerialiseOwned(c, me)).Success?
            && DeserialiseOwned(c, SerialiseOwned(c, me)).value.Verify(ops, botan, msg, sig)
  {
    SignerAcceptsOwnSignatures(ops, me.impl, HashOf(botan, me.msgHasher, msg));
    PublicIdentityRoundTrip(c, ops, me);
    OwnedIdentityRoundTrip(c, me);
  }
}
