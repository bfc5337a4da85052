# upsilon crypto-agility layer, modelled in Dafny

upsilon picks every cryptographic primitive by a 16-bit algorithm tag. The
selection happens either at compile time (a template specialisation) or
through a process-wide registry map that is filled at load time with
`emplace`. The primitives themselves are thin calls into Botan. This model
covers the logic around them:

- **Hash values** (`HashValues`):
  - fixed and dynamic hashes and their length-checked (de)serialisation;
  - the six comparison operators;
  - the tagged `safe_hash` and its operators.
- **Hashing front-end** (`Hashing`):
  - the properties table and the registry of hash functions;
  - `compute_hash` with its output-length rule (whole digest, prefix, or `range_error`);
  - `begin_hash`;
  - the `salt_wrapper` session;
  - `partial_hasher`, `hasher` and `get_hasher`.
- **Symmetric stream ciphers** (`Symmetric`):
  - the key/IV size table and the tag aliases;
  - `botan_impl` with its `stream_pos` counter, in-place and two-buffer encrypt/decrypt, and `seek`;
  - the allocating wrappers;
  - the registration table and `get_symmetric_function`.
- **Key derivation** (`KeyDerivation`): the SHAKE `kdf` classes, `expand`, the registry and the static lookups.
- **Key agreement** (`KeyAgreement`):
  - Curve25519 `agreement_function`, the registries and lookups;
  - `remote_agreer`;
  - `agreer`: its derive functions, constructors, `gen` and (de)serialisation.
- **Signatures** (`Signatures`):
  - the Ed25519 verifier and signer and their registries;
  - `identity` and `owned_identity`: sign and verify through the message hash, serialisation, deserialisation, `serialise_public` and `gen`.
- **Proof of work** (`ProofOfWork`):
  - the `pow` record and its tag;
  - the Laserproof verifier: `check_complete`, `check_one` and `difficulty`, plus the big-endian byte form of the difficulty.

Botan's primitives are function-valued parameters:
- `BotanDigest` gives byte `i` of a named digest;
- `BotanKeystream` gives byte `i` of a named cipher's keystream;
- `ShakeStream` gives byte `i` of a SHAKE output;
- the `Curve25519Ops` and `Ed25519Ops` records stand for X25519 and Ed25519.

Fixed output lengths are stated through these parameters. The external `nu` serialisation library is a `Codec` pair; its round trip (`RoundTrips`) is a hypothesis of the lemmas that need it. Each registry map is built explicitly by folding the registrations in source order, and the first `emplace` of a key wins. Errors thrown by the C++ code are an `Error` datatype returned in a `Result` or an `Outcome`.

## Model

| member | source | states |
|---|---|---|
| Registries.RegisteredKeys | src/hash.cpp:46-47 | the keys of a registry after a run of `emplace` calls are the old keys plus every registered key |
| Registries.RegisteredKeepsOld | src/symmetric.cpp:14-18 | an `emplace` never replaces a key that is already present |
| Registries.FirstRegistrationWins | src/symmetric.cpp:14-18 | the value kept under a key is the one from its first registration |
| Registries.DistinctRegistered | src/hash.cpp:54-66 | with pairwise distinct keys, every registration is found under its own key |
| Registries.UnregisteredIsAbsent | include/c3/upsilon/hash.hpp:305-311 | a key no registration names is absent from the map |
| Registries.Find | include/c3/upsilon/hash.hpp:305-311 | `find`: succeeds exactly when the key is present, with its value; otherwise fails with the given error |
| Registries.Registry.Emplace | src/hash.cpp:47 | `emplace`: inserts only an absent key, and reports whether it did |
| Registries.Registry.EmplaceAll | src/symmetric.cpp:72-83 | a run of registrations leaves the map equal to the fold in which the first entry wins |
| HashValues.SerialiseStatic | include/c3/upsilon/hash.hpp:49-53 | a buffer shorter than the hash is rejected with `invalid_argument` and left unchanged; otherwise the value goes into the buffer's prefix and the rest is untouched |
| HashValues.DeserialiseStatic | include/c3/upsilon/hash.hpp:55-62 | succeeds exactly on `HashSize` bytes and returns them; any other length is `serialisation_failure` |
| HashValues.SerialiseDynamic | include/c3/upsilon/hash.hpp:89 | the serialised bytes are the hash's value itself: as long as the hash, and wrapping them gives the hash back |
| HashValues.DynamicRoundTrip | include/c3/upsilon/hash.hpp:89-93 | serialising a dynamic hash and deserialising the bytes gives the same hash |
| HashValues.DeserialiseDynamic | include/c3/upsilon/hash.hpp:91-93 | the inverse of `SerialiseDynamic`: the round trip is the identity on bytes |
| HashValues.Equal | include/c3/upsilon/hash.hpp:121-125 | the element-wise loop of `std::equal` holds exactly when the sequences are equal |
| HashValues.EqualityOperators | include/c3/upsilon/hash.hpp:121-129 | `==` holds iff the lengths and all bytes agree; `!=` is its negation |
| HashValues.LexLessCons | include/c3/upsilon/hash.hpp:108-113 | lexicographic order is preserved by a common first byte |
| HashValues.LexLessTail | include/c3/upsilon/hash.hpp:108-113 | lexicographic order is reflected by dropping a common first byte |
| HashValues.LessIsLexicographic | include/c3/upsilon/hash.hpp:108-113 | `<` holds iff `a` is a proper prefix of `b` or the first differing byte is smaller in `a` |
| HashValues.LessTrichotomy | include/c3/upsilon/hash.hpp:108-125 | exactly one of `a < b`, `a == b`, `b < a` holds |
| HashValues.LessTransitive | include/c3/upsilon/hash.hpp:108-113 | `<` is transitive |
| HashValues.GreaterIsConverseOnEqualLength | include/c3/upsilon/hash.hpp:114-119 | on equal lengths `a > b` iff `b < a` |
| HashValues.ProperPrefixIsLessAndGreater | include/c3/upsilon/hash.hpp:108-119 | a proper prefix is both `<` and `>` the longer hash |
| HashValues.GreaterCounterexample | include/c3/upsilon/hash.hpp:114-119 | `[1] < [1, 2]` and `[1] > [1, 2]` both hold |
| HashValues.LessEqualDecidedByFirstByte | include/c3/upsilon/hash.hpp:96-107 | for non-empty hashes `<=` and `>=` are decided by the first byte pair alone |
| HashValues.LessEqualCounterexample | include/c3/upsilon/hash.hpp:96-107 | `[1, 5] <= [1, 2]`, `[1, 2] >= [1, 5]`, and an empty hash is not `<=` itself |
| HashValues.IntendedOrderIsTotal | include/c3/upsilon/hash.hpp:96-119 | `<=` defined as "`<` or equal" is a total order, and `>`/`>=` defined as the converses agree with `<` |
| HashValues.SafeEqualityOperators | include/c3/upsilon/hash.hpp:200-207 | `safe_hash` `==` holds iff algorithm and value are equal; `!=` is its negation |
| HashValues.SafeLessCounterexample | include/c3/upsilon/hash.hpp:216-219 | two `safe_hash` values can each be `<` the other |
| HashValues.SafeLtIntendedIsStrictTotalOrder | include/c3/upsilon/hash.hpp:216-219 | ordering by algorithm, then by value, is irreflexive, asymmetric, total and transitive |
| HashValues.DeserialiseSafeHash | include/c3/upsilon/hash.hpp:194-198 | succeeds exactly when the codec decodes, with the decoded algorithm and value |
| HashValues.SafeHashRoundTrip | include/c3/upsilon/hash.hpp:191-198 | a serialised `safe_hash` deserialises to itself |
| Hashing.StaticHashProperties | include/c3/upsilon/hash.hpp:385-409 | every tag's properties carry that tag, a maximum output equal to the tag's low byte (non-zero), and the default salt bounds |
| Hashing.GetHashProperties | include/c3/upsilon/hash.hpp:242-248 | a lookup in the properties map succeeds exactly for present tags; otherwise `algorithm_not_implemented` with the tag |
| Hashing.Digest | src/hash.cpp:7 | a digest has the requested length, and byte `i` is Botan's byte `i` |
| Hashing.DigestPrefix | src/hash.cpp:19-23 | a shorter digest is a prefix of a longer one |
| Hashing.Defined | src/hash.cpp:6-11 | a registration carries its tag, the compile-time properties of that tag and its Botan name |
| Hashing.StaticHashFunction | src/hash.cpp:48-49 | the static object of a registered tag has that tag's properties |
| Hashing.GetHashFunction | include/c3/upsilon/hash.hpp:305-311 | `get_hash_function(alg)` succeeds exactly for registered tags; otherwise `algorithm_not_implemented` with the tag |
| Hashing.StaticMatchesDynamic | src/hash.cpp:46-49 | the map entry of every registered tag is the static object, with the tag and its digest size |
| Hashing.RegisteredHashAlgorithms | src/hash.cpp:54-66 | exactly the eleven tags of SHA-2, SHA-3 and BLAKE2b are registered; BLAKE2s lookups fail |
| Hashing.LoadHashFunctions | src/hash.cpp:46-47 | load-time registration builds exactly the registry map |
| Hashing.FullDigest | src/hash.cpp:20-21 | the full digest is `max_output` bytes long |
| Hashing.ComputedHash | src/hash.cpp:13-24 | succeeds iff the output is at most `max_output` bytes, with the first `output.size()` bytes of the full digest; otherwise `range_error` |
| Hashing.ShorterOutputIsPrefix | src/hash.cpp:19-23 | a shorter result is a prefix of a longer one over the same input |
| Hashing.BotanHash.constructor | src/hash.cpp:7 | a fresh Botan object with nothing pending |
| Hashing.BotanHash.Update | src/hash.cpp:14 | `update` appends the input to the pending message |
| Hashing.BotanHash.Final | src/hash.cpp:16 | `final` writes the digest of the pending message and clears it |
| Hashing.CopyPrefix | src/hash.cpp:22 | `std::copy` of the first `output.size()` bytes of the temporary |
| Hashing.ComputeHash | src/hash.cpp:13-24 | the result is `ComputedHash` of the pending bytes plus the input; a `range_error` leaves the output untouched and the input pending in the shared object |
| Hashing.ComputeSaltedHash | src/hash.cpp:25-37 | the result is `ComputedHash` of salt followed by input |
| Hashing.FinishInto | src/hash.cpp:15-23 | an exact-length output gets the full digest, a shorter one its prefix, a longer one `range_error` with nothing written and the pending bytes kept |
| Hashing.ReplayAfterRangeError | src/hash.cpp:14-18 | after a `range_error`, the next call hashes the failed input followed by its own |
| Hashing.ComputeHashChecked | src/hash.cpp:13-24 | checking the length before `update` leaves nothing pending after a `range_error` |
| Hashing.NoReplayAfterRangeError | src/hash.cpp:13-24 | with the check first, the next call hashes its own input alone |
| Hashing.BeginHash | src/hash.cpp:38-43 | both `begin_hash` overloads fail with "Not implemented" |
| Hashing.GetHasher | include/c3/upsilon/hash.hpp:376-378 | succeeds exactly for registered tags, with the static function, whose properties report the tag |
| Hashing.HashOf | include/c3/upsilon/hash.hpp:351-352 | `get_hash` is the full `max_output`-byte result of `compute_hash` |
| Hashing.DigestSession.constructor | include/c3/upsilon/hash.hpp:250-256 | a fresh session has absorbed nothing |
| Hashing.DigestSession.Process | include/c3/upsilon/hash.hpp:252 | `process` appends its input |
| Hashing.DigestSession.Finish | include/c3/upsilon/hash.hpp:253-254 | `finish` writes the digest of everything absorbed and invalidates the session |
| Hashing.DigestSession.Reset | include/c3/upsilon/hash.hpp:255-256 | `reset` returns to the initial state |
| Hashing.SaltWrapper.constructor | include/c3/upsilon/hash.hpp:276-280 | the salt is fed to the base session before any input |
| Hashing.SaltWrapper.Process | include/c3/upsilon/hash.hpp:271 | `process` forwards to the base and keeps the salt in front |
| Hashing.SaltWrapper.Finish | include/c3/upsilon/hash.hpp:272 | `finish` writes the digest of salt followed by the inputs |
| Hashing.SaltWrapper.Reset | include/c3/upsilon/hash.hpp:273 | `reset` resets the base and then replays the salt |
| Hashing.PartialHasher.constructor | include/c3/upsilon/hash.hpp:330-331 | pairs the properties with the session |
| Hashing.PartialHasher.Process | include/c3/upsilon/hash.hpp:319 | forwards to the session |
| Hashing.PartialHasher.Finish | include/c3/upsilon/hash.hpp:320-327 | a dynamic result is resized to `max_output` and filled with the session's digest |
| Symmetric.StaticSymmetricProperties | include/c3/upsilon/symmetric.hpp:126-138 | AES128 16/16, AES256 32/16, ChaCha20_* 32/8, XChaCha20_* 32/24 |
| Symmetric.AliasesAreTheSameTag | include/c3/upsilon/symmetric.hpp:40-48 | `ChaCha20` is `ChaCha20_20` and `XChaCha20` is `XChaCha20_20`, with the same sizes |
| Symmetric.GetSymmetricProperties | include/c3/upsilon/symmetric.hpp:54-60 | succeeds exactly for present tags; otherwise `algorithm_not_implemented` with the tag |
| Symmetric.Keystreamed | src/symmetric.cpp:43 | the cipher output is as long as its input |
| Symmetric.KeystreamedInvolution | src/symmetric.cpp:27 | applying the keystream twice at the same position gives back the message |
| Symmetric.KeystreamedSplit | src/symmetric.cpp:46-51 | ciphering `a` and then `b` from where `a` ended equals ciphering `a + b` |
| Symmetric.BotanCipher.constructor | src/symmetric.cpp:32-38 | a fresh cipher keyed with the key and IV is at position 0 |
| Symmetric.BotanCipher.Pos | src/symmetric.cpp:68 | `pos()` is the number of bytes processed or sought, modulo 2^64 |
| Symmetric.BotanCipher.Alg | src/symmetric.cpp:69 | `alg()` is the class's tag |
| Symmetric.BotanCipher.Cipher | src/symmetric.cpp:43 | ciphers `n` bytes from the current position into the output prefix, leaves the rest untouched, and advances by `n` |
| Symmetric.BotanCipher.EncryptInPlace | src/symmetric.cpp:41-45 | the buffer is ciphered in place and the position advances by its length |
| Symmetric.BotanCipher.DecryptInPlace | src/symmetric.cpp:53-57 | the same as in-place encryption |
| Symmetric.BotanCipher.Encrypt | src/symmetric.cpp:46-51 | processes and returns `min(|input|, |output|)` bytes, advances by that much, and leaves the rest of the output untouched |
| Symmetric.BotanCipher.Decrypt | src/symmetric.cpp:58-63 | the same as two-buffer encryption |
| Symmetric.BotanCipher.EncryptAlloc | include/c3/upsilon/symmetric.hpp:77-81 | returns a buffer exactly as long as the input, ciphered |
| Symmetric.BotanCipher.DecryptAlloc | include/c3/upsilon/symmetric.hpp:86-90 | returns a buffer exactly as long as the input, deciphered |
| Symmetric.BotanCipher.Seek | src/symmetric.cpp:64-67 | `seek(p)` sets the position to exactly `p` |
| Symmetric.EncryptSeekDecrypt | src/symmetric.cpp:41-67 | encrypting, seeking back and decrypting recovers the plaintext |
| Symmetric.XChaChaShadowed | src/symmetric.cpp:81-83 | the registry has six tags, `XChaCha20_8` maps to "ChaCha(8)", and `XChaCha20_12`/`XChaCha20_20` are absent |
| Symmetric.CorrectedRegistrationCoversEveryTag | src/symmetric.cpp:72-83 | registering each class under its own tag covers all eight tags, each with an object that reports its tag |
| Symmetric.GetSymmetricFunction | include/c3/upsilon/symmetric.hpp:109-117 | succeeds exactly for registered tags whose key and IV have the class's lengths, with a fresh cipher at position 0 that reports the registered tag; an unregistered tag is `algorithm_not_implemented` with the tag, and a wrong-length key or IV fails the fixed-extent span contract of the factory (src/symmetric.cpp:10-17) |
| KeyDerivation.ShakeOutput | src/kdf.cpp:21-27 | the SHAKE output has the requested length and is a prefix of the stream |
| KeyDerivation.Shake.constructor | src/kdf.cpp:24 | the local SHAKE object is sized in bits and has absorbed nothing |
| KeyDerivation.Shake.Process | src/kdf.cpp:25 | `process` appends its input |
| KeyDerivation.Shake.Final | src/kdf.cpp:26 | `final` writes `outputBits / 8` bytes of the stream |
| KeyDerivation.Kdf.Alg | src/kdf.cpp:9 | each class reports its own tag, and the two tags differ |
| KeyDerivation.Kdf.Expanded | src/kdf.cpp:21-34 | the derived bytes fill exactly the requested length |
| KeyDerivation.Kdf.Expand | src/kdf.cpp:24-26 | `expand` fills the whole caller buffer from a fresh SHAKE object over the input |
| KeyDerivation.ExpandedPrefix | src/kdf.cpp:24-26 | a shorter derivation is a prefix of a longer one |
| KeyDerivation.ExpandTwice | src/kdf.cpp:24 | two calls with the same input write the same bytes: no state is kept between calls |
| KeyDerivation.StaticKdf | src/kdf.cpp:14-15 | `get_kdf<ALG>()` reports `ALG` |
| KeyDerivation.GetKdf | include/c3/upsilon/kdf.hpp:30-36 | succeeds exactly for present tags; otherwise `algorithm_not_implemented` with the tag |
| KeyDerivation.KdfRegistration | src/kdf.cpp:13-15 | exactly Shake128 and Shake256 are registered, each as the static object, which reports its tag |
| KeyAgreement.Agree | src/agreement.cpp:33-40 | `agree` returns exactly 32 bytes |
| KeyAgreement.LoadCurve25519 | src/agreement.cpp:53 | a private key loads exactly from 32 bytes; otherwise the encoding is invalid |
| KeyAgreement.AgreementRegistration | src/agreement.cpp:18-21 | Curve25519, and only it, is in both `_ag_gens` and `_agreement_functions` |
| KeyAgreement.GetAgreementFunction | include/c3/upsilon/agreement.hpp:42-49 | an absent tag is `algorithm_not_implemented`; Curve25519 loads the bytes |
| KeyAgreement.GenAgreementFunction | include/c3/upsilon/agreement.hpp:51-57 | an absent tag is `algorithm_not_implemented`; Curve25519 builds a key from the generated secret |
| KeyAgreement.DeserialiseRemote | include/c3/upsilon/agreement.hpp:76-80 | reads the fields in the order they were written |
| KeyAgreement.RemoteAgreerRoundTrip | include/c3/upsilon/agreement.hpp:73-80 | a `remote_agreer` round-trips |
| KeyAgreement.Agreer.DeriveSharedSecretInto | include/c3/upsilon/agreement.hpp:97-99 | fills the whole caller buffer with `kdf(agree(other))` |
| KeyAgreement.Agreer.DeriveSharedKey | include/c3/upsilon/agreement.hpp:90-96 | returns exactly `key_size(SymAlg)` bytes of `kdf(agree(other))` |
| KeyAgreement.Agreer.DeriveSharedSecret | include/c3/upsilon/agreement.hpp:100-104 | returns `output_len` bytes of `kdf(agree(agree(other)))` |
| KeyAgreement.Agreer.DeriveSharedSecretCorrected | include/c3/upsilon/agreement.hpp:100-110 | with one `agree`, returns `output_len` bytes of `kdf(agree(other))` |
| KeyAgreement.SharedSecret | include/c3/upsilon/agreement.hpp:97-99 | the shared secret has the requested length |
| KeyAgreement.DoubleAgreedSecret | include/c3/upsilon/agreement.hpp:100-110 | the length-taking overloads agree a second time on the first agreement's output |
| KeyAgreement.PartiesAgree | include/c3/upsilon/agreement.hpp:97-99 | when X25519 commutes, both parties derive the same secret from each other's public values |
| KeyAgreement.DoubleAgreementDisagrees | include/c3/upsilon/agreement.hpp:100-110 | there are commuting primitives under which one agreement matches between the parties and two do not |
| KeyAgreement.AgreerFromPrivate | include/c3/upsilon/agreement.hpp:120-123 | succeeds iff the agreement tag is Curve25519, the key is 32 bytes and the kdf tag is registered; agreement errors come before kdf errors |
| KeyAgreement.Gen | include/c3/upsilon/agreement.hpp:129-131 | `gen` builds an agreer with the requested tags and the generated key |
| KeyAgreement.GenFor | include/c3/upsilon/agreement.hpp:136-138 | `gen(remote_agreer)` uses the base's kdf and agreement tags |
| KeyAgreement.DeserialiseAgreer | include/c3/upsilon/agreement.hpp:144-152 | reads (kdf tag, agreement tag, key) and resolves them as the three-argument constructor does |
| KeyAgreement.AgreerRoundTripFails | include/c3/upsilon/agreement.hpp:141-152 | an agreer serialised with a BER private key that is not 32 bytes fails to deserialise |
| KeyAgreement.AgreerRawRoundTrip | include/c3/upsilon/agreement.hpp:141-152 | serialising the raw 32-byte key round-trips the agreer |
| Signatures.SignerAcceptsOwnSignatures | src/identity.cpp:40-42 | a signer's `verify`, and a verifier built from its public key, accept its signatures |
| Signatures.LoadVerifier | src/identity.cpp:27-29 | a public key loads exactly from 32 bytes |
| Signatures.LoadSigner | src/identity.cpp:59-60 | a private key loads exactly from 64 bytes |
| Signatures.SignatureRegistration | src/identity.cpp:68-73 | Curve25519, and only it, is in `_signers`, `_verifiers` and `_sig_gens` |
| Signatures.GetVerifier | include/c3/upsilon/identity.hpp:40-46 | an absent tag is `algorithm_not_implemented`; Curve25519 loads the key |
| Signatures.GetSigner | include/c3/upsilon/identity.hpp:58-64 | an absent tag is `algorithm_not_implemented`; Curve25519 loads the key |
| Signatures.GenSigner | include/c3/upsilon/identity.hpp:66-72 | an absent tag is `algorithm_not_implemented`; Curve25519 builds a signer from the generated key |
| Signatures.OnlyTheHashIsSigned | include/c3/upsilon/identity.hpp:113-118 | sign and verify depend on the message only through its hash |
| Signatures.GenOwnedIdentity | include/c3/upsilon/identity.hpp:131-133 | succeeds exactly when the hash tag is registered and the signature tag is Curve25519; the hasher is resolved first, then the signer, and the result carries both tags and the generated key |
| Signatures.SerialisePublic | include/c3/upsilon/identity.hpp:120-122 | `serialise_public` writes exactly the `identity` layout of the public identity |
| Signatures.DeserialiseIdentity | include/c3/upsilon/identity.hpp:95-103 | decodes both tags first, then resolves the hasher and then the verifier: each step's failure is the result's error, and otherwise the identity holds the decoded signature tag, the hasher and the verifier |
| Signatures.DeserialiseOwned | include/c3/upsilon/identity.hpp:151-159 | decodes both tags first, then resolves the hasher and then the signer: each step's failure is the result's error, and otherwise the owned identity holds the decoded signature tag, the hasher and the signer |
| Signatures.PublicIdentityRoundTrip | include/c3/upsilon/identity.hpp:91-103 | `serialise_public` deserialises as the public identity |
| Signatures.OwnedIdentityRoundTrip | include/c3/upsilon/identity.hpp:141-159 | an owned identity round-trips |
| Signatures.SignaturesVerifyEverywhere | tests/signer.cxx:20-39 | a signature verifies under the owner, its deserialised public identity and its reloaded private identity |
| ProofOfWork.XorFoldAppend | src/pow/laserproof.cpp:21-23 | the XOR fold of a concatenation is the XOR of the folds |
| ProofOfWork.XorAll | src/pow/laserproof.cpp:21-23 | the loop computes the XOR fold of every digest byte |
| ProofOfWork.Prepend | src/pow/laserproof.cpp:16-17 | a window goes in front of a successful remainder; a failure is kept |
| ProofOfWork.FeedWindows | src/pow/laserproof.cpp:16-17 | the session receives exactly the windows of the walk, or the walk fails with `OutOfBuffer` |
| ProofOfWork.CheckComplete | src/pow/laserproof.cpp:10-26 | `% backstride_len` first, then the session seeded with the proof, then the windows, then XOR fold below threshold |
| ProofOfWork.AsWrittenCompletesOnlyOnTwoBytes | src/pow/laserproof.cpp:11-16 | the first window start equals the final one iff the stride is 1 and the buffer 2 bytes long |
| ProofOfWork.AsWrittenLeavesBuffer | src/pow/laserproof.cpp:11-17 | in every other case the walk leaves the buffer |
| ProofOfWork.StridedStaysInBuffer | src/pow/laserproof.cpp:11-17 | the corrected walk stays inside the buffer and feeds `size / backstride_len` whole windows |
| ProofOfWork.GrowAppends | src/pow/laserproof.cpp:32-37 | one pass appends one digest of the last `min(size, lookback_len)` bytes; earlier bytes stay |
| ProofOfWork.SearchFindsWholeBlocks | src/pow/laserproof.cpp:30-41 | a successful search returns a whole number of blocks, at least one more than it started with |
| ProofOfWork.CheckOne | src/pow/laserproof.cpp:28-42 | the do-while loop returns the search result from an empty buffer, which does not mention `hashed_data` |
| ProofOfWork.Difficulty | src/pow/laserproof.cpp:44-55 | total; 0 for a wrong proof length and for any failure, otherwise the final buffer length |
| ProofOfWork.PositiveDifficulty | src/pow/laserproof.cpp:44-55 | a positive difficulty implies the right proof length and a whole, positive number of blocks |
| ProofOfWork.NoSessionsNoDifficulty | src/pow/laserproof.cpp:14 | a hasher whose `begin_hash` throws gives difficulty 0 |
| ProofOfWork.RegisteredHashersHaveNoSessions | src/hash.cpp:41-43 | every registered hash function throws from `begin_hash(salt)` |
| ProofOfWork.AsWrittenNoDifficulty | src/pow/laserproof.cpp:10-39 | with the walk as written and a digest of 3 bytes or more, the difficulty is always 0 |
| ProofOfWork.BigEndian | include/c3/upsilon/pow.hpp:20-22 | the minimal big-endian form is empty exactly for 0 and has no leading zero byte |
| ProofOfWork.BigEndianRoundTrip | include/c3/upsilon/pow.hpp:20-22 | the big-endian form reads back as the same number |
| ProofOfWork.DifficultyBytes | include/c3/upsilon/pow.hpp:20-24 | the difficulty as a big-endian byte string: empty exactly on failure, and read back as the difficulty |

## Left out

- Botan's primitives (SHA-2, SHA-3, SHAKE, BLAKE2, CTR-AES, ChaCha, X25519, Ed25519) are uninterpreted function parameters. Besides their output lengths, three structural assumptions are built in:
  - every stream cipher XORs a keystream, a function of key, IV and position, into the data (`Symmetric.Keystreamed`), which makes `KeystreamedInvolution` and `EncryptSeekDecrypt` hold by construction; src/symmetric.cpp:27 only assumes that applying the cipher twice is the identity;
  - SHAKE's byte `i` does not depend on how many bytes are requested (`KeyDerivation.ShakeStream`), which makes `ExpandedPrefix` hold by construction;
  - a digest's byte `i` does not depend on the requested output length (`Hashing.BotanDigest`), which makes `DigestPrefix` hold by construction and lets a partial-hash session finish into an output of any length; `ShorterOutputIsPrefix` does not rest on it, because `compute_hash` truncates the full digest (src/hash.cpp:19-22).
- For X25519 commutation and for Ed25519 sign-then-verify, the property is a hypothesis (`Commutes`, `Correct`).
- Unforgeability is not modelled. A signature from an independently generated key failing to verify (tests/signer.cxx) is therefore not stated.
- Randomness (`csprng.hpp`, `csprng.cpp`, `botan_common.hpp`) is a parameter: generated keys are arguments of `Gen*`.
- Secure scrubbing (`nuker.hpp`, `nuker.cpp`), `group_signatures.hpp` and `except.hpp` are not part of this model. Errors are a datatype carrying the family and the tag.
- `hash.tpp` (`get_hash`, `truncate`, `dynamic`) is not part of this model. `get_hash` is taken as the full `max_output`-byte `compute_hash`.
- The byte layout of the `nu` library is not modelled. Its decode is only assumed to invert its encode.
- Static-initialisation order and `thread_local` sharing are not modelled. Each registry is an explicitly built map. The shared Botan object of one hash class is a `BotanHash` passed to each `compute_hash` call (`Hashing.ComputeHash`, `Hashing.ComputeSaltedHash`, `Hashing.ReplayAfterRangeError`). The other hashing paths do not receive it.
- Hashing.HashOf: `get_hash` hashes the message on an idle Botan object. In the program, `get_hash` goes through the class's `compute_hash`, which drives the same `thread_local` object. After a `range_error` on that thread, the failed input is hashed in front of the next message (src/hash.cpp:14-18). `Signatures.Identity.Verify`, `Signatures.OwnedIdentity.Sign`, `Signatures.OwnedIdentity.Verify` and `ProofOfWork.Grow` use `HashOf`, so they assume that no earlier `compute_hash` on the thread failed. The model does not capture signatures or work blocks over such stale input.
- `_hash_properties` and `_symmetric_properties` receive no insertions in the files modelled. Their lookups (`GetHashProperties`, `GetSymmetricProperties`) therefore take the map as a parameter.
- `kdf::expand(input, output_len)` is declared but never defined, so it is not modelled.
- The default constructors `hasher()` and `agreer()` hold a null pointer. Calls through them are not modelled.
- The Curve25519 peer public value is not validated in the model. Botan's own checks are part of the primitive.
- Ed25519 keys load as raw bytes of fixed length: 32 public, 64 private.
- Signatures.LoadSigner: Botan's private-key constructor also accepts a 32-byte seed and derives the key pair from it. That seed form is not modelled, so a 32-byte private key is rejected here, where Botan accepts it.
- Symmetric.BotanCipher.Encrypt: input and output are distinct sequences and arrays, so aliasing between them is not modelled.
- Symmetric.GetSymmetricFunction: the registered factory converts the key and IV to fixed-extent spans. A wrong length fails that span's contract check, which terminates the program. The model returns the failure `ContractViolation` instead and does not model the termination.
- Symmetric.BotanCipher.Pos: `stream_pos` wraps modulo 2^64 as written. `Botan::StreamCipher::seek` past 2^64 bytes of keystream is not modelled.
- ProofOfWork.CheckOne: termination is probabilistic, so the number of passes is bounded by a `fuel` parameter. Running out is a failure, which `difficulty` maps to 0.
- ProofOfWork.CheckComplete: `lookback_len`, `backstride_len`, `threshold` and `proof_len` are not declared in `pow.hpp`, so they are fields of `LaserproofVerifier`.
  - `sessions` says whether the hasher's `begin_hash` returns a salted session. The registered ones all throw.
  - Leaving the buffer is undefined behaviour in C++. It is modelled as the failure `OutOfBuffer`, which `difficulty` maps to 0.
  - A `backstride_len` of 0 makes `buf.size() % backstride_len` (src/pow/laserproof.cpp:11) a division by zero. That is undefined behaviour in C++, not an exception, so the `catch (...)` in `difficulty` would not catch it. It is modelled as the failure `DivisionByZero`, which `difficulty` maps to 0.
- `laserproof_verifier::difficulty` returns `nu::data`, while `laserproof::difficulty` returns `nu::biguint`. The model gives both: a number (`DifficultyOf`) and its big-endian bytes (`DifficultyBytes`).
- The code walks the buffer by index and declares no defaults for `lookback_len`, `backstride_len`, `threshold` or `proof_len`; the model takes all four as fields.
- `tests/partial_hash.cxx` expects a working `begin_hash`, which `src/hash.cpp:38-43` does not provide. The model follows the code.
- Several declarations do not match their definitions; the model follows the definitions:
  - `properties()` returns a pointer in the interface and a reference in the classes;
  - the classes name `partial_hash` where the header declares `partial_hash_function`;
  - `tests/agreement.cxx` passes the template arguments of `gen` in the other order.

## Findings

| source | as written | input that shows it | evidently intended | confidence | as-written member | corrected member |
|---|---|---|---|---|---|---|
| src/hash.cpp:14-18 | `update` runs before the length check, so a `range_error` leaves the input pending in the shared Botan object | a call with a 65-byte output on SHA-512, then a valid call on `m` | the next call hashes `m` alone | high, not executed | Hashing.ReplayAfterRangeError | Hashing.NoReplayAfterRangeError |
| include/c3/upsilon/hash.hpp:96-107 | `<=`/`>=` pass `less_equal`/`greater_equal` to `lexicographical_compare`, which expects a strict order | `[1, 5] <= [1, 2]` holds; an empty hash is not `<=` itself | "`<` or equal" | high, not executed | HashValues.LessEqualCounterexample | HashValues.IntendedOrderIsTotal |
| include/c3/upsilon/hash.hpp:114-119 | `>` passes `greater` to `lexicographical_compare`, so a proper prefix is both `<` and `>` | `[1]` and `[1, 2]` | `a > b` iff `b < a` | high, not executed | HashValues.GreaterCounterexample | HashValues.IntendedOrderIsTotal |
| include/c3/upsilon/hash.hpp:216-219 | `safe_hash` `<` is `alg < alg' \|\| value < value'` | `([9], SHA2_256)` and `([1], BLAKE2b_256)`: each is `<` the other | order by algorithm, then by value | high, not executed | HashValues.SafeLessCounterexample | HashValues.SafeLtIntendedIsStrictTotalOrder |
| src/symmetric.cpp:82-83 | the XChaCha20_12 and XChaCha20_20 classes are registered under `XChaCha20_8`; `emplace` drops them | `get_symmetric_function(XChaCha20, key, iv)` | each class registered under its own tag | high, not executed | Symmetric.XChaChaShadowed | Symmetric.CorrectedRegistrationCoversEveryTag |
| include/c3/upsilon/agreement.hpp:100-110 | the length-taking overloads pass `agree(other)` to a function that agrees again | two parties with a commuting toy primitive | one agreement, as in the buffer-taking overload | medium, not executed | KeyAgreement.DoubleAgreementDisagrees | KeyAgreement.PartiesAgree |
| src/pow/laserproof.cpp:11-17 | the walk starts one byte before the last window and steps back by the whole buffer size | any buffer of 3 bytes or more | windows of `backstride_len` from the end down to `size % backstride_len` | medium, not executed | ProofOfWork.AsWrittenNoDifficulty | ProofOfWork.StridedStaysInBuffer |
| include/c3/upsilon/agreement.hpp:141-152 | the private key is written as PKCS#8 BER, but read back as a raw 32-byte key | any agreer whose BER encoding is not 32 bytes | write the raw key | medium, not executed | KeyAgreement.AgreerRoundTripFails | KeyAgreement.AgreerRawRoundTrip |
