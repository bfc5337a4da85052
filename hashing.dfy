/** The hashing front-end: the per-algorithm properties table, the registry of
    hash functions and its lookups, `compute_hash` driving a stateful Botan
    object, and the partial-hash sessions with their salt wrapper. */
module Hashing {
  import opened Common
  import opened HashValues
  import opened Registries

  // ---------------------------------------------------------------------------
  // Properties

  /** `hash_properties`. */
  datatype HashProperties = HashProperties(alg: HashAlgorithm, maxOutput: nat, minSalt: nat, maxSalt: nat)

  /** The thirteen enumerators of `hash_algorithm`. */
  predicate IsHashAlgorithm(alg: HashAlgorithm) {
    alg in {SHA2_224, SHA2_256, SHA2_384, SHA2_512, SHA3_224, SHA3_256, SHA3_384, SHA3_512,
            BLAKE2b_128, BLAKE2b_256, BLAKE2b_512, BLAKE2s_128, BLAKE2s_256}
  }

  /** The specialisations `get_hash_properties<ALG>()`: the digest length of
      each algorithm and the defaulted salt bounds. The length agrees with
      the low byte of the tag. */
  function StaticHashProperties(alg: HashAlgorithm): (p: HashProperties)
    requires IsHashAlgorithm(alg)
    ensures p.alg == alg
    ensures p.maxOutput == alg as int % 0x100 && p.maxOutput > 0
    ensures p.minSalt == 0 && p.maxSalt == SizeMax
  {
    var size :=
      if alg == SHA2_224 || alg == SHA3_224 then 28
      else if alg == SHA2_256 || alg == SHA3_256 || alg == BLAKE2b_256 || alg == BLAKE2s_256 then 32
      else if alg == SHA2_384 || alg == SHA3_384 then 48
      else if alg == SHA2_512 || alg == SHA3_512 || alg == BLAKE2b_512 then 64
      else 16;
    HashProperties(alg, size, 0, SizeMax)
  }

  /** `get_hash_properties(alg)`: a lookup in `_hash_properties`, whose
      contents no code of the library fills, so it is a parameter here. */
  function GetHashProperties(table: map<HashAlgorithm, HashProperties>, alg: HashAlgorithm): (r: Result<HashProperties>)
    ensures r.Success? <==> alg in table
    ensures r.Success? ==> r.value == table[alg]
    ensures r.Failure? ==> r.error == AlgorithmNotImplemented(HashFamily, alg as u16)
  {
    Find(table, alg, AlgorithmNotImplemented(HashFamily, alg as u16))
  }

  // ---------------------------------------------------------------------------
  // The Botan digests

  /** Byte `i` of the digest Botan's hash called `name` computes over a
      message. Nothing else about the primitive is modelled. */
  type BotanDigest = (string, Bytes, nat) -> byte

  /** The first `n` bytes of that digest. */
  function Digest(botan: BotanDigest, name: string, m: Bytes, n: nat): (d: Bytes)
    ensures |d| == n
    ensures forall i :: 0 <= i < n ==> d[i] == botan(name, m, i)
  {
    Stream((i: nat) => botan(name, m, i), n)
  }

  /** A shorter digest is a prefix of a longer one of the same message. */
  lemma DigestPrefix(botan: BotanDigest, name: string, m: Bytes, k: nat, n: nat)
    requires k <= n
    ensures Digest(botan, name, m, k) == Digest(botan, name, m, n)[..k]
  {
  }

  // ---------------------------------------------------------------------------
  // Registered hash functions

  /** One class generated by `C3_UPSILON_DEF_HASH_BOTAN`: its compile-time
      properties and the name of the Botan hash it drives. */
  datatype HashFunction = HashFunction(props: HashProperties, botanName: string)

  /** The registry entry a macro invocation emplaces. */
  function Defined(alg: HashAlgorithm, botanName: string): (e: (HashAlgorithm, HashFunction))
    requires IsHashAlgorithm(alg)
    ensures e.0 == alg && e.1.props == StaticHashProperties(alg) && e.1.botanName == botanName
  {
    (alg, HashFunction(StaticHashProperties(alg), botanName))
  }

  /** The macro invocations, in source order. */
  function HashFuncEntries(): seq<(HashAlgorithm, HashFunction)> {
    [ Defined(SHA2_224, "SHA-224"), Defined(SHA2_256, "SHA-256"),
      Defined(SHA2_384, "SHA-384"), Defined(SHA2_512, "SHA-512"),
      Defined(SHA3_224, "SHA-3(224)"), Defined(SHA3_256, "SHA-3(256)"),
      Defined(SHA3_384, "SHA-3(384)"), Defined(SHA3_512, "SHA-3(512)"),
      Defined(BLAKE2b_128, "Blake2b(128)"), Defined(BLAKE2b_256, "Blake2b(256)"),
      Defined(BLAKE2b_512, "Blake2b(512)") ]
  }

  /** `_hash_funcs` after static initialisation. */
  function HashFuncs(): map<HashAlgorithm, HashFunction> {
    Registered(HashFuncEntries())
  }

  /** The algorithms a class is defined for: every tag except the BLAKE2s ones. */
  predicate IsRegisteredHash(alg: HashAlgorithm) {
    IsHashAlgorithm(alg) && alg != BLAKE2s_128 && alg != BLAKE2s_256
  }

  /** The specialisations `get_hash_function<ALG>()`, each returning its
      class's static object. */
  function StaticHashFunction(alg: HashAlgorithm): (f: HashFunction)
    requires IsRegisteredHash(alg)
    ensures f.props == StaticHashProperties(alg)
  {
    var name :=
      if alg == SHA2_224 then "SHA-224" else if alg == SHA2_256 then "SHA-256"
      else if alg == SHA2_384 then "SHA-384" else if alg == SHA2_512 then "SHA-512"
      else if alg == SHA3_224 then "SHA-3(224)" else if alg == SHA3_256 then "SHA-3(256)"
      else if alg == SHA3_384 then "SHA-3(384)" else if alg == SHA3_512 then "SHA-3(512)"
      else if alg == BLAKE2b_128 then "Blake2b(128)" else if alg == BLAKE2b_256 then "Blake2b(256)"
      else "Blake2b(512)";
    HashFunction(StaticHashProperties(alg), name)
  }

  /** `get_hash_function(alg)`. */
  function GetHashFunction(alg: HashAlgorithm): (r: Result<HashFunction>)
    ensures r.Success? <==> alg in HashFuncs()
    ensures r.Success? ==> r.value == HashFuncs()[alg]
    ensures r.Failure? ==> r.error == AlgorithmNotImplemented(HashFamily, alg as u16)
  {
    Find(HashFuncs(), alg, AlgorithmNotImplemented(HashFamily, alg as u16))
  }

  /** The static and the dynamic lookup return the same object for every
      registered algorithm, and its properties are that algorithm's constants. */
  lemma StaticMatchesDynamic(alg: HashAlgorithm)
    requires IsRegisteredHash(alg)
    ensures GetHashFunction(alg) == Success(StaticHashFunction(alg))
    ensures GetHashFunction(alg).value.props.alg == alg
    ensures GetHashFunction(alg).value.props.maxOutput == alg as int % 0x100
  {
    var es := HashFuncEntries();
    var i :=
      if alg == SHA2_224 then 0 else if alg == SHA2_256 then 1
      else if alg == SHA2_384 then 2 else if alg == SHA2_512 then 3
      else if alg == SHA3_224 then 4 else if alg == SHA3_256 then 5
      else if alg == SHA3_384 then 6 else if alg == SHA3_512 then 7
      else if alg == BLAKE2b_128 then 8 else if alg == BLAKE2b_256 then 9
      else 10;
    DistinctRegistered(es, i);
  }

  /** The registry holds exactly the eleven algorithms with a class: the
      BLAKE2s tags are declared but every lookup of them fails. */
  lemma RegisteredHashAlgorithms(alg: HashAlgorithm)
    ensures alg in HashFuncs() <==> IsRegisteredHash(alg)
    ensures alg == BLAKE2s_128 || alg == BLAKE2s_256 ==>
              GetHashFunction(alg) == Failure(AlgorithmNotImplemented(HashFamily, alg as u16))
  {
    RegisteredKeys(map[], HashFuncEntries());
    if IsRegisteredHash(alg) {
      StaticMatchesDynamic(alg);
    }
  }

  /** Static initialisation of `_hash_funcs`, one `emplace` per class. */
  method LoadHashFunctions() returns (r: Registry<HashAlgorithm, HashFunction>)
    ensures fresh(r)
    ensures r.entries == HashFuncs()
  {
    r := new Registry();
    r.EmplaceAll(HashFuncEntries());
  }

  // ---------------------------------------------------------------------------
  // compute_hash

  /** The full digest a registered function produces. */
  function FullDigest(botan: BotanDigest, f: HashFunction, m: Bytes): (d: Bytes)
    ensures |d| == f.props.maxOutput
  {
    Digest(botan, f.botanName, m, f.props.maxOutput)
  }

  /** What `compute_hash` is meant to produce for a message and an output
      buffer of `outLen` bytes: the whole digest, a prefix of it, or a range
      error when more bytes are asked for than the digest has. */
  function ComputedHash(botan: BotanDigest, f: HashFunction, m: Bytes, outLen: nat): (r: Result<Bytes>)
    ensures r.Success? <==> outLen <= f.props.maxOutput
    ensures r.Failure? ==> r.error == RangeError
    ensures r.Success? ==> |r.value| == outLen && r.value == FullDigest(botan, f, m)[..outLen]
  {
    if outLen == f.props.maxOutput then Success(FullDigest(botan, f, m))
    else if outLen > f.props.maxOutput then Failure(RangeError)
    else Success(FullDigest(botan, f, m)[..outLen])
  }

  /** Shorter outputs are prefixes of longer ones, and every admissible
      length is answered. */
  lemma ShorterOutputIsPrefix(botan: BotanDigest, f: HashFunction, m: Bytes, k: nat, n: nat)
    requires k <= n <= f.props.maxOutput
    ensures ComputedHash(botan, f, m, k).Success? && ComputedHash(botan, f, m, n).Success?
    ensures ComputedHash(botan, f, m, k).value == ComputedHash(botan, f, m, n).value[..k]
  {
  }

  /** The `thread_local` Botan object a class drives: `update` absorbs bytes,
      `final` writes the digest of everything absorbed and starts afresh. */
  class BotanHash {
    const botan: BotanDigest
    const name: string
    const outputLength: nat
    var pending: Bytes

    constructor (botan: BotanDigest, name: string, outputLength: nat)
      ensures this.botan == botan && this.name == name && this.outputLength == outputLength
      ensures pending == []
    {
      this.botan := botan;
      this.name := name;
      this.outputLength := outputLength;
      pending := [];
    }

    /** The object belongs to the class of `f`. */
    predicate Serves(f: HashFunction) {
      name == f.botanName && outputLength == f.props.maxOutput
    }

    method Update(input: Bytes)
      modifies this
      ensures pending == old(pending) + input
    {
      pending := pending + input;
    }

    method Final(out: array<byte>)
      requires out.Length == outputLength
      modifies this, out
      ensures out[..] == Digest(botan, name, old(pending), outputLength)
      ensures pending == []
    {
      var d := Digest(botan, name, pending, outputLength);
      var i := 0;
      while i < out.Length
        invariant 0 <= i <= out.Length
        invariant out[..i] == d[..i]
      {
        out[i] := d[i];
        i := i + 1;
      }
      pending := [];
    }
  }

  /** `std::copy(tmp.begin(), tmp.begin() + output.size(), output.begin())`. */
  method CopyPrefix(tmp: array<byte>, output: array<byte>)
    requires output.Length <= tmp.Length && tmp != output
    modifies output
    ensures output[..] == tmp[..output.Length]
  {
    var i := 0;
    while i < output.Length
      invariant 0 <= i <= output.Length
      invariant output[..i] == tmp[..i]
    {
      output[i] := tmp[i];
      i := i + 1;
    }
  }

  /** The macro's `compute_hash(input, output)` as written: the input is
      absorbed before the length check, so a range error leaves it pending
      in the shared Botan object. */
  method ComputeHash(f: HashFunction, impl: BotanHash, input: Bytes, output: array<byte>) returns (r: Outcome)
    requires impl.Serves(f)
    modifies impl, output
    ensures r.Fail? <==> output.Length > f.props.maxOutput
    ensures ComputedHash(impl.botan, f, old(impl.pending) + input, output.Length)
            == (if r.Pass? then Success(output[..]) else Failure(r.error))
    ensures r.Pass? ==> impl.pending == []
    ensures r.Fail? ==> impl.pending == old(impl.pending) + input && output[..] == old(output[..])
  {
    impl.Update(input);
    r := FinishInto(f, impl, output);
  }

  /** The macro's `compute_hash(input, salt, output)`: the salt is absorbed
      first, so it hashes `salt ++ input`. */
  method ComputeSaltedHash(f: HashFunction, impl: BotanHash, input: Bytes, salt: Bytes, output: array<byte>)
    returns (r: Outcome)
    requires impl.Serves(f)
    modifies impl, output
    ensures r.Fail? <==> output.Length > f.props.maxOutput
    ensures ComputedHash(impl.botan, f, old(impl.pending) + (salt + input), output.Length)
            == (if r.Pass? then Success(output[..]) else Failure(r.error))
    ensures r.Pass? ==> impl.pending == []
    ensures r.Fail? ==> impl.pending == old(impl.pending) + salt + input && output[..] == old(output[..])
  {
    impl.Update(salt);
    impl.Update(input);
    assert impl.pending == old(impl.pending) + (salt + input);
    r := FinishInto(f, impl, output);
  }

  /** The tail shared by both overloads: the exact-size, too-large and
      prefix cases. */
  method FinishInto(f: HashFunction, impl: BotanHash, output: array<byte>) returns (r: Outcome)
    requires impl.Serves(f)
    modifies impl, output
    ensures r.Fail? <==> output.Length > f.props.maxOutput
    ensures ComputedHash(impl.botan, f, old(impl.pending), output.Length)
            == (if r.Pass? then Success(output[..]) else Failure(r.error))
    ensures r.Pass? ==> impl.pending == []
    ensures r.Fail? ==> impl.pending == old(impl.pending) && output[..] == old(output[..])
  {
    if output.Length == f.props.maxOutput {
      impl.Final(output);
    } else if output.Length > f.props.maxOutput {
      return Fail(RangeError);
    } else {
      var tmp := new byte[f.props.maxOutput];
      impl.Final(tmp);
      CopyPrefix(tmp, output);
    }
    return Pass;
  }

  /** After a call that asked for too many bytes, the next call on the same
      thread hashes the abandoned input followed by its own. */
  method ReplayAfterRangeError(f: HashFunction, impl: BotanHash, first: Bytes, second: Bytes,
                               big: array<byte>, output: array<byte>)
    returns (r1: Outcome, r2: Outcome)
    requires impl.Serves(f) && impl.pending == []
    requires big.Length > f.props.maxOutput && output.Length == f.props.maxOutput && big != output
    modifies impl, big, output
    ensures r1 == Fail(RangeError) && r2 == Pass
    ensures output[..] == FullDigest(impl.botan, f, first + second)
  {
    r1 := ComputeHash(f, impl, first, big);
    assert impl.pending == first;
    r2 := ComputeHash(f, impl, second, output);
    assert FullDigest(impl.botan, f, first + second)[..output.Length] == FullDigest(impl.botan, f, first + second);
  }

  /** `compute_hash` with the length checked before anything is absorbed:
      a refused call leaves the shared object as it found it. */
  method ComputeHashChecked(f: HashFunction, impl: BotanHash, input: Bytes, output: array<byte>) returns (r: Outcome)
    requires impl.Serves(f)
    modifies impl, output
    ensures r.Fail? <==> output.Length > f.props.maxOutput
    ensures ComputedHash(impl.botan, f, old(impl.pending) + input, output.Length)
            == (if r.Pass? then Success(output[..]) else Failure(r.error))
    ensures r.Pass? ==> impl.pending == []
    ensures r.Fail? ==> impl.pending == old(impl.pending) && output[..] == old(output[..])
  {
    if output.Length > f.props.maxOutput {
      return Fail(RangeError);
    }
    impl.Update(input);
    r := FinishInto(f, impl, output);
  }

  /** With the check first, every call on an idle object hashes exactly its
      own input, whatever failed before it. */
  method NoReplayAfterRangeError(f: HashFunction, impl: BotanHash, first: Bytes, second: Bytes,
                                 big: array<byte>, output: array<byte>)
    returns (r1: Outcome, r2: Outcome)
    requires impl.Serves(f) && impl.pending == []
    requires big.Length > f.props.maxOutput && output.Length == f.props.maxOutput && big != output
    modifies impl, big, output
    ensures r1 == Fail(RangeError) && r2 == Pass
    ensures output[..] == FullDigest(impl.botan, f, second)
  {
    r1 := ComputeHashChecked(f, impl, first, big);
    r2 := ComputeHashChecked(f, impl, second, output);
    assert [] + second == second;
    assert FullDigest(impl.botan, f, second)[..output.Length] == FullDigest(impl.botan, f, second);
  }

  /** Both `begin_hash` overloads of every registered class throw
      "Not implemented", with or without a salt. */
  function BeginHash(f: HashFunction, salt: Option<Bytes>): (r: Outcome)
    ensures r.Fail? && r.error == NotImplemented
  {
    Fail(NotImplemented)
  }

  // ---------------------------------------------------------------------------
  // hasher

  /** `hasher`: a handle on a registered hash function. */
  datatype Hasher = Hasher(impl: HashFunction) {
    function Properties(): HashProperties { impl.props }
  }

  /** `get_hasher(alg)`. */
  function GetHasher(alg: HashAlgorithm): (r: Result<Hasher>)
    ensures r.Success? <==> IsRegisteredHash(alg)
    ensures r.Success? ==> r.value == Hasher(StaticHashFunction(alg)) && r.value.Properties().alg == alg
    ensures r.Failure? ==> r.error == AlgorithmNotImplemented(HashFamily, alg as u16)
  {
    RegisteredHashAlgorithms(alg);
    if IsRegisteredHash(alg) then StaticMatchesDynamic(alg); Success(Hasher(GetHashFunction(alg).value))
    else Failure(AlgorithmNotImplemented(HashFamily, alg as u16))
  }

  /** The full-length hash a hasher gives a message (`get_hash`). */
  function HashOf(botan: BotanDigest, h: Hasher, m: Bytes): (d: Bytes)
    ensures ComputedHash(botan, h.impl, m, h.impl.props.maxOutput) == Success(d)
  {
    FullDigest(botan, h.impl, m)
  }

  // ---------------------------------------------------------------------------
  // Partial hash sessions

  /** A `partial_hash_function`: a digest over everything processed since the
      last reset; `finish` invalidates it. */
  class DigestSession {
    const botan: BotanDigest
    const name: string
    var absorbed: Bytes
    var finished: bool

    constructor (botan: BotanDigest, name: string)
      ensures this.botan == botan && this.name == name
      ensures absorbed == [] && !finished
    {
      this.botan := botan;
      this.name := name;
      absorbed := [];
      finished := false;
    }

    method Process(input: Bytes)
      requires !finished
      modifies this
      ensures absorbed == old(absorbed) + input && !finished
    {
      absorbed := absorbed + input;
    }

    method Finish(out: array<byte>)
      requires !finished
      modifies this, out
      ensures out[..] == Digest(botan, name, old(absorbed), out.Length)
      ensures finished && absorbed == old(absorbed)
    {
      var d := Digest(botan, name, absorbed, out.Length);
      var i := 0;
      while i < out.Length
        modifies out
        invariant 0 <= i <= out.Length
        invariant out[..i] == d[..i]
      {
        out[i] := d[i];
        i := i + 1;
      }
      finished := true;
    }

    method Reset()
      modifies this
      ensures absorbed == [] && !finished
    {
      absorbed := [];
      finished := false;
    }
  }

  /** `partial_hash_function::salt_wrapper`: feeds its copy of the salt to
      the base session on construction and again after every reset. */
  class SaltWrapper {
    const base: DigestSession
    const salt: Bytes
    /** What the base held before it was wrapped; cleared by a reset. */
    ghost var origin: Bytes
    /** The inputs processed through the wrapper since construction or reset. */
    ghost var inputs: Bytes

    ghost predicate Valid()
      reads this, base
    {
      base.absorbed == origin + salt + inputs
    }

    constructor (base: DigestSession, salt: Bytes)
      requires !base.finished
      modifies base
      ensures this.base == base && this.salt == salt
      ensures origin == old(base.absorbed) && inputs == []
      ensures Valid() && !base.finished
    {
      this.base := base;
      this.salt := salt;
      origin := base.absorbed;
      inputs := [];
      new;
      base.Process(salt);
    }

    method Process(input: Bytes)
      requires Valid() && !base.finished
      modifies this, base
      ensures Valid() && !base.finished
      ensures origin == old(origin) && inputs == old(inputs) + input
    {
      base.Process(input);
      inputs := inputs + input;
    }

    method Finish(out: array<byte>)
      requires Valid() && !base.finished
      modifies base, out
      ensures out[..] == Digest(base.botan, base.name, origin + salt + inputs, out.Length)
      ensures base.finished && Valid()
    {
      base.Finish(out);
    }

    method Reset()
      modifies this, base
      ensures Valid() && !base.finished
      ensures origin == [] && inputs == [] && base.absorbed == salt
    {
      base.Reset();
      base.Process(salt);
      origin := [];
      inputs := [];
    }
  }

  /** `partial_hasher`: a session paired with its function's properties. */
  class PartialHasher {
    const props: HashProperties
    const impl: DigestSession

    constructor (props: HashProperties, impl: DigestSession)
      ensures this.props == props && this.impl == impl
    {
      this.props := props;
      this.impl := impl;
    }

    method Process(input: Bytes)
      requires !impl.finished
      modifies impl
      ensures impl.absorbed == old(impl.absorbed) + input && !impl.finished
    {
      impl.Process(input);
    }

    /** `finish<HashSize>()`: a fixed-size hash of `HashSize` zeroed bytes, or
      a dynamic one resized to `max_output`, filled by the session. */
    method Finish(hashSize: Option<nat>) returns (h: Hash)
      requires !impl.finished
      modifies impl
      ensures |h.value| == (if hashSize.Some? then hashSize.value else props.maxOutput)
      ensures h.value == Digest(impl.botan, impl.name, old(impl.absorbed), |h.value|)
      ensures impl.finished
    {
      var n := if hashSize.Some? then hashSize.value else props.maxOutput;
      var ret := new byte[n](_ => 0);
      impl.Finish(ret);
      h := Hash(ret[..]);
    }
  }
}
