/** Key derivation: the SHAKE-based `kdf` objects, their registry and lookups. */
module KeyDerivation {
  import opened Common
  import opened Registries

  /** `enum class kdf_algorithm : uint16_t`. */
  newtype KdfAlgorithm = x: int | 0 <= x < 0x1_0000

  const Shake128: KdfAlgorithm := 0x0010
  const Shake256: KdfAlgorithm := 0x0020

  /** Byte `i` of the SHAKE output stream of the given strength (128 or 256)
      over a message. As an extendable-output function, the stream does not
      depend on how many bytes are asked for. */
  type ShakeStream = (nat, Bytes, nat) -> byte

  /** The first `n` bytes of that stream. */
  function ShakeOutput(shake: ShakeStream, strength: nat, m: Bytes, n: nat): (r: Bytes)
    ensures |r| == n
    ensures forall i :: 0 <= i < n ==> r[i] == shake(strength, m, i)
  {
    Stream((i: nat) => shake(strength, m, i), n)
  }

  /** The local `Botan::SHAKE_128`/`SHAKE_256` object of one `expand` call,
      created with an output size in bits. */
  class Shake {
    const shake: ShakeStream
    const strength: nat
    const outputBits: nat
    var absorbed: Bytes

    constructor (shake: ShakeStream, strength: nat, outputBits: nat)
      ensures this.shake == shake && this.strength == strength && this.outputBits == outputBits
      ensures absorbed == []
    {
      this.shake := shake;
      this.strength := strength;
      this.outputBits := outputBits;
      absorbed := [];
    }

    method Process(input: Bytes)
      modifies this
      ensures absorbed == old(absorbed) + input
    {
      absorbed := absorbed + input;
    }

    /** `final`: writes `outputBits / 8` bytes of the stream. */
    method Final(out: array<byte>)
      requires out.Length * 8 == outputBits
      modifies out
      ensures out[..] == ShakeOutput(shake, strength, absorbed, out.Length)
    {
      var d := ShakeOutput(shake, strength, absorbed, out.Length);
      var i := 0;
      while i < out.Length
        invariant 0 <= i <= out.Length
        invariant out[..i] == d[..i]
      {
        out[i] := d[i];
        i := i + 1;
      }
    }
  }

  /** The two classes `C3_UPSILON_DEF_KDF_BOTAN` defines. They have no state. */
  datatype Kdf = Shake128Kdf | Shake256Kdf {
    /** `alg()`. */
    function Alg(): (a: KdfAlgorithm)
      ensures a == Shake128 <==> this == Shake128Kdf
      ensures a == Shake256 <==> this == Shake256Kdf
    {
      match this
      case Shake128Kdf => Shake128
      case Shake256Kdf => Shake256
    }

    function Strength(): nat {
      match this
      case Shake128Kdf => 128
      case Shake256Kdf => 256
    }

    /** What `expand(input, output)` writes: as many bytes as the caller's
      buffer has, from the SHAKE stream over the input. */
    function Expanded(shake: ShakeStream, input: Bytes, n: nat): (r: Bytes)
      ensures |r| == n
    {
      ShakeOutput(shake, Strength(), input, n)
    }

    /** `expand(input, output)`: a fresh SHAKE object per call, sized from the
      output buffer, fed the input and finalised into the buffer. */
    method Expand(shake: ShakeStream, input: Bytes, output: array<byte>)
      modifies output
      ensures output[..] == Expanded(shake, input, output.Length)
    {
      var impl := new Shake(shake, Strength(), output.Length * 8);
      impl.Process(input);
      assert impl.absorbed == input;
      impl.Final(output);
    }
  }

  /** A shorter derivation is a prefix of a longer one from the same input:
      outputs of different lengths never contradict each other. */
  lemma {:induction false} ExpandedPrefix(k: Kdf, shake: ShakeStream, input: Bytes, short: nat, long: nat)
    requires short <= long
    ensures k.Expanded(shake, input, short) == k.Expanded(shake, input, long)[..short]
  {
    var a := k.Expanded(shake, input, short);
    var b := k.Expanded(shake, input, long);
    forall i | 0 <= i < short ensures a[i] == b[i] {
      assert a[i] == shake(k.Strength(), input, i) == b[i];
    }
  }

  /** Expanding the same input into two buffers of the same size writes the
      same bytes: nothing is carried from one call to the next. */
  method ExpandTwice(k: Kdf, shake: ShakeStream, input: Bytes, first: array<byte>, second: array<byte>)
    requires first.Length == second.Length && first != second
    modifies first, second
    ensures first[..] == second[..] == k.Expanded(shake, input, first.Length)
  {
    k.Expand(shake, input, first);
    k.Expand(shake, input, second);
  }

  // ---------------------------------------------------------------------------
  // Registry

  /** The macro invocations, in source order. */
  function KdfEntries(): seq<(KdfAlgorithm, Kdf)> {
    [(Shake128, Shake128Kdf), (Shake256, Shake256Kdf)]
  }

  /** `_kdfs` after static initialisation. */
  function Kdfs(): map<KdfAlgorithm, Kdf> {
    Registered(KdfEntries())
  }

  /** The specialisations `get_kdf<ALG>()`. */
  function StaticKdf(alg: KdfAlgorithm): (k: Kdf)
    requires alg == Shake128 || alg == Shake256
    ensures k.Alg() == alg
  {
    if alg == Shake128 then Shake128Kdf else Shake256Kdf
  }

  /** `get_kdf(alg)`. */
  function GetKdf(alg: KdfAlgorithm): (r: Result<Kdf>)
    ensures r.Success? <==> alg in Kdfs()
    ensures r.Success? ==> r.value == Kdfs()[alg]
    ensures r.Failure? ==> r.error == AlgorithmNotImplemented(KdfFamily, alg as u16)
  {
    Find(Kdfs(), alg, AlgorithmNotImplemented(KdfFamily, alg as u16))
  }

  /** Both SHAKE classes are registered and nothing else; the object found
      under a tag reports that tag, and it is the static object. */
  lemma KdfRegistration(alg: KdfAlgorithm)
    ensures GetKdf(alg).Success? <==> alg == Shake128 || alg == Shake256
    ensures GetKdf(alg).Success? ==> GetKdf(alg).value == StaticKdf(alg) && GetKdf(alg).value.Alg() == alg
  {
    var es := KdfEntries();
    RegisteredKeys(map[], es);
    if alg == Shake128 {
      DistinctRegistered(es, 0);
    } else if alg == Shake256 {
      DistinctRegistered(es, 1);
    } else {
      assert alg !in KeysOf(es);
    }
  }
}
