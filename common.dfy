/** Shared vocabulary of the model: bytes, fixed-width integers, the
    library's error kinds and the failure-compatible result types. */
module Common {

  /** An octet, as `uint8_t`. */
  type byte = bv8

  /** A byte buffer (`nu::data`, `std::vector<uint8_t>`, a span's contents). */
  type Bytes = seq<byte>

  /** The 16-bit value underlying every algorithm enum. */
  newtype u16 = x: int | 0 <= x < 0x1_0000

  /** `uint64_t`. */
  newtype u64 = x: int | 0 <= x < 0x1_0000_0000_0000_0000

  /** `std::numeric_limits<size_t>::max()` on a 64-bit target. */
  const SizeMax: nat := 0xFFFF_FFFF_FFFF_FFFF

  /** The capability family an algorithm tag belongs to; it is the template
      argument of `algorithm_not_implemented<AlgType>`. */
  datatype Family = HashFamily | SymmetricFamily | SignatureFamily | AgreementFamily | KdfFamily

  /** Every failure the core can report. Exceptions of the source become
      values; undefined behaviour that the model makes explicit has its own
      constructor. */
  datatype Error =
    | AlgorithmNotImplemented(family: Family, tag: u16)  // algorithm_not_implemented{alg}
    | SerialisationFailure                                // nu::serialisation_failure
    | InvalidArgument                                     // std::invalid_argument
    | RangeError                                          // std::range_error
    | NotImplemented                                      // std::runtime_error("Not implemented")
    | InvalidKeyEncoding                                  // a key constructor rejecting its bytes
    | DivisionByZero                                      // `% 0`: undefined behaviour
    | OutOfBuffer                                         // an iterator leaving its buffer: undefined behaviour
    | ContractViolation                                   // a failed GSL `Expects`: the program terminates
    | OutOfFuel                                           // the model's bound on an unbounded loop

  datatype Option<+T> = None | Some(value: T)

  datatype Result<+T> = Success(value: T) | Failure(error: Error) {
    predicate IsFailure() { Failure? }
    function PropagateFailure<U>(): Result<U> requires Failure? { Failure(error) }
    function Extract(): T requires Success? { value }
  }

  datatype Outcome = Pass | Fail(error: Error) {
    predicate IsFailure() { Fail? }
    function PropagateFailure(): Outcome requires Fail? { this }
  }

  /** An encode/decode pair of the external serialisation library (`nu::squash`
      and `nu::expand`, or their `_hybrid` forms). Its byte layout is not
      part of the model; only the round trip is assumed, as `RoundTrips`. */
  datatype Codec<!T> = Codec(encode: T -> Bytes, decode: Bytes -> Option<T>)

  ghost predicate RoundTrips<T(!new)>(c: Codec<T>) {
    forall x: T :: c.decode(c.encode(x)) == Some(x)
  }

  /** The shape every persisted credential has: two algorithm tags followed
      by the algorithm's payload. */
  datatype Tagged = Tagged(first: u16, second: u16, payload: Bytes)

  /** The first `n` bytes of the stream `f(0), f(1), ...`: how a
      primitive's fixed-length output is modelled from a byte-at-a-time
      uninterpreted function. */
  function Stream(f: nat -> byte, n: nat): (r: Bytes)
    ensures |r| == n
    ensures forall i :: 0 <= i < n ==> r[i] == f(i)
  {
    seq(n, i requires 0 <= i < n => f(i))
  }

  function Min(a: nat, b: nat): (m: nat)
    ensures m <= a && m <= b && (m == a || m == b)
  {
    if a < b then a else b
  }
}
