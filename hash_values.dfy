/** Hash values (`hash<N>`, `hash<nu::dynamic_size>`), their serialisation,
    their comparison operators, and the algorithm-tagged `safe_hash`. */
module HashValues {
  import opened Common

  /** `enum class hash_algorithm : uint16_t`. The low byte of every
      enumerator is the digest length in bytes. */
  newtype HashAlgorithm = x: int | 0 <= x < 0x1_0000

  const SHA2_224: HashAlgorithm := 0x021c
  const SHA2_256: HashAlgorithm := 0x0220
  const SHA2_384: HashAlgorithm := 0x0230
  const SHA2_512: HashAlgorithm := 0x0240
  const SHA3_224: HashAlgorithm := 0x031c
  const SHA3_256: HashAlgorithm := 0x0320
  const SHA3_384: HashAlgorithm := 0x0330
  const SHA3_512: HashAlgorithm := 0x0340
  const BLAKE2b_128: HashAlgorithm := 0x0410
  const BLAKE2b_256: HashAlgorithm := 0x0420
  const BLAKE2b_512: HashAlgorithm := 0x0440
  const BLAKE2s_128: HashAlgorithm := 0x0510
  const BLAKE2s_256: HashAlgorithm := 0x0520

  /** A hash value. For `hash<N>` the sequence has length `N`; for
      `hash<nu::dynamic_size>` any length. */
  datatype Hash = Hash(value: Bytes)

  // ---------------------------------------------------------------------------
  // Serialisation

  /** `hash<N>::_serialise_static`: copies the value into the front of `b`,
      refusing a buffer shorter than `N`. */
  method SerialiseStatic(h: Hash, size: nat, b: array<byte>) returns (r: Outcome)
    requires |h.value| == size
    modifies b
    ensures r.Fail? <==> b.Length < size
    ensures r.Fail? ==> r.error == InvalidArgument && b[..] == old(b[..])
    ensures r.Pass? ==> b[..size] == h.value && b[size..] == old(b[size..])
  {
    if b.Length < size {
      return Fail(InvalidArgument);
    }
    var i := 0;
    while i < size
      invariant 0 <= i <= size
      invariant b[..i] == h.value[..i]
      invariant b[i..] == old(b[i..])
    {
      b[i] := h.value[i];
      i := i + 1;
    }
    return Pass;
  }

  /** `hash<N>`'s static deserialiser: accepts exactly `N` bytes. */
  function DeserialiseStatic(size: nat, d: Bytes): (r: Result<Hash>)
    ensures r.Success? <==> |d| == size
    ensures r.Success? ==> r.value.value == d && |r.value.value| == size
    ensures r.Failure? ==> r.error == SerialisationFailure
  {
    if |d| != size then Failure(SerialisationFailure) else Success(Hash(d))
  }

  /** `hash<nu::dynamic_size>::_serialise`: the bytes are the hash's value
      itself. */
  function SerialiseDynamic(h: Hash): (d: Bytes)
    ensures |d| == |h.value|
    ensures Hash(d) == h
  {
    h.value
  }

  /** `hash<nu::dynamic_size>`'s deserialiser; it inverts `SerialiseDynamic`. */
  function DeserialiseDynamic(d: Bytes): (h: Hash)
    ensures SerialiseDynamic(h) == d
  {
    Hash(d)
  }

  /** Serialising a dynamic hash and reading it back gives the same hash. */
  lemma DynamicRoundTrip(h: Hash)
    ensures DeserialiseDynamic(SerialiseDynamic(h)) == h
  {
  }

  // ---------------------------------------------------------------------------
  // Comparison operators

  /** The element comparators the operators hand to `lexicographical_compare`. */
  datatype Comparator = Less | LessEqual | Greater | GreaterEqual {
    predicate Apply(x: byte, y: byte) {
      match this
      case Less => x < y
      case LessEqual => x <= y
      case Greater => x > y
      case GreaterEqual => x >= y
    }
  }

  /** `std::lexicographical_compare(a.begin(), a.end(), b.begin(), b.end(), comp)`. */
  function LexicographicalCompare(a: Bytes, b: Bytes, comp: Comparator): bool {
    if a == [] || b == [] then a == [] && b != []
    else if comp.Apply(a[0], b[0]) then true
    else if comp.Apply(b[0], a[0]) then false
    else LexicographicalCompare(a[1..], b[1..], comp)
  }

  predicate Lt(a: Hash, b: Hash) { LexicographicalCompare(a.value, b.value, Less) }
  predicate Le(a: Hash, b: Hash) { LexicographicalCompare(a.value, b.value, LessEqual) }
  predicate Gt(a: Hash, b: Hash) { LexicographicalCompare(a.value, b.value, Greater) }
  predicate Ge(a: Hash, b: Hash) { LexicographicalCompare(a.value, b.value, GreaterEqual) }

  /** `std::equal(a.begin(), a.end(), b.begin(), b.end())`. */
  function Equal(a: Bytes, b: Bytes): (r: bool)
    ensures r <==> a == b
  {
    if a == [] || b == [] then a == [] && b == []
    else a[0] == b[0] && Equal(a[1..], b[1..])
  }

  /** `operator==` on hashes of any two sizes. */
  predicate Eq(a: Hash, b: Hash) { Equal(a.value, b.value) }

  /** `operator!=`. */
  predicate Ne(a: Hash, b: Hash) { !Eq(a, b) }

  /** `!=` is the negation of `==`, and `==` is equality of the byte sequences
      (same length, same bytes). */
  lemma EqualityOperators(a: Hash, b: Hash)
    ensures Eq(a, b) <==> |a.value| == |b.value| && forall i :: 0 <= i < |a.value| ==> a.value[i] == b.value[i]
    ensures Ne(a, b) <==> !Eq(a, b)
  {
    if |a.value| == |b.value| && forall i :: 0 <= i < |a.value| ==> a.value[i] == b.value[i] {
      assert a.value == b.value;
    }
  }

  /** Position `k` is the first difference of `a` and `b`, and there `a` is smaller. */
  ghost predicate FirstDifferenceBelow(a: Bytes, b: Bytes, k: int) {
    0 <= k < |a| && k < |b| && a[..k] == b[..k] && a[k] < b[k]
  }

  /** `a` is a proper prefix of `b`. */
  ghost predicate ProperPrefix(a: Bytes, b: Bytes) {
    |a| < |b| && a == b[..|a|]
  }

  /** The lexicographic order, defined independently of the loop: either the
      first difference is smaller in `a`, or `a` is a proper prefix of `b`. */
  ghost predicate LexLess(a: Bytes, b: Bytes) {
    (exists k :: FirstDifferenceBelow(a, b, k)) || ProperPrefix(a, b)
  }

  /** A lexicographic relation between the tails extends to the whole sequences. */
  lemma LexLessCons(a: Bytes, b: Bytes)
    requires a != [] && b != [] && a[0] == b[0]
    requires LexLess(a[1..], b[1..])
    ensures LexLess(a, b)
  {
    var a', b' := a[1..], b[1..];
    if k :| FirstDifferenceBelow(a', b', k) {
      assert a[..k + 1] == [a[0]] + a'[..k] && b[..k + 1] == [b[0]] + b'[..k];
      assert FirstDifferenceBelow(a, b, k + 1);
    } else {
      assert b[..|a|] == [b[0]] + b'[..|a'|];
      assert ProperPrefix(a, b);
    }
  }

  /** A lexicographic relation between sequences with a common first byte
      holds between their tails. */
  lemma LexLessTail(a: Bytes, b: Bytes)
    requires a != [] && b != [] && a[0] == b[0]
    requires LexLess(a, b)
    ensures LexLess(a[1..], b[1..])
  {
    var a', b' := a[1..], b[1..];
    if k :| FirstDifferenceBelow(a, b, k) {
      assert a[..k + 1][0] == a[0];
      assert k != 0;
      assert a'[..k - 1] == a[..k][1..] && b'[..k - 1] == b[..k][1..];
      assert FirstDifferenceBelow(a', b', k - 1);
    } else {
      assert b'[..|a'|] == b[..|a|][1..];
      assert ProperPrefix(a', b');
    }
  }

  /** `<` is exactly the strict lexicographic order. */
  lemma {:induction false} LessIsLexicographic(a: Bytes, b: Bytes)
    ensures LexicographicalCompare(a, b, Less) <==> LexLess(a, b)
    decreases |a|
  {
    if a == [] || b == [] {
      assert !exists k :: FirstDifferenceBelow(a, b, k);
    } else if a[0] < b[0] {
      assert a[..0] == b[..0];
      assert FirstDifferenceBelow(a, b, 0);
    } else if b[0] < a[0] {
      forall k | 0 < k <= |a| && k <= |b| ensures a[..k] != b[..k] {
        assert a[..k][0] != b[..k][0];
      }
      if |a| < |b| { assert b[..|a|][0] != a[0]; }
    } else {
      LessIsLexicographic(a[1..], b[1..]);
      if LexLess(a[1..], b[1..]) { LexLessCons(a, b); }
      if LexLess(a, b) { LexLessTail(a, b); }
    }
  }

  /** For any two byte sequences exactly one of `a < b`, `a == b`, `b < a` holds. */
  lemma {:induction false} LessTrichotomy(a: Bytes, b: Bytes)
    ensures LexicographicalCompare(a, b, Less) || a == b || LexicographicalCompare(b, a, Less)
    ensures !(LexicographicalCompare(a, b, Less) && a == b)
    ensures !(LexicographicalCompare(a, b, Less) && LexicographicalCompare(b, a, Less))
    decreases |a|
  {
    if a != [] && b != [] && a[0] == b[0] {
      LessTrichotomy(a[1..], b[1..]);
      if a[1..] == b[1..] {
        assert a == [a[0]] + a[1..] && b == [b[0]] + b[1..];
      }
    }
  }

  /** `<` is transitive. */
  lemma {:induction false} LessTransitive(a: Bytes, b: Bytes, c: Bytes)
    requires LexicographicalCompare(a, b, Less) && LexicographicalCompare(b, c, Less)
    ensures LexicographicalCompare(a, c, Less)
    decreases |a|
  {
    if a != [] && b != [] && c != [] && a[0] == b[0] && b[0] == c[0] {
      LessTransitive(a[1..], b[1..], c[1..]);
    }
  }

  /** For hashes of the same length, `>` is the converse of `<`. */
  lemma {:induction false} GreaterIsConverseOnEqualLength(a: Bytes, b: Bytes)
    requires |a| == |b|
    ensures LexicographicalCompare(a, b, Greater) <==> LexicographicalCompare(b, a, Less)
    decreases |a|
  {
    if a != [] && a[0] == b[0] {
      GreaterIsConverseOnEqualLength(a[1..], b[1..]);
    }
  }

  /** A proper prefix compares both below and above: `lexicographical_compare`
      returns true when its first range runs out first, whatever the comparator. */
  lemma {:induction false} ProperPrefixIsLessAndGreater(a: Bytes, b: Bytes)
    requires |a| < |b| && a == b[..|a|]
    ensures LexicographicalCompare(a, b, Less) && LexicographicalCompare(a, b, Greater)
    decreases |a|
  {
    if a != [] {
      assert a[0] == b[0];
      assert a[1..] == b[1..][..|a| - 1];
      ProperPrefixIsLessAndGreater(a[1..], b[1..]);
    }
  }

  /** The shortest witness of the quirk: `[1] < [1, 2]` and `[1] > [1, 2]`. */
  lemma GreaterCounterexample()
    ensures Lt(Hash([1]), Hash([1, 2])) && Gt(Hash([1]), Hash([1, 2]))
  {
    ProperPrefixIsLessAndGreater([1], [1, 2]);
  }

  /** `<=` and `>=` pass `less_equal`/`greater_equal` to `lexicographical_compare`;
      on non-empty values the first byte pair alone decides them. */
  lemma LessEqualDecidedByFirstByte(a: Bytes, b: Bytes)
    requires a != [] && b != []
    ensures LexicographicalCompare(a, b, LessEqual) <==> a[0] <= b[0]
    ensures LexicographicalCompare(a, b, GreaterEqual) <==> a[0] >= b[0]
  {
  }

  /** `[1, 5] <= [1, 2]` although `[1, 2] < [1, 5]`; and `<=` is false on two
      empty values. */
  lemma LessEqualCounterexample()
    ensures Le(Hash([1, 5]), Hash([1, 2])) && Lt(Hash([1, 2]), Hash([1, 5]))
    ensures Ge(Hash([1, 2]), Hash([1, 5]))
    ensures !Le(Hash([]), Hash([]))
  {
  }

  /** The intended `>`, `<=` and `>=`, defined from `<`. */
  predicate GtIntended(a: Hash, b: Hash) { Lt(b, a) }
  predicate LeIntended(a: Hash, b: Hash) { !Lt(b, a) }
  predicate GeIntended(a: Hash, b: Hash) { !Lt(a, b) }

  /** The intended operators are the lexicographic total order: `<=` is `<`
      or equal, reflexive, antisymmetric and transitive, and `>`/`>=` are the
      converses of `<`/`<=`. */
  lemma {:induction false} IntendedOrderIsTotal(a: Hash, b: Hash, c: Hash)
    ensures LeIntended(a, b) <==> Lt(a, b) || a == b
    ensures LeIntended(a, a)
    ensures LeIntended(a, b) && LeIntended(b, a) ==> a == b
    ensures LeIntended(a, b) && LeIntended(b, c) ==> LeIntended(a, c)
    ensures LeIntended(a, b) || LeIntended(b, a)
    ensures GtIntended(a, b) <==> Lt(b, a)
    ensures GeIntended(a, b) <==> LeIntended(b, a)
  {
    LessTrichotomy(a.value, b.value);
    LessTrichotomy(b.value, c.value);
    LessTrichotomy(a.value, c.value);
    LessTrichotomy(a.value, a.value);
    if Lt(a, b) && Lt(b, c) { LessTransitive(a.value, b.value, c.value); }
    if LeIntended(a, b) && LeIntended(b, c) && Lt(c, a) {
      if Lt(a, b) { LessTransitive(c.value, a.value, b.value); }
      if Lt(b, c) { LessTransitive(b.value, c.value, a.value); }
    }
  }

  // ---------------------------------------------------------------------------
  // safe_hash

  /** `safe_hash<N>`: a value together with the algorithm that produced it. */
  datatype SafeHash = SafeHash(value: Hash, algorithm: HashAlgorithm)

  predicate SafeEq(a: SafeHash, b: SafeHash) { a.algorithm == b.algorithm && Eq(a.value, b.value) }
  predicate SafeNe(a: SafeHash, b: SafeHash) { a.algorithm != b.algorithm || Ne(a.value, b.value) }
  predicate SafeLt(a: SafeHash, b: SafeHash) { a.algorithm < b.algorithm || Lt(a.value, b.value) }
  predicate SafeLe(a: SafeHash, b: SafeHash) { a.algorithm <= b.algorithm || Le(a.value, b.value) }
  predicate SafeGt(a: SafeHash, b: SafeHash) { a.algorithm > b.algorithm || Gt(a.value, b.value) }
  predicate SafeGe(a: SafeHash, b: SafeHash) { a.algorithm >= b.algorithm || Ge(a.value, b.value) }

  /** Tagged hashes are equal only if both algorithm and value are; `!=` is
      the negation of `==`. */
  lemma SafeEqualityOperators(a: SafeHash, b: SafeHash)
    ensures SafeEq(a, b) <==> a == b
    ensures SafeNe(a, b) <==> !SafeEq(a, b)
  {
  }

  /** `safe_hash`'s `<` holds whenever the first algorithm tag is smaller,
      whatever the values; so two tagged hashes can each be below the other. */
  lemma SafeLessCounterexample()
    ensures SafeLt(SafeHash(Hash([9]), SHA2_256), SafeHash(Hash([1]), BLAKE2b_256))
    ensures SafeLt(SafeHash(Hash([1]), BLAKE2b_256), SafeHash(Hash([9]), SHA2_256))
  {
  }

  /** The intended order on tagged hashes: by algorithm, then by value. */
  predicate SafeLtIntended(a: SafeHash, b: SafeHash) {
    a.algorithm < b.algorithm || (a.algorithm == b.algorithm && Lt(a.value, b.value))
  }

  /** `SafeLtIntended` is a strict total order. */
  lemma SafeLtIntendedIsStrictTotalOrder(a: SafeHash, b: SafeHash, c: SafeHash)
    ensures !SafeLtIntended(a, a)
    ensures SafeLtIntended(a, b) ==> !SafeLtIntended(b, a)
    ensures SafeLtIntended(a, b) || a == b || SafeLtIntended(b, a)
    ensures SafeLtIntended(a, b) && SafeLtIntended(b, c) ==> SafeLtIntended(a, c)
  {
    LessTrichotomy(a.value.value, a.value.value);
    LessTrichotomy(a.value.value, b.value.value);
    if SafeLtIntended(a, b) && SafeLtIntended(b, c) && a.algorithm == b.algorithm == c.algorithm {
      LessTransitive(a.value.value, b.value.value, c.value.value);
    }
  }

  /** `safe_hash` serialises as the pair (algorithm, value). */
  function SerialiseSafeHash(c: Codec<(HashAlgorithm, Bytes)>, h: SafeHash): Bytes {
    c.encode((h.algorithm, h.value.value))
  }

  /** `safe_hash`'s deserialiser reads the same two fields in the same order. */
  function DeserialiseSafeHash(c: Codec<(HashAlgorithm, Bytes)>, b: Bytes): (r: Result<SafeHash>)
    ensures r.Success? <==> c.decode(b).Some?
    ensures r.Success? ==> c.decode(b) == Some((r.value.algorithm, r.value.value.value))
  {
    match c.decode(b)
    case None => Failure(SerialisationFailure)
    case Some(fields) => Success(SafeHash(Hash(fields.1), fields.0))
  }

  lemma SafeHashRoundTrip(c: Codec<(HashAlgorithm, Bytes)>, h: SafeHash)
    requires RoundTrips(c)
    ensures DeserialiseSafeHash(c, SerialiseSafeHash(c, h)) == Success(h)
  {
  }
}
