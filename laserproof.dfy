/** Proof of work: the `pow` record, and the Laserproof verifier, which grows
    a work buffer block by block until a stop check over the proof and
    strided windows of the buffer succeeds, and reports the buffer length
    as the difficulty. */
module ProofOfWork {
  import opened Common
  import opened HashValues
  import opened Hashing
  import Octets

  /** `enum class pow_algorithm : uint16_t`. */
  newtype PowAlgorithm = x: int | 0 <= x < 0x1_0000

  const Laserproof: PowAlgorithm := 0x0100

  /** `pow<N>`: a hash tag, a fixed-size proof hash and a 64-bit nonce. */
  datatype Pow = Pow(halg: HashAlgorithm, proof: Hash, nonce: u64)

  /** How the stop check walks the buffer: as the source writes it (start
      one byte before the last window, step back by the whole buffer size),
      or in whole windows of `backstride_len` from the end down to
      `size % backstride_len`. */
  datatype StrideRule = AsWritten | Strided

  /** The Laserproof parameters. `lookbackLen`, `backstrideLen`, `threshold`
      and `proofLen` are members the header does not declare; `sessions` says
      whether `h.begin_hash(proof)` returns a session (fed the proof first,
      as `salt_wrapper` does) or throws, as every registered class does. */
  datatype LaserproofVerifier = LaserproofVerifier(
    h: Hasher,
    lookbackLen: nat,
    backstrideLen: nat,
    threshold: nat,
    proofLen: nat,
    sessions: bool,
    stride: StrideRule)

  // ---------------------------------------------------------------------------
  // XOR fold

  /** All bytes of `s` XORed together, left to right. */
  function XorFold(s: Bytes): byte
    decreases |s|
  {
    if s == [] then 0 else XorFold(s[..|s| - 1]) ^ s[|s| - 1]
  }

  /** The fold of a concatenation is the XOR of the folds. */
  lemma {:induction false} XorFoldAppend(a: Bytes, b: Bytes)
    ensures XorFold(a + b) == XorFold(a) ^ XorFold(b)
    decreases |b|
  {
    if b == [] {
      assert a + b == a;
      assert XorFold(a) ^ 0 == XorFold(a);
    } else {
      var b' := b[..|b| - 1];
      assert (a + b)[..|a + b| - 1] == a + b';
      XorFoldAppend(a, b');
      assert (XorFold(a) ^ XorFold(b')) ^ b[|b| - 1] == XorFold(a) ^ (XorFold(b') ^ b[|b| - 1]);
    }
  }

  /** The loop `for (auto i : hash.value) result ^= i`. */
  method XorAll(hash: Bytes) returns (result: byte)
    ensures result == XorFold(hash)
  {
    result := 0;
    var i := 0;
    while i < |hash|
      invariant 0 <= i <= |hash|
      invariant result == XorFold(hash[..i])
    {
      assert hash[..i + 1][..i] == hash[..i];
      result := result ^ hash[i];
      i := i + 1;
    }
    assert hash[..|hash|] == hash;
  }

  // ---------------------------------------------------------------------------
  // The stop check

  /** The first window start. */
  function Start(rule: StrideRule, size: nat, bs: nat): int {
    match rule
    case AsWritten => size - 1 - bs
    case Strided => size - bs
  }

  /** How far the window start moves back each step. */
  function Step(rule: StrideRule, size: nat, bs: nat): (s: nat)
    requires size >= 1 && bs >= 1
    ensures s >= 1
  {
    match rule
    case AsWritten => size
    case Strided => bs
  }

  /** The loop condition: `iter != final_block_start`, or in the strided walk
      `iter >= final_block_start`. */
  predicate Continues(rule: StrideRule, iter: int, final: nat) {
    match rule
    case AsWritten => iter != final
    case Strided => iter >= final
  }

  /** `prefix` in front of a successful result. */
  function Prepend(prefix: Bytes, r: Result<Bytes>): (p: Result<Bytes>)
    ensures p.Success? <==> r.Success?
    ensures p.Success? ==> p.value == prefix + r.value
    ensures p.Failure? ==> p == r
  {
    match r
    case Success(v) => Success(prefix + v)
    case Failure(e) => Failure(e)
  }

  /** The bytes the stepping loop feeds to the session from window start
      `iter` on, or `OutOfBuffer` when a window would leave the buffer. */
  function Windows(rule: StrideRule, buf: Bytes, bs: nat, iter: int): Result<Bytes>
    requires bs >= 1
    decreases iter + 1
  {
    if !Continues(rule, iter, |buf| % bs) then Success([])
    else if iter < 0 || iter + bs > |buf| then Failure(OutOfBuffer)
    else Prepend(buf[iter..iter + bs], Windows(rule, buf, bs, iter - Step(rule, |buf|, bs)))
  }

  /** `check_complete(buf, proof)`: first `size % backstride_len`, then the
      session, then the windows, then the XOR fold against the threshold. */
  function StopCheck(lp: LaserproofVerifier, botan: BotanDigest, buf: Bytes, proof: Bytes): Result<bool> {
    if lp.backstrideLen == 0 then Failure(DivisionByZero)
    else if !lp.sessions then Failure(NotImplemented)
    else
      var data :- Windows(lp.stride, buf, lp.backstrideLen, Start(lp.stride, |buf|, lp.backstrideLen));
      var hash := Digest(botan, lp.h.impl.botanName, proof + data, lp.h.impl.props.maxOutput);
      Success((XorFold(hash) as int) < lp.threshold)
  }

  /** Prefixes compose. */
  lemma PrependPrepend(a: Bytes, b: Bytes, r: Result<Bytes>)
    ensures Prepend(a, Prepend(b, r)) == Prepend(a + b, r)
  {
    if r.Success? {
      assert a + (b + r.value) == (a + b) + r.value;
    }
  }

  /** One window of the walk, when the loop goes on and the window fits. */
  lemma WindowsUnfold(rule: StrideRule, buf: Bytes, bs: nat, iter: int)
    requires bs >= 1 && Continues(rule, iter, |buf| % bs) && 0 <= iter && iter + bs <= |buf|
    ensures Windows(rule, buf, bs, iter) == Prepend(buf[iter..iter + bs], Windows(rule, buf, bs, iter - Step(rule, |buf|, bs)))
  {
  }

  /** The stepping loop of `check_complete`: feeds each window to a session
      that has had only the proof so far. */
  method FeedWindows(ph: SaltWrapper, rule: StrideRule, buf: Bytes, bs: nat) returns (r: Outcome)
    requires bs >= 1
    requires ph.Valid() && !ph.base.finished && ph.inputs == []
    modifies ph, ph.base
    ensures ph.Valid() && !ph.base.finished && ph.origin == old(ph.origin)
    ensures Windows(rule, buf, bs, Start(rule, |buf|, bs)) == if r.Pass? then Success(ph.inputs) else Failure(r.error)
  {
    var final := |buf| % bs;
    var first := Start(rule, |buf|, bs);
    var iter := first;
    if Windows(rule, buf, bs, first).Success? {
      assert [] + Windows(rule, buf, bs, first).value == Windows(rule, buf, bs, first).value;
    }
    while Continues(rule, iter, final)
      invariant ph.Valid() && !ph.base.finished && ph.origin == old(ph.origin)
      invariant Windows(rule, buf, bs, first) == Prepend(ph.inputs, Windows(rule, buf, bs, iter))
      decreases iter + 1
    {
      if iter < 0 || iter + bs > |buf| {
        return Fail(OutOfBuffer);
      }
      var window := buf[iter..iter + bs];
      var next := iter - Step(rule, |buf|, bs);
      WindowsUnfold(rule, buf, bs, iter);
      PrependPrepend(ph.inputs, window, Windows(rule, buf, bs, next));
      ph.Process(window);
      iter := next;
    }
    assert ph.inputs + [] == ph.inputs;
    return Pass;
  }

  /** `check_complete` with a salted session over a fresh digest. */
  method CheckComplete(lp: LaserproofVerifier, botan: BotanDigest, buf: Bytes, proof: Bytes) returns (r: Result<bool>)
    ensures r == StopCheck(lp, botan, buf, proof)
  {
    var bs := lp.backstrideLen;
    if bs == 0 {
      return Failure(DivisionByZero);
    }
    if !lp.sessions {
      return Failure(NotImplemented);
    }
    var base := new DigestSession(botan, lp.h.impl.botanName);
    var ph := new SaltWrapper(base, proof);
    var fed := FeedWindows(ph, lp.stride, buf, bs);
    if fed.Fail? {
      return Failure(fed.error);
    }
    var out := new byte[lp.h.impl.props.maxOutput];
    ph.Finish(out);
    assert [] + proof + ph.inputs == proof + ph.inputs;
    var result := XorAll(out[..]);
    return Success((result as int) < lp.threshold);
  }

  /** The source's walk completes only when the first window start is the
      final one, which happens for a 2-byte buffer and a stride of 1 alone. */
  lemma AsWrittenCompletesOnlyOnTwoBytes(size: nat, bs: nat)
    requires bs >= 1
    ensures size - 1 - bs == size % bs <==> bs == 1 && size == 2
  {
    var q, r := size / bs, size % bs;
    assert size == q * bs + r;
    if size - 1 - bs == r {
      assert (q - 1) * bs == 1;
    }
  }

  /** In every other case the source's walk leaves the buffer: either the
      first window already starts before it, or the step back by the whole
      buffer size does. */
  lemma AsWrittenLeavesBuffer(buf: Bytes, bs: nat)
    requires bs >= 1 && !(bs == 1 && |buf| == 2)
    ensures Windows(AsWritten, buf, bs, |buf| - 1 - bs) == Failure(OutOfBuffer)
  {
    AsWrittenCompletesOnlyOnTwoBytes(|buf|, bs);
    var first := |buf| - 1 - bs;
    if first >= 0 {
      var next := first - |buf|;
      assert next < 0 <= |buf| % bs;
      assert Windows(AsWritten, buf, bs, next) == Failure(OutOfBuffer);
    }
  }

  /** The strided walk from window `k - 1` down to window 0 of `buf[size % bs..]`
      stays inside the buffer and feeds exactly `k` windows. */
  lemma {:induction false} StridedWindowsFrom(buf: Bytes, bs: nat, k: nat)
    requires bs >= 1 && |buf| % bs + k * bs <= |buf|
    ensures Windows(Strided, buf, bs, |buf| % bs + (k - 1) * bs).Success?
    ensures |Windows(Strided, buf, bs, |buf| % bs + (k - 1) * bs).value| == k * bs
    decreases k
  {
    var r := |buf| % bs;
    var iter := r + (k - 1) * bs;
    if k == 0 {
      assert iter == r - bs < r;
    } else {
      assert iter + bs == r + k * bs;
      assert iter - bs == r + (k - 2) * bs;
      assert r + (k - 1) * bs <= r + k * bs;
      StridedWindowsFrom(buf, bs, k - 1);
      assert k * bs == bs + (k - 1) * bs;
    }
  }

  /** The strided walk never leaves the buffer and feeds every whole window
      that ends at the buffer's end. */
  lemma StridedStaysInBuffer(buf: Bytes, bs: nat)
    requires bs >= 1
    ensures Windows(Strided, buf, bs, Start(Strided, |buf|, bs)).Success?
    ensures |Windows(Strided, buf, bs, Start(Strided, |buf|, bs)).value| == (|buf| / bs) * bs
  {
    var q := |buf| / bs;
    assert |buf| == q * bs + |buf| % bs;
    assert |buf| - bs == |buf| % bs + (q - 1) * bs;
    StridedWindowsFrom(buf, bs, q);
  }

  // ---------------------------------------------------------------------------
  // Growing the work buffer

  /** One pass of the do-while body: append the hash of the last
      `min(size, lookback_len)` bytes. */
  function Grow(lp: LaserproofVerifier, botan: BotanDigest, buf: Bytes): Bytes {
    var n := Min(|buf|, lp.lookbackLen);
    buf + HashOf(botan, lp.h, buf[|buf| - n..])
  }

  /** Growing only appends: the old bytes stay, and the new block is one
      digest of the lookback window. */
  lemma GrowAppends(lp: LaserproofVerifier, botan: BotanDigest, buf: Bytes)
    ensures |Grow(lp, botan, buf)| == |buf| + lp.h.impl.props.maxOutput
    ensures Grow(lp, botan, buf)[..|buf|] == buf
    ensures Grow(lp, botan, buf)[|buf|..] == HashOf(botan, lp.h, buf[|buf| - Min(|buf|, lp.lookbackLen)..])
  {
  }

  /** The do-while loop from a given buffer, with at most `fuel` further
      passes after this one. */
  function Search(lp: LaserproofVerifier, botan: BotanDigest, proof: Bytes, buf: Bytes, fuel: nat): Result<nat>
    decreases fuel
  {
    var next := Grow(lp, botan, buf);
    var done :- StopCheck(lp, botan, next, proof);
    if done then Success(|next|)
    else if fuel == 0 then Failure(OutOfFuel)
    else Search(lp, botan, proof, next, fuel - 1)
  }

  /** One pass of the search: the stop check on the grown buffer decides
      whether the search ends there. */
  lemma SearchStep(lp: LaserproofVerifier, botan: BotanDigest, proof: Bytes, buf: Bytes, fuel: nat,
                   next: Bytes, done: Result<bool>)
    requires next == Grow(lp, botan, buf) && done == StopCheck(lp, botan, next, proof)
    ensures done.Failure? ==> Search(lp, botan, proof, buf, fuel) == Failure(done.error)
    ensures done.Success? && done.value ==> Search(lp, botan, proof, buf, fuel) == Success(|next|)
    ensures done.Success? && !done.value && fuel == 0 ==> Search(lp, botan, proof, buf, fuel) == Failure(OutOfFuel)
    ensures done.Success? && !done.value && fuel > 0 ==>
              Search(lp, botan, proof, buf, fuel) == Search(lp, botan, proof, next, fuel - 1)
  {
  }

  /** `n` is a whole number of `d`-byte blocks. */
  predicate WholeBlocks(n: nat, d: nat)
    decreases n
  {
    n == 0 || (d > 0 && n >= d && WholeBlocks(n - d, d))
  }

  /** A successful search ends on a whole number of blocks, at least one more
      than it started with. */
  lemma {:induction false} SearchFindsWholeBlocks(lp: LaserproofVerifier, botan: BotanDigest, proof: Bytes, buf: Bytes, fuel: nat)
    requires lp.h.impl.props.maxOutput > 0 && WholeBlocks(|buf|, lp.h.impl.props.maxOutput)
    ensures Search(lp, botan, proof, buf, fuel).Success? ==>
              WholeBlocks(Search(lp, botan, proof, buf, fuel).value, lp.h.impl.props.maxOutput)
              && Search(lp, botan, proof, buf, fuel).value >= |buf| + lp.h.impl.props.maxOutput
    decreases fuel
  {
    var d := lp.h.impl.props.maxOutput;
    var next := Grow(lp, botan, buf);
    GrowAppends(lp, botan, buf);
    assert WholeBlocks(|next|, d) by {
      assert |next| - d == |buf|;
    }
    if fuel > 0 {
      SearchFindsWholeBlocks(lp, botan, proof, next, fuel - 1);
    }
  }

  /** `check_one(hashed_data, proof)`: grows the buffer until the stop check
      passes and returns its length. `hashed_data` is never read; `fuel`
      bounds the number of passes. */
  method CheckOne(lp: LaserproofVerifier, botan: BotanDigest, hashedData: Bytes, proof: Bytes, fuel: nat)
    returns (r: Result<nat>)
    ensures r == Search(lp, botan, proof, [], fuel)
  {
    var buf: Bytes := [];
    var left := fuel;
    ghost var target := Search(lp, botan, proof, buf, left);
    while true
      invariant target == Search(lp, botan, proof, buf, left)
      decreases left
    {
      ghost var prev := buf;
      buf := Grow(lp, botan, buf);
      var done := CheckComplete(lp, botan, buf, proof);
      SearchStep(lp, botan, proof, prev, left, buf, done);
      if done.Failure? {
        return Failure(done.error);
      }
      if done.value {
        return Success(|buf|);
      }
      if left == 0 {
        return Failure(OutOfFuel);
      }
      left := left - 1;
    }
  }

  // ---------------------------------------------------------------------------
  // difficulty

  /** The difficulty the verifier reports: 0 for a proof of the wrong length
      and for any failure, otherwise the final buffer length. */
  function DifficultyOf(lp: LaserproofVerifier, botan: BotanDigest, proof: Bytes, fuel: nat): nat {
    if |proof| != lp.proofLen then 0
    else match Search(lp, botan, proof, [], fuel)
      case Success(n) => n
      case Failure(_) => 0
  }

  /** `difficulty(hashed_data, proof)`: total, never failing. */
  method Difficulty(lp: LaserproofVerifier, botan: BotanDigest, hashedData: Bytes, proof: Bytes, fuel: nat) returns (d: nat)
    ensures d == DifficultyOf(lp, botan, proof, fuel)
    ensures |proof| != lp.proofLen ==> d == 0
  {
    if |proof| != lp.proofLen {
      return 0;
    }
    var r := CheckOne(lp, botan, hashedData, proof, fuel);
    d := if r.Success? then r.value else 0;
  }

  /** A non-zero difficulty means the proof had the right length and the
      work buffer grew by whole blocks, at least one. */
  lemma PositiveDifficulty(lp: LaserproofVerifier, botan: BotanDigest, proof: Bytes, fuel: nat)
    requires lp.h.impl.props.maxOutput > 0
    ensures DifficultyOf(lp, botan, proof, fuel) > 0 ==>
              |proof| == lp.proofLen
              && WholeBlocks(DifficultyOf(lp, botan, proof, fuel), lp.h.impl.props.maxOutput)
              && DifficultyOf(lp, botan, proof, fuel) >= lp.h.impl.props.maxOutput
  {
    SearchFindsWholeBlocks(lp, botan, proof, [], fuel);
  }

  /** With a hasher that cannot begin a session, as every registered one,
      the difficulty is 0 whatever the proof. */
  lemma NoSessionsNoDifficulty(lp: LaserproofVerifier, botan: BotanDigest, proof: Bytes, fuel: nat)
    requires !lp.sessions
    ensures DifficultyOf(lp, botan, proof, fuel) == 0
  {
  }

  /** Every registered hash function refuses to begin a session. */
  lemma RegisteredHashersHaveNoSessions(alg: HashAlgorithm, proof: Bytes)
    requires IsRegisteredHash(alg)
    ensures BeginHash(StaticHashFunction(alg), Some(proof)) == Fail(NotImplemented)
  {
  }

  /** With the walk as written, the stop check fails on every buffer of
      three bytes or more. */
  lemma AsWrittenStopCheckFails(lp: LaserproofVerifier, botan: BotanDigest, buf: Bytes, proof: Bytes)
    requires lp.stride == AsWritten && |buf| >= 3
    ensures StopCheck(lp, botan, buf, proof).Failure?
  {
    if lp.backstrideLen > 0 && lp.sessions {
      AsWrittenLeavesBuffer(buf, lp.backstrideLen);
    }
  }

  /** With the walk as written and a digest of three bytes or more, a
      search fails at its first stop check. */
  lemma AsWrittenSearchFails(lp: LaserproofVerifier, botan: BotanDigest, proof: Bytes, buf: Bytes, fuel: nat)
    requires lp.stride == AsWritten && lp.h.impl.props.maxOutput >= 3
    ensures Search(lp, botan, proof, buf, fuel).Failure?
  {
    var next := Grow(lp, botan, buf);
    GrowAppends(lp, botan, buf);
    AsWrittenStopCheckFails(lp, botan, next, proof);
    SearchStep(lp, botan, proof, buf, fuel, next, StopCheck(lp, botan, next, proof));
  }

  /** With the walk as written and a digest of three bytes or more, the
      first stop check already fails, so the difficulty is 0. */
  lemma AsWrittenNoDifficulty(lp: LaserproofVerifier, botan: BotanDigest, proof: Bytes, fuel: nat)
    requires lp.stride == AsWritten && lp.h.impl.props.maxOutput >= 3
    ensures Search(lp, botan, proof, [], fuel).Failure?
    ensures DifficultyOf(lp, botan, proof, fuel) == 0
  {
    AsWrittenSearchFails(lp, botan, proof, [], fuel);
  }

  // ---------------------------------------------------------------------------
  // The difficulty as bytes

  /** The minimal big-endian encoding of a natural number; 0 is empty. */
  function BigEndian(n: nat): (s: Bytes)
    ensures n == 0 <==> s == []
    ensures s != [] ==> s[0] != 0
    decreases n
  {
    if n == 0 then [] else BigEndian(n / 256) + [(n % 256) as byte]
  }

  function FromBigEndian(s: Bytes): nat
    decreases |s|
  {
    if s == [] then 0 else FromBigEndian(s[..|s| - 1]) * 256 + s[|s| - 1] as nat
  }

  /** The encoding is read back as the same number. */
  lemma {:induction false} BigEndianRoundTrip(n: nat)
    ensures FromBigEndian(BigEndian(n)) == n
    decreases n
  {
    if n > 0 {
      var s := BigEndian(n);
      assert s[..|s| - 1] == BigEndian(n / 256);
      Octets.ByteRoundTrip(n % 256);
      BigEndianRoundTrip(n / 256);
      assert FromBigEndian(s) == (n / 256) * 256 + n % 256;
    }
  }

  /** The difficulty as the documented big-endian byte string: empty exactly
      when the verification failed. */
  function DifficultyBytes(lp: LaserproofVerifier, botan: BotanDigest, proof: Bytes, fuel: nat): (s: Bytes)
    ensures s == [] <==> DifficultyOf(lp, botan, proof, fuel) == 0
    ensures FromBigEndian(s) == DifficultyOf(lp, botan, proof, fuel)
  {
    BigEndianRoundTrip(DifficultyOf(lp, botan, proof, fuel));
    BigEndian(DifficultyOf(lp, botan, proof, fuel))
  }
}
