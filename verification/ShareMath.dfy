/**
 Share arithmetic: 256-bit targets as big-endian bytes, dividing them, comparing hashes with them, and the byte
 layouts a share hash is computed from.  The hash itself is an argument, so nothing is assumed about it.
 */
module ShareMath {
  import opened Prelude
  import opened Positional
  import opened Hex

  const U32_SIZE: nat := 0x1_0000_0000

  type U32 = n: nat | n < U32_SIZE

  /** The number a byte string denotes, most significant byte first. */
  function Number(bytes: seq<Byte>): nat {
    Value(bytes, 256)
  }

  // ---------------------------------------------------------------- dividing a target

  ghost predicate Divides(n: nat, d: nat, quotient: nat, rem: nat) {
    rem < d && n == quotient * d + rem
  }

  lemma DivideStep(n: nat, d: nat, q: nat, r: nat, byte: nat, quotient: nat, rem: nat)
    requires Divides(n, d, q, r) && Divides(r * 256 + byte, d, quotient, rem)
    ensures Divides(n * 256 + byte, d, q * 256 + quotient, rem)
  {
    assert q * d * 256 == q * 256 * d;
    assert (q * 256 + quotient) * d == q * 256 * d + quotient * d;
  }

  lemma QuotientBelow(n: nat, d: nat, bound: nat)
    requires d > 0 && n < bound * d
    ensures n / d < bound
  {
    var q := n / d;
    if q >= bound {
      MulMonotone(bound, q, d);
    }
  }

  lemma NumberAppend(bytes: seq<Byte>, b: Byte)
    ensures Number(bytes + [b]) == Number(bytes) * 256 + b
  {
    assert (bytes + [b])[..|bytes|] == bytes;
  }

  /** What one byte adds to the division of the bytes before it. */
  lemma DivideByte(bytes: seq<Byte>, d: nat, done: seq<Byte>, r: nat, byte: Byte, quotient: Byte, rem: nat)
    requires Divides(Number(bytes), d, Number(done), r) && Divides(r * 256 + byte, d, quotient, rem)
    ensures Divides(Number(bytes + [byte]), d, Number(done + [quotient]), rem)
  {
    DivideStep(Number(bytes), d, Number(done), r, byte, quotient, rem);
    NumberAppend(done, quotient);
    NumberAppend(bytes, byte);
  }

  /** One byte: the quotient needs no truncation, and the accumulator stays below 2^128. */
  method DivideAcc(r: nat, byte: Byte, divisor: nat) returns (quotient: Byte, rem: nat)
    requires r < divisor <= U64_MAX
    ensures Divides(r * 256 + byte, divisor, quotient, rem)
  {
    var acc := r * 256 + byte;
    assert acc < 0x1_0000_0000_0000_0000_0000_0000_0000_0000;
    QuotientBelow(acc, divisor, 256);
    quotient, rem := acc / divisor, acc % divisor;
  }

  /** Byte-wise long division is exact: the result is the whole quotient of the 256-bit number. */
  method DivTargetByU64(target: Hash, divisor: nat) returns (out: Hash)
    requires divisor <= U64_MAX
    ensures Number(out) == Number(target) / Max(divisor, 1)
  {
    if divisor <= 1 {
      return target;
    }
    var buffer := new Byte[32];
    var rem: nat := 0;
    for index := 0 to 32
      invariant Divides(Number(target[..index]), divisor, Number(buffer[..index]), rem)
    {
      ghost var done, before := buffer[..index], rem;
      buffer[index], rem := DivideAcc(rem, target[index], divisor);
      DivideByte(target[..index], divisor, done, before, target[index], buffer[index], rem);
      assert target[..index + 1] == target[..index] + [target[index]];
      assert buffer[..index + 1] == done + [buffer[index]];
    }
    out := buffer[..];
    assert target[..32] == target && buffer[..32] == out;
    QuotientIs(Number(target), Number(out), rem, divisor);
  }

  // ---------------------------------------------------------------- difficulty and targets

  /** A double: only the finite values carry a number. */
  datatype Double = Finite(value: real) | NotFinite

  /** Rounds half away from zero, for the non-negative numbers difficulties are. */
  function Round(x: real): int {
    (x + 0.5).Floor
  }

  /** The whole number a difficulty divides the base target by; one when the base target is used unchanged. */
  function Divisor(difficulty: Double): (d: nat)
    ensures 1 <= d <= U64_MAX
  {
    if difficulty.NotFinite? || difficulty.value <= 1.0 then 1
    else if difficulty.value >= 18446744073709551616.0 then U64_MAX
    else
      var r := Round(difficulty.value);
      if r > U64_MAX then U64_MAX else Max(r, 1)
  }

  method TargetForDifficulty(base: Hash, difficulty: Double) returns (target: Hash)
    ensures Number(target) == Number(base) / Divisor(difficulty)
  {
    if difficulty.NotFinite? || difficulty.value <= 1.0 {
      return base;
    }
    var rounded := Round(difficulty.value);
    var divisor := if difficulty.value >= 18446744073709551616.0 || rounded > U64_MAX then U64_MAX else rounded;
    target := DivTargetByU64(base, Max(divisor, 1));
  }

  predicate HashLeqTarget(hash: Hash, target: Hash) {
    LexLeq(hash, target)
  }

  /** Comparing byte arrays compares the 256-bit numbers. */
  lemma HashOrderIsNumeric(hash: Hash, target: Hash)
    ensures HashLeqTarget(hash, target) <==> Number(hash) <= Number(target)
  {
    LexIsNumeric(hash, target, 256);
  }

  lemma FloorBound(h: nat, t: nat, d: nat)
    requires d > 0
    ensures h <= t / d <==> h * d <= t
  {
    if h <= t / d {
      MulMonotone(h, t / d, d);
    } else {
      MulMonotone(t / d + 1, h, d);
    }
  }

  /** A hash meets the assigned target exactly when the hash times the whole difficulty fits the base target. */
  lemma MeetsTargetIff(hash: Hash, base: Hash, difficulty: Double, target: Hash)
    requires Number(target) == Number(base) / Divisor(difficulty)
    ensures HashLeqTarget(hash, target) <==> Number(hash) * Divisor(difficulty) <= Number(base)
  {
    HashOrderIsNumeric(hash, target);
    FloorBound(Number(hash), Number(base), Divisor(difficulty));
  }

  /**
   A target is divided by the whole number nearest to the difficulty, upwards from halves; by one for small
   difficulties and by the greatest 64-bit number beyond it.
   */
  lemma DivisorIsNearest(difficulty: real)
    ensures var d := Divisor(Finite(difficulty));
      && (difficulty <= 1.0 ==> d == 1)
      && (1.0 < difficulty <= U64_MAX as real ==> d as real - 0.5 <= difficulty < d as real + 0.5)
      && (difficulty >= U64_MAX as real ==> d == U64_MAX)
  {
    if 1.0 < difficulty {
      RoundMonotone(1.0, difficulty);
    }
    if U64_MAX as real <= difficulty {
      RoundMonotone(U64_MAX as real, difficulty);
    } else {
      RoundMonotone(difficulty, U64_MAX as real);
    }
  }

  /** Among finite difficulties a larger one never has a larger target. */
  lemma TargetsAreMonotone(base: Hash, a: Double, b: Double, x: Hash, y: Hash)
    requires a.Finite? && b.Finite? && a.value <= b.value
    requires Number(x) == Number(base) / Divisor(a) && Number(y) == Number(base) / Divisor(b)
    ensures LexLeq(y, x)
  {
    RoundMonotone(a.value, b.value);
    assert Divisor(a) <= Divisor(b);
    var n := Number(base);
    FloorBound(n / Divisor(b), n, Divisor(b));
    MulMonotone2(n / Divisor(b), Divisor(a), Divisor(b));
    FloorBound(n / Divisor(b), n, Divisor(a));
    LexIsNumeric(y, x, 256);
  }

  lemma MulMonotone2(c: nat, a: nat, b: nat)
    requires a <= b
    ensures c * a <= c * b
  {
  }

  lemma RoundMonotone(a: real, b: real)
    requires a <= b
    ensures Round(a) <= Round(b)
  {
  }

  lemma DivisorIsOneIff(difficulty: real)
    ensures Divisor(Finite(difficulty)) == 1 <==> difficulty < 1.5
  {
  }

  lemma QuotientIsWholeIff(n: nat, d: nat)
    requires d > 0
    ensures n / d >= n <==> d == 1 || n == 0
  {
    if d > 1 && n > 0 {
      MulMonotone2(n / d, 2, d);
    }
  }

  /**
   Not-a-number and the infinities fall back to the base target, so their target is no larger than the one of a finite
   difficulty only where that one is the base target as well, or the base target is zero.
   */
  lemma NonFiniteKeepsOrderIff(base: Hash, difficulty: real, x: Hash, y: Hash)
    requires Number(x) == Number(base) / Divisor(Finite(difficulty))
    requires Number(y) == Number(base) / Divisor(NotFinite)
    ensures LexLeq(y, x) <==> difficulty < 1.5 || Number(base) == 0
  {
    LexIsNumeric(y, x, 256);
    DivisorIsOneIff(difficulty);
    QuotientIsWholeIff(Number(base), Divisor(Finite(difficulty)));
  }

  /** One such difference: infinity is easier than 2. */
  lemma InfiniteDifficultyIsEasy()
    ensures Divisor(NotFinite) == 1 < Divisor(Finite(2.0))
  {
  }

  // ---------------------------------------------------------------- byte layouts

  function LittleEndian(n: nat, width: nat): (bytes: seq<Byte>)
    ensures |bytes| == width
  {
    if width == 0 then [] else [n % 256] + LittleEndian(n / 256, width - 1)
  }

  function FromLittleEndian(bytes: seq<Byte>): nat {
    if bytes == [] then 0 else bytes[0] + 256 * FromLittleEndian(bytes[1..])
  }

  lemma {:induction false} LittleEndianRoundTrip(n: nat, width: nat)
    requires n < Pow(256, width)
    ensures FromLittleEndian(LittleEndian(n, width)) == n
    decreases width
  {
    if width > 0 {
      assert n / 256 < Pow(256, width - 1);
      LittleEndianRoundTrip(n / 256, width - 1);
      assert LittleEndian(n, width)[1..] == LittleEndian(n / 256, width - 1);
    }
  }

  lemma {:induction false} FromLittleEndianRoundTrip(bytes: seq<Byte>)
    ensures FromLittleEndian(bytes) < Pow(256, |bytes|)
    ensures LittleEndian(FromLittleEndian(bytes), |bytes|) == bytes
    decreases |bytes|
  {
    if bytes != [] {
      FromLittleEndianRoundTrip(bytes[1..]);
      assert FromLittleEndian(bytes) % 256 == bytes[0];
      assert FromLittleEndian(bytes) / 256 == FromLittleEndian(bytes[1..]);
      assert bytes == [bytes[0]] + bytes[1..];
    }
  }

  /** Extranonce 1 in the low half and extranonce 2 in the high half of a 64-bit number. */
  function ComposeExtranonce(low: seq<Byte>, high: seq<Byte>): nat
    requires |low| == 4 && |high| == 4
  {
    FromLittleEndian(low) + FromLittleEndian(high) * U32_SIZE
  }

  function CoinbaseBytes(prefix: seq<Byte>, extranonce: nat, suffix: seq<Byte>): seq<Byte> {
    prefix + LittleEndian(extranonce, 8) + suffix
  }

  lemma ShiftByte(first: nat, low: nat, p: nat, high: nat)
    ensures first + 256 * (low + p * high) == (first + 256 * low) + 256 * p * high
  {
    assert 256 * (p * high) == 256 * p * high;
  }

  lemma {:induction false} LittleEndianConcat(a: seq<Byte>, b: seq<Byte>)
    ensures FromLittleEndian(a + b) == FromLittleEndian(a) + Pow(256, |a|) * FromLittleEndian(b)
    decreases |a|
  {
    if a == [] {
      assert a + b == b;
    } else {
      LittleEndianConcat(a[1..], b);
      assert (a + b)[1..] == a[1..] + b;
      ShiftByte(a[0], FromLittleEndian(a[1..]), Pow(256, |a| - 1), FromLittleEndian(b));
    }
  }

  /** The coinbase carries the two extranonces side by side, exactly as the miner was given and sent them. */
  lemma CoinbaseLayout(prefix: seq<Byte>, suffix: seq<Byte>, low: seq<Byte>, high: seq<Byte>)
    requires |low| == 4 && |high| == 4
    ensures CoinbaseBytes(prefix, ComposeExtranonce(low, high), suffix) == prefix + low + high + suffix
  {
    LittleEndianConcat(low, high);
    assert Pow(256, 4) == U32_SIZE;
    FromLittleEndianRoundTrip(low + high);
    assert ComposeExtranonce(low, high) == FromLittleEndian(low + high);
    assert prefix + (low + high) + suffix == prefix + low + high + suffix;
  }

  /** Two different extranonce pairs never give the same coinbase, so two sessions never share a search space. */
  lemma CoinbasesAreDistinct(
      prefix: seq<Byte>, suffix: seq<Byte>, low: seq<Byte>, high: seq<Byte>, low': seq<Byte>, high': seq<Byte>)
    requires |low| == 4 && |high| == 4 && |low'| == 4 && |high'| == 4
    requires CoinbaseBytes(prefix, ComposeExtranonce(low, high), suffix)
          == CoinbaseBytes(prefix, ComposeExtranonce(low', high'), suffix)
    ensures low == low' && high == high'
  {
    CoinbaseLayout(prefix, suffix, low, high);
    CoinbaseLayout(prefix, suffix, low', high');
    var whole := prefix + low + high + suffix;
    var n := |prefix|;
    assert whole[n..n + 4] == low && whole[n + 4..n + 8] == high;
    assert (prefix + low' + high' + suffix)[n..n + 4] == low' && (prefix + low' + high' + suffix)[n + 4..n + 8] == high';
  }

  datatype Header = Header(version: nat, prev: Hash, merkle: Hash, time: nat, bits: nat, nonce: nat)

  predicate HeaderInRange(h: Header) {
    h.version < U32_SIZE && h.bits < U32_SIZE && h.nonce < U32_SIZE && h.time <= U64_MAX
  }

  function HeaderBytes(h: Header): (bytes: seq<Byte>)
    ensures |bytes| == 84
  {
    LittleEndian(h.version, 4) + h.prev + h.merkle + LittleEndian(h.time, 8)
    + LittleEndian(h.bits, 4) + LittleEndian(h.nonce, 4)
  }

  /** `was` with its bytes from `at` on replaced by `bytes`. */
  ghost function Overwritten(was: seq<Byte>, at: nat, bytes: seq<Byte>): seq<Byte>
    requires at + |bytes| <= |was|
  {
    was[..at] + bytes + was[at + |bytes|..]
  }

  lemma OverwriteNext(was: seq<Byte>, at: nat, bytes: seq<Byte>, b: Byte)
    requires at + |bytes| < |was|
    ensures Overwritten(was, at, bytes)[at + |bytes| := b] == Overwritten(was, at, bytes + [b])
  {
    assert was[at + |bytes|..] == [was[at + |bytes|]] + was[at + |bytes| + 1..];
  }

  /** Copies `bytes` into `buffer` at `at`, like `copy_from_slice`. */
  method CopyInto(buffer: array<Byte>, at: nat, bytes: seq<Byte>)
    requires at + |bytes| <= buffer.Length
    modifies buffer
    ensures buffer[..] == old(buffer[..at]) + bytes + old(buffer[at + |bytes|..])
  {
    ghost var was := buffer[..];
    assert Overwritten(was, at, bytes[..0]) == was;
    for i := 0 to |bytes|
      invariant buffer[..] == Overwritten(was, at, bytes[..i])
    {
      OverwriteNext(was, at, bytes[..i], bytes[i]);
      assert bytes[..i + 1] == bytes[..i] + [bytes[i]];
      ghost var before := buffer[..];
      buffer[at + i] := bytes[i];
      assert buffer[..] == before[at + i := bytes[i]];
    }
    assert bytes[..|bytes|] == bytes;
  }

  method Header84(h: Header) returns (header: seq<Byte>)
    ensures header == HeaderBytes(h)
  {
    var buffer := new Byte[84](_ => 0);
    CopyInto(buffer, 0, LittleEndian(h.version, 4));
    assert buffer[..4] == LittleEndian(h.version, 4);
    CopyInto(buffer, 4, h.prev);
    assert buffer[..36] == LittleEndian(h.version, 4) + h.prev;
    CopyInto(buffer, 36, h.merkle);
    assert buffer[..68] == LittleEndian(h.version, 4) + h.prev + h.merkle;
    CopyInto(buffer, 68, LittleEndian(h.time, 8));
    assert buffer[..76] == LittleEndian(h.version, 4) + h.prev + h.merkle + LittleEndian(h.time, 8);
    CopyInto(buffer, 76, LittleEndian(h.bits, 4));
    assert buffer[..80] == LittleEndian(h.version, 4) + h.prev + h.merkle + LittleEndian(h.time, 8) + LittleEndian(h.bits, 4);
    CopyInto(buffer, 80, LittleEndian(h.nonce, 4));
    header := buffer[..];
    assert header[..80] == LittleEndian(h.version, 4) + h.prev + h.merkle + LittleEndian(h.time, 8) + LittleEndian(h.bits, 4);
    assert header == header[..80] + header[80..];
  }

  /** The parent hash sits at bytes 4 to 36 of every header. */
  lemma ParentInHeader(h: Header)
    ensures HeaderBytes(h)[4..36] == h.prev
  {
  }

  /** No two headers in range share their bytes: every field can be read back. */
  lemma HeaderRoundTrip(h: Header)
    requires HeaderInRange(h)
    ensures var b := HeaderBytes(h);
      && FromLittleEndian(b[0..4]) == h.version && b[4..36] == h.prev && b[36..68] == h.merkle
      && FromLittleEndian(b[68..76]) == h.time && FromLittleEndian(b[76..80]) == h.bits
      && FromLittleEndian(b[80..84]) == h.nonce
  {
    HeaderSlices(h);
    WordSizes();
    LittleEndianRoundTrip(h.version, 4);
    LittleEndianRoundTrip(h.time, 8);
    LittleEndianRoundTrip(h.bits, 4);
    LittleEndianRoundTrip(h.nonce, 4);
  }

  lemma WordSizes()
    ensures Pow(256, 4) == U32_SIZE && Pow(256, 8) == U64_MAX + 1
  {
  }

  /** Where each field stands. */
  lemma HeaderSlices(h: Header)
    ensures var b := HeaderBytes(h);
      && b[0..4] == LittleEndian(h.version, 4) && b[4..36] == h.prev && b[36..68] == h.merkle
      && b[68..76] == LittleEndian(h.time, 8) && b[76..80] == LittleEndian(h.bits, 4) && b[80..84] == LittleEndian(h.nonce, 4)
  {
    SixParts(LittleEndian(h.version, 4), h.prev, h.merkle, LittleEndian(h.time, 8), LittleEndian(h.bits, 4),
             LittleEndian(h.nonce, 4));
  }

  lemma SixParts(a: seq<Byte>, b: seq<Byte>, c: seq<Byte>, d: seq<Byte>, e: seq<Byte>, f: seq<Byte>)
    requires |a| == 4 && |b| == 32 && |c| == 32 && |d| == 8 && |e| == 4 && |f| == 4
    ensures var whole := a + b + c + d + e + f;
      && whole[0..4] == a && whole[4..36] == b && whole[36..68] == c
      && whole[68..76] == d && whole[76..80] == e && whole[80..84] == f
  {
  }

  // ---------------------------------------------------------------- merkle branch

  /** A Merkle tree; leaves are transaction ids. */
  datatype Tree = Leaf(id: Hash) | Node(left: Tree, right: Tree)

  function Root(t: Tree, sha: seq<Byte> -> Hash): Hash {
    match t
    case Leaf(id) => id
    case Node(l, r) => sha(Root(l, sha) + Root(r, sha))
  }

  function FirstLeaf(t: Tree): Hash {
    match t
    case Leaf(id) => id
    case Node(l, _) => FirstLeaf(l)
  }

  /** The right-hand siblings on the way from the first leaf up to the root. */
  function Branch(t: Tree, sha: seq<Byte> -> Hash): seq<Hash> {
    match t
    case Leaf(_) => []
    case Node(l, r) => Branch(l, sha) + [Root(r, sha)]
  }

  function FoldBranch(leaf: Hash, branch: seq<Hash>, sha: seq<Byte> -> Hash): Hash {
    if branch == [] then leaf
    else sha(FoldBranch(leaf, branch[..|branch| - 1], sha) + branch[|branch| - 1])
  }

  method MerkleRootFromBranch(leaf: Hash, branch: seq<Hash>, sha: seq<Byte> -> Hash) returns (root: Hash)
    ensures root == FoldBranch(leaf, branch, sha)
  {
    root := leaf;
    for i := 0 to |branch|
      invariant root == FoldBranch(leaf, branch[..i], sha)
    {
      assert branch[..i + 1][..i] == branch[..i];
      root := sha(root + branch[i]);
    }
    assert branch[..|branch|] == branch;
  }

  /** Putting any coinbase in place of the first leaf and folding the branch gives the root of the changed tree. */
  function ReplaceFirst(t: Tree, id: Hash): Tree {
    match t
    case Leaf(_) => Leaf(id)
    case Node(l, r) => Node(ReplaceFirst(l, id), r)
  }

  lemma {:induction false} BranchGivesRoot(t: Tree, coinbase: Hash, sha: seq<Byte> -> Hash)
    ensures FoldBranch(coinbase, Branch(t, sha), sha) == Root(ReplaceFirst(t, coinbase), sha)
  {
    match t
    case Leaf(_) =>
    case Node(l, r) =>
      BranchGivesRoot(l, coinbase, sha);
      assert Branch(t, sha)[..|Branch(l, sha)|] == Branch(l, sha);
  }
}
