/** Verifying a submitted share, and which difficulty it is credited at while the difficulty is changing. */
module ShareVerify {
  import opened Prelude
  import opened Hex
  import opened ShareMath
  import V = Vardiff

  datatype Template = Template(
    version: U32, prev: Hash, bits: U32, shareTarget: Hash, networkTarget: Hash,
    coinbasePrefix: seq<Byte>, coinbaseSuffix: seq<Byte>, merkleBranch: seq<Hash>)

  datatype Solution = Solution(extranonce2: seq<Byte>, ntime: U32, nonce: U32)
  datatype SubmitText = SubmitText(extranonce2: string, ntime: string, nonce: string)

  datatype VerifiedShare = VerifiedShare(
    hash: Hash, header: seq<Byte>, coinbaseTxid: Hash, merkleRoot: Hash, isBlockCandidate: bool)

  datatype ShareError = InvalidHex | WrongLength | InvalidIntegerHex | LowDifficultyShare
  datatype Result<T> = Accept(value: T) | Refuse(error: ShareError)

  function ParseExtranonce2(text: string): (r: Result<seq<Byte>>)
    ensures r.Accept? ==> |r.value| == 4
  {
    match Decode(text)
    case None => Refuse(InvalidHex)
    case Some(bytes) => if |bytes| == 4 then Accept(bytes) else Refuse(WrongLength)
  }

  /** An unsigned 32-bit number in hexadecimal; a leading plus sign is tolerated, as in Rust. */
  function ParseU32Hex(text: string): Result<U32> {
    var digits := if |text| > 1 && text[0] == '+' then text[1..] else text;
    if digits == "" || !IsHex(digits) || HexValue(digits) >= U32_SIZE then Refuse(InvalidIntegerHex)
    else Accept(HexValue(digits))
  }

  function ParseSolution(t: SubmitText): (r: Result<Solution>)
    ensures r.Accept? ==> |r.value.extranonce2| == 4
  {
    match ParseExtranonce2(t.extranonce2)
    case Refuse(e) => Refuse(e)
    case Accept(extranonce2) =>
      match ParseU32Hex(t.ntime)
      case Refuse(e) => Refuse(e)
      case Accept(ntime) =>
        match ParseU32Hex(t.nonce)
        case Refuse(e) => Refuse(e)
        case Accept(nonce) => Accept(Solution(extranonce2, ntime, nonce))
  }

  // ---------------------------------------------------------------- what the texts say

  /** `text` is an unsigned hexadecimal number, perhaps with a plus sign, and stands for `n`. */
  ghost predicate Denotes(text: string, n: U32) {
    exists digits :: DenotedBy(text, digits) && HexValue(digits) == n
  }

  ghost predicate DenotedBy(text: string, digits: string) {
    digits != "" && IsHex(digits) && (text == digits || text == "+" + digits)
  }

  /** Exactly the texts of 32-bit numbers are read, each as its number. */
  lemma ParseU32HexIff(text: string, n: U32)
    ensures ParseU32Hex(text) == Accept(n) <==> Denotes(text, n)
    ensures ParseU32Hex(text).Refuse? ==> ParseU32Hex(text).error == InvalidIntegerHex
  {
    var digits := if |text| > 1 && text[0] == '+' then text[1..] else text;
    assert |text| > 1 && text[0] == '+' ==> text == "+" + digits;
    if ParseU32Hex(text) == Accept(n) {
      assert DenotedBy(text, digits);
    }
    if Denotes(text, n) {
      var ds :| DenotedBy(text, ds) && HexValue(ds) == n;
      assert IsHexDigit(ds[0]);
      if text == "+" + ds {
        assert text[1..] == ds;
      }
    }
  }

  ghost predicate SolutionOf(t: SubmitText, s: Solution) {
    Decode(t.extranonce2) == Some(s.extranonce2) && |s.extranonce2| == 4 && Denotes(t.ntime, s.ntime) && Denotes(t.nonce, s.nonce)
  }

  /** A submit is read exactly as what its three texts denote; otherwise the first bad text names the error. */
  lemma ParseSolutionIff(t: SubmitText, s: Solution)
    ensures ParseSolution(t) == Accept(s) <==> SolutionOf(t, s)
    ensures ParseSolution(t) == Refuse(InvalidHex) <==> Decode(t.extranonce2).None?
    ensures ParseSolution(t) == Refuse(WrongLength) <==> Decode(t.extranonce2).Some? && |Decode(t.extranonce2).value| != 4
    ensures ParseSolution(t) != Refuse(LowDifficultyShare)
  {
    ParseU32HexIff(t.ntime, s.ntime);
    ParseU32HexIff(t.nonce, s.nonce);
  }

  // ---------------------------------------------------------------- verifying

  /** The header a solution stands for. */
  function SolvedHeader(t: Template, extranonce1: seq<Byte>, s: Solution, sha: seq<Byte> -> Hash): Header
    requires |extranonce1| == 4 && |s.extranonce2| == 4
  {
    var txid := sha(CoinbaseBytes(t.coinbasePrefix, ComposeExtranonce(extranonce1, s.extranonce2), t.coinbaseSuffix));
    Header(t.version, t.prev, FoldBranch(txid, t.merkleBranch, sha), s.ntime, t.bits, s.nonce)
  }

  function ShareHash(t: Template, extranonce1: seq<Byte>, s: Solution, sha: seq<Byte> -> Hash): Hash
    requires |extranonce1| == 4 && |s.extranonce2| == 4
  {
    sha(HeaderBytes(SolvedHeader(t, extranonce1, s, sha)))
  }

  /**
   The share carries the template and the solution: every field of its header reads back, its Merkle root folds the
   branch over the hash of the coinbase with both extranonces side by side, and its hash is that of its header.
   */
  predicate Built(share: VerifiedShare, t: Template, extranonce1: seq<Byte>, s: Solution, sha: seq<Byte> -> Hash) {
    var b := share.header;
    && |b| == 84 && share.hash == sha(b)
    && FromLittleEndian(b[0..4]) == t.version && b[4..36] == t.prev && b[36..68] == share.merkleRoot
    && FromLittleEndian(b[68..76]) == s.ntime && FromLittleEndian(b[76..80]) == t.bits
    && FromLittleEndian(b[80..84]) == s.nonce
    && share.coinbaseTxid == sha(t.coinbasePrefix + extranonce1 + s.extranonce2 + t.coinbaseSuffix)
    && share.merkleRoot == FoldBranch(share.coinbaseTxid, t.merkleBranch, sha)
  }

  /** The share carries what the texts of the submit denote. */
  ghost predicate BuiltFrom(
      share: VerifiedShare, t: Template, extranonce1: seq<Byte>, text: SubmitText, sha: seq<Byte> -> Hash) {
    exists s :: SolutionOf(text, s) && Built(share, t, extranonce1, s, sha)
  }

  /** In particular its header commits to any tree with the template's branch, with the coinbase as first leaf. */
  lemma BuiltOnTree(
      share: VerifiedShare, t: Template, extranonce1: seq<Byte>, s: Solution, tree: Tree, sha: seq<Byte> -> Hash)
    requires Built(share, t, extranonce1, s, sha) && Branch(tree, sha) == t.merkleBranch
    ensures var txid := sha(t.coinbasePrefix + extranonce1 + s.extranonce2 + t.coinbaseSuffix);
      share.header[36..68] == Root(ReplaceFirst(tree, txid), sha)
  {
    BranchGivesRoot(tree, share.coinbaseTxid, sha);
  }

  lemma SolutionBuilds(share: VerifiedShare, t: Template, extranonce1: seq<Byte>, s: Solution, sha: seq<Byte> -> Hash)
    requires |extranonce1| == 4 && |s.extranonce2| == 4
    requires share.header == HeaderBytes(SolvedHeader(t, extranonce1, s, sha)) && share.hash == sha(share.header)
    requires share.coinbaseTxid
          == sha(CoinbaseBytes(t.coinbasePrefix, ComposeExtranonce(extranonce1, s.extranonce2), t.coinbaseSuffix))
    requires share.merkleRoot == FoldBranch(share.coinbaseTxid, t.merkleBranch, sha)
    ensures Built(share, t, extranonce1, s, sha)
  {
    HeaderRoundTrip(SolvedHeader(t, extranonce1, s, sha));
    CoinbaseLayout(t.coinbasePrefix, t.coinbaseSuffix, extranonce1, s.extranonce2);
  }

  /** Accepts exactly the solutions whose hash is within the target, and flags those within the network target. */
  method VerifyShareAgainstTarget(t: Template, extranonce1: seq<Byte>, s: Solution, target: Hash, sha: seq<Byte> -> Hash)
    returns (r: Result<VerifiedShare>)
    requires |extranonce1| == 4 && |s.extranonce2| == 4
    ensures r.Accept? <==> Number(ShareHash(t, extranonce1, s, sha)) <= Number(target)
    ensures r.Refuse? ==> r.error == LowDifficultyShare
    ensures r.Accept? ==>
              && r.value.hash == ShareHash(t, extranonce1, s, sha)
              && Built(r.value, t, extranonce1, s, sha)
              && (r.value.isBlockCandidate <==> Number(r.value.hash) <= Number(t.networkTarget))
  {
    var extranonce := ComposeExtranonce(extranonce1, s.extranonce2);
    var txid := sha(CoinbaseBytes(t.coinbasePrefix, extranonce, t.coinbaseSuffix));
    var root := MerkleRootFromBranch(txid, t.merkleBranch, sha);
    var header := Header84(Header(t.version, t.prev, root, s.ntime, t.bits, s.nonce));
    var hash := sha(header);
    HashOrderIsNumeric(hash, target);
    HashOrderIsNumeric(hash, t.networkTarget);
    if !HashLeqTarget(hash, target) {
      return Refuse(LowDifficultyShare);
    }
    var share := VerifiedShare(hash, header, txid, root, HashLeqTarget(hash, t.networkTarget));
    SolutionBuilds(share, t, extranonce1, s, sha);
    return Accept(share);
  }

  /** The submit parses and its hash, times the whole difficulty, fits the base target. */
  predicate Meets(t: Template, extranonce1: seq<Byte>, text: SubmitText, difficulty: Double, sha: seq<Byte> -> Hash)
    requires |extranonce1| == 4
  {
    ParseSolution(text).Accept?
    && Number(ShareHash(t, extranonce1, ParseSolution(text).value, sha)) * Divisor(difficulty) <= Number(t.shareTarget)
  }

  method VerifySubmit(t: Template, extranonce1: seq<Byte>, text: SubmitText, difficulty: Double, sha: seq<Byte> -> Hash)
    returns (r: Result<VerifiedShare>)
    requires |extranonce1| == 4
    ensures r.Accept? <==> Meets(t, extranonce1, text, difficulty, sha)
    ensures r.Accept? ==>
              && r.value.hash == ShareHash(t, extranonce1, ParseSolution(text).value, sha)
              && BuiltFrom(r.value, t, extranonce1, text, sha)
              && (r.value.isBlockCandidate <==> Number(r.value.hash) <= Number(t.networkTarget))
    ensures r.Refuse? ==> r.error == if ParseSolution(text).Refuse? then ParseSolution(text).error else LowDifficultyShare
  {
    var solution := ParseSolution(text);
    if solution.Refuse? {
      return Refuse(solution.error);
    }
    ParseSolutionIff(text, solution.value);
    var target := TargetForDifficulty(t.shareTarget, difficulty);
    FloorBound(Number(ShareHash(t, extranonce1, solution.value, sha)), Number(t.shareTarget), Divisor(difficulty));
    r := VerifyShareAgainstTarget(t, extranonce1, solution.value, target, sha);
  }

  /** The controller as the session holds it. */
  class VardiffState {
    const config: V.Config
    var current: real
    var previous: Option<real>
    var transitionUntil: Option<V.Instant>
    var lastShareAt: Option<V.Instant>
    var lastAdjustAt: Option<V.Instant>
    var ewma: Option<real>

    ghost function View(): V.State
      reads this
    {
      V.State(config, current, previous, transitionUntil, lastShareAt, lastAdjustAt, ewma)
    }

    ghost predicate Valid()
      reads this
    {
      V.Ok(View())
    }

    constructor (raw: V.RawConfig)
      ensures Valid() && View() == V.NewState(raw)
    {
      var c := V.Normalized(raw);
      config, current := c, c.initial;
      previous, transitionUntil, lastShareAt, lastAdjustAt, ewma := None, None, None, None, None;
    }

    method ApplyDifficulty(next: real, now: V.Instant) returns (changed: Option<real>)
      requires V.ConfigOk(config)
      modifies this
      ensures (View(), changed) == V.ApplyDifficulty(old(View()), next, now)
    {
      var quantized := V.Quantize(config, next);
      if V.RelativeDifference(quantized, current) < 0.01 {
        return None;
      }
      previous := Some(current);
      current := quantized;
      transitionUntil := Some(now + config.graceSecs * V.NANOS_PER_SEC);
      lastAdjustAt := Some(now);
      return Some(quantized);
    }

    method RecordAcceptedShare(now: V.Instant) returns (changed: Option<real>)
      requires Valid()
      modifies this
      ensures Valid() && (View(), changed) == V.RecordAcceptedShare(old(View()), now)
    {
      V.ShareAdjusts(View(), now);
      var last := lastShareAt;
      lastShareAt := Some(now);
      if last.None? {
        lastAdjustAt := Some(now);
        return None;
      }
      var elapsed := V.ElapsedSecs(config, now, last.value);
      var average := V.Average(config, ewma, elapsed);
      V.AverageInRange(config, ewma, elapsed);
      ewma := Some(average);
      if lastAdjustAt.None? {
        lastAdjustAt := Some(now);
      }
      if V.TooSoon(config, now, lastAdjustAt.value) {
        return None;
      }
      var factor := V.DesiredFactor(config, average);
      if factor.None? {
        return None;
      }
      var next := V.Quantize(config, V.PacedDifficulty(config, current, factor.value));
      if V.RelativeDifference(next, current) < 0.01 {
        return None;
      }
      changed := ApplyDifficulty(next, now);
    }

    method ApplySuggestedDifficulty(suggested: Double, now: V.Instant) returns (changed: Option<real>)
      requires Valid()
      modifies this
      ensures Valid() && (View(), changed) == V.ApplySuggested(old(View()), suggested, now)
    {
      V.SuggestionAdjusts(View(), suggested, now);
      if !V.Positive(suggested) {
        return None;
      }
      if lastAdjustAt.Some? && V.TooSoon(config, now, lastAdjustAt.value) {
        return None;
      }
      var next := V.Quantize(config, V.SuggestedDifficulty(config, current, suggested.value));
      if V.RelativeDifference(next, current) < 0.01 {
        return None;
      }
      ewma := None;
      lastAdjustAt := Some(now);
      changed := ApplyDifficulty(next, now);
    }

    method PreviousDifficultyInGrace(now: V.Instant) returns (difficulty: Option<real>)
      ensures difficulty == V.PreviousInGrace(View(), now)
      ensures difficulty.Some? ==> difficulty.value < current
    {
      if transitionUntil.None? || now > transitionUntil.value || previous.None? || previous.value >= current {
        return None;
      }
      return previous;
    }

    /**
     A share is credited at the current difficulty when it meets it; otherwise at the previous one, only if that
     was lower, is still within its grace period, and the share meets it.  Nothing else is ever credited.
     */
    method VerifySubmitForVardiff(
        t: Template, extranonce1: seq<Byte>, text: SubmitText, now: V.Instant, sha: seq<Byte> -> Hash)
      returns (r: Result<(VerifiedShare, real)>)
      requires |extranonce1| == 4
      ensures var meetsCurrent := Meets(t, extranonce1, text, Finite(current), sha);
        var grace := V.PreviousInGrace(View(), now);
        var meetsGrace := grace.Some? && Meets(t, extranonce1, text, Finite(grace.value), sha);
        && (r.Accept? <==> meetsCurrent || meetsGrace)
        && (r.Accept? ==> r.value.1 == if meetsCurrent then current else grace.value)
      ensures r.Accept? ==>
                && r.value.1 <= current
                && Number(r.value.0.hash) * Divisor(Finite(r.value.1)) <= Number(t.shareTarget)
                && BuiltFrom(r.value.0, t, extranonce1, text, sha)
                && (r.value.0.isBlockCandidate <==> Number(r.value.0.hash) <= Number(t.networkTarget))
    {
      var verified := VerifySubmit(t, extranonce1, text, Finite(current), sha);
      if verified.Accept? {
        return Accept((verified.value, current));
      }
      var grace := PreviousDifficultyInGrace(now);
      if grace.None? {
        return Refuse(verified.error);
      }
      var again := VerifySubmit(t, extranonce1, text, Finite(grace.value), sha);
      if again.Accept? {
        return Accept((again.value, grace.value));
      }
      return Refuse(verified.error);
    }
  }
}
