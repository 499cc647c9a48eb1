/** One undisturbed pass through the code that submits a solved block to the second node. */
module CandidateSubmitter {
  import opened Prelude
  import opened Hex
  import opened ShareMath
  import opened CandidateControl
  import C = SecondaryCircuit
  import ShareVerify
  import Vardiff

  // ---------------------------------------------------------------- from a solved share to the candidate

  /** The texts of a verified share that the submission to the second node depends on. */
  function CandidateRequest(share: ShareVerify.VerifiedShare, hasMaterial: bool): Candidate {
    Candidate(Encode(share.hash), Encode(share.header), hasMaterial)
  }

  /** Whatever was verified on a template goes out with a header on that template's parent and a well-formed hash. */
  lemma RequestCarriesParent(share: ShareVerify.VerifiedShare, prev: Hash, hasMaterial: bool)
    requires |share.header| == 84 && share.header[4..36] == prev
    ensures FromCandidateHeader(CandidateRequest(share, hasMaterial)) == Some(prev)
    ensures ClaimKey(Continuous, CandidateRequest(share, hasMaterial).hashHex).Some?
    ensures Decode(CandidateRequest(share, hasMaterial).hashHex) == Some(share.hash)
    ensures Decode(CandidateRequest(share, hasMaterial).headerHex) == Some(share.header)
  {
    DecodeEncode(share.header);
    DecodeEncode(share.hash);
    LowerHexIsHex(Encode(share.hash));
  }

  /** Verifying a submit and, if it solves a block, building the candidate from the verified share. */
  method SolveBlock(
      state: ShareVerify.VardiffState, t: ShareVerify.Template, extranonce1: seq<Byte>, text: ShareVerify.SubmitText,
      now: Vardiff.Instant, hasMaterial: bool, sha: seq<Byte> -> Hash) returns (c: Option<Candidate>)
    requires |extranonce1| == 4
    ensures c.Some? ==> FromCandidateHeader(c.value) == Some(t.prev) && ClaimKey(Continuous, c.value.hashHex).Some?
    ensures c.Some? ==> Decode(c.value.headerHex).Some?
    ensures c.Some? ==>
              && Decode(c.value.hashHex) == Some(sha(Decode(c.value.headerHex).value))
              && Number(sha(Decode(c.value.headerHex).value)) <= Number(t.networkTarget)
  {
    var verified := state.VerifySubmitForVardiff(t, extranonce1, text, now, sha);
    if verified.Refuse? || !verified.value.0.isBlockCandidate {
      return None;
    }
    RequestCarriesParent(verified.value.0, t.prev, hasMaterial);
    return Some(CandidateRequest(verified.value.0, hasMaterial));
  }

  /** A submitted block was built on the parent both nodes agreed on: the parent of the template it was verified on. */
  lemma SolvedBlockIsSentOnItsParent(
      mode: Mode, maxAge: nat, existing: set<string>, actions: seq<Action>, w: World, i: nat,
      share: ShareVerify.VerifiedShare, prev: Hash)
    requires Reaches(Boot(mode, maxAge, existing), actions, w) && i < |w.sent|
    requires |share.header| == 84 && share.header[4..36] == prev
    requires w.sent[i].candidate == CandidateRequest(share, w.sent[i].candidate.hasMaterial)
    ensures Agree(w.sent[i].after, maxAge, w.sent[i].at, prev)
  {
    RequestCarriesParent(share, prev, w.sent[i].candidate.hasMaterial);
    SentOnlyOnAgreedParent(mode, maxAge, existing, actions, w, i);
  }

  // ---------------------------------------------------------------- one pass

  datatype DiskFault = NoFault | OpenFails | WriteFails

  /** What claiming `key` does to the files when nothing else runs in between. */
  function ClaimOn(files: map<string, bool>, key: Option<string>, fault: DiskFault): (map<string, bool>, ClaimResult) {
    if key.None? then (files, Broken)
    else if key.value in files then (files, Lost)
    else
      match fault
      case OpenFails => (files, Broken)
      case WriteFails => (files[key.value := false], Broken)
      case NoFault => (files[key.value := true], Won)
  }

  /** It is the claim task of the interleaving model, run from opening to the end. */
  lemma ClaimOnIsTheTask(w: World, id: AttemptId, fault: DiskFault)
    requires id in w.tasks && w.tasks[id].stage == Pending
    ensures var opening := Open(w, id, fault.OpenFails?);
      var ended := if opening.tasks[id].stage == Created then Sync(opening, id, fault.NoFault?) else opening;
      ended.tasks[id].stage.Ended?
      && (ended.files, ended.tasks[id].stage.result) == ClaimOn(w.files, Some(w.tasks[id].key), fault)
  {
    var key := w.tasks[id].key;
    assert w.files[key := false][key := true] == w.files[key := true];
  }

  /** The directory holding claim files; it outlives the process. */
  class ClaimDirectory {
    var files: map<string, bool>

    constructor (existing: map<string, bool>)
      ensures files == existing
    {
      files := existing;
    }
  }

  datatype SecondaryClaim = SecondaryClaim(claimed: bool, before: Option<nat>, remaining: Option<nat>, failed: bool)

  class CandidateClaims {
    const mode: Mode
    const directory: ClaimDirectory

    constructor (mode: Mode, directory: ClaimDirectory)
      ensures this.mode == mode && this.directory == directory
    {
      this.mode, this.directory := mode, directory;
    }

    method Claim(hashHex: string, fault: DiskFault) returns (claim: SecondaryClaim)
      modifies directory
      ensures var (files, result) := ClaimOn(old(directory.files), ClaimKey(mode, hashHex), fault);
        && directory.files == files
        && (claim.claimed <==> result == Won) && (claim.failed <==> result == Broken)
        && (mode.OneShot? ==> claim.remaining == Some(0) && (claim.claimed ==> claim.before == Some(1)))
      ensures var key := ClaimKey(mode, hashHex);
        && (claim.claimed <==> key.Some? && key.value !in old(directory.files) && fault.NoFault?)
        && (claim.failed <==> key.None? || (key.value !in old(directory.files) && !fault.NoFault?))
        && (claim.claimed ==> key.value in directory.files && directory.files[key.value])
        && (forall k :: Some(k) != key ==>
              (k in directory.files <==> k in old(directory.files))
              && (k in directory.files ==> directory.files[k] == old(directory.files)[k]))
    {
      var key := ClaimKey(mode, hashHex);
      var budget := if mode.OneShot? then Some(0) else None;
      if key.None? {
        return SecondaryClaim(false, None, None, true);
      }
      var before := if mode.OneShot? then Some(if key.value in directory.files then 0 else 1) else None;
      if key.value in directory.files {
        return SecondaryClaim(false, before, budget, false);
      }
      if fault.OpenFails? {
        return SecondaryClaim(false, before, budget, true);
      }
      directory.files := directory.files[key.value := false];
      if fault.WriteFails? {
        return SecondaryClaim(false, before, budget, true);
      }
      directory.files := directory.files[key.value := true];
      return SecondaryClaim(true, before, budget, false);
    }
  }

  /** The clock readings and outside answers one pass depends on. */
  datatype Pass = Pass(
    checkedAt: nat, preAt: nat, postAt: nat, recordedAt: nat,
    fault: DiskFault, claimTimedOut: bool, postHealth: Option<Snapshot>, answer: C.Outcome)

  /** Everything that must hold before the claim is attempted. */
  predicate Admitted(
      c: Candidate, circuit: C.Circuit, mode: Mode, freePermits: nat, health: Option<Snapshot>, maxAge: nat, p: Pass)
  {
    && c.hasMaterial && C.Check(circuit, p.checkedAt).1
    && (mode.Continuous? ==> freePermits > 0)
    && SecondaryEligibility(health, maxAge, p.preAt, c).Eligible?
  }

  /** Everything that must hold for the second node to be called. */
  predicate Submits(
      c: Candidate, circuit: C.Circuit, mode: Mode, freePermits: nat, health: Option<Snapshot>, maxAge: nat,
      files: map<string, bool>, p: Pass)
  {
    && Admitted(c, circuit, mode, freePermits, health, maxAge, p)
    && !p.claimTimedOut && ClaimOn(files, ClaimKey(mode, c.hashHex), p.fault).1 == Won
    && SecondaryEligibility(p.postHealth, maxAge, p.postAt, c).Eligible?
  }

  /** The circuit is closed at the check, a permit is free, and both nodes stand on the candidate's parent. */
  predicate MayClaim(
      c: Candidate, circuit: C.Circuit, mode: Mode, freePermits: nat, health: Option<Snapshot>, maxAge: nat, p: Pass)
  {
    && c.hasMaterial
    && !(circuit.openUntil.Some? && p.checkedAt < circuit.openUntil.value)
    && (mode == OneShot || freePermits > 0)
    && FromCandidateHeader(c).Some?
    && health.Some? && Agree(health.value, maxAge, p.preAt, FromCandidateHeader(c).value)
  }

  /** What it takes to attempt the claim, and to call the second node. */
  lemma SubmitsIff(
      c: Candidate, circuit: C.Circuit, mode: Mode, freePermits: nat, health: Option<Snapshot>, maxAge: nat,
      files: map<string, bool>, p: Pass)
    ensures Admitted(c, circuit, mode, freePermits, health, maxAge, p)
            <==> MayClaim(c, circuit, mode, freePermits, health, maxAge, p)
    ensures Submits(c, circuit, mode, freePermits, health, maxAge, files, p) <==>
              && MayClaim(c, circuit, mode, freePermits, health, maxAge, p)
              && ClaimKey(mode, c.hashHex).Some? && ClaimKey(mode, c.hashHex).value !in files
              && p.fault.NoFault? && !p.claimTimedOut
              && p.postHealth.Some? && Agree(p.postHealth.value, maxAge, p.postAt, FromCandidateHeader(c).value)
  {
    EligibleIff(health, maxAge, p.preAt, c);
    EligibleIff(p.postHealth, maxAge, p.postAt, c);
  }

  class ParallelNodeBlockSubmitter {
    const claims: CandidateClaims
    const circuit: C.SecondaryCircuitBreaker
    const maxAge: nat
    var freePermits: nat
    ghost var sent: seq<Candidate>

    constructor (claims: CandidateClaims, circuit: C.SecondaryCircuitBreaker, maxAge: nat, maxInFlight: nat)
      ensures this.claims == claims && this.circuit == circuit && this.maxAge == maxAge
      ensures freePermits == maxInFlight && sent == []
    {
      this.claims, this.circuit, this.maxAge := claims, circuit, maxAge;
      freePermits, sent := maxInFlight, [];
    }

    /**
     Calls the second node exactly when every check passes, touches no claim file unless the first checks pass,
     records the outcome in the circuit only once a claim was attempted, and always gives its permit back.
     */
    method SubmitSecondary(candidate: Candidate, health: Option<Snapshot>, p: Pass) returns (outcome: C.Outcome)
      requires p.answer != C.Skipped
      modifies this, circuit, claims.directory
      ensures var admitted := Admitted(candidate, old(circuit.View()), claims.mode, old(freePermits), health, maxAge, p);
        var submits := Submits(candidate, old(circuit.View()), claims.mode, old(freePermits), health, maxAge,
                               old(claims.directory.files), p);
        && sent == (if submits then old(sent) + [candidate] else old(sent))
        && outcome == (if submits then p.answer else C.Skipped)
        && claims.directory.files ==
             (if admitted then ClaimOn(old(claims.directory.files), ClaimKey(claims.mode, candidate.hashHex), p.fault).0
              else old(claims.directory.files))
        && (admitted ==> circuit.View() == C.Record(circuit.config, C.Check(old(circuit.View()), p.checkedAt).0,
                                                    outcome, p.recordedAt))
        && (!admitted ==> circuit.View() == old(circuit.View())
                          || circuit.View() == C.Check(old(circuit.View()), p.checkedAt).0)
        && freePermits == old(freePermits)
      ensures old(circuit.openUntil).Some? && p.checkedAt < old(circuit.openUntil).value ==>
                && outcome == C.Skipped && sent == old(sent) && claims.directory.files == old(claims.directory.files)
                && circuit.View() == old(circuit.View())
      ensures sent != old(sent) ==>
                && sent == old(sent) + [candidate]
                && ClaimKey(claims.mode, candidate.hashHex).Some?
                && ClaimKey(claims.mode, candidate.hashHex).value !in old(claims.directory.files)
                && ClaimKey(claims.mode, candidate.hashHex).value in claims.directory.files
    {
      if !candidate.hasMaterial {
        return C.Skipped;
      }
      var closed := circuit.Eligibility(p.checkedAt);
      if !closed {
        return C.Skipped;
      }
      var permit := claims.mode.Continuous?;
      if permit {
        if freePermits == 0 {
          return C.Skipped;
        }
        freePermits := freePermits - 1;
      }
      var before := SecondaryEligibility(health, maxAge, p.preAt, candidate);
      if before.Skip? {
        freePermits := if permit then freePermits + 1 else freePermits;
        return C.Skipped;
      }
      var claim := claims.Claim(candidate.hashHex, p.fault);
      var won := claim.claimed && !p.claimTimedOut;
      outcome := C.Skipped;
      if won {
        var after := SecondaryEligibility(p.postHealth, maxAge, p.postAt, candidate);
        if after.Eligible? {
          sent := sent + [candidate];
          outcome := p.answer;
        }
      }
      circuit.RecordOutcome(outcome, p.recordedAt);
      freePermits := if permit then freePermits + 1 else freePermits;
    }
  }
}
