/**
 Submitting a solved block to the second node: at most once, and only while both nodes agree.

 Attempts, their blocking claim tasks and the file system interleave freely.  Attempts can be killed, a claim can
 time out while its task goes on, and a power loss may take any file that was not yet synced.  The circuit breaker
 and the concurrency limit only stop attempts, so this model lets every attempt past them.
 */
module CandidateControl {
  import opened Prelude
  import opened Hex
  import opened ShareMath
  import TipSentinel

  type Instant = nat
  type AttemptId = nat

  // ---------------------------------------------------------------- when both nodes agree

  datatype NodeHealth = NodeHealth(height: Option<nat>, tip: Option<string>, chainwork: Option<string>, peers: Option<nat>)
  datatype Snapshot = Snapshot(primary: Option<NodeHealth>, secondary: Option<NodeHealth>, observedAt: Instant)
  datatype Candidate = Candidate(hashHex: string, headerHex: string, hasMaterial: bool)

  datatype SkipReason =
    | HealthNotReady | HealthStale | HealthUnavailable | HealthIncomplete | SecondaryNoPeers
    | ChainStateMismatch | CandidateParentUnavailable | CandidateParentMismatch
  datatype Eligibility = Eligible | Skip(reason: SkipReason)

  predicate Filled(text: Option<string>) {
    text.Some? && text.value != ""
  }

  predicate IsComplete(h: NodeHealth) {
    h.height.Some? && Filled(h.tip) && Filled(h.chainwork)
  }

  function FromDisplayHex(text: string): Option<Hash> {
    match Decode(TipSentinel.StripPrefix(TipSentinel.Trim(text)))
    case None => None
    case Some(bytes) => if |bytes| == 32 then Some(bytes) else None
  }

  function FromCandidateHeader(c: Candidate): Option<Hash> {
    match Decode(c.headerHex)
    case None => None
    case Some(bytes) => if |bytes| == 84 then Some(bytes[4..36]) else None
  }

  function SecondaryEligibility(health: Option<Snapshot>, maxAge: nat, now: Instant, c: Candidate): Eligibility {
    if health.None? then Skip(HealthNotReady)
    else if Monus(now, health.value.observedAt) > maxAge then Skip(HealthStale)
    else if health.value.primary.None? || health.value.secondary.None? then Skip(HealthUnavailable)
    else
      var (a, b) := (health.value.primary.value, health.value.secondary.value);
      if !IsComplete(a) || !IsComplete(b) || b.peers.None? then Skip(HealthIncomplete)
      else if b.peers == Some(0) then Skip(SecondaryNoPeers)
      else
        var (tipA, tipB) := (FromDisplayHex(a.tip.value), FromDisplayHex(b.tip.value));
        if tipA.None? || tipB.None? then Skip(HealthIncomplete)
        else if a.height != b.height || tipA != tipB || a.chainwork != b.chainwork then Skip(ChainStateMismatch)
        else
          var parent := FromCandidateHeader(c);
          if parent.None? then Skip(CandidateParentUnavailable)
          else if tipA != parent then Skip(CandidateParentMismatch)
          else Eligible
  }

  /** Both nodes answered recently, agree on height, tip and work, and stand on the parent `prev`. */
  predicate Agree(s: Snapshot, maxAge: nat, now: Instant, prev: Hash) {
    && Monus(now, s.observedAt) <= maxAge
    && s.primary.Some? && s.secondary.Some?
    && IsComplete(s.primary.value) && IsComplete(s.secondary.value)
    && s.primary.value.height == s.secondary.value.height
    && s.primary.value.chainwork == s.secondary.value.chainwork
    && FromDisplayHex(s.primary.value.tip.value) == FromDisplayHex(s.secondary.value.tip.value) == Some(prev)
    && s.secondary.value.peers.Some? && s.secondary.value.peers.value > 0
  }

  /** Eligibility is exactly agreement of both nodes on the parent in the candidate's header. */
  lemma EligibleIff(health: Option<Snapshot>, maxAge: nat, now: Instant, c: Candidate)
    ensures SecondaryEligibility(health, maxAge, now, c).Eligible? <==>
              && health.Some? && FromCandidateHeader(c).Some?
              && Agree(health.value, maxAge, now, FromCandidateHeader(c).value)
  {
  }

  /** What is checked before the parents are compared, in order, each check with the reason for skipping it gives. */
  predicate Passes(reason: SkipReason, health: Option<Snapshot>, maxAge: nat, now: Instant, c: Candidate) {
    match reason
    case HealthNotReady => health.Some?
    case HealthStale => health.Some? && now <= health.value.observedAt + maxAge
    case HealthUnavailable => health.Some? && health.value.primary.Some? && health.value.secondary.Some?
    case SecondaryNoPeers => health.Some? && health.value.secondary.Some? && health.value.secondary.value.peers != Some(0)
    case HealthIncomplete =>
      && health.Some? && health.value.primary.Some? && health.value.secondary.Some?
      && IsComplete(health.value.primary.value) && IsComplete(health.value.secondary.value)
      && health.value.secondary.value.peers.Some?
    case ChainStateMismatch =>
      && health.Some? && health.value.primary.Some? && health.value.secondary.Some?
      && var (a, b) := (health.value.primary.value, health.value.secondary.value);
      && a.height == b.height && a.chainwork == b.chainwork && a.tip.Some? && b.tip.Some?
      && FromDisplayHex(a.tip.value) == FromDisplayHex(b.tip.value)
    case CandidateParentUnavailable => FromCandidateHeader(c).Some?
    case CandidateParentMismatch =>
      && health.Some? && health.value.primary.Some? && health.value.primary.value.tip.Some?
      && FromDisplayHex(health.value.primary.value.tip.value) == FromCandidateHeader(c)
  }

  /** A skip names a check that failed, after all those before it passed; only an unreadable tip shares its reason. */
  lemma SkipNamesFirstFailure(health: Option<Snapshot>, maxAge: nat, now: Instant, c: Candidate)
    ensures var e := SecondaryEligibility(health, maxAge, now, c);
      && (e == Skip(HealthNotReady) <==> !Passes(HealthNotReady, health, maxAge, now, c))
      && (e == Skip(HealthStale) <==> health.Some? && !Passes(HealthStale, health, maxAge, now, c))
      && (e == Skip(HealthUnavailable) <==>
            Passes(HealthStale, health, maxAge, now, c) && !Passes(HealthUnavailable, health, maxAge, now, c))
      && (e == Skip(HealthIncomplete) ==> Passes(HealthUnavailable, health, maxAge, now, c))
      && (e == Skip(SecondaryNoPeers) <==>
            && Passes(HealthStale, health, maxAge, now, c) && Passes(HealthIncomplete, health, maxAge, now, c)
            && !Passes(SecondaryNoPeers, health, maxAge, now, c))
      && (var answered := Passes(HealthStale, health, maxAge, now, c) && Passes(HealthUnavailable, health, maxAge, now, c);
          answered && !Passes(HealthIncomplete, health, maxAge, now, c) ==> e == Skip(HealthIncomplete))
      && (e == Skip(ChainStateMismatch) ==> !Passes(ChainStateMismatch, health, maxAge, now, c))
      && (e == Skip(CandidateParentUnavailable) ==>
            Passes(ChainStateMismatch, health, maxAge, now, c) && !Passes(CandidateParentUnavailable, health, maxAge, now, c))
      && (e == Skip(CandidateParentMismatch) ==>
            && Passes(ChainStateMismatch, health, maxAge, now, c) && Passes(CandidateParentUnavailable, health, maxAge, now, c)
            && !Passes(CandidateParentMismatch, health, maxAge, now, c))
  {
  }

  /** That parent is the one in the header, if the candidate carries the text of an 84-byte header. */
  lemma CandidateCarriesParent(c: Candidate, header: Header)
    requires c.headerHex == Encode(HeaderBytes(header))
    ensures FromCandidateHeader(c) == Some(header.prev)
  {
    DecodeEncode(HeaderBytes(header));
    ParentInHeader(header);
  }

  // ---------------------------------------------------------------- claim keys

  datatype Mode = OneShot | Continuous

  /** The file a claim creates; a malformed hash has none in continuous mode. */
  function ClaimKey(mode: Mode, hashHex: string): Option<string> {
    match mode
    case OneShot => Some("latch")
    case Continuous => if |hashHex| == 64 && IsHex(hashHex) then Some(Lower(hashHex) + ".claim") else None
  }

  /**
   In continuous mode exactly the well-formed hashes have a claim, two of them the same one just when they differ in
   nothing but capitals; in one-shot mode there is one claim for all.
   */
  lemma ClaimKeysAreExact(a: string, b: string)
    ensures ClaimKey(OneShot, a).Some? && ClaimKey(OneShot, a) == ClaimKey(OneShot, b)
    ensures ClaimKey(Continuous, a).Some? <==> |a| == 64 && IsHex(a)
    ensures ClaimKey(Continuous, a).Some? && ClaimKey(Continuous, b).Some? ==>
              (ClaimKey(Continuous, a) == ClaimKey(Continuous, b) <==> Lower(a) == Lower(b))
  {
    if ClaimKey(Continuous, a).Some? && ClaimKey(Continuous, b).Some? {
      var x, y := ClaimKey(Continuous, a).value, ClaimKey(Continuous, b).value;
      assert x[..64] == Lower(a) && y[..64] == Lower(b);
    }
  }

  datatype ClaimResult = Won | Lost | Broken
  datatype TaskStage = Pending | Created | Ended(result: ClaimResult)
  datatype Task = Task(key: string, stage: TaskStage)
  datatype Phase = Started | Waiting | Claimed(result: ClaimResult) | Finished
  datatype Attempt = Attempt(candidate: Candidate, before: Option<Snapshot>, phase: Phase)
  datatype Claim = Claim(candidate: Candidate, before: Snapshot, at: Instant)
  datatype Sent = Sent(attempt: AttemptId, candidate: Candidate, after: Snapshot, at: Instant)

  /**
   `files` says of every claim file whether it is synced.  `owner` and `claims` record which attempt created a
   file and on what evidence; `sent` records every full submission the second node ever received.
   */
  datatype World = World(
    mode: Mode, maxAge: nat, files: map<string, bool>, owner: map<string, AttemptId>, claims: map<AttemptId, Claim>,
    attempts: map<AttemptId, Attempt>, tasks: map<AttemptId, Task>, nextId: AttemptId,
    health: Option<Snapshot>, sent: seq<Sent>)

  datatype Action =
    | ObserveHealth(snapshot: Snapshot)
    | Submit(candidate: Candidate)
    | Spawn(id: AttemptId, now: Instant)
    | OpenFile(id: AttemptId, fails: bool)
    | Persist(id: AttemptId, synced: bool)
    | Join(id: AttemptId)
    | TimeOut(id: AttemptId)
    | Send(id: AttemptId, now: Instant)
    | GiveUp(id: AttemptId)
    | Kill(ids: set<AttemptId>)
    | PowerLoss(lost: set<string>)

  predicate InPhase(w: World, id: AttemptId, phase: Phase) {
    id in w.attempts && w.attempts[id].phase == phase
  }

  predicate InStage(w: World, id: AttemptId, stage: TaskStage) {
    id in w.tasks && w.tasks[id].stage == stage
  }

  predicate Enabled(w: World, a: Action) {
    match a
    case ObserveHealth(_) => true
    case Submit(_) => true
    case Spawn(id, now) =>
      InPhase(w, id, Started) && w.attempts[id].candidate.hasMaterial
      && SecondaryEligibility(w.attempts[id].before, w.maxAge, now, w.attempts[id].candidate).Eligible?
    case OpenFile(id, _) => InStage(w, id, Pending)
    case Persist(id, _) => InStage(w, id, Created)
    case Join(id) => InPhase(w, id, Waiting) && id in w.tasks && w.tasks[id].stage.Ended?
    case TimeOut(id) => InPhase(w, id, Waiting)
    case Send(id, now) =>
      InPhase(w, id, Claimed(Won)) && w.health.Some?
      && SecondaryEligibility(w.health, w.maxAge, now, w.attempts[id].candidate).Eligible?
    case GiveUp(id) => id in w.attempts
    case Kill(_) => true
    case PowerLoss(lost) => forall key :: key in lost && key in w.files ==> !w.files[key]
  }

  function Without<T>(m: map<AttemptId, T>, ids: set<AttemptId>): map<AttemptId, T> {
    m - ids
  }

  function EndTask(w: World, id: AttemptId, result: ClaimResult): World
    requires id in w.tasks
  {
    w.(tasks := w.tasks[id := w.tasks[id].(stage := Ended(result))])
  }

  function SpawnClaim(w: World, id: AttemptId, now: Instant): World
    requires Enabled(w, Spawn(id, now))
  {
    var attempt := w.attempts[id];
    var key := ClaimKey(w.mode, attempt.candidate.hashHex);
    var w := w.(claims := w.claims[id := Claim(attempt.candidate, attempt.before.value, now)]);
    if key.None? then w.(attempts := w.attempts[id := attempt.(phase := Claimed(Broken))])
    else w.(attempts := w.attempts[id := attempt.(phase := Waiting)], tasks := w.tasks[id := Task(key.value, Pending)])
  }

  /** `create_new` succeeds only if the file does not exist. */
  function Open(w: World, id: AttemptId, fails: bool): World
    requires id in w.tasks
  {
    var key := w.tasks[id].key;
    if key in w.files then EndTask(w, id, Lost)
    else if fails then EndTask(w, id, Broken)
    else w.(files := w.files[key := false], owner := w.owner[key := id],
            tasks := w.tasks[id := w.tasks[id].(stage := Created)])
  }

  function Sync(w: World, id: AttemptId, synced: bool): World
    requires id in w.tasks
  {
    if synced then EndTask(w.(files := w.files[w.tasks[id].key := true]), id, Won) else EndTask(w, id, Broken)
  }

  function SetPhase(w: World, id: AttemptId, phase: Phase): World
    requires id in w.attempts
  {
    w.(attempts := w.attempts[id := w.attempts[id].(phase := phase)])
  }

  function Next(w: World, a: Action): World
    requires Enabled(w, a)
  {
    match a
    case ObserveHealth(snapshot) => w.(health := Some(snapshot))
    case Submit(candidate) =>
      w.(attempts := w.attempts[w.nextId := Attempt(candidate, w.health, Started)], nextId := w.nextId + 1)
    case Spawn(id, now) => SpawnClaim(w, id, now)
    case OpenFile(id, fails) => Open(w, id, fails)
    case Persist(id, synced) => Sync(w, id, synced)
    case Join(id) => SetPhase(w, id, Claimed(w.tasks[id].stage.result))
    case TimeOut(id) => SetPhase(w, id, Claimed(Broken))
    case Send(id, now) =>
      SetPhase(w.(sent := w.sent + [Sent(id, w.attempts[id].candidate, w.health.value, now)]), id, Finished)
    case GiveUp(id) => SetPhase(w, id, Finished)
    case Kill(ids) => w.(attempts := Without(w.attempts, ids), tasks := Without(w.tasks, ids))
    case PowerLoss(lost) =>
      w.(attempts := map[], tasks := map[], health := None, files := w.files - lost, owner := w.owner - lost)
  }

  ghost predicate Reaches(w: World, actions: seq<Action>, w': World)
    decreases |actions|
  {
    if actions == [] then w' == w
    else Enabled(w, actions[0]) && Reaches(Next(w, actions[0]), actions[1..], w')
  }

  /** A first start, on a disk that may already hold synced claim files of earlier installations. */
  function Boot(mode: Mode, maxAge: nat, existing: set<string>): World {
    World(mode, maxAge, map key | key in existing :: true, map[], map[], map[], map[], 0, None, [])
  }

  // ---------------------------------------------------------------- the invariant

  predicate Owns(w: World, id: AttemptId, key: string) {
    key in w.files && key in w.owner && w.owner[key] == id
  }

  predicate TaskOk(w: World, id: AttemptId, t: Task) {
    && id < w.nextId && id in w.claims
    && ClaimKey(w.mode, w.claims[id].candidate.hashHex) == Some(t.key)
    && (t.stage == Created || t.stage == Ended(Won) ==> Owns(w, id, t.key))
    && (t.stage == Ended(Won) ==> w.files[t.key])
  }

  predicate AttemptOk(w: World, id: AttemptId, x: Attempt) {
    && id < w.nextId
    && (x.phase.Started? ==> id !in w.claims)
    && (!x.phase.Started? && !x.phase.Finished? ==> id in w.claims && w.claims[id].candidate == x.candidate)
    && (x.phase == Claimed(Won) ==> HoldsClaim(w, id, x.candidate) && !HasSent(w, id))
    && (x.phase.Started? || x.phase.Waiting? ==> !HasSent(w, id))
  }

  predicate HoldsClaim(w: World, id: AttemptId, c: Candidate) {
    var key := ClaimKey(w.mode, c.hashHex);
    key.Some? && Owns(w, id, key.value) && w.files[key.value]
  }

  predicate HasSent(w: World, id: AttemptId) {
    exists i :: 0 <= i < |w.sent| && w.sent[i].attempt == id
  }

  predicate ClaimOk(w: World, c: Claim) {
    SecondaryEligibility(Some(c.before), w.maxAge, c.at, c.candidate).Eligible?
  }

  ghost predicate SentOk(w: World) {
    && (forall i :: 0 <= i < |w.sent| ==>
          && w.sent[i].attempt < w.nextId
          && HoldsClaim(w, w.sent[i].attempt, w.sent[i].candidate)
          && SecondaryEligibility(Some(w.sent[i].after), w.maxAge, w.sent[i].at, w.sent[i].candidate).Eligible?)
    && (forall i, j :: 0 <= i < j < |w.sent| ==> w.sent[i].attempt != w.sent[j].attempt)
  }

  ghost predicate OwnersOk(w: World) {
    forall key :: key in w.owner ==>
      && key in w.files && w.owner[key] < w.nextId && w.owner[key] in w.claims
      && ClaimKey(w.mode, w.claims[w.owner[key]].candidate.hashHex) == Some(key)
  }

  ghost predicate Inv(w: World) {
    && (forall id :: id in w.claims ==> id < w.nextId && ClaimOk(w, w.claims[id]))
    && OwnersOk(w)
    && (forall id :: id in w.tasks ==> TaskOk(w, id, w.tasks[id]))
    && (forall id :: id in w.attempts ==> AttemptOk(w, id, w.attempts[id]))
    && SentOk(w)
  }

  /** What a step leaves behind is fine for everything it did not touch, as long as no claim is lost. */
  ghost predicate KeepsClaims(w: World, r: World) {
    && r.mode == w.mode && r.maxAge == w.maxAge && w.nextId <= r.nextId && r.sent == w.sent
    && (forall id :: id in w.claims ==> id in r.claims && r.claims[id] == w.claims[id])
    && (forall id, key :: Owns(w, id, key) ==> Owns(r, id, key))
    && (forall key :: key in w.files && w.files[key] ==> key in r.files && r.files[key])
  }

  lemma HoldsStays(w: World, r: World, id: AttemptId, c: Candidate)
    requires KeepsClaims(w, r) && HoldsClaim(w, id, c)
    ensures HoldsClaim(r, id, c)
  {
    assert Owns(w, id, ClaimKey(w.mode, c.hashHex).value);
  }

  lemma TaskStays(w: World, r: World, id: AttemptId, t: Task)
    requires KeepsClaims(w, r) && TaskOk(w, id, t)
    ensures TaskOk(r, id, t)
  {
    if t.stage == Created || t.stage == Ended(Won) {
      assert Owns(w, id, t.key);
    }
  }

  lemma AttemptStays(w: World, r: World, id: AttemptId, x: Attempt)
    requires KeepsClaims(w, r) && AttemptOk(w, id, x) && (x.phase.Started? ==> id !in r.claims)
    ensures AttemptOk(r, id, x)
  {
    assert HasSent(r, id) == HasSent(w, id);
    if x.phase == Claimed(Won) {
      HoldsStays(w, r, id, x.candidate);
    }
  }

  lemma SentStays(w: World, r: World)
    requires KeepsClaims(w, r) && SentOk(w)
    ensures SentOk(r)
  {
    forall i | 0 <= i < |r.sent|
      ensures HoldsClaim(r, r.sent[i].attempt, r.sent[i].candidate)
    {
      HoldsStays(w, r, w.sent[i].attempt, w.sent[i].candidate);
    }
  }

  ghost predicate ClaimsOk(w: World) {
    forall id :: id in w.claims ==> id < w.nextId && ClaimOk(w, w.claims[id])
  }

  /** A step that keeps all claims keeps the invariant, given its effect on the one attempt and task it touches. */
  lemma LocalStepKeeps(w: World, r: World, touched: AttemptId)
    requires Inv(w) && KeepsClaims(w, r) && OwnersOk(r) && ClaimsOk(r)
    requires forall id :: id in r.claims && id !in w.claims ==> id == touched
    requires forall id :: id in r.tasks && id != touched ==> id in w.tasks && r.tasks[id] == w.tasks[id]
    requires forall id :: id in r.attempts && id != touched ==> id in w.attempts && r.attempts[id] == w.attempts[id]
    requires touched in r.tasks ==> TaskOk(r, touched, r.tasks[touched])
    requires touched in r.attempts ==> AttemptOk(r, touched, r.attempts[touched])
    ensures Inv(r)
  {
    forall id | id in r.tasks.Keys && id != touched
      ensures TaskOk(r, id, r.tasks[id])
    {
      TaskStays(w, r, id, w.tasks[id]);
    }
    forall id | id in r.attempts.Keys && id != touched
      ensures AttemptOk(r, id, r.attempts[id])
    {
      AttemptStays(w, r, id, w.attempts[id]);
    }
    SentStays(w, r);
  }

  lemma SubmitKeeps(w: World, a: Action)
    requires Inv(w) && Enabled(w, a) && a.Submit?
    ensures Inv(Next(w, a))
  {
    var r := Next(w, a);
    forall i | 0 <= i < |w.sent|
      ensures w.sent[i].attempt != w.nextId
    {
    }
    assert !HasSent(r, w.nextId);
    LocalStepKeeps(w, r, w.nextId);
  }

  lemma ClaimRecorded(w: World, r: World, id: AttemptId, c: Claim)
    requires ClaimsOk(w) && OwnersOk(w) && id !in w.claims && id < w.nextId && ClaimOk(w, c)
    requires r == w.(claims := w.claims[id := c], attempts := r.attempts, tasks := r.tasks)
    ensures KeepsClaims(w, r) && OwnersOk(r) && ClaimsOk(r)
  {
    forall x | x in r.claims.Keys
      ensures x < r.nextId && ClaimOk(r, r.claims[x])
    {
      assert x != id ==> ClaimOk(w, w.claims[x]);
    }
  }

  lemma SpawnKeepsClaims(w: World, id: AttemptId, now: Instant)
    requires Inv(w) && Enabled(w, Spawn(id, now)) && id !in w.claims && id < w.nextId
    ensures var r := SpawnClaim(w, id, now); KeepsClaims(w, r) && OwnersOk(r) && ClaimsOk(r)
  {
    var x := w.attempts[id];
    assert Some(x.before.value) == x.before;
    ClaimRecorded(w, SpawnClaim(w, id, now), id, Claim(x.candidate, x.before.value, now));
  }

  lemma SpawnKeeps(w: World, id: AttemptId, now: Instant)
    requires Inv(w) && Enabled(w, Spawn(id, now))
    ensures Inv(SpawnClaim(w, id, now))
  {
    var r := SpawnClaim(w, id, now);
    assert AttemptOk(w, id, w.attempts[id]);
    assert HasSent(r, id) == HasSent(w, id);
    SpawnKeepsClaims(w, id, now);
    LocalStepKeeps(w, r, id);
  }

  lemma OpenKeepsClaims(w: World, id: AttemptId, fails: bool)
    requires Inv(w) && id in w.tasks
    ensures var r := Open(w, id, fails); KeepsClaims(w, r) && OwnersOk(r) && ClaimsOk(r)
  {
    assert TaskOk(w, id, w.tasks[id]);
    var key := w.tasks[id].key;
    if key !in w.files && !fails {
      assert forall x :: !Owns(w, x, key);
      CreateKeepsClaims(w, Open(w, id, fails), id, key);
    } else {
      assert Open(w, id, fails).owner == w.owner;
    }
  }

  /** Creating a file that nobody owned takes no claim from anybody. */
  lemma CreateKeepsClaims(w: World, r: World, id: AttemptId, key: string)
    requires OwnersOk(w) && ClaimsOk(w) && key !in w.files && key !in w.owner
    requires r == w.(files := w.files[key := false], owner := w.owner[key := id], tasks := r.tasks)
    requires id < w.nextId && id in w.claims && ClaimKey(w.mode, w.claims[id].candidate.hashHex) == Some(key)
    ensures KeepsClaims(w, r) && OwnersOk(r) && ClaimsOk(r)
  {
  }

  lemma OpenKeeps(w: World, id: AttemptId, fails: bool)
    requires Inv(w) && InStage(w, id, Pending)
    ensures Inv(Open(w, id, fails))
  {
    var r := Open(w, id, fails);
    assert TaskOk(w, id, w.tasks[id]);
    OpenKeepsClaims(w, id, fails);
    if id in w.attempts {
      AttemptStays(w, r, id, w.attempts[id]);
    }
    LocalStepKeeps(w, r, id);
  }

  lemma SyncKeepsClaims(w: World, id: AttemptId, synced: bool)
    requires OwnersOk(w) && ClaimsOk(w) && InStage(w, id, Created) && TaskOk(w, id, w.tasks[id])
    ensures var r := Sync(w, id, synced);
      KeepsClaims(w, r) && OwnersOk(r) && ClaimsOk(r) && TaskOk(r, id, r.tasks[id])
  {
  }

  lemma SyncKeeps(w: World, id: AttemptId, synced: bool)
    requires Inv(w) && InStage(w, id, Created)
    ensures Inv(Sync(w, id, synced))
  {
    var r := Sync(w, id, synced);
    SyncKeepsClaims(w, id, synced);
    if id in w.attempts {
      AttemptStays(w, r, id, w.attempts[id]);
    }
    LocalStepKeeps(w, r, id);
  }

  lemma SetPhaseKeeps(w: World, id: AttemptId, phase: Phase)
    requires Inv(w) && id in w.attempts && AttemptOk(w, id, w.attempts[id].(phase := phase))
    ensures Inv(SetPhase(w, id, phase))
  {
    var r := SetPhase(w, id, phase);
    AttemptStays(w, r, id, r.attempts[id]);
    if id in w.tasks {
      TaskStays(w, r, id, w.tasks[id]);
    }
    LocalStepKeeps(w, r, id);
  }

  lemma JoinOk(w: World, id: AttemptId)
    requires Inv(w) && Enabled(w, Join(id))
    ensures AttemptOk(w, id, w.attempts[id].(phase := Claimed(w.tasks[id].stage.result)))
  {
    assert AttemptOk(w, id, w.attempts[id]) && TaskOk(w, id, w.tasks[id]);
  }

  lemma PhaseKeeps(w: World, id: AttemptId, phase: Phase)
    requires Inv(w) && id in w.attempts
    requires phase.Finished? || (phase == Claimed(Broken) && w.attempts[id].phase.Waiting?)
    ensures Inv(SetPhase(w, id, phase))
  {
    assert AttemptOk(w, id, w.attempts[id]);
    SetPhaseKeeps(w, id, phase);
  }

  /** Recording one more submission touches only the attempt that made it. */
  lemma SentExtends(w: World, s: Sent)
    requires SentOk(w) && s.attempt < w.nextId && !HasSent(w, s.attempt) && HoldsClaim(w, s.attempt, s.candidate)
    requires SecondaryEligibility(Some(s.after), w.maxAge, s.at, s.candidate).Eligible?
    ensures SentOk(w.(sent := w.sent + [s]))
  {
    var r := w.(sent := w.sent + [s]);
    assert forall i :: 0 <= i < |w.sent| ==> w.sent[i].attempt != s.attempt;
    forall i | 0 <= i < |r.sent|
      ensures HoldsClaim(r, r.sent[i].attempt, r.sent[i].candidate)
    {
      assert i < |w.sent| ==> HoldsClaim(w, w.sent[i].attempt, w.sent[i].candidate);
      assert HoldsClaim(w, r.sent[i].attempt, r.sent[i].candidate);
    }
  }

  lemma AttemptUnsent(w: World, r: World, id: AttemptId, x: Attempt, s: Sent)
    requires AttemptOk(w, id, x) && s.attempt != id
    requires r.(attempts := w.attempts) == w.(sent := w.sent + [s])
    ensures AttemptOk(r, id, x)
  {
    assert HasSent(r, id) ==> HasSent(w, id);
  }

  lemma SendKeeps(w: World, id: AttemptId, s: Sent)
    requires Inv(w) && InPhase(w, id, Claimed(Won))
    requires s.attempt == id && s.candidate == w.attempts[id].candidate
    requires SecondaryEligibility(Some(s.after), w.maxAge, s.at, s.candidate).Eligible?
    ensures Inv(SetPhase(w.(sent := w.sent + [s]), id, Finished))
  {
    var r := SetPhase(w.(sent := w.sent + [s]), id, Finished);
    assert AttemptOk(w, id, w.attempts[id]);
    SentExtends(w, s);
    SentFrame(w.(sent := w.sent + [s]), r);
    forall x | x in r.attempts.Keys && x != id
      ensures AttemptOk(r, x, r.attempts[x])
    {
      AttemptUnsent(w, r, x, w.attempts[x], s);
    }
    forall x | x in r.tasks.Keys
      ensures TaskOk(r, x, r.tasks[x])
    {
      assert TaskOk(w, x, w.tasks[x]);
    }
  }

  lemma SentFrame(w: World, r: World)
    requires SentOk(w) && r == w.(attempts := r.attempts)
    ensures SentOk(r)
  {
    SentStays(w, r);
  }

  lemma KillKeeps(w: World, a: Action)
    requires Inv(w) && Enabled(w, a) && a.Kill?
    ensures Inv(Next(w, a))
  {
    LocalStepKeeps(w, Next(w, a), w.nextId);
  }

  /** Power loss takes only unsynced files, and nothing was ever sent on the strength of one. */
  lemma PowerLossKeeps(w: World, a: Action)
    requires Inv(w) && Enabled(w, a) && a.PowerLoss?
    ensures Inv(Next(w, a))
  {
    var r := Next(w, a);
    forall i | 0 <= i < |r.sent|
      ensures HoldsClaim(r, r.sent[i].attempt, r.sent[i].candidate)
    {
      assert HoldsClaim(w, w.sent[i].attempt, w.sent[i].candidate);
    }
  }

  lemma StepKeeps(w: World, a: Action)
    requires Inv(w) && Enabled(w, a)
    ensures Inv(Next(w, a))
  {
    match a
    case ObserveHealth(_) => LocalStepKeeps(w, Next(w, a), w.nextId);
    case Submit(_) => SubmitKeeps(w, a);
    case Spawn(id, now) => SpawnKeeps(w, id, now);
    case OpenFile(id, fails) => OpenKeeps(w, id, fails);
    case Persist(id, synced) => SyncKeeps(w, id, synced);
    case Join(id) =>
      JoinOk(w, id);
      SetPhaseKeeps(w, id, Claimed(w.tasks[id].stage.result));
    case TimeOut(id) => PhaseKeeps(w, id, Claimed(Broken));
    case Send(id, now) => SendKeeps(w, id, Sent(id, w.attempts[id].candidate, w.health.value, now));
    case GiveUp(id) => PhaseKeeps(w, id, Finished);
    case Kill(_) => KillKeeps(w, a);
    case PowerLoss(_) => PowerLossKeeps(w, a);
  }

  lemma StepKeepsSettings(w: World, a: Action)
    requires Enabled(w, a)
    ensures Next(w, a).mode == w.mode && Next(w, a).maxAge == w.maxAge
  {
  }

  lemma {:induction false} RunKeeps(w: World, actions: seq<Action>, w': World)
    requires Inv(w) && Reaches(w, actions, w')
    ensures Inv(w') && w'.mode == w.mode && w'.maxAge == w.maxAge
    decreases |actions|
  {
    if actions != [] {
      StepKeeps(w, actions[0]);
      StepKeepsSettings(w, actions[0]);
      RunKeeps(Next(w, actions[0]), actions[1..], w');
    }
  }

  // ---------------------------------------------------------------- main results

  /** Two full submissions never share a claim key: the second node sees each claimable thing once. */
  lemma SentOncePerKey(mode: Mode, maxAge: nat, existing: set<string>, actions: seq<Action>, w: World, i: nat, j: nat)
    requires Reaches(Boot(mode, maxAge, existing), actions, w) && i < j < |w.sent|
    ensures ClaimKey(mode, w.sent[i].candidate.hashHex) != ClaimKey(mode, w.sent[j].candidate.hashHex)
  {
    RunKeeps(Boot(mode, maxAge, existing), actions, w);
    assert HoldsClaim(w, w.sent[i].attempt, w.sent[i].candidate);
    assert HoldsClaim(w, w.sent[j].attempt, w.sent[j].candidate);
  }

  /** In one-shot mode the second node receives at most one full submission, ever. */
  lemma OneShotSendsAtMostOnce(maxAge: nat, existing: set<string>, actions: seq<Action>, w: World)
    requires Reaches(Boot(OneShot, maxAge, existing), actions, w)
    ensures |w.sent| <= 1
  {
    if |w.sent| >= 2 {
      SentOncePerKey(OneShot, maxAge, existing, actions, w, 0, 1);
    }
  }

  /** In continuous mode every full submission had a well-formed hash, and no two had the same lower-cased one. */
  lemma ContinuousSendsOncePerHash(maxAge: nat, existing: set<string>, actions: seq<Action>, w: World, i: nat, j: nat)
    requires Reaches(Boot(Continuous, maxAge, existing), actions, w) && i < j < |w.sent|
    ensures Lower(w.sent[i].candidate.hashHex) != Lower(w.sent[j].candidate.hashHex)
    ensures |w.sent[i].candidate.hashHex| == 64 && IsHex(w.sent[i].candidate.hashHex)
  {
    RunKeeps(Boot(Continuous, maxAge, existing), actions, w);
    assert HoldsClaim(w, w.sent[i].attempt, w.sent[i].candidate);
    assert HoldsClaim(w, w.sent[j].attempt, w.sent[j].candidate);
    SentOncePerKey(Continuous, maxAge, existing, actions, w, i, j);
  }

  /** Whatever claim files are already on disk keep their submissions from ever being sent again. */
  lemma ExistingClaimsAreSpent(mode: Mode, maxAge: nat, existing: set<string>, actions: seq<Action>, w: World, i: nat)
    requires Reaches(Boot(mode, maxAge, existing), actions, w) && i < |w.sent|
    ensures ClaimKey(mode, w.sent[i].candidate.hashHex).Some?
    ensures ClaimKey(mode, w.sent[i].candidate.hashHex).value !in existing
  {
    RunKeeps(Boot(mode, maxAge, existing), actions, w);
    NeverOwned(Boot(mode, maxAge, existing), actions, w, existing);
    assert HoldsClaim(w, w.sent[i].attempt, w.sent[i].candidate);
  }

  /** A claim file that is synced and belongs to no attempt stays so. */
  predicate Unowned(w: World, keys: set<string>) {
    forall key :: key in keys ==> key in w.files && w.files[key] && key !in w.owner
  }

  lemma UnownedStep(w: World, a: Action, keys: set<string>)
    requires Enabled(w, a) && Unowned(w, keys) && (a.Persist? ==> TaskOk(w, a.id, w.tasks[a.id]))
    ensures Unowned(Next(w, a), keys)
  {
  }

  lemma {:induction false} NeverOwned(w: World, actions: seq<Action>, w': World, keys: set<string>)
    requires Inv(w) && Reaches(w, actions, w') && Unowned(w, keys)
    ensures Unowned(w', keys)
    decreases |actions|
  {
    if actions != [] {
      UnownedStep(w, actions[0], keys);
      StepKeeps(w, actions[0]);
      NeverOwned(Next(w, actions[0]), actions[1..], w', keys);
    }
  }

  /**
   Every full submission left after its claim, and the snapshot read after the claim, not older than allowed, showed
   both nodes on the same height, tip and work, that tip being the parent in the submitted header.
   */
  lemma SentOnlyOnAgreedParent(mode: Mode, maxAge: nat, existing: set<string>, actions: seq<Action>, w: World, i: nat)
    requires Reaches(Boot(mode, maxAge, existing), actions, w) && i < |w.sent|
    ensures FromCandidateHeader(w.sent[i].candidate).Some?
    ensures Agree(w.sent[i].after, maxAge, w.sent[i].at, FromCandidateHeader(w.sent[i].candidate).value)
  {
    RunKeeps(Boot(mode, maxAge, existing), actions, w);
    EligibleIff(Some(w.sent[i].after), maxAge, w.sent[i].at, w.sent[i].candidate);
  }

  /** A claim file is only ever created for an attempt that found both nodes agreeing before it claimed. */
  lemma ClaimsNeedAgreement(
      mode: Mode, maxAge: nat, existing: set<string>, actions: seq<Action>, w: World, key: string)
    requires Reaches(Boot(mode, maxAge, existing), actions, w) && key in w.owner
    ensures w.owner[key] in w.claims && FromCandidateHeader(w.claims[w.owner[key]].candidate).Some?
    ensures var c := w.claims[w.owner[key]]; Agree(c.before, maxAge, c.at, FromCandidateHeader(c.candidate).value)
  {
    RunKeeps(Boot(mode, maxAge, existing), actions, w);
    var c := w.claims[w.owner[key]];
    EligibleIff(Some(c.before), maxAge, c.at, c.candidate);
  }
}
