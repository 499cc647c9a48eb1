/**
 Retained mining jobs, the fence on invalidated parents and the refresh loop that publishes jobs.

 The code keeps a set of invalidated parents.  The rule it stands for is far simpler: there is one live
 parent, it may be fenced, and a share counts only if its job builds on the live parent while unfenced.
 */
module JobRetention {
  import opened Prelude
  import Hex
  import TipSentinel

  type Hash = Hex.Hash
  type JobId = string
  type Instant = nat

  datatype Job = Job(id: JobId, prev: Hash)
  datatype JobReason = TipChange | Heartbeat
  datatype RetainedJob = RetainedJob(job: Job, publishedAt: Instant, generation: nat)
  datatype Store = Store(jobs: map<JobId, RetainedJob>, invalidated: set<Hash>, generation: nat)
  datatype StaleClass = NotifyDeliveryLag | MinerSwitchLag | Unclassified

  function WithInitial(job: Job, now: Instant): Store {
    Store(map[job.id := RetainedJob(job, now, 1)], {}, 1)
  }

  predicate Invalidated(s: Store, parent: Hash) {
    parent in s.invalidated
  }

  /** A share may be submitted for this job. */
  predicate SubmitValid(s: Store, id: JobId) {
    id in s.jobs && !Invalidated(s, s.jobs[id].job.prev)
  }

  /**
   The job table and the fence are behind different locks, so a submit sees the store four times: it fetches the job,
   tests the parent's fence, and does both once more.
   */
  datatype Lookup = Lookup(fetched: Store, tested: Store, refetched: Store, retested: Store)

  /** The first two reads found the job and no fence on its parent. */
  predicate FoundForSubmit(fetched: Store, tested: Store, id: JobId) {
    id in fetched.jobs && !Invalidated(tested, fetched.jobs[id].job.prev)
  }

  /** The last two reads found the job and a fence on its parent. */
  predicate FoundInvalidated(refetched: Store, retested: Store, id: JobId) {
    id in refetched.jobs && Invalidated(retested, refetched.jobs[id].job.prev)
  }

  /** The submit goes on to verification. */
  predicate PassesLookup(d: Lookup, id: JobId) {
    FoundForSubmit(d.fetched, d.tested, id) && !FoundInvalidated(d.refetched, d.retested, id)
  }

  /** Classifying a stale submit loads the generation first and looks the job up afterwards. */
  function StaleClassOf(generation: nat, looked: Store, id: JobId, lastDelivered: nat): StaleClass {
    if lastDelivered < generation then NotifyDeliveryLag
    else if id in looked.jobs && looked.jobs[id].generation < generation then MinerSwitchLag
    else Unclassified
  }

  predicate ParentRetained(s: Store, parent: Hash) {
    !Invalidated(s, parent) && exists id :: id in s.jobs && s.jobs[id].job.prev == parent
  }

  function InvalidateParent(s: Store, parent: Hash): Store {
    s.(invalidated := s.invalidated + {parent})
  }

  function Unexpired(jobs: map<JobId, RetainedJob>, retention: nat, now: Instant): map<JobId, RetainedJob> {
    map id | id in jobs && Monus(now, jobs[id].publishedAt) <= retention :: jobs[id]
  }

  function Parents(jobs: map<JobId, RetainedJob>): set<Hash> {
    set id | id in jobs :: jobs[id].job.prev
  }

  /** Publishing starts a new generation on a tip change, before it touches the job table. */
  function StartGeneration(s: Store, reason: JobReason): Store {
    match reason
    case TipChange => s.(generation := s.generation + 1)
    case Heartbeat => s
  }

  /** The rest of publishing, done under the lock on the job table. */
  function Install(s: Store, job: Job, reason: JobReason, generation: nat, retention: nat, now: Instant): Store {
    var jobs := Unexpired(s.jobs, retention, now);
    var parents := Parents(jobs);
    var widened := if reason.TipChange? then s.invalidated + (parents - {job.prev}) else s.invalidated;
    Store(jobs[job.id := RetainedJob(job, now, generation)], widened * parents - {job.prev}, s.generation)
  }

  function Publish(s: Store, job: Job, reason: JobReason, retention: nat, now: Instant): Store {
    var s1 := StartGeneration(s, reason);
    Install(s1, job, reason, s1.generation, retention, now)
  }

  // ---------------------------------------------------------------- one round of the refresh loop

  datatype Read<T> = Failed | Got(value: T)

  /** What the node, the clock and the database answer during one round. */
  datatype Answers = Answers(
    heartbeatDue: bool, firstTip: Read<Option<Hash>>, template: Read<Job>, secondTip: Read<Option<Hash>>,
    persisted: bool)

  /** The job this round publishes, if any; `forced` when the sentinel just fenced the current parent. */
  function Decide(s: Store, current: Job, forced: bool, a: Answers): Option<Job> {
    if a.firstTip.Failed? then None
    else if a.firstTip.value == Some(current.prev) && !a.heartbeatDue && !forced then None
    else if a.template.Failed? || a.secondTip.Failed? then None
    else
      var next := a.template.value;
      var latest := if a.secondTip.value.Some? then a.secondTip.value else a.firstTip.value;
      if latest.Some? && next.prev != latest.value then None
      else if !ParentRetained(s, next.prev) && next.prev == current.prev then None
      else if next.id == current.id then None
      else if !a.persisted then None
      else Some(next)
  }

  function ReasonFor(current: Job, next: Job): JobReason {
    if next.prev != current.prev then TipChange else Heartbeat
  }

  /** The tip a round has read: the second answer, or the first when the second names none. */
  function TipRead(a: Answers): Option<Hash> {
    match a.secondTip
    case Got(Some(tip)) => Some(tip)
    case _ => if a.firstTip.Got? then a.firstTip.value else None
  }

  predicate IsTip(tip: Option<Hash>, parent: Hash) {
    tip.Some? ==> tip.value == parent
  }

  // ---------------------------------------------------------------- interleavings

  /** Where the loop stands between two points at which another task may run. */
  datatype Stage =
    | Idle
    | Generating(next: Job, reason: JobReason, generation: nat)
    | Installed(next: Job)

  /** How far a session is with passing on a job: it borrows the current one, fetches it, tests the fence and writes. */
  datatype Sending = NotSending | Borrowed(id: JobId) | Fetched(id: JobId, prev: Hash) | Writing(id: JobId)

  /**
   `live` and `fenced` are the simple rule; `delivered` logs the generation noted for each job sent, and `tip` the tip
   that was read by the latest round that came to publish.
   */
  datatype Session = Session(lastDelivered: nat, sending: Sending, sent: set<JobId>, delivered: set<(JobId, nat)>)
  datatype World = World(
    store: Store, current: Job, stage: Stage, sessions: map<nat, Session>, live: Hash, fenced: bool, tip: Option<Hash>)

  datatype Action =
    | Fence(observation: TipSentinel.Observation)
    | Start(forced: bool, answers: Answers)
    | Swap(retention: nat, now: Instant)
    | Broadcast
    | Open(sid: nat)
    | Borrow(sid: nat)
    | Fetch(sid: nat)
    | Send(sid: nat)
    | Note(sid: nat)

  function NewSession(): Session {
    Session(0, NotSending, {}, {})
  }

  function Boot(job: Job, now: Instant): World {
    World(WithInitial(job, now), job, Idle, map[], job.prev, false, None)
  }

  predicate Enabled(w: World, a: Action) {
    match a
    case Fence(o) => w.stage.Idle? && TipSentinel.InvalidatesParent(w.current.prev, o)
    case Start(forced, answers) => w.stage.Idle? && Decide(w.store, w.current, forced, answers).Some?
    case Swap(_, _) => w.stage.Generating?
    case Broadcast => w.stage.Installed?
    case Open(sid) => sid !in w.sessions
    case Borrow(sid) => sid in w.sessions && w.sessions[sid].sending.NotSending?
    case Fetch(sid) => sid in w.sessions && w.sessions[sid].sending.Borrowed?
    case Send(sid) => sid in w.sessions && w.sessions[sid].sending.Fetched?
    case Note(sid) => sid in w.sessions && w.sessions[sid].sending.Writing?
  }

  function FetchJob(s: Store, x: Session): Session
    requires x.sending.Borrowed?
  {
    var id := x.sending.id;
    x.(sending := if id in s.jobs then Fetched(id, s.jobs[id].job.prev) else NotSending)
  }

  function SendUnfenced(s: Store, x: Session): Session
    requires x.sending.Fetched?
  {
    if Invalidated(s, x.sending.prev) then x.(sending := NotSending)
    else x.(sending := Writing(x.sending.id), sent := x.sent + {x.sending.id})
  }

  function NoteGeneration(s: Store, x: Session): Session
    requires x.sending.Writing?
  {
    var id := x.sending.id;
    if id in s.jobs then
      var g := s.jobs[id].generation;
      x.(lastDelivered := Max(x.lastDelivered, g), sending := NotSending, delivered := x.delivered + {(id, g)})
    else x.(sending := NotSending)
  }

  function Next(w: World, a: Action): World
    requires Enabled(w, a)
  {
    match a
    case Fence(_) => w.(store := InvalidateParent(w.store, w.current.prev), fenced := true)
    case Start(forced, answers) =>
      var next := Decide(w.store, w.current, forced, answers).value;
      var reason := ReasonFor(w.current, next);
      var store := StartGeneration(w.store, reason);
      w.(store := store, stage := Generating(next, reason, store.generation), tip := TipRead(answers))
    case Swap(retention, now) =>
      var (next, reason, g) := (w.stage.next, w.stage.reason, w.stage.generation);
      w.(store := Install(w.store, next, reason, g, retention, now), stage := Installed(next),
         live := next.prev, fenced := false)
    case Broadcast => w.(current := w.stage.next, stage := Idle)
    case Open(sid) => w.(sessions := w.sessions[sid := NewSession()])
    case Borrow(sid) => w.(sessions := w.sessions[sid := w.sessions[sid].(sending := Borrowed(w.current.id))])
    case Fetch(sid) => w.(sessions := w.sessions[sid := FetchJob(w.store, w.sessions[sid])])
    case Send(sid) => w.(sessions := w.sessions[sid := SendUnfenced(w.store, w.sessions[sid])])
    case Note(sid) => w.(sessions := w.sessions[sid := NoteGeneration(w.store, w.sessions[sid])])
  }

  ghost predicate Reaches(w: World, actions: seq<Action>, w': World)
    decreases |actions|
  {
    if actions == [] then w' == w
    else Enabled(w, actions[0]) && Reaches(Next(w, actions[0]), actions[1..], w')
  }

  // ---------------------------------------------------------------- the invariant

  /** The set of invalidated parents decides every retained job exactly as the simple rule does. */
  predicate Refines(s: Store, live: Hash, fenced: bool) {
    && (live in s.invalidated <==> fenced)
    && (forall id :: id in s.jobs && s.jobs[id].job.prev != live ==> s.jobs[id].job.prev in s.invalidated)
  }

  predicate GenerationsOk(s: Store, live: Hash) {
    forall id :: id in s.jobs ==>
      && s.jobs[id].generation <= s.generation
      && (s.jobs[id].generation == s.generation ==> s.jobs[id].job.prev == live)
  }

  predicate Holds(s: Store, job: Job) {
    job.id in s.jobs && s.jobs[job.id].job.prev == job.prev
  }

  predicate StageOk(w: World) {
    match w.stage
    case Idle => w.current.prev == w.live && Holds(w.store, w.current) && IsTip(w.tip, w.live)
    case Generating(next, reason, g) =>
      && w.current.prev == w.live && Holds(w.store, w.current) && g == w.store.generation && IsTip(w.tip, next.prev)
      && (if reason.TipChange?
          then next.prev != w.live && forall id :: id in w.store.jobs ==> w.store.jobs[id].generation < g
          else next.prev == w.live && !w.fenced)
    case Installed(next) => next.prev == w.live && !w.fenced && Holds(w.store, next) && IsTip(w.tip, w.live)
  }

  predicate SessionOk(generation: nat, x: Session) {
    && (forall d :: d in x.delivered ==> d.0 in x.sent && d.1 <= x.lastDelivered)
    && (x.lastDelivered != 0 ==> exists d :: d in x.delivered && d.1 == x.lastDelivered)
    && x.lastDelivered <= generation
    && (x.sending.Writing? ==> x.sending.id in x.sent)
  }

  predicate SessionsOk(w: World) {
    forall sid :: sid in w.sessions ==> SessionOk(w.store.generation, w.sessions[sid])
  }

  predicate Inv(w: World) {
    && Refines(w.store, w.live, w.fenced)
    && GenerationsOk(w.store, w.live)
    && StageOk(w)
    && SessionsOk(w)
    && w.store.generation >= 1
  }

  /** Whatever was invalidated before, publishing on a new tip leaves exactly the new parent's jobs valid. */
  lemma InstallRefines(s: Store, live: Hash, job: Job, reason: JobReason, g: nat, retention: nat, now: Instant)
    requires reason.Heartbeat? ==> job.prev == live && (forall id :: id in s.jobs && s.jobs[id].job.prev != live ==>
               s.jobs[id].job.prev in s.invalidated)
    ensures Refines(Install(s, job, reason, g, retention, now), job.prev, false)
  {
    var r := Install(s, job, reason, g, retention, now);
    var kept := Unexpired(s.jobs, retention, now);
    forall id | id in r.jobs && r.jobs[id].job.prev != job.prev
      ensures r.jobs[id].job.prev in r.invalidated
    {
      assert id in kept && r.jobs[id] == kept[id] == s.jobs[id];
      assert kept[id].job.prev in Parents(kept);
    }
  }

  lemma FenceKeeps(w: World, a: Action)
    requires Inv(w) && Enabled(w, a) && a.Fence?
    ensures Inv(Next(w, a))
  {
  }

  lemma StartKeeps(w: World, a: Action)
    requires Inv(w) && Enabled(w, a) && a.Start?
    ensures Inv(Next(w, a))
  {
    var next := Decide(w.store, w.current, a.forced, a.answers).value;
    if next.prev == w.current.prev {
      assert ParentRetained(w.store, next.prev);
    }
  }

  lemma SwapKeeps(w: World, a: Action)
    requires Inv(w) && Enabled(w, a) && a.Swap?
    ensures Inv(Next(w, a))
  {
    var g := w.stage.generation;
    InstallRefines(w.store, w.live, w.stage.next, w.stage.reason, g, a.retention, a.now);
    var r := Next(w, a).store;
    forall id | id in r.jobs && id != w.stage.next.id
      ensures id in w.store.jobs && r.jobs[id] == w.store.jobs[id]
    {
    }
    assert GenerationsOk(r, w.stage.next.prev);
  }

  lemma SessionStepKeeps(w: World, a: Action)
    requires Inv(w) && Enabled(w, a) && (a.Open? || a.Borrow? || a.Fetch? || a.Send? || a.Note?)
    ensures Inv(Next(w, a))
  {
    if a.Note? {
      NoteKeeps(w.store, w.live, w.sessions[a.sid]);
    }
    assert SessionsOk(Next(w, a));
  }

  lemma NoteKeeps(s: Store, live: Hash, x: Session)
    requires SessionOk(s.generation, x) && GenerationsOk(s, live) && x.sending.Writing?
    ensures SessionOk(s.generation, NoteGeneration(s, x))
  {
    var id := x.sending.id;
    if id in s.jobs {
      var g := s.jobs[id].generation;
      var r := NoteGeneration(s, x);
      assert (id, g) in r.delivered;
      if r.lastDelivered != 0 && r.lastDelivered != g {
        var d :| d in x.delivered && d.1 == x.lastDelivered;
        assert d in r.delivered;
      }
    }
  }

  lemma StepKeeps(w: World, a: Action)
    requires Inv(w) && Enabled(w, a)
    ensures Inv(Next(w, a))
  {
    match a
    case Fence(_) => FenceKeeps(w, a);
    case Start(_, _) => StartKeeps(w, a);
    case Swap(_, _) => SwapKeeps(w, a);
    case Broadcast =>
    case _ => SessionStepKeeps(w, a);
  }

  lemma {:induction false} RunKeeps(w: World, actions: seq<Action>, w': World)
    requires Inv(w) && Reaches(w, actions, w')
    ensures Inv(w')
    decreases |actions|
  {
    if actions != [] {
      StepKeeps(w, actions[0]);
      RunKeeps(Next(w, actions[0]), actions[1..], w');
    }
  }

  lemma EveryRunIsSound(job: Job, now: Instant, actions: seq<Action>, w: World)
    requires Reaches(Boot(job, now), actions, w)
    ensures Inv(w)
  {
    RunKeeps(Boot(job, now), actions, w);
  }

  // ---------------------------------------------------------------- main results

  /**
   In every run, a retained job is accepted exactly when it builds on the parent published last and that
   parent has not been fenced since.  Jobs kept from an earlier visit to the same tip are accepted again.
   */
  lemma SubmitValidIff(job: Job, now: Instant, actions: seq<Action>, w: World, id: JobId)
    requires Reaches(Boot(job, now), actions, w) && id in w.store.jobs
    ensures SubmitValid(w.store, id) <==> w.store.jobs[id].job.prev == w.live && !w.fenced
  {
    EveryRunIsSound(job, now, actions, w);
  }

  /** While the live parent is fenced, nothing is ever started on it: the republish guard refuses. */
  lemma FencedParentIsNotRepublished(job: Job, now: Instant, actions: seq<Action>, w: World, forced: bool, a: Answers)
    requires Reaches(Boot(job, now), actions, w) && w.stage.Idle? && w.fenced
    requires Decide(w.store, w.current, forced, a).Some?
    ensures Decide(w.store, w.current, forced, a).value.prev != w.live
  {
    EveryRunIsSound(job, now, actions, w);
  }

  /** The guard refuses a heartbeat only for the fence: an unfenced live parent is always still retained. */
  lemma GuardRefusesOnlyFenced(job: Job, now: Instant, actions: seq<Action>, w: World)
    requires Reaches(Boot(job, now), actions, w) && w.stage.Idle?
    ensures ParentRetained(w.store, w.current.prev) <==> !w.fenced
  {
    EveryRunIsSound(job, now, actions, w);
    assert w.store.jobs[w.current.id].job.prev == w.current.prev;
  }

  /** Something calls for a new job: the tip moved, a heartbeat is due, or the current parent was just fenced. */
  predicate Due(current: Job, forced: bool, a: Answers) {
    a.firstTip.Got? && (a.firstTip.value != Some(current.prev) || a.heartbeatDue || forced)
  }

  /**
   What a round publishes, in every run: the template, exactly if a new job is due, no read failed, the template
   builds on the tip that was read, its parent is not the fenced live one, its id is new, and it could be persisted.
   */
  lemma RoundPublishesIff(job: Job, now: Instant, actions: seq<Action>, w: World, forced: bool, a: Answers)
    requires Reaches(Boot(job, now), actions, w) && w.stage.Idle?
    ensures Decide(w.store, w.current, forced, a).Some? <==>
              && Due(w.current, forced, a) && a.template.Got? && a.secondTip.Got?
              && IsTip(TipRead(a), a.template.value.prev)
              && !(w.fenced && a.template.value.prev == w.live)
              && a.template.value.id != w.current.id && a.persisted
    ensures Decide(w.store, w.current, forced, a).Some? ==> Decide(w.store, w.current, forced, a).value == a.template.value
  {
    EveryRunIsSound(job, now, actions, w);
    GuardRefusesOnlyFenced(job, now, actions, w);
  }

  /** Every parent ever installed is the tip that was read before, if any was: in every run the live parent is. */
  lemma LiveParentIsTipRead(job: Job, now: Instant, actions: seq<Action>, w: World)
    requires Reaches(Boot(job, now), actions, w) && !w.stage.Generating? && w.tip.Some?
    ensures w.live == w.tip.value
  {
    EveryRunIsSound(job, now, actions, w);
  }

  // ---------------------------------------------------------------- which jobs are retained

  /** The step puts this entry into the table, in the generation current at that moment. */
  predicate Puts(w: World, a: Action, e: RetainedJob) {
    a.Swap? && w.stage.Generating? && w.stage.next == e.job && a.now == e.publishedAt && w.store.generation == e.generation
  }

  /** The step takes an entry of `id` published at `at` out of the table: it is too old, or its id is taken. */
  predicate Takes(w: World, a: Action, id: JobId, at: Instant) {
    a.Swap? && w.stage.Generating? && (w.stage.next.id == id || a.now > at + a.retention)
  }

  ghost predicate Stays(w: World, actions: seq<Action>, id: JobId, at: Instant)
    decreases |actions|
  {
    actions == []
    || (Enabled(w, actions[0]) && !Takes(w, actions[0], id, at) && Stays(Next(w, actions[0]), actions[1..], id, at))
  }

  /** Some of these steps puts the entry into the table, and none after it takes it out. */
  ghost predicate PutToStay(w: World, actions: seq<Action>, e: RetainedJob)
    decreases |actions|
  {
    actions != [] && Enabled(w, actions[0])
    && var v := Next(w, actions[0]);
    || PutToStay(v, actions[1..], e)
    || (Puts(w, actions[0], e) && Stays(v, actions[1..], e.job.id, e.publishedAt))
  }

  predicate Retains(s: Store, e: RetainedJob) {
    e.job.id in s.jobs && s.jobs[e.job.id] == e
  }

  predicate IdsOk(s: Store) {
    forall id :: id in s.jobs ==> s.jobs[id].job.id == id
  }

  lemma RetainsStep(w: World, a: Action, e: RetainedJob)
    requires Inv(w) && Enabled(w, a)
    ensures Retains(Next(w, a).store, e) <==>
              Puts(w, a, e) || (Retains(w.store, e) && !Takes(w, a, e.job.id, e.publishedAt))
  {
  }

  lemma {:induction false} RetainsIff(w: World, actions: seq<Action>, w': World, e: RetainedJob)
    requires Inv(w) && Reaches(w, actions, w')
    ensures Retains(w'.store, e) <==>
              PutToStay(w, actions, e) || (Retains(w.store, e) && Stays(w, actions, e.job.id, e.publishedAt))
    decreases |actions|
  {
    if actions != [] {
      RetainsStep(w, actions[0], e);
      StepKeeps(w, actions[0]);
      RetainsIff(Next(w, actions[0]), actions[1..], w', e);
    }
  }

  /**
   In every run the table holds exactly the entries that some installation put there, with the time of that
   installation and the generation current then, and that no later one took out; and the first job, until taken out.
   */
  lemma RetainedIff(job: Job, now: Instant, actions: seq<Action>, w: World, e: RetainedJob)
    requires Reaches(Boot(job, now), actions, w)
    ensures Retains(w.store, e) <==>
              || PutToStay(Boot(job, now), actions, e)
              || (e == RetainedJob(job, now, 1) && Stays(Boot(job, now), actions, job.id, now))
  {
    EveryRunIsSound(job, now, [], Boot(job, now));
    RetainsIff(Boot(job, now), actions, w, e);
  }

  /** How often a round came to publish on another parent than the current one. */
  ghost function TipChanges(w: World, actions: seq<Action>): nat
    decreases |actions|
  {
    if actions == [] || !Enabled(w, actions[0]) then 0
    else
      var a := actions[0];
      TipChanges(Next(w, a), actions[1..])
      + if a.Start? && a.answers.template.Got? && a.answers.template.value.prev != w.current.prev then 1 else 0
  }

  lemma GenerationStep(w: World, a: Action)
    requires Enabled(w, a)
    ensures Next(w, a).store.generation == w.store.generation
              + if a.Start? && a.answers.template.Got? && a.answers.template.value.prev != w.current.prev then 1 else 0
  {
  }

  lemma {:induction false} GenerationCounts(w: World, actions: seq<Action>, w': World)
    requires Reaches(w, actions, w')
    ensures w'.store.generation == w.store.generation + TipChanges(w, actions)
    decreases |actions|
  {
    if actions != [] {
      GenerationStep(w, actions[0]);
      GenerationCounts(Next(w, actions[0]), actions[1..], w');
    }
  }

  /** In every run the generation is one more than the tip changes so far. */
  lemma GenerationIsTipChanges(job: Job, now: Instant, actions: seq<Action>, w: World)
    requires Reaches(Boot(job, now), actions, w)
    ensures w.store.generation == 1 + TipChanges(Boot(job, now), actions)
  {
    GenerationCounts(Boot(job, now), actions, w);
  }

  /**
   What a session is sent, in every run: the fetched job is written exactly if its parent was live and unfenced when
   tested, as long as that parent still had a retained job.
   */
  lemma SendsIff(job: Job, now: Instant, actions: seq<Action>, w: World, sid: nat)
    requires Reaches(Boot(job, now), actions, w) && Enabled(w, Send(sid))
    ensures var x := w.sessions[sid].sending; var y := Next(w, Send(sid)).sessions[sid];
      && (y.sending == Writing(x.id) || y.sending == NotSending)
      && (x.prev in Parents(w.store.jobs) ==> (y.sending == Writing(x.id) <==> x.prev == w.live && !w.fenced))
      && y.sent == w.sessions[sid].sent + (if y.sending == Writing(x.id) then {x.id} else {})
  {
    EveryRunIsSound(job, now, actions, w);
    LiveIsRetained(w);
  }

  /** In these steps no job on a parent other than `p` was installed. */
  ghost predicate OnlyInstalls(w: World, actions: seq<Action>, p: Hash)
    decreases |actions|
  {
    actions == [] || (Enabled(w, actions[0])
      && (actions[0].Swap? ==> w.stage.next.prev == p)
      && OnlyInstalls(Next(w, actions[0]), actions[1..], p))
  }

  lemma {:induction false} FenceHolds(w: World, actions: seq<Action>, w': World)
    requires Inv(w) && w.fenced && Reaches(w, actions, w') && OnlyInstalls(w, actions, w.live)
    ensures w'.live == w.live && w'.fenced && Inv(w')
    decreases |actions|
  {
    if actions != [] {
      var a := actions[0];
      assert !a.Swap?;
      StepKeeps(w, a);
      FenceHolds(Next(w, a), actions[1..], w');
    }
  }

  /**
   Once a parent is fenced, no heartbeat, refresh or retention sweep makes any job on it acceptable again
   until a job on a different parent has been installed.
   */
  lemma FenceIsPermanent(
      job: Job, now: Instant, before: seq<Action>, w: World, after: seq<Action>, w': World, id: JobId)
    requires Reaches(Boot(job, now), before, w) && w.fenced
    requires Reaches(w, after, w') && OnlyInstalls(w, after, w.live)
    requires id in w'.store.jobs && w'.store.jobs[id].job.prev == w.live
    ensures !SubmitValid(w'.store, id)
  {
    EveryRunIsSound(job, now, before, w);
    FenceHolds(w, after, w');
  }

  /** All jobs of the current generation build on the live parent. */
  lemma CurrentGenerationIsLive(job: Job, now: Instant, actions: seq<Action>, w: World, id: JobId)
    requires Reaches(Boot(job, now), actions, w) && id in w.store.jobs
    requires w.store.jobs[id].generation == w.store.generation
    ensures w.store.jobs[id].job.prev == w.live
  {
    EveryRunIsSound(job, now, actions, w);
  }

  /** Delivery lag means no job of the generation that was loaded has been noted as sent to this session. */
  lemma DeliveryLagMeans(
      job: Job, now: Instant, actions: seq<Action>, w: World, looked: Store, sid: nat, id: JobId)
    requires Reaches(Boot(job, now), actions, w) && sid in w.sessions
    ensures (StaleClassOf(w.store.generation, looked, id, w.sessions[sid].lastDelivered).NotifyDeliveryLag?)
            <==> (forall d :: d in w.sessions[sid].delivered ==> d.1 != w.store.generation)
  {
    EveryRunIsSound(job, now, actions, w);
    assert SessionOk(w.store.generation, w.sessions[sid]);
  }

  /**
   Switch lag means the session was sent a job of the generation that was loaded and still submitted an older one,
   whatever happened between the load and the lookup.
   */
  lemma SwitchLagMeans(job: Job, now: Instant, actions: seq<Action>, w: World, looked: Store, sid: nat, id: JobId)
    requires Reaches(Boot(job, now), actions, w) && sid in w.sessions
    requires StaleClassOf(w.store.generation, looked, id, w.sessions[sid].lastDelivered).MinerSwitchLag?
    ensures exists d :: d in w.sessions[sid].delivered && d.0 in w.sessions[sid].sent && d.1 == w.store.generation
    ensures id in looked.jobs && looked.jobs[id].generation < w.store.generation
  {
    EveryRunIsSound(job, now, actions, w);
    assert SessionOk(w.store.generation, w.sessions[sid]);
  }

  // ---------------------------------------------------------------- submits whose reads are interleaved

  /** Generations only grow, and the live parent changes only together with the generation. */
  lemma {:induction false} LaterGenerations(w: World, actions: seq<Action>, w': World)
    requires Inv(w) && Reaches(w, actions, w')
    ensures Inv(w') && w.store.generation <= w'.store.generation
    ensures w'.live == w.live || Below(w, w')
    decreases |actions|
  {
    if actions != [] {
      var v := Next(w, actions[0]);
      StepKeeps(w, actions[0]);
      LaterGenerations(v, actions[1..], w');
      BelowStep(w, actions[0]);
    }
  }

  /** Every job retained in `w` belongs to an older generation than the current one of `w'`. */
  predicate Below(w: World, w': World) {
    forall id :: id in w.store.jobs ==> w.store.jobs[id].generation < w'.store.generation
  }

  lemma BelowStep(w: World, a: Action)
    requires Inv(w) && Enabled(w, a)
    ensures Next(w, a).live == w.live || Below(w, Next(w, a))
    ensures w.store.generation <= Next(w, a).store.generation
    ensures Next(w, a).store.jobs == w.store.jobs || a.Swap?
  {
  }

  lemma LiveIsRetained(w: World)
    requires Inv(w)
    ensures w.live in Parents(w.store.jobs)
  {
    var id := if w.stage.Installed? then w.stage.next.id else w.current.id;
    assert id in w.store.jobs && w.store.jobs[id].job.prev == w.live;
  }

  /**
   A fetched job passes the fence test for the right reason exactly when its parent still has a retained job: with
   the parent retained it is the live one and unfenced; a parent without any job left passes although it is not live.
   */
  lemma FoundForSubmitIff(
      job: Job, now: Instant, before: seq<Action>, fetched: World, between: seq<Action>, tested: World, id: JobId)
    requires Reaches(Boot(job, now), before, fetched) && Reaches(fetched, between, tested)
    requires FoundForSubmit(fetched.store, tested.store, id)
    ensures var parent := fetched.store.jobs[id].job.prev;
      (parent == tested.live && !tested.fenced) <==> (parent in Parents(tested.store.jobs))
  {
    EveryRunIsSound(job, now, before, fetched);
    RunKeeps(fetched, between, tested);
    LiveIsRetained(tested);
  }

  /** Without an installation in between, the fetched job is still in the table. */
  lemma {:induction false} UninstalledStays(w: World, actions: seq<Action>, w': World)
    requires Reaches(w, actions, w') && forall i :: 0 <= i < |actions| ==> !actions[i].Swap?
    ensures w'.store.jobs == w.store.jobs
    decreases |actions|
  {
    if actions != [] {
      assert Next(w, actions[0]).store.jobs == w.store.jobs;
      UninstalledStays(Next(w, actions[0]), actions[1..], w');
    }
  }

  /** In particular, with no installation between the two reads, only a job on the live, unfenced parent passes. */
  lemma FoundForSubmitUndisturbed(
      job: Job, now: Instant, before: seq<Action>, fetched: World, between: seq<Action>, tested: World, id: JobId)
    requires Reaches(Boot(job, now), before, fetched) && Reaches(fetched, between, tested)
    requires forall i :: 0 <= i < |between| ==> !between[i].Swap?
    requires FoundForSubmit(fetched.store, tested.store, id)
    ensures fetched.store.jobs[id].job.prev == tested.live && !tested.fenced
  {
    UninstalledStays(fetched, between, tested);
    assert fetched.store.jobs[id].job.prev in Parents(tested.store.jobs);
    FoundForSubmitIff(job, now, before, fetched, between, tested, id);
  }

  /** The job is gone from the table, or its id stands for a job of the loaded generation or a later one. */
  predicate Outgrown(looked: Store, id: JobId, generation: nat) {
    id in looked.jobs ==> looked.jobs[id].generation >= generation
  }

  /** The step drops the entry of `id` from the table, or puts a job of generation `g` or later in its place. */
  predicate Retires(w: World, a: Action, id: JobId, g: nat)
    requires Enabled(w, a)
  {
    a.Swap? &&
      if w.stage.next.id == id then w.stage.generation >= g
      else id in w.store.jobs && Monus(a.now, w.store.jobs[id].publishedAt) > a.retention
  }

  /** The step puts a job of a generation before `g` under this id. */
  predicate Revives(w: World, a: Action, id: JobId, g: nat)
    requires Enabled(w, a)
  {
    a.Swap? && w.stage.next.id == id && w.stage.generation < g
  }

  ghost predicate RevivedIn(w: World, actions: seq<Action>, id: JobId, g: nat)
    decreases |actions|
  {
    actions != [] && Enabled(w, actions[0])
    && (Revives(w, actions[0], id, g) || RevivedIn(Next(w, actions[0]), actions[1..], id, g))
  }

  /** Some of these steps retires the entry of `id`, and none after it revives it. */
  ghost predicate RetiredIn(w: World, actions: seq<Action>, id: JobId, g: nat)
    decreases |actions|
  {
    actions != [] && Enabled(w, actions[0])
    && var v := Next(w, actions[0]);
    || RetiredIn(v, actions[1..], id, g)
    || (Retires(w, actions[0], id, g) && !RevivedIn(v, actions[1..], id, g))
  }

  lemma OutgrownStep(w: World, a: Action, id: JobId, g: nat)
    requires Enabled(w, a)
    ensures Outgrown(Next(w, a).store, id, g) <==>
              Retires(w, a, id, g) || (Outgrown(w.store, id, g) && !Revives(w, a, id, g))
  {
  }

  /** What the steps of a run make of an entry. */
  lemma {:induction false} OutgrownIff(w: World, actions: seq<Action>, w': World, id: JobId, g: nat)
    requires Reaches(w, actions, w')
    ensures Outgrown(w'.store, id, g) <==>
              RetiredIn(w, actions, id, g) || (Outgrown(w.store, id, g) && !RevivedIn(w, actions, id, g))
    decreases |actions|
  {
    if actions != [] {
      OutgrownStep(w, actions[0], id, g);
      OutgrownIff(Next(w, actions[0]), actions[1..], w', id, g);
    }
  }

  /** A job is installed in the generation current at that moment, so nothing revives an entry after the load. */
  lemma {:induction false} NothingRevives(w: World, actions: seq<Action>, w': World, id: JobId, g: nat)
    requires Inv(w) && Reaches(w, actions, w') && w.store.generation >= g
    ensures !RevivedIn(w, actions, id, g)
    decreases |actions|
  {
    if actions != [] {
      StepKeeps(w, actions[0]);
      BelowStep(w, actions[0]);
      NothingRevives(Next(w, actions[0]), actions[1..], w', id, g);
    }
  }

  /** The lookup for the classification may fall on any table. */
  lemma UnclassifiedAt(
      job: Job, now: Instant, a0: seq<Action>, refetched: World, a1: seq<Action>, retested: World,
      a2: seq<Action>, loaded: World, looked: Store, id: JobId, lastDelivered: nat)
    requires Reaches(Boot(job, now), a0, refetched) && Reaches(refetched, a1, retested) && Reaches(retested, a2, loaded)
    requires FoundInvalidated(refetched.store, retested.store, id)
    ensures var class_ := StaleClassOf(loaded.store.generation, looked, id, lastDelivered);
      var parent := refetched.store.jobs[id].job.prev;
      && (parent == retested.live ==> retested.fenced)
      && (parent != retested.live ==>
            && refetched.store.jobs[id].generation < loaded.store.generation
            && (class_.Unclassified? <==>
                lastDelivered >= loaded.store.generation && Outgrown(looked, id, loaded.store.generation)))
  {
    EveryRunIsSound(job, now, a0, refetched);
    LaterGenerations(refetched, a1, retested);
    LaterGenerations(retested, a2, loaded);
    var parent := refetched.store.jobs[id].job.prev;
    if parent != retested.live {
      OldParentIsOld(refetched, retested, id);
    }
  }

  /**
   A submit on an invalidated parent stays unclassified for two reasons only.  Either that parent is live and fenced.
   Or the session was up to date and, since the job was found, an installation dropped it or took its id for the
   generation that was loaded or a later one, and none put an older job under the id again; after the load none can.
   */
  lemma UnclassifiedIff(
      job: Job, now: Instant, a0: seq<Action>, refetched: World, a1: seq<Action>, retested: World,
      a2: seq<Action>, loaded: World, a3: seq<Action>, looked: World, id: JobId, lastDelivered: nat)
    requires Reaches(Boot(job, now), a0, refetched) && Reaches(refetched, a1, retested)
    requires Reaches(retested, a2, loaded) && Reaches(loaded, a3, looked)
    requires FoundInvalidated(refetched.store, retested.store, id)
    ensures var g := loaded.store.generation; var parent := refetched.store.jobs[id].job.prev;
      && !RevivedIn(loaded, a3, id, g)
      && (parent == retested.live ==> retested.fenced)
      && (parent != retested.live ==>
            (StaleClassOf(g, looked.store, id, lastDelivered).Unclassified? <==>
             lastDelivered >= g && RetiredIn(refetched, a1 + a2 + a3, id, g)))
  {
    var g := loaded.store.generation;
    UnclassifiedAt(job, now, a0, refetched, a1, retested, a2, loaded, looked.store, id, lastDelivered);
    ReachesTrans(refetched, a1, retested, a2, loaded);
    ReachesTrans(refetched, a1 + a2, loaded, a3, looked);
    OutgrownIff(refetched, a1 + a2 + a3, looked, id, g);
    EveryRunIsSound(job, now, a0, refetched);
    RunKeeps(refetched, a1 + a2, loaded);
    NothingRevives(loaded, a3, looked, id, g);
  }

  lemma OldParentIsOld(w: World, w': World, id: JobId)
    requires Inv(w) && id in w.store.jobs && w.store.generation <= w'.store.generation
    requires w'.live == w.live || Below(w, w')
    requires w.store.jobs[id].job.prev != w'.live
    ensures w.store.jobs[id].generation < w'.store.generation
  {
  }

  /** As long as the entry that was found invalidated is still there, unclassified means a fenced live parent. */
  lemma UnclassifiedMeansFenced(
      job: Job, now: Instant, a0: seq<Action>, refetched: World, a1: seq<Action>, retested: World,
      a2: seq<Action>, loaded: World, looked: Store, id: JobId, lastDelivered: nat)
    requires Reaches(Boot(job, now), a0, refetched) && Reaches(refetched, a1, retested) && Reaches(retested, a2, loaded)
    requires FoundInvalidated(refetched.store, retested.store, id)
    requires id in looked.jobs && looked.jobs[id] == refetched.store.jobs[id]
    requires StaleClassOf(loaded.store.generation, looked, id, lastDelivered).Unclassified?
    ensures retested.fenced && refetched.store.jobs[id].job.prev == retested.live
  {
    UnclassifiedAt(job, now, a0, refetched, a1, retested, a2, loaded, looked, id, lastDelivered);
  }

  // ---------------------------------------------------------------- a whole round at once

  predicate Forced(current: Job, observation: Option<TipSentinel.Observation>) {
    observation.Some? && TipSentinel.InvalidatesParent(current.prev, observation.value)
  }

  /** The store and the current job after one undisturbed round of the loop. */
  function Round(s: Store, current: Job, observation: Option<TipSentinel.Observation>, a: Answers,
                 retention: nat, now: Instant): (Store, Job) {
    var forced := Forced(current, observation);
    var s := if forced then InvalidateParent(s, current.prev) else s;
    match Decide(s, current, forced, a)
    case None => (s, current)
    case Some(next) => (Publish(s, next, ReasonFor(current, next), retention, now), next)
  }

  function RoundActions(s: Store, current: Job, observation: Option<TipSentinel.Observation>, a: Answers,
                        retention: nat, now: Instant): seq<Action> {
    var forced := Forced(current, observation);
    var s := if forced then InvalidateParent(s, current.prev) else s;
    (if forced then [Fence(observation.value)] else [])
    + (if Decide(s, current, forced, a).Some? then [Start(forced, a), Swap(retention, now), Broadcast] else [])
  }

  lemma {:induction false} ReachesTrans(u: World, a: seq<Action>, v: World, b: seq<Action>, w: World)
    requires Reaches(u, a, v) && Reaches(v, b, w)
    ensures Reaches(u, a + b, w)
    decreases |a|
  {
    if a == [] {
      assert a + b == b;
    } else {
      ReachesTrans(Next(u, a[0]), a[1..], v, b, w);
      assert (a + b)[1..] == a[1..] + b;
    }
  }

  lemma ReachesOne(w: World, a: Action)
    requires Enabled(w, a)
    ensures Reaches(w, [a], Next(w, a))
  {
    assert Reaches(Next(w, a), [a][1..], Next(w, a));
  }

  lemma RefreshIsARun(w: World, forced: bool, a: Answers, retention: nat, now: Instant) returns (w': World)
    requires w.stage.Idle? && Decide(w.store, w.current, forced, a).Some?
    ensures Reaches(w, [Start(forced, a), Swap(retention, now), Broadcast], w')
    ensures var next := Decide(w.store, w.current, forced, a).value;
      w'.stage.Idle? && w'.current == next
      && w'.store == Publish(w.store, next, ReasonFor(w.current, next), retention, now)
  {
    var w2 := Next(w, Start(forced, a));
    var w3 := Next(w2, Swap(retention, now));
    w' := Next(w3, Broadcast);
    ReachesOne(w, Start(forced, a));
    ReachesOne(w2, Swap(retention, now));
    ReachesOne(w3, Broadcast);
    ReachesTrans(w, [Start(forced, a)], w2, [Swap(retention, now)], w3);
    ReachesTrans(w, [Start(forced, a), Swap(retention, now)], w3, [Broadcast], w');
    assert [Start(forced, a)] + [Swap(retention, now)] == [Start(forced, a), Swap(retention, now)];
    assert [Start(forced, a), Swap(retention, now)] + [Broadcast] == [Start(forced, a), Swap(retention, now), Broadcast];
  }

  /** Started between rounds, a round of the loop is a run of the interleaving model. */
  lemma RoundIsARun(w: World, observation: Option<TipSentinel.Observation>, a: Answers, retention: nat, now: Instant)
    returns (w': World)
    requires w.stage.Idle?
    ensures Reaches(w, RoundActions(w.store, w.current, observation, a, retention, now), w')
    ensures w'.stage.Idle? && (w'.store, w'.current) == Round(w.store, w.current, observation, a, retention, now)
  {
    var forced := Forced(w.current, observation);
    var w1 := w;
    var first: seq<Action> := [];
    if forced {
      w1 := Next(w, Fence(observation.value));
      first := [Fence(observation.value)];
      ReachesOne(w, Fence(observation.value));
    }
    w' := w1;
    var rest: seq<Action> := [];
    if Decide(w1.store, w1.current, forced, a).Some? {
      w' := RefreshIsARun(w1, forced, a, retention, now);
      rest := [Start(forced, a), Swap(retention, now), Broadcast];
    }
    assert Reaches(w1, rest, w');
    ReachesTrans(w, first, w1, rest, w');
    assert RoundActions(w.store, w.current, observation, a, retention, now) == first + rest;
  }
}
