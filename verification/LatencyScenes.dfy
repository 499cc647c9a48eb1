/**
 Runs of the replacement-latency telemetry that end where one might not expect.

 Each is built from short runs that are possible in every world of a simple shape.  All steps happen at time 0, when
 no event can have timed out.
 */
module LatencyScenes {
  import opened Prelude
  import opened LatencyModel
  import opened LatencyInvariant
  import opened LatencyRuns
  import opened LatencyEntries

  // ---------------------------------------------------------------- putting runs together

  lemma {:induction false} ReachesTrans(w: World, a: seq<Action>, v: World, b: seq<Action>, u: World)
    requires w.tel.enabled && Reaches(w, a, v) && v.tel.enabled && Reaches(v, b, u)
    ensures Reaches(w, a + b, u)
    decreases |a|
  {
    if a == [] {
      assert a + b == b;
    } else {
      assert (a + b)[1..] == a[1..] + b;
      ReachesTrans(Next(w, a[0]), a[1..], v, b, u);
    }
  }

  /** Some run leads from `w` to `v`. */
  ghost predicate Leads(w: World, v: World) {
    w.tel.enabled && v.tel.enabled && exists actions :: Reaches(w, actions, v)
  }

  lemma LeadsTrans(w: World, v: World, u: World)
    requires Leads(w, v) && Leads(v, u)
    ensures Leads(w, u)
  {
    var a :| Reaches(w, a, v);
    var b :| Reaches(v, b, u);
    ReachesTrans(w, a, v, b, u);
  }

  lemma OneStep(w: World, a: Action, v: World)
    requires w.tel.enabled && v.tel.enabled && Enabled(w, a) && Next(w, a) == v
    ensures Leads(w, v)
  {
    assert [a][1..] == [];
    assert Reaches(v, [], v);
    assert Reaches(w, [a], v);
  }

  lemma NothingExpires(s: State)
    ensures Expired(s, 0) == {} && Enumerates([], Expired(s, 0)) && ExpireAll(s, [], 0) == s
  {
  }

  // ---------------------------------------------------------------- pieces of runs

  function JoinedCounters(c: Counters): Counters {
    CountUntracked(LockFailed(c.(activeTotal := c.activeTotal + 1), WouldBlock))
  }

  /** A session has joined while somebody else had the lock. */
  function Joined(w: World, sid: SessionId): World {
    w.(tel := w.tel.(counters := JoinedCounters(w.tel.counters)), phases := w.phases[sid := Untracked])
  }

  lemma ConnectAndCount(w: World, sid: SessionId)
    requires w.tel.enabled && sid !in w.phases
    ensures Leads(w, w.(tel := CountJoin(w.tel), phases := w.phases[sid := Joining]))
  {
    var a := w.(phases := w.phases[sid := Connected]);
    var b := w.(tel := CountJoin(w.tel), phases := w.phases[sid := Joining]);
    assert a.phases[sid := Joining] == b.phases;
    OneStep(w, Connect(sid), a);
    OneStep(a, JoinBegin(sid), b);
    LeadsTrans(w, a, b);
  }

  lemma Join(w: World, sid: SessionId)
    requires w.tel.enabled && sid !in w.phases
    ensures Leads(w, Joined(w, sid))
  {
    var b := w.(tel := CountJoin(w.tel), phases := w.phases[sid := Joining]);
    ConnectAndCount(w, sid);
    assert b.phases[sid := Untracked] == Joined(w, sid).phases;
    OneStep(b, JoinEnd(sid, WouldBlock), Joined(w, sid));
    LeadsTrans(w, b, Joined(w, sid));
  }

  /** A session has joined and got onto the roster. */
  function Entered(w: World, sid: SessionId): World {
    w.(tel := CountJoin(w.tel).(active := w.tel.active + {sid}), phases := w.phases[sid := Tracked])
  }

  lemma Enter(w: World, sid: SessionId)
    requires w.tel.enabled && w.publishing.Idle? && sid !in w.phases && sid !in w.tel.active
    requires |w.tel.active| < MAX_TRACKED_SESSIONS
    ensures Leads(w, Entered(w, sid))
  {
    var b := w.(tel := CountJoin(w.tel), phases := w.phases[sid := Joining]);
    ConnectAndCount(w, sid);
    assert b.phases[sid := Tracked] == Entered(w, sid).phases;
    OneStep(b, JoinEnd(sid, Acquired), Entered(w, sid));
    LeadsTrans(w, b, Entered(w, sid));
  }

  function ReadyEvent(id: EventId, key: Key): Event {
    NewEvent(id, PrimaryAlreadyReady, key, 0).(aReadyAt := Some(0))
  }

  function WithEvent(w: World, key: Key, e: Event): World {
    w.(tel := w.tel.(nextId := w.tel.nextId + 1, dedupe := w.tel.dedupe[key := w.tel.nextId],
                     events := w.tel.events[w.tel.nextId := e]))
  }

  /** A new upstream tip was observed and its template is ready. */
  function WithReady(w: World, key: Key): World {
    WithEvent(w, key, ReadyEvent(w.tel.nextId, key))
  }

  lemma BecomeReady(w: World, key: Key)
    requires w.tel.enabled && w.publishing.Idle? && |key| <= MAX_CORRELATION_KEY_BYTES
    requires key !in w.tel.dedupe && |w.tel.events| < MAX_IN_FLIGHT_EVENTS
    ensures Leads(w, WithReady(w, key))
  {
    var id := w.tel.nextId;
    var v := WithEvent(w, key, NewEvent(id, PrimaryAlreadyReady, key, 0));
    NothingExpires(w.tel);
    NothingExpires(v.tel);
    ObserveNew(w.tel, key, PrimaryAlreadyReady, 0);
    assert v.tel.events[id := ReadyEvent(id, key)] == WithReady(w, key).tel.events;
    OneStep(w, ObserveUpstream(Acquired, key, PrimaryAlreadyReady, 0, []), v);
    OneStep(v, Ready(Acquired, id, 0, []), WithReady(w, key));
    LeadsTrans(w, v, WithReady(w, key));
  }

  /** A publication has the lock and has loaded the active total. */
  function AtTotal(w: World, id: EventId, key: Key): World {
    w.(publishing := TotalRead(id, key, 0, w.tel.counters.activeTotal, w.phases))
  }

  lemma BeginPublication(w: World, id: EventId, key: Key)
    requires w.tel.enabled && w.publishing.Idle? && Publishes(w.tel, id, key, 0)
    ensures Leads(w, AtTotal(w, id, key))
  {
    var v := w.(publishing := Begun(id, key, 0));
    NothingExpires(w.tel);
    OneStep(w, Publish(Acquired, id, key, 0, []), v);
    OneStep(v, LoadTotal, AtTotal(w, id, key));
    LeadsTrans(w, v, AtTotal(w, id, key));
  }

  function AtUntracked(w: World): World
    requires w.publishing.TotalRead?
  {
    var p := w.publishing;
    w.(publishing := UntrackedRead(p.id, p.key, p.now, p.total, p.first, w.tel.counters.untrackedActive, w.phases))
  }

  lemma ContinuePublication(w: World)
    requires w.tel.enabled && w.publishing.TotalRead?
    ensures Leads(w, AtUntracked(w))
  {
    OneStep(w, LoadUntracked, AtUntracked(w));
  }

  lemma FinishEmits(s: State, id: EventId, status: Status, reason: Reason, now: Instant)
    requires id in s.events
    ensures var r := Finish(s, id, status, reason, now);
      r.enabled == s.enabled && r.emitted == s.emitted + [Summarize(s.events[id], status, reason, now, s.counters)]
  {
    var m := Summarize(s.events[id], status, reason, now, s.counters);
    FinishOnly(s, id, status, reason, now);
    LogFrame(Recorded(s, id, m), m, now);
  }

  lemma NobodyWaits(s: State, id: EventId, key: Key, l: Loads)
    requires id in s.events && s.active == {} && l.total == 0 && l.stale == 0
    ensures var e := PublishedEvent(s, s.events[id], key, 0, l); var r := PublishLoaded(s, id, key, 0, l);
      r.enabled == s.enabled && r.emitted == s.emitted + [Summarize(e, Complete, ZeroSessions, 0, s.counters)]
  {
    var e := PublishedEvent(s, s.events[id], key, 0, l);
    FinishEmits(s.(events := s.events[id := e], published := s.published[key := id]), id, Complete, ZeroSessions, 0);
  }

  lemma IsDegraded(s: State, id: EventId, key: Key, l: Loads)
    requires id in s.events && RosterDegraded(s.active, l)
    ensures var e := DegradedEvent(s, s.events[id], key, 0, l); var reason := DegradedReason(s.active, l);
      var r := PublishLoaded(s, id, key, 0, l);
      r.enabled == s.enabled && r.emitted == s.emitted + [Summarize(e, TrackingGap, reason, 0, s.counters)]
  {
    var e := DegradedEvent(s, s.events[id], key, 0, l);
    FinishEmits(s.(events := s.events[id := e]), id, TrackingGap, DegradedReason(s.active, l), 0);
  }

  lemma EndPublication(w: World, v: World)
    requires Leads(w, v) && v.publishing.UntrackedRead? && EndPublish(v).tel.enabled
    ensures Leads(w, EndPublish(v))
  {
    OneStep(v, FinishPublish, EndPublish(v));
    LeadsTrans(w, v, EndPublish(v));
  }

  // ---------------------------------------------------------------- worlds to start from

  /** Event `id` is ready to be published and nothing was published before. */
  ghost predicate ReadyFor(w: World, id: EventId) {
    && w.tel.enabled && w.publishing.Idle? && Publishes(w.tel, id, "job", 0)
    && w.tel.emitted == [] && w.h == History(map[], [])
  }

  predicate Counts(c: Counters, total: nat, untracked: nat, stale: nat) {
    c.activeTotal == total && c.untrackedActive == untracked && c.staleTracked == stale
  }

  predicate NobodyIn(w: World) {
    w.tel.active == {} && w.phases == map[] && Counts(w.tel.counters, 0, 0, 0)
  }

  /** Session 1 is tracked, and nobody else is connected. */
  predicate OneIn(w: World) {
    w.tel.active == {1} && w.phases == map[1 := Tracked] && Counts(w.tel.counters, 1, 0, 0)
  }

  lemma AloneIsReached() returns (w: World)
    ensures Leads(Start(false, 0), w) && ReadyFor(w, 1) && NobodyIn(w)
    ensures w.tel.nextId == 2 && w.tel.events == map[1 := ReadyEvent(1, "a")] && w.tel.dedupe == map["a" := 1]
    ensures w.tel.published == map[]
  {
    BecomeReady(Start(false, 0), "a");
    w := WithReady(Start(false, 0), "a");
  }

  lemma TogetherIsReached() returns (w: World)
    ensures Leads(Start(false, 0), w) && ReadyFor(w, 1) && OneIn(w)
    ensures w.tel.nextId == 2 && w.tel.events == map[1 := ReadyEvent(1, "a")] && w.tel.dedupe == map["a" := 1]
    ensures w.tel.published == map[]
  {
    var v := AloneIsReached();
    w := Entered(v, 1);
    Enter(v, 1);
    LeadsTrans(Start(false, 0), v, w);
  }

  /** What is known of a world that a publication ended in. */
  ghost predicate Ended(w: World, id: EventId, p: Publication, m: Summary) {
    w.tel.enabled && id in w.h.pubs && w.h.pubs[id] == p && w.tel.emitted == [m]
  }

  /** A `complete` summary without a target that reports one session skipped. */
  predicate Exceeds(m: Summary) {
    m.status.Complete? && m.reason.ZeroSessions? && m.targetSessions == 0 && m.notifySkipped == 1
  }

  // ---------------------------------------------------------------- a session joins between two loads

  /** A publication with session `sid` joining between its first two loads, before the last one. */
  function BeforeEnd(w: World, id: EventId, key: Key, sid: SessionId): World {
    AtUntracked(Joined(AtTotal(w, id, key), sid))
  }

  lemma JoinBetween(w: World, id: EventId, key: Key, sid: SessionId)
    requires w.tel.enabled && w.publishing.Idle? && Publishes(w.tel, id, key, 0) && sid !in w.phases
    ensures Leads(w, BeforeEnd(w, id, key, sid))
  {
    var a := AtTotal(w, id, key);
    var b := Joined(a, sid);
    BeginPublication(w, id, key);
    Join(a, sid);
    LeadsTrans(w, a, b);
    ContinuePublication(b);
    LeadsTrans(w, b, AtUntracked(b));
  }

  /** With nobody connected before, the end of such a publication reports one skipped session and no target. */
  lemma JoinedAlone(w: World, id: EventId)
    requires ReadyFor(w, id) && NobodyIn(w)
    ensures var r := EndPublish(BeforeEnd(w, id, "job", 1)); var after := map[1 := Untracked];
      && |r.tel.emitted| == 1 && Exceeds(r.tel.emitted[0])
      && Ended(r, id, Publication("job", map[], after, after, Loads(0, 1, 0), {}, 0), r.tel.emitted[0])
  {
    NobodyWaits(BeforeEnd(w, id, "job", 1).tel, id, "job", Loads(0, 1, 0));
  }

  /**
   A session that joins between the first two loads yields a `complete` summary with one skipped session and no
   target, although nobody is leaving at any moment.
   */
  lemma JoinExceeds() returns (w: World)
    ensures Leads(Start(false, 0), w)
    ensures |w.tel.emitted| == 1 && Exceeds(w.tel.emitted[0])
    ensures var after := map[1 := Untracked];
      Ended(w, 1, Publication("job", map[], after, after, Loads(0, 1, 0), {}, 0), w.tel.emitted[0])
  {
    var v := AloneIsReached();
    var u := BeforeEnd(v, 1, "job", 1);
    w := EndPublish(u);
    JoinBetween(v, 1, "job", 1);
    LeadsTrans(Start(false, 0), v, u);
    JoinedAlone(v, 1);
    EndPublication(Start(false, 0), u);
  }

  lemma JoinedTogether(w: World, id: EventId)
    requires ReadyFor(w, id) && OneIn(w)
    ensures var r := EndPublish(BeforeEnd(w, id, "job", 2));
      var first, after := map[1 := Tracked], map[1 := Tracked, 2 := Untracked];
      && |r.tel.emitted| == 1 && r.tel.emitted[0].reason.SessionRosterInconsistent?
      && Ended(r, id, Publication("job", first, after, after, Loads(1, 1, 0), {1}, 0), r.tel.emitted[0])
  {
    IsDegraded(BeforeEnd(w, id, "job", 2).tel, id, "job", Loads(1, 1, 0));
  }

  /** The same join beside a tracked session is reported as an inconsistent roster with nobody half way at any load. */
  lemma JoinIsInconsistent() returns (w: World)
    ensures Leads(Start(false, 0), w)
    ensures |w.tel.emitted| == 1 && w.tel.emitted[0].reason.SessionRosterInconsistent?
    ensures var first, after := map[1 := Tracked], map[1 := Tracked, 2 := Untracked];
      Ended(w, 1, Publication("job", first, after, after, Loads(1, 1, 0), {1}, 0), w.tel.emitted[0])
  {
    var v := TogetherIsReached();
    var u := BeforeEnd(v, 1, "job", 2);
    w := EndPublish(u);
    JoinBetween(v, 1, "job", 2);
    LeadsTrans(Start(false, 0), v, u);
    JoinedTogether(v, 1);
    EndPublication(Start(false, 0), u);
  }

  // ---------------------------------------------------------------- a session leaves meanwhile

  /** Session 1, which joined untracked, is half way out. */
  function HalfOut(w: World): World {
    var v := Joined(w, 1);
    v.(tel := CountLeave(v.tel), phases := v.phases[1 := LeavingUntracked])
  }

  lemma LeaveHalf(w: World)
    requires w.tel.enabled && 1 !in w.phases
    ensures Leads(w, HalfOut(w))
  {
    Join(w, 1);
    OneStep(Joined(w, 1), LeaveBegin(1), HalfOut(w));
    LeadsTrans(w, Joined(w, 1), HalfOut(w));
  }

  lemma PublishUndisturbed(w: World, id: EventId, key: Key)
    requires w.tel.enabled && w.publishing.Idle? && Publishes(w.tel, id, key, 0)
    ensures Leads(w, AtUntracked(AtTotal(w, id, key)))
  {
    BeginPublication(w, id, key);
    ContinuePublication(AtTotal(w, id, key));
    LeadsTrans(w, AtTotal(w, id, key), AtUntracked(AtTotal(w, id, key)));
  }

  lemma LeftAlone(w: World, id: EventId)
    requires ReadyFor(w, id) && w.tel.active == {} && Counts(w.tel.counters, 0, 1, 0)
    ensures var r := EndPublish(AtUntracked(AtTotal(w, id, "job")));
      && |r.tel.emitted| == 1 && Exceeds(r.tel.emitted[0])
      && Ended(r, id, Publication("job", w.phases, w.phases, w.phases, Loads(0, 1, 0), {}, 0), r.tel.emitted[0])
  {
    NobodyWaits(AtUntracked(AtTotal(w, id, "job")).tel, id, "job", Loads(0, 1, 0));
  }

  /** The same excess comes from an undisturbed publication while an untracked session is half way out. */
  lemma LeaveExceeds() returns (w: World)
    ensures Leads(Start(false, 0), w)
    ensures |w.tel.emitted| == 1 && Exceeds(w.tel.emitted[0])
    ensures var phases := map[1 := LeavingUntracked];
      Ended(w, 1, Publication("job", phases, phases, phases, Loads(0, 1, 0), {}, 0), w.tel.emitted[0])
  {
    var v := AloneIsReached();
    LeaveHalf(v);
    var u := HalfOut(v);
    var t := AtUntracked(AtTotal(u, 1, "job"));
    w := EndPublish(t);
    LeadsTrans(Start(false, 0), v, u);
    PublishUndisturbed(u, 1, "job");
    LeadsTrans(Start(false, 0), u, t);
    assert u.phases == map[1 := LeavingUntracked];
    LeftAlone(u, 1);
    EndPublication(Start(false, 0), t);
  }

  // ---------------------------------------------------------------- missed at the last load

  /** The publication waits for session 1; session 2 joined after the untracked counter was loaded. */
  function Waiting(w: World, id: EventId): World {
    EndPublish(Joined(AtUntracked(AtTotal(w, id, "job")), 2))
  }

  lemma SomebodyWaits(w: World, id: EventId)
    requires ReadyFor(w, id) && OneIn(w)
    ensures var r := Waiting(w, id); var first, last := map[1 := Tracked], map[1 := Tracked, 2 := Untracked];
      && r.tel.enabled && r.publishing.Idle? && r.tel.emitted == [] && r.phases == last && r.tel.active == {1}
      && r.tel.published == w.tel.published["job" := id] && r.h.notices == []
      && r.tel.events == w.tel.events[id := PublishedEvent(w.tel, w.tel.events[id], "job", 0, Loads(1, 0, 0))]
      && r.h.pubs == map[id := Publication("job", first, first, last, Loads(1, 0, 0), {1}, 0)]
  {
    var v := Joined(AtUntracked(AtTotal(w, id, "job")), 2);
    assert !RosterDegraded(v.tel.active, Loads(1, 0, 0));
  }

  lemma WaitingIsReached(w: World, id: EventId)
    requires ReadyFor(w, id) && OneIn(w)
    ensures Leads(w, Waiting(w, id))
  {
    var v := AtUntracked(AtTotal(w, id, "job"));
    PublishUndisturbed(w, id, "job");
    Join(v, 2);
    LeadsTrans(w, v, Joined(v, 2));
    SomebodyWaits(w, id);
    EndPublication(w, Joined(v, 2));
  }

  /** Session 1 is told of the job, which ends the event. */
  function ToldAction(): Action {
    Notify(1, "job", Success, Acquired, 0, [], [])
  }

  /** One event waits for session 1 alone. */
  ghost predicate Untold(w: World, id: EventId) {
    && w.tel.enabled && w.publishing.Idle? && InPhase(w, 1, Tracked) && w.tel.emitted == []
    && w.tel.published == map["job" := id] && w.tel.events.Keys == {id}
    && var e := w.tel.events[id];
    && e.pending == {1} && e.targetSessions == 1 && e.trackingGap == 0
    && e.notifySuccess == 0 && e.notifyFailed == 0 && e.notifySkipped == 0
  }

  lemma Told(w: World, id: EventId)
    requires Untold(w, id)
    ensures Enabled(w, ToldAction())
    ensures var r := Next(w, ToldAction());
      && r.tel.enabled && r.h.pubs == w.h.pubs && r.phases == w.phases
      && |r.tel.emitted| == 1 && r.tel.emitted[0].id == w.tel.events[id].id
      && r.tel.emitted[0].status.Complete? && r.tel.emitted[0].reason.AllNotified?
      && r.tel.emitted[0].targetSessions == 1
  {
    NothingExpires(w.tel);
    assert DropPending(w.tel.events, 1, Some(id)) == w.tel.events;
    assert Emptied(w.tel.events, 1, Some(id)) == {};
    var e := Deliver(w.tel.events[id], 1, Success);
    assert e.pending == {};
    FinishEmits(w.tel.(events := w.tel.events[id := e]), id, Complete, AllNotified, 0);
  }

  lemma TellLast(w: World, id: EventId) returns (r: World)
    requires Untold(w, id)
    ensures Leads(w, r) && r.h.pubs == w.h.pubs
    ensures |r.tel.emitted| == 1 && r.tel.emitted[0].id == w.tel.events[id].id
    ensures var m := r.tel.emitted[0]; m.status.Complete? && m.reason.AllNotified? && m.targetSessions == 1
  {
    Told(w, id);
    r := Next(w, ToldAction());
    OneStep(w, ToldAction(), r);
  }

  lemma UntoldIsReached() returns (w: World)
    ensures Leads(Start(false, 0), w) && Untold(w, 1) && w.tel.events[1].id == 1
    ensures 1 in w.h.pubs && Live(w.h.pubs[1].last) == {1, 2}
  {
    var v := TogetherIsReached();
    w := Waiting(v, 1);
    SomebodyWaits(v, 1);
    WaitingIsReached(v, 1);
    LeadsTrans(Start(false, 0), v, w);
  }

  /**
   At the last load a summary may already be out of date: here everybody the publication knew of was notified, and
   session 2, live since before the last load, was not.
   */
  lemma MissedAtLastLoad() returns (w: World)
    ensures Leads(Start(false, 0), w)
    ensures |w.tel.emitted| == 1 && w.tel.emitted[0].id == 1
    ensures w.tel.emitted[0].status.Complete? && w.tel.emitted[0].reason.AllNotified? && w.tel.emitted[0].targetSessions == 1
    ensures 1 in w.h.pubs && Live(w.h.pubs[1].last) == {1, 2}
  {
    var u := UntoldIsReached();
    w := TellLast(u, 1);
    LeadsTrans(Start(false, 0), u, w);
  }

  // ---------------------------------------------------------------- two events under one job key

  function Published(w: World, id: EventId): World {
    EndPublish(AtUntracked(AtTotal(w, id, "job")))
  }

  lemma PublishedTo(w: World, id: EventId)
    requires w.tel.enabled && w.publishing.Idle? && Publishes(w.tel, id, "job", 0) && OneIn(w)
    ensures Leads(w, Published(w, id))
    ensures var r := Published(w, id); var e := PublishedEvent(w.tel, w.tel.events[id], "job", 0, Loads(1, 0, 0));
      r.tel == w.tel.(events := w.tel.events[id := e], published := w.tel.published["job" := id])
      && r.publishing.Idle? && r.phases == w.phases
  {
    PublishUndisturbed(w, id, "job");
    EndPublication(w, AtUntracked(AtTotal(w, id, "job")));
  }

  /** Publishing two live events under one key leaves the first published, waiting, and out of reach. */
  lemma EntryIsLost() returns (w: World)
    ensures Leads(Start(false, 0), w)
    ensures 1 in w.tel.events && w.tel.events[1].publishedAt.Some? && w.tel.events[1].pending == {1}
    ensures !Found(w.tel.published, 1, w.tel.events[1])
    ensures !EntriesComplete(w.tel)
  {
    var v := TogetherIsReached();
    var a := Published(v, 1);
    PublishedTo(v, 1);
    var b := WithReady(a, "b");
    BecomeReady(a, "b");
    w := Published(b, 2);
    PublishedTo(b, 2);
    LeadsTrans(Start(false, 0), v, a);
    LeadsTrans(Start(false, 0), a, b);
    LeadsTrans(Start(false, 0), b, w);
  }
}
