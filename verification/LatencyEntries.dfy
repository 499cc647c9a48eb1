/**
 When every published live event can be found through `published_jobs`.

 Finishing an event removes the entry under its job key even if another live event owns that entry, so the
 lookup is complete only as long as no two live events share a job key.
 */
module LatencyEntries {
  import opened Prelude
  import opened LatencyModel
  import opened LatencyInvariant
  import opened LatencyRuns
  import opened LatencyTheorems

  predicate Found(published: map<Key, EventId>, id: EventId, e: Event) {
    e.replacementKey.Some? && e.replacementKey.value in published && published[e.replacementKey.value] == id
  }

  /** Every published live event other than `but` has its entry, and unpublished events carry no key. */
  predicate EntriesCompleteBut(events: map<EventId, Event>, published: map<Key, EventId>, but: set<EventId>) {
    forall id :: id in events && id !in but ==>
      if events[id].publishedAt.Some? then Found(published, id, events[id]) else events[id].replacementKey.None?
  }

  predicate EntriesComplete(s: State) {
    EntriesCompleteBut(s.events, s.published, {})
  }

  predicate SharesKey(events: map<EventId, Event>, id: EventId, key: Key) {
    exists x :: x in events && x != id && Carries(events, x, key)
  }

  lemma ForgetKeepsEntries(s: State, id: EventId)
    requires id in s.events && EntriesCompleteBut(s.events, s.published, {id})
    requires s.events[id].replacementKey.Some? ==> !SharesKey(s.events, id, s.events[id].replacementKey.value)
    ensures EntriesComplete(Forget(s, id))
  {
    var r := Forget(s, id);
    forall x | x in r.events && r.events[x].publishedAt.Some?
      ensures Found(r.published, x, r.events[x])
    {
      assert Found(s.published, x, s.events[x]);
      if s.events[id].replacementKey.Some? {
        assert !Carries(s.events, x, s.events[id].replacementKey.value);
      }
    }
  }

  lemma FinishKeepsEntries(s: State, id: EventId, status: Status, reason: Reason, now: Instant)
    requires EntriesCompleteBut(s.events, s.published, {id})
    requires id in s.events && s.events[id].replacementKey.Some? ==>
               !SharesKey(s.events, id, s.events[id].replacementKey.value)
    ensures EntriesComplete(Finish(s, id, status, reason, now))
  {
    if id in s.events {
      FinishOnly(s, id, status, reason, now);
      ForgetKeepsEntries(s, id);
    }
  }

  lemma CompleteEntriesShareNoKey(s: State, id: EventId)
    requires EntriesComplete(s) && id in s.events && s.events[id].replacementKey.Some?
    ensures !SharesKey(s.events, id, s.events[id].replacementKey.value)
  {
    assert Found(s.published, id, s.events[id]);
    forall x | x in s.events && x != id && s.events[x].publishedAt.Some?
      ensures !Carries(s.events, x, s.events[id].replacementKey.value)
    {
      assert Found(s.published, x, s.events[x]);
    }
  }

  lemma FinishComplete(s: State, id: EventId, status: Status, reason: Reason, now: Instant)
    requires EntriesComplete(s)
    ensures EntriesComplete(Finish(s, id, status, reason, now))
  {
    if id in s.events && s.events[id].replacementKey.Some? {
      CompleteEntriesShareNoKey(s, id);
    }
    FinishKeepsEntries(s, id, status, reason, now);
  }

  lemma {:induction false} ExpireAllComplete(s: State, ids: seq<EventId>, now: Instant)
    requires EntriesComplete(s)
    ensures EntriesComplete(ExpireAll(s, ids, now))
  {
    if ids != [] {
      var n := |ids| - 1;
      ExpireAllComplete(s, ids[..n], now);
      FinishComplete(ExpireAll(s, ids[..n], now), ids[n], Timeout, StageTimeout, now);
    }
  }

  lemma FinishFanoutComplete(s: State, id: EventId, reason: Reason, now: Instant)
    requires EntriesComplete(s)
    ensures EntriesComplete(FinishFanout(s, id, reason, now))
  {
    FinishComplete(s, id, TrackingGap, UntrackedSessions, now);
    FinishComplete(s, id, LatencyModel.Complete, reason, now);
  }

  lemma {:induction false} FinishFanoutAllComplete(s: State, ids: seq<EventId>, reason: Reason, now: Instant)
    requires EntriesComplete(s)
    ensures EntriesComplete(FinishFanoutAll(s, ids, reason, now))
  {
    if ids != [] {
      var n := |ids| - 1;
      FinishFanoutAllComplete(s, ids[..n], reason, now);
      FinishFanoutComplete(FinishFanoutAll(s, ids[..n], reason, now), ids[n], reason, now);
    }
  }

  /** Dropping or crediting a session leaves keys, entries and publication times alone. */
  lemma SameKeysComplete(s: State, r: State)
    requires EntriesComplete(s) && r.published == s.published
    requires forall id :: id in r.events ==>
               && id in s.events && r.events[id].replacementKey == s.events[id].replacementKey
               && r.events[id].publishedAt == s.events[id].publishedAt
    ensures EntriesComplete(r)
  {
    forall id | id in r.events.Keys
      ensures if r.events[id].publishedAt.Some? then Found(r.published, id, r.events[id])
              else r.events[id].replacementKey.None?
    {
      assert id in s.events;
    }
  }

  /** Publishing keeps every published event findable exactly when no other live event carries the key. */
  lemma PublishCompleteIff(s: State, id: EventId, key: Key, now: Instant, l: Loads)
    requires EntriesComplete(s) && IndexesOk(s) && Publishes(s, id, key, now)
    ensures EntriesComplete(PublishLoaded(s, id, key, now, l)) <==> !SharesKey(s.events, id, key)
  {
    if SharesKey(s.events, id, key) {
      var x :| x in s.events && x != id && Carries(s.events, x, key);
      PublishHides(s, id, key, now, l, x);
    } else {
      PublishComplete(s, id, key, now, l);
    }
  }

  lemma PublishHides(s: State, id: EventId, key: Key, now: Instant, l: Loads, x: EventId)
    requires Publishes(s, id, key, now) && x != id && Carries(s.events, x, key)
    ensures !EntriesComplete(PublishLoaded(s, id, key, now, l))
  {
    var degraded := RosterDegraded(s.active, l);
    var e := if degraded then DegradedEvent(s, s.events[id], key, now, l) else PublishedEvent(s, s.events[id], key, now, l);
    var mid := s.(events := s.events[id := e], published := if degraded then s.published else s.published[key := id]);
    FinishOnly(mid, id, TrackingGap, if degraded then DegradedReason(s.active, l) else UntrackedSessions, now);
    FinishOnly(mid, id, LatencyModel.Complete, ZeroSessions, now);
    var r := PublishLoaded(s, id, key, now, l);
    assert r.events[x] == s.events[x];
    assert key !in r.published || r.published[key] == id;
  }

  lemma PublishComplete(s: State, id: EventId, key: Key, now: Instant, l: Loads)
    requires EntriesComplete(s) && IndexesOk(s) && Publishes(s, id, key, now) && !SharesKey(s.events, id, key)
    ensures EntriesComplete(PublishLoaded(s, id, key, now, l))
  {
    var degraded := RosterDegraded(s.active, l);
    var e := if degraded then DegradedEvent(s, s.events[id], key, now, l) else PublishedEvent(s, s.events[id], key, now, l);
    var mid := s.(events := s.events[id := e], published := if degraded then s.published else s.published[key := id]);
    UnsharedStays(s.events, mid.events, id, key);
    OtherEntriesStay(s, mid, id, key);
    if degraded {
      FinishKeepsEntries(mid, id, TrackingGap, DegradedReason(s.active, l), now);
    } else if s.active == {} {
      FinishKeepsEntries(mid, id, TrackingGap, UntrackedSessions, now);
      FinishKeepsEntries(mid, id, LatencyModel.Complete, ZeroSessions, now);
    }
  }

  lemma UnsharedStays(events: map<EventId, Event>, after: map<EventId, Event>, id: EventId, key: Key)
    requires !SharesKey(events, id, key)
    requires forall x :: x in after && x != id ==> x in events && after[x] == events[x]
    ensures !SharesKey(after, id, key)
  {
    forall x | x in after && x != id
      ensures !Carries(after, x, key)
    {
      assert !Carries(events, x, key);
    }
  }

  lemma OtherEntriesStay(s: State, mid: State, id: EventId, key: Key)
    requires EntriesComplete(s) && id in s.events && !SharesKey(s.events, id, key)
    requires mid.events.Keys == s.events.Keys
    requires forall x :: x in s.events && x != id ==> mid.events[x] == s.events[x]
    requires mid.published == s.published || mid.published == s.published[key := id]
    ensures EntriesCompleteBut(mid.events, mid.published, {id})
  {
    forall x | x in mid.events.Keys && x != id && mid.events[x].publishedAt.Some?
      ensures Found(mid.published, x, mid.events[x])
    {
      assert Found(s.published, x, s.events[x]);
      assert !Carries(s.events, x, key);
    }
  }

  // ---------------------------------------------------------------- runs

  /** No step publishes under a job key that another live event carries. */
  ghost predicate FreshKey(w: World, a: Action) {
    a.FinishPublish? && w.publishing.UntrackedRead? ==> !SharesKey(w.tel.events, w.publishing.id, w.publishing.key)
  }

  ghost predicate ReachesFresh(w: World, actions: seq<Action>, w': World)
    requires w.tel.enabled
    decreases |actions|
  {
    if actions == [] then w' == w
    else
      && Enabled(w, actions[0]) && FreshKey(w, actions[0])
      && Next(w, actions[0]).tel.enabled && ReachesFresh(Next(w, actions[0]), actions[1..], w')
  }

  lemma RecordFanoutComplete(
      s: State, sid: SessionId, key: Key, outcome: FanoutOutcome, now: Instant, finished: seq<EventId>)
    requires EntriesComplete(s)
    ensures EntriesComplete(RecordFanoutLocked(s, sid, key, outcome, now, finished))
  {
    if key in s.published {
      var id := s.published[key];
      var s1 := s.(events := DropPending(s.events, sid, Some(id)));
      SameKeysComplete(s, s1);
      FinishFanoutAllComplete(s1, finished, Superseded, now);
      var s2 := SupersedeOthers(s, id, sid, now, finished);
      if id in s2.events && sid in s2.events[id].pending {
        var e := Deliver(s2.events[id], sid, outcome);
        SameKeysComplete(s2, s2.(events := s2.events[id := e]));
        FinishFanoutComplete(s2.(events := s2.events[id := e]), id, FanoutReason(e), now);
      }
    }
  }

  lemma ReleaseComplete(s: State, sid: SessionId, now: Instant, finished: seq<EventId>)
    requires EntriesComplete(s)
    ensures EntriesComplete(FinishFanoutAll(s.(events := DropPending(s.events, sid, None)), finished, SessionDisconnected, now))
  {
    SameKeysComplete(s, s.(events := DropPending(s.events, sid, None)));
    FinishFanoutAllComplete(s.(events := DropPending(s.events, sid, None)), finished, SessionDisconnected, now);
  }

  lemma LeaveRosterComplete(s: State, lock: Lock, sid: SessionId, now: Instant, finished: seq<EventId>)
    requires EntriesComplete(s)
    ensures EntriesComplete(LeaveRoster(s, lock, sid, now, finished))
  {
    if lock.Acquired? {
      if sid in s.active {
        ReleaseComplete(s.(active := s.active - {sid}), sid, now, finished);
      } else {
        var c := s.counters.(rosterCleanupFailures := s.counters.rosterCleanupFailures + 1);
        ReleaseComplete(s.(counters := c), sid, now, finished);
      }
    }
  }

  lemma ObserveComplete(s: State, key: Key, source: UpstreamClass, now: Instant)
    requires EntriesComplete(s) && IndexesOk(s)
    ensures EntriesComplete(ObserveLocked(s, key, source, now).0)
  {
    var e := NewEvent(s.nextId, source, key, now);
    forall x | x in s.events.Keys
      ensures s.events[s.nextId := e][x] == s.events[x]
    {
      assert x < s.nextId;
    }
  }

  lemma MarkReadyComplete(s: State, id: EventId, now: Instant)
    requires EntriesComplete(s)
    ensures EntriesComplete(MarkReadyLocked(s, id, now))
  {
    if id in s.events && ReadyOutOfOrder(s.events[id], now) {
      FinishComplete(CountOutOfOrder(s), id, Failure, OutOfOrder, now);
    } else if id in s.events && s.events[id].aReadyAt.None? {
      SameKeysComplete(s, s.(events := s.events[id := s.events[id].(aReadyAt := Some(now))]));
    }
  }

  lemma RefusePublishComplete(s: State, id: EventId, key: Key, now: Instant)
    requires EntriesComplete(s)
    ensures EntriesComplete(RefusePublish(s, id, key, now))
  {
    if |key| > MAX_CORRELATION_KEY_BYTES {
      FinishComplete(CountDroppedEvent(s), id, Failure, ReplacementKeyOversize, now);
    } else {
      FinishComplete(CountOutOfOrder(s), id, Failure, OutOfOrder, now);
    }
  }

  lemma StepComplete(w: World, a: Action)
    requires WorldInv(w) && EntriesComplete(w.tel) && Enabled(w, a) && FreshKey(w, a)
    ensures EntriesComplete(Next(w, a).tel)
  {
    if MovesSession(a) {
      MoveComplete(w, a);
    } else if IsPublishing(a) {
      PublishingComplete(w, a);
    } else if a.ObserveUpstream? {
      ObserveUpstreamComplete(w.tel, w.h, a.lock, a.key, a.source, a.now, a.order);
    } else {
      OtherComplete(w, a);
    }
  }

  lemma MoveComplete(w: World, a: Action)
    requires w.tel.enabled && EntriesComplete(w.tel) && Enabled(w, a) && MovesSession(a)
    ensures EntriesComplete(Next(w, a).tel)
  {
    if a.LeaveEnd? {
      LeaveRosterComplete(w.tel, a.lock, a.sid, a.now, a.finished);
    }
  }

  lemma PublishingComplete(w: World, a: Action)
    requires WorldInv(w) && EntriesComplete(w.tel) && Enabled(w, a) && FreshKey(w, a) && IsPublishing(a)
    ensures EntriesComplete(Next(w, a).tel)
  {
    if a.Publish? {
      BeginComplete(w, a.lock, a.id, a.key, a.now, a.order);
    } else if a.FinishPublish? {
      PublishComplete(w.tel, w.publishing.id, w.publishing.key, w.publishing.now, PublicationOf(w).loads);
    }
  }

  lemma BeginComplete(w: World, lock: Lock, id: EventId, key: Key, now: Instant, order: seq<EventId>)
    requires EntriesComplete(w.tel)
    ensures EntriesComplete(BeginPublish(w, lock, id, key, now, order).tel)
  {
    BeginState(w, lock, id, key, now, order);
    ExpireAllComplete(w.tel, order, now);
    RefusePublishComplete(ExpireAll(w.tel, order, now), id, key, now);
  }

  lemma ObserveUpstreamComplete(
      s: State, h: History, lock: Lock, key: Key, source: UpstreamClass, now: Instant, order: seq<EventId>)
    requires Inv(s, h) && EntriesComplete(s)
    ensures EntriesComplete(Observe(s, lock, key, source, now, order).0)
  {
    if s.enabled && |key| <= MAX_CORRELATION_KEY_BYTES && lock.Acquired? {
      ExpireAllIndexed(s, h, order, now);
      ExpireAllComplete(s, order, now);
      ObserveComplete(ExpireAll(s, order, now), key, source, now);
    } else {
      ObserveRefused(s, lock, key, source, now, order);
    }
  }

  lemma ExpireAllIndexed(s: State, h: History, order: seq<EventId>, now: Instant)
    requires Inv(s, h)
    ensures IndexesOk(ExpireAll(s, order, now))
  {
    ExpireAllKeeps(s, h, order, now);
  }

  lemma ObserveRefused(
      s: State, lock: Lock, key: Key, source: UpstreamClass, now: Instant, order: seq<EventId>)
    requires !s.enabled || |key| > MAX_CORRELATION_KEY_BYTES || !lock.Acquired?
    ensures var r := Observe(s, lock, key, source, now, order).0; r.events == s.events && r.published == s.published
  {
  }

  lemma OtherComplete(w: World, a: Action)
    requires w.tel.enabled && EntriesComplete(w.tel) && Enabled(w, a)
    requires !MovesSession(a) && !IsPublishing(a) && !a.ObserveUpstream?
    ensures EntriesComplete(Next(w, a).tel)
  {
    match a
    case Ready(_, id, now, order) =>
      ExpireAllComplete(w.tel, order, now);
      MarkReadyComplete(ExpireAll(w.tel, order, now), id, now);
    case Fail(_, id, reason, now) => FinishComplete(w.tel, id, Failure, Caller(reason), now);
    case ExpireEvents(_, now, order) => ExpireAllComplete(w.tel, order, now);
    case Notify(sid, key, outcome, _, now, order, finished) =>
      ExpireAllComplete(w.tel, order, now);
      RecordFanoutComplete(ExpireAll(w.tel, order, now), sid, key, outcome, now, finished);
    case _ =>
  }

  lemma {:induction false} RunComplete(w: World, actions: seq<Action>, w': World)
    requires WorldInv(w) && EntriesComplete(w.tel) && ReachesFresh(w, actions, w')
    ensures WorldInv(w') && EntriesComplete(w'.tel)
    decreases |actions|
  {
    if actions != [] {
      StepComplete(w, actions[0]);
      StepKeeps(w, actions[0]);
      RunComplete(Next(w, actions[0]), actions[1..], w');
    }
  }

  lemma NoEventsComplete(s: State)
    requires s.events == map[]
    ensures EntriesComplete(s)
  {
  }

  lemma FoundFrom(w0: World, actions: seq<Action>, w: World, id: EventId)
    requires WorldInv(w0) && w0.tel.events == map[] && ReachesFresh(w0, actions, w)
    requires id in w.tel.events && w.tel.events[id].publishedAt.Some?
    ensures Found(w.tel.published, id, w.tel.events[id])
  {
    NoEventsComplete(w0.tel);
    RunComplete(w0, actions, w);
  }

  /** As long as job keys are not reused among live events, every published live event can be found. */
  lemma PublishedEventsAreFound(
      hasSender: bool, now: Instant, w0: World, actions: seq<Action>, w: World, id: EventId)
    requires w0 == Start(hasSender, now) && ReachesFresh(w0, actions, w)
    requires id in w.tel.events && w.tel.events[id].publishedAt.Some?
    ensures Found(w.tel.published, id, w.tel.events[id])
  {
    StartOk(hasSender, now);
    FoundFrom(w0, actions, w, id);
  }
}
