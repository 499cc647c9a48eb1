/**
 Interleavings of the replacement-latency telemetry with the sessions it observes.

 Joining and leaving are two steps each, so other sessions may act between the active-session counter
 and the roster.  Publishing is four steps: it takes the lock, loads three counters one after another, and
 finishes; sessions move the counters in between.  Any step that needs the lock may instead find it contended
 or poisoned, and must do so while a publication holds it.
 */
module LatencyRuns {
  import opened Prelude
  import opened LatencyModel
  import opened LatencyInvariant

  /** A publication that holds the lock, with what it has loaded and the phases at each load. */
  datatype Publishing =
    | Idle
    | Begun(id: EventId, key: Key, now: Instant)
    | TotalRead(id: EventId, key: Key, now: Instant, total: nat, first: map<SessionId, Phase>)
    | UntrackedRead(id: EventId, key: Key, now: Instant, total: nat, first: map<SessionId, Phase>,
                    untracked: nat, second: map<SessionId, Phase>)

  datatype World = World(tel: State, phases: map<SessionId, Phase>, h: History, publishing: Publishing)

  datatype Action =
    | Connect(sid: SessionId)
    | JoinBegin(sid: SessionId)
    | JoinEnd(sid: SessionId, lock: Lock)
    | LeaveBegin(sid: SessionId)
    | LeaveEnd(sid: SessionId, lock: Lock, now: Instant, finished: seq<EventId>)
    | ObserveUpstream(lock: Lock, key: Key, source: UpstreamClass, now: Instant, order: seq<EventId>)
    | Ready(lock: Lock, id: EventId, now: Instant, order: seq<EventId>)
    | Publish(lock: Lock, id: EventId, key: Key, now: Instant, order: seq<EventId>)
    | LoadTotal
    | LoadUntracked
    | FinishPublish
    | Fail(lock: Lock, id: EventId, reason: string, now: Instant)
    | ExpireEvents(lock: Lock, now: Instant, order: seq<EventId>)
    | Notify(sid: SessionId, key: Key, outcome: FanoutOutcome, lock: Lock, now: Instant,
             order: seq<EventId>, finished: seq<EventId>)
    | DrainLog

  predicate InPhase(w: World, sid: SessionId, phase: Phase) {
    sid in w.phases && w.phases[sid] == phase
  }

  /** Nobody gets the lock while a publication holds it. */
  predicate Free(w: World, lock: Lock) {
    lock.Acquired? ==> w.publishing.Idle?
  }

  /** Session ids are never reused, and a session acts only in the right phase of its life. */
  ghost predicate Enabled(w: World, a: Action) {
    match a
    case Connect(sid) => sid !in w.phases
    case JoinBegin(sid) => InPhase(w, sid, Connected)
    case JoinEnd(sid, lock) => InPhase(w, sid, Joining) && Free(w, lock)
    case LeaveBegin(sid) => InPhase(w, sid, Connected) || InPhase(w, sid, Tracked) || InPhase(w, sid, Untracked)
    case LeaveEnd(sid, lock, _, finished) =>
      InPhase(w, sid, LeavingUntracked)
      || (InPhase(w, sid, LeavingTracked) && Free(w, lock) && Enumerates(finished, Emptied(w.tel.events, sid, None)))
    case ObserveUpstream(lock, _, _, now, order) => Free(w, lock) && Enumerates(order, Expired(w.tel, now))
    case Ready(lock, _, now, order) => Free(w, lock) && Enumerates(order, Expired(w.tel, now))
    case Publish(lock, _, _, now, order) => Free(w, lock) && Enumerates(order, Expired(w.tel, now))
    case LoadTotal => w.publishing.Begun?
    case LoadUntracked => w.publishing.TotalRead?
    case FinishPublish => w.publishing.UntrackedRead?
    case Fail(lock, _, _, _) => Free(w, lock)
    case ExpireEvents(lock, now, order) => Free(w, lock) && Enumerates(order, Expired(w.tel, now))
    case Notify(sid, key, _, lock, now, order, finished) =>
      && (InPhase(w, sid, Tracked) || InPhase(w, sid, Untracked))
      && Free(w, lock)
      && Enumerates(order, Expired(w.tel, now))
      && Enumerates(finished, SupersededBy(ExpireAll(w.tel, order, now), sid, key))
    case DrainLog => w.tel.logQueue != []
  }

  function BeginPublish(w: World, lock: Lock, id: EventId, key: Key, now: Instant, order: seq<EventId>): World {
    if !lock.Acquired? then w.(tel := Blocked(w.tel, lock))
    else
      var s := ExpireAll(w.tel, order, now);
      if Publishes(s, id, key, now) then w.(tel := s, publishing := Begun(id, key, now))
      else w.(tel := RefusePublish(s, id, key, now))
  }

  /** What the publication goes on record with when it loads its last counter. */
  function PublicationOf(w: World): Publication
    requires w.publishing.UntrackedRead?
  {
    var p := w.publishing;
    Publication(p.key, p.first, p.second, w.phases, Loads(p.total, p.untracked, w.tel.counters.staleTracked),
                w.tel.active, |w.h.notices|)
  }

  function EndPublish(w: World): World
    requires w.publishing.UntrackedRead?
  {
    var p := w.publishing;
    World(PublishLoaded(w.tel, p.id, p.key, p.now, PublicationOf(w).loads), w.phases,
          if p.id in w.tel.events then w.h.(pubs := w.h.pubs[p.id := PublicationOf(w)]) else w.h, Idle)
  }

  function Departed(phase: Phase): Phase {
    match phase
    case Tracked => LeavingTracked
    case Untracked => LeavingUntracked
    case _ => GoneClean
  }

  function Next(w: World, a: Action): World
    requires w.tel.enabled && Enabled(w, a)
  {
    match a
    case Connect(sid) => w.(phases := w.phases[sid := Connected])
    case JoinBegin(sid) => w.(tel := CountJoin(w.tel), phases := w.phases[sid := Joining])
    case JoinEnd(sid, lock) =>
      var (tel, tracked) := EnterRoster(w.tel, lock, sid);
      w.(tel := tel, phases := w.phases[sid := if tracked then Tracked else Untracked])
    case LeaveBegin(sid) =>
      w.(tel := if w.phases[sid].Connected? then w.tel else CountLeave(w.tel),
         phases := w.phases[sid := Departed(w.phases[sid])])
    case LeaveEnd(sid, lock, now, finished) =>
      if w.phases[sid].LeavingUntracked? then
        w.(tel := LeaveUntracked(w.tel), phases := w.phases[sid := GoneClean])
      else
        w.(tel := LeaveRoster(w.tel, lock, sid, now, finished),
           phases := w.phases[sid := if lock.Acquired? then GoneClean else GoneStale])
    case ObserveUpstream(lock, key, source, now, order) =>
      w.(tel := Observe(w.tel, lock, key, source, now, order).0)
    case Ready(lock, id, now, order) => w.(tel := MarkReady(w.tel, lock, id, now, order))
    case Publish(lock, id, key, now, order) => BeginPublish(w, lock, id, key, now, order)
    case LoadTotal =>
      var p := w.publishing;
      w.(publishing := TotalRead(p.id, p.key, p.now, w.tel.counters.activeTotal, w.phases))
    case LoadUntracked =>
      var p := w.publishing;
      w.(publishing := UntrackedRead(p.id, p.key, p.now, p.total, p.first, w.tel.counters.untrackedActive, w.phases))
    case FinishPublish => EndPublish(w)
    case Fail(lock, id, reason, now) => w.(tel := FailEvent(w.tel, lock, id, Caller(reason), now))
    case ExpireEvents(lock, now, order) => w.(tel := Expire(w.tel, lock, now, order))
    case Notify(sid, key, outcome, lock, now, order, finished) =>
      w.(tel := RecordFanout(w.tel, lock, sid, key, outcome, now, order, finished),
         h := w.h.(notices := w.h.notices + [Notice(sid, key, outcome)]))
    case DrainLog => w.(tel := w.tel.(logQueue := w.tel.logQueue[1..]))
  }

  ghost predicate Reaches(w: World, actions: seq<Action>, w': World)
    requires w.tel.enabled
    decreases |actions|
  {
    if actions == [] then w' == w
    else Enabled(w, actions[0]) && Next(w, actions[0]).tel.enabled && Reaches(Next(w, actions[0]), actions[1..], w')
  }

  function Start(hasSender: bool, now: Instant): World {
    World(Initial(true, hasSender, now), map[], History(map[], []), Idle)
  }

  /** The three loads and the end are the operation under the lock, whatever the counters became between the loads. */
  lemma LoadsPublish(w: World, second: Counters, last: Counters)
    requires w.tel.enabled && w.publishing.Begun?
    requires Publishes(w.tel, w.publishing.id, w.publishing.key, w.publishing.now)
    ensures var p := w.publishing; var a := Next(w, LoadTotal);
      var b := Next(a.(tel := a.tel.(counters := second)), LoadUntracked);
      EndPublish(b.(tel := b.tel.(counters := last))).tel == MarkPublishedLocked(w.tel, p.id, p.key, p.now, second, last)
  {
  }

  // ---------------------------------------------------------------- one step

  ghost predicate AllOnward(w: World) {
    forall id :: id in w.h.pubs ==> Onward(w.h.pubs[id].last, w.phases)
  }

  /** The event being published waits untouched, and the loads so far read what they should. */
  ghost predicate PublishingOk(w: World) {
    match w.publishing
    case Idle => true
    case Begun(id, key, now) => Publishes(w.tel, id, key, now)
    case TotalRead(id, key, now, total, first) =>
      Publishes(w.tel, id, key, now) && TotalLoaded(total, w.tel.active, first) && Onward(first, w.phases)
    case UntrackedRead(id, key, now, total, first, untracked, second) =>
      && Publishes(w.tel, id, key, now) && TotalLoaded(total, w.tel.active, first)
      && UntrackedLoaded(untracked, w.tel.active, second) && Onward(first, second) && Onward(second, w.phases)
  }

  ghost predicate WorldInv(w: World) {
    && w.tel.enabled
    && Inv(w.tel, w.h)
    && Accounting(w.tel.active, w.tel.counters, w.phases)
    && AllOnward(w) && PublishingOk(w)
  }

  /** `r` differs from `s` in nothing that counts sessions. */
  predicate OnlyTelemetry(s: State, r: State) {
    && r.enabled == s.enabled && r.active == s.active
    && r.counters.activeTotal == s.counters.activeTotal
    && r.counters.untrackedActive == s.counters.untrackedActive
    && r.counters.staleTracked == s.counters.staleTracked
    && r.counters.rosterCleanupFailures == s.counters.rosterCleanupFailures
  }

  lemma MoveSession(phases: map<SessionId, Phase>, sid: SessionId, to: Phase, x: Phase)
    ensures Count(phases[sid := to], x)
              == Count(phases, x) + One(x == to) - One(sid in phases && phases[sid] == x)
  {
    var before, after := Having(phases, x), Having(phases[sid := to], x);
    Resize(before, sid);
    if x == to {
      assert after == before + {sid};
    } else {
      assert after == before - {sid};
    }
  }

  lemma Resize(s: set<SessionId>, sid: SessionId)
    ensures |s + {sid}| == |s| + One(sid !in s) && |s - {sid}| == |s| - One(sid in s)
  {
    if sid in s {
      assert s + {sid} == s;
    } else {
      assert s - {sid} == s;
    }
  }

  lemma MoveSessions(phases: map<SessionId, Phase>, sid: SessionId, to: Phase)
    ensures forall x :: Count(phases[sid := to], x)
              == Count(phases, x) + One(x == to) - One(sid in phases && phases[sid] == x)
  {
    forall x
      ensures Count(phases[sid := to], x)
                == Count(phases, x) + One(x == to) - One(sid in phases && phases[sid] == x)
    {
      MoveSession(phases, sid, to, x);
    }
  }

  lemma AdmitIsNew(events: map<EventId, Event>, nextId: EventId, e: Event)
    requires forall id :: id in events ==> events[id].id == id && id < nextId
    requires e.id == nextId
    ensures e.id !in events && |events[e.id := e]| == |events| + 1
    ensures var after := events[e.id := e]; forall id :: id in after ==> after[id].id == id && id < nextId + 1
    ensures var after := events[e.id := e]; forall id :: id in events ==> after[id] == events[id]
  {
    assert e.id !in events;
    assert events[e.id := e].Keys == events.Keys + {e.id};
  }

  lemma AdmitKeepsIndex(
      events: map<EventId, Event>, dedupe: map<Key, EventId>, published: map<Key, EventId>, key: Key, e: Event)
    requires IndexOk(events, dedupe, published, e.id) && key !in dedupe && e.dedupeKey == key
    ensures IndexOk(events[e.id := e], dedupe[key := e.id], published, e.id + 1)
    ensures e.id !in events && |events[e.id := e]| == |events| + 1
  {
    AdmitIsNew(events, e.id, e);
  }

  lemma AdmitKeeps(s: State, h: History, key: Key, e: Event)
    requires Inv(s, h) && key !in s.dedupe && |s.events| < MAX_IN_FLIGHT_EVENTS
    requires e.id == s.nextId && e.dedupeKey == key && e.publishedAt.None? && UnpublishedOk(e)
    ensures Inv(s.(nextId := s.nextId + 1, dedupe := s.dedupe[key := e.id], events := s.events[e.id := e]), h)
  {
    AdmitKeepsIndex(s.events, s.dedupe, s.published, key, e);
    ReplaceKeepsEvents(s.events, h, e.id, e);
  }

  lemma ObserveKeeps(s: State, h: History, key: Key, source: UpstreamClass, now: Instant)
    requires Inv(s, h)
    ensures Inv(ObserveLocked(s, key, source, now).0, h)
    ensures OnlyTelemetry(s, ObserveLocked(s, key, source, now).0)
  {
    if key in s.dedupe {
      assert s.dedupe[key] in s.events;
    } else {
      ObserveNew(s, key, source, now);
      ObserveNewKeeps(s, h, key, NewEvent(s.nextId, source, key, now));
    }
  }

  lemma ObserveNew(s: State, key: Key, source: UpstreamClass, now: Instant)
    requires key !in s.dedupe
    ensures ObserveLocked(s, key, source, now) == Admit(s, key, NewEvent(s.nextId, source, key, now))
  {
    assert s.dedupe - {key} == s.dedupe;
  }

  lemma ObserveNewKeeps(s: State, h: History, key: Key, e: Event)
    requires Inv(s, h) && key !in s.dedupe
    requires e.id == s.nextId && e.dedupeKey == key && e.publishedAt.None? && UnpublishedOk(e)
    ensures Inv(CountDroppedEvent(s), h)
    ensures |s.events| < MAX_IN_FLIGHT_EVENTS ==>
              Inv(s.(nextId := s.nextId + 1, dedupe := s.dedupe[key := e.id], events := s.events[e.id := e]), h)
  {
    InvFrame(s, CountDroppedEvent(s), h);
    if |s.events| < MAX_IN_FLIGHT_EVENTS {
      AdmitKeeps(s, h, key, e);
    }
  }

  lemma FailureKeeps(s: State, h: History, id: EventId, reason: Reason, now: Instant)
    requires Inv(s, h) && !BlamesRoster(reason)
    ensures Inv(Finish(s, id, Failure, reason, now), h)
    ensures Finishes(s, Finish(s, id, Failure, reason, now))
  {
    if id in s.events {
      NonCompleteSummaryOk(s, h, id, Failure, reason, now);
    }
    FinishKeeps(s, h, id, Failure, reason, now);
  }

  lemma MarkReadyKeeps(s: State, h: History, id: EventId, now: Instant)
    requires Inv(s, h)
    ensures Inv(MarkReadyLocked(s, id, now), h)
    ensures OnlyTelemetry(s, MarkReadyLocked(s, id, now))
  {
    if id in s.events && ReadyOutOfOrder(s.events[id], now) {
      FailureKeeps(CountOutOfOrder(s), h, id, OutOfOrder, now);
    } else if id in s.events && s.events[id].aReadyAt.None? {
      assert EventOk(h, s.events[id]);
      ReplaceKeeps(s, h, id, s.events[id].(aReadyAt := Some(now)));
    }
  }

  /** Publishing one event leaves what is known about every other event, summary and publication. */
  lemma PublicationExtends(s: State, h: History, id: EventId, p: Publication)
    requires Inv(s, h) && id in s.events && s.events[id].publishedAt.None?
    requires p.mark == |h.notices| && LoadsOk(p)
    ensures InvBut(s, h.(pubs := h.pubs[id := p]), {id})
  {
    var h' := h.(pubs := h.pubs[id := p]);
    UnrecordedExtends(s, h, id, p);
    EventsExtend(s.events, h, id, p);
    forall i | 0 <= i < |s.emitted|
      ensures SummaryOk(h', s.emitted[i])
    {
      SummaryExtends(h, s.emitted[i], id, p);
    }
    assert PublicationsOk(h', s.nextId);
  }

  lemma EventsExtend(events: map<EventId, Event>, h: History, id: EventId, p: Publication)
    requires EventsOkBut(events, h, {}) && id !in h.pubs
    ensures EventsOkBut(events, h.(pubs := h.pubs[id := p]), {id})
  {
    forall x | x in events && x != id
      ensures EventOk(h.(pubs := h.pubs[id := p]), events[x])
    {
      assert EventOk(h, events[x]);
    }
  }

  lemma UnrecordedExtends(s: State, h: History, id: EventId, p: Publication)
    requires Inv(s, h) && id in s.events && s.events[id].publishedAt.None?
    ensures id !in h.pubs && UnrecordedBut(s.events, h.pubs[id := p], {id})
  {
  }

  lemma SummaryExtends(h: History, m: Summary, id: EventId, p: Publication)
    requires SummaryOk(h, m) && id !in h.pubs
    ensures SummaryOk(h.(pubs := h.pubs[id := p]), m)
  {
  }

  /** `p` is the publication of event `id` with the roster of `s`. */
  ghost predicate Describes(s: State, h: History, id: EventId, key: Key, now: Instant, p: Publication) {
    && Publishes(s, id, key, now)
    && LoadsOk(p) && p.key == key && p.roster == s.active && p.mark == |h.notices|
  }

  lemma DegradedSummaryOk(s: State, h: History, id: EventId, key: Key, now: Instant, p: Publication)
    requires Describes(s, h, id, key, now, p) && RosterDegraded(s.active, p.loads)
    requires EventOk(h, s.events[id]) && s.events[id].id == id
    ensures var e := DegradedEvent(s, s.events[id], key, now, p.loads);
      SummaryOk(h.(pubs := h.pubs[id := p]),
                Summarize(e, TrackingGap, DegradedReason(s.active, p.loads), now, s.counters))
  {
    var e := DegradedEvent(s, s.events[id], key, now, p.loads);
    StagesFit(e, TrackingGap, DegradedReason(s.active, p.loads), now, s.counters);
  }

  lemma DegradedKeeps(s: State, h: History, id: EventId, key: Key, now: Instant, p: Publication)
    requires Inv(s, h) && Describes(s, h, id, key, now, p) && RosterDegraded(s.active, p.loads)
    ensures Inv(PublishLoaded(s, id, key, now, p.loads), h.(pubs := h.pubs[id := p]))
    ensures OnlyTelemetry(s, PublishLoaded(s, id, key, now, p.loads))
  {
    var h' := h.(pubs := h.pubs[id := p]);
    assert EventOk(h, s.events[id]);
    PublicationExtends(s, h, id, p);
    var e := DegradedEvent(s, s.events[id], key, now, p.loads);
    ReplaceKeeps(s, h', id, e);
    DegradedSummaryOk(s, h, id, key, now, p);
    FinishKeeps(s.(events := s.events[id := e]), h', id, TrackingGap, DegradedReason(s.active, p.loads), now);
  }

  lemma IndexPublished(
      events: map<EventId, Event>, dedupe: map<Key, EventId>, published: map<Key, EventId>, nextId: EventId,
      id: EventId, key: Key)
    requires IndexOk(events, dedupe, published, nextId) && Carries(events, id, key)
    ensures IndexOk(events, dedupe, published[key := id], nextId)
  {
  }

  /** The event a clean publication leaves behind waits for the whole roster. */
  lemma PublishedEventOk(s: State, h: History, id: EventId, key: Key, now: Instant, p: Publication)
    requires Describes(s, h, id, key, now, p) && !RosterDegraded(s.active, p.loads)
    requires EventOk(h, s.events[id]) && s.events[id].id == id
    ensures EventOk(h.(pubs := h.pubs[id := p]), PublishedEvent(s, s.events[id], key, now, p.loads))
  {
  }

  lemma MarkKeeps(s: State, h: History, id: EventId, key: Key, now: Instant, p: Publication)
    requires Inv(s, h) && Describes(s, h, id, key, now, p) && !RosterDegraded(s.active, p.loads)
    ensures var e := PublishedEvent(s, s.events[id], key, now, p.loads);
      Inv(s.(events := s.events[id := e], published := s.published[key := id]), h.(pubs := h.pubs[id := p]))
  {
    var h' := h.(pubs := h.pubs[id := p]);
    var e := PublishedEvent(s, s.events[id], key, now, p.loads);
    PublicationExtends(s, h, id, p);
    assert EventOk(h, s.events[id]);
    PublishedEventOk(s, h, id, key, now, p);
    ReplaceKeeps(s, h', id, e);
    IndexPublished(s.events[id := e], s.dedupe, s.published, s.nextId, id, key);
  }

  lemma ZeroSessionsOk(h: History, e: Event, now: Instant, c: Counters)
    requires e.publishedAt.Some? && PublishedOk(h, e) && LoadsOk(h.pubs[e.id])
    requires e.pending == {} && h.pubs[e.id].roster == {} && h.pubs[e.id].loads.total == 0
    requires Conserved(e.notifySuccess, e.notifyFailed, e.notifySkipped, 0, e.targetSessions, e.trackingGap)
    ensures SummaryOk(h, Summarize(e, Complete, ZeroSessions, now, c))
  {
    NobodyWasCounted(h.pubs[e.id]);
    StagesFit(e, Complete, ZeroSessions, now, c);
  }

  /** A publication that nobody waits for ends at once. */
  lemma EmptyKeeps(s: State, h: History, id: EventId, now: Instant)
    requires Inv(s, h) && id in s.events && s.events[id].publishedAt.Some? && s.events[id].pending == {}
    requires id in h.pubs && h.pubs[id].roster == {}
    ensures Inv(Finish(s, id, TrackingGap, UntrackedSessions, now), h)
    ensures Finishes(s, Finish(s, id, TrackingGap, UntrackedSessions, now))
    ensures h.pubs[id].loads.total == 0 ==>
              && Inv(Finish(s, id, Complete, ZeroSessions, now), h)
              && Finishes(s, Finish(s, id, Complete, ZeroSessions, now))
  {
    UntrackedKeeps(s, h, id, now);
    if h.pubs[id].loads.total == 0 {
      ZeroSessionsKeeps(s, h, id, now);
    }
  }

  lemma UntrackedKeeps(s: State, h: History, id: EventId, now: Instant)
    requires Inv(s, h) && id in s.events
    ensures Inv(Finish(s, id, TrackingGap, UntrackedSessions, now), h)
    ensures Finishes(s, Finish(s, id, TrackingGap, UntrackedSessions, now))
  {
    NonCompleteSummaryOk(s, h, id, TrackingGap, UntrackedSessions, now);
    FinishKeeps(s, h, id, TrackingGap, UntrackedSessions, now);
  }

  lemma ZeroSessionsKeeps(s: State, h: History, id: EventId, now: Instant)
    requires Inv(s, h) && id in s.events && s.events[id].publishedAt.Some? && s.events[id].pending == {}
    requires id in h.pubs && h.pubs[id].roster == {} && h.pubs[id].loads.total == 0
    ensures Inv(Finish(s, id, Complete, ZeroSessions, now), h)
    ensures Finishes(s, Finish(s, id, Complete, ZeroSessions, now))
  {
    assert EventOk(h, s.events[id]);
    ZeroSessionsOk(h, s.events[id], now, s.counters);
    FinishKeeps(s, h, id, Complete, ZeroSessions, now);
  }

  lemma CleanPublishKeeps(s: State, h: History, id: EventId, key: Key, now: Instant, p: Publication)
    requires Inv(s, h) && Describes(s, h, id, key, now, p) && !RosterDegraded(s.active, p.loads)
    ensures Inv(PublishLoaded(s, id, key, now, p.loads), h.(pubs := h.pubs[id := p]))
    ensures OnlyTelemetry(s, PublishLoaded(s, id, key, now, p.loads))
  {
    MarkKeeps(s, h, id, key, now, p);
    if s.active == {} {
      var e := PublishedEvent(s, s.events[id], key, now, p.loads);
      EmptyKeeps(s.(events := s.events[id := e], published := s.published[key := id]), h.(pubs := h.pubs[id := p]), id, now);
    }
  }

  lemma RefusePublishKeeps(s: State, h: History, id: EventId, key: Key, now: Instant)
    requires Inv(s, h)
    ensures Inv(RefusePublish(s, id, key, now), h) && OnlyTelemetry(s, RefusePublish(s, id, key, now))
  {
    if |key| > MAX_CORRELATION_KEY_BYTES {
      FailureKeeps(CountDroppedEvent(s), h, id, ReplacementKeyOversize, now);
    } else if id in s.events && PublishOutOfOrder(s.events[id], now) {
      FailureKeeps(CountOutOfOrder(s), h, id, OutOfOrder, now);
    }
  }

  lemma DropFromOk(h: History, e: Event, sid: SessionId)
    requires EventOk(h, e)
    ensures EventOk(h, DropFrom(e, sid))
  {
  }

  lemma DropPendingKeepsIndex(
      events: map<EventId, Event>, dedupe: map<Key, EventId>, published: map<Key, EventId>, nextId: EventId,
      sid: SessionId, keep: Option<EventId>)
    requires IndexOk(events, dedupe, published, nextId)
    ensures IndexOk(DropPending(events, sid, keep), dedupe, published, nextId)
    ensures |DropPending(events, sid, keep)| == |events|
  {
    var r := DropPending(events, sid, keep);
    assert r.Keys == events.Keys;
    forall k | k in published
      ensures Carries(r, published[k], k)
    {
      assert Carries(events, published[k], k);
    }
  }

  lemma DropPendingKeepsEvents(events: map<EventId, Event>, h: History, sid: SessionId, keep: Option<EventId>)
    requires EventsOkBut(events, h, {})
    ensures EventsOkBut(DropPending(events, sid, keep), h, {})
  {
    forall id | id in events.Keys
      ensures EventOk(h, DropPending(events, sid, keep)[id])
    {
      assert EventOk(h, events[id]);
      DropFromOk(h, events[id], sid);
    }
  }

  lemma DropPendingKeeps(s: State, h: History, sid: SessionId, keep: Option<EventId>)
    requires Inv(s, h)
    ensures Inv(s.(events := DropPending(s.events, sid, keep)), h)
  {
    DropPendingKeepsIndex(s.events, s.dedupe, s.published, s.nextId, sid, keep);
    DropPendingKeepsEvents(s.events, h, sid, keep);
    DropPendingUnrecorded(s.events, h.pubs, sid, keep);
  }

  lemma DropPendingUnrecorded(
      events: map<EventId, Event>, pubs: map<EventId, Publication>, sid: SessionId, keep: Option<EventId>)
    requires UnrecordedBut(events, pubs, {})
    ensures UnrecordedBut(DropPending(events, sid, keep), pubs, {})
  {
  }

  lemma EmptiedWaitForNobody(events: map<EventId, Event>, sid: SessionId, keep: Option<EventId>, ids: seq<EventId>)
    requires Enumerates(ids, Emptied(events, sid, keep))
    ensures var after := DropPending(events, sid, keep);
      forall i :: 0 <= i < |ids| && ids[i] in after ==>
        after[ids[i]].publishedAt.Some? && after[ids[i]].pending == {}
  {
    forall i | 0 <= i < |ids|
      ensures ids[i] in Emptied(events, sid, keep)
    {
      assert ids[i] in ids;
    }
  }

  /** Letting go of a session and finishing the events that waited only for it. */
  lemma ReleaseKeeps(
      s: State, h: History, sid: SessionId, keep: Option<EventId>, ids: seq<EventId>, reason: Reason, now: Instant)
    requires Inv(s, h) && Enumerates(ids, Emptied(s.events, sid, keep))
    requires !reason.ZeroSessions? && !reason.AllNotified? && !BlamesRoster(reason)
    ensures var r := FinishFanoutAll(s.(events := DropPending(s.events, sid, keep)), ids, reason, now);
      Inv(r, h) && Finishes(s.(events := DropPending(s.events, sid, keep)), r)
  {
    DropPendingKeeps(s, h, sid, keep);
    EmptiedWaitForNobody(s.events, sid, keep, ids);
    FinishFanoutAllKeeps(s.(events := DropPending(s.events, sid, keep)), h, ids, reason, now);
  }

  /** A notice of a session that was not leaving at any publication changes no earlier promise. */
  lemma NoticeExtends(s: State, h: History, n: Notice)
    requires Inv(s, h)
    requires forall id :: id in h.pubs ==> n.sid !in Having(h.pubs[id].last, LeavingTracked)
    ensures Inv(s, h.(notices := h.notices + [n]))
  {
    var h' := h.(notices := h.notices + [n]);
    forall id | id in h.pubs
      ensures PublicationOk(h', h.pubs[id])
    {
      assert PublicationOk(h, h.pubs[id]);
    }
    forall id | id in s.events
      ensures EventOk(h', s.events[id])
    {
      assert EventOk(h, s.events[id]);
      NoticeExtendsEvent(h, s.events[id], n);
    }
    forall i | 0 <= i < |s.emitted|
      ensures SummaryOk(h', s.emitted[i])
    {
      assert SummaryOk(h, s.emitted[i]);
      NoticeExtendsSummary(h, s.emitted[i], n);
    }
  }

  lemma NotifiedMonotone(notices: seq<Notice>, n: Notice, mark: nat, sid: SessionId, key: Key)
    requires NotifiedSince(notices, mark, sid, key)
    ensures NotifiedSince(notices + [n], mark, sid, key)
  {
    var i :| mark <= i < |notices| && notices[i] == Notice(sid, key, Success);
    assert (notices + [n])[i] == Notice(sid, key, Success);
  }

  lemma NoticeExtendsEvent(h: History, e: Event, n: Notice)
    requires EventOk(h, e)
    ensures EventOk(h.(notices := h.notices + [n]), e)
  {
    if e.publishedAt.Some? && e.notifyFailed == 0 && e.notifySkipped == 0 {
      var p := h.pubs[e.id];
      forall sid | sid in p.roster - e.pending
        ensures NotifiedSince(h.notices + [n], p.mark, sid, p.key)
      {
        NotifiedMonotone(h.notices, n, p.mark, sid, p.key);
      }
    }
  }

  lemma NoticeExtendsSummary(h: History, m: Summary, n: Notice)
    requires SummaryOk(h, m)
    ensures SummaryOk(h.(notices := h.notices + [n]), m)
  {
    if m.status.Complete? && m.reason.AllNotified? {
      var p := h.pubs[m.id];
      forall sid | sid in p.roster
        ensures NotifiedSince(h.notices + [n], p.mark, sid, p.key)
      {
        NotifiedMonotone(h.notices, n, p.mark, sid, p.key);
      }
    }
  }

  lemma DeliverOk(h: History, e: Event, sid: SessionId, outcome: FanoutOutcome)
    requires EventOk(h, e) && sid in e.pending && e.replacementKey.Some?
    requires e.publishedAt.Some? && e.id in h.pubs && h.pubs[e.id].mark < |h.notices|
    requires h.notices[|h.notices| - 1] == Notice(sid, e.replacementKey.value, outcome)
    ensures EventOk(h, Deliver(e, sid, outcome))
  {
    var p := h.pubs[e.id];
    var e' := Deliver(e, sid, outcome);
    if e'.notifyFailed == 0 && e'.notifySkipped == 0 {
      forall x | x in p.roster - e'.pending
        ensures NotifiedSince(h.notices, p.mark, x, p.key)
      {
        if x != sid {
          assert x in p.roster - e.pending;
        }
      }
    }
  }

  lemma CreditOneKeeps(s: State, h: History, id: EventId, key: Key, sid: SessionId, outcome: FanoutOutcome)
    requires Inv(s, h)
    requires Carries(s.events, id, key) && sid in s.events[id].pending && h.pubs[id].mark < |h.notices|
    requires h.notices[|h.notices| - 1] == Notice(sid, key, outcome)
    ensures Inv(s.(events := s.events[id := Deliver(s.events[id], sid, outcome)]), h)
  {
    assert EventOk(h, s.events[id]);
    DeliverOk(h, s.events[id], sid, outcome);
    ReplaceKeeps(s, h, id, Deliver(s.events[id], sid, outcome));
  }

  lemma CreditKeeps(s: State, h: History, id: EventId, key: Key, sid: SessionId, outcome: FanoutOutcome, now: Instant)
    requires Inv(s, h)
    requires id in s.events ==> Carries(s.events, id, key) && h.pubs[id].mark < |h.notices|
    requires h.notices != [] && h.notices[|h.notices| - 1] == Notice(sid, key, outcome)
    ensures Inv(CreditFanout(s, id, sid, outcome, now), h)
    ensures OnlyTelemetry(s, CreditFanout(s, id, sid, outcome, now))
  {
    if id in s.events && sid in s.events[id].pending {
      CreditOneKeeps(s, h, id, key, sid, outcome);
      var e := Deliver(s.events[id], sid, outcome);
      var mid := s.(events := s.events[id := e]);
      if e.pending == {} {
        LastCreditKeeps(mid, h, id, now);
        assert OnlyTelemetry(mid, FinishFanout(mid, id, FanoutReason(e), now));
      }
    }
  }

  lemma LastCreditKeeps(s: State, h: History, id: EventId, now: Instant)
    requires Inv(s, h) && id in s.events && s.events[id].publishedAt.Some? && s.events[id].pending == {}
    ensures var r := FinishFanout(s, id, FanoutReason(s.events[id]), now);
      Inv(r, h) && OnlyTelemetry(s, r)
  {
    var reason := FanoutReason(s.events[id]);
    FanoutReasonFits(s.events[id]);
    FinishFanoutKeeps(s, h, id, reason, now);
    FinishingIsTelemetry(s, FinishFanout(s, id, reason, now));
  }

  lemma FanoutReasonFits(e: Event)
    ensures !FanoutReason(e).ZeroSessions? && !BlamesRoster(FanoutReason(e))
    ensures FanoutReason(e).AllNotified? ==> e.notifyFailed == 0 && e.notifySkipped == 0
  {
  }

  lemma FinishingIsTelemetry(s: State, r: State)
    requires Finishes(s, r)
    ensures OnlyTelemetry(s, r)
  {
  }

  lemma RecordFanoutKeeps(
      s: State, h: History, sid: SessionId, key: Key, outcome: FanoutOutcome, now: Instant, finished: seq<EventId>)
    requires Inv(s, h) && Enumerates(finished, SupersededBy(s, sid, key))
    requires h.notices != [] && h.notices[|h.notices| - 1] == Notice(sid, key, outcome)
    requires forall id :: id in h.pubs ==> h.pubs[id].mark < |h.notices|
    ensures Inv(RecordFanoutLocked(s, sid, key, outcome, now, finished), h)
    ensures OnlyTelemetry(s, RecordFanoutLocked(s, sid, key, outcome, now, finished))
  {
    if key in s.published {
      var id := s.published[key];
      assert Carries(s.events, id, key);
      ReleaseKeeps(s, h, sid, Some(id), finished, Superseded, now);
      var r := SupersedeOthers(s, id, sid, now, finished);
      if id in r.events {
        assert EventOk(h, r.events[id]);
      }
      CreditKeeps(r, h, id, key, sid, outcome, now);
    }
  }

  lemma LeaveRosterKeeps(s: State, h: History, lock: Lock, sid: SessionId, now: Instant, finished: seq<EventId>)
    requires Inv(s, h) && sid in s.active && Enumerates(finished, Emptied(s.events, sid, None))
    ensures Inv(LeaveRoster(s, lock, sid, now, finished), h)
    ensures var r := LeaveRoster(s, lock, sid, now, finished);
      if lock.Acquired? then OnlyTelemetry(s.(active := s.active - {sid}), r)
      else OnlyTelemetry(s.(counters := StaleLeave(s.counters)), r)
  {
    if lock.Acquired? {
      ReleaseKeeps(s.(active := s.active - {sid}), h, sid, None, finished, SessionDisconnected, now);
    }
  }

  // ---------------------------------------------------------------- every step

  lemma AccountingFrame(s: State, r: State, phases: map<SessionId, Phase>)
    requires OnlyTelemetry(s, r)
    ensures Accounting(s.active, s.counters, phases) == Accounting(r.active, r.counters, phases)
  {
  }

  lemma ConnectAccounting(w: World, sid: SessionId)
    requires Accounting(w.tel.active, w.tel.counters, w.phases) && sid !in w.phases
    ensures Accounting(w.tel.active, w.tel.counters, w.phases[sid := Connected])
  {
    MoveSessions(w.phases, sid, Connected);
  }

  lemma JoinBeginAccounting(s: State, phases: map<SessionId, Phase>, sid: SessionId)
    requires Accounting(s.active, s.counters, phases) && s.enabled
    requires sid in phases && phases[sid].Connected?
    ensures Accounting(s.active, CountJoin(s).counters, phases[sid := Joining])
  {
    MoveSessions(phases, sid, Joining);
  }

  lemma JoinEndAccounting(s: State, phases: map<SessionId, Phase>, lock: Lock, sid: SessionId)
    requires Accounting(s.active, s.counters, phases) && s.enabled
    requires sid in phases && phases[sid].Joining?
    ensures var (r, tracked) := EnterRoster(s, lock, sid);
      Accounting(r.active, r.counters, phases[sid := if tracked then Tracked else Untracked])
  {
    if EnterRoster(s, lock, sid).1 {
      EnteredAccounting(s.active, s.counters, phases, sid);
    } else {
      UntrackedAccounting(s.active, s.counters, EnterRoster(s, lock, sid).0.counters, phases, sid);
    }
  }

  lemma EnteredAccounting(roster: set<SessionId>, c: Counters, phases: map<SessionId, Phase>, sid: SessionId)
    requires Accounting(roster, c, phases) && sid in phases && phases[sid].Joining?
    ensures Accounting(roster + {sid}, c, phases[sid := Tracked])
  {
    MoveSessions(phases, sid, Tracked);
  }

  lemma UntrackedAccounting(
      roster: set<SessionId>, c: Counters, d: Counters, phases: map<SessionId, Phase>, sid: SessionId)
    requires Accounting(roster, c, phases) && sid in phases && phases[sid].Joining?
    requires d == c.(droppedSessions := d.droppedSessions, untrackedSessions := d.untrackedSessions,
                     lockContention := d.lockContention, lockPoisoned := d.lockPoisoned,
                     untrackedActive := c.untrackedActive + 1)
    ensures Accounting(roster, d, phases[sid := Untracked])
  {
    MoveSessions(phases, sid, Untracked);
  }

  lemma LeaveBeginAccounting(s: State, phases: map<SessionId, Phase>, sid: SessionId)
    requires Accounting(s.active, s.counters, phases) && sid in phases && s.enabled
    ensures phases[sid].Connected? ==> Accounting(s.active, s.counters, phases[sid := GoneClean])
    ensures phases[sid].Tracked? || phases[sid].Untracked? ==>
              Accounting(s.active, CountLeave(s).counters, phases[sid := Departed(phases[sid])])
  {
    MoveSessions(phases, sid, Departed(phases[sid]));
  }

  lemma LeaveEndAccounting(s: State, phases: map<SessionId, Phase>, sid: SessionId)
    requires Accounting(s.active, s.counters, phases) && sid in phases
    ensures phases[sid].LeavingUntracked? ==>
              Accounting(s.active, LeaveUntracked(s).counters, phases[sid := GoneClean])
    ensures phases[sid].LeavingTracked? ==>
              && sid in s.active
              && Accounting(s.active - {sid}, s.counters, phases[sid := GoneClean])
              && Accounting(s.active, StaleLeave(s.counters), phases[sid := GoneStale])
  {
    MoveSessions(phases, sid, GoneClean);
    MoveSessions(phases, sid, GoneStale);
  }

  lemma LockedNotifyKeeps(
      s: State, h: History, n: Notice, now: Instant, order: seq<EventId>, finished: seq<EventId>)
    requires Inv(s, h) && h.notices != [] && h.notices[|h.notices| - 1] == n
    requires forall id :: id in h.pubs ==> h.pubs[id].mark < |h.notices|
    requires Enumerates(finished, SupersededBy(ExpireAll(s, order, now), n.sid, n.key))
    ensures var r := RecordFanoutLocked(ExpireAll(s, order, now), n.sid, n.key, n.outcome, now, finished);
      Inv(r, h) && OnlyTelemetry(s, r)
  {
    ExpireAllKeeps(s, h, order, now);
    RecordFanoutKeeps(ExpireAll(s, order, now), h, n.sid, n.key, n.outcome, now, finished);
  }

  lemma LiveIsNotDeparting(w: World, sid: SessionId)
    requires AllOnward(w) && (InPhase(w, sid, Tracked) || InPhase(w, sid, Untracked))
    ensures forall id :: id in w.h.pubs ==> sid !in Having(w.h.pubs[id].last, LeavingTracked)
  {
    forall id | id in w.h.pubs
      ensures sid !in Having(w.h.pubs[id].last, LeavingTracked)
    {
      assert Onward(w.h.pubs[id].last, w.phases);
    }
  }

  lemma NotifyKeeps(w: World, n: Notice, lock: Lock, now: Instant, order: seq<EventId>, finished: seq<EventId>)
    requires Inv(w.tel, w.h) && forall id :: id in w.h.pubs ==> n.sid !in Having(w.h.pubs[id].last, LeavingTracked)
    requires Enumerates(finished, SupersededBy(ExpireAll(w.tel, order, now), n.sid, n.key))
    ensures var r := RecordFanout(w.tel, lock, n.sid, n.key, n.outcome, now, order, finished);
      Inv(r, w.h.(notices := w.h.notices + [n])) && OnlyTelemetry(w.tel, r)
  {
    var h' := w.h.(notices := w.h.notices + [n]);
    NoticeExtends(w.tel, w.h, n);
    if lock.Acquired? {
      MarksBelow(w.h);
      LockedNotifyKeeps(w.tel, h', n, now, order, finished);
    } else {
      InvFrame(w.tel, Blocked(w.tel, lock), h');
    }
  }

  lemma NotifyStepKeeps(w: World, a: Action)
    requires WorldInv(w) && Enabled(w, a) && a.Notify?
    ensures Inv(Next(w, a).tel, Next(w, a).h)
    ensures OnlyTelemetry(w.tel, Next(w, a).tel)
  {
    LiveIsNotDeparting(w, a.sid);
    NotifyKeeps(w, Notice(a.sid, a.key, a.outcome), a.lock, a.now, a.order, a.finished);
  }

  lemma MarksBelow(h: History)
    requires forall id :: id in h.pubs ==> PublicationOk(h, h.pubs[id])
    ensures forall id :: id in h.pubs ==> h.pubs[id].mark <= |h.notices|
  {
  }

  lemma LockedBeginKeeps(w: World, id: EventId, key: Key, now: Instant, order: seq<EventId>)
    requires Inv(w.tel, w.h)
    ensures var s := ExpireAll(w.tel, order, now);
      && Inv(s, w.h) && OnlyTelemetry(w.tel, s)
      && Inv(RefusePublish(s, id, key, now), w.h) && OnlyTelemetry(w.tel, RefusePublish(s, id, key, now))
  {
    ExpireAllKeeps(w.tel, w.h, order, now);
    RefusePublishKeeps(ExpireAll(w.tel, order, now), w.h, id, key, now);
  }

  lemma BeginState(w: World, lock: Lock, id: EventId, key: Key, now: Instant, order: seq<EventId>)
    ensures var r := BeginPublish(w, lock, id, key, now, order); var s := ExpireAll(w.tel, order, now);
      && r.tel == (if !lock.Acquired? then Blocked(w.tel, lock)
                   else if Publishes(s, id, key, now) then s else RefusePublish(s, id, key, now))
      && r.h == w.h && r.phases == w.phases
  {
  }

  lemma BeginStepKeeps(w: World, a: Action)
    requires Inv(w.tel, w.h) && a.Publish?
    ensures Inv(BeginPublish(w, a.lock, a.id, a.key, a.now, a.order).tel, w.h)
    ensures OnlyTelemetry(w.tel, BeginPublish(w, a.lock, a.id, a.key, a.now, a.order).tel)
  {
    BeginState(w, a.lock, a.id, a.key, a.now, a.order);
    if a.lock.Acquired? {
      LockedBeginKeeps(w, a.id, a.key, a.now, a.order);
    } else {
      InvFrame(w.tel, Blocked(w.tel, a.lock), w.h);
    }
  }

  lemma PublicationDescribes(w: World)
    requires WorldInv(w) && w.publishing.UntrackedRead?
    ensures Describes(w.tel, w.h, w.publishing.id, w.publishing.key, w.publishing.now, PublicationOf(w))
  {
  }

  lemma EndStepKeeps(w: World)
    requires WorldInv(w) && w.publishing.UntrackedRead?
    ensures Inv(EndPublish(w).tel, EndPublish(w).h) && OnlyTelemetry(w.tel, EndPublish(w).tel)
  {
    var p := w.publishing;
    PublicationDescribes(w);
    if RosterDegraded(w.tel.active, PublicationOf(w).loads) {
      DegradedKeeps(w.tel, w.h, p.id, p.key, p.now, PublicationOf(w));
    } else {
      CleanPublishKeeps(w.tel, w.h, p.id, p.key, p.now, PublicationOf(w));
    }
  }

  lemma ObserveStepKeeps(w: World, a: Action)
    requires WorldInv(w) && a.ObserveUpstream?
    ensures Inv(Observe(w.tel, a.lock, a.key, a.source, a.now, a.order).0, w.h)
    ensures OnlyTelemetry(w.tel, Observe(w.tel, a.lock, a.key, a.source, a.now, a.order).0)
  {
    if |a.key| > MAX_CORRELATION_KEY_BYTES || !a.lock.Acquired? {
      InvFrame(w.tel, Observe(w.tel, a.lock, a.key, a.source, a.now, a.order).0, w.h);
    } else {
      ExpireAllKeeps(w.tel, w.h, a.order, a.now);
      ObserveKeeps(ExpireAll(w.tel, a.order, a.now), w.h, a.key, a.source, a.now);
    }
  }

  lemma ReadyStepKeeps(w: World, a: Action)
    requires WorldInv(w) && a.Ready?
    ensures Inv(MarkReady(w.tel, a.lock, a.id, a.now, a.order), w.h)
    ensures OnlyTelemetry(w.tel, MarkReady(w.tel, a.lock, a.id, a.now, a.order))
  {
    if a.lock.Acquired? {
      ExpireAllKeeps(w.tel, w.h, a.order, a.now);
      MarkReadyKeeps(ExpireAll(w.tel, a.order, a.now), w.h, a.id, a.now);
    } else {
      InvFrame(w.tel, Blocked(w.tel, a.lock), w.h);
    }
  }

  lemma FailStepKeeps(w: World, a: Action)
    requires WorldInv(w) && a.Fail?
    ensures Inv(FailEvent(w.tel, a.lock, a.id, Caller(a.reason), a.now), w.h)
    ensures OnlyTelemetry(w.tel, FailEvent(w.tel, a.lock, a.id, Caller(a.reason), a.now))
  {
    if a.lock.Acquired? {
      FailureKeeps(w.tel, w.h, a.id, Caller(a.reason), a.now);
    } else {
      InvFrame(w.tel, Blocked(w.tel, a.lock), w.h);
    }
  }

  lemma ExpireStepKeeps(w: World, a: Action)
    requires WorldInv(w) && a.ExpireEvents?
    ensures Inv(Expire(w.tel, a.lock, a.now, a.order), w.h)
    ensures OnlyTelemetry(w.tel, Expire(w.tel, a.lock, a.now, a.order))
  {
    if a.lock.Acquired? {
      ExpireAllKeeps(w.tel, w.h, a.order, a.now);
    } else {
      InvFrame(w.tel, Blocked(w.tel, a.lock), w.h);
    }
  }

  lemma LeaveEndKeeps(w: World, a: Action)
    requires WorldInv(w) && a.LeaveEnd? && InPhase(w, a.sid, LeavingTracked)
    requires Enumerates(a.finished, Emptied(w.tel.events, a.sid, None))
    ensures var r := LeaveRoster(w.tel, a.lock, a.sid, a.now, a.finished);
      Inv(r, w.h) && r.enabled
      && Accounting(r.active, r.counters, w.phases[a.sid := if a.lock.Acquired? then GoneClean else GoneStale])
  {
    LeaveEndAccounting(w.tel, w.phases, a.sid);
    LeaveRosterKeeps(w.tel, w.h, a.lock, a.sid, a.now, a.finished);
    var base := if a.lock.Acquired? then w.tel.(active := w.tel.active - {a.sid})
                else w.tel.(counters := StaleLeave(w.tel.counters));
    AccountingFrame(base, LeaveRoster(w.tel, a.lock, a.sid, a.now, a.finished),
                    w.phases[a.sid := if a.lock.Acquired? then GoneClean else GoneStale]);
  }

  predicate MovesSession(a: Action) {
    a.Connect? || a.JoinBegin? || a.JoinEnd? || a.LeaveBegin? || a.LeaveEnd?
  }

  lemma SessionStepKeeps(w: World, a: Action)
    requires WorldInv(w) && Enabled(w, a) && MovesSession(a)
    ensures Next(w, a).tel.enabled
    ensures Inv(Next(w, a).tel, Next(w, a).h)
    ensures Accounting(Next(w, a).tel.active, Next(w, a).tel.counters, Next(w, a).phases)
  {
    if a.LeaveEnd? {
      if w.phases[a.sid].LeavingTracked? {
        LeaveEndKeeps(w, a);
      } else {
        LeaveEndAccounting(w.tel, w.phases, a.sid);
        InvFrame(w.tel, LeaveUntracked(w.tel), w.h);
      }
    } else {
      OtherMoveKeeps(w, a);
    }
  }

  lemma OtherMoveKeeps(w: World, a: Action)
    requires WorldInv(w) && Enabled(w, a) && MovesSession(a) && !a.LeaveEnd?
    ensures Next(w, a).tel.enabled
    ensures Inv(Next(w, a).tel, Next(w, a).h)
    ensures Accounting(Next(w, a).tel.active, Next(w, a).tel.counters, Next(w, a).phases)
  {
    match a
    case Connect(sid) =>
      ConnectAccounting(w, sid);
    case JoinBegin(sid) =>
      JoinBeginAccounting(w.tel, w.phases, sid);
      InvFrame(w.tel, CountJoin(w.tel), w.h);
    case JoinEnd(sid, lock) =>
      JoinEndKeeps(w, sid, lock);
    case LeaveBegin(sid) =>
      LeaveBeginAccounting(w.tel, w.phases, sid);
      InvFrame(w.tel, CountLeave(w.tel), w.h);
  }

  lemma JoinEndKeeps(w: World, sid: SessionId, lock: Lock)
    requires WorldInv(w) && InPhase(w, sid, Joining)
    ensures var (r, tracked) := EnterRoster(w.tel, lock, sid);
      && r.enabled && Inv(r, w.h)
      && Accounting(r.active, r.counters, w.phases[sid := if tracked then Tracked else Untracked])
  {
    JoinEndAccounting(w.tel, w.phases, lock, sid);
    InvFrame(w.tel, EnterRoster(w.tel, lock, sid).0, w.h);
  }

  lemma TelemetryStepKeeps(w: World, a: Action)
    requires WorldInv(w) && Enabled(w, a) && !MovesSession(a)
    ensures Inv(Next(w, a).tel, Next(w, a).h)
    ensures OnlyTelemetry(w.tel, Next(w, a).tel)
  {
    if IsPublishing(a) {
      PublishingStepKeeps(w, a);
    } else if a.Notify? {
      NotifyStepKeeps(w, a);
    } else {
      OtherStepKeeps(w, a);
    }
  }

  lemma TelemetryStepPhases(w: World, a: Action)
    requires w.tel.enabled && Enabled(w, a) && !MovesSession(a)
    ensures Next(w, a).phases == w.phases
  {
  }

  lemma PublishingStepKeeps(w: World, a: Action)
    requires WorldInv(w) && Enabled(w, a) && IsPublishing(a)
    ensures Inv(Next(w, a).tel, Next(w, a).h)
    ensures OnlyTelemetry(w.tel, Next(w, a).tel)
  {
    if a.Publish? {
      BeginState(w, a.lock, a.id, a.key, a.now, a.order);
      BeginStepKeeps(w, a);
    } else if a.FinishPublish? {
      EndStepKeeps(w);
    }
  }

  lemma OtherStepKeeps(w: World, a: Action)
    requires WorldInv(w) && Enabled(w, a) && !MovesSession(a) && !IsPublishing(a) && !a.Notify?
    ensures Inv(Next(w, a).tel, Next(w, a).h)
    ensures OnlyTelemetry(w.tel, Next(w, a).tel)
  {
    if a.ObserveUpstream? {
      ObserveStepKeeps(w, a);
    } else if a.Ready? {
      ReadyStepKeeps(w, a);
    } else if a.Fail? {
      FailStepKeeps(w, a);
    } else if a.ExpireEvents? {
      ExpireStepKeeps(w, a);
    } else {
      InvFrame(w.tel, Next(w, a).tel, w.h);
    }
  }

  predicate IsPublishing(a: Action) {
    a.Publish? || a.LoadTotal? || a.LoadUntracked? || a.FinishPublish?
  }

  /** A step never takes a session back to an earlier phase. */
  lemma OnwardStep(w: World, a: Action)
    requires w.tel.enabled && Enabled(w, a)
    ensures Onward(w.phases, Next(w, a).phases)
  {
  }

  lemma OnwardTrans(a: map<SessionId, Phase>, b: map<SessionId, Phase>, c: map<SessionId, Phase>)
    requires Onward(a, b) && Onward(b, c)
    ensures Onward(a, c)
  {
  }

  lemma AllOnwardStep(w: World, a: Action)
    requires w.tel.enabled && AllOnward(w) && Enabled(w, a)
    ensures AllOnward(Next(w, a))
  {
    OnwardStep(w, a);
    forall id | id in w.h.pubs
      ensures Onward(w.h.pubs[id].last, Next(w, a).phases)
    {
      OnwardTrans(w.h.pubs[id].last, w.phases, Next(w, a).phases);
    }
  }

  /** While a publication holds the lock nobody else touches the events or the roster. */
  lemma LockHeld(w: World, a: Action)
    requires w.tel.enabled && Enabled(w, a) && !w.publishing.Idle? && !IsPublishing(a)
    ensures Next(w, a).tel.events == w.tel.events && Next(w, a).tel.active == w.tel.active
  {
    if MovesSession(a) {
      LockHeldByOther(w, a);
    } else {
      RefusedCall(w, a);
    }
  }

  lemma LockHeldByOther(w: World, a: Action)
    requires w.tel.enabled && Enabled(w, a) && !w.publishing.Idle? && MovesSession(a)
    ensures Next(w, a).tel.events == w.tel.events && Next(w, a).tel.active == w.tel.active
  {
  }

  lemma RefusedCall(w: World, a: Action)
    requires w.tel.enabled && Enabled(w, a) && !w.publishing.Idle? && !IsPublishing(a) && !MovesSession(a)
    ensures Next(w, a).tel.events == w.tel.events && Next(w, a).tel.active == w.tel.active
  {
  }

  lemma PublishingStep(w: World, a: Action)
    requires WorldInv(w) && Enabled(w, a)
    ensures PublishingOk(Next(w, a))
  {
    if IsPublishing(a) {
      if a.Publish? && !w.publishing.Idle? {
        PublishingMoves(w, BeginPublish(w, a.lock, a.id, a.key, a.now, a.order));
      } else {
        LoadStep(w, a);
      }
    } else if !w.publishing.Idle? {
      LockHeld(w, a);
      OnwardStep(w, a);
      PublishingMoves(w, Next(w, a));
    }
  }

  lemma LoadStep(w: World, a: Action)
    requires PublishingOk(w) && Accounting(w.tel.active, w.tel.counters, w.phases) && w.tel.enabled
    requires Enabled(w, a) && IsPublishing(a) && (a.Publish? ==> w.publishing.Idle?)
    ensures PublishingOk(Next(w, a))
  {
  }

  lemma PublishingMoves(w: World, r: World)
    requires PublishingOk(w) && r.publishing == w.publishing && Onward(w.phases, r.phases)
    requires r.tel.events == w.tel.events && r.tel.active == w.tel.active
    ensures PublishingOk(r)
  {
    match w.publishing
    case TotalRead(_, _, _, _, first) => OnwardTrans(first, w.phases, r.phases);
    case UntrackedRead(_, _, _, _, _, _, second) => OnwardTrans(second, w.phases, r.phases);
    case _ =>
  }

  lemma StepKeeps(w: World, a: Action)
    requires WorldInv(w) && Enabled(w, a)
    ensures WorldInv(Next(w, a))
  {
    if MovesSession(a) {
      SessionStepKeeps(w, a);
    } else {
      TelemetryStepKeeps(w, a);
      TelemetryStepPhases(w, a);
      AccountingFrame(w.tel, Next(w, a).tel, w.phases);
    }
    AllOnwardStep(w, a);
    PublishingStep(w, a);
  }

  lemma {:induction false} RunKeeps(w: World, actions: seq<Action>, w': World)
    requires WorldInv(w) && Reaches(w, actions, w')
    ensures WorldInv(w')
    decreases |actions|
  {
    if actions != [] {
      StepKeeps(w, actions[0]);
      RunKeeps(Next(w, actions[0]), actions[1..], w');
    }
  }
}
