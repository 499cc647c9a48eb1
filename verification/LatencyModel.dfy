/**
 Replacement-latency telemetry: the abstract state and what each public operation does to it.

 An operation that cannot take the lock only moves counters, so every operation takes the outcome of
 its `try_lock`.  Hash containers are iterated in an unspecified order, so operations that finish
 several events at once take that order as an argument.
 */
module LatencyModel {
  import opened Prelude

  type Instant = nat // nanoseconds on the monotonic clock
  type SessionId = nat
  type EventId = nat
  type Key = string

  const MAX_IN_FLIGHT_EVENTS: nat := 16
  const MAX_TRACKED_SESSIONS: nat := 1024
  const MAX_COMPLETED_SUMMARIES: nat := 16
  const MAX_LOGS_PER_MINUTE: nat := 120
  const MAX_LOG_QUEUE: nat := 16
  const MAX_CORRELATION_KEY_BYTES: nat := 128
  const EVENT_TIMEOUT: nat := 30_000_000_000
  const LOG_WINDOW: nat := 60_000_000_000
  const NANOS_PER_MILLI: nat := 1_000_000

  datatype UpstreamClass = PrimaryAlreadyReady | IndependentSentinelAhead
  datatype FanoutOutcome = Success | Failed | Skipped
  datatype Status = Complete | Failure | Timeout | TrackingGap
  datatype Reason =
    | AllNotified | PartialNotifyFailure | PartialNotifySkip | ZeroSessions
    | SessionDisconnected | Superseded | UntrackedSessions
    | StaleSessionRoster | SessionRosterInconsistent
    | OutOfOrder | ReplacementKeyOversize | StageTimeout | Caller(text: string)
  datatype Lock = Acquired | WouldBlock | Poisoned

  datatype Counters = Counters(
    droppedEvents: nat, droppedSessions: nat, untrackedSessions: nat, untrackedActive: nat,
    rosterCleanupFailures: nat, staleTracked: nat, droppedLogs: nat, activeTotal: nat,
    lockContention: nat, lockPoisoned: nat, outOfOrder: nat)

  datatype Event = Event(
    id: EventId, source: UpstreamClass, dedupeKey: Key, replacementKey: Option<Key>,
    observedAt: Instant, aReadyAt: Option<Instant>, publishedAt: Option<Instant>,
    targetSessions: nat, pending: set<SessionId>,
    notifySuccess: nat, notifyFailed: nat, notifySkipped: nat,
    trackingGap: nat, staleRoster: nat)

  datatype Summary = Summary(
    id: EventId, source: UpstreamClass, status: Status, reason: Reason,
    observedToReady: Option<nat>, readyToPublished: Option<nat>,
    publishedToFanout: Option<nat>, total: Option<nat>,
    targetSessions: nat, notifySuccess: nat, notifyFailed: nat, notifySkipped: nat,
    trackingGap: nat, staleRoster: nat, counters: Counters)

  /** `emitted` is the history of every summary ever produced; `completed` is the bounded ring the code keeps. */
  datatype State = State(
    enabled: bool, nextId: EventId, counters: Counters,
    active: set<SessionId>, events: map<EventId, Event>,
    dedupe: map<Key, EventId>, published: map<Key, EventId>,
    completed: seq<Summary>, logWindowStarted: Instant, logsInWindow: nat,
    hasSender: bool, logQueue: seq<Summary>, emitted: seq<Summary>)

  const ZERO_COUNTERS := Counters(0, 0, 0, 0, 0, 0, 0, 0, 0, 0, 0)

  function Initial(enabled: bool, hasSender: bool, now: Instant): State {
    State(enabled, 1, ZERO_COUNTERS, {}, map[], map[], map[], [], now, 0, hasSender, [], [])
  }

  function LockFailed(c: Counters, lock: Lock): Counters
    requires !lock.Acquired?
  {
    match lock
    case WouldBlock => c.(lockContention := c.lockContention + 1)
    case Poisoned => c.(lockPoisoned := c.lockPoisoned + 1)
  }

  function Blocked(s: State, lock: Lock): State
    requires !lock.Acquired?
  {
    s.(counters := LockFailed(s.counters, lock))
  }

  /** Whole milliseconds between two instants, absent when either is missing or they run backwards. */
  function ElapsedMs(start: Option<Instant>, end: Option<Instant>): Option<nat> {
    if start.Some? && end.Some? && start.value <= end.value then
      var ms := (end.value - start.value) / NANOS_PER_MILLI;
      Some(if ms < U64_MAX then ms else U64_MAX)
    else None
  }

  function Summarize(e: Event, status: Status, reason: Reason, now: Instant, c: Counters): Summary {
    var observable := status != TrackingGap;
    Summary(
      e.id, e.source, status, reason,
      ElapsedMs(Some(e.observedAt), e.aReadyAt),
      ElapsedMs(e.aReadyAt, e.publishedAt),
      if observable then ElapsedMs(e.publishedAt, Some(now)) else None,
      if observable then ElapsedMs(Some(e.observedAt), Some(now)) else None,
      e.targetSessions, e.notifySuccess, e.notifyFailed, e.notifySkipped + |e.pending|,
      e.trackingGap, e.staleRoster, c)
  }

  /** A log line is allowed while fewer than MAX_LOGS_PER_MINUTE went out in the current window. */
  function RollWindow(s: State, now: Instant): State {
    if s.logWindowStarted <= now && now - s.logWindowStarted >= LOG_WINDOW
    then s.(logWindowStarted := now, logsInWindow := 0) else s
  }

  function DropLog(s: State): State {
    s.(counters := s.counters.(droppedLogs := s.counters.droppedLogs + 1))
  }

  function LogSummary(s: State, summary: Summary, now: Instant): State {
    var s := RollWindow(s, now);
    if s.logsInWindow >= MAX_LOGS_PER_MINUTE then DropLog(s)
    else
      var s := s.(logsInWindow := s.logsInWindow + 1);
      if !s.hasSender then s
      else if |s.logQueue| >= MAX_LOG_QUEUE then DropLog(s)
      else s.(logQueue := s.logQueue + [summary])
  }

  function PushCompleted(ring: seq<Summary>, summary: Summary): seq<Summary> {
    (if |ring| >= MAX_COMPLETED_SUMMARIES then ring[1..] else ring) + [summary]
  }

  /** Takes an event out of the map and both indexes. */
  function Forget(s: State, id: EventId): State
    requires id in s.events
  {
    var e := s.events[id];
    s.(events := s.events - {id},
       dedupe := s.dedupe - {e.dedupeKey},
       published := if e.replacementKey.Some? then s.published - {e.replacementKey.value} else s.published)
  }

  function Finish(s: State, id: EventId, status: Status, reason: Reason, now: Instant): State {
    if id !in s.events then s
    else
      var summary := Summarize(s.events[id], status, reason, now, s.counters);
      var s1 := Forget(s, id);
      LogSummary(
        s1.(completed := PushCompleted(s1.completed, summary), emitted := s1.emitted + [summary]),
        summary, now)
  }

  function FinishFanout(s: State, id: EventId, reason: Reason, now: Instant): State {
    if id in s.events && s.events[id].trackingGap > 0
    then Finish(s, id, TrackingGap, UntrackedSessions, now)
    else Finish(s, id, Complete, reason, now)
  }

  function FinishFanoutAll(s: State, ids: seq<EventId>, reason: Reason, now: Instant): State {
    if ids == [] then s
    else FinishFanout(FinishFanoutAll(s, ids[..|ids| - 1], reason, now), ids[|ids| - 1], reason, now)
  }

  predicate IsExpired(e: Event, now: Instant) {
    e.observedAt <= now && now - e.observedAt >= EVENT_TIMEOUT
  }

  function Expired(s: State, now: Instant): set<EventId> {
    set id | id in s.events && IsExpired(s.events[id], now)
  }

  function ExpireAll(s: State, ids: seq<EventId>, now: Instant): State {
    if ids == [] then s
    else Finish(ExpireAll(s, ids[..|ids| - 1], now), ids[|ids| - 1], Timeout, StageTimeout, now)
  }

  function CountDroppedEvent(s: State): State {
    s.(counters := s.counters.(droppedEvents := s.counters.droppedEvents + 1))
  }

  function NewEvent(id: EventId, source: UpstreamClass, key: Key, now: Instant): Event {
    Event(id, source, key, None, now, None, None, 0, {}, 0, 0, 0, 0, 0)
  }

  /** Observing an upstream tip, once the lock is held and timed-out events are gone. */
  function ObserveLocked(s: State, key: Key, source: UpstreamClass, now: Instant): (State, Option<EventId>) {
    if key in s.dedupe && s.dedupe[key] in s.events then (s, Some(s.dedupe[key]))
    else Admit(s.(dedupe := s.dedupe - {key}), key, NewEvent(s.nextId, source, key, now))
  }

  function Admit(s: State, key: Key, e: Event): (State, Option<EventId>) {
    if |s.events| >= MAX_IN_FLIGHT_EVENTS then (CountDroppedEvent(s), None)
    else (s.(nextId := s.nextId + 1, dedupe := s.dedupe[key := e.id], events := s.events[e.id := e]), Some(e.id))
  }

  function Observe(s: State, lock: Lock, key: Key, source: UpstreamClass, now: Instant, order: seq<EventId>)
    : (State, Option<EventId>)
  {
    if !s.enabled then (s, None)
    else if |key| > MAX_CORRELATION_KEY_BYTES then (CountDroppedEvent(s), None)
    else if !lock.Acquired? then (Blocked(s, lock), None)
    else ObserveLocked(ExpireAll(s, order, now), key, source, now)
  }

  predicate ReadyOutOfOrder(e: Event, now: Instant) {
    e.publishedAt.Some? || now < e.observedAt
  }

  function CountOutOfOrder(s: State): State {
    s.(counters := s.counters.(outOfOrder := s.counters.outOfOrder + 1))
  }

  function MarkReadyLocked(s: State, id: EventId, now: Instant): State {
    if id !in s.events then s
    else
      var e := s.events[id];
      if ReadyOutOfOrder(e, now) then Finish(CountOutOfOrder(s), id, Failure, OutOfOrder, now)
      else if e.aReadyAt.None? then s.(events := s.events[id := e.(aReadyAt := Some(now))])
      else s
  }

  function MarkReady(s: State, lock: Lock, id: EventId, now: Instant, order: seq<EventId>): State {
    if !s.enabled then s
    else if !lock.Acquired? then Blocked(s, lock)
    else MarkReadyLocked(ExpireAll(s, order, now), id, now)
  }

  predicate PublishOutOfOrder(e: Event, now: Instant) {
    e.aReadyAt.None? || e.publishedAt.Some? || now < e.aReadyAt.value
  }

  /** The publication is in order: it will set the publication time of event `id`. */
  predicate Publishes(s: State, id: EventId, key: Key, now: Instant) {
    |key| <= MAX_CORRELATION_KEY_BYTES && id in s.events && !PublishOutOfOrder(s.events[id], now)
  }

  /** What becomes of a publication that is not in order. */
  function RefusePublish(s: State, id: EventId, key: Key, now: Instant): State {
    if |key| > MAX_CORRELATION_KEY_BYTES then
      Finish(CountDroppedEvent(s), id, Failure, ReplacementKeyOversize, now)
    else if id in s.events && PublishOutOfOrder(s.events[id], now) then
      Finish(CountOutOfOrder(s), id, Failure, OutOfOrder, now)
    else s
  }

  /**
   The three counters a publication loads, one after another.  The lock does not protect them: sessions move them
   between the loads, although nobody can enter or leave the roster meanwhile.
   */
  datatype Loads = Loads(total: nat, untracked: nat, stale: nat)

  /** The roster the counters promise: every counted session that was not left untracked. */
  function ExpectedTracked(l: Loads): nat {
    Monus(l.total, l.untracked)
  }

  predicate RosterDegraded(roster: set<SessionId>, l: Loads) {
    l.stale > 0 || |roster| != ExpectedTracked(l)
  }

  function DegradedEvent(s: State, e: Event, key: Key, now: Instant, l: Loads): Event {
    e.(publishedAt := Some(now), replacementKey := Some(key), targetSessions := l.total,
       notifySkipped := l.total, trackingGap := l.total,
       staleRoster := Max(l.stale, Monus(|s.active|, l.total)))
  }

  function DegradedReason(roster: set<SessionId>, l: Loads): Reason {
    if l.stale > 0 || |roster| > l.total then StaleSessionRoster else SessionRosterInconsistent
  }

  function PublishedEvent(s: State, e: Event, key: Key, now: Instant, l: Loads): Event {
    e.(publishedAt := Some(now), replacementKey := Some(key), targetSessions := l.total, pending := s.active,
       notifySkipped := l.untracked, trackingGap := l.untracked)
  }

  /** The publication itself, with the counters it loaded. */
  function PublishLoaded(s: State, id: EventId, key: Key, now: Instant, l: Loads): State {
    if id !in s.events then s
    else
      var e := s.events[id];
      if RosterDegraded(s.active, l) then
        Finish(s.(events := s.events[id := DegradedEvent(s, e, key, now, l)]), id, TrackingGap,
               DegradedReason(s.active, l), now)
      else
        var s1 := s.(events := s.events[id := PublishedEvent(s, e, key, now, l)],
                     published := s.published[key := id]);
        if s.active != {} then s1
        else if l.total == 0 then Finish(s1, id, Complete, ZeroSessions, now)
        else Finish(s1, id, TrackingGap, UntrackedSessions, now)
  }

  /** A publication under the lock, during which the counters became `second` and then `last` between the loads. */
  function MarkPublishedLocked(s: State, id: EventId, key: Key, now: Instant, second: Counters, last: Counters): State {
    if Publishes(s, id, key, now)
    then PublishLoaded(s.(counters := last), id, key, now,
                       Loads(s.counters.activeTotal, second.untrackedActive, last.staleTracked))
    else RefusePublish(s, id, key, now)
  }

  function MarkPublished(
      s: State, lock: Lock, id: EventId, key: Key, now: Instant, order: seq<EventId>, second: Counters, last: Counters)
    : State
  {
    if !s.enabled then s
    else if !lock.Acquired? then Blocked(s, lock)
    else MarkPublishedLocked(ExpireAll(s, order, now), id, key, now, second, last)
  }

  function FailEvent(s: State, lock: Lock, id: EventId, reason: Reason, now: Instant): State {
    if !s.enabled then s
    else if !lock.Acquired? then Blocked(s, lock)
    else Finish(s, id, Failure, reason, now)
  }

  function Expire(s: State, lock: Lock, now: Instant, order: seq<EventId>): State {
    if !s.enabled then s
    else if !lock.Acquired? then Blocked(s, lock)
    else ExpireAll(s, order, now)
  }

  // A session joins in two steps, because the active counter moves before the lock is tried.

  function CountJoin(s: State): State {
    if !s.enabled then s
    else s.(counters := s.counters.(activeTotal := s.counters.activeTotal + 1))
  }

  function CountUntracked(c: Counters): Counters {
    c.(droppedSessions := c.droppedSessions + 1,
       untrackedSessions := c.untrackedSessions + 1,
       untrackedActive := c.untrackedActive + 1)
  }

  function EnterRoster(s: State, lock: Lock, sid: SessionId): (State, bool) {
    if !lock.Acquired? then
      (s.(counters := CountUntracked(LockFailed(s.counters, lock))), false)
    else if |s.active| >= MAX_TRACKED_SESSIONS then (s.(counters := CountUntracked(s.counters)), false)
    else if sid in s.active then (s.(counters := CountUntracked(s.counters)), false)
    else (s.(active := s.active + {sid}), true)
  }

  // A session leaves in two steps for the same reason.

  function CountLeave(s: State): State {
    if !s.enabled then s
    else s.(counters := s.counters.(activeTotal := Monus(s.counters.activeTotal, 1)))
  }

  function LeaveUntracked(s: State): State {
    s.(counters := s.counters.(untrackedActive := Monus(s.counters.untrackedActive, 1)))
  }

  function StaleLeave(c: Counters): Counters {
    c.(rosterCleanupFailures := c.rosterCleanupFailures + 1, staleTracked := c.staleTracked + 1)
  }

  function DropFrom(e: Event, sid: SessionId): Event {
    if sid in e.pending then e.(pending := e.pending - {sid}, notifySkipped := e.notifySkipped + 1) else e
  }

  /** Removes a session from every event waiting for it, except `keep`. */
  function DropPending(events: map<EventId, Event>, sid: SessionId, keep: Option<EventId>): map<EventId, Event> {
    map id | id in events :: if keep == Some(id) then events[id] else DropFrom(events[id], sid)
  }

  predicate LastPending(e: Event, sid: SessionId) {
    e.publishedAt.Some? && e.pending == {sid}
  }

  function Emptied(events: map<EventId, Event>, sid: SessionId, keep: Option<EventId>): set<EventId> {
    set id | id in events && keep != Some(id) && LastPending(events[id], sid)
  }

  function LeaveRoster(s: State, lock: Lock, sid: SessionId, now: Instant, finished: seq<EventId>): State {
    if !lock.Acquired? then s.(counters := StaleLeave(LockFailed(s.counters, lock)))
    else
      var s := if sid in s.active then s.(active := s.active - {sid})
               else s.(counters := s.counters.(rosterCleanupFailures := s.counters.rosterCleanupFailures + 1));
      FinishFanoutAll(s.(events := DropPending(s.events, sid, None)), finished, SessionDisconnected, now)
  }

  function CountOutcome(e: Event, outcome: FanoutOutcome): Event {
    match outcome
    case Success => e.(notifySuccess := e.notifySuccess + 1)
    case Failed => e.(notifyFailed := e.notifyFailed + 1)
    case Skipped => e.(notifySkipped := e.notifySkipped + 1)
  }

  function Deliver(e: Event, sid: SessionId, outcome: FanoutOutcome): Event {
    CountOutcome(e.(pending := e.pending - {sid}), outcome)
  }

  function FanoutReason(e: Event): Reason {
    if e.notifyFailed > 0 then PartialNotifyFailure
    else if e.notifySkipped > 0 then PartialNotifySkip
    else AllNotified
  }

  function CreditFanout(s: State, id: EventId, sid: SessionId, outcome: FanoutOutcome, now: Instant): State {
    if id !in s.events || sid !in s.events[id].pending then s
    else
      var e := Deliver(s.events[id], sid, outcome);
      var s := s.(events := s.events[id := e]);
      if e.pending == {} then FinishFanout(s, id, FanoutReason(e), now) else s
  }

  function SupersedeOthers(s: State, id: EventId, sid: SessionId, now: Instant, finished: seq<EventId>): State {
    FinishFanoutAll(s.(events := DropPending(s.events, sid, Some(id))), finished, Superseded, now)
  }

  function RecordFanoutLocked(
      s: State, sid: SessionId, key: Key, outcome: FanoutOutcome, now: Instant, finished: seq<EventId>): State
  {
    if key !in s.published then s
    else
      var id := s.published[key];
      CreditFanout(SupersedeOthers(s, id, sid, now, finished), id, sid, outcome, now)
  }

  /** The events that lose their last waiting session when `sid` is credited to the job `key`. */
  function SupersededBy(s: State, sid: SessionId, key: Key): set<EventId> {
    if key in s.published then Emptied(s.events, sid, Some(s.published[key])) else {}
  }

  function RecordFanout(
      s: State, lock: Lock, sid: SessionId, key: Key, outcome: FanoutOutcome, now: Instant,
      order: seq<EventId>, finished: seq<EventId>): State
  {
    if !s.enabled then s
    else if !lock.Acquired? then Blocked(s, lock)
    else RecordFanoutLocked(ExpireAll(s, order, now), sid, key, outcome, now, finished)
  }
}
