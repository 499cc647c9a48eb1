/**
 Replacement-latency telemetry in the form the bridge runs it: methods that update shared state in place.

 Each method is proved to make exactly the step `LatencyModel` gives for it.  The outcome of `try_lock` is an
 argument, and the order in which a hash container happened to be iterated is a ghost result.  What other sessions
 make of the counters while a publication loads them is an argument too.
 */
module LatencyTelemetry {
  import opened Prelude
  import opened LatencyModel

  /** The event map after the session was taken off the events in `done` only. */
  function DropAt(events: map<EventId, Event>, done: set<EventId>, sid: SessionId, keep: Option<EventId>)
    : map<EventId, Event>
  {
    map id | id in events :: if id in done then DropPending(events, sid, keep)[id] else events[id]
  }

  lemma DropNext(events: map<EventId, Event>, done: set<EventId>, id: EventId, sid: SessionId, keep: Option<EventId>)
    requires id in events && id !in done
    ensures DropAt(events, done + {id}, sid, keep)
              == DropAt(events, done, sid, keep)[id := if keep == Some(id) then events[id] else DropFrom(events[id], sid)]
    ensures Emptied(events, sid, keep) * (done + {id})
              == Emptied(events, sid, keep) * done
                 + (if keep != Some(id) && LastPending(events[id], sid) then {id} else {})
  {
  }

  class ReplacementLatencyTelemetry {
    const enabled: bool
    const hasSender: bool
    var nextId: EventId
    var counters: Counters
    var active: set<SessionId>
    var events: map<EventId, Event>
    var dedupe: map<Key, EventId>
    var published: map<Key, EventId>
    var completed: seq<Summary>
    var logWindowStarted: Instant
    var logsInWindow: nat
    var logQueue: seq<Summary>
    ghost var emitted: seq<Summary>

    ghost function View(): State
      reads this
    {
      State(enabled, nextId, counters, active, events, dedupe, published,
            completed, logWindowStarted, logsInWindow, hasSender, logQueue, emitted)
    }

    constructor (enabled: bool, hasSender: bool, now: Instant)
      ensures View() == Initial(enabled, hasSender, now)
    {
      this.enabled, this.hasSender := enabled, hasSender;
      nextId, counters := 1, ZERO_COUNTERS;
      active, events, dedupe, published := {}, map[], map[], map[];
      completed, logWindowStarted, logsInWindow, logQueue := [], now, 0, [];
      emitted := [];
    }

    method TryState(lock: Lock) returns (held: bool)
      modifies this`counters
      ensures held == lock.Acquired?
      ensures View() == if held then old(View()) else Blocked(old(View()), lock)
    {
      match lock
      case Acquired => held := true;
      case WouldBlock =>
        counters := counters.(lockContention := counters.lockContention + 1);
        held := false;
      case Poisoned =>
        counters := counters.(lockPoisoned := counters.lockPoisoned + 1);
        held := false;
    }

    /** The window rolls over after a minute; within a window only so many summaries are logged. */
    method LogAllowed(now: Instant) returns (allowed: bool)
      modifies this`logWindowStarted, this`logsInWindow
      ensures var s := RollWindow(old(View()), now);
        allowed == (s.logsInWindow < MAX_LOGS_PER_MINUTE)
        && View() == if allowed then s.(logsInWindow := s.logsInWindow + 1) else s
    {
      if logWindowStarted <= now && now - logWindowStarted >= LOG_WINDOW {
        logWindowStarted := now;
        logsInWindow := 0;
      }
      if logsInWindow >= MAX_LOGS_PER_MINUTE {
        allowed := false;
      } else {
        logsInWindow := logsInWindow + 1;
        allowed := true;
      }
    }

    method Detach(id: EventId) returns (event: Event)
      requires id in events
      modifies this`events, this`dedupe, this`published
      ensures event == old(events)[id]
      ensures View() == Forget(old(View()), id)
    {
      event := events[id];
      events := events - {id};
      dedupe := dedupe - {event.dedupeKey};
      if event.replacementKey.Some? {
        published := published - {event.replacementKey.value};
      }
    }

    method EmitLog(summary: Summary, now: Instant)
      modifies this`counters, this`logQueue, this`logWindowStarted, this`logsInWindow
      ensures View() == LogSummary(old(View()), summary, now)
    {
      var allowed := LogAllowed(now);
      if allowed {
        if hasSender {
          if |logQueue| < MAX_LOG_QUEUE {
            logQueue := logQueue + [summary];
          } else {
            counters := counters.(droppedLogs := counters.droppedLogs + 1);
          }
        }
      } else {
        counters := counters.(droppedLogs := counters.droppedLogs + 1);
      }
    }

    method FinishLocked(id: EventId, status: Status, reason: Reason, now: Instant)
      modifies this
      ensures View() == Finish(old(View()), id, status, reason, now)
    {
      if id !in events {
        return;
      }
      var event := Detach(id);
      var summary := Summarize(event, status, reason, now, counters);
      if |completed| >= MAX_COMPLETED_SUMMARIES {
        completed := completed[1..];
      }
      completed := completed + [summary];
      emitted := emitted + [summary];
      EmitLog(summary, now);
    }

    method FinishFanoutLocked(id: EventId, reason: Reason, now: Instant)
      modifies this
      ensures View() == FinishFanout(old(View()), id, reason, now)
    {
      if id in events && events[id].trackingGap > 0 {
        FinishLocked(id, TrackingGap, UntrackedSessions, now);
      } else {
        FinishLocked(id, Complete, reason, now);
      }
    }

    method ExpireLocked(now: Instant) returns (ghost order: seq<EventId>)
      modifies this
      ensures Enumerates(order, Expired(old(View()), now))
      ensures View() == ExpireAll(old(View()), order, now)
    {
      var expired: seq<EventId> := ListSet(set id: EventId | id in events && IsExpired(events[id], now));
      order := expired;
      ghost var before := View();
      for i := 0 to |expired|
        invariant View() == ExpireAll(before, expired[..i], now)
      {
        assert expired[..i + 1][..i] == expired[..i];
        FinishLocked(expired[i], Timeout, StageTimeout, now);
      }
      assert expired[..|expired|] == expired;
    }

    method ObserveUpstreamAt(lock: Lock, key: Key, source: UpstreamClass, now: Instant)
      returns (id: Option<EventId>, ghost order: seq<EventId>)
      modifies this
      ensures (View(), id) == Observe(old(View()), lock, key, source, now, order)
      ensures lock.Acquired? && enabled && |key| <= MAX_CORRELATION_KEY_BYTES ==>
                Enumerates(order, Expired(old(View()), now))
    {
      order := [];
      if !enabled {
        return None, [];
      }
      if |key| > MAX_CORRELATION_KEY_BYTES {
        counters := counters.(droppedEvents := counters.droppedEvents + 1);
        return None, [];
      }
      var held := TryState(lock);
      if !held {
        return None, [];
      }
      order := ExpireLocked(now);
      id := ObserveKey(key, source, now);
    }

    /** The known event of this key, or a new one while there is room. */
    method ObserveKey(key: Key, source: UpstreamClass, now: Instant) returns (id: Option<EventId>)
      modifies this
      ensures (View(), id) == ObserveLocked(old(View()), key, source, now)
    {
      if key in dedupe {
        if dedupe[key] in events {
          return Some(dedupe[key]);
        }
      }
      dedupe := dedupe - {key};
      if |events| >= MAX_IN_FLIGHT_EVENTS {
        counters := counters.(droppedEvents := counters.droppedEvents + 1);
        return None;
      }
      var eventId := nextId;
      nextId := nextId + 1;
      dedupe := dedupe[key := eventId];
      events := events[eventId := NewEvent(eventId, source, key, now)];
      return Some(eventId);
    }

    method MarkAReadyAt(lock: Lock, id: EventId, now: Instant) returns (ghost order: seq<EventId>)
      modifies this
      ensures View() == MarkReady(old(View()), lock, id, now, order)
      ensures lock.Acquired? && enabled ==> Enumerates(order, Expired(old(View()), now))
    {
      order := [];
      if !enabled {
        return;
      }
      var held := TryState(lock);
      if !held {
        return;
      }
      order := ExpireLocked(now);
      if id in events && (events[id].publishedAt.Some? || now < events[id].observedAt) {
        counters := counters.(outOfOrder := counters.outOfOrder + 1);
        FinishLocked(id, Failure, OutOfOrder, now);
        return;
      }
      if id in events && events[id].aReadyAt.None? {
        events := events[id := events[id].(aReadyAt := Some(now))];
      }
    }

    /** `second` and `last` are what the counters have become when the second and the third load happen. */
    method MarkPublishedAt(lock: Lock, id: EventId, key: Key, now: Instant, second: Counters, last: Counters)
      returns (ghost order: seq<EventId>)
      modifies this
      ensures View() == MarkPublished(old(View()), lock, id, key, now, order, second, last)
      ensures lock.Acquired? && enabled ==> Enumerates(order, Expired(old(View()), now))
    {
      order := [];
      if !enabled {
        return;
      }
      var held := TryState(lock);
      if !held {
        return;
      }
      order := ExpireLocked(now);
      var inOrder := CheckOrder(id, key, now);
      if inOrder {
        PublishInOrder(id, key, now, second, last);
      }
    }

    /** Ends an event whose publication is not in order. */
    method CheckOrder(id: EventId, key: Key, now: Instant) returns (inOrder: bool)
      modifies this
      ensures inOrder == Publishes(old(View()), id, key, now)
      ensures View() == if inOrder then old(View()) else RefusePublish(old(View()), id, key, now)
    {
      if |key| > MAX_CORRELATION_KEY_BYTES {
        counters := counters.(droppedEvents := counters.droppedEvents + 1);
        FinishLocked(id, Failure, ReplacementKeyOversize, now);
        return false;
      }
      if id in events && PublishOutOfOrder(events[id], now) {
        counters := counters.(outOfOrder := counters.outOfOrder + 1);
        FinishLocked(id, Failure, OutOfOrder, now);
        return false;
      }
      return id in events;
    }

    /** The part of publishing that decides between a degraded roster and waiting for every tracked session. */
    method PublishInOrder(id: EventId, key: Key, now: Instant, second: Counters, last: Counters)
      requires id in events && |key| <= MAX_CORRELATION_KEY_BYTES && !PublishOutOfOrder(events[id], now)
      modifies this
      ensures View() == PublishLoaded(old(View()).(counters := last), id, key, now,
                                      Loads(old(counters).activeTotal, second.untrackedActive, last.staleTracked))
    {
      var total := counters.activeTotal;
      var tracked := |active|;
      counters := second;
      var untracked := counters.untrackedActive;
      counters := last;
      var stale := counters.staleTracked;
      var expected := Monus(total, untracked);
      if stale > 0 || tracked != expected {
        events := events[id := events[id].(
          publishedAt := Some(now), replacementKey := Some(key), targetSessions := total,
          notifySkipped := total, trackingGap := total, staleRoster := Max(stale, Monus(tracked, total)))];
        var reason := if stale > 0 || tracked > total then StaleSessionRoster else SessionRosterInconsistent;
        FinishLocked(id, TrackingGap, reason, now);
        return;
      }
      events := events[id := events[id].(
        publishedAt := Some(now), replacementKey := Some(key), targetSessions := total, pending := active,
        notifySkipped := untracked, trackingGap := untracked)];
      published := published[key := id];
      if active == {} {
        if total == 0 {
          FinishLocked(id, Complete, ZeroSessions, now);
        } else {
          FinishLocked(id, TrackingGap, UntrackedSessions, now);
        }
      }
    }

    method FailEventAt(lock: Lock, id: EventId, reason: string, now: Instant)
      modifies this
      ensures View() == FailEvent(old(View()), lock, id, Caller(reason), now)
    {
      if !enabled {
        return;
      }
      var held := TryState(lock);
      if held {
        FinishLocked(id, Failure, Caller(reason), now);
      }
    }

    method ExpireAt(lock: Lock, now: Instant) returns (ghost order: seq<EventId>)
      modifies this
      ensures View() == Expire(old(View()), lock, now, order)
      ensures lock.Acquired? && enabled ==> Enumerates(order, Expired(old(View()), now))
    {
      order := [];
      if !enabled {
        return;
      }
      var held := TryState(lock);
      if held {
        order := ExpireLocked(now);
      }
    }

    method CountUntrackedSession()
      modifies this`counters
      ensures View() == old(View()).(counters := CountUntracked(old(counters)))
    {
      counters := counters.(droppedSessions := counters.droppedSessions + 1);
      counters := counters.(untrackedSessions := counters.untrackedSessions + 1);
      counters := counters.(untrackedActive := counters.untrackedActive + 1);
    }

    method ActivateSession(lock: Lock, sid: SessionId) returns (counted: bool, tracked: bool)
      modifies this
      ensures counted == enabled
      ensures if enabled then (View(), tracked) == EnterRoster(CountJoin(old(View())), lock, sid)
              else View() == old(View()) && !tracked
    {
      if !enabled {
        return false, false;
      }
      counters := counters.(activeTotal := counters.activeTotal + 1);
      var held := TryState(lock);
      if !held || |active| >= MAX_TRACKED_SESSIONS {
        CountUntrackedSession();
        return true, false;
      }
      tracked := sid !in active;
      active := active + {sid};
      if !tracked {
        CountUntrackedSession();
        assert active == old(active);
      }
      return true, tracked;
    }

    /** Takes `sid` off one waiting event; reports whether a published event is left with nobody to wait for. */
    method DropOne(id: EventId, sid: SessionId, keep: Option<EventId>) returns (emptied: bool)
      requires id in events
      modifies this`events
      ensures events == old(events)[id := if keep == Some(id) then old(events)[id] else DropFrom(old(events)[id], sid)]
      ensures emptied <==> keep != Some(id) && LastPending(old(events)[id], sid)
    {
      var event := events[id];
      emptied := false;
      if keep != Some(id) && sid in event.pending {
        var left := event.(pending := event.pending - {sid}, notifySkipped := event.notifySkipped + 1);
        events := events[id := left];
        assert event.pending == {sid} + left.pending;
        emptied := left.publishedAt.Some? && left.pending == {};
      }
      assert emptied ==> event.pending == {sid};
    }

    /** Removes `sid` from every waiting event but `keep`, and lists the events nobody waits on any more. */
    method DropSession(sid: SessionId, keep: Option<EventId>) returns (emptied: seq<EventId>)
      modifies this`events
      ensures events == DropPending(old(events), sid, keep)
      ensures Enumerates(emptied, Emptied(old(events), sid, keep))
    {
      var ids := ListSet(events.Keys);
      ghost var before := events;
      ghost var done: set<EventId> := {};
      emptied := [];
      for i := 0 to |ids|
        invariant forall x :: x in done <==> x in ids[..i]
        invariant events == DropAt(before, done, sid, keep)
        invariant Enumerates(emptied, Emptied(before, sid, keep) * done)
      {
        assert ids[i] in ids && ids[i] !in ids[..i];
        assert ids[..i + 1] == ids[..i] + [ids[i]];
        DropNext(before, done, ids[i], sid, keep);
        var last := DropOne(ids[i], sid, keep);
        if last {
          EnumerateOneMore(emptied, Emptied(before, sid, keep) * done, ids[i]);
          emptied := emptied + [ids[i]];
        }
        done := done + {ids[i]};
      }
      assert ids[..|ids|] == ids;
      assert events == DropPending(before, sid, keep);
      assert Emptied(before, sid, keep) * done == Emptied(before, sid, keep);
    }

    method FinishFanouts(ids: seq<EventId>, reason: Reason, now: Instant)
      modifies this
      ensures View() == FinishFanoutAll(old(View()), ids, reason, now)
    {
      for i := 0 to |ids|
        invariant View() == FinishFanoutAll(old(View()), ids[..i], reason, now)
      {
        assert ids[..i + 1][..i] == ids[..i];
        FinishFanoutLocked(ids[i], reason, now);
      }
      assert ids[..|ids|] == ids;
    }

    method DeactivateSession(lock: Lock, sid: SessionId, counted: bool, tracked: bool, now: Instant)
      returns (ghost finished: seq<EventId>)
      modifies this
      ensures !enabled || !counted ==> View() == old(View())
      ensures enabled && counted && !tracked ==> View() == LeaveUntracked(CountLeave(old(View())))
      ensures enabled && counted && tracked ==>
                View() == LeaveRoster(CountLeave(old(View())), lock, sid, now, finished)
      ensures enabled && counted && tracked && lock.Acquired? ==>
                Enumerates(finished, Emptied(old(events), sid, None))
    {
      finished := [];
      if !enabled || !counted {
        return;
      }
      counters := counters.(activeTotal := Monus(counters.activeTotal, 1));
      if !tracked {
        counters := counters.(untrackedActive := Monus(counters.untrackedActive, 1));
        return;
      }
      finished := LeaveRosterAt(lock, sid, now);
    }

    /** Second half of leaving: off the roster and off every waiting event, if the lock can be had. */
    method LeaveRosterAt(lock: Lock, sid: SessionId, now: Instant) returns (ghost finished: seq<EventId>)
      modifies this
      ensures View() == LeaveRoster(old(View()), lock, sid, now, finished)
      ensures lock.Acquired? ==> Enumerates(finished, Emptied(old(events), sid, None))
    {
      finished := [];
      var held := TryState(lock);
      if !held {
        counters := counters.(rosterCleanupFailures := counters.rosterCleanupFailures + 1);
        counters := counters.(staleTracked := counters.staleTracked + 1);
        return;
      }
      if sid !in active {
        counters := counters.(rosterCleanupFailures := counters.rosterCleanupFailures + 1);
      } else {
        active := active - {sid};
      }
      var ids := DropSession(sid, None);
      finished := ids;
      FinishFanouts(ids, SessionDisconnected, now);
    }

    method RecordFanoutAt(lock: Lock, sid: SessionId, key: Key, outcome: FanoutOutcome, now: Instant)
      returns (ghost order: seq<EventId>, ghost finished: seq<EventId>)
      modifies this
      ensures View() == RecordFanout(old(View()), lock, sid, key, outcome, now, order, finished)
      ensures lock.Acquired? && enabled ==>
                && Enumerates(order, Expired(old(View()), now))
                && Enumerates(finished, SupersededBy(ExpireAll(old(View()), order, now), sid, key))
    {
      order, finished := [], [];
      if !enabled {
        return;
      }
      var held := TryState(lock);
      if !held {
        return;
      }
      order := ExpireLocked(now);
      if key !in published {
        return;
      }
      var id := published[key];
      var superseded := DropSession(sid, Some(id));
      finished := superseded;
      FinishFanouts(superseded, Superseded, now);
      if id !in events || sid !in events[id].pending {
        return;
      }
      events := events[id := Deliver(events[id], sid, outcome)];
      if events[id].pending == {} {
        var reason := if events[id].notifyFailed > 0 then PartialNotifyFailure
                      else if events[id].notifySkipped > 0 then PartialNotifySkip
                      else AllNotified;
        FinishFanoutLocked(id, reason, now);
      }
    }
  }

  /** One connection's handle on the telemetry: it joins when authorized and leaves when dropped. */
  class TelemetrySession {
    const telemetry: ReplacementLatencyTelemetry
    const sessionId: SessionId
    var authorized: bool
    var counted: bool
    var tracked: bool

    constructor (telemetry: ReplacementLatencyTelemetry, sessionId: SessionId)
      ensures this.telemetry == telemetry && this.sessionId == sessionId
      ensures !authorized && !counted && !tracked
    {
      this.telemetry, this.sessionId := telemetry, sessionId;
      authorized, counted, tracked := false, false, false;
    }

    /** Only the first authorization joins. */
    method Authorize(lock: Lock)
      modifies this, telemetry
      ensures authorized
      ensures old(authorized) ==>
                telemetry.View() == old(telemetry.View()) && counted == old(counted) && tracked == old(tracked)
      ensures !old(authorized) && telemetry.enabled ==>
                counted && (telemetry.View(), tracked) == EnterRoster(CountJoin(old(telemetry.View())), lock, sessionId)
    {
      if authorized {
        return;
      }
      authorized := true;
      counted, tracked := telemetry.ActivateSession(lock, sessionId);
    }

    method RecordNotify(lock: Lock, key: Key, outcome: FanoutOutcome, now: Instant)
      returns (ghost order: seq<EventId>, ghost finished: seq<EventId>)
      modifies telemetry
      ensures telemetry.View() ==
                if authorized
                then RecordFanout(old(telemetry.View()), lock, sessionId, key, outcome, now, order, finished)
                else old(telemetry.View())
      ensures authorized && telemetry.enabled && lock.Acquired? ==>
                && Enumerates(order, Expired(old(telemetry.View()), now))
                && Enumerates(finished, SupersededBy(ExpireAll(old(telemetry.View()), order, now), sessionId, key))
    {
      order, finished := [], [];
      if authorized {
        order, finished := telemetry.RecordFanoutAt(lock, sessionId, key, outcome, now);
      }
    }

    method Drop(lock: Lock, now: Instant) returns (ghost finished: seq<EventId>)
      modifies telemetry
      ensures !authorized || !counted ==> telemetry.View() == old(telemetry.View())
      ensures authorized && counted && telemetry.enabled ==>
                telemetry.View() ==
                  if tracked then LeaveRoster(CountLeave(old(telemetry.View())), lock, sessionId, now, finished)
                  else LeaveUntracked(CountLeave(old(telemetry.View())))
      ensures authorized && counted && tracked && telemetry.enabled && lock.Acquired? ==>
                Enumerates(finished, Emptied(old(telemetry.events), sessionId, None))
    {
      finished := [];
      if authorized {
        finished := telemetry.DeactivateSession(lock, sessionId, counted, tracked, now);
      }
    }
  }
}
