/** What every summary and every counter of the replacement-latency telemetry reports, in every run. */
module LatencyReports {
  import opened Prelude
  import opened LatencyModel
  import opened LatencyInvariant
  import opened LatencyRuns
  import opened LatencyAccount
  import opened LatencyTheorems

  /** A telemetry that is enabled and has seen nothing yet. */
  ghost predicate Fresh(w: World) {
    && w.tel.enabled && w.phases == map[] && w.h.pubs == map[] && w.tel.counters == ZERO_COUNTERS
    && w.tel.events == map[] && w.tel.dedupe == map[] && w.tel.published == map[] && w.tel.active == {}
    && w.tel.completed == [] && w.tel.emitted == [] && w.tel.logsInWindow == 0 && w.tel.logQueue == []
    && w.publishing.Idle?
  }

  lemma StartIsFresh(hasSender: bool, now: Instant)
    ensures Fresh(Start(hasSender, now))
  {
  }

  lemma StartBooked(s: State)
    requires s.events == map[] && s.emitted == []
    ensures Booked(s, map[], NEW_BOOK, map[])
  {
  }

  lemma RunIsSound(start: World, actions: seq<Action>, w: World)
    requires Fresh(start) && Reaches(start, actions, w)
    ensures WorldInv(start) && WorldInv(w)
  {
    EmptyWorldOk(start);
    RunKeeps(start, actions, w);
  }

  /** `b` is the book kept beside the run, which is new at the start. */
  lemma RunIsBooked(start: World, b: Book, actions: seq<Action>, w: World)
    requires Fresh(start) && b == NEW_BOOK && Reaches(start, actions, w)
    ensures Booked(w.tel, w.h.pubs, BookOf(start, b, actions), w.phases)
  {
    RunIsSound(start, actions, w);
    StartBooked(start.tel);
    RunBooked(start, b, actions, w);
  }

  lemma SummaryIsSound(start: World, actions: seq<Action>, w: World, i: nat)
    requires Fresh(start) && Reaches(start, actions, w) && i < |w.tel.emitted|
    ensures SummaryOk(w.h, w.tel.emitted[i])
  {
    RunIsSound(start, actions, w);
    SummarySound(w, i);
  }

  lemma SummaryIsBooked(start: World, b: Book, actions: seq<Action>, w: World, i: nat)
    requires Fresh(start) && b == NEW_BOOK && Reaches(start, actions, w) && i < |w.tel.emitted|
    ensures SummaryBooked(w.h.pubs, BookOf(start, b, actions), w.phases, w.tel.emitted[i])
  {
    RunIsBooked(start, b, actions, w);
  }

  /**
   Every event ever observed is either live or has exactly one summary, and no summary is of a live event.  A live
   event waits for exactly the sessions on its roster that were neither notified since nor left cleanly.
   */
  lemma EveryEventEndsOnce(start: World, b: Book, actions: seq<Action>, w: World)
    requires Fresh(start) && b == NEW_BOOK && Reaches(start, actions, w)
    ensures var book := BookOf(start, b, actions);
      && (forall id :: id in book.seen && id !in w.tel.events ==> IsTold(w.tel.emitted, id))
      && (forall i :: 0 <= i < |w.tel.emitted| ==> w.tel.emitted[i].id in book.seen && w.tel.emitted[i].id !in w.tel.events)
      && (forall i, j :: 0 <= i < j < |w.tel.emitted| ==> w.tel.emitted[i].id != w.tel.emitted[j].id)
      && (forall id, sid :: id in w.tel.events ==>
            (sid in w.tel.events[id].pending <==> Awaited(w.h.pubs, book, w.phases, id, sid)))
  {
    RunIsBooked(start, b, actions, w);
    var book := BookOf(start, b, actions);
    forall id, sid | id in w.tel.events
      ensures sid in w.tel.events[id].pending <==> Awaited(w.h.pubs, book, w.phases, id, sid)
    {
      assert EventBooked(w.h.pubs, book, w.phases, w.tel.events[id]);
    }
    forall i | 0 <= i < |w.tel.emitted|
      ensures w.tel.emitted[i].id in book.seen
    {
      assert SummaryBooked(w.h.pubs, book, w.phases, w.tel.emitted[i]);
    }
  }

  /**
   What every summary counts: as successes and failures the sessions on the roster whose first notification since the
   publication reached this event with that outcome, and as skipped everybody else, tracked or not.
   */
  lemma CountsAreCredits(start: World, b: Book, actions: seq<Action>, w: World, i: nat)
    requires Fresh(start) && b == NEW_BOOK && Reaches(start, actions, w) && i < |w.tel.emitted|
    ensures var m := w.tel.emitted[i]; var book := BookOf(start, b, actions);
      && m.notifySuccess == |Credited(w.h.pubs, book, m.id, Success)|
      && m.notifyFailed == |Credited(w.h.pubs, book, m.id, Failed)|
      && m.notifySuccess + m.notifyFailed + m.notifySkipped == m.targetSessions + Monus(m.trackingGap, m.targetSessions)
      && (RosterOf(w.h.pubs, m.id) != {} ==>
            m.notifySuccess + m.notifyFailed + m.notifySkipped
              == |RosterOf(w.h.pubs, m.id)| + w.h.pubs[m.id].loads.untracked)
      && m.staleRoster == StaleOf(w.h.pubs, m.id)
  {
    SummaryIsBooked(start, b, actions, w, i);
    SummaryIsSound(start, actions, w, i);
    CountsOf(w.h, BookOf(start, b, actions), w.phases, w.tel.emitted[i]);
  }

  lemma CountsOf(h: History, b: Book, phases: Phases, m: Summary)
    requires SummaryBooked(h.pubs, b, phases, m) && SummaryOk(h, m)
    ensures m.notifySuccess == |Credited(h.pubs, b, m.id, Success)| && m.notifyFailed == |Credited(h.pubs, b, m.id, Failed)|
    ensures m.notifySuccess + m.notifyFailed + m.notifySkipped == m.targetSessions + Monus(m.trackingGap, m.targetSessions)
    ensures RosterOf(h.pubs, m.id) != {} ==>
              m.notifySuccess + m.notifyFailed + m.notifySkipped == |RosterOf(h.pubs, m.id)| + h.pubs[m.id].loads.untracked
    ensures m.staleRoster == StaleOf(h.pubs, m.id)
  {
    TallyIs(h, m);
  }

  lemma TallyIs(h: History, m: Summary)
    requires SummaryOk(h, m)
    ensures m.notifySuccess + m.notifyFailed + m.notifySkipped == m.targetSessions + Monus(m.trackingGap, m.targetSessions)
    ensures RosterOf(h.pubs, m.id) != {} && m.readyToPublished.Some? ==>
              m.notifySuccess + m.notifyFailed + m.notifySkipped == |RosterOf(h.pubs, m.id)| + h.pubs[m.id].loads.untracked
  {
  }

  /** When all waiting ended with a notification, the reason tells whether any failed, or else any session was skipped. */
  lemma FanoutReasonIs(start: World, b: Book, actions: seq<Action>, w: World, i: nat)
    requires Fresh(start) && b == NEW_BOOK && Reaches(start, actions, w) && i < |w.tel.emitted|
    requires var r := w.tel.emitted[i].reason; r.AllNotified? || r.PartialNotifyFailure? || r.PartialNotifySkip?
    ensures var m := w.tel.emitted[i]; var failed := Credited(w.h.pubs, BookOf(start, b, actions), m.id, Failed);
      && m.status.Complete?
      && (m.reason.PartialNotifyFailure? <==> failed != {})
      && (m.reason.PartialNotifySkip? <==> failed == {} && m.notifySkipped > 0)
      && (m.reason.AllNotified? <==> failed == {} && m.notifySkipped == 0)
  {
    SummaryIsBooked(start, b, actions, w, i);
  }

  /**
   The other reasons are true as well: a superseded event lost a session to another event and a disconnected one lost
   one that left, each with nobody left to wait for; only an event at least thirty seconds old timed out; and the status
   is the one that belongs to the reason.
   */
  lemma ReasonsAreTrue(start: World, b: Book, actions: seq<Action>, w: World, i: nat)
    requires Fresh(start) && b == NEW_BOOK && Reaches(start, actions, w) && i < |w.tel.emitted|
    ensures var m := w.tel.emitted[i]; var book := BookOf(start, b, actions); var pubs := w.h.pubs;
      && m.id in book.seen && m.id in book.ended
      && (m.reason.Superseded? ==> LostToAnother(pubs, book, m.id))
      && (m.reason.SessionDisconnected? ==> LostToLeaving(pubs, book, w.phases, m.id))
      && (m.reason.ZeroSessions? ==> RosterOf(pubs, m.id) == {})
      && (m.reason.UntrackedSessions? ==> m.trackingGap > 0)
      && (m.status.Complete? || m.reason.UntrackedSessions? ==> AllDone(pubs, book, w.phases, m.id))
      && (m.reason.StageTimeout? ==> book.ended[m.id] >= book.seen[m.id].at + 30_000_000_000)
      && (m.status.Timeout? <==> m.reason.StageTimeout?)
      && (m.status.TrackingGap? <==> m.reason.UntrackedSessions? || BlamesRoster(m.reason))
      && (m.status.Failure? <==> m.reason.OutOfOrder? || m.reason.ReplacementKeyOversize? || m.reason.Caller?)
  {
    SummaryIsBooked(start, b, actions, w, i);
    ReasonsOf(w.h.pubs, BookOf(start, b, actions), w.phases, w.tel.emitted[i]);
  }

  lemma ReasonsOf(pubs: Publications, b: Book, phases: Phases, m: Summary)
    requires SummaryBooked(pubs, b, phases, m)
    ensures m.id in b.seen && m.id in b.ended
    ensures m.reason.Superseded? ==> LostToAnother(pubs, b, m.id)
    ensures m.reason.SessionDisconnected? ==> LostToLeaving(pubs, b, phases, m.id)
    ensures m.reason.ZeroSessions? ==> RosterOf(pubs, m.id) == {}
    ensures m.reason.UntrackedSessions? ==> m.trackingGap > 0
    ensures m.status.Complete? || m.reason.UntrackedSessions? ==> AllDone(pubs, b, phases, m.id)
    ensures m.reason.StageTimeout? ==> b.ended[m.id] >= b.seen[m.id].at + 30_000_000_000
    ensures m.status.Timeout? <==> m.reason.StageTimeout?
    ensures m.status.TrackingGap? <==> m.reason.UntrackedSessions? || BlamesRoster(m.reason)
    ensures m.status.Failure? <==> m.reason.OutOfOrder? || m.reason.ReplacementKeyOversize? || m.reason.Caller?
  {
  }

  /** Whole milliseconds from one instant to another, if both are there in this order; at most the greatest 64-bit number. */
  predicate Millis(ms: Option<nat>, from: Option<Instant>, to: Option<Instant>) {
    if from.Some? && to.Some? && from.value <= to.value then
      && ms.Some? && ms.value <= U64_MAX && ms.value * 1_000_000 <= to.value - from.value
      && (ms.value < U64_MAX ==> to.value - from.value < (ms.value + 1) * 1_000_000)
    else ms.None?
  }

  lemma ElapsedIsMillis(from: Option<Instant>, to: Option<Instant>)
    ensures Millis(ElapsedMs(from, to), from, to)
  {
  }

  /**
   What every summary says about its stages: the class and the times of its own observation, first readiness,
   publication and end, in whole milliseconds; with a tracking gap nothing is said about the fan-out and the total.
   */
  lemma StagesAreMeasured(start: World, b: Book, actions: seq<Action>, w: World, i: nat)
    requires Fresh(start) && b == NEW_BOOK && Reaches(start, actions, w) && i < |w.tel.emitted|
    ensures var m := w.tel.emitted[i]; var book := BookOf(start, b, actions);
      && m.id in book.seen && m.id in book.ended && m.source == book.seen[m.id].source
      && Millis(m.observedToReady, Some(book.seen[m.id].at), Get(book.ready, m.id))
      && Millis(m.readyToPublished, Get(book.ready, m.id), Get(book.published, m.id))
      && (if m.status.TrackingGap? then m.publishedToFanout.None? && m.total.None?
          else Millis(m.publishedToFanout, Get(book.published, m.id), Some(book.ended[m.id]))
               && Millis(m.total, Some(book.seen[m.id].at), Some(book.ended[m.id])))
  {
    SummaryIsBooked(start, b, actions, w, i);
    var m, book := w.tel.emitted[i], BookOf(start, b, actions);
    ElapsedIsMillis(Some(book.seen[m.id].at), Get(book.ready, m.id));
    ElapsedIsMillis(Get(book.ready, m.id), Get(book.published, m.id));
    ElapsedIsMillis(Get(book.published, m.id), Some(book.ended[m.id]));
    ElapsedIsMillis(Some(book.seen[m.id].at), Some(book.ended[m.id]));
  }

  // ---------------------------------------------------------------- single answers

  /** The answer to an observation: the event of this key, which is live; none exactly when it could not be kept. */
  lemma ObserveAnswers(
      start: World, actions: seq<Action>, w: World, lock: Lock, key: Key, source: UpstreamClass, now: Instant,
      order: seq<EventId>)
    requires Fresh(start) && Reaches(start, actions, w) && Enumerates(order, Expired(w.tel, now))
    ensures var (r, id) := Observe(w.tel, lock, key, source, now, order); var t := ExpireAll(w.tel, order, now);
      && (id.Some? ==> id.value in r.events && r.events[id.value].dedupeKey == key)
      && (id.Some? <==> |key| <= 128 && lock.Acquired?
                        && ((exists x :: x in t.events && t.events[x].dedupeKey == key) || |t.events| < 16))
      && (id.Some? && (exists x :: x in t.events && t.events[x].dedupeKey == key) ==>
            id.value in t.events && r == t)
  {
    RunIsSound(start, actions, w);
    ExpireAllKeeps(w.tel, w.h, order, now);
    if w.tel.enabled && |key| <= 128 && lock.Acquired? {
      LockedAnswer(ExpireAll(w.tel, order, now), key, source, now);
    }
  }

  lemma LockedAnswer(t: State, key: Key, source: UpstreamClass, now: Instant)
    requires IndexesOk(t)
    ensures var (r, id) := ObserveLocked(t, key, source, now); var known := exists x :: x in t.events && t.events[x].dedupeKey == key;
      && (id.Some? ==> id.value in r.events && r.events[id.value].dedupeKey == key)
      && (id.Some? <==> known || |t.events| < 16) && (known ==> id.Some? && id.value in t.events && r == t)
  {
    assert key in t.dedupe <==> exists x :: x in t.events && t.events[x].dedupeKey == key;
    if key !in t.dedupe {
      ObserveNew(t, key, source, now);
    }
  }

  /** Expiry takes exactly the events that are thirty seconds old, and says so of each. */
  lemma ExpiryIsExact(
      start: World, b: Book, actions: seq<Action>, w: World, order: seq<EventId>, now: Instant)
    requires Fresh(start) && b == NEW_BOOK && Reaches(start, actions, w) && Enumerates(order, Expired(w.tel, now))
    ensures var t := ExpireAll(w.tel, order, now);
      && (forall id :: id in t.events <==> id in w.tel.events && now < w.tel.events[id].observedAt + 30_000_000_000)
      && (forall id :: id in t.events ==> t.events[id] == w.tel.events[id])
      && (forall id :: id in w.tel.events && id !in t.events ==> IsTold(t.emitted, id))
  {
    IdsAre(start, b, actions, w);
    ExpiryOf(w.tel, order, now);
  }

  lemma IdsAre(start: World, b: Book, actions: seq<Action>, w: World)
    requires Fresh(start) && b == NEW_BOOK && Reaches(start, actions, w)
    ensures IdsOk(w.tel.events)
  {
    RunIsBooked(start, b, actions, w);
  }

  lemma ExpiryOf(s: State, order: seq<EventId>, now: Instant)
    requires IdsOk(s.events) && Enumerates(order, Expired(s, now))
    ensures var t := ExpireAll(s, order, now);
      && (forall id :: id in t.events <==> id in s.events && now < s.events[id].observedAt + 30_000_000_000)
      && (forall id :: id in t.events ==> t.events[id] == s.events[id])
      && (forall id :: id in s.events && id !in t.events ==> IsTold(t.emitted, id))
  {
    forall i | 0 <= i < |order|
      ensures order[i] in Expired(s, now)
    {
      assert order[i] in order;
    }
    ExpireAllSettles(s, order, now);
    forall id | id in s.events
      ensures id in order <==> now >= s.events[id].observedAt + 30_000_000_000
    {
      assert id in Expired(s, now) <==> now >= s.events[id].observedAt + 30_000_000_000;
    }
  }

  /** A joining session gets onto the roster exactly if the lock is had and fewer than 1024 sessions are on it. */
  lemma EntersIff(start: World, actions: seq<Action>, w: World, sid: SessionId, lock: Lock)
    requires Fresh(start) && Reaches(start, actions, w) && w.tel.enabled && Enabled(w, JoinEnd(sid, lock))
    ensures var v := Next(w, JoinEnd(sid, lock)); var enters := lock.Acquired? && |w.tel.active| < 1024;
      && v.phases[sid] == (if enters then Tracked else Untracked)
      && v.tel.active == (if enters then w.tel.active + {sid} else w.tel.active)
  {
    RosterIsCounted(start, actions, w);
    JoinerIsNew(w, sid);
  }

  lemma RosterIsCounted(start: World, actions: seq<Action>, w: World)
    requires Fresh(start) && Reaches(start, actions, w)
    ensures Accounting(w.tel.active, w.tel.counters, w.phases)
  {
    RunIsSound(start, actions, w);
  }

  lemma JoinerIsNew(w: World, sid: SessionId)
    requires Accounting(w.tel.active, w.tel.counters, w.phases) && InPhase(w, sid, Joining)
    ensures sid !in w.tel.active
  {
  }
}
