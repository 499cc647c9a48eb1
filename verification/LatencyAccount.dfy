/**
 What the summaries of the replacement-latency telemetry say, told from outside.

 A `Book` is kept beside a run.  It notes when each event was observed, ready, published and gone, and which
 notification of which session reached which event: those that had the lock and whose key led to a published event.
 What a summary counts, how long it says the stages took, and the reason it gives, are properties of the book.
 */
module LatencyAccount {
  import opened Prelude
  import opened LatencyModel
  import opened LatencyInvariant
  import opened LatencyRuns

  datatype Reach = Reach(sid: SessionId, event: EventId, outcome: FanoutOutcome)
  datatype Sighting = Sighting(source: UpstreamClass, key: Key, at: Instant)

  /** `marks` says how many notifications had reached an event when this one was published. */
  datatype Book = Book(
    reaches: seq<Reach>, seen: map<EventId, Sighting>, ready: map<EventId, Instant>, published: map<EventId, Instant>,
    marks: map<EventId, nat>, ended: map<EventId, Instant>)

  type Publications = map<EventId, Publication>
  type Phases = map<SessionId, Phase>

  function Get(m: map<EventId, Instant>, id: EventId): Option<Instant> {
    if id in m then Some(m[id]) else None
  }

  // ---------------------------------------------------------------- who was credited

  /** The first notification of this session that reached any event since the mark. */
  function First(reaches: seq<Reach>, mark: nat, sid: SessionId): Option<Reach>
    decreases |reaches|
  {
    if |reaches| <= mark then None
    else
      var before, last := First(reaches[..|reaches| - 1], mark, sid), reaches[|reaches| - 1];
      if before.Some? then before else if last.sid == sid then Some(last) else None
  }

  lemma FirstMore(reaches: seq<Reach>, x: Reach, mark: nat, sid: SessionId)
    requires mark <= |reaches|
    ensures var before := First(reaches, mark, sid);
      First(reaches + [x], mark, sid) == if before.Some? then before else if x.sid == sid then Some(x) else None
  {
    assert (reaches + [x])[..|reaches|] == reaches;
  }

  /** It is the one at the least place from the mark on. */
  lemma {:induction false} FirstIsLeast(reaches: seq<Reach>, mark: nat, sid: SessionId)
    ensures First(reaches, mark, sid).None? <==> forall i :: mark <= i < |reaches| ==> reaches[i].sid != sid
    ensures forall r :: First(reaches, mark, sid) == Some(r) ==>
              exists i :: mark <= i < |reaches| && reaches[i] == r && r.sid == sid
                          && forall j :: mark <= j < i ==> reaches[j].sid != sid
    decreases |reaches|
  {
    if |reaches| > mark {
      var n := |reaches| - 1;
      FirstIsLeast(reaches[..n], mark, sid);
      if First(reaches[..n], mark, sid).Some? {
        var r := First(reaches[..n], mark, sid).value;
        var i :| mark <= i < n && reaches[..n][i] == r && r.sid == sid && forall j :: mark <= j < i ==> reaches[..n][j].sid != sid;
        assert reaches[i] == r;
      } else {
        assert forall i :: mark <= i < n ==> reaches[..n][i].sid != sid;
        assert reaches[n].sid == sid ==> First(reaches, mark, sid) == Some(reaches[n]);
      }
    }
  }

  /** The sessions an event waited for when it was published: the roster, if that was not degraded. */
  function RosterOf(pubs: Publications, id: EventId): set<SessionId> {
    if id in pubs && !RosterDegraded(pubs[id].roster, pubs[id].loads) then pubs[id].roster else {}
  }

  function MarkOf(b: Book, id: EventId): nat {
    if id in b.marks then b.marks[id] else 0
  }

  function FirstSince(b: Book, id: EventId, sid: SessionId): Option<Reach> {
    First(b.reaches, MarkOf(b, id), sid)
  }

  /** The sessions an event waited for whose first notification since then reached it, with this outcome. */
  function Credited(pubs: Publications, b: Book, id: EventId, outcome: FanoutOutcome): set<SessionId> {
    set sid | sid in RosterOf(pubs, id) && FirstSince(b, id, sid) == Some(Reach(sid, id, outcome))
  }

  predicate LeftCleanly(phases: Phases, sid: SessionId) {
    sid in phases && phases[sid].GoneClean?
  }

  /** The event still waits for this session: it was on the roster, was not notified since, and did not leave cleanly. */
  predicate Awaited(pubs: Publications, b: Book, phases: Phases, id: EventId, sid: SessionId) {
    sid in RosterOf(pubs, id) && FirstSince(b, id, sid).None? && !LeftCleanly(phases, sid)
  }

  // ---------------------------------------------------------------- what holds of events and summaries

  /** How many sessions stayed on the roster too long, as far as a degraded publication can tell. */
  function StaleOf(pubs: Publications, id: EventId): nat {
    if id in pubs && RosterDegraded(pubs[id].roster, pubs[id].loads)
    then Max(pubs[id].loads.stale, Monus(|pubs[id].roster|, pubs[id].loads.total)) else 0
  }

  predicate CountsCredits(pubs: Publications, b: Book, id: EventId, success: nat, failed: nat) {
    success == |Credited(pubs, b, id, Success)| && failed == |Credited(pubs, b, id, Failed)|
  }

  ghost predicate EventBooked(pubs: Publications, b: Book, phases: Phases, e: Event) {
    && e.id in b.seen && b.seen[e.id] == Sighting(e.source, e.dedupeKey, e.observedAt)
    && e.aReadyAt == Get(b.ready, e.id) && e.publishedAt == Get(b.published, e.id)
    && (e.publishedAt.Some? ==> e.aReadyAt.Some? && e.aReadyAt.value <= e.publishedAt.value)
    && (e.publishedAt.Some? <==> e.id in pubs)
    && CountsCredits(pubs, b, e.id, e.notifySuccess, e.notifyFailed) && e.staleRoster == StaleOf(pubs, e.id)
    && forall sid :: sid in e.pending <==> Awaited(pubs, b, phases, e.id, sid)
  }

  predicate TimesBooked(b: Book, m: Summary)
    requires m.id in b.seen && m.id in b.ended
  {
    && m.observedToReady == ElapsedMs(Some(b.seen[m.id].at), Get(b.ready, m.id))
    && m.readyToPublished == ElapsedMs(Get(b.ready, m.id), Get(b.published, m.id))
    && m.publishedToFanout == (if m.status.TrackingGap? then None else ElapsedMs(Get(b.published, m.id), Some(b.ended[m.id])))
    && m.total == (if m.status.TrackingGap? then None else ElapsedMs(Some(b.seen[m.id].at), Some(b.ended[m.id])))
  }

  /** Every session on the roster was notified since, or left cleanly. */
  predicate AllDone(pubs: Publications, b: Book, phases: Phases, id: EventId) {
    forall sid :: sid in RosterOf(pubs, id) ==> FirstSince(b, id, sid).Some? || LeftCleanly(phases, sid)
  }

  /** Some session it waited for was notified of another event first. */
  predicate LostToAnother(pubs: Publications, b: Book, id: EventId) {
    exists sid :: sid in RosterOf(pubs, id) && FirstSince(b, id, sid).Some? && FirstSince(b, id, sid).value.event != id
  }

  /** Some session it waited for left cleanly without being notified. */
  predicate LostToLeaving(pubs: Publications, b: Book, phases: Phases, id: EventId) {
    exists sid :: sid in RosterOf(pubs, id) && FirstSince(b, id, sid).None? && LeftCleanly(phases, sid)
  }

  /** The reason fits the status, and what it says is true. */
  predicate ReasonFits(pubs: Publications, b: Book, phases: Phases, m: Summary)
    requires m.id in b.seen && m.id in b.ended
  {
    match m.reason
    case AllNotified => m.status.Complete? && AllDone(pubs, b, phases, m.id) && m.notifyFailed == 0 && m.notifySkipped == 0
    case PartialNotifyFailure => m.status.Complete? && AllDone(pubs, b, phases, m.id) && m.notifyFailed > 0
    case PartialNotifySkip =>
      m.status.Complete? && AllDone(pubs, b, phases, m.id) && m.notifyFailed == 0 && m.notifySkipped > 0
    case ZeroSessions => m.status.Complete? && RosterOf(pubs, m.id) == {}
    case SessionDisconnected =>
      m.status.Complete? && AllDone(pubs, b, phases, m.id) && LostToLeaving(pubs, b, phases, m.id)
    case Superseded => m.status.Complete? && AllDone(pubs, b, phases, m.id) && LostToAnother(pubs, b, m.id)
    case UntrackedSessions => m.status.TrackingGap? && AllDone(pubs, b, phases, m.id) && m.trackingGap > 0
    case StaleSessionRoster => m.status.TrackingGap?
    case SessionRosterInconsistent => m.status.TrackingGap?
    case StageTimeout => m.status.Timeout? && b.ended[m.id] >= b.seen[m.id].at + EVENT_TIMEOUT
    case _ => m.status.Failure?
  }

  ghost predicate SummaryBooked(pubs: Publications, b: Book, phases: Phases, m: Summary) {
    && m.id in b.seen && m.id in b.ended && m.source == b.seen[m.id].source
    && TimesBooked(b, m) && (m.id in pubs ==> m.readyToPublished.Some?)
    && CountsCredits(pubs, b, m.id, m.notifySuccess, m.notifyFailed) && m.staleRoster == StaleOf(pubs, m.id)
    && ReasonFits(pubs, b, phases, m)
  }

  predicate WasTracked(phase: Phase) {
    phase.Tracked? || phase.LeavingTracked? || phase.GoneStale? || phase.GoneClean?
  }

  ghost predicate EventsBooked(events: map<EventId, Event>, pubs: Publications, b: Book, phases: Phases) {
    forall id :: id in events ==> events[id].id == id && EventBooked(pubs, b, phases, events[id])
  }

  /** Every summary is of another event, and none of a live one. */
  ghost predicate SummariesBooked(
      emitted: seq<Summary>, events: map<EventId, Event>, pubs: Publications, b: Book, phases: Phases) {
    && (forall i :: 0 <= i < |emitted| ==> emitted[i].id !in events && SummaryBooked(pubs, b, phases, emitted[i]))
    && (forall i, j :: 0 <= i < j < |emitted| ==> emitted[i].id != emitted[j].id)
  }

  predicate IsTold(emitted: seq<Summary>, id: EventId) {
    exists i :: 0 <= i < |emitted| && emitted[i].id == id
  }

  predicate KeysOk(nextId: EventId, pubs: Publications, b: Book) {
    && (forall id :: id in b.seen ==> id < nextId)
    && b.ready.Keys <= b.seen.Keys && b.published.Keys <= b.seen.Keys && b.ended.Keys <= b.seen.Keys
    && pubs.Keys == b.published.Keys == b.marks.Keys
    && (forall id :: id in b.marks ==> b.marks[id] <= |b.reaches|)
  }

  predicate RostersOk(pubs: Publications, phases: Phases) {
    forall id, sid :: id in pubs && sid in pubs[id].roster ==> sid in phases && WasTracked(phases[sid])
  }

  /** No event is lost: each one seen is live or has its summary. */
  ghost predicate NoneLost(events: map<EventId, Event>, emitted: seq<Summary>, b: Book) {
    forall id :: id in b.seen && id !in events ==> IsTold(emitted, id)
  }

  ghost predicate Booked(s: State, pubs: Publications, b: Book, phases: Phases) {
    && EventsBooked(s.events, pubs, b, phases)
    && SummariesBooked(s.emitted, s.events, pubs, b, phases)
    && NoneLost(s.events, s.emitted, b)
    && KeysOk(s.nextId, pubs, b) && RostersOk(pubs, phases)
  }

  // ---------------------------------------------------------------- what finishing events reports

  /** Why a group of events is finished. */
  datatype Cause = ByTimeout | ByFailure(reason: Reason) | ByGap(reason: Reason) | ByNobody | ByFanout(reason: Reason)

  predicate Verdict(cause: Cause, e: Event, m: Summary, now: Instant) {
    match cause
    case ByTimeout => m.status.Timeout? && m.reason.StageTimeout? && IsExpired(e, now)
    case ByFailure(reason) => m.status.Failure? && m.reason == reason
    case ByGap(reason) => m.status.TrackingGap? && m.reason == reason
    case ByNobody => m.status.Complete? && m.reason.ZeroSessions?
    case ByFanout(reason) =>
      if e.trackingGap > 0 then m.status.TrackingGap? && m.reason == UntrackedSessions
      else m.status.Complete? && m.reason == reason
  }

  /** The summary says what the event says. */
  predicate Reports(e: Event, m: Summary, now: Instant) {
    && m.id == e.id && m.source == e.source
    && m.notifySuccess == e.notifySuccess && m.notifyFailed == e.notifyFailed
    && m.notifySkipped == e.notifySkipped + |e.pending| && m.trackingGap == e.trackingGap && m.staleRoster == e.staleRoster
    && m.observedToReady == ElapsedMs(Some(e.observedAt), e.aReadyAt)
    && m.readyToPublished == ElapsedMs(e.aReadyAt, e.publishedAt)
    && m.publishedToFanout == (if m.status.TrackingGap? then None else ElapsedMs(e.publishedAt, Some(now)))
    && m.total == (if m.status.TrackingGap? then None else ElapsedMs(Some(e.observedAt), Some(now)))
  }

  predicate Settled(before: map<EventId, Event>, after: map<EventId, Event>, m: Summary, now: Instant, cause: Cause) {
    m.id in before && m.id !in after && Reports(before[m.id], m, now) && Verdict(cause, before[m.id], m, now)
  }

  predicate IdsOk(events: map<EventId, Event>) {
    forall id :: id in events ==> events[id].id == id
  }

  /** Some events are gone and each of them has one new summary; nothing else about events has changed. */
  ghost predicate Settles(s: State, r: State, now: Instant, cause: Cause) {
    && r.nextId == s.nextId
    && (forall id :: id in r.events ==> id in s.events && r.events[id] == s.events[id])
    && s.emitted <= r.emitted
    && (forall i :: |s.emitted| <= i < |r.emitted| ==> Settled(s.events, r.events, r.emitted[i], now, cause))
    && (forall i, j :: |s.emitted| <= i < j < |r.emitted| ==> r.emitted[i].id != r.emitted[j].id)
    && (forall id :: id in s.events && id !in r.events ==> IsTold(r.emitted, id))
  }

  lemma FinishShape(s: State, id: EventId, status: Status, reason: Reason, now: Instant)
    requires id in s.events
    ensures var r := Finish(s, id, status, reason, now); var m := Summarize(s.events[id], status, reason, now, s.counters);
      r.nextId == s.nextId && r.events == s.events - {id} && r.emitted == s.emitted + [m]
  {
    var m := Summarize(s.events[id], status, reason, now, s.counters);
    var s1 := Forget(s, id);
    LogFrame(s1.(completed := PushCompleted(s1.completed, m), emitted := s1.emitted + [m]), m, now);
  }

  lemma FinishSettles(s: State, id: EventId, status: Status, reason: Reason, now: Instant, cause: Cause)
    requires IdsOk(s.events)
    requires id in s.events ==> Verdict(cause, s.events[id], Summarize(s.events[id], status, reason, now, s.counters), now)
    ensures Settles(s, Finish(s, id, status, reason, now), now, cause)
    ensures forall x :: x in s.events && x != id ==> x in Finish(s, id, status, reason, now).events
  {
    if id in s.events {
      FinishShape(s, id, status, reason, now);
      var r := Finish(s, id, status, reason, now);
      assert r.emitted[|s.emitted|].id == id;
    }
  }

  lemma SettlesTrans(s: State, t: State, u: State, now: Instant, cause: Cause)
    requires Settles(s, t, now, cause) && Settles(t, u, now, cause)
    ensures Settles(s, u, now, cause)
  {
    forall i | |s.emitted| <= i < |u.emitted|
      ensures Settled(s.events, u.events, u.emitted[i], now, cause)
    {
      if i < |t.emitted| {
        assert u.emitted[i] == t.emitted[i];
        assert Settled(s.events, t.events, t.emitted[i], now, cause);
      } else {
        assert Settled(t.events, u.events, u.emitted[i], now, cause);
      }
    }
    SettlesDistinct(s, t, u, now, cause);
    SettlesTold(s, t, u, now, cause);
  }

  lemma SettlesDistinct(s: State, t: State, u: State, now: Instant, cause: Cause)
    requires Settles(s, t, now, cause) && Settles(t, u, now, cause)
    ensures forall i, j :: |s.emitted| <= i < j < |u.emitted| ==> u.emitted[i].id != u.emitted[j].id
  {
    forall i, j | |s.emitted| <= i < j < |u.emitted|
      ensures u.emitted[i].id != u.emitted[j].id
    {
      if i < |t.emitted| {
        assert u.emitted[i] == t.emitted[i];
        assert Settled(s.events, t.events, t.emitted[i], now, cause);
        if j < |t.emitted| {
          assert u.emitted[j] == t.emitted[j];
        } else {
          assert Settled(t.events, u.events, u.emitted[j], now, cause);
        }
      }
    }
  }

  lemma SettlesTold(s: State, t: State, u: State, now: Instant, cause: Cause)
    requires Settles(s, t, now, cause) && Settles(t, u, now, cause)
    ensures forall id :: id in s.events && id !in u.events ==> IsTold(u.emitted, id)
  {
    forall id | id in s.events && id !in u.events
      ensures IsTold(u.emitted, id)
    {
      if id !in t.events {
        var i :| 0 <= i < |t.emitted| && t.emitted[i].id == id;
        assert u.emitted[i] == t.emitted[i];
      }
    }
  }

  lemma {:induction false} ExpireAllSettles(s: State, ids: seq<EventId>, now: Instant)
    requires IdsOk(s.events) && forall i :: 0 <= i < |ids| ==> ids[i] in Expired(s, now)
    ensures Settles(s, ExpireAll(s, ids, now), now, ByTimeout)
    ensures forall id :: id in ExpireAll(s, ids, now).events <==> id in s.events && id !in ids
    decreases |ids|
  {
    if ids != [] {
      var n := |ids| - 1;
      ExpireAllSettles(s, ids[..n], now);
      var t := ExpireAll(s, ids[..n], now);
      FinishSettles(t, ids[n], Timeout, StageTimeout, now, ByTimeout);
      SettlesTrans(s, t, ExpireAll(s, ids, now), now, ByTimeout);
      if ids[n] in t.events {
        FinishShape(t, ids[n], Timeout, StageTimeout, now);
      }
      assert ids == ids[..n] + [ids[n]];
    }
  }

  lemma FanoutSettles(s: State, id: EventId, reason: Reason, now: Instant)
    requires IdsOk(s.events)
    ensures Settles(s, FinishFanout(s, id, reason, now), now, ByFanout(reason))
    ensures forall x :: x in s.events && x != id ==> x in FinishFanout(s, id, reason, now).events
  {
    if id in s.events && s.events[id].trackingGap > 0 {
      FinishSettles(s, id, TrackingGap, UntrackedSessions, now, ByFanout(reason));
    } else {
      FinishSettles(s, id, LatencyModel.Complete, reason, now, ByFanout(reason));
    }
  }

  lemma {:induction false} FanoutAllSettles(s: State, ids: seq<EventId>, reason: Reason, now: Instant)
    requires IdsOk(s.events)
    ensures Settles(s, FinishFanoutAll(s, ids, reason, now), now, ByFanout(reason))
    ensures forall x :: x in s.events && x !in ids ==> x in FinishFanoutAll(s, ids, reason, now).events
    decreases |ids|
  {
    if ids != [] {
      var n := |ids| - 1;
      FanoutAllSettles(s, ids[..n], reason, now);
      var t := FinishFanoutAll(s, ids[..n], reason, now);
      FanoutSettles(t, ids[n], reason, now);
      SettlesTrans(s, t, FinishFanoutAll(s, ids, reason, now), now, ByFanout(reason));
      assert ids == ids[..n] + [ids[n]];
    }
  }

  // ---------------------------------------------------------------- finishing keeps the books

  function EndedAt(ended: map<EventId, Instant>, gone: set<EventId>, now: Instant): map<EventId, Instant> {
    map id | id in ended.Keys + gone :: if id in gone then now else ended[id]
  }

  /** The book after the events missing in `after` have ended. */
  function Ends(b: Book, before: map<EventId, Event>, after: map<EventId, Event>, now: Instant): Book {
    b.(ended := EndedAt(b.ended, before.Keys - after.Keys, now))
  }

  lemma EndsNothing(b: Book, events: map<EventId, Event>, now: Instant)
    ensures Ends(b, events, events, now) == b
  {
    assert EndedAt(b.ended, {}, now) == b.ended;
    assert events.Keys - events.Keys == {};
  }

  lemma EndedTwice(ended: map<EventId, Instant>, gone: set<EventId>, more: set<EventId>, now: Instant)
    ensures EndedAt(EndedAt(ended, gone, now), more, now) == EndedAt(ended, gone + more, now)
  {
  }

  lemma EndsTwice(b: Book, e0: map<EventId, Event>, e1: map<EventId, Event>, e2: map<EventId, Event>, now: Instant)
    requires e1.Keys <= e0.Keys && e2.Keys * e0.Keys <= e1.Keys
    ensures Ends(Ends(b, e0, e1, now), e1, e2, now) == Ends(b, e0, e2, now)
  {
    EndedTwice(b.ended, e0.Keys - e1.Keys, e1.Keys - e2.Keys, now);
    assert (e0.Keys - e1.Keys) + (e1.Keys - e2.Keys) == e0.Keys - e2.Keys;
  }

  /** What must be known of the events that are finished, beside their own fields, for the reason to be true. */
  predicate CauseHolds(s: State, r: State, pubs: Publications, b: Book, phases: Phases, cause: Cause) {
    match cause
    case ByTimeout => true
    case ByFailure(reason) => reason.OutOfOrder? || reason.ReplacementKeyOversize? || reason.Caller?
    case ByGap(reason) => reason.StaleSessionRoster? || reason.SessionRosterInconsistent?
    case ByNobody => forall id :: id in s.events && id !in r.events ==> RosterOf(pubs, id) == {}
    case ByFanout(reason) =>
      forall id :: id in s.events && id !in r.events ==>
        && s.events[id].pending == {}
        && match reason
           case AllNotified => s.events[id].notifyFailed == 0 && s.events[id].notifySkipped == 0
           case PartialNotifyFailure => s.events[id].notifyFailed > 0
           case PartialNotifySkip => s.events[id].notifyFailed == 0 && s.events[id].notifySkipped > 0
           case SessionDisconnected => LostToLeaving(pubs, b, phases, id)
           case Superseded => LostToAnother(pubs, b, id)
           case ZeroSessions => RosterOf(pubs, id) == {}
           case _ => false
  }

  /** Ending other events is no matter for what a summary says. */
  lemma SummaryEnds(
      pubs: Publications, b: Book, phases: Phases, m: Summary, before: map<EventId, Event>, after: map<EventId, Event>,
      now: Instant)
    requires SummaryBooked(pubs, b, phases, m) && m.id !in before
    ensures SummaryBooked(pubs, Ends(b, before, after, now), phases, m)
  {
    SameCredits(pubs, b, Ends(b, before, after, now), m.id);
  }

  ghost predicate SameFirsts(b: Book, b': Book, id: EventId) {
    forall sid :: FirstSince(b', id, sid) == FirstSince(b, id, sid)
  }

  lemma SameCredits(pubs: Publications, b: Book, b': Book, id: EventId)
    requires b'.reaches == b.reaches && MarkOf(b', id) == MarkOf(b, id)
    ensures forall outcome :: Credited(pubs, b', id, outcome) == Credited(pubs, b, id, outcome)
    ensures SameFirsts(b, b', id)
  {
  }

  lemma NobodyAwaited(pubs: Publications, b: Book, phases: Phases, e: Event)
    requires EventBooked(pubs, b, phases, e) && e.pending == {}
    ensures AllDone(pubs, b, phases, e.id)
  {
    forall sid | sid in RosterOf(pubs, e.id)
      ensures FirstSince(b, e.id, sid).Some? || LeftCleanly(phases, sid)
    {
      assert sid !in e.pending;
    }
  }

  lemma NewSummaryBooked(
      s: State, r: State, pubs: Publications, b: Book, phases: Phases, now: Instant, cause: Cause, m: Summary)
    requires EventsBooked(s.events, pubs, b, phases) && CauseHolds(s, r, pubs, b, phases, cause)
    requires Settled(s.events, r.events, m, now, cause)
    ensures SummaryBooked(pubs, Ends(b, s.events, r.events, now), phases, m)
  {
    var e, b' := s.events[m.id], Ends(b, s.events, r.events, now);
    assert EventBooked(pubs, b, phases, e);
    SameCredits(pubs, b, b', m.id);
    if cause.ByFanout? {
      NobodyAwaited(pubs, b, phases, e);
    }
    NewReasonFits(s, r, pubs, b, phases, now, cause, m);
  }

  lemma NewReasonFits(
      s: State, r: State, pubs: Publications, b: Book, phases: Phases, now: Instant, cause: Cause, m: Summary)
    requires EventsBooked(s.events, pubs, b, phases) && CauseHolds(s, r, pubs, b, phases, cause)
    requires Settled(s.events, r.events, m, now, cause) && m.id in b.seen
    requires cause.ByFanout? ==> AllDone(pubs, b, phases, m.id)
    ensures m.id in Ends(b, s.events, r.events, now).ended
    ensures ReasonFits(pubs, Ends(b, s.events, r.events, now), phases, m)
  {
    var b' := Ends(b, s.events, r.events, now);
    assert b.seen[m.id].at == s.events[m.id].observedAt by {
      assert EventBooked(pubs, b, phases, s.events[m.id]);
    }
    if cause.ByFanout? {
      SameCredits(pubs, b, b', m.id);
      FirstsDecide(pubs, b, b', phases, m.id);
      FanoutReasonFitsBook(s, r, pubs, b, b', phases, now, cause.reason, m);
    } else {
      PlainReasonFits(s, r, pubs, b, b', phases, now, cause, m);
    }
  }

  lemma PlainReasonFits(
      s: State, r: State, pubs: Publications, b: Book, b': Book, phases: Phases, now: Instant, cause: Cause, m: Summary)
    requires !cause.ByFanout? && CauseHolds(s, r, pubs, b, phases, cause) && Settled(s.events, r.events, m, now, cause)
    requires m.id in b'.seen && m.id in b'.ended && b'.ended[m.id] == now && b'.seen[m.id].at == s.events[m.id].observedAt
    ensures ReasonFits(pubs, b', phases, m)
  {
  }

  lemma FanoutReasonFitsBook(
      s: State, r: State, pubs: Publications, b: Book, b': Book, phases: Phases, now: Instant, reason: Reason, m: Summary)
    requires CauseHolds(s, r, pubs, b, phases, ByFanout(reason)) && Settled(s.events, r.events, m, now, ByFanout(reason))
    requires m.id in b'.seen && m.id in b'.ended && AllDone(pubs, b', phases, m.id)
    requires LostToAnother(pubs, b, m.id) ==> LostToAnother(pubs, b', m.id)
    requires LostToLeaving(pubs, b, phases, m.id) ==> LostToLeaving(pubs, b', phases, m.id)
    ensures ReasonFits(pubs, b', phases, m)
  {
  }

  lemma FirstsDecide(pubs: Publications, b: Book, b': Book, phases: Phases, id: EventId)
    requires SameFirsts(b, b', id)
    ensures AllDone(pubs, b, phases, id) ==> AllDone(pubs, b', phases, id)
    ensures LostToAnother(pubs, b, id) ==> LostToAnother(pubs, b', id)
    ensures LostToLeaving(pubs, b, phases, id) ==> LostToLeaving(pubs, b', phases, id)
  {
  }

  lemma EventEnds(
      pubs: Publications, b: Book, phases: Phases, e: Event, before: map<EventId, Event>, after: map<EventId, Event>,
      now: Instant)
    requires EventBooked(pubs, b, phases, e)
    ensures EventBooked(pubs, Ends(b, before, after, now), phases, e)
  {
    SameCredits(pubs, b, Ends(b, before, after, now), e.id);
  }

  lemma SettleSummaries(
      s: State, r: State, pubs: Publications, b: Book, phases: Phases, now: Instant, cause: Cause)
    requires EventsBooked(s.events, pubs, b, phases) && SummariesBooked(s.emitted, s.events, pubs, b, phases)
    requires Settles(s, r, now, cause) && CauseHolds(s, r, pubs, b, phases, cause)
    ensures SummariesBooked(r.emitted, r.events, pubs, Ends(b, s.events, r.events, now), phases)
  {
    forall i | 0 <= i < |r.emitted|
      ensures r.emitted[i].id !in r.events
      ensures SummaryBooked(pubs, Ends(b, s.events, r.events, now), phases, r.emitted[i])
    {
      if i < |s.emitted| {
        assert r.emitted[i] == s.emitted[i];
        SummaryEnds(pubs, b, phases, s.emitted[i], s.events, r.events, now);
      } else {
        assert Settled(s.events, r.events, r.emitted[i], now, cause);
        NewSummaryBooked(s, r, pubs, b, phases, now, cause, r.emitted[i]);
      }
    }
    SettleDistinct(s, r, now, cause);
  }

  lemma SettleDistinct(s: State, r: State, now: Instant, cause: Cause)
    requires Settles(s, r, now, cause)
    requires forall i :: 0 <= i < |s.emitted| ==> s.emitted[i].id !in s.events
    requires forall i, j :: 0 <= i < j < |s.emitted| ==> s.emitted[i].id != s.emitted[j].id
    ensures forall i, j :: 0 <= i < j < |r.emitted| ==> r.emitted[i].id != r.emitted[j].id
  {
    forall i, j | 0 <= i < j < |r.emitted|
      ensures r.emitted[i].id != r.emitted[j].id
    {
      if i < |s.emitted| {
        assert r.emitted[i] == s.emitted[i];
        if j < |s.emitted| {
          assert r.emitted[j] == s.emitted[j];
        } else {
          assert Settled(s.events, r.events, r.emitted[j], now, cause);
        }
      }
    }
  }

  lemma SettleKeeps(s: State, r: State, pubs: Publications, b: Book, phases: Phases, now: Instant, cause: Cause)
    requires Booked(s, pubs, b, phases) && Settles(s, r, now, cause) && CauseHolds(s, r, pubs, b, phases, cause)
    ensures Booked(r, pubs, Ends(b, s.events, r.events, now), phases)
  {
    SettleSummaries(s, r, pubs, b, phases, now, cause);
    SettleEvents(s, r, pubs, b, phases, now, cause);
    SettleTold(s, r, b, now, cause);
  }

  lemma SettleEvents(s: State, r: State, pubs: Publications, b: Book, phases: Phases, now: Instant, cause: Cause)
    requires EventsBooked(s.events, pubs, b, phases) && KeysOk(s.nextId, pubs, b) && Settles(s, r, now, cause)
    ensures EventsBooked(r.events, pubs, Ends(b, s.events, r.events, now), phases)
    ensures KeysOk(r.nextId, pubs, Ends(b, s.events, r.events, now))
  {
    forall id | id in r.events
      ensures r.events[id].id == id && EventBooked(pubs, Ends(b, s.events, r.events, now), phases, r.events[id])
    {
      EventEnds(pubs, b, phases, s.events[id], s.events, r.events, now);
    }
    forall id | id in Ends(b, s.events, r.events, now).ended
      ensures id in b.seen
    {
      if id in s.events {
        assert EventBooked(pubs, b, phases, s.events[id]);
      }
    }
  }

  lemma SettleTold(s: State, r: State, b: Book, now: Instant, cause: Cause)
    requires NoneLost(s.events, s.emitted, b) && Settles(s, r, now, cause)
    ensures NoneLost(r.events, r.emitted, Ends(b, s.events, r.events, now))
  {
    forall id | id in b.seen && id !in r.events
      ensures IsTold(r.emitted, id)
    {
      if id !in s.events {
        var i :| 0 <= i < |s.emitted| && s.emitted[i].id == id;
        assert r.emitted[i] == s.emitted[i];
      }
    }
  }

  // ---------------------------------------------------------------- the book of a run

  /** The event a notification reaches: the one its key leads to, once the lock is had and old events are gone. */
  function ReachedBy(s: State, lock: Lock, key: Key, now: Instant, order: seq<EventId>): Option<EventId> {
    if !lock.Acquired? then None
    else
      var s := ExpireAll(s, order, now);
      if key in s.published then Some(s.published[key]) else None
  }

  /** The time of a step that may end events. */
  function When(w: World, a: Action): Instant {
    if a.FinishPublish? && w.publishing.UntrackedRead? then w.publishing.now
    else if a.LeaveEnd? || a.ObserveUpstream? || a.Ready? || a.Publish? || a.Fail? || a.ExpireEvents? || a.Notify? then a.now
    else 0
  }

  function Saw(b: Book, id: EventId, x: Sighting): Book {
    b.(seen := b.seen[id := x])
  }

  /** What observing notes: a new event took the next id. */
  function NotesSeen(b: Book, before: EventId, after: EventId, x: Sighting): Book {
    if after > before then Saw(b, before, x) else b
  }

  /** What marking ready notes, given the events afterwards. */
  function NotesReady(b: Book, after: map<EventId, Event>, id: EventId, now: Instant): Book {
    if id in after && id !in b.ready then b.(ready := b.ready[id := now]) else b
  }

  function Issued(b: Book, id: EventId, now: Instant): Book {
    b.(published := b.published[id := now], marks := b.marks[id := |b.reaches|])
  }

  function Reached(b: Book, x: Reach): Book {
    b.(reaches := b.reaches + [x])
  }

  function NotesReach(b: Book, sid: SessionId, event: Option<EventId>, outcome: FanoutOutcome): Book {
    if event.Some? then Reached(b, Reach(sid, event.value, outcome)) else b
  }

  /** What one step adds to the book, beside the events it ends. */
  function Noted(w: World, a: Action, b: Book): Book
    requires w.tel.enabled && Enabled(w, a)
  {
    match a
    case ObserveUpstream(_, key, source, now, _) =>
      NotesSeen(b, w.tel.nextId, Next(w, a).tel.nextId, Sighting(source, key, now))
    case Ready(lock, id, now, _) => if lock.Acquired? then NotesReady(b, Next(w, a).tel.events, id, now) else b
    case FinishPublish => if w.publishing.id in w.tel.events then Issued(b, w.publishing.id, w.publishing.now) else b
    case Notify(sid, key, outcome, lock, now, order, _) =>
      NotesReach(b, sid, ReachedBy(w.tel, lock, key, now, order), outcome)
    case _ => b
  }

  function BookNext(w: World, a: Action, b: Book): Book
    requires w.tel.enabled && Enabled(w, a)
  {
    Ends(Noted(w, a, b), w.tel.events, Next(w, a).tel.events, When(w, a))
  }

  /** The book after a run. */
  ghost function BookOf(w: World, b: Book, actions: seq<Action>): Book
    requires w.tel.enabled
    decreases |actions|
  {
    if actions == [] || !Enabled(w, actions[0]) || !Next(w, actions[0]).tel.enabled then b
    else BookOf(Next(w, actions[0]), BookNext(w, actions[0], b), actions[1..])
  }

  const NEW_BOOK := Book([], map[], map[], map[], map[], map[])

  // ---------------------------------------------------------------- moving sessions

  /** Nobody who was ever on a roster is lost from sight, or newly found to have left cleanly. */
  predicate SameLeavers(phases: Phases, phases': Phases) {
    forall sid :: sid in phases && WasTracked(phases[sid]) ==>
      sid in phases' && WasTracked(phases'[sid]) && (LeftCleanly(phases', sid) <==> LeftCleanly(phases, sid))
  }

  lemma PhasesKeepSummary(pubs: Publications, b: Book, phases: Phases, phases': Phases, m: Summary)
    requires RostersOk(pubs, phases) && SameLeavers(phases, phases')
    requires SummaryBooked(pubs, b, phases, m)
    ensures SummaryBooked(pubs, b, phases', m)
  {
    assert AllDone(pubs, b, phases, m.id) ==> AllDone(pubs, b, phases', m.id);
    assert LostToLeaving(pubs, b, phases, m.id) ==> LostToLeaving(pubs, b, phases', m.id);
  }

  lemma PhasesKeepEvent(pubs: Publications, b: Book, phases: Phases, phases': Phases, e: Event)
    requires RostersOk(pubs, phases) && SameLeavers(phases, phases') && EventBooked(pubs, b, phases, e)
    ensures EventBooked(pubs, b, phases', e)
  {
  }

  lemma PhasesKeepEvents(events: map<EventId, Event>, pubs: Publications, b: Book, phases: Phases, phases': Phases)
    requires RostersOk(pubs, phases) && SameLeavers(phases, phases') && EventsBooked(events, pubs, b, phases)
    ensures EventsBooked(events, pubs, b, phases')
  {
    forall id | id in events
      ensures EventBooked(pubs, b, phases', events[id])
    {
      PhasesKeepEvent(pubs, b, phases, phases', events[id]);
    }
  }

  lemma PhasesKeepSummaries(
      emitted: seq<Summary>, events: map<EventId, Event>, pubs: Publications, b: Book, phases: Phases, phases': Phases)
    requires RostersOk(pubs, phases) && SameLeavers(phases, phases') && SummariesBooked(emitted, events, pubs, b, phases)
    ensures SummariesBooked(emitted, events, pubs, b, phases')
  {
    forall i | 0 <= i < |emitted|
      ensures SummaryBooked(pubs, b, phases', emitted[i])
    {
      PhasesKeepSummary(pubs, b, phases, phases', emitted[i]);
    }
  }

  lemma PhasesKeepRosters(pubs: Publications, phases: Phases, phases': Phases)
    requires RostersOk(pubs, phases) && SameLeavers(phases, phases')
    ensures RostersOk(pubs, phases')
  {
  }

  lemma PhasesKeep(s: State, r: State, pubs: Publications, b: Book, phases: Phases, phases': Phases)
    requires Booked(s, pubs, b, phases) && SameLeavers(phases, phases')
    requires r.events == s.events && r.emitted == s.emitted && r.nextId == s.nextId
    ensures Booked(r, pubs, b, phases')
  {
    PhasesKeepEvents(s.events, pubs, b, phases, phases');
    PhasesKeepSummaries(s.emitted, s.events, pubs, b, phases, phases');
    PhasesKeepRosters(pubs, phases, phases');
  }

  /** A clean leave takes the session off every event. */
  lemma LeaveDrops(s: State, pubs: Publications, b: Book, phases: Phases, sid: SessionId)
    requires Booked(s, pubs, b, phases) && sid in phases && phases[sid].LeavingTracked?
    ensures var s1 := s.(active := s.active - {sid}, events := DropPending(s.events, sid, None));
      Booked(s1, pubs, b, phases[sid := GoneClean])
  {
    LeaveDropsEvents(s.events, pubs, b, phases, sid);
    LeaveKeepsSummaries(s.emitted, s.events, pubs, b, phases, sid);
    LeaveKeepsRest(s, pubs, b, phases, sid);
  }

  lemma LeaveKeepsRest(s: State, pubs: Publications, b: Book, phases: Phases, sid: SessionId)
    requires NoneLost(s.events, s.emitted, b) && RostersOk(pubs, phases) && sid in phases
    ensures NoneLost(DropPending(s.events, sid, None), s.emitted, b) && RostersOk(pubs, phases[sid := GoneClean])
    ensures DropPending(s.events, sid, None).Keys == s.events.Keys
  {
  }

  lemma LeaveDropsEvent(pubs: Publications, b: Book, phases: Phases, sid: SessionId, e: Event)
    requires EventBooked(pubs, b, phases, e) && sid in phases
    ensures EventBooked(pubs, b, phases[sid := GoneClean], DropFrom(e, sid))
    ensures LastPending(e, sid) ==> LostToLeaving(pubs, b, phases[sid := GoneClean], e.id)
  {
    if sid in e.pending {
      assert Awaited(pubs, b, phases, e.id, sid);
    }
  }

  lemma LeaveDropsEvents(events: map<EventId, Event>, pubs: Publications, b: Book, phases: Phases, sid: SessionId)
    requires EventsBooked(events, pubs, b, phases) && sid in phases
    ensures EventsBooked(DropPending(events, sid, None), pubs, b, phases[sid := GoneClean])
    ensures forall id :: id in Emptied(events, sid, None) ==> LostToLeaving(pubs, b, phases[sid := GoneClean], id)
  {
    var after := DropPending(events, sid, None);
    forall id | id in after
      ensures after[id].id == id && EventBooked(pubs, b, phases[sid := GoneClean], after[id])
    {
      LeaveDropsEvent(pubs, b, phases, sid, events[id]);
    }
    forall id | id in Emptied(events, sid, None)
      ensures LostToLeaving(pubs, b, phases[sid := GoneClean], id)
    {
      LeaveDropsEvent(pubs, b, phases, sid, events[id]);
    }
  }

  lemma LeaveKeepsSummaries(
      emitted: seq<Summary>, events: map<EventId, Event>, pubs: Publications, b: Book, phases: Phases, sid: SessionId)
    requires SummariesBooked(emitted, events, pubs, b, phases)
    ensures SummariesBooked(emitted, events, pubs, b, phases[sid := GoneClean])
  {
    forall i | 0 <= i < |emitted|
      ensures SummaryBooked(pubs, b, phases[sid := GoneClean], emitted[i])
    {
      LeaveKeepsSummary(pubs, b, phases, sid, emitted[i]);
    }
  }

  lemma LeaveKeepsSummary(pubs: Publications, b: Book, phases: Phases, sid: SessionId, m: Summary)
    requires SummaryBooked(pubs, b, phases, m)
    ensures SummaryBooked(pubs, b, phases[sid := GoneClean], m)
  {
    assert AllDone(pubs, b, phases, m.id) ==> AllDone(pubs, b, phases[sid := GoneClean], m.id);
    assert LostToLeaving(pubs, b, phases, m.id) ==> LostToLeaving(pubs, b, phases[sid := GoneClean], m.id);
  }

  lemma LeaveKeepsBook(
      s: State, pubs: Publications, b: Book, phases: Phases, sid: SessionId, now: Instant, finished: seq<EventId>)
    requires Booked(s, pubs, b, phases) && sid in phases && phases[sid].LeavingTracked? && sid in s.active
    requires Enumerates(finished, Emptied(s.events, sid, None))
    ensures var r := LeaveRoster(s, Acquired, sid, now, finished);
      Booked(r, pubs, Ends(b, s.events, r.events, now), phases[sid := GoneClean])
  {
    var s1 := s.(active := s.active - {sid}, events := DropPending(s.events, sid, None));
    LeaveDrops(s, pubs, b, phases, sid);
    LeaveLoses(s.events, pubs, b, phases, sid, finished);
    LeftKeepsBook(s1, s.events, pubs, b, phases[sid := GoneClean], finished, now);
  }

  lemma LeaveLoses(
      events: map<EventId, Event>, pubs: Publications, b: Book, phases: Phases, sid: SessionId, finished: seq<EventId>)
    requires EventsBooked(events, pubs, b, phases) && sid in phases && Enumerates(finished, Emptied(events, sid, None))
    ensures forall id :: id in finished ==> LostToLeaving(pubs, b, phases[sid := GoneClean], id)
    ensures var after := DropPending(events, sid, None);
      after.Keys == events.Keys && forall i :: 0 <= i < |finished| && finished[i] in after ==> after[finished[i]].pending == {}
  {
    LeaveDropsEvents(events, pubs, b, phases, sid);
    EmptiedWaitForNobody(events, sid, None, finished);
  }

  lemma LeftKeepsBook(
      s: State, before: map<EventId, Event>, pubs: Publications, b: Book, phases: Phases, finished: seq<EventId>, now: Instant)
    requires Booked(s, pubs, b, phases) && s.events.Keys == before.Keys
    requires forall i :: 0 <= i < |finished| && finished[i] in s.events ==> s.events[finished[i]].pending == {}
    requires forall id :: id in finished ==> LostToLeaving(pubs, b, phases, id)
    ensures var r := FinishFanoutAll(s, finished, SessionDisconnected, now);
      Booked(r, pubs, Ends(b, before, r.events, now), phases)
  {
    FanoutAllKeepsBook(s, pubs, b, phases, finished, SessionDisconnected, now);
  }

  /** Finishing the events nobody waits for any more, for one of the two reasons they can have lost their last session. */
  lemma FanoutAllKeepsBook(
      s: State, pubs: Publications, b: Book, phases: Phases, ids: seq<EventId>, reason: Reason, now: Instant)
    requires Booked(s, pubs, b, phases) && (reason.SessionDisconnected? || reason.Superseded?)
    requires forall i :: 0 <= i < |ids| && ids[i] in s.events ==> s.events[ids[i]].pending == {}
    requires forall id :: id in ids && reason.SessionDisconnected? ==> LostToLeaving(pubs, b, phases, id)
    requires forall id :: id in ids && reason.Superseded? ==> LostToAnother(pubs, b, id)
    ensures var r := FinishFanoutAll(s, ids, reason, now);
      Booked(r, pubs, Ends(b, s.events, r.events, now), phases)
  {
    var r := FinishFanoutAll(s, ids, reason, now);
    FanoutAllSettles(s, ids, reason, now);
    assert CauseHolds(s, r, pubs, b, phases, ByFanout(reason));
    SettleKeeps(s, r, pubs, b, phases, now, ByFanout(reason));
  }

  lemma MoveBooked(w: World, a: Action, b: Book)
    requires WorldInv(w) && Enabled(w, a) && MovesSession(a) && Booked(w.tel, w.h.pubs, b, w.phases)
    ensures Booked(Next(w, a).tel, Next(w, a).h.pubs, BookNext(w, a, b), Next(w, a).phases)
  {
    if a.LeaveEnd? && w.phases[a.sid].LeavingTracked? && a.lock.Acquired? {
      LeaverIsActive(w, a.sid);
      LeaveStepBooked(w, a, b);
    } else {
      QuietMoveBooked(w, a, b);
    }
  }

  lemma LeaverIsActive(w: World, sid: SessionId)
    requires Accounting(w.tel.active, w.tel.counters, w.phases) && InPhase(w, sid, LeavingTracked)
    ensures sid in w.tel.active
  {
  }

  lemma LeaveStepBooked(w: World, a: Action, b: Book)
    requires w.tel.enabled && Enabled(w, a) && Booked(w.tel, w.h.pubs, b, w.phases)
    requires a.LeaveEnd? && InPhase(w, a.sid, LeavingTracked) && a.lock.Acquired? && a.sid in w.tel.active
    ensures Booked(Next(w, a).tel, Next(w, a).h.pubs, BookNext(w, a, b), Next(w, a).phases)
  {
    LeaveKeepsBook(w.tel, w.h.pubs, b, w.phases, a.sid, a.now, a.finished);
  }

  lemma QuietMoveBooked(w: World, a: Action, b: Book)
    requires w.tel.enabled && Enabled(w, a) && MovesSession(a) && Booked(w.tel, w.h.pubs, b, w.phases)
    requires !(a.LeaveEnd? && w.phases[a.sid].LeavingTracked? && a.lock.Acquired?)
    ensures Booked(Next(w, a).tel, Next(w, a).h.pubs, BookNext(w, a, b), Next(w, a).phases)
  {
    var v := Next(w, a);
    MoveShape(w, a);
    EndsNothing(b, w.tel.events, When(w, a));
    PhasesKeep(w.tel, v.tel, w.h.pubs, b, w.phases, v.phases);
  }

  lemma MoveShape(w: World, a: Action)
    requires w.tel.enabled && Enabled(w, a) && MovesSession(a)
    requires !(a.LeaveEnd? && w.phases[a.sid].LeavingTracked? && a.lock.Acquired?)
    ensures var v := Next(w, a);
      && v.tel.events == w.tel.events && v.tel.emitted == w.tel.emitted && v.tel.nextId == w.tel.nextId
      && v.h == w.h && SameLeavers(w.phases, v.phases)
  {
    MoveTelemetry(w, a);
    MoveLeavers(w, a);
  }

  lemma MoveTelemetry(w: World, a: Action)
    requires w.tel.enabled && Enabled(w, a) && MovesSession(a)
    requires !(a.LeaveEnd? && w.phases[a.sid].LeavingTracked? && a.lock.Acquired?)
    ensures var v := Next(w, a);
      && v.tel.events == w.tel.events && v.tel.emitted == w.tel.emitted && v.tel.nextId == w.tel.nextId && v.h == w.h
  {
    if a.JoinEnd? {
      EnterTelemetry(w.tel, a.lock, a.sid);
    } else if a.LeaveEnd? {
      LeaveTelemetry(w, a);
    }
  }

  lemma EnterTelemetry(s: State, lock: Lock, sid: SessionId)
    ensures var r := EnterRoster(s, lock, sid).0; r == s.(counters := r.counters, active := r.active)
  {
  }

  lemma LeaveTelemetry(w: World, a: Action)
    requires w.tel.enabled && Enabled(w, a) && a.LeaveEnd?
    requires !(w.phases[a.sid].LeavingTracked? && a.lock.Acquired?)
    ensures var v := Next(w, a); v.tel == w.tel.(counters := v.tel.counters) && v.h == w.h
  {
  }

  lemma MoveLeavers(w: World, a: Action)
    requires w.tel.enabled && Enabled(w, a) && MovesSession(a)
    requires !(a.LeaveEnd? && w.phases[a.sid].LeavingTracked? && a.lock.Acquired?)
    ensures SameLeavers(w.phases, Next(w, a).phases)
  {
    var to := Next(w, a).phases[a.sid];
    assert Next(w, a).phases == w.phases[a.sid := to];
    OneLeaver(w.phases, a.sid, to);
  }

  lemma OneLeaver(phases: Phases, sid: SessionId, to: Phase)
    requires sid in phases && WasTracked(phases[sid]) ==> WasTracked(to) && (to.GoneClean? <==> phases[sid].GoneClean?)
    ensures SameLeavers(phases, phases[sid := to])
  {
  }

  // ---------------------------------------------------------------- observing and getting ready

  lemma ExpireKeepsBook(s: State, pubs: Publications, b: Book, phases: Phases, order: seq<EventId>, now: Instant)
    requires Booked(s, pubs, b, phases) && Enumerates(order, Expired(s, now))
    ensures var t := ExpireAll(s, order, now);
      && Booked(t, pubs, Ends(b, s.events, t.events, now), phases)
      && t.nextId == s.nextId && t.events.Keys <= s.events.Keys
  {
    assert forall i :: 0 <= i < |order| ==> order[i] in order;
    ExpireAllSettles(s, order, now);
    SettleKeeps(s, ExpireAll(s, order, now), pubs, b, phases, now, ByTimeout);
  }

  lemma AdmitKeepsBook(s: State, pubs: Publications, b: Book, phases: Phases, key: Key, e: Event)
    requires Booked(s, pubs, b, phases) && |s.events| < MAX_IN_FLIGHT_EVENTS
    requires forall id :: id in s.events ==> id < s.nextId
    requires e == NewEvent(s.nextId, e.source, key, e.observedAt)
    ensures Booked(Admit(s, key, e).0, pubs, Saw(b, s.nextId, Sighting(e.source, key, e.observedAt)), phases)
  {
    AdmitEvents(s.events, s.nextId, pubs, b, phases, key, e);
    AdmitSummaries(s, pubs, b, phases, e, Sighting(e.source, key, e.observedAt));
  }

  lemma AdmitEvents(
      events: map<EventId, Event>, nextId: EventId, pubs: Publications, b: Book, phases: Phases, key: Key, e: Event)
    requires EventsBooked(events, pubs, b, phases) && KeysOk(nextId, pubs, b)
    requires e == NewEvent(nextId, e.source, key, e.observedAt)
    ensures EventsBooked(events[nextId := e], pubs, Saw(b, nextId, Sighting(e.source, key, e.observedAt)), phases)
  {
    var b' := Saw(b, nextId, Sighting(e.source, key, e.observedAt));
    var after := events[nextId := e];
    forall id | id in after
      ensures after[id].id == id && EventBooked(pubs, b', phases, after[id])
    {
      SameCredits(pubs, b, b', id);
      if id == nextId {
        NewEventBooked(pubs, b', phases, key, e);
      }
    }
  }

  lemma NewEventBooked(pubs: Publications, b: Book, phases: Phases, key: Key, e: Event)
    requires e == NewEvent(e.id, e.source, key, e.observedAt) && e.id in b.seen
    requires b.seen[e.id] == Sighting(e.source, key, e.observedAt)
    requires e.id !in pubs && e.id !in b.ready && e.id !in b.published
    ensures EventBooked(pubs, b, phases, e)
  {
  }

  lemma AdmitSummaries(s: State, pubs: Publications, b: Book, phases: Phases, e: Event, x: Sighting)
    requires SummariesBooked(s.emitted, s.events, pubs, b, phases) && KeysOk(s.nextId, pubs, b)
    ensures SummariesBooked(s.emitted, s.events[s.nextId := e], pubs, Saw(b, s.nextId, x), phases)
  {
    forall i | 0 <= i < |s.emitted|
      ensures SummaryBooked(pubs, Saw(b, s.nextId, x), phases, s.emitted[i]) && s.emitted[i].id != s.nextId
    {
      SeenKeepsSummary(pubs, b, phases, s.emitted[i], s.nextId, x);
    }
  }

  lemma SeenKeepsSummary(pubs: Publications, b: Book, phases: Phases, m: Summary, id: EventId, x: Sighting)
    requires SummaryBooked(pubs, b, phases, m) && id !in b.seen
    ensures SummaryBooked(pubs, b.(seen := b.seen[id := x]), phases, m)
  {
    SameCredits(pubs, b, b.(seen := b.seen[id := x]), m.id);
    FirstsDecide(pubs, b, b.(seen := b.seen[id := x]), phases, m.id);
  }

  lemma ReadyKeepsSummary(pubs: Publications, b: Book, phases: Phases, m: Summary, id: EventId, now: Instant)
    requires SummaryBooked(pubs, b, phases, m) && id != m.id
    ensures SummaryBooked(pubs, b.(ready := b.ready[id := now]), phases, m)
  {
    SameCredits(pubs, b, b.(ready := b.ready[id := now]), m.id);
    FirstsDecide(pubs, b, b.(ready := b.ready[id := now]), phases, m.id);
  }

  lemma ReadyKeepsEvent(pubs: Publications, b: Book, phases: Phases, e: Event, id: EventId, now: Instant)
    requires EventBooked(pubs, b, phases, e) && (e.id == id ==> e.publishedAt.None?)
    ensures e.id != id ==> EventBooked(pubs, b.(ready := b.ready[id := now]), phases, e)
    ensures e.id == id ==> EventBooked(pubs, b.(ready := b.ready[id := now]), phases, e.(aReadyAt := Some(now)))
  {
    SameCredits(pubs, b, b.(ready := b.ready[id := now]), e.id);
  }

  lemma ReadyKeepsEvents(
      events: map<EventId, Event>, pubs: Publications, b: Book, phases: Phases, id: EventId, now: Instant)
    requires EventsBooked(events, pubs, b, phases) && id in events && events[id].publishedAt.None?
    ensures EventsBooked(events[id := events[id].(aReadyAt := Some(now))], pubs, b.(ready := b.ready[id := now]), phases)
  {
    forall x | x in events
      ensures x == id ==> EventBooked(pubs, b.(ready := b.ready[id := now]), phases, events[x].(aReadyAt := Some(now)))
      ensures x != id ==> EventBooked(pubs, b.(ready := b.ready[id := now]), phases, events[x])
    {
      ReadyKeepsEvent(pubs, b, phases, events[x], id, now);
    }
  }

  lemma ReadyKeepsSummaries(
      emitted: seq<Summary>, events: map<EventId, Event>, pubs: Publications, b: Book, phases: Phases, id: EventId, now: Instant)
    requires SummariesBooked(emitted, events, pubs, b, phases) && id in events
    ensures SummariesBooked(emitted, events, pubs, b.(ready := b.ready[id := now]), phases)
  {
    forall i | 0 <= i < |emitted|
      ensures SummaryBooked(pubs, b.(ready := b.ready[id := now]), phases, emitted[i])
    {
      ReadyKeepsSummary(pubs, b, phases, emitted[i], id, now);
    }
  }

  lemma ReadyKeepsBook(s: State, pubs: Publications, b: Book, phases: Phases, id: EventId, now: Instant)
    requires Booked(s, pubs, b, phases) && id in s.events && s.events[id].publishedAt.None?
    ensures Booked(s.(events := s.events[id := s.events[id].(aReadyAt := Some(now))]), pubs, b.(ready := b.ready[id := now]), phases)
  {
    var events, b' := s.events[id := s.events[id].(aReadyAt := Some(now))], b.(ready := b.ready[id := now]);
    assert events.Keys == s.events.Keys;
    assert id in b.seen by {
      assert EventBooked(pubs, b, phases, s.events[id]);
    }
    assert EventsBooked(events, pubs, b', phases) by {
      ReadyKeepsEvents(s.events, pubs, b, phases, id, now);
    }
    assert SummariesBooked(s.emitted, events, pubs, b', phases) by {
      ReadyKeepsSummaries(s.emitted, s.events, pubs, b, phases, id, now);
    }
  }

  lemma FailureKeepsBook(
      s: State, pubs: Publications, b: Book, phases: Phases, id: EventId, reason: Reason, now: Instant)
    requires Booked(s, pubs, b, phases) && (reason.OutOfOrder? || reason.ReplacementKeyOversize? || reason.Caller?)
    ensures var r := Finish(s, id, Failure, reason, now);
      Booked(r, pubs, Ends(b, s.events, r.events, now), phases) && r.events.Keys <= s.events.Keys && r.nextId == s.nextId
  {
    FinishSettles(s, id, Failure, reason, now, ByFailure(reason));
    SettleKeeps(s, Finish(s, id, Failure, reason, now), pubs, b, phases, now, ByFailure(reason));
  }

  /** The books do not depend on the counters. */
  lemma CountersKeepBook(s: State, r: State, pubs: Publications, b: Book, phases: Phases)
    requires Booked(s, pubs, b, phases) && r.events == s.events && r.emitted == s.emitted && r.nextId == s.nextId
    ensures Booked(r, pubs, b, phases)
  {
  }

  // ---------------------------------------------------------------- being notified

  lemma FirstReached(b: Book, x: Reach, id: EventId, sid: SessionId)
    requires MarkOf(b, id) <= |b.reaches|
    ensures var before := FirstSince(b, id, sid);
      FirstSince(Reached(b, x), id, sid) == if before.Some? then before else if x.sid == sid then Some(x) else None
  {
    FirstMore(b.reaches, x, MarkOf(b, id), sid);
  }

  /** A session nobody waits for any more changes nobody's credit. */
  lemma ReachedElsewhere(pubs: Publications, b: Book, x: Reach, id: EventId, outcome: FanoutOutcome)
    requires MarkOf(b, id) <= |b.reaches|
    requires x.event != id || x.sid !in RosterOf(pubs, id) || FirstSince(b, id, x.sid).Some?
    ensures Credited(pubs, Reached(b, x), id, outcome) == Credited(pubs, b, id, outcome)
  {
    forall sid
      ensures sid in Credited(pubs, Reached(b, x), id, outcome) <==> sid in Credited(pubs, b, id, outcome)
    {
      FirstReached(b, x, id, sid);
    }
  }

  lemma ReachedFirst(pubs: Publications, b: Book, x: Reach, outcome: FanoutOutcome)
    requires MarkOf(b, x.event) <= |b.reaches|
    requires x.sid in RosterOf(pubs, x.event) && FirstSince(b, x.event, x.sid).None?
    ensures x.sid !in Credited(pubs, b, x.event, outcome)
    ensures Credited(pubs, Reached(b, x), x.event, outcome)
         == Credited(pubs, b, x.event, outcome) + if outcome == x.outcome then {x.sid} else {}
  {
    forall sid
      ensures sid in Credited(pubs, Reached(b, x), x.event, outcome) <==>
                sid in Credited(pubs, b, x.event, outcome) + if outcome == x.outcome then {x.sid} else {}
    {
      FirstReached(b, x, x.event, sid);
    }
  }

  lemma ReachedAwaits(pubs: Publications, b: Book, phases: Phases, x: Reach, id: EventId)
    requires MarkOf(b, id) <= |b.reaches|
    ensures forall sid :: Awaited(pubs, Reached(b, x), phases, id, sid) <==> Awaited(pubs, b, phases, id, sid) && sid != x.sid
  {
    forall sid
      ensures Awaited(pubs, Reached(b, x), phases, id, sid) <==> Awaited(pubs, b, phases, id, sid) && sid != x.sid
    {
      FirstReached(b, x, id, sid);
    }
  }

  /** What a notification that reached an event makes of any event. */
  function AfterReach(e: Event, x: Reach): Event {
    if e.id != x.event then DropFrom(e, x.sid) else if x.sid in e.pending then Deliver(e, x.sid, x.outcome) else e
  }

  lemma OtherReached(pubs: Publications, b: Book, phases: Phases, e: Event, x: Reach)
    requires EventBooked(pubs, b, phases, e) && MarkOf(b, e.id) <= |b.reaches| && e.id != x.event
    ensures EventBooked(pubs, Reached(b, x), phases, AfterReach(e, x))
    ensures x.sid in e.pending ==> LostToAnother(pubs, Reached(b, x), e.id)
  {
    ReachedElsewhere(pubs, b, x, e.id, Success);
    ReachedElsewhere(pubs, b, x, e.id, Failed);
    ReachedAwaits(pubs, b, phases, x, e.id);
    FirstReached(b, x, e.id, x.sid);
  }

  lemma TargetReached(pubs: Publications, b: Book, phases: Phases, e: Event, x: Reach)
    requires EventBooked(pubs, b, phases, e) && MarkOf(b, e.id) <= |b.reaches| && e.id == x.event
    requires !LeftCleanly(phases, x.sid)
    ensures EventBooked(pubs, Reached(b, x), phases, AfterReach(e, x))
  {
    ReachedAwaits(pubs, b, phases, x, e.id);
    assert x.sid in e.pending <==> Awaited(pubs, b, phases, e.id, x.sid);
    TargetCounts(pubs, b, e, x);
  }

  lemma TargetCounts(pubs: Publications, b: Book, e: Event, x: Reach)
    requires CountsCredits(pubs, b, e.id, e.notifySuccess, e.notifyFailed) && MarkOf(b, e.id) <= |b.reaches| && e.id == x.event
    requires x.sid in e.pending <==> x.sid in RosterOf(pubs, e.id) && FirstSince(b, e.id, x.sid).None?
    ensures var r := AfterReach(e, x); CountsCredits(pubs, Reached(b, x), e.id, r.notifySuccess, r.notifyFailed)
  {
    if x.sid in e.pending {
      ReachedFirst(pubs, b, x, Success);
      ReachedFirst(pubs, b, x, Failed);
    } else {
      ReachedElsewhere(pubs, b, x, e.id, Success);
      ReachedElsewhere(pubs, b, x, e.id, Failed);
    }
  }

  lemma ReachedSummary(pubs: Publications, b: Book, phases: Phases, m: Summary, x: Reach)
    requires SummaryBooked(pubs, b, phases, m) && MarkOf(b, m.id) <= |b.reaches| && m.id != x.event
    requires !LeftCleanly(phases, x.sid)
    ensures SummaryBooked(pubs, Reached(b, x), phases, m)
  {
    ReachedElsewhere(pubs, b, x, m.id, Success);
    ReachedElsewhere(pubs, b, x, m.id, Failed);
    ReachedReason(pubs, b, phases, m.id, x);
  }

  lemma ReachedReason(pubs: Publications, b: Book, phases: Phases, id: EventId, x: Reach)
    requires MarkOf(b, id) <= |b.reaches| && !LeftCleanly(phases, x.sid)
    ensures AllDone(pubs, b, phases, id) ==> AllDone(pubs, Reached(b, x), phases, id)
    ensures LostToAnother(pubs, b, id) ==> LostToAnother(pubs, Reached(b, x), id)
    ensures LostToLeaving(pubs, b, phases, id) ==> LostToLeaving(pubs, Reached(b, x), phases, id)
  {
    forall sid
      ensures FirstSince(b, id, sid).Some? ==> FirstSince(Reached(b, x), id, sid) == FirstSince(b, id, sid)
      ensures sid != x.sid ==> FirstSince(Reached(b, x), id, sid) == FirstSince(b, id, sid)
    {
      FirstReached(b, x, id, sid);
    }
    if LostToLeaving(pubs, b, phases, id) {
      var sid :| sid in RosterOf(pubs, id) && FirstSince(b, id, sid).None? && LeftCleanly(phases, sid);
      assert FirstSince(Reached(b, x), id, sid).None?;
    }
    if LostToAnother(pubs, b, id) {
      var sid :| sid in RosterOf(pubs, id) && FirstSince(b, id, sid).Some? && FirstSince(b, id, sid).value.event != id;
      assert FirstSince(Reached(b, x), id, sid) == FirstSince(b, id, sid);
    }
  }

  function AllAfterReach(events: map<EventId, Event>, x: Reach): map<EventId, Event> {
    map id | id in events :: AfterReach(events[id], x)
  }

  lemma ReachKeepsEvents(
      events: map<EventId, Event>, nextId: EventId, pubs: Publications, b: Book, phases: Phases, x: Reach)
    requires EventsBooked(events, pubs, b, phases) && KeysOk(nextId, pubs, b) && !LeftCleanly(phases, x.sid)
    ensures EventsBooked(AllAfterReach(events, x), pubs, Reached(b, x), phases)
    ensures forall id :: id in Emptied(events, x.sid, Some(x.event)) ==> LostToAnother(pubs, Reached(b, x), id)
  {
    var after := AllAfterReach(events, x);
    forall id | id in after
      ensures after[id].id == id && EventBooked(pubs, Reached(b, x), phases, after[id])
      ensures id != x.event && x.sid in events[id].pending ==> LostToAnother(pubs, Reached(b, x), id)
    {
      if id == x.event {
        TargetReached(pubs, b, phases, events[id], x);
      } else {
        OtherReached(pubs, b, phases, events[id], x);
      }
    }
  }

  lemma ReachKeepsSummaries(
      emitted: seq<Summary>, events: map<EventId, Event>, nextId: EventId, pubs: Publications, b: Book, phases: Phases, x: Reach)
    requires SummariesBooked(emitted, events, pubs, b, phases) && KeysOk(nextId, pubs, b)
    requires x.event in events && !LeftCleanly(phases, x.sid)
    ensures SummariesBooked(emitted, AllAfterReach(events, x), pubs, Reached(b, x), phases)
  {
    forall i | 0 <= i < |emitted|
      ensures SummaryBooked(pubs, Reached(b, x), phases, emitted[i])
    {
      ReachedSummary(pubs, b, phases, emitted[i], x);
    }
  }

  lemma ReachKeepsBook(s: State, pubs: Publications, b: Book, phases: Phases, x: Reach)
    requires Booked(s, pubs, b, phases) && x.event in s.events && !LeftCleanly(phases, x.sid)
    ensures Booked(s.(events := AllAfterReach(s.events, x)), pubs, Reached(b, x), phases)
  {
    ReachKeepsEvents(s.events, s.nextId, pubs, b, phases, x);
    ReachKeepsSummaries(s.emitted, s.events, s.nextId, pubs, b, phases, x);
  }

  /** Finishing other events is the same before and after one event changes. */
  lemma SettlesBeside(s: State, r: State, now: Instant, cause: Cause, id: EventId, e: Event)
    requires Settles(s, r, now, cause) && id in r.events
    ensures Settles(s.(events := s.events[id := e]), r.(events := r.events[id := e]), now, cause)
  {
    var s', r' := s.(events := s.events[id := e]), r.(events := r.events[id := e]);
    forall i | |s.emitted| <= i < |r.emitted|
      ensures Settled(s'.events, r'.events, r.emitted[i], now, cause)
    {
      assert Settled(s.events, r.events, r.emitted[i], now, cause);
    }
  }

  /** What superseding the other events, and then changing the one reached, does to the events. */
  lemma SupersedeSettles(s: State, x: Reach, now: Instant, finished: seq<EventId>, t: State, mid: State)
    requires IdsOk(s.events) && x.event in s.events && Enumerates(finished, Emptied(s.events, x.sid, Some(x.event)))
    requires t == SupersedeOthers(s, x.event, x.sid, now, finished)
    requires mid == t.(events := t.events[x.event := AfterReach(s.events[x.event], x)])
    ensures x.event in t.events && t.events[x.event] == s.events[x.event]
    ensures Settles(s.(events := AllAfterReach(s.events, x)), mid, now, ByFanout(Superseded))
    ensures forall id :: id in s.events && id !in finished ==> id in mid.events
  {
    var s1 := s.(events := DropPending(s.events, x.sid, Some(x.event)));
    FanoutAllSettles(s1, finished, Superseded, now);
    assert x.event !in finished;
    SettlesBeside(s1, t, now, ByFanout(Superseded), x.event, AfterReach(s.events[x.event], x));
    BesideIsReach(s.events, x);
  }

  lemma SupersedeKeepsBook(
      s: State, pubs: Publications, b: Book, phases: Phases, x: Reach, now: Instant, finished: seq<EventId>, t: State, mid: State)
    requires Booked(s, pubs, b, phases) && x.event in s.events && !LeftCleanly(phases, x.sid)
    requires Enumerates(finished, Emptied(s.events, x.sid, Some(x.event)))
    requires t == SupersedeOthers(s, x.event, x.sid, now, finished)
    requires mid == t.(events := t.events[x.event := AfterReach(s.events[x.event], x)])
    ensures x.event in t.events && t.events[x.event] == s.events[x.event]
    ensures Booked(mid, pubs, Ends(Reached(b, x), s.events, mid.events, now), phases)
    ensures mid.events.Keys <= s.events.Keys
  {
    SupersedeSettles(s, x, now, finished, t, mid);
    ReachThenSettle(s, s.(events := AllAfterReach(s.events, x)), mid, pubs, b, phases, x, now, finished);
  }

  lemma ReachThenSettle(
      s: State, s2: State, mid: State, pubs: Publications, b: Book, phases: Phases, x: Reach, now: Instant, finished: seq<EventId>)
    requires Booked(s, pubs, b, phases) && x.event in s.events && !LeftCleanly(phases, x.sid)
    requires Enumerates(finished, Emptied(s.events, x.sid, Some(x.event)))
    requires s2 == s.(events := AllAfterReach(s.events, x)) && Settles(s2, mid, now, ByFanout(Superseded))
    requires forall id :: id in s.events && id !in finished ==> id in mid.events
    ensures Booked(mid, pubs, Ends(Reached(b, x), s.events, mid.events, now), phases)
    ensures mid.events.Keys <= s.events.Keys
  {
    assert s2.events.Keys == s.events.Keys;
    assert CauseHolds(s2, mid, pubs, Reached(b, x), phases, ByFanout(Superseded)) by {
      ReachedCauseHolds(s, s2, mid, pubs, b, phases, x, finished);
    }
    ReachKeepsBook(s, pubs, b, phases, x);
    SettleKeeps(s2, mid, pubs, Reached(b, x), phases, now, ByFanout(Superseded));
  }

  lemma ReachedCauseHolds(
      s: State, s2: State, mid: State, pubs: Publications, b: Book, phases: Phases, x: Reach, finished: seq<EventId>)
    requires EventsBooked(s.events, pubs, b, phases) && KeysOk(s.nextId, pubs, b) && !LeftCleanly(phases, x.sid)
    requires s2.events == AllAfterReach(s.events, x) && x.event in mid.events
    requires Enumerates(finished, Emptied(s.events, x.sid, Some(x.event)))
    requires forall id :: id in s.events && id !in finished ==> id in mid.events
    ensures CauseHolds(s2, mid, pubs, Reached(b, x), phases, ByFanout(Superseded))
  {
    ReachKeepsEvents(s.events, s.nextId, pubs, b, phases, x);
    SupersededHold(s.events, s2, mid, pubs, Reached(b, x), phases, x, finished);
  }

  lemma BesideIsReach(events: map<EventId, Event>, x: Reach)
    requires IdsOk(events) && x.event in events
    ensures DropPending(events, x.sid, Some(x.event))[x.event := AfterReach(events[x.event], x)] == AllAfterReach(events, x)
  {
  }

  lemma SupersededHold(
      events: map<EventId, Event>, s: State, r: State, pubs: Publications, b: Book, phases: Phases, x: Reach,
      finished: seq<EventId>)
    requires IdsOk(events) && s.events == AllAfterReach(events, x) && x.event in r.events
    requires Enumerates(finished, Emptied(events, x.sid, Some(x.event)))
    requires forall id :: id in s.events && id !in finished ==> id in r.events
    requires forall id :: id in Emptied(events, x.sid, Some(x.event)) ==> LostToAnother(pubs, b, id)
    ensures CauseHolds(s, r, pubs, b, phases, ByFanout(Superseded))
  {
    forall id | id in s.events && id !in r.events
      ensures s.events[id].pending == {} && LostToAnother(pubs, b, id)
    {
      assert id in finished;
    }
  }

  lemma CreditKeepsBook(
      s: State, pubs: Publications, b: Book, phases: Phases, x: Reach, now: Instant, finished: seq<EventId>)
    requires Booked(s, pubs, b, phases) && x.event in s.events && !LeftCleanly(phases, x.sid)
    requires Enumerates(finished, Emptied(s.events, x.sid, Some(x.event)))
    ensures var r := CreditFanout(SupersedeOthers(s, x.event, x.sid, now, finished), x.event, x.sid, x.outcome, now);
      && Booked(r, pubs, Ends(Reached(b, x), s.events, r.events, now), phases)
      && r.events.Keys <= s.events.Keys && r.nextId == s.nextId
  {
    var t := SupersedeOthers(s, x.event, x.sid, now, finished);
    var d := AfterReach(s.events[x.event], x);
    var mid := t.(events := t.events[x.event := d]);
    SupersedeKeepsBook(s, pubs, b, phases, x, now, finished, t, mid);
    if x.sid in s.events[x.event].pending && d.pending == {} {
      LastCreditKeepsBook(mid, pubs, Ends(Reached(b, x), s.events, mid.events, now), phases, x.event, now);
      var r := FinishFanout(mid, x.event, FanoutReason(d), now);
      EndsTwice(Reached(b, x), s.events, mid.events, r.events, now);
    } else {
      assert x.sid !in s.events[x.event].pending ==> mid.events == t.events;
    }
    SupersedeNextId(s, x, now, finished);
  }

  lemma SupersedeNextId(s: State, x: Reach, now: Instant, finished: seq<EventId>)
    requires IdsOk(s.events)
    ensures CreditFanout(SupersedeOthers(s, x.event, x.sid, now, finished), x.event, x.sid, x.outcome, now).nextId == s.nextId
  {
    var s1 := s.(events := DropPending(s.events, x.sid, Some(x.event)));
    FanoutAllSettles(s1, finished, Superseded, now);
    var t := FinishFanoutAll(s1, finished, Superseded, now);
    if x.event in t.events && x.sid in t.events[x.event].pending {
      var e := Deliver(t.events[x.event], x.sid, x.outcome);
      FanoutSettles(t.(events := t.events[x.event := e]), x.event, FanoutReason(e), now);
    }
  }

  lemma LastCreditKeepsBook(s: State, pubs: Publications, b: Book, phases: Phases, id: EventId, now: Instant)
    requires Booked(s, pubs, b, phases) && id in s.events && s.events[id].pending == {}
    ensures var r := FinishFanout(s, id, FanoutReason(s.events[id]), now);
      Booked(r, pubs, Ends(b, s.events, r.events, now), phases) && r.events.Keys <= s.events.Keys
  {
    var reason := FanoutReason(s.events[id]);
    var r := FinishFanout(s, id, reason, now);
    FanoutSettles(s, id, reason, now);
    assert CauseHolds(s, r, pubs, b, phases, ByFanout(reason));
    SettleKeeps(s, r, pubs, b, phases, now, ByFanout(reason));
  }

  // ---------------------------------------------------------------- being published

  /** Publishing one event is no matter for another. */
  lemma IssuedElsewhere(
      pubs: Publications, b: Book, phases: Phases, p: Publication, x: EventId, now: Instant, id: EventId)
    requires id != x
    ensures var (pubs', b') := (pubs[x := p], Issued(b, x, now));
      && (forall outcome :: Credited(pubs', b', id, outcome) == Credited(pubs, b, id, outcome))
      && (forall sid :: Awaited(pubs', b', phases, id, sid) <==> Awaited(pubs, b, phases, id, sid))
      && (AllDone(pubs', b', phases, id) <==> AllDone(pubs, b, phases, id))
      && (LostToAnother(pubs', b', id) <==> LostToAnother(pubs, b, id))
      && (LostToLeaving(pubs', b', phases, id) <==> LostToLeaving(pubs, b, phases, id))
      && RosterOf(pubs', id) == RosterOf(pubs, id) && StaleOf(pubs', id) == StaleOf(pubs, id)
  {
    var (pubs', b') := (pubs[x := p], Issued(b, x, now));
    assert RosterOf(pubs', id) == RosterOf(pubs, id) && MarkOf(b', id) == MarkOf(b, id);
    assert forall sid :: FirstSince(b', id, sid) == FirstSince(b, id, sid);
  }

  lemma IssuedEvent(pubs: Publications, b: Book, phases: Phases, p: Publication, x: EventId, now: Instant, e: Event)
    requires EventBooked(pubs, b, phases, e) && e.id != x
    ensures EventBooked(pubs[x := p], Issued(b, x, now), phases, e)
  {
    IssuedElsewhere(pubs, b, phases, p, x, now, e.id);
  }

  lemma IssuedSummary(pubs: Publications, b: Book, phases: Phases, p: Publication, x: EventId, now: Instant, m: Summary)
    requires SummaryBooked(pubs, b, phases, m) && m.id != x
    ensures SummaryBooked(pubs[x := p], Issued(b, x, now), phases, m)
  {
    IssuedElsewhere(pubs, b, phases, p, x, now, m.id);
  }

  /** Nobody has been notified since the moment of publication. */
  lemma IssuedFirsts(b: Book, id: EventId, now: Instant)
    ensures forall sid :: FirstSince(Issued(b, id, now), id, sid).None?
  {
  }

  /** The event just published waits for everybody on its roster, or for nobody if that was degraded. */
  lemma IssuedTarget(
      s: State, pubs: Publications, b: Book, phases: Phases, e: Event, key: Key, now: Instant, p: Publication)
    requires EventBooked(pubs, b, phases, e) && UnpublishedOk(e) && e.id !in pubs && p.roster == s.active
    requires e.aReadyAt.Some? && e.aReadyAt.value <= now
    requires Rostered(p.roster, phases)
    ensures var (pubs', b') := (pubs[e.id := p], Issued(b, e.id, now));
      if RosterDegraded(s.active, p.loads) then EventBooked(pubs', b', phases, DegradedEvent(s, e, key, now, p.loads))
      else EventBooked(pubs', b', phases, PublishedEvent(s, e, key, now, p.loads))
  {
    IssuedFirsts(b, e.id, now);
    var (pubs', b') := (pubs[e.id := p], Issued(b, e.id, now));
    assert Credited(pubs', b', e.id, Success) == {} && Credited(pubs', b', e.id, Failed) == {};
  }

  lemma IssueKeepsEvents(
      events: map<EventId, Event>, pubs: Publications, b: Book, phases: Phases, id: EventId, e: Event, now: Instant, p: Publication)
    requires EventsBooked(events, pubs, b, phases) && e.id == id
    requires EventBooked(pubs[id := p], Issued(b, id, now), phases, e)
    ensures EventsBooked(events[id := e], pubs[id := p], Issued(b, id, now), phases)
  {
    var after := events[id := e];
    forall x | x in after
      ensures after[x].id == x && EventBooked(pubs[id := p], Issued(b, id, now), phases, after[x])
    {
      if x != id {
        IssuedEvent(pubs, b, phases, p, id, now, events[x]);
      }
    }
  }

  lemma IssueKeepsSummaries(
      emitted: seq<Summary>, events: map<EventId, Event>, pubs: Publications, b: Book, phases: Phases, id: EventId, e: Event,
      now: Instant, p: Publication)
    requires SummariesBooked(emitted, events, pubs, b, phases) && id in events
    ensures SummariesBooked(emitted, events[id := e], pubs[id := p], Issued(b, id, now), phases)
  {
    forall i | 0 <= i < |emitted|
      ensures emitted[i].id !in events[id := e] && SummaryBooked(pubs[id := p], Issued(b, id, now), phases, emitted[i])
    {
      IssuedSummary(pubs, b, phases, p, id, now, emitted[i]);
    }
  }

  lemma IssueKeepsRest(
      s: State, pubs: Publications, b: Book, phases: Phases, id: EventId, e: Event, now: Instant, p: Publication)
    requires KeysOk(s.nextId, pubs, b) && RostersOk(pubs, phases) && NoneLost(s.events, s.emitted, b)
    requires id in s.events && id in b.seen && Rostered(p.roster, phases)
    ensures KeysOk(s.nextId, pubs[id := p], Issued(b, id, now)) && RostersOk(pubs[id := p], phases)
    ensures NoneLost(s.events[id := e], s.emitted, Issued(b, id, now))
  {
  }

  lemma IssueKeepsBook(
      s: State, r: State, pubs: Publications, b: Book, phases: Phases, id: EventId, e: Event, now: Instant,
      p: Publication)
    requires Booked(s, pubs, b, phases) && id in s.events && e.id == id && Rostered(p.roster, phases)
    requires EventBooked(pubs[id := p], Issued(b, id, now), phases, e)
    requires r.events == s.events[id := e] && r.emitted == s.emitted && r.nextId == s.nextId
    ensures Booked(r, pubs[id := p], Issued(b, id, now), phases)
  {
    assert id in b.seen by {
      assert EventBooked(pubs, b, phases, s.events[id]);
    }
    IssueKeepsEvents(s.events, pubs, b, phases, id, e, now, p);
    IssueKeepsSummaries(s.emitted, s.events, pubs, b, phases, id, e, now, p);
    IssueKeepsRest(s, pubs, b, phases, id, e, now, p);
  }

  lemma DegradedKeepsBook(
      s: State, pubs: Publications, b: Book, phases: Phases, id: EventId, key: Key, now: Instant, p: Publication)
    requires Booked(s, pubs, b, phases) && id in s.events && UnpublishedOk(s.events[id]) && id !in pubs
    requires s.events[id].aReadyAt.Some? && s.events[id].aReadyAt.value <= now
    requires p.roster == s.active && Rostered(p.roster, phases) && RosterDegraded(s.active, p.loads)
    ensures var r := PublishLoaded(s, id, key, now, p.loads);
      Booked(r, pubs[id := p], Ends(Issued(b, id, now), s.events, r.events, now), phases)
  {
    var s1 := Spoiled(s, id, key, now, p.loads);
    SpoiledBooked(s, pubs, b, phases, id, key, now, p);
    GapKeepsBook(s1, pubs[id := p], Issued(b, id, now), phases, id, DegradedReason(s.active, p.loads), now);
    assert s1.events.Keys == s.events.Keys;
  }

  /** The state a degraded publication leaves for a moment, before the event is finished. */
  function Spoiled(s: State, id: EventId, key: Key, now: Instant, l: Loads): State
    requires id in s.events
  {
    s.(events := s.events[id := DegradedEvent(s, s.events[id], key, now, l)])
  }

  lemma SpoiledBooked(
      s: State, pubs: Publications, b: Book, phases: Phases, id: EventId, key: Key, now: Instant, p: Publication)
    requires Booked(s, pubs, b, phases) && id in s.events && UnpublishedOk(s.events[id]) && id !in pubs
    requires s.events[id].aReadyAt.Some? && s.events[id].aReadyAt.value <= now
    requires p.roster == s.active && Rostered(p.roster, phases) && RosterDegraded(s.active, p.loads)
    ensures Booked(Spoiled(s, id, key, now, p.loads), pubs[id := p], Issued(b, id, now), phases)
  {
    assert EventBooked(pubs, b, phases, s.events[id]);
    IssuedTarget(s, pubs, b, phases, s.events[id], key, now, p);
    IssueKeepsBook(s, Spoiled(s, id, key, now, p.loads), pubs, b, phases, id,
                   DegradedEvent(s, s.events[id], key, now, p.loads), now, p);
  }

  lemma GapKeepsBook(s: State, pubs: Publications, b: Book, phases: Phases, id: EventId, reason: Reason, now: Instant)
    requires Booked(s, pubs, b, phases) && (reason.StaleSessionRoster? || reason.SessionRosterInconsistent?)
    ensures var r := Finish(s, id, TrackingGap, reason, now); Booked(r, pubs, Ends(b, s.events, r.events, now), phases)
  {
    FinishSettles(s, id, TrackingGap, reason, now, ByGap(reason));
    SettleKeeps(s, Finish(s, id, TrackingGap, reason, now), pubs, b, phases, now, ByGap(reason));
  }

  /** The state in which a clean publication leaves the events, before it may end at once. */
  function Marked(s: State, id: EventId, key: Key, now: Instant, l: Loads): State
    requires id in s.events
  {
    s.(events := s.events[id := PublishedEvent(s, s.events[id], key, now, l)], published := s.published[key := id])
  }

  lemma CleanKeepsBook(
      s: State, pubs: Publications, b: Book, phases: Phases, id: EventId, key: Key, now: Instant, p: Publication)
    requires Booked(s, pubs, b, phases) && id in s.events && UnpublishedOk(s.events[id]) && id !in pubs
    requires s.events[id].aReadyAt.Some? && s.events[id].aReadyAt.value <= now
    requires p.roster == s.active && Rostered(p.roster, phases) && !RosterDegraded(s.active, p.loads)
    ensures Booked(Marked(s, id, key, now, p.loads), pubs[id := p], Issued(b, id, now), phases)
  {
    assert EventBooked(pubs, b, phases, s.events[id]);
    IssuedTarget(s, pubs, b, phases, s.events[id], key, now, p);
    IssueKeepsBook(s, Marked(s, id, key, now, p.loads), pubs, b, phases, id,
                   PublishedEvent(s, s.events[id], key, now, p.loads), now, p);
  }

  lemma EmptyKeepsBook(s: State, pubs: Publications, b: Book, phases: Phases, id: EventId, total: nat, now: Instant)
    requires Booked(s, pubs, b, phases) && id in s.events && s.events[id].pending == {} && RosterOf(pubs, id) == {}
    requires total > 0 ==> s.events[id].trackingGap > 0
    ensures var r := if total == 0 then Finish(s, id, Complete, ZeroSessions, now)
                     else Finish(s, id, TrackingGap, UntrackedSessions, now);
      Booked(r, pubs, Ends(b, s.events, r.events, now), phases)
  {
    if total == 0 {
      FinishSettles(s, id, Complete, ZeroSessions, now, ByNobody);
      SettleKeeps(s, Finish(s, id, Complete, ZeroSessions, now), pubs, b, phases, now, ByNobody);
    } else {
      var cause, r := ByFanout(ZeroSessions), Finish(s, id, TrackingGap, UntrackedSessions, now);
      FinishSettles(s, id, TrackingGap, UntrackedSessions, now, cause);
      assert CauseHolds(s, r, pubs, b, phases, cause);
      SettleKeeps(s, r, pubs, b, phases, now, cause);
    }
  }

  lemma PublishKeepsBook(
      s: State, pubs: Publications, b: Book, phases: Phases, id: EventId, key: Key, now: Instant, p: Publication)
    requires Booked(s, pubs, b, phases) && id in s.events && UnpublishedOk(s.events[id]) && id !in pubs
    requires s.events[id].aReadyAt.Some? && s.events[id].aReadyAt.value <= now
    requires p.roster == s.active && Rostered(p.roster, phases)
    ensures var r := PublishLoaded(s, id, key, now, p.loads);
      Booked(r, pubs[id := p], Ends(Issued(b, id, now), s.events, r.events, now), phases)
  {
    if RosterDegraded(s.active, p.loads) {
      DegradedKeepsBook(s, pubs, b, phases, id, key, now, p);
    } else {
      CleanKeepsBook(s, pubs, b, phases, id, key, now, p);
      var s1 := Marked(s, id, key, now, p.loads);
      assert s1.events.Keys == s.events.Keys;
      if s.active == {} {
        NobodyTracked(s1, p, id, pubs);
        EmptyKeepsBook(s1, pubs[id := p], Issued(b, id, now), phases, id, p.loads.total, now);
      } else {
        EndsNothing(Issued(b, id, now), s.events, now);
      }
    }
  }

  lemma NobodyTracked(s: State, p: Publication, id: EventId, pubs: Publications)
    requires id in s.events && s.events[id].trackingGap == p.loads.untracked && p.roster == {} && !RosterDegraded(p.roster, p.loads)
    ensures RosterOf(pubs[id := p], id) == {} && (p.loads.total > 0 ==> s.events[id].trackingGap > 0)
  {
    assert |p.roster| == 0;
  }

  // ---------------------------------------------------------------- every operation keeps the books

  /** What the books need to know of the indexes. */
  predicate Indexed(s: State) {
    && (forall id :: id in s.events ==> id < s.nextId)
    && (forall key :: key in s.dedupe ==> s.dedupe[key] in s.events)
    && (forall key :: key in s.published ==> s.published[key] in s.events)
  }

  lemma ExpiredIndexed(s: State, h: History, order: seq<EventId>, now: Instant)
    requires Inv(s, h)
    ensures Indexed(ExpireAll(s, order, now))
  {
    ExpireAllKeeps(s, h, order, now);
    var t := ExpireAll(s, order, now);
    forall key | key in t.published
      ensures t.published[key] in t.events
    {
      assert Carries(t.events, t.published[key], key);
    }
  }

  lemma KeysEnd(b: Book, before: map<EventId, Event>, after: map<EventId, Event>, now: Instant)
    requires before.Keys == after.Keys
    ensures Ends(b, before, after, now) == b
  {
    EndsNothing(b, before, now);
  }

  /** An operation that changes nothing but counters keeps the books. */
  lemma NothingBooked(s: State, r: State, pubs: Publications, b: Book, phases: Phases, now: Instant)
    requires Booked(s, pubs, b, phases) && r.events == s.events && r.emitted == s.emitted && r.nextId == s.nextId
    ensures Booked(r, pubs, Ends(b, s.events, r.events, now), phases)
  {
    EndsNothing(b, s.events, now);
    CountersKeepBook(s, r, pubs, b, phases);
  }

  lemma ObserveExpiredBooked(
      s: State, pubs: Publications, b: Book, phases: Phases, key: Key, source: UpstreamClass, now: Instant)
    requires Booked(s, pubs, b, phases) && Indexed(s)
    ensures var r := ObserveLocked(s, key, source, now).0;
      && Booked(r, pubs, NotesSeen(b, s.nextId, r.nextId, Sighting(source, key, now)), phases)
      && s.events.Keys <= r.events.Keys <= s.events.Keys + {s.nextId}
  {
    if key !in s.dedupe {
      ObserveNew(s, key, source, now);
      if |s.events| < MAX_IN_FLIGHT_EVENTS {
        AdmitKeepsBook(s, pubs, b, phases, key, NewEvent(s.nextId, source, key, now));
      } else {
        CountersKeepBook(s, CountDroppedEvent(s), pubs, b, phases);
      }
    }
  }

  lemma SeenEnds(b: Book, e0: map<EventId, Event>, e1: map<EventId, Event>, e2: map<EventId, Event>,
                 before: EventId, after: EventId, x: Sighting, now: Instant)
    requires e1.Keys <= e0.Keys && e1.Keys <= e2.Keys <= e1.Keys + {before} && before !in e0
    ensures NotesSeen(Ends(b, e0, e1, now), before, after, x) == Ends(NotesSeen(b, before, after, x), e0, e2, now)
  {
    assert e0.Keys - e2.Keys == e0.Keys - e1.Keys;
  }

  lemma ObserveBooked(
      s: State, h: History, b: Book, phases: Phases, lock: Lock, key: Key, source: UpstreamClass, now: Instant,
      order: seq<EventId>)
    requires Inv(s, h) && Booked(s, h.pubs, b, phases) && Enumerates(order, Expired(s, now)) && s.nextId !in s.events
    ensures var r := Observe(s, lock, key, source, now, order).0;
      Booked(r, h.pubs, Ends(NotesSeen(b, s.nextId, r.nextId, Sighting(source, key, now)), s.events, r.events, now), phases)
  {
    var r := Observe(s, lock, key, source, now, order).0;
    if !s.enabled || |key| > MAX_CORRELATION_KEY_BYTES || !lock.Acquired? {
      NothingBooked(s, r, h.pubs, b, phases, now);
    } else {
      var t := ExpireAll(s, order, now);
      ExpireKeepsBook(s, h.pubs, b, phases, order, now);
      ExpiredIndexed(s, h, order, now);
      ObserveExpiredBooked(t, h.pubs, Ends(b, s.events, t.events, now), phases, key, source, now);
      SeenEnds(b, s.events, t.events, r.events, s.nextId, r.nextId, Sighting(source, key, now), now);
    }
  }

  lemma ReadyEnds(
      b: Book, e0: map<EventId, Event>, e1: map<EventId, Event>, e2: map<EventId, Event>, id: EventId, now: Instant)
    requires e1.Keys <= e0.Keys && e2.Keys <= e1.Keys
    ensures Ends(NotesReady(Ends(b, e0, e1, now), e2, id, now), e1, e2, now) == Ends(NotesReady(b, e2, id, now), e0, e2, now)
  {
    EndsTwice(NotesReady(b, e2, id, now), e0, e1, e2, now);
  }

  lemma MarkReadyBooked(s: State, pubs: Publications, b: Book, phases: Phases, id: EventId, now: Instant)
    requires Booked(s, pubs, b, phases)
    ensures var r := MarkReadyLocked(s, id, now);
      Booked(r, pubs, Ends(NotesReady(b, r.events, id, now), s.events, r.events, now), phases) && r.events.Keys <= s.events.Keys
  {
    if id in s.events && ReadyOutOfOrder(s.events[id], now) {
      CountersKeepBook(s, CountOutOfOrder(s), pubs, b, phases);
      FailureKeepsBook(CountOutOfOrder(s), pubs, b, phases, id, OutOfOrder, now);
      FinishShape(CountOutOfOrder(s), id, Failure, OutOfOrder, now);
    } else {
      InOrderBooked(s, pubs, b, phases, id, now);
    }
  }

  lemma InOrderBooked(s: State, pubs: Publications, b: Book, phases: Phases, id: EventId, now: Instant)
    requires Booked(s, pubs, b, phases) && (id in s.events ==> !ReadyOutOfOrder(s.events[id], now))
    ensures var r := MarkReadyLocked(s, id, now);
      Booked(r, pubs, Ends(NotesReady(b, r.events, id, now), s.events, r.events, now), phases) && r.events.Keys == s.events.Keys
  {
    var r := MarkReadyLocked(s, id, now);
    assert r.events.Keys == s.events.Keys;
    KeysEnd(NotesReady(b, r.events, id, now), s.events, r.events, now);
    if id in s.events {
      assert s.events[id].aReadyAt == Get(b.ready, id) by {
        assert EventBooked(pubs, b, phases, s.events[id]);
      }
      if s.events[id].aReadyAt.None? {
        ReadyKeepsBook(s, pubs, b, phases, id, now);
      }
    }
  }

  lemma ReadyBooked(
      s: State, pubs: Publications, b: Book, phases: Phases, lock: Lock, id: EventId, now: Instant, order: seq<EventId>)
    requires Booked(s, pubs, b, phases) && Enumerates(order, Expired(s, now)) && s.enabled
    ensures var r := MarkReady(s, lock, id, now, order);
      Booked(r, pubs, Ends(if lock.Acquired? then NotesReady(b, r.events, id, now) else b, s.events, r.events, now), phases)
  {
    if !lock.Acquired? {
      NothingBooked(s, Blocked(s, lock), pubs, b, phases, now);
    } else {
      var t := ExpireAll(s, order, now);
      ExpireKeepsBook(s, pubs, b, phases, order, now);
      MarkReadyBooked(t, pubs, Ends(b, s.events, t.events, now), phases, id, now);
      ReadyEnds(b, s.events, t.events, MarkReadyLocked(t, id, now).events, id, now);
    }
  }

  lemma RefuseBooked(s: State, pubs: Publications, b: Book, phases: Phases, id: EventId, key: Key, now: Instant)
    requires Booked(s, pubs, b, phases)
    ensures var r := RefusePublish(s, id, key, now);
      Booked(r, pubs, Ends(b, s.events, r.events, now), phases) && r.events.Keys <= s.events.Keys
  {
    if |key| > MAX_CORRELATION_KEY_BYTES {
      CountersKeepBook(s, CountDroppedEvent(s), pubs, b, phases);
      FailureKeepsBook(CountDroppedEvent(s), pubs, b, phases, id, ReplacementKeyOversize, now);
    } else if id in s.events && PublishOutOfOrder(s.events[id], now) {
      CountersKeepBook(s, CountOutOfOrder(s), pubs, b, phases);
      FailureKeepsBook(CountOutOfOrder(s), pubs, b, phases, id, OutOfOrder, now);
    } else {
      EndsNothing(b, s.events, now);
    }
  }

  lemma BeginLockedBooked(
      s: State, pubs: Publications, b: Book, phases: Phases, id: EventId, key: Key, now: Instant, order: seq<EventId>)
    requires Booked(s, pubs, b, phases) && Enumerates(order, Expired(s, now))
    ensures var t := ExpireAll(s, order, now); var r := if Publishes(t, id, key, now) then t else RefusePublish(t, id, key, now);
      Booked(r, pubs, Ends(b, s.events, r.events, now), phases)
  {
    var t := ExpireAll(s, order, now);
    ExpireKeepsBook(s, pubs, b, phases, order, now);
    RefuseBooked(t, pubs, Ends(b, s.events, t.events, now), phases, id, key, now);
    EndsTwice(b, s.events, t.events, RefusePublish(t, id, key, now).events, now);
  }

  lemma BeginBooked(
      w: World, pubs: Publications, b: Book, lock: Lock, id: EventId, key: Key, now: Instant, order: seq<EventId>)
    requires Booked(w.tel, pubs, b, w.phases) && Enumerates(order, Expired(w.tel, now))
    ensures var r := BeginPublish(w, lock, id, key, now, order).tel;
      Booked(r, pubs, Ends(b, w.tel.events, r.events, now), w.phases)
  {
    BeginState(w, lock, id, key, now, order);
    if lock.Acquired? {
      BeginLockedBooked(w.tel, pubs, b, w.phases, id, key, now, order);
    } else {
      NothingBooked(w.tel, Blocked(w.tel, lock), pubs, b, w.phases, now);
    }
  }

  lemma UnrecordedIs(s: State, h: History, id: EventId)
    requires Inv(s, h) && id in s.events && s.events[id].publishedAt.None?
    ensures id !in h.pubs && UnpublishedOk(s.events[id])
  {
    assert EventOk(h, s.events[id]);
  }

  lemma LockedNotifyBooked(
      s: State, h: History, b: Book, phases: Phases, sid: SessionId, key: Key, outcome: FanoutOutcome, now: Instant,
      order: seq<EventId>, finished: seq<EventId>)
    requires Inv(s, h) && Booked(s, h.pubs, b, phases) && !LeftCleanly(phases, sid) && Enumerates(order, Expired(s, now))
    requires Enumerates(finished, SupersededBy(ExpireAll(s, order, now), sid, key))
    ensures var r := RecordFanoutLocked(ExpireAll(s, order, now), sid, key, outcome, now, finished);
      Booked(r, h.pubs, Ends(NotesReach(b, sid, ReachedBy(s, Acquired, key, now, order), outcome), s.events, r.events, now), phases)
  {
    ExpiredIndexed(s, h, order, now);
    ExpiredNotifyBooked(s, h.pubs, b, phases, sid, key, outcome, now, order, finished);
  }

  lemma ExpiredNotifyBooked(
      s: State, pubs: Publications, b: Book, phases: Phases, sid: SessionId, key: Key, outcome: FanoutOutcome, now: Instant,
      order: seq<EventId>, finished: seq<EventId>)
    requires Booked(s, pubs, b, phases) && !LeftCleanly(phases, sid) && Enumerates(order, Expired(s, now))
    requires Indexed(ExpireAll(s, order, now)) && Enumerates(finished, SupersededBy(ExpireAll(s, order, now), sid, key))
    ensures var r := RecordFanoutLocked(ExpireAll(s, order, now), sid, key, outcome, now, finished);
      Booked(r, pubs, Ends(NotesReach(b, sid, ReachedBy(s, Acquired, key, now, order), outcome), s.events, r.events, now), phases)
  {
    var t := ExpireAll(s, order, now);
    ExpireKeepsBook(s, pubs, b, phases, order, now);
    RecordBooked(t, pubs, b, s.events, phases, sid, key, outcome, now, finished);
  }

  lemma RecordBooked(
      t: State, pubs: Publications, b: Book, before: map<EventId, Event>, phases: Phases, sid: SessionId, key: Key,
      outcome: FanoutOutcome, now: Instant, finished: seq<EventId>)
    requires Booked(t, pubs, Ends(b, before, t.events, now), phases) && Indexed(t) && !LeftCleanly(phases, sid)
    requires t.events.Keys <= before.Keys && Enumerates(finished, SupersededBy(t, sid, key))
    ensures var r := RecordFanoutLocked(t, sid, key, outcome, now, finished);
      var reached := if key in t.published then Some(t.published[key]) else None;
      Booked(r, pubs, Ends(NotesReach(b, sid, reached, outcome), before, r.events, now), phases)
  {
    if key in t.published {
      KeyedNotifyBooked(t, pubs, b, before, phases, Reach(sid, t.published[key], outcome), now, finished);
    }
  }

  lemma KeyedNotifyBooked(
      t: State, pubs: Publications, b: Book, before: map<EventId, Event>, phases: Phases, x: Reach, now: Instant,
      finished: seq<EventId>)
    requires Booked(t, pubs, Ends(b, before, t.events, now), phases) && x.event in t.events && !LeftCleanly(phases, x.sid)
    requires t.events.Keys <= before.Keys && Enumerates(finished, Emptied(t.events, x.sid, Some(x.event)))
    ensures var r := CreditFanout(SupersedeOthers(t, x.event, x.sid, now, finished), x.event, x.sid, x.outcome, now);
      Booked(r, pubs, Ends(Reached(b, x), before, r.events, now), phases)
  {
    CreditKeepsBook(t, pubs, Ends(b, before, t.events, now), phases, x, now, finished);
    var r := CreditFanout(SupersedeOthers(t, x.event, x.sid, now, finished), x.event, x.sid, x.outcome, now);
    ReachEnds(b, x, before, t.events, r.events, now);
  }

  lemma ReachEnds(
      b: Book, x: Reach, e0: map<EventId, Event>, e1: map<EventId, Event>, e2: map<EventId, Event>, now: Instant)
    requires e1.Keys <= e0.Keys && e2.Keys <= e1.Keys
    ensures Ends(Reached(Ends(b, e0, e1, now), x), e1, e2, now) == Ends(Reached(b, x), e0, e2, now)
  {
    EndsTwice(Reached(b, x), e0, e1, e2, now);
  }

  lemma NotifyBooked(
      s: State, h: History, b: Book, phases: Phases, sid: SessionId, key: Key, outcome: FanoutOutcome, lock: Lock, now: Instant,
      order: seq<EventId>, finished: seq<EventId>)
    requires Inv(s, h) && Booked(s, h.pubs, b, phases) && !LeftCleanly(phases, sid) && Enumerates(order, Expired(s, now))
    requires Enumerates(finished, SupersededBy(ExpireAll(s, order, now), sid, key)) && s.enabled
    ensures var r := RecordFanout(s, lock, sid, key, outcome, now, order, finished);
      Booked(r, h.pubs, Ends(NotesReach(b, sid, ReachedBy(s, lock, key, now, order), outcome), s.events, r.events, now), phases)
  {
    if lock.Acquired? {
      LockedNotifyBooked(s, h, b, phases, sid, key, outcome, now, order, finished);
    } else {
      NothingBooked(s, Blocked(s, lock), h.pubs, b, phases, now);
    }
  }

  // ---------------------------------------------------------------- every step keeps the books

  lemma ObserveStepBooked(w: World, a: Action, b: Book)
    requires w.tel.enabled && Inv(w.tel, w.h) && Enabled(w, a) && a.ObserveUpstream? && Booked(w.tel, w.h.pubs, b, w.phases)
    ensures Booked(Next(w, a).tel, w.h.pubs, BookNext(w, a, b), w.phases)
  {
    NextIdIsNew(w.tel, w.h);
    ObserveBooked(w.tel, w.h, b, w.phases, a.lock, a.key, a.source, a.now, a.order);
  }

  lemma NextIdIsNew(s: State, h: History)
    requires Inv(s, h)
    ensures s.nextId !in s.events
  {
  }

  lemma ReadyStepBooked(w: World, a: Action, b: Book)
    requires w.tel.enabled && Enabled(w, a) && a.Ready? && Booked(w.tel, w.h.pubs, b, w.phases)
    ensures Booked(Next(w, a).tel, w.h.pubs, BookNext(w, a, b), w.phases)
  {
    ReadyBooked(w.tel, w.h.pubs, b, w.phases, a.lock, a.id, a.now, a.order);
  }

  lemma BeginStepBooked(w: World, a: Action, b: Book)
    requires w.tel.enabled && Enabled(w, a) && a.Publish? && Booked(w.tel, w.h.pubs, b, w.phases)
    ensures Booked(Next(w, a).tel, Next(w, a).h.pubs, BookNext(w, a, b), Next(w, a).phases)
  {
    BeginState(w, a.lock, a.id, a.key, a.now, a.order);
    BeginBooked(w, w.h.pubs, b, a.lock, a.id, a.key, a.now, a.order);
  }

  lemma EndStepBooked(w: World, b: Book)
    requires WorldInv(w) && w.publishing.UntrackedRead? && Booked(w.tel, w.h.pubs, b, w.phases)
    ensures Booked(EndPublish(w).tel, EndPublish(w).h.pubs, BookNext(w, FinishPublish, b), w.phases)
  {
    EndFacts(w);
    EndBooked(w, PublicationOf(w), b);
  }

  lemma EndBooked(w: World, p: Publication, b: Book)
    requires w.tel.enabled && w.publishing.UntrackedRead? && p == PublicationOf(w)
    requires Booked(w.tel, w.h.pubs, b, w.phases) && Rostered(w.tel.active, w.phases)
    requires var id := w.publishing.id; id in w.tel.events && UnpublishedOk(w.tel.events[id]) && id !in w.h.pubs
    requires var e := w.tel.events[w.publishing.id]; e.aReadyAt.Some? && e.aReadyAt.value <= w.publishing.now
    ensures Booked(EndPublish(w).tel, EndPublish(w).h.pubs, BookNext(w, FinishPublish, b), w.phases)
  {
    EndBookIs(w, p, b);
    PublishKeepsBook(w.tel, w.h.pubs, b, w.phases, w.publishing.id, w.publishing.key, w.publishing.now, p);
  }

  lemma EndBookIs(w: World, p: Publication, b: Book)
    requires w.tel.enabled && w.publishing.UntrackedRead? && p == PublicationOf(w) && w.publishing.id in w.tel.events
    ensures var (id, now, r) := (w.publishing.id, w.publishing.now, EndPublish(w));
      && r.tel == PublishLoaded(w.tel, id, w.publishing.key, now, p.loads) && r.h.pubs == w.h.pubs[id := p]
      && BookNext(w, FinishPublish, b) == Ends(Issued(b, id, now), w.tel.events, r.tel.events, now)
  {
    EndIs(w, p);
    assert Noted(w, FinishPublish, b) == Issued(b, w.publishing.id, w.publishing.now);
  }

  lemma EndIs(w: World, p: Publication)
    requires w.publishing.UntrackedRead? && p == PublicationOf(w) && w.publishing.id in w.tel.events
    ensures EndPublish(w).tel == PublishLoaded(w.tel, w.publishing.id, w.publishing.key, w.publishing.now, p.loads)
    ensures EndPublish(w).h.pubs == w.h.pubs[w.publishing.id := p]
  {
  }

  lemma EndFacts(w: World)
    requires WorldInv(w) && w.publishing.UntrackedRead?
    ensures var id := w.publishing.id; id in w.tel.events && UnpublishedOk(w.tel.events[id]) && id !in w.h.pubs
    ensures var e := w.tel.events[w.publishing.id]; e.aReadyAt.Some? && e.aReadyAt.value <= w.publishing.now
    ensures Rostered(w.tel.active, w.phases)
  {
    PublicationDescribes(w);
    UnrecordedIs(w.tel, w.h, w.publishing.id);
  }

  lemma FailStepBooked(w: World, a: Action, b: Book)
    requires w.tel.enabled && Enabled(w, a) && (a.Fail? || a.ExpireEvents?) && Booked(w.tel, w.h.pubs, b, w.phases)
    ensures Booked(Next(w, a).tel, w.h.pubs, BookNext(w, a, b), w.phases)
  {
    if !a.lock.Acquired? {
      NothingBooked(w.tel, Next(w, a).tel, w.h.pubs, b, w.phases, a.now);
    } else if a.Fail? {
      FailureKeepsBook(w.tel, w.h.pubs, b, w.phases, a.id, Caller(a.reason), a.now);
    } else {
      ExpireKeepsBook(w.tel, w.h.pubs, b, w.phases, a.order, a.now);
    }
  }

  lemma NotifyStepBooked(w: World, a: Action, b: Book)
    requires w.tel.enabled && Inv(w.tel, w.h) && Enabled(w, a) && a.Notify? && Booked(w.tel, w.h.pubs, b, w.phases)
    ensures Booked(Next(w, a).tel, w.h.pubs, BookNext(w, a, b), w.phases)
  {
    NotifyBooked(w.tel, w.h, b, w.phases, a.sid, a.key, a.outcome, a.lock, a.now, a.order, a.finished);
  }

  lemma QuietStepBooked(w: World, a: Action, b: Book)
    requires w.tel.enabled && Enabled(w, a) && (a.LoadTotal? || a.LoadUntracked? || a.DrainLog?)
    requires Booked(w.tel, w.h.pubs, b, w.phases)
    ensures Booked(Next(w, a).tel, Next(w, a).h.pubs, BookNext(w, a, b), Next(w, a).phases)
  {
    NothingBooked(w.tel, Next(w, a).tel, w.h.pubs, b, w.phases, 0);
  }

  lemma StepBooked(w: World, a: Action, b: Book)
    requires WorldInv(w) && Enabled(w, a) && Booked(w.tel, w.h.pubs, b, w.phases)
    ensures Booked(Next(w, a).tel, Next(w, a).h.pubs, BookNext(w, a, b), Next(w, a).phases)
  {
    if MovesSession(a) {
      MoveBooked(w, a, b);
    } else {
      OtherBooked(w, a, b);
    }
  }

  lemma OtherBooked(w: World, a: Action, b: Book)
    requires WorldInv(w) && Enabled(w, a) && !MovesSession(a) && Booked(w.tel, w.h.pubs, b, w.phases)
    ensures Booked(Next(w, a).tel, Next(w, a).h.pubs, BookNext(w, a, b), Next(w, a).phases)
  {
    if a.ObserveUpstream? {
      ObserveStepBooked(w, a, b);
    } else if a.Ready? {
      ReadyStepBooked(w, a, b);
    } else if a.Publish? {
      BeginStepBooked(w, a, b);
    } else if a.FinishPublish? {
      EndStepBooked(w, b);
    } else if a.Fail? || a.ExpireEvents? {
      FailStepBooked(w, a, b);
    } else if a.Notify? {
      NotifyStepBooked(w, a, b);
    } else {
      QuietStepBooked(w, a, b);
    }
  }

  lemma {:induction false} RunBooked(w: World, b: Book, actions: seq<Action>, w': World)
    requires WorldInv(w) && Booked(w.tel, w.h.pubs, b, w.phases) && Reaches(w, actions, w')
    ensures Booked(w'.tel, w'.h.pubs, BookOf(w, b, actions), w'.phases)
    decreases |actions|
  {
    if actions != [] {
      StepBooked(w, actions[0], b);
      StepKeeps(w, actions[0]);
      RunBooked(Next(w, actions[0]), BookNext(w, actions[0], b), actions[1..], w');
    }
  }
}
