/**
 What every reachable telemetry state satisfies.

 A `History` holds the ground truth that the telemetry only estimates: in which phase every session was
 at each of the three loads of a publication, and every job notification that was really written to a miner.
 */
module LatencyInvariant {
  import opened Prelude
  import opened LatencyModel

  /** The life of one session.  A session that fails to leave the roster ends as `GoneStale`. */
  datatype Phase =
    | Connected | Joining | Tracked | Untracked
    | LeavingTracked | LeavingUntracked | GoneClean | GoneStale

  datatype Notice = Notice(sid: SessionId, key: Key, outcome: FanoutOutcome)

  /**
   The situation in which one event was marked published: the phases when the active total, the untracked and the
   stale sessions were loaded, what was loaded, and the roster, which the lock kept as it was.
   */
  datatype Publication = Publication(
    key: Key, first: map<SessionId, Phase>, second: map<SessionId, Phase>, last: map<SessionId, Phase>,
    loads: Loads, roster: set<SessionId>, mark: nat)

  datatype History = History(pubs: map<EventId, Publication>, notices: seq<Notice>)

  function Having(phases: map<SessionId, Phase>, phase: Phase): set<SessionId> {
    set sid | sid in phases && phases[sid] == phase
  }

  function Count(phases: map<SessionId, Phase>, phase: Phase): nat {
    |Having(phases, phase)|
  }

  /** The sessions that are connected and authorized. */
  function Live(phases: map<SessionId, Phase>): set<SessionId> {
    Having(phases, Tracked) + Having(phases, Untracked)
  }

  /** The sessions the active total counts. */
  function Counted(phases: map<SessionId, Phase>): set<SessionId> {
    Having(phases, Joining) + Live(phases)
  }

  function Rank(phase: Phase): nat {
    match phase
    case Connected => 0
    case Joining => 1
    case Tracked => 2
    case Untracked => 2
    case LeavingTracked => 3
    case LeavingUntracked => 3
    case GoneClean => 4
    case GoneStale => 4
  }

  /** Every session of `a` is still known in `b`, in the same phase or a later one. */
  predicate Onward(a: map<SessionId, Phase>, b: map<SessionId, Phase>) {
    forall sid :: sid in a ==> sid in b && (b[sid] == a[sid] || Rank(a[sid]) < Rank(b[sid]))
  }

  /** The counters and the roster count exactly the sessions in the corresponding phases. */
  predicate Accounting(roster: set<SessionId>, c: Counters, phases: map<SessionId, Phase>) {
    && c.activeTotal == Count(phases, Joining) + Count(phases, Tracked) + Count(phases, Untracked)
    && c.untrackedActive == Count(phases, Untracked) + Count(phases, LeavingUntracked)
    && c.staleTracked == Count(phases, GoneStale)
    && c.rosterCleanupFailures == c.staleTracked
    && Rostered(roster, phases)
  }

  predicate OnRoster(phase: Phase) {
    phase.Tracked? || phase.LeavingTracked? || phase.GoneStale?
  }

  /** Exactly the sessions that entered the roster and did not leave it cleanly. */
  predicate Rostered(roster: set<SessionId>, phases: map<SessionId, Phase>) {
    && (forall sid :: sid in roster ==> sid in phases)
    && (forall sid :: sid in phases ==> (sid in roster <==> OnRoster(phases[sid])))
  }

  ghost predicate NotifiedSince(notices: seq<Notice>, mark: nat, sid: SessionId, key: Key) {
    exists i :: mark <= i < |notices| && notices[i] == Notice(sid, key, Success)
  }

  ghost predicate SilentSince(notices: seq<Notice>, mark: nat, sid: SessionId) {
    forall i :: mark <= i < |notices| ==> notices[i].sid != sid
  }

  predicate TotalLoaded(total: nat, roster: set<SessionId>, phases: map<SessionId, Phase>) {
    Rostered(roster, phases) && total == Count(phases, Joining) + Count(phases, Tracked) + Count(phases, Untracked)
  }

  predicate UntrackedLoaded(untracked: nat, roster: set<SessionId>, phases: map<SessionId, Phase>) {
    Rostered(roster, phases) && untracked == Count(phases, Untracked) + Count(phases, LeavingUntracked)
  }

  predicate StaleLoaded(stale: nat, roster: set<SessionId>, phases: map<SessionId, Phase>) {
    Rostered(roster, phases) && stale == Count(phases, GoneStale)
  }

  /** Each load read what its counter said at the time, and sessions only moved on in between. */
  predicate LoadsOk(p: Publication) {
    && TotalLoaded(p.loads.total, p.roster, p.first)
    && UntrackedLoaded(p.loads.untracked, p.roster, p.second)
    && StaleLoaded(p.loads.stale, p.roster, p.last)
    && Onward(p.first, p.second) && Onward(p.second, p.last)
  }

  ghost predicate PublicationOk(h: History, p: Publication) {
    && p.mark <= |h.notices|
    && LoadsOk(p)
    && (forall sid :: sid in Having(p.last, LeavingTracked) ==> SilentSince(h.notices, p.mark, sid))
  }

  /** Each counted session is waiting, notified, failed or skipped. */
  predicate Conserved(success: nat, failed: nat, skipped: nat, pending: nat, target: nat, gap: nat) {
    success + failed + skipped + pending == Max(target, gap)
  }

  predicate UnpublishedOk(e: Event) {
    && e.replacementKey.None?
    && e.targetSessions == 0 && e.pending == {}
    && e.notifySuccess == 0 && e.notifyFailed == 0 && e.notifySkipped == 0
    && e.trackingGap == 0
    && (e.aReadyAt.Some? ==> e.observedAt <= e.aReadyAt.value)
  }

  ghost predicate PublishedOk(h: History, e: Event)
    requires e.publishedAt.Some?
  {
    && e.aReadyAt.Some? && e.observedAt <= e.aReadyAt.value <= e.publishedAt.value
    && e.id in h.pubs && e.replacementKey == Some(h.pubs[e.id].key)
    && var p := h.pubs[e.id];
    && !RosterDegraded(p.roster, p.loads)
    && e.targetSessions == p.loads.total
    && e.trackingGap == p.loads.untracked <= e.notifySkipped
    && e.pending <= p.roster
    && Conserved(e.notifySuccess, e.notifyFailed, e.notifySkipped, |e.pending|, e.targetSessions, e.trackingGap)
    && (e.notifyFailed == 0 && e.notifySkipped == 0 ==>
          forall sid :: sid in p.roster - e.pending ==> NotifiedSince(h.notices, p.mark, sid, p.key))
  }

  ghost predicate EventOk(h: History, e: Event) {
    if e.publishedAt.None? then UnpublishedOk(e) else PublishedOk(h, e)
  }

  /**
   What a summary with status `complete` promises.  With nobody counted at the first load it says so; otherwise it
   speaks of the sessions that were live at the second load.
   */
  ghost predicate Truthful(h: History, m: Summary) {
    && m.observedToReady.Some? && m.readyToPublished.Some?
    && m.id in h.pubs
    && var p := h.pubs[m.id];
    && p.loads.stale == 0
    && m.targetSessions == p.loads.total
    && (m.reason.ZeroSessions? ==> Counted(p.first) == {} && p.roster == {})
    && (!m.reason.ZeroSessions? ==> p.loads.untracked == 0 && Live(p.second) <= p.roster)
    && (m.reason.AllNotified? ==>
          && m.notifyFailed == 0 && m.notifySkipped == 0
          && m.notifySuccess == m.targetSessions == |Live(p.second)|
          && Live(p.first) == Counted(p.first) == Live(p.second) == p.roster
          && forall sid :: sid in p.roster ==> NotifiedSince(h.notices, p.mark, sid, p.key))
  }

  /** Some session was between the two halves of joining or leaving. */
  predicate InTransit(phases: map<SessionId, Phase>) {
    Count(phases, Joining) + Count(phases, LeavingTracked) + Count(phases, LeavingUntracked) > 0
  }

  /** A summary of a published event reports the loads of the publication; any other has nobody to account for. */
  predicate Tallied(h: History, m: Summary) {
    if m.readyToPublished.None? then m.targetSessions == 0 && m.trackingGap == 0
    else
      && m.id in h.pubs
      && var p := h.pubs[m.id];
      && m.targetSessions == p.loads.total
      && m.trackingGap == if RosterDegraded(p.roster, p.loads) then p.loads.total else p.loads.untracked
  }

  /** The two reasons that only a degraded roster can give. */
  predicate BlamesRoster(reason: Reason) {
    reason.StaleSessionRoster? || reason.SessionRosterInconsistent?
  }

  /**
   The roster is blamed exactly when the publication found it degraded, and called stale rather than inconsistent when
   sessions are known to be stale or it is larger than all sessions together.
   */
  predicate Explained(h: History, m: Summary) {
    && (BlamesRoster(m.reason) ==> m.readyToPublished.Some?)
    && (m.readyToPublished.Some? ==>
          && m.id in h.pubs
          && var p := h.pubs[m.id];
          && (m.reason.SessionRosterInconsistent? <==>
                p.loads.stale == 0 && |p.roster| != ExpectedTracked(p.loads) && |p.roster| <= p.loads.total)
          && (m.reason.StaleSessionRoster? <==> p.loads.stale > 0 || |p.roster| > p.loads.total))
  }

  /** The stage times of one summary fit together, up to rounding each of them down. */
  predicate StagesOk(m: Summary) {
    && (m.readyToPublished.Some? ==> m.observedToReady.Some?)
    && (m.status.TrackingGap? ==> m.publishedToFanout.None? && m.total.None?)
    && (m.publishedToFanout.Some? ==>
          && m.observedToReady.Some? && m.readyToPublished.Some? && m.total.Some?
          && var stages := m.observedToReady.value + m.readyToPublished.value + m.publishedToFanout.value;
          && (m.total.value < U64_MAX ==> stages <= m.total.value <= stages + 2))
  }

  ghost predicate SummaryOk(h: History, m: Summary) {
    && Conserved(m.notifySuccess, m.notifyFailed, m.notifySkipped, 0, m.targetSessions, m.trackingGap)
    && Tallied(h, m) && Explained(h, m) && StagesOk(m)
    && (m.status.Complete? ==> Truthful(h, m))
  }

  /** `dedupe` is a bijection with the live events; `published` points only to live events carrying the key. */
  ghost predicate IndexOk(
      events: map<EventId, Event>, dedupe: map<Key, EventId>, published: map<Key, EventId>, nextId: EventId)
  {
    && (forall id :: id in events ==> events[id].id == id && id < nextId)
    && (forall id :: id in events ==> events[id].dedupeKey in dedupe && dedupe[events[id].dedupeKey] == id)
    && (forall k :: k in dedupe ==> dedupe[k] in events && events[dedupe[k]].dedupeKey == k)
    && (forall k :: k in published ==> Carries(events, published[k], k))
  }

  /** Event `id` is live and was published under `key`. */
  predicate Carries(events: map<EventId, Event>, id: EventId, key: Key) {
    id in events && events[id].replacementKey == Some(key) && events[id].publishedAt.Some?
  }

  ghost predicate IndexesOk(s: State) {
    IndexOk(s.events, s.dedupe, s.published, s.nextId)
  }

  function Suffix(all: seq<Summary>, n: nat): seq<Summary> {
    if |all| <= n then all else all[|all| - n..]
  }

  predicate BoundsOk(s: State) {
    && |s.events| <= MAX_IN_FLIGHT_EVENTS
    && |s.active| <= MAX_TRACKED_SESSIONS
    && s.completed == Suffix(s.emitted, MAX_COMPLETED_SUMMARIES)
    && s.logsInWindow <= MAX_LOGS_PER_MINUTE
    && |s.logQueue| <= MAX_LOG_QUEUE
  }

  ghost predicate EventsOkBut(events: map<EventId, Event>, h: History, skip: set<EventId>) {
    forall id :: id in events && id !in skip ==> EventOk(h, events[id])
  }

  ghost predicate EmittedOk(emitted: seq<Summary>, h: History) {
    forall i :: 0 <= i < |emitted| ==> SummaryOk(h, emitted[i])
  }

  ghost predicate PublicationsOk(h: History, nextId: EventId) {
    forall id :: id in h.pubs ==> id < nextId && PublicationOk(h, h.pubs[id])
  }

  /** An event that is still unpublished has no publication on record. */
  predicate UnrecordedBut(events: map<EventId, Event>, pubs: map<EventId, Publication>, skip: set<EventId>) {
    forall id :: id in events && id !in skip && events[id].publishedAt.None? ==> id !in pubs
  }

  /** The invariant, with nothing promised about the events in `skip`. */
  ghost predicate InvBut(s: State, h: History, skip: set<EventId>) {
    && IndexesOk(s) && BoundsOk(s)
    && EventsOkBut(s.events, h, skip)
    && EmittedOk(s.emitted, h)
    && PublicationsOk(h, s.nextId)
    && UnrecordedBut(s.events, h.pubs, skip)
  }

  ghost predicate Inv(s: State, h: History) {
    InvBut(s, h, {})
  }

  /** The invariant looks at neither the counters nor which sessions are in the roster, only at its size. */
  lemma InvFrame(s: State, r: State, h: History)
    requires Inv(s, h)
    requires r == s.(counters := r.counters, active := r.active, logQueue := r.logQueue)
    requires |r.active| <= MAX_TRACKED_SESSIONS && |r.logQueue| <= MAX_LOG_QUEUE
    ensures Inv(r, h)
  {
  }

  /** `r` is `s` after finishing some events: nothing else about sessions, ids or counters moved. */
  predicate Finishes(s: State, r: State) {
    && r.enabled == s.enabled && r.nextId == s.nextId && r.active == s.active && r.hasSender == s.hasSender
    && r.counters == s.counters.(droppedLogs := r.counters.droppedLogs)
    && s.emitted <= r.emitted
    && (forall id :: id in r.events ==> id in s.events && r.events[id] == s.events[id])
  }

  /** Logging a summary moves the log window, the log queue and the dropped-log counter, and nothing else. */
  lemma LogFrame(s: State, m: Summary, now: Instant)
    ensures var r := LogSummary(s, m, now);
      r == s.(logWindowStarted := r.logWindowStarted, logsInWindow := r.logsInWindow, logQueue := r.logQueue,
              counters := s.counters.(droppedLogs := r.counters.droppedLogs))
  {
    var s1 := RollWindow(s, now);
    assert s1 == s.(logWindowStarted := s1.logWindowStarted, logsInWindow := s1.logsInWindow);
    if s1.logsInWindow < MAX_LOGS_PER_MINUTE {
      var s2 := s1.(logsInWindow := s1.logsInWindow + 1);
      assert s2 == s.(logWindowStarted := s2.logWindowStarted, logsInWindow := s2.logsInWindow);
    }
  }

  lemma LogBounds(s: State, m: Summary, now: Instant)
    requires s.logsInWindow <= MAX_LOGS_PER_MINUTE && |s.logQueue| <= MAX_LOG_QUEUE
    ensures LogSummary(s, m, now).logsInWindow <= MAX_LOGS_PER_MINUTE
    ensures |LogSummary(s, m, now).logQueue| <= MAX_LOG_QUEUE
  {
  }

  lemma RingIsSuffix(all: seq<Summary>, m: Summary)
    ensures PushCompleted(Suffix(all, MAX_COMPLETED_SUMMARIES), m) == Suffix(all + [m], MAX_COMPLETED_SUMMARIES)
  {
  }

  lemma ForgetKeepsPublished(s: State, id: EventId)
    requires id in s.events && forall k :: k in s.published ==> Carries(s.events, s.published[k], k)
    ensures var r := Forget(s, id); forall k :: k in r.published ==> Carries(r.events, r.published[k], k)
  {
    var r := Forget(s, id);
    forall k | k in r.published
      ensures Carries(r.events, r.published[k], k)
    {
      assert Carries(s.events, s.published[k], k);
    }
  }

  lemma ForgetKeepsIndex(s: State, id: EventId)
    requires id in s.events && IndexesOk(s)
    ensures IndexesOk(Forget(s, id))
    ensures |Forget(s, id).events| == |s.events| - 1
  {
    ForgetKeepsPublished(s, id);
    assert s.events.Keys == Forget(s, id).events.Keys + {id};
  }

  /** The event is gone and its summary is on record, but not logged yet. */
  function Recorded(s: State, id: EventId, m: Summary): State
    requires id in s.events
  {
    Forget(s, id).(completed := PushCompleted(s.completed, m), emitted := s.emitted + [m])
  }

  lemma RecordKeeps(s: State, h: History, id: EventId, m: Summary)
    requires InvBut(s, h, {id}) && id in s.events && SummaryOk(h, m)
    ensures Inv(Recorded(s, id, m), h)
  {
    ForgetKeepsIndex(s, id);
    RingIsSuffix(s.emitted, m);
  }

  lemma LogKeeps(s: State, h: History, m: Summary, now: Instant)
    requires Inv(s, h)
    ensures Inv(LogSummary(s, m, now), h)
  {
    LogFrame(s, m, now);
    LogBounds(s, m, now);
  }

  /** Finishing an event keeps the invariant whenever the summary it produces is sound. */
  lemma FinishKeeps(s: State, h: History, id: EventId, status: Status, reason: Reason, now: Instant)
    requires InvBut(s, h, {id})
    requires id in s.events ==> SummaryOk(h, Summarize(s.events[id], status, reason, now, s.counters))
    ensures Inv(Finish(s, id, status, reason, now), h)
    ensures Finishes(s, Finish(s, id, status, reason, now))
    ensures id !in Finish(s, id, status, reason, now).events
  {
    if id in s.events {
      var m := Summarize(s.events[id], status, reason, now, s.counters);
      RecordKeeps(s, h, id, m);
      LogKeeps(Recorded(s, id, m), h, m, now);
      FinishOnly(s, id, status, reason, now);
    }
  }

  lemma FinishOnly(s: State, id: EventId, status: Status, reason: Reason, now: Instant)
    requires id in s.events
    ensures var m := Summarize(s.events[id], status, reason, now, s.counters);
      Finish(s, id, status, reason, now) == LogSummary(Recorded(s, id, m), m, now)
    ensures Finishes(s, Finish(s, id, status, reason, now))
    ensures var r := Finish(s, id, status, reason, now);
      r.events == Forget(s, id).events && r.published == Forget(s, id).published
  {
    var m := Summarize(s.events[id], status, reason, now, s.counters);
    LogFrame(Recorded(s, id, m), m, now);
  }

  /** `e` may stand in for event `id`: same identity, no index entry invalidated, never unpublished again. */
  predicate Replaces(s: State, id: EventId, e: Event) {
    && id in s.events
    && e.id == s.events[id].id && e.dedupeKey == s.events[id].dedupeKey
    && (s.events[id].publishedAt.None? ==> s.events[id].replacementKey.None?)
    && (s.events[id].publishedAt.Some? ==> e.publishedAt.Some? && e.replacementKey == s.events[id].replacementKey)
  }

  lemma ReplaceKeepsIndex(s: State, id: EventId, e: Event)
    requires IndexesOk(s) && Replaces(s, id, e)
    ensures IndexOk(s.events[id := e], s.dedupe, s.published, s.nextId)
    ensures |s.events[id := e]| == |s.events|
  {
    assert s.events[id := e].Keys == s.events.Keys;
  }

  lemma ReplaceKeepsEvents(events: map<EventId, Event>, h: History, id: EventId, e: Event)
    requires EventsOkBut(events, h, {id})
    ensures EventsOkBut(events[id := e], h, {id})
    ensures EventOk(h, e) ==> EventsOkBut(events[id := e], h, {})
  {
    forall x | x in events.Keys && x != id
      ensures EventOk(h, events[id := e][x])
    {
      assert EventOk(h, events[x]);
    }
  }

  lemma ReplaceKeeps(s: State, h: History, id: EventId, e: Event)
    requires InvBut(s, h, {id}) && Replaces(s, id, e)
    requires e.publishedAt.None? ==> id !in h.pubs
    ensures InvBut(s.(events := s.events[id := e]), h, {id})
    ensures EventOk(h, e) ==> Inv(s.(events := s.events[id := e]), h)
  {
    ReplaceKeepsIndex(s, id, e);
    ReplaceKeepsEvents(s.events, h, id, e);
  }

  lemma FinishesTrans(a: State, b: State, c: State)
    requires Finishes(a, b) && Finishes(b, c)
    ensures Finishes(a, c)
  {
  }

  lemma FloorsAddUp(a: nat, b: nat, c: nat)
    ensures var stages := a / NANOS_PER_MILLI + b / NANOS_PER_MILLI + c / NANOS_PER_MILLI;
      stages <= (a + b + c) / NANOS_PER_MILLI <= stages + 2
  {
  }

  predicate StagesInOrder(e: Event) {
    && (e.aReadyAt.Some? ==> e.observedAt <= e.aReadyAt.value)
    && (e.publishedAt.Some? ==> e.aReadyAt.Some? && e.aReadyAt.value <= e.publishedAt.value)
  }

  lemma StagesFit(e: Event, status: Status, reason: Reason, now: Instant, c: Counters)
    requires StagesInOrder(e)
    ensures StagesOk(Summarize(e, status, reason, now, c))
    ensures Summarize(e, status, reason, now, c).readyToPublished.Some? <==> e.publishedAt.Some?
  {
    if e.publishedAt.Some? && e.publishedAt.value <= now {
      FloorsAddUp(e.aReadyAt.value - e.observedAt, e.publishedAt.value - e.aReadyAt.value, now - e.publishedAt.value);
    }
  }

  lemma UnfinishedEventOk(h: History, e: Event, status: Status, reason: Reason, now: Instant, c: Counters)
    requires EventOk(h, e) && !status.Complete? && !BlamesRoster(reason)
    ensures SummaryOk(h, Summarize(e, status, reason, now, c))
  {
    StagesFit(e, status, reason, now, c);
  }

  lemma NonCompleteSummaryOk(s: State, h: History, id: EventId, status: Status, reason: Reason, now: Instant)
    requires Inv(s, h) && id in s.events && !status.Complete? && !BlamesRoster(reason)
    ensures SummaryOk(h, Summarize(s.events[id], status, reason, now, s.counters))
  {
    assert EventOk(h, s.events[id]);
    UnfinishedEventOk(h, s.events[id], status, reason, now, s.counters);
  }

  lemma {:induction false} ExpireAllKeeps(s: State, h: History, ids: seq<EventId>, now: Instant)
    requires Inv(s, h)
    ensures Inv(ExpireAll(s, ids, now), h)
    ensures Finishes(s, ExpireAll(s, ids, now))
  {
    if ids != [] {
      var n := |ids| - 1;
      ExpireAllKeeps(s, h, ids[..n], now);
      var r := ExpireAll(s, ids[..n], now);
      if ids[n] in r.events {
        NonCompleteSummaryOk(r, h, ids[n], Timeout, StageTimeout, now);
      }
      FinishKeeps(r, h, ids[n], Timeout, StageTimeout, now);
      FinishesTrans(s, r, ExpireAll(s, ids, now));
    }
  }

  lemma RosterParts(roster: set<SessionId>, phases: map<SessionId, Phase>)
    requires Rostered(roster, phases)
    ensures roster == Having(phases, Tracked) + Having(phases, LeavingTracked) + Having(phases, GoneStale)
    ensures |roster| == Count(phases, Tracked) + Count(phases, LeavingTracked) + Count(phases, GoneStale)
  {
    var t, l, g := Having(phases, Tracked), Having(phases, LeavingTracked), Having(phases, GoneStale);
    assert roster == t + l + g;
    assert |t + l| == |t| + |l|;
    assert |t + l + g| == |t + l| + |g|;
  }

  lemma CountedParts(phases: map<SessionId, Phase>)
    ensures |Counted(phases)| == Count(phases, Joining) + Count(phases, Tracked) + Count(phases, Untracked)
    ensures |Live(phases)| == Count(phases, Tracked) + Count(phases, Untracked)
  {
    var j, t, u := Having(phases, Joining), Having(phases, Tracked), Having(phases, Untracked);
    assert |t + u| == |t| + |u|;
    assert |j + (t + u)| == |j| + |t + u|;
  }

  /** While the roster stays as it is nobody newly becomes tracked, and who is gone stale stays so. */
  lemma RosterHeld(roster: set<SessionId>, a: map<SessionId, Phase>, b: map<SessionId, Phase>)
    requires Rostered(roster, a) && Rostered(roster, b) && Onward(a, b)
    ensures Having(b, Tracked) <= Having(a, Tracked)
    ensures Having(a, GoneStale) <= Having(b, GoneStale)
  {
  }

  /** A publication that loaded no stale session found none at the earlier loads either. */
  lemma NeverStale(p: Publication)
    requires LoadsOk(p) && p.loads.stale == 0
    ensures Having(p.first, GoneStale) == {} && Having(p.second, GoneStale) == {} && Having(p.last, GoneStale) == {}
  {
    RosterHeld(p.roster, p.first, p.second);
    RosterHeld(p.roster, p.second, p.last);
  }

  /** With nothing untracked at the second load, the roster holds every session live at that moment. */
  lemma LiveInRoster(p: Publication)
    requires LoadsOk(p) && p.loads.untracked == 0
    ensures Having(p.second, Untracked) == {}
    ensures Live(p.second) == Having(p.second, Tracked) && Live(p.second) <= p.roster
  {
    assert Having(p.second, Untracked) == {};
    RosterParts(p.roster, p.second);
  }

  lemma NobodyWasCounted(p: Publication)
    requires LoadsOk(p) && p.loads.total == 0
    ensures Counted(p.first) == {}
  {
    CountedParts(p.first);
  }

  lemma NotifiedIsNotSilent(notices: seq<Notice>, mark: nat, sid: SessionId, key: Key)
    requires NotifiedSince(notices, mark, sid, key)
    ensures !SilentSince(notices, mark, sid)
  {
  }

  /** A roster that was notified in full was tracked throughout the publication. */
  lemma NotifiedWereTracked(h: History, p: Publication)
    requires PublicationOk(h, p) && p.loads.stale == 0
    requires forall sid :: sid in p.roster ==> NotifiedSince(h.notices, p.mark, sid, p.key)
    ensures Having(p.first, Tracked) == Having(p.second, Tracked) == Having(p.last, Tracked) == p.roster
  {
    NeverStale(p);
    RosterParts(p.roster, p.last);
    forall sid | sid in p.roster
      ensures sid !in Having(p.last, LeavingTracked)
    {
      NotifiedIsNotSilent(h.notices, p.mark, sid, p.key);
    }
    assert Having(p.last, LeavingTracked) == {};
    RosterHeld(p.roster, p.first, p.second);
    RosterHeld(p.roster, p.second, p.last);
    RosterParts(p.roster, p.first);
  }

  /** When every roster session was notified, the roster is exactly the counted and the live sessions. */
  lemma AllNotifiedMeansLive(h: History, p: Publication)
    requires PublicationOk(h, p) && p.loads.stale == 0 && p.loads.untracked == 0
    requires |p.roster| == p.loads.total
    requires forall sid :: sid in p.roster ==> NotifiedSince(h.notices, p.mark, sid, p.key)
    ensures Live(p.first) == Counted(p.first) == Live(p.second) == p.roster
  {
    NotifiedWereTracked(h, p);
    LiveInRoster(p);
    assert Having(p.first, Joining) == {} && Having(p.first, Untracked) == {};
  }

  /** A fan-out that ends with nobody waiting produces a truthful summary. */
  lemma FanoutSummaryOk(h: History, e: Event, reason: Reason, now: Instant, c: Counters)
    requires e.publishedAt.Some? && PublishedOk(h, e) && PublicationOk(h, h.pubs[e.id])
    requires e.pending == {} && !reason.ZeroSessions? && !BlamesRoster(reason)
    requires reason.AllNotified? ==> e.notifyFailed == 0 && e.notifySkipped == 0
    ensures SummaryOk(h, Summarize(e, if e.trackingGap > 0 then TrackingGap else Complete,
                                   if e.trackingGap > 0 then UntrackedSessions else reason, now, c))
  {
    var p := h.pubs[e.id];
    StagesFit(e, if e.trackingGap > 0 then TrackingGap else Complete,
              if e.trackingGap > 0 then UntrackedSessions else reason, now, c);
    if e.trackingGap == 0 {
      LiveInRoster(p);
      if reason.AllNotified? {
        assert p.roster - e.pending == p.roster;
        AllNotifiedMeansLive(h, p);
      }
    }
  }

  lemma FinishFanoutKeeps(s: State, h: History, id: EventId, reason: Reason, now: Instant)
    requires Inv(s, h) && !reason.ZeroSessions? && !BlamesRoster(reason)
    requires id in s.events ==> s.events[id].publishedAt.Some? && s.events[id].pending == {}
    requires id in s.events && reason.AllNotified? ==>
               s.events[id].notifyFailed == 0 && s.events[id].notifySkipped == 0
    ensures Inv(FinishFanout(s, id, reason, now), h)
    ensures Finishes(s, FinishFanout(s, id, reason, now))
  {
    if id in s.events {
      assert EventOk(h, s.events[id]);
      FanoutSummaryOk(h, s.events[id], reason, now, s.counters);
    }
    FinishKeeps(s, h, id, if id in s.events && s.events[id].trackingGap > 0 then TrackingGap else Complete,
                if id in s.events && s.events[id].trackingGap > 0 then UntrackedSessions else reason, now);
  }

  lemma {:induction false} FinishFanoutAllKeeps(s: State, h: History, ids: seq<EventId>, reason: Reason, now: Instant)
    requires Inv(s, h) && !reason.ZeroSessions? && !reason.AllNotified? && !BlamesRoster(reason)
    requires forall i :: 0 <= i < |ids| && ids[i] in s.events ==>
               s.events[ids[i]].publishedAt.Some? && s.events[ids[i]].pending == {}
    ensures Inv(FinishFanoutAll(s, ids, reason, now), h)
    ensures Finishes(s, FinishFanoutAll(s, ids, reason, now))
  {
    if ids != [] {
      var n := |ids| - 1;
      FinishFanoutAllKeeps(s, h, ids[..n], reason, now);
      var r := FinishFanoutAll(s, ids[..n], reason, now);
      FinishFanoutKeeps(r, h, ids[n], reason, now);
      FinishesTrans(s, r, FinishFanout(r, ids[n], reason, now));
    }
  }
}
