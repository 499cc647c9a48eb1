/** What holds of the replacement-latency telemetry in every run. */
module LatencyTheorems {
  import opened Prelude
  import opened LatencyModel
  import opened LatencyInvariant
  import opened LatencyRuns

  lemma EmptyInv(s: State, h: History)
    requires s.events == map[] && s.dedupe == map[] && s.published == map[] && s.active == {}
    requires s.completed == [] && s.emitted == [] && s.logsInWindow == 0 && s.logQueue == [] && h.pubs == map[]
    ensures Inv(s, h)
  {
  }

  lemma NobodyCounted(phases: map<SessionId, Phase>)
    requires phases == map[]
    ensures Accounting({}, ZERO_COUNTERS, phases)
  {
    forall x
      ensures Count(phases, x) == 0
    {
      assert Having(phases, x) == {};
    }
  }

  lemma EmptyWorldOk(w: World)
    requires w.tel.enabled && w.phases == map[] && w.h.pubs == map[] && w.tel.counters == ZERO_COUNTERS
    requires w.tel.events == map[] && w.tel.dedupe == map[] && w.tel.published == map[] && w.tel.active == {}
    requires w.tel.completed == [] && w.tel.emitted == [] && w.tel.logsInWindow == 0 && w.tel.logQueue == []
    requires w.publishing.Idle?
    ensures WorldInv(w)
  {
    EmptyInv(w.tel, w.h);
    NobodyCounted(w.phases);
  }

  lemma StartOk(hasSender: bool, now: Instant)
    ensures WorldInv(Start(hasSender, now))
  {
    EmptyWorldOk(Start(hasSender, now));
  }

  /** Every run reaches only states satisfying the invariant. */
  lemma EveryRunIsSound(hasSender: bool, now: Instant, actions: seq<Action>, w: World)
    requires Reaches(Start(hasSender, now), actions, w)
    ensures WorldInv(w)
  {
    StartOk(hasSender, now);
    RunKeeps(Start(hasSender, now), actions, w);
  }

  lemma SummarySound(w: World, i: nat)
    requires WorldInv(w) && i < |w.tel.emitted|
    ensures SummaryOk(w.h, w.tel.emitted[i])
    ensures w.tel.emitted[i].id in w.h.pubs ==> PublicationOk(w.h, w.h.pubs[w.tel.emitted[i].id])
  {
  }

  /** Every summary ever emitted is sound, and so is what is on record about its publication. */
  lemma EverySummaryIsSound(hasSender: bool, now: Instant, actions: seq<Action>, w: World, i: nat)
    requires Reaches(Start(hasSender, now), actions, w) && i < |w.tel.emitted|
    ensures SummaryOk(w.h, w.tel.emitted[i])
    ensures w.tel.emitted[i].id in w.h.pubs ==> PublicationOk(w.h, w.h.pubs[w.tel.emitted[i].id])
  {
    EveryRunIsSound(hasSender, now, actions, w);
    SummarySound(w, i);
  }

  /**
   A summary reported `complete` because all were notified tells the truth: it counts exactly the sessions that were
   live when the publication loaded the untracked counter, the same as were counted at its first load, and each of
   them was successfully sent that very job after the publication.
   */
  lemma AllNotifiedIsTruthful(hasSender: bool, now: Instant, actions: seq<Action>, w: World, i: nat)
    requires Reaches(Start(hasSender, now), actions, w)
    requires i < |w.tel.emitted| && w.tel.emitted[i].status.Complete? && w.tel.emitted[i].reason.AllNotified?
    ensures var m := w.tel.emitted[i];
      && m.id in w.h.pubs
      && var p := w.h.pubs[m.id];
      && m.notifySuccess == m.targetSessions == |Live(p.second)|
      && m.notifyFailed == 0 && m.notifySkipped == 0
      && Live(p.first) == Counted(p.first) == Live(p.second)
      && forall sid :: sid in Live(p.second) ==> NotifiedSince(w.h.notices, p.mark, sid, p.key)
  {
    EverySummaryIsSound(hasSender, now, actions, w, i);
  }

  /**
   Any `complete` summary accounts for every session live at some load of its publication: nobody was even counted
   at the first, or all live at the second were on the roster it waited for.  At the last load it may miss sessions,
   and misses exactly the untracked ones.
   */
  lemma CompleteMissesNobody(hasSender: bool, now: Instant, actions: seq<Action>, w: World, i: nat)
    requires Reaches(Start(hasSender, now), actions, w)
    requires i < |w.tel.emitted| && w.tel.emitted[i].status.Complete?
    ensures var m := w.tel.emitted[i];
      && m.id in w.h.pubs
      && var p := w.h.pubs[m.id];
      && (if m.reason.ZeroSessions? then Counted(p.first) == {} else Live(p.second) <= p.roster)
      && Live(p.last) - p.roster == Having(p.last, Untracked)
      && p.loads.stale == 0
      && m.observedToReady.Some? && m.readyToPublished.Some?
  {
    EverySummaryIsSound(hasSender, now, actions, w, i);
    MissedAtTheLastLoad(w.h.pubs[w.tel.emitted[i].id]);
  }

  lemma MissedAtTheLastLoad(p: Publication)
    requires LoadsOk(p)
    ensures Live(p.last) - p.roster == Having(p.last, Untracked)
  {
    RosterParts(p.roster, p.last);
  }

  /**
   Every summary accounts for its targets exactly when its event was never published, or its publication found the
   roster degraded, or it loaded no more untracked sessions than sessions in all.
   */
  lemma SummariesConserveSessions(hasSender: bool, now: Instant, actions: seq<Action>, w: World, i: nat)
    requires Reaches(Start(hasSender, now), actions, w) && i < |w.tel.emitted|
    ensures var m := w.tel.emitted[i]; var sum := m.notifySuccess + m.notifyFailed + m.notifySkipped;
      && sum >= m.targetSessions
      && (m.readyToPublished.Some? ==> m.id in w.h.pubs)
      && ((sum == m.targetSessions) <==>
          (m.readyToPublished.Some? ==>
             RosterDegraded(w.h.pubs[m.id].roster, w.h.pubs[m.id].loads)
             || w.h.pubs[m.id].loads.untracked <= w.h.pubs[m.id].loads.total))
  {
    EverySummaryIsSound(hasSender, now, actions, w, i);
  }

  /** The exception needs a session that moved: one half way out untracked, or untracked without having been counted. */
  lemma ExcessNeedsMovingSession(hasSender: bool, now: Instant, actions: seq<Action>, w: World, i: nat)
    requires Reaches(Start(hasSender, now), actions, w) && i < |w.tel.emitted|
    requires w.tel.emitted[i].id in w.h.pubs ==>
               var p := w.h.pubs[w.tel.emitted[i].id];
               Having(p.second, LeavingUntracked) == {} && Having(p.second, Untracked) <= Counted(p.first)
    ensures var m := w.tel.emitted[i];
      m.notifySuccess + m.notifyFailed + m.notifySkipped == m.targetSessions
  {
    EverySummaryIsSound(hasSender, now, actions, w, i);
    var m := w.tel.emitted[i];
    if m.id in w.h.pubs {
      UntrackedWereCounted(w.h.pubs[m.id]);
    }
  }

  lemma UntrackedWereCounted(p: Publication)
    requires LoadsOk(p)
    requires Having(p.second, LeavingUntracked) == {} && Having(p.second, Untracked) <= Counted(p.first)
    ensures p.loads.untracked <= p.loads.total
  {
    CountedParts(p.first);
    var u, c := Having(p.second, Untracked), Counted(p.first);
    assert c == u + (c - u);
  }

  /** Conservation of sessions across the two counters and the roster, in every reachable state. */
  lemma RosterIdentity(hasSender: bool, now: Instant, actions: seq<Action>, w: World)
    requires Reaches(Start(hasSender, now), actions, w)
    ensures |w.tel.active| + Count(w.phases, Joining) + w.tel.counters.untrackedActive
              == w.tel.counters.activeTotal + Count(w.phases, LeavingTracked)
                 + Count(w.phases, LeavingUntracked) + w.tel.counters.staleTracked
    ensures !InTransit(w.phases) ==>
              |w.tel.active| == (w.tel.counters.activeTotal - w.tel.counters.untrackedActive)
                                + w.tel.counters.staleTracked
  {
    EveryRunIsSound(hasSender, now, actions, w);
    RosterParts(w.tel.active, w.phases);
  }

  /** What the first two loads say about the size a roster without stale sessions should have. */
  predicate Balanced(p: Publication) {
    || Count(p.first, LeavingTracked) + p.loads.untracked == Count(p.first, Joining) + Count(p.first, Untracked)
    || (p.roster == {} && p.loads.total <= p.loads.untracked)
  }

  /**
   The roster has the expected size exactly when the sessions that were half way out of it, and the untracked ones
   loaded later, make up for those counted without being on it; or when it is empty and nobody else is expected.
   */
  lemma ExpectedIff(p: Publication)
    requires LoadsOk(p) && p.loads.stale == 0
    ensures |p.roster| == ExpectedTracked(p.loads) <==> Balanced(p)
    ensures |p.roster| <= p.loads.total <==>
              Count(p.first, LeavingTracked) <= Count(p.first, Joining) + Count(p.first, Untracked)
  {
    NeverStale(p);
    RosterParts(p.roster, p.first);
    assert |p.roster| == 0 <==> p.roster == {};
  }

  /**
   A summary reports an inconsistent roster exactly when its event was published with no session known to be stale,
   no more sessions half way out of the roster than counted without being on it, and the loads out of balance.
   */
  lemma InconsistentRosterIff(hasSender: bool, now: Instant, actions: seq<Action>, w: World, i: nat)
    requires Reaches(Start(hasSender, now), actions, w) && i < |w.tel.emitted|
    ensures var m := w.tel.emitted[i];
      m.reason.SessionRosterInconsistent? <==>
        && m.readyToPublished.Some? && m.id in w.h.pubs
        && var p := w.h.pubs[m.id];
        && p.loads.stale == 0 && !Balanced(p)
        && Count(p.first, LeavingTracked) <= Count(p.first, Joining) + Count(p.first, Untracked)
  {
    EverySummaryIsSound(hasSender, now, actions, w, i);
    var m := w.tel.emitted[i];
    if m.id in w.h.pubs && w.h.pubs[m.id].loads.stale == 0 {
      ExpectedIff(w.h.pubs[m.id]);
    }
  }

  /**
   A summary blames a stale roster exactly when its publication loaded a stale session, or more sessions were half way
   out of the roster at the first load than counted without being on it.
   */
  lemma StaleRosterIff(hasSender: bool, now: Instant, actions: seq<Action>, w: World, i: nat)
    requires Reaches(Start(hasSender, now), actions, w) && i < |w.tel.emitted|
    ensures var m := w.tel.emitted[i];
      m.reason.StaleSessionRoster? <==>
        && m.readyToPublished.Some? && m.id in w.h.pubs
        && var p := w.h.pubs[m.id];
        || p.loads.stale > 0
        || Count(p.first, LeavingTracked) > Count(p.first, Joining) + Count(p.first, Untracked)
  {
    EverySummaryIsSound(hasSender, now, actions, w, i);
    var m := w.tel.emitted[i];
    if m.id in w.h.pubs && w.h.pubs[m.id].loads.stale == 0 {
      ExpectedIff(w.h.pubs[m.id]);
    }
  }

  /**
   In particular an inconsistent roster needs some session half way in or out at the first load, or sessions that
   joined or left untracked between the first two loads.
   */
  lemma InconsistentRosterNeedsMove(hasSender: bool, now: Instant, actions: seq<Action>, w: World, i: nat)
    requires Reaches(Start(hasSender, now), actions, w)
    requires i < |w.tel.emitted| && w.tel.emitted[i].reason.SessionRosterInconsistent?
    ensures w.tel.emitted[i].id in w.h.pubs && !Steady(w.h.pubs[w.tel.emitted[i].id])
  {
    EverySummaryIsSound(hasSender, now, actions, w, i);
    InconsistentRosterIff(hasSender, now, actions, w, i);
    var p := w.h.pubs[w.tel.emitted[i].id];
    if Steady(p) {
      SteadyIsBalanced(p);
    }
  }

  predicate Steady(p: Publication) {
    && Having(p.first, Joining) == {} && Having(p.first, LeavingTracked) == {}
    && Having(p.second, Untracked) + Having(p.second, LeavingUntracked) == Having(p.first, Untracked)
  }

  lemma SteadyIsBalanced(p: Publication)
    requires LoadsOk(p) && Steady(p)
    ensures Balanced(p)
  {
    var u, l := Having(p.second, Untracked), Having(p.second, LeavingUntracked);
    assert |u + l| == |u| + |l|;
  }

  /** In every summary the stage times that are present add up to the total within two milliseconds of rounding. */
  lemma StageTimesAddUp(hasSender: bool, now: Instant, actions: seq<Action>, w: World, i: nat)
    requires Reaches(Start(hasSender, now), actions, w) && i < |w.tel.emitted|
    ensures StagesOk(w.tel.emitted[i])
    ensures w.tel.emitted[i].status.Complete? ==>
              w.tel.emitted[i].observedToReady.Some? && w.tel.emitted[i].readyToPublished.Some?
  {
    EverySummaryIsSound(hasSender, now, actions, w, i);
  }

  // ---------------------------------------------------------------- after a contended disconnect

  /** Only the end of a publication adds to the record, and it adds one entry. */
  lemma RecordStep(w: World, a: Action)
    requires w.tel.enabled && Enabled(w, a)
    ensures !a.FinishPublish? ==> Next(w, a).h.pubs == w.h.pubs
    ensures a.FinishPublish? ==>
              Next(w, a).h.pubs == w.h.pubs
              || Next(w, a).h.pubs == w.h.pubs[w.publishing.id := PublicationOf(w)]
  {
  }

  lemma StaleStep(w: World, a: Action)
    requires WorldInv(w) && Enabled(w, a)
    ensures w.tel.counters.staleTracked <= Next(w, a).tel.counters.staleTracked
    ensures forall id :: id in Next(w, a).h.pubs && id !in w.h.pubs ==>
              Next(w, a).h.pubs[id].loads.stale == w.tel.counters.staleTracked
    ensures w.h.pubs.Keys <= Next(w, a).h.pubs.Keys
  {
    RecordStep(w, a);
    StaleGrows(w, a);
  }

  lemma StaleGrows(w: World, a: Action)
    requires WorldInv(w) && Enabled(w, a)
    ensures w.tel.counters.staleTracked <= Next(w, a).tel.counters.staleTracked
  {
    if !MovesSession(a) {
      TelemetryStepKeeps(w, a);
    } else {
      StaleMove(w, a);
    }
  }

  lemma StaleMove(w: World, a: Action)
    requires WorldInv(w) && Enabled(w, a) && MovesSession(a)
    ensures w.tel.counters.staleTracked <= Next(w, a).tel.counters.staleTracked
  {
    if a.LeaveEnd? && w.phases[a.sid].LeavingTracked? {
      StaleLeaving(w, a);
    } else {
      StaleUnmoved(w, a);
    }
  }

  lemma StaleUnmoved(w: World, a: Action)
    requires w.tel.enabled && Enabled(w, a) && MovesSession(a) && (a.LeaveEnd? ==> w.phases[a.sid].LeavingUntracked?)
    ensures Next(w, a).tel.counters.staleTracked == w.tel.counters.staleTracked
  {
  }

  lemma StaleLeaving(w: World, a: Action)
    requires WorldInv(w) && Enabled(w, a) && a.LeaveEnd? && InPhase(w, a.sid, LeavingTracked)
    ensures w.tel.counters.staleTracked <= LeaveRoster(w.tel, a.lock, a.sid, a.now, a.finished).counters.staleTracked
  {
    LeaveEndAccounting(w.tel, w.phases, a.sid);
    LeaveRosterKeeps(w.tel, w.h, a.lock, a.sid, a.now, a.finished);
  }

  lemma {:induction false} LaterPublicationsSeeStale(w: World, actions: seq<Action>, w': World)
    requires WorldInv(w) && Reaches(w, actions, w')
    ensures w.tel.counters.staleTracked <= w'.tel.counters.staleTracked
    ensures w.h.pubs.Keys <= w'.h.pubs.Keys
    ensures forall id :: id in w'.h.pubs && id !in w.h.pubs ==>
              w'.h.pubs[id].loads.stale >= w.tel.counters.staleTracked
    decreases |actions|
  {
    if actions != [] {
      var v := Next(w, actions[0]);
      StaleStep(w, actions[0]);
      StepKeeps(w, actions[0]);
      LaterPublicationsSeeStale(v, actions[1..], w');
      PublicationsStay(v, actions[1..], w');
    }
  }

  lemma PublicationsStep(w: World, a: Action)
    requires WorldInv(w) && Enabled(w, a)
    ensures forall id :: id in w.h.pubs ==> id in Next(w, a).h.pubs && Next(w, a).h.pubs[id] == w.h.pubs[id]
  {
    RecordStep(w, a);
    if a.FinishPublish? {
      UnrecordedMeansAbsent(w.tel.events, w.h.pubs, w.publishing.id);
    }
  }

  lemma UnrecordedMeansAbsent(events: map<EventId, Event>, pubs: map<EventId, Publication>, id: EventId)
    requires UnrecordedBut(events, pubs, {}) && id in events && events[id].publishedAt.None?
    ensures id !in pubs
  {
  }

  /** A publication on record is never rewritten. */
  lemma {:induction false} PublicationsStay(w: World, actions: seq<Action>, w': World)
    requires WorldInv(w) && Reaches(w, actions, w')
    ensures forall id :: id in w.h.pubs ==> id in w'.h.pubs && w'.h.pubs[id] == w.h.pubs[id]
    decreases |actions|
  {
    if actions != [] {
      PublicationsStep(w, actions[0]);
      StepKeeps(w, actions[0]);
      PublicationsStay(Next(w, actions[0]), actions[1..], w');
    }
  }

  /** After one disconnect that could not take the lock, nothing published later is ever reported complete. */
  lemma NothingCompleteAfterContendedLeave(
      hasSender: bool, now: Instant, before: seq<Action>, w: World, after: seq<Action>, w': World, i: nat)
    requires Reaches(Start(hasSender, now), before, w) && w.tel.counters.staleTracked > 0
    requires w.tel.enabled && Reaches(w, after, w')
    requires i < |w'.tel.emitted| && w'.tel.emitted[i].status.Complete?
    ensures w'.tel.emitted[i].id in w.h.pubs
  {
    EveryRunIsSound(hasSender, now, before, w);
    LaterPublicationsSeeStale(w, after, w');
    RunKeeps(w, after, w');
    assert SummaryOk(w'.h, w'.tel.emitted[i]);
  }

  // ---------------------------------------------------------------- the indexes

  lemma IndexSizes(
      events: map<EventId, Event>, dedupe: map<Key, EventId>, published: map<Key, EventId>, nextId: EventId)
    requires IndexOk(events, dedupe, published, nextId)
    ensures |dedupe| == |events| && |published| <= |events|
  {
    InjectionSize(dedupe, events.Keys);
    InjectionSize(map id | id in events :: events[id].dedupeKey, dedupe.Keys);
    assert (map id | id in events :: events[id].dedupeKey).Keys == events.Keys;
    forall k, l | k in published && l in published && published[k] == published[l]
      ensures k == l
    {
      assert Carries(events, published[k], k) && Carries(events, published[l], l);
    }
    forall k | k in published
      ensures published[k] in events.Keys
    {
      assert Carries(events, published[k], k);
    }
    InjectionSize(published, events.Keys);
  }

  /**
   In every reachable state the two indexes agree with the event map, stage times are in order, every
   container is within its bound and `completed` holds the latest summaries.
   */
  lemma IndexesAgree(hasSender: bool, now: Instant, actions: seq<Action>, w: World)
    requires Reaches(Start(hasSender, now), actions, w)
    ensures forall k :: k in w.tel.dedupe ==>
              w.tel.dedupe[k] in w.tel.events && w.tel.events[w.tel.dedupe[k]].dedupeKey == k
    ensures forall id :: id in w.tel.events ==>
              var e := w.tel.events[id];
              && e.dedupeKey in w.tel.dedupe && w.tel.dedupe[e.dedupeKey] == id
              && (e.aReadyAt.Some? ==> e.observedAt <= e.aReadyAt.value)
              && (e.publishedAt.Some? ==> e.aReadyAt.Some? && e.aReadyAt.value <= e.publishedAt.value)
    ensures forall k :: k in w.tel.published ==> Carries(w.tel.events, w.tel.published[k], k)
    ensures |w.tel.published| <= |w.tel.events| == |w.tel.dedupe| <= MAX_IN_FLIGHT_EVENTS
    ensures |w.tel.active| <= MAX_TRACKED_SESSIONS
    ensures w.tel.completed == Suffix(w.tel.emitted, MAX_COMPLETED_SUMMARIES)
    ensures w.tel.logsInWindow <= MAX_LOGS_PER_MINUTE && |w.tel.logQueue| <= MAX_LOG_QUEUE
  {
    EveryRunIsSound(hasSender, now, actions, w);
    IndexSizes(w.tel.events, w.tel.dedupe, w.tel.published, w.tel.nextId);
    forall id | id in w.tel.events
      ensures var e := w.tel.events[id];
        && (e.aReadyAt.Some? ==> e.observedAt <= e.aReadyAt.value)
        && (e.publishedAt.Some? ==> e.aReadyAt.Some? && e.aReadyAt.value <= e.publishedAt.value)
    {
      assert EventOk(w.h, w.tel.events[id]);
    }
  }
}
