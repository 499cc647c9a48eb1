/** What the running totals of the replacement-latency telemetry count, in every run. */
module LatencyTallies {
  import opened Prelude
  import opened LatencyModel
  import opened LatencyInvariant
  import opened LatencyRuns
  import opened LatencyAccount
  import opened LatencyReports
  import opened LatencyTheorems

  /** How often something happened. */
  datatype Tally = Tally(contended: nat, poisoned: nat, refused: nat, outOfOrder: nat, untracked: nat, drained: nat)

  function Plus(a: Tally, b: Tally): Tally {
    Tally(a.contended + b.contended, a.poisoned + b.poisoned, a.refused + b.refused, a.outOfOrder + b.outOfOrder,
          a.untracked + b.untracked, a.drained + b.drained)
  }

  const NOTHING := Tally(0, 0, 0, 0, 0, 0)

  /** The lock this step tries to take, if it does. */
  function Tried(w: World, a: Action): Option<Lock> {
    match a
    case JoinEnd(_, lock) => Some(lock)
    case LeaveEnd(sid, lock, _, _) => if InPhase(w, sid, LeavingTracked) then Some(lock) else None
    case ObserveUpstream(lock, key, _, _, _) => if |key| <= 128 then Some(lock) else None
    case Ready(lock, _, _, _) => Some(lock)
    case Publish(lock, _, _, _, _) => Some(lock)
    case Fail(lock, _, _, _) => Some(lock)
    case ExpireEvents(lock, _, _) => Some(lock)
    case Notify(_, _, _, lock, _, _, _) => Some(lock)
    case _ => None
  }

  /** There is no room for a new event of this key. */
  predicate Full(t: State, key: Key) {
    |t.events| >= 16 && !(exists id :: id in t.events && t.events[id].dedupeKey == key)
  }

  /** An observation or a publication is refused for its key, or because sixteen other events are live. */
  predicate Refused(w: World, a: Action) {
    match a
    case ObserveUpstream(lock, key, _, now, order) =>
      |key| > 128 || (lock.Acquired? && Full(ExpireAll(w.tel, order, now), key))
    case Publish(lock, _, key, _, _) => lock.Acquired? && |key| > 128
    case _ => false
  }

  /** A stage is reported after a later one, or at a time before the stage that precedes it. */
  predicate OutOfTurn(w: World, a: Action) {
    match a
    case Ready(lock, id, now, order) =>
      && lock.Acquired?
      && var t := ExpireAll(w.tel, order, now);
      id in t.events && (t.events[id].publishedAt.Some? || now < t.events[id].observedAt)
    case Publish(lock, id, key, now, order) =>
      && lock.Acquired? && |key| <= 128
      && var t := ExpireAll(w.tel, order, now);
      id in t.events && (t.events[id].publishedAt.Some? || t.events[id].aReadyAt.None? || now < t.events[id].aReadyAt.value)
    case _ => false
  }

  function StepTally(w: World, a: Action): Tally {
    Tally(One(Tried(w, a) == Some(WouldBlock)), One(Tried(w, a) == Some(Poisoned)), One(Refused(w, a)), One(OutOfTurn(w, a)),
          One(a.JoinEnd? && !(a.lock.Acquired? && |w.tel.active| < 1024)), One(a.DrainLog?))
  }

  ghost function RunTally(w: World, actions: seq<Action>): Tally
    requires w.tel.enabled
    decreases |actions|
  {
    if actions == [] || !Enabled(w, actions[0]) || !Next(w, actions[0]).tel.enabled then NOTHING
    else Plus(StepTally(w, actions[0]), RunTally(Next(w, actions[0]), actions[1..]))
  }

  // ---------------------------------------------------------------- finishing events

  /** Each total of `b` lies between those of `a` and `c`. */
  predicate Between(a: Counters, b: Counters, c: Counters) {
    && a.droppedEvents <= b.droppedEvents <= c.droppedEvents && a.droppedSessions <= b.droppedSessions <= c.droppedSessions
    && a.untrackedSessions <= b.untrackedSessions <= c.untrackedSessions
    && a.rosterCleanupFailures <= b.rosterCleanupFailures <= c.rosterCleanupFailures
    && a.staleTracked <= b.staleTracked <= c.staleTracked && a.droppedLogs <= b.droppedLogs <= c.droppedLogs
    && a.lockContention <= b.lockContention <= c.lockContention && a.lockPoisoned <= b.lockPoisoned <= c.lockPoisoned
    && a.outOfOrder <= b.outOfOrder <= c.outOfOrder
    && b.untrackedActive == c.untrackedActive && b.activeTotal == c.activeTotal
  }

  /** Every new summary reports totals as they were during the step. */
  ghost predicate ReportsTotals(s: State, r: State) {
    && s.emitted <= r.emitted
    && forall i :: |s.emitted| <= i < |r.emitted| ==> Between(s.counters, r.emitted[i].counters, r.counters)
  }

  /** Only log lines were counted, and of every new summary the log line was queued or dropped. */
  ghost predicate OnlyLogs(s: State, r: State) {
    && ReportsTotals(s, r) && s.counters.droppedLogs <= r.counters.droppedLogs
    && r.counters == s.counters.(droppedLogs := r.counters.droppedLogs) && r.hasSender == s.hasSender
    && (s.hasSender ==>
          |r.emitted| + s.counters.droppedLogs + |s.logQueue| == |s.emitted| + r.counters.droppedLogs + |r.logQueue|)
    && (!s.hasSender ==> r.logQueue == s.logQueue)
  }

  lemma LogOnly(s: State, m: Summary, now: Instant)
    ensures var r := LogSummary(s, m, now);
      && r.counters == s.counters.(droppedLogs := r.counters.droppedLogs) && r.hasSender == s.hasSender
      && r.emitted == s.emitted
      && (s.hasSender ==> r.counters.droppedLogs + |r.logQueue| == s.counters.droppedLogs + |s.logQueue| + 1)
      && (!s.hasSender ==> r.logQueue == s.logQueue) && s.counters.droppedLogs <= r.counters.droppedLogs
  {
    var s1 := RollWindow(s, now);
    assert s1 == s.(logWindowStarted := s1.logWindowStarted, logsInWindow := s1.logsInWindow);
    if s1.logsInWindow < MAX_LOGS_PER_MINUTE {
      QueueOnly(s1.(logsInWindow := s1.logsInWindow + 1), m);
    }
  }

  lemma QueueOnly(s: State, m: Summary)
    ensures var r := if !s.hasSender then s else if |s.logQueue| >= MAX_LOG_QUEUE then DropLog(s) else s.(logQueue := s.logQueue + [m]);
      && r.counters == s.counters.(droppedLogs := r.counters.droppedLogs) && r.emitted == s.emitted && r.hasSender == s.hasSender
      && (s.hasSender ==> r.counters.droppedLogs + |r.logQueue| == s.counters.droppedLogs + |s.logQueue| + 1)
  {
  }

  lemma FinishOnlyLogs(s: State, id: EventId, status: Status, reason: Reason, now: Instant)
    ensures OnlyLogs(s, Finish(s, id, status, reason, now))
  {
    if id in s.events {
      var m, s1 := Summarize(s.events[id], status, reason, now, s.counters), Forget(s, id);
      LogOnly(s1.(completed := PushCompleted(s1.completed, m), emitted := s1.emitted + [m]), m, now);
    }
  }

  lemma {:induction false} ExpireOnlyLogs(s: State, ids: seq<EventId>, now: Instant)
    ensures OnlyLogs(s, ExpireAll(s, ids, now))
    decreases |ids|
  {
    if ids != [] {
      ExpireOnlyLogs(s, ids[..|ids| - 1], now);
      FinishOnlyLogs(ExpireAll(s, ids[..|ids| - 1], now), ids[|ids| - 1], Timeout, StageTimeout, now);
    }
  }

  lemma FanoutOnlyLogs(s: State, id: EventId, reason: Reason, now: Instant)
    ensures OnlyLogs(s, FinishFanout(s, id, reason, now))
  {
    FinishOnlyLogs(s, id, TrackingGap, UntrackedSessions, now);
    FinishOnlyLogs(s, id, LatencyModel.Complete, reason, now);
  }

  lemma {:induction false} FanoutAllOnlyLogs(s: State, ids: seq<EventId>, reason: Reason, now: Instant)
    ensures OnlyLogs(s, FinishFanoutAll(s, ids, reason, now))
    decreases |ids|
  {
    if ids != [] {
      FanoutAllOnlyLogs(s, ids[..|ids| - 1], reason, now);
      FanoutOnlyLogs(FinishFanoutAll(s, ids[..|ids| - 1], reason, now), ids[|ids| - 1], reason, now);
    }
  }

  lemma CreditOnlyLogs(s: State, id: EventId, sid: SessionId, outcome: FanoutOutcome, now: Instant)
    ensures OnlyLogs(s, CreditFanout(s, id, sid, outcome, now))
  {
    if id in s.events && sid in s.events[id].pending {
      var e := Deliver(s.events[id], sid, outcome);
      FanoutOnlyLogs(s.(events := s.events[id := e]), id, FanoutReason(e), now);
    }
  }

  lemma RecordOnlyLogs(s: State, sid: SessionId, key: Key, outcome: FanoutOutcome, now: Instant, finished: seq<EventId>)
    ensures OnlyLogs(s, RecordFanoutLocked(s, sid, key, outcome, now, finished))
  {
    if key in s.published {
      var id := s.published[key];
      FanoutAllOnlyLogs(s.(events := DropPending(s.events, sid, Some(id))), finished, Superseded, now);
      CreditOnlyLogs(SupersedeOthers(s, id, sid, now, finished), id, sid, outcome, now);
    }
  }

  lemma PublishOnlyLogs(s: State, id: EventId, key: Key, now: Instant, l: Loads)
    ensures OnlyLogs(s, PublishLoaded(s, id, key, now, l))
  {
    if id in s.events {
      var e := DegradedEvent(s, s.events[id], key, now, l);
      FinishOnlyLogs(s.(events := s.events[id := e]), id, TrackingGap, DegradedReason(s.active, l), now);
      var s1 := Marked(s, id, key, now, l);
      FinishOnlyLogs(s1, id, LatencyModel.Complete, ZeroSessions, now);
      FinishOnlyLogs(s1, id, TrackingGap, UntrackedSessions, now);
    }
  }

  // ---------------------------------------------------------------- one step

  /** The counters moved by exactly what happened, and every new summary's log line was queued, drained or dropped. */
  predicate Adds(s: State, r: State, t: Tally) {
    && r.counters.lockContention == s.counters.lockContention + t.contended
    && r.counters.lockPoisoned == s.counters.lockPoisoned + t.poisoned
    && r.counters.droppedEvents == s.counters.droppedEvents + t.refused
    && r.counters.outOfOrder == s.counters.outOfOrder + t.outOfOrder
    && r.counters.untrackedSessions == s.counters.untrackedSessions + t.untracked
    && r.counters.droppedSessions == s.counters.droppedSessions + t.untracked
    && r.hasSender == s.hasSender
    && (s.hasSender ==>
          |r.emitted| + s.counters.droppedLogs + |s.logQueue| == |s.emitted| + r.counters.droppedLogs + |r.logQueue| + t.drained)
    && (!s.hasSender && s.logQueue == [] ==> r.logQueue == [])
  }

  lemma MoveAdds(w: World, a: Action)
    requires WorldInv(w) && Enabled(w, a) && MovesSession(a)
    ensures Adds(w.tel, Next(w, a).tel, StepTally(w, a))
  {
    if a.LeaveEnd? && w.phases[a.sid].LeavingTracked? {
      LeaverIsActive(w, a.sid);
      LeaveAdds(w, a);
    } else if a.JoinEnd? {
      JoinerIsNew(w, a.sid);
      JoinStepAdds(w, a);
    } else {
      OtherMoveAdds(w, a);
    }
  }

  lemma OtherMoveAdds(w: World, a: Action)
    requires w.tel.enabled && Enabled(w, a) && MovesSession(a) && !a.JoinEnd?
    requires !(a.LeaveEnd? && w.phases[a.sid].LeavingTracked?)
    ensures Adds(w.tel, Next(w, a).tel, StepTally(w, a))
  {
  }

  lemma JoinStepAdds(w: World, a: Action)
    requires w.tel.enabled && Enabled(w, a) && a.JoinEnd? && a.sid !in w.tel.active
    ensures Adds(w.tel, Next(w, a).tel, StepTally(w, a))
  {
    JoinAdds(w.tel, a.sid, a.lock);
  }

  function JoinTally(s: State, lock: Lock): Tally {
    NOTHING.(contended := One(lock.WouldBlock?), poisoned := One(lock.Poisoned?),
             untracked := One(!(lock.Acquired? && |s.active| < 1024)))
  }

  lemma JoinAdds(s: State, sid: SessionId, lock: Lock)
    requires sid !in s.active
    ensures Adds(s, EnterRoster(s, lock, sid).0, JoinTally(s, lock))
  {
    var r := EnterRoster(s, lock, sid).0;
    if lock.Acquired? && |s.active| < 1024 {
      assert r == s.(active := s.active + {sid});
    } else {
      assert r == s.(counters := r.counters);
    }
  }

  lemma LeaveAdds(w: World, a: Action)
    requires w.tel.enabled && Enabled(w, a) && a.LeaveEnd? && InPhase(w, a.sid, LeavingTracked) && a.sid in w.tel.active
    ensures Adds(w.tel, Next(w, a).tel, StepTally(w, a))
  {
    var s1 := w.tel.(active := w.tel.active - {a.sid}, events := DropPending(w.tel.events, a.sid, None));
    FanoutAllOnlyLogs(s1, a.finished, SessionDisconnected, a.now);
  }

  lemma ObserveAdds(w: World, a: Action)
    requires w.tel.enabled && Inv(w.tel, w.h) && Enabled(w, a) && a.ObserveUpstream?
    ensures Adds(w.tel, Next(w, a).tel, StepTally(w, a))
  {
    if |a.key| <= 128 && a.lock.Acquired? {
      ExpiredIndexes(w.tel, w.h, a.order, a.now);
      ObserveHeldAdds(w, a);
    } else {
      ObserveRefusedAdds(w, a);
    }
  }

  lemma ExpiredIndexes(s: State, h: History, order: seq<EventId>, now: Instant)
    requires Inv(s, h)
    ensures IndexesOk(ExpireAll(s, order, now))
  {
    ExpireAllKeeps(s, h, order, now);
  }

  lemma ObserveRefusedAdds(w: World, a: Action)
    requires w.tel.enabled && Enabled(w, a) && a.ObserveUpstream? && (|a.key| > 128 || !a.lock.Acquired?)
    ensures Adds(w.tel, Next(w, a).tel, StepTally(w, a))
  {
  }

  lemma ObserveHeldAdds(w: World, a: Action)
    requires w.tel.enabled && Enabled(w, a) && a.ObserveUpstream? && |a.key| <= 128 && a.lock.Acquired?
    requires IndexesOk(ExpireAll(w.tel, a.order, a.now))
    ensures Adds(w.tel, Next(w, a).tel, StepTally(w, a))
  {
    ObserveTally(w, a);
    ExpiredObserveAdds(w.tel, a.key, a.source, a.now, a.order);
  }

  lemma ObserveTally(w: World, a: Action)
    requires w.tel.enabled && Enabled(w, a) && a.ObserveUpstream? && |a.key| <= 128 && a.lock.Acquired?
    ensures StepTally(w, a) == NOTHING.(refused := One(Full(ExpireAll(w.tel, a.order, a.now), a.key)))
    ensures Next(w, a).tel == ObserveLocked(ExpireAll(w.tel, a.order, a.now), a.key, a.source, a.now).0
  {
  }

  lemma ExpiredObserveAdds(s: State, key: Key, source: UpstreamClass, now: Instant, order: seq<EventId>)
    requires IndexesOk(ExpireAll(s, order, now))
    ensures var t := ExpireAll(s, order, now);
      Adds(s, ObserveLocked(t, key, source, now).0, NOTHING.(refused := One(Full(t, key))))
  {
    var t := ExpireAll(s, order, now);
    var tally := NOTHING.(refused := One(Full(t, key)));
    assert OnlyLogs(s, t) by {
      ExpireOnlyLogs(s, order, now);
    }
    assert Adds(t, ObserveLocked(t, key, source, now).0, tally) by {
      ObserveLockedAdds(t, key, source, now);
    }
    LogsThenAdd(s, t, ObserveLocked(t, key, source, now).0, tally);
  }

  lemma LogsThenAdd(s: State, t: State, r: State, tally: Tally)
    requires OnlyLogs(s, t) && Adds(t, r, tally)
    ensures Adds(s, r, tally)
  {
  }

  lemma ObserveLockedAdds(t: State, key: Key, source: UpstreamClass, now: Instant)
    requires IndexesOk(t)
    ensures Adds(t, ObserveLocked(t, key, source, now).0, NOTHING.(refused := One(Full(t, key))))
  {
    assert key in t.dedupe <==> exists id :: id in t.events && t.events[id].dedupeKey == key;
    if key !in t.dedupe {
      ObserveNew(t, key, source, now);
    }
  }

  lemma ReadyAdds(w: World, a: Action)
    requires w.tel.enabled && Enabled(w, a) && a.Ready?
    ensures Adds(w.tel, Next(w, a).tel, StepTally(w, a))
  {
    if a.lock.Acquired? {
      LockedReadyAdds(w.tel, a.id, a.now, a.order);
    }
  }

  lemma LockedReadyAdds(s: State, id: EventId, now: Instant, order: seq<EventId>)
    ensures var t := ExpireAll(s, order, now);
      Adds(s, MarkReadyLocked(t, id, now), NOTHING.(outOfOrder := One(id in t.events && ReadyOutOfOrder(t.events[id], now))))
  {
    var t := ExpireAll(s, order, now);
    ExpireOnlyLogs(s, order, now);
    FinishOnlyLogs(CountOutOfOrder(t), id, Failure, OutOfOrder, now);
  }

  lemma BeginAdds(w: World, a: Action)
    requires w.tel.enabled && Enabled(w, a) && a.Publish?
    ensures Adds(w.tel, Next(w, a).tel, StepTally(w, a))
  {
    BeginState(w, a.lock, a.id, a.key, a.now, a.order);
    if a.lock.Acquired? {
      var t := ExpireAll(w.tel, a.order, a.now);
      ExpireOnlyLogs(w.tel, a.order, a.now);
      FinishOnlyLogs(CountOutOfOrder(t), a.id, Failure, OutOfOrder, a.now);
      FinishOnlyLogs(CountDroppedEvent(t), a.id, Failure, ReplacementKeyOversize, a.now);
    }
  }

  lemma FailAdds(w: World, a: Action)
    requires w.tel.enabled && Enabled(w, a) && a.Fail?
    ensures Adds(w.tel, Next(w, a).tel, StepTally(w, a))
  {
    if a.lock.Acquired? {
      FinishOnlyLogs(w.tel, a.id, Failure, Caller(a.reason), a.now);
    }
  }

  lemma ExpireAdds(w: World, a: Action)
    requires w.tel.enabled && Enabled(w, a) && a.ExpireEvents?
    ensures Adds(w.tel, Next(w, a).tel, StepTally(w, a))
  {
    if a.lock.Acquired? {
      ExpireOnlyLogs(w.tel, a.order, a.now);
    }
  }

  lemma NotifyAdds(w: World, a: Action)
    requires w.tel.enabled && Enabled(w, a) && a.Notify?
    ensures Adds(w.tel, Next(w, a).tel, StepTally(w, a))
  {
    if a.lock.Acquired? {
      ExpireOnlyLogs(w.tel, a.order, a.now);
      RecordOnlyLogs(ExpireAll(w.tel, a.order, a.now), a.sid, a.key, a.outcome, a.now, a.finished);
    }
  }

  lemma EndAdds(w: World)
    requires w.tel.enabled && w.publishing.UntrackedRead?
    ensures Adds(w.tel, EndPublish(w).tel, NOTHING)
  {
    PublishOnlyLogs(w.tel, w.publishing.id, w.publishing.key, w.publishing.now, PublicationOf(w).loads);
  }

  lemma StepAdds(w: World, a: Action)
    requires WorldInv(w) && Enabled(w, a)
    ensures Adds(w.tel, Next(w, a).tel, StepTally(w, a))
  {
    if MovesSession(a) {
      MoveAdds(w, a);
    } else if a.ObserveUpstream? {
      ObserveAdds(w, a);
    } else if a.Ready? {
      ReadyAdds(w, a);
    } else if a.Publish? {
      BeginAdds(w, a);
    } else if a.FinishPublish? {
      EndAdds(w);
    } else if a.Fail? {
      FailAdds(w, a);
    } else if a.ExpireEvents? {
      ExpireAdds(w, a);
    } else if a.Notify? {
      NotifyAdds(w, a);
    }
  }

  lemma AddsTrans(s: State, t: State, u: State, a: Tally, b: Tally)
    requires Adds(s, t, a) && Adds(t, u, b)
    ensures Adds(s, u, Plus(a, b))
  {
  }

  /** The totals only grew, without a session moving, and the new summaries report them as they were meanwhile. */
  ghost predicate Grows(s: State, r: State) {
    && ReportsTotals(s, r) && Between(s.counters, r.counters, r.counters)
    && r.counters.untrackedActive == s.counters.untrackedActive && r.counters.activeTotal == s.counters.activeTotal
  }

  lemma GrowsTrans(s: State, t: State, u: State)
    requires Grows(s, t) && Grows(t, u)
    ensures Grows(s, u)
  {
    forall i | |s.emitted| <= i < |u.emitted|
      ensures Between(s.counters, u.emitted[i].counters, u.counters)
    {
      if i < |t.emitted| {
        assert u.emitted[i] == t.emitted[i];
      }
    }
  }

  lemma LogsGrow(s: State, r: State)
    requires OnlyLogs(s, r)
    ensures Grows(s, r)
  {
  }

  /** Finishing an event after counting why. */
  lemma CountedGrows(s: State, c: State, id: EventId, status: Status, reason: Reason, now: Instant)
    requires c == s.(counters := c.counters) && Between(s.counters, c.counters, c.counters)
    requires c.counters.untrackedActive == s.counters.untrackedActive && c.counters.activeTotal == s.counters.activeTotal
    ensures Grows(s, Finish(c, id, status, reason, now))
  {
    FinishOnlyLogs(c, id, status, reason, now);
    LogsGrow(c, Finish(c, id, status, reason, now));
    GrowsTrans(s, c, Finish(c, id, status, reason, now));
  }

  lemma ReadyGrows(s: State, lock: Lock, id: EventId, now: Instant, order: seq<EventId>)
    ensures Grows(s, MarkReady(s, lock, id, now, order))
  {
    if s.enabled && lock.Acquired? {
      var t := ExpireAll(s, order, now);
      ExpireOnlyLogs(s, order, now);
      LogsGrow(s, t);
      CountedGrows(t, CountOutOfOrder(t), id, Failure, OutOfOrder, now);
      GrowsTrans(s, t, MarkReadyLocked(t, id, now));
    }
  }

  lemma RefuseGrows(t: State, id: EventId, key: Key, now: Instant)
    ensures Grows(t, RefusePublish(t, id, key, now))
  {
    CountedGrows(t, CountOutOfOrder(t), id, Failure, OutOfOrder, now);
    CountedGrows(t, CountDroppedEvent(t), id, Failure, ReplacementKeyOversize, now);
  }

  lemma BeginGrows(w: World, lock: Lock, id: EventId, key: Key, now: Instant, order: seq<EventId>)
    ensures Grows(w.tel, BeginPublish(w, lock, id, key, now, order).tel)
  {
    BeginState(w, lock, id, key, now, order);
    if lock.Acquired? {
      var t := ExpireAll(w.tel, order, now);
      ExpireOnlyLogs(w.tel, order, now);
      LogsGrow(w.tel, t);
      RefuseGrows(t, id, key, now);
      GrowsTrans(w.tel, t, RefusePublish(t, id, key, now));
    }
  }

  lemma ObserveGrows(s: State, lock: Lock, key: Key, source: UpstreamClass, now: Instant, order: seq<EventId>)
    ensures Grows(s, Observe(s, lock, key, source, now, order).0)
  {
    if s.enabled && |key| <= MAX_CORRELATION_KEY_BYTES && lock.Acquired? {
      var t := ExpireAll(s, order, now);
      ExpireOnlyLogs(s, order, now);
      LogsGrow(s, t);
      GrowsTrans(s, t, ObserveLocked(t, key, source, now).0);
    }
  }

  lemma NotifyGrows(
      s: State, lock: Lock, sid: SessionId, key: Key, outcome: FanoutOutcome, now: Instant, order: seq<EventId>,
      finished: seq<EventId>)
    ensures Grows(s, RecordFanout(s, lock, sid, key, outcome, now, order, finished))
  {
    if s.enabled && lock.Acquired? {
      var t := ExpireAll(s, order, now);
      ExpireOnlyLogs(s, order, now);
      RecordOnlyLogs(t, sid, key, outcome, now, finished);
      LogsGrow(s, t);
      LogsGrow(t, RecordFanoutLocked(t, sid, key, outcome, now, finished));
      GrowsTrans(s, t, RecordFanoutLocked(t, sid, key, outcome, now, finished));
    }
  }

  lemma OtherGrows(w: World, a: Action)
    requires w.tel.enabled && Enabled(w, a) && !MovesSession(a)
    ensures ReportsTotals(w.tel, Next(w, a).tel)
  {
    match a
    case ObserveUpstream(lock, key, source, now, order) => ObserveGrows(w.tel, lock, key, source, now, order);
    case Ready(lock, id, now, order) => ReadyGrows(w.tel, lock, id, now, order);
    case Publish(lock, id, key, now, order) => BeginGrows(w, lock, id, key, now, order);
    case FinishPublish =>
      PublishOnlyLogs(w.tel, w.publishing.id, w.publishing.key, w.publishing.now, PublicationOf(w).loads);
    case Fail(lock, id, reason, now) => FinishOnlyLogs(w.tel, id, Failure, Caller(reason), now);
    case ExpireEvents(lock, now, order) => ExpireOnlyLogs(w.tel, order, now);
    case Notify(sid, key, outcome, lock, now, order, finished) =>
      NotifyGrows(w.tel, lock, sid, key, outcome, now, order, finished);
    case _ =>
  }

  lemma MoveReports(w: World, a: Action)
    requires w.tel.enabled && Enabled(w, a) && MovesSession(a)
    ensures ReportsTotals(w.tel, Next(w, a).tel)
  {
    if a.LeaveEnd? && w.phases[a.sid].LeavingTracked? && a.lock.Acquired? {
      LeaveReports(w.tel, a.sid, a.now, a.finished);
    } else {
      MoveShape(w, a);
    }
  }

  lemma LeaveReports(s: State, sid: SessionId, now: Instant, finished: seq<EventId>)
    ensures ReportsTotals(s, LeaveRoster(s, Acquired, sid, now, finished))
  {
    var s1 := if sid in s.active then s.(active := s.active - {sid})
              else s.(counters := s.counters.(rosterCleanupFailures := s.counters.rosterCleanupFailures + 1));
    FanoutAllOnlyLogs(s1.(events := DropPending(s1.events, sid, None)), finished, SessionDisconnected, now);
  }

  /** The summaries a step emits report the totals as they were during that step. */
  lemma SummariesReportTotals(w: World, a: Action)
    requires w.tel.enabled && Enabled(w, a)
    ensures ReportsTotals(w.tel, Next(w, a).tel)
  {
    if MovesSession(a) {
      MoveReports(w, a);
    } else {
      OtherGrows(w, a);
    }
  }

  /**
   What becomes of the log line of a summary: at most 120 pass within a window, which lasts a minute; one that passes
   is queued if there is a sender and room, and one that does not pass or finds no room is counted.
   */
  lemma LogLineIs(s: State, m: Summary, now: Instant)
    requires s.logsInWindow <= 120
    ensures var r := LogSummary(s, m, now); var over := now >= s.logWindowStarted + 60_000_000_000;
      var passes := over || s.logsInWindow < 120; var queued := passes && s.hasSender && |s.logQueue| < 16;
      && r.logWindowStarted == (if over then now else s.logWindowStarted)
      && r.logsInWindow == (if over then 1 else if passes then s.logsInWindow + 1 else 120)
      && r.logQueue == (if queued then s.logQueue + [m] else s.logQueue)
      && r.counters.droppedLogs == s.counters.droppedLogs + One(!queued && (s.hasSender || !passes))
      && r.events == s.events && r.emitted == s.emitted
  {
    var over, s1 := now >= s.logWindowStarted + 60_000_000_000, RollWindow(s, now);
    assert s1 == if over then s.(logWindowStarted := now, logsInWindow := 0) else s;
    if s1.logsInWindow < 120 {
      QueuedOrDropped(s1.(logsInWindow := s1.logsInWindow + 1), m);
    }
  }

  lemma QueuedOrDropped(s: State, m: Summary)
    ensures var r := if !s.hasSender then s else if |s.logQueue| >= MAX_LOG_QUEUE then DropLog(s) else s.(logQueue := s.logQueue + [m]);
      var queued := s.hasSender && |s.logQueue| < 16;
      && r == s.(logQueue := r.logQueue, counters := r.counters)
      && r.logQueue == (if queued then s.logQueue + [m] else s.logQueue)
      && r.counters.droppedLogs == s.counters.droppedLogs + One(!queued && s.hasSender)
  {
  }

  /** The last summary is of this event and says that it failed, and why. */
  predicate SaysFailed(s: State, id: EventId, reason: Reason) {
    s.emitted != [] && s.emitted[|s.emitted| - 1].id == id
    && s.emitted[|s.emitted| - 1].status.Failure? && s.emitted[|s.emitted| - 1].reason == reason
  }

  /**
   Which failure is reported: a stage out of turn, a key too long for the event that is to be published, or whatever
   the caller says.
   */
  lemma FailuresNameTheirCause(start: World, b: Book, actions: seq<Action>, w: World, a: Action)
    requires Fresh(start) && b == NEW_BOOK && Reaches(start, actions, w) && w.tel.enabled && Enabled(w, a)
    ensures OutOfTurn(w, a) ==> SaysFailed(Next(w, a).tel, a.id, OutOfOrder)
    ensures a.Publish? && a.lock.Acquired? && |a.key| > 128 && a.id in ExpireAll(w.tel, a.order, a.now).events ==>
              SaysFailed(Next(w, a).tel, a.id, ReplacementKeyOversize)
    ensures a.Fail? && a.lock.Acquired? && a.id in w.tel.events ==> SaysFailed(Next(w, a).tel, a.id, Caller(a.reason))
  {
    IdsAre(start, b, actions, w);
    if a.Ready? || a.Publish? {
      ExpiryKeepsIds(w.tel, a.order, a.now);
      if a.lock.Acquired? && a.id in ExpireAll(w.tel, a.order, a.now).events {
        LateFails(w, a, ExpireAll(w.tel, a.order, a.now));
      }
    } else if a.Fail? && a.lock.Acquired? && a.id in w.tel.events {
      FinishShape(w.tel, a.id, Failure, Caller(a.reason), a.now);
    }
  }

  lemma ExpiryKeepsIds(s: State, order: seq<EventId>, now: Instant)
    requires IdsOk(s.events) && Enumerates(order, Expired(s, now))
    ensures IdsOk(ExpireAll(s, order, now).events)
  {
    ExpiryOf(s, order, now);
  }

  lemma LateFails(w: World, a: Action, t: State)
    requires w.tel.enabled && Enabled(w, a) && (a.Ready? || a.Publish?) && a.lock.Acquired?
    requires t == ExpireAll(w.tel, a.order, a.now) && a.id in t.events && IdsOk(t.events)
    ensures OutOfTurn(w, a) ==> SaysFailed(Next(w, a).tel, a.id, OutOfOrder)
    ensures a.Publish? && |a.key| > 128 ==> SaysFailed(Next(w, a).tel, a.id, ReplacementKeyOversize)
  {
    FinishShape(CountOutOfOrder(t), a.id, Failure, OutOfOrder, a.now);
    FinishShape(CountDroppedEvent(t), a.id, Failure, ReplacementKeyOversize, a.now);
  }

  lemma {:induction false} RunAdds(w: World, actions: seq<Action>, w': World)
    requires WorldInv(w) && Reaches(w, actions, w')
    ensures Adds(w.tel, w'.tel, RunTally(w, actions))
    decreases |actions|
  {
    if actions != [] {
      var v := Next(w, actions[0]);
      StepAdds(w, actions[0]);
      StepKeeps(w, actions[0]);
      RunAdds(v, actions[1..], w');
      AddsTrans(w.tel, v.tel, w'.tel, StepTally(w, actions[0]), RunTally(v, actions[1..]));
    }
  }

  /**
   In every run from a fresh telemetry the totals are exactly how often the lock was contended or poisoned when tried,
   an observation or publication was refused, a stage came out of turn and a session joined untracked; and with a
   sender the log line of every summary is queued, drained or counted as dropped.
   */
  lemma TotalsAreTallies(start: World, actions: seq<Action>, w: World)
    requires Fresh(start) && Reaches(start, actions, w)
    ensures var t := RunTally(start, actions); var c := w.tel.counters;
      && c.lockContention == t.contended && c.lockPoisoned == t.poisoned && c.droppedEvents == t.refused
      && c.outOfOrder == t.outOfOrder && c.untrackedSessions == t.untracked && c.droppedSessions == t.untracked
      && (if start.tel.hasSender then |w.tel.emitted| == c.droppedLogs + |w.tel.logQueue| + t.drained
          else w.tel.logQueue == [])
  {
    EmptyWorldOk(start);
    RunAdds(start, actions, w);
    AddsFromZero(start.tel, w.tel, RunTally(start, actions));
  }

  lemma AddsFromZero(s: State, r: State, t: Tally)
    requires s.counters == ZERO_COUNTERS && s.emitted == [] && s.logQueue == [] && Adds(s, r, t)
    ensures var c := r.counters;
      && c.lockContention == t.contended && c.lockPoisoned == t.poisoned && c.droppedEvents == t.refused
      && c.outOfOrder == t.outOfOrder && c.untrackedSessions == t.untracked && c.droppedSessions == t.untracked
      && (if s.hasSender then |r.emitted| == c.droppedLogs + |r.logQueue| + t.drained else r.logQueue == [])
  {
  }
}
