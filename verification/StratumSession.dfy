/** The submit path of one Stratum session: what each `mining.submit` counts, and when the session is closed. */
module StratumSession {
  import opened Prelude
  import J = JobRetention

  const STALE_JOB_RECONNECT_THRESHOLD: nat := 3
  const U32_MAX: nat := 0xFFFF_FFFF

  /** The text of a share, compared as text and not as decoded values. */
  datatype ShareKey = ShareKey(jobId: J.JobId, extranonce2: string, ntime: string, nonce: string)

  datatype Request = Malformed | Submit(workerAuthorized: bool, key: ShareKey)

  datatype Insert = Stored | AlreadyStored | StoreFailed

  /** Everything a submit asks of other components. */
  datatype Answers = Answers(
    meetsTarget: bool, isCandidate: bool, insert: Insert, candidateRecorded: bool,
    eventRecorded: bool, responseWritten: bool, resyncWritten: bool, banned: bool)

  /** How one submit relates to the run of stale submits. */
  datatype Kind = OnStaleJob | OnLiveJob | NoJob

  /** `verified`, `credited`, `history` and the totals are the record of what has happened so far. */
  datatype Session = Session(
    authorized: bool, isOpen: bool, seen: set<ShareKey>, streak: nat,
    accepted: nat, rejected: nat, stale: nat,
    verified: seq<ShareKey>, credited: seq<ShareKey>, history: seq<Kind>, aborted: nat)

  function NewSession(): Session {
    Session(false, true, {}, 0, 0, 0, 0, [], [], [], 0)
  }

  function Saturate(n: nat): nat {
    if n < U32_MAX then n else U32_MAX
  }

  function Close(x: Session): Session {
    x.(isOpen := false)
  }

  function CloseUnless(x: Session, ok: bool): Session {
    if ok then x else Close(x)
  }

  function Reject(x: Session, a: Answers): Session {
    CloseUnless(x.(rejected := x.rejected + 1), a.eventRecorded)
  }

  function Stale(x: Session, a: Answers): Session {
    CloseUnless(x.(stale := x.stale + 1, streak := Saturate(x.streak + 1)), a.eventRecorded)
  }

  /** An error from the repository ends the session before any counter moves. */
  function Abort(x: Session): Session {
    Close(x.(aborted := x.aborted + 1))
  }

  function Verify(x: Session, key: ShareKey, a: Answers): Session {
    var x := x.(seen := x.seen + {key}, streak := 0, verified := x.verified + [key]);
    if !a.meetsTarget then Reject(x, a)
    else
      match a.insert
      case StoreFailed => Abort(x)
      case AlreadyStored => Reject(x, a)
      case Stored =>
        if a.isCandidate && !a.candidateRecorded then Abort(x)
        else x.(accepted := x.accepted + 1, credited := x.credited + [key])
  }

  /** `d` is the job table at each of the four reads of this submit. */
  function KindOf(d: J.Lookup, r: Request): Kind {
    if r.Malformed? || !r.workerAuthorized then NoJob
    else if J.PassesLookup(d, r.key.jobId) then OnLiveJob
    else OnStaleJob
  }

  /** What the submit itself does, up to its response. */
  function Process(x: Session, d: J.Lookup, r: Request, a: Answers): Session {
    match KindOf(d, r)
    case NoJob => Reject(x, a)
    case OnStaleJob => Stale(x, a)
    case OnLiveJob => if r.key in x.seen then Reject(x.(streak := 0), a) else Verify(x, r.key, a)
  }

  /** The response, the resync that follows a stale submit, and the reasons to hang up. */
  function Respond(x: Session, d: J.Lookup, r: Request, a: Answers): Session {
    if !x.isOpen || !a.responseWritten then Close(x)
    else
      var x := if KindOf(d, r).OnStaleJob?
               then CloseUnless(x, a.resyncWritten && x.streak < STALE_JOB_RECONNECT_THRESHOLD) else x;
      CloseUnless(x, !a.banned)
  }

  function Step(x: Session, d: J.Lookup, r: Request, a: Answers): Session {
    if !x.authorized then CloseUnless(x, a.responseWritten && !a.banned)
    else
      var x := x.(history := x.history + [KindOf(d, r)]);
      Respond(Process(x, d, r, a), d, r, a)
  }

  // ---------------------------------------------------------------- what a session keeps

  /** Stale submits since the last submit on a live job. */
  function TrailingStale(history: seq<Kind>): nat {
    if history == [] then 0
    else
      match history[|history| - 1]
      case OnLiveJob => 0
      case OnStaleJob => TrailingStale(history[..|history| - 1]) + 1
      case NoJob => TrailingStale(history[..|history| - 1])
  }

  predicate CountsOk(x: Session) {
    && x.streak == TrailingStale(x.history)
    && (x.isOpen ==> x.streak < STALE_JOB_RECONNECT_THRESHOLD)
    && x.accepted + x.rejected + x.stale + x.aborted == |x.history|
    && x.aborted <= 1 && (x.aborted == 1 ==> !x.isOpen)
    && |x.credited| == x.accepted
  }

  /** Verified texts are pairwise different and are the ones seen; credited texts are verified. */
  ghost predicate KeysOk(x: Session) {
    && Distinct(x.verified) && (forall key :: key in x.seen <==> key in x.verified)
    && Distinct(x.credited) && (forall key :: key in x.credited ==> key in x.verified)
  }

  ghost predicate Inv(x: Session) {
    CountsOk(x) && KeysOk(x)
  }

  /** One counter moved, or one abort closed the session, and nothing was lost. */
  predicate MovesOne(x: Session, y: Session) {
    && y.accepted + y.rejected + y.stale + y.aborted == x.accepted + x.rejected + x.stale + x.aborted + 1
    && y.aborted <= x.aborted + 1 && (y.aborted == x.aborted + 1 ==> !y.isOpen)
    && |y.credited| - y.accepted == |x.credited| - x.accepted && y.history == x.history
  }

  lemma RejectMovesOne(x: Session, a: Answers)
    ensures MovesOne(x, Reject(x, a)) && Reject(x, a).streak == x.streak
  {
  }

  lemma VerifyMovesOne(x: Session, key: ShareKey, a: Answers)
    ensures MovesOne(x, Verify(x, key, a)) && Verify(x, key, a).streak == 0
  {
    RejectMovesOne(x.(seen := x.seen + {key}, streak := 0, verified := x.verified + [key]), a);
  }

  lemma ProcessMovesOne(x: Session, d: J.Lookup, r: Request, a: Answers)
    ensures MovesOne(x, Process(x, d, r, a))
    ensures Process(x, d, r, a).streak ==
              match KindOf(d, r) case NoJob => x.streak case OnLiveJob => 0 case OnStaleJob => Saturate(x.streak + 1)
  {
    match KindOf(d, r)
    case NoJob => RejectMovesOne(x, a);
    case OnStaleJob =>
    case OnLiveJob =>
      if r.key in x.seen {
        RejectMovesOne(x.(streak := 0), a);
      } else {
        VerifyMovesOne(x, r.key, a);
      }
  }

  /** Processing one more submit moves one counter and keeps the streak in step with the history. */
  lemma ProcessCounts(x: Session, d: J.Lookup, r: Request, a: Answers, before: seq<Kind>)
    requires x.streak == TrailingStale(before) < STALE_JOB_RECONNECT_THRESHOLD
    ensures MovesOne(x, Process(x, d, r, a))
    ensures Process(x, d, r, a).streak == TrailingStale(before + [KindOf(d, r)])
    ensures !KindOf(d, r).OnStaleJob? ==> Process(x, d, r, a).streak < STALE_JOB_RECONNECT_THRESHOLD
  {
    var history := before + [KindOf(d, r)];
    assert history[..|history| - 1] == before;
    ProcessMovesOne(x, d, r, a);
  }

  lemma RespondOnlyCloses(x: Session, d: J.Lookup, r: Request, a: Answers)
    ensures var y := Respond(x, d, r, a);
      && y == x.(isOpen := y.isOpen) && (y.isOpen ==> x.isOpen)
      && (y.isOpen && KindOf(d, r).OnStaleJob? ==> x.streak < STALE_JOB_RECONNECT_THRESHOLD)
  {
  }

  lemma CountsKept(x: Session, d: J.Lookup, r: Request, a: Answers)
    requires CountsOk(x) && x.isOpen
    ensures CountsOk(Step(x, d, r, a))
  {
    if x.authorized {
      var x1 := x.(history := x.history + [KindOf(d, r)]);
      ProcessCounts(x1, d, r, a, x.history);
      RespondOnlyCloses(Process(x1, d, r, a), d, r, a);
    }
  }

  lemma VerifyKeepsKeys(x: Session, key: ShareKey, a: Answers)
    requires KeysOk(x) && key !in x.seen
    ensures KeysOk(Verify(x, key, a))
  {
    var y := Verify(x, key, a);
    assert y.verified == x.verified + [key] && y.seen == x.seen + {key};
    assert y.credited == x.credited || y.credited == x.credited + [key];
  }

  lemma KeysKept(x: Session, d: J.Lookup, r: Request, a: Answers)
    requires KeysOk(x)
    ensures KeysOk(Step(x, d, r, a))
  {
    if x.authorized && KindOf(d, r).OnLiveJob? && r.key !in x.seen {
      VerifyKeepsKeys(x.(history := x.history + [KindOf(d, r)]), r.key, a);
    }
  }

  lemma StepKeeps(x: Session, d: J.Lookup, r: Request, a: Answers)
    requires Inv(x) && x.isOpen
    ensures Inv(Step(x, d, r, a))
  {
    CountsKept(x, d, r, a);
    KeysKept(x, d, r, a);
  }

  datatype Arrival = Authorize | Submitted(lookup: J.Lookup, request: Request, answers: Answers)

  function Arrive(x: Session, e: Arrival): Session {
    match e
    case Authorize => x.(authorized := true)
    case Submitted(d, r, a) => Step(x, d, r, a)
  }

  /** The session handles arrivals while it is open. */
  function Handle(x: Session, arrivals: seq<Arrival>): Session
    decreases |arrivals|
  {
    if arrivals == [] || !x.isOpen then x else Handle(Arrive(x, arrivals[0]), arrivals[1..])
  }

  lemma {:induction false} HandleKeeps(x: Session, arrivals: seq<Arrival>)
    requires Inv(x)
    ensures Inv(Handle(x, arrivals))
    decreases |arrivals|
  {
    if arrivals != [] && x.isOpen {
      var e := arrivals[0];
      if e.Submitted? {
        StepKeeps(x, e.lookup, e.request, e.answers);
      }
      HandleKeeps(Arrive(x, e), arrivals[1..]);
    }
  }

  /** `x` is what a fresh session becomes after some arrivals. */
  ghost predicate Reachable(x: Session) {
    exists arrivals :: x == Handle(NewSession(), arrivals)
  }

  lemma NewSessionOk()
    ensures Inv(NewSession())
  {
  }

  lemma ReachableOk(x: Session)
    requires Reachable(x)
    ensures Inv(x)
  {
    var arrivals :| x == Handle(NewSession(), arrivals);
    NewSessionOk();
    HandleKeeps(NewSession(), arrivals);
  }

  /**
   In every session each submit after authorization moved exactly one of accepted, rejected and stale, except
   at most one that a repository error cut short, and that one closed the session.
   */
  lemma EverySubmitIsCountedOnce(x: Session)
    requires Reachable(x)
    ensures x.accepted + x.rejected + x.stale + x.aborted == |x.history|
    ensures x.isOpen ==> x.accepted + x.rejected + x.stale == |x.history|
    ensures x.aborted <= 1
  {
    ReachableOk(x);
  }

  /** The abort happens exactly when a share that met its target could not be stored or its block not recorded. */
  lemma AbortNeedsRepositoryFailure(x: Session, d: J.Lookup, r: Request, a: Answers)
    requires Inv(x) && x.isOpen && x.authorized
    ensures (Step(x, d, r, a).aborted == x.aborted + 1)
            <==> (KindOf(d, r).OnLiveJob? && r.key !in x.seen && a.meetsTarget
                  && (a.insert.StoreFailed? || (a.insert.Stored? && a.isCandidate && !a.candidateRecorded)))
    ensures Step(x, d, r, a).aborted == x.aborted ==>
              var y := Step(x, d, r, a);
              y.accepted + y.rejected + y.stale == x.accepted + x.rejected + x.stale + 1
  {
  }

  // ---------------------------------------------------------------- which counter moves

  /** The reads found the job and no fence on its parent, and later no fence on the parent of what was found then. */
  predicate JobIsLive(d: J.Lookup, id: J.JobId) {
    && id in d.fetched.jobs && d.fetched.jobs[id].job.prev !in d.tested.invalidated
    && !(id in d.refetched.jobs && d.refetched.jobs[id].job.prev in d.retested.invalidated)
  }

  /** A well-formed submit of the session's own worker. */
  predicate OwnSubmit(r: Request) {
    r.Submit? && r.workerAuthorized
  }

  /** A submit whose share is hashed: on a live job, with a text not seen before. */
  predicate IsVerified(x: Session, d: J.Lookup, r: Request) {
    OwnSubmit(r) && JobIsLive(d, r.key.jobId) && r.key !in x.verified
  }

  predicate EarnsCredit(x: Session, d: J.Lookup, r: Request, a: Answers) {
    IsVerified(x, d, r) && a.meetsTarget && a.insert.Stored? && (a.isCandidate ==> a.candidateRecorded)
  }

  predicate IsRejected(x: Session, d: J.Lookup, r: Request, a: Answers) {
    || !OwnSubmit(r)
    || (JobIsLive(d, r.key.jobId)
        && (r.key in x.verified || !a.meetsTarget || a.insert.AlreadyStored?))
  }

  predicate IsStale(d: J.Lookup, r: Request) {
    OwnSubmit(r) && !JobIsLive(d, r.key.jobId)
  }

  /**
   Which counter a submit of an open, authorized session moves: accepted for the first submit of a share on a live job
   that meets its target, is stored, and has its block recorded if it is one; stale for one whose job is not live;
   rejected for one that is malformed, of another worker, or on a live job seen before, below target or stored already.
   */
  lemma WhatASubmitCounts(x: Session, d: J.Lookup, r: Request, a: Answers)
    requires Reachable(x) && x.isOpen && x.authorized
    ensures var y := Step(x, d, r, a);
      && y.accepted == x.accepted + One(EarnsCredit(x, d, r, a))
      && y.credited == x.credited + (if EarnsCredit(x, d, r, a) then [r.key] else [])
      && y.stale == x.stale + One(IsStale(d, r))
      && y.rejected == x.rejected + One(IsRejected(x, d, r, a))
      && y.verified == x.verified + (if IsVerified(x, d, r) then [r.key] else [])
      && y.authorized && |y.history| == |x.history| + 1
  {
    ReachableOk(x);
    var x1 := x.(history := x.history + [KindOf(d, r)]);
    KindMeans(d, r);
    ProcessIs(x1, d, r, a);
    RespondOnlyCloses(Process(x1, d, r, a), d, r, a);
  }

  lemma KindMeans(d: J.Lookup, r: Request)
    ensures KindOf(d, r).NoJob? <==> !OwnSubmit(r)
    ensures KindOf(d, r).OnLiveJob? <==> OwnSubmit(r) && JobIsLive(d, r.key.jobId)
  {
  }

  lemma ProcessIs(x: Session, d: J.Lookup, r: Request, a: Answers)
    requires forall key :: key in x.seen <==> key in x.verified
    ensures var y := Process(x, d, r, a);
      && y.accepted == x.accepted + One(EarnsCredit(x, d, r, a))
      && y.credited == x.credited + (if EarnsCredit(x, d, r, a) then [r.key] else [])
      && y.stale == x.stale + One(IsStale(d, r))
      && y.rejected == x.rejected + One(IsRejected(x, d, r, a))
      && y.verified == x.verified + (if IsVerified(x, d, r) then [r.key] else [])
      && y.authorized == x.authorized && y.history == x.history
  {
    KindMeans(d, r);
  }

  /** Stale submits since the last submit on a live job, counting this one. */
  function StreakAfter(x: Session, d: J.Lookup, r: Request): nat {
    if !OwnSubmit(r) then x.streak else if JobIsLive(d, r.key.jobId) then 0 else x.streak + 1
  }

  /**
   When a submit closes an open, authorized session: a repository error, a response that could not be written, a ban,
   or a stale submit that is the third in a row or whose resync could not be written.
   */
  lemma WhatClosesASession(x: Session, d: J.Lookup, r: Request, a: Answers)
    requires Reachable(x) && x.isOpen && x.authorized
    ensures var counted := EarnsCredit(x, d, r, a) || ((IsStale(d, r) || IsRejected(x, d, r, a)) && a.eventRecorded);
      Step(x, d, r, a).isOpen <==>
        && counted && a.responseWritten && !a.banned
        && (IsStale(d, r) ==> a.resyncWritten && StreakAfter(x, d, r) < STALE_JOB_RECONNECT_THRESHOLD)
    ensures Step(x, d, r, a).streak == StreakAfter(x, d, r)
  {
    ReachableOk(x);
  }

  /** Before authorization a submit changes nothing, except that it may close the session. */
  lemma NothingBeforeAuthorization(x: Session, d: J.Lookup, r: Request, a: Answers)
    requires x.isOpen && !x.authorized
    ensures Step(x, d, r, a) == x.(isOpen := a.responseWritten && !a.banned)
  {
  }

  /** This arrival is a submit of `key` that is on a live job, meets its target and is stored. */
  predicate Deserves(e: Arrival, key: ShareKey) {
    && e.Submitted? && OwnSubmit(e.request) && e.request.key == key && JobIsLive(e.lookup, key.jobId)
    && e.answers.meetsTarget && e.answers.insert.Stored?
    && (e.answers.isCandidate ==> e.answers.candidateRecorded)
  }

  lemma {:induction false} CreditIsDeserved(x: Session, arrivals: seq<Arrival>, key: ShareKey)
    requires Reachable(x) && key in Handle(x, arrivals).credited && key !in x.credited
    ensures exists e :: e in arrivals && Deserves(e, key)
    decreases |arrivals|
  {
    var e, y := arrivals[0], Arrive(x, arrivals[0]);
    ReachesOn(x, e);
    if key in y.credited {
      if x.authorized {
        WhatASubmitCounts(x, e.lookup, e.request, e.answers);
      }
      assert Deserves(e, key);
    } else {
      CreditIsDeserved(y, arrivals[1..], key);
      var f :| f in arrivals[1..] && Deserves(f, key);
      assert f in arrivals;
    }
  }

  lemma {:induction false} HandleMore(x: Session, arrivals: seq<Arrival>, e: Arrival)
    ensures var y := Handle(x, arrivals); Handle(x, arrivals + [e]) == if y.isOpen then Arrive(y, e) else y
    decreases |arrivals|
  {
    if arrivals == [] {
      assert [] + [e] == [e] && [e][1..] == [];
    } else if x.isOpen {
      assert (arrivals + [e])[1..] == arrivals[1..] + [e];
      HandleMore(Arrive(x, arrivals[0]), arrivals[1..], e);
    }
  }

  lemma ReachesOn(x: Session, e: Arrival)
    requires Reachable(x) && x.isOpen
    ensures Reachable(Arrive(x, e))
  {
    var arrivals :| x == Handle(NewSession(), arrivals);
    HandleMore(NewSession(), arrivals, e);
  }

  /** In every session each credited text had an arrival that was on a live job, met its target and was stored. */
  lemma EveryCreditIsDeserved(arrivals: seq<Arrival>, key: ShareKey)
    requires key in Handle(NewSession(), arrivals).credited
    ensures exists e :: e in arrivals && Deserves(e, key)
  {
    assert NewSession() == Handle(NewSession(), []);
    CreditIsDeserved(NewSession(), arrivals, key);
  }

  /** A share text is verified at most once in a session, and so credited at most once. */
  lemma ShareVerifiedAtMostOnce(x: Session)
    requires Reachable(x)
    ensures Distinct(x.verified) && Distinct(x.credited) && |x.credited| == x.accepted
    ensures forall key :: key in x.credited ==> key in x.verified
  {
    ReachableOk(x);
  }

  /** A session that is still open has seen at most two stale submits since its last submit on a live job. */
  lemma ClosedByThirdStale(x: Session)
    requires Reachable(x) && TrailingStale(x.history) >= STALE_JOB_RECONNECT_THRESHOLD
    ensures !x.isOpen
  {
    ReachableOk(x);
  }

  /**
   What earns credit, in every interleaving of the four reads with the refresh loop: a job that was fetched, and whose
   parent was the live, unfenced one when it was tested, exactly if that parent still had a retained job then.
   */
  lemma CreditNeedsLiveTipIff(
      job: J.Job, now: J.Instant, a0: seq<J.Action>, w1: J.World, a1: seq<J.Action>, w2: J.World, d: J.Lookup,
      x: Session, r: Request, a: Answers)
    requires J.Reaches(J.Boot(job, now), a0, w1) && J.Reaches(w1, a1, w2)
    requires d.fetched == w1.store && d.tested == w2.store
    requires Step(x, d, r, a).accepted > x.accepted
    ensures r.Submit? && r.key.jobId in w1.store.jobs
    ensures var parent := w1.store.jobs[r.key.jobId].job.prev;
      (parent == w2.live && !w2.fenced) <==> (parent in J.Parents(w2.store.jobs))
  {
    J.FoundForSubmitIff(job, now, a0, w1, a1, w2, r.key.jobId);
  }

  /** Without an installation between fetch and test, only a job on the live, unfenced parent earns credit. */
  lemma CreditNeedsLiveTip(
      job: J.Job, now: J.Instant, a0: seq<J.Action>, w1: J.World, a1: seq<J.Action>, w2: J.World, d: J.Lookup,
      x: Session, r: Request, a: Answers)
    requires J.Reaches(J.Boot(job, now), a0, w1) && J.Reaches(w1, a1, w2)
    requires forall i :: 0 <= i < |a1| ==> !a1[i].Swap?
    requires d.fetched == w1.store && d.tested == w2.store
    requires Step(x, d, r, a).accepted > x.accepted
    ensures r.Submit? && r.key.jobId in w1.store.jobs
    ensures w1.store.jobs[r.key.jobId].job.prev == w2.live && !w2.fenced
  {
    J.FoundForSubmitUndisturbed(job, now, a0, w1, a1, w2, r.key.jobId);
  }

  // ---------------------------------------------------------------- the loop body

  /** The variables `handle_client` keeps across requests, with the record of what happened as ghost state. */
  class Connection {
    var authorized: bool
    var isOpen: bool
    var seenShares: set<ShareKey>
    var unknownJobStreak: nat
    var accepted: nat
    var rejected: nat
    var stale: nat
    ghost var verified: seq<ShareKey>
    ghost var credited: seq<ShareKey>
    ghost var history: seq<Kind>
    ghost var aborted: nat

    ghost function View(): Session
      reads this
    {
      Session(authorized, isOpen, seenShares, unknownJobStreak, accepted, rejected, stale,
              verified, credited, history, aborted)
    }

    constructor ()
      ensures View() == NewSession()
    {
      authorized, isOpen, seenShares, unknownJobStreak := false, true, {}, 0;
      accepted, rejected, stale := 0, 0, 0;
      verified, credited, history, aborted := [], [], [], 0;
    }

    /** One `mining.submit` on an open connection, with the job tables it saw. */
    method HandleSubmit(d: J.Lookup, request: Request, a: Answers)
      requires isOpen
      modifies this
      ensures View() == Step(old(View()), d, request, a)
    {
      var resync := false;
      if authorized {
        history := history + [KindOf(d, request)];
        resync := ProcessSubmit(d, request, a);
      }
      if !isOpen {
        return;
      }
      if !a.responseWritten {
        isOpen := false;
        return;
      }
      if resync {
        if !a.resyncWritten || unknownJobStreak >= STALE_JOB_RECONNECT_THRESHOLD {
          isOpen := false;
          return;
        }
      }
      if a.banned {
        isOpen := false;
      }
    }

    method ProcessSubmit(d: J.Lookup, request: Request, a: Answers) returns (resync: bool)
      modifies this
      ensures View() == Process(old(View()), d, request, a)
      ensures resync <==> KindOf(d, request).OnStaleJob?
    {
      resync := false;
      match request {
        case Malformed =>
          CountRejected(a);
        case Submit(workerAuthorized, key) =>
          if !workerAuthorized {
            CountRejected(a);
          } else if J.FoundInvalidated(d.refetched, d.retested, key.jobId) || !J.FoundForSubmit(d.fetched, d.tested, key.jobId) {
            unknownJobStreak := if unknownJobStreak + 1 < U32_MAX then unknownJobStreak + 1 else U32_MAX;
            resync := true;
            stale := stale + 1;
            isOpen := isOpen && a.eventRecorded;
          } else if key in seenShares {
            unknownJobStreak := 0;
            CountRejected(a);
          } else {
            seenShares := seenShares + {key};
            unknownJobStreak := 0;
            VerifyShare(key, a);
          }
      }
    }

    method CountRejected(a: Answers)
      modifies this`rejected, this`isOpen
      ensures View() == Reject(old(View()), a)
    {
      rejected := rejected + 1;
      if !a.eventRecorded {
        isOpen := false;
      }
    }

    method VerifyShare(key: ShareKey, a: Answers)
      requires key in seenShares && unknownJobStreak == 0
      modifies this
      ensures View() == Verify(old(View()), key, a)
    {
      verified := verified + [key];
      assert seenShares == seenShares + {key};
      if !a.meetsTarget {
        CountRejected(a);
        return;
      }
      match a.insert {
        case StoreFailed =>
          aborted := aborted + 1;
          isOpen := false;
        case AlreadyStored =>
          CountRejected(a);
        case Stored =>
          if a.isCandidate && !a.candidateRecorded {
            aborted := aborted + 1;
            isOpen := false;
          } else {
            accepted := accepted + 1;
            credited := credited + [key];
          }
      }
    }
  }
}
