/**
 What a publication between the reads of one submit can do.

 In both runs the pool moves from parent `a` to parent `b`, a miner submits on the old job, and a heartbeat drops that
 job from the table, and with it the mark on parent `a`, between two of the reads.
 */
module SubmitRaces {
  import opened Prelude
  import J = JobRetention
  import S = StratumSession

  type Hash = J.Hash

  const OLD: J.JobId := "j0"

  /** Jobs are retained for one tick after their publication. */
  const RETENTION: nat := 1

  function Tip(parent: Hash, id: J.JobId, heartbeat: bool): J.Answers {
    J.Answers(heartbeat, J.Got(Some(parent)), J.Got(J.Job(id, parent)), J.Got(Some(parent)), true)
  }

  /** The table after the move to `b` at time 1: both jobs are retained, `a` is invalidated. */
  function Moved(a: Hash, b: Hash): J.Store {
    J.Store(map[OLD := J.RetainedJob(J.Job(OLD, a), 0, 1), "j1" := J.RetainedJob(J.Job("j1", b), 1, 2)], {a}, 2)
  }

  /** The table after a heartbeat at time 2: the old job is gone, and so is the mark on `a`. */
  function Dropped(b: Hash): J.Store {
    J.Store(map["j1" := J.RetainedJob(J.Job("j1", b), 1, 2), "j2" := J.RetainedJob(J.Job("j2", b), 2, 2)], {}, 2)
  }

  function AfterMove(a: Hash, b: Hash): J.World {
    J.World(Moved(a, b), J.Job("j1", b), J.Idle, map[], b, false, Some(b))
  }

  lemma InstallMoves(a: Hash, b: Hash)
    requires a != b
    ensures var s := J.Store(map[OLD := J.RetainedJob(J.Job(OLD, a), 0, 1)], {}, 2);
      J.Install(s, J.Job("j1", b), J.TipChange, 2, RETENTION, 1) == Moved(a, b)
  {
    var jobs := map[OLD := J.RetainedJob(J.Job(OLD, a), 0, 1)];
    assert J.Unexpired(jobs, RETENTION, 1) == jobs;
    assert jobs[OLD].job.prev == a;
    assert J.Parents(jobs) == {a};
  }

  lemma InstallDrops(a: Hash, b: Hash)
    requires a != b
    ensures J.Install(Moved(a, b), J.Job("j2", b), J.Heartbeat, 2, RETENTION, 2) == Dropped(b)
  {
    var kept := map["j1" := J.RetainedJob(J.Job("j1", b), 1, 2)];
    assert J.Unexpired(Moved(a, b).jobs, RETENTION, 2) == kept;
    assert kept["j1"].job.prev == b;
    assert J.Parents(kept) == {b};
  }

  function MoveActions(b: Hash): seq<J.Action> {
    [J.Start(false, Tip(b, "j1", false)), J.Swap(RETENTION, 1), J.Broadcast]
  }

  lemma MoveIsRun(a: Hash, b: Hash, w: J.World)
    requires a != b && w == J.Boot(J.Job(OLD, a), 0)
    ensures J.Reaches(w, MoveActions(b), AfterMove(a, b))
  {
    assert J.Decide(w.store, w.current, false, Tip(b, "j1", false)) == Some(J.Job("j1", b));
    InstallMoves(a, b);
    var v1 := w.(store := w.store.(generation := 2), stage := J.Generating(J.Job("j1", b), J.TipChange, 2), tip := Some(b));
    var v2 := v1.(store := Moved(a, b), stage := J.Installed(J.Job("j1", b)), live := b);
    assert J.Next(w, J.Start(false, Tip(b, "j1", false))) == v1;
    assert J.Next(v1, J.Swap(RETENTION, 1)) == v2;
    assert J.Next(v2, J.Broadcast) == AfterMove(a, b);
    assert MoveActions(b)[1..] == [J.Swap(RETENTION, 1), J.Broadcast];
    assert [J.Swap(RETENTION, 1), J.Broadcast][1..] == [J.Broadcast] && [J.Broadcast][1..] == [];
    assert J.Reaches(v2, [J.Broadcast], AfterMove(a, b));
    assert J.Reaches(v1, [J.Swap(RETENTION, 1), J.Broadcast], AfterMove(a, b));
  }

  /** A session connects, is sent the new job, and has noted its generation. */
  function Told(w: J.World): J.World {
    w.(sessions := map[1 := J.Session(2, J.NotSending, {"j1"}, {("j1", 2)})])
  }

  function TellActions(): seq<J.Action> {
    [J.Open(1), J.Borrow(1), J.Fetch(1), J.Send(1), J.Note(1)]
  }

  lemma TellIsRun(a: Hash, b: Hash, w: J.World)
    requires a != b && w == AfterMove(a, b)
    ensures J.Reaches(w, TellActions(), Told(w))
  {
    var v1 := w.(sessions := map[1 := J.Session(0, J.NotSending, {}, {})]);
    var v2 := w.(sessions := map[1 := J.Session(0, J.Borrowed("j1"), {}, {})]);
    var v3 := w.(sessions := map[1 := J.Session(0, J.Fetched("j1", b), {}, {})]);
    var v4 := w.(sessions := map[1 := J.Session(0, J.Writing("j1"), {"j1"}, {})]);
    assert J.Next(w, J.Open(1)) == v1;
    assert J.Next(v1, J.Borrow(1)) == v2;
    assert J.Next(v2, J.Fetch(1)) == v3;
    var nothing: set<J.JobId> := {};
    assert nothing + {"j1"} == {"j1"};
    assert J.Next(v3, J.Send(1)) == v4;
    var unnoted: set<(J.JobId, nat)> := {};
    assert unnoted + {("j1", 2)} == {("j1", 2)};
    assert J.Next(v4, J.Note(1)) == Told(w);
    var t := TellActions();
    assert t[1..] == [J.Borrow(1), J.Fetch(1), J.Send(1), J.Note(1)];
    assert t[1..][1..] == [J.Fetch(1), J.Send(1), J.Note(1)];
    assert t[1..][1..][1..] == [J.Send(1), J.Note(1)];
    assert t[1..][1..][1..][1..] == [J.Note(1)];
    assert t[1..][1..][1..][1..][1..] == [];
    assert J.Reaches(v4, [J.Note(1)], Told(w));
    assert J.Reaches(v3, [J.Send(1), J.Note(1)], Told(w));
    assert J.Reaches(v2, [J.Fetch(1), J.Send(1), J.Note(1)], Told(w));
    assert J.Reaches(v1, [J.Borrow(1), J.Fetch(1), J.Send(1), J.Note(1)], Told(w));
  }

  function HeartbeatActions(b: Hash): seq<J.Action> {
    [J.Start(false, Tip(b, "j2", true)), J.Swap(RETENTION, 2)]
  }

  /** The heartbeat is installed and not yet broadcast. */
  function AfterHeartbeat(w: J.World, b: Hash): J.World {
    w.(store := Dropped(b), stage := J.Installed(J.Job("j2", b)))
  }

  lemma HeartbeatIsRun(a: Hash, b: Hash, w: J.World)
    requires a != b && w == Told(AfterMove(a, b))
    ensures J.Reaches(w, HeartbeatActions(b), AfterHeartbeat(w, b))
  {
    assert w.store.jobs["j1"].job.prev == b;
    assert J.ParentRetained(w.store, b);
    assert J.Decide(w.store, w.current, false, Tip(b, "j2", true)) == Some(J.Job("j2", b));
    InstallDrops(a, b);
    var v := w.(stage := J.Generating(J.Job("j2", b), J.Heartbeat, 2));
    assert J.Next(w, J.Start(false, Tip(b, "j2", true))) == v;
    assert J.Next(v, J.Swap(RETENTION, 2)) == AfterHeartbeat(w, b);
    assert HeartbeatActions(b)[1..] == [J.Swap(RETENTION, 2)];
    assert HeartbeatActions(b)[1..][1..] == [];
    assert J.Reaches(v, [J.Swap(RETENTION, 2)], AfterHeartbeat(w, b));
  }

  lemma RaceIsReached(
      a: Hash, b: Hash) returns (before: seq<J.Action>, w1: J.World, between: seq<J.Action>, w2: J.World)
    requires a != b
    ensures J.Reaches(J.Boot(J.Job(OLD, a), 0), before, w1) && J.Reaches(w1, between, w2)
    ensures w1.store == Moved(a, b) && w2.store == Dropped(b) && w1.live == w2.live == b && !w1.fenced && !w2.fenced
    ensures 1 in w1.sessions && w1.sessions[1].lastDelivered == w1.store.generation
  {
    MoveIsRun(a, b, J.Boot(J.Job(OLD, a), 0));
    w1 := Told(AfterMove(a, b));
    TellIsRun(a, b, AfterMove(a, b));
    J.ReachesTrans(J.Boot(J.Job(OLD, a), 0), MoveActions(b), AfterMove(a, b), TellActions(), w1);
    before := MoveActions(b) + TellActions();
    HeartbeatIsRun(a, b, w1);
    between, w2 := HeartbeatActions(b), AfterHeartbeat(w1, b);
  }

  /**
   A heartbeat between fetching the job and testing its parent lets a share on the dead parent `a` be verified and
   credited: the job was fetched in time, and by the time of the test the mark on its parent is gone with it.
   */
  lemma DeadParentIsCredited(a: Hash, b: Hash, x: S.Session, key: S.ShareKey)
    returns (before: seq<J.Action>, w1: J.World, between: seq<J.Action>, w2: J.World)
    requires a != b && x == S.NewSession().(authorized := true) && key.jobId == OLD
    ensures J.Reaches(J.Boot(J.Job(OLD, a), 0), before, w1) && J.Reaches(w1, between, w2)
    ensures OLD in w1.store.jobs && w1.store.jobs[OLD].job.prev == a && w1.live == w2.live == b
    ensures var d := J.Lookup(w1.store, w2.store, w2.store, w2.store);
      var answers := S.Answers(true, false, S.Stored, true, true, true, true, false);
      S.Step(x, d, S.Submit(true, key), answers).accepted == x.accepted + 1
  {
    before, w1, between, w2 := RaceIsReached(a, b);
  }

  /**
   The same heartbeat between the fence test and the lookup of the classification leaves the stale submit
   unclassified, although nothing was ever fenced and the session was up to date.
   */
  lemma UnclassifiedWithoutFence(a: Hash, b: Hash)
    returns (before: seq<J.Action>, w1: J.World, between: seq<J.Action>, w2: J.World)
    requires a != b
    ensures J.Reaches(J.Boot(J.Job(OLD, a), 0), before, w1) && J.Reaches(w1, between, w2)
    ensures J.FoundInvalidated(w1.store, w1.store, OLD) && !w1.fenced && !w2.fenced
    ensures 1 in w1.sessions
    ensures J.StaleClassOf(w1.store.generation, w2.store, OLD, w1.sessions[1].lastDelivered).Unclassified?
  {
    before, w1, between, w2 := RaceIsReached(a, b);
  }
}
