/** The circuit breaker and the concurrency limit in front of the second node. */
module SecondaryCircuit {
  import opened Prelude

  type Instant = nat
  type AttemptId = nat

  /** `Failure` stands for every recorded outcome that is neither `accepted` nor `skipped`. */
  datatype Outcome = Accepted | Skipped | Failure

  datatype Config = Config(threshold: nat, cooldown: nat, maxInFlight: nat)
  datatype Circuit = Circuit(failures: nat, openUntil: Option<Instant>)

  predicate ConfigOk(c: Config) {
    1 <= c.threshold <= 100 && c.cooldown > 0 && 1 <= c.maxInFlight <= 4
  }

  predicate IsOpen(s: Circuit, now: Instant) {
    s.openUntil.Some? && s.openUntil.value > now
  }

  /** A passed check also clears an open period that is over. */
  function Check(s: Circuit, now: Instant): (Circuit, bool) {
    if IsOpen(s, now) then (s, false) else (s.(openUntil := None), true)
  }

  function Record(c: Config, s: Circuit, outcome: Outcome, now: Instant): Circuit {
    match outcome
    case Accepted => Circuit(0, None)
    case Skipped => s
    case Failure =>
      var failures := s.failures + 1;
      Circuit(failures, if failures >= c.threshold then Some(now + c.cooldown) else s.openUntil)
  }

  class SecondaryCircuitBreaker {
    const config: Config
    var consecutiveFailures: nat
    var openUntil: Option<Instant>

    ghost function View(): Circuit
      reads this
    {
      Circuit(consecutiveFailures, openUntil)
    }

    constructor (config: Config)
      ensures this.config == config && View() == Circuit(0, None)
    {
      this.config := config;
      consecutiveFailures, openUntil := 0, None;
    }

    method Eligibility(now: Instant) returns (ok: bool)
      modifies this
      ensures (View(), ok) == Check(old(View()), now)
    {
      if openUntil.Some? && openUntil.value > now {
        return false;
      }
      openUntil := None;
      return true;
    }

    method RecordOutcome(outcome: Outcome, now: Instant)
      modifies this
      ensures View() == Record(config, old(View()), outcome, now)
    {
      if outcome.Accepted? {
        consecutiveFailures := 0;
        openUntil := None;
        return;
      }
      if outcome.Skipped? {
        return;
      }
      consecutiveFailures := consecutiveFailures + 1;
      if consecutiveFailures >= config.threshold {
        openUntil := Some(now + config.cooldown);
      }
    }
  }

  // ---------------------------------------------------------------- interleavings

  /** What was known when an attempt passed the check: the time and how many failures had ever been recorded. */
  datatype Passed = Passed(at: Instant, recorded: nat)

  datatype World = World(
    config: Config, circuit: Circuit, clock: Instant,
    passed: map<AttemptId, Passed>, inFlight: set<AttemptId>,
    recorded: nat, lastFailureAt: Instant, history: seq<Outcome>)

  datatype Action =
    | CheckCircuit(id: AttemptId, now: Instant)
    | Acquire(id: AttemptId, now: Instant)
    | Finish(id: AttemptId, outcome: Outcome, now: Instant)

  predicate Enabled(w: World, a: Action) {
    && w.clock <= a.now
    && match a
       case CheckCircuit(id, _) => id !in w.passed && id !in w.inFlight
       case Acquire(id, _) => id in w.passed
       case Finish(id, _, _) => id in w.inFlight
  }

  /** The attempt gets a permit, so its submission starts. */
  predicate Starts(w: World, a: Action) {
    a.Acquire? && a.id in w.passed && |w.inFlight| < w.config.maxInFlight
  }

  function Next(w: World, a: Action): World
    requires Enabled(w, a)
  {
    match a
    case CheckCircuit(id, now) =>
      var (circuit, ok) := Check(w.circuit, now);
      w.(circuit := circuit, clock := now, passed := if ok then w.passed[id := Passed(now, w.recorded)] else w.passed)
    case Acquire(id, now) =>
      w.(clock := now, passed := w.passed - {id},
         inFlight := if Starts(w, a) then w.inFlight + {id} else w.inFlight)
    case Finish(id, outcome, now) =>
      w.(circuit := Record(w.config, w.circuit, outcome, now), clock := now, inFlight := w.inFlight - {id},
         recorded := if outcome.Failure? then w.recorded + 1 else w.recorded,
         lastFailureAt := if outcome.Failure? then now else w.lastFailureAt,
         history := w.history + [outcome])
  }

  ghost predicate Reaches(w: World, actions: seq<Action>, w': World)
    decreases |actions|
  {
    if actions == [] then w' == w
    else Enabled(w, actions[0]) && Reaches(Next(w, actions[0]), actions[1..], w')
  }

  function Boot(config: Config, now: Instant): World {
    World(config, Circuit(0, None), now, map[], {}, 0, now, [])
  }

  /** Failures since the last accepted submission; skips count for nothing. */
  function TrailingFailures(history: seq<Outcome>): nat {
    if history == [] then 0
    else
      match history[|history| - 1]
      case Accepted => 0
      case Skipped => TrailingFailures(history[..|history| - 1])
      case Failure => TrailingFailures(history[..|history| - 1]) + 1
  }

  predicate Tripped(w: World) {
    w.circuit.failures >= w.config.threshold
  }

  predicate CooledDown(w: World, now: Instant) {
    now >= w.lastFailureAt + w.config.cooldown
  }

  predicate Inv(w: World) {
    && ConfigOk(w.config)
    && w.lastFailureAt <= w.clock
    && w.circuit.failures == TrailingFailures(w.history)
    && (w.circuit.openUntil.Some? ==> Tripped(w) && w.circuit.openUntil.value == w.lastFailureAt + w.config.cooldown)
    && (w.circuit.openUntil.None? && Tripped(w) ==> CooledDown(w, w.clock))
    && |w.inFlight| <= w.config.maxInFlight
    && (forall id :: id in w.passed ==> w.passed[id].at <= w.clock && w.passed[id].recorded <= w.recorded)
    && (forall id :: id in w.passed && w.passed[id].recorded == w.recorded && Tripped(w) ==>
          CooledDown(w, w.passed[id].at))
    && (forall id :: id in w.passed && w.passed[id].recorded != w.recorded ==> w.passed[id].at <= w.lastFailureAt)
  }

  lemma CheckKeeps(w: World, id: AttemptId, now: Instant)
    requires Inv(w) && Enabled(w, CheckCircuit(id, now))
    ensures Inv(Next(w, CheckCircuit(id, now)))
  {
  }

  lemma AcquireKeeps(w: World, id: AttemptId, now: Instant)
    requires Inv(w) && Enabled(w, Acquire(id, now))
    ensures Inv(Next(w, Acquire(id, now)))
  {
  }

  lemma FinishKeeps(w: World, id: AttemptId, outcome: Outcome, now: Instant)
    requires Inv(w) && Enabled(w, Finish(id, outcome, now))
    ensures Inv(Next(w, Finish(id, outcome, now)))
  {
    var history := w.history + [outcome];
    assert history[..|history| - 1] == w.history;
  }

  lemma StepKeeps(w: World, a: Action)
    requires Inv(w) && Enabled(w, a)
    ensures Inv(Next(w, a))
  {
    match a
    case CheckCircuit(id, now) => CheckKeeps(w, id, now);
    case Acquire(id, now) => AcquireKeeps(w, id, now);
    case Finish(id, outcome, now) => FinishKeeps(w, id, outcome, now);
  }

  lemma {:induction false} RunKeeps(w: World, actions: seq<Action>, w': World)
    requires Inv(w) && Reaches(w, actions, w')
    ensures Inv(w') && w'.config == w.config
    decreases |actions|
  {
    if actions != [] {
      StepKeeps(w, actions[0]);
      RunKeeps(Next(w, actions[0]), actions[1..], w');
    }
  }

  /**
   In every run the check answers exactly this: it refuses precisely while the failures since the last
   acceptance have reached the threshold and the cooldown since the latest of them is not over.
   */
  lemma CheckRefusesIff(config: Config, start: Instant, actions: seq<Action>, w: World, now: Instant)
    requires ConfigOk(config) && Reaches(Boot(config, start), actions, w) && w.clock <= now
    ensures (!Check(w.circuit, now).1)
            <==> (TrailingFailures(w.history) >= config.threshold && !CooledDown(w, now))
  {
    RunKeeps(Boot(config, start), actions, w);
  }

  /**
   Once the threshold is reached, an attempt that starts before a whole cooldown has passed since its own check keeps
   the cooldown exactly when no failure was recorded between its check and its permit.  An attempt that waited longer
   than that for its permit may keep it anyway, and always does if no failure came in between.
   */
  lemma StartsAfterCooldownIff(config: Config, start: Instant, actions: seq<Action>, w: World, a: Action)
    requires ConfigOk(config) && Reaches(Boot(config, start), actions, w) && Enabled(w, a) && Starts(w, a)
    requires TrailingFailures(w.history) >= config.threshold
    ensures w.passed[a.id].recorded == w.recorded ==> CooledDown(w, a.now)
    ensures a.now < w.passed[a.id].at + config.cooldown ==>
              (CooledDown(w, a.now) <==> w.passed[a.id].recorded == w.recorded)
  {
    RunKeeps(Boot(config, start), actions, w);
  }

  /** Taken as one step, checking and acquiring always leave the cooldown between failure and start. */
  lemma AtomicStartWaits(config: Config, start: Instant, actions: seq<Action>, w: World, id: AttemptId, now: Instant)
    requires ConfigOk(config) && Reaches(Boot(config, start), actions, w)
    requires Enabled(w, CheckCircuit(id, now))
    requires Starts(Next(w, CheckCircuit(id, now)), Acquire(id, now))
    ensures TrailingFailures(w.history) >= config.threshold ==> CooledDown(w, now)
  {
    RunKeeps(Boot(config, start), actions, w);
    StepKeeps(w, CheckCircuit(id, now));
  }

  /** The concurrency limit holds in every run. */
  lemma InFlightIsBounded(config: Config, start: Instant, actions: seq<Action>, w: World)
    requires ConfigOk(config) && Reaches(Boot(config, start), actions, w)
    ensures |w.inFlight| <= config.maxInFlight
  {
    RunKeeps(Boot(config, start), actions, w);
  }

  // ---------------------------------------------------------------- the race between check and permit

  const STRICT := Config(1, 1000, 1)

  function RaceRun(): seq<Action> {
    [CheckCircuit(1, 0), Acquire(1, 0), CheckCircuit(2, 1), Finish(1, Failure, 2)]
  }

  function RaceWorld(): World {
    World(STRICT, Circuit(1, Some(1002)), 2, map[2 := Passed(1, 0)], {}, 1, 2, [Failure])
  }

  /**
   Between the check and the permit a failure may open the circuit: the second attempt then starts at once, long
   before the cooldown is over, although only one submission is ever in flight.
   */
  lemma CheckAndPermitRace()
    ensures Reaches(Boot(STRICT, 0), RaceRun(), RaceWorld())
    ensures Enabled(RaceWorld(), Acquire(2, 2)) && Starts(RaceWorld(), Acquire(2, 2))
    ensures Tripped(RaceWorld()) && !CooledDown(RaceWorld(), 2)
  {
    var r := RaceRun();
    var w0 := Boot(STRICT, 0);
    var w1 := Next(w0, r[0]);
    var w2 := Next(w1, r[1]);
    var w3 := Next(w2, r[2]);
    assert w3.passed == map[2 := Passed(1, 0)];
    assert Next(w3, r[3]) == RaceWorld();
    assert Reaches(RaceWorld(), [], RaceWorld());
    assert r[3..][1..] == [] && r[2..][1..] == r[3..] && r[1..][1..] == r[2..];
    assert Reaches(w3, r[3..], RaceWorld());
    assert Reaches(w2, r[2..], RaceWorld());
    assert Reaches(w1, r[1..], RaceWorld());
  }
}
