/** The variable-difficulty controller: exponential average of share times, bounded and rate-limited changes. */
module Vardiff {
  import opened Prelude
  import opened ShareMath

  type Instant = nat // nanoseconds on the monotonic clock

  const NANOS_PER_SEC: nat := 1_000_000_000

  datatype RawConfig = RawConfig(
    initial: Double, min: Double, max: Double, targetShareSecs: nat, ewmaAlpha: Double,
    raiseRatio: Double, lowerRatio: Double, minAdjustSecs: nat, maxAdjustFactor: Double, graceSecs: nat)

  datatype Config = Config(
    initial: real, min: real, max: real, targetShareSecs: nat, ewmaAlpha: real,
    raiseRatio: real, lowerRatio: real, minAdjustSecs: nat, maxAdjustFactor: real, graceSecs: nat)

  function MaxReal(a: real, b: real): real {
    if a <= b then b else a
  }

  function Clamp(x: real, lo: real, hi: real): (r: real)
    requires lo <= hi
    ensures lo <= r <= hi
  {
    if x < lo then lo else if x > hi then hi else x
  }

  function Ceil(x: real): int {
    -((-x).Floor)
  }

  function Abs(x: real): real {
    if x < 0.0 then -x else x
  }

  predicate Whole(x: real) {
    x == x.Floor as real
  }

  predicate Positive(d: Double) {
    d.Finite? && d.value > 0.0
  }

  /** Repairs every field a configuration could get wrong. */
  function Normalized(c: RawConfig): (r: Config)
    ensures ConfigOk(r)
  {
    var min0 := if Positive(c.min) then c.min.value else 1.0;
    var max0 := if c.max.Finite? && c.max.value >= min0 then c.max.value else min0;
    var min := Ceil(min0) as real;
    var max := MaxReal(max0.Floor as real, min);
    var initial := if Positive(c.initial) then c.initial.value else min;
    Config(
      Clamp(Round(initial) as real, min, max), min, max,
      if c.targetShareSecs == 0 then 20 else c.targetShareSecs,
      if c.ewmaAlpha.Finite? && 0.0 < c.ewmaAlpha.value <= 1.0 then c.ewmaAlpha.value else 0.25,
      if c.raiseRatio.Finite? && 0.0 <= c.raiseRatio.value < 1.0 then c.raiseRatio.value else 0.70,
      if c.lowerRatio.Finite? && c.lowerRatio.value > 1.0 then c.lowerRatio.value else 1.40,
      if c.minAdjustSecs == 0 then 120 else c.minAdjustSecs,
      if c.maxAdjustFactor.Finite? && c.maxAdjustFactor.value >= 1.0 then c.maxAdjustFactor.value else 2.0,
      if c.graceSecs == 0 then 120 else c.graceSecs)
  }

  predicate ConfigOk(c: Config) {
    && 1.0 <= c.min <= c.initial <= c.max
    && Whole(c.min) && Whole(c.max) && Whole(c.initial)
    && c.targetShareSecs >= 1 && 0.0 < c.ewmaAlpha <= 1.0
    && 0.0 <= c.raiseRatio < 1.0 < c.lowerRatio
    && c.minAdjustSecs >= 1 && c.maxAdjustFactor >= 1.0 && c.graceSecs >= 1
  }

  function Raw(c: Config): RawConfig {
    RawConfig(Finite(c.initial), Finite(c.min), Finite(c.max), c.targetShareSecs, Finite(c.ewmaAlpha),
              Finite(c.raiseRatio), Finite(c.lowerRatio), c.minAdjustSecs, Finite(c.maxAdjustFactor), c.graceSecs)
  }

  /** Normalizing twice, as loading and then starting a session does, is the same as normalizing once. */
  lemma NormalizedIsIdempotent(c: RawConfig)
    ensures Normalized(Raw(Normalized(c))) == Normalized(c)
  {
    var n := Normalized(c);
    WholeStays(n.min);
    WholeStays(n.max);
    WholeStays(n.initial);
  }

  lemma WholeStays(x: real)
    requires Whole(x)
    ensures Ceil(x) as real == x && Round(x) as real == x
  {
    var n := x.Floor;
    assert x == n as real && -x == (-n) as real;
    assert (-x).Floor == -n;
    assert (x + 0.5).Floor == n;
  }

  function Quantize(c: Config, difficulty: real): real
    requires ConfigOk(c)
  {
    Clamp(Round(difficulty) as real, c.min, c.max)
  }

  datatype State = State(
    config: Config, current: real, previous: Option<real>, transitionUntil: Option<Instant>,
    lastShareAt: Option<Instant>, lastAdjustAt: Option<Instant>, ewma: Option<real>)

  function NewState(raw: RawConfig): State {
    var c := Normalized(raw);
    State(c, c.initial, None, None, None, None, None)
  }

  function Since(now: Instant, then_: Instant): nat {
    Monus(now, then_)
  }

  function ElapsedSecs(c: Config, now: Instant, last: Instant): real
    requires ConfigOk(c)
  {
    Clamp(Since(now, last) as real / NANOS_PER_SEC as real, 0.05, c.targetShareSecs as real * 4.0)
  }

  function Average(c: Config, ewma: Option<real>, elapsed: real): real {
    match ewma
    case None => elapsed
    case Some(previous) => c.ewmaAlpha * elapsed + (1.0 - c.ewmaAlpha) * previous
  }

  predicate TooSoon(c: Config, now: Instant, last: Instant) {
    Since(now, last) < c.minAdjustSecs * NANOS_PER_SEC
  }

  function RelativeDifference(left: real, right: real): real {
    if right == 0.0 then Abs(left) else Abs((left - right) / right)
  }

  /** The factor the average asks for; none while the pace is within the accepted band. */
  function DesiredFactor(c: Config, ewma: real): Option<real>
    requires ConfigOk(c) && ewma > 0.0
  {
    var target := c.targetShareSecs as real;
    if ewma < target * c.raiseRatio then Some(Clamp(target / ewma, 1.0, c.maxAdjustFactor))
    else if ewma > target * c.lowerRatio then
      InverseAtMostOne(c.maxAdjustFactor);
      Some(Clamp(target / ewma, 1.0 / c.maxAdjustFactor, 1.0))
    else None
  }

  lemma InverseAtMostOne(f: real)
    requires f >= 1.0
    ensures 0.0 < 1.0 / f <= 1.0
  {
  }

  function ApplyDifficulty(s: State, next: real, now: Instant): (State, Option<real>)
    requires ConfigOk(s.config)
  {
    var next := Quantize(s.config, next);
    if RelativeDifference(next, s.current) < 0.01 then (s, None)
    else (s.(previous := Some(s.current), current := next,
             transitionUntil := Some(now + s.config.graceSecs * NANOS_PER_SEC), lastAdjustAt := Some(now)), Some(next))
  }

  /** The difficulty a share's pace leads to, before it is rounded. */
  function PacedDifficulty(c: Config, current: real, factor: real): real
    requires ConfigOk(c)
  {
    Clamp(current * factor, c.min, c.max)
  }

  function RecordAcceptedShare(s: State, now: Instant): (State, Option<real>)
    requires Ok(s)
  {
    if s.lastShareAt.None? then (s.(lastShareAt := Some(now), lastAdjustAt := Some(now)), None)
    else
      var ewma := Average(s.config, s.ewma, ElapsedSecs(s.config, now, s.lastShareAt.value));
      AverageInRange(s.config, s.ewma, ElapsedSecs(s.config, now, s.lastShareAt.value));
      var lastAdjust := if s.lastAdjustAt.Some? then s.lastAdjustAt.value else now;
      var s := s.(lastShareAt := Some(now), ewma := Some(ewma), lastAdjustAt := Some(lastAdjust));
      if TooSoon(s.config, now, lastAdjust) then (s, None)
      else
        match DesiredFactor(s.config, ewma)
        case None => (s, None)
        case Some(factor) =>
          var next := Quantize(s.config, PacedDifficulty(s.config, s.current, factor));
          if RelativeDifference(next, s.current) < 0.01 then (s, None) else ApplyDifficulty(s, next, now)
  }

  /** A suggestion moves at most one step and stays within the configured bounds. */
  function SuggestedDifficulty(c: Config, current: real, suggested: real): (next: real)
    requires ConfigOk(c) && c.min <= current <= c.max
    ensures suggested <= current ==> next <= current
    ensures current <= suggested ==> current <= next
  {
    var lo, hi := current / c.maxAdjustFactor, current * c.maxAdjustFactor;
    StepBounds(current, c.maxAdjustFactor);
    ClampsOrder(suggested, c.min, c.max, lo, hi, current);
    Bounded(suggested, c.min, c.max, lo, hi)
  }

  function Bounded(x: real, min: real, max: real, lo: real, hi: real): real
    requires min <= max && lo <= hi
  {
    Clamp(Clamp(Clamp(x, min, max), lo, hi), min, max)
  }

  lemma MulOrder(a: real, x: real, y: real)
    requires a >= 0.0 && x <= y
    ensures a * x <= a * y
  {
    assert a * (y - x) >= 0.0;
  }

  lemma StepBounds(current: real, f: real)
    requires current > 0.0 && f >= 1.0
    ensures 0.0 < current / f <= current <= current * f
  {
    var q := current / f;
    assert q * f == current;
    MulOrder(q, 1.0, f);
    MulOrder(current, 1.0, f);
  }

  function ApplySuggested(s: State, suggested: Double, now: Instant): (State, Option<real>)
    requires Ok(s)
  {
    if !Positive(suggested) then (s, None)
    else if s.lastAdjustAt.Some? && TooSoon(s.config, now, s.lastAdjustAt.value) then (s, None)
    else
      var next := Quantize(s.config, SuggestedDifficulty(s.config, s.current, suggested.value));
      if RelativeDifference(next, s.current) < 0.01 then (s, None)
      else ApplyDifficulty(s.(ewma := None, lastAdjustAt := Some(now)), next, now)
  }

  /** A share just below the raised difficulty may still be credited at the previous one for a while. */
  function PreviousInGrace(s: State, now: Instant): Option<real> {
    if s.transitionUntil.Some? && now <= s.transitionUntil.value && s.previous.Some? && s.previous.value < s.current
    then s.previous else None
  }

  // ---------------------------------------------------------------- what every state satisfies

  predicate InBand(c: Config, ewma: real) {
    0.05 <= ewma <= c.targetShareSecs as real * 4.0
  }

  predicate Ok(s: State) {
    && ConfigOk(s.config)
    && Whole(s.current) && s.config.min <= s.current <= s.config.max
    && (s.ewma.Some? ==> InBand(s.config, s.ewma.value))
  }

  /** The average of two values in the band is in the band. */
  lemma AverageInRange(c: Config, ewma: Option<real>, elapsed: real)
    requires ConfigOk(c) && InBand(c, elapsed) && (ewma.Some? ==> InBand(c, ewma.value))
    ensures InBand(c, Average(c, ewma, elapsed))
  {
    if ewma.Some? {
      var hi := c.targetShareSecs as real * 4.0;
      Between(c.ewmaAlpha, elapsed, ewma.value, 0.05, hi, Average(c, ewma, elapsed));
    }
  }

  lemma Between(a: real, x: real, y: real, lo: real, hi: real, mean: real)
    requires 0.0 <= a <= 1.0 && lo <= x <= hi && lo <= y <= hi && mean == a * x + (1.0 - a) * y
    ensures lo <= mean <= hi
  {
    Offset(a, x, y, lo, mean);
    Offset(a, x, y, hi, mean);
    NonNegative(a, x - lo);
    NonNegative(1.0 - a, y - lo);
    NonNegative(a, hi - x);
    NonNegative(1.0 - a, hi - y);
  }

  /** The mean measured from any point `z`. */
  lemma Offset(a: real, x: real, y: real, z: real, mean: real)
    requires mean == a * x + (1.0 - a) * y
    ensures mean - z == a * (x - z) + (1.0 - a) * (y - z)
    ensures z - mean == a * (z - x) + (1.0 - a) * (z - y)
  {
  }

  lemma NonNegative(p: real, q: real)
    requires p >= 0.0 && q >= 0.0
    ensures p * q >= 0.0
  {
  }

  /** One step from `current`: between a factor down and a factor up, after rounding. */
  predicate OneStep(c: Config, current: real, next: real)
    requires c.maxAdjustFactor != 0.0
  {
    Round(current / c.maxAdjustFactor) as real <= next <= Round(current * c.maxAdjustFactor) as real
  }

  /** Rounding a value between two whole bounds stays between them, and between the rounded step limits. */
  lemma RoundStays(min: real, max: real, lo: real, hi: real, x: real)
    requires Whole(min) && Whole(max) && min <= x <= max && lo <= x <= hi
    ensures min <= Round(x) as real <= max
    ensures Round(lo) as real <= Round(x) as real <= Round(hi) as real
    ensures Whole(Round(x) as real)
  {
    WholeStays(min);
    WholeStays(max);
    RoundMonotone(min, x);
    RoundMonotone(x, max);
    RoundMonotone(lo, x);
    RoundMonotone(x, hi);
  }

  lemma QuantizeStays(c: Config, current: real, x: real)
    requires ConfigOk(c) && InStep(c, current, x)
    ensures Whole(Quantize(c, x)) && c.min <= Quantize(c, x) <= c.max && OneStep(c, current, Quantize(c, x))
    ensures Quantize(c, Quantize(c, x)) == Quantize(c, x)
  {
    RoundStays(c.min, c.max, current / c.maxAdjustFactor, current * c.maxAdjustFactor, x);
    WholeStays(Quantize(c, x));
  }

  /** `x` is within the configured bounds and within one step of `current`. */
  predicate InStep(c: Config, current: real, x: real)
    requires c.maxAdjustFactor != 0.0
  {
    c.min <= x <= c.max && current / c.maxAdjustFactor <= x <= current * c.maxAdjustFactor
  }

  lemma ClampInStep(c: Config, current: real, x: real)
    requires ConfigOk(c) && c.min <= current <= c.max
    requires current / c.maxAdjustFactor <= x <= current * c.maxAdjustFactor
    ensures InStep(c, current, Clamp(x, c.min, c.max))
  {
    StepBounds(current, c.maxAdjustFactor);
  }

  lemma PacedInStep(c: Config, current: real, factor: real)
    requires ConfigOk(c) && c.min <= current <= c.max && 1.0 / c.maxAdjustFactor <= factor <= c.maxAdjustFactor
    ensures InStep(c, current, PacedDifficulty(c, current, factor))
  {
    MulOrder(current, 1.0 / c.maxAdjustFactor, factor);
    MulOrder(current, factor, c.maxAdjustFactor);
    assert current * (1.0 / c.maxAdjustFactor) == current / c.maxAdjustFactor;
    ClampInStep(c, current, current * factor);
  }

  lemma SuggestedInStep(c: Config, current: real, suggested: real)
    requires ConfigOk(c) && c.min <= current <= c.max
    ensures InStep(c, current, SuggestedDifficulty(c, current, suggested))
  {
    StepBounds(current, c.maxAdjustFactor);
    var lo, hi := current / c.maxAdjustFactor, current * c.maxAdjustFactor;
    ClampInStep(c, current, Clamp(Clamp(suggested, c.min, c.max), lo, hi));
  }

  /** What one call may change: the difficulty by at most one step, and only when the last change is old enough. */
  predicate Adjusts(s: State, r: (State, Option<real>), now: Instant)
    requires Ok(s)
  {
    && Ok(r.0) && r.0.config == s.config
    && (r.1.None? ==> r.0.current == s.current && r.0.previous == s.previous
                      && r.0.transitionUntil == s.transitionUntil
                      && (r.0.lastAdjustAt == s.lastAdjustAt || r.0.lastAdjustAt == Some(now)))
    && (r.1.Some? ==>
          && r.1 == Some(r.0.current) && r.0.current != s.current
          && OneStep(s.config, s.current, r.0.current)
          && r.0.lastAdjustAt == Some(now)
          && r.0.previous == Some(s.current)
          && r.0.transitionUntil == Some(now + s.config.graceSecs * NANOS_PER_SEC)
          && (s.lastAdjustAt.Some? ==> !TooSoon(s.config, now, s.lastAdjustAt.value)))
  }

  lemma FactorInRange(c: Config, ewma: real)
    requires ConfigOk(c) && ewma > 0.0 && DesiredFactor(c, ewma).Some?
    ensures 1.0 / c.maxAdjustFactor <= DesiredFactor(c, ewma).value <= c.maxAdjustFactor
  {
    InverseAtMostOne(c.maxAdjustFactor);
  }

  /** Applying a value that is one legal step away is an adjustment, or nothing when it is too close. */
  lemma ApplyAdjusts(s: State, x: real, now: Instant)
    requires Ok(s) && InStep(s.config, s.current, x)
    ensures var q := Quantize(s.config, x);
      var r := ApplyDifficulty(s, q, now);
      if RelativeDifference(q, s.current) < 0.01 then r == (s, None)
      else
        && r.1 == Some(q) && q != s.current && OneStep(s.config, s.current, q)
        && Whole(q) && s.config.min <= q <= s.config.max
        && r.0 == s.(previous := Some(s.current), current := q, lastAdjustAt := Some(now),
                     transitionUntil := Some(now + s.config.graceSecs * NANOS_PER_SEC))
  {
    QuantizeStays(s.config, s.current, x);
  }

  lemma ShareAdjusts(s: State, now: Instant)
    requires Ok(s)
    ensures Adjusts(s, RecordAcceptedShare(s, now), now)
  {
    if s.lastShareAt.Some? {
      var elapsed := ElapsedSecs(s.config, now, s.lastShareAt.value);
      var ewma := Average(s.config, s.ewma, elapsed);
      AverageInRange(s.config, s.ewma, elapsed);
      var lastAdjust := if s.lastAdjustAt.Some? then s.lastAdjustAt.value else now;
      var s1 := s.(lastShareAt := Some(now), ewma := Some(ewma), lastAdjustAt := Some(lastAdjust));
      var factor := DesiredFactor(s.config, ewma);
      if factor.Some? {
        FactorInRange(s.config, ewma);
        PacedInStep(s.config, s.current, factor.value);
        ApplyAdjusts(s1, PacedDifficulty(s.config, s.current, factor.value), now);
      }
    }
  }

  lemma SuggestionAdjusts(s: State, suggested: Double, now: Instant)
    requires Ok(s)
    ensures Adjusts(s, ApplySuggested(s, suggested, now), now)
  {
    if Positive(suggested) {
      SuggestedInStep(s.config, s.current, suggested.value);
      ApplyAdjusts(s.(ewma := None, lastAdjustAt := Some(now)),
                   SuggestedDifficulty(s.config, s.current, suggested.value), now);
    }
  }

  /** Rounding and bounding never cross a legal whole value. */
  lemma QuantizeOrder(c: Config, current: real, x: real)
    requires ConfigOk(c) && Whole(current) && c.min <= current <= c.max
    ensures current <= x ==> current <= Quantize(c, x)
    ensures x <= current ==> Quantize(c, x) <= current
  {
    WholeStays(current);
    if current <= x {
      RoundMonotone(current, x);
    }
    if x <= current {
      RoundMonotone(x, current);
    }
  }

  /** What an accepted share that changes the difficulty computed on the way. */
  lemma ShareChange(s: State, now: Instant) returns (ewma: real, factor: real)
    requires Ok(s) && RecordAcceptedShare(s, now).1.Some?
    ensures ewma > 0.0 && DesiredFactor(s.config, ewma) == Some(factor)
    ensures var next := RecordAcceptedShare(s, now).0;
      next.ewma == Some(ewma) && next.current != s.current
      && next.current == Quantize(s.config, PacedDifficulty(s.config, s.current, factor))
  {
    var elapsed := ElapsedSecs(s.config, now, s.lastShareAt.value);
    ewma := Average(s.config, s.ewma, elapsed);
    AverageInRange(s.config, s.ewma, elapsed);
    factor := DesiredFactor(s.config, ewma).value;
    var lastAdjust := if s.lastAdjustAt.Some? then s.lastAdjustAt.value else now;
    var s1 := s.(lastShareAt := Some(now), ewma := Some(ewma), lastAdjustAt := Some(lastAdjust));
    FactorInRange(s.config, ewma);
    PacedInStep(s.config, s.current, factor);
    ApplyAdjusts(s1, PacedDifficulty(s.config, s.current, factor), now);
  }

  /** Bounding never crosses a value within the bounds. */
  lemma ClampOrder(x: real, lo: real, hi: real, within: real)
    requires lo <= within <= hi
    ensures within <= x ==> within <= Clamp(x, lo, hi)
    ensures x <= within ==> Clamp(x, lo, hi) <= within
  {
  }

  lemma ScaledOrder(current: real, factor: real, scaled: real)
    requires current >= 0.0 && scaled == current * factor
    ensures factor >= 1.0 ==> current <= scaled
    ensures factor <= 1.0 ==> scaled <= current
  {
    if factor >= 1.0 {
      MulOrder(current, 1.0, factor);
    }
    if factor <= 1.0 {
      MulOrder(current, factor, 1.0);
    }
  }

  lemma PacedOrder(c: Config, current: real, factor: real)
    requires ConfigOk(c) && c.min <= current <= c.max
    ensures factor >= 1.0 ==> current <= PacedDifficulty(c, current, factor)
    ensures factor <= 1.0 ==> PacedDifficulty(c, current, factor) <= current
  {
    ScaledOrder(current, factor, current * factor);
    ClampOrder(current * factor, c.min, c.max, current);
  }

  lemma FactorSide(c: Config, ewma: real)
    requires ConfigOk(c) && ewma > 0.0 && DesiredFactor(c, ewma).Some?
    ensures var target := c.targetShareSecs as real;
      if ewma < target * c.raiseRatio then DesiredFactor(c, ewma).value >= 1.0
      else ewma > target * c.lowerRatio && DesiredFactor(c, ewma).value <= 1.0
  {
    InverseAtMostOne(c.maxAdjustFactor);
  }

  /** Shares that come too fast raise the difficulty, shares that come too slowly lower it, and nothing else changes it. */
  lemma ShareFollowsPace(s: State, now: Instant)
    requires Ok(s) && RecordAcceptedShare(s, now).1.Some?
    ensures RecordAcceptedShare(s, now).0.ewma.Some?
    ensures Follows(s.config, s.current, RecordAcceptedShare(s, now).0.ewma.value, RecordAcceptedShare(s, now).0.current)
  {
    var ewma, factor := ShareChange(s, now);
    FactorFollows(s.config, s.current, ewma, factor);
  }

  predicate Follows(c: Config, current: real, ewma: real, next: real) {
    var target := c.targetShareSecs as real;
    if ewma < target * c.raiseRatio then next > current else ewma > target * c.lowerRatio && next < current
  }

  lemma FactorFollows(c: Config, current: real, ewma: real, factor: real)
    requires ConfigOk(c) && Whole(current) && c.min <= current <= c.max
    requires ewma > 0.0 && DesiredFactor(c, ewma) == Some(factor)
    requires Quantize(c, PacedDifficulty(c, current, factor)) != current
    ensures Follows(c, current, ewma, Quantize(c, PacedDifficulty(c, current, factor)))
  {
    FactorSide(c, ewma);
    PacedOrder(c, current, factor);
    QuantizeOrder(c, current, PacedDifficulty(c, current, factor));
  }

  lemma ClampsOrder(x: real, min: real, max: real, lo: real, hi: real, within: real)
    requires min <= within <= max && lo <= within <= hi
    ensures x <= within ==> Bounded(x, min, max, lo, hi) <= within
    ensures within <= x ==> within <= Bounded(x, min, max, lo, hi)
  {
    ClampOrder(x, min, max, within);
    ClampOrder(Clamp(x, min, max), lo, hi, within);
    ClampOrder(Clamp(Clamp(x, min, max), lo, hi), min, max, within);
  }

  /** A suggestion that changes the difficulty moves it towards the suggested value. */
  lemma SuggestionIsFollowed(s: State, suggested: Double, now: Instant)
    requires Ok(s) && ApplySuggested(s, suggested, now).1.Some?
    ensures Positive(suggested)
    ensures var next := ApplySuggested(s, suggested, now).0.current;
      (next > s.current && suggested.value > s.current) || (next < s.current && suggested.value < s.current)
  {
    var x := SuggestedDifficulty(s.config, s.current, suggested.value);
    SuggestedInStep(s.config, s.current, suggested.value);
    ApplyAdjusts(s.(ewma := None, lastAdjustAt := Some(now)), x, now);
    QuantizeOrder(s.config, s.current, x);
  }

  // ---------------------------------------------------------------- what each call computes

  function MinReal(a: real, b: real): real {
    if a <= b then a else b
  }

  /** `n` is the whole number nearest to `x`, upwards from halves. */
  predicate Nearest(n: real, x: real) {
    Whole(n) && n - 0.5 <= x < n + 0.5
  }

  lemma RoundIsNearest(x: real)
    ensures Nearest(Round(x) as real, x)
  {
    var n := Round(x);
    assert n as real <= x + 0.5 < n as real + 1.0;
  }

  predicate AboveZero(d: Double) {
    !d.NotFinite? && 0.0 < d.value
  }

  /** `field` is the raw value wherever that is valid, and the default otherwise. */
  predicate Repaired(field: real, raw: Double, valid: bool, default_: real) {
    field == if valid && raw.Finite? then raw.value else default_
  }

  /**
   Normalizing keeps every valid field and repairs the others: bounds are rounded inwards to whole numbers, the initial
   difficulty to the nearest one between them.
   */
  lemma NormalizedRepairs(c: RawConfig)
    ensures var r := Normalized(c);
      && (if AboveZero(c.min) then Whole(r.min) && c.min.value <= r.min < c.min.value + 1.0 else r.min == 1.0)
      && (if c.max.Finite? && c.max.value >= r.min then Whole(r.max) && r.max <= c.max.value < r.max + 1.0
          else r.max == r.min)
      && (if !AboveZero(c.initial) || c.initial.value <= r.min then r.initial == r.min
          else if c.initial.value >= r.max then r.initial == r.max else Nearest(r.initial, c.initial.value))
    ensures var r := Normalized(c);
      && r.targetShareSecs == (if c.targetShareSecs > 0 then c.targetShareSecs else 20)
      && r.minAdjustSecs == (if c.minAdjustSecs > 0 then c.minAdjustSecs else 120)
      && r.graceSecs == (if c.graceSecs > 0 then c.graceSecs else 120)
      && Repaired(r.ewmaAlpha, c.ewmaAlpha, c.ewmaAlpha.Finite? && 0.0 < c.ewmaAlpha.value <= 1.0, 0.25)
      && Repaired(r.raiseRatio, c.raiseRatio, c.raiseRatio.Finite? && 0.0 <= c.raiseRatio.value < 1.0, 0.7)
      && Repaired(r.lowerRatio, c.lowerRatio, c.lowerRatio.Finite? && c.lowerRatio.value > 1.0, 1.4)
      && Repaired(r.maxAdjustFactor, c.maxAdjustFactor, c.maxAdjustFactor.Finite? && c.maxAdjustFactor.value >= 1.0, 2.0)
  {
    var r := Normalized(c);
    WholeStays(r.min);
    WholeStays(r.max);
    if Positive(c.initial) {
      RoundIsNearest(c.initial.value);
      InitialBounded(c.initial.value, r.min, r.max);
    }
  }

  lemma InitialBounded(x: real, min: real, max: real)
    requires Whole(min) && Whole(max) && min <= max
    ensures x <= min ==> Clamp(Round(x) as real, min, max) == min
    ensures x >= max ==> Clamp(Round(x) as real, min, max) == max
    ensures min < x < max ==> Clamp(Round(x) as real, min, max) == Round(x) as real
  {
    WholeStays(min);
    WholeStays(max);
    if x <= min {
      RoundMonotone(x, min);
    } else {
      RoundMonotone(min, x);
    }
    if x >= max {
      RoundMonotone(max, x);
    } else {
      RoundMonotone(x, max);
    }
  }

  /** The seconds between two shares, at least a twentieth and at most four target intervals. */
  function Gap(c: Config, last: Instant, now: Instant): real {
    MinReal(MaxReal((if now > last then now - last else 0) as real / 1_000_000_000.0, 0.05), 4.0 * c.targetShareSecs as real)
  }

  /**
   The average starts as the first gap between shares, and each further share moves it by the configured fraction of
   its distance to the new gap.
   */
  lemma ShareAverages(s: State, now: Instant) returns (gap: real, average: real)
    requires Ok(s)
    ensures s.lastShareAt.Some? ==> gap == Gap(s.config, s.lastShareAt.value, now)
    ensures s.lastShareAt.Some? ==> Averages(s.config, s.ewma, gap, average)
    ensures var y := RecordAcceptedShare(s, now).0;
      && y.lastShareAt == Some(now)
      && y.ewma == (if s.lastShareAt.Some? then Some(average) else s.ewma)
      && (s.lastShareAt.None? ==> y.lastAdjustAt == Some(now))
  {
    gap, average := 0.0, 0.0;
    if s.lastShareAt.Some? {
      gap := ElapsedSecs(s.config, now, s.lastShareAt.value);
      average := Average(s.config, s.ewma, gap);
      ElapsedIsGap(s.config, s.lastShareAt.value, now);
      AverageMoves(s.config, s.ewma, gap, average);
      ShareKeepsAverage(s, now);
    }
  }

  predicate Averages(c: Config, previous: Option<real>, gap: real, average: real) {
    match previous
    case None => average == gap
    case Some(p) => average - p == c.ewmaAlpha * (gap - p)
  }

  lemma ElapsedIsGap(c: Config, last: Instant, now: Instant)
    requires ConfigOk(c)
    ensures ElapsedSecs(c, now, last) == Gap(c, last, now)
  {
  }

  lemma AverageMoves(c: Config, ewma: Option<real>, gap: real, average: real)
    requires average == Average(c, ewma, gap)
    ensures Averages(c, ewma, gap, average)
  {
  }

  lemma ShareKeepsAverage(s: State, now: Instant)
    requires Ok(s) && s.lastShareAt.Some?
    ensures var y := RecordAcceptedShare(s, now).0;
      y.ewma == Some(Average(s.config, s.ewma, ElapsedSecs(s.config, now, s.lastShareAt.value))) && y.lastShareAt == Some(now)
  {
    var elapsed := ElapsedSecs(s.config, now, s.lastShareAt.value);
    AverageInRange(s.config, s.ewma, elapsed);
  }

  /** The last change is at least the configured time ago. */
  predicate OldEnough(s: State, now: Instant) {
    s.lastAdjustAt.Some? && Since(now, s.lastAdjustAt.value) >= s.config.minAdjustSecs * NANOS_PER_SEC
  }

  /** The difficulty at which shares would come at the target interval, as far as one step and the bounds allow. */
  function Ideal(c: Config, current: real, ewma: real): real
    requires ConfigOk(c) && ewma > 0.0
  {
    Within(c, current, Scaled(current, PaceRatio(c, ewma)), ewma < c.targetShareSecs as real)
  }

  function Scaled(current: real, factor: real): real {
    current * factor
  }

  /** How many times too fast shares come. */
  function PaceRatio(c: Config, ewma: real): real
    requires ewma > 0.0
  {
    c.targetShareSecs as real / ewma
  }

  /** `ideal`, which lies above or below the current difficulty, as far as one step and the bounds allow. */
  function Within(c: Config, current: real, ideal: real, above: bool): real
    requires ConfigOk(c)
  {
    if above then MinReal(ideal, MinReal(current * c.maxAdjustFactor, c.max))
    else MaxReal(ideal, MaxReal(current / c.maxAdjustFactor, c.min))
  }

  predicate OffPace(c: Config, ewma: real) {
    ewma < c.targetShareSecs as real * c.raiseRatio || ewma > c.targetShareSecs as real * c.lowerRatio
  }

  /** `change` is reported exactly if `next` differs from the current difficulty by one percent or more. */
  predicate Moves(s: State, next: real, y: State, change: Option<real>) {
    if Abs(next - s.current) >= 0.01 * s.current then change == Some(next) && y.current == next
    else change == None && y.current == s.current
  }

  /**
   What an accepted share does to the difficulty: it becomes the whole number nearest to the ideal one, exactly if the
   last change is old enough, the average is off the pace and the difference is at least one percent.
   */
  lemma ShareRetargets(s: State, now: Instant) returns (next: real)
    requires Ok(s) && s.lastShareAt.Some?
    ensures var (y, change) := RecordAcceptedShare(s, now);
      && y.ewma.Some? && y.ewma.value > 0.0
      && Nearest(next, Ideal(s.config, s.current, y.ewma.value))
      && if OldEnough(s, now) && OffPace(s.config, y.ewma.value) then Moves(s, next, y, change)
         else change == None && y.current == s.current
  {
    var ewma := Average(s.config, s.ewma, ElapsedSecs(s.config, now, s.lastShareAt.value));
    AverageInRange(s.config, s.ewma, ElapsedSecs(s.config, now, s.lastShareAt.value));
    ShareKeepsAverage(s, now);
    var ideal := Ideal(s.config, s.current, ewma);
    next := Round(ideal) as real;
    RoundIsNearest(ideal);
    if OldEnough(s, now) && OffPace(s.config, ewma) {
      ShareMoves(s, now, ewma, ideal, next);
    } else {
      ShareStays(s, now, ewma);
    }
  }

  lemma ShareStays(s: State, now: Instant, ewma: real)
    requires Ok(s) && s.lastShareAt.Some?
    requires ewma == Average(s.config, s.ewma, ElapsedSecs(s.config, now, s.lastShareAt.value)) > 0.0
    requires !OldEnough(s, now) || !OffPace(s.config, ewma)
    ensures RecordAcceptedShare(s, now).1 == None && RecordAcceptedShare(s, now).0.current == s.current
  {
    AverageInRange(s.config, s.ewma, ElapsedSecs(s.config, now, s.lastShareAt.value));
  }

  lemma ShareMoves(s: State, now: Instant, ewma: real, ideal: real, next: real)
    requires Ok(s) && s.lastShareAt.Some? && OldEnough(s, now)
    requires ewma == Average(s.config, s.ewma, ElapsedSecs(s.config, now, s.lastShareAt.value)) > 0.0
    requires OffPace(s.config, ewma) && InBand(s.config, ewma)
    requires ideal == Ideal(s.config, s.current, ewma) && next == Round(ideal) as real
    ensures Moves(s, next, RecordAcceptedShare(s, now).0, RecordAcceptedShare(s, now).1)
  {
    var s1 := s.(lastShareAt := Some(now), ewma := Some(ewma));
    var factor := PacedIsIdeal(s.config, s.current, ewma);
    FactorInRange(s.config, ewma);
    PacedInStep(s.config, s.current, factor);
    QuantizeIsRound(s.config, s.current, ideal);
    ShareApplies(s, now, ewma, factor, next);
    ApplyAdjusts(s1, ideal, now);
    OnePercent(next, s.current);
  }

  lemma ShareApplies(s: State, now: Instant, ewma: real, factor: real, next: real)
    requires Ok(s) && s.lastShareAt.Some? && OldEnough(s, now)
    requires ewma == Average(s.config, s.ewma, ElapsedSecs(s.config, now, s.lastShareAt.value)) > 0.0
    requires DesiredFactor(s.config, ewma) == Some(factor)
    requires next == Quantize(s.config, PacedDifficulty(s.config, s.current, factor))
    ensures var s1 := s.(lastShareAt := Some(now), ewma := Some(ewma));
      RecordAcceptedShare(s, now) ==
        if RelativeDifference(next, s.current) < 0.01 then (s1, None) else ApplyDifficulty(s1, next, now)
  {
    AverageInRange(s.config, s.ewma, ElapsedSecs(s.config, now, s.lastShareAt.value));
  }

  lemma ScaleLess(a: real, b: real, c: real, ac: real, bc: real)
    requires c > 0.0 && ac == a * c && bc == b * c
    ensures a < b <==> ac < bc
  {
    assert (b - a) * c == bc - ac;
    if a < b {
      assert (b - a) * c > 0.0;
    } else {
      MulOrder(c, b, a);
    }
  }

  lemma SmallQuotient(d: real, current: real, q: real, limit: real)
    requires current > 0.0 && q * current == d && limit == 0.01 * current
    ensures Abs(q) < 0.01 <==> Abs(d) < limit
  {
    var less, more := q < 0.01, -0.01 < q;
    assert less <==> d < limit by {
      ScaleLess(q, 0.01, current, d, limit);
    }
    assert more <==> -limit < d by {
      ScaleLess(-0.01, q, current, -limit, d);
    }
  }

  lemma OnePercent(next: real, current: real)
    requires current > 0.0
    ensures RelativeDifference(next, current) < 0.01 <==> Abs(next - current) < 0.01 * current
  {
    SmallQuotient(next - current, current, (next - current) / current, 0.01 * current);
  }

  lemma QuantizeIsRound(c: Config, current: real, x: real)
    requires ConfigOk(c) && InStep(c, current, x)
    ensures Quantize(c, x) == Round(x) as real
  {
    RoundStays(c.min, c.max, current / c.maxAdjustFactor, current * c.maxAdjustFactor, x);
  }

  lemma ScaledInverse(current: real, f: real)
    requires f > 0.0
    ensures current * (1.0 / f) == current / f
  {
    var r := 1.0 / f;
    assert r * f == 1.0;
    assert current * r * f == current;
  }

  lemma MinScaled(current: real, a: real, b: real)
    requires current > 0.0
    ensures current * MinReal(a, b) == MinReal(current * a, current * b)
    ensures current * MaxReal(a, b) == MaxReal(current * a, current * b)
  {
    if a <= b {
      MulOrder(current, a, b);
    } else {
      MulOrder(current, b, a);
    }
  }

  lemma QuotientAround(target: real, ewma: real)
    requires target > 0.0 && ewma > 0.0
    ensures if ewma < target then target / ewma > 1.0 else target / ewma <= 1.0
  {
    var q := target / ewma;
    assert q * ewma == target;
    if ewma < target {
      if q <= 1.0 {
        MulOrder(ewma, q, 1.0);
      }
    } else {
      ScaleLess(1.0, q, ewma, ewma, target);
    }
  }

  lemma FactorIs(c: Config, ewma: real) returns (q: real, inverse: real, above: bool)
    requires ConfigOk(c) && ewma > 0.0 && OffPace(c, ewma)
    ensures q == PaceRatio(c, ewma) && inverse == 1.0 / c.maxAdjustFactor && inverse <= 1.0
    ensures above <==> ewma < c.targetShareSecs as real
    ensures if above then q >= 1.0 else q <= 1.0
    ensures DesiredFactor(c, ewma) == Some(if above then MinReal(q, c.maxAdjustFactor) else MaxReal(q, inverse))
  {
    var target := c.targetShareSecs as real;
    q, inverse, above := target / ewma, 1.0 / c.maxAdjustFactor, ewma < target;
    MulOrder(target, c.raiseRatio, 1.0);
    MulOrder(target, 1.0, c.lowerRatio);
    QuotientAround(target, ewma);
    InverseAtMostOne(c.maxAdjustFactor);
  }

  lemma PacedIsIdeal(c: Config, current: real, ewma: real) returns (factor: real)
    requires ConfigOk(c) && c.min <= current <= c.max && ewma > 0.0 && OffPace(c, ewma)
    ensures DesiredFactor(c, ewma) == Some(factor) && PacedDifficulty(c, current, factor) == Ideal(c, current, ewma)
  {
    var q, inverse, above := FactorIs(c, ewma);
    factor := if above then MinReal(q, c.maxAdjustFactor) else MaxReal(q, inverse);
    var x, limit := Scaled(current, q), current / c.maxAdjustFactor;
    ScaledIs(current, q, x);
    InverseLimit(c, current, inverse, limit);
    IdealIs(c, current, ewma, q, x, limit, above);
    if above {
      PacedUp(c, current, q, x);
    } else {
      PacedDown(c, current, q, x, inverse, limit);
    }
  }

  lemma ScaledIs(current: real, q: real, x: real)
    requires x == Scaled(current, q)
    ensures x == current * q
  {
  }

  lemma IdealIs(c: Config, current: real, ewma: real, q: real, x: real, limit: real, above: bool)
    requires ConfigOk(c) && ewma > 0.0 && q == PaceRatio(c, ewma) && (above <==> ewma < c.targetShareSecs as real)
    requires x == Scaled(current, q) && limit == current / c.maxAdjustFactor
    ensures Ideal(c, current, ewma) ==
              if above then MinReal(x, MinReal(current * c.maxAdjustFactor, c.max)) else MaxReal(x, MaxReal(limit, c.min))
  {
  }

  lemma InverseLimit(c: Config, current: real, inverse: real, limit: real)
    requires ConfigOk(c) && inverse == 1.0 / c.maxAdjustFactor && limit == current / c.maxAdjustFactor
    ensures limit == current * inverse
  {
    ScaledInverse(current, c.maxAdjustFactor);
  }

  lemma PacedUp(c: Config, current: real, q: real, x: real)
    requires ConfigOk(c) && c.min <= current <= c.max && q >= 1.0 && x == current * q
    ensures PacedDifficulty(c, current, MinReal(q, c.maxAdjustFactor)) == MinReal(x, MinReal(current * c.maxAdjustFactor, c.max))
  {
    MinScaled(current, q, c.maxAdjustFactor);
    ScaledOrder(current, q, x);
    ScaledOrder(current, c.maxAdjustFactor, current * c.maxAdjustFactor);
    ClampAbove(current, x, current * c.maxAdjustFactor, c.min, c.max);
  }

  lemma PacedDown(c: Config, current: real, q: real, x: real, inverse: real, limit: real)
    requires ConfigOk(c) && c.min <= current <= c.max && q <= 1.0 && inverse <= 1.0
    requires x == current * q && limit == current * inverse
    ensures PacedDifficulty(c, current, MaxReal(q, inverse)) == MaxReal(x, MaxReal(limit, c.min))
  {
    BothBelow(current, q, x, inverse, limit);
    MinScaled(current, q, inverse);
    PacedAt(c, current, MaxReal(q, inverse), MaxReal(x, limit));
    ClampBelow(current, x, limit, c.min, c.max);
  }

  lemma PacedAt(c: Config, current: real, factor: real, scaled: real)
    requires ConfigOk(c) && scaled == current * factor
    ensures PacedDifficulty(c, current, factor) == Clamp(scaled, c.min, c.max)
  {
  }

  lemma BothBelow(current: real, q: real, x: real, inverse: real, limit: real)
    requires current >= 0.0 && q <= 1.0 && inverse <= 1.0 && x == current * q && limit == current * inverse
    ensures x <= current && limit <= current
  {
    ScaledOrder(current, q, x);
    ScaledOrder(current, inverse, limit);
  }

  lemma ClampAbove(current: real, x: real, limit: real, min: real, max: real)
    requires min <= current <= max && current <= x && current <= limit
    ensures Clamp(MinReal(x, limit), min, max) == MinReal(x, MinReal(limit, max))
  {
  }

  lemma ClampBelow(current: real, x: real, limit: real, min: real, max: real)
    requires min <= current <= max && x <= current && limit <= current
    ensures Clamp(MaxReal(x, limit), min, max) == MaxReal(x, MaxReal(limit, min))
  {
  }

  /** The difficulty nearest to the suggested one that one step and the bounds allow. */
  function Admissible(c: Config, current: real, suggested: real): real
    requires ConfigOk(c)
  {
    MaxReal(MaxReal(c.min, current / c.maxAdjustFactor), MinReal(suggested, MinReal(c.max, current * c.maxAdjustFactor)))
  }

  /**
   What a suggestion does: nothing if it is not a positive number or comes too soon; otherwise the difficulty becomes
   the whole number nearest to the admissible one, if that differs by at least one percent, and the average is dropped.
   */
  lemma SuggestionRetargets(s: State, suggested: Double, now: Instant) returns (next: real)
    requires Ok(s)
    ensures var (y, change) := ApplySuggested(s, suggested, now);
      if !AboveZero(suggested) || (s.lastAdjustAt.Some? && !OldEnough(s, now)) then y == s && change == None
      else
        && Nearest(next, Admissible(s.config, s.current, suggested.value)) && Moves(s, next, y, change)
        && (change.None? ==> y == s) && (change.Some? ==> y.ewma == None && y.lastShareAt == s.lastShareAt)
  {
    next := s.current;
    if Positive(suggested) && (s.lastAdjustAt.None? || OldEnough(s, now)) {
      var x := SuggestedDifficulty(s.config, s.current, suggested.value);
      StepBounds(s.current, s.config.maxAdjustFactor);
      assert x == Admissible(s.config, s.current, suggested.value);
      SuggestedInStep(s.config, s.current, suggested.value);
      QuantizeIsRound(s.config, s.current, x);
      ApplyAdjusts(s.(ewma := None, lastAdjustAt := Some(now)), x, now);
      next := Round(x) as real;
      RoundIsNearest(x);
      OnePercent(next, s.current);
    }
  }

  // ---------------------------------------------------------------- runs

  datatype Change = Change(at: Instant, from: real, to: real)
  datatype World = World(state: State, clock: Instant, changes: seq<Change>)
  datatype Action = Share(at: Instant) | Suggest(at: Instant, difficulty: Double)

  function Act(s: State, a: Action): (State, Option<real>)
    requires Ok(s)
  {
    match a
    case Share(at) => RecordAcceptedShare(s, at)
    case Suggest(at, d) => ApplySuggested(s, d, at)
  }

  function Next(w: World, a: Action): World
    requires Ok(w.state)
  {
    var (s, change) := Act(w.state, a);
    World(s, a.at, if change.Some? then w.changes + [Change(a.at, w.state.current, s.current)] else w.changes)
  }

  predicate Spaced(c: Config, changes: seq<Change>) {
    forall i, j :: 0 <= i < j < |changes| ==> changes[j].at - changes[i].at >= c.minAdjustSecs * NANOS_PER_SEC
  }

  predicate Stepped(c: Config, changes: seq<Change>)
    requires ConfigOk(c)
  {
    forall i :: 0 <= i < |changes| ==> OneStep(c, changes[i].from, changes[i].to)
  }

  predicate Inv(w: World) {
    && Ok(w.state)
    && (w.state.lastAdjustAt.Some? ==> w.state.lastAdjustAt.value <= w.clock)
    && (w.changes != [] ==> w.state.lastAdjustAt.Some?)
    && (forall i :: 0 <= i < |w.changes| ==> w.changes[i].at <= w.state.lastAdjustAt.value)
    && Spaced(w.state.config, w.changes)
    && Stepped(w.state.config, w.changes)
  }

  lemma StepKeeps(w: World, a: Action)
    requires Inv(w) && w.clock <= a.at
    ensures Inv(Next(w, a)) && Next(w, a).state.config == w.state.config
  {
    match a
    case Share(at) => ShareAdjusts(w.state, at);
    case Suggest(at, d) => SuggestionAdjusts(w.state, d, at);
  }

  /** Time never runs backwards along a run. */
  ghost predicate Reaches(w: World, actions: seq<Action>, w': World)
    requires Inv(w)
    decreases |actions|
  {
    if actions == [] then w' == w
    else
      && w.clock <= actions[0].at
      && (StepKeeps(w, actions[0]); Reaches(Next(w, actions[0]), actions[1..], w'))
  }

  function Start(raw: RawConfig, now: Instant): (w: World)
    ensures Inv(w)
  {
    World(NewState(raw), now, [])
  }

  lemma {:induction false} RunKeeps(w: World, actions: seq<Action>, w': World)
    requires Inv(w) && Reaches(w, actions, w')
    ensures Inv(w') && w'.state.config == w.state.config
    decreases |actions|
  {
    if actions != [] {
      StepKeeps(w, actions[0]);
      RunKeeps(Next(w, actions[0]), actions[1..], w');
    }
  }

  /**
   Over every run with time moving forward, from any configuration whatever: the difficulty stays a whole number
   within its bounds, the average stays in its band, any two changes are at least the minimum time apart, and
   each change is at most one step.
   */
  lemma EveryRunIsBounded(raw: RawConfig, now: Instant, actions: seq<Action>, w: World)
    requires Reaches(Start(raw, now), actions, w)
    ensures var c := Normalized(raw);
      && Whole(w.state.current) && c.min <= w.state.current <= c.max
      && (w.state.ewma.Some? ==> InBand(c, w.state.ewma.value))
      && Spaced(c, w.changes) && Stepped(c, w.changes)
  {
    RunKeeps(Start(raw, now), actions, w);
  }

  /** The difficulty and what is remembered of the previous one are those of the latest change. */
  predicate Remembers(w: World) {
    if w.changes == [] then w.state.previous == None && w.state.transitionUntil == None
    else
      var last := w.changes[|w.changes| - 1];
      && w.state.previous == Some(last.from) && w.state.current == last.to
      && w.state.transitionUntil == Some(last.at + w.state.config.graceSecs * NANOS_PER_SEC)
  }

  lemma StepRemembers(w: World, a: Action)
    requires Ok(w.state) && Remembers(w)
    ensures Remembers(Next(w, a))
  {
    match a
    case Share(at) => ShareAdjusts(w.state, at);
    case Suggest(at, d) => SuggestionAdjusts(w.state, d, at);
  }

  lemma {:induction false} RunRemembers(w: World, actions: seq<Action>, w': World)
    requires Inv(w) && Remembers(w) && Reaches(w, actions, w')
    ensures Remembers(w') && w'.state.config == w.state.config
    decreases |actions|
  {
    if actions != [] {
      StepKeeps(w, actions[0]);
      StepRemembers(w, actions[0]);
      RunRemembers(Next(w, actions[0]), actions[1..], w');
    }
  }

  /**
   In every run the previous difficulty is still credited exactly while the latest change was an increase and its grace
   period has not passed, and it is the difficulty before that change.
   */
  lemma GraceIsLatestIncrease(raw: RawConfig, now: Instant, actions: seq<Action>, w: World, at: Instant, d: real)
    requires Reaches(Start(raw, now), actions, w)
    ensures PreviousInGrace(w.state, at) == Some(d) <==>
              && w.changes != []
              && var last := w.changes[|w.changes| - 1];
              d == last.from < last.to && at <= last.at + Normalized(raw).graceSecs * 1_000_000_000
  {
    RunRemembers(Start(raw, now), actions, w);
  }
}
