/** Takeoff levelling: the attitude captured on the ground fades out of the target at a fixed rate. */
module TakeoffLeveling {
  import opened Counters

  const MAXIMUM_RATE: nat := 2000

  datatype EasyMode = EasyMode(armedIdle: nat, activation: nat, rate: nat, enabled: bool)
  {
    predicate Valid() {
      0 < armedIdle < 1000 && 0 < activation < 1000 && 0 < rate <= MAXIMUM_RATE
    }
  }

  datatype Stage = LevelingDisabled | LevelingCapturing | LevelingActive | LevelingComplete | LevelingFrozen

  datatype Leveling = Leveling(
    rollOffset: real, pitchOffset: real, effectiveRoll: real, effectivePitch: real, lastAt: uint64, stage: Stage)

  /** One control sample: throttle, what the pilot asks for, and the measured attitude. */
  datatype Sample = Sample(
    throttle: real, pilotRoll: real, pilotPitch: real, measuredRoll: real, measuredPitch: real, at: uint64)

  function MoveTowardZero(value: real, change: real): (r: real) {
    if value > change then value - change else if value < -change then value + change else 0.0
  }

  /** How far the target may move in a time, at tenths of a degree per second. */
  function Change(rate: nat, elapsed: nat): (c: real) {
    rate as real / 10.0 * elapsed as real / 1000000.0
  }

  const Fresh: Leveling := Leveling(0.0, 0.0, 0.0, 0.0, 0, LevelingDisabled)

  function Reset(config: EasyMode): (l: Leveling) {
    Fresh.(stage := if config.enabled then LevelingCapturing else LevelingDisabled)
  }

  function Completed(l: Leveling, pilotRoll: real, pilotPitch: real): (r: Leveling) {
    l.(rollOffset := 0.0, pitchOffset := 0.0, effectiveRoll := pilotRoll, effectivePitch := pilotPitch,
       stage := LevelingComplete)
  }

  function Entered(l: Leveling, config: EasyMode, s: Sample): (r: Leveling) {
    if !config.enabled then Completed(l, s.pilotRoll, s.pilotPitch)
    else if l.stage == LevelingDisabled then Reset(config)
    else l
  }

  /** While capturing, the offset follows the measured attitude; the first positive throttle freezes it. */
  function Captured(l: Leveling, s: Sample): (r: Leveling) {
    if l.stage != LevelingCapturing then l
    else
      l.(rollOffset := s.measuredRoll - s.pilotRoll, pitchOffset := s.measuredPitch - s.pilotPitch, lastAt := s.at,
         stage := if s.throttle > 0.0 then LevelingActive else LevelingCapturing)
  }

  function Faded(l: Leveling, config: EasyMode, s: Sample): (r: Leveling) {
    if l.stage != LevelingActive || s.throttle <= 0.0 || s.at <= l.lastAt then l
    else
      var change := Change(config.rate, s.at - l.lastAt);
      var roll, pitch := MoveTowardZero(l.rollOffset, change), MoveTowardZero(l.pitchOffset, change);
      l.(rollOffset := roll, pitchOffset := pitch, lastAt := s.at,
         stage := if roll == 0.0 && pitch == 0.0 then LevelingComplete else LevelingActive)
  }

  function Targeted(l: Leveling, s: Sample): (r: Leveling) {
    l.(effectiveRoll := s.pilotRoll + l.rollOffset, effectivePitch := s.pilotPitch + l.pitchOffset)
  }

  predicate SampleUsable(config: EasyMode, s: Sample) {
    config.Valid() && 0.0 <= s.throttle <= 1.0
  }

  /** One sample; None where the firmware reports failure. */
  function Apply(l: Leveling, config: EasyMode, s: Sample): (r: Option<Leveling>) {
    if !SampleUsable(config, s) then None
    else Some(Targeted(Faded(Captured(Entered(l, config, s), s), config, s), s))
  }

  /* ---------------- fading depends only on the time since capture ---------------- */

  lemma MovesCompose(value: real, a: real, b: real)
    requires a >= 0.0 && b >= 0.0
    ensures MoveTowardZero(MoveTowardZero(value, a), b) == MoveTowardZero(value, a + b)
  {
  }

  /** Moving never overshoots: the result is between the value and zero, and more change moves further. */
  lemma MoveShrinks(value: real, a: real, b: real)
    requires 0.0 <= a <= b
    ensures value >= 0.0 ==> 0.0 <= MoveTowardZero(value, b) <= MoveTowardZero(value, a) <= value
    ensures value <= 0.0 ==> value <= MoveTowardZero(value, a) <= MoveTowardZero(value, b) <= 0.0
  {
  }

  lemma ChangesAdd(rate: nat, a: nat, b: nat)
    ensures Change(rate, a) + Change(rate, b) == Change(rate, a + b)
    ensures Change(rate, a) >= 0.0 && Change(rate, 0) == 0.0
  {
    var r := rate as real / 10.0;
    assert r * (a + b) as real == r * a as real + r * b as real;
    assert r * a as real >= 0.0;
    assert r * 0 as real == 0.0;
  }

  /** The latest positive-throttle sample after the capture. */
  function Horizon(captured: uint64, samples: seq<Sample>): (t: uint64)
    ensures t >= captured
    decreases |samples|
  {
    if samples == [] then captured
    else
      var before := Horizon(captured, samples[..|samples| - 1]);
      var last := samples[|samples| - 1];
      if last.throttle > 0.0 && last.at > before then last.at else before
  }

  function ApplyAll(l: Leveling, config: EasyMode, samples: seq<Sample>): (r: Leveling)
    decreases |samples|
  {
    if samples == [] then l
    else
      var before := ApplyAll(l, config, samples[..|samples| - 1]);
      var next := Apply(before, config, samples[|samples| - 1]);
      if next.None? then before else next.value
  }

  /** A levelling that has just captured its reference at a positive throttle. */
  predicate JustCaptured(l: Leveling, roll: real, pitch: real, at: uint64) {
    l.stage == LevelingActive && l.rollOffset == roll && l.pitchOffset == pitch && l.lastAt == at
  }

  /** Where the offsets are for a given elapsed time since capture, and whether levelling is done. */
  predicate FadedTo(l: Leveling, roll: real, pitch: real, rate: nat, elapsed: nat) {
    var change := Change(rate, elapsed);
    && l.rollOffset == MoveTowardZero(roll, change) && l.pitchOffset == MoveTowardZero(pitch, change)
    && (l.stage == LevelingComplete <==> elapsed > 0 && l.rollOffset == 0.0 && l.pitchOffset == 0.0)
    && (l.stage == LevelingComplete || l.stage == LevelingActive)
  }

  lemma {:induction false} FadeStep(l: Leveling, config: EasyMode, s: Sample, roll: real, pitch: real, at: uint64,
          horizon: uint64)
    requires SampleUsable(config, s) && config.enabled && at <= horizon
    requires FadedTo(l, roll, pitch, config.rate, horizon - at) && (l.stage == LevelingActive ==> l.lastAt == horizon)
    ensures var r := Apply(l, config, s).value;
            var next := if s.throttle > 0.0 && s.at > horizon then s.at else horizon;
            FadedTo(r, roll, pitch, config.rate, next - at) && (r.stage == LevelingActive ==> r.lastAt == next)
  {
    hide Change, MoveTowardZero;
    if s.throttle > 0.0 && s.at > horizon {
      var a, b := Change(config.rate, horizon - at), Change(config.rate, s.at - horizon);
      ChangesAdd(config.rate, horizon - at, s.at - horizon);
      ChangesAdd(config.rate, s.at - horizon, 0);
      MovesCompose(roll, a, b);
      MovesCompose(pitch, a, b);
      ZeroStays(b);
    }
  }

  /** What is left of an offset after a time at tenths of a degree per second: as much less, and at least nothing. */
  predicate Remaining(from: real, rate: nat, elapsed: nat, left: real) {
    var gone := rate as real * elapsed as real / 10000000.0;
    && (from >= 0.0 ==> left == if from > gone then from - gone else 0.0)
    && (from <= 0.0 ==> left == if -from > gone then from + gone else 0.0)
  }

  lemma MovesAtTheRate(value: real, rate: nat, elapsed: nat)
    ensures Remaining(value, rate, elapsed, MoveTowardZero(value, Change(rate, elapsed)))
  {
    var r, e := rate as real, elapsed as real;
    ChangesAdd(rate, elapsed, 0);
    assert r / 10.0 * e / 1000000.0 == r * e / 10000000.0 by { Rearranged(r, e); }
  }

  lemma Rearranged(r: real, e: real)
    ensures r / 10.0 * e / 1000000.0 == r * e / 10000000.0
  {
    assert r / 10.0 * e == r * e / 10.0;
  }

  lemma ZeroStays(change: real)
    requires change >= 0.0
    ensures MoveTowardZero(0.0, change) == 0.0
  {
  }

  /**
   * However the time since capture is split into samples, and whatever the pilot does meanwhile, what is left of the
   * offset is the captured one less the rate times the time to the latest positive-throttle sample; and levelling is
   * complete exactly when both offsets have reached zero at such a sample.
   */
  lemma {:induction false} FadingIsPathIndependent(l: Leveling, config: EasyMode, samples: seq<Sample>, roll: real,
                                                   pitch: real, at: uint64)
    requires config.Valid() && config.enabled && JustCaptured(l, roll, pitch, at)
    requires forall i | 0 <= i < |samples| :: 0.0 <= samples[i].throttle <= 1.0
    ensures var r := ApplyAll(l, config, samples);
            var elapsed := Horizon(at, samples) - at;
            && FadedTo(r, roll, pitch, config.rate, elapsed)
            && Remaining(roll, config.rate, elapsed, r.rollOffset)
            && Remaining(pitch, config.rate, elapsed, r.pitchOffset)
            && (r.stage == LevelingComplete <==> elapsed > 0 && r.rollOffset == r.pitchOffset == 0.0)
            && (r.stage == LevelingActive <==> r.stage != LevelingComplete)
            && (r.stage == LevelingActive ==> r.lastAt == Horizon(at, samples))
    decreases |samples|
  {
    hide Change, Apply, Remaining, MoveTowardZero;
    MovesAtTheRate(roll, config.rate, Horizon(at, samples) - at);
    MovesAtTheRate(pitch, config.rate, Horizon(at, samples) - at);
    if samples == [] {
      NothingFaded(l, roll, pitch, config.rate);
    } else {
      var before := samples[..|samples| - 1];
      FadingIsPathIndependent(l, config, before, roll, pitch, at);
      FadeStep(ApplyAll(l, config, before), config, samples[|samples| - 1], roll, pitch, at, Horizon(at, before));
      Applied(ApplyAll(l, config, before), config, samples[|samples| - 1]);
    }
  }

  lemma NothingFaded(l: Leveling, roll: real, pitch: real, rate: nat)
    requires l.stage == LevelingActive && l.rollOffset == roll && l.pitchOffset == pitch
    ensures FadedTo(l, roll, pitch, rate, 0)
  {
    ChangesAdd(rate, 0, 0);
  }

  lemma Applied(l: Leveling, config: EasyMode, s: Sample)
    ensures Apply(l, config, s).Some? <==> SampleUsable(config, s)
  {
  }

  /** Two ways of splitting the same time lead to the same offsets. */
  lemma {:induction false} SplitsAgree(l: Leveling, config: EasyMode, a: seq<Sample>, b: seq<Sample>, at: uint64)
    requires config.Valid() && config.enabled && JustCaptured(l, l.rollOffset, l.pitchOffset, at)
    requires forall i | 0 <= i < |a| :: 0.0 <= a[i].throttle <= 1.0
    requires forall i | 0 <= i < |b| :: 0.0 <= b[i].throttle <= 1.0
    requires Horizon(at, a) == Horizon(at, b)
    ensures var x, y := ApplyAll(l, config, a), ApplyAll(l, config, b);
            x.rollOffset == y.rollOffset && x.pitchOffset == y.pitchOffset && x.stage == y.stage
  {
    hide ApplyAll, Horizon, Change;
    FadingIsPathIndependent(l, config, a, l.rollOffset, l.pitchOffset, at);
    FadingIsPathIndependent(l, config, b, l.rollOffset, l.pitchOffset, at);
  }

  /** The target starts at the measured attitude, and the sample that captures it never fades it. */
  lemma TargetStartsAtMeasured(l: Leveling, config: EasyMode, s: Sample)
    requires SampleUsable(config, s) && config.enabled && l.stage == LevelingCapturing && s.throttle > 0.0
    ensures var r := Apply(l, config, s).value;
            && JustCaptured(r, s.measuredRoll - s.pilotRoll, s.measuredPitch - s.pilotPitch, s.at)
            && r.effectiveRoll == s.measuredRoll && r.effectivePitch == s.measuredPitch
  {
  }

  /**
   * What one sample does: a disabled levelling is complete with the pilot's own target; an enabled one targets the
   * measured attitude up to the first positive throttle, then fades what is left, and stays as it is once complete.
   */
  lemma SampleHasItsOutcome(l: Leveling, config: EasyMode, s: Sample)
    ensures var r := Apply(l, config, s);
            && (r.Some? <==>
                  && 0 < config.armedIdle < 1000 && 0 < config.activation < 1000 && 0 < config.rate <= 2000
                  && 0.0 <= s.throttle <= 1.0)
            && (r.Some? ==>
                  var n := r.value;
                  && n.effectiveRoll == s.pilotRoll + n.rollOffset && n.effectivePitch == s.pilotPitch + n.pitchOffset
                  && (!config.enabled ==> n.stage == LevelingComplete && n.rollOffset == n.pitchOffset == 0.0)
                  && (config.enabled && (l.stage == LevelingDisabled || l.stage == LevelingCapturing) ==>
                        && n.effectiveRoll == s.measuredRoll && n.effectivePitch == s.measuredPitch
                        && n.lastAt == s.at
                        && n.stage == if s.throttle > 0.0 then LevelingActive else LevelingCapturing)
                  && (config.enabled && l.stage == LevelingActive && s.throttle > 0.0 && s.at > l.lastAt ==>
                        && Remaining(l.rollOffset, config.rate, s.at - l.lastAt, n.rollOffset)
                        && Remaining(l.pitchOffset, config.rate, s.at - l.lastAt, n.pitchOffset) && n.lastAt == s.at
                        && n.stage == if n.rollOffset == n.pitchOffset == 0.0 then LevelingComplete else LevelingActive)
                  && (config.enabled && l.stage != LevelingDisabled && l.stage != LevelingCapturing
                      && !(l.stage == LevelingActive && s.throttle > 0.0 && s.at > l.lastAt) ==>
                        n == l.(effectiveRoll := n.effectiveRoll, effectivePitch := n.effectivePitch)))
  {
    hide Change, MoveTowardZero, Remaining;
    if s.at > l.lastAt {
      MovesAtTheRate(l.rollOffset, config.rate, s.at - l.lastAt);
      MovesAtTheRate(l.pitchOffset, config.rate, s.at - l.lastAt);
    }
  }

  /** A reset levelling waits to capture exactly if it is enabled; a completed one targets what the pilot asks for. */
  lemma ResetAndCompletion(l: Leveling, config: EasyMode, pilotRoll: real, pilotPitch: real)
    ensures var r := Reset(config);
            && r.stage == (if config.enabled then LevelingCapturing else LevelingDisabled)
            && r.rollOffset == r.pitchOffset == r.effectiveRoll == r.effectivePitch == 0.0 && r.lastAt == 0
    ensures var r := Completed(l, pilotRoll, pilotPitch);
            && r.stage == LevelingComplete && r.rollOffset == r.pitchOffset == 0.0
            && r.effectiveRoll == pilotRoll && r.effectivePitch == pilotPitch && r.lastAt == l.lastAt
  {
  }

  /** The offset never grows and never changes sign as time passes. */
  lemma {:induction false} OffsetOnlyShrinks(l: Leveling, config: EasyMode, a: seq<Sample>, b: seq<Sample>, at: uint64)
    requires config.Valid() && config.enabled && JustCaptured(l, l.rollOffset, l.pitchOffset, at)
    requires forall i | 0 <= i < |a| :: 0.0 <= a[i].throttle <= 1.0
    requires forall i | 0 <= i < |b| :: 0.0 <= b[i].throttle <= 1.0
    requires Horizon(at, a) <= Horizon(at, b)
    ensures var x, y := ApplyAll(l, config, a), ApplyAll(l, config, b);
            && (l.rollOffset >= 0.0 ==> 0.0 <= y.rollOffset <= x.rollOffset <= l.rollOffset)
            && (l.rollOffset <= 0.0 ==> l.rollOffset <= x.rollOffset <= y.rollOffset <= 0.0)
            && (l.pitchOffset >= 0.0 ==> 0.0 <= y.pitchOffset <= x.pitchOffset <= l.pitchOffset)
            && (l.pitchOffset <= 0.0 ==> l.pitchOffset <= x.pitchOffset <= y.pitchOffset <= 0.0)
  {
    hide ApplyAll, Horizon, Change, MoveTowardZero;
    FadingIsPathIndependent(l, config, a, l.rollOffset, l.pitchOffset, at);
    FadingIsPathIndependent(l, config, b, l.rollOffset, l.pitchOffset, at);
    var first, second := Horizon(at, a) - at, Horizon(at, b) - at;
    ChangesAdd(config.rate, first, second - first);
    ChangesAdd(config.rate, second - first, 0);
    MoveShrinks(l.rollOffset, Change(config.rate, first), Change(config.rate, second));
    MoveShrinks(l.pitchOffset, Change(config.rate, first), Change(config.rate, second));
  }

  /* ---------------- the levelling updated in place ---------------- */

  class TakeoffLeveler {
    var rollOffset: real
    var pitchOffset: real
    var effectiveRoll: real
    var effectivePitch: real
    var lastSampleAt: uint64
    var stage: Stage

    ghost function View(): (l: Leveling)
      reads this
    {
      Leveling(rollOffset, pitchOffset, effectiveRoll, effectivePitch, lastSampleAt, stage)
    }

    constructor ()
      ensures View() == Fresh
    {
      rollOffset, pitchOffset, effectiveRoll, effectivePitch := 0.0, 0.0, 0.0, 0.0;
      lastSampleAt, stage := 0, LevelingDisabled;
    }

    method ResetTo(config: EasyMode)
      modifies this
      ensures View() == Reset(config)
    {
      rollOffset, pitchOffset, effectiveRoll, effectivePitch := 0.0, 0.0, 0.0, 0.0;
      lastSampleAt := 0;
      stage := if config.enabled then LevelingCapturing else LevelingDisabled;
    }

    method Complete(pilotRoll: real, pilotPitch: real)
      modifies this
      ensures View() == Completed(old(View()), pilotRoll, pilotPitch)
    {
      rollOffset, pitchOffset := 0.0, 0.0;
      effectiveRoll, effectivePitch := pilotRoll, pilotPitch;
      stage := LevelingComplete;
    }

    method ApplySample(config: EasyMode, s: Sample) returns (ok: bool)
      modifies this
      ensures !ok ==> View() == old(View()) && Apply(old(View()), config, s) == None
      ensures ok ==> Apply(old(View()), config, s) == Some(View())
    {
      hide Change, MoveTowardZero;
      if !config.Valid() || s.throttle < 0.0 || s.throttle > 1.0 {
        return false;
      }
      if !config.enabled {
        Complete(s.pilotRoll, s.pilotPitch);
      } else if stage == LevelingDisabled {
        ResetTo(config);
      }
      if stage == LevelingCapturing {
        rollOffset, pitchOffset := s.measuredRoll - s.pilotRoll, s.measuredPitch - s.pilotPitch;
        lastSampleAt := s.at;
        if s.throttle > 0.0 {
          stage := LevelingActive;
        }
      }
      if stage == LevelingActive && s.throttle > 0.0 && s.at > lastSampleAt {
        var change := Change(config.rate, s.at - lastSampleAt);
        rollOffset := MoveTowardZero(rollOffset, change);
        pitchOffset := MoveTowardZero(pitchOffset, change);
        lastSampleAt := s.at;
        if rollOffset == 0.0 && pitchOffset == 0.0 {
          stage := LevelingComplete;
        }
      }
      effectiveRoll, effectivePitch := s.pilotRoll + rollOffset, s.pilotPitch + pitchOffset;
      return true;
    }
  }
}
