/** The flight control core: objective to desired rates, rates to corrections, corrections to motors. */
module ControlCore {
  import opened Counters
  import opened MotorCommands
  import opened QuadMixer
  import opened RateControl

  const MAXIMUM_ANGLE_GAIN: real := 100.0
  const MAXIMUM_RATE_DPS: real := 2000.0

  datatype AxisMode = AxisDisabled | AxisAngle | AxisRate

  type Modes = m: seq<AxisMode> | |m| == 3 witness [AxisDisabled, AxisDisabled, AxisDisabled]

  datatype Objective = Objective(
    mode: Modes, value: Axes, throttle: real, producedAt: uint64, validUntil: uint64, valid: bool)

  datatype VehicleState = VehicleState(attitude: Axes, rates: Axes, acquiredAt: uint64, sequence: uint64, valid: bool)

  datatype Profile = Profile(rollGain: real, pitchGain: real, maximumRate: Axes, layout: Layout, armedIdle: real)

  /** What preparing a profile checks. */
  predicate ProfileValid(p: Profile) {
    && p.rollGain > 0.0 && p.pitchGain > 0.0 && UnitValue(p.armedIdle)
    && p.maximumRate[0] > 0.0 && p.maximumRate[1] > 0.0 && p.maximumRate[2] > 0.0
  }

  datatype Core = Core(
    controller: Controller, desired: Axes, rateOutput: RateOutput, rateResult: RateResult)

  datatype CoreResult = CoreUpdated | CoreWaiting | CoreInvalidInput

  datatype CoreOutput = CoreOutput(
    baseline: real, mixer: Option<MixerOutput>, rateResult: RateResult, rateOutput: RateOutput, desired: Axes)

  const NoCoreOutput: CoreOutput := CoreOutput(0.0, None, RateUpdated, NoOutput, ZeroAxes)

  /* ---------------- desired rates ---------------- */

  /** The outer loops ask for at most the axis's maximum rate; None where they report failure. */
  function AngleRate(gain: real, desired: real, measured: real, maximum: real): (r: Option<real>)
    ensures r.Some? ==> -maximum <= r.value <= maximum
  {
    if !(0.0 < gain <= MAXIMUM_ANGLE_GAIN && 0.0 < maximum <= MAXIMUM_RATE_DPS) then None
    else Some(ClampTo(gain * (desired - measured), maximum))
  }

  function DirectRate(requested: real, maximum: real): (r: Option<real>)
    ensures r.Some? ==> -maximum <= r.value <= maximum
  {
    if !(0.0 < maximum <= MAXIMUM_RATE_DPS) then None else Some(ClampTo(requested, maximum))
  }

  function AxisRateFor(mode: AxisMode, angleAllowed: bool, gain: real, value: real, measured: real, maximum: real)
    : (r: Option<real>)
  {
    match mode
    case AxisAngle => if angleAllowed then AngleRate(gain, value, measured, maximum) else None
    case AxisRate => DirectRate(value, maximum)
    case AxisDisabled => Some(0.0)
  }

  /** The rates in force after preparing them, axis by axis until one fails, and whether all succeeded. */
  function DesiredRates(before: Axes, p: Profile, v: VehicleState, o: Objective): (r: (Axes, bool)) {
    var roll := AxisRateFor(o.mode[0], true, p.rollGain, o.value[0], v.attitude[0], p.maximumRate[0]);
    if roll.None? then (before, false)
    else
      var pitch := AxisRateFor(o.mode[1], true, p.pitchGain, o.value[1], v.attitude[1], p.maximumRate[1]);
      if pitch.None? then ([roll.value, before[1], before[2]], false)
      else
        var yaw := AxisRateFor(o.mode[2], false, 1.0, o.value[2], 0.0, p.maximumRate[2]);
        if yaw.None? then ([roll.value, pitch.value, before[2]], false)
        else ([roll.value, pitch.value, yaw.value], true)
  }

  /* ---------------- one update ---------------- */

  function ResetCore(c: Core): (r: Core) {
    Core(ResetController(c.controller), ZeroAxes, NoOutput, RateDisabled)
  }

  predicate ObjectiveUsable(o: Objective, now: uint64) {
    o.valid && o.producedAt <= now <= o.validUntil && o.producedAt <= o.validUntil && UnitValue(o.throttle)
  }

  predicate Activated(c: Controller, throttle: real) {
    throttle >= c.activationThrottle
  }

  function Baseline(p: Profile, throttle: real): (b: real) {
    p.armedIdle + throttle * (1.0 - p.armedIdle)
  }

  function MixIdle(p: Profile, now: uint64): (m: Option<MixerOutput>) {
    ApplyMixer(p.layout, p.armedIdle, p.armedIdle, ZeroAxes, now)
  }

  function UpdateIdle(c: Core, p: Profile, now: uint64): (r: (Core, CoreResult, CoreOutput)) {
    var idle := ResetCore(c);
    var mixed := MixIdle(p, now);
    if mixed.None? then (idle, CoreInvalidInput, NoCoreOutput)
    else (idle, CoreUpdated, CoreOutput(p.armedIdle, mixed, RateDisabled, NoOutput, ZeroAxes))
  }

  /** The rate step: below the activation throttle the integrals are cleared and held. */
  function RunRates(c: Core, desired: Axes, v: VehicleState, throttle: real): (r: Core) {
    var controller := if Activated(c.controller, throttle) then c.controller else ClearIntegrals(c.controller);
    var (next, result, output) :=
      ProcessRates(controller, desired, v.rates, v.acquiredAt, v.sequence, Activated(c.controller, throttle));
    Core(next, desired, output, result)
  }

  function MixRates(c: Core, p: Profile, throttle: real, now: uint64): (r: (Core, CoreResult, CoreOutput))
    requires |c.rateOutput.terms| == AXIS_COUNT
  {
    if c.rateResult == RateNoNewSample then (c, CoreWaiting, NoCoreOutput)
    else if c.rateResult != RateSeeded && c.rateResult != RateUpdated then (c, CoreInvalidInput, NoCoreOutput)
    else
      var correction := if c.rateResult == RateUpdated then Totals(c.rateOutput) else ZeroAxes;
      var baseline := Baseline(p, if c.rateResult == RateUpdated then throttle else 0.0);
      var mixed := ApplyMixer(p.layout, baseline, p.armedIdle, correction, now);
      if mixed.None? then (c, CoreInvalidInput, NoCoreOutput)
      else
        (c.(controller := c.controller.(saturated := mixed.value.saturated)), CoreUpdated,
         CoreOutput(baseline, mixed, c.rateResult, c.rateOutput, c.desired))
  }

  function UpdateCore(c: Core, p: Profile, v: Option<VehicleState>, o: Objective, now: uint64)
    : (r: (Core, CoreResult, CoreOutput))
  {
    if !ObjectiveUsable(o, now) then (c, CoreInvalidInput, NoCoreOutput)
    else if o.throttle == 0.0 then UpdateIdle(c, p, now)
    else if v.None? || !v.value.valid then (c, CoreInvalidInput, NoCoreOutput)
    else
      var (desired, ok) := DesiredRates(c.desired, p, v.value, o);
      if !ok then (c.(desired := desired), CoreInvalidInput, NoCoreOutput)
      else
        OutputHasAxes(c, desired, v.value, o.throttle);
        MixRates(RunRates(c, desired, v.value, o.throttle), p, o.throttle, now)
  }

  lemma OutputHasAxes(c: Core, desired: Axes, v: VehicleState, throttle: real)
    ensures |RunRates(c, desired, v, throttle).rateOutput.terms| == AXIS_COUNT
  {
    hide UpdatePid, Seconds;
  }

  /* ---------------- what every update keeps ---------------- */

  ghost predicate CoreInv(c: Core) {
    ControllerInv(c.controller)
  }

  lemma BaselineInBand(p: Profile, throttle: real)
    requires UnitValue(p.armedIdle) && UnitValue(throttle)
    ensures p.armedIdle <= Baseline(p, throttle) <= 1.0
    ensures throttle > 0.0 ==> Baseline(p, throttle) > 0.0
  {
    SignedProduct(throttle, 1.0 - p.armedIdle);
    SignedProduct(1.0 - throttle, 1.0 - p.armedIdle);
    assert (1.0 - throttle) * (1.0 - p.armedIdle) == (1.0 - p.armedIdle) - throttle * (1.0 - p.armedIdle);
  }

  /** The motors a mix makes before near-zero values become zero; with zero throttle and floor, all stop. */
  function MotorsOf(p: Profile, baseline: real, correction: Axes): (m: Throttles) {
    if baseline == 0.0 && p.armedIdle == 0.0 then ZeroThrottle else Mix(p.layout, baseline, p.armedIdle, correction)
  }

  /** A baseline in the band and bounded corrections are never refused, and no motor leaves the band. */
  lemma MixAccepted(p: Profile, baseline: real, correction: Axes, now: uint64)
    requires UnitValue(p.armedIdle) && p.armedIdle <= baseline <= 1.0 && CorrectionsValid(correction)
    ensures var mixed := ApplyMixer(p.layout, baseline, p.armedIdle, correction, now);
            && mixed.Some?
            && mixed.value.command == Command(SettleAll(MotorsOf(p, baseline, correction)), now, true)
            && forall i | 0 <= i < MOTOR_COUNT :: p.armedIdle <= MotorsOf(p, baseline, correction)[i] <= 1.0
  {
    hide Mix, ScaleOf;
    MixerRefusesOnlyInvalid(p.layout, baseline, p.armedIdle, correction, now);
    if baseline != 0.0 {
      ClampNeverActs(p.layout, baseline, p.armedIdle, correction);
    }
  }

  /** The mix of an accepted update does what its output publishes. */
  lemma MixFollows(p: Profile, output: CoreOutput, now: uint64)
    requires UnitValue(p.armedIdle) && p.armedIdle <= output.baseline <= 1.0 && CorrectionsValid(Published(output))
    requires output.baseline == 0.0 ==> Published(output) == ZeroAxes
    requires output.mixer.Some?
    requires ApplyMixer(p.layout, output.baseline, p.armedIdle, Published(output), now) == output.mixer
    ensures MotorsRespect(p, output, now)
  {
    hide Mix, ScaleOf, Feasible, Deltas, Published, Torque, Scaled, MotorsOf;
    var b, wanted := output.baseline, Published(output);
    var m := MotorsOf(p, b, wanted);
    MixAccepted(p, b, wanted, now);
    if b == 0.0 {
      StillMix(p, output, now);
    } else {
      MovingMix(p, output, now);
    }
    assert MotorsFrom(p, output, m, now);
  }

  /** With nothing to add and nothing asked for, the motors stand still. */
  lemma StillMix(p: Profile, output: CoreOutput, now: uint64)
    requires UnitValue(p.armedIdle) && p.armedIdle <= output.baseline == 0.0 && Published(output) == ZeroAxes
    requires output.mixer.Some?
    requires ApplyMixer(p.layout, 0.0, p.armedIdle, ZeroAxes, now) == output.mixer
    ensures output.mixer.value.scale == 1.0 && !output.mixer.value.saturated
    ensures var m := MotorsOf(p, 0.0, ZeroAxes);
            && Sum(m) == 0.0
            && (forall axis | 0 <= axis < AXIS_COUNT :: Torque(p.layout, m, axis) == 0.0)
    ensures forall scale: real | 1.0 < scale <= 1.0 :: !Feasible(0.0, 0.0, Deltas(p.layout, ZeroAxes), scale)
    ensures Scaled(0.0, 1.0) == 0.0
  {
    hide Mix, ScaleOf, Feasible, Deltas;
  }

  lemma MovingMix(p: Profile, output: CoreOutput, now: uint64)
    requires UnitValue(p.armedIdle) && p.armedIdle <= output.baseline <= 1.0 && output.baseline > 0.0
    requires CorrectionsValid(Published(output)) && output.mixer.Some?
    requires ApplyMixer(p.layout, output.baseline, p.armedIdle, Published(output), now) == output.mixer
    ensures var m, mixed := MotorsOf(p, output.baseline, Published(output)), output.mixer.value;
            && Sum(m) == 4.0 * output.baseline
            && Torque(p.layout, m, 0) == 4.0 * Scaled(Published(output)[0], mixed.scale)
            && Torque(p.layout, m, 1) == 4.0 * Scaled(Published(output)[1], mixed.scale)
            && Torque(p.layout, m, 2) == 4.0 * Scaled(Published(output)[2], mixed.scale)
            && 0.0 <= mixed.scale <= 1.0 && (mixed.saturated <==> mixed.scale < 1.0)
            && forall scale: real | mixed.scale < scale <= 1.0 ::
                 !Feasible(output.baseline, p.armedIdle, Deltas(p.layout, Published(output)), scale)
  {
    hide Mix, ScaleOf, Feasible, Deltas, Torque, Scaled, Published, CorrectionsValid;
    var b, wanted := output.baseline, Published(output);
    MixIsDecoupled(p.layout, b, p.armedIdle, wanted);
    ScaleIsLargest(p.layout, b, p.armedIdle, wanted, 0.0);
    forall scale: real | ScaleOf(p.layout, b, p.armedIdle, wanted) < scale <= 1.0
      ensures !Feasible(b, p.armedIdle, Deltas(p.layout, wanted), scale)
    {
      ScaleIsLargest(p.layout, b, p.armedIdle, wanted, scale);
    }
  }

  lemma ClearedIntegrals(c: Controller)
    ensures IntegralsOf(ClearIntegrals(c)) == ZeroAxes
    ensures ControllerInv(c) ==> ControllerInv(ClearIntegrals(c))
    ensures IntegralsOf(ResetController(c)) == ZeroAxes
    ensures ControllerInv(c) ==> ControllerInv(ResetController(c))
    ensures SameConfigs(ClearIntegrals(c), c) && ClearIntegrals(c).saturated == c.saturated
    ensures SameConfigs(ResetController(c), c)
    ensures forall o: RateOutput | |o.terms| == AXIS_COUNT ::
              TotalsBounded(o, ClearIntegrals(c)) == TotalsBounded(o, c)
  {
  }

  lemma RatesStepKeeps(c: Core, desired: Axes, v: VehicleState, throttle: real)
    requires CoreInv(c)
    ensures var r := RunRates(c, desired, v, throttle);
            && CoreInv(r) && r.rateResult != RateInvalidInput && r.rateResult != RateDisabled
            && |r.rateOutput.terms| == AXIS_COUNT
            && (r.rateResult == RateUpdated ==>
                  CorrectionsValid(Totals(r.rateOutput)) && TotalsBounded(r.rateOutput, c.controller))
            && SameConfigs(r.controller, c.controller)
            && r.controller.saturated == (c.controller.saturated && r.rateResult != RateContinuityLost)
            && (!Activated(c.controller, throttle) ==> IntegralsOf(r.controller) == ZeroAxes)
            && (c.controller.saturated ==>
                  IntegralsOf(r.controller) == IntegralsOf(c.controller) || IntegralsOf(r.controller) == ZeroAxes)
            && r.controller.activationThrottle == c.controller.activationThrottle
  {
    hide ProcessRates, IntegralsOf, ControllerInv, Totals, TotalsBounded;
    var active := Activated(c.controller, throttle);
    var controller := if active then c.controller else ClearIntegrals(c.controller);
    ClearedIntegrals(c.controller);
    RatesKeep(controller, desired, v.rates, v.acquiredAt, v.sequence, active);
  }

  /** The update gets as far as the rate controller. */
  predicate ReachesRates(c: Core, p: Profile, v: Option<VehicleState>, o: Objective, now: uint64) {
    ObjectiveUsable(o, now) && o.throttle != 0.0 && v.Some? && v.value.valid && DesiredRates(c.desired, p, v.value, o).1
  }

  /** The update stops the motors or gets as far as the rate controller below the activation throttle. */
  predicate HoldsIntegrals(c: Core, p: Profile, v: Option<VehicleState>, o: Objective, now: uint64) {
    || (ObjectiveUsable(o, now) && o.throttle == 0.0)
    || (ReachesRates(c, p, v, o, now) && !Activated(c.controller, o.throttle))
  }

  /** Whether the mix reported last was saturated, as the update leaves it: an accepted mix reports anew. */
  function SaturationAfter(saturated: bool, lost: bool, result: CoreResult, output: CoreOutput): (s: bool) {
    if result == CoreUpdated then output.mixer.Some? && output.mixer.value.saturated else saturated && !lost
  }

  /** The corrections an update publishes: the totals of its rate terms, or none if the rates were not updated. */
  function Published(output: CoreOutput): (c: Axes) {
    if output.rateResult == RateUpdated && |output.rateOutput.terms| == AXIS_COUNT then Totals(output.rateOutput)
    else ZeroAxes
  }

  /** What one update promises about the motors it commands. */
  ghost predicate MotorsRespect(p: Profile, output: CoreOutput, now: uint64) {
    output.mixer.Some? && exists m: Throttles :: MotorsFrom(p, output, m, now)
  }

  /**
   * Before near-zero values become zero, the motors lie in the band, sum to four times the baseline, and act on each
   * axis with four times its published total, scaled by the largest factor up to one that keeps them in the band.
   */
  ghost predicate MotorsFrom(p: Profile, output: CoreOutput, m: Throttles, now: uint64)
    requires output.mixer.Some?
  {
    var mixed, wanted := output.mixer.value, Published(output);
    && mixed.command == Command(SettleAll(m), now, true)
    && p.armedIdle <= output.baseline <= 1.0 && (forall i | 0 <= i < MOTOR_COUNT :: p.armedIdle <= m[i] <= 1.0)
    && Sum(m) == 4.0 * output.baseline
    && Torque(p.layout, m, 0) == 4.0 * Scaled(wanted[0], mixed.scale)
    && Torque(p.layout, m, 1) == 4.0 * Scaled(wanted[1], mixed.scale)
    && Torque(p.layout, m, 2) == 4.0 * Scaled(wanted[2], mixed.scale)
    && 0.0 <= mixed.scale <= 1.0 && (mixed.saturated <==> mixed.scale < 1.0)
    && forall scale: real | mixed.scale < scale <= 1.0 ::
         !Feasible(output.baseline, p.armedIdle, Deltas(p.layout, wanted), scale)
  }

  lemma IdleKeeps(c: Core, p: Profile, now: uint64)
    requires CoreInv(c) && ProfileValid(p)
    ensures var (r, result, output) := UpdateIdle(c, p, now);
            && CoreInv(r) && result == CoreUpdated && MotorsRespect(p, output, now) && output.mixer.Some?
            && IntegralsOf(r.controller) == ZeroAxes && SameConfigs(r.controller, c.controller)
            && r.controller.activationThrottle == c.controller.activationThrottle
            && !r.controller.saturated && !output.mixer.value.saturated
  {
    hide ControllerInv, ApplyMixer, IntegralsOf, MotorsRespect;
    ClearedIntegrals(c.controller);
    IdleIsUnsaturated(p, now);
    MixAccepted(p, p.armedIdle, ZeroAxes, now);
    MixFollows(p, UpdateIdle(c, p, now).2, now);
  }

  lemma IdleIsUnsaturated(p: Profile, now: uint64)
    requires ProfileValid(p)
    ensures MixIdle(p, now).Some? ==> !MixIdle(p, now).value.saturated
  {
    hide Scale, Mix, ScaleOf;
    SaturatedIffInfeasible(p.layout, p.armedIdle, p.armedIdle, ZeroAxes);
    assert Deltas(p.layout, ZeroAxes) == ZeroThrottle;
  }

  lemma MixRatesKeeps(c: Core, p: Profile, throttle: real, now: uint64)
    requires CoreInv(c) && ProfileValid(p) && 0.0 < throttle <= 1.0 && |c.rateOutput.terms| == AXIS_COUNT
    requires c.rateResult == RateUpdated ==> CorrectionsValid(Totals(c.rateOutput))
    ensures var (r, result, output) := MixRates(c, p, throttle, now);
            && CoreInv(r) && IntegralsOf(r.controller) == IntegralsOf(c.controller)
            && SameConfigs(r.controller, c.controller) && r.rateOutput == c.rateOutput && r.rateResult == c.rateResult
            && (result != CoreUpdated ==> r.controller.saturated == c.controller.saturated)
            && r.controller.activationThrottle == c.controller.activationThrottle
            && (result == CoreUpdated <==> c.rateResult == RateSeeded || c.rateResult == RateUpdated)
            && (result == CoreUpdated ==>
                  && MotorsRespect(p, output, now)
                  && output.baseline == Baseline(p, if c.rateResult == RateUpdated then throttle else 0.0)
                  && output.mixer.Some? && r.controller.saturated == output.mixer.value.saturated)
  {
    hide MotorsRespect, ApplyMixer, Baseline, Totals, CorrectionsValid;
    BaselineInBand(p, throttle);
    BaselineInBand(p, 0.0);
    assert CorrectionsValid(ZeroAxes) by { ZeroIsValid(); }
    var correction := if c.rateResult == RateUpdated then Totals(c.rateOutput) else ZeroAxes;
    var baseline := Baseline(p, if c.rateResult == RateUpdated then throttle else 0.0);
    MixAccepted(p, baseline, correction, now);
    var (r, result, output) := MixRates(c, p, throttle, now);
    if result == CoreUpdated {
      MixFollows(p, output, now);
    }
  }

  lemma ZeroIsValid()
    ensures CorrectionsValid(ZeroAxes)
  {
  }

  /**
   * One update of a sound core with a valid profile: the core stays sound, an accepted update always carries a
   * command whose motors lie between the armed idle and full throttle, and the mixer is never the reason for a
   * refusal.
   */
  lemma CoreKeeps(c: Core, p: Profile, v: Option<VehicleState>, o: Objective, now: uint64)
    requires CoreInv(c) && ProfileValid(p)
    ensures var (r, result, output) := UpdateCore(c, p, v, o, now);
            && CoreInv(r) && r.controller.activationThrottle == c.controller.activationThrottle
            && SameConfigs(r.controller, c.controller)
            && (HoldsIntegrals(c, p, v, o, now) ==> IntegralsOf(r.controller) == ZeroAxes)
            && (c.controller.saturated ==>
                  IntegralsOf(r.controller) == IntegralsOf(c.controller) || IntegralsOf(r.controller) == ZeroAxes)
            && (ReachesRates(c, p, v, o, now) && r.rateResult == RateUpdated ==>
                  |r.rateOutput.terms| == AXIS_COUNT && TotalsBounded(r.rateOutput, c.controller))
            && r.controller.saturated ==
               SaturationAfter(c.controller.saturated,
                               ReachesRates(c, p, v, o, now) && r.rateResult == RateContinuityLost, result, output)
            && (result == CoreUpdated ==> MotorsRespect(p, output, now))
            && (result == CoreInvalidInput ==>
                  || !ObjectiveUsable(o, now)
                  || (o.throttle != 0.0 && (v.None? || !v.value.valid))
                  || (o.throttle != 0.0 && !DesiredRates(c.desired, p, v.value, o).1)
                  || (o.throttle != 0.0 && r.rateResult == RateContinuityLost))
  {
    hide RunRates, MixRates, UpdateIdle, DesiredRates, IntegralsOf, ControllerInv, MotorsRespect, TotalsBounded;
    if !ObjectiveUsable(o, now) {
      return;
    }
    if o.throttle == 0.0 {
      IdleKeeps(c, p, now);
      return;
    }
    if v.None? || !v.value.valid {
      return;
    }
    var (desired, ok) := DesiredRates(c.desired, p, v.value, o);
    if ok {
      RatesStepKeeps(c, desired, v.value, o.throttle);
      var ran := RunRates(c, desired, v.value, o.throttle);
      MixRatesKeeps(ran, p, o.throttle, now);
      WaitsForState(ran, p, o.throttle, now);
    }
  }

  lemma WaitsForState(c: Core, p: Profile, throttle: real, now: uint64)
    requires |c.rateOutput.terms| == AXIS_COUNT
    ensures c.rateResult == RateNoNewSample ==> MixRates(c, p, throttle, now).1 == CoreWaiting
  {
    hide ApplyMixer;
  }

  /* ---------------- runs ---------------- */

  datatype CoreCall = CoreCall(profile: Profile, vehicle: Option<VehicleState>, objective: Objective, now: uint64)

  function RunCore(c: Core, calls: seq<CoreCall>): (r: Core)
    decreases |calls|
  {
    if calls == [] then c
    else
      var last := calls[|calls| - 1];
      UpdateCore(RunCore(c, calls[..|calls| - 1]), last.profile, last.vehicle, last.objective, last.now).0
  }

  function CoreStart(controller: Controller): (c: Core) {
    Core(controller, ZeroAxes, NoOutput, RateDisabled)
  }

  function Called(c: Core, call: CoreCall): (r: (Core, CoreResult, CoreOutput)) {
    UpdateCore(c, call.profile, call.vehicle, call.objective, call.now)
  }

  predicate RunsRates(c: Core, call: CoreCall) {
    ReachesRates(c, call.profile, call.vehicle, call.objective, call.now)
  }

  /**
   * Whether the last accepted mix of the run was saturated, with no continuity lost since; before any mix, what the
   * controller was told at the start.
   */
  predicate LastMixSaturated(controller: Controller, calls: seq<CoreCall>)
    decreases |calls|
  {
    if calls == [] then controller.saturated
    else
      var earlier, last := calls[..|calls| - 1], calls[|calls| - 1];
      var before := RunCore(CoreStart(controller), earlier);
      var (r, result, output) := Called(before, last);
      if result == CoreUpdated then output.mixer.Some? && output.mixer.value.saturated
      else
        !(RunsRates(before, last) && r.rateResult == RateContinuityLost) && LastMixSaturated(controller, earlier)
  }

  lemma {:induction false} RunCoreKeeps(controller: Controller, calls: seq<CoreCall>)
    requires ControllerInv(controller)
    requires forall i | 0 <= i < |calls| :: ProfileValid(calls[i].profile)
    ensures var r := RunCore(CoreStart(controller), calls);
            && CoreInv(r) && r.controller.activationThrottle == controller.activationThrottle
            && SameConfigs(r.controller, controller)
            && r.controller.saturated == LastMixSaturated(controller, calls)
    decreases |calls|
  {
    hide UpdateCore, ControllerInv, ProfileValid, ReachesRates, HoldsIntegrals;
    if calls != [] {
      var before := calls[..|calls| - 1];
      var last := calls[|calls| - 1];
      RunCoreKeeps(controller, before);
      CoreKeeps(RunCore(CoreStart(controller), before), last.profile, last.vehicle, last.objective, last.now);
    }
  }

  /**
   * In every run with valid profiles, at every call: integrals and totals stay within the limits configured for their
   * axis, and the latter within one; an accepted update commands motors inside the band; integrals are zero after
   * every update that stops the motors or that reaches the rate controller below the activation throttle; and if the
   * last accepted mix was saturated, and continuity not lost since, no integral grows.
   */
  lemma {:induction false} EveryUpdateIsBounded(controller: Controller, calls: seq<CoreCall>, next: CoreCall)
    requires ControllerInv(controller) && ProfileValid(next.profile)
    requires forall i | 0 <= i < |calls| :: ProfileValid(calls[i].profile)
    ensures var before := RunCore(CoreStart(controller), calls);
            var (after, result, output) := Called(before, next);
            && (forall i | 0 <= i < AXIS_COUNT ::
                  Abs(after.controller.axis[i].integral) <= controller.axis[i].config.integralLimit)
            && (RunsRates(before, next) && after.rateResult == RateUpdated ==>
                  |after.rateOutput.terms| == AXIS_COUNT && TotalsBounded(after.rateOutput, controller))
            && (result == CoreUpdated ==> MotorsRespect(next.profile, output, next.now))
            && (ObjectiveUsable(next.objective, next.now) && next.objective.throttle == 0.0 ==>
                  IntegralsOf(after.controller) == ZeroAxes)
            && (RunsRates(before, next) && next.objective.throttle < controller.activationThrottle ==>
                  IntegralsOf(after.controller) == ZeroAxes)
            && (LastMixSaturated(controller, calls) ==>
                  forall i | 0 <= i < AXIS_COUNT ::
                    Abs(after.controller.axis[i].integral) <= Abs(before.controller.axis[i].integral))
  {
    hide UpdateCore, ProfileValid, MotorsRespect, RunCore, ReachesRates, LastMixSaturated;
    RunCoreKeeps(controller, calls);
    var before := RunCore(CoreStart(controller), calls);
    CoreKeeps(before, next.profile, next.vehicle, next.objective, next.now);
    var after := Called(before, next).0;
    BoundedIntegrals(after.controller);
    if before.controller.saturated {
      NotGrown(before.controller, after.controller);
    }
  }

  lemma BoundedIntegrals(c: Controller)
    requires ControllerInv(c)
    ensures forall i | 0 <= i < AXIS_COUNT :: Abs(c.axis[i].integral) <= c.axis[i].config.integralLimit
  {
    assert PidInv(c.axis[0]) && PidInv(c.axis[1]) && PidInv(c.axis[2]);
  }

  lemma NotGrown(before: Controller, after: Controller)
    requires IntegralsOf(after) == IntegralsOf(before) || IntegralsOf(after) == ZeroAxes
    ensures forall i | 0 <= i < AXIS_COUNT :: Abs(after.axis[i].integral) <= Abs(before.axis[i].integral)
  {
    forall i | 0 <= i < AXIS_COUNT
      ensures Abs(after.axis[i].integral) <= Abs(before.axis[i].integral)
    {
      assert IntegralsOf(after)[i] == after.axis[i].integral && IntegralsOf(before)[i] == before.axis[i].integral;
    }
  }

  /* ---------------- the core updated in place ---------------- */

  class FlightCore {
    const rates: RateController
    var desired: Axes
    var rateOutput: RateOutput
    var rateResult: RateResult

    ghost predicate Valid()
      reads this, rates
    {
      rates.Valid() && |rateOutput.terms| == AXIS_COUNT
    }

    ghost function View(): (c: Core)
      requires Valid()
      reads this, rates, rates.axis
    {
      Core(rates.View(), desired, rateOutput, rateResult)
    }

    constructor (rates: RateController)
      requires rates.Valid()
      ensures Valid() && this.rates == rates && View() == CoreStart(rates.View())
    {
      this.rates := rates;
      desired, rateOutput, rateResult := ZeroAxes, NoOutput, RateDisabled;
    }

    method Reset()
      requires Valid()
      modifies this, rates, rates.axis
      ensures Valid() && View() == ResetCore(old(View()))
    {
      hide ResetController;
      rates.Reset();
      desired, rateOutput, rateResult := ZeroAxes, NoOutput, RateDisabled;
    }

    method PrepareRates(p: Profile, v: VehicleState, o: Objective) returns (ok: bool)
      requires Valid()
      modifies this
      ensures Valid() && rateOutput == old(rateOutput) && rateResult == old(rateResult)
      ensures (desired, ok) == DesiredRates(old(desired), p, v, o)
    {
      hide AxisRateFor;
      var rate := AxisRateFor(o.mode[0], true, p.rollGain, o.value[0], v.attitude[0], p.maximumRate[0]);
      if rate.None? {
        return false;
      }
      desired := [rate.value, desired[1], desired[2]];
      rate := AxisRateFor(o.mode[1], true, p.pitchGain, o.value[1], v.attitude[1], p.maximumRate[1]);
      if rate.None? {
        return false;
      }
      desired := [desired[0], rate.value, desired[2]];
      rate := AxisRateFor(o.mode[2], false, 1.0, o.value[2], 0.0, p.maximumRate[2]);
      if rate.None? {
        return false;
      }
      desired := [desired[0], desired[1], rate.value];
      return true;
    }

    method StepRates(v: VehicleState, throttle: real)
      requires Valid()
      modifies this, rates, rates.axis
      ensures Valid() && View() == RunRates(old(View()), old(desired), v, throttle)
    {
      hide ProcessRates, ClearIntegrals, UpdateAxes;
      ghost var before := View();
      OutputHasAxes(before, desired, v, throttle);
      var active := throttle >= rates.activationThrottle;
      if !active {
        rates.ClearAllIntegrals();
      }
      rateResult, rateOutput := rates.Process(desired, v.rates, v.acquiredAt, v.sequence, true, active);
    }

    method MixStep(p: Profile, throttle: real, now: uint64) returns (result: CoreResult, output: CoreOutput)
      requires Valid()
      modifies rates
      ensures Valid() && (View(), result, output) == MixRates(old(View()), p, throttle, now)
    {
      hide ApplyMixer, Baseline;
      output := NoCoreOutput;
      if rateResult == RateNoNewSample {
        return CoreWaiting, output;
      }
      if rateResult != RateSeeded && rateResult != RateUpdated {
        return CoreInvalidInput, output;
      }
      var correction, effective := ZeroAxes, 0.0;
      if rateResult == RateUpdated {
        correction, effective := Totals(rateOutput), throttle;
      }
      var baseline := Baseline(p, effective);
      var mixed := RunMixer(p.layout, baseline, p.armedIdle, correction, now);
      if mixed.None? {
        return CoreInvalidInput, output;
      }
      rates.ReportSaturation(mixed.value.saturated);
      return CoreUpdated, CoreOutput(baseline, mixed, rateResult, rateOutput, desired);
    }

    method Update(p: Profile, v: Option<VehicleState>, o: Objective, now: uint64)
      returns (result: CoreResult, output: CoreOutput)
      requires Valid()
      modifies this, rates, rates.axis
      ensures Valid() && (View(), result, output) == UpdateCore(old(View()), p, v, o, now)
    {
      hide RunRates, MixRates, ResetCore, DesiredRates, ApplyMixer;
      output := NoCoreOutput;
      if !o.valid || o.producedAt > now || o.validUntil < now || o.validUntil < o.producedAt || !UnitValue(o.throttle) {
        return CoreInvalidInput, output;
      }
      if o.throttle == 0.0 {
        ResetShape(View());
        Reset();
        var mixed := RunMixer(p.layout, p.armedIdle, p.armedIdle, ZeroAxes, now);
        if mixed.None? {
          return CoreInvalidInput, output;
        }
        return CoreUpdated, CoreOutput(p.armedIdle, mixed, RateDisabled, NoOutput, ZeroAxes);
      }
      if v.None? || !v.value.valid {
        return CoreInvalidInput, output;
      }
      var ok := PrepareRates(p, v.value, o);
      if !ok {
        return CoreInvalidInput, output;
      }
      ghost var prepared := View();
      SameRates(old(View()), prepared, desired, v.value, o.throttle);
      StepRates(v.value, o.throttle);
      result, output := MixStep(p, o.throttle, now);
    }
  }

  lemma ResetShape(c: Core)
    ensures |ResetCore(c).rateOutput.terms| == AXIS_COUNT
  {
  }

  lemma SameRates(c: Core, d: Core, desired: Axes, v: VehicleState, throttle: real)
    requires c.controller == d.controller
    ensures RunRates(c, desired, v, throttle) == RunRates(d, desired, v, throttle)
  {
  }
}
