/** What one update of the flight control core does, from objective and vehicle state to the motors. */
module CoreLaw {
  import opened Counters
  import opened MotorCommands
  import opened QuadMixer
  import opened RateControl
  import opened RateLaw
  import opened ControlCore

  /** A rate an axis may be asked for: none, the one requested, or one that turns toward the requested angle. */
  ghost predicate Asks(mode: AxisMode, gain: real, value: real, measured: real, maximum: real, rate: real) {
    match mode
    case AxisDisabled => rate == 0.0
    case AxisRate => Limited(value, maximum, rate)
    case AxisAngle => Limited(gain * (value - measured), maximum, rate)
  }

  predicate Answerable(mode: AxisMode, angleAllowed: bool, gain: real, maximum: real) {
    match mode
    case AxisDisabled => true
    case AxisRate => 0.0 < maximum <= 2000.0
    case AxisAngle => angleAllowed && 0.0 < gain <= 100.0 && 0.0 < maximum <= 2000.0
  }

  predicate AllAnswerable(p: Profile, o: Objective) {
    && Answerable(o.mode[0], true, p.rollGain, p.maximumRate[0])
    && Answerable(o.mode[1], true, p.pitchGain, p.maximumRate[1])
    && Answerable(o.mode[2], false, 1.0, p.maximumRate[2])
  }

  /** Roll and pitch take an angle or a rate, yaw only a rate. */
  ghost predicate AllAsk(p: Profile, v: VehicleState, o: Objective, rates: Axes) {
    && Asks(o.mode[0], p.rollGain, o.value[0], v.attitude[0], p.maximumRate[0], rates[0])
    && Asks(o.mode[1], p.pitchGain, o.value[1], v.attitude[1], p.maximumRate[1], rates[1])
    && Asks(o.mode[2], 1.0, o.value[2], 0.0, p.maximumRate[2], rates[2])
  }

  lemma AxisAsks(mode: AxisMode, angleAllowed: bool, gain: real, value: real, measured: real, maximum: real)
    ensures var r := AxisRateFor(mode, angleAllowed, gain, value, measured, maximum);
            && (r.Some? <==> Answerable(mode, angleAllowed, gain, maximum))
            && (r.Some? ==> Asks(mode, gain, value, measured, maximum, r.value))
  {
  }

  lemma DesiredAsks(before: Axes, p: Profile, v: VehicleState, o: Objective)
    ensures var (rates, ok) := DesiredRates(before, p, v, o);
            (ok <==> AllAnswerable(p, o)) && (ok ==> AllAsk(p, v, o, rates))
  {
    hide AxisRateFor, Asks, Answerable;
    AxisAsks(o.mode[0], true, p.rollGain, o.value[0], v.attitude[0], p.maximumRate[0]);
    AxisAsks(o.mode[1], true, p.pitchGain, o.value[1], v.attitude[1], p.maximumRate[1]);
    AxisAsks(o.mode[2], false, 1.0, o.value[2], 0.0, p.maximumRate[2]);
  }

  /** An angle mode turns toward the requested angle, and not at all when it is reached. */
  lemma AngleTurnsToward(gain: real, value: real, measured: real, maximum: real, rate: real)
    requires gain > 0.0 && maximum > 0.0 && Asks(AxisAngle, gain, value, measured, maximum, rate)
    ensures (value > measured ==> rate > 0.0) && (value < measured ==> rate < 0.0)
    ensures value == measured ==> rate == 0.0
  {
    SignOfProduct(gain, value - measured);
  }

  predicate Current(o: Objective, now: uint64) {
    o.valid && o.producedAt <= now <= o.validUntil && 0.0 <= o.throttle <= 1.0
  }

  /** The sample can be waited over or used: it is the first, or the last again, or newer and in time. */
  predicate FirstSample(c: Controller) {
    !c.seeded
  }

  predicate NextSample(c: Controller, v: VehicleState) {
    c.seeded && v.sequence > c.sequence && 0 < v.acquiredAt - c.acquiredAt <= c.maximumGap
  }

  predicate SameSample(c: Controller, v: VehicleState) {
    c.seeded && v.sequence == c.sequence && v.acquiredAt == c.acquiredAt
  }

  /** Below the activation throttle the controller starts from empty integrals. */
  function Prepared(c: Controller, throttle: real): (r: Controller) {
    if throttle >= c.activationThrottle then c
    else
      c.(axis := [c.axis[0].(integral := 0.0), c.axis[1].(integral := 0.0), c.axis[2].(integral := 0.0)])
  }

  /** What an update with throttle does with the rates. */
  ghost predicate RatesFollow(c: Core, v: VehicleState, o: Objective, r: Core, output: CoreOutput) {
    var before, active := Prepared(c.controller, o.throttle), o.throttle >= c.controller.activationThrottle;
    && r.rateOutput == output.rateOutput && r.rateResult == output.rateResult && r.desired == output.desired
    && (output.rateResult == RateSeeded <==> FirstSample(c.controller))
    && (output.rateResult == RateUpdated <==> NextSample(c.controller, v))
    && (output.rateResult == RateSeeded ==> SeededWith(r.controller, v.rates, IntegralsOf(before)))
    && (output.rateResult == RateUpdated ==>
          && AxesObey(before, output.desired, v.rates, v.acquiredAt - c.controller.acquiredAt,
                      active && !c.controller.saturated, r.controller, output.rateOutput)
          && r.controller.acquiredAt == v.acquiredAt && r.controller.sequence == v.sequence)
  }

  /** How far the baseline lies above the armed idle. */
  predicate BaselineFollows(p: Profile, throttle: real, baseline: real) {
    baseline - p.armedIdle == throttle * (1.0 - p.armedIdle)
  }

  /**
   * One update, from end to end. It is accepted exactly with a current objective and either no throttle, or a valid
   * state whose sample is the first or the next and rates that can be asked for; it waits exactly for a sample already
   * used. An accepted update stands on the rates the objective asks for in this attitude, on the control law of each
   * axis between these rates and the measured ones, and on motors that do what its totals say; without throttle it
   * resets everything and idles.
   */
  lemma UpdateFollowsLaw(c: Core, p: Profile, v: Option<VehicleState>, o: Objective, now: uint64)
    requires CoreInv(c) && ProfileValid(p)
    ensures var (r, result, output) := UpdateCore(c, p, v, o, now);
            var ready := Current(o, now) && o.throttle > 0.0 && v.Some? && v.value.valid && AllAnswerable(p, o);
            && (result == CoreUpdated <==>
                  || (Current(o, now) && o.throttle == 0.0)
                  || (ready && (FirstSample(c.controller) || NextSample(c.controller, v.value))))
            && (result == CoreWaiting <==> ready && SameSample(c.controller, v.value))
            && (result == CoreUpdated ==>
                  && MotorsRespect(p, output, now) && r.controller.saturated == output.mixer.value.saturated)
            && (result == CoreUpdated && o.throttle == 0.0 ==>
                  && output.rateResult == RateDisabled && output.baseline == p.armedIdle && output.desired == ZeroAxes
                  && Unused(r.controller) && r.desired == ZeroAxes && output.rateOutput == NoOutput)
            && (result == CoreUpdated && o.throttle > 0.0 ==>
                  && AllAsk(p, v.value, o, output.desired)
                  && RatesFollow(c, v.value, o, r, output)
                  && BaselineFollows(p, if output.rateResult == RateUpdated then o.throttle else 0.0, output.baseline))
  {
    hide RunRates, MixRates, UpdateIdle, DesiredRates, MotorsRespect, ControllerInv, AllAsk, RatesFollow;
    if !ObjectiveUsable(o, now) {
      return;
    }
    if o.throttle == 0.0 {
      IdleResets(c, p, now);
      return;
    }
    if v.None? || !v.value.valid {
      return;
    }
    DesiredAsks(c.desired, p, v.value, o);
    var (desired, ok) := DesiredRates(c.desired, p, v.value, o);
    if ok {
      MotionFollows(c, p, v.value, o, desired, now);
    }
  }

  lemma IdleResets(c: Core, p: Profile, now: uint64)
    requires CoreInv(c) && ProfileValid(p)
    ensures var (r, result, output) := UpdateIdle(c, p, now);
            && result == CoreUpdated && MotorsRespect(p, output, now) && output.rateResult == RateDisabled
            && output.mixer.Some? && r.controller.saturated == output.mixer.value.saturated
            && output.baseline == p.armedIdle && output.desired == ZeroAxes && r.desired == ZeroAxes
            && Unused(r.controller) && output.rateOutput == NoOutput
  {
    hide MotorsRespect, ControllerInv;
    IdleKeeps(c, p, now);
  }

  lemma MotionFollows(c: Core, p: Profile, v: VehicleState, o: Objective, desired: Axes, now: uint64)
    requires CoreInv(c) && ProfileValid(p) && 0.0 < o.throttle <= 1.0
    ensures var ran := RunRates(c, desired, v, o.throttle);
            && |ran.rateOutput.terms| == AXIS_COUNT
            && var (r, result, output) := MixRates(ran, p, o.throttle, now);
               && (result == CoreUpdated <==> FirstSample(c.controller) || NextSample(c.controller, v))
               && (result == CoreWaiting <==> SameSample(c.controller, v))
               && (result == CoreUpdated ==>
                     && MotorsRespect(p, output, now) && output.mixer.Some?
                     && r.controller.saturated == output.mixer.value.saturated && output.desired == desired
                     && RatesFollow(c, v, o, r, output)
                     && BaselineFollows(p, if output.rateResult == RateUpdated then o.throttle else 0.0,
                                        output.baseline))
  {
    hide MotorsRespect, ControllerInv, ProcessRates, ApplyMixer, AxesObey, SeededWith;
    var before, active := Prepared(c.controller, o.throttle), o.throttle >= c.controller.activationThrottle;
    ClearedIntegrals(c.controller);
    assert before == if active then c.controller else ClearIntegrals(c.controller);
    RatesObey(before, desired, v.rates, v.acquiredAt, v.sequence, active);
    RatesStepKeeps(c, desired, v, o.throttle);
    var ran := RunRates(c, desired, v, o.throttle);
    MixRatesKeeps(ran, p, o.throttle, now);
    WaitsForState(ran, p, o.throttle, now);
    var (r, result, output) := MixRates(ran, p, o.throttle, now);
    var gap: nat := if NextSample(c.controller, v) then v.acquiredAt - c.controller.acquiredAt else 0;
    SaturationApart(ran.controller, output.rateOutput, r.controller, before, desired, v, gap,
                    active && !c.controller.saturated);
  }

  /** Reporting saturation changes nothing the law speaks of. */
  lemma SaturationApart(a: Controller, o: RateOutput, b: Controller, before: Controller, desired: Axes, v: VehicleState,
                        gap: nat, integrate: bool)
    requires b == a.(saturated := b.saturated)
    ensures AxesObey(before, desired, v.rates, gap, integrate, a, o) ==>
              AxesObey(before, desired, v.rates, gap, integrate, b, o)
    ensures SeededWith(a, v.rates, IntegralsOf(before)) ==> SeededWith(b, v.rates, IntegralsOf(before))
  {
    hide Obeys;
  }

  /** A profile the mixer cannot use is refused, whatever the objective asks for. */
  lemma UnusableProfileIsRefused(c: Core, p: Profile, v: Option<VehicleState>, o: Objective, now: uint64)
    requires !(0.0 <= p.armedIdle <= 1.0)
    ensures var (r, result, output) := UpdateCore(c, p, v, o, now);
            result != CoreUpdated && output == NoCoreOutput
  {
    hide ProcessRates, DesiredRates, ScaleOf, Mix;
    if v.Some? {
      OutputHasAxes(c, DesiredRates(c.desired, p, v.value, o).0, v.value, o.throttle);
    }
  }
}
