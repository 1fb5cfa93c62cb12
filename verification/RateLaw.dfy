/** What the rate controller does to the aircraft: the control law of each axis, and when it applies. */
module RateLaw {
  import opened Counters
  import opened QuadMixer
  import opened RateControl

  /** The value nearest to x in [-limit, limit]. */
  ghost predicate Limited(x: real, limit: real, r: real) {
    && -limit <= r <= limit && (-limit <= x <= limit ==> r == x)
    && (x > limit ==> r == limit) && (x < -limit ==> r == -limit)
  }

  /** What the axis would hold after integrating the error over the interval. */
  ghost predicate Integrates(p: Pid, error: real, dt: real, r: real) {
    Limited(p.integral + p.config.ki * error * dt, p.config.integralLimit, r)
  }

  /**
   * One update of one axis. The proportional part follows the error, the derivative part opposes the motion, the
   * integral takes in the error over the interval unless integration is off or the sum it would make lies beyond the
   * output limit on the side of the error, and the total is the sum of the three, limited.
   */
  ghost predicate Obeys(p: Pid, desired: real, measured: real, dt: real, integrate: bool, r: Pid, t: Terms) {
    var error := desired - measured;
    && t.proportional == p.config.kp * error
    && t.derivative * dt == -(p.config.kd * (measured - p.previous))
    && t.integral == r.integral && r.previous == measured && r.seeded && r.config == p.config
    && Limited(t.proportional + t.integral + t.derivative, p.config.outputLimit, t.total)
    && (if !integrate then r.integral == p.integral
        else
          exists taken: real ::
            && Integrates(p, error, dt, taken)
            && var sum, limit := t.proportional + taken + t.derivative, p.config.outputLimit;
               var further := (sum > limit && error > 0.0) || (sum < -limit && error < 0.0);
               r.integral == if further then p.integral else taken)
  }

  lemma Divided(a: real, b: real)
    requires b > 0.0
    ensures (a / b) * b == a
  {
  }

  lemma DerivativeOpposes(kd: real, change: real, dt: real)
    requires dt > 0.0
    ensures (-kd * (change / dt)) * dt == -(kd * change)
  {
    Divided(change, dt);
    assert (-kd * (change / dt)) * dt == -kd * ((change / dt) * dt);
  }

  lemma UpdateObeys(p: Pid, desired: real, measured: real, dt: real, integrate: bool)
    requires p.seeded && dt > 0.0 && p.config.Valid()
    ensures UpdatePid(p, desired, measured, dt, integrate).Some?
    ensures var (r, t) := UpdatePid(p, desired, measured, dt, integrate).value;
            Obeys(p, desired, measured, dt, integrate, r, t)
  {
    var (r, t) := UpdatePid(p, desired, measured, dt, integrate).value;
    DerivativeOpposes(p.config.kd, measured - p.previous, dt);
    assert Integrates(p, desired - measured, dt, Candidate(p, desired - measured, dt));
  }

  /** The law leaves nothing open: two updates that obey it are the same. */
  lemma LawDecides(p: Pid, desired: real, measured: real, dt: real, integrate: bool, r: Pid, t: Terms, r': Pid,
                   t': Terms)
    requires dt > 0.0 && p.config.Valid()
    requires Obeys(p, desired, measured, dt, integrate, r, t) && Obeys(p, desired, measured, dt, integrate, r', t')
    ensures r == r' && t == t'
  {
    Cancels(t.derivative, t'.derivative, dt, -(p.config.kd * (measured - p.previous)));
  }

  lemma Cancels(a: real, b: real, c: real, product: real)
    requires a * c == product && b * c == product && c > 0.0
    ensures a == b
  {
    assert (a - b) * c == 0.0;
  }

  lemma SignOfProduct(a: real, b: real)
    requires a >= 0.0
    ensures b >= 0.0 ==> a * b >= 0.0
    ensures b <= 0.0 ==> a * b <= 0.0
    ensures a > 0.0 && b > 0.0 ==> a * b > 0.0
    ensures a > 0.0 && b < 0.0 ==> a * b < 0.0
  {
  }

  lemma SignOfQuotient(a: real, dt: real, product: real)
    requires dt > 0.0 && a * dt == product
    ensures (product >= 0.0 ==> a >= 0.0) && (product <= 0.0 ==> a <= 0.0)
  {
  }

  lemma StepMoves(before: real, step: real, limit: real, taken: real)
    requires Limited(before + step, limit, taken) && -limit <= before <= limit
    ensures (step >= 0.0 ==> before <= taken <= before + step) && (step <= 0.0 ==> before + step <= taken <= before)
    ensures taken == before ==> step == 0.0 || (step > 0.0 && before == limit) || (step < 0.0 && before == -limit)
    ensures -limit <= before + step <= limit ==> taken == before + step
  {
  }

  /** What the integral would gain. */
  function Gain(p: Pid, error: real, dt: real): (g: real) {
    p.config.ki * error * dt
  }

  lemma IntegralSteers(p: Pid, desired: real, measured: real, dt: real, integrate: bool)
    requires PidInv(p) && p.seeded && dt > 0.0
    ensures var (r, t) := UpdatePid(p, desired, measured, dt, integrate).value;
            var error := desired - measured;
            && (error >= 0.0 ==> p.integral <= r.integral <= p.integral + Gain(p, error, dt))
            && (error <= 0.0 ==> p.integral + Gain(p, error, dt) <= r.integral <= p.integral)
            && (r.integral == p.integral ==>
                  || !integrate || Gain(p, error, dt) == 0.0
                  || (error > 0.0 && p.integral == p.config.integralLimit)
                  || (error < 0.0 && p.integral == -p.config.integralLimit)
                  || DrivenOut(p, t, error, dt))
            && (integrate && !DrivenOut(p, t, error, dt)
                && -p.config.integralLimit <= p.integral + Gain(p, error, dt) <= p.config.integralLimit ==>
                  r.integral == p.integral + Gain(p, error, dt))
  {
    hide UpdatePid, Integrates, DrivenOut;
    UpdateObeys(p, desired, measured, dt, integrate);
    var (r, t) := UpdatePid(p, desired, measured, dt, integrate).value;
    var error := desired - measured;
    SignOfProduct(p.config.ki, error);
    SignOfStep(p.config.ki * error, dt);
    if integrate {
      var taken := TakenBy(p, desired, measured, dt, r, t);
      TakenMoves(p, error, dt, taken);
    }
  }

  /** What the integral took in, or would have. */
  lemma TakenBy(p: Pid, desired: real, measured: real, dt: real, r: Pid, t: Terms) returns (taken: real)
    requires Obeys(p, desired, measured, dt, true, r, t)
    ensures Integrates(p, desired - measured, dt, taken)
    ensures r.integral == taken || (r.integral == p.integral && DrivenOut(p, t, desired - measured, dt))
  {
    hide Limited;
    taken :| && Integrates(p, desired - measured, dt, taken)
             && var sum, limit := t.proportional + taken + t.derivative, p.config.outputLimit;
                r.integral == if (sum > limit && desired - measured > 0.0) || (sum < -limit && desired - measured < 0.0)
                              then p.integral else taken;
  }

  lemma TakenMoves(p: Pid, error: real, dt: real, taken: real)
    requires PidInv(p) && Integrates(p, error, dt, taken)
    ensures var step, limit := Gain(p, error, dt), p.config.integralLimit;
            && (step >= 0.0 ==> p.integral <= taken <= p.integral + step)
            && (step <= 0.0 ==> p.integral + step <= taken <= p.integral)
            && (taken == p.integral ==>
                  step == 0.0 || (step > 0.0 && p.integral == limit) || (step < 0.0 && p.integral == -limit))
            && (-limit <= p.integral + step <= limit ==> taken == p.integral + step)
  {
    StepMoves(p.integral, Gain(p, error, dt), p.config.integralLimit, taken);
  }

  /**
   * What the law means on an axis: a change of the demand changes the proportional part by the gain times it; the
   * derivative part brakes; the integral moves only toward the error, by no more than its gain times the error over
   * the interval, by exactly that inside its limits, and stays only if integration is off, the sum it would make lies
   * beyond the output limit on the side of the error, or it is at its own limit there.
   */
  lemma LawSteers(p: Pid, desired: real, measured: real, dt: real, integrate: bool, further: real)
    requires PidInv(p) && p.seeded && dt > 0.0
    ensures var (r, t) := UpdatePid(p, desired, measured, dt, integrate).value;
            var other := UpdatePid(p, desired + further, measured, dt, integrate).value.1;
            var error, gain := desired - measured, p.config.ki * (desired - measured) * dt;
            && other.proportional - t.proportional == p.config.kp * further
            && (error == 0.0 ==> t.proportional == 0.0)
            && (measured >= p.previous ==> t.derivative <= 0.0) && (measured <= p.previous ==> t.derivative >= 0.0)
            && t.derivative * dt == -(p.config.kd * (measured - p.previous))
            && (error >= 0.0 ==> p.integral <= r.integral <= p.integral + gain)
            && (error <= 0.0 ==> p.integral + gain <= r.integral <= p.integral)
            && (r.integral == p.integral ==>
                  || !integrate || gain == 0.0 || DrivenOut(p, t, error, dt)
                  || (error > 0.0 && p.integral == p.config.integralLimit)
                  || (error < 0.0 && p.integral == -p.config.integralLimit))
            && (integrate && !DrivenOut(p, t, error, dt)
                && -p.config.integralLimit <= p.integral + gain <= p.config.integralLimit ==>
                  r.integral == p.integral + gain)
  {
    hide UpdatePid, DrivenOut, Obeys;
    PartsOf(p, desired, measured, dt, integrate);
    PartsOf(p, desired + further, measured, dt, integrate);
    ProportionalChange(p.config.kp, desired, measured, further);
    IntegralSteers(p, desired, measured, dt, integrate);
  }

  lemma PartsOf(p: Pid, desired: real, measured: real, dt: real, integrate: bool)
    requires PidInv(p) && p.seeded && dt > 0.0
    ensures UpdatePid(p, desired, measured, dt, integrate).Some?
    ensures var t := UpdatePid(p, desired, measured, dt, integrate).value.1;
            && t.proportional == p.config.kp * (desired - measured)
            && t.derivative * dt == -(p.config.kd * (measured - p.previous))
            && (measured >= p.previous ==> t.derivative <= 0.0) && (measured <= p.previous ==> t.derivative >= 0.0)
  {
    hide UpdatePid;
    UpdateObeys(p, desired, measured, dt, integrate);
    var t := UpdatePid(p, desired, measured, dt, integrate).value.1;
    SignOfProduct(p.config.kd, measured - p.previous);
    SignOfQuotient(t.derivative, dt, -(p.config.kd * (measured - p.previous)));
  }

  lemma ProportionalChange(kp: real, desired: real, measured: real, further: real)
    ensures kp * (desired + further - measured) == kp * (desired - measured) + kp * further
    ensures desired == measured ==> kp * (desired - measured) == 0.0
  {
  }

  lemma SignOfStep(a: real, dt: real)
    requires dt > 0.0
    ensures (a >= 0.0 ==> a * dt >= 0.0) && (a <= 0.0 ==> a * dt <= 0.0)
  {
  }

  /** The sum the integral would make lies beyond the output limit, on the side of the error. */
  ghost predicate DrivenOut(p: Pid, t: Terms, error: real, dt: real) {
    exists taken: real ::
      && Integrates(p, error, dt, taken)
      && var sum := t.proportional + taken + t.derivative;
         (sum > p.config.outputLimit && error > 0.0) || (sum < -p.config.outputLimit && error < 0.0)
  }

  /** An axis at rest with an empty integral pushes toward its demand. */
  lemma PushesTowardDemand(p: Pid, desired: real, measured: real, dt: real, integrate: bool)
    requires PidInv(p) && p.seeded && dt > 0.0 && p.integral == 0.0 && measured == p.previous
    ensures var total := UpdatePid(p, desired, measured, dt, integrate).value.1.total;
            && (desired >= measured ==> total >= 0.0) && (desired <= measured ==> total <= 0.0)
            && (p.config.kp > 0.0 && desired > measured ==> total > 0.0)
            && (p.config.kp > 0.0 && desired < measured ==> total < 0.0)
  {
    hide UpdatePid, DrivenOut, Integrates;
    LawSteers(p, desired, measured, dt, integrate, 0.0);
    UpdateObeys(p, desired, measured, dt, integrate);
    var t := UpdatePid(p, desired, measured, dt, integrate).value.1;
    SignOfProduct(p.config.kp, desired - measured);
    SignOfQuotient(t.derivative, dt, 0.0);
  }

  /** Nothing is left of an earlier flight. */
  predicate Unused(c: Controller) {
    && !c.seeded && !c.saturated && c.acquiredAt == 0 && c.sequence == 0
    && forall i | 0 <= i < AXIS_COUNT ::
         !c.axis[i].seeded && c.axis[i].integral == 0.0 && c.axis[i].previous == 0.0
  }

  /* ---------------- three axes ---------------- */

  /** Every axis obeys its law, with its own gains, demand and measurement, over the time between the samples. */
  ghost predicate AxesObey(c: Controller, desired: Axes, measured: Axes, gap: nat, integrate: bool, r: Controller,
                     o: RateOutput)
  {
    |o.terms| == AXIS_COUNT &&
    forall i | 0 <= i < AXIS_COUNT ::
      Obeys(c.axis[i], desired[i], measured[i], gap as real / 1000000.0, integrate, r.axis[i], o.terms[i])
  }

  /** The axes remember this measurement and hold these integrals. */
  ghost predicate SeededWith(r: Controller, measured: Axes, integrals: Axes) {
    r.seeded && forall i | 0 <= i < AXIS_COUNT ::
      r.axis[i].seeded && r.axis[i].previous == measured[i] && r.axis[i].integral == integrals[i]
  }

  /**
   * Which sample does what: the first seeds, one seen before is waited over, one that is not newer in both number and
   * time, or comes after too long a gap, loses continuity; every other one is an update, and its axes obey the law.
   */
  lemma RatesObey(c: Controller, desired: Axes, measured: Axes, at: uint64, number: uint64, integrate: bool)
    requires ControllerInv(c)
    ensures var (r, result, output) := ProcessRates(c, desired, measured, at, number, integrate);
            && (result == RateSeeded <==> !c.seeded)
            && (result == RateNoNewSample <==> c.seeded && number == c.sequence && at == c.acquiredAt)
            && (result == RateUpdated <==>
                  c.seeded && number > c.sequence && 0 < at - c.acquiredAt <= c.maximumGap)
            && (result == RateContinuityLost <==>
                  && c.seeded && !(number == c.sequence && at == c.acquiredAt)
                  && (number <= c.sequence || at <= c.acquiredAt || at - c.acquiredAt > c.maximumGap))
            && (result == RateNoNewSample ==> r == c)
            && (result == RateSeeded ==> SeededWith(r, measured, IntegralsOf(c)))
            && (result == RateContinuityLost ==>
                  && (r.seeded <==> number > c.sequence && at > c.acquiredAt)
                  && !r.saturated && (if r.seeded then SeededWith(r, measured, ZeroAxes) else Unused(r)))
            && (result != RateContinuityLost ==> r.saturated == c.saturated)
            && (result != RateUpdated ==> output == NoOutput)
            && (result == RateUpdated ==>
                  && r.seeded && AxesObey(c, desired, measured, at - c.acquiredAt, integrate && !c.saturated, r, output)
                  && output.dt == at - c.acquiredAt && output.acquiredAt == at && output.sequence == number)
            && (r.seeded ==> r.acquiredAt == at && r.sequence == number)
  {
    hide UpdatePid;
    var gap: int := at - c.acquiredAt;
    if c.seeded && number > c.sequence && 0 < gap <= c.maximumGap {
      GapIsPositive(gap);
      var dt := Seconds(gap);
      UpdateObeys(c.axis[0], desired[0], measured[0], dt, integrate && !c.saturated);
      UpdateObeys(c.axis[1], desired[1], measured[1], dt, integrate && !c.saturated);
      UpdateObeys(c.axis[2], desired[2], measured[2], dt, integrate && !c.saturated);
    }
  }

  /** Disabled control leaves nothing behind; enabled control is the one above. */
  lemma DisabledLeavesNothing(c: Controller, desired: Axes, measured: Axes, at: uint64, number: uint64, enabled: bool,
                              integrate: bool)
    ensures var (r, result, output) := ControlRates(c, desired, measured, at, number, enabled, integrate);
            if enabled then (r, result, output) == ProcessRates(c, desired, measured, at, number, integrate)
            else
              && result == RateDisabled && output == NoOutput && Unused(r) && SameConfigs(r, c)
              && r.maximumGap == c.maximumGap && r.activationThrottle == c.activationThrottle
  {
    hide ProcessRates;
  }
}
