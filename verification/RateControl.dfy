/** The per-axis rate PID and the three-axis controller around it. */
module RateControl {
  import opened Counters
  import opened QuadMixer

  const MAXIMUM_GAIN: real := 10.0
  const MAXIMUM_GAP_US: nat := 1_000_000

  /* ---------------- one axis ---------------- */

  datatype PidConfig = PidConfig(kp: real, ki: real, kd: real, integralLimit: real, outputLimit: real)
  {
    predicate Valid() {
      && 0.0 <= kp <= MAXIMUM_GAIN && 0.0 <= ki <= MAXIMUM_GAIN && 0.0 <= kd <= MAXIMUM_GAIN
      && 0.0 <= integralLimit <= outputLimit && 0.0 < outputLimit <= 1.0
    }
  }

  datatype Pid = Pid(config: PidConfig, integral: real, previous: real, seeded: bool)

  datatype Terms = Terms(proportional: real, integral: real, derivative: real, total: real)

  const NoTerms: Terms := Terms(0.0, 0.0, 0.0, 0.0)

  function ClampTo(value: real, limit: real): (r: real) {
    if value > limit then limit else if value < -limit then -limit else value
  }

  function Abs(x: real): (r: real)
    ensures r >= 0.0 && (r == x || r == -x)
  {
    if x < 0.0 then -x else x
  }

  function Candidate(p: Pid, error: real, dt: real): (c: real) {
    ClampTo(p.integral + p.config.ki * error * dt, p.config.integralLimit)
  }

  function DerivativeTerm(p: Pid, measured: real, dt: real): (d: real)
    requires dt > 0.0
  {
    -p.config.kd * ((measured - p.previous) / dt)
  }

  function ProportionalTerm(p: Pid, error: real): (t: real) {
    p.config.kp * error
  }

  /** The candidate would push the output further past its limit in the direction of the error. */
  predicate DrivesFurther(total: real, error: real, limit: real) {
    (total > limit && error > 0.0) || (total < -limit && error < 0.0)
  }

  /** One PID step; None where the firmware reports failure. */
  function UpdatePid(p: Pid, desired: real, measured: real, dt: real, integrate: bool): (r: Option<(Pid, Terms)>) {
    if !p.seeded || dt <= 0.0 then None
    else
      var error := desired - measured;
      var proportional := ProportionalTerm(p, error);
      var derivative := DerivativeTerm(p, measured, dt);
      var candidate := if integrate then Candidate(p, error, dt) else p.integral;
      var moves := integrate && !DrivesFurther(proportional + candidate + derivative, error, p.config.outputLimit);
      var integral := if moves then candidate else p.integral;
      Some((p.(integral := integral, previous := measured),
            Terms(proportional, integral, derivative, ClampTo(proportional + integral + derivative,
                p.config.outputLimit))))
  }

  ghost predicate PidInv(p: Pid) {
    p.config.Valid() && Abs(p.integral) <= p.config.integralLimit
  }

  /** Bounded integral and output, and no step winds the integral further into saturation. */
  lemma PidKeeps(p: Pid, desired: real, measured: real, dt: real, integrate: bool)
    requires PidInv(p)
    ensures UpdatePid(p, desired, measured, dt, integrate).Some? <==> p.seeded && dt > 0.0
    ensures UpdatePid(p, desired, measured, dt, integrate).Some? ==>
              var (r, t) := UpdatePid(p, desired, measured, dt, integrate).value;
              && PidInv(r) && r.config == p.config && r.seeded
              && Abs(t.total) <= p.config.outputLimit <= 1.0
              && (!integrate ==> r.integral == p.integral)
              && (r.integral != p.integral ==>
                    var sum := t.proportional + t.integral + t.derivative;
                    && (sum > p.config.outputLimit ==> desired <= measured)
                    && (sum < -p.config.outputLimit ==> desired >= measured))
  {
    hide ProportionalTerm, DerivativeTerm;
    if p.seeded && dt > 0.0 {
      CandidateBounded(p, desired - measured, dt);
    }
  }

  lemma CandidateBounded(p: Pid, error: real, dt: real)
    requires PidInv(p)
    ensures Abs(Candidate(p, error, dt)) <= p.config.integralLimit
  {
  }

  method RunPid(p: Pid, desired: real, measured: real, dt: real, integrate: bool) returns (r: Option<(Pid, Terms)>)
    ensures r == UpdatePid(p, desired, measured, dt, integrate)
  {
    hide ProportionalTerm, DerivativeTerm, Candidate;
    if !p.seeded || dt <= 0.0 {
      return None;
    }
    var error := desired - measured;
    var proportional, derivative := ProportionalTerm(p, error), DerivativeTerm(p, measured, dt);
    var integral := p.integral;
    if integrate {
      var candidate := Candidate(p, error, dt);
      if !DrivesFurther(proportional + candidate + derivative, error, p.config.outputLimit) {
        integral := candidate;
      }
    }
    var total := ClampTo(proportional + integral + derivative, p.config.outputLimit);
    return Some((p.(integral := integral, previous := measured), Terms(proportional, integral, derivative, total)));
  }

  /* ---------------- three axes ---------------- */

  type Pids = p: seq<Pid> | |p| == 3 witness
    [Pid(PidConfig(0.0, 0.0, 0.0, 0.0, 1.0), 0.0, 0.0, false), Pid(PidConfig(0.0, 0.0, 0.0, 0.0, 1.0), 0.0, 0.0, false),
     Pid(PidConfig(0.0, 0.0, 0.0, 0.0, 1.0), 0.0, 0.0, false)]

  datatype RateOutput = RateOutput(terms: seq<Terms>, acquiredAt: uint64, sequence: uint64, dt: uint32, valid: bool)

  const NoOutput: RateOutput := RateOutput([NoTerms, NoTerms, NoTerms], 0, 0, 0, false)

  datatype RateResult = RateUpdated | RateSeeded | RateDisabled | RateNoNewSample | RateContinuityLost
      | RateInvalidInput

  datatype Controller = Controller(
    maximumGap: uint32, activationThrottle: real, axis: Pids, acquiredAt: uint64, sequence: uint64, saturated: bool,
    seeded: bool)

  ghost predicate ConfigInv(c: Controller) {
    && 0 < c.maximumGap <= MAXIMUM_GAP_US && 0.0 <= c.activationThrottle <= 1.0
    && c.axis[0].config.Valid() && c.axis[1].config.Valid() && c.axis[2].config.Valid()
  }

  ghost predicate ControllerInv(c: Controller) {
    ConfigInv(c) && PidInv(c.axis[0]) && PidInv(c.axis[1]) && PidInv(c.axis[2])
    && (c.seeded ==> c.axis[0].seeded && c.axis[1].seeded && c.axis[2].seeded)
  }

  function ResetPid(p: Pid): (r: Pid) {
    p.(integral := 0.0, previous := 0.0, seeded := false)
  }

  function ResetController(c: Controller): (r: Controller) {
    c.(axis := [ResetPid(c.axis[0]), ResetPid(c.axis[1]), ResetPid(c.axis[2])], acquiredAt := 0, sequence := 0,
       seeded := false, saturated := false)
  }

  function ClearIntegrals(c: Controller): (r: Controller) {
    c.(axis := [c.axis[0].(integral := 0.0), c.axis[1].(integral := 0.0), c.axis[2].(integral := 0.0)])
  }

  function Seed(c: Controller, measured: Axes, acquiredAt: uint64, sequence: uint64): (r: Controller) {
    c.(axis := [c.axis[0].(previous := measured[0], seeded := true),
        c.axis[1].(previous := measured[1], seeded := true),
                c.axis[2].(previous := measured[2], seeded := true)],
       acquiredAt := acquiredAt, sequence := sequence, seeded := true)
  }

  function Seconds(gap: nat): (dt: real) {
    gap as real / 1000000.0
  }

  /** All three axes, or none if any of them fails. */
  function UpdateAxes(c: Controller, desired: Axes, measured: Axes, gap: uint32, integrate: bool)
    : (r: Option<(Pids, seq<Terms>)>)
  {
    var dt := Seconds(gap);
    var a := UpdatePid(c.axis[0], desired[0], measured[0], dt, integrate);
    var b := UpdatePid(c.axis[1], desired[1], measured[1], dt, integrate);
    var d := UpdatePid(c.axis[2], desired[2], measured[2], dt, integrate);
    if a.None? || b.None? || d.None? then None
    else Some(([a.value.0, b.value.0, d.value.0], [a.value.1, b.value.1, d.value.1]))
  }

  function ProcessRates(c: Controller, desired: Axes, measured: Axes, acquiredAt: uint64, sequence: uint64,
          integrate: bool)
    : (r: (Controller, RateResult, RateOutput))
  {
    if !c.seeded then (Seed(c, measured, acquiredAt, sequence), RateSeeded, NoOutput)
    else if sequence == c.sequence && acquiredAt == c.acquiredAt then (c, RateNoNewSample, NoOutput)
    else if sequence <= c.sequence || acquiredAt <= c.acquiredAt then
      (ResetController(c), RateContinuityLost, NoOutput)
    else if acquiredAt - c.acquiredAt > c.maximumGap then
      (Seed(ResetController(c), measured, acquiredAt, sequence), RateContinuityLost, NoOutput)
    else
      match UpdateAxes(c, desired, measured, acquiredAt - c.acquiredAt, integrate && !c.saturated)
      case None => (ResetController(c), RateInvalidInput, NoOutput)
      case Some((axis, terms)) =>
        (c.(axis := axis, acquiredAt := acquiredAt, sequence := sequence), RateUpdated,
         RateOutput(terms, acquiredAt, sequence, acquiredAt - c.acquiredAt, true))
  }

  /** Disabled control resets the controller. */
  function ControlRates(c: Controller, desired: Axes, measured: Axes, acquiredAt: uint64, sequence: uint64,
                        enabled: bool, integrate: bool)
    : (r: (Controller, RateResult, RateOutput))
  {
    if !enabled then (ResetController(c), RateDisabled, NoOutput)
    else ProcessRates(c, desired, measured, acquiredAt, sequence, integrate)
  }

  function IntegralsOf(c: Controller): (i: Axes) {
    [c.axis[0].integral, c.axis[1].integral, c.axis[2].integral]
  }

  /** The corrections the mixer is given. */
  function Totals(o: RateOutput): (t: Axes)
    requires |o.terms| == AXIS_COUNT
  {
    [o.terms[0].total, o.terms[1].total, o.terms[2].total]
  }

  predicate SameConfigs(a: Controller, b: Controller) {
    && a.axis[0].config == b.axis[0].config && a.axis[1].config == b.axis[1].config
    && a.axis[2].config == b.axis[2].config
  }

  /** Every total is within its axis's output limit, which is at most one. */
  predicate TotalsBounded(o: RateOutput, c: Controller)
    requires |o.terms| == AXIS_COUNT
  {
    forall i | 0 <= i < AXIS_COUNT :: Abs(o.terms[i].total) <= c.axis[i].config.outputLimit <= 1.0
  }

  lemma GapIsPositive(gap: nat)
    requires gap > 0
    ensures Seconds(gap) > 0.0
  {
  }

  lemma AxesKeep(c: Controller, desired: Axes, measured: Axes, gap: uint32, integrate: bool)
    requires ControllerInv(c) && c.seeded && gap > 0
    ensures UpdateAxes(c, desired, measured, gap, integrate).Some?
    ensures var (axis, terms) := UpdateAxes(c, desired, measured, gap, integrate).value;
            && ControllerInv(c.(axis := axis)) && |terms| == AXIS_COUNT
            && SameConfigs(c.(axis := axis), c)
            && (forall i | 0 <= i < AXIS_COUNT :: Abs(terms[i].total) <= c.axis[i].config.outputLimit <= 1.0)
            && (!integrate ==> IntegralsOf(c.(axis := axis)) == IntegralsOf(c))
  {
    hide UpdatePid, Seconds, PidInv;
    GapIsPositive(gap);
    var dt := Seconds(gap);
    PidKeeps(c.axis[0], desired[0], measured[0], dt, integrate);
    PidKeeps(c.axis[1], desired[1], measured[1], dt, integrate);
    PidKeeps(c.axis[2], desired[2], measured[2], dt, integrate);
  }

  /**
   * Every way through the controller keeps it sound; corrections are bounded, and a saturated mix freezes the
   * integrals.
   */
  lemma RatesKeep(c: Controller, desired: Axes, measured: Axes, acquiredAt: uint64, sequence: uint64, integrate: bool)
    requires ControllerInv(c)
    ensures var (r, result, output) := ProcessRates(c, desired, measured, acquiredAt, sequence, integrate);
            && ControllerInv(r) && r.activationThrottle == c.activationThrottle && r.maximumGap == c.maximumGap
            && result != RateInvalidInput && result != RateDisabled
            && |output.terms| == AXIS_COUNT
            && (result == RateUpdated <==> output.valid)
            && (result == RateUpdated ==> CorrectionsValid(Totals(output)) && TotalsBounded(output, c))
            && SameConfigs(r, c) && r.saturated == (c.saturated && result != RateContinuityLost)
            && (!integrate || c.saturated ==>
                  IntegralsOf(r) == IntegralsOf(c) || IntegralsOf(r) == ZeroAxes)
  {
    hide UpdateAxes, IntegralsOf;
    var gap: int := acquiredAt - c.acquiredAt;
    if c.seeded && 0 < gap <= c.maximumGap && sequence > c.sequence {
      AxesKeep(c, desired, measured, gap, integrate && !c.saturated);
      SameIntegrals(c, desired, measured, acquiredAt, sequence, integrate && !c.saturated);
    } else {
      ResetIntegrals(c, measured, acquiredAt, sequence);
    }
  }

  lemma SameIntegrals(c: Controller, desired: Axes, measured: Axes, acquiredAt: uint64, sequence: uint64,
          integrate: bool)
    requires c.acquiredAt < acquiredAt <= c.acquiredAt + UINT32_MAX
    ensures var axes := UpdateAxes(c, desired, measured, acquiredAt - c.acquiredAt, integrate);
            axes.Some? ==>
              IntegralsOf(c.(axis := axes.value.0, acquiredAt := acquiredAt, sequence := sequence)) ==
              IntegralsOf(c.(axis := axes.value.0))
  {
    hide UpdateAxes;
  }

  lemma ResetIntegrals(c: Controller, measured: Axes, acquiredAt: uint64, sequence: uint64)
    ensures IntegralsOf(ResetController(c)) == ZeroAxes
    ensures IntegralsOf(Seed(ResetController(c), measured, acquiredAt, sequence)) == ZeroAxes
    ensures IntegralsOf(Seed(c, measured, acquiredAt, sequence)) == IntegralsOf(c)
    ensures ControllerInv(c) ==>
              && ControllerInv(ResetController(c))
              && ControllerInv(Seed(ResetController(c), measured, acquiredAt, sequence))
              && ControllerInv(Seed(c, measured, acquiredAt, sequence))
  {
  }

  /* ---------------- the controller updated in place ---------------- */

  class RateController {
    const maximumGap: uint32
    const activationThrottle: real
    const axis: array<Pid>
    var acquiredAt: uint64
    var sequence: uint64
    var saturated: bool
    var seeded: bool

    ghost predicate Valid()
      reads this
    {
      axis.Length == AXIS_COUNT
    }

    ghost function View(): (c: Controller)
      requires Valid()
      reads this, axis
    {
      Controller(maximumGap, activationThrottle, axis[..], acquiredAt, sequence, saturated, seeded)
    }

    constructor (maximumGap: uint32, activationThrottle: real, configs: seq<PidConfig>)
      requires |configs| == AXIS_COUNT && 0 < maximumGap <= MAXIMUM_GAP_US && 0.0 <= activationThrottle <= 1.0
      requires configs[0].Valid() && configs[1].Valid() && configs[2].Valid()
      ensures Valid() && fresh(axis) && ControllerInv(View()) && !seeded && IntegralsOf(View()) == ZeroAxes
      ensures this.maximumGap == maximumGap && this.activationThrottle == activationThrottle
    {
      this.maximumGap := maximumGap;
      this.activationThrottle := activationThrottle;
      axis := new Pid[AXIS_COUNT](i requires 0 <= i < AXIS_COUNT => Pid(configs[i], 0.0, 0.0, false));
      acquiredAt, sequence, saturated, seeded := 0, 0, false, false;
    }

    method Reset()
      requires Valid()
      modifies this, axis
      ensures Valid() && View() == ResetController(old(View()))
    {
      for index := 0 to AXIS_COUNT
        invariant forall i | 0 <= i < index :: axis[i] == ResetPid(old(axis[i]))
        invariant forall i | index <= i < AXIS_COUNT :: axis[i] == old(axis[i])
      {
        axis[index] := axis[index].(integral := 0.0, previous := 0.0, seeded := false);
      }
      acquiredAt, sequence := 0, 0;
      seeded, saturated := false, false;
      assert axis[..] == ResetController(old(View())).axis;
    }

    method ClearAllIntegrals()
      requires Valid()
      modifies this, axis
      ensures Valid() && View() == ClearIntegrals(old(View()))
    {
      for index := 0 to AXIS_COUNT
        invariant forall i | 0 <= i < index :: axis[i] == old(axis[i]).(integral := 0.0)
        invariant forall i | index <= i < AXIS_COUNT :: axis[i] == old(axis[i])
        invariant unchanged(this)
      {
        axis[index] := axis[index].(integral := 0.0);
      }
      assert axis[..] == ClearIntegrals(old(View())).axis;
    }

    method ReportSaturation(actuators: bool)
      requires Valid()
      modifies this
      ensures Valid() && View() == old(View()).(saturated := actuators)
    {
      saturated := actuators;
    }

    method SeedAll(measured: Axes, at: uint64, number: uint64)
      requires Valid()
      modifies this, axis
      ensures Valid() && View() == Seed(old(View()), measured, at, number)
    {
      for index := 0 to AXIS_COUNT
        invariant forall i | 0 <= i < index :: axis[i] == old(axis[i]).(previous := measured[i], seeded := true)
        invariant forall i | index <= i < AXIS_COUNT :: axis[i] == old(axis[i])
        invariant unchanged(this)
      {
        axis[index] := axis[index].(previous := measured[index], seeded := true);
      }
      acquiredAt, sequence, seeded := at, number, true;
      assert axis[..] == Seed(old(View()), measured, at, number).axis;
    }

    /** Updates the axes one after the other; any failure resets them all. */
    method UpdateAll(desired: Axes, measured: Axes, gap: uint32, integrate: bool) returns (terms: Option<seq<Terms>>)
      requires Valid()
      modifies this, axis
      ensures Valid()
      ensures var updated := UpdateAxes(old(View()), desired, measured, gap, integrate);
              if updated.None? then terms == None && View() == ResetController(old(View()))
              else terms == Some(updated.value.1) && View() == old(View()).(axis := updated.value.0)
    {
      hide UpdatePid, Seconds;
      var collected: seq<Terms> := [];
      ghost var configs := axis[..];
      for index := 0 to AXIS_COUNT
        invariant |collected| == index && unchanged(this)
        invariant forall i | 0 <= i < index ::
                    UpdatePid(old(axis[i]), desired[i], measured[i], Seconds(gap), integrate) ==
                    Some((axis[i], collected[i]))
        invariant forall i | 0 <= i < index :: ResetPid(axis[i]) == ResetPid(old(axis[i]))
        invariant forall i | index <= i < AXIS_COUNT :: axis[i] == old(axis[i])
      {
        var updated := RunPid(axis[index], desired[index], measured[index], Seconds(gap), integrate);
        if updated.None? {
          Reset();
          return None;
        }
        UpdateKeepsConfig(axis[index], desired[index], measured[index], Seconds(gap), integrate);
        axis[index] := updated.value.0;
        collected := collected + [updated.value.1];
      }
      assert UpdatePid(old(axis[0]), desired[0], measured[0], Seconds(gap), integrate) == Some((axis[0], collected[0]));
      assert UpdatePid(old(axis[1]), desired[1], measured[1], Seconds(gap), integrate) == Some((axis[1], collected[1]));
      assert UpdatePid(old(axis[2]), desired[2], measured[2], Seconds(gap), integrate) == Some((axis[2], collected[2]));
      assert collected == [collected[0], collected[1], collected[2]];
      assert axis[..] == [axis[0], axis[1], axis[2]];
      return Some(collected);
    }

    method Process(desired: Axes, measured: Axes, at: uint64, number: uint64, enabled: bool, integrate: bool)
      returns (result: RateResult, output: RateOutput)
      requires Valid()
      modifies this, axis
      ensures Valid()
      ensures (View(), result, output) == ControlRates(old(View()), desired, measured, at, number, enabled, integrate)
    {
      hide UpdateAxes, ResetController, Seed;
      output := NoOutput;
      if !enabled {
        Reset();
        return RateDisabled, output;
      }
      if !seeded {
        SeedAll(measured, at, number);
        return RateSeeded, output;
      }
      if number == sequence && at == acquiredAt {
        return RateNoNewSample, output;
      }
      if number <= sequence || at <= acquiredAt {
        Reset();
        return RateContinuityLost, output;
      }
      var gap := at - acquiredAt;
      if gap > maximumGap {
        Reset();
        SeedAll(measured, at, number);
        return RateContinuityLost, output;
      }
      var terms := UpdateAll(desired, measured, gap, integrate && !saturated);
      if terms.None? {
        return RateInvalidInput, output;
      }
      acquiredAt, sequence := at, number;
      output := RateOutput(terms.value, at, number, gap, true);
      return RateUpdated, output;
    }
  }

  lemma UpdateKeepsConfig(p: Pid, desired: real, measured: real, dt: real, integrate: bool)
    ensures UpdatePid(p, desired, measured, dt, integrate).Some? ==>
              ResetPid(UpdatePid(p, desired, measured, dt, integrate).value.0) == ResetPid(p)
  {
    hide ProportionalTerm, DerivativeTerm, Candidate;
  }
}
