/** The quad-X mixer: corrections around a collective throttle, scaled together until every motor fits. */
module QuadMixer {
  import opened Counters
  import opened MotorCommands

  datatype Layout = PropsIn | PropsOut

  const AXIS_COUNT: nat := 3

  /** One value per axis: roll, pitch, yaw. */
  type Axes = a: seq<real> | |a| == 3 witness [0.0, 0.0, 0.0]

  const ZeroAxes: Axes := [0.0, 0.0, 0.0]

  datatype MixerOutput = MixerOutput(command: Command, scale: real, saturated: bool)

  predicate UnitValue(x: real) {
    0.0 <= x <= 1.0
  }

  predicate CorrectionsValid(c: Axes) {
    -1.0 <= c[0] <= 1.0 && -1.0 <= c[1] <= 1.0 && -1.0 <= c[2] <= 1.0
  }

  /** Positive yaw torque raises one diagonal pair or the other. */
  function YawSign(layout: Layout): (s: real) {
    if layout == PropsOut then 1.0 else -1.0
  }

  function Coefficients(layout: Layout): (k: seq<Axes>)
    ensures |k| == MOTOR_COUNT
  {
    var yaw := YawSign(layout);
    [[1.0, 1.0, yaw], [1.0, -1.0, -yaw], [-1.0, 1.0, -yaw], [-1.0, -1.0, yaw]]
  }

  function Dot(a: Axes, b: Axes): (r: real) {
    a[0] * b[0] + a[1] * b[1] + a[2] * b[2]
  }

  /** What each motor is asked to add to the collective. */
  function Deltas(layout: Layout, c: Axes): (d: Throttles) {
    var k := Coefficients(layout);
    [Dot(c, k[0]), Dot(c, k[1]), Dot(c, k[2]), Dot(c, k[3])]
  }

  function MinOf(d: Throttles): (m: real)
    ensures m == d[0] || m == d[1] || m == d[2] || m == d[3]
    ensures m <= d[0] && m <= d[1] && m <= d[2] && m <= d[3]
  {
    var a := if d[1] < d[0] then d[1] else d[0];
    var b := if d[2] < a then d[2] else a;
    if d[3] < b then d[3] else b
  }

  function MaxOf(d: Throttles): (m: real)
    ensures m == d[0] || m == d[1] || m == d[2] || m == d[3]
    ensures m >= d[0] && m >= d[1] && m >= d[2] && m >= d[3]
  {
    var a := if d[1] > d[0] then d[1] else d[0];
    var b := if d[2] > a then d[2] else a;
    if d[3] > b then d[3] else b
  }

  function Lower(scale: real, bound: real): (r: real) {
    if bound < scale then bound else scale
  }

  function Scale(throttle: real, floor: real, minDelta: real, maxDelta: real): (s: real) {
    var afterLower := if minDelta < 0.0 then Lower(1.0, (throttle - floor) / -minDelta) else 1.0;
    if maxDelta > 0.0 then Lower(afterLower, (1.0 - throttle) / maxDelta) else afterLower
  }

  function Clamp(value: real, floor: real): (r: real) {
    if value < floor then floor else if value > 1.0 then 1.0 else value
  }

  function ScaleOf(layout: Layout, throttle: real, floor: real, c: Axes): (s: real) {
    var d := Deltas(layout, c);
    Scale(throttle, floor, MinOf(d), MaxOf(d))
  }

  function MotorAt(throttle: real, delta: real, scale: real): (m: real) {
    throttle + delta * scale
  }

  /** The motors the corrections ask for at a given scale. */
  function MotorsAt(throttle: real, d: Throttles, scale: real): (m: Throttles) {
    [MotorAt(throttle, d[0], scale), MotorAt(throttle, d[1], scale), MotorAt(throttle, d[2], scale),
     MotorAt(throttle, d[3], scale)]
  }

  function Clamped(m: Throttles, floor: real): (r: Throttles) {
    [Clamp(m[0], floor), Clamp(m[1], floor), Clamp(m[2], floor), Clamp(m[3], floor)]
  }

  function Mix(layout: Layout, throttle: real, floor: real, c: Axes): (m: Throttles) {
    Clamped(MotorsAt(throttle, Deltas(layout, c), ScaleOf(layout, throttle, floor, c)), floor)
  }

  function ApplyMixer(layout: Layout, throttle: real, floor: real, c: Axes, timestamp: nat): (r: Option<MixerOutput>) {
    if !UnitValue(throttle) || !UnitValue(floor) || floor > throttle then None
    else if throttle == 0.0 && floor == 0.0 then
      match Create(ZeroThrottle, timestamp)
      case None => None
      case Some(command) => Some(MixerOutput(command, 1.0, false))
    else if !CorrectionsValid(c) then None
    else
      var scale := ScaleOf(layout, throttle, floor, c);
      match Create(Mix(layout, throttle, floor, c), timestamp)
      case None => None
      case Some(command) => Some(MixerOutput(command, scale, scale < 1.0))
  }

  /* ---------------- the scale is the largest that fits ---------------- */

  /** Every motor stays between the floor and full throttle at this scale. */
  predicate Feasible(throttle: real, floor: real, d: Throttles, scale: real) {
    var m := MotorsAt(throttle, d, scale);
    && floor <= m[0] <= 1.0 && floor <= m[1] <= 1.0 && floor <= m[2] <= 1.0 && floor <= m[3] <= 1.0
  }

  lemma ProductOrder(a: real, b: real, c: real)
    requires a <= b && c >= 0.0
    ensures a * c <= b * c
  {
    assert (b - a) * c >= 0.0;
  }

  /** How far a slope may go before a value leaves its bound. */
  lemma QuotientBound(room: real, slope: real, scale: real)
    requires slope > 0.0
    ensures scale <= room / slope <==> slope * scale <= room
  {
    var q := room / slope;
    assert q * slope == room;
    if scale <= q {
      ProductOrder(scale, q, slope);
    } else {
      assert (scale - q) * slope > 0.0;
    }
  }

  lemma ScaleFits(throttle: real, floor: real, minDelta: real, maxDelta: real, scale: real)
    requires floor <= throttle <= 1.0
    ensures var s := Scale(throttle, floor, minDelta, maxDelta);
            && 0.0 <= s <= 1.0
            && (scale <= s <==>
                  && scale <= 1.0
                  && (minDelta < 0.0 ==> floor <= throttle + minDelta * scale)
                  && (maxDelta > 0.0 ==> throttle + maxDelta * scale <= 1.0))
  {
    if minDelta < 0.0 {
      QuotientBound(throttle - floor, -minDelta, 0.0);
      QuotientBound(throttle - floor, -minDelta, scale);
      assert -minDelta * scale == -(minDelta * scale);
    }
    if maxDelta > 0.0 {
      QuotientBound(1.0 - throttle, maxDelta, 0.0);
      QuotientBound(1.0 - throttle, maxDelta, scale);
    }
  }

  lemma {:induction false} Extremes(d: Throttles, i: nat)
    requires i < MOTOR_COUNT
    ensures MinOf(d) <= d[i] <= MaxOf(d)
  {
    var lo, hi := MinOf(d), MaxOf(d);
    match i
    case 0 => assert lo <= d[0] <= hi;
    case 1 => assert lo <= d[1] <= hi;
    case 2 => assert lo <= d[2] <= hi;
    case 3 => assert lo <= d[3] <= hi;
  }

  lemma {:induction false} BetweenExtremes(throttle: real, d: Throttles, scale: real, i: nat)
    requires scale >= 0.0 && i < MOTOR_COUNT
    ensures MotorAt(throttle, MinOf(d), scale) <= MotorAt(throttle, d[i], scale) <= MotorAt(throttle, MaxOf(d), scale)
  {
    hide MinOf, MaxOf, MotorAt;
    Extremes(d, i);
    MotorRises(throttle, MinOf(d), d[i], scale);
    MotorRises(throttle, d[i], MaxOf(d), scale);
  }

  lemma MotorRises(throttle: real, a: real, b: real, scale: real)
    requires a <= b && scale >= 0.0
    ensures MotorAt(throttle, a, scale) <= MotorAt(throttle, b, scale)
  {
    ProductOrder(a, b, scale);
  }

  lemma FeasibleIsExtremes(throttle: real, floor: real, d: Throttles, scale: real)
    requires scale >= 0.0
    ensures Feasible(throttle, floor, d, scale) <==>
            floor <= MotorAt(throttle, MinOf(d), scale) && MotorAt(throttle, MaxOf(d), scale) <= 1.0
  {
    BetweenExtremes(throttle, d, scale, 0);
    BetweenExtremes(throttle, d, scale, 1);
    BetweenExtremes(throttle, d, scale, 2);
    BetweenExtremes(throttle, d, scale, 3);
    hide MotorAt;
  }

  lemma SignedProduct(a: real, b: real)
    requires a >= 0.0 && b >= 0.0
    ensures a * b >= 0.0
  {
  }

  /** The scale fits, lies in [0, 1], and no larger scale up to 1 fits. */
  lemma ScaleIsLargest(layout: Layout, throttle: real, floor: real, c: Axes, scale: real)
    requires UnitValue(throttle) && UnitValue(floor) && floor <= throttle
    ensures var s := ScaleOf(layout, throttle, floor, c);
            && 0.0 <= s <= 1.0 && Feasible(throttle, floor, Deltas(layout, c), s)
            && (scale <= 1.0 && Feasible(throttle, floor, Deltas(layout, c), scale) ==> scale <= s)
  {
    hide Deltas, Scale, MinOf, MaxOf, Feasible;
    var d := Deltas(layout, c);
    var s := ScaleOf(layout, throttle, floor, c);
    var lo, hi := MinOf(d), MaxOf(d);
    ScaleFits(throttle, floor, lo, hi, s);
    ExtremesFit(throttle, floor, lo, hi, s);
    FeasibleIsExtremes(throttle, floor, d, s);
    ScaleFits(throttle, floor, lo, hi, scale);
    if scale >= 0.0 {
      FeasibleIsExtremes(throttle, floor, d, scale);
    }
  }

  /** A motor whose delta points away from a bound never meets it. */
  lemma ExtremesFit(throttle: real, floor: real, lo: real, hi: real, s: real)
    requires floor <= throttle <= 1.0 && s >= 0.0
    requires lo < 0.0 ==> floor <= throttle + lo * s
    requires hi > 0.0 ==> throttle + hi * s <= 1.0
    ensures floor <= MotorAt(throttle, lo, s) && MotorAt(throttle, hi, s) <= 1.0
  {
    if lo >= 0.0 {
      SignedProduct(lo, s);
    }
    if hi <= 0.0 {
      SignedProduct(-hi, s);
      assert -hi * s == -(hi * s);
    }
  }

  /** The mixer reports saturation exactly when the full corrections do not fit. */
  lemma SaturatedIffInfeasible(layout: Layout, throttle: real, floor: real, c: Axes)
    requires UnitValue(throttle) && UnitValue(floor) && floor <= throttle
    ensures ScaleOf(layout, throttle, floor, c) < 1.0 <==> !Feasible(throttle, floor, Deltas(layout, c), 1.0)
  {
    hide Deltas, Scale, Feasible, ScaleOf;
    ScaleIsLargest(layout, throttle, floor, c, 1.0);
  }

  /** The clamp never changes a motor, so none leaves the band. */
  lemma ClampNeverActs(layout: Layout, throttle: real, floor: real, c: Axes)
    requires UnitValue(throttle) && UnitValue(floor) && floor <= throttle
    ensures var m := Mix(layout, throttle, floor, c);
            && m == MotorsAt(throttle, Deltas(layout, c), ScaleOf(layout, throttle, floor, c))
            && forall i | 0 <= i < MOTOR_COUNT :: floor <= m[i] <= 1.0
  {
    hide Deltas, ScaleOf, MotorAt;
    ScaleIsLargest(layout, throttle, floor, c, 0.0);
  }

  function Sum(m: Throttles): (s: real) {
    m[0] + m[1] + m[2] + m[3]
  }

  /** How strongly the four motors act on one axis: the first two roll, the first and third pitch, diagonals yaw. */
  function Torque(layout: Layout, m: Throttles, axis: nat): (t: real)
    requires axis < AXIS_COUNT
  {
    if axis == 0 then m[0] + m[1] - m[2] - m[3]
    else if axis == 1 then m[0] - m[1] + m[2] - m[3]
    else if layout == PropsOut then m[0] - m[1] - m[2] + m[3]
    else m[1] + m[2] - m[0] - m[3]
  }

  lemma DeltasExplicit(layout: Layout, c: Axes)
    ensures var y := if layout == PropsOut then c[2] else -c[2];
            Deltas(layout, c) == [c[0] + c[1] + y, c[0] - c[1] - y, -c[0] + c[1] - y, -c[0] - c[1] + y]
  {
    var k := Coefficients(layout);
    if layout == PropsOut {
      assert k == [[1.0, 1.0, 1.0], [1.0, -1.0, -1.0], [-1.0, 1.0, -1.0], [-1.0, -1.0, 1.0]];
    } else {
      assert k == [[1.0, 1.0, -1.0], [1.0, -1.0, 1.0], [-1.0, 1.0, 1.0], [-1.0, -1.0, -1.0]];
    }
    assert Dot(c, k[0]) == c[0] + c[1] + c[2] * k[0][2];
    assert Dot(c, k[1]) == c[0] - c[1] + c[2] * k[1][2];
    assert Dot(c, k[2]) == -c[0] + c[1] + c[2] * k[2][2];
    assert Dot(c, k[3]) == -c[0] - c[1] + c[2] * k[3][2];
  }

  function Scaled(correction: real, scale: real): (r: real) {
    correction * scale
  }

  /** The collective is conserved and each axis gets exactly its scaled correction. */
  lemma MixIsDecoupled(layout: Layout, throttle: real, floor: real, c: Axes)
    requires UnitValue(throttle) && UnitValue(floor) && floor <= throttle
    ensures var m := Mix(layout, throttle, floor, c);
            var s := ScaleOf(layout, throttle, floor, c);
            && Sum(m) == 4.0 * throttle
            && Torque(layout, m, 0) == 4.0 * Scaled(c[0], s)
            && Torque(layout, m, 1) == 4.0 * Scaled(c[1], s)
            && Torque(layout, m, 2) == 4.0 * Scaled(c[2], s)
  {
    hide ScaleOf, Mix, Torque, Deltas, MotorsAt, Scaled;
    var m := Mix(layout, throttle, floor, c);
    var s := ScaleOf(layout, throttle, floor, c);
    ClampNeverActs(layout, throttle, floor, c);
    DeltasExplicit(layout, c);
    var y := if layout == PropsOut then c[2] else -c[2];
    var d: Throttles := [c[0] + c[1] + y, c[0] - c[1] - y, -c[0] + c[1] - y, -c[0] - c[1] + y];
    assert Deltas(layout, c) == d;
    MotorsExplicit(throttle, c[0], c[1], y, s);
    TorqueExplicit(layout, m, throttle, Scaled(c[0], s), Scaled(c[1], s), Scaled(y, s));
    YawProjection(layout, c[2], s);
  }

  lemma YawProjection(layout: Layout, c: real, s: real)
    ensures var y := if layout == PropsOut then c else -c; YawTimes(layout, Scaled(y, s)) == Scaled(c, s)
  {
  }

  function YawTimes(layout: Layout, w: real): (t: real) {
    if layout == PropsOut then w else -w
  }

  lemma MotorsExplicit(throttle: real, a: real, b: real, y: real, s: real)
    ensures var r, p, w := Scaled(a, s), Scaled(b, s), Scaled(y, s);
            MotorsAt(throttle, [a + b + y, a - b - y, -a + b - y, -a - b + y], s) ==
            [throttle + r + p + w, throttle + r - p - w, throttle - r + p - w, throttle - r - p + w]
  {
    assert MotorAt(throttle, a + b + y, s) == throttle + a * s + b * s + y * s;
    assert MotorAt(throttle, a - b - y, s) == throttle + a * s - b * s - y * s;
    assert MotorAt(throttle, -a + b - y, s) == throttle - a * s + b * s - y * s;
    assert MotorAt(throttle, -a - b + y, s) == throttle - a * s - b * s + y * s;
  }

  lemma TorqueExplicit(layout: Layout, m: Throttles, throttle: real, r: real, p: real, w: real)
    requires m == [throttle + r + p + w, throttle + r - p - w, throttle - r + p - w, throttle - r - p + w]
    ensures Torque(layout, m, 0) == 4.0 * r && Torque(layout, m, 1) == 4.0 * p
    ensures Torque(layout, m, 2) == 4.0 * YawTimes(layout, w)
    ensures Sum(m) == 4.0 * throttle
  {
  }

  lemma RangeIsAccepted(m: Throttles)
    requires forall i | 0 <= i < MOTOR_COUNT :: 0.0 <= m[i] <= 1.0
    ensures InRange(m)
  {
    assert 0.0 <= m[0] <= 1.0 && 0.0 <= m[1] <= 1.0 && 0.0 <= m[2] <= 1.0 && 0.0 <= m[3] <= 1.0;
  }

  /** The mixer refuses exactly invalid inputs; valid corrections always make a command. */
  lemma MixerRefusesOnlyInvalid(layout: Layout, throttle: real, floor: real, c: Axes, timestamp: nat)
    ensures ApplyMixer(layout, throttle, floor, c, timestamp).Some? <==>
            && UnitValue(throttle) && UnitValue(floor) && floor <= throttle
            && (throttle == 0.0 || CorrectionsValid(c))
    ensures ApplyMixer(layout, throttle, floor, c, timestamp).Some? && throttle != 0.0 ==>
              var r := ApplyMixer(layout, throttle, floor, c, timestamp).value;
              && r.command == Command(SettleAll(Mix(layout, throttle, floor, c)), timestamp, true)
              && (r.saturated <==> !Feasible(throttle, floor, Deltas(layout, c), 1.0))
  {
    hide Mix, ScaleOf, Feasible, SettleAll, CorrectionsValid;
    if UnitValue(throttle) && UnitValue(floor) && floor <= throttle {
      ClampNeverActs(layout, throttle, floor, c);
      RangeIsAccepted(Mix(layout, throttle, floor, c));
      SaturatedIffInfeasible(layout, throttle, floor, c);
    }
  }

  /* ---------------- the mixer as it runs ---------------- */

  method HeadroomScale(throttle: real, floor: real, minDelta: real, maxDelta: real) returns (scale: real)
    ensures scale == Scale(throttle, floor, minDelta, maxDelta)
  {
    scale := 1.0;
    if minDelta < 0.0 {
      var lower := (throttle - floor) / -minDelta;
      if lower < scale {
        scale := lower;
      }
    }
    if maxDelta > 0.0 {
      var upper := (1.0 - throttle) / maxDelta;
      if upper < scale {
        scale := upper;
      }
    }
  }

  function PartialDot(a: Axes, b: Axes, n: nat): (r: real)
    requires n <= AXIS_COUNT
  {
    if n == 0 then 0.0 else PartialDot(a, b, n - 1) + a[n - 1] * b[n - 1]
  }

  lemma WholeDot(a: Axes, b: Axes)
    ensures PartialDot(a, b, AXIS_COUNT) == Dot(a, b)
  {
    assert PartialDot(a, b, 1) == a[0] * b[0];
    assert PartialDot(a, b, 2) == a[0] * b[0] + a[1] * b[1];
  }

  method ComputeDeltas(layout: Layout, c: Axes) returns (delta: Throttles)
    ensures delta == Deltas(layout, c)
  {
    hide Dot;
    var k := Coefficients(layout);
    var sums := new real[MOTOR_COUNT](i => 0.0);
    for motor := 0 to MOTOR_COUNT
      invariant forall i | 0 <= i < motor :: sums[i] == Dot(c, k[i])
    {
      sums[motor] := 0.0;
      for axis := 0 to AXIS_COUNT
        invariant forall i | 0 <= i < motor :: sums[i] == Dot(c, k[i])
        invariant sums[motor] == PartialDot(c, k[motor], axis)
      {
        sums[motor] := sums[motor] + c[axis] * k[motor][axis];
      }
      WholeDot(c, k[motor]);
    }
    delta := sums[..];
    assert delta == Deltas(layout, c);
  }

  method FindExtremes(delta: Throttles) returns (lowest: real, highest: real)
    ensures lowest == MinOf(delta) && highest == MaxOf(delta)
  {
    lowest, highest := delta[0], delta[0];
    for motor := 1 to MOTOR_COUNT
      invariant lowest in delta && highest in delta
      invariant forall i | 0 <= i < motor :: lowest <= delta[i] <= highest
    {
      if delta[motor] < lowest {
        lowest := delta[motor];
      }
      if delta[motor] > highest {
        highest := delta[motor];
      }
    }
    assert lowest <= delta[0] <= highest && lowest <= delta[1] <= highest;
    assert lowest <= delta[2] <= highest && lowest <= delta[3] <= highest;
  }

  method RunMixer(layout: Layout, throttle: real, floor: real, c: Axes, timestamp: nat)
    returns (output: Option<MixerOutput>)
    ensures output == ApplyMixer(layout, throttle, floor, c, timestamp)
  {
    hide Deltas, Scale, MinOf, MaxOf, Create, CorrectionsValid, Clamp, MotorAt;
    if !UnitValue(throttle) || !UnitValue(floor) || floor > throttle {
      return None;
    }
    if throttle == 0.0 && floor == 0.0 {
      var command := CreateCommand(ZeroThrottle, timestamp);
      return if command.None? then None else Some(MixerOutput(command.value, 1.0, false));
    }
    if !CorrectionsValid(c) {
      return None;
    }
    var delta := ComputeDeltas(layout, c);
    var lowest, highest := FindExtremes(delta);
    var scale := HeadroomScale(throttle, floor, lowest, highest);
    var motors := new real[MOTOR_COUNT](i => 0.0);
    for motor := 0 to MOTOR_COUNT
      invariant forall i | 0 <= i < motor :: motors[i] == Clamp(MotorAt(throttle, delta[i], scale), floor)
    {
      motors[motor] := Clamp(MotorAt(throttle, delta[motor], scale), floor);
    }
    assert motors[..] == Mix(layout, throttle, floor, c);
    var command := CreateCommand(motors[..], timestamp);
    return if command.None? then None else Some(MixerOutput(command.value, scale, scale < 1.0));
  }
}
