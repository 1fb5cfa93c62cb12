/** The piecewise linear control curve and the stick shaping built on it. */
module ControlCurve {
  import opened Counters

  const MAXIMUM_POINTS: nat := 8
  const MAXIMUM_DEADBAND: real := 0.25
  const MAXIMUM_ANGLE: real := 85.0
  const MAXIMUM_RATE: real := 2000.0
  const TOLERANCE: real := 0.000001

  datatype Point = Point(input: real, output: real)

  type Curve = seq<Point>

  datatype Segment = Segment(upper: real, c0: real, c1: real, c2: real, c3: real)

  predicate CloseTo(a: real, b: real)
    ensures CloseTo(a, b) <==> b - TOLERANCE <= a <= b + TOLERANCE
  {
    a - b <= TOLERANCE && b - a <= TOLERANCE
  }

  predicate Unit(x: real) {
    0.0 <= x <= 1.0
  }

  /** Both ends near the corners, everything inside the unit square, inputs rising and outputs never falling. */
  ghost predicate CurveValid(points: Curve) {
    && 2 <= |points| <= MAXIMUM_POINTS
    && points[0].input <= TOLERANCE && points[0].output <= TOLERANCE
    && points[|points| - 1].input >= 1.0 - TOLERANCE && points[|points| - 1].output >= 1.0 - TOLERANCE
    && (forall i | 0 <= i < |points| :: Unit(points[i].input) && Unit(points[i].output))
    && (forall i | 0 < i < |points| ::
          points[i - 1].input < points[i].input && points[i - 1].output <= points[i].output)
  }

  method CheckCurve(points: Curve) returns (valid: bool)
    ensures valid <==> CurveValid(points)
  {
    if |points| < 2 || |points| > MAXIMUM_POINTS || !CloseTo(points[0].input, 0.0) || !CloseTo(points[0].output, 0.0) ||
       !CloseTo(points[|points| - 1].input, 1.0) || !CloseTo(points[|points| - 1].output, 1.0) {
      return false;
    }
    for index := 0 to |points|
      invariant forall i | 0 <= i < index :: Unit(points[i].input) && Unit(points[i].output)
      invariant forall i | 0 < i < index ::
                  points[i - 1].input < points[i].input && points[i - 1].output <= points[i].output
    {
      if !Unit(points[index].input) || !Unit(points[index].output) {
        return false;
      }
      if index > 0 &&
         (points[index].input <= points[index - 1].input || points[index].output < points[index - 1].output) {
        return false;
      }
    }
    return true;
  }

  function Slope(lower: Point, upper: Point): (s: real)
    requires lower.input < upper.input
  {
    (upper.output - lower.output) / (upper.input - lower.input)
  }

  function PreparedSegment(lower: Point, upper: Point): (s: Segment)
    requires lower.input < upper.input
  {
    Segment(upper.input, lower.output - Slope(lower, upper) * lower.input, Slope(lower, upper), 0.0, 0.0)
  }

  ghost function Prepared(points: Curve): (s: seq<Segment>)
    requires CurveValid(points)
    ensures |s| == |points| - 1 && s != []
  {
    seq(|points| - 1, i requires 0 <= i < |points| - 1 => PreparedSegment(points[i], points[i + 1]))
  }

  method Prepare(points: Curve) returns (segments: Option<seq<Segment>>)
    ensures segments == if CurveValid(points) then Some(Prepared(points)) else None
  {
    hide PreparedSegment, Slope;
    var valid := CheckCurve(points);
    if !valid {
      return None;
    }
    var s: seq<Segment> := [];
    for index := 0 to |points| - 1
      invariant s == Prepared(points)[..index]
    {
      s := s + [PreparedSegment(points[index], points[index + 1])];
    }
    assert s == Prepared(points);
    return Some(s);
  }

  function Horner(s: Segment, x: real): (y: real) {
    ((s.c3 * x + s.c2) * x + s.c1) * x + s.c0
  }

  function ClampUnit(y: real): (r: real)
    ensures 0.0 <= r <= 1.0
  {
    if y < 0.0 then 0.0 else if y > 1.0 then 1.0 else y
  }

  /** The first segment whose upper input is not below x; the last one if there is none. */
  function SegmentFor(s: seq<Segment>, x: real): (i: nat)
    requires s != []
    ensures i < |s|
    ensures forall j | 0 <= j < i :: s[j].upper < x
    ensures x <= s[i].upper || i == |s| - 1
    decreases |s|
  {
    if x <= s[0].upper || |s| == 1 then 0 else 1 + SegmentFor(s[1..], x)
  }

  function Evaluate(s: seq<Segment>, x: real): (y: Option<real>)
    requires s != []
    ensures y.Some? ==> 0.0 <= y.value <= 1.0
  {
    if !Unit(x) then None else Some(ClampUnit(Horner(s[SegmentFor(s, x)], x)))
  }

  method ApplyCurve(s: seq<Segment>, x: real) returns (y: Option<real>)
    requires s != []
    ensures y == Evaluate(s, x)
  {
    hide Horner;
    if !Unit(x) {
      return None;
    }
    var chosen := |s| - 1;
    for index := 0 to |s|
      invariant forall j | 0 <= j < index :: s[j].upper < x
      invariant chosen == |s| - 1
    {
      if x <= s[index].upper {
        chosen := index;
        FirstSegment(s, x, chosen);
        break;
      }
    }
    FirstSegment(s, x, chosen);
    return Some(ClampUnit(Horner(s[chosen], x)));
  }

  lemma {:induction false} FirstSegment(s: seq<Segment>, x: real, i: nat)
    requires i < |s| && forall j | 0 <= j < i :: s[j].upper < x
    requires x <= s[i].upper || i == |s| - 1
    ensures SegmentFor(s, x) == i
  {
    assert SegmentFor(s, x) <= |s| - 1;
  }

  /* ---------------- straight lines between the points ---------------- */

  /** The line through two points. */
  function Line(lower: Point, upper: Point, x: real): (y: real)
    requires lower.input < upper.input
  {
    lower.output + Slope(lower, upper) * (x - lower.input)
  }

  lemma SlopeMeets(lower: Point, upper: Point)
    requires lower.input < upper.input
    ensures Slope(lower, upper) * (upper.input - lower.input) == upper.output - lower.output
    ensures lower.output <= upper.output ==> Slope(lower, upper) >= 0.0
  {
    var s, d := Slope(lower, upper), upper.input - lower.input;
    assert s * d == upper.output - lower.output;
    if s < 0.0 {
      assert s * d < 0.0;
    }
  }

  lemma HornerIsLine(lower: Point, upper: Point, x: real)
    requires lower.input < upper.input
    ensures Horner(PreparedSegment(lower, upper), x) == Line(lower, upper, x)
  {
    var s := Slope(lower, upper);
    assert ((0.0 * x + 0.0) * x + s) * x == s * x;
    assert s * (x - lower.input) == s * x - s * lower.input;
  }

  lemma LineRises(lower: Point, upper: Point, x: real, y: real)
    requires lower.input < upper.input && lower.output <= upper.output && x <= y
    ensures Line(lower, upper, x) <= Line(lower, upper, y)
    ensures Line(lower, upper, lower.input) == lower.output && Line(lower, upper, upper.input) == upper.output
  {
    SlopeMeets(lower, upper);
    var s := Slope(lower, upper);
    Scaled(s, y - x);
    assert s * (y - lower.input) == s * (x - lower.input) + s * (y - x);
  }

  lemma Scaled(a: real, b: real)
    requires a >= 0.0 && b >= 0.0
    ensures a * b >= 0.0
  {
  }

  ghost function CurveAt(points: Curve, x: real): (y: real)
    requires CurveValid(points) && Unit(x)
    ensures 0.0 <= y <= 1.0
  {
    Evaluate(Prepared(points), x).value
  }

  lemma {:induction false} InputsRise(points: Curve, i: nat, j: nat)
    requires CurveValid(points) && i < j < |points|
    ensures points[i].input < points[j].input && points[i].output <= points[j].output
    decreases j
  {
    if i < j - 1 {
      InputsRise(points, i, j - 1);
    }
  }

  /** Between two neighbouring points the curve is the straight line through them, and it meets every point. */
  lemma {:induction false} CurveInterpolates(points: Curve, i: nat, x: real)
    requires CurveValid(points) && i + 1 < |points| && points[i].input <= x <= points[i + 1].input
    ensures CurveAt(points, x) == Line(points[i], points[i + 1], x)
    ensures x == points[i].input ==> CurveAt(points, x) == points[i].output
    ensures x == points[i + 1].input ==> CurveAt(points, x) == points[i + 1].output
  {
    hide Horner, Line, Slope;
    var lower, upper := points[i], points[i + 1];
    LineRises(lower, upper, lower.input, x);
    LineRises(lower, upper, x, upper.input);
    if i > 0 && x == lower.input {
      ChosenSegment(points, i - 1, x);
      HornerIsLine(points[i - 1], lower, x);
      LineRises(points[i - 1], lower, x, x);
    } else {
      ChosenSegment(points, i, x);
      HornerIsLine(lower, upper, x);
    }
  }

  /** Which segment the search picks. */
  lemma {:induction false} ChosenSegment(points: Curve, i: nat, x: real)
    requires CurveValid(points) && i + 1 < |points| && x <= points[i + 1].input
    requires i == 0 || points[i].input < x
    ensures SegmentFor(Prepared(points), x) == i
  {
    hide Slope;
    var s := Prepared(points);
    forall j | 0 <= j < i
      ensures s[j].upper < x
    {
      if j + 1 < i {
        InputsRise(points, j + 1, i);
      }
    }
    FirstSegment(s, x, i);
  }

  lemma {:induction false} SegmentsRise(points: Curve, x: real, y: real)
    requires CurveValid(points) && x <= y
    ensures SegmentFor(Prepared(points), x) <= SegmentFor(Prepared(points), y)
  {
    var s := Prepared(points);
    var i, j := SegmentFor(s, x), SegmentFor(s, y);
    assert forall k | 0 <= k < i :: s[k].upper < y;
  }

  /** The curve never falls. */
  lemma {:induction false} CurveNeverFalls(points: Curve, x: real, y: real)
    requires CurveValid(points) && Unit(x) && Unit(y) && x <= y
    ensures CurveAt(points, x) <= CurveAt(points, y)
  {
    hide Horner, Line, Slope, Prepared, PreparedSegment, CurveValid;
    var s := Prepared(points);
    var i, j := SegmentFor(s, x), SegmentFor(s, y);
    SegmentsRise(points, x, y);
    SegmentAt(points, i);
    SegmentAt(points, j);
    HornerIsLine(points[i], points[i + 1], x);
    HornerIsLine(points[j], points[j + 1], y);
    if i == j {
      LineRises(points[i], points[i + 1], x, y);
    } else {
      LineRises(points[i], points[i + 1], x, points[i + 1].input);
      if i + 1 < j {
        InputsRise(points, i + 1, j);
      }
      SegmentAt(points, j - 1);
      LineRises(points[j], points[j + 1], points[j].input, y);
    }
  }

  /** A stick at rest or at its end comes out there, up to the tolerance its end points are allowed. */
  lemma {:induction false} CurveReachesCorners(points: Curve)
    requires CurveValid(points)
    ensures CurveAt(points, 0.0) <= 0.000001 && CurveAt(points, 1.0) >= 0.999999
  {
    var last := |points| - 1;
    CurveInterpolates(points, 0, points[0].input);
    CurveInterpolates(points, last - 1, points[last].input);
    CurveNeverFalls(points, 0.0, points[0].input);
    CurveNeverFalls(points, points[last].input, 1.0);
  }

  lemma {:induction false} SegmentAt(points: Curve, i: nat)
    requires CurveValid(points) && i < |points| - 1
    ensures points[i].input < points[i + 1].input && points[i].output <= points[i + 1].output
    ensures Prepared(points)[i] == PreparedSegment(points[i], points[i + 1])
    ensures Prepared(points)[i].upper == points[i + 1].input
  {
    hide Slope;
  }

  /* ---------------- stick shaping ---------------- */

  /** A deadband around the centre, and the curve on what is left. */
  datatype Axis = Axis(deadband: real, maximumAngle: real, maximumRate: real, curve: Curve)

  ghost predicate AxisValid(a: Axis, angleRequired: bool) {
    && 0.0 <= a.deadband <= MAXIMUM_DEADBAND && 0.0 <= a.maximumAngle <= MAXIMUM_ANGLE
    && (angleRequired ==> a.maximumAngle > 0.0) && 0.0 < a.maximumRate <= MAXIMUM_RATE && CurveValid(a.curve)
  }

  function Abs(x: real): (r: real)
    ensures r >= 0.0 && (r == x || r == -x)
  {
    if x < 0.0 then -x else x
  }

  /** What is left of the stick's travel, stretched back to the unit interval. */
  function Adjusted(magnitude: real, deadband: real): (a: real)
    requires deadband < 1.0
  {
    (magnitude - deadband) * (1.0 / (1.0 - deadband))
  }

  lemma Reciprocal(d: real)
    requires d > 0.0
    ensures 1.0 / d > 0.0 && (1.0 / d) * d == 1.0
  {
  }

  lemma AdjustedInUnit(magnitude: real, deadband: real)
    requires 0.0 <= deadband < 1.0 && deadband <= magnitude <= 1.0
    ensures Unit(Adjusted(magnitude, deadband))
  {
    var scale := 1.0 / (1.0 - deadband);
    Reciprocal(1.0 - deadband);
    Scaled(magnitude - deadband, scale);
    Scaled(1.0 - magnitude, scale);
    assert (magnitude - deadband) * scale + (1.0 - magnitude) * scale == (1.0 - deadband) * scale;
  }

  lemma AdjustedRises(a: real, b: real, deadband: real)
    requires 0.0 <= deadband < 1.0 && a <= b
    ensures Adjusted(a, deadband) <= Adjusted(b, deadband)
  {
    var scale := 1.0 / (1.0 - deadband);
    Reciprocal(1.0 - deadband);
    Scaled(b - a, scale);
    assert (b - deadband) * scale == (a - deadband) * scale + (b - a) * scale;
  }

  ghost function Shape(a: Axis, input: real): (y: Option<real>)
    requires 0.0 <= a.deadband < 1.0 && CurveValid(a.curve)
  {
    if !(-1.0 <= input <= 1.0) then None
    else if Abs(input) <= a.deadband then Some(0.0)
    else
      AdjustedInUnit(Abs(input), a.deadband);
      var curved := CurveAt(a.curve, Adjusted(Abs(input), a.deadband));
      Some(if input < 0.0 then -curved else curved)
  }

  /** Shaping is defined on the whole stick, odd, bounded by one, and never falls. */
  lemma {:induction false} ShapingIsOddAndRising(a: Axis, x: real, y: real)
    requires AxisValid(a, false) && -1.0 <= x <= y <= 1.0
    ensures Shape(a, x).Some? && Shape(a, y).Some?
    ensures Shape(a, -x) == Some(-Shape(a, x).value)
    ensures -1.0 <= Shape(a, x).value <= Shape(a, y).value <= 1.0
  {
    hide CurveValid, CurveAt, Adjusted;
    if Abs(x) > a.deadband && Abs(y) > a.deadband {
      AdjustedInUnit(Abs(x), a.deadband);
      AdjustedInUnit(Abs(y), a.deadband);
      if 0.0 <= x {
        AdjustedRises(Abs(x), Abs(y), a.deadband);
        CurveNeverFalls(a.curve, Adjusted(Abs(x), a.deadband), Adjusted(Abs(y), a.deadband));
      } else if y < 0.0 {
        AdjustedRises(Abs(y), Abs(x), a.deadband);
        CurveNeverFalls(a.curve, Adjusted(Abs(y), a.deadband), Adjusted(Abs(x), a.deadband));
      }
    }
  }

  datatype PreparedAxis = PreparedAxis(
    deadband: real, scale: real, maximumAngle: real, maximumRate: real, segments: seq<Segment>)

  ghost function PreparedFor(a: Axis): (p: PreparedAxis)
    requires AxisValid(a, false)
  {
    PreparedAxis(a.deadband, 1.0 / (1.0 - a.deadband), a.maximumAngle, a.maximumRate, Prepared(a.curve))
  }

  method CheckAxis(a: Axis, angleRequired: bool) returns (valid: bool)
    ensures valid <==> AxisValid(a, angleRequired)
  {
    hide CurveValid;
    valid := CheckCurve(a.curve);
    valid := valid && 0.0 <= a.deadband <= MAXIMUM_DEADBAND && 0.0 <= a.maximumAngle <= MAXIMUM_ANGLE
             && (!angleRequired || a.maximumAngle > 0.0) && 0.0 < a.maximumRate <= MAXIMUM_RATE;
  }

  method PrepareAxis(a: Axis) returns (p: PreparedAxis)
    requires AxisValid(a, false)
    ensures p == PreparedFor(a)
  {
    hide CurveValid, Prepared;
    var segments := Prepare(a.curve);
    p := PreparedAxis(a.deadband, 1.0 / (1.0 - a.deadband), a.maximumAngle, a.maximumRate, segments.value);
  }

  method ApplyAxis(ghost a: Axis, p: PreparedAxis, input: real) returns (y: Option<real>)
    requires AxisValid(a, false) && p == PreparedFor(a)
    ensures y == Shape(a, input)
  {
    hide Evaluate;
    var magnitude := Abs(input);
    if input < -1.0 || input > 1.0 {
      return None;
    }
    if magnitude <= p.deadband {
      return Some(0.0);
    }
    AdjustedInUnit(magnitude, p.deadband);
    var adjusted := (magnitude - p.deadband) * p.scale;
    assert adjusted == Adjusted(magnitude, a.deadband);
    var curved := ApplyCurve(p.segments, adjusted);
    EvaluatesOnUnit(p.segments, adjusted);
    return Some(if input < 0.0 then -curved.value else curved.value);
  }

  lemma EvaluatesOnUnit(s: seq<Segment>, x: real)
    requires s != [] && Unit(x)
    ensures Evaluate(s, x).Some?
  {
  }

  /* ---------------- the setpoint ---------------- */

  datatype Shaping = Shaping(roll: Axis, pitch: Axis, yaw: Axis, zeroDeadband: real, maximum: real,
      throttleCurve: Curve)

  ghost predicate ShapingValid(c: Shaping) {
    && AxisValid(c.roll, true) && AxisValid(c.pitch, true) && AxisValid(c.yaw, false)
    && 0.0 <= c.zeroDeadband <= MAXIMUM_DEADBAND && 0.0 < c.maximum <= 1.0 && CurveValid(c.throttleCurve)
  }

  datatype Sticks = Sticks(roll: real, pitch: real, yaw: real, throttle: real, valid: bool)

  datatype Setpoint = Setpoint(throttle: real, rollDegrees: real, pitchDegrees: real, yawRate: real)

  const NoSetpoint: Setpoint := Setpoint(0.0, 0.0, 0.0, 0.0)

  function Demand(fraction: real, maximum: real): (d: real) {
    fraction * maximum
  }

  /** The setpoint for a stick sample; None where the firmware reports failure. */
  ghost function ApplyShaping(c: Shaping, s: Sticks): (r: Option<Setpoint>)
    requires ShapingValid(c)
  {
    if !s.valid || !Unit(s.throttle) then None
    else if s.throttle <= c.zeroDeadband then Some(NoSetpoint)
    else
      var roll, pitch, yaw := Shape(c.roll, s.roll), Shape(c.pitch, s.pitch), Shape(c.yaw, s.yaw);
      if roll.None? || pitch.None? || yaw.None? then None
      else
        AdjustedInUnit(s.throttle, c.zeroDeadband);
        Some(Setpoint(Demand(CurveAt(c.throttleCurve, Adjusted(s.throttle, c.zeroDeadband)), c.maximum),
                      Demand(roll.value, c.roll.maximumAngle), Demand(pitch.value, c.pitch.maximumAngle),
                      Demand(yaw.value, c.yaw.maximumRate)))
  }

  lemma DemandBounded(a: real, b: real)
    requires -1.0 <= a <= 1.0 && b >= 0.0
    ensures -b <= Demand(a, b) <= b
    ensures a >= 0.0 ==> Demand(a, b) >= 0.0
  {
    Scaled(1.0 - a, b);
    Scaled(1.0 + a, b);
    if a >= 0.0 {
      Scaled(a, b);
    }
  }

  /** A setpoint asks for no more than the configured throttle, angles and rate. */
  lemma {:induction false} SetpointBounded(c: Shaping, s: Sticks)
    requires ShapingValid(c)
    ensures ApplyShaping(c, s).Some? <==>
            s.valid && Unit(s.throttle) &&
            (s.throttle <= c.zeroDeadband ||
             (-1.0 <= s.roll <= 1.0 && -1.0 <= s.pitch <= 1.0 && -1.0 <= s.yaw <= 1.0))
    ensures ApplyShaping(c, s).Some? ==>
              var r := ApplyShaping(c, s).value;
              && 0.0 <= r.throttle <= c.maximum && Abs(r.rollDegrees) <= c.roll.maximumAngle
              && Abs(r.pitchDegrees) <= c.pitch.maximumAngle && Abs(r.yawRate) <= c.yaw.maximumRate
  {
    hide CurveValid, CurveAt, Adjusted, Shape, Demand;
    if s.valid && Unit(s.throttle) && s.throttle > c.zeroDeadband {
      ShapeDefined(c.roll, s.roll);
      ShapeDefined(c.pitch, s.pitch);
      ShapeDefined(c.yaw, s.yaw);
      if ApplyShaping(c, s).Some? {
        AdjustedInUnit(s.throttle, c.zeroDeadband);
        DemandBounded(CurveAt(c.throttleCurve, Adjusted(s.throttle, c.zeroDeadband)), c.maximum);
        DemandBounded(Shape(c.roll, s.roll).value, c.roll.maximumAngle);
        DemandBounded(Shape(c.pitch, s.pitch).value, c.pitch.maximumAngle);
        DemandBounded(Shape(c.yaw, s.yaw).value, c.yaw.maximumRate);
      }
    }
  }

  /** How far the stick is out of its deadband, as a part of what is left of its travel. */
  predicate Deflects(magnitude: real, deadband: real, part: real) {
    part * (1.0 - deadband) == magnitude - deadband && Unit(part)
  }

  lemma AdjustedDeflects(magnitude: real, deadband: real)
    requires 0.0 <= deadband < 1.0 && deadband <= magnitude <= 1.0
    ensures Deflects(magnitude, deadband, Adjusted(magnitude, deadband))
  {
    AdjustedInUnit(magnitude, deadband);
    var scale := 1.0 / (1.0 - deadband);
    Reciprocal(1.0 - deadband);
    assert (magnitude - deadband) * scale * (1.0 - deadband) == (magnitude - deadband) * (scale * (1.0 - deadband));
  }

  /** A stick is zero in its deadband, and beyond it the curve at its deflection, on the side it is moved to. */
  lemma ShapeFollowsStick(a: Axis, x: real)
    requires AxisValid(a, false) && -1.0 <= x <= 1.0
    ensures Shape(a, x).Some?
    ensures Abs(x) <= a.deadband ==> Shape(a, x).value == 0.0
    ensures Abs(x) > a.deadband ==>
              exists part: real ::
                Deflects(Abs(x), a.deadband, part) &&
                Shape(a, x).value == (if x < 0.0 then -CurveAt(a.curve, part) else CurveAt(a.curve, part))
  {
    hide CurveValid, CurveAt;
    if Abs(x) > a.deadband {
      AdjustedDeflects(Abs(x), a.deadband);
    }
  }

  /**
   * The setpoint: each stick turns its own axis, roll and pitch by an angle and yaw by a rate, and the throttle follows
   * its curve beyond the zero deadband; inside it everything is zero.
   */
  lemma SetpointFollowsSticks(c: Shaping, s: Sticks)
    requires ShapingValid(c) && ApplyShaping(c, s).Some?
    ensures var r := ApplyShaping(c, s).value;
            if s.throttle <= c.zeroDeadband then r == Setpoint(0.0, 0.0, 0.0, 0.0)
            else
              && Shape(c.roll, s.roll).Some? && Shape(c.pitch, s.pitch).Some? && Shape(c.yaw, s.yaw).Some?
              && r.rollDegrees == Shape(c.roll, s.roll).value * c.roll.maximumAngle
              && r.pitchDegrees == Shape(c.pitch, s.pitch).value * c.pitch.maximumAngle
              && r.yawRate == Shape(c.yaw, s.yaw).value * c.yaw.maximumRate
              && exists part: real ::
                   Deflects(s.throttle, c.zeroDeadband, part) &&
                   r.throttle == CurveAt(c.throttleCurve, part) * c.maximum
  {
    hide CurveValid, CurveAt, Shape;
    if s.throttle > c.zeroDeadband {
      AdjustedDeflects(s.throttle, c.zeroDeadband);
    }
  }

  lemma {:induction false} ShapeDefined(a: Axis, x: real)
    requires AxisValid(a, false)
    ensures Shape(a, x).Some? <==> -1.0 <= x <= 1.0
    ensures Shape(a, x).Some? ==> -1.0 <= Shape(a, x).value <= 1.0
  {
    hide CurveValid, CurveAt, Adjusted;
    if -1.0 <= x <= 1.0 && Abs(x) > a.deadband {
      AdjustedInUnit(Abs(x), a.deadband);
    }
  }

  datatype PreparedShaping = PreparedShaping(
    roll: PreparedAxis, pitch: PreparedAxis, yaw: PreparedAxis, zeroDeadband: real, scale: real, maximum: real,
    throttle: seq<Segment>)

  ghost function PreparedShapingFor(c: Shaping): (p: PreparedShaping)
    requires ShapingValid(c)
  {
    PreparedShaping(PreparedFor(c.roll), PreparedFor(c.pitch), PreparedFor(c.yaw), c.zeroDeadband,
                    1.0 / (1.0 - c.zeroDeadband), c.maximum, Prepared(c.throttleCurve))
  }

  method PrepareShaping(c: Shaping) returns (p: Option<PreparedShaping>)
    ensures p == if ShapingValid(c) then Some(PreparedShapingFor(c)) else None
  {
    hide CurveValid, Prepared, PreparedFor;
    var roll := CheckAxis(c.roll, true);
    var pitch := CheckAxis(c.pitch, true);
    var yaw := CheckAxis(c.yaw, false);
    var throttle := Prepare(c.throttleCurve);
    if !roll || !pitch || !yaw || throttle.None? || c.zeroDeadband < 0.0 || c.zeroDeadband > MAXIMUM_DEADBAND
       || c.maximum <= 0.0 || c.maximum > 1.0 {
      return None;
    }
    var preparedRoll := PrepareAxis(c.roll);
    var preparedPitch := PrepareAxis(c.pitch);
    var preparedYaw := PrepareAxis(c.yaw);
    return Some(PreparedShaping(preparedRoll, preparedPitch, preparedYaw, c.zeroDeadband,
                                1.0 / (1.0 - c.zeroDeadband), c.maximum, throttle.value));
  }

  /** One stick sample through a prepared configuration. */
  method ShapeSticks(ghost c: Shaping, p: PreparedShaping, s: Sticks) returns (r: Option<Setpoint>)
    requires ShapingValid(c) && p == PreparedShapingFor(c)
    ensures r == ApplyShaping(c, s)
  {
    hide CurveValid, Prepared, Evaluate, Shape, Demand;
    if !s.valid || !Unit(s.throttle) {
      return None;
    }
    if s.throttle <= p.zeroDeadband {
      return Some(NoSetpoint);
    }
    var roll := ApplyAxis(c.roll, p.roll, s.roll);
    var pitch := ApplyAxis(c.pitch, p.pitch, s.pitch);
    var yaw := ApplyAxis(c.yaw, p.yaw, s.yaw);
    if roll.None? || pitch.None? || yaw.None? {
      return None;
    }
    AdjustedInUnit(s.throttle, p.zeroDeadband);
    var adjusted := (s.throttle - p.zeroDeadband) * p.scale;
    assert adjusted == Adjusted(s.throttle, c.zeroDeadband);
    var curved := ApplyCurve(p.throttle, adjusted);
    EvaluatesOnUnit(p.throttle, adjusted);
    return Some(Setpoint(Demand(curved.value, p.maximum), Demand(roll.value, p.roll.maximumAngle),
                         Demand(pitch.value, p.pitch.maximumAngle), Demand(yaw.value, p.yaw.maximumRate)));
  }
}
