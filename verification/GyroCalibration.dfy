/** Gyroscope calibration: a still, gap-free window of samples, tested and averaged in exact integers. */
module GyroCalibration {
  import opened Counters
  import ReleaseGrid

  const MAX_DURATION_US: nat := 10_000_000
  const MAX_SAMPLES: nat := 10_000
  const INT64_MAX: int := 0x7FFF_FFFF_FFFF_FFFF
  const INT32_LIMIT: real := 2147483647.0

  /** The flight configuration's bound on both limits, and the sensor's scale. */
  const FLIGHT_LIMIT_DPS: real := 2000.0
  const COUNTS_PER_DPS: real := 16.384

  type Values = v: seq<int> | |v| == 3 witness [0, 0, 0]

  const ZeroValues: Values := [0, 0, 0]

  datatype Config = Config(
    settling: nat, duration: nat, minimumCount: nat, maximumRate: real, maximumDeviation: real, countsPerDps: real)
  {
    predicate Valid() {
      && settling <= MAX_DURATION_US && 0 < duration <= MAX_DURATION_US
      && 0 < minimumCount <= MAX_SAMPLES
      && maximumRate > 0.0 && maximumDeviation > 0.0 && countsPerDps > 0.0
      && maximumRate * countsPerDps <= INT32_LIMIT && maximumDeviation * countsPerDps <= INT32_LIMIT
    }
  }

  datatype Phase = Settling | Collecting | CalibrationReady

  /** A sample as the calibration takes it: three counts, its number, and when it was processed. */
  datatype Taken = Taken(values: Values, sequence: uint64, at: uint64)

  datatype Calibration = Calibration(
    config: Config, phase: Phase, phaseStartedAt: uint64, lastSequence: uint64, sums: Values, squares: Values,
    bias: Values, count: nat, restarts: uint32, maximumRateRaw: int, maximumDeviationRaw: int, sequenceSeen: bool,
    window: seq<Taken>)

  /** One call: the latest sample, if it is valid, whether it is fresh, and the clock. */
  datatype Call = Call(values: Values, sequence: uint64, valid: bool, isFresh: bool, now: uint64)

  function RoundedPositive(x: real): (n: int) {
    (x + 0.5).Floor
  }

  function BeginSettling(c: Calibration, now: uint64, countRestart: bool): (r: Calibration) {
    c.(phase := Settling, phaseStartedAt := now, count := 0, sums := ZeroValues, squares := ZeroValues, window := [],
       restarts := if countRestart then SaturatingIncrement(c.restarts) else c.restarts)
  }

  function Initialize(config: Config, now: uint64): (c: Option<Calibration>) {
    if !config.Valid() then None
    else
      Some(Calibration(config, Settling, now, 0, ZeroValues, ZeroValues, ZeroValues, 0, 0,
                       RoundedPositive(config.maximumRate * config.countsPerDps),
                       RoundedPositive(config.maximumDeviation * config.countsPerDps), false, []))
  }

  function Magnitude(v: int): (m: nat) {
    if v < 0 then -v else v
  }

  predicate WithinRate(v: Values, limit: int) {
    Magnitude(v[0]) <= limit && Magnitude(v[1]) <= limit && Magnitude(v[2]) <= limit
  }

  /** Truncating division, as the target's integers do it. */
  function Truncated(a: int, n: int): (q: int)
    requires n > 0
  {
    if a >= 0 then a / n else -((-a) / n)
  }

  function RoundedAverage(sum: int, count: nat): (a: int)
    requires count > 0
  {
    var half := count / 2;
    Truncated(if sum >= 0 then sum + half else sum - half, count)
  }

  function Numerator(count: nat, square: int, sum: int): (n: int) {
    count * square - sum * sum
  }

  function Limit(count: nat, maximum: int): (l: int) {
    count * count * maximum * maximum
  }

  predicate VarianceAcceptable(c: Calibration) {
    && Numerator(c.count, c.squares[0], c.sums[0]) <= Limit(c.count, c.maximumDeviationRaw)
    && Numerator(c.count, c.squares[1], c.sums[1]) <= Limit(c.count, c.maximumDeviationRaw)
    && Numerator(c.count, c.squares[2], c.sums[2]) <= Limit(c.count, c.maximumDeviationRaw)
  }

  function Added(a: Values, b: Values): (r: Values) {
    [a[0] + b[0], a[1] + b[1], a[2] + b[2]]
  }

  function Squared(v: Values): (r: Values) {
    [v[0] * v[0], v[1] * v[1], v[2] * v[2]]
  }

  /** Takes the sample into the sums; closes the window when it is long and large enough. */
  function Collect(c: Calibration, call: Call): (r: Calibration) {
    if c.count >= MAX_SAMPLES then BeginSettling(c, call.now, true)
    else
      var added := c.(sums := Added(c.sums, call.values), squares := Added(c.squares, Squared(call.values)),
                      count := c.count + 1, window := c.window + [Taken(call.values, call.sequence, call.now)]);
      if call.now - added.phaseStartedAt < added.config.duration || added.count < added.config.minimumCount then added
      else if !VarianceAcceptable(added) then BeginSettling(added, call.now, true)
      else
        added.(bias := [RoundedAverage(added.sums[0], added.count), RoundedAverage(added.sums[1], added.count),
                        RoundedAverage(added.sums[2], added.count)],
               phase := CalibrationReady)
  }

  /** The call brings a sample not seen before. */
  predicate Newer(c: Calibration, call: Call) {
    !c.sequenceSeen || call.sequence > c.lastSequence
  }

  predicate Usable(c: Calibration, call: Call) {
    call.valid && call.isFresh && call.now >= c.phaseStartedAt
  }

  function Process(c: Calibration, call: Call): (r: Calibration) {
    if c.phase == CalibrationReady then c
    else if !Usable(c, call) then BeginSettling(c, call.now, c.count > 0).(sequenceSeen := false)
    else if !Newer(c, call) then c
    else
      var seen := c.(lastSequence := call.sequence, sequenceSeen := true);
      if !WithinRate(call.values, c.maximumRateRaw) then BeginSettling(seen, call.now, true)
      else if c.phase == Settling && call.now - c.phaseStartedAt < c.config.settling then seen
      else if c.phase == Settling then Collect(seen.(phase := Collecting, phaseStartedAt := call.now), call)
      else Collect(seen, call)
  }

  /* ---------------- the window behind the sums ---------------- */

  function SumOf(window: seq<Taken>, axis: nat): (s: int)
    requires axis < 3
    decreases |window|
  {
    if window == [] then 0 else SumOf(window[..|window| - 1], axis) + window[|window| - 1].values[axis]
  }

  function SquaresOf(window: seq<Taken>, axis: nat): (s: int)
    requires axis < 3
    decreases |window|
  {
    if window == [] then 0
    else
      var v := window[|window| - 1].values[axis];
      SquaresOf(window[..|window| - 1], axis) + v * v
  }

  /** Strictly newer samples, each within the rate limit, none before the first. */
  ghost predicate WindowSound(window: seq<Taken>, limit: int) {
    && (forall i | 0 <= i < |window| :: WithinRate(window[i].values, limit) && window[i].at >= window[0].at)
    && (forall i, j | 0 <= i < j < |window| :: window[i].sequence < window[j].sequence)
  }

  ghost predicate Tracks(c: Calibration) {
    && c.count == |c.window| <= MAX_SAMPLES
    && c.sums == [SumOf(c.window, 0), SumOf(c.window, 1), SumOf(c.window, 2)]
    && c.squares == [SquaresOf(c.window, 0), SquaresOf(c.window, 1), SquaresOf(c.window, 2)]
  }

  ghost predicate CalibrationInv(c: Calibration) {
    && c.config.Valid() && c.maximumRateRaw >= 0 && c.maximumDeviationRaw >= 0
    && Tracks(c) && WindowSound(c.window, c.maximumRateRaw)
    && (c.phase == Settling ==> c.window == [])
    && (c.phase == Collecting ==> c.window != [])
    && (c.window != [] ==>
          c.phaseStartedAt == c.window[0].at && c.sequenceSeen && c.window[|c.window| - 1].sequence == c.lastSequence)
  }

  /** What a finished calibration rests on. */
  ghost predicate WellFounded(c: Calibration) {
    var n := |c.window|;
    && n >= c.config.minimumCount && n > 0 && c.window[n - 1].at - c.window[0].at >= c.config.duration
    && WindowSound(c.window, c.maximumRateRaw)
    && forall axis: nat | axis < 3 ::
         && WithinDeviation(c.window, axis, c.maximumDeviationRaw)
         && NearMean(c.bias[axis], SumOf(c.window, axis), n)
         && Magnitude(c.bias[axis]) <= c.maximumRateRaw
  }

  /** Within half a count of the mean. */
  predicate NearMean(bias: int, sum: int, n: nat) {
    var error := 2 * (n * bias - sum);
    error <= n && -error <= n
  }

  /* ---------------- population variance ---------------- */

  function Mean(window: seq<Taken>, axis: nat): (m: real)
    requires axis < 3 && window != []
  {
    SumOf(window, axis) as real / |window| as real
  }

  /** The sum of squared distances from a point. */
  function SpreadAround(window: seq<Taken>, axis: nat, m: real): (s: real)
    requires axis < 3
    decreases |window|
  {
    if window == [] then 0.0
    else
      var d := window[|window| - 1].values[axis] as real - m;
      SpreadAround(window[..|window| - 1], axis, m) + d * d
  }

  function Variance(window: seq<Taken>, axis: nat): (v: real)
    requires axis < 3 && window != []
  {
    SpreadAround(window, axis, Mean(window, axis)) / |window| as real
  }

  ghost predicate WithinDeviation(window: seq<Taken>, axis: nat, limit: int)
    requires axis < 3 && window != []
  {
    Variance(window, axis) <= limit as real * limit as real
  }

  function Expansion(squares: real, sum: real, n: real, m: real): (e: real) {
    squares - 2.0 * m * sum + n * (m * m)
  }

  lemma {:induction false} SpreadExpands(window: seq<Taken>, axis: nat, m: real)
    requires axis < 3
    ensures SpreadAround(window, axis, m) ==
            Expansion(SquaresOf(window, axis) as real, SumOf(window, axis) as real, |window| as real, m)
    decreases |window|
  {
    hide Expansion;
    if window == [] {
      EmptyExpansion(m);
    } else {
      var init := window[..|window| - 1];
      SpreadExpands(init, axis, m);
      ExpansionStep(SquaresOf(init, axis), SumOf(init, axis), |init|, window[|window| - 1].values[axis], m);
    }
  }

  lemma EmptyExpansion(m: real)
    ensures Expansion(0.0, 0.0, 0.0, m) == 0.0
  {
  }

  lemma ExpansionStep(squares: int, sum: int, n: nat, v: int, m: real)
    ensures Expansion(squares as real, sum as real, n as real, m) + (v as real - m) * (v as real - m) ==
            Expansion((squares + v * v) as real, (sum + v) as real, (n + 1) as real, m)
  {
    assert (squares + v * v) as real == squares as real + v as real * v as real;
    var w, s, k := v as real, sum as real, n as real;
    assert (w - m) * (w - m) == w * w - 2.0 * m * w + m * m;
    assert 2.0 * m * (s + w) == 2.0 * m * s + 2.0 * m * w;
    assert (k + 1.0) * (m * m) == k * (m * m) + m * m;
  }

  lemma VarianceIsNumerator(squares: real, sum: real, n: real, m: real, spread: real)
    requires n > 0.0 && m * n == sum && spread == Expansion(squares, sum, n, m)
    ensures n * spread == n * squares - sum * sum
  {
    assert n * (m * m) == sum * m;
    assert n * (sum * m) == sum * sum;
    assert n * spread == n * squares - 2.0 * (n * (sum * m)) + n * (n * (m * m));
  }

  /** The integer test over the sums is exactly the test on the population variance. */
  lemma {:induction false} IntegerTestIsVariance(window: seq<Taken>, axis: nat, limit: int)
    requires axis < 3 && window != []
    ensures Numerator(|window|, SquaresOf(window, axis), SumOf(window, axis)) <= Limit(|window|, limit) <==>
            WithinDeviation(window, axis, limit)
  {
    hide SumOf, SquaresOf, SpreadAround, Expansion;
    var n, sum, squares := |window| as real, SumOf(window, axis) as real, SquaresOf(window, axis) as real;
    var m := Mean(window, axis);
    var spread := SpreadAround(window, axis, m);
    SpreadExpands(window, axis, m);
    VarianceIsNumerator(squares, sum, n, m, spread);
    CastNumerator(|window|, SquaresOf(window, axis), SumOf(window, axis), limit);
    QuotientTest(spread, n, limit as real * limit as real);
  }

  lemma CastNumerator(count: nat, square: int, sum: int, limit: int)
    ensures Numerator(count, square, sum) as real == count as real * square as real - sum as real * sum as real
    ensures Limit(count, limit) as real == count as real * (count as real * (limit as real * limit as real))
  {
  }

  lemma QuotientTest(spread: real, n: real, bound: real)
    requires n > 0.0
    ensures spread / n <= bound <==> n * spread <= n * (n * bound)
  {
    var q := spread / n;
    assert q * n == spread;
    if q <= bound {
      assert (bound - q) * n >= 0.0;
      assert (n * bound - spread) * n >= 0.0;
    } else {
      assert (q - bound) * n > 0.0;
      assert (spread - n * bound) * n > 0.0;
    }
  }

  /* ---------------- the bias ---------------- */

  lemma DivisionBounds(a: nat, n: nat)
    requires n > 0
    ensures n * (a / n) <= a < n * (a / n) + n
  {
  }

  /** The rounded average is within half a count of the mean, and no larger than every value was. */
  lemma AverageIsNear(sum: int, count: nat, limit: nat)
    requires count > 0
    ensures NearMean(RoundedAverage(sum, count), sum, count)
    ensures Magnitude(sum) <= count * limit ==> Magnitude(RoundedAverage(sum, count)) <= limit
  {
    var half := count / 2;
    var size := Magnitude(sum) + half;
    var q := size / count;
    DivisionBounds(size, count);
    assert RoundedAverage(sum, count) == if sum >= 0 then q else -q;
    assert count * -q == -(count * q);
    if Magnitude(sum) <= count * limit && q > limit {
      GrowsByCount(count, limit, q);
    }
  }

  lemma GrowsByCount(count: nat, limit: nat, q: nat)
    requires q > limit && count > 0
    ensures count * q >= count * limit + count
  {
    ReleaseGrid.ProductOrder(limit + 1, q, count);
    assert (limit + 1) * count == limit * count + count;
  }

  lemma {:induction false} SumBounded(window: seq<Taken>, axis: nat, limit: nat)
    requires axis < 3
    requires forall i | 0 <= i < |window| :: WithinRate(window[i].values, limit)
    ensures Magnitude(SumOf(window, axis)) <= |window| * limit
    decreases |window|
  {
    if window != [] {
      var init := window[..|window| - 1];
      SumBounded(init, axis, limit);
      var last := window[|window| - 1];
      assert WithinRate(last.values, limit);
      assert axis == 0 || axis == 1 || axis == 2;
      OneMore(|init|, limit);
    }
  }

  lemma OneMore(n: nat, limit: nat)
    ensures (n + 1) * limit == n * limit + limit
  {
  }

  lemma {:induction false} SquaresBounded(window: seq<Taken>, axis: nat, limit: nat)
    requires axis < 3
    requires forall i | 0 <= i < |window| :: WithinRate(window[i].values, limit)
    ensures 0 <= SquaresOf(window, axis) <= Times(|window|, Times(limit, limit))
    decreases |window|
  {
    hide Times;
    if window != [] {
      var init := window[..|window| - 1];
      SquaresBounded(init, axis, limit);
      assert WithinRate(window[|window| - 1].values, limit);
      assert axis == 0 || axis == 1 || axis == 2;
      SquareWithin(window[|window| - 1].values[axis], limit);
      TimesNext(|init|, Times(limit, limit));
    } else {
      TimesZero(Times(limit, limit));
    }
  }

  function Times(a: nat, b: int): (p: int)
    requires b >= 0
    ensures p >= 0
  {
    ReleaseGrid.Nonnegative(a, b);
    a * b
  }

  lemma TimesZero(b: int)
    requires b >= 0
    ensures Times(0, b) == 0
  {
  }

  lemma TimesNext(n: nat, b: int)
    requires b >= 0
    ensures Times(n + 1, b) == Times(n, b) + b
  {
  }

  lemma SquareWithin(v: int, limit: nat)
    requires Magnitude(v) <= limit
    ensures 0 <= v * v <= Times(limit, limit)
  {
    SquareBounded(v, limit);
  }

  lemma SquareBounded(v: int, limit: nat)
    requires Magnitude(v) <= limit
    ensures 0 <= v * v <= limit * limit
  {
    var m := Magnitude(v);
    assert v * v == m * m;
    assert limit * limit - m * m == (limit - m) * (limit + m);
    assert (limit - m) * (limit + m) >= 0;
  }

  /* ---------------- what every call keeps ---------------- */

  lemma {:induction false} OneMoreTaken(c: Calibration, call: Call)
    requires Tracks(c) && c.count < MAX_SAMPLES
    ensures Tracks(c.(sums := Added(c.sums, call.values), squares := Added(c.squares, Squared(call.values)),
                      count := c.count + 1, window := c.window + [Taken(call.values, call.sequence, call.now)]))
  {
    assert (c.window + [Taken(call.values, call.sequence, call.now)])[..|c.window|] == c.window;
  }

  /** The window as it is when a call is about to be collected. */
  ghost predicate ReadyToCollect(c: Calibration, call: Call) {
    && c.config.Valid() && c.maximumRateRaw >= 0 && c.maximumDeviationRaw >= 0
    && Tracks(c) && WindowSound(c.window, c.maximumRateRaw) && c.phase == Collecting
    && WithinRate(call.values, c.maximumRateRaw) && c.lastSequence == call.sequence && c.sequenceSeen
    && (forall i | 0 <= i < |c.window| :: c.window[i].sequence < call.sequence)
    && c.phaseStartedAt == (if c.window == [] then call.now else c.window[0].at) && call.now >= c.phaseStartedAt
  }

  lemma {:induction false} CollectKeeps(c: Calibration, call: Call)
    requires ReadyToCollect(c, call)
    ensures var r := Collect(c, call);
            CalibrationInv(r) && (r.phase == CalibrationReady ==> WellFounded(r))
  {
    hide RoundedAverage, WithinDeviation, NearMean, SumOf, SquaresOf, Numerator, Limit, Config.Valid;
    if c.count < MAX_SAMPLES {
      OneMoreTaken(c, call);
      var r := Collect(c, call);
      if r.phase == CalibrationReady {
        ReadyIsWellFounded(r);
      }
    }
    NothingTaken();
  }

  lemma NothingTaken()
    ensures SumOf([], 0) == 0 && SumOf([], 1) == 0 && SumOf([], 2) == 0
    ensures SquaresOf([], 0) == 0 && SquaresOf([], 1) == 0 && SquaresOf([], 2) == 0
  {
  }

  lemma {:induction false} ReadyIsWellFounded(r: Calibration)
    requires Tracks(r) && WindowSound(r.window, r.maximumRateRaw) && r.window != [] && r.maximumRateRaw >= 0
    requires r.bias == [RoundedAverage(r.sums[0], r.count), RoundedAverage(r.sums[1], r.count),
                        RoundedAverage(r.sums[2], r.count)]
    requires r.window[|r.window| - 1].at - r.window[0].at >= r.config.duration && r.count >= r.config.minimumCount
    requires VarianceAcceptable(r)
    ensures WellFounded(r)
  {
    hide RoundedAverage, WithinDeviation, NearMean, SumOf, SquaresOf, Numerator, Limit;
    forall axis: nat | axis < 3
      ensures WithinDeviation(r.window, axis, r.maximumDeviationRaw)
              && NearMean(r.bias[axis], SumOf(r.window, axis), r.count)
      ensures Magnitude(r.bias[axis]) <= r.maximumRateRaw
    {
      IntegerTestIsVariance(r.window, axis, r.maximumDeviationRaw);
      SumBounded(r.window, axis, r.maximumRateRaw);
      AverageIsNear(SumOf(r.window, axis), r.count, r.maximumRateRaw);
      assert axis == 0 || axis == 1 || axis == 2;
    }
  }

  /** Every call keeps the calibration sound, and it becomes ready only on a well-founded window. */
  lemma {:induction false} ProcessKeeps(c: Calibration, call: Call)
    requires CalibrationInv(c)
    ensures var r := Process(c, call);
            CalibrationInv(r) && (r.phase == CalibrationReady && c.phase != CalibrationReady ==> WellFounded(r))
  {
    hide Collect, WellFounded, SumOf, SquaresOf, Config.Valid;
    var r := Process(c, call);
    if c.phase != CalibrationReady && Usable(c, call) && Newer(c, call) && WithinRate(call.values, c.maximumRateRaw) {
      var seen := c.(lastSequence := call.sequence, sequenceSeen := true);
      if c.phase == Collecting {
        CollectKeeps(seen, call);
      } else if call.now - c.phaseStartedAt >= c.config.settling {
        CollectKeeps(seen.(phase := Collecting, phaseStartedAt := call.now), call);
      }
    }
    NothingTaken();
  }

  /**
   * A call extends the window exactly when it brings a newer, fresh, in-range sample; otherwise it restarts or
   * repeats.
   */
  lemma {:induction false} WindowGrowsOrRestarts(c: Calibration, call: Call)
    requires CalibrationInv(c) && c.phase != CalibrationReady
    ensures var r := Process(c, call);
            var taken := c.window + [Taken(call.values, call.sequence, call.now)];
            && (c.phase == Collecting ==> (r.window == c.window <==> Usable(c, call) && !Newer(c, call)))
            && (r.window == taken ==>
                  && Usable(c, call) && Newer(c, call) && WithinRate(call.values, c.maximumRateRaw)
                  && (c.phase == Settling ==> call.now - c.phaseStartedAt >= c.config.settling))
            && (r.window == c.window || r.window == taken || (r.window == [] && r.phase == Settling))
            && (r.phase == CalibrationReady ==> r.window == taken)
  {
    assert |c.window + [Taken(call.values, call.sequence, call.now)]| == |c.window| + 1;
  }

  function ProcessAll(c: Calibration, calls: seq<Call>): (r: Calibration)
    decreases |calls|
  {
    if calls == [] then c else ProcessAll(Process(c, calls[0]), calls[1..])
  }

  lemma {:induction false} ReadyStays(c: Calibration, calls: seq<Call>)
    requires c.phase == CalibrationReady
    ensures ProcessAll(c, calls) == c
    decreases |calls|
  {
    hide Collect;
    if calls != [] {
      ReadyStays(c, calls[1..]);
    }
  }

  lemma {:induction false} RunIsWellFounded(c: Calibration, calls: seq<Call>)
    requires CalibrationInv(c) && c.phase != CalibrationReady
    ensures var r := ProcessAll(c, calls);
            CalibrationInv(r) && (r.phase == CalibrationReady ==> WellFounded(r))
    decreases |calls|
  {
    hide Process, CalibrationInv, WellFounded;
    if calls != [] {
      ProcessKeeps(c, calls[0]);
      var next := Process(c, calls[0]);
      if next.phase == CalibrationReady {
        ReadyStays(next, calls[1..]);
      } else {
        RunIsWellFounded(next, calls[1..]);
      }
    }
  }

  lemma {:induction false} InitializedIsSound(config: Config, now: uint64)
    requires config.Valid()
    ensures var c := Initialize(config, now).value;
            CalibrationInv(c) && c.phase == Settling
  {
    assert config.maximumRate * config.countsPerDps >= 0.0;
    assert config.maximumDeviation * config.countsPerDps >= 0.0;
  }

  /* ---------------- the window and the calls ---------------- */

  /** Every call of the stretch brought a valid, fresh sample, on a clock not before that of the first. */
  predicate Unbroken(calls: seq<Call>, first: nat, end: nat) {
    && first < end <= |calls|
    && forall j | first <= j < end :: calls[j].valid && calls[j].isFresh && calls[j].now >= calls[first].now
  }

  /** The samples of these calls that are newer than all before them, in order. */
  function NewSamples(calls: seq<Call>): (window: seq<Taken>)
    ensures calls != [] ==> window != []
    decreases |calls|
  {
    if calls == [] then []
    else
      var before, call := NewSamples(calls[..|calls| - 1]), calls[|calls| - 1];
      if before == [] || call.sequence > before[|before| - 1].sequence then
        before + [Taken(call.values, call.sequence, call.now)]
      else before
  }

  /** While it collects, the window is what an unbroken stretch up to now has brought. */
  ghost predicate Explained(c: Calibration, calls: seq<Call>) {
    c.phase == Collecting ==>
      exists first: nat :: Unbroken(calls, first, |calls|) && c.window == NewSamples(calls[first..])
                      && c.phaseStartedAt == calls[first].now
  }

  /** READY came with the last of these calls, and the window is all an unbroken stretch up to it has brought. */
  ghost predicate Earned(c: Calibration, calls: seq<Call>, end: nat) {
    && 0 < end <= |calls|
    && exists first: nat :: Unbroken(calls, first, end) && c.window == NewSamples(calls[first..end])
  }

  lemma {:induction false} OneMoreNew(calls: seq<Call>, call: Call, first: nat)
    requires first <= |calls|
    ensures var before := NewSamples(calls[first..]);
            NewSamples((calls + [call])[first..]) ==
            if before == [] || call.sequence > before[|before| - 1].sequence then
              before + [Taken(call.values, call.sequence, call.now)]
            else before
  {
    var all := (calls + [call])[first..];
    assert all == calls[first..] + [call];
    assert all[..|all| - 1] == calls[first..];
  }

  lemma StretchGoesOn(calls: seq<Call>, call: Call, first: nat)
    requires Unbroken(calls, first, |calls|) && call.valid && call.isFresh && call.now >= calls[first].now
    ensures Unbroken(calls + [call], first, |calls| + 1)
  {
  }

  /** What a call that leaves a window did to it. */
  lemma {:induction false} WindowStep(c: Calibration, call: Call)
    requires CalibrationInv(c) && c.phase != CalibrationReady && Process(c, call).window != []
    ensures var r := Process(c, call);
            && call.valid && call.isFresh && call.now >= r.phaseStartedAt
            && (c.phase == Collecting ==> r.phaseStartedAt == c.phaseStartedAt)
            && (c.phase == Settling ==> r.phaseStartedAt == call.now)
            && r.window == (
              if c.window == [] || call.sequence > c.window[|c.window| - 1].sequence then
                c.window + [Taken(call.values, call.sequence, call.now)]
              else c.window)
            && (r.phase == CalibrationReady ==> r.window != c.window)
  {
    hide VarianceAcceptable, RoundedAverage, SumOf, SquaresOf, Config.Valid, WindowSound;
    assert |c.window + [Taken(call.values, call.sequence, call.now)]| == |c.window| + 1;
  }

  lemma {:induction false} StepIsExplained(c: Calibration, calls: seq<Call>, call: Call)
    requires CalibrationInv(c) && c.phase != CalibrationReady && Explained(c, calls)
    ensures var r := Process(c, call);
            && Explained(r, calls + [call])
            && (r.phase == CalibrationReady ==> Earned(r, calls + [call], |calls| + 1))
  {
    hide NewSamples, Process, Tracks, WindowSound, Config.Valid;
    var r := Process(c, call);
    ProcessKeeps(c, call);
    if r.phase == CalibrationReady {
      ReadyHasWindow(c, call);
    }
    if r.window != [] {
      WindowStep(c, call);
      var first: nat := |calls|;
      if c.phase == Collecting {
        first :| Unbroken(calls, first, |calls|) && c.window == NewSamples(calls[first..])
                 && c.phaseStartedAt == calls[first].now;
        StretchGoesOn(calls, call, first);
      } else {
        OneCallStretch(calls, call);
        assert calls[first..] == [];
        NothingNew();
      }
      OneMoreNew(calls, call, first);
      assert (calls + [call])[first..] == (calls + [call])[first..|calls| + 1];
      assert r.window == NewSamples((calls + [call])[first..]);
    }
  }

  lemma ReadyHasWindow(c: Calibration, call: Call)
    requires CalibrationInv(c) && c.phase != CalibrationReady && Process(c, call).phase == CalibrationReady
    ensures Process(c, call).window != []
  {
    hide VarianceAcceptable, RoundedAverage, SumOf, SquaresOf, Config.Valid, WindowSound;
  }

  lemma OneCallStretch(calls: seq<Call>, call: Call)
    requires call.valid && call.isFresh
    ensures Unbroken(calls + [call], |calls|, |calls| + 1)
  {
  }

  lemma NothingNew()
    ensures NewSamples([]) == []
  {
  }

  lemma {:induction false} ProcessLast(c: Calibration, calls: seq<Call>, call: Call)
    ensures ProcessAll(c, calls + [call]) == Process(ProcessAll(c, calls), call)
    decreases |calls|
  {
    hide Process;
    if calls == [] {
      assert [] + [call] == [call];
    } else {
      assert (calls + [call])[1..] == calls[1..] + [call];
      ProcessLast(Process(c, calls[0]), calls[1..], call);
    }
  }

  /** Either it is still at work, with its window explained, or READY was earned by one of the calls. */
  lemma {:induction false} RunIsExplained(c: Calibration, calls: seq<Call>)
    requires CalibrationInv(c) && c.phase == Settling
    ensures var r := ProcessAll(c, calls);
            if r.phase == CalibrationReady then
              exists end | 0 < end <= |calls| ::
                && Earned(r, calls, end) && ProcessAll(c, calls[..end]) == r
                && ProcessAll(c, calls[..end - 1]).phase != CalibrationReady
            else CalibrationInv(r) && Explained(r, calls)
    decreases |calls|
  {
    hide Process, CalibrationInv, WellFounded, Explained, Earned, ProcessAll;
    if calls == [] {
      NothingProcessed(c);
    } else {
      var init, call := calls[..|calls| - 1], calls[|calls| - 1];
      assert calls == init + [call];
      RunIsExplained(c, init);
      ProcessLast(c, init, call);
      var before := ProcessAll(c, init);
      if before.phase == CalibrationReady {
        var end :| 0 < end <= |init| && Earned(before, init, end) && ProcessAll(c, init[..end]) == before
                   && ProcessAll(c, init[..end - 1]).phase != CalibrationReady;
        assert Process(before, call) == before by { ReadyIgnores(before, call); }
        EarnedEarlier(before, init, call, end);
        assert calls[..end] == init[..end] && calls[..end - 1] == init[..end - 1];
      } else {
        ProcessKeeps(before, call);
        StepIsExplained(before, init, call);
        assert calls[..|calls|] == calls && calls[..|calls| - 1] == init;
      }
    }
  }

  lemma NothingProcessed(c: Calibration)
    requires c.phase == Settling
    ensures ProcessAll(c, []) == c && Explained(c, [])
  {
  }

  lemma ReadyIgnores(c: Calibration, call: Call)
    requires c.phase == CalibrationReady
    ensures Process(c, call) == c
  {
  }

  lemma EarnedEarlier(c: Calibration, calls: seq<Call>, call: Call, end: nat)
    requires Earned(c, calls, end)
    ensures Earned(c, calls + [call], end)
  {
    hide NewSamples;
    var first: nat :| Unbroken(calls, first, end) && c.window == NewSamples(calls[first..end]);
    assert Unbroken(calls + [call], first, end);
    assert (calls + [call])[first..end] == calls[first..end];
  }

  /**
   * In every run from initialization, READY is reached at one of the calls, and rests on an unbroken stretch of calls
   * up to that one, all valid and fresh: the window is exactly the samples of the stretch newer than all before them,
   * enough of them, in range and lasting the sample duration, with a population variance within the limit on every
   * axis, and the bias is within half a count of the mean and within the rate limit.
   */
  lemma {:induction false} CalibrationIsWellFounded(config: Config, now: uint64, calls: seq<Call>)
    requires config.Valid()
    ensures var c := Initialize(config, now).value;
            var r := ProcessAll(c, calls);
            r.phase == CalibrationReady ==>
              && WellFounded(r)
              && exists end | 0 < end <= |calls| ::
                   && Earned(r, calls, end) && ProcessAll(c, calls[..end]) == r
                   && ProcessAll(c, calls[..end - 1]).phase != CalibrationReady
  {
    hide ProcessAll, WellFounded, Earned, Initialize;
    InitializedIsSound(config, now);
    InitializedExists(config, now);
    RunIsWellFounded(Initialize(config, now).value, calls);
    RunIsExplained(Initialize(config, now).value, calls);
  }

  lemma InitializedExists(config: Config, now: uint64)
    ensures config.Valid() <==> Initialize(config, now).Some?
  {
  }

  /* ---------------- 64-bit arithmetic ---------------- */

  predicate FitsInt64(x: int) {
    -INT64_MAX - 1 <= x <= INT64_MAX
  }

  /** Raw counts come from 16-bit samples, possibly negated. */
  predicate SixteenBit(v: Values) {
    Magnitude(v[0]) <= 32768 && Magnitude(v[1]) <= 32768 && Magnitude(v[2]) <= 32768
  }

  lemma {:induction false} FourFactors(count: nat, maximum: nat, bound: nat)
    requires count <= MAX_SAMPLES && maximum <= bound
    ensures 0 <= count * count * maximum * maximum <= 100_000_000 * (bound * bound)
  {
    SquareBounded(count, MAX_SAMPLES);
    SquareBounded(maximum, bound);
    var a, b := count * count, maximum * maximum;
    assert count * count * maximum * maximum == a * b;
    assert 0 <= a * b;
    assert a * b <= 100_000_000 * b by {
      assert (100_000_000 - a) * b >= 0;
    }
    assert 100_000_000 * b <= 100_000_000 * (bound * bound);
  }

  /** With 16-bit samples, no sum or product of the test on the sums leaves 64 bits. */
  lemma {:induction false} SumsNeverOverflow(window: seq<Taken>, axis: nat)
    requires axis < 3 && |window| <= MAX_SAMPLES
    requires forall i | 0 <= i < |window| :: SixteenBit(window[i].values)
    ensures var n, sum, squares := |window|, SumOf(window, axis), SquaresOf(window, axis);
            && FitsInt64(sum) && FitsInt64(squares) && FitsInt64(n * squares) && FitsInt64(sum * sum)
            && FitsInt64(Numerator(n, squares, sum))
  {
    hide SumOf, SquaresOf;
    assert forall i | 0 <= i < |window| :: WithinRate(window[i].values, 32768);
    SumBounded(window, axis, 32768);
    SquaresBounded(window, axis, 32768);
    var n, sum, squares := |window|, SumOf(window, axis), SquaresOf(window, axis);
    SquareBounded(sum, 327_680_000);
    assert squares <= 10_000 * 1_073_741_824;
    assert 0 <= n * squares <= 10_000 * 10_737_418_240_000 by {
      assert n * squares <= 10_000 * squares;
    }
  }

  /** The limit the numerator is compared with fits 64 bits for every window exactly up to this deviation. */
  lemma {:induction false} LimitFitsExactly(maximum: nat)
    ensures (forall count: nat | count <= MAX_SAMPLES :: FitsInt64(Limit(count, maximum))) <==> maximum <= 303_700
  {
    if maximum <= 303_700 {
      forall count: nat | count <= MAX_SAMPLES
        ensures FitsInt64(Limit(count, maximum))
      {
        FourFactors(count, maximum, 303_700);
      }
    } else {
      SquareBounded(303_701, maximum);
      assert Limit(MAX_SAMPLES, maximum) == 100_000_000 * (maximum * maximum);
      assert !FitsInt64(Limit(MAX_SAMPLES, maximum));
    }
  }

  /** The flight configuration keeps the deviation far below that bound. */
  lemma {:induction false} FlightLimitsFit(config: Config, now: uint64, count: nat)
    requires config.Valid() && config.maximumDeviation <= FLIGHT_LIMIT_DPS && config.countsPerDps == COUNTS_PER_DPS
    requires count <= MAX_SAMPLES
    ensures var c := Initialize(config, now).value;
            c.maximumDeviationRaw <= 32768 && FitsInt64(Limit(count, c.maximumDeviationRaw))
  {
    var c := Initialize(config, now).value;
    assert config.maximumDeviation * config.countsPerDps <= 32768.0;
    assert config.maximumDeviation * config.countsPerDps >= 0.0;
    FourFactors(count, c.maximumDeviationRaw, 32768);
  }

  /* ---------------- the calibration updated in place ---------------- */

  class GyroCalibrator {
    const config: Config
    const maximumRateRaw: int
    const maximumDeviationRaw: int
    const sums: array<int>
    const squares: array<int>
    const bias: array<int>
    var phase: Phase
    var phaseStartedAt: uint64
    var lastSequence: uint64
    var count: nat
    var restartCount: uint32
    var sequenceSeen: bool
    ghost var window: seq<Taken>

    ghost predicate Valid()
      reads this
    {
      && sums.Length == 3 && squares.Length == 3 && bias.Length == 3
      && sums != squares && sums != bias && squares != bias
    }

    ghost function View(): (c: Calibration)
      requires Valid()
      reads this, sums, squares, bias
    {
      Calibration(config, phase, phaseStartedAt, lastSequence, sums[..], squares[..], bias[..], count, restartCount,
                  maximumRateRaw, maximumDeviationRaw, sequenceSeen, window)
    }

    constructor (config: Config, now: uint64)
      requires config.Valid()
      ensures Valid() && fresh(sums) && fresh(squares) && fresh(bias)
      ensures View() == Initialize(config, now).value
    {
      this.config := config;
      maximumRateRaw := RoundedPositive(config.maximumRate * config.countsPerDps);
      maximumDeviationRaw := RoundedPositive(config.maximumDeviation * config.countsPerDps);
      sums := new int[3](i => 0);
      squares := new int[3](i => 0);
      bias := new int[3](i => 0);
      phase, phaseStartedAt, lastSequence, count, restartCount, sequenceSeen := Settling, now, 0, 0, 0, false;
      window := [];
      new;
      assert sums[..] == ZeroValues && squares[..] == ZeroValues && bias[..] == ZeroValues;
    }

    method Restart(now: uint64, countRestart: bool)
      requires Valid()
      modifies this, sums, squares
      ensures Valid() && View() == BeginSettling(old(View()), now, countRestart)
    {
      for axis := 0 to 3
        invariant unchanged(this)
        invariant forall i | 0 <= i < axis :: sums[i] == 0 && squares[i] == 0
      {
        sums[axis], squares[axis] := 0, 0;
      }
      phase := Settling;
      phaseStartedAt := now;
      count := 0;
      window := [];
      if countRestart {
        restartCount := SaturatingIncrement(restartCount);
      }
      assert sums[..] == ZeroValues && squares[..] == ZeroValues;
    }

    method AcceptsVariance() returns (ok: bool)
      requires Valid()
      ensures ok == VarianceAcceptable(View())
    {
      hide Numerator, Limit;
      var limit := Limit(count, maximumDeviationRaw);
      for axis := 0 to 3
        invariant forall i | 0 <= i < axis :: Numerator(count, squares[i], sums[i]) <= limit
      {
        if Numerator(count, squares[axis], sums[axis]) > limit {
          return false;
        }
      }
      assert Numerator(count, squares[0], sums[0]) <= limit && Numerator(count, squares[1], sums[1]) <= limit;
      assert Numerator(count, squares[2], sums[2]) <= limit;
      return true;
    }

    method Accumulate(call: Call)
      requires Valid()
      modifies this, sums, squares
      ensures Valid()
      ensures View() ==
              var c := old(View());
              c.(sums := Added(c.sums, call.values), squares := Added(c.squares, Squared(call.values)),
                 count := c.count + 1, window := c.window + [Taken(call.values, call.sequence, call.now)])
    {
      for axis := 0 to 3
        invariant unchanged(this)
        invariant forall i | 0 <= i < axis :: sums[i] == old(sums[i]) + call.values[i]
        invariant forall i | 0 <= i < axis :: squares[i] == old(squares[i]) + call.values[i] * call.values[i]
        invariant forall i | axis <= i < 3 :: sums[i] == old(sums[i]) && squares[i] == old(squares[i])
      {
        sums[axis] := sums[axis] + call.values[axis];
        squares[axis] := squares[axis] + call.values[axis] * call.values[axis];
      }
      count := count + 1;
      window := window + [Taken(call.values, call.sequence, call.now)];
      assert sums[..] == Added(old(sums[..]), call.values);
      assert squares[..] == Added(old(squares[..]), Squared(call.values));
    }

    method StoreBias()
      requires Valid() && count > 0
      modifies bias
      ensures bias[..] == [RoundedAverage(sums[0], count), RoundedAverage(sums[1], count),
              RoundedAverage(sums[2], count)]
    {
      hide RoundedAverage;
      for axis := 0 to 3
        invariant forall i | 0 <= i < axis :: bias[i] == RoundedAverage(sums[i], count)
      {
        bias[axis] := RoundedAverage(sums[axis], count);
      }
    }

    method CollectSample(call: Call)
      requires Valid()
      modifies this, sums, squares, bias
      ensures Valid() && View() == Collect(old(View()), call)
    {
      hide Added, Squared, VarianceAcceptable, RoundedAverage, BeginSettling;
      if count >= MAX_SAMPLES {
        Restart(call.now, true);
        return;
      }
      Accumulate(call);
      if call.now - phaseStartedAt >= config.duration && count >= config.minimumCount {
        var ok := AcceptsVariance();
        if !ok {
          Restart(call.now, true);
          return;
        }
        StoreBias();
        phase := CalibrationReady;
      }
    }

    method ProcessSample(call: Call)
      requires Valid()
      modifies this, sums, squares, bias
      ensures Valid() && View() == Process(old(View()), call)
    {
      hide Collect, WithinRate, BeginSettling;
      if phase == CalibrationReady {
        return;
      }
      if !call.valid || !call.isFresh || call.now < phaseStartedAt {
        Restart(call.now, count > 0);
        sequenceSeen := false;
        return;
      }
      if sequenceSeen && call.sequence <= lastSequence {
        return;
      }
      lastSequence := call.sequence;
      sequenceSeen := true;
      if !WithinRate(call.values, maximumRateRaw) {
        Restart(call.now, true);
        return;
      }
      if phase == Settling {
        if call.now - phaseStartedAt < config.settling {
          return;
        }
        phase := Collecting;
        phaseStartedAt := call.now;
      }
      CollectSample(call);
    }
  }
}
