/** What becomes of every call of the gyro calibration, and that a quiet window makes it ready. */
module GyroOutcome {
  import opened Counters
  import opened GyroCalibration

  predicate Seen(c: Calibration, call: Call) {
    c.sequenceSeen && call.sequence <= c.lastSequence
  }

  predicate Fresh(c: Calibration, call: Call) {
    call.valid && call.isFresh && c.phaseStartedAt <= call.now
  }

  predicate Still(v: Values, limit: int) {
    forall axis: nat | axis < 3 :: -limit <= v[axis] <= limit
  }

  /** Settling anew from this call. */
  predicate StartsOver(c: Calibration, r: Calibration, call: Call, counted: bool) {
    && r.phase == Settling && r.phaseStartedAt == call.now && r.window == []
    && r.restarts == Min(c.restarts + (if counted then 1 else 0), UINT32_MAX)
  }

  /** The window with this call's sample. */
  function Longer(c: Calibration, call: Call): (w: seq<Taken>) {
    c.window + [Taken(call.values, call.sequence, call.now)]
  }

  /** Long and large enough to be judged. */
  predicate Complete(window: seq<Taken>, config: Config) {
    |window| >= config.minimumCount && |window| > 0 && window[|window| - 1].at - window[0].at >= config.duration
  }

  ghost predicate Quiet(window: seq<Taken>, limit: int)
    requires window != []
  {
    forall axis: nat | axis < 3 :: WithinDeviation(window, axis, limit)
  }

  /** The sample is to be taken into a window: it is new and in range, and settling is over. */
  predicate Takes(c: Calibration, call: Call) {
    && Fresh(c, call) && !Seen(c, call) && Still(call.values, c.maximumRateRaw)
    && (c.phase == Settling ==> call.now - c.phaseStartedAt >= c.config.settling)
  }

  lemma StillIsWithin(v: Values, limit: int)
    ensures Still(v, limit) <==> WithinRate(v, limit)
  {
    if Still(v, limit) {
      assert -limit <= v[0] <= limit && -limit <= v[1] <= limit && -limit <= v[2] <= limit;
    }
  }

  lemma QuietIsAcceptable(c: Calibration)
    requires Tracks(c) && c.window != []
    ensures VarianceAcceptable(c) <==> Quiet(c.window, c.maximumDeviationRaw)
  {
    hide Numerator, Limit, SumOf, SquaresOf, WithinDeviation;
    IntegerTestIsVariance(c.window, 0, c.maximumDeviationRaw);
    IntegerTestIsVariance(c.window, 1, c.maximumDeviationRaw);
    IntegerTestIsVariance(c.window, 2, c.maximumDeviationRaw);
    if Quiet(c.window, c.maximumDeviationRaw) {
      assert WithinDeviation(c.window, 0, c.maximumDeviationRaw) && WithinDeviation(c.window, 1, c.maximumDeviationRaw)
             && WithinDeviation(c.window, 2, c.maximumDeviationRaw);
    }
  }

  /**
   * Every call has one outcome: a call without a fresh, valid sample starts over; one that repeats a sample changes
   * nothing; a sample out of range starts over; one that comes while settling is only remembered; any other joins the
   * window, which, once complete, makes the calibration ready exactly if it is quiet, and starts over if it is not.
   */
  lemma {:induction false} CallHasItsOutcome(c: Calibration, call: Call)
    requires CalibrationInv(c) && c.phase != CalibrationReady
    ensures var r := Process(c, call);
            && (!Fresh(c, call) ==> StartsOver(c, r, call, c.window != []) && !r.sequenceSeen)
            && (Fresh(c, call) && Seen(c, call) ==> r == c)
            && (Fresh(c, call) && !Seen(c, call) ==> r.sequenceSeen && r.lastSequence == call.sequence)
            && (Fresh(c, call) && !Seen(c, call) && !Still(call.values, c.maximumRateRaw) ==>
                  StartsOver(c, r, call, true))
            && (Fresh(c, call) && !Seen(c, call) && Still(call.values, c.maximumRateRaw) && !Takes(c, call) ==>
                  r == c.(lastSequence := call.sequence, sequenceSeen := true))
            && (Takes(c, call) && |c.window| >= MAX_SAMPLES ==> StartsOver(c, r, call, true))
            && (Takes(c, call) && |c.window| < MAX_SAMPLES ==>
                  && (r.phase == CalibrationReady <==>
                        Complete(Longer(c, call), c.config) && Quiet(Longer(c, call), c.maximumDeviationRaw))
                  && (r.phase == Collecting <==> !Complete(Longer(c, call), c.config))
                  && (r.phase == Settling ==> StartsOver(c, r, call, true))
                  && (r.phase != Settling ==> r.window == Longer(c, call) && r.restarts == c.restarts))
            && r.config == c.config && r.maximumRateRaw == c.maximumRateRaw
            && r.maximumDeviationRaw == c.maximumDeviationRaw
  {
    hide VarianceAcceptable, RoundedAverage, SumOf, SquaresOf, Config.Valid, WithinDeviation, Still, WithinRate;
    StillIsWithin(call.values, c.maximumRateRaw);
    if Takes(c, call) && |c.window| < MAX_SAMPLES {
      OneMoreTaken(c, call);
      var added := c.(sums := Added(c.sums, call.values), squares := Added(c.squares, Squared(call.values)),
                      count := c.count + 1, window := Longer(c, call), lastSequence := call.sequence,
                      sequenceSeen := true, phase := Collecting,
                      phaseStartedAt := if c.phase == Settling then call.now else c.phaseStartedAt);
      QuietIsAcceptable(added);
    }
  }

  /* ---------------- a still gyro is calibrated ---------------- */

  function TakenOf(calls: seq<Call>): (window: seq<Taken>) {
    seq(|calls|, i requires 0 <= i < |calls| => Taken(calls[i].values, calls[i].sequence, calls[i].now))
  }

  /** Every call brings a new, fresh sample in range, on a forward clock. */
  predicate Steady(c: Calibration, calls: seq<Call>) {
    && (forall i | 0 <= i < |calls| ::
          && Fresh(c, calls[i]) && !Seen(c, calls[i]) && Still(calls[i].values, c.maximumRateRaw))
    && (forall i, j | 0 <= i < j < |calls| ::
          calls[i].sequence < calls[j].sequence && calls[i].now <= calls[j].now)
  }

  /** The window is complete with the last of these calls and not before. */
  predicate CompletesLast(window: seq<Taken>, calls: seq<Call>, config: Config) {
    && Complete(window + TakenOf(calls), config)
    && forall n | 0 < n < |calls| :: !Complete(window + TakenOf(calls[..n]), config)
  }

  lemma SteadyAfter(c: Calibration, r: Calibration, calls: seq<Call>)
    requires calls != [] && Steady(c, calls) && r.lastSequence == calls[0].sequence
    requires r.phaseStartedAt <= calls[0].now && r.maximumRateRaw == c.maximumRateRaw
    ensures Steady(r, calls[1..])
  {
    hide Still;
    var rest := calls[1..];
    forall i | 0 <= i < |rest|
      ensures Fresh(r, rest[i]) && !Seen(r, rest[i]) && Still(rest[i].values, r.maximumRateRaw)
    {
      assert rest[i] == calls[i + 1] && Fresh(c, calls[i + 1]) && calls[0].now <= calls[i + 1].now;
    }
  }

  lemma CompletesAfter(window: seq<Taken>, calls: seq<Call>, config: Config)
    requires |calls| > 1 && CompletesLast(window, calls, config)
    ensures var longer := window + [Taken(calls[0].values, calls[0].sequence, calls[0].now)];
            && !Complete(longer, config) && CompletesLast(longer, calls[1..], config)
            && longer + TakenOf(calls[1..]) == window + TakenOf(calls)
  {
    hide Complete;
    var longer := window + [Taken(calls[0].values, calls[0].sequence, calls[0].now)];
    assert window + TakenOf(calls[..1]) == longer;
    assert longer + TakenOf(calls[1..]) == window + TakenOf(calls);
    forall n | 0 < n < |calls[1..]|
      ensures !Complete(longer + TakenOf(calls[1..][..n]), config)
    {
      assert longer + TakenOf(calls[1..][..n]) == window + TakenOf(calls[..n + 1]);
    }
  }

  lemma {:induction false} CollectsUntilComplete(c: Calibration, calls: seq<Call>)
    requires CalibrationInv(c) && c.phase == Collecting && calls != [] && Steady(c, calls)
    requires |c.window| + |calls| <= MAX_SAMPLES && CompletesLast(c.window, calls, c.config)
    ensures var r, window := ProcessAll(c, calls), c.window + TakenOf(calls);
            && (r.phase == CalibrationReady <==> Quiet(window, c.maximumDeviationRaw))
            && (r.phase == CalibrationReady ==> r.window == window)
    decreases |calls|
  {
    hide Process, CalibrationInv, Quiet, CompletesLast, Steady, Complete;
    FirstIsTaken(c, calls);
    CallHasItsOutcome(c, calls[0]);
    ProcessKeeps(c, calls[0]);
    var r := Process(c, calls[0]);
    if |calls| == 1 {
      LastCompletes(c.window, calls, c.config);
      assert TakenOf(calls) == [Taken(calls[0].values, calls[0].sequence, calls[0].now)];
      assert calls[1..] == [] && ProcessAll(c, calls) == r;
    } else {
      CompletesAfter(c.window, calls, c.config);
      StartOfWindow(r);
      StartOfWindow(c);
      SteadyAfter(c, r, calls);
      CollectsUntilComplete(r, calls[1..]);
    }
  }

  lemma FirstIsTaken(c: Calibration, calls: seq<Call>)
    requires calls != [] && Steady(c, calls) && c.phase == Collecting
    ensures Takes(c, calls[0]) && c.phaseStartedAt <= calls[0].now
  {
  }

  lemma StartOfWindow(c: Calibration)
    requires CalibrationInv(c) && c.phase == Collecting
    ensures c.window != [] && c.phaseStartedAt == c.window[0].at
  {
  }

  lemma LastCompletes(window: seq<Taken>, calls: seq<Call>, config: Config)
    requires CompletesLast(window, calls, config)
    ensures Complete(window + TakenOf(calls), config)
  {
  }

  /**
   * From the start of settling, new samples in range while it lasts and then a window of them that is long and large
   * enough: with the last of them the calibration is ready if and only if the window is quiet.
   */
  lemma {:induction false} QuietRunIsReadyExactly(c: Calibration, waiting: seq<Call>, calls: seq<Call>)
    requires CalibrationInv(c) && c.phase == Settling && |calls| > 1 && Steady(c, waiting + calls)
    requires forall i | 0 <= i < |waiting| :: waiting[i].now - c.phaseStartedAt < c.config.settling
    requires calls[0].now - c.phaseStartedAt >= c.config.settling
    requires |calls| <= MAX_SAMPLES && CompletesLast([], calls, c.config)
    ensures var r := ProcessAll(c, waiting + calls);
            && (r.phase == CalibrationReady <==> Quiet(TakenOf(calls), c.maximumDeviationRaw))
            && (r.phase == CalibrationReady ==> r.window == TakenOf(calls))
    decreases |waiting|
  {
    hide Process, CalibrationInv, Quiet, CompletesLast, Complete;
    var all := waiting + calls;
    CallHasItsOutcome(c, all[0]);
    ProcessKeeps(c, all[0]);
    SettlingIsEmpty(c);
    var r := Process(c, all[0]);
    if waiting == [] {
      assert all == calls;
      CompletesAfter([], calls, c.config);
      StartOfWindow(r);
      SteadyAfter(c, r, calls);
      assert [] + TakenOf(calls) == TakenOf(calls);
      CollectsUntilComplete(r, calls[1..]);
    } else {
      SteadyAfter(c, r, all);
      assert all[1..] == waiting[1..] + calls;
      QuietRunIsReadyExactly(r, waiting[1..], calls);
    }
  }

  lemma SettlingIsEmpty(c: Calibration)
    requires CalibrationInv(c) && c.phase == Settling
    ensures c.window == []
  {
  }

  /** The raw limit is the nearest whole number of counts. */
  predicate Nearest(raw: int, x: real) {
    x - 0.5 < raw as real <= x + 0.5
  }

  /** A calibration starts exactly with a valid configuration, settling, with nothing seen. */
  lemma StartsSettling(config: Config, now: uint64)
    ensures var c := Initialize(config, now);
            && (c.Some? <==> config.Valid())
            && (c.Some? ==>
                  && CalibrationInv(c.value) && c.value.config == config && c.value.phase == Settling
                  && c.value.phaseStartedAt == now && c.value.window == [] && !c.value.sequenceSeen
                  && c.value.restarts == 0 && c.value.bias == ZeroValues
                  && Nearest(c.value.maximumRateRaw, config.maximumRate * config.countsPerDps)
                  && Nearest(c.value.maximumDeviationRaw, config.maximumDeviation * config.countsPerDps))
  {
    if config.Valid() {
      assert Tracks(Initialize(config, now).value);
    }
  }
}
