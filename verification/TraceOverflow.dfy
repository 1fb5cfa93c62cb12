/** Five records too long for one response, and the read response that misleads about the next one. */
module TraceOverflow {
  import opened Counters
  import opened SystemState
  import opened Bytes
  import opened BlackboxSamples
  import opened BootloaderText
  import opened ControlTrace
  import opened TraceText
  import opened UsbTrace

  /** The bits of -2^31. */
  const HUGE: uint32 := 0xCF00_0000

  const Huge2: Words2 := [HUGE, HUGE]
  const Huge3: Words3 := [HUGE, HUGE, HUGE]
  const Huge4: Words4 := [HUGE, HUGE, HUGE, HUGE]
  const Lowest: Signed3 := [-32768, -32768, -32768]

  /** Every sensor and control value far out of its range, one second after the start. */
  function HugeSample(failsafeState: byte): (s: Sample) {
    QuietSample.(
      timestamp := 1_000_000, dt := 1000, failsafeState := failsafeState, mixerValid := true,
      rawAcceleration := Lowest, rawGyroscope := Lowest, filteredAcceleration := Huge3, filteredGyroscope := Huge3,
      accelerometerAttitude := Huge2, predictedAttitude := Huge2, attitude := Huge2, accelerometerWeight := HUGE,
      receiver := Huge4, setpoint := Huge4, desiredRates := Huge3, rollPid := Huge4, pitchPid := Huge4,
      yawPid := Huge4, motors := Huge4, correctionScale := HUGE, collectiveShift := HUGE,
      imu := ImuDetail(false, Huge3, HUGE, HUGE, Huge2, Huge3, Huge3))
  }

  lemma {:induction false} LongNumbers(v: nat, n: nat)
    requires v >= Power10(n)
    ensures |PrintDecimal(v)| > n
  {
    if n > 0 {
      LongNumbers(v / 10, n - 1);
    }
  }

  lemma HugeWithin(words: seq<uint32>)
    requires forall i | 0 <= i < |words| :: words[i] == HUGE
    ensures Within(Millis(words), 11, 11)
  {
    hide PrintDecimal;
    assert Power10(9) == 1_000_000_000;
    assert Milli(HUGE) == -0x8000_0000 by { assert Power2(8) == 256; }
    LongNumbers(0x8000_0000, 9);
    NumberLength(-0x8000_0000);
  }

  lemma HugePrints(s: Sample)
    requires exists state: byte :: s == HugeSample(state)
    ensures Prints(s, 11, 11) && AllWithin(RawLists(s), 6, 11)
  {
    hide Milli, SignedText, Millis, Within;
    HugeWithin(Huge2);
    HugeWithin(Huge3);
    HugeWithin(Huge4);
    HugeWithin(Huge4 + Huge4 + Huge4);
    HugeWithin([HUGE]);
    assert [HUGE, HUGE] == Huge2;
    LowestWithin();
  }

  lemma LowestWithin()
    ensures Within(Numbers(Lowest), 6, 11)
  {
    hide PrintDecimal;
    assert Power10(4) == 10_000;
    LongNumbers(32768, 4);
    NumberLength(-32768);
  }

  /** A huge record takes 774 characters or more. */
  lemma HugeLength(r: Record)
    requires exists state: byte :: r.sample == HugeSample(state)
    ensures |RecordText(r)| >= 774
  {
    hide RecordText, RawLists, Prints;
    HugePrints(r.sample);
    HugeHead(r);
    RecordLength(r, 6, 11, 11);
  }

  lemma HugeHead(r: Record)
    requires exists state: byte :: r.sample == HugeSample(state)
    ensures Total(Head(r)) >= 35
  {
    hide Head, PrintDecimal;
    assert Power10(6) == 1_000_000 && Power10(3) == 1000;
    LongNumbers(1_000_000, 6);
    LongNumbers(1000, 3);
    LongHead(r, 7, 4);
  }

  /** Five huge records do not fit into one response. */
  lemma FiveOverflow(requestId: uint32, b: Batch)
    requires |b.records| == 5
    requires forall i | 0 <= i < 5 :: exists state: byte :: b.records[i].sample == HugeSample(state)
    ensures |ResponseText(requestId, b, 5)| >= RESPONSE_CAPACITY
  {
    hide HeaderText, RecordText, Joined, HugeSample;
    HeaderLength(requestId, b);
    var texts := Texts(b.records);
    forall k | 0 <= k < 5
      ensures |texts[k]| >= 774
      ensures |Joined(texts[..k + 1])| == |Joined(texts[..k])| + |texts[k]| + (if k > 0 then 1 else 0)
    {
      HugeLength(b.records[k]);
      JoinedMore(texts, k);
    }
    assert |texts[0]| >= 774 && |texts[1]| >= 774 && |texts[2]| >= 774 && |texts[3]| >= 774 && |texts[4]| >= 774;
    assert |Joined(texts[..0 + 1])| >= 774 && |Joined(texts[..1 + 1])| >= 1549;
    assert |Joined(texts[..2 + 1])| >= 2324 && |Joined(texts[..3 + 1])| >= 3099;
  }

  /** The failsafe state changes with every sample, so that every sample is an event. */
  function Changing(n: nat): (steps: seq<Step>) {
    seq(n, i requires 0 <= i < n => Sampled(HugeSample(i % 2)))
  }

  /** A capture of events in which five records wait. */
  function FiveWaiting(): (steps: seq<Step>) {
    [Polled(CommandLine(StartTrace(Events, Disarmed, 0, true)), WriteAccepted)] + Changing(5)
  }

  /** After the start and n samples. */
  predicate Filled(l: Link, n: nat) {
    && l.pending == None && l.discardCount == 0 && l.trace.level == Events && l.trace.interval == 0
    && l.trace.consumed == 0 && l.delivered == [] && |l.trace.stored| == n && !l.trace.armedSeen
    && (n > 0 ==> l.trace.previous == Some(ObservationOf(HugeSample((n - 1) % 2))))
    && (n == 0 ==> l.trace.previous == None)
    && forall i | 0 <= i < n ::
         l.trace.stored[i].sequence == i + 1 && l.trace.stored[i].sample == HugeSample(i % 2)
  }

  lemma OneMoreWaiting(l: Link, n: nat)
    requires Filled(l, n) && n < CAPACITY - 1
    ensures Filled(LinkStep(l, Sampled(HugeSample(n % 2))), n + 1)
  {
    var s := HugeSample(n % 2);
    var events := EventsOf(l.trace.previous, s);
    assert (if n == 0 then CaptureStarted else FailsafeChanged) in events;
  }

  lemma {:induction false} Waiting(l: Link, n: nat)
    requires Filled(l, 0) && n < CAPACITY
    ensures Filled(LinkRun(l, Changing(n)), n)
    decreases n
  {
    hide Filled, LinkStep;
    if n > 0 {
      Waiting(l, n - 1);
      OneMoreWaiting(LinkRun(l, Changing(n - 1)), n - 1);
      assert Changing(n) == Changing(n - 1) + [Sampled(HugeSample((n - 1) % 2))];
      OneStepMore(l, Changing(n - 1), Sampled(HugeSample((n - 1) % 2)));
    }
  }

  lemma {:induction false} OneStepMore(l: Link, steps: seq<Step>, step: Step)
    ensures LinkRun(l, steps + [step]) == LinkStep(LinkRun(l, steps), step)
    decreases |steps|
  {
    hide LinkStep;
    if steps == [] {
      assert [] + [step] == [step];
    } else {
      assert (steps + [step])[1..] == steps[1..] + [step];
      OneStepMore(LinkStep(l, steps[0]), steps[1..], step);
    }
  }

  /** The response carries four records and announces number 6, and the next read begins with number 5. */
  lemma ShortReadMisleads(requestId: uint32)
    ensures var l := LinkRun(InitialLink, FiveWaiting());
            var response := Execute(l, ReadTrace(requestId)).1;
            var after := LinkStep(l, Polled(CommandLine(ReadTrace(requestId)), WriteAccepted));
            && response.Some? && response.value.ReadBatch? && response.value.nextSequence == 6
            && |after.delivered| == 4
            && Peek(after.trace, RECORD_LIMIT) != [] && Peek(after.trace, RECORD_LIMIT)[0].sequence == 5
  {
    hide LinkRun, Carries, ResponseText, HugeSample;
    var start := Polled(CommandLine(StartTrace(Events, Disarmed, 0, true)), WriteAccepted);
    var l1 := LinkStep(InitialLink, start);
    Waiting(l1, 5);
    assert FiveWaiting()[1..] == Changing(5) && FiveWaiting()[0] == start;
    assert LinkRun(InitialLink, FiveWaiting()) == LinkRun(l1, Changing(5)) by { FirstStep(FiveWaiting()); }
    var l := LinkRun(InitialLink, FiveWaiting());
    var b := BatchOf(l.trace);
    assert b.records == l.trace.stored;
    FiveOverflow(requestId, b);
    CarriesAllThatFit(requestId, b);
    assert Carries(requestId, b) == 4;
  }

  lemma FirstStep(steps: seq<Step>)
    requires steps != []
    ensures LinkRun(InitialLink, steps) == LinkRun(LinkStep(InitialLink, steps[0]), steps[1..])
  {
  }
}
