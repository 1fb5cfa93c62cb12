/** The text of a read response of the control trace, and how many records it has room for. */
module TraceText {
  import opened Counters
  import opened SystemState
  import opened Bytes
  import opened BlackboxSamples
  import opened ReleaseGrid
  import opened ControlTrace
  import opened BootloaderText

  const RESPONSE_CAPACITY: nat := 4096
  const RECORD_CAPACITY: nat := 1024
  const RECORD_LIMIT: nat := 5

  /* ---------------- numbers ---------------- */

  function Power2(n: nat): (p: nat)
    ensures p > 0
  {
    if n == 0 then 1 else 2 * Power2(n - 1)
  }

  predicate Finite(bits: uint32) {
    bits / 0x80_0000 % 256 != 255
  }

  /** A thousand times the magnitude of a single-precision number, as a fraction. */
  function Thousandfold(bits: uint32): (f: (nat, nat))
    ensures f.1 > 0
  {
    var exponent, fraction := bits / 0x80_0000 % 256, bits % 0x80_0000;
    var significand, scale :=
      if exponent == 0 then fraction else fraction + 0x80_0000, if exponent == 0 then 1 else exponent;
    if scale >= 150 then (1000 * significand * Power2(scale - 150), 1) else (1000 * significand, Power2(150 - scale))
  }

  /** The nearest integer, halves away from zero. */
  function Nearest(numerator: nat, denominator: nat): (n: nat)
    requires denominator > 0
  {
    (2 * numerator + denominator) / (2 * denominator)
  }

  lemma NearestBounds(numerator: nat, denominator: nat)
    requires denominator > 0
    ensures var n := Nearest(numerator, denominator);
            2 * numerator - denominator < 2 * (n * denominator) <= 2 * numerator + denominator
  {
    var n := Nearest(numerator, denominator);
    QuotientBounds(2 * numerator + denominator, 2 * denominator);
    assert n * (2 * denominator) == 2 * (n * denominator);
  }

  lemma NearestBelow(numerator: nat, denominator: nat, limit: nat)
    requires denominator > 0 && numerator < limit * denominator
    ensures Nearest(numerator, denominator) <= limit
  {
    var n := Nearest(numerator, denominator);
    NearestBounds(numerator, denominator);
    assert (limit + 1) * denominator == limit * denominator + denominator;
    if n > limit {
      Product(limit + 1, n, denominator);
    }
  }

  lemma Product(a: nat, b: nat, c: nat)
    requires a <= b
    ensures a * c <= b * c
  {
  }

  /** A diagnostic value in thousandths: zero for infinities and not-a-number, clamped to 32 bits otherwise. */
  function Milli(bits: uint32): (m: int32) {
    if !Finite(bits) then 0
    else
      var (numerator, denominator) := Thousandfold(bits);
      if bits < 0x8000_0000 then
        if numerator >= 0x7FFF_FFFF * denominator then 0x7FFF_FFFF
        else
          NearestBelow(numerator, denominator, 0x7FFF_FFFF);
          Nearest(numerator, denominator)
      else if numerator >= 0x8000_0000 * denominator then -0x8000_0000
      else
        NearestBelow(numerator, denominator, 0x8000_0000);
        0 - Nearest(numerator, denominator)
  }

  /** What is printed is the value times a thousand, rounded to the nearest integer unless it was clamped. */
  lemma MilliIsNearest(bits: uint32)
    requires Finite(bits)
    ensures var (numerator, denominator) := Thousandfold(bits);
            var m := if bits < 0x8000_0000 then Milli(bits) else 0 - Milli(bits);
            && m >= 0
            && (m < 0x7FFF_FFFF ==> 2 * numerator - denominator < 2 * (m * denominator) <= 2 * numerator + denominator)
            && (numerator >= 0x8000_0000 * denominator ==> m >= 0x7FFF_FFFF)
  {
    var (numerator, denominator) := Thousandfold(bits);
    NearestBounds(numerator, denominator);
  }

  function SignedText(v: int): (s: string)
    ensures s != ""
  {
    if v < 0 then "-" + PrintDecimal(-v) else PrintDecimal(v)
  }

  /* ---------------- lists ---------------- */

  function Joined(items: seq<string>): (s: string)
    decreases |items|
  {
    if |items| == 0 then ""
    else if |items| == 1 then items[0]
    else Joined(items[..|items| - 1]) + "," + items[|items| - 1]
  }

  function Listed(items: seq<string>): (s: string) {
    "[" + Joined(items) + "]"
  }

  /** The items' lengths with a separator each. */
  function Total(items: seq<string>): (n: nat)
    decreases |items|
  {
    if items == [] then 0 else Total(items[..|items| - 1]) + |items[|items| - 1]| + 1
  }

  lemma {:induction false} JoinedLength(items: seq<string>)
    ensures items != [] ==> |Joined(items)| + 1 == Total(items)
    decreases |items|
  {
    if |items| > 1 {
      JoinedLength(items[..|items| - 1]);
    } else if |items| == 1 {
      assert items[..0] == [];
    }
  }

  lemma {:induction false} TotalOfBoth(a: seq<string>, b: seq<string>)
    ensures Total(a + b) == Total(a) + Total(b)
    decreases |b|
  {
    if b == [] {
      assert a + b == a;
    } else {
      assert (a + b)[..|a + b| - 1] == a + b[..|b| - 1];
      TotalOfBoth(a, b[..|b| - 1]);
    }
  }

  predicate Within(items: seq<string>, least: nat, most: nat) {
    forall i | 0 <= i < |items| :: least <= |items[i]| <= most
  }

  lemma {:induction false} TotalBounds(items: seq<string>, least: nat, most: nat)
    requires Within(items, least, most)
    ensures |items| * (least + 1) <= Total(items) <= |items| * (most + 1)
    decreases |items|
  {
    if items != [] {
      var init := items[..|items| - 1];
      TotalBounds(init, least, most);
      assert |items| * (least + 1) == |init| * (least + 1) + (least + 1);
      assert |items| * (most + 1) == |init| * (most + 1) + (most + 1);
    }
  }

  /* ---------------- one record ---------------- */

  function EventWeights(e: set<TraceEvent>): (flags: nat)
    ensures flags < 64
  {
    Flag(StateChanged in e, 1) + Flag(FailsafeChanged in e, 2) + Flag(RateResultChanged in e, 4)
    + Flag(ControlResultChanged in e, 8) + Flag(SaturationStarted in e, 16) + Flag(CaptureStarted in e, 32)
  }

  function ValidWeights(s: Sample): (flags: nat)
    ensures flags < 64
  {
    Flag(s.receiverValid, 1) + Flag(s.setpointValid, 2) + Flag(s.attitudeValid, 4) + Flag(s.rateValid, 8)
    + Flag(s.mixerValid, 16) + Flag(s.imu.valid, 32)
  }

  function Numbers(values: seq<int>): (items: seq<string>)
    ensures |items| == |values|
  {
    seq(|values|, i requires 0 <= i < |values| => SignedText(values[i]))
  }

  function Millis(words: seq<uint32>): (items: seq<string>)
    ensures |items| == |words|
  {
    seq(|words|, i requires 0 <= i < |words| => SignedText(Milli(words[i])))
  }

  function Head(r: Record): (items: seq<string>) {
    var s := r.sample;
    Numbers([r.sequence % (UINT64_MAX + 1), s.timestamp, s.imuSequence])
    + Numbers([EventWeights(r.events)])
    + Numbers([StateCode(s.state), s.source, s.failsafeState, s.failsafeAction, s.freshness, s.controlResult,
               s.rateResult])
    + Numbers([ValidWeights(s)]) + Numbers([s.dt])
  }

  /** Lists that are printed in brackets, one after the other. */
  function Bracketed(lists: seq<seq<string>>): (items: seq<string>)
    ensures |items| == |lists|
  {
    seq(|lists|, i requires 0 <= i < |lists| => Listed(lists[i]))
  }

  function ControlLists(s: Sample): (lists: seq<seq<string>>) {
    [Millis(s.receiver), Millis(s.setpoint), Millis(s.attitude), Millis(s.desiredRates), Millis(s.filteredGyroscope),
     Millis(s.rollPid + s.pitchPid + s.yawPid), Millis(s.motors)]
  }

  function MixerItems(s: Sample): (items: seq<string>) {
    Millis([s.correctionScale, s.collectiveShift])
  }

  function RawLists(s: Sample): (lists: seq<seq<string>>) {
    [Numbers(s.rawAcceleration), Numbers(s.rawGyroscope)]
  }

  function ImuLists(s: Sample): (lists: seq<seq<string>>) {
    [Millis(s.imu.unfilteredAcceleration), Millis(s.filteredAcceleration),
     Millis([s.imu.unfilteredMagnitude, s.imu.filteredMagnitude]), Millis(s.imu.unfilteredAttitude),
     Millis(s.accelerometerAttitude), Millis(s.imu.correctedGyroscope), Millis(s.imu.filteredGyroscope),
     Millis(s.predictedAttitude)]
  }

  function RecordItems(r: Record): (items: seq<string>) {
    var s := r.sample;
    Head(r) + Bracketed(ControlLists(s)) + MixerItems(s) + Numbers([if s.saturated then 1 else 0])
    + Bracketed(RawLists(s)) + Bracketed(ImuLists(s)) + Millis([s.accelerometerWeight])
  }

  function RecordText(r: Record): (text: string) {
    Listed(RecordItems(r))
  }

  function Texts(records: seq<Record>): (texts: seq<string>)
    ensures |texts| == |records|
  {
    seq(|records|, i requires 0 <= i < |records| => RecordText(records[i]))
  }

  /* ---------------- how long a record is ---------------- */

  predicate AllWithin(lists: seq<seq<string>>, least: nat, most: nat) {
    forall i | 0 <= i < |lists| :: lists[i] != [] && Within(lists[i], least, most)
  }

  /** Every value that is printed in thousandths takes so many characters. */
  predicate Prints(s: Sample, least: nat, most: nat) {
    && AllWithin(ControlLists(s), least, most) && AllWithin(ImuLists(s), least, most)
    && Within(MixerItems(s), least, most) && Within(Millis([s.accelerometerWeight]), least, most)
  }

  function Sizes(lists: seq<seq<string>>): (n: nat)
    decreases |lists|
  {
    if lists == [] then 0 else Sizes(lists[..|lists| - 1]) + |lists[|lists| - 1]|
  }

  lemma OneMoreSize(lists: seq<seq<string>>, last: seq<string>)
    ensures Sizes(lists + [last]) == Sizes(lists) + |last|
  {
    assert (lists + [last])[..|lists|] == lists;
  }

  lemma ControlSize(s: Sample)
    ensures Sizes(ControlLists(s)) == 32
  {
    var lists := ControlLists(s);
    forall n | 0 <= n < |lists|
      ensures Sizes(lists[..n + 1]) == Sizes(lists[..n]) + |lists[n]|
    {
      assert lists[..n + 1] == lists[..n] + [lists[n]];
      OneMoreSize(lists[..n], lists[n]);
    }
    assert lists[..6 + 1] == lists;
    assert Sizes(lists[..0 + 1]) == 4 && Sizes(lists[..1 + 1]) == 8 && Sizes(lists[..2 + 1]) == 10;
    assert Sizes(lists[..3 + 1]) == 13 && Sizes(lists[..4 + 1]) == 16 && Sizes(lists[..5 + 1]) == 28;
  }

  lemma ImuSize(s: Sample)
    ensures Sizes(ImuLists(s)) == 20
  {
    var lists := ImuLists(s);
    forall n | 0 <= n < |lists|
      ensures Sizes(lists[..n + 1]) == Sizes(lists[..n]) + |lists[n]|
    {
      assert lists[..n + 1] == lists[..n] + [lists[n]];
      OneMoreSize(lists[..n], lists[n]);
    }
    assert lists[..7 + 1] == lists;
    assert Sizes(lists[..0 + 1]) == 3 && Sizes(lists[..1 + 1]) == 6 && Sizes(lists[..2 + 1]) == 8;
    assert Sizes(lists[..3 + 1]) == 10 && Sizes(lists[..4 + 1]) == 12 && Sizes(lists[..5 + 1]) == 15;
    assert Sizes(lists[..6 + 1]) == 18;
  }

  lemma ListBounds(items: seq<string>, least: nat, most: nat)
    requires Within(items, least, most) && items != []
    ensures 1 + |items| * (least + 1) <= |Listed(items)| <= 1 + |items| * (most + 1)
  {
    JoinedLength(items);
    TotalBounds(items, least, most);
  }

  lemma {:induction false} BracketedBounds(lists: seq<seq<string>>, least: nat, most: nat)
    requires AllWithin(lists, least, most)
    ensures 2 * |lists| + Sizes(lists) * (least + 1) <= Total(Bracketed(lists))
            <= 2 * |lists| + Sizes(lists) * (most + 1)
    decreases |lists|
  {
    hide Listed, Within;
    if lists != [] {
      var init, last := lists[..|lists| - 1], lists[|lists| - 1];
      BracketedBounds(init, least, most);
      ListBounds(last, least, most);
      assert Bracketed(lists)[..|lists| - 1] == Bracketed(init);
      assert Sizes(lists) * (least + 1) == Sizes(init) * (least + 1) + |last| * (least + 1);
      assert Sizes(lists) * (most + 1) == Sizes(init) * (most + 1) + |last| * (most + 1);
    }
  }

  lemma NumberLength(v: int)
    ensures |SignedText(v)| >= 1
    ensures 0 <= v < 0x1_0000_0000_0000_0000 ==> |SignedText(v)| <= 20
    ensures 0 <= v < MASK32 ==> |SignedText(v)| <= 10
    ensures 0 <= v < 1000 ==> |SignedText(v)| <= 3
    ensures 0 <= v < 100 ==> |SignedText(v)| <= 2
    ensures 0 <= v < 10 ==> |SignedText(v)| <= 1
    ensures -0x8000_0000 <= v < 0x8000_0000 ==> |SignedText(v)| <= 11
    ensures -10_000_000 < v < 10_000_000 ==> |SignedText(v)| <= 8
  {
    hide PrintDecimal;
    assert Power10(1) == 10 && Power10(2) == 100 && Power10(3) == 1000 && Power10(7) == 10_000_000;
    assert Power10(10) == 10_000_000_000 && Power10(20) == 100_000_000_000_000_000_000;
    var m := if v < 0 then -v else v;
    if m < 10 { ShortNumbers(m, 1); }
    if m < 100 { ShortNumbers(m, 2); }
    if m < 1000 { ShortNumbers(m, 3); }
    if m < 10_000_000 { ShortNumbers(m, 7); }
    if m < 10_000_000_000 { ShortNumbers(m, 10); }
    if m < 0x1_0000_0000_0000_0000 { ShortNumbers(m, 20); }
  }

  lemma NumbersBounds(values: seq<int>, most: nat)
    requires forall i | 0 <= i < |values| :: |SignedText(values[i])| <= most
    ensures |values| * 2 <= Total(Numbers(values)) <= |values| * (most + 1)
  {
    hide SignedText;
    forall i | 0 <= i < |values|
      ensures |SignedText(values[i])| >= 1
    {
      NumberLength(values[i]);
    }
    TotalBounds(Numbers(values), 1, most);
  }

  function LongNumbersOf(r: Record): (values: seq<int>) {
    [r.sequence % (UINT64_MAX + 1), r.sample.timestamp, r.sample.imuSequence]
  }

  function StatesOf(s: Sample): (values: seq<int>) {
    [StateCode(s.state), s.source, s.failsafeState, s.failsafeAction, s.freshness, s.controlResult, s.rateResult]
  }

  lemma HeadTotal(r: Record)
    ensures Total(Head(r)) ==
            Total(Numbers(LongNumbersOf(r))) + Total(Numbers([EventWeights(r.events)]))
            + Total(Numbers(StatesOf(r.sample))) + Total(Numbers([ValidWeights(r.sample)]))
            + Total(Numbers([r.sample.dt]))
  {
    hide Numbers, EventWeights, ValidWeights, Total;
    var long, events, states := Numbers(LongNumbersOf(r)), Numbers([EventWeights(r.events)]),
      Numbers(StatesOf(r.sample));
    var valid, dt := Numbers([ValidWeights(r.sample)]), Numbers([r.sample.dt]);
    TotalOfBoth(long, events);
    TotalOfBoth(long + events, states);
    TotalOfBoth(long + events + states, valid);
    TotalOfBoth(long + events + states + valid, dt);
  }

  lemma HeadBounds(r: Record)
    ensures 26 <= Total(Head(r)) <= 108
  {
    hide SignedText, Numbers, EventWeights, ValidWeights, Head, Total;
    var s := r.sample;
    HeadTotal(r);
    forall v: int
      ensures 0 <= v <= UINT64_MAX ==> |SignedText(v)| <= 20
      ensures 0 <= v < 100 ==> |SignedText(v)| <= 2
      ensures 0 <= v < 1000 ==> |SignedText(v)| <= 3
      ensures 0 <= v < MASK32 ==> |SignedText(v)| <= 10
    {
      NumberLength(v);
    }
    NumbersBounds(LongNumbersOf(r), 20);
    NumbersBounds([EventWeights(r.events)], 2);
    NumbersBounds(StatesOf(s), 3);
    NumbersBounds([ValidWeights(s)], 2);
    NumbersBounds([s.dt], 10);
  }

  lemma NumberTotals(a: int, b: int, c: int)
    ensures Total(Numbers([a])) == |SignedText(a)| + 1
    ensures Total(Numbers([a, b, c])) == |SignedText(a)| + |SignedText(b)| + |SignedText(c)| + 3
  {
    hide SignedText;
    var three := Numbers([a, b, c]);
    assert Numbers([a])[..0] == [] && three[..2][..1] == [three[0]] && three[..1][..0] == [];
    assert three[..2] == three[..1] + [three[1]] && Total(three[..1]) == |three[0]| + 1;
  }

  /** A head with a timestamp and an interval of so many digits. */
  lemma LongHead(r: Record, timestamp: nat, dt: nat)
    requires |SignedText(r.sample.timestamp)| >= timestamp > 0 && |SignedText(r.sample.dt)| >= dt > 0
    ensures Total(Head(r)) >= 24 + timestamp + dt
  {
    hide SignedText, Numbers, EventWeights, ValidWeights, Head, Total;
    var s := r.sample;
    HeadTotal(r);
    NumberLength(r.sequence % (UINT64_MAX + 1));
    NumberLength(s.imuSequence);
    NumberTotals(r.sequence % (UINT64_MAX + 1), s.timestamp, s.imuSequence);
    NumberTotals(s.dt, 0, 0);
    StatesTotal(s);
    NumberTotals(EventWeights(r.events), 0, 0);
    NumberLength(EventWeights(r.events));
    NumberTotals(ValidWeights(s), 0, 0);
    NumberLength(ValidWeights(s));
  }

  lemma StatesTotal(s: Sample)
    ensures Total(Numbers(StatesOf(s))) >= 14
  {
    hide SignedText, Total, Numbers;
    forall v: int
      ensures 0 <= v < 1000 ==> |SignedText(v)| <= 3
    {
      NumberLength(v);
    }
    NumbersBounds(StatesOf(s), 3);
  }

  lemma RawSize(s: Sample)
    ensures Sizes(RawLists(s)) == 6
  {
    var lists := RawLists(s);
    assert lists[..1] == [] + [lists[0]] && lists == lists[..1] + [lists[1]];
    OneMoreSize([], lists[0]);
    OneMoreSize(lists[..1], lists[1]);
  }

  lemma RawWithin(s: Sample)
    ensures AllWithin(RawLists(s), 1, 11)
  {
    hide SignedText;
    forall i, j | 0 <= i < 2 && 0 <= j < 3
      ensures 1 <= |RawLists(s)[i][j]| <= 11
    {
      NumberLength(if i == 0 then s.rawAcceleration[j] else s.rawGyroscope[j]);
    }
  }

  /** A record's length, up to what its values take. */
  lemma RecordLength(r: Record, raw: nat, least: nat, most: nat)
    requires AllWithin(RawLists(r.sample), raw, 11) && Prints(r.sample, least, most)
    ensures Total(Head(r)) + 37 + 6 * (raw + 1) + 55 * (least + 1) <= |RecordText(r)| <= 217 + 55 * (most + 1)
  {
    hide Millis, Numbers, Bracketed, Head, Within, AllWithin, Total, Joined, ControlLists, ImuLists, RawLists;
    var s := r.sample;
    HeadBounds(r);
    BracketedBounds(ControlLists(s), least, most);
    ControlSize(s);
    TotalBounds(MixerItems(s), least, most);
    NumberLength(if s.saturated then 1 else 0);
    NumbersBounds([if s.saturated then 1 else 0], 1);
    BracketedBounds(RawLists(s), raw, 11);
    RawSize(s);
    BracketedBounds(ImuLists(s), least, most);
    ImuSize(s);
    TotalBounds(Millis([s.accelerometerWeight]), least, most);
    RecordTotal(r);
    ListCounts(s);
    JoinedLength(RecordItems(r));
  }

  lemma ListCounts(s: Sample)
    ensures |ControlLists(s)| == 7 && |RawLists(s)| == 2 && |ImuLists(s)| == 8
  {
  }

  lemma RecordTotal(r: Record)
    ensures var s := r.sample;
            Total(RecordItems(r)) ==
            Total(Head(r)) + Total(Bracketed(ControlLists(s))) + Total(MixerItems(s))
            + Total(Numbers([if s.saturated then 1 else 0])) + Total(Bracketed(RawLists(s)))
            + Total(Bracketed(ImuLists(s))) + Total(Millis([s.accelerometerWeight]))
    ensures RecordItems(r) != []
  {
    hide Millis, Numbers, Bracketed, Head, Total, ControlLists, ImuLists, RawLists, MixerItems;
    var s := r.sample;
    var a := Head(r) + Bracketed(ControlLists(s));
    var b := a + MixerItems(s);
    var c := b + Numbers([if s.saturated then 1 else 0]);
    var d := c + Bracketed(RawLists(s));
    var e := d + Bracketed(ImuLists(s));
    TotalOfBoth(Head(r), Bracketed(ControlLists(s)));
    TotalOfBoth(a, MixerItems(s));
    TotalOfBoth(b, Numbers([if s.saturated then 1 else 0]));
    TotalOfBoth(c, Bracketed(RawLists(s)));
    TotalOfBoth(d, Bracketed(ImuLists(s)));
    TotalOfBoth(e, Millis([s.accelerometerWeight]));
    assert RecordItems(r) == e + Millis([s.accelerometerWeight]);
  }

  lemma MillisWithin(words: seq<uint32>)
    ensures Within(Millis(words), 1, 11)
  {
    hide SignedText, Milli;
    forall i | 0 <= i < |words|
      ensures 1 <= |Millis(words)[i]| <= 11
    {
      NumberLength(Milli(words[i]));
    }
  }

  lemma AnyPrints(s: Sample)
    ensures Prints(s, 1, 11)
  {
    hide Millis, Within;
    forall words: seq<uint32>
      ensures Within(Millis(words), 1, 11)
    {
      MillisWithin(words);
    }
  }

  /** Every record fits the buffer it is formatted in, with room to spare. */
  lemma RecordFits(r: Record)
    ensures |RecordText(r)| <= 877 < RECORD_CAPACITY
    ensures Prints(r.sample, 1, 8) ==> |RecordText(r)| <= 712
  {
    hide RecordText, Prints, AllWithin;
    RawWithin(r.sample);
    AnyPrints(r.sample);
    RecordLength(r, 1, 1, 11);
    if Prints(r.sample, 1, 8) {
      RecordLength(r, 1, 1, 8);
    }
  }

  /* ---------------- the response ---------------- */

  function LevelName(level: Level): (name: string) {
    match level
    case Off => "OFF"
    case Events => "EVENTS"
    case LowRate => "LOW_RATE"
    case HighRate => "HIGH_RATE"
    case FullRate => "FULL_RATE"
  }

  function Quoted(name: string): (text: string) {
    "\"" + name + "\":"
  }

  /** What a read finds: the trace's counters and the records it may carry. */
  datatype Batch = Batch(
    captureId: uint32, level: Level, consumed: nat, pending: nat, dropped: uint64, records: seq<Record>)

  function BatchOf(t: Trace): (b: Batch) {
    Batch(t.captureId, t.level, t.consumed, Pending(t), t.dropped, Peek(t, RECORD_LIMIT))
  }

  function CaptureText(b: Batch): (text: string) {
    Quoted("capture_id") + PrintDecimal(b.captureId) + "," + Quoted("level") + "\"" + LevelName(b.level) + "\","
    + Quoted("capturing") + (if b.level != Off then "true," else "false,")
  }

  function BatchText(b: Batch): (text: string) {
    Quoted("first_sequence") + Wide(if b.records == [] then b.consumed + 1 else b.records[0].sequence) + ","
    + Quoted("next_sequence") + Wide(b.consumed + |b.records| + 1) + ","
    + Quoted("pending_records") + PrintDecimal(b.pending % MASK32) + ","
    + Quoted("dropped_records") + Wide(b.dropped) + ","
  }

  function HeaderText(requestId: uint32, b: Batch): (text: string) {
    "{\"type\":\"response\"," + Quoted("request_id") + PrintDecimal(requestId)
    + ",\"command\":\"control_trace_read\",\"ok\":true,\"schema_version\":2,"
    + CaptureText(b) + BatchText(b) + "\"scale\":1000,\"records\":["
  }

  function Wide(v: nat): (text: string) {
    PrintDecimal(v % (UINT64_MAX + 1))
  }

  lemma DecimalLength(v: nat)
    ensures 1 <= |PrintDecimal(v)|
    ensures v < MASK32 ==> |PrintDecimal(v)| <= 10
    ensures v <= UINT64_MAX ==> |PrintDecimal(v)| <= 20
  {
    NumberLength(v);
  }

  lemma CaptureLength(b: Batch)
    ensures 47 <= |CaptureText(b)| <= 61
  {
    hide PrintDecimal;
    DecimalLength(b.captureId);
  }

  lemma BatchLength(b: Batch)
    ensures 77 <= |BatchText(b)| <= 143
  {
    hide PrintDecimal;
    DecimalLength((if b.records == [] then b.consumed + 1 else b.records[0].sequence) % (UINT64_MAX + 1));
    DecimalLength((b.consumed + |b.records| + 1) % (UINT64_MAX + 1));
    DecimalLength(b.pending % MASK32);
    DecimalLength(b.dropped % (UINT64_MAX + 1));
  }

  lemma HeaderLength(requestId: uint32, b: Batch)
    ensures 242 <= |HeaderText(requestId, b)| <= 332
  {
    hide PrintDecimal, CaptureText, BatchText;
    DecimalLength(requestId);
    CaptureLength(b);
    BatchLength(b);
  }

  const Closing: string := "]}\n"

  function ReadText(header: string, texts: seq<string>): (text: string) {
    header + Joined(texts) + Closing
  }

  /** How many of the texts are taken, from the k-th on, behind a response of this length. */
  function Fitting(length: nat, texts: seq<string>, k: nat): (n: nat)
    requires k <= |texts|
    ensures k <= n <= |texts|
    decreases |texts| - k
  {
    if k == |texts| then k
    else
      var added := |texts[k]| + (if k > 0 then 1 else 0);
      var required := added + |Closing| + 1;
      if required >= RESPONSE_CAPACITY || length > RESPONSE_CAPACITY - required then k
      else Fitting(length + added, texts, k + 1)
  }

  lemma JoinedMore(texts: seq<string>, k: nat)
    requires k < |texts|
    ensures |Joined(texts[..k + 1])| == |Joined(texts[..k])| + |texts[k]| + (if k > 0 then 1 else 0)
    ensures k > 0 ==> Joined(texts[..k + 1]) == Joined(texts[..k]) + "," + texts[k]
    ensures k == 0 ==> Joined(texts[..k + 1]) == Joined(texts[..k]) + texts[k]
  {
    assert texts[..k + 1][..k] == texts[..k];
  }

  lemma {:induction false} JoinedGrows(texts: seq<string>, k: nat, n: nat)
    requires k <= n <= |texts|
    ensures |Joined(texts[..k])| <= |Joined(texts[..n])|
    decreases n - k
  {
    if k < n {
      JoinedMore(texts, n - 1);
      JoinedGrows(texts, k, n - 1);
    }
  }

  /** The loop takes as many records as a complete response has room for. */
  lemma {:induction false} FittingIsLargest(header: string, texts: seq<string>, k: nat)
    requires header != "" && k <= |texts| && |ReadText(header, texts[..k])| < RESPONSE_CAPACITY
    ensures var n := Fitting(|header + Joined(texts[..k])|, texts, k);
            && |ReadText(header, texts[..n])| < RESPONSE_CAPACITY
            && forall m | k <= m <= |texts| && |ReadText(header, texts[..m])| < RESPONSE_CAPACITY :: m <= n
    decreases |texts| - k
  {
    hide Joined;
    if k < |texts| {
      JoinedMore(texts, k);
      if |ReadText(header, texts[..k + 1])| < RESPONSE_CAPACITY {
        FittingIsLargest(header, texts, k + 1);
      } else {
        forall m | k < m <= |texts|
          ensures |ReadText(header, texts[..m])| >= RESPONSE_CAPACITY
        {
          JoinedGrows(texts, k + 1, m);
        }
      }
    }
  }

  /** How many of the waiting records the response to this request carries. */
  function Carries(requestId: uint32, b: Batch): (n: nat)
    ensures n <= |b.records|
  {
    Fitting(|HeaderText(requestId, b)|, Texts(b.records), 0)
  }

  /** The response that would carry the first n of them. */
  function ResponseText(requestId: uint32, b: Batch, n: nat): (text: string)
    requires n <= |b.records|
  {
    ReadText(HeaderText(requestId, b), Texts(b.records)[..n])
  }

  lemma {:induction false} TextsLength(records: seq<Record>, n: nat, most: nat)
    requires n <= |records| && forall i | 0 <= i < n :: |RecordText(records[i])| <= most
    ensures |Joined(Texts(records)[..n])| <= n * (most + 1)
    decreases n
  {
    hide RecordText, Joined;
    if n > 0 {
      TextsLength(records, n - 1, most);
      JoinedMore(Texts(records), n - 1);
      assert n * (most + 1) == (n - 1) * (most + 1) + (most + 1);
    } else {
      assert |Joined([])| == 0 by { NothingJoined(); }
      assert Texts(records)[..0] == [];
    }
  }

  lemma NothingJoined()
    ensures Joined([]) == ""
  {
  }

  /** Every value in the batch prints in at most eight characters, as all below 10,000 in magnitude do. */
  predicate Ordinary(batch: seq<Record>) {
    forall i | 0 <= i < |batch| :: Prints(batch[i].sample, 1, 8)
  }

  /**
   * A read response can always be built. It carries the largest number of records with which it is complete in its
   * buffer: four, if there are so many, whatever they hold, and up to five if their values are ordinary.
   */
  lemma CarriesAllThatFit(requestId: uint32, b: Batch)
    requires |b.records| <= RECORD_LIMIT
    ensures var n := Carries(requestId, b);
            && |ResponseText(requestId, b, n)| < RESPONSE_CAPACITY
            && (forall m | 0 <= m <= |b.records| && |ResponseText(requestId, b, m)| < RESPONSE_CAPACITY :: m <= n)
            && Min(|b.records|, 4) <= n
            && (Ordinary(b.records) ==> n == |b.records|)
  {
    hide HeaderText, RecordText, Joined, Fitting, Prints;
    var records := b.records;
    var header := HeaderText(requestId, b);
    HeaderLength(requestId, b);
    NothingJoined();
    assert Texts(records)[..0] == [] && header + "" == header;
    FittingIsLargest(header, Texts(records), 0);
    forall i | 0 <= i < |records|
      ensures |RecordText(records[i])| <= 877
      ensures Prints(records[i].sample, 1, 8) ==> |RecordText(records[i])| <= 712
    {
      RecordFits(records[i]);
    }
    TextsLength(records, Min(|records|, 4), 877);
    if Ordinary(records) {
      TextsLength(records, |records|, 712);
    }
  }

  lemma SmallIsOrdinary(words: seq<uint32>)
    requires forall i | 0 <= i < |words| :: -10_000_000 < Milli(words[i]) < 10_000_000
    ensures Within(Millis(words), 1, 8)
  {
    hide SignedText, Milli;
    forall i | 0 <= i < |words|
      ensures 1 <= |Millis(words)[i]| <= 8
    {
      NumberLength(Milli(words[i]));
    }
  }

  lemma TextAt(records: seq<Record>, k: nat)
    requires k < |records|
    ensures Texts(records)[k] == RecordText(records[k])
  {
  }

  lemma TakenMore(header: string, texts: seq<string>, k: nat)
    requires k < |texts|
    ensures header + Joined(texts[..k + 1]) ==
            header + Joined(texts[..k]) + (if k > 0 then "," else "") + texts[k]
  {
    hide Joined;
    JoinedMore(texts, k);
  }

  lemma AllTaken(text: string, texts: seq<string>)
    ensures Fitting(|text|, texts, |texts|) == |texts|
  {
  }

  lemma FittingStep(length: nat, texts: seq<string>, k: nat)
    requires k < |texts|
    ensures var added := |texts[k]| + (if k > 0 then 1 else 0);
            var required := added + |Closing| + 1;
            Fitting(length, texts, k) ==
            if required >= RESPONSE_CAPACITY || length > RESPONSE_CAPACITY - required then k
            else Fitting(length + added, texts, k + 1)
  {
  }

  /** One record after the other while they fit, then the closing. */
  method Serialize(header: string, records: seq<Record>) returns (text: string, count: nat)
    requires |header| + |Closing| < RESPONSE_CAPACITY
    ensures count == Fitting(|header|, Texts(records), 0)
    ensures text == ReadText(header, Texts(records)[..count])
  {
    hide RecordText, Joined, Fitting, Texts;
    NothingJoined();
    text := header;
    count := 0;
    ghost var texts := Texts(records);
    assert texts[..0] == [] && header + "" == header;
    while count < |records|
      invariant count <= |records| && text == header + Joined(texts[..count])
      invariant Fitting(|text|, texts, count) == Fitting(|header|, texts, 0)
    {
      var record := RecordText(records[count]);
      assert texts[count] == record by { TextAt(records, count); }
      RecordFits(records[count]);
      assert |record| < RECORD_CAPACITY;
      FittingStep(|text|, texts, count);
      var required := |record| + (if count > 0 then 1 else 0) + |Closing| + 1;
      if required >= RESPONSE_CAPACITY || |text| > RESPONSE_CAPACITY - required {
        break;
      }
      TakenMore(header, texts, count);
      text := text + (if count > 0 then "," else "");
      text := text + record;
      count := count + 1;
    }
    AllTaken(text, texts);
    text := text + Closing;
  }
}
