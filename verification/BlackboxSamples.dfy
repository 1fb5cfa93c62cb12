/** One control sample in a log block: the firmware's encoder and the host's decoder. */
module BlackboxSamples {
  import opened Counters
  import opened SystemState
  import opened Bytes

  const SAMPLE_SIZE: nat := 244
  const SAMPLE_WORDS: nat := 61

  type int32 = n: int | -0x8000_0000 <= n < 0x8000_0000

  /** Floats travel as their bit patterns. */
  type Words2 = w: seq<uint32> | |w| == 2 witness [0, 0]
  type Words3 = w: seq<uint32> | |w| == 3 witness [0, 0, 0]
  type Words4 = w: seq<uint32> | |w| == 4 witness [0, 0, 0, 0]
  type Signed3 = w: seq<int32> | |w| == 3 witness [0, 0, 0]

  const ACTION_LIVE: byte := 1
  const EVENT_STATE_CHANGED: uint32 := 1
  const EVENT_FAILSAFE_CHANGED: uint32 := 2
  const EVENT_SATURATION_STARTED: uint32 := 16

  /** What the sensor pipeline observed beside what the recorder keeps; the diagnostic trace prints it. */
  datatype ImuDetail = ImuDetail(
    valid: bool, unfilteredAcceleration: Words3, unfilteredMagnitude: uint32, filteredMagnitude: uint32,
    unfilteredAttitude: Words2, correctedGyroscope: Words3, filteredGyroscope: Words3)

  const NoDetail: ImuDetail := ImuDetail(false, [0, 0, 0], 0, 0, [0, 0], [0, 0, 0], [0, 0, 0])

  /** What the control loop hands to the recorder. */
  datatype Sample = Sample(
    timestamp: uint64, imuSequence: uint64, dt: uint32,
    state: State, source: byte, failsafeState: byte, failsafeAction: byte,
    freshness: byte, controlResult: byte, rateResult: byte, leveling: byte, calibration: byte,
    receiverValid: bool, setpointValid: bool, attitudeValid: bool, rateValid: bool, mixerValid: bool, saturated: bool,
    rawAcceleration: Signed3, rawGyroscope: Signed3,
    filteredAcceleration: Words3, filteredGyroscope: Words3, accelerometerAttitude: Words2, predictedAttitude: Words2,
    attitude: Words2, accelerometerWeight: uint32, receiver: Words4, setpoint: Words4, desiredRates: Words3,
    rollPid: Words4, pitchPid: Words4, yawPid: Words4, motors: Words4, correctionScale: uint32, collectiveShift: uint32,
    effectiveTarget: Words2, baseline: uint32, imu: ImuDetail)

  /** An uneventful sample on the ground. */
  const QuietSample: Sample := Sample(
    0, 0, 0, Disarmed, 0, 0, ACTION_LIVE, 0, 0, 0, 0, 0, false, false, false, false, false, false,
    [0, 0, 0], [0, 0, 0], [0, 0, 0], [0, 0, 0], [0, 0], [0, 0], [0, 0], 0, [0, 0, 0, 0], [0, 0, 0, 0], [0, 0, 0],
    [0, 0, 0, 0], [0, 0, 0, 0], [0, 0, 0, 0], [0, 0, 0, 0], 0, 0, [0, 0], 0, NoDetail)

  /** What the host prints for it. */
  datatype Decoded = Decoded(
    sequence: uint32, timestamp: uint64, imuSequence: uint64, dt: uint32, eventFlags: uint32,
    state: byte, source: byte, failsafeState: byte, failsafeAction: byte,
    freshness: byte, controlResult: byte, rateResult: byte, leveling: byte, calibration: byte, validityFlags: uint32,
    rawAcceleration: seq<int>, rawGyroscope: seq<int>,
    filteredAcceleration: seq<uint32>, filteredGyroscope: seq<uint32>, accelerometerAttitude: seq<uint32>,
    predictedAttitude: seq<uint32>, attitude: seq<uint32>, accelerometerWeight: uint32, receiver: seq<uint32>,
    setpoint: seq<uint32>, desiredRates: seq<uint32>, pid: seq<seq<uint32>>, motors: seq<uint32>,
    correctionScale: uint32, collectiveShift: uint32, effectiveTarget: seq<uint32>, baseline: uint32)

  function StateCode(s: State): (c: byte) {
    match s
    case Boot => 0
    case Initializing => 1
    case Disarmed => 2
    case Armed => 3
    case Failsafe => 4
    case Fault => 5
  }

  function EventFlags(s: Sample): (f: uint32) {
    (if s.state == Fault then EVENT_STATE_CHANGED else 0) +
    (if s.failsafeAction != ACTION_LIVE then EVENT_FAILSAFE_CHANGED else 0) +
    (if s.mixerValid && s.saturated then EVENT_SATURATION_STARTED else 0)
  }

  function Flag(present: bool, weight: nat): (f: nat) {
    if present then weight else 0
  }

  function ValidityFlags(s: Sample): (f: uint32) {
    Flag(s.receiverValid, 1) + Flag(s.setpointValid, 2) + Flag(s.attitudeValid, 4) + Flag(s.rateValid, 8) +
    Flag(s.mixerValid, 16) + Flag(s.mixerValid && s.saturated, 32)
  }

  /** Four byte fields in one word, lowest first. */
  function PackBytes(a: byte, b: byte, c: byte, d: byte): (w: uint32) {
    a + 0x100 * b + 0x1_0000 * c + 0x100_0000 * d
  }

  function ToUnsigned(v: int32): (w: uint32) {
    if v < 0 then v + MASK32 else v
  }

  function ToSigned(w: uint32): (v: int32) {
    if w >= 0x8000_0000 then w - MASK32 else w
  }

  /** Byte k of a word, and its two upper nibbles. */
  function ByteOf(w: uint32, k: nat): (b: byte)
    requires k < 4
  {
    if k == 0 then w % 256 else if k == 1 then w / 0x100 % 256 else if k == 2 then w / 0x1_0000 % 256
    else w / 0x100_0000
  }

  function LowNibble(w: uint32): (n: byte) {
    w / 0x100_0000 % 16
  }

  function HighNibble(w: uint32): (n: byte) {
    w / 0x1000_0000 % 16
  }

  function Join(low: uint32, high: uint32): (v: uint64) {
    low + MASK32 * high
  }

  function StatusWord(s: Sample): (w: uint32) {
    PackBytes(StateCode(s.state), s.source, s.failsafeState, s.failsafeAction)
  }

  function ResultWord(s: Sample): (w: uint32) {
    PackBytes(s.freshness, s.controlResult, s.rateResult, s.leveling % 16 + 16 * (s.calibration % 16))
  }

  function ShownMotors(s: Sample): (m: Words4) {
    if s.mixerValid then s.motors else [0, 0, 0, 0]
  }

  function HeadWords(s: Sample): (w: seq<uint32>)
    ensures |w| == 15
  {
    [s.timestamp % MASK32, s.timestamp / MASK32, s.imuSequence % MASK32, s.imuSequence / MASK32, s.dt, EventFlags(s),
     StatusWord(s), ResultWord(s), ValidityFlags(s),
     ToUnsigned(s.rawAcceleration[0]), ToUnsigned(s.rawAcceleration[1]), ToUnsigned(s.rawAcceleration[2]),
     ToUnsigned(s.rawGyroscope[0]), ToUnsigned(s.rawGyroscope[1]), ToUnsigned(s.rawGyroscope[2])]
  }

  function EstimateWords(s: Sample): (w: seq<uint32>)
    ensures |w| == 13
  {
    s.filteredAcceleration + s.filteredGyroscope + s.accelerometerAttitude + s.predictedAttitude + s.attitude
    + [s.accelerometerWeight]
  }

  function ControlWords(s: Sample): (w: seq<uint32>)
    ensures |w| == 23
  {
    s.receiver + s.setpoint + s.desiredRates + s.rollPid + s.pitchPid + s.yawPid
  }

  function MixerWords(s: Sample, sequence: uint32): (w: seq<uint32>)
    ensures |w| == 10
  {
    ShownMotors(s) + [s.correctionScale, s.collectiveShift] + s.effectiveTarget + [s.baseline, sequence]
  }

  /** The words of a sample, in the order they are stored. */
  function SampleWords(s: Sample, sequence: uint32): (w: seq<uint32>)
    ensures |w| == SAMPLE_WORDS
  {
    HeadWords(s) + EstimateWords(s) + ControlWords(s) + MixerWords(s, sequence)
  }

  function EncodeSample(s: Sample, sequence: uint32): (b: Buffer)
    ensures |b| == SAMPLE_SIZE
  {
    Pack(SampleWords(s, sequence))
  }

  function SampleSize(version: nat): (n: nat)
    requires version == 1 || version == 2
  {
    if version == 1 then 232 else 244
  }

  /** The host's view of the words; version 1 has no levelling fields of its own. */
  function FromWords(w: seq<uint32>, version: nat): (d: Decoded)
    requires version == 1 || version == 2
    requires 4 * |w| == SampleSize(version)
  {
    Decoded(
      if version == 1 then w[57] else w[60], Join(w[0], w[1]), Join(w[2], w[3]), w[4], w[5],
      ByteOf(w[6], 0), ByteOf(w[6], 1), ByteOf(w[6], 2), ByteOf(w[6], 3),
      ByteOf(w[7], 0), ByteOf(w[7], 1), ByteOf(w[7], 2), LowNibble(w[7]), HighNibble(w[7]), w[8],
      [ToSigned(w[9]), ToSigned(w[10]), ToSigned(w[11])], [ToSigned(w[12]), ToSigned(w[13]), ToSigned(w[14])],
      w[15..18], w[18..21], w[21..23], w[23..25], w[25..27], w[27], w[28..32], w[32..36], w[36..39],
      [w[39..43], w[43..47], w[47..51]], w[51..55], w[55], w[56],
      if version == 1 then w[33..35] else w[57..59], if version == 1 then w[32] else w[59])
  }

  function DecodeSample(data: Buffer, version: nat): (d: Option<Decoded>)
    requires version == 1 || version == 2
  {
    if |data| != SampleSize(version) then None else Some(FromWords(Unpack(data), version))
  }

  /** What a reader of the decoded log is entitled to see. */
  function Shown(s: Sample, sequence: uint32): (d: Decoded) {
    Decoded(
      sequence, s.timestamp, s.imuSequence, s.dt, EventFlags(s), StateCode(s.state), s.source, s.failsafeState,
      s.failsafeAction, s.freshness, s.controlResult, s.rateResult, s.leveling % 16, s.calibration % 16,
      ValidityFlags(s), s.rawAcceleration, s.rawGyroscope, s.filteredAcceleration, s.filteredGyroscope,
      s.accelerometerAttitude, s.predictedAttitude, s.attitude, s.accelerometerWeight, s.receiver, s.setpoint,
      s.desiredRates, [s.rollPid, s.pitchPid, s.yawPid], ShownMotors(s), s.correctionScale, s.collectiveShift,
      s.effectiveTarget, s.baseline)
  }

  lemma PackedBytes(a: byte, b: byte, c: byte, d: byte)
    ensures var w := PackBytes(a, b, c, d);
            && ByteOf(w, 0) == a && ByteOf(w, 1) == b && ByteOf(w, 2) == c && ByteOf(w, 3) == d
            && LowNibble(w) == d % 16 && HighNibble(w) == d / 16
  {
    var w := PackBytes(a, b, c, d);
    assert w / 0x100 == b + 0x100 * c + 0x1_0000 * d;
    assert w / 0x1_0000 == c + 0x100 * d;
    assert w / 0x100_0000 == d;
    assert w / 0x1000_0000 == d / 16;
  }

  /** Decoding an encoded sample shows exactly that sample, under its sequence number. */
  lemma SampleRoundTrip(s: Sample, sequence: uint32)
    ensures DecodeSample(EncodeSample(s, sequence), 2) == Some(Shown(s, sequence))
  {
    hide PackBytes, EventFlags, ValidityFlags, Pack, Unpack, StatusWord, ResultWord;
    var w := SampleWords(s, sequence);
    UnpackPack(w);
    WordsRoundTrip(s, sequence);
  }

  lemma EstimateGroups(s: Sample)
    ensures var w := EstimateWords(s);
            && w[0..3] == s.filteredAcceleration && w[3..6] == s.filteredGyroscope
            && w[6..8] == s.accelerometerAttitude && w[8..10] == s.predictedAttitude && w[10..12] == s.attitude
            && w[12] == s.accelerometerWeight
  {
  }

  lemma ControlGroups(s: Sample)
    ensures var w := ControlWords(s);
            && w[0..4] == s.receiver && w[4..8] == s.setpoint && w[8..11] == s.desiredRates
            && w[11..15] == s.rollPid && w[15..19] == s.pitchPid && w[19..23] == s.yawPid
  {
  }

  lemma MixerGroups(s: Sample, sequence: uint32)
    ensures var w := MixerWords(s, sequence);
            && w[0..4] == ShownMotors(s) && w[4] == s.correctionScale && w[5] == s.collectiveShift
            && w[6..8] == s.effectiveTarget && w[8] == s.baseline && w[9] == sequence
  {
  }

  /** A group within a group. */
  lemma SubGroup(w: seq<uint32>, at: nat, part: seq<uint32>, from: nat, to: nat)
    requires at + |part| <= |w| && w[at..at + |part|] == part && from <= to <= |part|
    ensures w[at + from..at + to] == part[from..to]
  {
    forall i | 0 <= i < to - from
      ensures w[at + from..at + to][i] == part[from..to][i]
    {
      assert w[at..at + |part|][from + i] == part[from + i];
    }
  }

  lemma WordsRoundTrip(s: Sample, sequence: uint32)
    ensures FromWords(SampleWords(s, sequence), 2) == Shown(s, sequence)
  {
    hide PackBytes, EventFlags, ValidityFlags, StatusWord, ResultWord, EstimateWords, ControlWords, MixerWords;
    hide ShownMotors, ByteOf, LowNibble, HighNibble;
    var w := SampleWords(s, sequence);
    var e, c, m := EstimateWords(s), ControlWords(s), MixerWords(s, sequence);
    assert w[0..15] == HeadWords(s) && w[15..28] == e && w[28..51] == c && w[51..61] == m;
    StatusFields(s);
    EstimateGroups(s);
    SubGroup(w, 15, e, 0, 3);
    SubGroup(w, 15, e, 3, 6);
    SubGroup(w, 15, e, 6, 8);
    SubGroup(w, 15, e, 8, 10);
    SubGroup(w, 15, e, 10, 12);
    ControlGroups(s);
    SubGroup(w, 28, c, 0, 4);
    SubGroup(w, 28, c, 4, 8);
    SubGroup(w, 28, c, 8, 11);
    SubGroup(w, 28, c, 11, 15);
    SubGroup(w, 28, c, 15, 19);
    SubGroup(w, 28, c, 19, 23);
    MixerGroups(s, sequence);
    SubGroup(w, 51, m, 0, 4);
    SubGroup(w, 51, m, 6, 8);
    var d := FromWords(w, 2);
    assert d.rawAcceleration == s.rawAcceleration && d.rawGyroscope == s.rawGyroscope;
  }

  lemma StatusFields(s: Sample)
    ensures var w := StatusWord(s);
            && ByteOf(w, 0) == StateCode(s.state) && ByteOf(w, 1) == s.source
            && ByteOf(w, 2) == s.failsafeState && ByteOf(w, 3) == s.failsafeAction
    ensures var w := ResultWord(s);
            && ByteOf(w, 0) == s.freshness && ByteOf(w, 1) == s.controlResult && ByteOf(w, 2) == s.rateResult
            && LowNibble(w) == s.leveling % 16 && HighNibble(w) == s.calibration % 16
  {
    hide ByteOf, LowNibble, HighNibble, PackBytes;
    PackedBytes(StateCode(s.state), s.source, s.failsafeState, s.failsafeAction);
    var high := s.leveling % 16 + 16 * (s.calibration % 16);
    PackedBytes(s.freshness, s.controlResult, s.rateResult, high);
    assert high % 16 == s.leveling % 16 && high / 16 == s.calibration % 16;
  }

  /* ---------------- the two programs ---------------- */

  method WriteWords(words: seq<uint32>, destination: array<byte>, start: nat)
    requires start + 4 * |words| <= destination.Length
    modifies destination
    ensures destination[..] == Put(old(destination[..]), start, Pack(words))
  {
    hide U32;
    for index := 0 to |words|
      invariant destination[..] == Put(old(destination[..]), start, Pack(words[..index]))
    {
      ghost var before := destination[..];
      PutU32(destination, start + 4 * index, words[index]);
      assert words[..index + 1][..index] == words[..index];
      PutExtends(old(destination[..]), start, Pack(words[..index]), U32(words[index]));
    }
    assert words[..|words|] == words;
  }

  lemma PutExtends(s: Buffer, at: nat, a: Buffer, b: Buffer)
    requires at + |a| + |b| <= |s|
    ensures Put(Put(s, at, a), at + |a|, b) == Put(s, at, a + b)
  {
  }

  method PutU32(destination: array<byte>, at: nat, value: uint32)
    requires at + 4 <= destination.Length
    modifies destination
    ensures destination[..] == Put(old(destination[..]), at, U32(value))
  {
    destination[at] := value % 256;
    destination[at + 1] := value / 0x100 % 256;
    destination[at + 2] := value / 0x1_0000 % 256;
    destination[at + 3] := value / 0x100_0000;
  }

  /** The firmware's encoder writes one sample into the block buffer, word after word. */
  method EncodeInto(s: Sample, sequence: uint32, destination: array<byte>, start: nat)
    requires start + SAMPLE_SIZE <= destination.Length
    modifies destination
    ensures destination[..] == Put(old(destination[..]), start, EncodeSample(s, sequence))
  {
    hide EventFlags, StatusWord, ResultWord, ValidityFlags, Pack, Put, EstimateWords, ControlWords, MixerWords;
    var words: seq<uint32> := [s.timestamp % MASK32, s.timestamp / MASK32];
    words := words + [s.imuSequence % MASK32, s.imuSequence / MASK32];
    words := words + [s.dt, EventFlags(s), StatusWord(s), ResultWord(s), ValidityFlags(s)];
    var axis := 0;
    while axis < 3
      invariant 0 <= axis <= 3 && |words| == 9 + axis
      invariant words[..9] == HeadWords(s)[..9]
      invariant forall i | 0 <= i < axis :: words[9 + i] == ToUnsigned(s.rawAcceleration[i])
    {
      words := words + [ToUnsigned(s.rawAcceleration[axis])];
      axis := axis + 1;
    }
    axis := 0;
    while axis < 3
      invariant 0 <= axis <= 3 && |words| == 12 + axis
      invariant words[..12] == HeadWords(s)[..12]
      invariant forall i | 0 <= i < axis :: words[12 + i] == ToUnsigned(s.rawGyroscope[i])
    {
      words := words + [ToUnsigned(s.rawGyroscope[axis])];
      axis := axis + 1;
    }
    assert words == HeadWords(s);
    words := words + EstimateWords(s) + ControlWords(s) + MixerWords(s, sequence);
    WriteWords(words, destination, start);
  }

  method ReadWords(data: Buffer, start: nat, count: nat) returns (words: seq<uint32>, next: nat)
    requires start % 4 == 0 && start + 4 * count <= |data|
    ensures next == start + 4 * count
    ensures words == Unpack(data)[start / 4..start / 4 + count]
  {
    hide GetU32;
    words, next := [], start;
    for index := 0 to count
      invariant next == start + 4 * index
      invariant words == Unpack(data)[start / 4..start / 4 + index]
    {
      assert 4 * (next / 4) == next;
      words := words + [GetU32(data, next)];
      next := next + 4;
    }
  }

  method ReadEstimate(data: Buffer, start: nat)
    returns (filteredAcceleration: seq<uint32>, filteredGyroscope: seq<uint32>, accelerometerAttitude: seq<uint32>,
             predictedAttitude: seq<uint32>, attitude: seq<uint32>, weight: uint32, offset: nat)
    requires start == 60 && 112 <= |data|
    ensures var w := Unpack(data);
            && filteredAcceleration == w[15..18] && filteredGyroscope == w[18..21] && accelerometerAttitude == w[21..23]
            && predictedAttitude == w[23..25] && attitude == w[25..27] && weight == w[27] && offset == 112
  {
    hide Unpack;
    filteredAcceleration, offset := ReadWords(data, start, 3);
    filteredGyroscope, offset := ReadWords(data, offset, 3);
    accelerometerAttitude, offset := ReadWords(data, offset, 2);
    predictedAttitude, offset := ReadWords(data, offset, 2);
    attitude, offset := ReadWords(data, offset, 2);
    var weights;
    weights, offset := ReadWords(data, offset, 1);
    weight := weights[0];
  }

  method ReadControl(data: Buffer, start: nat)
    returns (receiver: seq<uint32>, setpoint: seq<uint32>, desiredRates: seq<uint32>, pid: seq<seq<uint32>>,
        offset: nat)
    requires start == 112 && 204 <= |data|
    ensures var w := Unpack(data);
            && receiver == w[28..32] && setpoint == w[32..36] && desiredRates == w[36..39]
            && pid == [w[39..43], w[43..47], w[47..51]] && offset == 204
  {
    hide Unpack;
    receiver, offset := ReadWords(data, start, 4);
    setpoint, offset := ReadWords(data, offset, 4);
    desiredRates, offset := ReadWords(data, offset, 3);
    pid := [];
    for axis := 0 to 3
      invariant |pid| == axis && offset == 156 + 16 * axis
      invariant forall i | 0 <= i < axis :: pid[i] == Unpack(data)[39 + 4 * i..43 + 4 * i]
    {
      var terms;
      terms, offset := ReadWords(data, offset, 4);
      pid := pid + [terms];
    }
  }

  /** The host's decoder walks the same fields with an offset. */
  method ReadSample(data: Buffer, version: nat) returns (d: Option<Decoded>)
    requires version == 1 || version == 2
    ensures d == DecodeSample(data, version)
  {
    hide Unpack, ToSigned, ByteOf, LowNibble, HighNibble, Join;
    if |data| != SampleSize(version) {
      return None;
    }
    ghost var w := Unpack(data);
    var head, offset := ReadWords(data, 0, 9);
    var rawAcceleration, rawGyroscope;
    rawAcceleration, offset := ReadWords(data, offset, 3);
    rawGyroscope, offset := ReadWords(data, offset, 3);
    var filteredAcceleration, filteredGyroscope, accelerometerAttitude, predictedAttitude, attitude, weight;
    filteredAcceleration, filteredGyroscope, accelerometerAttitude, predictedAttitude, attitude, weight, offset :=
      ReadEstimate(data, offset);
    var receiver, setpoint, desiredRates, pid, motors, mixer;
    receiver, setpoint, desiredRates, pid, offset := ReadControl(data, offset);
    motors, offset := ReadWords(data, offset, 4);
    mixer, offset := ReadWords(data, offset, 2);
    var target, baseline := setpoint[1..3], [setpoint[0]];
    if version >= 2 {
      target, offset := ReadWords(data, offset, 2);
      baseline, offset := ReadWords(data, offset, 1);
    }
    var sequence, _ := ReadWords(data, offset, 1);
    assert motors == w[51..55] && mixer == w[55..57];
    SubGroup(w, 32, setpoint, 1, 3);
    assert target == if version == 1 then w[33..35] else w[57..59];
    assert baseline[0] == if version == 1 then w[32] else w[59];
    assert sequence[0] == if version == 1 then w[57] else w[60];
    d := Some(Decoded(
      sequence[0], Join(head[0], head[1]), Join(head[2], head[3]), head[4], head[5],
      ByteOf(head[6], 0), ByteOf(head[6], 1), ByteOf(head[6], 2), ByteOf(head[6], 3),
      ByteOf(head[7], 0), ByteOf(head[7], 1), ByteOf(head[7], 2), LowNibble(head[7]), HighNibble(head[7]), head[8],
      [ToSigned(rawAcceleration[0]), ToSigned(rawAcceleration[1]), ToSigned(rawAcceleration[2])],
      [ToSigned(rawGyroscope[0]), ToSigned(rawGyroscope[1]), ToSigned(rawGyroscope[2])],
      filteredAcceleration, filteredGyroscope, accelerometerAttitude, predictedAttitude, attitude, weight, receiver,
      setpoint, desiredRates, pid, motors, mixer[0], mixer[1], target, baseline[0]));
  }
}
