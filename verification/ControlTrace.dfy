/** The diagnostic trace: a 64-record ring between the control loop and the USB service. */
module ControlTrace {
  import opened Counters
  import opened SystemState
  import opened Bytes
  import opened ReleaseGrid
  import opened BlackboxSamples

  const CAPACITY: nat := 64

  datatype Level = Off | Events | LowRate | HighRate | FullRate

  datatype TraceEvent =
    | StateChanged | FailsafeChanged | RateResultChanged | ControlResultChanged | SaturationStarted | CaptureStarted

  datatype Record = Record(sequence: nat, events: set<TraceEvent>, sample: Sample)

  /** What one sample leaves behind for the next one to be compared with. */
  datatype Observation = Observation(
    state: State, failsafeState: byte, rateResult: byte, controlResult: byte, saturated: bool)

  /** stored holds every record of the current capture; the ring keeps the unread end of it. */
  datatype Trace = Trace(
    stored: seq<Record>, consumed: nat, dropped: uint64, startedAt: uint64, periods: nat, nextSampleAt: uint64,
    captureId: uint32, level: Level, interval: uint32, previous: Option<Observation>, armedSeen: bool)

  function LevelInterval(level: Level): (interval: uint32) {
    match level
    case LowRate => 100000
    case HighRate => 10000
    case FullRate => 1000
    case Off | Events => 0
  }

  const Initial: Trace := Trace([], 0, 0, 0, 0, 0, 0, Off, 0, None, false)

  function SaturatingIncrement64(value: uint64): (r: uint64)
    ensures value <= r && (r == value <==> value == UINT64_MAX)
  {
    if value < UINT64_MAX then value + 1 else value
  }

  function Start(t: Trace, level: Level, now: uint64): (r: (Trace, bool)) {
    if t.level != Off || level == Off then (t, false)
    else (Trace([], 0, 0, now, 0, now, SaturatingIncrement(t.captureId), level, LevelInterval(level), None, false),
        true)
  }

  function Stop(t: Trace): (r: Trace) {
    t.(level := Off, interval := 0)
  }

  function ObservationOf(s: Sample): (o: Observation) {
    Observation(s.state, s.failsafeState, s.rateResult, s.controlResult, s.mixerValid && s.saturated)
  }

  function When(holds: bool, event: TraceEvent): (events: set<TraceEvent>) {
    if holds then {event} else {}
  }

  function EventsOf(previous: Option<Observation>, s: Sample): (events: set<TraceEvent>) {
    match previous
    case None => {CaptureStarted}
    case Some(p) =>
      When(s.state != p.state, StateChanged) + When(s.failsafeState != p.failsafeState, FailsafeChanged)
      + When(s.rateResult != p.rateResult, RateResultChanged)
      + When(s.controlResult != p.controlResult, ControlResultChanged)
      + When(s.mixerValid && s.saturated && !p.saturated, SaturationStarted)
  }

  /** The sample ends the capture. */
  predicate Terminal(t: Trace, s: Sample) {
    s.state == Fault || ((t.armedSeen || s.state == Armed) && (s.state == Disarmed || s.state == Failsafe))
  }

  predicate PeriodicDue(interval: uint32, next: uint64, now: uint64) {
    interval != 0 && next <= now
  }

  predicate Wanted(t: Trace, s: Sample) {
    PeriodicDue(t.interval, t.nextSampleAt, s.timestamp) || EventsOf(t.previous, s) != {} || Terminal(t, s)
  }

  function Pending(t: Trace): (n: nat) {
    if |t.stored| < t.consumed then 0 else |t.stored| - t.consumed
  }

  /** One slot is kept back for the sample that ends the capture. */
  predicate Refused(t: Trace, terminal: bool) {
    Pending(t) >= CAPACITY - (if terminal then 0 else 1)
  }

  function StepsPast(next: nat, now: nat, interval: nat): (n: nat)
    requires interval > 0 && next <= now
    ensures FirstAfter(next, now, interval) == next + n * interval
  {
    QuotientBounds(now - next, interval);
    (now - next) / interval + 1
  }

  /** A due sample moves the release time past it. */
  function AfterRelease(t: Trace, now: uint64): (r: Trace)
    ensures r == t.(periods := r.periods, nextSampleAt := r.nextSampleAt)
  {
    if !PeriodicDue(t.interval, t.nextSampleAt, now) then t
    else t.(
      periods := t.periods + StepsPast(t.nextSampleAt, now, t.interval),
      nextSampleAt := Saturated(FirstAfter(t.nextSampleAt, now, t.interval)))
  }

  function AfterObservation(t: Trace, s: Sample): (r: Trace) {
    AfterRelease(t.(previous := Some(ObservationOf(s)), armedSeen := t.armedSeen || s.state == Armed), s.timestamp)
  }

  /** A record copies the sample; motors and saturation only count when the mixer's output does. */
  function RecordOf(s: Sample, sequence: nat, events: set<TraceEvent>): (r: Record)
    ensures r.sequence == sequence && r.events == events
  {
    var copied := s.(saturated := s.mixerValid && s.saturated);
    Record(sequence, events, if s.mixerValid then copied else copied.(motors := [0, 0, 0, 0]))
  }

  function Keep(t: Trace, s: Sample, events: set<TraceEvent>, terminal: bool): (r: (Trace, bool)) {
    var ending := if terminal then Stop(t) else t;
    if Refused(t, terminal) then (ending.(dropped := SaturatingIncrement64(t.dropped)), false)
    else (ending.(stored := t.stored + [RecordOf(s, |t.stored| + 1, events)]), true)
  }

  function RecordSample(t: Trace, s: Sample): (r: (Trace, bool)) {
    if t.level == Off then (t, false)
    else if !Wanted(t, s) then (AfterObservation(t, s), false)
    else Keep(AfterObservation(t, s), s, EventsOf(t.previous, s), Terminal(t, s))
  }

  /** The oldest unread records, at most limit of them. */
  function Peek(t: Trace, limit: nat): (records: seq<Record>) {
    if Pending(t) == 0 then [] else t.stored[t.consumed..t.consumed + Min(Pending(t), limit)]
  }

  function Discard(t: Trace, count: nat): (r: (Trace, bool)) {
    if count > Pending(t) then (t, false) else (t.(consumed := t.consumed + count), true)
  }

  /* ---------------- what every call keeps ---------------- */

  /** The first record opens the capture and no other does; an observation exists once a record does. */
  predicate Opened(t: Trace) {
    && (t.previous == None <==> t.stored == [])
    && (forall i :: 0 <= i < |t.stored| ==> (CaptureStarted in t.stored[i].events <==> i == 0))
  }

  predicate Numbered(stored: seq<Record>) {
    forall i :: 0 <= i < |stored| ==> stored[i].sequence == i + 1
  }

  /** Release times stay on the grid the start laid down until the clock's range ends. */
  predicate OnGrid(level: Level, interval: uint32, startedAt: uint64, periods: nat, next: uint64) {
    && interval == LevelInterval(level)
    && (interval != 0 ==> next == Saturated(startedAt + periods * interval))
  }

  predicate Timed(t: Trace) {
    OnGrid(t.level, t.interval, t.startedAt, t.periods, t.nextSampleAt)
  }

  predicate TraceInv(t: Trace) {
    && t.consumed <= |t.stored|
    && Pending(t) <= CAPACITY
    && (t.level != Off ==> Pending(t) < CAPACITY)
    && Numbered(t.stored)
    && Opened(t)
    && Timed(t)
  }

  lemma GridAdvances(t: Trace, now: uint64)
    requires Timed(t)
    ensures Timed(AfterRelease(t, now))
  {
    if PeriodicDue(t.interval, t.nextSampleAt, now) {
      var steps := StepsPast(t.nextSampleAt, now, t.interval);
      assert (t.periods + steps) * t.interval == t.periods * t.interval + steps * t.interval;
      Nonnegative(steps, t.interval);
    }
  }

  lemma ObservationKeeps(t: Trace, s: Sample)
    requires TraceInv(t)
    ensures Timed(AfterObservation(t, s)) && Timed(Stop(AfterObservation(t, s)))
    ensures CaptureStarted in EventsOf(t.previous, s) <==> t.stored == []
  {
    hide FirstAfter, Saturated;
    GridAdvances(t.(previous := Some(ObservationOf(s)), armedSeen := t.armedSeen || s.state == Armed), s.timestamp);
  }

  /**
   * Whatever the sample, the trace keeps its promises, and a sample that ends a running capture always finds its slot:
   * it is stored, it is the last record, and the capture is over.
   */
  lemma RecordKeeps(t: Trace, s: Sample)
    requires TraceInv(t)
    ensures TraceInv(RecordSample(t, s).0)
    ensures t.stored <= RecordSample(t, s).0.stored
    ensures RecordSample(t, s).0.consumed == t.consumed && RecordSample(t, s).0.captureId == t.captureId
    ensures t.level != Off && Terminal(t, s) ==>
              var (t', stored) := RecordSample(t, s);
              && stored && t'.level == Off && |t'.stored| == |t.stored| + 1
              && t'.stored[|t.stored|] == RecordOf(s, |t.stored| + 1, EventsOf(t.previous, s))
  {
    hide OnGrid, EventsOf, PeriodicDue, FirstAfter, Saturated, RecordOf;
    ObservationKeeps(t, s);
    assert t.stored == [] ==> EventsOf(t.previous, s) != {};
  }

  /** Every wanted sample is stored or counted, never both, and nothing else is. */
  lemma RecordAccounts(t: Trace, s: Sample)
    requires TraceInv(t) && t.level != Off && t.dropped < UINT64_MAX
    ensures var t' := RecordSample(t, s).0;
            |t'.stored| - |t.stored| + (t'.dropped - t.dropped) == (if Wanted(t, s) then 1 else 0)
    ensures RecordSample(t, s).0.dropped > t.dropped <==> Wanted(t, s) && Pending(t) == CAPACITY - 1 && !Terminal(t, s)
  {
  }

  lemma StartIsSound(t: Trace, level: Level, now: uint64)
    requires Start(t, level, now).1
    ensures TraceInv(Start(t, level, now).0)
  {
    assert Saturated(now) == now;
  }

  /** A capture starts exactly from OFF at another level, empty, with the next number and the level's interval. */
  lemma CaptureStartsExactly(t: Trace, level: Level, now: uint64)
    ensures var (r, started) := Start(t, level, now);
            && (started <==> t.level == Off && level != Off) && (!started ==> r == t)
            && (started ==>
                  && r.stored == [] && r.consumed == 0 && r.dropped == 0 && r.level == level && r.previous == None
                  && !r.armedSeen && r.captureId == Min(t.captureId + 1, UINT32_MAX) && r.nextSampleAt == now
                  && (level == LowRate ==> r.interval == 100_000) && (level == HighRate ==> r.interval == 10_000)
                  && (level == FullRate ==> r.interval == 1_000) && (level == Events ==> r.interval == 0))
    ensures Stop(t).level == Off && Stop(t).interval == 0 && Stop(t) == t.(level := Off, interval := 0)
  {
  }

  /** An event for each thing that differs from the previous sample; the first sample only opens the capture. */
  lemma EventsAreDifferences(t: Trace, s: Sample)
    ensures var events := EventsOf(t.previous, s);
            match t.previous
            case None => events == {CaptureStarted}
            case Some(p) =>
              && (StateChanged in events <==> s.state != p.state)
              && (FailsafeChanged in events <==> s.failsafeState != p.failsafeState)
              && (RateResultChanged in events <==> s.rateResult != p.rateResult)
              && (ControlResultChanged in events <==> s.controlResult != p.controlResult)
              && (SaturationStarted in events <==> s.mixerValid && s.saturated && !p.saturated)
              && CaptureStarted !in events
  {
  }

  /** A due sample moves the release to the first grid point after it, or to the end of the clock; no other moves it. */
  lemma ReleaseMovesExactly(t: Trace, now: uint64)
    ensures var r := AfterRelease(t, now);
            if t.interval != 0 && t.nextSampleAt <= now then
              || (r.nextSampleAt == UINT64_MAX && now + t.interval >= UINT64_MAX)
              || (now < r.nextSampleAt <= now + t.interval &&
                  exists n: nat :: r.nextSampleAt == t.nextSampleAt + n * t.interval)
            else r.nextSampleAt == t.nextSampleAt
  {
    if t.interval != 0 && t.nextSampleAt <= now {
      var n := StepsPast(t.nextSampleAt, now, t.interval);
      QuotientBounds(now - t.nextSampleAt, t.interval);
      assert FirstAfter(t.nextSampleAt, now, t.interval) == t.nextSampleAt + n * t.interval;
    }
  }

  /** Nothing is recorded while tracing is off. */
  lemma OffRecordsNothing(t: Trace, s: Sample)
    requires t.level == Off
    ensures RecordSample(t, s) == (t, false)
  {
  }

  /** Reading returns the oldest unread records in order; as many of them as asked for are dropped, or none. */
  lemma ReadsAreOldestFirst(t: Trace, limit: nat, count: nat)
    requires TraceInv(t)
    ensures var records, unread := Peek(t, limit), |t.stored| - t.consumed;
            && |records| == Min(unread, limit)
            && forall i | 0 <= i < |records| :: records[i] == t.stored[t.consumed + i]
    ensures var (r, done) := Discard(t, count);
            && (done <==> count <= |t.stored| - t.consumed) && r.stored == t.stored && (!done ==> r == t)
            && (done ==> r == t.(consumed := t.consumed + count))
  {
  }

  /** Observing moves the release time and remembers the sample; the records and the level are left alone. */
  lemma ObservingStoresNothing(t: Trace, s: Sample)
    ensures var r := AfterObservation(t, s);
            && r == t.(periods := r.periods, nextSampleAt := r.nextSampleAt, previous := r.previous,
                       armedSeen := t.armedSeen || s.state == Armed)
            && r.previous == Some(Observation(s.state, s.failsafeState, s.rateResult, s.controlResult,
                                              s.mixerValid && s.saturated))
  {
    hide AfterRelease;
  }

  /** What is stored of a sample: itself, without the motors and the saturation of a mix that does not count. */
  lemma RecordIsTheSample(s: Sample, sequence: nat, events: set<TraceEvent>)
    ensures RecordOf(s, sequence, events) ==
            Record(sequence, events, s.(saturated := s.mixerValid && s.saturated,
                                        motors := if s.mixerValid then s.motors else [0, 0, 0, 0]))
  {
  }

  /**
   * What becomes of a sample of a running capture: it is wanted if it is due, differs from the one before or ends the
   * capture; a wanted one is stored if a slot is left, the last of which is kept for the end; the capture is over with
   * a fault, or DISARMED or in FAILSAFE once it has been ARMED.
   */
  lemma SampleHasItsOutcome(t: Trace, s: Sample)
    requires TraceInv(t) && t.level != Off
    ensures var (r, stored) := RecordSample(t, s);
            var due := t.interval != 0 && t.nextSampleAt <= s.timestamp;
            var armed := t.armedSeen || s.state == Armed;
            var ends := s.state == Fault || (armed && (s.state == Disarmed || s.state == Failsafe));
            var events := EventsOf(t.previous, s);
            var wanted, unread := due || events != {} || ends, |t.stored| - t.consumed;
            && (stored <==> wanted && unread < (if ends then CAPACITY else CAPACITY - 1))
            && r.level == (if ends then Off else t.level) && r.armedSeen == armed
            && r.previous == Some(Observation(s.state, s.failsafeState, s.rateResult, s.controlResult,
                                              s.mixerValid && s.saturated))
            && r.stored == (if stored then t.stored + [RecordOf(s, |t.stored| + 1, events)] else t.stored)
            && r.dropped == Min(t.dropped + (if wanted && !stored then 1 else 0), UINT64_MAX)
  {
    hide TraceInv, AfterObservation, EventsOf, RecordOf;
    ObservingStoresNothing(t, s);
    RoomIsLeft(t);
  }

  lemma RoomIsLeft(t: Trace)
    requires TraceInv(t) && t.level != Off
    ensures t.consumed <= |t.stored| && |t.stored| - t.consumed == Pending(t) < CAPACITY
  {
  }

  /* ---------------- the ring ---------------- */

  class TraceBuffer {
    const records: array<Record>
    var producerCount: nat
    var consumerCount: nat
    var droppedRecordCount: uint64
    var nextSampleAt: uint64
    var captureId: uint32
    var samplingInterval: uint32
    var level: Level
    var previous: Observation
    var observationValid: bool
    var armedSeen: bool
    ghost var stored: seq<Record>
    ghost var startedAt: uint64
    ghost var periods: nat

    ghost function View(): (t: Trace)
      reads this
    {
      Trace(stored, consumerCount, droppedRecordCount, startedAt, periods, nextSampleAt, captureId, level,
            samplingInterval, if observationValid then Some(previous) else None, armedSeen)
    }

    ghost predicate Valid()
      reads this, records
    {
      && records.Length == CAPACITY
      && producerCount == |stored|
      && TraceInv(View())
      && Slots()
    }

    /** The unread records are where the ring says they are. */
    ghost predicate Slots()
      requires records.Length == CAPACITY && producerCount == |stored|
      reads this`producerCount, this`consumerCount, this`stored, records
    {
      forall i :: consumerCount <= i < producerCount ==> records[i % CAPACITY] == stored[i]
    }

    constructor (blank: Record)
      ensures Valid() && fresh(records) && View() == Initial
    {
      records := new Record[CAPACITY](_ => blank);
      producerCount, consumerCount, droppedRecordCount, nextSampleAt := 0, 0, 0, 0;
      captureId, samplingInterval, level := 0, 0, Off;
      previous := Observation(Boot, 0, 0, 0, false);
      observationValid, armedSeen := false, false;
      stored, startedAt, periods := [], 0, 0;
    }

    method StartCapture(newLevel: Level, now: uint64) returns (started: bool)
      requires Valid()
      modifies this
      ensures Valid()
      ensures (View(), started) == Start(old(View()), newLevel, now)
    {
      hide TraceInv;
      if level != Off || newLevel == Off {
        return false;
      }
      captureId := SaturatingIncrement(captureId);
      producerCount, consumerCount, droppedRecordCount := 0, 0, 0;
      nextSampleAt := now;
      samplingInterval := LevelInterval(newLevel);
      level := newLevel;
      observationValid, armedSeen := false, false;
      stored, startedAt, periods := [], now, 0;
      StartIsSound(old(View()), newLevel, now);
      return true;
    }

    method StopCapture()
      requires Valid()
      modifies this
      ensures Valid()
      ensures View() == Stop(old(View()))
    {
      level := Off;
      samplingInterval := 0;
    }

    method ObserveEvents(s: Sample) returns (events: set<TraceEvent>)
      modifies this`previous, this`observationValid, this`armedSeen
      ensures events == EventsOf(old(View()).previous, s)
      ensures View() == old(View()).(
                previous := Some(ObservationOf(s)), armedSeen := old(armedSeen) || s.state == Armed)
    {
      events := {};
      if !observationValid {
        events := {CaptureStarted};
      } else {
        if s.state != previous.state {
          events := events + {StateChanged};
        }
        if s.failsafeState != previous.failsafeState {
          events := events + {FailsafeChanged};
        }
        if s.rateResult != previous.rateResult {
          events := events + {RateResultChanged};
        }
        if s.controlResult != previous.controlResult {
          events := events + {ControlResultChanged};
        }
        if s.mixerValid && s.saturated && !previous.saturated {
          events := events + {SaturationStarted};
        }
      }
      previous := Observation(s.state, s.failsafeState, s.rateResult, s.controlResult, s.mixerValid && s.saturated);
      observationValid := true;
      if s.state == Armed {
        armedSeen := true;
      }
    }

    method TakePeriodicSample(now: uint64) returns (due: bool)
      modifies this`nextSampleAt, this`periods
      ensures due == PeriodicDue(old(samplingInterval), old(nextSampleAt), now)
      ensures View() == AfterRelease(old(View()), now)
    {
      ghost var from := nextSampleAt;
      var next;
      due, next := StepPast(nextSampleAt, now, samplingInterval);
      nextSampleAt := next;
      if due {
        periods := periods + StepsPast(from, now, samplingInterval);
      }
    }

    method StoreSample(s: Sample) returns (storedNow: bool)
      requires Valid()
      modifies this, records
      ensures Valid()
      ensures (View(), storedNow) == RecordSample(old(View()), s)
    {
      hide TraceInv, EventsOf, ObservationOf, PeriodicDue, AfterRelease, Keep, Slots;
      ghost var t := View();
      RecordKeeps(t, s);
      InvPending(t);
      if level == Off {
        return false;
      }
      var events := ObserveEvents(s);
      var periodic := TakePeriodicSample(s.timestamp);
      var stopAfterRecord := s.state == Fault || (armedSeen && (s.state == Disarmed || s.state == Failsafe));
      if !periodic && events == {} && !stopAfterRecord {
        return false;
      }
      storedNow := KeepSample(s, events, stopAfterRecord);
    }

    method KeepSample(s: Sample, events: set<TraceEvent>, terminal: bool) returns (storedNow: bool)
      requires records.Length == CAPACITY && producerCount == |stored| && Slots()
      requires consumerCount <= producerCount <= consumerCount + CAPACITY
      modifies this, records
      ensures producerCount == |stored| && Slots()
      ensures (View(), storedNow) == Keep(old(View()), s, events, terminal)
    {
      hide RecordOf;
      if producerCount - consumerCount >= CAPACITY - (if terminal then 0 else 1) {
        droppedRecordCount := SaturatingIncrement64(droppedRecordCount);
        if terminal {
          level, samplingInterval := Off, 0;
        }
        return false;
      }
      var record := RecordOf(s, producerCount + 1, events);
      SlotsApart(consumerCount, producerCount);
      records[producerCount % CAPACITY] := record;
      producerCount := producerCount + 1;
      stored := stored + [record];
      if terminal {
        level, samplingInterval := Off, 0;
      }
      return true;
    }

    method PeekRecords(limit: nat) returns (batch: seq<Record>)
      requires Valid()
      ensures batch == Peek(View(), limit)
    {
      hide TraceInv;
      InvPending(View());
      var count := Min(producerCount - consumerCount, limit);
      batch := [];
      for index := 0 to count
        invariant batch == stored[consumerCount..consumerCount + index]
      {
        batch := batch + [records[(consumerCount + index) % CAPACITY]];
      }
    }

    method PendingCount() returns (count: nat)
      requires Valid()
      ensures count == Pending(View())
    {
      hide TraceInv;
      InvPending(View());
      count := producerCount - consumerCount;
    }

    method DiscardRecords(count: nat) returns (done: bool)
      requires Valid()
      modifies this
      ensures Valid()
      ensures (View(), done) == Discard(old(View()), count)
    {
      if count > producerCount - consumerCount {
        return false;
      }
      consumerCount := consumerCount + count;
      return true;
    }
  }

  lemma InvPending(t: Trace)
    requires TraceInv(t)
    ensures 0 <= Pending(t) <= CAPACITY && t.consumed <= |t.stored|
    ensures t.level != Off ==> Pending(t) < CAPACITY
  {
  }

  lemma SlotsApart(low: nat, high: nat)
    requires low <= high < low + CAPACITY
    ensures forall i :: low <= i < high ==> i % CAPACITY != high % CAPACITY
  {
  }
}
