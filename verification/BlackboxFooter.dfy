/** When the footer of a log still fits into the queue, and a run in which it does not. */
module BlackboxFooter {
  import opened Counters
  import opened SystemState
  import opened Bytes
  import opened ReleaseGrid
  import opened BlackboxFormat
  import opened BlackboxSamples
  import opened BlackboxStore
  import opened BlackboxCard
  import opened BlackboxCrash
  import opened BlackboxRuns
  import opened BlackboxKept

  /** The blocks a finishing log still has to queue: the samples waiting, if any, and the footer. */
  function ClosingBlocks(s: Store): (n: nat) {
    if s.samplesInBlock == 0 then 1 else 2
  }

  lemma AppendOutcome(s: Store, size: nat, buffer: Sector, kind: Kind, items: Kind, length: Length)
    requires size < MASK32
    ensures var (r, ok) := AppendBlock(s, size, buffer, kind, items, length);
            && (ok <==> |s.queue| < QUEUE_CAPACITY && s.nextSector < size)
            && (ok ==> |r.queue| == |s.queue| + 1 && r.nextSector == s.nextSector + 1)
  {
    hide Finalize;
  }

  lemma MetadataOutcome(s: Store)
    requires s.logCount > 0
    ensures var (r, ok) := EnqueueMetadata(s);
            (ok <==> |s.queue| + 3 <= QUEUE_CAPACITY) && (ok ==> |r.queue| == |s.queue| + 3)
  {
    hide SealPage, PutEntry, BuildSuperblock;
  }

  lemma FlushOutcome(s: Store, size: nat)
    requires size < MASK32 && s.samplesInBlock <= SAMPLES_PER_BLOCK
    ensures var (r, ok) := FlushSamples(s, size);
            var n := ClosingBlocks(s) - 1;
            && (ok <==> n == 0 || (|s.queue| < QUEUE_CAPACITY && s.nextSector < size))
            && (ok ==> |r.queue| == |s.queue| + n && r.nextSector == s.nextSector + n)
  {
    hide AppendBlock, Finalize;
    if s.samplesInBlock > 0 {
      AppendOutcome(s, size, s.block, SAMPLES, s.samplesInBlock, s.samplesInBlock * SAMPLE_SIZE);
    }
  }

  /** A log closes exactly when its last blocks fit on the card, and with page and superblocks into the queue. */
  lemma FinishOutcome(s: Store, size: nat, timestamp: uint64, state: State)
    requires size < MASK32 && s.samplesInBlock <= SAMPLES_PER_BLOCK && s.logCount > 0
    ensures var n := ClosingBlocks(s);
            FinishFlight(s, size, timestamp, state).status ==
            if |s.queue| + n + 3 <= QUEUE_CAPACITY && s.nextSector + n <= size then Finishing else Error
  {
    hide AppendBlock, FlushSamples, EnqueueMetadata, WithPayload, FooterPayload;
    FlushOutcome(s, size);
    var (flushed, ok) := FlushSamples(s, size);
    if ok {
      var footer := WithPayload(FooterPayload(flushed, timestamp, state));
      AppendOutcome(flushed, size, footer, FLIGHT_FOOTER, 1, 20);
      var (footed, written) := AppendBlock(flushed, size, footer, FLIGHT_FOOTER, 1, 20);
      if written {
        var closed := footed.(active := footed.active.(samples := s.captured % MASK32, dropped := s.dropped % MASK32,
                                                       complete := true));
        MetadataOutcome(NextGeneration(closed));
      }
    }
  }

  predicate CheckpointDue(s: Store) {
    (s.captured + 1) % MASK64 >= s.nextCheckpointAt
  }

  /**
   * What a caller can tell before a sample that ends the log: a sample that is still taken leaves room for the footer
   * unless it also makes a checkpoint due with more than 24 writes waiting; one that is dropped needs the room itself.
   */
  predicate FooterFits(s: Store, size: nat) {
    if |s.queue| < QUEUE_CAPACITY - 4 then
      (!CheckpointDue(s) || |s.queue| <= QUEUE_CAPACITY - 8) && s.nextSector + 2 <= size
    else
      |s.queue| + ClosingBlocks(s) + 3 <= QUEUE_CAPACITY && s.nextSector + ClosingBlocks(s) <= size
  }

  lemma CheckpointOutcome(s: Store)
    requires s.logCount > 0
    ensures var r := Checkpoint(s);
            var listed := s.captured >= s.nextCheckpointAt && |s.queue| <= QUEUE_CAPACITY - 3;
            && |r.queue| == |s.queue| + (if listed then 3 else 0)
            && r.nextSector == s.nextSector && r.samplesInBlock == s.samplesInBlock && r.logCount == s.logCount
            && r.status == s.status
  {
    hide EnqueueMetadata;
    var counted := s.(active := s.active.(samples := s.captured % MASK32, dropped := s.dropped % MASK32));
    MetadataOutcome(NextGeneration(counted));
  }

  /** What taking a sample does to the queue and the card's room. */
  lemma TakeOutcome(s: Store, size: nat, sample: Sample)
    requires size < MASK32 && s.samplesInBlock < SAMPLES_PER_BLOCK && s.logCount > 0 && s.status == Recording
    ensures var r := TakeSample(s, size, sample);
            if |s.queue| >= QUEUE_CAPACITY - 4 then
              && r.status == Recording && r.queue == s.queue && r.nextSector == s.nextSector
              && r.samplesInBlock == s.samplesInBlock
            else
              var full := if s.samplesInBlock == 1 then 1 else 0;
              if full == 1 && s.nextSector >= size then r.status == Error
              else
                && r.status == Recording && r.samplesInBlock == 1 - full && r.nextSector == s.nextSector + full
                && |r.queue| == |s.queue| + full + (if CheckpointDue(s) then 3 else 0)
  {
    hide FlushSamples, Checkpoint, EncodeSample, Put;
    if |s.queue| < QUEUE_CAPACITY - 4 {
      var taken := s.(
        block := Put(s.block, HEADER_SIZE + s.samplesInBlock * SAMPLE_SIZE,
                     EncodeSample(sample, (s.captured + 1) % MASK32)),
        samplesInBlock := s.samplesInBlock + 1, captured := (s.captured + 1) % MASK64, taken := s.taken + [sample]);
      FlushOutcome(taken, size);
      CheckpointOutcome(taken);
      CheckpointOutcome(FlushSamples(taken, size).0);
    }
  }

  /** A sample that ends the log closes it if and only if the footer fits by that rule; otherwise the store fails. */
  lemma ClosingSampleOutcome(s: Store, size: nat, sample: Sample)
    requires size < MASK32 && s.samplesInBlock < SAMPLES_PER_BLOCK && s.logCount > 0 && s.status == Recording
    requires Closes(s, sample)
    ensures RecordSample(s, size, sample).status == if FooterFits(s, size) then Finishing else Error
  {
    hide TakeSample, FinishFlight, Releases, Timed, Closes, Missed;
    TakeOutcome(Missed(s, sample), size, sample);
    var taken := Sampled(s, size, sample);
    if taken.status != Error {
      FinishOutcome(taken, size, sample.timestamp, sample.state);
    }
  }

  /* ---------------- a run whose footer is lost ---------------- */

  ghost predicate Reached(card: Card, configuration: ConfigurationBytes, firmware: Text, build: Text, s: Store, d: Card)
    requires CleanCard(card)
  {
    exists calls :: Formatless(calls) && MountAndRun(card, configuration, firmware, build, calls) == (s, d)
  }

  lemma ReachedStep(card: Card, configuration: ConfigurationBytes, firmware: Text, build: Text, s: Store, d: Card,
                    call: StoreCall)
    requires CleanCard(card) && Reached(card, configuration, firmware, build, s, d) && !call.DoFormat?
    ensures CanStep(s, d)
    ensures var (r, c) := StoreStep(s, d, call); Reached(card, configuration, firmware, build, r, c)
  {
    hide StoreRun, Inv, StoreStep, Listing;
    var calls :| Formatless(calls) && MountAndRun(card, configuration, firmware, build, calls) == (s, d);
    var mounted := Mount(card, configuration, firmware, build, true, true);
    MountedInv(card, configuration, firmware, build);
    OneCallMore(mounted, card, Catalogue(card, mounted.logCount), Origin(card), calls, call);
    assert MountAndRun(card, configuration, firmware, build, calls + [call]) == StoreStep(s, d, call);
  }

  /** Recording, c samples taken, q writes waiting, and room for what is still to come; armed after the first sample. */
  predicate Paced(s: Store, size: nat, c: nat, q: nat) {
    && s.status == Recording && s.logCount > 0 && !s.writeActive
    && s.captured == c && s.samplesInBlock == c % 2 && |s.queue| == q && s.nextCheckpointAt == 500
    && s.finishAfter == 0 && s.nextSector + (600 - c) <= size < MASK32
    && (if c == 1 then s.previousState == Disarmed
        else s.previousState == Armed && s.nextSampleAt == SAMPLE_INTERVAL_US * c)
  }

  function ArmedAt(timestamp: uint64): (sample: Sample) {
    QuietSample.(timestamp := timestamp, state := Armed)
  }

  /** A sample every ten milliseconds is taken; every second one queues a block. */
  lemma PacedSample(s: Store, size: nat, c: nat, q: nat)
    requires Paced(s, size, c, q) && 1 <= c < 499 && q < QUEUE_CAPACITY - 4
    ensures var r := RecordSample(s, size, ArmedAt(SAMPLE_INTERVAL_US * c));
            Paced(r, size, c + 1, q + c % 2)
  {
    hide FinishFlight, TakeSample, Missed;
    var sample := ArmedAt(SAMPLE_INTERVAL_US * c);
    assert Releases(s, sample) == (1, SAMPLE_INTERVAL_US * (c + 1));
    assert !Closes(s, sample);
    assert Missed(s, sample) == Timed(s, sample) by { OnlyDue(s, sample); }
    TakeOutcome(Missed(s, sample), size, sample);
    TakeRest(Missed(s, sample), size, sample);
  }

  /** The sample that opens the log. */
  lemma FirstSample(s: Store, size: nat)
    requires s.status == Recording && s.logCount > 0 && !s.writeActive && s.captured == 0 && s.samplesInBlock == 0
    requires |s.queue| == 4 && s.nextCheckpointAt == 500 && s.finishAfter == 0 && !s.armedSeen && s.nextSampleAt == 0
    requires s.nextSector + 600 <= size < MASK32
    ensures Paced(RecordSample(s, size, QuietSample), size, 1, 4)
  {
    hide FinishFlight, TakeSample, Missed;
    assert Releases(s, QuietSample).0 == 1;
    assert !Closes(s, QuietSample);
    assert Missed(s, QuietSample) == Timed(s, QuietSample) by { OnlyDue(s, QuietSample); }
    TakeOutcome(Missed(s, QuietSample), size, QuietSample);
    TakeRest(Missed(s, QuietSample), size, QuietSample);
  }

  lemma OnlyDue(s: Store, sample: Sample)
    requires Releases(s, sample).0 == 1
    ensures Missed(s, sample) == Timed(s, sample)
  {
  }

  lemma TakeRest(s: Store, size: nat, sample: Sample)
    requires s.samplesInBlock < SAMPLES_PER_BLOCK && s.logCount > 0 && |s.queue| < QUEUE_CAPACITY - 4
    requires s.captured + 1 < s.nextCheckpointAt
    ensures var r := TakeSample(s, size, sample);
            && r.captured == s.captured + 1 && r.nextCheckpointAt == s.nextCheckpointAt
            && r.finishAfter == s.finishAfter && r.previousState == s.previousState && r.nextSampleAt == s.nextSampleAt
            && r.writeActive == s.writeActive && r.logCount == s.logCount
  {
    hide FlushSamples, EncodeSample, Put, Checkpoint;
    var taken := s.(
      block := Put(s.block, HEADER_SIZE + s.samplesInBlock * SAMPLE_SIZE,
                   EncodeSample(sample, (s.captured + 1) % MASK32)),
      samplesInBlock := s.samplesInBlock + 1, captured := (s.captured + 1) % MASK64, taken := s.taken + [sample]);
    EarlyCheckpoint(taken);
    EarlyCheckpoint(FlushSamples(taken, size).0);
  }

  lemma EarlyCheckpoint(s: Store)
    requires s.captured < s.nextCheckpointAt && s.logCount > 0
    ensures Checkpoint(s) == s
  {
  }

  lemma Opening(card: Card, configuration: ConfigurationBytes, firmware: Text, build: Text) returns (s: Store)
    requires CleanCard(card) && MountedStatus(Newest(card, true, true).value, |card|) == Ready
    requires Newest(card, true, true).value.nextSector + 601 <= |card|
    ensures Reached(card, configuration, firmware, build, s, card) && Paced(s, |card|, 1, 4)
  {
    hide StoreRun, Inv, Capture, SuperBounded, PageValid, SuperblockValid, LoadSuperblock, LogSound, EntryOf, Reached;
    hide StartFlight, RecordSample, Paced;
    var m := Mount(card, configuration, firmware, build, true, true);
    MountReached(card, configuration, firmware, build);
    ReachedStep(card, configuration, firmware, build, m, card, DoSetConfiguration([]));
    var plain := m.(configuration := []);
    s := Capture(plain, card, QuietSample, ReadOk);
    ReachedStep(card, configuration, firmware, build, plain, card, DoCapture(QuietSample, ReadOk));
    if m.logCount % ENTRIES_PER_PAGE != 0 {
      assert EntrySound(card, m.logCount - 1);
      assert (m.logCount - 1) / ENTRIES_PER_PAGE == m.logCount / ENTRIES_PER_PAGE;
    }
    OpensPaced(plain, card);
  }

  lemma MountReached(card: Card, configuration: ConfigurationBytes, firmware: Text, build: Text)
    requires CleanCard(card)
    ensures Reached(card, configuration, firmware, build, Mount(card, configuration, firmware, build, true, true), card)
  {
    hide StoreRun, Inv, Listing;
    var m := Mount(card, configuration, firmware, build, true, true);
    MountedInv(card, configuration, firmware, build);
    EmptyRun(m, card, Catalogue(card, m.logCount), Origin(card));
    assert MountAndRun(card, configuration, firmware, build, []) == (m, card);
  }

  lemma OpensPaced(s: Store, card: Card)
    requires s.status == Ready && s.queue == [] && s.configuration == [] && !s.writeActive
    requires s.logCount < LOG_CAPACITY && FIRST_DATA_SECTOR <= s.nextSector && s.nextSector + 601 <= |card| < MASK32
    requires s.logCount % ENTRIES_PER_PAGE != 0 ==>
               var index := s.logCount / ENTRIES_PER_PAGE; PageValid(card[FIRST_CATALOG_SECTOR + index], index)
    ensures Paced(Capture(s, card, QuietSample, ReadOk), |card|, 1, 4)
  {
    hide StartFlight, RecordSample, PageValid;
    OpensLog(s.(blockSequence := 0), card);
    FirstSample(StartFlight(s.(blockSequence := 0), card, 0, ReadOk).0, |card|);
  }

  /** With the card answering, the queue empties while no sample comes. */
  lemma {:induction false} Drain(card: Card, configuration: ConfigurationBytes, firmware: Text, build: Text,
                                 s: Store, d: Card, c: nat, q: nat) returns (r: Store, e: Card)
    requires CleanCard(card) && Reached(card, configuration, firmware, build, s, d)
    requires Paced(s, |d|, c, q) && |d| == |card| && c <= 600
    ensures Reached(card, configuration, firmware, build, r, e) && Paced(r, |e|, c, 0) && |e| == |card|
    decreases q
  {
    hide Reached, Service;
    r, e := s, d;
    if q > 0 {
      TwoTurns(s, d);
      ReachedStep(card, configuration, firmware, build, s, d, DoService(CardOk));
      var (m, f) := Service(s, d, CardOk);
      ReachedStep(card, configuration, firmware, build, m, f, DoService(CardOk));
      var (n, g) := Service(m, f, CardOk);
      r, e := Drain(card, configuration, firmware, build, n, g, c, q - 1);
    }
  }

  lemma TakeOne(card: Card, configuration: ConfigurationBytes, firmware: Text, build: Text, s: Store, d: Card, c: nat,
                q: nat) returns (r: Store)
    requires CleanCard(card) && Reached(card, configuration, firmware, build, s, d)
    requires Paced(s, |d|, c, q) && 1 <= c < 499 && q < QUEUE_CAPACITY - 4
    ensures Reached(card, configuration, firmware, build, r, d) && Paced(r, |d|, c + 1, q + c % 2)
  {
    hide Reached, RecordSample;
    PacedSample(s, |d|, c, q);
    ReachedStep(card, configuration, firmware, build, s, d, DoCapture(ArmedAt(SAMPLE_INTERVAL_US * c), ReadOk));
    r := RecordSample(s, |d|, ArmedAt(SAMPLE_INTERVAL_US * c));
  }

  /** Samples with the queue drained in between. */
  lemma {:induction false} Climb(card: Card, configuration: ConfigurationBytes, firmware: Text, build: Text,
                                 s: Store, d: Card, c: nat) returns (r: Store, e: Card)
    requires CleanCard(card) && Reached(card, configuration, firmware, build, s, d)
    requires Paced(s, |d|, c, 0) && |d| == |card| && 1 <= c <= 449
    ensures Reached(card, configuration, firmware, build, r, e) && Paced(r, |e|, 449, 0) && |e| == |card|
    decreases 449 - c
  {
    hide Reached, Paced;
    r, e := s, d;
    if c < 449 {
      r := TakeOne(card, configuration, firmware, build, s, d, c, 0);
      r, e := Drain(card, configuration, firmware, build, r, d, c + 1, c % 2);
      r, e := Climb(card, configuration, firmware, build, r, e, c + 1);
    }
  }

  /** Samples with the card busy: a block joins the queue with every second one. */
  lemma {:induction false} Fill(card: Card, configuration: ConfigurationBytes, firmware: Text, build: Text,
                                s: Store, d: Card, c: nat) returns (r: Store)
    requires CleanCard(card) && Reached(card, configuration, firmware, build, s, d)
    requires 449 <= c <= 499 && Paced(s, |d|, c, (c - 448) / 2)
    ensures Reached(card, configuration, firmware, build, r, d) && Paced(r, |d|, 499, 25)
    decreases 499 - c
  {
    hide Reached, Paced;
    r := s;
    if c < 499 {
      r := TakeOne(card, configuration, firmware, build, s, d, c, (c - 448) / 2);
      r := Fill(card, configuration, firmware, build, r, d, c + 1);
    }
  }

  const FaultSample: Sample := ArmedAt(4_990_000).(state := Fault)

  lemma LastSampleFails(s: Store, d: Card)
    requires Paced(s, |d|, 499, 25)
    ensures s.status == Recording && s.nextSector + 100 <= |d| && !FooterFits(s, |d|)
    ensures Capture(s, d, FaultSample, ReadOk).status == Error
  {
    hide RecordSample;
    ClosingSampleOutcome(s, |d|, FaultSample);
  }

  /**
   * It can happen: on every clean card with room, some run without formatting leads to a recording in which the next
   * sample reports a fault, a checkpoint is due, and the store ends in error although the card has room.
   */
  lemma FooterCanBeLost(card: Card, configuration: ConfigurationBytes, firmware: Text, build: Text)
    requires CleanCard(card) && MountedStatus(Newest(card, true, true).value, |card|) == Ready
    requires Newest(card, true, true).value.nextSector + 601 <= |card|
    ensures exists s, d ::
              && Reached(card, configuration, firmware, build, s, d) && s.status == Recording
              && s.nextSector + 100 <= |d| && !FooterFits(s, |d|)
              && CanStep(s, d) && StoreStep(s, d, DoCapture(FaultSample, ReadOk)).0.status == Error
  {
    hide Reached, Paced, Capture, Listing, FooterFits, CanStep;
    var s := Opening(card, configuration, firmware, build);
    var d := card;
    s, d := Drain(card, configuration, firmware, build, s, d, 1, 4);
    s, d := Climb(card, configuration, firmware, build, s, d, 1);
    s := Fill(card, configuration, firmware, build, s, d, 449);
    ReachedStep(card, configuration, firmware, build, s, d, DoCapture(FaultSample, ReadOk));
    LastSampleFails(s, d);
  }
}
