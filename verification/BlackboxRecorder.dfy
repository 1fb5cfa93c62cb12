/**
 * The log store as the firmware keeps it: a fixed ring of queued sectors, a catalogue page and a sample block
 * edited byte by byte, and counters updated in place. Each call refines the store operation of the same name.
 */
module BlackboxRecorder {
  import opened Counters
  import opened SystemState
  import opened Bytes
  import opened BlackboxFormat
  import opened BlackboxSamples
  import opened ReleaseGrid
  import Spec = BlackboxStore
  import opened BlackboxStore

  /* ---------------- buffers ---------------- */

  method PutU16(buffer: array<byte>, at: nat, value: nat)
    requires value < 0x1_0000 && at + 2 <= buffer.Length
    modifies buffer
    ensures buffer[..] == Put(old(buffer[..]), at, U16(value))
  {
    buffer[at] := value % 256;
    buffer[at + 1] := value / 256;
  }

  method CopyInto(buffer: array<byte>, at: nat, bytes: Buffer)
    requires at + |bytes| <= buffer.Length
    modifies buffer
    ensures buffer[..] == Put(old(buffer[..]), at, bytes)
  {
    for index := 0 to |bytes|
      invariant buffer[..] == Put(old(buffer[..]), at, bytes[..index])
    {
      buffer[at + index] := bytes[index];
    }
    assert bytes[..|bytes|] == bytes;
  }

  method Clear(buffer: array<byte>)
    requires buffer.Length == SECTOR_SIZE
    modifies buffer
    ensures buffer[..] == ZeroSector()
  {
    for index := 0 to SECTOR_SIZE
      invariant forall i | 0 <= i < index :: buffer[i] == 0
    {
      buffer[index] := 0;
    }
  }

  method SealBuffer(buffer: array<byte>)
    requires buffer.Length == SECTOR_SIZE
    modifies buffer
    ensures buffer[..] == Seal(old(buffer[..]))
  {
    hide Crc32, Put;
    var checksum := ComputeCrc32(buffer, CRC_OFFSET);
    assert buffer[..CRC_OFFSET] == buffer[..][..CRC_OFFSET];
    PutU32(buffer, CRC_OFFSET, checksum);
  }

  method FinalizeBlock(buffer: array<byte>, kind: Kind, logId: uint32, sequence: uint32, items: Kind, length: Length)
    requires buffer.Length == SECTOR_SIZE
    modifies buffer
    ensures buffer[..] == Finalize(old(buffer[..]), kind, logId, sequence, items, length)
  {
    hide Put, U32, U16, Seal;
    ghost var s := buffer[..];
    PutU32(buffer, 0, BLOCK_MAGIC);
    PutU16(buffer, 4, FORMAT_VERSION);
    PutExtends(s, 0, U32(BLOCK_MAGIC), U16(FORMAT_VERSION));
    PutU16(buffer, 6, kind);
    PutExtends(s, 0, U32(BLOCK_MAGIC) + U16(FORMAT_VERSION), U16(kind));
    PutU32(buffer, 8, logId);
    PutExtends(s, 0, U32(BLOCK_MAGIC) + U16(FORMAT_VERSION) + U16(kind), U32(logId));
    PutU32(buffer, 12, sequence);
    PutExtends(s, 0, U32(BLOCK_MAGIC) + U16(FORMAT_VERSION) + U16(kind) + U32(logId), U32(sequence));
    PutU16(buffer, 16, items);
    PutExtends(s, 0, U32(BLOCK_MAGIC) + U16(FORMAT_VERSION) + U16(kind) + U32(logId) + U32(sequence), U16(items));
    PutU16(buffer, 18, length);
    PutExtends(s, 0, U32(BLOCK_MAGIC) + U16(FORMAT_VERSION) + U16(kind) + U32(logId) + U32(sequence) + U16(items),
               U16(length));
    SealBuffer(buffer);
  }

  method BuildSuperblockBuffer(super: Superblock) returns (data: Sector)
    ensures data == BuildSuperblock(super)
  {
    hide Pack, Seal, Put;
    var buffer := new byte[SECTOR_SIZE](i => 0);
    assert buffer[..] == ZeroSector();
    WriteWords(SuperblockWords(super), buffer, 0);
    SealBuffer(buffer);
    data := buffer[..];
  }

  method PayloadBuffer(payload: Buffer) returns (buffer: array<byte>)
    requires |payload| <= PAYLOAD_CAPACITY
    ensures fresh(buffer) && buffer.Length == SECTOR_SIZE && buffer[..] == WithPayload(payload)
  {
    buffer := new byte[SECTOR_SIZE](i => 0);
    assert buffer[..] == ZeroSector();
    CopyInto(buffer, HEADER_SIZE, payload);
  }

  /* ---------------- the ring ---------------- */

  /** The queued writes, oldest first. */
  function Ring(slots: seq<Write>, head: nat, count: nat): (q: seq<Write>)
    requires |slots| == QUEUE_CAPACITY && head < QUEUE_CAPACITY && count <= QUEUE_CAPACITY
  {
    seq(count, i requires 0 <= i < count => slots[(head + i) % QUEUE_CAPACITY])
  }

  lemma RingEnqueue(slots: seq<Write>, head: nat, count: nat, w: Write)
    requires |slots| == QUEUE_CAPACITY && head < QUEUE_CAPACITY && count < QUEUE_CAPACITY
    ensures Ring(slots[(head + count) % QUEUE_CAPACITY := w], head, count + 1) == Ring(slots, head, count) + [w]
  {
  }

  lemma RingDequeue(slots: seq<Write>, head: nat, count: nat, w: Write)
    requires |slots| == QUEUE_CAPACITY && head < QUEUE_CAPACITY && 0 < count <= QUEUE_CAPACITY
    ensures Ring(slots[head := w], (head + 1) % QUEUE_CAPACITY, count - 1) == Ring(slots, head, count)[1..]
    ensures Ring(slots, head, count)[0] == slots[head]
  {
  }

  const BlankWrite: Write := Write(0, ZeroSector())

  class SdCard {
    var sectors: Card

    constructor (contents: Card)
      ensures sectors == contents
    {
      sectors := contents;
    }

    method WriteSector(target: nat, data: Sector)
      modifies this
      ensures sectors == Written(old(sectors), Write(target, data))
    {
      if target < |sectors| {
        sectors := sectors[target := data];
      }
    }
  }

  /** The counters and flags, one record replaced field by field. */
  datatype Registers = Registers(
    head: nat, count: nat, active: LogInfo, pageIndex: nat, pageValid: bool, nextSampleAt: uint64, captured: uint64,
    dropped: uint64, nextCheckpointAt: uint64, finishAfter: uint64, nextSector: uint32, nextLogId: uint32,
    generation: uint32, logCount: uint32, blockSequence: uint32, samplesInBlock: nat, status: Status,
    previousState: State, writeActive: bool, armedSeen: bool)

  class Recorder {
    const card: SdCard
    const firmware: Text
    const build: Text
    const queue: array<Write>
    const page: array<byte>
    const block: array<byte>
    var configuration: ConfigurationBytes
    var r: Registers
    ghost var startedAt: uint64
    ghost var taken: seq<Sample>
    ghost var issued: seq<Superblock>

    ghost predicate Valid()
      reads this
    {
      && queue.Length == QUEUE_CAPACITY && page.Length == SECTOR_SIZE && block.Length == SECTOR_SIZE && page != block
      && r.head < QUEUE_CAPACITY && r.count <= QUEUE_CAPACITY
    }

    ghost function View(): (s: Store)
      requires Valid()
      reads this, queue, page, block
    {
      Store(configuration, firmware, build, Ring(queue[..], r.head, r.count), r.active, page[..], r.pageIndex,
            r.pageValid, block[..], r.nextSampleAt, r.captured, r.dropped, r.nextCheckpointAt, r.finishAfter,
            r.nextSector, r.nextLogId, r.generation, r.logCount, r.blockSequence, r.samplesInBlock, r.status,
            r.previousState, r.writeActive, r.armedSeen, startedAt, taken, issued)
    }

    constructor (card: SdCard, configuration: ConfigurationBytes, firmware: Text, build: Text,
                 primaryRead: bool, backupRead: bool)
      requires |card.sectors| >= 2
      ensures Valid() && fresh(queue) && fresh(page) && fresh(block) && this.card == card
      ensures View() == Mount(card.sectors, configuration, firmware, build, primaryRead, backupRead)
    {
      this.card := card;
      this.firmware := firmware;
      this.build := build;
      this.configuration := configuration;
      queue := new Write[QUEUE_CAPACITY](i => BlankWrite);
      page := new byte[SECTOR_SIZE](i => 0);
      block := new byte[SECTOR_SIZE](i => 0);
      r := Registers(0, 0, NoLog, 0, false, 0, 0, 0, 0, 0, FIRST_DATA_SECTOR, 1, 0, 0, 0, 0, Uninitialized, Boot, false,
                     false);
      startedAt, taken, issued := 0, [], [];
      new;
      hide SuperblockValid, LoadSuperblock;
      var primary := primaryRead && SuperblockValid(card.sectors[0]);
      var backup := backupRead && SuperblockValid(card.sectors[1]);
      if primary || backup {
        var newest := if primary then card.sectors[0] else card.sectors[1];
        if primary && backup &&
           LoadSuperblock(card.sectors[1]).generation > LoadSuperblock(card.sectors[0]).generation {
          newest := card.sectors[1];
        }
        var super := LoadSuperblock(newest);
        r := r.(generation := super.generation, nextSector := super.nextSector, nextLogId := super.nextLogId,
                logCount := super.logCount, status := MountedStatus(super, |card.sectors|));
      }
      assert page[..] == ZeroSector() && block[..] == ZeroSector();
    }

    /* ---------------- queueing ---------------- */

    method QueueSector(target: nat, data: Sector) returns (ok: bool)
      requires Valid()
      modifies this, queue
      ensures Valid() && (View(), ok) == Enqueue(old(View()), target, data)
    {
      if r.count >= QUEUE_CAPACITY {
        return false;
      }
      RingEnqueue(queue[..], r.head, r.count, Write(target, data));
      queue[(r.head + r.count) % QUEUE_CAPACITY] := Write(target, data);
      r := r.(count := r.count + 1);
      return true;
    }

    method AllocateAndQueue(data: Sector) returns (ok: bool)
      requires Valid()
      modifies this, queue
      ensures Valid() && (View(), ok) == Allocate(old(View()), |card.sectors|, data)
    {
      if r.nextSector >= |card.sectors| {
        return false;
      }
      ok := QueueSector(r.nextSector, data);
      if ok {
        r := r.(active := r.active.(endSector := r.nextSector), nextSector := (r.nextSector + 1) % MASK32);
      }
    }

    method EnqueueSuperblocks() returns (ok: bool)
      requires Valid()
      modifies this, queue
      ensures Valid() && (View(), ok) == Spec.EnqueueSuperblocks(old(View()))
    {
      hide Enqueue, BuildSuperblock;
      var data := BuildSuperblockBuffer(Superblock(r.generation, r.nextSector, r.nextLogId, r.logCount));
      issued := issued + [Snapshot(View())];
      ok := QueueSector(0, data);
      if ok {
        ok := QueueSector(1, data);
      }
    }

    method EnqueueMetadata() returns (ok: bool)
      requires Valid() && r.logCount > 0
      modifies this, queue, page
      ensures Valid() && (View(), ok) == Spec.EnqueueMetadata(old(View()))
    {
      hide Enqueue, Spec.EnqueueSuperblocks, Seal, Put, Pack;
      WriteWords(EntryWords(r.active), page, EntryOffset(SlotOf(r.logCount - 1)));
      PutU32(page, 12, EntriesOnPage(r.logCount));
      SealBuffer(page);
      ok := QueueSector(FIRST_CATALOG_SECTOR + r.pageIndex, page[..]);
      if ok {
        ok := EnqueueSuperblocks();
      }
    }

    /* ---------------- blocks ---------------- */

    method AppendBlock(buffer: array<byte>, kind: Kind, items: Kind, length: Length) returns (ok: bool)
      requires Valid() && buffer.Length == SECTOR_SIZE && buffer != page && buffer != block
      modifies this, queue, buffer
      ensures Valid() && (View(), ok) == Spec.AppendBlock(old(View()), |card.sectors|, old(buffer[..]), kind, items,
              length)
    {
      hide Finalize, Allocate;
      FinalizeBlock(buffer, kind, r.active.id, r.blockSequence, items, length);
      r := r.(blockSequence := (r.blockSequence + 1) % MASK32);
      ok := AllocateAndQueue(buffer[..]);
    }

    method AppendConfiguration() returns (ok: bool)
      requires Valid()
      modifies this, queue
      ensures Valid() && (View(), ok) == Spec.AppendConfiguration(old(View()), |card.sectors|, 0, 0)
    {
      hide Spec.AppendBlock, WithPayload;
      var offset, chunk := 0, 0;
      while offset < |configuration|
        invariant Valid() && offset <= |configuration| && configuration == old(configuration)
        invariant card.sectors == old(card.sectors) && unchanged(page) && unchanged(block)
        invariant Spec.AppendConfiguration(View(), |card.sectors|, offset, chunk) ==
                  Spec.AppendConfiguration(old(View()), |card.sectors|, 0, 0)
      {
        var length := Min(|configuration| - offset, PAYLOAD_CAPACITY);
        var buffer := PayloadBuffer(configuration[offset..offset + length]);
        ok := AppendBlock(buffer, CONFIGURATION, chunk % 0x1_0000, length);
        if !ok {
          return;
        }
        offset, chunk := offset + length, chunk + 1;
      }
      return true;
    }

    /** Finalizes the samples waiting in the block, in place, and queues it. */
    method WriteSamples() returns (ok: bool)
      requires Valid() && 0 < r.samplesInBlock <= SAMPLES_PER_BLOCK
      modifies this, queue, block
      ensures Valid()
      ensures block[..] == Finalize(old(block[..]), SAMPLES, old(r.active.id), old(r.blockSequence),
                                    old(r.samplesInBlock), old(r.samplesInBlock) * SAMPLE_SIZE)
      ensures var s := old(View());
              var appended := Spec.AppendBlock(s, |card.sectors|, s.block, SAMPLES, s.samplesInBlock,
                                               s.samplesInBlock * SAMPLE_SIZE);
              ok == appended.1 && View() == appended.0.(block := block[..])
    {
      hide Finalize, Ring;
      FinalizeBlock(block, SAMPLES, r.active.id, r.blockSequence, r.samplesInBlock, r.samplesInBlock * SAMPLE_SIZE);
      r := r.(blockSequence := (r.blockSequence + 1) % MASK32);
      ok := AllocateAndQueue(block[..]);
    }

    method FlushSamples() returns (ok: bool)
      requires Valid() && r.samplesInBlock <= SAMPLES_PER_BLOCK
      modifies this, queue, block
      ensures Valid() && (View(), ok) == Spec.FlushSamples(old(View()), |card.sectors|)
    {
      hide Finalize, Ring, Spec.AppendBlock, ZeroSector;
      if r.samplesInBlock == 0 {
        return true;
      }
      ok := WriteSamples();
      if ok {
        r := r.(samplesInBlock := 0);
        Clear(block);
      }
    }

    /* ---------------- the catalogue page ---------------- */

    method LoadPage(index: nat, reply: ReadReply) returns (ok: bool)
      requires Valid()
      modifies this, page
      ensures Valid() && (View(), ok) == Spec.LoadPage(old(View()), card.sectors, index, reply)
    {
      hide Put;
      if r.pageValid && r.pageIndex == index {
        return true;
      }
      if reply.ReadFailed? {
        Overwrite(reply.scrap);
        r := r.(pageValid := false);
        return false;
      }
      if FIRST_CATALOG_SECTOR + index >= |card.sectors| {
        r := r.(pageValid := false);
        return false;
      }
      var data := card.sectors[FIRST_CATALOG_SECTOR + index];
      Overwrite(data);
      if !PageValid(data, index) {
        r := r.(pageValid := false);
        return false;
      }
      r := r.(pageIndex := index, pageValid := true);
      return true;
    }

    method Overwrite(data: Sector)
      requires Valid()
      modifies page
      ensures page[..] == data
    {
      CopyInto(page, 0, data);
      assert page[..] == data;
    }

    method PreparePage(reply: ReadReply) returns (ok: bool)
      requires Valid() && r.logCount < LOG_CAPACITY
      modifies this, page
      ensures Valid() && (View(), ok) == Spec.PreparePage(old(View()), card.sectors, reply)
    {
      hide Put, Pack, Spec.LoadPage;
      var index := r.logCount / ENTRIES_PER_PAGE;
      if r.logCount % ENTRIES_PER_PAGE == 0 {
        Clear(page);
        WriteWords([CATALOG_MAGIC, FORMAT_VERSION, index], page, 0);
        r := r.(pageIndex := index, pageValid := true);
        return true;
      }
      ok := LoadPage(index, reply);
    }

    /* ---------------- starting, checkpointing, finishing ---------------- */

    method OpenNextLog()
      requires Valid() && r.logCount < LOG_CAPACITY
      modifies this
      ensures Valid() && View() == OpenLog(old(View()))
    {
      taken := [];
      r := r.(captured := 0, dropped := 0, active := NoLog.(id := r.nextLogId, startSector := r.nextSector),
              logCount := r.logCount + 1,
              nextLogId := if r.nextLogId < UINT32_MAX then r.nextLogId + 1 else r.nextLogId);
    }

    method WriteOpening(timestamp: uint64) returns (ok: bool)
      requires Valid()
      modifies this, queue
      ensures Valid() && (View(), ok) == Spec.WriteOpening(old(View()), |card.sectors|, timestamp)
    {
      hide Spec.AppendBlock, Spec.AppendConfiguration, WithPayload, HeaderPayload;
      var buffer := PayloadBuffer(HeaderPayloadOf(timestamp));
      ok := AppendBlock(buffer, FLIGHT_HEADER, 1, 68);
      if ok {
        ok := AppendConfiguration();
      }
    }

    function HeaderPayloadOf(timestamp: uint64): (b: Buffer)
      reads this, queue, page, block
      requires Valid()
      ensures b == HeaderPayload(View(), timestamp) && |b| == 68
    {
      U32(SAMPLE_INTERVAL_US) + U32(|configuration|) + U32(Crc32(configuration)) + U64(timestamp)
      + Padded(firmware, 16) + Padded(build, 32)
    }

    method Begin(timestamp: uint64)
      requires Valid()
      modifies this
      ensures Valid() && View() == BeginRecording(old(View()), timestamp)
    {
      startedAt := timestamp;
      r := r.(nextSampleAt := timestamp, nextCheckpointAt := CHECKPOINT_SAMPLE_INTERVAL, samplesInBlock := 0,
              armedSeen := false, finishAfter := 0, status := Recording);
    }

    method AdvanceGeneration()
      requires Valid()
      modifies this
      ensures Valid() && View() == NextGeneration(old(View()))
    {
      r := r.(generation := (r.generation + 1) % MASK32);
    }

    method StartFlight(timestamp: uint64, reply: ReadReply) returns (ok: bool)
      requires Valid()
      modifies this, queue, page
      ensures Valid() && (View(), ok) == Spec.StartFlight(old(View()), card.sectors, timestamp, reply)
    {
      hide Spec.PreparePage, Spec.WriteOpening, Spec.EnqueueMetadata, BeginRecording;
      if r.logCount >= LOG_CAPACITY || r.nextSector >= |card.sectors| || r.count != 0 {
        assert r.count != 0 ==> View().queue != [];
        return false;
      }
      assert View().queue == [];
      ok := PreparePage(reply);
      if !ok {
        return;
      }
      OpenNextLog();
      ok := WriteOpening(timestamp);
      if !ok {
        return;
      }
      AdvanceGeneration();
      assert r.logCount == View().logCount;
      ok := EnqueueMetadata();
      if ok {
        Begin(timestamp);
      }
    }

    method Checkpoint()
      requires Valid() && r.logCount > 0
      modifies this, queue, page
      ensures Valid() && View() == Spec.Checkpoint(old(View()))
    {
      hide Spec.EnqueueMetadata;
      if r.captured < r.nextCheckpointAt || r.count > QUEUE_CAPACITY - 3 {
        return;
      }
      r := r.(active := r.active.(samples := r.captured % MASK32, dropped := r.dropped % MASK32));
      AdvanceGeneration();
      var ok := EnqueueMetadata();
      if ok {
        r := r.(nextCheckpointAt := (r.nextCheckpointAt + CHECKPOINT_SAMPLE_INTERVAL) % MASK64);
      }
    }

    method WriteFooter(timestamp: uint64, state: State) returns (ok: bool)
      requires Valid()
      modifies this, queue
      ensures Valid()
      ensures (View(), ok) ==
              Spec.AppendBlock(old(View()), |card.sectors|, WithPayload(FooterPayload(old(View()), timestamp, state)),
                               FLIGHT_FOOTER, 1, 20)
    {
      hide Spec.AppendBlock, WithPayload, U32, U64;
      var payload := U64(timestamp) + U32(r.captured % MASK32) + U32(r.dropped % MASK32) + U32(StateCode(state));
      var buffer := PayloadBuffer(payload);
      ok := AppendBlock(buffer, FLIGHT_FOOTER, 1, 20);
    }

    method CloseLog() returns (ok: bool)
      requires Valid() && r.logCount > 0
      modifies this, queue, page
      ensures Valid()
      ensures (View(), ok) ==
              Spec.EnqueueMetadata(NextGeneration(old(View()).(
                active := old(View()).active.(samples := old(r.captured) % MASK32, dropped := old(r.dropped) % MASK32,
                                              complete := true))))
    {
      hide Spec.EnqueueMetadata;
      r := r.(active := r.active.(samples := r.captured % MASK32, dropped := r.dropped % MASK32, complete := true));
      AdvanceGeneration();
      ok := EnqueueMetadata();
    }

    method SetStatus(status: Status)
      requires Valid()
      modifies this
      ensures Valid() && View() == old(View()).(status := status)
    {
      r := r.(status := status);
    }

    method FinishFlight(timestamp: uint64, state: State)
      requires Valid() && r.samplesInBlock <= SAMPLES_PER_BLOCK && r.logCount > 0
      modifies this, queue, page, block
      ensures Valid() && View() == Spec.FinishFlight(old(View()), |card.sectors|, timestamp, state)
    {
      hide Spec.FlushSamples, Spec.AppendBlock, Spec.EnqueueMetadata, WithPayload, FooterPayload, Ring;
      var ok := FlushSamples();
      if !ok {
        SetStatus(Error);
        return;
      }
      assert r.logCount == View().logCount;
      ok := WriteFooter(timestamp, state);
      assert r.logCount == View().logCount;
      if !ok {
        SetStatus(Error);
        return;
      }
      ok := CloseLog();
      SetStatus(if ok then Finishing else Error);
    }

    /* ---------------- sampling ---------------- */

    method StoreSample(sample: Sample)
      requires Valid() && r.samplesInBlock < SAMPLES_PER_BLOCK
      modifies this, block
      ensures Valid()
      ensures View() ==
              var s := old(View());
              s.(block := Put(s.block, HEADER_SIZE + s.samplesInBlock * SAMPLE_SIZE,
                              EncodeSample(sample, (s.captured + 1) % MASK32)),
                 samplesInBlock := s.samplesInBlock + 1, captured := (s.captured + 1) % MASK64,
                 taken := s.taken + [sample])
    {
      hide EncodeSample, Put;
      EncodeInto(sample, (r.captured + 1) % MASK32, block, HEADER_SIZE + r.samplesInBlock * SAMPLE_SIZE);
      taken := taken + [sample];
      r := r.(samplesInBlock := r.samplesInBlock + 1, captured := (r.captured + 1) % MASK64);
    }

    method TakeSample(sample: Sample)
      requires Valid() && r.samplesInBlock < SAMPLES_PER_BLOCK && r.logCount > 0
      modifies this, queue, page, block
      ensures Valid() && View() == Spec.TakeSample(old(View()), |card.sectors|, sample)
    {
      hide Spec.FlushSamples, Spec.Checkpoint, EncodeSample, Put;
      if r.count >= QUEUE_CAPACITY - 4 {
        CountDropped(1);
        return;
      }
      StoreSample(sample);
      if r.samplesInBlock >= SAMPLES_PER_BLOCK {
        var ok := FlushSamples();
        if !ok {
          SetStatus(Error);
          return;
        }
        assert r.logCount == View().logCount;
      }
      Checkpoint();
    }

    method CountDropped(count: uint64)
      requires Valid()
      modifies this
      ensures Valid() && View() == AddDropped(old(View()), count)
    {
      var remaining := UINT64_MAX - r.dropped;
      r := r.(dropped := if count > remaining then UINT64_MAX else r.dropped + count);
    }

    method ObserveState(state: State, timestamp: uint64)
      requires Valid()
      modifies this
      ensures Valid() && View() == TrackState(old(View()), state, timestamp)
    {
      if state == Armed {
        r := r.(armedSeen := true, finishAfter := 0);
      } else if r.armedSeen && state == Disarmed && r.finishAfter == 0 {
        r := r.(finishAfter :=
                  if timestamp <= UINT64_MAX - POST_DISARM_DURATION_US then timestamp + POST_DISARM_DURATION_US
                  else UINT64_MAX);
      }
    }

    method TimeSample(sample: Sample) returns (periods: nat, stops: bool)
      requires Valid()
      modifies this
      ensures Valid() && View() == Timed(old(View()), sample)
      ensures periods == Releases(old(View()), sample).0 && stops == Closes(old(View()), sample)
    {
      hide PeriodsDue;
      var changed := sample.state != r.previousState;
      ObserveState(sample.state, sample.timestamp);
      stops := sample.state == Fault || (r.finishAfter != 0 && sample.timestamp >= r.finishAfter);
      var (due, next) :=
        PeriodsDue(r.nextSampleAt, sample.timestamp, IntervalFor(r.finishAfter, sample.state), changed);
      r := r.(nextSampleAt := next);
      periods := due;
    }

    method DueSample(sample: Sample) returns (stops: bool)
      requires Valid() && r.samplesInBlock < SAMPLES_PER_BLOCK && r.logCount > 0
      modifies this, queue, page, block
      ensures Valid() && View() == Sampled(old(View()), |card.sectors|, sample) && stops == Closes(old(View()), sample)
    {
      hide Spec.TakeSample, Timed, Closes, Releases;
      var periods;
      periods, stops := TimeSample(sample);
      if periods > 1 {
        CountDropped(periods - 1);
      }
      if periods > 0 || stops {
        assert r.logCount == View().logCount && r.samplesInBlock == View().samplesInBlock;
        TakeSample(sample);
      }
    }

    method RecordSample(sample: Sample)
      requires Valid() && r.samplesInBlock < SAMPLES_PER_BLOCK && r.logCount > 0 && r.status == Recording
      modifies this, queue, page, block
      ensures Valid() && View() == Spec.RecordSample(old(View()), |card.sectors|, sample)
    {
      hide Sampled, Spec.FinishFlight, Closes;
      var stops := DueSample(sample);
      if r.status == Error {
        return;
      }
      if stops {
        assert r.logCount == View().logCount && r.samplesInBlock == View().samplesInBlock;
        FinishFlight(sample.timestamp, sample.state);
      }
      r := r.(previousState := sample.state);
    }

    method Capture(sample: Sample, reply: ReadReply)
      requires Valid() && (r.status == Recording ==> r.samplesInBlock < SAMPLES_PER_BLOCK && r.logCount > 0)
      modifies this, queue, page, block
      ensures Valid() && View() == Spec.Capture(old(View()), card.sectors, sample, reply)
    {
      hide Spec.StartFlight, Spec.RecordSample, Ring;
      if r.status == Ready {
        if sample.state == Fault {
          return;
        }
        r := r.(blockSequence := 0);
        var ok := StartFlight(sample.timestamp, reply);
        if !ok {
          assert r.logCount == View().logCount && r.nextSector == View().nextSector;
          SetStatus(if r.logCount >= LOG_CAPACITY || r.nextSector >= |card.sectors| then Full else Error);
          return;
        }
      }
      if r.status == Recording {
        RecordSample(sample);
      }
    }

    method FinishRecording(timestamp: uint64, state: State)
      requires Valid() && (r.status == Recording ==> r.samplesInBlock < SAMPLES_PER_BLOCK && r.logCount > 0)
      modifies this, queue, page, block
      ensures Valid() && View() == Spec.FinishRecording(old(View()), |card.sectors|, timestamp, state)
    {
      hide Spec.FinishFlight;
      if r.status == Recording {
        FinishFlight(timestamp, state);
      }
    }

    /* ---------------- the card side ---------------- */

    method Service(reply: CardReply)
      requires Valid()
      modifies this, queue, card
      ensures Valid() && (View(), card.sectors) == Spec.Service(old(View()), old(card.sectors), reply)
    {
      if r.count == 0 || r.status == Error {
        if r.status == Finishing && r.count == 0 {
          r := r.(status := Ready, armedSeen := false);
        }
        return;
      }
      assert View().queue != [];
      if reply == CardBusy {
        return;
      }
      if reply == CardFailed {
        r := r.(writeActive := false, status := Error);
        return;
      }
      if !r.writeActive {
        r := r.(writeActive := true);
        return;
      }
      RingDequeue(queue[..], r.head, r.count, BlankWrite);
      var head := queue[r.head];
      card.WriteSector(head.target, head.data);
      queue[r.head] := BlankWrite;
      r := r.(writeActive := false, head := (r.head + 1) % QUEUE_CAPACITY, count := r.count - 1);
      if r.status == Finishing && r.count == 0 {
        r := r.(status := Ready, armedSeen := false);
      }
    }

    method SetConfiguration(bytes: ConfigurationBytes) returns (accepted: bool)
      requires Valid()
      modifies this
      ensures Valid() && View() == Spec.SetConfiguration(old(View()), bytes)
      ensures accepted <==> r.status == NoMedia || r.status == Uninitialized || r.status == Ready
    {
      if r.status != NoMedia && r.status != Uninitialized && r.status != Ready {
        return false;
      }
      configuration := bytes;
      return true;
    }

    method Format(firstWritten: bool, secondWritten: bool) returns (ok: bool)
      requires Valid() && |card.sectors| >= 2
      modifies this, queue, page, card
      ensures Valid()
      ensures (View(), card.sectors, ok) == Spec.Format(old(View()), old(card.sectors), firstWritten, secondWritten)
    {
      hide BuildSuperblock, Put;
      if r.status == NoMedia || r.status == Recording || r.status == Finishing {
        return false;
      }
      Clear(page);
      r := r.(active := NoLog, head := 0, count := 0, pageValid := false, writeActive := false, logCount := 0,
              nextSector := FIRST_DATA_SECTOR, nextLogId := 1);
      AdvanceGeneration();
      var data := BuildSuperblockBuffer(Superblock(r.generation, r.nextSector, r.nextLogId, r.logCount));
      issued := issued + [Snapshot(View())];
      if !firstWritten {
        r := r.(status := Error);
        return false;
      }
      card.WriteSector(0, data);
      if !secondWritten {
        r := r.(status := Error);
        return false;
      }
      card.WriteSector(1, data);
      r := r.(status := Ready);
      return true;
    }

    method Inspect(index: nat, reply: ReadReply) returns (entry: Option<LogInfo>)
      requires Valid()
      modifies this, page
      ensures Valid() && (View(), entry) == Spec.Inspect(old(View()), card.sectors, index, reply)
    {
      hide Spec.LoadPage, EntryOf;
      if index >= r.logCount {
        return None;
      }
      if r.status == Recording && index == r.logCount - 1 {
        return Some(r.active);
      }
      var ok := LoadPage(index / ENTRIES_PER_PAGE, reply);
      if !ok {
        return None;
      }
      var e := EntryOf(page[..], SlotOf(index));
      if e.id == 0 || e.startSector < FIRST_DATA_SECTOR || e.endSector < e.startSector
          || e.endSector >= |card.sectors| {
        return None;
      }
      return Some(e);
    }
  }
}
