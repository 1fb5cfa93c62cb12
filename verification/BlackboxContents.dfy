/** What the host reads back from a completed log: exactly what was recorded. */
module BlackboxContents {
  import opened Counters
  import opened SystemState
  import opened Bytes
  import opened BlackboxFormat
  import opened BlackboxSamples
  import opened BlackboxDecoder
  import opened BlackboxStore
  import opened BlackboxCard
  import opened BlackboxCrash

  /* ---------------- the blocks of the active log ---------------- */

  /** Once the queued writes are done, the active log's sectors parse to these blocks. */
  ghost predicate BlocksAre(s: Store, card: Card, blocks: seq<Block>) {
    && Geometry(|card|) && FIRST_DATA_SECTOR <= s.active.startSector <= s.nextSector <= |card|
    && ParseAll(Applied(card, s.queue)[s.active.startSector..s.nextSector]) == Some(blocks)
  }

  function NewBlock(s: Store, buffer: Sector, kind: Kind, items: Kind, length: Length): (b: Block) {
    Block(FORMAT_VERSION, kind, s.active.id, s.blockSequence, items, buffer[HEADER_SIZE..HEADER_SIZE + length])
  }

  lemma ParsedMore(sectors: seq<Sector>, data: Sector, blocks: seq<Block>, b: Block)
    requires ParseAll(sectors) == Some(blocks) && ParseBlock(data) == Some(b)
    ensures ParseAll(sectors + [data]) == Some(blocks + [b])
  {
    hide ParseBlock;
    assert (sectors + [data])[..|sectors|] == sectors;
  }

  lemma AppendedBlock(s: Store, card: Card, blocks: seq<Block>, buffer: Sector, kind: Kind, items: Kind, length: Length)
    requires BlocksAre(s, card, blocks)
    ensures var (r, ok) := AppendBlock(s, |card|, buffer, kind, items, length);
            ok ==> BlocksAre(r, card, blocks + [NewBlock(s, buffer, kind, items, length)])
  {
    hide ParseBlock, Finalize, ParseAll, Applied;
    var (r, ok) := AppendBlock(s, |card|, buffer, kind, items, length);
    if ok {
      var v := Applied(card, s.queue);
      var data := Finalize(buffer, kind, s.active.id, s.blockSequence, items, length);
      FinalizeParses(buffer, kind, s.active.id, s.blockSequence, items, length);
      LastApplied(card, s.queue, Write(s.nextSector, data));
      assert v[s.nextSector := data][s.active.startSector..s.nextSector + 1] ==
             v[s.active.startSector..s.nextSector] + [data];
      ParsedMore(v[s.active.startSector..s.nextSector], data, blocks, NewBlock(s, buffer, kind, items, length));
    }
  }

  lemma EnqueuedElsewhere(s: Store, card: Card, blocks: seq<Block>, target: nat, data: Sector)
    requires BlocksAre(s, card, blocks) && target < FIRST_DATA_SECTOR
    ensures BlocksAre(Enqueue(s, target, data).0, card, blocks)
  {
    hide ParseAll, Applied;
    if |s.queue| < QUEUE_CAPACITY {
      var v := Applied(card, s.queue);
      LastApplied(card, s.queue, Write(target, data));
      assert v[target := data][s.active.startSector..s.nextSector] == v[s.active.startSector..s.nextSector];
    }
  }

  lemma MetadataKeepsBlocks(s: Store, card: Card, blocks: seq<Block>)
    requires BlocksAre(s, card, blocks) && s.logCount > 0 && s.pageIndex < CATALOG_PAGE_COUNT
    ensures BlocksAre(EnqueueMetadata(s).0, card, blocks)
  {
    hide BlocksAre, BuildSuperblock, SealPage, PutEntry;
    var page := MetadataPage(s);
    var paged := s.(page := page);
    SameBlocks(s, paged, card, blocks);
    EnqueuedElsewhere(paged, card, blocks, FIRST_CATALOG_SECTOR + s.pageIndex, page);
    var queued := Enqueue(paged, FIRST_CATALOG_SECTOR + s.pageIndex, page).0;
    var noted := queued.(issued := queued.issued + [Snapshot(queued)]);
    SameBlocks(queued, noted, card, blocks);
    var data := BuildSuperblock(Snapshot(queued));
    EnqueuedElsewhere(noted, card, blocks, 0, data);
    EnqueuedElsewhere(Enqueue(noted, 0, data).0, card, blocks, 1, data);
  }

  lemma SameBlocks(s: Store, r: Store, card: Card, blocks: seq<Block>)
    requires BlocksAre(s, card, blocks)
    requires r.queue == s.queue && r.nextSector == s.nextSector && r.active.startSector == s.active.startSector
    ensures BlocksAre(r, card, blocks)
  {
  }

  /* ---------------- what they hold ---------------- */

  function ShownAll(samples: seq<Sample>): (d: seq<Decoded>) {
    seq(|samples|, i requires 0 <= i < |samples| => Shown(samples[i], (i + 1) % MASK32))
  }

  /** The blocks hold the header, the first part of the configuration and the first of the samples. */
  ghost predicate Content(s: Store, blocks: seq<Block>, timestamp: uint64, configured: nat, stored: nat) {
    && blocks != [] && blocks[0].kind == FLIGHT_HEADER && blocks[0].payload == HeaderPayload(s, timestamp)
    && (forall i | 0 <= i < |blocks| :: blocks[i].version == FORMAT_VERSION && blocks[i].logId == s.active.id)
    && configured <= |s.configuration| && ConfigurationIn(blocks) == s.configuration[..configured]
    && LastOfKind(blocks, FLIGHT_FOOTER) == None
    && FirstOfKind(blocks, FLIGHT_HEADER) == Some(blocks[0])
    && stored <= |s.taken| && LogSamples(blocks, 2) == Some(ShownAll(s.taken[..stored]))
  }

  /** The block buffer holds the samples not yet queued. */
  ghost predicate Pending(s: Store) {
    && s.samplesInBlock <= SAMPLES_PER_BLOCK && s.samplesInBlock <= |s.taken|
    && s.captured == |s.taken| % MASK64
    && forall k | 0 <= k < s.samplesInBlock ::
         PendingAt(s, k)
  }

  ghost predicate PendingAt(s: Store, k: nat)
    requires k < s.samplesInBlock <= SAMPLES_PER_BLOCK && s.samplesInBlock <= |s.taken|
  {
    var i := |s.taken| - s.samplesInBlock + k;
    s.block[HEADER_SIZE + k * SAMPLE_SIZE..HEADER_SIZE + (k + 1) * SAMPLE_SIZE] ==
    EncodeSample(s.taken[i], (i + 1) % MASK32)
  }

  ghost predicate Holds(s: Store, card: Card, blocks: seq<Block>) {
    && BlocksAre(s, card, blocks)
    && Pending(s)
    && Content(s, blocks, s.startedAt, |s.configuration|, |s.taken| - s.samplesInBlock)
  }

  /* ---------------- opening ---------------- */

  lemma PayloadInBuffer(payload: Buffer)
    requires |payload| <= PAYLOAD_CAPACITY
    ensures WithPayload(payload)[HEADER_SIZE..HEADER_SIZE + |payload|] == payload
  {
  }

  lemma NoSamples(samples: seq<Sample>)
    ensures ShownAll(samples[..0]) == []
  {
  }

  lemma {:induction false} ConfigurationContent(s: Store, card: Card, blocks: seq<Block>, timestamp: uint64,
                                                offset: nat, chunk: nat)
    requires BlocksAre(s, card, blocks) && Content(s, blocks, timestamp, offset, 0)
    ensures var (r, ok) := AppendConfiguration(s, |card|, offset, chunk);
            ok ==> exists all :: BlocksAre(r, card, all) && Content(r, all, timestamp, |s.configuration|, 0)
    decreases |s.configuration| - offset
  {
    hide BlocksAre, HeaderPayload, LogSamples, ConfigurationIn, LastOfKind, FirstOfKind, WithPayload, AppendBlock,
        ShownAll;
    if offset == |s.configuration| {
      assert BlocksAre(s, card, blocks);
    } else {
      var length := Min(|s.configuration| - offset, PAYLOAD_CAPACITY);
      var payload := s.configuration[offset..offset + length];
      var buffer := WithPayload(payload);
      var (appended, ok) := AppendBlock(s, |card|, buffer, CONFIGURATION, chunk % 0x1_0000, length);
      if ok {
        AppendedBlock(s, card, blocks, buffer, CONFIGURATION, chunk % 0x1_0000, length);
        PayloadInBuffer(payload);
        var b := NewBlock(s, buffer, CONFIGURATION, chunk % 0x1_0000, length);
        OneMoreBlock(blocks, b);
        SameHeader(s, appended, timestamp);
        assert s.configuration[..offset] + payload == s.configuration[..offset + length];
        AppendedFields(s, card, buffer, CONFIGURATION, chunk % 0x1_0000, length);
        assert Content(appended, blocks + [b], timestamp, offset + length, 0);
        ConfigurationContent(appended, card, blocks + [b], timestamp, offset + length, chunk + 1);
      }
    }
  }

  lemma SameHeader(s: Store, r: Store, timestamp: uint64)
    requires r.configuration == s.configuration && r.firmware == s.firmware && r.build == s.build
    ensures HeaderPayload(r, timestamp) == HeaderPayload(s, timestamp)
  {
  }

  lemma AppendedFields(s: Store, card: Card, buffer: Sector, kind: Kind, items: Kind, length: Length)
    ensures var r := AppendBlock(s, |card|, buffer, kind, items, length).0;
            r.active.id == s.active.id && r.active.startSector == s.active.startSector
  {
    hide Finalize;
  }

  lemma OpeningContent(s: Store, card: Card, timestamp: uint64)
    requires BlocksAre(s, card, []) && s.taken == []
    ensures var (r, ok) := WriteOpening(s, |card|, timestamp);
            ok ==> exists all :: BlocksAre(r, card, all) && Content(r, all, timestamp, |s.configuration|, 0)
  {
    hide BlocksAre, HeaderPayload, WithPayload, AppendBlock, AppendConfiguration, Content;
    var payload := HeaderPayload(s, timestamp);
    var buffer := WithPayload(payload);
    var (headed, ok) := AppendBlock(s, |card|, buffer, FLIGHT_HEADER, 1, 68);
    if ok {
      AppendedBlock(s, card, [], buffer, FLIGHT_HEADER, 1, 68);
      PayloadInBuffer(payload);
      AppendedFields(s, card, buffer, FLIGHT_HEADER, 1, 68);
      SameHeader(s, headed, timestamp);
      var b := NewBlock(s, buffer, FLIGHT_HEADER, 1, 68);
      HeaderContent(headed, b, timestamp);
      assert [] + [b] == [b];
      ConfigurationContent(headed, card, [b], timestamp, 0, 0);
    }
  }

  lemma HeaderContent(s: Store, b: Block, timestamp: uint64)
    requires b.kind == FLIGHT_HEADER && b.payload == HeaderPayload(s, timestamp) && b.version == FORMAT_VERSION
    requires b.logId == s.active.id && s.taken == []
    ensures Content(s, [b], timestamp, 0, 0)
  {
    hide HeaderPayload, LogSamples, ConfigurationIn, LastOfKind, FirstOfKind, ShownAll;
    HeaderAlone(b);
    assert s.taken[..0] == [];
    NoSamples(s.taken);
    assert s.configuration[..0] == [];
  }

  lemma HeaderAlone(b: Block)
    requires b.kind == FLIGHT_HEADER
    ensures ConfigurationIn([b]) == [] && LogSamples([b], 2) == Some([]) && LastOfKind([b], FLIGHT_FOOTER) == None
    ensures FirstOfKind([b], FLIGHT_HEADER) == Some(b)
  {
    hide PayloadSamples;
    var none: seq<Block> := [];
    assert none + [b] == [b];
    OneMoreBlock(none, b);
  }

  /* ---------------- samples ---------------- */

  lemma DecodedSlot(payload: Buffer, k: nat, sample: Sample, sequence: uint32)
    requires (k + 1) * SAMPLE_SIZE <= |payload|
    requires payload[k * SAMPLE_SIZE..(k + 1) * SAMPLE_SIZE] == EncodeSample(sample, sequence)
    ensures DecodeSample(Clip(payload, k * SampleSize(2), (k + 1) * SampleSize(2)), 2) == Some(Shown(sample, sequence))
  {
    hide EncodeSample, DecodeSample, Shown;
    SampleRoundTrip(sample, sequence);
  }

  lemma NoPayloadSamples(payload: Buffer)
    ensures PayloadSamples(payload, 0, 2) == Some([])
  {
  }

  lemma OneMoreSample(payload: Buffer, k: nat, before: seq<Decoded>, d: Decoded)
    requires PayloadSamples(payload, k, 2) == Some(before)
    requires DecodeSample(Clip(payload, k * SampleSize(2), (k + 1) * SampleSize(2)), 2) == Some(d)
    ensures PayloadSamples(payload, k + 1, 2) == Some(before + [d])
  {
    hide DecodeSample, Clip, SampleSize;
  }

  lemma PendingDecodes(s: Store)
    requires Pending(s) && s.samplesInBlock > 0
    ensures var payload := s.block[HEADER_SIZE..HEADER_SIZE + s.samplesInBlock * SAMPLE_SIZE];
            var stored := |s.taken| - s.samplesInBlock;
            PayloadSamples(payload, s.samplesInBlock, 2) ==
            Some(ShownAll(s.taken)[stored..])
  {
    hide EncodeSample, DecodeSample, Shown, Clip, PayloadSamples;
    var payload := s.block[HEADER_SIZE..HEADER_SIZE + s.samplesInBlock * SAMPLE_SIZE];
    var stored := |s.taken| - s.samplesInBlock;
    assert PendingAt(s, 0);
    assert payload[0 * SAMPLE_SIZE..1 * SAMPLE_SIZE] == s.block[HEADER_SIZE..HEADER_SIZE + SAMPLE_SIZE];
    DecodedSlot(payload, 0, s.taken[stored], (stored + 1) % MASK32);
    var first := Shown(s.taken[stored], (stored + 1) % MASK32);
    NoPayloadSamples(payload);
    OneMoreSample(payload, 0, [], first);
    assert [] + [first] == [first];
    if s.samplesInBlock == 2 {
      assert PendingAt(s, 1);
      assert payload[1 * SAMPLE_SIZE..2 * SAMPLE_SIZE] ==
             s.block[HEADER_SIZE + SAMPLE_SIZE..HEADER_SIZE + 2 * SAMPLE_SIZE];
      DecodedSlot(payload, 1, s.taken[stored + 1], (stored + 2) % MASK32);
      var second := Shown(s.taken[stored + 1], (stored + 2) % MASK32);
      OneMoreSample(payload, 1, [first], second);
      assert [first] + [second] == [first, second];
      assert ShownAll(s.taken)[stored..] == [first, second];
    } else {
      assert ShownAll(s.taken)[stored..] == [first];
    }
  }

  lemma FlushContent(s: Store, card: Card, blocks: seq<Block>)
    requires Holds(s, card, blocks)
    ensures var (r, ok) := FlushSamples(s, |card|);
            ok ==> r.samplesInBlock == 0 && r.active.id == s.active.id &&
                   r.active.startSector == s.active.startSector &&
                   exists all :: Holds(r, card, all)
  {
    hide BlocksAre, HeaderPayload, LogSamples, ConfigurationIn, LastOfKind, FirstOfKind, AppendBlock, ShownAll;
    hide PayloadSamples, PendingAt;
    var (r, ok) := FlushSamples(s, |card|);
    if s.samplesInBlock == 0 {
      assert Holds(r, card, blocks);
    } else if ok {
      var count := s.samplesInBlock;
      var flushed := AppendBlock(s, |card|, s.block, SAMPLES, count, count * SAMPLE_SIZE).0;
      AppendedBlock(s, card, blocks, s.block, SAMPLES, count, count * SAMPLE_SIZE);
      AppendedFields(s, card, s.block, SAMPLES, count, count * SAMPLE_SIZE);
      var b := NewBlock(s, s.block, SAMPLES, count, count * SAMPLE_SIZE);
      PendingDecodes(s);
      OneMoreBlock(blocks, b);
      SameHeader(s, r, s.startedAt);
      SameBlocks(flushed, r, card, blocks + [b]);
      ShownPrefix(s.taken, |s.taken| - count);
      assert s.taken[..|s.taken|] == s.taken;
      assert Content(r, blocks + [b], r.startedAt, |r.configuration|, |r.taken|);
      assert Holds(r, card, blocks + [b]);
    }
  }

  lemma ShownPrefix(samples: seq<Sample>, stored: nat)
    requires stored <= |samples|
    ensures ShownAll(samples[..stored]) + ShownAll(samples)[stored..] == ShownAll(samples)
  {
    hide Shown;
  }

  lemma CheckpointContent(s: Store, card: Card, blocks: seq<Block>)
    requires Holds(s, card, blocks) && s.logCount > 0 && s.pageIndex < CATALOG_PAGE_COUNT
    ensures Holds(Checkpoint(s), card, blocks)
    ensures Checkpoint(s).active.id == s.active.id && Checkpoint(s).active.startSector == s.active.startSector
  {
    hide BlocksAre, HeaderPayload, LogSamples, ConfigurationIn, LastOfKind, FirstOfKind, EnqueueMetadata, ShownAll;
    var r := Checkpoint(s);
    if !(s.captured < s.nextCheckpointAt || |s.queue| > QUEUE_CAPACITY - 3) {
      var counted := s.(active := s.active.(samples := s.captured % MASK32, dropped := s.dropped % MASK32));
      var next := NextGeneration(counted);
      SameBlocks(s, next, card, blocks);
      MetadataKeepsBlocks(next, card, blocks);
      MetadataKeepsActive(next);
      SameBlocks(EnqueueMetadata(next).0, r, card, blocks);
    }
    SameHeader(s, r, s.startedAt);
    SamePending(s, r);
  }

  lemma SamePending(s: Store, r: Store)
    requires Pending(s)
    requires r.samplesInBlock == s.samplesInBlock && r.taken == s.taken && r.captured == s.captured
             && r.block == s.block
    ensures Pending(r)
  {
    hide EncodeSample;
    forall k | 0 <= k < r.samplesInBlock ensures PendingAt(r, k) {
      assert PendingAt(s, k);
    }
  }

  /** Stores that agree on the log and the samples hold the same. */
  lemma SameHolds(s: Store, r: Store, card: Card, blocks: seq<Block>)
    requires Holds(s, card, blocks)
    requires r == s.(previousState := r.previousState, nextSampleAt := r.nextSampleAt, dropped := r.dropped,
                     armedSeen := r.armedSeen, finishAfter := r.finishAfter, status := r.status, active := r.active,
                     writeActive := r.writeActive)
    requires r.active.id == s.active.id && r.active.startSector == s.active.startSector
    ensures Holds(r, card, blocks)
  {
    hide BlocksAre, HeaderPayload, LogSamples, ConfigurationIn, LastOfKind, FirstOfKind, ShownAll;
    SameBlocks(s, r, card, blocks);
    SameHeader(s, r, s.startedAt);
    SamePending(s, r);
  }

  lemma Sequence(captured: nat, taken: nat)
    requires captured == taken % MASK64
    ensures (captured + 1) % MASK32 == (taken + 1) % MASK32
    ensures (captured + 1) % MASK64 == (taken + 1) % MASK64
    ensures captured % MASK32 == taken % MASK32
  {
    var q := taken / MASK64;
    assert MASK32 * (MASK32 * q) == MASK64 * q;
    Remainder32(captured, MASK32 * q);
    Remainder32(captured + 1, MASK32 * q);
    Remainder64(captured + 1, q);
  }

  lemma Remainder32(a: nat, q: nat)
    ensures (a + MASK32 * q) % MASK32 == a % MASK32
  {
  }

  lemma Remainder64(a: nat, q: nat)
    ensures (a + MASK64 * q) % MASK64 == a % MASK64
  {
  }

  lemma EncodedSample(s: Store, sample: Sample, r: Store)
    requires Pending(s) && s.samplesInBlock < SAMPLES_PER_BLOCK
    requires r == s.(
      block := Put(s.block, HEADER_SIZE + s.samplesInBlock * SAMPLE_SIZE,
                   EncodeSample(sample, (s.captured + 1) % MASK32)),
      samplesInBlock := s.samplesInBlock + 1, captured := (s.captured + 1) % MASK64, taken := s.taken + [sample])
    ensures Pending(r)
  {
    hide EncodeSample;
    Sequence(s.captured, |s.taken|);
    var at := HEADER_SIZE + s.samplesInBlock * SAMPLE_SIZE;
    assert r.block[at..at + SAMPLE_SIZE] == EncodeSample(sample, (|s.taken| + 1) % MASK32);
    assert PendingAt(r, s.samplesInBlock);
    if s.samplesInBlock == 1 {
      assert PendingAt(s, 0);
      assert r.block[HEADER_SIZE..HEADER_SIZE + SAMPLE_SIZE] == s.block[HEADER_SIZE..HEADER_SIZE + SAMPLE_SIZE];
      assert PendingAt(r, 0);
    }
  }

  lemma TakeContent(s: Store, card: Card, blocks: seq<Block>, sample: Sample)
    requires Holds(s, card, blocks) && s.samplesInBlock < SAMPLES_PER_BLOCK && s.logCount > 0
    requires s.pageIndex < CATALOG_PAGE_COUNT
    ensures var r := TakeSample(s, |card|, sample);
            && (r.status == Error || exists all :: Holds(r, card, all))
            && r.taken == (if |s.queue| >= QUEUE_CAPACITY - 4 then s.taken else s.taken + [sample])
  {
    hide BlocksAre, HeaderPayload, LogSamples, ConfigurationIn, LastOfKind, FirstOfKind, ShownAll;
    hide FlushSamples, Checkpoint, EncodeSample, Put, PendingAt;
    if |s.queue| >= QUEUE_CAPACITY - 4 {
      SameHolds(s, AddDropped(s, 1), card, blocks);
      return;
    }
    var taken := s.(
      block := Put(s.block, HEADER_SIZE + s.samplesInBlock * SAMPLE_SIZE,
                   EncodeSample(sample, (s.captured + 1) % MASK32)),
      samplesInBlock := s.samplesInBlock + 1, captured := (s.captured + 1) % MASK64, taken := s.taken + [sample]);
    EncodedSample(s, sample, taken);
    SameBlocks(s, taken, card, blocks);
    SameHeader(s, taken, s.startedAt);
    assert taken.taken[..|s.taken| - s.samplesInBlock] == s.taken[..|s.taken| - s.samplesInBlock];
    assert Holds(taken, card, blocks);
    if taken.samplesInBlock < SAMPLES_PER_BLOCK {
      CheckpointContent(taken, card, blocks);
    } else {
      FlushContent(taken, card, blocks);
      var (flushed, ok) := FlushSamples(taken, |card|);
      if ok {
        var all :| Holds(flushed, card, all);
        CheckpointContent(flushed, card, all);
      }
    }
  }

  /* ---------------- closing ---------------- */

  function Kept(text: Text, capacity: nat): (t: Buffer)
    requires capacity > 0
  {
    if |text| >= capacity then text[..capacity - 1] else text
  }

  /** What the host is to print for the log just closed. */
  function ExpectedLog(s: Store, ended: uint64, state: State): (log: DecodedLog) {
    DecodedLog(FORMAT_VERSION, s.active.id, SAMPLE_INTERVAL_US, s.startedAt, Kept(s.firmware, 16), Kept(s.build, 32),
               s.configuration,
               Some(Footer(ended, |s.taken| % MASK32, s.dropped % MASK32, StateCode(state))), ShownAll(s.taken))
  }

  lemma {:induction false} UntilZeroStops(text: Buffer, rest: Buffer)
    requires 0 !in text && (rest == [] || rest[0] == 0)
    ensures UntilZero(text + rest) == text
    decreases |text|
  {
    if text == [] {
      assert text + rest == rest;
    } else {
      assert (text + rest)[1..] == text[1..] + rest;
      UntilZeroStops(text[1..], rest);
    }
  }

  lemma PaddedText(text: Text, capacity: nat)
    requires capacity > 0
    ensures UntilZero(Padded(text, capacity)) == Kept(text, capacity)
  {
    var kept := Kept(text, capacity);
    UntilZeroStops(kept, seq(capacity - |kept|, i => 0));
  }

  lemma HeaderReads(s: Store, timestamp: uint64)
    ensures var h := HeaderPayload(s, timestamp);
            && GetU32(h, 0) == SAMPLE_INTERVAL_US && GetU32(h, 4) == |s.configuration|
            && GetU32(h, 8) == Crc32(s.configuration) && GetU64(h, 12) == timestamp
            && UntilZero(h[20..36]) == Kept(s.firmware, 16) && UntilZero(h[36..68]) == Kept(s.build, 32)
  {
    hide U32, U64, GetU32, GetU64, Crc32, Padded, UntilZero, Kept;
    var h := HeaderPayload(s, timestamp);
    assert h[0..4] == U32(SAMPLE_INTERVAL_US) && h[4..8] == U32(|s.configuration|);
    assert h[8..12] == U32(Crc32(s.configuration)) && h[12..20] == U64(timestamp);
    assert h[20..36] == Padded(s.firmware, 16) && h[36..68] == Padded(s.build, 32);
    U32RoundTrip(h, 0, SAMPLE_INTERVAL_US);
    U32RoundTrip(h, 4, |s.configuration|);
    U32RoundTrip(h, 8, Crc32(s.configuration));
    U64RoundTrip(h, 12, timestamp);
    PaddedText(s.firmware, 16);
    PaddedText(s.build, 32);
  }

  lemma FooterReads(s: Store, timestamp: uint64, state: State)
    ensures var f := FooterPayload(s, timestamp, state);
            && GetU64(f, 0) == timestamp && GetU32(f, 8) == s.captured % MASK32 && GetU32(f, 12) == s.dropped % MASK32
            && GetU32(f, 16) == StateCode(state)
  {
    hide U32, U64, GetU32, GetU64;
    var f := FooterPayload(s, timestamp, state);
    assert f[0..8] == U64(timestamp) && f[8..12] == U32(s.captured % MASK32);
    assert f[12..16] == U32(s.dropped % MASK32) && f[16..20] == U32(StateCode(state));
    U64RoundTrip(f, 0, timestamp);
    U32RoundTrip(f, 8, s.captured % MASK32);
    U32RoundTrip(f, 12, s.dropped % MASK32);
    U32RoundTrip(f, 16, StateCode(state));
  }

  lemma ClosedBlocksDecode(s: Store, card: Card, blocks: seq<Block>, footer: Block, timestamp: uint64, state: State)
    requires Holds(s, card, blocks) && s.samplesInBlock == 0
    requires footer.kind == FLIGHT_FOOTER && footer.payload == FooterPayload(s, timestamp, state)
    requires footer.version == FORMAT_VERSION && footer.logId == s.active.id
    ensures (blocks + [footer])[0].version == FORMAT_VERSION
    ensures DecodeBlocks(blocks + [footer]) == Some(ExpectedLog(s, timestamp, state))
  {
    hide BlocksAre, HeaderPayload, FooterPayload, LogSamples, ConfigurationIn, LastOfKind, FirstOfKind, ShownAll, Crc32;
    hide GetU32, GetU64, UntilZero, Kept, Pending;
    OneMoreBlock(blocks, footer);
    HeaderReads(s, s.startedAt);
    FooterReads(s, timestamp, state);
    CapturedIsTaken(s);
    assert s.taken[..|s.taken|] == s.taken && s.configuration[..|s.configuration|] == s.configuration;
  }

  lemma CapturedIsTaken(s: Store)
    requires Pending(s)
    ensures s.captured % MASK32 == |s.taken| % MASK32
  {
    Sequence(s.captured, |s.taken|);
  }

  /** The sectors of the log, from its first to its last. */
  function LogSectors(s: Store, card: Card): (sectors: seq<Sector>)
    requires s.active.startSector <= s.active.endSector < |card|
  {
    Applied(card, s.queue)[s.active.startSector..s.active.endSector + 1]
  }

  /** The host decodes the sectors of the log that was just closed to what was recorded. */
  ghost predicate Decodes(s: Store, card: Card, ended: uint64, state: State) {
    && s.active.startSector <= s.active.endSector < |card|
    && DecodeLog(Concat(LogSectors(s, card))) == Some(ExpectedLog(s, ended, state))
    && s.active.complete && s.active.samples == |s.taken| % MASK32 && s.active.dropped == s.dropped % MASK32
  }

  lemma ParsedDecodes(sectors: seq<Sector>, blocks: seq<Block>)
    requires ParseAll(sectors) == Some(blocks) && blocks != [] && blocks[0].version == FORMAT_VERSION
    ensures DecodeLog(Concat(sectors)) == DecodeBlocks(blocks)
  {
    hide DecodeBlocks, ParseBlock;
    SplitConcat(sectors);
    assert |Concat(sectors)| == 512 * |sectors|;
    assert (512 * |sectors|) % 512 == 0;
  }

  function Closed(s: Store): (r: Store) {
    NextGeneration(s.(active := s.active.(samples := s.captured % MASK32, dropped := s.dropped % MASK32,
        complete := true)))
  }

  lemma ClosedMetadata(s: Store, card: Card, blocks: seq<Block>)
    requires BlocksAre(s, card, blocks) && s.logCount > 0 && s.pageIndex < CATALOG_PAGE_COUNT && blocks != []
    requires s.active.endSector + 1 == s.nextSector && blocks[0].version == FORMAT_VERSION
    ensures var (r, ok) := EnqueueMetadata(Closed(s));
            && r.active == Closed(s).active && r.active.startSector <= r.active.endSector < |card|
            && DecodeLog(Concat(LogSectors(r, card))) == DecodeBlocks(blocks)
  {
    hide BlocksAre, EnqueueMetadata, DecodeLog, DecodeBlocks, ParseAll, Applied;
    SameBlocks(s, Closed(s), card, blocks);
    MetadataKeepsBlocks(Closed(s), card, blocks);
    MetadataKeepsActive(Closed(s));
    var r := EnqueueMetadata(Closed(s)).0;
    BlocksParse(r, card, blocks);
    ParsedDecodes(LogSectors(r, card), blocks);
  }

  lemma FooterContent(s: Store, card: Card, blocks: seq<Block>, timestamp: uint64, state: State)
    requires Holds(s, card, blocks) && s.logCount > 0 && s.pageIndex < CATALOG_PAGE_COUNT && s.samplesInBlock == 0
    ensures var (footed, written) :=
              AppendBlock(s, |card|, WithPayload(FooterPayload(s, timestamp, state)), FLIGHT_FOOTER, 1, 20);
            var r := EnqueueMetadata(Closed(footed)).0;
            written ==> Decodes(r, card, timestamp, state)
  {
    hide BlocksAre, FooterPayload, AppendBlock, EnqueueMetadata, WithPayload, ExpectedLog, Content, Pending, DecodeLog;
    hide DecodeBlocks, LogSectors;
    var payload := FooterPayload(s, timestamp, state);
    var buffer := WithPayload(payload);
    PayloadInBuffer(payload);
    AppendedBlock(s, card, blocks, buffer, FLIGHT_FOOTER, 1, 20);
    AppendedFields(s, card, buffer, FLIGHT_FOOTER, 1, 20);
    SizeFits(s, card, blocks);
    AppendedEnd(s, |card|, buffer, FLIGHT_FOOTER, 1, 20);
    var footer := NewBlock(s, buffer, FLIGHT_FOOTER, 1, 20);
    ClosedBlocksDecode(s, card, blocks, footer, timestamp, state);
    CapturedIsTaken(s);
    var (footed, written) := AppendBlock(s, |card|, buffer, FLIGHT_FOOTER, 1, 20);
    if written {
      ClosedMetadata(footed, card, blocks + [footer]);
      var r := EnqueueMetadata(Closed(footed)).0;
      SameExpected(s, r, timestamp, state);
    }
  }

  lemma SizeFits(s: Store, card: Card, blocks: seq<Block>)
    requires BlocksAre(s, card, blocks)
    ensures |card| < MASK32
  {
  }

  lemma SameDecodes(s: Store, r: Store, card: Card, ended: uint64, state: State)
    requires Decodes(s, card, ended, state) && r == s.(status := r.status)
    ensures Decodes(r, card, ended, state)
  {
    hide DecodeLog;
    SameExpected(s, r, ended, state);
  }

  lemma FinishContent(s: Store, card: Card, blocks: seq<Block>, timestamp: uint64, state: State)
    requires Holds(s, card, blocks) && s.logCount > 0 && s.pageIndex < CATALOG_PAGE_COUNT
    requires s.samplesInBlock <= SAMPLES_PER_BLOCK
    ensures var r := FinishFlight(s, |card|, timestamp, state);
            && r.taken == s.taken
            && (r.status == Finishing ==> Decodes(r, card, timestamp, state))
  {
    hide Holds, FooterPayload, AppendBlock, FlushSamples, EnqueueMetadata, WithPayload, ExpectedLog, DecodeLog, Applied;
    FlushContent(s, card, blocks);
    FlushKeepsCounts(s, |card|);
    var (flushed, ok) := FlushSamples(s, |card|);
    if ok {
      var all :| Holds(flushed, card, all);
      FooterContent(flushed, card, all, timestamp, state);
      var (footed, written) :=
        AppendBlock(flushed, |card|, WithPayload(FooterPayload(flushed, timestamp, state)), FLIGHT_FOOTER, 1, 20);
      if written {
        var listed := EnqueueMetadata(Closed(footed)).0;
        SameDecodes(listed, FinishFlight(s, |card|, timestamp, state), card, timestamp, state);
      }
    }
  }

  lemma BlocksParse(s: Store, card: Card, blocks: seq<Block>)
    requires BlocksAre(s, card, blocks) && blocks != [] && s.active.endSector + 1 == s.nextSector
    ensures s.active.startSector <= s.active.endSector < |card| && ParseAll(LogSectors(s, card)) == Some(blocks)
  {
    hide ParseBlock, Applied;
  }

  lemma AppendedEnd(s: Store, size: nat, buffer: Sector, kind: Kind, items: Kind, length: Length)
    requires size < MASK32
    ensures var (r, ok) := AppendBlock(s, size, buffer, kind, items, length);
            ok ==> r.active.endSector + 1 == r.nextSector
  {
    hide Finalize;
  }

  lemma FlushKeepsCounts(s: Store, size: nat)
    requires s.samplesInBlock <= SAMPLES_PER_BLOCK
    ensures var r := FlushSamples(s, size).0; r.captured == s.captured && r.dropped == s.dropped && r.taken == s.taken
  {
  }

  lemma SameExpected(s: Store, r: Store, timestamp: uint64, state: State)
    requires r.active.id == s.active.id && r.startedAt == s.startedAt && r.firmware == s.firmware && r.build == s.build
    requires r.configuration == s.configuration && r.taken == s.taken && r.dropped == s.dropped
    ensures ExpectedLog(r, timestamp, state) == ExpectedLog(s, timestamp, state)
  {
  }
}
