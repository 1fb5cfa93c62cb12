/** Cutting the power at any sector write of a run that started from a cleanly mounted card. */
module BlackboxCrash {
  import opened Counters
  import opened SystemState
  import opened Bytes
  import opened BlackboxFormat
  import opened BlackboxSamples
  import opened BlackboxStore
  import opened BlackboxCard

  /* ---------------- while a log is being written ---------------- */

  /** The active log's blocks lie side by side, in order, up to the next free sector. */
  ghost predicate Contiguous(s: Store, v: Card) {
    && FIRST_DATA_SECTOR <= s.active.startSector <= s.nextSector <= |v|
    && (forall t | s.active.startSector <= t < s.nextSector :: BlockAt(v, t, s.active.id, s.active.startSector))
    && s.blockSequence == s.nextSector - s.active.startSector
    && (s.active.startSector < s.nextSector ==> s.active.endSector == s.nextSector - 1)
  }

  /** The page in memory is the active log's, and agrees with the card on every earlier entry. */
  ghost predicate PageMatches(s: Store, v: Card)
    requires |v| >= FIRST_DATA_SECTOR && 0 < s.logCount <= LOG_CAPACITY
  {
    && s.pageIndex == (s.logCount - 1) / ENTRIES_PER_PAGE
    && HeadedPage(s.page, s.pageIndex)
    && forall i | 0 <= i < s.logCount - 1 && i / ENTRIES_PER_PAGE == s.pageIndex ::
         EntryOf(s.page, SlotOf(i)) == Listed(v, i)
  }

  /** The card's own entry for the active log, once its metadata has been queued. */
  ghost predicate ActiveListed(s: Store, v: Card)
    requires |v| >= FIRST_DATA_SECTOR && 0 < s.logCount <= LOG_CAPACITY
  {
    var e := Listed(v, s.logCount - 1);
    && e.id == s.active.id && e.startSector == s.active.startSector && e.endSector < s.nextSector
    && s.pageValid && s.pageIndex < CATALOG_PAGE_COUNT
    && v[FIRST_CATALOG_SECTOR + s.pageIndex] == s.page && PageValid(s.page, s.pageIndex)
  }

  ghost predicate FlightInv(s: Store, v: Card, n: nat, base: seq<LogInfo>, known: seq<Superblock>) {
    && 0 < s.logCount <= LOG_CAPACITY && |base| < s.logCount && (n == s.logCount - 1 || n == s.logCount)
    && Listing(v, n, base, known)
    && Contiguous(s, v) && PageMatches(s, v)
    && (forall i | 0 <= i < s.logCount - 1 :: Listed(v, i).endSector < s.active.startSector)
    && (n == s.logCount ==> ActiveListed(s, v))
  }

  ghost predicate Flying(s: Store, card: Card, n: nat, base: seq<LogInfo>, origin: seq<Superblock>) {
    && FlightInv(s, Applied(card, s.queue), n, base, origin + s.issued)
    && CutsGood(card, s.queue, base, origin + s.issued)
  }

  lemma DataBlockKeeps(s: Store, v: Card, n: nat, base: seq<LogInfo>, known: seq<Superblock>, data: Sector, r: Store)
    requires FlightInv(s, v, n, base, known) && s.nextSector < |v|
    requires ParseBlock(data).Some? && ParseBlock(data).value.logId == s.active.id
    requires ParseBlock(data).value.sequence == s.blockSequence
    requires r == s.(queue := r.queue, active := s.active.(endSector := s.nextSector), nextSector := s.nextSector + 1,
                     blockSequence := s.blockSequence + 1)
    ensures FlightInv(r, v[s.nextSector := data], n, base, known)
  {
    hide ParseBlock, EntryOf, HeadedPage, PageValid, SlotOf, Listing;
    var w := v[s.nextSector := data];
    assert Geometry(|v|) by { GeometryOf(v, n, base, known); }
    DataWriteKeeps(v, n, base, known, s.nextSector, data);
    forall t | r.active.startSector <= t < r.nextSector
      ensures BlockAt(w, t, r.active.id, r.active.startSector)
    {
      if t < s.nextSector {
        assert BlockAt(v, t, s.active.id, s.active.startSector);
      }
    }
    assert forall i | 0 <= i < s.logCount - 1 :: Listed(w, i) == Listed(v, i);
  }

  lemma GeometryOf(v: Card, n: nat, base: seq<LogInfo>, known: seq<Superblock>)
    requires Listing(v, n, base, known)
    ensures Geometry(|v|) && |base| <= n <= LOG_CAPACITY && Good(v, base, known)
  {
  }

  /** Appending a block keeps every cut good; the log grows by it exactly when it was queued. */
  lemma AppendBlockKeeps(s: Store, card: Card, n: nat, base: seq<LogInfo>, origin: seq<Superblock>,
                         buffer: Sector, kind: Kind, items: Kind, length: Length)
    requires Flying(s, card, n, base, origin)
    ensures var (r, ok) := AppendBlock(s, |card|, buffer, kind, items, length);
            && CutsGood(card, r.queue, base, origin + r.issued)
            && (ok ==> Flying(r, card, n, base, origin) && r.active.startSector < r.nextSector)
  {
    hide Finalize, ParseBlock, Good, FlightInv, Applied, CutsGood;
    var v := Applied(card, s.queue);
    var data := Finalize(buffer, kind, s.active.id, s.blockSequence, items, length);
    FinalizeParses(buffer, kind, s.active.id, s.blockSequence, items, length);
    var (r, ok) := AppendBlock(s, |card|, buffer, kind, items, length);
    if ok {
      FlightBounds(s, v, n, base, origin + s.issued);
      DataBlockKeeps(s, v, n, base, origin + s.issued, data, r);
      FlightBounds(r, v[s.nextSector := data], n, base, origin + s.issued);
      LastApplied(card, s.queue, Write(s.nextSector, data));
      OneMoreWrite(card, s.queue, Write(s.nextSector, data), base, origin + s.issued);
    }
  }

  lemma FlightBounds(s: Store, v: Card, n: nat, base: seq<LogInfo>, known: seq<Superblock>)
    requires FlightInv(s, v, n, base, known)
    ensures Geometry(|v|) && s.nextSector <= |v| && s.active.startSector <= s.nextSector
            && s.blockSequence <= s.nextSector
    ensures s.blockSequence == s.nextSector - s.active.startSector
    ensures Good(v, base, known)
  {
    GeometryOf(v, n, base, known);
  }

  /* ---------------- the catalogue page, then the superblocks ---------------- */

  lemma SlotsDiffer(i: nat, j: nat)
    requires i / ENTRIES_PER_PAGE == j / ENTRIES_PER_PAGE && i != j
    ensures SlotOf(i) != SlotOf(j)
  {
  }

  /** The page about to be written carries the active log's entry next to the earlier ones. */
  function MetadataPage(s: Store): (p: Sector)
    requires s.logCount > 0
  {
    SealPage(PutEntry(s.page, SlotOf(s.logCount - 1), s.active), EntriesOnPage(s.logCount))
  }

  lemma MetadataPageEntries(s: Store, v: Card)
    requires |v| >= FIRST_DATA_SECTOR && 0 < s.logCount <= LOG_CAPACITY && PageMatches(s, v)
    ensures PageValid(MetadataPage(s), s.pageIndex)
    ensures EntryOf(MetadataPage(s), SlotOf(s.logCount - 1)) == s.active
    ensures forall i | 0 <= i < s.logCount - 1 && i / ENTRIES_PER_PAGE == s.pageIndex ::
              EntryOf(MetadataPage(s), SlotOf(i)) == Listed(v, i)
  {
    hide EntryOf, HeadedPage, PageValid, PutEntry, SealPage;
    var slot := SlotOf(s.logCount - 1);
    var put := PutEntry(s.page, slot, s.active);
    PutEntryRoundTrip(s.page, slot, s.active, s.pageIndex);
    SealPageKeeps(put, EntriesOnPage(s.logCount), s.pageIndex);
    forall i | 0 <= i < s.logCount - 1 && i / ENTRIES_PER_PAGE == s.pageIndex
      ensures EntryOf(MetadataPage(s), SlotOf(i)) == Listed(v, i)
    {
      SlotsDiffer(i, s.logCount - 1);
    }
  }

  lemma ActiveIsSound(s: Store, v: Card)
    requires Contiguous(s, v) && s.active.startSector < s.nextSector
    ensures LogSound(v, s.active)
  {
  }

  lemma PageKeeps(s: Store, v: Card, n: nat, base: seq<LogInfo>, known: seq<Superblock>, r: Store)
    requires FlightInv(s, v, n, base, known) && s.active.startSector < s.nextSector && s.pageValid
    requires r == s.(queue := r.queue, page := MetadataPage(s), issued := r.issued)
    ensures s.pageIndex < CATALOG_PAGE_COUNT
    ensures FlightInv(r, v[FIRST_CATALOG_SECTOR + s.pageIndex := MetadataPage(s)], s.logCount, base, known)
  {
    hide ParseBlock, EntryOf, HeadedPage, SlotOf, LogSound, MetadataPage, SuperBounded, SuperblockValid;
    var page := MetadataPage(s);
    var w := v[FIRST_CATALOG_SECTOR + s.pageIndex := page];
    MetadataPageEntries(s, v);
    ActiveIsSound(s, v);
    forall i | 0 <= i < s.logCount && i / ENTRIES_PER_PAGE == s.pageIndex
      ensures LogSound(v, EntryOf(page, SlotOf(i)))
    {
      if i < s.logCount - 1 {
        assert EntrySound(v, i);
      }
    }
    PageWriteKeeps(v, n, base, known, s.pageIndex, page, s.logCount);
    forall t | r.active.startSector <= t < r.nextSector
      ensures BlockAt(w, t, r.active.id, r.active.startSector)
    {
      assert BlockAt(v, t, s.active.id, s.active.startSector);
    }
  }

  lemma {:induction false} SuperKeeps(s: Store, v: Card, base: seq<LogInfo>, known: seq<Superblock>, b: nat, r: Store)
    requires FlightInv(s, v, s.logCount, base, known) && b < 2 && Snapshot(s) in known
    requires r == s.(queue := r.queue, issued := r.issued)
    ensures FlightInv(r, v[b := BuildSuperblock(Snapshot(s))], s.logCount, base, known)
  {
    hide ParseBlock, EntryOf, HeadedPage, SlotOf, LogSound, SuperBounded, SuperblockValid, PageValid, BuildSuperblock;
    SuperWriteKeeps(v, s.logCount, base, known, b, Snapshot(s));
    var w := v[b := BuildSuperblock(Snapshot(s))];
    forall t | r.active.startSector <= t < r.nextSector
      ensures BlockAt(w, t, r.active.id, r.active.startSector)
    {
      assert BlockAt(v, t, s.active.id, s.active.startSector);
    }
    assert Contiguous(r, w);
    forall i | 0 <= i < s.logCount
      ensures Listed(w, i) == Listed(v, i)
    {
    }
    assert PageMatches(r, w);
    assert ActiveListed(r, w);
  }

  lemma MoreKnownFlight(s: Store, v: Card, n: nat, base: seq<LogInfo>, known: seq<Superblock>, more: seq<Superblock>)
    requires FlightInv(s, v, n, base, known)
    ensures FlightInv(s, v, n, base, known + more)
  {
    hide ParseBlock, EntryOf, HeadedPage, SlotOf, LogSound, PageValid;
    MoreKnown(v, n, base, known, more);
  }

  lemma SuperblocksKeep(s: Store, card: Card, base: seq<LogInfo>, origin: seq<Superblock>)
    requires Flying(s, card, s.logCount, base, origin)
    ensures var (r, ok) := EnqueueSuperblocks(s);
            && CutsGood(card, r.queue, base, origin + r.issued)
            && (ok ==> Flying(r, card, s.logCount, base, origin))
  {
    hide BuildSuperblock, Good, FlightInv, Applied, CutsGood;
    var v := Applied(card, s.queue);
    var known := origin + (s.issued + [Snapshot(s)]);
    assert known == origin + s.issued + [Snapshot(s)];
    MoreKnownFlight(s, v, s.logCount, base, origin + s.issued, [Snapshot(s)]);
    MoreKnownCuts(card, s.queue, base, origin + s.issued, [Snapshot(s)]);
    FlightBounds(s, v, s.logCount, base, known);
    var data := BuildSuperblock(Snapshot(s));
    var first := s.(queue := s.queue + [Write(0, data)], issued := s.issued + [Snapshot(s)]);
    SuperKeeps(s, v, base, known, 0, first);
    FlightBounds(first, v[0 := data], s.logCount, base, known);
    LastApplied(card, s.queue, Write(0, data));
    OneMoreWrite(card, s.queue, Write(0, data), base, known);
    var second := first.(queue := first.queue + [Write(1, data)]);
    SuperKeeps(first, v[0 := data], base, known, 1, second);
    FlightBounds(second, v[0 := data][1 := data], s.logCount, base, known);
    LastApplied(card, first.queue, Write(1, data));
    OneMoreWrite(card, first.queue, Write(1, data), base, known);
  }

  /** Queueing the metadata keeps every cut good, and once it is all queued the active log is listed. */
  lemma MetadataKeeps(s: Store, card: Card, n: nat, base: seq<LogInfo>, origin: seq<Superblock>)
    requires Flying(s, card, n, base, origin) && s.active.startSector < s.nextSector && s.pageValid && s.logCount > 0
    ensures var (r, ok) := EnqueueMetadata(s);
            && CutsGood(card, r.queue, base, origin + r.issued)
            && (ok ==> Flying(r, card, s.logCount, base, origin))
  {
    hide Good, FlightInv, Applied, CutsGood, EnqueueSuperblocks, SealPage, PutEntry;
    var v := Applied(card, s.queue);
    var known := origin + s.issued;
    var page := MetadataPage(s);
    if |s.queue| < QUEUE_CAPACITY {
      var w := Write(FIRST_CATALOG_SECTOR + s.pageIndex, page);
      var r := s.(queue := s.queue + [w], page := page);
      FlightBounds(s, v, n, base, known);
      PageKeeps(s, v, n, base, known, r);
      FlightBounds(r, v[w.target := page], s.logCount, base, known);
      LastApplied(card, s.queue, w);
      OneMoreWrite(card, s.queue, w, base, known);
      SuperblocksKeep(r, card, base, origin);
    }
  }

  /* ---------------- idle ---------------- */

  /** Ready to open a log: the queue is empty and everything the card lists lies before the next free sector. */
  ghost predicate Idle(s: Store, card: Card, base: seq<LogInfo>, known: seq<Superblock>) {
    && s.queue == [] && s.logCount <= LOG_CAPACITY
    && Listing(card, s.logCount, base, known)
    && FIRST_DATA_SECTOR <= s.nextSector <= |card|
    && (forall i | 0 <= i < s.logCount :: Listed(card, i).endSector < s.nextSector)
    && (s.pageValid ==>
          && s.pageIndex < CATALOG_PAGE_COUNT && card[FIRST_CATALOG_SECTOR + s.pageIndex] == s.page
          && PageValid(s.page, s.pageIndex))
  }

  /** What every store reached from a clean mount satisfies. */
  ghost predicate Inv(s: Store, card: Card, base: seq<LogInfo>, origin: seq<Superblock>) {
    && Geometry(|card|)
    && CutsGood(card, s.queue, base, origin + s.issued)
    && (s.status == Ready ==> Idle(s, card, base, origin + s.issued))
    && (s.status == Recording ==>
          Flying(s, card, s.logCount, base, origin) && s.samplesInBlock < SAMPLES_PER_BLOCK && s.pageValid &&
          s.active.startSector < s.nextSector)
    && (s.status == Finishing ==> Flying(s, card, s.logCount, base, origin))
  }

  lemma OpenedLog(s: Store, card: Card, base: seq<LogInfo>, origin: seq<Superblock>, reply: ReadReply)
    requires Idle(s, card, base, origin + s.issued) && s.logCount < LOG_CAPACITY && s.blockSequence == 0
    requires CutsGood(card, s.queue, base, origin + s.issued)
    ensures var (paged, loaded) := PreparePage(s, card, reply);
            && paged.queue == [] && paged.issued == s.issued && paged.logCount == s.logCount
            && (loaded ==> paged.pageValid && Flying(OpenLog(paged), card, s.logCount, base, origin))
  {
    hide ParseBlock, EntryOf, SlotOf, LogSound, SuperBounded, SuperblockValid, CutsGood, Sealed;
    var (paged, loaded) := PreparePage(s, card, reply);
    var index := s.logCount / ENTRIES_PER_PAGE;
    assert Applied(card, []) == card;
    if loaded {
      if s.logCount % ENTRIES_PER_PAGE == 0 {
        NewPageIsHeaded(index);
      }
      forall i | 0 <= i < s.logCount && i / ENTRIES_PER_PAGE == index
        ensures EntryOf(paged.page, SlotOf(i)) == Listed(card, i)
      {
        assert s.logCount % ENTRIES_PER_PAGE != 0;
      }
      assert PageMatches(OpenLog(paged), card);
    }
  }

  lemma {:induction false} ConfigurationKeeps(s: Store, card: Card, n: nat, base: seq<LogInfo>, origin: seq<Superblock>,
                                              offset: nat, chunk: nat)
    requires Flying(s, card, n, base, origin) && offset <= |s.configuration| && s.active.startSector < s.nextSector
    ensures var (r, ok) := AppendConfiguration(s, |card|, offset, chunk);
            && CutsGood(card, r.queue, base, origin + r.issued)
            && (ok ==> Flying(r, card, n, base, origin) && r.active.startSector < r.nextSector)
    decreases |s.configuration| - offset
  {
    hide Flying, CutsGood, AppendBlock, WithPayload;
    if offset == |s.configuration| {
      FlyingCuts(s, card, n, base, origin);
    } else {
      var length := Min(|s.configuration| - offset, PAYLOAD_CAPACITY);
      var buffer := WithPayload(s.configuration[offset..offset + length]);
      AppendBlockKeeps(s, card, n, base, origin, buffer, CONFIGURATION, chunk % 0x1_0000, length);
      var (appended, ok) := AppendBlock(s, |card|, buffer, CONFIGURATION, chunk % 0x1_0000, length);
      if ok {
        ConfigurationKeeps(appended, card, n, base, origin, offset + length, chunk + 1);
      }
    }
  }

  lemma FlyingCuts(s: Store, card: Card, n: nat, base: seq<LogInfo>, origin: seq<Superblock>)
    requires Flying(s, card, n, base, origin)
    ensures CutsGood(card, s.queue, base, origin + s.issued)
    ensures 0 < s.logCount <= LOG_CAPACITY && Geometry(|card|)
  {
    GeometryOf(Applied(card, s.queue), n, base, origin + s.issued);
  }

  /** Two stores that agree on the log being written are both flying or both not. */
  lemma SameFlight(s: Store, r: Store, card: Card, n: nat, base: seq<LogInfo>, origin: seq<Superblock>)
    requires Flying(s, card, n, base, origin)
    requires r.queue == s.queue && r.issued == s.issued && r.page == s.page && r.pageIndex == s.pageIndex
    requires r.pageValid == s.pageValid && r.nextSector == s.nextSector && r.blockSequence == s.blockSequence
    requires r.logCount == s.logCount && r.active.id == s.active.id
    requires r.active.startSector == s.active.startSector && r.active.endSector == s.active.endSector
    ensures Flying(r, card, n, base, origin)
  {
    hide Listing, CutsGood, PageValid, HeadedPage, EntryOf, BlockAt;
  }

  lemma StartKeeps(s: Store, card: Card, base: seq<LogInfo>, origin: seq<Superblock>, timestamp: uint64,
          reply: ReadReply)
    requires Idle(s, card, base, origin + s.issued) && s.blockSequence == 0
    requires CutsGood(card, s.queue, base, origin + s.issued)
    ensures var (r, ok) := StartFlight(s, card, timestamp, reply);
            && CutsGood(card, r.queue, base, origin + r.issued)
            && (ok ==> Flying(r, card, r.logCount, base, origin) && r.pageValid && r.active.startSector < r.nextSector)
  {
    hide Flying, CutsGood, Idle, AppendBlock, AppendConfiguration, EnqueueMetadata, PreparePage, HeaderPayload,
        WithPayload;
    if s.logCount >= LOG_CAPACITY || s.nextSector >= |card| || s.queue != [] {
      return;
    }
    OpenedLog(s, card, base, origin, reply);
    var (paged, loaded) := PreparePage(s, card, reply);
    if !loaded {
      return;
    }
    var begun := OpenLog(paged);
    var header := WithPayload(HeaderPayload(begun, timestamp));
    AppendBlockKeeps(begun, card, s.logCount, base, origin, header, FLIGHT_HEADER, 1, 68);
    var (headed, headedOk) := AppendBlock(begun, |card|, header, FLIGHT_HEADER, 1, 68);
    if headedOk {
      ConfigurationKeeps(headed, card, s.logCount, base, origin, 0, 0);
      var (written, ok) := AppendConfiguration(headed, |card|, 0, 0);
      if ok {
        SameFlight(written, NextGeneration(written), card, s.logCount, base, origin);
        MetadataKeeps(NextGeneration(written), card, s.logCount, base, origin);
        var (listed, done) := EnqueueMetadata(NextGeneration(written));
        if done {
          SameFlight(listed, BeginRecording(listed, timestamp), card, listed.logCount, base, origin);
        }
      }
    }
  }

  lemma CheckpointKeeps(s: Store, card: Card, base: seq<LogInfo>, origin: seq<Superblock>)
    requires Flying(s, card, s.logCount, base, origin) && s.pageValid && s.active.startSector < s.nextSector
             && s.logCount > 0
    ensures var r := Checkpoint(s);
            && Flying(r, card, r.logCount, base, origin) && r.pageValid && r.active.startSector < r.nextSector
  {
    hide Flying, CutsGood, EnqueueMetadata;
    if !(s.captured < s.nextCheckpointAt || |s.queue| > QUEUE_CAPACITY - 3) {
      var counted := s.(active := s.active.(samples := s.captured % MASK32, dropped := s.dropped % MASK32));
      SameFlight(s, NextGeneration(counted), card, s.logCount, base, origin);
      MetadataKeeps(NextGeneration(counted), card, s.logCount, base, origin);
      ThreeSlotsSuffice(NextGeneration(counted));
      var (listed, ok) := EnqueueMetadata(NextGeneration(counted));
      SameFlight(listed, Checkpoint(s), card, s.logCount, base, origin);
      MetadataKeepsActive(NextGeneration(counted));
    }
  }

  lemma ThreeSlotsSuffice(s: Store)
    requires s.logCount > 0 && |s.queue| <= QUEUE_CAPACITY - 3
    ensures EnqueueMetadata(s).1
  {
    hide SealPage, PutEntry, BuildSuperblock;
  }

  lemma MetadataKeepsActive(s: Store)
    requires s.logCount > 0
    ensures var r := EnqueueMetadata(s).0;
            r.active == s.active && r.nextSector == s.nextSector && r.pageValid == s.pageValid
  {
  }

  lemma FlushKeeps(s: Store, card: Card, base: seq<LogInfo>, origin: seq<Superblock>)
    requires Flying(s, card, s.logCount, base, origin) && s.samplesInBlock <= SAMPLES_PER_BLOCK
    requires s.active.startSector < s.nextSector
    ensures var (r, ok) := FlushSamples(s, |card|);
            && CutsGood(card, r.queue, base, origin + r.issued)
            && (ok ==> Flying(r, card, r.logCount, base, origin) && r.active.startSector < r.nextSector)
  {
    hide Flying, CutsGood, AppendBlock;
    FlyingCuts(s, card, s.logCount, base, origin);
    if s.samplesInBlock > 0 {
      AppendBlockKeeps(s, card, s.logCount, base, origin, s.block, SAMPLES, s.samplesInBlock,
          s.samplesInBlock * SAMPLE_SIZE);
      var (flushed, ok) :=
        AppendBlock(s, |card|, s.block, SAMPLES, s.samplesInBlock, s.samplesInBlock * SAMPLE_SIZE);
      if ok {
        SameFlight(flushed, FlushSamples(s, |card|).0, card, s.logCount, base, origin);
      }
    }
  }

  lemma FinishKeeps(s: Store, card: Card, base: seq<LogInfo>, origin: seq<Superblock>, timestamp: uint64, state: State)
    requires Flying(s, card, s.logCount, base, origin) && s.samplesInBlock <= SAMPLES_PER_BLOCK && s.pageValid
    requires s.active.startSector < s.nextSector && s.logCount > 0
    ensures var r := FinishFlight(s, |card|, timestamp, state);
            && CutsGood(card, r.queue, base, origin + r.issued)
            && (r.status == Finishing || r.status == Error)
            && (r.status == Finishing ==> Flying(r, card, r.logCount, base, origin))
  {
    hide Flying, CutsGood, AppendBlock, FlushSamples, EnqueueMetadata, FooterPayload, WithPayload;
    FlushKeeps(s, card, base, origin);
    var (flushed, ok) := FlushSamples(s, |card|);
    if !ok {
      return;
    }
    var footer := WithPayload(FooterPayload(flushed, timestamp, state));
    AppendBlockKeeps(flushed, card, s.logCount, base, origin, footer, FLIGHT_FOOTER, 1, 20);
    var (footed, written) := AppendBlock(flushed, |card|, footer, FLIGHT_FOOTER, 1, 20);
    if written {
      var closed := footed.(active := footed.active.(samples := s.captured % MASK32, dropped := s.dropped % MASK32,
                                                     complete := true));
      SameFlight(footed, NextGeneration(closed), card, s.logCount, base, origin);
      MetadataKeeps(NextGeneration(closed), card, s.logCount, base, origin);
      var (listed, done) := EnqueueMetadata(NextGeneration(closed));
      if done {
        SameFlight(listed, listed.(status := Finishing), card, s.logCount, base, origin);
      }
    }
  }

  lemma TakeKeeps(s: Store, card: Card, base: seq<LogInfo>, origin: seq<Superblock>, sample: Sample)
    requires Flying(s, card, s.logCount, base, origin) && s.samplesInBlock < SAMPLES_PER_BLOCK && s.pageValid
    requires s.active.startSector < s.nextSector && s.logCount > 0
    ensures var r := TakeSample(s, |card|, sample);
            && CutsGood(card, r.queue, base, origin + r.issued)
            && (r.status == Error ||
                (Flying(r, card, r.logCount, base, origin) && r.pageValid && r.active.startSector < r.nextSector))
  {
    hide Flying, CutsGood, FlushSamples, Checkpoint, EncodeSample;
    FlyingCuts(s, card, s.logCount, base, origin);
    if |s.queue| >= QUEUE_CAPACITY - 4 {
      SameFlight(s, AddDropped(s, 1), card, s.logCount, base, origin);
      return;
    }
    var taken := s.(
      block := Put(s.block, HEADER_SIZE + s.samplesInBlock * SAMPLE_SIZE,
                   EncodeSample(sample, (s.captured + 1) % MASK32)),
      samplesInBlock := s.samplesInBlock + 1, captured := (s.captured + 1) % MASK64, taken := s.taken + [sample]);
    SameFlight(s, taken, card, s.logCount, base, origin);
    if taken.samplesInBlock < SAMPLES_PER_BLOCK {
      CheckpointKeeps(taken, card, base, origin);
      FlyingCuts(Checkpoint(taken), card, s.logCount, base, origin);
    } else {
      FlushKeeps(taken, card, base, origin);
      var (flushed, ok) := FlushSamples(taken, |card|);
      if ok {
        CheckpointKeeps(flushed, card, base, origin);
        FlyingCuts(Checkpoint(flushed), card, s.logCount, base, origin);
      }
    }
  }

  lemma RecordKeeps(s: Store, card: Card, base: seq<LogInfo>, origin: seq<Superblock>, sample: Sample)
    requires Geometry(|card|)
    requires Flying(s, card, s.logCount, base, origin) && s.samplesInBlock < SAMPLES_PER_BLOCK && s.pageValid
    requires s.active.startSector < s.nextSector && s.logCount > 0 && s.status == Recording
    ensures Inv(RecordSample(s, |card|, sample), card, base, origin)
  {
    hide Flying, CutsGood, TakeSample, FinishFlight, Idle, Releases, Closes, Timed, Missed;
    FlyingCuts(s, card, s.logCount, base, origin);
    SameFlight(s, Timed(s, sample), card, s.logCount, base, origin);
    SameFlight(s, Missed(s, sample), card, s.logCount, base, origin);
    TakeKeeps(Missed(s, sample), card, base, origin, sample);
    var taken := Sampled(s, |card|, sample);
    if taken.status == Error {
      return;
    }
    FlyingCuts(taken, card, taken.logCount, base, origin);
    SameFlight(taken, taken.(previousState := sample.state), card, taken.logCount, base, origin);
    if Closes(s, sample) {
      FinishKeeps(taken, card, base, origin, sample.timestamp, sample.state);
      var closed := FinishFlight(taken, |card|, sample.timestamp, sample.state);
      if closed.status == Finishing {
        SameFlight(closed, closed.(previousState := sample.state), card, closed.logCount, base, origin);
      }
    }
  }
}
