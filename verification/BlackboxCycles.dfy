/** Which cuts of the power leave a card as good as the one the run began with, over any number of power cycles. */
module BlackboxCycles {
  import opened Counters
  import opened SystemState
  import opened Bytes
  import opened BlackboxFormat
  import opened BlackboxSamples
  import opened BlackboxStore
  import opened BlackboxCard
  import opened BlackboxCrash
  import opened BlackboxRuns
  import opened BlackboxKept
  import opened BlackboxFooter

  /** What a run's progress depends on. */
  datatype Progress = Progress(
    queue: seq<Write>, generation: uint32, logCount: uint32, nextSector: uint32, start: uint32)

  function ProgressOf(s: Store): (t: Progress) {
    Progress(s.queue, s.generation, s.logCount, s.nextSector, s.active.startSector)
  }

  /** The next write is a superblock that lists the same logs as the one the card mounts from, but lies further on. */
  predicate Overtakes(v: Card, w: Write)
    requires |v| >= 2
  {
    && w.target < 2 && Newest(v, true, true).Some?
    && var pending, found := LoadSuperblock(w.data), Newest(v, true, true).value;
       found.logCount == pending.logCount && found.nextSector < pending.nextSector
  }

  /**
   * The next write is a superblock that is overdue: it overtakes the one the card mounts from, or, when the numbers
   * have just wrapped, the first copy lists a log more and is not found yet.
   */
  predicate Behind(v: Card, w: Write)
    requires |v| >= 2
  {
    || Overtakes(v, w)
    || (w.target == 1 && Newest(v, true, true).Some?
        && Newest(v, true, true).value.logCount < LoadSuperblock(w.data).logCount)
  }

  /** The last listed log reaches past the sector the next log would begin at. */
  predicate Straddled(v: Card) {
    && |v| >= FIRST_DATA_SECTOR && Newest(v, true, true).Some?
    && var found := Newest(v, true, true).value;
       && 0 < found.logCount <= LOG_CAPACITY
       && Listed(v, found.logCount - 1).startSector < found.nextSector <= Listed(v, found.logCount - 1).endSector
  }

  /** The card is clean exactly unless a superblock is overdue; one that overtakes leaves a log without its end. */
  ghost predicate CutFits(v: Card, w: Write)
    requires |v| >= 2
  {
    (CleanCard(v) <==> !Behind(v, w)) && (Overtakes(v, w) ==> Straddled(v))
  }

  /** The older superblock cannot come back with the next one. */
  predicate Steady(v: Card) {
    |v| >= 2 && Newest(v, true, true).Some? && !Stale(MountStart(v, Chosen(v)))
  }

  ghost predicate CutsClean(card: Card, writes: seq<Write>) {
    |card| >= 2 && forall k | 0 <= k < |writes| :: CutFits(Applied(card, writes[..k]), writes[k])
  }

  ghost predicate Tidy(t: Progress, v: Card, ahead: nat) {
    && CleanCard(v) && Steady(v)
    && var found := Newest(v, true, true).value;
       && t.generation == (found.generation + ahead) % MASK32
       && found.nextSector <= t.nextSector && found.logCount <= t.logCount
       && (found.logCount == t.logCount ==> t.start < found.nextSector)
  }

  /** What a store that may still write superblocks keeps. */
  ghost predicate Upright(t: Progress, card: Card, ahead: nat) {
    CutsClean(card, t.queue) && Tidy(t, Applied(card, t.queue), ahead)
  }

  /** What a store that has given up still has. */
  ghost predicate Cutwise(t: Progress, card: Card) {
    CutsClean(card, t.queue) && (t.queue == [] ==> CleanCard(card))
  }

  lemma UprightIsCutwise(t: Progress, card: Card, ahead: nat)
    requires Upright(t, card, ahead)
    ensures Cutwise(t, card) && CleanCard(Applied(card, t.queue)) && Geometry(|card|)
  {
    hide Listing, Steady, CutsClean;
  }

  lemma OneMoreClean(card: Card, writes: seq<Write>, w: Write)
    requires CutsClean(card, writes)
    requires CutFits(Applied(card, writes), w)
    ensures CutsClean(card, writes + [w]) && Applied(card, writes + [w]) == Written(Applied(card, writes), w)
  {
    hide CutFits;
    LastApplied(card, writes, w);
    var all := writes + [w];
    forall k | 0 <= k < |all|
      ensures CutFits(Applied(card, all[..k]), all[k])
    {
      if k < |writes| {
        assert all[..k] == writes[..k];
      } else {
        assert all[..k] == writes;
      }
    }
  }

  /* ---------------- blocks ---------------- */

  lemma BlockStaysClean(v: Card, target: nat, data: Sector)
    requires CleanCard(v) && Newest(v, true, true).value.nextSector <= target < |v|
    ensures CleanCard(v[target := data])
    ensures Newest(v[target := data], true, true) == Newest(v, true, true) && Origin(v[target := data]) == Origin(v)
  {
    hide EntrySound, SuperblockValid, LoadSuperblock, Listed;
    FoundBounds(v);
    var found := Newest(v, true, true).value;
    DataWriteKeeps(v, found.logCount, [], Origin(v), target, data);
    var w := v[target := data];
    assert w[0] == v[0] && w[1] == v[1];
    assert Newest(w, true, true) == Some(found);
    assert Listing(w, found.logCount, [], Origin(w));
    assert forall i | 0 <= i < found.logCount :: Listed(w, i) == Listed(v, i);
  }

  lemma AppendTidy(s: Store, card: Card, buffer: Sector, kind: Kind, items: Kind, length: Length)
    requires Upright(ProgressOf(s), card, 0)
    ensures var r := AppendBlock(s, |card|, buffer, kind, items, length).0;
            && Upright(ProgressOf(r), card, 0) && r.logCount == s.logCount
            && |r.queue| <= |s.queue| + 1
  {
    hide Finalize, CleanCard, CutsClean, Applied, LoadSuperblock, SuperblockValid, Newest;
    var (r, ok) := AppendBlock(s, |card|, buffer, kind, items, length);
    if ok {
      var w := Write(s.nextSector, Finalize(buffer, kind, s.active.id, s.blockSequence, items, length));
      var v := Applied(card, s.queue);
      FoundBounds(v);
      OneMoreClean(card, s.queue, w);
      BlockStaysClean(v, w.target, w.data);
    }
  }

  lemma FoundBounds(v: Card)
    requires CleanCard(v)
    ensures Geometry(|v|) && Newest(v, true, true).Some? && Newest(v, true, true).value.logCount <= LOG_CAPACITY
    ensures FIRST_DATA_SECTOR <= Newest(v, true, true).value.nextSector <= |v|
  {
    hide CatalogSound, SuperblockValid, LoadSuperblock, EntryOf;
  }

  /* ---------------- the page and the superblocks ---------------- */

  /** Every entry the card lists up to the active log's, and where that one ends. */
  ghost predicate Paged(s: Store, v: Card, known: seq<Superblock>) {
    && 0 < s.logCount <= LOG_CAPACITY && Listing(v, s.logCount, [], known)
    && FIRST_DATA_SECTOR <= s.active.startSector < s.nextSector <= |v|
    && (forall i | 0 <= i < s.logCount - 1 :: Listed(v, i).endSector < s.active.startSector)
    && Listed(v, s.logCount - 1).startSector == s.active.startSector
    && Listed(v, s.logCount - 1).endSector == s.nextSector - 1
  }

  lemma PageLists(s: Store, v: Card, n: nat, base: seq<LogInfo>, known: seq<Superblock>)
    requires FlightInv(s, v, n, base, known) && s.active.startSector < s.nextSector && s.pageValid
    ensures s.pageIndex < CATALOG_PAGE_COUNT
    ensures var w := v[FIRST_CATALOG_SECTOR + s.pageIndex := MetadataPage(s)];
            && Paged(s, w, known)
            && forall i | 0 <= i < s.logCount - 1 :: Listed(w, i) == Listed(v, i)
  {
    hide MetadataPage, BlockAt, EntryOf, PageValid, HeadedPage, SuperBounded, CatalogSound;
    var w := v[FIRST_CATALOG_SECTOR + s.pageIndex := MetadataPage(s)];
    PageKeeps(s, v, n, base, known, s.(page := MetadataPage(s)));
    MetadataPageEntries(s, v);
    forall i | 0 <= i < s.logCount
      ensures Listed(w, i) == if i < s.logCount - 1 then Listed(v, i) else s.active
    {
      if i / ENTRIES_PER_PAGE == s.pageIndex {
        assert PageSector(i) == FIRST_CATALOG_SECTOR + s.pageIndex;
      }
    }
  }

  /** Of an unchanged pair of superblocks, the one found leaves every log behind it exactly if it is not overtaken. */
  lemma PagedIsClean(s: Store, v: Card, w: Card, known: seq<Superblock>)
    requires CleanCard(v) && Paged(s, w, known) && |w| == |v| && w[0] == v[0] && w[1] == v[1]
    requires forall i | 0 <= i < s.logCount - 1 :: Listed(w, i) == Listed(v, i)
    requires var found := Newest(v, true, true).value;
             && found.logCount <= s.logCount && found.nextSector <= s.nextSector
             && (found.logCount == s.logCount ==> s.active.startSector < found.nextSector)
    ensures CutFits(w, Write(0, BuildSuperblock(Snapshot(s))))
  {
    hide EntrySound, SuperblockValid, LoadSuperblock, Listed, BuildSuperblock;
    SuperblockRoundTrip(Snapshot(s));
    var found := Newest(v, true, true).value;
    assert Newest(w, true, true) == Some(found);
    assert Listing(w, found.logCount, [], Origin(w));
  }

  /** After the first copy of a new superblock the card mounts from it, or still from the one before. */
  lemma PrimaryIsFound(v: Card, x: Superblock)
    requires Steady(v) && x.generation == (Newest(v, true, true).value.generation + 1) % MASK32
    ensures var w := v[0 := BuildSuperblock(x)];
            Newest(w, true, true) == Some(x) || Newest(w, true, true) == Newest(v, true, true)
    ensures var w := v[0 := BuildSuperblock(x)];
            SuperblockValid(w[0]) && LoadSuperblock(w[0]) == x
  {
    hide BuildSuperblock, SuperblockValid, LoadSuperblock;
    SuperblockRoundTrip(x);
  }

  lemma PrimaryKeepsPaged(s: Store, v: Card, known: seq<Superblock>, b: nat)
    requires Paged(s, v, known) && b < 2
    ensures Paged(s, v[b := BuildSuperblock(Snapshot(s))], known + [Snapshot(s)])
  {
    hide EntrySound, SuperblockValid, LoadSuperblock, BuildSuperblock, SuperBounded, EntryOf;
    MoreKnown(v, s.logCount, [], known, [Snapshot(s)]);
    SuperWriteKeeps(v, s.logCount, [], known + [Snapshot(s)], b, Snapshot(s));
    var w := v[b := BuildSuperblock(Snapshot(s))];
    assert forall i | 0 <= i < s.logCount :: Listed(w, i) == Listed(v, i);
  }

  /** A card whose superblock is that of the store is clean. */
  lemma FoundIsClean(s: Store, w: Card, known: seq<Superblock>)
    requires Paged(s, w, known) && Newest(w, true, true) == Some(Snapshot(s))
    ensures CleanCard(w)
  {
    hide EntrySound, SuperblockValid, LoadSuperblock, Listed;
    assert Listing(w, s.logCount, [], Origin(w));
  }

  /** After the first copy the card is clean exactly unless the second is overdue. */
  lemma PrimaryTidy(s: Store, v: Card, known: seq<Superblock>)
    requires Paged(s, v, known) && Steady(v)
    requires var found := Newest(v, true, true).value;
             && found.logCount <= s.logCount && found.nextSector <= s.nextSector
             && (found.logCount == s.logCount ==> s.active.startSector < found.nextSector)
             && s.generation == (found.generation + 1) % MASK32
    ensures var data := BuildSuperblock(Snapshot(s)); CutFits(v[0 := data], Write(1, data))
  {
    hide EntrySound, SuperblockValid, LoadSuperblock, Listed, BuildSuperblock, Newest, Steady;
    var x := Snapshot(s);
    var w := v[0 := BuildSuperblock(x)];
    SuperblockRoundTrip(x);
    PrimaryKeepsPaged(s, v, known, 0);
    PrimaryIsFound(v, x);
    SteadyFound(v);
    if Newest(w, true, true) == Some(x) {
      FoundIsClean(s, w, known + [x]);
    } else {
      OlderIsClean(s, w, known + [x], Newest(v, true, true).value);
    }
  }

  lemma OlderIsClean(s: Store, w: Card, known: seq<Superblock>, found: Superblock)
    requires Paged(s, w, known) && Newest(w, true, true) == Some(found)
    requires found.logCount <= s.logCount && found.nextSector <= s.nextSector
    requires SuperblockValid(w[0]) && LoadSuperblock(w[0]) == Snapshot(s)
    ensures CleanCard(w) <==> found.logCount == s.logCount && found.nextSector == s.nextSector
  {
    hide EntrySound, SuperblockValid, LoadSuperblock, Listed;
    if found.logCount == s.logCount && found.nextSector == s.nextSector {
      assert Listing(w, found.logCount, [], Origin(w));
    }
  }

  lemma TwinsTidy(s: Store, v: Card, known: seq<Superblock>)
    requires Paged(s, v, known)
    ensures var data := BuildSuperblock(Snapshot(s)); Tidy(ProgressOf(s), v[0 := data][1 := data], 0)
  {
    hide EntrySound, SuperblockValid, LoadSuperblock, Listed, BuildSuperblock;
    var x := Snapshot(s);
    var w := v[0 := BuildSuperblock(x)];
    PrimaryKeepsPaged(s, v, known, 0);
    PrimaryKeepsPaged(s, w, known + [x], 1);
    var twins := w[1 := BuildSuperblock(x)];
    TwinSuperblocks(twins, x);
    FoundIsClean(s, twins, known + [x] + [x]);
    SuperblockRoundTrip(x);
  }

  lemma SuperblocksTidy(s: Store, card: Card, v: Card, known: seq<Superblock>)
    requires CutsClean(card, s.queue) && v == Applied(card, s.queue) && s.queue != []
    requires Paged(s, v, known) && Steady(v)
    requires var found := Newest(v, true, true).value;
             && found.logCount <= s.logCount && found.nextSector <= s.nextSector
             && s.generation == (found.generation + 1) % MASK32
             && (found.logCount == s.logCount ==> s.active.startSector < found.nextSector)
    requires CutFits(v, Write(0, BuildSuperblock(Snapshot(s))))
    ensures var (r, ok) := EnqueueSuperblocks(s);
            Cutwise(ProgressOf(r), card) && (ok ==> Upright(ProgressOf(r), card, 0))
  {
    hide Paged, Steady, Newest, CutsClean, Applied, BuildSuperblock, LoadSuperblock, CleanCard;
    var x := Snapshot(s);
    var data := BuildSuperblock(x);
    SuperblockRoundTrip(x);
    PrimaryTidy(s, v, known);
    TwinsTidy(s, v, known);
    SteadyFound(v);
    if |s.queue| < QUEUE_CAPACITY {
      OneMoreClean(card, s.queue, Write(0, data));
      var once := s.queue + [Write(0, data)];
      if |once| < QUEUE_CAPACITY {
        OneMoreClean(card, once, Write(1, data));
      }
    }
  }

  lemma SteadyFound(v: Card)
    requires Steady(v)
    ensures |v| >= 2 && Newest(v, true, true).Some?
  {
  }

  /** Queueing the metadata of the active log. */
  lemma MetadataTidy(s: Store, card: Card, n: nat, base: seq<LogInfo>, origin: seq<Superblock>)
    requires Flying(s, card, n, base, origin) && s.active.startSector < s.nextSector && s.pageValid && s.logCount > 0
    requires Upright(ProgressOf(s), card, 1)
    ensures var (r, ok) := EnqueueMetadata(s);
            && Cutwise(ProgressOf(r), card) && r.logCount == s.logCount
            && (ok ==> Upright(ProgressOf(r), card, 0))
  {
    hide FlightInv, CutsGood, CutsClean, Applied, EnqueueSuperblocks, SealPage, PutEntry, Paged, Newest, CleanCard;
    hide Listed, SuperblockValid, LoadSuperblock;
    var v := Applied(card, s.queue);
    var known := origin + s.issued;
    UprightIsCutwise(ProgressOf(s), card, 1);
    if |s.queue| < QUEUE_CAPACITY {
      var page := MetadataPage(s);
      PageLists(s, v, n, base, known);
      var w := Write(FIRST_CATALOG_SECTOR + s.pageIndex, page);
      var queued := s.(queue := s.queue + [w], page := page);
      OneMoreClean(card, s.queue, w);
      FoundBounds(v);
      var paged := Written(v, w);
      PagedIsClean(s, v, paged, known);
      ElsewhereIsSteady(v, paged);
      SamePaged(s, queued, paged, known);
      SuperblocksTidy(queued, card, paged, known);
    }
  }

  lemma ElsewhereIsSteady(v: Card, w: Card)
    requires Steady(v) && |w| == |v| && w[0] == v[0] && w[1] == v[1]
    ensures Steady(w) && Newest(w, true, true) == Newest(v, true, true)
  {
    hide SuperblockValid, LoadSuperblock;
  }

  lemma SamePaged(s: Store, r: Store, v: Card, known: seq<Superblock>)
    requires Paged(s, v, known) && r.active == s.active && r.nextSector == s.nextSector && r.logCount == s.logCount
    ensures Paged(r, v, known)
  {
    hide Listing, Listed;
  }

  /* ---------------- the operations ---------------- */

  lemma {:induction false} ConfigurationTidy(s: Store, card: Card, offset: nat, chunk: nat)
    requires Upright(ProgressOf(s), card, 0) && offset <= |s.configuration|
    ensures var r := AppendConfiguration(s, |card|, offset, chunk).0;
            && Upright(ProgressOf(r), card, 0) && r.logCount == s.logCount
            && |r.queue| <= |s.queue| + (|s.configuration| - offset + PAYLOAD_CAPACITY - 1) / PAYLOAD_CAPACITY
    decreases |s.configuration| - offset
  {
    hide Upright, AppendBlock, WithPayload;
    if offset < |s.configuration| {
      var length := Min(|s.configuration| - offset, PAYLOAD_CAPACITY);
      var buffer := WithPayload(s.configuration[offset..offset + length]);
      AppendTidy(s, card, buffer, CONFIGURATION, chunk % 0x1_0000, length);
      var (appended, ok) := AppendBlock(s, |card|, buffer, CONFIGURATION, chunk % 0x1_0000, length);
      if ok {
        ConfigurationTidy(appended, card, offset + length, chunk + 1);
      }
    }
  }

  lemma NumberedAhead(s: Store, card: Card, r: Store)
    requires Upright(ProgressOf(s), card, 0)
    requires ProgressOf(r) == ProgressOf(s).(generation := (s.generation + 1) % MASK32)
    ensures Upright(ProgressOf(r), card, 1)
  {
    hide CleanCard, CutsClean, Newest, Steady, Applied;
    FoundBounds(Applied(card, s.queue));
    NextRemainder(Newest(Applied(card, s.queue), true, true).value.generation);
  }

  lemma MoreLogs(s: Store, card: Card, r: Store)
    requires Upright(ProgressOf(s), card, 0)
    requires ProgressOf(r) == ProgressOf(s).(logCount := r.logCount, start := r.active.startSector)
    requires s.logCount < r.logCount
    ensures Upright(ProgressOf(r), card, 0)
  {
    hide CleanCard, CutsClean, Newest, Steady, Applied;
  }

  lemma StartTidy(s: Store, card: Card, base: seq<LogInfo>, origin: seq<Superblock>, timestamp: uint64,
                  reply: ReadReply)
    requires Idle(s, card, base, origin + s.issued) && s.blockSequence == 0
    requires CutsGood(card, s.queue, base, origin + s.issued) && Upright(ProgressOf(s), card, 0)
    ensures var (r, ok) := StartFlight(s, card, timestamp, reply);
            && Cutwise(ProgressOf(r), card) && CleanCard(Applied(card, r.queue))
            && (ok ==> Upright(ProgressOf(r), card, 0))
  {
    hide Flying, CutsGood, Idle, AppendBlock, AppendConfiguration, EnqueueMetadata, PreparePage, HeaderPayload;
    hide WithPayload, Upright, Cutwise, CleanCard, Applied;
    UprightIsCutwise(ProgressOf(s), card, 0);
    if s.logCount >= LOG_CAPACITY || s.nextSector >= |card| || s.queue != [] {
      return;
    }
    OpenedLog(s, card, base, origin, reply);
    var (paged, loaded) := PreparePage(s, card, reply);
    assert ProgressOf(paged) == ProgressOf(s);
    if !loaded {
      return;
    }
    var begun := OpenLog(paged);
    MoreLogs(paged, card, begun);
    var header := WithPayload(HeaderPayload(begun, timestamp));
    AppendBlockKeeps(begun, card, s.logCount, base, origin, header, FLIGHT_HEADER, 1, 68);
    AppendTidy(begun, card, header, FLIGHT_HEADER, 1, 68);
    var (headed, headedOk) := AppendBlock(begun, |card|, header, FLIGHT_HEADER, 1, 68);
    UprightIsCutwise(ProgressOf(headed), card, 0);
    if headedOk {
      ConfigurationKeeps(headed, card, s.logCount, base, origin, 0, 0);
      ConfigurationTidy(headed, card, 0, 0);
      var (written, ok) := AppendConfiguration(headed, |card|, 0, 0);
      UprightIsCutwise(ProgressOf(written), card, 0);
      if ok {
        var numbered := NextGeneration(written);
        SameFlight(written, numbered, card, s.logCount, base, origin);
        NumberedAhead(written, card, numbered);
        MetadataTidy(numbered, card, s.logCount, base, origin);
        ThreeSlotsSuffice(numbered);
        UprightIsCutwise(ProgressOf(EnqueueMetadata(numbered).0), card, 0);
      }
    }
  }

  lemma CheckpointTidy(s: Store, card: Card, base: seq<LogInfo>, origin: seq<Superblock>)
    requires Flying(s, card, s.logCount, base, origin) && s.pageValid && s.active.startSector < s.nextSector
    requires s.logCount > 0 && Upright(ProgressOf(s), card, 0)
    ensures Upright(ProgressOf(Checkpoint(s)), card, 0)
  {
    hide Flying, CutsGood, EnqueueMetadata, Upright, Cutwise;
    if !(s.captured < s.nextCheckpointAt || |s.queue| > QUEUE_CAPACITY - 3) {
      var counted := s.(active := s.active.(samples := s.captured % MASK32, dropped := s.dropped % MASK32));
      SameFlight(s, NextGeneration(counted), card, s.logCount, base, origin);
      NumberedAhead(s, card, NextGeneration(counted));
      MetadataTidy(NextGeneration(counted), card, s.logCount, base, origin);
      ThreeSlotsSuffice(NextGeneration(counted));
    }
  }

  lemma FlushTidy(s: Store, card: Card)
    requires Upright(ProgressOf(s), card, 0) && s.samplesInBlock <= SAMPLES_PER_BLOCK
    ensures Upright(ProgressOf(FlushSamples(s, |card|).0), card, 0)
  {
    hide Upright, AppendBlock;
    if s.samplesInBlock > 0 {
      AppendTidy(s, card, s.block, SAMPLES, s.samplesInBlock, s.samplesInBlock * SAMPLE_SIZE);
    }
  }

  lemma FinishTidy(s: Store, card: Card, base: seq<LogInfo>, origin: seq<Superblock>, timestamp: uint64, state: State)
    requires Flying(s, card, s.logCount, base, origin) && s.samplesInBlock <= SAMPLES_PER_BLOCK && s.pageValid
    requires s.active.startSector < s.nextSector && s.logCount > 0 && Upright(ProgressOf(s), card, 0)
    ensures var r := FinishFlight(s, |card|, timestamp, state);
            Cutwise(ProgressOf(r), card) && (r.status == Finishing ==> Upright(ProgressOf(r), card, 0))
  {
    hide Flying, CutsGood, AppendBlock, FlushSamples, EnqueueMetadata, FooterPayload, WithPayload, Upright, Cutwise;
    hide CleanCard, Applied;
    FlushKeeps(s, card, base, origin);
    FlushTidy(s, card);
    var (flushed, ok) := FlushSamples(s, |card|);
    UprightIsCutwise(ProgressOf(flushed), card, 0);
    if !ok {
      return;
    }
    var footer := WithPayload(FooterPayload(flushed, timestamp, state));
    AppendBlockKeeps(flushed, card, s.logCount, base, origin, footer, FLIGHT_FOOTER, 1, 20);
    AppendTidy(flushed, card, footer, FLIGHT_FOOTER, 1, 20);
    var (footed, written) := AppendBlock(flushed, |card|, footer, FLIGHT_FOOTER, 1, 20);
    UprightIsCutwise(ProgressOf(footed), card, 0);
    if written {
      var closed := footed.(active := footed.active.(samples := s.captured % MASK32, dropped := s.dropped % MASK32,
                                                     complete := true));
      SameFlight(footed, NextGeneration(closed), card, s.logCount, base, origin);
      NumberedAhead(footed, card, NextGeneration(closed));
      MetadataTidy(NextGeneration(closed), card, s.logCount, base, origin);
    }
  }

  lemma TakeTidy(s: Store, card: Card, base: seq<LogInfo>, origin: seq<Superblock>, sample: Sample)
    requires Flying(s, card, s.logCount, base, origin) && s.samplesInBlock < SAMPLES_PER_BLOCK && s.pageValid
    requires s.active.startSector < s.nextSector && s.logCount > 0 && Upright(ProgressOf(s), card, 0)
    ensures Upright(ProgressOf(TakeSample(s, |card|, sample)), card, 0)
  {
    hide Flying, CutsGood, FlushSamples, Checkpoint, EncodeSample, Put, Upright;
    if |s.queue| < QUEUE_CAPACITY - 4 {
      var taken := s.(
        block := Put(s.block, HEADER_SIZE + s.samplesInBlock * SAMPLE_SIZE,
                     EncodeSample(sample, (s.captured + 1) % MASK32)),
        samplesInBlock := s.samplesInBlock + 1, captured := (s.captured + 1) % MASK64, taken := s.taken + [sample]);
      SameFlight(s, taken, card, s.logCount, base, origin);
      if taken.samplesInBlock < SAMPLES_PER_BLOCK {
        CheckpointTidy(taken, card, base, origin);
      } else {
        FlushKeeps(taken, card, base, origin);
        FlushTidy(taken, card);
        var (flushed, ok) := FlushSamples(taken, |card|);
        if ok {
          CheckpointTidy(flushed, card, base, origin);
        }
      }
    }
  }

  /** What every call of a run keeps. */
  ghost predicate Kempt(s: Store, card: Card) {
    && Cutwise(ProgressOf(s), card)
    && (s.status != Error ==> CleanCard(Applied(card, s.queue)))
    && (s.status == Ready || s.status == Recording || s.status == Finishing ==> Upright(ProgressOf(s), card, 0))
  }

  lemma RecordTidy(s: Store, card: Card, base: seq<LogInfo>, origin: seq<Superblock>, sample: Sample)
    requires Geometry(|card|)
    requires Flying(s, card, s.logCount, base, origin) && s.samplesInBlock < SAMPLES_PER_BLOCK && s.pageValid
    requires s.active.startSector < s.nextSector && s.logCount > 0 && s.status == Recording
    requires Upright(ProgressOf(s), card, 0)
    ensures Kempt(RecordSample(s, |card|, sample), card)
  {
    hide Flying, CutsGood, TakeSample, FinishFlight, Releases, Closes, Timed, Missed, Upright, Cutwise, CleanCard;
    hide Applied;
    SameFlight(s, Missed(s, sample), card, s.logCount, base, origin);
    SameFlight(s, Timed(s, sample), card, s.logCount, base, origin);
    TakeKeeps(Missed(s, sample), card, base, origin, sample);
    TakeTidy(Missed(s, sample), card, base, origin, sample);
    var taken := Sampled(s, |card|, sample);
    UprightIsCutwise(ProgressOf(taken), card, 0);
    if taken.status != Error && Closes(s, sample) {
      FinishKeeps(taken, card, base, origin, sample.timestamp, sample.state);
      FinishTidy(taken, card, base, origin, sample.timestamp, sample.state);
      var closed := FinishFlight(taken, |card|, sample.timestamp, sample.state);
      if closed.status == Finishing {
        UprightIsCutwise(ProgressOf(closed), card, 0);
      }
    }
  }

  lemma CaptureTidy(s: Store, card: Card, base: seq<LogInfo>, origin: seq<Superblock>, sample: Sample,
                    reply: ReadReply)
    requires Inv(s, card, base, origin) && CanStep(s, card) && Kempt(s, card)
    ensures Kempt(Capture(s, card, sample, reply), card)
  {
    hide Flying, CutsGood, Idle, StartFlight, RecordSample, Upright, Cutwise, CleanCard, Applied;
    if s.status == Recording {
      RecordTidy(s, card, base, origin, sample);
    } else if s.status == Ready && sample.state != Fault {
      var numbered := s.(blockSequence := 0);
      IdleRenumbered(s, card, base, origin);
      StartKeeps(numbered, card, base, origin, sample.timestamp, reply);
      StartTidy(numbered, card, base, origin, sample.timestamp, reply);
      var (started, ok) := StartFlight(numbered, card, sample.timestamp, reply);
      if ok {
        RecordTidy(started, card, base, origin, sample);
      }
    }
  }

  lemma FinishCallTidy(s: Store, card: Card, base: seq<LogInfo>, origin: seq<Superblock>, timestamp: uint64,
                       state: State)
    requires Inv(s, card, base, origin) && CanStep(s, card) && Kempt(s, card)
    ensures Kempt(FinishRecording(s, |card|, timestamp, state), card)
  {
    hide Flying, CutsGood, Idle, FinishFlight, Upright, Cutwise, CleanCard, Applied;
    if s.status == Recording {
      FinishKeeps(s, card, base, origin, timestamp, state);
      FinishTidy(s, card, base, origin, timestamp, state);
      var closed := FinishFlight(s, |card|, timestamp, state);
      if closed.status == Finishing {
        UprightIsCutwise(ProgressOf(closed), card, 0);
      }
    }
  }

  lemma WrittenTidy(t: Progress, card: Card)
    requires CutsClean(card, t.queue) && t.queue != []
    ensures var c := Written(card, t.queue[0]);
            && CutsClean(c, t.queue[1..]) && Applied(card, t.queue) == Applied(c, t.queue[1..])
  {
    hide CutFits;
    var c := Written(card, t.queue[0]);
    FirstWriteDone(card, t.queue);
    forall k | 0 <= k < |t.queue[1..]|
      ensures CutFits(Applied(c, t.queue[1..][..k]), t.queue[1..][k])
    {
      FirstWriteDone(card, t.queue[..k + 1]);
      assert t.queue[..k + 1][1..] == t.queue[1..][..k];
      assert t.queue[1..][k] == t.queue[k + 1];
    }
  }

  lemma ServiceTidy(s: Store, card: Card, reply: CardReply)
    requires Kempt(s, card)
    ensures var (r, c) := Service(s, card, reply); Kempt(r, c)
  {
    hide CutsClean, CleanCard, Steady, Newest, Written;
    if s.queue != [] && s.status != Error {
      WrittenTidy(ProgressOf(s), card);
    }
  }

  lemma StepTidy(s: Store, card: Card, base: seq<LogInfo>, origin: seq<Superblock>, call: StoreCall)
    requires Inv(s, card, base, origin) && Kempt(s, card) && !call.DoFormat?
    ensures CanStep(s, card)
    ensures var (r, c) := StoreStep(s, card, call); Kempt(r, c)
  {
    hide Inv, Capture, FinishFlight, Service, LoadPage, Upright, Cutwise, CleanCard, Applied;
    InvCanStep(s, card, base, origin);
    match call
    case DoCapture(sample, reply) => CaptureTidy(s, card, base, origin, sample, reply);
    case DoFinish(timestamp, state) => FinishCallTidy(s, card, base, origin, timestamp, state);
    case DoService(reply) => ServiceTidy(s, card, reply);
    case DoInspect(index, reply) =>
    case DoSetConfiguration(configuration) =>
  }

  lemma {:induction false} RunTidy(s: Store, card: Card, base: seq<LogInfo>, origin: seq<Superblock>,
                                   calls: seq<StoreCall>)
    requires Inv(s, card, base, origin) && Kempt(s, card) && Formatless(calls)
    ensures var (r, c) := StoreRun(s, card, base, origin, calls); Kempt(r, c)
    decreases |calls|
  {
    hide Inv, Kempt, StoreStep;
    if calls != [] {
      assert !calls[0].DoFormat?;
      StoreStepKeeps(s, card, base, origin, calls[0]);
      StepTidy(s, card, base, origin, calls[0]);
      var (next, c) := StoreStep(s, card, calls[0]);
      RunTidy(next, c, base, origin, calls[1..]);
    }
  }

  /* ---------------- power cycles ---------------- */

  lemma MountIsKempt(card: Card, configuration: ConfigurationBytes, firmware: Text, build: Text)
    requires CleanCard(card) && !Forgetful(card, Chosen(card))
    ensures Kempt(Mount(card, configuration, firmware, build, true, true), card)
  {
    hide Listing, Stale, SuperblockValid, LoadSuperblock;
    var s := Mount(card, configuration, firmware, build, true, true);
    FoundBounds(card);
    assert Applied(card, s.queue) == card;
  }

  /** The power goes with a superblock overdue. */
  predicate Overdue(s: Store, card: Card)
    requires |card| >= 2
  {
    s.queue != [] && Behind(card, s.queue[0])
  }

  /**
   * Cut anywhere in a run without formatting, the card is as clean as the one the run began with if and only if the
   * next write was not an overdue superblock; if that one overtakes, the last log reaches past the next free sector.
   */
  lemma CutIsCleanExactlyUnlessOverdue(card: Card, configuration: ConfigurationBytes, firmware: Text, build: Text,
                                       calls: seq<StoreCall>)
    requires CleanCard(card) && !Forgetful(card, Chosen(card)) && Formatless(calls)
    ensures var (r, c) := MountAndRun(card, configuration, firmware, build, calls);
            && |c| >= 2 && (CleanCard(c) <==> !Overdue(r, c))
            && (Overdue(r, c) && Overtakes(c, r.queue[0]) ==> Straddled(c))
  {
    hide StoreRun, Inv, CleanCard, Forgetful, Behind, Overtakes, Straddled;
    FoundBounds(card);
    var s := Mount(card, configuration, firmware, build, true, true);
    MountedInv(card, configuration, firmware, build);
    MountIsKempt(card, configuration, firmware, build);
    RunTidy(s, card, Catalogue(card, s.logCount), Origin(card), calls);
    var (r, c) := MountAndRun(card, configuration, firmware, build, calls);
    if r.queue != [] {
      assert r.queue[..0] == [];
      assert CutFits(Applied(c, r.queue[..0]), r.queue[0]);
    }
  }

  datatype PowerCycle = PowerCycle(
    configuration: ConfigurationBytes, firmware: Text, build: Text, calls: seq<StoreCall>)

  ghost function Cut(card: Card, cycle: PowerCycle): (r: (Store, Card))
    requires CleanCard(card)
  {
    MountAndRun(card, cycle.configuration, cycle.firmware, cycle.build, cycle.calls)
  }

  /** The power goes, cycle after cycle, wherever it likes but never with a superblock overdue. */
  ghost predicate Orderly(card: Card, cycles: seq<PowerCycle>)
    requires CleanCard(card)
    decreases |cycles|
  {
    cycles == [] ||
    (!Forgetful(card, Chosen(card)) && Formatless(cycles[0].calls)
     && var (r, c) := Cut(card, cycles[0]);
        |c| >= 2 && !Overdue(r, c) && (OrderlyCutIsClean(card, cycles[0]); Orderly(c, cycles[1..])))
  }

  lemma OrderlyCutIsClean(card: Card, cycle: PowerCycle)
    requires CleanCard(card) && !Forgetful(card, Chosen(card)) && Formatless(cycle.calls)
    requires var (r, c) := Cut(card, cycle); |c| >= 2 && !Overdue(r, c)
    ensures CleanCard(Cut(card, cycle).1)
  {
    hide MountAndRun, CleanCard, Forgetful, Overdue;
    CutIsCleanExactlyUnlessOverdue(card, cycle.configuration, cycle.firmware, cycle.build, cycle.calls);
  }

  ghost function AfterCycles(card: Card, cycles: seq<PowerCycle>): (r: Card)
    requires CleanCard(card) && Orderly(card, cycles)
    decreases |cycles|
  {
    if cycles == [] then card
    else
      OrderlyCutIsClean(card, cycles[0]);
      AfterCycles(Cut(card, cycles[0]).1, cycles[1..])
  }

  /** Every log listed on the earlier card is listed on the later one, with the same entry and the same sectors. */
  ghost predicate SameLogs(was: Card, card: Card) {
    && |was| == |card| && FIRST_DATA_SECTOR <= |card|
    && Newest(was, true, true).Some? && Newest(card, true, true).Some?
    && var n := Newest(was, true, true).value.logCount;
       && n <= LOG_CAPACITY && n <= Newest(card, true, true).value.logCount
       && forall i | 0 <= i < n :: SameLog(was, card, Listed(was, i)) && Listed(card, i) == Listed(was, i)
  }

  predicate SameLog(was: Card, card: Card, e: LogInfo) {
    |was| == |card| && forall t | e.startSector <= t <= e.endSector && t < |card| :: card[t] == was[t]
  }

  lemma CutKeepsLogs(card: Card, cycle: PowerCycle)
    requires CleanCard(card) && !Forgetful(card, Chosen(card)) && Formatless(cycle.calls)
    ensures SameLogs(card, Cut(card, cycle).1)
  {
    hide MountAndRun, Forgetful, EntryOf, SuperblockValid, LoadSuperblock, Remembers, ParseBlock, PageValid;
    hide SuperBounded, Newest;
    PowerCutAnywhere(card, cycle.configuration, cycle.firmware, cycle.build, cycle.calls);
    var c := Cut(card, cycle).1;
    var found := Newest(card, true, true).value;
    forall i | 0 <= i < found.logCount
      ensures SameLog(card, c, Listed(card, i)) && Listed(c, i) == Listed(card, i)
    {
      assert EntrySound(card, i);
      assert Listed(c, i) == Catalogue(card, found.logCount)[i];
    }
  }

  lemma LogsStaySame(first: Card, second: Card, third: Card)
    requires SameLogs(first, second) && SameLogs(second, third)
    ensures SameLogs(first, third)
  {
    hide Listed, Newest;
    var n := Newest(first, true, true).value.logCount;
    forall i | 0 <= i < n
      ensures SameLog(first, third, Listed(first, i)) && Listed(third, i) == Listed(first, i)
    {
      assert SameLog(first, second, Listed(first, i)) && SameLog(second, third, Listed(second, i));
    }
  }

  lemma LogsAreTheirOwn(card: Card)
    requires CleanCard(card)
    ensures SameLogs(card, card)
  {
    hide Listed, CatalogSound, SuperBounded, Newest;
  }

  /**
   * Over any number of power cycles, each cut at any write that is not an overdue superblock, the card stays clean and
   * no log is lost or changed.
   */
  lemma {:induction false} CyclesLoseNothing(card: Card, cycles: seq<PowerCycle>)
    requires CleanCard(card) && Orderly(card, cycles)
    ensures var after := AfterCycles(card, cycles); CleanCard(after) && SameLogs(card, after)
    decreases |cycles|
  {
    hide CleanCard, Cut, SameLogs, Forgetful, Overdue;
    if cycles == [] {
      LogsAreTheirOwn(card);
    } else {
      OrderlyCutIsClean(card, cycles[0]);
      CutKeepsLogs(card, cycles[0]);
      var c := Cut(card, cycles[0]).1;
      CyclesLoseNothing(c, cycles[1..]);
      LogsStaySame(card, c, AfterCycles(c, cycles[1..]));
    }
  }

  /* ---------------- what an overdue superblock costs ---------------- */

  /** Mounted and with the first block of another log written, the card still lists a log it no longer holds. */
  ghost predicate Overwritten(card: Card, configuration: ConfigurationBytes, firmware: Text, build: Text) {
    && |card| >= FIRST_DATA_SECTOR && Newest(card, true, true).Some?
    && var found := Newest(card, true, true).value;
       var m := SetConfiguration(Mount(card, configuration, firmware, build, true, true), []);
       && m.status == Ready && 0 < found.logCount <= LOG_CAPACITY
       && var (r, c) := Service(Capture(m, card, QuietSample, ReadOk), card, CardOk);
          var d := Service(r, c, CardOk).1;
          Newest(d, true, true) == Some(found) && !EntrySound(d, found.logCount - 1)
  }

  /** The next log's first block is written over the last listed log. */
  lemma NextLogOverwrites(card: Card, configuration: ConfigurationBytes, firmware: Text, build: Text)
    requires Geometry(|card|) && Straddled(card)
    requires var found := Newest(card, true, true).value;
             MountedStatus(found, |card|) == Ready && EntrySound(card, found.logCount - 1)
    ensures Overwritten(card, configuration, firmware, build)
  {
    hide Capture, ParseBlock, SuperblockValid, LoadSuperblock, EntryOf, PageValid, Service;
    var found := Newest(card, true, true).value;
    var m := SetConfiguration(Mount(card, configuration, firmware, build, true, true), []);
    Opens(m, card);
    var begun := Capture(m, card, QuietSample, ReadOk);
    TwoTurns(begun, card);
    var d := Written(card, begun.queue[0]);
    var e := Listed(card, found.logCount - 1);
    assert Listed(d, found.logCount - 1) == e;
    assert d[found.nextSector] == begun.queue[0].data;
    assert !BlockAt(d, found.nextSector, e.id, e.startSector);
  }

  lemma BlockQueued(s: Store, size: nat, buffer: Sector, kind: Kind, items: Kind, length: Length)
    requires |s.queue| < QUEUE_CAPACITY && s.nextSector < size < MASK32
    ensures var (r, ok) := AppendBlock(s, size, buffer, kind, items, length);
            && ok && |r.queue| == |s.queue| + 1 && r.queue[..|s.queue|] == s.queue
            && r.queue[|s.queue|].target == s.nextSector && r.nextSector == s.nextSector + 1
  {
    hide Finalize;
  }

  lemma MetadataQueued(s: Store)
    requires |s.queue| + 3 <= QUEUE_CAPACITY && s.logCount > 0
    ensures var (r, ok) := EnqueueMetadata(s);
            && ok && |r.queue| == |s.queue| + 3 && r.queue[..|s.queue|] == s.queue
            && r.queue[|s.queue|].target == FIRST_CATALOG_SECTOR + s.pageIndex
            && r.queue[|s.queue| + 1] == Write(0, BuildSuperblock(Snapshot(s)))
  {
    hide SealPage, PutEntry, BuildSuperblock;
  }

  /** What closing a log adds to its queue: two blocks, the page, and the superblock twice. */
  lemma ClosingQueue(s: Store, size: nat, timestamp: uint64, state: State)
    requires s.samplesInBlock == 1 && |s.queue| == 4 && s.logCount > 0
    requires FIRST_DATA_SECTOR <= s.nextSector && s.nextSector + 2 <= size < MASK32
    ensures var r := FinishFlight(s, size, timestamp, state);
            && r.status == Finishing && |r.queue| == 9 && r.queue[..4] == s.queue && r.writeActive == s.writeActive
            && r.queue[4].target >= 2 && r.queue[5].target >= 2 && r.queue[6].target >= 2
            && exists x: Superblock :: r.queue[7] == Write(0, BuildSuperblock(x)) && x.logCount == s.logCount
                                       && x.nextSector == s.nextSector + 2
  {
    hide AppendBlock, EnqueueMetadata, WithPayload, FooterPayload, BuildSuperblock;
    BlockQueued(s, size, s.block, SAMPLES, 1, SAMPLE_SIZE);
    var flushed := FlushSamples(s, size).0;
    var footer := WithPayload(FooterPayload(flushed, timestamp, state));
    BlockQueued(flushed, size, footer, FLIGHT_FOOTER, 1, 20);
    var footed := AppendBlock(flushed, size, footer, FLIGHT_FOOTER, 1, 20).0;
    var closed := footed.(active := footed.active.(samples := s.captured % MASK32, dropped := s.dropped % MASK32,
                                                   complete := true));
    MetadataQueued(NextGeneration(closed));
    var r := FinishFlight(s, size, timestamp, state);
    assert footed.queue[4] == flushed.queue[4] && r.queue[4] == footed.queue[4] && r.queue[5] == footed.queue[5];
    assert r.queue[7] == Write(0, BuildSuperblock(Snapshot(NextGeneration(closed))));
  }

  /** With the card answering, k more writes are done. */
  lemma {:induction false} Writes(card: Card, configuration: ConfigurationBytes, firmware: Text, build: Text,
                                  s: Store, d: Card, k: nat) returns (r: Store, e: Card)
    requires CleanCard(card) && Reached(card, configuration, firmware, build, s, d)
    requires s.status == Finishing && !s.writeActive && k < |s.queue|
    ensures Reached(card, configuration, firmware, build, r, e)
    ensures r == s.(queue := s.queue[k..]) && e == Applied(d, s.queue[..k])
  {
    hide Reached, Service, CleanCard;
    r, e := s, d;
    assert s.queue[..0] == [] && s.queue[0..] == s.queue;
    if k > 0 {
      r, e := Writes(card, configuration, firmware, build, s, d, k - 1);
      assert s.queue[..k] == s.queue[..k - 1] + [s.queue[k - 1]];
      LastApplied(d, s.queue[..k - 1], s.queue[k - 1]);
      ReachedStep(card, configuration, firmware, build, r, e, DoService(CardOk));
      ClosingTurns(r, e);
      var (m, f) := Service(r, e, CardOk);
      ReachedStep(card, configuration, firmware, build, m, f, DoService(CardOk));
      r, e := Service(m, f, CardOk).0, Service(m, f, CardOk).1;
    }
  }

  lemma ClosingTurns(s: Store, card: Card)
    requires s.status == Finishing && |s.queue| > 1 && !s.writeActive
    ensures var (m, d) := Service(s, card, CardOk);
            Service(m, d, CardOk) == (s.(queue := s.queue[1..]), Written(card, s.queue[0]))
  {
  }

  /** Two copies of one superblock, with other sectors written before and after. */
  lemma TwinsStay(card: Card, writes: seq<Write>, x: Superblock)
    requires |card| >= 2 && |writes| == 7
    requires writes[2] == Write(0, BuildSuperblock(x)) && writes[3] == Write(1, BuildSuperblock(x))
    requires forall i | 4 <= i < 7 :: writes[i].target >= 2
    ensures Newest(Applied(card, writes), true, true) == Some(x)
  {
    hide BuildSuperblock, Newest, Applied;
    forall k | 0 <= k < 7
      ensures Applied(card, writes[..k + 1]) == Written(Applied(card, writes[..k]), writes[k])
    {
      assert writes[..k + 1] == writes[..k] + [writes[k]];
      LastApplied(card, writes[..k], writes[k]);
    }
    var v := Applied(card, writes[..3 + 1]);
    assert Applied(card, writes[..2 + 1])[0] == BuildSuperblock(x);
    assert v[0] == BuildSuperblock(x) && v[1] == BuildSuperblock(x);
    var w := Applied(card, writes[..6 + 1]);
    assert Applied(card, writes[..4 + 1])[..2] == v[..2];
    assert Applied(card, writes[..5 + 1])[..2] == v[..2];
    assert w[0] == v[0] && w[1] == v[1];
    assert writes[..6 + 1] == writes;
    TwinSuperblocks(w, x);
  }

  lemma ClosedLog(card: Card, configuration: ConfigurationBytes, firmware: Text, build: Text)
    returns (s: Store, x: Superblock, pending: Superblock)
    requires CleanCard(card) && MountedStatus(Newest(card, true, true).value, |card|) == Ready
    requires Newest(card, true, true).value.nextSector + 601 <= |card|
    ensures Reached(card, configuration, firmware, build, s, card)
    ensures s.status == Finishing && !s.writeActive && |s.queue| == 9
    ensures s.queue[2] == Write(0, BuildSuperblock(x)) && s.queue[3] == Write(1, BuildSuperblock(x))
    ensures s.queue[4].target >= 2 && s.queue[5].target >= 2 && s.queue[6].target >= 2
    ensures s.queue[7] == Write(0, BuildSuperblock(pending))
    ensures x.logCount == pending.logCount == Newest(card, true, true).value.logCount + 1
    ensures x.nextSector == Newest(card, true, true).value.nextSector + 1 && pending.nextSector == x.nextSector + 2
  {
    hide StoreRun, Inv, Capture, SuperBounded, PageValid, SuperblockValid, LoadSuperblock, LogSound, EntryOf, Reached;
    hide FinishFlight, ParseBlock, BuildSuperblock;
    FoundBounds(card);
    var m := Mount(card, configuration, firmware, build, true, true);
    MountReached(card, configuration, firmware, build);
    ReachedStep(card, configuration, firmware, build, m, card, DoSetConfiguration([]));
    var plain := m.(configuration := []);
    var begun := Capture(plain, card, QuietSample, ReadOk);
    ReachedStep(card, configuration, firmware, build, plain, card, DoCapture(QuietSample, ReadOk));
    if m.logCount % ENTRIES_PER_PAGE != 0 {
      assert EntrySound(card, m.logCount - 1);
      assert (m.logCount - 1) / ENTRIES_PER_PAGE == m.logCount / ENTRIES_PER_PAGE;
    }
    OpensPaced(plain, card);
    Opens(plain, card);
    x :| begun.queue[2] == Write(0, BuildSuperblock(x)) && begun.queue[3] == Write(1, BuildSuperblock(x))
         && x.logCount == begun.logCount && x.nextSector == begun.nextSector;
    ReachedStep(card, configuration, firmware, build, begun, card, DoFinish(0, Disarmed));
    ClosingQueue(begun, |card|, 0, Disarmed);
    s := FinishFlight(begun, |card|, 0, Disarmed);
    pending :| s.queue[7] == Write(0, BuildSuperblock(pending)) && pending.logCount == begun.logCount
               && pending.nextSector == begun.nextSector + 2;
    assert s.queue[2] == s.queue[..4][2] && s.queue[3] == s.queue[..4][3];
  }

  /** What holds of every cut holds of a state that some run reaches. */
  lemma ReachedCut(card: Card, configuration: ConfigurationBytes, firmware: Text, build: Text, s: Store, d: Card)
    requires CleanCard(card) && !Forgetful(card, Chosen(card))
    requires Reached(card, configuration, firmware, build, s, d)
    ensures Geometry(|d|) && Newest(d, true, true).Some? && (CleanCard(d) <==> !Overdue(s, d))
    ensures Overdue(s, d) && Overtakes(d, s.queue[0]) ==> Straddled(d)
    ensures var found := Newest(d, true, true).value;
            found.logCount <= LOG_CAPACITY && forall i | 0 <= i < found.logCount :: EntrySound(d, i)
  {
    hide MountAndRun, CleanCard, Forgetful, Overdue, Overtakes, Straddled, EntrySound, Newest, Remembers;
    var calls :| Formatless(calls) && MountAndRun(card, configuration, firmware, build, calls) == (s, d);
    CutIsCleanExactlyUnlessOverdue(card, configuration, firmware, build, calls);
    PowerCutAnywhere(card, configuration, firmware, build, calls);
    FoundBounds(card);
  }

  /**
   * It can happen: on every clean card with room, some run without formatting that is cut with an overdue superblock
   * leaves a card that is not clean, and the next log destroys the end of the one before it.
   */
  lemma LogCanLoseItsEnd(card: Card, configuration: ConfigurationBytes, firmware: Text, build: Text)
    requires CleanCard(card) && !Forgetful(card, Chosen(card))
    requires MountedStatus(Newest(card, true, true).value, |card|) == Ready
    requires Newest(card, true, true).value.nextSector + 601 <= |card|
    requires Newest(card, true, true).value.logCount + 1 < LOG_CAPACITY
    ensures exists s, d ::
              && Reached(card, configuration, firmware, build, s, d) && |d| >= 2 && Overdue(s, d)
              && !CleanCard(d) && Overwritten(d, configuration, firmware, build)
  {
    hide Reached, CleanCard, Forgetful, Overwritten, Straddled, EntrySound, SuperblockValid, LoadSuperblock, Applied;
    hide BuildSuperblock, Newest;
    FoundBounds(card);
    var s, x, pending := ClosedLog(card, configuration, firmware, build);
    var r, d := Writes(card, configuration, firmware, build, s, card, 7);
    TwinsStay(card, s.queue[..7], x);
    SuperblockRoundTrip(pending);
    assert r.queue[0] == s.queue[7];
    ReachedCut(card, configuration, firmware, build, r, d);
    NextLogOverwrites(d, configuration, firmware, build);
  }
}
