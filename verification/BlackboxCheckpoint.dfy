/** What a power cut leaves of the log that is being recorded. */
module BlackboxCheckpoint {
  import opened Counters
  import opened SystemState
  import opened Bytes
  import opened BlackboxFormat
  import opened BlackboxSamples
  import opened BlackboxDecoder
  import opened BlackboxStore
  import opened BlackboxCard
  import opened BlackboxCrash
  import opened BlackboxContents
  import opened BlackboxRuns
  import opened BlackboxKept
  import opened BlackboxFlights

  /** What the host is to print for a log without a footer that has the first n of the samples. */
  function OpenLogWith(s: Store, n: nat): (log: DecodedLog)
    requires n <= |s.taken|
  {
    DecodedLog(FORMAT_VERSION, s.active.id, SAMPLE_INTERVAL_US, s.startedAt, Kept(s.firmware, 16), Kept(s.build, 32),
               s.configuration, None, ShownAll(s.taken[..n]))
  }

  /** The superblock a mount would choose lists this many logs. */
  predicate Lists(v: Card, count: nat)
    requires |v| >= 2
  {
    Newest(v, true, true).Some? && Newest(v, true, true).value.logCount >= count
  }

  /** The card's entry for the log being recorded lies on sectors already written. */
  ghost predicate EntryPlaced(s: Store, v: Card) {
    && 0 < s.logCount <= LOG_CAPACITY && |v| >= FIRST_DATA_SECTOR
    && var e := Listed(v, s.logCount - 1);
       && e.id == s.active.id && e.startSector == s.active.startSector
       && FIRST_DATA_SECTOR <= e.startSector <= e.endSector < s.nextSector <= |v|
  }

  /** It is still open, and its sectors decode to the first n samples, which it counts but for one still waiting. */
  ghost predicate ListsSamples(s: Store, v: Card, n: nat) {
    && EntryPlaced(s, v) && n <= |s.taken|
    && var e := Listed(v, s.logCount - 1);
       && !e.complete && (e.samples == n % MASK32 || e.samples == (n + 1) % MASK32)
       && DecodeLog(Concat(v[e.startSector..e.endSector + 1])) == Some(OpenLogWith(s, n))
  }

  /** It is closed, and its sectors decode to everything that was recorded. */
  ghost predicate ListsClosed(s: Store, v: Card) {
    && EntryPlaced(s, v)
    && var e := Listed(v, s.logCount - 1);
       e.complete && exists ended, state ::
         DecodeLog(Concat(v[e.startSector..e.endSector + 1])) == Some(ExpectedLog(s, ended, state))
  }

  /** If a mount would list the log, the host can read it. */
  ghost predicate CutReads(s: Store, v: Card, closing: bool) {
    && |v| >= FIRST_DATA_SECTOR
    && (Lists(v, s.logCount) ==> (exists n: nat :: ListsSamples(s, v, n)) || (closing && ListsClosed(s, v)))
  }

  /** So it is at every cut of the queue. */
  ghost predicate CutsRead(s: Store, card: Card, closing: bool) {
    forall k | 0 <= k <= |s.queue| :: CutReads(s, Applied(card, s.queue[..k]), closing)
  }

  /** The queue ends with the log listed as of the last checkpoint. */
  ghost predicate Latest(s: Store, card: Card) {
    var v := Applied(card, s.queue);
    && |v| >= 2 && Lists(v, s.logCount)
    && exists n: nat :: ListsSamples(s, v, n) && s.nextCheckpointAt <= n + 1 + CHECKPOINT_SAMPLE_INTERVAL
  }

  /** The next checkpoint lies ahead, as long as its number fits. */
  predicate Ahead(s: Store) {
    |s.taken| + CHECKPOINT_SAMPLE_INTERVAL < MASK64 ==> |s.taken| < s.nextCheckpointAt
  }

  ghost predicate Recoverable(s: Store, card: Card) {
    && (s.status == Recording ==>
          CutsRead(s, card, false) && Latest(s, card) && Ahead(s) && !s.active.complete)
    && (s.status == Finishing ==> CutsRead(s, card, true))
  }

  /* ---------------- writes elsewhere ---------------- */

  /** The same log, further along. */
  predicate FurtherAlong(s: Store, r: Store, size: nat) {
    && r.logCount == s.logCount && r.active.id == s.active.id && r.active.startSector == s.active.startSector
    && s.nextSector <= r.nextSector <= size && r.configuration == s.configuration && r.firmware == s.firmware
    && r.build == s.build && r.startedAt == s.startedAt && s.taken <= r.taken
  }

  /** The two cards agree on the page of the log's entry and on the log itself. */
  predicate Agree(s: Store, v: Card, w: Card)
    requires |v| >= FIRST_DATA_SECTOR && 0 < s.logCount <= LOG_CAPACITY
  {
    && |w| == |v| && w[PageSector(s.logCount - 1)] == v[PageSector(s.logCount - 1)]
    && forall t | FIRST_DATA_SECTOR <= t < s.nextSector && t < |v| :: w[t] == v[t]
  }

  lemma PlacedElsewhere(s: Store, v: Card, r: Store, w: Card)
    requires EntryPlaced(s, v) && FurtherAlong(s, r, |v|) && Agree(s, v, w)
    ensures EntryPlaced(r, w) && Listed(w, r.logCount - 1) == Listed(v, s.logCount - 1)
    ensures var e := Listed(v, s.logCount - 1); w[e.startSector..e.endSector + 1] == v[e.startSector..e.endSector + 1]
  {
    hide EntryOf;
  }

  lemma StillLists(s: Store, v: Card, r: Store, w: Card, n: nat)
    requires ListsSamples(s, v, n) && FurtherAlong(s, r, |v|) && Agree(s, v, w)
    ensures ListsSamples(r, w, n)
  {
    hide DecodeLog, EntryPlaced, Agree, Listed, Kept, ShownAll;
    PlacedElsewhere(s, v, r, w);
    assert r.taken[..n] == s.taken[..n];
  }

  lemma StillClosed(s: Store, v: Card, r: Store, w: Card)
    requires ListsClosed(s, v) && FurtherAlong(s, r, |v|) && Agree(s, v, w)
    requires r.taken == s.taken && r.dropped == s.dropped
    ensures ListsClosed(r, w)
  {
    hide DecodeLog, Agree, EntryOf, ExpectedLog;
    PlacedElsewhere(s, v, r, w);
    var e := Listed(v, s.logCount - 1);
    var ended, state :| DecodeLog(Concat(v[e.startSector..e.endSector + 1])) == Some(ExpectedLog(s, ended, state));
    SameExpected(s, r, ended, state);
  }

  lemma CutStillReads(s: Store, v: Card, r: Store, w: Card, closing: bool)
    requires CutReads(s, v, closing) && FurtherAlong(s, r, |v|) && 0 < s.logCount <= LOG_CAPACITY && Agree(s, v, w)
    requires Lists(w, s.logCount) ==> Lists(v, s.logCount)
    requires closing ==> r.taken == s.taken && r.dropped == s.dropped
    ensures CutReads(r, w, closing)
  {
    hide Lists, ListsSamples, ListsClosed, Agree, FurtherAlong;
    assert r.logCount == s.logCount && |w| == |v| by { SameCount(s, r, v, w); }
    if Lists(w, s.logCount) {
      if n: nat :| ListsSamples(s, v, n) {
        StillLists(s, v, r, w, n);
      } else {
        StillClosed(s, v, r, w);
      }
    }
  }

  lemma SameCount(s: Store, r: Store, v: Card, w: Card)
    requires |v| >= FIRST_DATA_SECTOR && 0 < s.logCount <= LOG_CAPACITY && FurtherAlong(s, r, |v|) && Agree(s, v, w)
    ensures r.logCount == s.logCount && |w| == |v|
  {
  }

  lemma SelfAgrees(s: Store, v: Card)
    requires |v| >= FIRST_DATA_SECTOR && 0 < s.logCount <= LOG_CAPACITY
    ensures Agree(s, v, v)
  {
  }

  /** The queue and what is listed are the same. */
  lemma SameCuts(s: Store, r: Store, card: Card, closing: bool)
    requires CutsRead(s, card, closing) && FurtherAlong(s, r, |card|) && r.queue == s.queue
    requires 0 < s.logCount <= LOG_CAPACITY && |card| >= FIRST_DATA_SECTOR
    requires closing ==> r.taken == s.taken && r.dropped == s.dropped
    ensures CutsRead(r, card, closing)
  {
    hide CutReads, FurtherAlong, Agree;
    forall k | 0 <= k <= |r.queue|
      ensures CutReads(r, Applied(card, r.queue[..k]), closing)
    {
      var v := Applied(card, s.queue[..k]);
      SelfAgrees(s, v);
      CutStillReads(s, v, r, v, closing);
    }
  }

  lemma SameLatest(s: Store, r: Store, card: Card)
    requires Latest(s, card) && FurtherAlong(s, r, |card|) && r.queue == s.queue
    requires r.nextCheckpointAt == s.nextCheckpointAt && |card| >= FIRST_DATA_SECTOR && 0 < s.logCount <= LOG_CAPACITY
    ensures Latest(r, card)
  {
    hide ListsSamples, Agree, Lists;
    var v := Applied(card, s.queue);
    var n: nat :| ListsSamples(s, v, n) && s.nextCheckpointAt <= n + 1 + CHECKPOINT_SAMPLE_INTERVAL;
    SelfAgrees(s, v);
    StillLists(s, v, r, v, n);
  }

  /** One more write in the queue, after which the log can be read too. */
  lemma OneMoreCut(s: Store, card: Card, r: Store, w: Write, closing: bool)
    requires CutsRead(s, card, closing) && FurtherAlong(s, r, |card|) && r.queue == s.queue + [w]
    requires 0 < s.logCount <= LOG_CAPACITY && |card| >= FIRST_DATA_SECTOR
    requires closing ==> r.taken == s.taken && r.dropped == s.dropped
    requires CutReads(r, Written(Applied(card, s.queue), w), closing)
    ensures CutsRead(r, card, closing)
  {
    hide CutReads, FurtherAlong, Agree, Applied, Written;
    hide CutsRead;
    LastApplied(card, s.queue, w);
    var all := s.queue + [w];
    assert CutReads(r, Applied(card, all), closing);
    forall k | 0 <= k <= |all|
      ensures CutReads(r, Applied(card, all[..k]), closing)
    {
      if k <= |s.queue| {
        EarlierCut(s, card, r, k, closing);
        assert all[..k] == s.queue[..k];
      } else {
        assert all[..k] == all;
      }
    }
    AllCuts(r, card, closing);
  }

  lemma AllCuts(s: Store, card: Card, closing: bool)
    requires forall k | 0 <= k <= |s.queue| :: CutReads(s, Applied(card, s.queue[..k]), closing)
    ensures CutsRead(s, card, closing)
  {
  }

  lemma EarlierCut(s: Store, card: Card, r: Store, k: nat, closing: bool)
    requires CutsRead(s, card, closing) && FurtherAlong(s, r, |card|) && k <= |s.queue|
    requires 0 < s.logCount <= LOG_CAPACITY && |card| >= FIRST_DATA_SECTOR
    requires closing ==> r.taken == s.taken && r.dropped == s.dropped
    ensures CutReads(r, Applied(card, s.queue[..k]), closing)
  {
    hide CutReads, FurtherAlong, Agree, Applied;
    var v := Applied(card, s.queue[..k]);
    SelfAgrees(s, v);
    CutStillReads(s, v, r, v, closing);
  }

  lemma LastCut(s: Store, card: Card, closing: bool)
    requires CutsRead(s, card, closing)
    ensures CutReads(s, Applied(card, s.queue), closing)
  {
    assert s.queue[..|s.queue|] == s.queue;
  }

  /** A block at the next free sector changes nothing that is listed. */
  lemma DataWriteCuts(s: Store, card: Card, r: Store, data: Sector)
    requires CutsRead(s, card, false) && 0 < s.logCount <= LOG_CAPACITY && |card| >= FIRST_DATA_SECTOR
    requires FIRST_DATA_SECTOR <= s.nextSector < |card| && r.queue == s.queue + [Write(s.nextSector, data)]
    requires FurtherAlong(s, r, |card|) && r.nextCheckpointAt == s.nextCheckpointAt
    ensures CutsRead(r, card, false)
    ensures Latest(s, card) ==> Latest(r, card)
  {
    hide CutReads, FurtherAlong, ListsSamples, CutsRead, Applied;
    var v := Applied(card, s.queue);
    var w := Written(v, Write(s.nextSector, data));
    assert w == v[s.nextSector := data];
    LastCut(s, card, false);
    CutStillReads(s, v, r, w, false);
    OneMoreCut(s, card, r, Write(s.nextSector, data), false);
    LastApplied(card, s.queue, Write(s.nextSector, data));
    if Latest(s, card) {
      var n: nat :| ListsSamples(s, v, n) && s.nextCheckpointAt <= n + 1 + CHECKPOINT_SAMPLE_INTERVAL;
      StillLists(s, v, r, w, n);
      assert r.logCount == s.logCount by { SameCount(s, r, v, w); }
    }
  }

  /* ---------------- the metadata ---------------- */

  /** With the metadata queued the log is listed as it stands. */
  lemma MetadataCuts(s: Store, card: Card, n: nat, base: seq<LogInfo>, origin: seq<Superblock>, closing: bool)
    requires Flying(s, card, n, base, origin) && s.active.startSector < s.nextSector && s.pageValid
    requires |s.queue| <= QUEUE_CAPACITY - 3 && s.logCount > 0 && CutsRead(s, card, closing)
    requires var r := EnqueueMetadata(s).0;
             (exists m: nat :: ListsSamples(r, Applied(card, r.queue), m)) ||
             (closing && ListsClosed(r, Applied(card, r.queue)))
    ensures var r := EnqueueMetadata(s).0;
            CutsRead(r, card, closing) && Lists(Applied(card, r.queue), r.logCount)
  {
    hide Flying, CutsGood, CutReads, MetadataPage, BuildSuperblock, ListsSamples, ListsClosed, CutsRead, Applied, Agree;
    hide Written;
    FlightPages(s, card, n, base, origin);
    var page, data := MetadataPage(s), BuildSuperblock(Snapshot(s));
    var target := PageSector(s.logCount - 1);
    var v := Applied(card, s.queue);
    var v1 := Written(v, Write(target, page));
    var v2 := Written(v1, Write(0, data));
    var v3 := Written(v2, Write(1, data));
    var r := EnqueueMetadata(s).0;
    QueuedMetadata(s, target);
    var r1 := s.(queue := s.queue + [Write(target, page)], page := page);
    var r2 := r1.(queue := r1.queue + [Write(0, data)], issued := r.issued);
    LastApplied(card, s.queue, Write(target, page));
    LastApplied(card, r1.queue, Write(0, data));
    LastApplied(card, r2.queue, Write(1, data));
    WrittenAgree(r, v1, data);
    ListedBefore(r, v3, r1, v1, closing);
    OneMoreCut(s, card, r1, Write(target, page), closing);
    ListedBefore(r, v3, r2, v2, closing);
    OneMoreCut(r1, card, r2, Write(0, data), closing);
    ListedBefore(r, v3, r, v3, closing);
    OneMoreCut(r2, card, r, Write(1, data), closing);
    TwinSuperblocks(v3, Snapshot(s));
  }

  lemma QueuedMetadata(s: Store, target: nat)
    requires s.logCount > 0 && |s.queue| <= QUEUE_CAPACITY - 3 && target == FIRST_CATALOG_SECTOR + s.pageIndex
    ensures var r := EnqueueMetadata(s).0;
            var data := BuildSuperblock(Snapshot(s));
            && r.queue == s.queue + [Write(target, MetadataPage(s))] + [Write(0, data)] + [Write(1, data)]
            && r == s.(queue := r.queue, page := MetadataPage(s), issued := r.issued)
  {
    hide BuildSuperblock, SealPage, PutEntry;
  }

  /** The superblocks are none of the log's sectors. */
  lemma WrittenAgree(r: Store, v: Card, data: Sector)
    requires |v| >= FIRST_DATA_SECTOR && 0 < r.logCount <= LOG_CAPACITY
    ensures var w := Written(v, Write(0, data));
            var x := Written(w, Write(1, data));
            && |x| == |v| && x[0] == data && x[1] == data
            && Agree(r, x, v) && Agree(r, x, w) && Agree(r, x, x)
  {
  }

  /** What a card lists after the superblocks it listed before them. */
  lemma ListedBefore(r: Store, v: Card, p: Store, w: Card, closing: bool)
    requires |v| >= FIRST_DATA_SECTOR && 0 < r.logCount <= LOG_CAPACITY
    requires (exists m: nat :: ListsSamples(r, v, m)) || (closing && ListsClosed(r, v))
    requires p == r.(queue := p.queue, issued := p.issued)
    requires Agree(r, v, w) && r.nextSector <= |v|
    ensures CutReads(p, w, closing)
  {
    hide ListsSamples, ListsClosed, Agree;
    if m: nat :| ListsSamples(r, v, m) {
      StillLists(r, v, p, w, m);
    } else {
      StillClosed(r, v, p, w);
    }
    assert |w| == |v| by { SameCount(r, p, v, w); }
  }

  lemma FlightPages(s: Store, card: Card, n: nat, base: seq<LogInfo>, origin: seq<Superblock>)
    requires Flying(s, card, n, base, origin)
    ensures 0 < s.logCount <= LOG_CAPACITY && |card| >= FIRST_DATA_SECTOR && s.pageIndex < CATALOG_PAGE_COUNT
    ensures FIRST_CATALOG_SECTOR + s.pageIndex == PageSector(s.logCount - 1)
    ensures FIRST_DATA_SECTOR <= s.active.startSector <= s.nextSector <= |card| < MASK32
    ensures s.active.startSector < s.nextSector ==> s.active.endSector + 1 == s.nextSector
    ensures PageMatches(s, Applied(card, s.queue))
  {
    hide CatalogSound, SuperBounded, BlockAt, EntryOf, HeadedPage, CutsGood, BaseKept, ActiveListed;
  }

  /** And its entry is the one in memory. */
  lemma MetadataEntry(s: Store, card: Card, n: nat, base: seq<LogInfo>, origin: seq<Superblock>)
    requires Flying(s, card, n, base, origin) && |s.queue| <= QUEUE_CAPACITY - 3 && s.logCount > 0
    ensures var r := EnqueueMetadata(s).0;
            && |card| >= FIRST_DATA_SECTOR && 0 < s.logCount <= LOG_CAPACITY
            && Listed(Applied(card, r.queue), s.logCount - 1) == s.active
  {
    hide Flying, CutsGood, MetadataPage, BuildSuperblock, EntryOf, Applied, PageMatches, Written;
    FlightPages(s, card, n, base, origin);
    MetadataPageEntries(s, Applied(card, s.queue));
    var page, data := MetadataPage(s), BuildSuperblock(Snapshot(s));
    var target := PageSector(s.logCount - 1);
    QueuedMetadata(s, target);
    LastApplied(card, s.queue, Write(target, page));
    LastApplied(card, s.queue + [Write(target, page)], Write(0, data));
    LastApplied(card, s.queue + [Write(target, page)] + [Write(0, data)], Write(1, data));
    PageStays(Applied(card, s.queue), target, page, data);
  }

  lemma PageStays(v: Card, target: nat, page: Sector, data: Sector)
    requires |v| >= FIRST_DATA_SECTOR && FIRST_CATALOG_SECTOR <= target < FIRST_DATA_SECTOR
    ensures Written(Written(Written(v, Write(target, page)), Write(0, data)), Write(1, data))[target] == page
  {
  }

  /** A log without a footer decodes to the samples its blocks hold. */
  lemma OpenBlocksDecode(s: Store, blocks: seq<Block>, n: nat)
    requires Content(s, blocks, s.startedAt, |s.configuration|, n)
    ensures n <= |s.taken| && blocks != [] && blocks[0].version == FORMAT_VERSION
    ensures DecodeBlocks(blocks) == Some(OpenLogWith(s, n))
  {
    hide HeaderPayload, LogSamples, ConfigurationIn, LastOfKind, FirstOfKind, ShownAll, Crc32, GetU32, GetU64;
    hide UntilZero, Kept;
    HeaderReads(s, s.startedAt);
    assert s.configuration[..|s.configuration|] == s.configuration;
  }

  /** With its metadata queued, the log is listed with the samples its blocks hold. */
  lemma MetadataListsSamples(s: Store, card: Card, m: nat, base: seq<LogInfo>, origin: seq<Superblock>,
                             blocks: seq<Block>, n: nat)
    requires Flying(s, card, m, base, origin) && |s.queue| <= QUEUE_CAPACITY - 3 && s.logCount > 0
    requires s.active.startSector < s.nextSector && !s.active.complete
    requires BlocksAre(s, card, blocks) && Content(s, blocks, s.startedAt, |s.configuration|, n)
    requires s.active.samples == n % MASK32 || s.active.samples == (n + 1) % MASK32
    ensures var r := EnqueueMetadata(s).0; ListsSamples(r, Applied(card, r.queue), n)
  {
    hide Flying, BlocksAre, Content, EnqueueMetadata, DecodeLog, DecodeBlocks, Applied, Listed, Kept, ShownAll;
    hide ParseAll, Concat;
    FlightPages(s, card, m, base, origin);
    MetadataKeepsBlocks(s, card, blocks);
    MetadataKeepsActive(s);
    MetadataEntry(s, card, m, base, origin);
    var r := EnqueueMetadata(s).0;
    OpenBlocksDecode(s, blocks, n);
    BlocksParse(r, card, blocks);
    ParsedDecodes(LogSectors(r, card), blocks);
    assert LogSectors(r, card) == Applied(card, r.queue)[r.active.startSector..r.active.endSector + 1];
  }

  /* ---------------- one sample ---------------- */

  /** A block appended to the log. */
  lemma AppendCuts(s: Store, card: Card, n: nat, base: seq<LogInfo>, origin: seq<Superblock>, buffer: Sector,
                   kind: Kind, items: Kind, length: Length)
    requires Flying(s, card, n, base, origin) && CutsRead(s, card, false)
    ensures var (r, ok) := AppendBlock(s, |card|, buffer, kind, items, length);
            && r.active == s.active.(endSector := r.active.endSector)
            && (ok ==> CutsRead(r, card, false) && (Latest(s, card) ==> Latest(r, card)) && |r.queue| == |s.queue| + 1)
  {
    hide Flying, CutsRead, Latest, AppendBlock, FurtherAlong;
    FlightPages(s, card, n, base, origin);
    Appended(s, |card|, buffer, kind, items, length);
    var (r, ok) := AppendBlock(s, |card|, buffer, kind, items, length);
    if ok {
      DataWriteCuts(s, card, r, Finalize(buffer, kind, s.active.id, s.blockSequence, items, length));
    }
  }

  lemma Appended(s: Store, size: nat, buffer: Sector, kind: Kind, items: Kind, length: Length)
    requires size < MASK32
    ensures var (r, ok) := AppendBlock(s, size, buffer, kind, items, length);
            && r.active == s.active.(endSector := r.active.endSector)
            && (ok ==>
                  && s.nextSector < size && FurtherAlong(s, r, size)
                  && r.queue == s.queue + [Write(s.nextSector, Finalize(buffer, kind, s.active.id, s.blockSequence,
                                                                        items, length))])
  {
    hide Finalize;
  }

  /** A checkpoint comes when it is due, and lists the log as it stands. */
  lemma CheckpointReads(s: Store, card: Card, base: seq<LogInfo>, origin: seq<Superblock>, blocks: seq<Block>)
    requires Flying(s, card, s.logCount, base, origin) && s.pageValid && s.active.startSector < s.nextSector
    requires s.logCount > 0 && |s.queue| <= QUEUE_CAPACITY - 3 && Holds(s, card, blocks) && s.samplesInBlock <= 1
    requires CutsRead(s, card, false) && Latest(s, card) && !s.active.complete
    requires |s.taken| + CHECKPOINT_SAMPLE_INTERVAL < MASK64 ==> |s.taken| <= s.nextCheckpointAt
    ensures var r := Checkpoint(s);
            CutsRead(r, card, false) && Latest(r, card) && Ahead(r) && !r.active.complete
  {
    hide Flying, CutsRead, Latest, Holds, EnqueueMetadata, Checkpoint, Counted, BlocksAre, Content;
    NextCheckpoint(s, card, blocks);
    CheckpointIs(s);
    if s.captured >= s.nextCheckpointAt {
      CountedReads(s, card, base, origin, blocks);
      ListedNext(Counted(s), card, base, origin, blocks, |s.taken| - s.samplesInBlock,
                 (s.nextCheckpointAt + CHECKPOINT_SAMPLE_INTERVAL) % MASK64);
    }
  }

  lemma ListedNext(s: Store, card: Card, base: seq<LogInfo>, origin: seq<Superblock>, blocks: seq<Block>, n: nat,
                   at: uint64)
    requires Flying(s, card, s.logCount, base, origin) && s.pageValid && s.active.startSector < s.nextSector
    requires s.logCount > 0 && |s.queue| <= QUEUE_CAPACITY - 3 && CutsRead(s, card, false) && !s.active.complete
    requires BlocksAre(s, card, blocks) && Content(s, blocks, s.startedAt, |s.configuration|, n)
    requires s.active.samples == n % MASK32 || s.active.samples == (n + 1) % MASK32
    requires at <= n + 1 + CHECKPOINT_SAMPLE_INTERVAL
    requires |s.taken| + CHECKPOINT_SAMPLE_INTERVAL < MASK64 ==> |s.taken| < at
    ensures var r := EnqueueMetadata(s).0.(nextCheckpointAt := at);
            CutsRead(r, card, false) && Latest(r, card) && Ahead(r) && !r.active.complete
  {
    hide Flying, CutsRead, Latest, BlocksAre, Content, EnqueueMetadata;
    ListedAt(s, card, s.logCount, base, origin, blocks, n, EnqueueMetadata(s).0.(nextCheckpointAt := at));
  }

  lemma CountedReads(s: Store, card: Card, base: seq<LogInfo>, origin: seq<Superblock>, blocks: seq<Block>)
    requires Flying(s, card, s.logCount, base, origin) && Holds(s, card, blocks) && s.samplesInBlock <= 1
    requires CutsRead(s, card, false)
    ensures var r, n := Counted(s), |s.taken| - s.samplesInBlock;
            && Flying(r, card, s.logCount, base, origin) && CutsRead(r, card, false)
            && r == s.(active := r.active, generation := r.generation) && r.active.startSector == s.active.startSector
            && r.active.complete == s.active.complete
            && BlocksAre(r, card, blocks) && n >= 0 && Content(r, blocks, r.startedAt, |r.configuration|, n)
            && (r.active.samples == n % MASK32 || r.active.samples == (n + 1) % MASK32)
  {
    hide Flying, CutsRead, Holds, FurtherAlong;
    SameFlight(s, Counted(s), card, s.logCount, base, origin);
    CountedHolds(s, Counted(s), card, blocks);
    FlightPages(s, card, s.logCount, base, origin);
    Restates(s, Counted(s), card);
    SameCuts(s, Counted(s), card, false);
  }

  /** The log's entry brought up to date for a checkpoint. */
  function Counted(s: Store): (r: Store) {
    NextGeneration(s.(active := s.active.(samples := s.captured % MASK32, dropped := s.dropped % MASK32)))
  }

  lemma CheckpointIs(s: Store)
    requires s.logCount > 0 && |s.queue| <= QUEUE_CAPACITY - 3
    ensures Checkpoint(s) ==
            if s.captured < s.nextCheckpointAt then s
            else EnqueueMetadata(Counted(s)).0.(
              nextCheckpointAt := (s.nextCheckpointAt + CHECKPOINT_SAMPLE_INTERVAL) % MASK64)
    ensures Checkpoint(s).taken == s.taken
  {
    hide EnqueueMetadata;
    ThreeSlotsSuffice(Counted(s));
  }

  lemma Restates(s: Store, r: Store, card: Card)
    requires r == s.(active := r.active, generation := r.generation, page := r.page, queue := r.queue,
                     issued := r.issued, nextCheckpointAt := r.nextCheckpointAt, nextSampleAt := r.nextSampleAt,
                     status := r.status, samplesInBlock := r.samplesInBlock, armedSeen := r.armedSeen,
                     finishAfter := r.finishAfter, dropped := r.dropped, previousState := r.previousState,
                     writeActive := r.writeActive)
    requires r.active.id == s.active.id && r.active.startSector == s.active.startSector && s.nextSector <= |card|
    ensures FurtherAlong(s, r, |card|)
  {
  }

  lemma ListedAt(s: Store, card: Card, m: nat, base: seq<LogInfo>, origin: seq<Superblock>, blocks: seq<Block>, n: nat,
                 r: Store)
    requires Flying(s, card, m, base, origin) && s.pageValid && s.active.startSector < s.nextSector
    requires s.logCount > 0 && |s.queue| <= QUEUE_CAPACITY - 3 && CutsRead(s, card, false) && !s.active.complete
    requires BlocksAre(s, card, blocks) && Content(s, blocks, s.startedAt, |s.configuration|, n)
    requires s.active.samples == n % MASK32 || s.active.samples == (n + 1) % MASK32
    requires r == EnqueueMetadata(s).0.(nextCheckpointAt := r.nextCheckpointAt, nextSampleAt := r.nextSampleAt,
                                        samplesInBlock := r.samplesInBlock, armedSeen := r.armedSeen,
                                        finishAfter := r.finishAfter, status := r.status)
    requires r.nextCheckpointAt <= n + 1 + CHECKPOINT_SAMPLE_INTERVAL
    ensures CutsRead(r, card, false) && Latest(r, card) && r.active == s.active
  {
    hide Flying, CutsRead, Latest, BlocksAre, Content, EnqueueMetadata, ListsSamples, Applied, Lists, FurtherAlong;
    MetadataListsSamples(s, card, m, base, origin, blocks, n);
    MetadataCuts(s, card, m, base, origin, false);
    MetadataKeepsActive(s);
    FlightPages(s, card, m, base, origin);
    var listed := EnqueueMetadata(s).0;
    Restates(listed, r, card);
    SameCuts(listed, r, card, false);
    LatestIs(listed, r, card, n);
  }

  /** The number of the next checkpoint stays ahead of the samples, and at most 500 beyond those stored. */
  lemma NextCheckpoint(s: Store, card: Card, blocks: seq<Block>)
    requires Holds(s, card, blocks) && s.samplesInBlock <= 1 && s.logCount > 0
    requires |s.taken| + CHECKPOINT_SAMPLE_INTERVAL < MASK64 ==> |s.taken| <= s.nextCheckpointAt
    ensures s.samplesInBlock <= |s.taken|
    ensures s.captured >= s.nextCheckpointAt ==>
              var at := (s.nextCheckpointAt + CHECKPOINT_SAMPLE_INTERVAL) % MASK64;
              && at <= |s.taken| - s.samplesInBlock + 1 + CHECKPOINT_SAMPLE_INTERVAL
              && (|s.taken| + CHECKPOINT_SAMPLE_INTERVAL < MASK64 ==> |s.taken| < at)
    ensures s.captured < s.nextCheckpointAt ==> Ahead(s)
  {
    hide BlocksAre, Content, PendingAt;
  }

  lemma CountedHolds(s: Store, next: Store, card: Card, blocks: seq<Block>)
    requires Holds(s, card, blocks) && s.samplesInBlock <= 1
    requires next == s.(active := s.active.(samples := s.captured % MASK32, dropped := next.active.dropped),
                        generation := next.generation)
    ensures BlocksAre(next, card, blocks)
    ensures var n := |s.taken| - s.samplesInBlock;
            && n >= 0 && Content(next, blocks, next.startedAt, |next.configuration|, n)
            && (next.active.samples == n % MASK32 || next.active.samples == (n + 1) % MASK32)
  {
    hide BlocksAre, Content, PendingAt;
    SameBlocks(s, next, card, blocks);
    SameContent(s, next, blocks, |s.taken| - s.samplesInBlock);
    CapturedIsTaken(s);
  }

  lemma SameContent(s: Store, r: Store, blocks: seq<Block>, n: nat)
    requires Content(s, blocks, s.startedAt, |s.configuration|, n)
    requires r.configuration == s.configuration && r.firmware == s.firmware && r.build == s.build
    requires r.active.id == s.active.id && r.startedAt == s.startedAt && r.taken == s.taken
    ensures Content(r, blocks, r.startedAt, |r.configuration|, n)
  {
    hide HeaderPayload, LogSamples, ConfigurationIn, LastOfKind, FirstOfKind, ShownAll;
    SameHeader(s, r, s.startedAt);
  }

  lemma LatestIs(s: Store, r: Store, card: Card, n: nat)
    requires |card| >= FIRST_DATA_SECTOR && 0 < s.logCount <= LOG_CAPACITY
    requires ListsSamples(s, Applied(card, s.queue), n) && Lists(Applied(card, s.queue), s.logCount)
    requires FurtherAlong(s, r, |card|) && r.queue == s.queue
    requires r.nextCheckpointAt <= n + 1 + CHECKPOINT_SAMPLE_INTERVAL
    ensures Latest(r, card)
  {
    hide ListsSamples, Agree, Lists, Applied;
    var v := Applied(card, s.queue);
    SelfAgrees(s, v);
    StillLists(s, v, r, v, n);
  }

  /** Taking a sample in keeps what a cut leaves readable and lists it in time. */
  lemma TakeReads(s: Store, card: Card, base: seq<LogInfo>, origin: seq<Superblock>, blocks: seq<Block>,
                  sample: Sample)
    requires Flying(s, card, s.logCount, base, origin) && s.pageValid && s.active.startSector < s.nextSector
    requires s.logCount > 0 && Holds(s, card, blocks) && s.samplesInBlock < SAMPLES_PER_BLOCK
    requires CutsRead(s, card, false) && Latest(s, card) && Ahead(s) && !s.active.complete
    ensures var r := TakeSample(s, |card|, sample);
            r.status == Error || (CutsRead(r, card, false) && Latest(r, card) && Ahead(r) && !r.active.complete)
  {
    hide Flying, CutsRead, Latest, Holds, FlushSamples, Checkpoint, EncodeSample, Put;
    FlightPages(s, card, s.logCount, base, origin);
    if |s.queue| >= QUEUE_CAPACITY - 4 {
      SameCuts(s, AddDropped(s, 1), card, false);
      SameLatest(s, AddDropped(s, 1), card);
      return;
    }
    var taken := s.(
      block := Put(s.block, HEADER_SIZE + s.samplesInBlock * SAMPLE_SIZE,
                   EncodeSample(sample, (s.captured + 1) % MASK32)),
      samplesInBlock := s.samplesInBlock + 1, captured := (s.captured + 1) % MASK64, taken := s.taken + [sample]);
    SameFlight(s, taken, card, s.logCount, base, origin);
    SameCuts(s, taken, card, false);
    SameLatest(s, taken, card);
    EncodedHolds(s, card, blocks, sample, taken);
    if taken.samplesInBlock < SAMPLES_PER_BLOCK {
      CheckpointReads(taken, card, base, origin, blocks);
    } else {
      FlushReads(taken, card, base, origin, blocks);
      FlushKeeps(taken, card, base, origin);
      var (flushed, ok) := FlushSamples(taken, |card|);
      if ok {
        var all :| Holds(flushed, card, all);
        CheckpointReads(flushed, card, base, origin, all);
      }
    }
  }

  lemma EncodedHolds(s: Store, card: Card, blocks: seq<Block>, sample: Sample, taken: Store)
    requires Holds(s, card, blocks) && s.samplesInBlock < SAMPLES_PER_BLOCK
    requires taken == s.(
      block := Put(s.block, HEADER_SIZE + s.samplesInBlock * SAMPLE_SIZE,
                   EncodeSample(sample, (s.captured + 1) % MASK32)),
      samplesInBlock := s.samplesInBlock + 1, captured := (s.captured + 1) % MASK64, taken := s.taken + [sample])
    ensures Holds(taken, card, blocks)
  {
    hide BlocksAre, HeaderPayload, LogSamples, ConfigurationIn, LastOfKind, FirstOfKind, ShownAll, EncodeSample, Put;
    hide PendingAt;
    EncodedSample(s, sample, taken);
    SameBlocks(s, taken, card, blocks);
    SameHeader(s, taken, s.startedAt);
    assert taken.taken[..|s.taken| - s.samplesInBlock] == s.taken[..|s.taken| - s.samplesInBlock];
  }

  lemma FlushReads(s: Store, card: Card, base: seq<LogInfo>, origin: seq<Superblock>, blocks: seq<Block>)
    requires Flying(s, card, s.logCount, base, origin) && Holds(s, card, blocks) && s.samplesInBlock > 0
    requires CutsRead(s, card, false) && s.samplesInBlock <= SAMPLES_PER_BLOCK
    ensures var (r, ok) := FlushSamples(s, |card|);
            && r.active == s.active.(endSector := r.active.endSector)
            && (ok ==>
                  && CutsRead(r, card, false) && (Latest(s, card) ==> Latest(r, card)) && |r.queue| == |s.queue| + 1
                  && exists all :: Holds(r, card, all))
  {
    hide Flying, CutsRead, Latest, Holds, AppendBlock;
    FlightPages(s, card, s.logCount, base, origin);
    var length := s.samplesInBlock * SAMPLE_SIZE;
    AppendCuts(s, card, s.logCount, base, origin, s.block, SAMPLES, s.samplesInBlock, length);
    FlushContent(s, card, blocks);
    var appended := AppendBlock(s, |card|, s.block, SAMPLES, s.samplesInBlock, length).0;
    var (r, ok) := FlushSamples(s, |card|);
    if ok {
      AppendedBounds(s, card, s.logCount, base, origin, s.block, SAMPLES, s.samplesInBlock, length);
      SameCuts(appended, r, card, false);
      if Latest(s, card) {
        SameLatest(appended, r, card);
      }
    }
  }

  lemma AppendedBounds(s: Store, card: Card, n: nat, base: seq<LogInfo>, origin: seq<Superblock>, buffer: Sector,
                       kind: Kind, items: Kind, length: Length)
    requires Flying(s, card, n, base, origin)
    ensures var (r, ok) := AppendBlock(s, |card|, buffer, kind, items, length);
            ok ==> r.nextSector <= |card|
  {
    hide Flying, Finalize;
    FlightPages(s, card, n, base, origin);
  }

  /** What a recording keeps while it goes on. */
  ghost predicate Going(s: Store, card: Card) {
    CutsRead(s, card, false) && Latest(s, card) && Ahead(s) && !s.active.complete
  }

  lemma SameGoing(s: Store, r: Store, card: Card)
    requires Going(s, card) && FurtherAlong(s, r, |card|) && r.queue == s.queue && r.taken == s.taken
    requires r.nextCheckpointAt == s.nextCheckpointAt && r.active == s.active
    requires |card| >= FIRST_DATA_SECTOR && 0 < s.logCount <= LOG_CAPACITY
    ensures Going(r, card)
  {
    hide CutsRead, Latest, FurtherAlong;
    SameCuts(s, r, card, false);
    SameLatest(s, r, card);
  }

  lemma OpenIsClosing(s: Store, card: Card)
    requires CutsRead(s, card, false)
    ensures CutsRead(s, card, true)
  {
    hide ListsSamples, ListsClosed, Lists, Applied;
    forall k | 0 <= k <= |s.queue|
      ensures CutReads(s, Applied(card, s.queue[..k]), true)
    {
      assert CutReads(s, Applied(card, s.queue[..k]), false);
    }
  }

  lemma MetadataFits(s: Store)
    requires s.logCount > 0 && EnqueueMetadata(s).1
    ensures |s.queue| <= QUEUE_CAPACITY - 3
  {
    hide SealPage, PutEntry, BuildSuperblock;
  }

  /** Closing the log: every cut finds it as of a checkpoint, or closed. */
  lemma FinishReads(s: Store, card: Card, base: seq<LogInfo>, origin: seq<Superblock>, blocks: seq<Block>,
                    timestamp: uint64, state: State)
    requires Flying(s, card, s.logCount, base, origin) && s.pageValid && s.active.startSector < s.nextSector
    requires s.logCount > 0 && Holds(s, card, blocks) && s.samplesInBlock <= SAMPLES_PER_BLOCK
    requires CutsRead(s, card, false)
    ensures var r := FinishFlight(s, |card|, timestamp, state);
            r.status == Finishing ==> CutsRead(r, card, true)
  {
    hide Flying, CutsRead, Holds, AppendBlock, FlushSamples, EnqueueMetadata, WithPayload, FooterPayload, Decodes;
    hide FurtherAlong;
    FlightPages(s, card, s.logCount, base, origin);
    var r := FinishFlight(s, |card|, timestamp, state);
    if r.status == Finishing {
      FinishContent(s, card, blocks, timestamp, state);
      FlushKeeps(s, card, base, origin);
      FlushedReads(s, card, base, origin, blocks);
      var flushed := FlushSamples(s, |card|).0;
      var footer := WithPayload(FooterPayload(flushed, timestamp, state));
      AppendBlockKeeps(flushed, card, s.logCount, base, origin, footer, FLIGHT_FOOTER, 1, 20);
      AppendCuts(flushed, card, s.logCount, base, origin, footer, FLIGHT_FOOTER, 1, 20);
      var footed := AppendBlock(flushed, |card|, footer, FLIGHT_FOOTER, 1, 20).0;
      ClosingReads(footed, card, base, origin, s.captured, s.dropped, timestamp, state, r);
    }
  }

  lemma FlushedReads(s: Store, card: Card, base: seq<LogInfo>, origin: seq<Superblock>, blocks: seq<Block>)
    requires Flying(s, card, s.logCount, base, origin) && Holds(s, card, blocks)
    requires CutsRead(s, card, false) && s.samplesInBlock <= SAMPLES_PER_BLOCK
    ensures var (r, ok) := FlushSamples(s, |card|); ok ==> CutsRead(r, card, false)
  {
    hide Flying, CutsRead, Holds, AppendBlock;
    if s.samplesInBlock > 0 {
      FlushReads(s, card, base, origin, blocks);
    }
  }

  lemma ClosingReads(footed: Store, card: Card, base: seq<LogInfo>, origin: seq<Superblock>, captured: uint64,
                     dropped: uint64, timestamp: uint64, state: State, r: Store)
    requires footed.logCount > 0 && footed.active.startSector < footed.nextSector && footed.pageValid
    requires Flying(footed, card, footed.logCount, base, origin) && CutsRead(footed, card, false)
    requires var closed := NextGeneration(footed.(active := footed.active.(
                             samples := captured % MASK32, dropped := dropped % MASK32, complete := true)));
             EnqueueMetadata(closed).1 && r == EnqueueMetadata(closed).0.(status := Finishing)
    requires Decodes(r, card, timestamp, state)
    ensures CutsRead(r, card, true)
  {
    hide Flying, CutsRead, EnqueueMetadata, Decodes, FurtherAlong, ListsClosed, ListsSamples;
    var closed := NextGeneration(footed.(active := footed.active.(
                      samples := captured % MASK32, dropped := dropped % MASK32, complete := true)));
    FlightPages(footed, card, footed.logCount, base, origin);
    SameFlight(footed, closed, card, footed.logCount, base, origin);
    Restates(footed, closed, card);
    SameCuts(footed, closed, card, false);
    OpenIsClosing(closed, card);
    MetadataFits(closed);
    MetadataEntry(closed, card, footed.logCount, base, origin);
    MetadataKeepsActive(closed);
    FlightPages(closed, card, footed.logCount, base, origin);
    var listed := EnqueueMetadata(closed).0;
    DecodedIsClosed(listed, r, card, timestamp, state);
    MetadataCuts(closed, card, footed.logCount, base, origin, true);
    Restates(listed, r, card);
    SameCuts(listed, r, card, true);
  }

  lemma DecodedIsClosed(s: Store, r: Store, card: Card, ended: uint64, state: State)
    requires Decodes(r, card, ended, state) && r == s.(status := r.status)
    requires |card| >= FIRST_DATA_SECTOR && 0 < s.logCount <= LOG_CAPACITY
    requires Listed(Applied(card, s.queue), s.logCount - 1) == s.active && s.active.endSector + 1 == s.nextSector
    requires FIRST_DATA_SECTOR <= s.active.startSector && s.nextSector <= |card|
    ensures ListsClosed(s, Applied(card, s.queue))
  {
    hide DecodeLog, ExpectedLog, Applied, Concat, Listed, ListsClosed, Decodes;
    DecodedSectors(r, card, ended, state);
    SameExpected(r, s, ended, state);
    IsClosed(s, Applied(card, s.queue), ended, state);
  }

  lemma DecodedSectors(s: Store, card: Card, ended: uint64, state: State)
    requires Decodes(s, card, ended, state)
    ensures s.active.startSector <= s.active.endSector < |card| && s.active.complete
    ensures DecodeLog(Concat(Applied(card, s.queue)[s.active.startSector..s.active.endSector + 1])) ==
            Some(ExpectedLog(s, ended, state))
  {
    hide DecodeLog, ExpectedLog, Applied, LogSectors;
    SectorsOf(s, card);
  }

  lemma SectorsOf(s: Store, card: Card)
    requires s.active.startSector <= s.active.endSector < |card|
    ensures LogSectors(s, card) == Applied(card, s.queue)[s.active.startSector..s.active.endSector + 1]
  {
    hide Applied;
  }

  lemma IsClosed(s: Store, v: Card, ended: uint64, state: State)
    requires EntryPlaced(s, v) && Listed(v, s.logCount - 1) == s.active && s.active.complete
    requires DecodeLog(Concat(v[s.active.startSector..s.active.endSector + 1])) == Some(ExpectedLog(s, ended, state))
    ensures ListsClosed(s, v)
  {
    hide DecodeLog, ExpectedLog, Concat, Listed, EntryPlaced;
  }

  /* ---------------- every call ---------------- */

  lemma RecordReads(s: Store, card: Card, base: seq<LogInfo>, origin: seq<Superblock>, blocks: seq<Block>,
                    sample: Sample)
    requires Flying(s, card, s.logCount, base, origin) && s.samplesInBlock < SAMPLES_PER_BLOCK && s.pageValid
    requires s.active.startSector < s.nextSector && s.logCount > 0 && s.status == Recording
    requires Holds(s, card, blocks) && Going(s, card)
    ensures Recoverable(RecordSample(s, |card|, sample), card)
  {
    hide Flying, CutsRead, Latest, Holds, TakeSample, FinishFlight, Releases, Closes, Timed, Missed, FurtherAlong;
    FlightPages(s, card, s.logCount, base, origin);
    SampledReads(s, card, base, origin, blocks, sample);
    var taken := Sampled(s, |card|, sample);
    if taken.status != Error {
      var all :| Holds(taken, card, all);
      FlightPages(taken, card, s.logCount, base, origin);
      if !Closes(s, sample) {
        Restates(taken, taken.(previousState := sample.state), card);
        SameGoing(taken, taken.(previousState := sample.state), card);
      } else {
        FinishReads(taken, card, base, origin, all, sample.timestamp, sample.state);
        FinishedStatus(taken, |card|, sample.timestamp, sample.state);
        FinishKeeps(taken, card, base, origin, sample.timestamp, sample.state);
        var closed := FinishFlight(taken, |card|, sample.timestamp, sample.state);
        if closed.status == Finishing {
          FlightPages(closed, card, closed.logCount, base, origin);
          Restates(closed, closed.(previousState := sample.state), card);
          SameCuts(closed, closed.(previousState := sample.state), card, true);
        }
      }
    }
  }

  lemma SampledReads(s: Store, card: Card, base: seq<LogInfo>, origin: seq<Superblock>, blocks: seq<Block>,
                     sample: Sample)
    requires Flying(s, card, s.logCount, base, origin) && s.samplesInBlock < SAMPLES_PER_BLOCK && s.pageValid
    requires s.active.startSector < s.nextSector && s.logCount > 0 && s.status == Recording
    requires Holds(s, card, blocks) && Going(s, card)
    ensures var r := Sampled(s, |card|, sample);
            r.status != Error ==>
              && Going(r, card) && Flying(r, card, s.logCount, base, origin) && r.pageValid
              && r.active.startSector < r.nextSector && exists all :: Holds(r, card, all)
  {
    hide Flying, CutsRead, Latest, Holds, TakeSample, Releases, Closes, Timed, Missed, FurtherAlong;
    FlightPages(s, card, s.logCount, base, origin);
    var timed, missed := Timed(s, sample), Missed(s, sample);
    Restates(s, timed, card);
    Restates(s, missed, card);
    SameGoing(s, timed, card);
    SameGoing(s, missed, card);
    SameHolds(s, timed, card, blocks);
    SameHolds(s, missed, card, blocks);
    SameFlight(s, timed, card, s.logCount, base, origin);
    SameFlight(s, missed, card, s.logCount, base, origin);
    TakeReads(missed, card, base, origin, blocks, sample);
    TakeKeeps(missed, card, base, origin, sample);
    TakeContent(missed, card, blocks, sample);
  }

  lemma ServiceReads(s: Store, card: Card, reply: CardReply)
    requires Recoverable(s, card) && |card| >= FIRST_DATA_SECTOR
    requires s.status == Recording || s.status == Finishing ==> 0 < s.logCount <= LOG_CAPACITY && s.nextSector <= |card|
    ensures var (r, c) := Service(s, card, reply); Recoverable(r, c)
  {
    hide CutsRead, Latest, FurtherAlong, Applied, Written;
    var (r, c) := Service(s, card, reply);
    if s.status == Recording || s.status == Finishing {
      if s.queue != [] && s.writeActive && reply == CardOk {
        var shorter := s.(queue := s.queue[1..]);
        FirstCutDone(s, card, s.status == Finishing);
        Restates(shorter, r, c);
        if r.status == s.status {
          SameCuts(shorter, r, c, s.status == Finishing);
        }
        if s.status == Recording {
          FirstWriteDone(card, s.queue);
          LatestShifts(s, card, shorter, c);
          SameLatest(shorter, r, c);
        }
      } else if r.status == s.status {
        Restates(s, r, card);
        SameCuts(s, r, card, s.status == Finishing);
        if s.status == Recording {
          SameLatest(s, r, card);
        }
      }
    }
  }

  lemma FirstCutDone(s: Store, card: Card, closing: bool)
    requires CutsRead(s, card, closing) && s.queue != []
    ensures CutsRead(s.(queue := s.queue[1..]), Written(card, s.queue[0]), closing)
  {
    hide CutReads, Applied, Written;
    var r, c := s.(queue := s.queue[1..]), Written(card, s.queue[0]);
    forall k | 0 <= k <= |r.queue|
      ensures CutReads(r, Applied(c, r.queue[..k]), closing)
    {
      FirstWriteDone(card, s.queue[..k + 1]);
      assert s.queue[..k + 1][1..] == r.queue[..k];
      assert CutReads(s, Applied(card, s.queue[..k + 1]), closing);
      SameQueueless(s, r, Applied(c, r.queue[..k]), closing);
    }
  }

  lemma SameQueueless(s: Store, r: Store, v: Card, closing: bool)
    requires CutReads(s, v, closing) && r == s.(queue := r.queue)
    ensures CutReads(r, v, closing)
  {
    hide DecodeLog, Listed, Newest, ShownAll, Kept;
    if Lists(v, r.logCount) {
      if n: nat :| ListsSamples(s, v, n) {
        assert ListsSamples(r, v, n);
      } else {
        assert ListsClosed(s, v);
        var e := Listed(v, s.logCount - 1);
        var ended, state :| DecodeLog(Concat(v[e.startSector..e.endSector + 1])) == Some(ExpectedLog(s, ended, state));
        SameExpected(s, r, ended, state);
      }
    }
  }

  lemma LatestShifts(s: Store, card: Card, r: Store, c: Card)
    requires Latest(s, card) && r == s.(queue := r.queue) && Applied(c, r.queue) == Applied(card, s.queue)
    requires |card| >= FIRST_DATA_SECTOR && 0 < s.logCount <= LOG_CAPACITY && s.nextSector <= |card| == |c|
    ensures Latest(r, c)
  {
    hide ListsSamples, Agree, Lists, Applied;
    var v := Applied(card, s.queue);
    var n: nat :| ListsSamples(s, v, n) && s.nextCheckpointAt <= n + 1 + CHECKPOINT_SAMPLE_INTERVAL;
    SelfAgrees(s, v);
    StillLists(s, v, r, v, n);
  }

  /* ---------------- opening ---------------- */

  /** No cut of the queue leaves a superblock that lists so many logs. */
  ghost predicate NoneLists(card: Card, queue: seq<Write>, count: nat) {
    |card| >= FIRST_DATA_SECTOR && forall k | 0 <= k <= |queue| :: !Lists(Applied(card, queue[..k]), count)
  }

  lemma IdleListsLess(s: Store, card: Card, base: seq<LogInfo>, known: seq<Superblock>)
    requires Idle(s, card, base, known)
    ensures NoneLists(card, s.queue, s.logCount + 1)
  {
    hide CatalogSound, BaseKept, SuperblockValid, LoadSuperblock;
    assert Applied(card, []) == card;
  }

  lemma DataListsNothing(card: Card, queue: seq<Write>, count: nat, w: Write)
    requires NoneLists(card, queue, count) && w.target >= 2
    ensures NoneLists(card, queue + [w], count)
  {
    hide SuperblockValid, LoadSuperblock, Applied;
    var all := queue + [w];
    LastApplied(card, queue, w);
    assert queue[..|queue|] == queue;
    forall k | 0 <= k <= |all|
      ensures !Lists(Applied(card, all[..k]), count)
    {
      if k <= |queue| {
        assert all[..k] == queue[..k];
      } else {
        assert all[..k] == all;
      }
    }
  }

  lemma UnlistedReads(s: Store, card: Card)
    requires NoneLists(card, s.queue, s.logCount)
    ensures CutsRead(s, card, false)
  {
    hide ListsSamples, Lists, Applied;
    forall k | 0 <= k <= |s.queue|
      ensures CutReads(s, Applied(card, s.queue[..k]), false)
    {
      assert !Lists(Applied(card, s.queue[..k]), s.logCount);
    }
  }

  lemma AppendListsNothing(s: Store, card: Card, n: nat, base: seq<LogInfo>, origin: seq<Superblock>, buffer: Sector,
                           kind: Kind, items: Kind, length: Length)
    requires Flying(s, card, n, base, origin) && NoneLists(card, s.queue, s.logCount)
    ensures var (r, ok) := AppendBlock(s, |card|, buffer, kind, items, length);
            && r.active == s.active.(endSector := r.active.endSector) && r.logCount == s.logCount
            && (ok ==> NoneLists(card, r.queue, r.logCount))
  {
    hide Flying, NoneLists, Finalize;
    FlightPages(s, card, n, base, origin);
    var (r, ok) := AppendBlock(s, |card|, buffer, kind, items, length);
    if ok {
      DataListsNothing(card, s.queue, s.logCount,
                       Write(s.nextSector, Finalize(buffer, kind, s.active.id, s.blockSequence, items, length)));
    }
  }

  lemma {:induction false} ConfigurationListsNothing(s: Store, card: Card, n: nat, base: seq<LogInfo>,
                                                     origin: seq<Superblock>, offset: nat, chunk: nat)
    requires Flying(s, card, n, base, origin) && NoneLists(card, s.queue, s.logCount) && offset <= |s.configuration|
    ensures var (r, ok) := AppendConfiguration(s, |card|, offset, chunk);
            && r.active == s.active.(endSector := r.active.endSector) && r.logCount == s.logCount
            && (ok ==> NoneLists(card, r.queue, r.logCount) && Flying(r, card, n, base, origin)
                       && (s.active.startSector < s.nextSector ==> r.active.startSector < r.nextSector))
    decreases |s.configuration| - offset
  {
    hide Flying, NoneLists, AppendBlock, WithPayload;
    if offset < |s.configuration| {
      var length := Min(|s.configuration| - offset, PAYLOAD_CAPACITY);
      var buffer := WithPayload(s.configuration[offset..offset + length]);
      AppendBlockKeeps(s, card, n, base, origin, buffer, CONFIGURATION, chunk % 0x1_0000, length);
      AppendListsNothing(s, card, n, base, origin, buffer, CONFIGURATION, chunk % 0x1_0000, length);
      var (appended, ok) := AppendBlock(s, |card|, buffer, CONFIGURATION, chunk % 0x1_0000, length);
      if ok {
        ConfigurationListsNothing(appended, card, n, base, origin, offset + length, chunk + 1);
      }
    }
  }

  /** The opening blocks of a log list nothing yet. */
  lemma OpeningListsNothing(s: Store, card: Card, n: nat, base: seq<LogInfo>, origin: seq<Superblock>,
                            timestamp: uint64)
    requires Flying(s, card, n, base, origin) && NoneLists(card, s.queue, s.logCount)
    ensures var (r, ok) := WriteOpening(s, |card|, timestamp);
            && r.active == s.active.(endSector := r.active.endSector) && r.logCount == s.logCount
            && (ok ==> NoneLists(card, r.queue, r.logCount) && Flying(r, card, n, base, origin)
                       && r.active.startSector < r.nextSector)
  {
    hide Flying, NoneLists, AppendBlock, WithPayload, HeaderPayload, AppendConfiguration;
    var buffer := WithPayload(HeaderPayload(s, timestamp));
    AppendBlockKeeps(s, card, n, base, origin, buffer, FLIGHT_HEADER, 1, 68);
    AppendListsNothing(s, card, n, base, origin, buffer, FLIGHT_HEADER, 1, 68);
    var (headed, ok) := AppendBlock(s, |card|, buffer, FLIGHT_HEADER, 1, 68);
    if ok {
      ConfigurationListsNothing(headed, card, n, base, origin, 0, 0);
    }
  }

  /** A log that has been bare is listed with no samples once its metadata is written, and not before. */
  lemma StartReads(s: Store, card: Card, base: seq<LogInfo>, origin: seq<Superblock>, timestamp: uint64,
                   reply: ReadReply)
    requires Idle(s, card, base, origin + s.issued) && s.blockSequence == 0
    requires CutsGood(card, s.queue, base, origin + s.issued)
    ensures var (r, ok) := StartFlight(s, card, timestamp, reply);
            ok ==> Going(r, card)
  {
    hide Flying, CutsGood, Idle, NoneLists, WriteOpening, EnqueueMetadata, PreparePage, BlocksAre, Content, Going;
    var (r, ok) := StartFlight(s, card, timestamp, reply);
    if ok {
      OpenedLog(s, card, base, origin, reply);
      var paged := PreparePage(s, card, reply).0;
      var bare := OpenLog(paged);
      IdleListsLess(s, card, base, origin + s.issued);
      assert bare.queue == s.queue && bare.logCount == s.logCount + 1;
      OpeningListsNothing(bare, card, s.logCount, base, origin, timestamp);
      IdleRoom(s, card, base, origin + s.issued);
      FlightPages(bare, card, s.logCount, base, origin);
      NothingYet(bare, card);
      OpeningContent(bare, card, timestamp);
      var begun := WriteOpening(bare, |card|, timestamp).0;
      var blocks :| BlocksAre(begun, card, blocks) && Content(begun, blocks, timestamp, |bare.configuration|, 0);
      BegunGoes(begun, card, s.logCount, base, origin, timestamp, blocks, r);
    }
  }

  lemma BegunGoes(begun: Store, card: Card, n: nat, base: seq<LogInfo>, origin: seq<Superblock>, timestamp: uint64,
                  blocks: seq<Block>, r: Store)
    requires Flying(begun, card, n, base, origin) && begun.pageValid && begun.active.startSector < begun.nextSector
    requires NoneLists(card, begun.queue, begun.logCount) && begun.logCount > 0 && begun.taken == []
    requires begun.active.samples == 0 && !begun.active.complete
    requires BlocksAre(begun, card, blocks) && Content(begun, blocks, timestamp, |begun.configuration|, 0)
    requires EnqueueMetadata(NextGeneration(begun)).1
    requires r == BeginRecording(EnqueueMetadata(NextGeneration(begun)).0, timestamp)
    ensures Going(r, card)
  {
    hide Flying, NoneLists, EnqueueMetadata, BlocksAre, Content, CutsRead, Latest;
    var next := NextGeneration(begun).(startedAt := timestamp);
    MetadataFits(NextGeneration(begun));
    SameFlight(begun, next, card, n, base, origin);
    UnlistedReads(next, card);
    SameBlocks(begun, next, card, blocks);
    StartedContent(begun, next, blocks, timestamp);
    MetadataStarted(NextGeneration(begun), next);
    ListedAt(next, card, n, base, origin, blocks, 0, r);
  }

  lemma StartedContent(s: Store, r: Store, blocks: seq<Block>, timestamp: uint64)
    requires Content(s, blocks, timestamp, |s.configuration|, 0)
    requires r == s.(generation := r.generation, startedAt := timestamp)
    ensures Content(r, blocks, r.startedAt, |r.configuration|, 0)
  {
    hide HeaderPayload, LogSamples, ConfigurationIn, LastOfKind, FirstOfKind, ShownAll;
    SameHeader(s, r, timestamp);
  }

  lemma MetadataStarted(s: Store, r: Store)
    requires s.logCount > 0 && r == s.(startedAt := r.startedAt)
    ensures EnqueueMetadata(r).0 == EnqueueMetadata(s).0.(startedAt := r.startedAt)
  {
    hide SealPage, PutEntry, BuildSuperblock;
  }

  /* ---------------- runs ---------------- */

  lemma CaptureReads(s: Store, card: Card, base: seq<LogInfo>, origin: seq<Superblock>, sample: Sample,
                     reply: ReadReply)
    requires Inv(s, card, base, origin) && CanStep(s, card) && Recorded(s, card) && Recoverable(s, card)
    ensures Recoverable(Capture(s, card, sample, reply), card)
  {
    hide Holds, Decodes, StartFlight, RecordSample, Flying, Idle, CutsGood, CutsRead, Latest;
    if s.status == Recording {
      var blocks :| Holds(s, card, blocks);
      RecordReads(s, card, base, origin, blocks, sample);
    } else if s.status == Ready && sample.state != Fault {
      var numbered := s.(blockSequence := 0);
      IdleRoom(s, card, base, origin + s.issued);
      IdleRenumbered(s, card, base, origin);
      StartContent(numbered, card, sample.timestamp, reply);
      StartKeeps(numbered, card, base, origin, sample.timestamp, reply);
      StartReads(numbered, card, base, origin, sample.timestamp, reply);
      var (started, ok) := StartFlight(numbered, card, sample.timestamp, reply);
      if ok {
        var blocks :| Holds(started, card, blocks);
        RecordReads(started, card, base, origin, blocks, sample);
      }
    }
  }

  lemma FinishCallReads(s: Store, card: Card, base: seq<LogInfo>, origin: seq<Superblock>, timestamp: uint64,
                        state: State)
    requires Inv(s, card, base, origin) && CanStep(s, card) && Recorded(s, card) && Recoverable(s, card)
    ensures Recoverable(FinishRecording(s, |card|, timestamp, state), card)
  {
    hide Holds, Decodes, FinishFlight, Flying, Idle, CutsGood, CutsRead, Latest;
    if s.status == Recording {
      var blocks :| Holds(s, card, blocks);
      FinishReads(s, card, base, origin, blocks, timestamp, state);
      FinishedStatus(s, |card|, timestamp, state);
    }
  }

  lemma StepReadable(s: Store, card: Card, base: seq<LogInfo>, origin: seq<Superblock>, call: StoreCall)
    requires Inv(s, card, base, origin) && CanStep(s, card) && Recorded(s, card) && Recoverable(s, card)
    ensures var (r, c) := StoreStep(s, card, call); Recoverable(r, c)
  {
    hide Holds, Decodes, RecordSample, StartFlight, FinishFlight, Flying, Idle, CutsGood, CutsRead, Latest;
    hide Recorded;
    match call
    case DoCapture(sample, reply) => CaptureReads(s, card, base, origin, sample, reply);
    case DoFinish(timestamp, state) => FinishCallReads(s, card, base, origin, timestamp, state);
    case DoService(reply) =>
      if s.status == Recording || s.status == Finishing {
        FlightPages(s, card, s.logCount, base, origin);
      }
      ServiceReads(s, card, reply);
    case _ =>
  }

  lemma {:induction false} RunReadable(s: Store, card: Card, base: seq<LogInfo>, origin: seq<Superblock>,
                                       calls: seq<StoreCall>)
    requires Inv(s, card, base, origin) && Recorded(s, card) && Recoverable(s, card)
    ensures var (r, c) := StoreRun(s, card, base, origin, calls);
            Recoverable(r, c) && Inv(r, c, BaseAfterAll(base, calls), origin)
    decreases |calls|
  {
    hide Inv, Recorded, Recoverable, StoreStep;
    if calls != [] {
      StoreStepKeeps(s, card, base, origin, calls[0]);
      StepContent(s, card, base, origin, calls[0]);
      StepReadable(s, card, base, origin, calls[0]);
      var (next, c) := StoreStep(s, card, calls[0]);
      RunReadable(next, c, BaseAfter(base, calls[0]), origin, calls[1..]);
    }
  }

  /**
   * A power cut at any write of a recording, or of its closing: if the card lists the log at all, the host decodes the
   * sectors listed to the configuration and the first samples taken, in order, as many as the entry counts but for one,
   * or to the whole log.
   */
  lemma CutLogDecodes(card: Card, configuration: ConfigurationBytes, firmware: Text, build: Text, calls: seq<StoreCall>)
    requires CleanCard(card)
    ensures var (s, c) := MountAndRun(card, configuration, firmware, build, calls);
            && |c| >= FIRST_DATA_SECTOR
            && (s.status == Recording && Lists(c, s.logCount) ==> exists n: nat :: ListsSamples(s, c, n))
            && (s.status == Finishing && Lists(c, s.logCount) ==>
                  (exists n: nat :: ListsSamples(s, c, n)) || ListsClosed(s, c))
  {
    hide Inv, StoreRun, Recorded, Lists, ListsSamples, ListsClosed, Latest;
    var s := Mount(card, configuration, firmware, build, true, true);
    var base := Catalogue(card, s.logCount);
    RunIsReadable(card, configuration, firmware, build, calls);
    var (r, c) := MountAndRun(card, configuration, firmware, build, calls);
    FirstCut(r, c);
  }

  lemma FirstCut(s: Store, card: Card)
    requires Recoverable(s, card)
    ensures s.status == Recording ==> CutReads(s, card, false)
    ensures s.status == Finishing ==> CutReads(s, card, true)
  {
    hide CutReads, Latest;
    assert s.queue[..0] == [] && Applied(card, []) == card;
  }

  lemma RunIsReadable(card: Card, configuration: ConfigurationBytes, firmware: Text, build: Text,
                      calls: seq<StoreCall>)
    requires CleanCard(card)
    ensures var (s, c) := MountAndRun(card, configuration, firmware, build, calls);
            Recoverable(s, c) && |c| >= FIRST_DATA_SECTOR
  {
    hide Inv, StoreRun, Recorded, Recoverable;
    var s := Mount(card, configuration, firmware, build, true, true);
    MountedInv(card, configuration, firmware, build);
    MountedRecorded(card, configuration, firmware, build);
    var base := Catalogue(card, s.logCount);
    MountedReadable(card, configuration, firmware, build);
    RunReadable(s, card, base, Origin(card), calls);
    var (r, c) := StoreRun(s, card, base, Origin(card), calls);
    CardSize(r, c, BaseAfterAll(base, calls), Origin(card));
  }

  lemma CardSize(s: Store, card: Card, base: seq<LogInfo>, origin: seq<Superblock>)
    requires Inv(s, card, base, origin)
    ensures |card| >= FIRST_DATA_SECTOR
  {
  }

  lemma MountedReadable(card: Card, configuration: ConfigurationBytes, firmware: Text, build: Text)
    requires |card| >= 2
    ensures Recoverable(Mount(card, configuration, firmware, build, true, true), card)
  {
    hide Newest, CutsRead, Latest;
  }

  /**
   * Whenever the writes of a recording have caught up, a power cut loses at most the last 500 samples: the card lists
   * the log with all the others.
   */
  lemma CutLosesLittle(card: Card, configuration: ConfigurationBytes, firmware: Text, build: Text,
                       calls: seq<StoreCall>)
    requires CleanCard(card)
    ensures var (s, c) := MountAndRun(card, configuration, firmware, build, calls);
            && |c| >= FIRST_DATA_SECTOR
            && (s.status == Recording && s.queue == [] ==>
                  && Lists(c, s.logCount)
                  && exists n: nat ::
                       ListsSamples(s, c, n) && (|s.taken| + 500 < MASK64 ==> |s.taken| <= n + 500))
  {
    hide Inv, StoreRun, Recorded, Lists, ListsSamples, CutsRead;
    RunIsReadable(card, configuration, firmware, build, calls);
    var (s, c) := MountAndRun(card, configuration, firmware, build, calls);
    assert Applied(c, []) == c;
  }
}
