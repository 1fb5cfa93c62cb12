/** What a run leaves alone: the logs listed when it began, their sectors, and a superblock that lists them. */
module BlackboxKept {
  import opened Counters
  import opened SystemState
  import opened Bytes
  import opened BlackboxFormat
  import opened BlackboxSamples
  import opened BlackboxStore
  import opened BlackboxCard
  import opened BlackboxCrash
  import opened BlackboxRuns

  /**
   * Where a run is watched from: the card, the superblock a mount chose there, the older ones that would do as well,
   * and how many had been built.
   */
  datatype Start = Start(card: Card, super: Superblock, welcome: seq<Superblock>, built: nat)

  /** The part of a store the superblocks and the data area depend on. */
  datatype Trail = Trail(
    queue: seq<Write>, issued: seq<Superblock>, generation: uint32, logCount: uint32, nextSector: uint32)

  function TrailOf(s: Store): (t: Trail) {
    Trail(s.queue, s.issued, s.generation, s.logCount, s.nextSector)
  }

  /** The superblock was welcome at the start or was built since. */
  predicate Fresh(b: Superblock, a: Start, issued: seq<Superblock>) {
    b in a.welcome || (a.built <= |issued| && b in issued[a.built..])
  }

  predicate PicksFresh(v: Card, a: Start, issued: seq<Superblock>) {
    |v| >= 2 && Newest(v, true, true).Some? && Fresh(Newest(v, true, true).value, a, issued)
  }

  /**
   * The next superblock goes over the only welcome copy and starts again at generation zero, while the unwelcome one
   * beside it has a larger generation.
   */
  predicate Stale(a: Start)
    requires |a.card| >= 2
  {
    && SuperblockValid(a.card[0]) && SuperblockValid(a.card[1])
    && LoadSuperblock(a.card[0]) == a.super && a.super.generation == UINT32_MAX
    && LoadSuperblock(a.card[1]) !in a.welcome && LoadSuperblock(a.card[1]).generation > 0
  }

  /** Both superblocks are as at the start, or both are fresh. */
  predicate Paired(v: Card, a: Start, issued: seq<Superblock>)
    requires |v| >= 2 && |a.card| >= 2
  {
    || (v[0] == a.card[0] && v[1] == a.card[1] && |issued| == a.built)
    || (forall b | 0 <= b < 2 :: SuperblockValid(v[b]) && Fresh(LoadSuperblock(v[b]), a, issued))
  }

  ghost predicate CutsFresh(card: Card, writes: seq<Write>, a: Start, issued: seq<Superblock>) {
    forall k | 0 <= k <= |writes| :: PicksFresh(Applied(card, writes[..k]), a, issued)
  }

  predicate Spares(w: Write, a: Start) {
    w.target < FIRST_DATA_SECTOR || a.super.nextSector <= w.target
  }

  ghost predicate DataKept(card: Card, writes: seq<Write>, a: Start) {
    && |card| == |a.card|
    && (forall t | FIRST_DATA_SECTOR <= t < a.super.nextSector && t < |card| :: card[t] == a.card[t])
    && forall i | 0 <= i < |writes| :: Spares(writes[i], a)
  }

  /** Superblocks built since the start are numbered on from it, and none lists fewer logs. */
  ghost predicate Numbered(issued: seq<Superblock>, a: Start) {
    && a.built <= |issued|
    && forall i | a.built <= i < |issued| ::
         issued[i].generation == (a.super.generation + (i - a.built) + 1) % MASK32
         && issued[i].logCount >= a.super.logCount
  }

  ghost predicate Safe(t: Trail, card: Card, a: Start) {
    && Geometry(|card|) && |a.card| == |card| && Newest(a.card, true, true) == Some(a.super)
    && a.super in a.welcome && (forall b | b in a.welcome :: b.logCount >= a.super.logCount)
    && Numbered(t.issued, a) && t.logCount >= a.super.logCount
    && FIRST_DATA_SECTOR <= a.super.nextSector <= t.nextSector
    && CutsFresh(card, t.queue, a, t.issued) && DataKept(card, t.queue, a)
  }

  /** As long as the store may still write superblocks, the next one continues the numbering. */
  ghost predicate Going(t: Trail, card: Card, a: Start, ahead: nat) {
    && Safe(t, card, a) && !Stale(a)
    && Paired(Applied(card, t.queue), a, t.issued)
    && t.generation == (a.super.generation + (|t.issued| - a.built) + ahead) % MASK32
  }

  /* ---------------- one write more ---------------- */

  lemma MoreFresh(b: Superblock, a: Start, issued: seq<Superblock>, x: Superblock)
    requires a.built <= |issued|
    ensures Fresh(b, a, issued) ==> Fresh(b, a, issued + [x])
    ensures Fresh(x, a, issued + [x])
  {
    assert (issued + [x])[a.built..] == issued[a.built..] + [x];
  }

  lemma MoreFreshCuts(card: Card, writes: seq<Write>, a: Start, issued: seq<Superblock>, x: Superblock)
    requires CutsFresh(card, writes, a, issued) && a.built <= |issued|
    ensures CutsFresh(card, writes, a, issued + [x])
  {
    hide Applied, Newest;
    forall k | 0 <= k <= |writes|
      ensures PicksFresh(Applied(card, writes[..k]), a, issued + [x])
    {
      var v := Applied(card, writes[..k]);
      assert PicksFresh(v, a, issued);
      MoreFresh(Newest(v, true, true).value, a, issued, x);
    }
  }

  lemma OneMoreCut(card: Card, writes: seq<Write>, w: Write, a: Start, issued: seq<Superblock>)
    requires CutsFresh(card, writes, a, issued)
    requires PicksFresh(Written(Applied(card, writes), w), a, issued)
    ensures CutsFresh(card, writes + [w], a, issued)
  {
    hide PicksFresh;
    LastApplied(card, writes, w);
    var all := writes + [w];
    assert all[..|writes|] == writes;
    forall k | 0 <= k <= |all|
      ensures PicksFresh(Applied(card, all[..k]), a, issued)
    {
      if k <= |writes| {
        assert all[..k] == writes[..k];
      } else {
        assert all[..k] == all;
      }
    }
  }

  lemma LastCut(card: Card, writes: seq<Write>, a: Start, issued: seq<Superblock>)
    requires CutsFresh(card, writes, a, issued)
    ensures PicksFresh(Applied(card, writes), a, issued)
  {
    hide PicksFresh;
    assert writes[..|writes|] == writes;
  }

  /** A write elsewhere leaves the superblocks alone. */
  lemma ElsewhereKeeps(t: Trail, card: Card, a: Start, ahead: nat, w: Write, r: Trail)
    requires Going(t, card, a, ahead) && 2 <= w.target && Spares(w, a)
    requires r == t.(queue := t.queue + [w], nextSector := r.nextSector) && t.nextSector <= r.nextSector
    ensures Going(r, card, a, ahead)
  {
    hide Applied, Stale, SuperblockValid, LoadSuperblock;
    var v := Applied(card, t.queue);
    LastApplied(card, t.queue, w);
    LastCut(card, t.queue, a, t.issued);
    assert Newest(Written(v, w), true, true) == Newest(v, true, true);
    OneMoreCut(card, t.queue, w, a, t.issued);
  }

  lemma AppendKeeps(s: Store, card: Card, a: Start, buffer: Sector, kind: Kind, items: Kind, length: Length)
    requires Going(TrailOf(s), card, a, 0)
    ensures var r := AppendBlock(s, |card|, buffer, kind, items, length).0;
            Going(TrailOf(r), card, a, 0) && r.logCount == s.logCount
  {
    hide Going, Finalize, Safe;
    var (r, ok) := AppendBlock(s, |card|, buffer, kind, items, length);
    SafeBounds(TrailOf(s), card, a, 0);
    if ok {
      var data := Finalize(buffer, kind, s.active.id, s.blockSequence, items, length);
      ElsewhereKeeps(TrailOf(s), card, a, 0, Write(s.nextSector, data), TrailOf(r));
    }
  }

  lemma SafeBounds(t: Trail, card: Card, a: Start, ahead: nat)
    requires Going(t, card, a, ahead)
    ensures Geometry(|card|) && FIRST_DATA_SECTOR <= a.super.nextSector <= t.nextSector && Safe(t, card, a)
  {
  }

  /* ---------------- superblocks ---------------- */

  /** The first copy of a new superblock is picked, or the second still is a fresh one. */
  lemma FirstCopyIsPicked(v: Card, a: Start, issued: seq<Superblock>, x: Superblock)
    requires |v| >= 2 && |a.card| >= 2 && Newest(a.card, true, true) == Some(a.super) && !Stale(a)
    requires a.super in a.welcome
    requires Paired(v, a, issued) && a.built <= |issued|
    requires x.generation == (a.super.generation + (|issued| - a.built) + 1) % MASK32
    ensures PicksFresh(v[0 := BuildSuperblock(x)], a, issued + [x])
  {
    hide BuildSuperblock, SuperblockValid, LoadSuperblock;
    SuperblockRoundTrip(x);
    MoreFresh(LoadSuperblock(v[1]), a, issued, x);
    var w := v[0 := BuildSuperblock(x)];
    assert w[1] == v[1];
  }

  lemma TwinsArePicked(v: Card, a: Start, issued: seq<Superblock>, x: Superblock)
    requires |v| >= 2 && |a.card| >= 2 && a.built <= |issued|
    ensures var w := v[0 := BuildSuperblock(x)][1 := BuildSuperblock(x)];
            PicksFresh(w, a, issued + [x]) && Paired(w, a, issued + [x])
  {
    hide BuildSuperblock, SuperblockValid, LoadSuperblock;
    SuperblockRoundTrip(x);
    MoreFresh(x, a, issued, x);
  }

  lemma SuperblocksFollow(s: Store, card: Card, a: Start)
    requires Going(TrailOf(s), card, a, 1)
    ensures var (r, ok) := EnqueueSuperblocks(s);
            Safe(TrailOf(r), card, a) && (ok ==> Going(TrailOf(r), card, a, 0))
  {
    hide BuildSuperblock, Applied, Stale, Newest;
    var x := Snapshot(s);
    var data := BuildSuperblock(x);
    var v := Applied(card, s.queue);
    var noted := s.issued + [x];
    MoreFreshCuts(card, s.queue, a, s.issued, x);
    FirstCopyIsPicked(v, a, s.issued, x);
    TwinsArePicked(v, a, s.issued, x);
    OneMoreCut(card, s.queue, Write(0, data), a, noted);
    LastApplied(card, s.queue, Write(0, data));
    var once := s.queue + [Write(0, data)];
    OneMoreCut(card, once, Write(1, data), a, noted);
    LastApplied(card, once, Write(1, data));
  }

  lemma MetadataFollows(s: Store, card: Card, a: Start)
    requires Going(TrailOf(s), card, a, 1) && s.logCount > 0 && s.pageIndex < CATALOG_PAGE_COUNT
    ensures var (r, ok) := EnqueueMetadata(s);
            && Safe(TrailOf(r), card, a) && r.logCount == s.logCount
            && (ok ==> Going(TrailOf(r), card, a, 0))
  {
    hide Going, Safe, SealPage, PutEntry, EnqueueSuperblocks;
    SafeBounds(TrailOf(s), card, a, 1);
    var page := MetadataPage(s);
    var w := Write(FIRST_CATALOG_SECTOR + s.pageIndex, page);
    if |s.queue| < QUEUE_CAPACITY {
      var queued := s.(queue := s.queue + [w], page := page);
      ElsewhereKeeps(TrailOf(s), card, a, 1, w, TrailOf(queued));
      SuperblocksFollow(queued, card, a);
    }
  }

  lemma NextIsAhead(s: Store, card: Card, a: Start, r: Store)
    requires Going(TrailOf(s), card, a, 0)
    requires TrailOf(r) == TrailOf(s).(generation := (s.generation + 1) % MASK32)
    ensures Going(TrailOf(r), card, a, 1)
  {
    hide CutsFresh, DataKept, Newest, Stale, Paired;
    var sum := a.super.generation + (|s.issued| - a.built);
    NextRemainder(sum);
  }

  lemma NextRemainder(sum: nat)
    ensures (sum % MASK32 + 1) % MASK32 == (sum + 1) % MASK32
  {
  }

  /* ---------------- the operations ---------------- */

  lemma {:induction false} ConfigurationFollows(s: Store, card: Card, a: Start, offset: nat, chunk: nat)
    requires Going(TrailOf(s), card, a, 0) && offset <= |s.configuration|
    ensures var r := AppendConfiguration(s, |card|, offset, chunk).0;
            Going(TrailOf(r), card, a, 0) && r.logCount == s.logCount
    decreases |s.configuration| - offset
  {
    hide Going, AppendBlock, WithPayload;
    if offset < |s.configuration| {
      var length := Min(|s.configuration| - offset, PAYLOAD_CAPACITY);
      var buffer := WithPayload(s.configuration[offset..offset + length]);
      AppendKeeps(s, card, a, buffer, CONFIGURATION, chunk % 0x1_0000, length);
      var (appended, ok) := AppendBlock(s, |card|, buffer, CONFIGURATION, chunk % 0x1_0000, length);
      if ok {
        ConfigurationFollows(appended, card, a, offset + length, chunk + 1);
      }
    }
  }

  lemma OpenedFollows(s: Store, card: Card, a: Start, reply: ReadReply)
    requires Going(TrailOf(s), card, a, 0) && s.logCount < LOG_CAPACITY
    ensures var (paged, loaded) := PreparePage(s, card, reply);
            && TrailOf(paged) == TrailOf(s)
            && (loaded ==> paged.pageIndex < CATALOG_PAGE_COUNT && Going(TrailOf(OpenLog(paged)), card, a, 0))
  {
    hide CutsFresh, DataKept, Newest, Stale, Paired;
  }

  lemma StartFollows(s: Store, card: Card, a: Start, timestamp: uint64, reply: ReadReply)
    requires Going(TrailOf(s), card, a, 0)
    ensures var (r, ok) := StartFlight(s, card, timestamp, reply);
            && Safe(TrailOf(r), card, a)
            && (ok ==> Going(TrailOf(r), card, a, 0) && r.pageIndex < CATALOG_PAGE_COUNT)
  {
    hide Going, Safe, AppendBlock, AppendConfiguration, EnqueueMetadata, PreparePage, HeaderPayload, WithPayload;
    SafeBounds(TrailOf(s), card, a, 0);
    if s.logCount >= LOG_CAPACITY || s.nextSector >= |card| || s.queue != [] {
      return;
    }
    OpenedFollows(s, card, a, reply);
    var (paged, loaded) := PreparePage(s, card, reply);
    if !loaded {
      return;
    }
    var begun := OpenLog(paged);
    var header := WithPayload(HeaderPayload(begun, timestamp));
    AppendKeeps(begun, card, a, header, FLIGHT_HEADER, 1, 68);
    var (headed, headedOk) := AppendBlock(begun, |card|, header, FLIGHT_HEADER, 1, 68);
    SafeBounds(TrailOf(headed), card, a, 0);
    if headedOk {
      ConfigurationFollows(headed, card, a, 0, 0);
      var (written, ok) := AppendConfiguration(headed, |card|, 0, 0);
      SafeBounds(TrailOf(written), card, a, 0);
      if ok {
        NextIsAhead(written, card, a, NextGeneration(written));
        MetadataFollows(NextGeneration(written), card, a);
      }
    }
  }

  lemma CheckpointFollows(s: Store, card: Card, a: Start)
    requires Going(TrailOf(s), card, a, 0) && s.logCount > 0 && s.pageIndex < CATALOG_PAGE_COUNT
    ensures Going(TrailOf(Checkpoint(s)), card, a, 0)
  {
    hide Going, Safe, EnqueueMetadata;
    if !(s.captured < s.nextCheckpointAt || |s.queue| > QUEUE_CAPACITY - 3) {
      var counted := s.(active := s.active.(samples := s.captured % MASK32, dropped := s.dropped % MASK32));
      NextIsAhead(s, card, a, NextGeneration(counted));
      MetadataFollows(NextGeneration(counted), card, a);
      ThreeSlotsSuffice(NextGeneration(counted));
    }
  }

  lemma FlushFollows(s: Store, card: Card, a: Start)
    requires Going(TrailOf(s), card, a, 0) && s.samplesInBlock <= SAMPLES_PER_BLOCK
    ensures Going(TrailOf(FlushSamples(s, |card|).0), card, a, 0)
  {
    hide Going, AppendBlock;
    if s.samplesInBlock > 0 {
      AppendKeeps(s, card, a, s.block, SAMPLES, s.samplesInBlock, s.samplesInBlock * SAMPLE_SIZE);
    }
  }

  lemma FinishFollows(s: Store, card: Card, a: Start, timestamp: uint64, state: State)
    requires Going(TrailOf(s), card, a, 0) && s.samplesInBlock <= SAMPLES_PER_BLOCK && s.logCount > 0
    requires s.pageIndex < CATALOG_PAGE_COUNT
    ensures var r := FinishFlight(s, |card|, timestamp, state);
            && Safe(TrailOf(r), card, a)
            && (r.status == Finishing || r.status == Error)
            && (r.status == Finishing ==> Going(TrailOf(r), card, a, 0))
  {
    hide Going, Safe, AppendBlock, FlushSamples, EnqueueMetadata, FooterPayload, WithPayload;
    FlushFollows(s, card, a);
    var (flushed, ok) := FlushSamples(s, |card|);
    SafeBounds(TrailOf(flushed), card, a, 0);
    if !ok {
      return;
    }
    var footer := WithPayload(FooterPayload(flushed, timestamp, state));
    AppendKeeps(flushed, card, a, footer, FLIGHT_FOOTER, 1, 20);
    var (footed, written) := AppendBlock(flushed, |card|, footer, FLIGHT_FOOTER, 1, 20);
    SafeBounds(TrailOf(footed), card, a, 0);
    if written {
      var closed := footed.(active := footed.active.(samples := s.captured % MASK32, dropped := s.dropped % MASK32,
                                                     complete := true));
      NextIsAhead(footed, card, a, NextGeneration(closed));
      MetadataFollows(NextGeneration(closed), card, a);
    }
  }

  lemma TakeFollows(s: Store, card: Card, a: Start, sample: Sample)
    requires Going(TrailOf(s), card, a, 0) && s.samplesInBlock < SAMPLES_PER_BLOCK && s.logCount > 0
    requires s.pageIndex < CATALOG_PAGE_COUNT
    ensures var r := TakeSample(s, |card|, sample);
            Going(TrailOf(r), card, a, 0) && r.pageIndex == s.pageIndex
  {
    hide Going, FlushSamples, Checkpoint, EncodeSample, Put;
    if |s.queue| < QUEUE_CAPACITY - 4 {
      var taken := s.(
        block := Put(s.block, HEADER_SIZE + s.samplesInBlock * SAMPLE_SIZE,
                     EncodeSample(sample, (s.captured + 1) % MASK32)),
        samplesInBlock := s.samplesInBlock + 1, captured := (s.captured + 1) % MASK64, taken := s.taken + [sample]);
      if taken.samplesInBlock < SAMPLES_PER_BLOCK {
        CheckpointFollows(taken, card, a);
      } else {
        FlushFollows(taken, card, a);
        var (flushed, ok) := FlushSamples(taken, |card|);
        if ok {
          CheckpointFollows(flushed, card, a);
        }
      }
    }
  }

  /** What every call of a run keeps: the past is safe, and an active store still follows on from the start. */
  ghost predicate Follows(s: Store, card: Card, a: Start) {
    && Safe(TrailOf(s), card, a)
    && (s.status == Ready || s.status == Recording || s.status == Finishing ==> Going(TrailOf(s), card, a, 0))
  }

  lemma RecordFollows(s: Store, card: Card, a: Start, sample: Sample)
    requires Going(TrailOf(s), card, a, 0) && s.samplesInBlock < SAMPLES_PER_BLOCK && s.logCount > 0
    requires s.pageIndex < CATALOG_PAGE_COUNT
    ensures Follows(RecordSample(s, |card|, sample), card, a)
  {
    hide Going, Safe, TakeSample, FinishFlight, Releases, Closes, Timed, Missed;
    TakeFollows(Missed(s, sample), card, a, sample);
    var taken := Sampled(s, |card|, sample);
    SafeBounds(TrailOf(taken), card, a, 0);
    if taken.status != Error && Closes(s, sample) {
      FinishFollows(taken, card, a, sample.timestamp, sample.state);
    }
  }

  lemma CaptureFollows(s: Store, card: Card, base: seq<LogInfo>, origin: seq<Superblock>, a: Start, sample: Sample,
                       reply: ReadReply)
    requires Inv(s, card, base, origin) && CanStep(s, card) && Follows(s, card, a)
    ensures Follows(Capture(s, card, sample, reply), card, a)
  {
    hide Going, Safe, StartFlight, RecordSample, Flying, Idle, CutsGood;
    if s.status == Recording {
      RecordingPage(s, card, base, origin);
      RecordFollows(s, card, a, sample);
    } else if s.status == Ready && sample.state != Fault {
      StartFollows(s.(blockSequence := 0), card, a, sample.timestamp, reply);
      var (started, ok) := StartFlight(s.(blockSequence := 0), card, sample.timestamp, reply);
      if ok {
        RecordFollows(started, card, a, sample);
      }
    }
  }

  lemma RecordingPage(s: Store, card: Card, base: seq<LogInfo>, origin: seq<Superblock>)
    requires Flying(s, card, s.logCount, base, origin)
    ensures s.pageIndex < CATALOG_PAGE_COUNT
  {
    hide Listing, CutsGood, PageValid, BlockAt, EntryOf;
  }

  lemma WrittenFollows(t: Trail, card: Card, a: Start)
    requires Safe(t, card, a) && t.queue != []
    ensures var c := Written(card, t.queue[0]);
            var r := t.(queue := t.queue[1..]);
            && Safe(r, c, a)
            && (Going(t, card, a, 0) ==> Going(r, c, a, 0))
  {
    hide Newest, PicksFresh, Stale, Paired;
    var c := Written(card, t.queue[0]);
    FirstWriteDone(card, t.queue);
    forall k | 0 <= k <= |t.queue[1..]|
      ensures PicksFresh(Applied(c, t.queue[1..][..k]), a, t.issued)
    {
      FirstWriteDone(card, t.queue[..k + 1]);
      assert t.queue[..k + 1][1..] == t.queue[1..][..k];
      assert PicksFresh(Applied(card, t.queue[..k + 1]), a, t.issued);
    }
    assert Spares(t.queue[0], a);
  }

  lemma ServiceFollows(s: Store, card: Card, a: Start, reply: CardReply)
    requires Follows(s, card, a)
    ensures var (r, c) := Service(s, card, reply); Follows(r, c, a)
  {
    hide Going, Safe;
    if s.queue != [] {
      WrittenFollows(TrailOf(s), card, a);
    }
  }

  lemma StepFollows(s: Store, card: Card, base: seq<LogInfo>, origin: seq<Superblock>, a: Start, call: StoreCall)
    requires Inv(s, card, base, origin) && Follows(s, card, a) && !call.DoFormat?
    ensures CanStep(s, card)
    ensures var (r, c) := StoreStep(s, card, call); Follows(r, c, a)
  {
    hide Inv, Going, Safe, Capture, FinishFlight, Service, LoadPage;
    InvCanStep(s, card, base, origin);
    match call
    case DoCapture(sample, reply) => CaptureFollows(s, card, base, origin, a, sample, reply);
    case DoFinish(timestamp, state) => FinishCallFollows(s, card, base, origin, a, timestamp, state);
    case DoService(reply) => ServiceFollows(s, card, a, reply);
    case DoInspect(index, reply) =>
    case DoSetConfiguration(configuration) =>
  }

  lemma FinishCallFollows(s: Store, card: Card, base: seq<LogInfo>, origin: seq<Superblock>, a: Start,
                          timestamp: uint64, state: State)
    requires Inv(s, card, base, origin) && CanStep(s, card) && Follows(s, card, a)
    ensures Follows(FinishRecording(s, |card|, timestamp, state), card, a)
  {
    hide Going, Safe, FinishFlight, Flying, Idle, CutsGood;
    if s.status == Recording {
      RecordingPage(s, card, base, origin);
      FinishFollows(s, card, a, timestamp, state);
    }
  }

  predicate Formatless(calls: seq<StoreCall>) {
    forall i | 0 <= i < |calls| :: !calls[i].DoFormat?
  }

  lemma {:induction false} RunFollows(s: Store, card: Card, base: seq<LogInfo>, origin: seq<Superblock>, a: Start,
                                      calls: seq<StoreCall>)
    requires Inv(s, card, base, origin) && Follows(s, card, a) && Formatless(calls)
    ensures var (r, c) := StoreRun(s, card, base, origin, calls); Inv(r, c, base, origin) && Follows(r, c, a)
    decreases |calls|
  {
    hide Inv, Follows, StoreStep;
    if calls != [] {
      assert !calls[0].DoFormat?;
      StoreStepKeeps(s, card, base, origin, calls[0]);
      StepFollows(s, card, base, origin, a, calls[0]);
      var (next, c) := StoreStep(s, card, calls[0]);
      RunFollows(next, c, base, origin, a, calls[1..]);
    }
  }

  /* ---------------- what a remount still finds ---------------- */

  /**
   * The card would be mounted from a superblock welcome at the start or from one built since; it lists no fewer logs,
   * and is no older by number unless the numbers started again from zero.
   */
  ghost predicate Remembers(card: Card, a: Start, issued: seq<Superblock>)
    requires |card| >= 2 && a.built <= |issued|
  {
    && PicksFresh(card, a, issued)
    && var super := Newest(card, true, true).value;
       && super.logCount >= a.super.logCount
       && (super in a.welcome ||
           (exists i :: a.built <= i < |issued| && super == issued[i] &&
                        super.generation == (a.super.generation + (i - a.built) + 1) % MASK32))
       && (a.welcome == [a.super] && a.super.generation + (|issued| - a.built) < MASK32 ==>
             super.generation >= a.super.generation)
  }

  /** The sectors of the data area in front of the start's next free one. */
  ghost predicate SameData(card: Card, was: Card, nextSector: nat) {
    |card| == |was| && forall t | FIRST_DATA_SECTOR <= t < nextSector && t < |card| :: card[t] == was[t]
  }

  lemma SafeRemembers(t: Trail, card: Card, a: Start)
    requires Safe(t, card, a)
    ensures |card| >= 2 && a.built <= |t.issued| && Remembers(card, a, t.issued)
    ensures SameData(card, a.card, a.super.nextSector)
  {
    hide SuperblockValid, LoadSuperblock, Newest;
    assert t.queue[..0] == [];
    assert PicksFresh(Applied(card, t.queue[..0]), a, t.issued);
    var super := Newest(card, true, true).value;
    if super !in a.welcome {
      var i :| 0 <= i < |t.issued[a.built..]| && t.issued[a.built..][i] == super;
      assert super == t.issued[a.built + i];
    }
  }

  lemma BeginsSafe(s: Store, card: Card, welcome: seq<Superblock>)
    requires Snapshot(s) in welcome && forall b | b in welcome :: b.logCount >= s.logCount
    requires Geometry(|card|) && s.queue == [] && Newest(card, true, true) == Some(Snapshot(s))
    requires FIRST_DATA_SECTOR <= s.nextSector
    ensures var a := Start(card, Snapshot(s), welcome, |s.issued|);
            Safe(TrailOf(s), card, a) && (!Stale(a) ==> Going(TrailOf(s), card, a, 0))
  {
    hide SuperblockValid, LoadSuperblock, Newest, Stale;
    var a := Start(card, Snapshot(s), welcome, |s.issued|);
    forall k | 0 <= k <= |s.queue|
      ensures PicksFresh(Applied(card, s.queue[..k]), a, s.issued)
    {
      assert s.queue[..k] == [];
    }
  }

  /** A ready store may be watched with its own catalogue as the one to keep. */
  lemma KeepCatalogue(s: Store, card: Card, base: seq<LogInfo>, origin: seq<Superblock>)
    requires Inv(s, card, base, origin) && s.status == Ready
    ensures s.logCount <= LOG_CAPACITY && |card| >= FIRST_DATA_SECTOR
    ensures Inv(s, card, Catalogue(card, s.logCount), origin)
  {
    hide CatalogSound, SuperBounded, EntryOf, SuperblockValid;
    var kept := Catalogue(card, s.logCount);
    assert Listing(card, s.logCount, kept, origin + s.issued);
    GoodCut(card, kept, origin + s.issued);
  }

  lemma KeptEntries(s: Store, card: Card, base: seq<LogInfo>, origin: seq<Superblock>)
    requires Inv(s, card, base, origin)
    ensures |card| >= FIRST_DATA_SECTOR && |base| <= LOG_CAPACITY && Newest(card, true, true).Some?
    ensures BaseKept(card, base)
    ensures var super := Newest(card, true, true).value;
            && super in origin + s.issued && MountedStatus(super, |card|) != Error && super.logCount <= LOG_CAPACITY
            && (forall i | 0 <= i < super.logCount :: EntrySound(card, i))
  {
    hide CatalogSound, SuperBounded, EntrySound, Listed, Newest, Flying, Idle;
    assert s.queue[..0] == [];
    assert Good(Applied(card, s.queue[..0]), base, origin + s.issued);
    GoodCardMounts(card, base, origin + s.issued);
  }

  function ReadyStart(s: Store, card: Card): (a: Start) {
    Start(card, Snapshot(s), [Snapshot(s)], |s.issued|)
  }

  /**
   * A store that is ready, on a card whose backup cannot come back, may go on as it likes without formatting, and
   * power may fail at any write: every log it listed is still listed by the superblock found, with the same entry
   * and the same sectors.
   */
  lemma NothingIsForgotten(s: Store, card: Card, base: seq<LogInfo>, origin: seq<Superblock>, calls: seq<StoreCall>)
    requires Inv(s, card, base, origin) && |card| >= 2 && Current(s, card) && s.status == Ready
    requires !Stale(ReadyStart(s, card)) && Formatless(calls)
    ensures s.logCount <= LOG_CAPACITY && |card| >= FIRST_DATA_SECTOR
    ensures Inv(s, card, Catalogue(card, s.logCount), origin)
    ensures var (r, c) := StoreRun(s, card, Catalogue(card, s.logCount), origin, calls);
            && |s.issued| <= |r.issued| && |c| >= FIRST_DATA_SECTOR
            && Remembers(c, ReadyStart(s, card), r.issued)
            && BaseKept(c, Catalogue(card, s.logCount)) && SameData(c, card, s.nextSector)
  {
    hide StoreRun, Going, CatalogSound, SuperBounded, Newest, CutsGood, Remembers, Stale;
    KeepCatalogue(s, card, base, origin);
    BeginsSafe(s, card, [Snapshot(s)]);
    var a := ReadyStart(s, card);
    RunFollows(s, card, Catalogue(card, s.logCount), origin, a, calls);
    var (r, c) := StoreRun(s, card, Catalogue(card, s.logCount), origin, calls);
    SafeRemembers(TrailOf(r), c, a);
    KeptEntries(r, c, Catalogue(card, s.logCount), origin);
  }

  /* ---------------- power cuts ---------------- */

  /** A run from a clean mount. */
  ghost function MountAndRun(card: Card, configuration: ConfigurationBytes, firmware: Text, build: Text,
                             calls: seq<StoreCall>): (r: (Store, Card))
    requires CleanCard(card)
  {
    var s := Mount(card, configuration, firmware, build, true, true);
    MountedInv(card, configuration, firmware, build);
    StoreRun(s, card, Catalogue(card, s.logCount), Origin(card), calls)
  }

  function MountStart(card: Card, welcome: seq<Superblock>): (a: Start)
    requires |card| >= 2 && Newest(card, true, true).Some?
  {
    Start(card, Newest(card, true, true).value, welcome, 0)
  }

  /** Only the superblock the mount chooses. */
  function Chosen(card: Card): (welcome: seq<Superblock>)
    requires |card| >= 2 && Newest(card, true, true).Some?
  {
    [Newest(card, true, true).value]
  }

  /** The first superblock of the run may let the older one back in: the numbers wrap and there is room for a log. */
  predicate Forgetful(card: Card, welcome: seq<Superblock>)
    requires |card| >= 2 && Newest(card, true, true).Some?
  {
    Stale(MountStart(card, welcome)) && MountedStatus(Newest(card, true, true).value, |card|) == Ready
  }

  lemma MountBegins(card: Card, configuration: ConfigurationBytes, firmware: Text, build: Text,
                    welcome: seq<Superblock>)
    requires CleanCard(card) && Newest(card, true, true).value in welcome
    requires forall b | b in welcome :: b.logCount >= Newest(card, true, true).value.logCount
    ensures var s := Mount(card, configuration, firmware, build, true, true);
            && Safe(TrailOf(s), card, MountStart(card, welcome))
            && (!Forgetful(card, welcome) ==> Follows(s, card, MountStart(card, welcome)))
  {
    hide CatalogSound, SuperblockValid, LoadSuperblock, EntryOf, Stale;
    var s := Mount(card, configuration, firmware, build, true, true);
    assert Snapshot(s) == Newest(card, true, true).value;
    BeginsSafe(s, card, welcome);
  }

  lemma RunRemembers(card: Card, configuration: ConfigurationBytes, firmware: Text, build: Text,
                     welcome: seq<Superblock>, calls: seq<StoreCall>)
    requires CleanCard(card) && Newest(card, true, true).value in welcome && Formatless(calls)
    requires forall b | b in welcome :: b.logCount >= Newest(card, true, true).value.logCount
    requires !Forgetful(card, welcome)
    ensures var (r, c) := MountAndRun(card, configuration, firmware, build, calls);
            |c| >= 2 && Remembers(c, MountStart(card, welcome), r.issued)
            && SameData(c, card, Newest(card, true, true).value.nextSector)
  {
    hide StoreRun, Inv, Remembers, Follows, Forgetful, Listing, SuperblockValid, LoadSuperblock, Safe;
    var s := Mount(card, configuration, firmware, build, true, true);
    MountedInv(card, configuration, firmware, build);
    MountBegins(card, configuration, firmware, build, welcome);
    var base := Catalogue(card, s.logCount);
    RunFollows(s, card, base, Origin(card), MountStart(card, welcome), calls);
    var (r, c) := StoreRun(s, card, base, Origin(card), calls);
    FollowsRemembers(r, c, MountStart(card, welcome));
  }

  lemma FollowsRemembers(s: Store, card: Card, a: Start)
    requires Follows(s, card, a)
    ensures |card| >= 2 && a.built <= |s.issued| && Remembers(card, a, s.issued)
    ensures SameData(card, a.card, a.super.nextSector)
  {
    hide Safe, Remembers;
    SafeRemembers(TrailOf(s), card, a);
  }

  /**
   * Take the card away after any run of any calls from a clean mount, with any replies of the card. It mounts again,
   * from a superblock built in one piece by the store or already there before, and every log that superblock lists
   * has all its sectors written with that log's blocks numbered 0, 1, 2, .... If the run did not format, every entry
   * of the original catalogue is unchanged; and unless the older superblock could come back, the one found is that of
   * the mount or newer, and every log of that catalogue is still listed.
   */
  lemma PowerCutAnywhere(card: Card, configuration: ConfigurationBytes, firmware: Text, build: Text,
                         calls: seq<StoreCall>)
    requires CleanCard(card)
    ensures var base := Catalogue(card, Newest(card, true, true).value.logCount);
            var (r, c) := MountAndRun(card, configuration, firmware, build, calls);
            && |c| >= FIRST_DATA_SECTOR && |base| <= LOG_CAPACITY && Newest(c, true, true).Some?
            && var super := Newest(c, true, true).value;
               && super in Origin(card) + r.issued
               && MountedStatus(super, |c|) != Error && super.logCount <= LOG_CAPACITY
               && (forall i | 0 <= i < super.logCount :: EntrySound(c, i))
               && (Formatless(calls) ==> BaseKept(c, base))
               && (Formatless(calls) && !Forgetful(card, Chosen(card)) ==>
                     && |base| <= super.logCount && Remembers(c, MountStart(card, Chosen(card)), r.issued)
                     && SameData(c, card, Newest(card, true, true).value.nextSector))
  {
    hide StoreRun, EntrySound, Listed, CatalogSound, SuperBounded, Remembers, SuperblockValid, LoadSuperblock, Safe;
    hide Going, Stale, Forgetful;
    var s := Mount(card, configuration, firmware, build, true, true);
    MountedInv(card, configuration, firmware, build);
    var base := Catalogue(card, s.logCount);
    StoreRunKeeps(s, card, base, Origin(card), calls);
    var (r, c) := StoreRun(s, card, base, Origin(card), calls);
    FormatlessBase(base, calls);
    KeptEntries(r, c, BaseAfterAll(base, calls), Origin(card));
    if Formatless(calls) && !Forgetful(card, Chosen(card)) {
      RunRemembers(card, configuration, firmware, build, Chosen(card), calls);
      RemembersCount(c, MountStart(card, Chosen(card)), r.issued);
    }
  }

  lemma RemembersCount(card: Card, a: Start, issued: seq<Superblock>)
    requires |card| >= 2 && a.built <= |issued| && Remembers(card, a, issued)
    ensures Newest(card, true, true).Some? && Newest(card, true, true).value.logCount >= a.super.logCount
  {
  }

  lemma FormatlessBase(base: seq<LogInfo>, calls: seq<StoreCall>)
    ensures Formatless(calls) ==> BaseAfterAll(base, calls) == base
  {
    if Formatless(calls) {
      forall c | c in calls
        ensures !c.DoFormat?
      {
      }
    }
  }

  /* ---------------- the one way an older superblock comes back ---------------- */

  lemma {:induction false} OneCallMore(s: Store, card: Card, base: seq<LogInfo>, origin: seq<Superblock>,
                                       calls: seq<StoreCall>, call: StoreCall)
    requires Inv(s, card, base, origin) && Formatless(calls + [call])
    ensures var (m, d) := StoreRun(s, card, base, origin, calls);
            && Inv(m, d, base, origin) && CanStep(m, d)
            && StoreRun(s, card, base, origin, calls + [call]) == StoreStep(m, d, call)
    decreases |calls|
  {
    hide Inv, StoreStep;
    assert (calls + [call])[|calls|] == call;
    StoreStepKeeps(s, card, base, origin, (calls + [call])[0]);
    if calls == [] {
      StoreStepKeeps(s, card, base, origin, call);
      assert calls + [call] == [call];
    } else {
      assert calls[0] == (calls + [call])[0];
      var (next, c) := StoreStep(s, card, calls[0]);
      assert (calls + [call])[1..] == calls[1..] + [call];
      OneCallMore(next, c, base, origin, calls[1..], call);
    }
  }

  /** The state a freshly opened log leaves: one page and two superblocks behind its first block. */
  ghost predicate JustOpened(s: Store, r: Store) {
    && r.status == Recording && !r.writeActive && |r.queue| == 4 && r.queue[0].target == s.nextSector
    && ParseBlock(r.queue[0].data).Some? && ParseBlock(r.queue[0].data).value.sequence == 0
    && r.logCount == s.logCount + 1 && r.nextSector == s.nextSector + 1
    && FIRST_CATALOG_SECTOR <= r.queue[1].target < FIRST_DATA_SECTOR
    && exists x: Superblock :: r.issued == s.issued + [x] && x.generation == (s.generation + 1) % MASK32
                               && x.logCount == r.logCount && x.nextSector == r.nextSector
                               && r.queue[2] == Write(0, BuildSuperblock(x))
                               && r.queue[3] == Write(1, BuildSuperblock(x))
  }

  lemma QuietTake(s: Store, size: nat, sample: Sample)
    requires s.samplesInBlock == 0 && |s.queue| == 4 && s.captured == 0 && s.nextCheckpointAt > 1 && s.logCount > 0
    ensures var r := TakeSample(s, size, sample);
            && r.queue == s.queue && r.issued == s.issued && r.status == s.status && r.writeActive == s.writeActive
            && r.logCount == s.logCount && r.nextSector == s.nextSector
  {
    hide EncodeSample, Put, EnqueueMetadata;
  }

  lemma QuietRecord(s: Store, size: nat, sample: Sample)
    requires s.samplesInBlock == 0 && |s.queue| == 4 && s.captured == 0 && s.nextCheckpointAt > 1 && s.logCount > 0
    requires s.status == Recording && s.finishAfter == 0 && !s.armedSeen && sample.state == Disarmed
    ensures var r := RecordSample(s, size, sample);
            && r.queue == s.queue && r.issued == s.issued && r.status == Recording && r.writeActive == s.writeActive
            && r.logCount == s.logCount && r.nextSector == s.nextSector
  {
    hide FinishFlight, TakeSample, Releases, Timed, Missed;
    assert TrackState(s, sample.state, sample.timestamp) == s;
    assert !Closes(s, sample);
    QuietTake(Missed(s, sample), size, sample);
  }

  lemma OpeningWritten(s: Store, size: nat, timestamp: uint64)
    requires s.queue == [] && s.configuration == [] && s.nextSector < size < MASK32
    ensures var (r, ok) := WriteOpening(s, size, timestamp);
            && ok && |r.queue| == 1 && r.queue[0].target == s.nextSector && r.nextSector == s.nextSector + 1
            && ParseBlock(r.queue[0].data).Some? && ParseBlock(r.queue[0].data).value.sequence == s.blockSequence
  {
    hide Finalize, HeaderPayload, WithPayload, ParseBlock;
    var header := WithPayload(HeaderPayload(s, timestamp));
    FinalizeParses(header, FLIGHT_HEADER, s.active.id, s.blockSequence, 1, 68);
  }

  lemma OpeningListed(s: Store)
    requires |s.queue| == 1 && s.logCount > 0
    ensures var (r, ok) := EnqueueMetadata(s);
            && ok && |r.queue| == 4 && r.queue[0] == s.queue[0]
            && r.queue[1].target == FIRST_CATALOG_SECTOR + s.pageIndex
            && r.queue[2] == Write(0, BuildSuperblock(Snapshot(s)))
            && r.queue[3] == Write(1, BuildSuperblock(Snapshot(s))) && r.issued == s.issued + [Snapshot(s)]
  {
    hide SealPage, PutEntry, BuildSuperblock;
  }

  lemma OpensLog(s: Store, card: Card)
    requires s.queue == [] && s.configuration == [] && !s.writeActive && s.blockSequence == 0
    requires s.logCount < LOG_CAPACITY && FIRST_DATA_SECTOR <= s.nextSector < |card| < MASK32
    requires s.logCount % ENTRIES_PER_PAGE != 0 ==>
               var index := s.logCount / ENTRIES_PER_PAGE; PageValid(card[FIRST_CATALOG_SECTOR + index], index)
    ensures var (r, ok) := StartFlight(s, card, 0, ReadOk);
            && ok && JustOpened(s, r)
            && r.samplesInBlock == 0 && r.captured == 0 && r.nextCheckpointAt == CHECKPOINT_SAMPLE_INTERVAL
            && r.finishAfter == 0 && !r.armedSeen && r.nextSampleAt == 0 && r.nextSector == s.nextSector + 1
  {
    hide WriteOpening, EnqueueMetadata, BuildSuperblock, PageValid, ParseBlock;
    var (paged, loaded) := PreparePage(s, card, ReadOk);
    assert loaded && paged.pageIndex < CATALOG_PAGE_COUNT;
    OpeningWritten(OpenLog(paged), |card|, 0);
    var begun := WriteOpening(OpenLog(paged), |card|, 0).0;
    OpeningListed(NextGeneration(begun));
  }

  lemma Opens(s: Store, card: Card)
    requires s.status == Ready && s.queue == [] && s.configuration == [] && !s.writeActive
    requires s.logCount < LOG_CAPACITY && FIRST_DATA_SECTOR <= s.nextSector < |card| < MASK32
    requires s.logCount % ENTRIES_PER_PAGE != 0 ==>
               var index := s.logCount / ENTRIES_PER_PAGE; PageValid(card[FIRST_CATALOG_SECTOR + index], index)
    ensures JustOpened(s, Capture(s, card, QuietSample, ReadOk))
  {
    hide StartFlight, RecordSample, PageValid, ParseBlock;
    OpensLog(s.(blockSequence := 0), card);
    QuietRecord(StartFlight(s.(blockSequence := 0), card, 0, ReadOk).0, |card|, QuietSample);
  }

  lemma TwoTurns(s: Store, card: Card)
    requires s.status == Recording && s.queue != [] && !s.writeActive
    ensures var (m, d) := Service(s, card, CardOk);
            && m.status == Recording
            && Service(m, d, CardOk) == (s.(queue := s.queue[1..]), Written(card, s.queue[0]))
  {
  }

  lemma TwoServices(s: Store, card: Card, base: seq<LogInfo>, origin: seq<Superblock>, calls: seq<StoreCall>)
    requires Inv(s, card, base, origin) && Formatless(calls)
    requires var (m, d) := StoreRun(s, card, base, origin, calls);
             m.status == Recording && m.queue != [] && !m.writeActive
    ensures var (m, d) := StoreRun(s, card, base, origin, calls);
            StoreRun(s, card, base, origin, calls + [DoService(CardOk), DoService(CardOk)]) ==
            (m.(queue := m.queue[1..]), Written(d, m.queue[0]))
  {
    hide Inv, StoreRun, Service;
    var (m, d) := StoreRun(s, card, base, origin, calls);
    TwoTurns(m, d);
    OneCallMore(s, card, base, origin, calls, DoService(CardOk));
    OneCallMore(s, card, base, origin, calls + [DoService(CardOk)], DoService(CardOk));
    assert calls + [DoService(CardOk)] + [DoService(CardOk)] == calls + [DoService(CardOk), DoService(CardOk)];
  }

  /** The header, the page and one of the two superblocks of a new log are written. */
  function HalfListed(): (calls: seq<StoreCall>)
    ensures Formatless(calls)
  {
    [DoSetConfiguration([]), DoCapture(QuietSample, ReadOk)] + [DoService(CardOk), DoService(CardOk)]
    + [DoService(CardOk), DoService(CardOk)] + [DoService(CardOk), DoService(CardOk)]
  }

  lemma ThreeWrites(s: Store, card: Card, base: seq<LogInfo>, origin: seq<Superblock>, calls: seq<StoreCall>)
    requires Inv(s, card, base, origin) && Formatless(calls)
    requires var (m, d) := StoreRun(s, card, base, origin, calls);
             m.status == Recording && |m.queue| == 4 && !m.writeActive
    ensures var (m, d) := StoreRun(s, card, base, origin, calls);
            StoreRun(s, card, base, origin,
                     calls + [DoService(CardOk), DoService(CardOk)] + [DoService(CardOk), DoService(CardOk)]
                     + [DoService(CardOk), DoService(CardOk)]) ==
            (m.(queue := m.queue[3..]), Written(Written(Written(d, m.queue[0]), m.queue[1]), m.queue[2]))
  {
    hide Inv, StoreRun, Written;
    var m := StoreRun(s, card, base, origin, calls).0;
    TwoServices(s, card, base, origin, calls);
    var four := calls + [DoService(CardOk), DoService(CardOk)];
    TwoServices(s, card, base, origin, four);
    TwoServices(s, card, base, origin, four + [DoService(CardOk), DoService(CardOk)]);
    assert m.queue[1..][1..] == m.queue[2..] && m.queue[2..][1..] == m.queue[3..];
  }

  lemma OpensFromMount(card: Card, configuration: ConfigurationBytes, firmware: Text, build: Text)
    requires CleanCard(card) && MountedStatus(Newest(card, true, true).value, |card|) == Ready
    ensures var s := Mount(card, configuration, firmware, build, true, true);
            var calls := [DoSetConfiguration([]), DoCapture(QuietSample, ReadOk)];
            var (m, d) := MountAndRun(card, configuration, firmware, build, calls);
            d == card && JustOpened(s, m)
  {
    hide StoreRun, Inv, Capture, SuperBounded, PageValid, JustOpened, SuperblockValid, LoadSuperblock, LogSound;
    hide EntryOf;
    var s := Mount(card, configuration, firmware, build, true, true);
    var base := Catalogue(card, s.logCount);
    MountedInv(card, configuration, firmware, build);
    assert StoreRun(s, card, base, Origin(card), []) == (s, card) by { EmptyRun(s, card, base, Origin(card)); }
    OneCallMore(s, card, base, Origin(card), [], DoSetConfiguration([]));
    OneCallMore(s, card, base, Origin(card), [DoSetConfiguration([])], DoCapture(QuietSample, ReadOk));
    assert [] + [DoSetConfiguration([])] == [DoSetConfiguration([])];
    assert [DoSetConfiguration([])] + [DoCapture(QuietSample, ReadOk)] ==
           [DoSetConfiguration([]), DoCapture(QuietSample, ReadOk)];
    if s.logCount % ENTRIES_PER_PAGE != 0 {
      assert EntrySound(card, s.logCount - 1);
      assert (s.logCount - 1) / ENTRIES_PER_PAGE == s.logCount / ENTRIES_PER_PAGE;
    }
    Opens(s.(configuration := []), card);
    SameOpened(s, Capture(s.(configuration := []), card, QuietSample, ReadOk));
  }

  lemma EmptyRun(s: Store, card: Card, base: seq<LogInfo>, origin: seq<Superblock>)
    requires Inv(s, card, base, origin)
    ensures StoreRun(s, card, base, origin, []) == (s, card)
  {
  }

  lemma SameOpened(s: Store, r: Store)
    requires JustOpened(s.(configuration := []), r)
    ensures JustOpened(s, r)
  {
  }

  /** On a forgetful card the cut between the two superblocks of the next log brings the older one back. */
  lemma OlderSuperblockReturns(card: Card, configuration: ConfigurationBytes, firmware: Text, build: Text,
                               welcome: seq<Superblock>)
    requires CleanCard(card) && Forgetful(card, welcome)
    ensures var (r, c) := MountAndRun(card, configuration, firmware, build, HalfListed());
            && |c| >= 2 && Newest(c, true, true) == Some(LoadSuperblock(card[1]))
            && !PicksFresh(c, MountStart(card, welcome), r.issued)
  {
    hide StoreRun, Inv, SuperBounded, SuperblockValid, LoadSuperblock, Listing, BuildSuperblock;
    var s := Mount(card, configuration, firmware, build, true, true);
    var base := Catalogue(card, s.logCount);
    MountedInv(card, configuration, firmware, build);
    OpensFromMount(card, configuration, firmware, build);
    var calls := [DoSetConfiguration([]), DoCapture(QuietSample, ReadOk)];
    ThreeWrites(s, card, base, Origin(card), calls);
    var m := StoreRun(s, card, base, Origin(card), calls).0;
    var (r, c) := MountAndRun(card, configuration, firmware, build, HalfListed());
    var x: Superblock :| m.issued == s.issued + [x] && x.generation == (s.generation + 1) % MASK32
                         && m.queue[2].data == BuildSuperblock(x);
    SuperblockRoundTrip(x);
    assert c[0] == BuildSuperblock(x) && c[1] == card[1];
    assert r.issued == [x];
  }

  /**
   * In every run without formatting, cut anywhere, the card mounts from the superblock of the start or a newer one:
   * this holds if and only if the card was not forgetful.
   */
  lemma RemountIsFreshExactlyUnlessForgetful(card: Card, configuration: ConfigurationBytes, firmware: Text,
                                             build: Text)
    requires CleanCard(card)
    ensures (forall calls: seq<StoreCall> | Formatless(calls) ::
               var (r, c) := MountAndRun(card, configuration, firmware, build, calls);
               PicksFresh(c, MountStart(card, Chosen(card)), r.issued))
            <==> !Forgetful(card, Chosen(card))
  {
    hide MountAndRun, PicksFresh, Forgetful, Listing, SuperblockValid, LoadSuperblock;
    if Forgetful(card, Chosen(card)) {
      OlderSuperblockReturns(card, configuration, firmware, build, Chosen(card));
    } else {
      forall calls: seq<StoreCall> | Formatless(calls)
        ensures var (r, c) := MountAndRun(card, configuration, firmware, build, calls);
                PicksFresh(c, MountStart(card, Chosen(card)), r.issued)
      {
        RunRemembers(card, configuration, firmware, build, Chosen(card), calls);
      }
    }
  }

  /** The superblocks on the card that list no fewer logs than the one the mount chooses. */
  function Complete(card: Card): (welcome: seq<Superblock>)
    requires |card| >= 2 && Newest(card, true, true).Some?
  {
    if LoadSuperblock(card[1]).logCount >= Newest(card, true, true).value.logCount then
      [Newest(card, true, true).value, LoadSuperblock(card[1])]
    else Chosen(card)
  }

  /** The numbers wrap, there is room for a log, and the older superblock lists fewer logs. */
  predicate LosesLogs(card: Card)
    requires |card| >= 2 && Newest(card, true, true).Some?
  {
    Forgetful(card, Chosen(card)) && LoadSuperblock(card[1]).logCount < Newest(card, true, true).value.logCount
  }

  lemma CompleteUnlessLosing(card: Card)
    requires |card| >= 2 && Newest(card, true, true).Some? && !LosesLogs(card)
    ensures !Forgetful(card, Complete(card))
    ensures Newest(card, true, true).value in Complete(card)
    ensures forall b | b in Complete(card) :: b.logCount >= Newest(card, true, true).value.logCount
  {
    hide SuperblockValid, LoadSuperblock;
  }

  /**
   * In every run without formatting, cut anywhere, the card mounts with at least as many logs as before: this holds if
   * and only if the older superblock could not come back with fewer.
   */
  lemma NoLogIsLostExactlyUnless(card: Card, configuration: ConfigurationBytes, firmware: Text, build: Text)
    requires CleanCard(card)
    ensures (forall calls: seq<StoreCall> | Formatless(calls) ::
               var c := MountAndRun(card, configuration, firmware, build, calls).1;
               |c| >= 2 && Newest(c, true, true).Some?
               && Newest(c, true, true).value.logCount >= Newest(card, true, true).value.logCount)
            <==> !LosesLogs(card)
  {
    hide MountAndRun, PicksFresh, Forgetful, Listing, SuperblockValid, LoadSuperblock;
    if LosesLogs(card) {
      OlderSuperblockReturns(card, configuration, firmware, build, Chosen(card));
    } else {
      CompleteUnlessLosing(card);
      forall calls: seq<StoreCall> | Formatless(calls)
        ensures var c := MountAndRun(card, configuration, firmware, build, calls).1;
                |c| >= 2 && Newest(c, true, true).Some?
                && Newest(c, true, true).value.logCount >= Newest(card, true, true).value.logCount
      {
        RunRemembers(card, configuration, firmware, build, Complete(card), calls);
        var (r, c) := MountAndRun(card, configuration, firmware, build, calls);
        RemembersCount(c, MountStart(card, Complete(card)), r.issued);
      }
    }
  }

  /* ---------------- such a card ---------------- */

  const LostEntry: LogInfo := LogInfo(1, FIRST_DATA_SECTOR, FIRST_DATA_SECTOR, 0, 0, true)

  const LastSuper: Superblock := Superblock(UINT32_MAX, FIRST_DATA_SECTOR + 1, 2, 1)

  const OldSuper: Superblock := Superblock(UINT32_MAX - 1, FIRST_DATA_SECTOR, 1, 0)

  function WrappingSector(t: nat): (s: Sector) {
    if t == 0 then BuildSuperblock(LastSuper)
    else if t == 1 then BuildSuperblock(OldSuper)
    else if t == FIRST_CATALOG_SECTOR then SealPage(PutEntry(NewPage(0), 0, LostEntry), 1)
    else if t == FIRST_DATA_SECTOR then Finalize(ZeroSector(), 1, 1, 0, 0, 0)
    else ZeroSector()
  }

  /** One log of one block, listed by the primary superblock, whose number is the last; the backup lists none. */
  function WrappingCard(): (card: Card)
    ensures |card| == FIRST_DATA_SECTOR + 8
  {
    seq(FIRST_DATA_SECTOR + 8, t requires 0 <= t => WrappingSector(t))
  }

  /** The card mounts cleanly with its one log; after a cut in the next flight it mounts with none. */
  lemma WrappingLosesALog(configuration: ConfigurationBytes, firmware: Text, build: Text)
    ensures var card := WrappingCard();
            && CleanCard(card) && LosesLogs(card) && Newest(card, true, true).value.logCount == 1
            && var (r, c) := MountAndRun(card, configuration, firmware, build, HalfListed());
               |c| >= 2 && Newest(c, true, true) == Some(OldSuper) && OldSuper.logCount == 0
  {
    hide BuildSuperblock, SealPage, PutEntry, NewPage, Finalize, MountAndRun, ParseBlock, EntryOf, PageValid;
    hide SuperblockValid, LoadSuperblock, HeadedPage;
    var card := WrappingCard();
    SuperblockRoundTrip(LastSuper);
    SuperblockRoundTrip(OldSuper);
    NewPageIsHeaded(0);
    PutEntryRoundTrip(NewPage(0), 0, LostEntry, 0);
    SealPageKeeps(PutEntry(NewPage(0), 0, LostEntry), 1, 0);
    FinalizeParses(ZeroSector(), 1, 1, 0, 0, 0);
    assert card[0] == BuildSuperblock(LastSuper) && card[1] == BuildSuperblock(OldSuper);
    assert Newest(card, true, true) == Some(LastSuper);
    assert Listed(card, 0) == LostEntry;
    assert BlockAt(card, FIRST_DATA_SECTOR, 1, FIRST_DATA_SECTOR);
    assert EntrySound(card, 0);
    assert Listing(card, 1, [], Origin(card));
    OlderSuperblockReturns(card, configuration, firmware, build, Chosen(card));
  }
}
