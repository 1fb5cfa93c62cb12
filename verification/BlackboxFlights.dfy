/** Whole flights: every log the store closes decodes to what was recorded into it. */
module BlackboxFlights {
  import opened Counters
  import opened SystemState
  import opened Bytes
  import opened BlackboxFormat
  import opened BlackboxSamples
  import opened BlackboxDecoder
  import opened BlackboxStore
  import opened BlackboxCard
  import opened BlackboxCrash
  import opened BlackboxContents
  import opened BlackboxRuns
  import opened BlackboxKept

  /** The active log holds what was recorded; once closed, the host can read it back. */
  ghost predicate Recorded(s: Store, card: Card) {
    && (s.status == Recording ==> exists blocks :: Holds(s, card, blocks))
    && (s.status == Finishing ==> exists ended, state :: Decodes(s, card, ended, state))
  }

  lemma NothingYet(s: Store, card: Card)
    requires Geometry(|card|) && FIRST_DATA_SECTOR <= s.active.startSector == s.nextSector <= |card| && s.queue == []
    ensures BlocksAre(s, card, [])
  {
    assert Applied(card, s.queue)[s.active.startSector..s.nextSector] == [];
  }

  lemma PreparedPage(s: Store, card: Card, reply: ReadReply)
    requires s.logCount < LOG_CAPACITY
    ensures var (r, ok) := PreparePage(s, card, reply); ok ==> r.pageIndex < CATALOG_PAGE_COUNT
  {
  }

  lemma StartContent(s: Store, card: Card, timestamp: uint64, reply: ReadReply)
    requires Geometry(|card|) && FIRST_DATA_SECTOR <= s.nextSector <= |card|
    ensures var (r, ok) := StartFlight(s, card, timestamp, reply);
            ok ==> r.taken == [] && exists blocks :: Holds(r, card, blocks)
  {
    hide BlocksAre, WriteOpening, PreparePage, EnqueueMetadata, HeaderPayload, LogSamples, ConfigurationIn, LastOfKind;
    hide FirstOfKind, ShownAll, PendingAt;
    var (r, done) := StartFlight(s, card, timestamp, reply);
    if done {
      var (paged, loaded) := PreparePage(s, card, reply);
      PreparedPage(s, card, reply);
      var empty := OpenLog(paged);
      NothingYet(empty, card);
      OpeningContent(empty, card, timestamp);
      var (begun, written) := WriteOpening(empty, |card|, timestamp);
      var blocks :| BlocksAre(begun, card, blocks) && Content(begun, blocks, timestamp, |empty.configuration|, 0);
      var next := NextGeneration(begun);
      SameBlocks(begun, next, card, blocks);
      MetadataKeepsBlocks(next, card, blocks);
      MetadataKeepsActive(next);
      var (listed, ok) := EnqueueMetadata(next);
      SameBlocks(listed, r, card, blocks);
      SameHeader(begun, r, timestamp);
      assert Content(r, blocks, r.startedAt, |r.configuration|, 0);
      assert Holds(r, card, blocks);
    }
  }

  /** When and in which state a call closes the log it is given to. */
  function ClosingTime(call: StoreCall): (t: uint64) {
    match call
    case DoCapture(sample, _) => sample.timestamp
    case DoFinish(timestamp, _) => timestamp
    case _ => 0
  }

  function ClosingState(call: StoreCall): (s: State) {
    match call
    case DoCapture(sample, _) => sample.state
    case DoFinish(_, state) => state
    case _ => Boot
  }

  lemma RecordContent(s: Store, card: Card, blocks: seq<Block>, sample: Sample)
    requires Holds(s, card, blocks) && s.samplesInBlock < SAMPLES_PER_BLOCK && s.logCount > 0
    requires s.pageIndex < CATALOG_PAGE_COUNT && s.status == Recording
    ensures var r := RecordSample(s, |card|, sample);
            && Recorded(r, card)
            && (r.status == Finishing ==> Decodes(r, card, sample.timestamp, sample.state))
  {
    hide Holds, TakeSample, FinishFlight, Decodes, Releases, Closes, Timed, Missed;
    SameHolds(s, Timed(s, sample), card, blocks);
    SameHolds(s, Missed(s, sample), card, blocks);
    TakeContent(Missed(s, sample), card, blocks, sample);
    var taken := Sampled(s, |card|, sample);
    if taken.status != Error {
      assert exists all :: Holds(taken, card, all);
      var all :| Holds(taken, card, all);
      SameHolds(taken, taken.(previousState := sample.state), card, all);
      if Closes(s, sample) {
        TakeKeepsPage(Missed(s, sample), |card|, sample);
        FinishContent(taken, card, all, sample.timestamp, sample.state);
        var closed := FinishFlight(taken, |card|, sample.timestamp, sample.state);
        if closed.status == Finishing {
          StillDecodes(closed, closed.(previousState := sample.state), card, sample.timestamp, sample.state);
        }
        FinishedStatus(taken, |card|, sample.timestamp, sample.state);
      }
    }
  }

  lemma FinishedStatus(s: Store, size: nat, timestamp: uint64, state: State)
    requires s.samplesInBlock <= SAMPLES_PER_BLOCK && s.logCount > 0
    ensures FinishFlight(s, size, timestamp, state).status != Recording
  {
    hide AppendBlock, FlushSamples, EnqueueMetadata, WithPayload, FooterPayload;
  }

  lemma TakeKeepsPage(s: Store, size: nat, sample: Sample)
    requires s.samplesInBlock < SAMPLES_PER_BLOCK && s.logCount > 0
    ensures TakeSample(s, size, sample).pageIndex == s.pageIndex
  {
    hide AppendBlock, EnqueueMetadata, EncodeSample, Put;
  }

  lemma StillDecodes(s: Store, r: Store, card: Card, ended: uint64, state: State)
    requires Decodes(s, card, ended, state)
    requires r == s.(previousState := r.previousState, writeActive := r.writeActive, status := r.status,
                     armedSeen := r.armedSeen)
    ensures Decodes(r, card, ended, state)
  {
    hide DecodeLog;
    SameExpected(s, r, ended, state);
  }

  lemma FlightPage(s: Store, card: Card, base: seq<LogInfo>, origin: seq<Superblock>)
    requires Flying(s, card, s.logCount, base, origin)
    ensures s.pageIndex < CATALOG_PAGE_COUNT
  {
    hide Listing, CutsGood, PageValid, BlockAt, EntryOf;
  }

  lemma IdleRoom(s: Store, card: Card, base: seq<LogInfo>, known: seq<Superblock>)
    requires Idle(s, card, base, known)
    ensures FIRST_DATA_SECTOR <= s.nextSector <= |card|
  {
  }

  lemma CaptureContent(s: Store, card: Card, base: seq<LogInfo>, origin: seq<Superblock>, sample: Sample,
          reply: ReadReply)
    requires Inv(s, card, base, origin) && CanStep(s, card) && Recorded(s, card)
    ensures var r := Capture(s, card, sample, reply);
            && Recorded(r, card)
            && (s.status == Recording && r.status == Finishing ==> Decodes(r, card, sample.timestamp, sample.state))
  {
    hide Holds, Decodes, StartFlight, RecordSample, Flying, Idle, CutsGood;
    if s.status == Recording {
      FlightPage(s, card, base, origin);
      var blocks :| Holds(s, card, blocks);
      RecordContent(s, card, blocks, sample);
    } else if s.status == Ready && sample.state != Fault {
      var numbered := s.(blockSequence := 0);
      IdleRoom(s, card, base, origin + s.issued);
      IdleRenumbered(s, card, base, origin);
      StartContent(numbered, card, sample.timestamp, reply);
      StartKeeps(numbered, card, base, origin, sample.timestamp, reply);
      var (started, ok) := StartFlight(numbered, card, sample.timestamp, reply);
      if ok {
        FlightPage(started, card, base, origin);
        var blocks :| Holds(started, card, blocks);
        RecordContent(started, card, blocks, sample);
      }
    }
  }

  lemma SameCardBlocks(s: Store, card: Card, r: Store, c: Card, blocks: seq<Block>)
    requires BlocksAre(s, card, blocks) && Applied(c, r.queue) == Applied(card, s.queue) && |c| == |card|
    requires r.active.startSector == s.active.startSector && r.nextSector == s.nextSector
    ensures BlocksAre(r, c, blocks)
  {
    hide ParseAll, Applied;
  }

  lemma SameCard(s: Store, card: Card, r: Store, c: Card, blocks: seq<Block>)
    requires Holds(s, card, blocks) && Applied(c, r.queue) == Applied(card, s.queue) && |c| == |card|
    requires r == s.(queue := r.queue, writeActive := r.writeActive, status := r.status)
    ensures Holds(r, c, blocks)
  {
    hide BlocksAre, HeaderPayload, LogSamples, ConfigurationIn, LastOfKind, FirstOfKind, ShownAll, Pending, Applied;
    SameCardBlocks(s, card, r, c, blocks);
    SameHeader(s, r, s.startedAt);
    SamePending(s, r);
  }

  lemma SameCardDecodes(s: Store, card: Card, r: Store, c: Card, ended: uint64, state: State)
    requires Decodes(s, card, ended, state) && Applied(c, r.queue) == Applied(card, s.queue) && |c| == |card|
    requires r == s.(queue := r.queue, writeActive := r.writeActive, status := r.status, armedSeen := r.armedSeen)
    ensures Decodes(r, c, ended, state)
  {
    hide DecodeLog, ExpectedLog, Applied, Concat;
    assert LogSectors(r, c) == LogSectors(s, card);
    SameExpected(s, r, ended, state);
  }

  lemma ServiceContent(s: Store, card: Card, reply: CardReply)
    requires Recorded(s, card)
    ensures var (r, c) := Service(s, card, reply);
            && Recorded(r, c)
            && (s.status == Finishing && r.status == Ready ==> exists ended, state :: Decodes(r, c, ended, state))
  {
    hide Holds, Decodes;
    var (r, c) := Service(s, card, reply);
    if s.queue != [] && s.writeActive && reply == CardOk && s.status != Error {
      FirstWriteDone(card, s.queue);
    }
    assert Applied(c, r.queue) == Applied(card, s.queue);
    if s.status == Recording {
      var blocks :| Holds(s, card, blocks);
      if r.status == Recording {
        SameCard(s, card, r, c, blocks);
      }
    } else if s.status == Finishing {
      var ended, state :| Decodes(s, card, ended, state);
      SameCardDecodes(s, card, r, c, ended, state);
    }
  }

  lemma FinishCallContent(s: Store, card: Card, base: seq<LogInfo>, origin: seq<Superblock>, timestamp: uint64,
                          state: State)
    requires Inv(s, card, base, origin) && CanStep(s, card) && Recorded(s, card)
    ensures var r := FinishRecording(s, |card|, timestamp, state);
            && Recorded(r, card)
            && (s.status == Recording && r.status == Finishing ==> Decodes(r, card, timestamp, state))
  {
    hide Holds, Decodes, FinishFlight, Flying, Idle, CutsGood;
    if s.status == Recording {
      FlightPage(s, card, base, origin);
      var blocks :| Holds(s, card, blocks);
      FinishContent(s, card, blocks, timestamp, state);
      FinishedStatus(s, |card|, timestamp, state);
    }
  }

  lemma StepContent(s: Store, card: Card, base: seq<LogInfo>, origin: seq<Superblock>, call: StoreCall)
    requires Inv(s, card, base, origin) && Recorded(s, card)
    ensures CanStep(s, card)
    ensures var (r, c) := StoreStep(s, card, call);
            && Recorded(r, c)
            && (s.status == Recording && r.status == Finishing ==> Decodes(r, c, ClosingTime(call), ClosingState(call)))
            && (s.status == Finishing && r.status == Ready ==> exists ended, state :: Decodes(r, c, ended, state))
  {
    hide Inv, Holds, Decodes, RecordSample, StartFlight, FinishFlight;
    InvCanStep(s, card, base, origin);
    match call
    case DoCapture(sample, reply) => CaptureContent(s, card, base, origin, sample, reply);
    case DoFinish(timestamp, state) => FinishCallContent(s, card, base, origin, timestamp, state);
    case DoService(reply) => ServiceContent(s, card, reply);
    case _ =>
  }

  lemma {:induction false} RunContent(s: Store, card: Card, base: seq<LogInfo>, origin: seq<Superblock>,
                                      calls: seq<StoreCall>)
    requires Inv(s, card, base, origin) && Recorded(s, card)
    ensures var (r, c) := StoreRun(s, card, base, origin, calls); Recorded(r, c)
    decreases |calls|
  {
    hide Inv, Recorded, StoreStep;
    if calls != [] {
      StoreStepKeeps(s, card, base, origin, calls[0]);
      StepContent(s, card, base, origin, calls[0]);
      var (next, c) := StoreStep(s, card, calls[0]);
      RunContent(next, c, BaseAfter(base, calls[0]), origin, calls[1..]);
    }
  }

  /** With nothing left in the queue, the card's own sectors of the active log decode to what was recorded. */
  ghost predicate OnCard(s: Store, card: Card) {
    && s.queue == [] && s.active.startSector <= s.active.endSector < |card|
    && exists ended, state ::
         DecodeLog(Concat(card[s.active.startSector..s.active.endSector + 1])) == Some(ExpectedLog(s, ended, state))
  }

  lemma DrainedOnCard(s: Store, card: Card)
    requires s.queue == [] && exists ended, state :: Decodes(s, card, ended, state)
    ensures OnCard(s, card)
  {
    hide DecodeLog, ExpectedLog;
    assert Applied(card, s.queue) == card;
    var ended, state :| Decodes(s, card, ended, state);
    assert LogSectors(s, card) == card[s.active.startSector..s.active.endSector + 1];
  }

  lemma StepReads(s: Store, card: Card, base: seq<LogInfo>, origin: seq<Superblock>, call: StoreCall)
    requires Inv(s, card, base, origin) && Recorded(s, card)
    ensures CanStep(s, card)
    ensures var (r, c) := StoreStep(s, card, call);
            && (s.status == Recording && r.status == Finishing ==> Decodes(r, c, ClosingTime(call), ClosingState(call)))
            && (s.status == Finishing && r.status == Ready ==> OnCard(r, c))
  {
    hide Inv, Recorded, StoreStep, Decodes, OnCard;
    StepContent(s, card, base, origin, call);
    StoreStepKeeps(s, card, base, origin, call);
    var (r, c) := StoreStep(s, card, call);
    if s.status == Finishing && r.status == Ready {
      ReadyQueue(r, c, BaseAfter(base, call), origin);
      DrainedOnCard(r, c);
    }
  }

  lemma ReadyQueue(s: Store, card: Card, base: seq<LogInfo>, origin: seq<Superblock>)
    requires Inv(s, card, base, origin) && s.status == Ready
    ensures s.queue == []
  {
  }

  lemma MountedRecorded(card: Card, configuration: ConfigurationBytes, firmware: Text, build: Text)
    requires |card| >= 2
    ensures Recorded(Mount(card, configuration, firmware, build, true, true), card)
  {
    hide Newest, Holds, Decodes;
  }

  /**
   * In every run from a clean mount: the call that closes a log leaves sectors that, once written, the host
   * decodes to the configuration, exactly the samples taken in order with sequences 1, 2, ..., and a footer with
   * the two counters; and when the queue has drained they are on the card.
   */
  lemma CompletedLogDecodes(card: Card, configuration: ConfigurationBytes, firmware: Text, build: Text,
                            calls: seq<StoreCall>, call: StoreCall)
    requires CleanCard(card)
    ensures var s := Mount(card, configuration, firmware, build, true, true);
            var base := Catalogue(card, s.logCount);
            && Inv(s, card, base, Origin(card))
            && var (before, c) := StoreRun(s, card, base, Origin(card), calls);
               && CanStep(before, c)
               && var (after, written) := StoreStep(before, c, call);
                  && (before.status == Recording && after.status == Finishing ==>
                        Decodes(after, written, ClosingTime(call), ClosingState(call)))
                  && (before.status == Finishing && after.status == Ready ==> OnCard(after, written))
  {
    hide StoreRun, StoreStep, Inv, Recorded, Decodes, OnCard, Listing, SuperblockValid;
    var s := Mount(card, configuration, firmware, build, true, true);
    MountedInv(card, configuration, firmware, build);
    MountedRecorded(card, configuration, firmware, build);
    var base := Catalogue(card, s.logCount);
    RunContent(s, card, base, Origin(card), calls);
    StoreRunKeeps(s, card, base, Origin(card), calls);
    var (before, c) := StoreRun(s, card, base, Origin(card), calls);
    StepReads(before, c, BaseAfterAll(base, calls), Origin(card), call);
  }

  /* ---------------- a closed log stays readable ---------------- */

  /** While a closed log drains, the page in memory carries its final entry. */
  predicate EntryIsFinal(s: Store) {
    s.status == Finishing ==> s.logCount > 0 && EntryOf(s.page, SlotOf(s.logCount - 1)) == s.active
  }

  lemma FinishEntry(s: Store, size: nat, timestamp: uint64, state: State)
    requires s.samplesInBlock <= SAMPLES_PER_BLOCK && s.logCount > 0 && HeadedPage(s.page, s.pageIndex)
    ensures EntryIsFinal(FinishFlight(s, size, timestamp, state))
  {
    hide AppendBlock, FlushSamples, EnqueueSuperblocks, WithPayload, FooterPayload, PutEntry, SealPage, EntryOf;
    hide HeadedPage;
    var flushed := FlushSamples(s, size).0;
    var footed :=
      AppendBlock(flushed, size, WithPayload(FooterPayload(flushed, timestamp, state)), FLIGHT_FOOTER, 1, 20).0;
    var closed := footed.(active := footed.active.(samples := s.captured % MASK32, dropped := s.dropped % MASK32,
                                                   complete := true));
    var slot := SlotOf(s.logCount - 1);
    PutEntryRoundTrip(s.page, slot, closed.active, s.pageIndex);
    SealPageKeeps(PutEntry(s.page, slot, closed.active), EntriesOnPage(s.logCount), s.pageIndex);
  }

  lemma HeadedFlight(s: Store, card: Card, base: seq<LogInfo>, origin: seq<Superblock>)
    requires Flying(s, card, s.logCount, base, origin)
    ensures HeadedPage(s.page, s.pageIndex) && s.logCount > 0
  {
    hide Listing, CutsGood, Contiguous;
  }

  lemma RecordEntry(s: Store, card: Card, base: seq<LogInfo>, origin: seq<Superblock>, sample: Sample)
    requires Flying(s, card, s.logCount, base, origin) && s.samplesInBlock < SAMPLES_PER_BLOCK && s.pageValid
    requires s.active.startSector < s.nextSector && s.logCount > 0 && s.status == Recording
    ensures EntryIsFinal(RecordSample(s, |card|, sample))
  {
    hide Flying, TakeSample, FinishFlight, Releases, Closes, Timed, Missed, EntryOf;
    SameFlight(s, Timed(s, sample), card, s.logCount, base, origin);
    SameFlight(s, Missed(s, sample), card, s.logCount, base, origin);
    TakeKeeps(Missed(s, sample), card, base, origin, sample);
    var taken := Sampled(s, |card|, sample);
    if taken.status != Error && Closes(s, sample) {
      HeadedFlight(taken, card, base, origin);
      FinishEntry(taken, |card|, sample.timestamp, sample.state);
    }
  }

  lemma StepEntry(s: Store, card: Card, base: seq<LogInfo>, origin: seq<Superblock>, call: StoreCall)
    requires Inv(s, card, base, origin) && CanStep(s, card) && EntryIsFinal(s)
    ensures EntryIsFinal(StoreStep(s, card, call).0)
  {
    hide Flying, RecordSample, StartFlight, FinishFlight, Idle, CutsGood, EntryOf, LoadPage;
    match call
    case DoCapture(sample, reply) =>
      if s.status == Recording {
        RecordEntry(s, card, base, origin, sample);
      } else if s.status == Ready && sample.state != Fault {
        IdleRenumbered(s, card, base, origin);
        StartKeeps(s.(blockSequence := 0), card, base, origin, sample.timestamp, reply);
        var (started, ok) := StartFlight(s.(blockSequence := 0), card, sample.timestamp, reply);
        if ok {
          RecordEntry(started, card, base, origin, sample);
        }
      }
    case DoFinish(timestamp, state) =>
      if s.status == Recording {
        HeadedFlight(s, card, base, origin);
        FinishEntry(s, |card|, timestamp, state);
      }
    case _ =>
  }

  lemma {:induction false} RunEntry(s: Store, card: Card, base: seq<LogInfo>, origin: seq<Superblock>,
                                    calls: seq<StoreCall>)
    requires Inv(s, card, base, origin) && EntryIsFinal(s)
    ensures EntryIsFinal(StoreRun(s, card, base, origin, calls).0)
    decreases |calls|
  {
    hide Inv, EntryIsFinal, StoreStep;
    if calls != [] {
      StoreStepKeeps(s, card, base, origin, calls[0]);
      StepEntry(s, card, base, origin, calls[0]);
      var (next, c) := StoreStep(s, card, calls[0]);
      RunEntry(next, c, BaseAfter(base, calls[0]), origin, calls[1..]);
    }
  }

  /** The step that makes the store ready again leaves twin superblocks and lists the log with its final entry. */
  lemma DrainedLists(s: Store, card: Card, base: seq<LogInfo>, origin: seq<Superblock>, call: StoreCall)
    requires Inv(s, card, base, origin) && CanStep(s, card) && Current(s, card) && EntryIsFinal(s)
    requires s.status == Finishing && StoreStep(s, card, call).0.status == Ready
    ensures var (r, c) := StoreStep(s, card, call);
            && Geometry(|c|) && 0 < r.logCount <= LOG_CAPACITY && Listed(c, r.logCount - 1) == r.active
            && !Stale(ReadyStart(r, c)) && r.active.endSector < r.nextSector
            && FIRST_DATA_SECTOR <= r.active.startSector
  {
    hide CutsGood, Listing, EntryOf, BuildSuperblock, SuperblockValid, LoadSuperblock, Newest, PageValid, BlockAt;
    var (r, c) := StoreStep(s, card, call);
    if s.queue != [] {
      FirstWriteDone(card, s.queue);
    }
    assert Applied(c, []) == c && Applied(card, s.queue) == c;
    SuperblockRoundTrip(Snapshot(s));
    assert PageSector(s.logCount - 1) == FIRST_CATALOG_SECTOR + s.pageIndex;
  }

  lemma StillOnCard(s: Store, card: Card, c: Card)
    requires OnCard(s, card) && SameData(c, card, s.nextSector)
    requires FIRST_DATA_SECTOR <= s.active.startSector && s.active.endSector < s.nextSector
    ensures OnCard(s, c)
  {
    hide DecodeLog, ExpectedLog;
    assert card[s.active.startSector..s.active.endSector + 1] == c[s.active.startSector..s.active.endSector + 1];
  }

  /**
   * Once a closed log has drained it stays: in every run that follows without formatting, with power cut at any write
   * of it, the superblock found lists the log, under its final entry, and its sectors decode to what was recorded.
   */
  lemma ClosedLogStaysReadable(card: Card, configuration: ConfigurationBytes, firmware: Text, build: Text,
                               before: seq<StoreCall>, call: StoreCall, after: seq<StoreCall>)
    requires CleanCard(card) && Formatless(after)
    ensures var (m, d) := MountAndRun(card, configuration, firmware, build, before);
            && CanStep(m, d)
            && var (s, c) := StoreStep(m, d, call);
               m.status == Finishing && s.status == Ready ==>
                 && s.logCount <= LOG_CAPACITY && |c| >= FIRST_DATA_SECTOR
                 && Inv(s, c, Catalogue(c, s.logCount), Origin(card))
                 && var later := StoreRun(s, c, Catalogue(c, s.logCount), Origin(card), after).1;
                    && |later| >= FIRST_DATA_SECTOR && Newest(later, true, true).Some? && s.logCount > 0
                    && Newest(later, true, true).value.logCount >= s.logCount
                    && Listed(later, s.logCount - 1) == s.active && OnCard(s, later)
  {
    hide StoreRun, StoreStep, Inv, Recorded, OnCard, Listing, SuperblockValid, Remembers, Stale, SameData, Current;
    hide LoadSuperblock, EntryIsFinal, Listed, BaseKept;
    var mounted := Mount(card, configuration, firmware, build, true, true);
    MountedInv(card, configuration, firmware, build);
    MountedRecorded(card, configuration, firmware, build);
    MountedEntry(card, configuration, firmware, build);
    var base := Catalogue(card, mounted.logCount);
    RunContent(mounted, card, base, Origin(card), before);
    RunEntry(mounted, card, base, Origin(card), before);
    StoreRunIsCurrent(mounted, card, base, Origin(card), before);
    StoreRunKeeps(mounted, card, base, Origin(card), before);
    var (m, d) := StoreRun(mounted, card, base, Origin(card), before);
    StepReads(m, d, BaseAfterAll(base, before), Origin(card), call);
    var (s, c) := StoreStep(m, d, call);
    if m.status == Finishing && s.status == Ready {
      StoreStepKeeps(m, d, BaseAfterAll(base, before), Origin(card), call);
      StoreStepIsCurrent(m, d, call);
      DrainedLists(m, d, BaseAfterAll(base, before), Origin(card), call);
      var kept := BaseAfter(BaseAfterAll(base, before), call);
      NothingIsForgotten(s, c, kept, Origin(card), after);
      var (r, later) := StoreRun(s, c, Catalogue(c, s.logCount), Origin(card), after);
      RemembersCount(later, ReadyStart(s, c), r.issued);
      KeptEntry(later, c, s.logCount);
      StillOnCard(s, c, later);
    }
  }

  lemma KeptEntry(card: Card, was: Card, n: nat)
    requires 0 < n <= LOG_CAPACITY && |was| >= FIRST_DATA_SECTOR && |card| >= FIRST_DATA_SECTOR
    requires BaseKept(card, Catalogue(was, n))
    ensures Listed(card, n - 1) == Listed(was, n - 1)
  {
    hide Listed;
    assert Catalogue(was, n)[n - 1] == Listed(was, n - 1);
  }

  lemma MountedEntry(card: Card, configuration: ConfigurationBytes, firmware: Text, build: Text)
    requires CleanCard(card)
    ensures var s := Mount(card, configuration, firmware, build, true, true);
            EntryIsFinal(s) && Current(s, card)
  {
    hide CatalogSound, SuperBounded, SuperblockValid, LoadSuperblock;
  }

  /* ---------------- nothing is lost silently ---------------- */

  /**
   * Every sample release the clock has passed is either taken into the log or counted as dropped, until the
   * drop counter reaches its limit.
   */
  lemma ReleasesAreAccounted(s: Store, size: nat, sample: Sample)
    requires s.status == Recording && s.samplesInBlock < SAMPLES_PER_BLOCK && s.logCount > 0
    ensures var r := RecordSample(s, size, sample);
            var due := if Releases(s, sample).0 == 0 && Closes(s, sample) then 1 else Releases(s, sample).0;
            && s.taken <= r.taken && |r.taken| <= |s.taken| + 1
            && (s.dropped + due <= UINT64_MAX ==> |r.taken| + r.dropped == |s.taken| + s.dropped + due)
  {
    hide TakeSample, FinishFlight, Releases, Closes, Timed;
    TakeCounts(Missed(s, sample), size, sample);
    var taken := Sampled(s, size, sample);
    if taken.status != Error && Closes(s, sample) {
      FinishCounts(taken, size, sample.timestamp, sample.state);
    }
  }

  lemma TakeCounts(s: Store, size: nat, sample: Sample)
    requires s.samplesInBlock < SAMPLES_PER_BLOCK && s.logCount > 0
    ensures var r := TakeSample(s, size, sample);
            if |s.queue| >= QUEUE_CAPACITY - 4 then r == AddDropped(s, 1)
            else r.taken == s.taken + [sample] && r.dropped == s.dropped
  {
    hide AppendBlock, EnqueueMetadata, EncodeSample, Put;
  }

  lemma FinishCounts(s: Store, size: nat, timestamp: uint64, state: State)
    requires s.samplesInBlock <= SAMPLES_PER_BLOCK && s.logCount > 0
    ensures var r := FinishFlight(s, size, timestamp, state); r.taken == s.taken && r.dropped == s.dropped
  {
    hide AppendBlock, EnqueueMetadata, FooterPayload, WithPayload;
  }
}
