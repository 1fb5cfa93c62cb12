/** Whole runs of the log store, and what a remount finds whenever it is ready. */
module BlackboxRuns {
  import opened Counters
  import opened SystemState
  import opened Bytes
  import opened BlackboxFormat
  import opened BlackboxSamples
  import opened BlackboxStore
  import opened BlackboxCard
  import opened BlackboxCrash

  datatype StoreCall =
    | DoCapture(sample: Sample, reply: ReadReply)
    | DoFinish(timestamp: uint64, state: State)
    | DoService(cardReply: CardReply)
    | DoInspect(index: nat, reply: ReadReply)
    | DoSetConfiguration(configuration: ConfigurationBytes)
    | DoFormat(firstWritten: bool, secondWritten: bool)

  predicate CanStep(s: Store, card: Card) {
    |card| >= 2 && (s.status == Recording ==> s.samplesInBlock < SAMPLES_PER_BLOCK && s.logCount > 0)
  }

  /** One call; catalogue entries are only asked for while nothing is recorded. */
  function StoreStep(s: Store, card: Card, call: StoreCall): (r: (Store, Card))
    requires CanStep(s, card)
  {
    match call
    case DoCapture(sample, reply) => (Capture(s, card, sample, reply), card)
    case DoFinish(timestamp, state) => (FinishRecording(s, |card|, timestamp, state), card)
    case DoService(reply) => Service(s, card, reply)
    case DoInspect(index, reply) =>
      (if s.status == Recording || s.status == Finishing then s else Inspect(s, card, index, reply).0, card)
    case DoSetConfiguration(configuration) => (SetConfiguration(s, configuration), card)
    case DoFormat(first, second) => var (r, c, _) := Format(s, card, first, second); (r, c)
  }

  /** Formatting forgets the logs that were to be kept. */
  function BaseAfter(base: seq<LogInfo>, call: StoreCall): (b: seq<LogInfo>) {
    if call.DoFormat? then [] else base
  }

  lemma InvCanStep(s: Store, card: Card, base: seq<LogInfo>, origin: seq<Superblock>)
    requires Inv(s, card, base, origin)
    ensures CanStep(s, card)
  {
    if s.status == Recording {
      FlyingCuts(s, card, s.logCount, base, origin);
    }
  }

  lemma CaptureKeeps(s: Store, card: Card, base: seq<LogInfo>, origin: seq<Superblock>, sample: Sample,
          reply: ReadReply)
    requires Inv(s, card, base, origin) && CanStep(s, card)
    ensures Inv(Capture(s, card, sample, reply), card, base, origin)
  {
    hide Flying, CutsGood, Idle, StartFlight, RecordSample;
    if s.status == Recording {
      RecordKeeps(s, card, base, origin, sample);
    } else if s.status == Ready && sample.state != Fault {
      var numbered := s.(blockSequence := 0);
      IdleRenumbered(s, card, base, origin);
      StartKeeps(numbered, card, base, origin, sample.timestamp, reply);
      var (started, ok) := StartFlight(numbered, card, sample.timestamp, reply);
      if ok {
        RecordKeeps(started, card, base, origin, sample);
      }
    }
  }

  lemma IdleRenumbered(s: Store, card: Card, base: seq<LogInfo>, origin: seq<Superblock>)
    requires Idle(s, card, base, origin + s.issued)
    ensures Idle(s.(blockSequence := 0), card, base, origin + s.issued)
  {
  }

  /** When the queue has drained after the footer, the card itself is idle again. */
  lemma DrainedIsIdle(s: Store, card: Card, base: seq<LogInfo>, origin: seq<Superblock>)
    requires Flying(s, card, s.logCount, base, origin) && s.queue == []
    ensures Idle(s.(status := Ready, armedSeen := false), card, base, origin + s.issued)
  {
    hide PageValid, EntryOf, BlockAt, CutsGood, CatalogSound, SuperBounded, BaseKept;
  }

  lemma ServiceKeeps(s: Store, card: Card, base: seq<LogInfo>, origin: seq<Superblock>, reply: CardReply)
    requires Inv(s, card, base, origin)
    ensures var (r, c) := Service(s, card, reply); Inv(r, c, base, origin)
  {
    hide CutsGood, Idle, FlightInv;
    if s.queue == [] {
      if s.status == Finishing {
        DrainedIsIdle(s, card, base, origin);
      }
    } else if s.status == Ready {
      IdleQueue(s, card, base, origin);
    } else if s.writeActive && reply == CardOk && s.status != Error {
      var c := Written(card, s.queue[0]);
      FirstWriteKeepsCuts(card, s.queue, base, origin + s.issued);
      var r := s.(writeActive := false, queue := s.queue[1..]);
      if s.status == Recording || s.status == Finishing {
        SameLog(s, r, Applied(card, s.queue), s.logCount, base, origin + s.issued);
        if s.status == Finishing && r.queue == [] {
          DrainedIsIdle(r, c, base, origin);
        }
      }
    } else if s.status == Recording || s.status == Finishing {
      SameFlight(s, s.(writeActive := true), card, s.logCount, base, origin);
    }
  }

  lemma IdleQueue(s: Store, card: Card, base: seq<LogInfo>, origin: seq<Superblock>)
    requires Idle(s, card, base, origin + s.issued)
    ensures s.queue == []
  {
  }

  lemma SameLog(s: Store, r: Store, v: Card, n: nat, base: seq<LogInfo>, known: seq<Superblock>)
    requires FlightInv(s, v, n, base, known)
    requires r == s.(writeActive := r.writeActive, queue := r.queue)
    ensures FlightInv(r, v, n, base, known)
  {
    hide Listing, PageValid, HeadedPage, EntryOf, BlockAt;
  }

  lemma InspectKeeps(s: Store, card: Card, base: seq<LogInfo>, origin: seq<Superblock>, index: nat, reply: ReadReply)
    requires Inv(s, card, base, origin) && s.status != Recording && s.status != Finishing
    ensures Inv(Inspect(s, card, index, reply).0, card, base, origin)
  {
    hide CutsGood, Flying, Listing, PageValid, EntryOf, Listed;
  }

  lemma SetConfigurationKeeps(s: Store, card: Card, base: seq<LogInfo>, origin: seq<Superblock>, c: ConfigurationBytes)
    requires Inv(s, card, base, origin)
    ensures Inv(SetConfiguration(s, c), card, base, origin)
  {
    hide CutsGood, Flying, Listing, PageValid, Listed;
  }

  lemma ForgetBase(card: Card, writes: seq<Write>, base: seq<LogInfo>, known: seq<Superblock>)
    requires CutsGood(card, writes, base, known)
    ensures CutsGood(card, writes, [], known)
    ensures Good(card, [], known)
  {
    hide CatalogSound, SuperBounded;
    forall k | 0 <= k <= |writes|
      ensures Good(Applied(card, writes[..k]), [], known)
    {
      assert Good(Applied(card, writes[..k]), base, known);
      var n: nat :| Listing(Applied(card, writes[..k]), n, base, known);
      assert Listing(Applied(card, writes[..k]), n, [], known);
    }
    assert writes[..0] == [];
  }

  lemma GoodCut(card: Card, base: seq<LogInfo>, known: seq<Superblock>)
    requires Good(card, base, known)
    ensures CutsGood(card, [], base, known)
  {
    assert Applied(card, []) == card;
  }

  /** The superblock that forgets every log is sound on any card; with both written nothing is listed any more. */
  lemma FormattedIsGood(card: Card, known: seq<Superblock>, super: Superblock, both: bool)
    requires Good(card, [], known) && super in known && super.logCount == 0 && super.nextSector == FIRST_DATA_SECTOR
    ensures var data := BuildSuperblock(super);
            var r := if both then card[0 := data][1 := data] else card[0 := data];
            Good(r, [], known) && (both ==> Listing(r, 0, [], known))
  {
    hide CatalogSound, SuperblockValid, BuildSuperblock, LoadSuperblock;
    var n: nat :| Listing(card, n, [], known);
    SuperblockRoundTrip(super);
    SuperWriteKeeps(card, n, [], known, 0, super);
    var first := card[0 := BuildSuperblock(super)];
    assert Listing(first, n, [], known);
    if both {
      var r := first[1 := BuildSuperblock(super)];
      EmptyCatalog(r);
      assert Listing(r, 0, [], known);
    }
  }

  /** Formatting makes any card that has the sectors clean, whatever was on it. */
  lemma FormattedIsClean(s: Store, card: Card)
    requires Geometry(|card|)
    requires s.status == Uninitialized || s.status == Ready || s.status == Full || s.status == Error
    ensures var (r, c, done) := Format(s, card, true, true);
            && done && CleanCard(c) && Inv(r, c, [], []) && Current(r, c)
  {
    hide SuperblockValid, BuildSuperblock, LoadSuperblock;
    var (r, c, done) := Format(s, card, true, true);
    var super := Snapshot(r);
    SuperblockRoundTrip(super);
    TwinSuperblocks(c, super);
    assert super in [] + r.issued;
    assert Listing(c, 0, [], [] + r.issued);
    GoodCut(c, [], [] + r.issued);
  }

  lemma EmptyCatalog(card: Card)
    requires |card| >= FIRST_DATA_SECTOR
    ensures CatalogSound(card, 0)
  {
  }

  lemma FormatKeeps(s: Store, card: Card, base: seq<LogInfo>, origin: seq<Superblock>, first: bool, second: bool)
    requires Inv(s, card, base, origin) && |card| >= 2
    ensures var (r, c, _) := Format(s, card, first, second); Inv(r, c, [], origin)
  {
    hide CutsGood, FlightInv, Good, Listing, BuildSuperblock;
    ForgetBase(card, s.queue, base, origin + s.issued);
    if s.status == NoMedia {
      return;
    }
    if s.status == Recording || s.status == Finishing {
      ForgetBaseFlight(s, Applied(card, s.queue), base, origin + s.issued);
      return;
    }
    var (r, c, _) := Format(s, card, first, second);
    var super := Snapshot(r);
    var known := origin + s.issued + [super];
    assert origin + r.issued == known;
    GoodCut(card, [], origin + s.issued);
    MoreKnownCuts(card, [], [], origin + s.issued, [super]);
    CutIsGood(card, [], known);
    FormattedIsGood(card, known, super, first && second);
    GoodCut(c, [], known);
  }

  lemma CutIsGood(card: Card, base: seq<LogInfo>, known: seq<Superblock>)
    requires CutsGood(card, [], base, known)
    ensures Good(card, base, known)
  {
    var none: seq<Write> := [];
    assert none[..0] == [];
    assert Good(Applied(card, none[..0]), base, known);
  }

  lemma ForgetBaseFlight(s: Store, v: Card, base: seq<LogInfo>, known: seq<Superblock>)
    requires FlightInv(s, v, s.logCount, base, known)
    ensures FlightInv(s, v, s.logCount, [], known)
  {
    hide CatalogSound, SuperBounded, Contiguous, PageMatches, ActiveListed;
  }

  /** Every call keeps every cut good. */
  lemma StoreStepKeeps(s: Store, card: Card, base: seq<LogInfo>, origin: seq<Superblock>, call: StoreCall)
    requires Inv(s, card, base, origin)
    ensures CanStep(s, card)
    ensures var (r, c) := StoreStep(s, card, call); Inv(r, c, BaseAfter(base, call), origin)
  {
    hide Inv, Capture, FinishFlight, Service, Inspect, SetConfiguration, Format;
    InvCanStep(s, card, base, origin);
    match call
    case DoCapture(sample, reply) => CaptureKeeps(s, card, base, origin, sample, reply);
    case DoFinish(timestamp, state) => FinishRecordingKeeps(s, card, base, origin, timestamp, state);
    case DoService(reply) => ServiceKeeps(s, card, base, origin, reply);
    case DoInspect(index, reply) =>
      if s.status != Recording && s.status != Finishing {
        InspectKeeps(s, card, base, origin, index, reply);
      }
    case DoSetConfiguration(configuration) => SetConfigurationKeeps(s, card, base, origin, configuration);
    case DoFormat(first, second) => FormatKeeps(s, card, base, origin, first, second);
  }

  lemma FinishRecordingKeeps(s: Store, card: Card, base: seq<LogInfo>, origin: seq<Superblock>, timestamp: uint64,
                             state: State)
    requires Inv(s, card, base, origin) && CanStep(s, card)
    ensures Inv(FinishRecording(s, |card|, timestamp, state), card, base, origin)
  {
    hide Flying, CutsGood, Idle, FinishFlight;
    if s.status == Recording {
      FinishKeeps(s, card, base, origin, timestamp, state);
    }
  }

  /* ---------------- runs ---------------- */

  ghost function StoreRun(s: Store, card: Card, base: seq<LogInfo>, origin: seq<Superblock>, calls: seq<StoreCall>)
    : (r: (Store, Card))
    requires Inv(s, card, base, origin)
    decreases |calls|
  {
    if calls == [] then (s, card)
    else
      StoreStepKeeps(s, card, base, origin, calls[0]);
      var (next, c) := StoreStep(s, card, calls[0]);
      StoreRun(next, c, BaseAfter(base, calls[0]), origin, calls[1..])
  }

  function BaseAfterAll(base: seq<LogInfo>, calls: seq<StoreCall>): (b: seq<LogInfo>)
    ensures (forall c | c in calls :: !c.DoFormat?) ==> b == base
    decreases |calls|
  {
    if calls == [] then base else BaseAfterAll(BaseAfter(base, calls[0]), calls[1..])
  }

  lemma {:induction false} StoreRunKeeps(s: Store, card: Card, base: seq<LogInfo>, origin: seq<Superblock>,
                                         calls: seq<StoreCall>)
    requires Inv(s, card, base, origin)
    ensures var (r, c) := StoreRun(s, card, base, origin, calls); Inv(r, c, BaseAfterAll(base, calls), origin)
    decreases |calls|
  {
    hide Inv, StoreStep;
    if calls != [] {
      StoreStepKeeps(s, card, base, origin, calls[0]);
      var (next, c) := StoreStep(s, card, calls[0]);
      StoreRunKeeps(next, c, BaseAfter(base, calls[0]), origin, calls[1..]);
    }
  }

  /* ---------------- a clean mount ---------------- */

  /** The card mounts, its every listed log is sound, and the superblock it mounts from leaves them all behind it. */
  ghost predicate CleanCard(card: Card) {
    && Geometry(|card|) && Newest(card, true, true).Some?
    && var super := Newest(card, true, true).value;
       && super.logCount <= LOG_CAPACITY
       && Listing(card, super.logCount, [], [LoadSuperblock(card[0]), LoadSuperblock(card[1])])
       && forall i | 0 <= i < super.logCount :: Listed(card, i).endSector < super.nextSector
  }

  /** The catalogue as it stands when the card is mounted. */
  function Catalogue(card: Card, n: nat): (c: seq<LogInfo>)
    requires |card| >= FIRST_DATA_SECTOR && n <= LOG_CAPACITY
  {
    seq(n, i requires 0 <= i < n => Listed(card, i))
  }

  function Origin(card: Card): (o: seq<Superblock>)
    requires |card| >= 2
  {
    [LoadSuperblock(card[0]), LoadSuperblock(card[1])]
  }

  lemma MountedInv(card: Card, configuration: ConfigurationBytes, firmware: Text, build: Text)
    requires CleanCard(card)
    ensures var s := Mount(card, configuration, firmware, build, true, true);
            Inv(s, card, Catalogue(card, s.logCount), Origin(card))
  {
    hide CatalogSound, SuperBounded, SuperblockValid, LoadSuperblock, EntryOf;
    var s := Mount(card, configuration, firmware, build, true, true);
    var base := Catalogue(card, s.logCount);
    assert Origin(card) + s.issued == Origin(card);
    assert Listing(card, s.logCount, base, Origin(card));
    GoodCut(card, base, Origin(card));
  }

  /* ---------------- ready again ---------------- */

  /** Idle stores agree with the card about where they are; closing ones do once the queue has drained. */
  ghost predicate Current(s: Store, card: Card)
    requires |card| >= 2
  {
    && (s.status == Ready ==> s.queue == [] && Newest(card, true, true) == Some(Snapshot(s)))
    && (s.status == Finishing ==>
          var v := Applied(card, s.queue);
          v[0] == BuildSuperblock(Snapshot(s)) && v[1] == BuildSuperblock(Snapshot(s)))
  }

  lemma TwinSuperblocks(card: Card, super: Superblock)
    requires |card| >= 2 && card[0] == BuildSuperblock(super) && card[1] == BuildSuperblock(super)
    ensures Newest(card, true, true) == Some(super)
  {
    hide BuildSuperblock, SuperblockValid, LoadSuperblock;
    SuperblockRoundTrip(super);
  }

  lemma QueuedTwins(s: Store, card: Card)
    requires |card| >= 2 && s.logCount > 0
    ensures var (r, ok) := EnqueueMetadata(s);
            ok ==>
              && Snapshot(r) == Snapshot(s)
              && Applied(card, r.queue)[0] == BuildSuperblock(Snapshot(s))
              && Applied(card, r.queue)[1] == BuildSuperblock(Snapshot(s))
  {
    hide BuildSuperblock, SealPage, PutEntry, Applied;
    var (r, ok) := EnqueueMetadata(s);
    if ok {
      var data := BuildSuperblock(Snapshot(s));
      var n := |s.queue|;
      var paged := s.queue + [r.queue[n]];
      assert r.queue == paged + [Write(0, data)] + [Write(1, data)];
      LastApplied(card, paged, Write(0, data));
      LastApplied(card, paged + [Write(0, data)], Write(1, data));
    }
  }

  lemma FinishIsCurrent(s: Store, card: Card, timestamp: uint64, state: State)
    requires |card| >= 2 && s.samplesInBlock <= SAMPLES_PER_BLOCK && s.logCount > 0
    ensures var r := FinishFlight(s, |card|, timestamp, state); r.status != Ready && Current(r, card)
  {
    hide BuildSuperblock, EnqueueMetadata, AppendBlock, FlushSamples, WithPayload, FooterPayload, Applied;
    var (flushed, ok) := FlushSamples(s, |card|);
    if ok {
      var (footed, written) :=
        AppendBlock(flushed, |card|, WithPayload(FooterPayload(flushed, timestamp, state)), FLIGHT_FOOTER, 1, 20);
      if written {
        var closed := footed.(active := footed.active.(samples := s.captured % MASK32, dropped := s.dropped % MASK32,
                                                       complete := true));
        QueuedTwins(NextGeneration(closed), card);
      }
    }
  }

  lemma RecordIsCurrent(s: Store, card: Card, sample: Sample)
    requires |card| >= 2 && s.samplesInBlock < SAMPLES_PER_BLOCK && s.logCount > 0 && s.status == Recording
    ensures var r := RecordSample(s, |card|, sample); r.status != Ready && Current(r, card)
  {
    hide Sampled, Closes, FinishFlight, Current;
    var taken := Sampled(s, |card|, sample);
    OtherIsCurrent(taken, card);
    OtherIsCurrent(taken.(previousState := sample.state), card);
    if taken.status != Error && Closes(s, sample) {
      FinishIsCurrent(taken, card, sample.timestamp, sample.state);
      var closed := FinishFlight(taken, |card|, sample.timestamp, sample.state);
      SameIsCurrent(closed, closed.(previousState := sample.state), card);
    }
  }

  lemma OtherIsCurrent(s: Store, card: Card)
    requires |card| >= 2
    ensures s.status != Ready && s.status != Finishing ==> Current(s, card)
  {
  }

  lemma SameIsCurrent(s: Store, r: Store, card: Card)
    requires |card| >= 2 && Current(s, card) && r.status == s.status && r.queue == s.queue && Snapshot(r) == Snapshot(s)
    ensures Current(r, card)
  {
  }

  lemma ServiceIsCurrent(s: Store, card: Card, reply: CardReply)
    requires |card| >= 2 && Current(s, card)
    ensures var (r, c) := Service(s, card, reply); Current(r, c)
  {
    hide BuildSuperblock, Newest;
    var (r, c) := Service(s, card, reply);
    if s.queue == [] {
      assert Applied(card, s.queue) == card;
    } else if s.writeActive && reply == CardOk && s.status != Error && s.status != Ready {
      FirstWriteDone(card, s.queue);
      assert Applied(c, []) == c;
    }
    if s.status == Finishing && r.status == Ready {
      TwinSuperblocks(c, Snapshot(s));
    }
  }

  lemma StoreStepIsCurrent(s: Store, card: Card, call: StoreCall)
    requires CanStep(s, card) && Current(s, card)
    ensures var (r, c) := StoreStep(s, card, call); |c| == |card| && Current(r, c)
  {
    hide RecordSample, FinishFlight, StartFlight, BuildSuperblock, Newest;
    match call
    case DoCapture(sample, reply) =>
      if s.status == Recording {
        RecordIsCurrent(s, card, sample);
      } else if s.status == Ready && sample.state != Fault {
        var (started, ok) := StartFlight(s.(blockSequence := 0), card, sample.timestamp, reply);
        if ok {
          RecordIsCurrent(started, card, sample);
        }
      }
    case DoFinish(timestamp, state) =>
      if s.status == Recording {
        FinishIsCurrent(s, card, timestamp, state);
      }
    case DoService(reply) => ServiceIsCurrent(s, card, reply);
    case DoFormat(first, second) =>
      var (r, c, _) := Format(s, card, first, second);
      if r.status == Ready {
        TwinSuperblocks(c, Snapshot(r));
      }
    case _ =>
  }

  lemma {:induction false} StoreRunIsCurrent(s: Store, card: Card, base: seq<LogInfo>, origin: seq<Superblock>,
                                             calls: seq<StoreCall>)
    requires Inv(s, card, base, origin) && |card| >= 2 && Current(s, card)
    ensures var (r, c) := StoreRun(s, card, base, origin, calls); |c| == |card| && Current(r, c)
    decreases |calls|
  {
    hide Inv, StoreStep, Current;
    if calls != [] {
      StoreStepKeeps(s, card, base, origin, calls[0]);
      StoreStepIsCurrent(s, card, calls[0]);
      var (next, c) := StoreStep(s, card, calls[0]);
      StoreRunIsCurrent(next, c, BaseAfter(base, calls[0]), origin, calls[1..]);
    }
  }

  /**
   * Whenever the store is ready again, a remount finds exactly its catalogue and its next free sector, and the
   * card is clean for the next run.
   */
  lemma ReadyMeansRemountable(card: Card, configuration: ConfigurationBytes, firmware: Text, build: Text,
                              calls: seq<StoreCall>)
    requires CleanCard(card)
    ensures var s := Mount(card, configuration, firmware, build, true, true);
            var base := Catalogue(card, s.logCount);
            && Inv(s, card, base, Origin(card))
            && var (r, c) := StoreRun(s, card, base, Origin(card), calls);
               |c| >= 2 &&
               (r.status == Ready ==>
                  var again := Mount(c, configuration, firmware, build, true, true);
                  && again.logCount == r.logCount && again.nextSector == r.nextSector
                  && again.nextLogId == r.nextLogId && again.generation == r.generation
                  && (again.status == Ready || again.status == Full)
                  && CleanCard(c))
  {
    hide StoreRun, CatalogSound, SuperBounded, SuperblockValid, LoadSuperblock, EntryOf;
    var s := Mount(card, configuration, firmware, build, true, true);
    MountedInv(card, configuration, firmware, build);
    var base := Catalogue(card, s.logCount);
    StoreRunIsCurrent(s, card, base, Origin(card), calls);
    StoreRunKeeps(s, card, base, Origin(card), calls);
    var (r, c) := StoreRun(s, card, base, Origin(card), calls);
    if r.status == Ready {
      IdleIsClean(r, c, BaseAfterAll(base, calls), Origin(card) + r.issued);
    }
  }

  lemma IdleIsClean(s: Store, card: Card, base: seq<LogInfo>, known: seq<Superblock>)
    requires Idle(s, card, base, known) && Newest(card, true, true) == Some(Snapshot(s))
    ensures CleanCard(card)
  {
    hide CatalogSound, LoadSuperblock, EntryOf;
    assert Listing(card, s.logCount, [], Origin(card));
  }
}
