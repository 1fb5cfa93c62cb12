/** Which samples a recording takes, and which one ends it. */
module BlackboxTiming {
  import opened Counters
  import opened SystemState
  import opened Bytes
  import opened ReleaseGrid
  import opened BlackboxFormat
  import opened BlackboxSamples
  import opened BlackboxStore
  import opened BlackboxCard
  import opened BlackboxCrash
  import opened BlackboxRuns
  import opened BlackboxKept
  import opened BlackboxFooter
  import opened BlackboxFlights

  const TAIL_US: nat := 1_000_000

  /** Sample j is the first DISARMED one since the last ARMED one. */
  predicate TailStart(h: seq<Sample>, j: nat) {
    && j < |h| && h[j].state == Disarmed
    && exists a: nat :: a < j && LastArmed(h, a) && forall i | a < i < j :: h[i].state != Disarmed
  }

  predicate LastArmed(h: seq<Sample>, a: nat) {
    a < |h| && h[a].state == Armed && forall i | a < i < |h| :: h[i].state != Armed
  }

  /** One second later, or the end of the clock. */
  function EndOfTail(start: uint64): (t: uint64) {
    Min(start + TAIL_US, UINT64_MAX)
  }

  predicate InTail(h: seq<Sample>) {
    exists j: nat :: j < |h| && TailStart(h, j)
  }

  /** A fault ends the recording at once, and the tail ends it once it is over. */
  predicate Ends(h: seq<Sample>, x: Sample) {
    x.state == Fault ||
    exists j: nat :: j < |h + [x]| && TailStart(h + [x], j) && x.timestamp >= EndOfTail((h + [x])[j].timestamp)
  }

  /** Ten milliseconds in flight, before and in the tail, a hundred otherwise. */
  function Interval(h: seq<Sample>, x: Sample): (n: nat)
    ensures n > 0
  {
    if x.state == Boot || x.state == Initializing || x.state == Armed || x.state == State.Failsafe || InTail(h + [x])
    then 10_000 else 100_000
  }

  /** The store's timers are those of the samples heard since the log was opened. */
  predicate Timers(s: Store, h: seq<Sample>) {
    && (s.armedSeen <==> exists a: nat :: a < |h| && h[a].state == Armed)
    && (forall j: nat | j < |h| && TailStart(h, j) :: s.finishAfter == EndOfTail(h[j].timestamp))
    && (s.finishAfter != 0 <==> InTail(h))
  }

  lemma {:induction false} LastArmedExists(h: seq<Sample>, a: nat) returns (last: nat)
    requires a < |h| && h[a].state == Armed
    ensures LastArmed(h, last)
    decreases |h| - a
  {
    if i: nat :| a < i < |h| && h[i].state == Armed {
      last := LastArmedExists(h, i);
    } else {
      last := a;
    }
  }

  lemma {:induction false} FirstDisarmed(h: seq<Sample>, a: nat, j: nat) returns (first: nat)
    requires LastArmed(h, a) && a < j < |h| && h[j].state == Disarmed
    ensures TailStart(h, first)
    decreases j
  {
    if i: nat :| a < i < j && h[i].state == Disarmed {
      first := FirstDisarmed(h, a, i);
    } else {
      first := j;
    }
  }

  lemma TailIsUnique(h: seq<Sample>, i: nat, j: nat)
    requires TailStart(h, i) && TailStart(h, j)
    ensures i == j
  {
    var a: nat :| a < i && LastArmed(h, a) && forall k | a < k < i :: h[k].state != Disarmed;
    var b: nat :| b < j && LastArmed(h, b) && forall k | b < k < j :: h[k].state != Disarmed;
    assert a == b;
  }

  /** Unless it is ARMED, a further sample leaves a running tail as it is. */
  lemma TailGoesOn(h: seq<Sample>, x: Sample, j: nat)
    requires x.state != Armed && j < |h|
    ensures TailStart(h + [x], j) <==> TailStart(h, j)
  {
    var all := h + [x];
    if TailStart(h, j) {
      var a: nat :| a < j && LastArmed(h, a) && forall i | a < i < j :: h[i].state != Disarmed;
      assert LastArmed(all, a);
      assert forall i | a < i < j :: all[i].state != Disarmed;
    }
    if TailStart(all, j) {
      var a: nat :| a < j && LastArmed(all, a) && forall i | a < i < j :: all[i].state != Disarmed;
      assert forall i | a < i < |h| :: h[i] == all[i];
      assert LastArmed(h, a);
      assert forall i | a < i < j :: h[i].state != Disarmed;
    }
  }

  /** A DISARMED sample starts the tail if the aircraft was armed and no tail runs yet. */
  lemma TailBegins(h: seq<Sample>, x: Sample)
    requires x.state != Armed
    ensures TailStart(h + [x], |h|) <==>
            x.state == Disarmed && (exists a: nat :: a < |h| && h[a].state == Armed) && !InTail(h)
  {
    var all := h + [x];
    if TailStart(all, |h|) {
      var a: nat :| a < |h| && LastArmed(all, a) && forall i | a < i < |h| :: all[i].state != Disarmed;
      assert h[a] == all[a];
      if j: nat :| j < |h| && TailStart(h, j) {
        TailGoesOn(h, x, j);
        TailIsUnique(all, j, |h|);
      }
    }
    if x.state == Disarmed && !InTail(h) {
      if a: nat :| a < |h| && h[a].state == Armed {
        var last := LastArmedExists(h, a);
        if j: nat :| last < j < |h| && h[j].state == Disarmed {
          var first := FirstDisarmed(h, last, j);
          assert false;
        }
        assert forall i | last < i < |all| :: all[i].state != Armed;
        assert LastArmed(all, last);
      }
    }
  }

  lemma ArmedEndsTail(h: seq<Sample>, x: Sample)
    requires x.state == Armed
    ensures !InTail(h + [x])
  {
    var all := h + [x];
    assert all[|h|] == x;
    assert forall a: nat :: LastArmed(all, a) ==> a >= |h|;
  }

  /** The store's timers follow the samples. */
  lemma TimersFollow(s: Store, h: seq<Sample>, x: Sample)
    requires Timers(s, h)
    ensures Timers(TrackState(s, x.state, x.timestamp), h + [x])
  {
    var all := h + [x];
    assert all[|h|] == x;
    assert forall i | 0 <= i < |h| :: all[i] == h[i];
    if x.state == Armed {
      ArmedEndsTail(h, x);
    } else {
      TailBegins(h, x);
      forall j: nat | j < |h|
        ensures TailStart(all, j) <==> TailStart(h, j)
      {
        TailGoesOn(h, x, j);
      }
      if InTail(h) {
        var j: nat :| j < |h| && TailStart(h, j);
        assert TailStart(all, j) && j < |all|;
      }
    }
  }

  lemma ClosesWhenItEnds(s: Store, h: seq<Sample>, x: Sample)
    requires Timers(s, h)
    ensures Closes(s, x) <==> Ends(h, x)
    ensures IntervalFor(TrackState(s, x.state, x.timestamp).finishAfter, x.state) == Interval(h, x)
  {
    hide Timers, TrackState;
    TimersFollow(s, h, x);
    TimersMean(TrackState(s, x.state, x.timestamp), h + [x]);
  }

  lemma TimersMean(s: Store, h: seq<Sample>)
    requires Timers(s, h)
    ensures s.finishAfter != 0 <==> InTail(h)
    ensures forall j: nat | j < |h| && TailStart(h, j) :: s.finishAfter == EndOfTail(h[j].timestamp)
  {
  }

  /* ---------------- one sample ---------------- */

  /** The sample is due: the lifecycle changed, or the release time is reached. */
  predicate Due(s: Store, x: Sample) {
    x.state != s.previousState || (s.nextSampleAt <= x.timestamp && s.nextSampleAt != UINT64_MAX)
  }

  /** How many releases have passed with it. */
  function Passed(s: Store, h: seq<Sample>, x: Sample): (n: nat) {
    if x.state != s.previousState then 1
    else if !Due(s, x) then 0
    else (x.timestamp - s.nextSampleAt) / Interval(h, x) + 1
  }

  /** The release after it: an interval from a change, otherwise the first on the grid after the sample. */
  predicate NextRelease(s: Store, h: seq<Sample>, x: Sample, next: uint64) {
    if x.state != s.previousState then next == Min(x.timestamp + Interval(h, x), UINT64_MAX)
    else if !Due(s, x) then next == s.nextSampleAt
    else
      || (next == UINT64_MAX && s.nextSampleAt + Passed(s, h, x) * Interval(h, x) >= UINT64_MAX)
      || (next == s.nextSampleAt + Passed(s, h, x) * Interval(h, x)
          && x.timestamp < next <= x.timestamp + Interval(h, x))
  }

  lemma ReleasesFollow(s: Store, h: seq<Sample>, x: Sample)
    requires Timers(s, h)
    ensures Releases(s, x).0 == Passed(s, h, x) && NextRelease(s, h, x, Releases(s, x).1)
  {
    hide Timers, TrackState, Interval;
    ClosesWhenItEnds(s, h, x);
    if x.state == s.previousState && Due(s, x) {
      DivisionFormIsFirst(s.nextSampleAt, x.timestamp, Interval(h, x));
    }
  }

  /** There is room to take a sample in. */
  predicate HasRoom(s: Store) {
    |s.queue| < 28
  }

  /** The sample fills a block for which the card has no sector left. */
  predicate RunsFull(s: Store, size: nat) {
    HasRoom(s) && s.samplesInBlock == 1 && s.nextSector >= size
  }

  /** A counter that stays at its limit. */
  function Counted(count: nat, more: nat): (r: nat) {
    Min(count + more, UINT64_MAX)
  }

  lemma SameTimers(s: Store, r: Store, h: seq<Sample>)
    requires Timers(s, h) && r.armedSeen == s.armedSeen && r.finishAfter == s.finishAfter
    ensures Timers(r, h)
  {
  }

  lemma MissedFollows(s: Store, h: seq<Sample>, x: Sample)
    requires Timers(s, h)
    ensures var m := Missed(s, x);
            && Timers(m, h + [x]) && m.nextSampleAt == Releases(s, x).1
            && m.dropped == Counted(s.dropped, if Releases(s, x).0 > 1 then Releases(s, x).0 - 1 else 0)
    ensures Timers(Timed(s, x), h + [x]) && Timed(s, x).nextSampleAt == Releases(s, x).1
  {
    hide Timers, TrackState, Releases;
    var tracked := TrackState(s, x.state, x.timestamp);
    TimersFollow(s, h, x);
    SameTimers(tracked, Timed(s, x), h + [x]);
    SameTimers(tracked, Missed(s, x), h + [x]);
    TrackedRest(s, x);
  }

  lemma TrackedRest(s: Store, x: Sample)
    ensures TrackState(s, x.state, x.timestamp).dropped == s.dropped
  {
  }

  lemma TakeKeepsTimers(s: Store, size: nat, x: Sample)
    requires s.samplesInBlock < SAMPLES_PER_BLOCK && s.logCount > 0
    ensures var r := TakeSample(s, size, x);
            && r.finishAfter == s.finishAfter && r.armedSeen == s.armedSeen && r.nextSampleAt == s.nextSampleAt
            && r.dropped == Counted(s.dropped, if HasRoom(s) then 0 else 1)
            && r.taken == (if HasRoom(s) then s.taken + [x] else s.taken)
            && (r.status == Error && s.status != Error ==> r.nextSector == s.nextSector)
  {
    hide FlushSamples, EncodeSample, Put, Checkpoint;
    forall t: Store | t.samplesInBlock <= SAMPLES_PER_BLOCK
      ensures !FlushSamples(t, size).1 ==> FlushSamples(t, size).0.nextSector == t.nextSector
    {
      UnflushedStays(t, size);
    }
  }

  lemma UnflushedStays(s: Store, size: nat)
    requires s.samplesInBlock <= SAMPLES_PER_BLOCK
    ensures !FlushSamples(s, size).1 ==> FlushSamples(s, size).0.nextSector == s.nextSector
  {
    hide Finalize;
  }

  /**
   * One sample of a recording. It is taken exactly if it is due or ends the recording and the queue has room; whatever
   * else has passed is counted as dropped. The recording ends exactly as the samples say: closed if the footer fits,
   * failed otherwise; before that it fails only by a card without a sector for the block the sample fills.
   */
  lemma SampleFollows(s: Store, size: nat, h: seq<Sample>, x: Sample)
    requires size < MASK32 && s.samplesInBlock < SAMPLES_PER_BLOCK && s.logCount > 0 && s.status == Recording
    requires Timers(s, h)
    ensures var r := RecordSample(s, size, x);
            var wanted := Due(s, x) || Ends(h, x);
            && (Ends(h, x) ==> r.status == if FooterFits(s, size) then Finishing else Error)
            && (!Ends(h, x) ==>
                  && r.status == (if wanted && RunsFull(s, size) then Error else Recording)
                  && (r.status == Recording ==>
                        && Timers(r, h + [x]) && r.previousState == x.state && NextRelease(s, h, x, r.nextSampleAt)
                        && r.samplesInBlock < SAMPLES_PER_BLOCK && r.logCount > 0)
                  && r.taken == (if wanted && HasRoom(s) then s.taken + [x] else s.taken))
            && r.dropped == Counted(Counted(s.dropped, if Passed(s, h, x) > 1 then Passed(s, h, x) - 1 else 0),
                                    if wanted && !HasRoom(s) then 1 else 0)
            && (wanted && HasRoom(s) ==> s.taken + [x] <= r.taken)
            && (!Ends(h, x) && r.status == Error ==> r.nextSector == s.nextSector)
  {
    hide TakeSample, FinishFlight, Releases, Timed, Closes, Missed, Timers, FooterFits;
    ClosesWhenItEnds(s, h, x);
    ReleasesFollow(s, h, x);
    MissedFollows(s, h, x);
    TakeOutcome(Missed(s, x), size, x);
    TakeKeepsTimers(Missed(s, x), size, x);
    var taken := Sampled(s, size, x);
    if Ends(h, x) {
      ClosingSampleOutcome(s, size, x);
      if taken.status != Error {
        FinishCounts(taken, size, x.timestamp, x.state);
      }
    } else if taken.status != Error {
      SameTimers(if Releases(s, x).0 > 0 then Missed(s, x) else Timed(s, x), RecordSample(s, size, x), h + [x]);
    }
  }

  /* ---------------- a whole recording ---------------- */

  /** The samples offered by these calls. */
  function Heard(calls: seq<StoreCall>): (h: seq<Sample>)
    decreases |calls|
  {
    if calls == [] then []
    else (if calls[0].DoCapture? then [calls[0].sample] else []) + Heard(calls[1..])
  }

  /** Nobody finishes the recording or formats the card. */
  predicate Plain(calls: seq<StoreCall>) {
    forall i | 0 <= i < |calls| :: !calls[i].DoFinish? && !calls[i].DoFormat?
  }

  /** None of these samples ends the recording. */
  predicate GoesOn(h: seq<Sample>, heard: seq<Sample>) {
    forall i | 0 <= i < |heard| :: !Ends(h + heard[..i], heard[i])
  }

  lemma GoesOnAfter(h: seq<Sample>, x: Sample, rest: seq<Sample>)
    requires GoesOn(h, [x] + rest)
    ensures !Ends(h, x) && GoesOn(h + [x], rest)
  {
    hide Ends;
    var heard := [x] + rest;
    assert heard[..0] == [] && h + [] == h && heard[0] == x;
    forall i | 0 <= i < |rest|
      ensures !Ends(h + [x] + rest[..i], rest[i])
    {
      assert heard[..i + 1] == [x] + rest[..i] && heard[i + 1] == rest[i];
      assert h + heard[..i + 1] == h + [x] + rest[..i];
    }
  }

  /** Recording with these timers, or failed for one of the two reasons there are. */
  ghost predicate Lasts(s: Store, card: Card, h: seq<Sample>, broken: bool) {
    || (s.status == Recording && Timers(s, h))
    || (s.status == Error && (broken || s.nextSector >= |card|))
  }

  lemma StepLasts(s: Store, card: Card, base: seq<LogInfo>, origin: seq<Superblock>, h: seq<Sample>, call: StoreCall,
                  broken: bool)
    requires Inv(s, card, base, origin) && CanStep(s, card) && Lasts(s, card, h, broken)
    requires !call.DoFinish? && !call.DoFormat? && (call.DoCapture? ==> !Ends(h, call.sample))
    ensures var (r, c) := StoreStep(s, card, call);
            && |c| == |card|
            && Lasts(r, c, if call.DoCapture? then h + [call.sample] else h, broken || call == DoService(CardFailed))
  {
    hide Inv, RecordSample, Ends, LoadPage, Timers, StartFlight;
    SmallCard(s, card, base, origin);
    match call
    case DoCapture(x, reply) =>
      if s.status == Recording {
        SampleFollows(s, |card|, h, x);
      }
    case DoService(reply) =>
      ServiceLasts(s, card, reply);
      SameLasts(s, card, StoreStep(s, card, call).0, StoreStep(s, card, call).1, h, broken || reply == CardFailed);
    case DoInspect(index, reply) =>
      InspectLasts(s, card, index, reply);
      SameLasts(s, card, StoreStep(s, card, call).0, card, h, broken);
    case DoSetConfiguration(configuration) =>
  }

  lemma SmallCard(s: Store, card: Card, base: seq<LogInfo>, origin: seq<Superblock>)
    requires Inv(s, card, base, origin)
    ensures |card| < MASK32
  {
  }

  lemma SameLasts(s: Store, card: Card, r: Store, c: Card, h: seq<Sample>, broken: bool)
    requires Lasts(s, card, h, false) || Lasts(s, card, h, broken)
    requires |c| == |card| && r.nextSector == s.nextSector && (r.status == s.status || (r.status == Error && broken))
    requires r.armedSeen == s.armedSeen && r.finishAfter == s.finishAfter
    ensures Lasts(r, c, h, broken)
  {
    if s.status == Recording {
      SameTimers(s, r, h);
    }
  }

  lemma ServiceLasts(s: Store, card: Card, reply: CardReply)
    requires s.status == Recording || s.status == Error
    ensures var (r, c) := Service(s, card, reply);
            && |c| == |card| && r.armedSeen == s.armedSeen && r.finishAfter == s.finishAfter
            && r.nextSector == s.nextSector
            && r.status == (if s.status == Recording && s.queue != [] && reply == CardFailed then Error else s.status)
  {
  }

  lemma InspectLasts(s: Store, card: Card, index: nat, reply: ReadReply)
    requires CanStep(s, card) && (s.status == Recording || s.status == Error)
    ensures var (r, c) := StoreStep(s, card, DoInspect(index, reply));
            && c == card && r.armedSeen == s.armedSeen && r.finishAfter == s.finishAfter
            && r.nextSector == s.nextSector && r.status == s.status
  {
    hide LoadPage;
  }

  /**
   * A recording lasts through any calls with no sample that ends it, unless the card refuses a write or has no sector
   * left.
   */
  lemma {:induction false} RecordingLasts(s: Store, card: Card, base: seq<LogInfo>, origin: seq<Superblock>,
                                          h: seq<Sample>, calls: seq<StoreCall>, broken: bool)
    requires Inv(s, card, base, origin) && Lasts(s, card, h, broken) && Plain(calls) && GoesOn(h, Heard(calls))
    ensures var (r, c) := StoreRun(s, card, base, origin, calls);
            && Inv(r, c, base, origin) && |c| == |card|
            && Lasts(r, c, h + Heard(calls), broken || DoService(CardFailed) in calls)
    decreases |calls|
  {
    hide Inv, StoreStep, Lasts, Ends, GoesOn;
    if calls == [] {
      assert h + [] == h;
    } else {
      var call, rest := calls[0], calls[1..];
      InvCanStep(s, card, base, origin);
      StoreStepKeeps(s, card, base, origin, call);
      var heard := if call.DoCapture? then h + [call.sample] else h;
      if call.DoCapture? {
        GoesOnAfter(h, call.sample, Heard(rest));
      } else {
        assert Heard(calls) == Heard(rest);
      }
      StepLasts(s, card, base, origin, h, call, broken);
      var (next, c) := StoreStep(s, card, call);
      assert Plain(rest);
      RecordingLasts(next, c, base, origin, heard, rest, broken || call == DoService(CardFailed));
      assert heard + Heard(rest) == h + Heard(calls);
    }
  }

  /**
   * A recording ends at exactly the first sample that says so: after any calls with none, and unless it failed, the
   * next sample leaves it recording or closes it, or it fails, by the footer or by a full card.
   */
  lemma RecordingEndsExactly(s: Store, card: Card, base: seq<LogInfo>, origin: seq<Superblock>, h: seq<Sample>,
                             calls: seq<StoreCall>, x: Sample, reply: ReadReply)
    requires Inv(s, card, base, origin) && s.status == Recording && Timers(s, h)
    requires Plain(calls) && GoesOn(h, Heard(calls))
    ensures var (r, c) := StoreRun(s, card, base, origin, calls);
            && CanStep(r, c)
            && (r.status == Recording || (r.status == Error && (DoService(CardFailed) in calls || r.nextSector >= |c|)))
            && (r.status == Recording ==>
                  var status := StoreStep(r, c, DoCapture(x, reply)).0.status;
                  if Ends(h + Heard(calls), x) then status == if FooterFits(r, |c|) then Finishing else Error
                  else status == Recording || (status == Error && RunsFull(r, |c|)))
  {
    hide Inv, StoreRun, Ends, GoesOn, RecordSample, Timers, FooterFits;
    RecordingLasts(s, card, base, origin, h, calls, false);
    var (r, c) := StoreRun(s, card, base, origin, calls);
    InvCanStep(r, c, base, origin);
    SmallCard(r, c, base, origin);
    if r.status == Recording {
      SampleFollows(r, |c|, h + Heard(calls), x);
    }
  }

  /* ---------------- how a recording begins ---------------- */

  function ConfigurationBlocks(length: nat): (n: nat) {
    (length + 487) / 488
  }

  lemma {:induction false} ConfigurationOutcome(s: Store, size: nat, offset: nat, chunk: nat)
    requires size < MASK32 && offset <= |s.configuration|
    requires |s.queue| + ConfigurationBlocks(|s.configuration| - offset) < 29
    requires s.nextSector <= size
    ensures var (r, ok) := AppendConfiguration(s, size, offset, chunk);
            var n := ConfigurationBlocks(|s.configuration| - offset);
            && (ok <==> s.nextSector + n <= size)
            && (ok ==> |r.queue| == |s.queue| + n && r.nextSector == s.nextSector + n)
    decreases |s.configuration| - offset
  {
    hide AppendBlock, WithPayload;
    if offset < |s.configuration| {
      var length := Min(|s.configuration| - offset, PAYLOAD_CAPACITY);
      var buffer := WithPayload(s.configuration[offset..offset + length]);
      AppendOutcome(s, size, buffer, CONFIGURATION, chunk % 0x1_0000, length);
      var (appended, ok) := AppendBlock(s, size, buffer, CONFIGURATION, chunk % 0x1_0000, length);
      if ok {
        ConfigurationOutcome(appended, size, offset + length, chunk + 1);
      }
    }
  }

  /** The catalogue page of the next log is at hand. */
  predicate PageAtHand(s: Store, card: Card, reply: ReadReply) {
    var index := s.logCount / ENTRIES_PER_PAGE;
    || s.logCount % ENTRIES_PER_PAGE == 0 || (s.pageValid && s.pageIndex == index)
    || (reply.ReadOk? && FIRST_CATALOG_SECTOR + index < |card| &&
        PageValid(card[FIRST_CATALOG_SECTOR + index], index))
  }

  /** There is an entry, a page and room for the opening blocks. */
  predicate CanOpen(s: Store, card: Card, reply: ReadReply) {
    && s.logCount < LOG_CAPACITY && PageAtHand(s, card, reply)
    && s.nextSector + 1 + ConfigurationBlocks(|s.configuration|) <= |card|
  }

  /** A log has been opened for this sample, with nothing heard of yet. */
  predicate Opened(s: Store, started: Store, x: Sample) {
    && started.status == Recording && Timers(started, []) && started.nextSampleAt == x.timestamp
    && started.previousState == s.previousState && started.captured == 0 && started.dropped == 0
    && started.taken == [] && started.samplesInBlock == 0 && started.logCount == s.logCount + 1
    && started.active.id == s.nextLogId && started.nextLogId == Min(s.nextLogId + 1, UINT32_MAX)
    && started.active.startSector == s.nextSector
    && |started.queue| == ConfigurationBlocks(|s.configuration|) + 4
  }

  /** A sample that is no fault opens a log exactly if it can be opened, and is its first one. */
  lemma LogOpensExactly(s: Store, card: Card, x: Sample, reply: ReadReply)
    requires s.status == Ready && s.queue == [] && |card| < MASK32 && s.nextSector <= |card|
    ensures var r := Capture(s, card, x, reply);
            if x.state == Fault then r == s
            else if CanOpen(s, card, reply) then
              exists started: Store :: Opened(s, started, x) && r == RecordSample(started, |card|, x)
            else
              r.status == if r.logCount >= LOG_CAPACITY || r.nextSector >= |card| then Full else Error
  {
    hide RecordSample, StartFlight, Opened, CanOpen;
    var numbered := s.(blockSequence := 0);
    StartsExactly(numbered, card, x.timestamp, reply);
    var (started, ok) := StartFlight(numbered, card, x.timestamp, reply);
    if x.state != Fault {
      SameOpening(s, numbered, card, reply);
      if ok {
        assert OpenedFrom(numbered, started, x.timestamp);
        StartedIsOpened(s, numbered, started, x);
      }
    }
  }

  predicate OpenedFrom(s: Store, started: Store, timestamp: uint64) {
    && started.status == Recording && !started.armedSeen && started.finishAfter == 0
    && started.nextSampleAt == timestamp && started.previousState == s.previousState && started.captured == 0
    && started.dropped == 0 && started.taken == [] && started.samplesInBlock == 0
    && started.logCount == s.logCount + 1 && started.active.id == s.nextLogId
    && started.nextLogId == Min(s.nextLogId + 1, UINT32_MAX)
    && started.active.startSector == s.nextSector && |started.queue| == ConfigurationBlocks(|s.configuration|) + 4
  }

  lemma SameOpening(s: Store, r: Store, card: Card, reply: ReadReply)
    requires r == s.(blockSequence := 0)
    ensures CanOpen(s, card, reply) <==> CanOpen(r, card, reply)
  {
  }

  lemma StartedIsOpened(s: Store, numbered: Store, started: Store, x: Sample)
    requires numbered == s.(blockSequence := 0) && OpenedFrom(numbered, started, x.timestamp)
    ensures Opened(s, started, x)
  {
  }

  lemma StartsExactly(s: Store, card: Card, timestamp: uint64, reply: ReadReply)
    requires s.queue == [] && |card| < MASK32 && s.nextSector <= |card|
    ensures var (r, ok) := StartFlight(s, card, timestamp, reply);
            (ok <==> CanOpen(s, card, reply)) && (ok ==> OpenedFrom(s, r, timestamp))
  {
    hide AppendBlock, AppendConfiguration, EnqueueMetadata, HeaderPayload, WithPayload, PageValid;
    if s.logCount >= LOG_CAPACITY || s.nextSector >= |card| {
      return;
    }
    var (paged, loaded) := PreparePage(s, card, reply);
    if loaded {
      var begun := OpenLog(paged);
      var header := WithPayload(HeaderPayload(begun, timestamp));
      AppendOutcome(begun, |card|, header, FLIGHT_HEADER, 1, 68);
      var headed := AppendBlock(begun, |card|, header, FLIGHT_HEADER, 1, 68).0;
      AppendKeepsStart(begun, |card|, header, FLIGHT_HEADER, 1, 68);
      ConfigurationOutcome(headed, |card|, 0, 0);
      ConfigurationKeepsStart(headed, |card|, 0, 0);
      var (written, ok) := AppendConfiguration(headed, |card|, 0, 0);
      if ok {
        MetadataOutcome(NextGeneration(written));
      }
    }
  }

  lemma AppendKeepsStart(s: Store, size: nat, buffer: Sector, kind: Kind, items: Kind, length: Length)
    ensures var r := AppendBlock(s, size, buffer, kind, items, length).0;
            r.active.id == s.active.id && r.active.startSector == s.active.startSector
  {
    hide Finalize;
  }

  lemma {:induction false} ConfigurationKeepsStart(s: Store, size: nat, offset: nat, chunk: nat)
    requires offset <= |s.configuration|
    ensures var r := AppendConfiguration(s, size, offset, chunk).0;
            r.active.id == s.active.id && r.active.startSector == s.active.startSector
    decreases |s.configuration| - offset
  {
    hide AppendBlock, WithPayload;
    if offset < |s.configuration| {
      var length := Min(|s.configuration| - offset, PAYLOAD_CAPACITY);
      var buffer := WithPayload(s.configuration[offset..offset + length]);
      AppendKeepsStart(s, size, buffer, CONFIGURATION, chunk % 0x1_0000, length);
      var (appended, ok) := AppendBlock(s, size, buffer, CONFIGURATION, chunk % 0x1_0000, length);
      if ok {
        ConfigurationKeepsStart(appended, size, offset + length, chunk + 1);
      }
    }
  }
}
