/**
 * The flight log store: a queue of sector writes in front of an append-only data area, a paged catalogue and
 * two superblocks. Every operation is a function from the store before the call, and the replies of the card,
 * to the store after it. The card holds only what has already been written.
 */
module BlackboxStore {
  import opened Counters
  import opened SystemState
  import opened Bytes
  import opened BlackboxFormat
  import opened BlackboxSamples
  import opened ReleaseGrid

  const QUEUE_CAPACITY: nat := 32
  const SAMPLE_INTERVAL_US: nat := 10_000
  const IDLE_SAMPLE_INTERVAL_US: nat := 100_000
  const POST_DISARM_DURATION_US: nat := 1_000_000
  const CHECKPOINT_SAMPLE_INTERVAL: nat := 500
  const SAMPLES_PER_BLOCK: nat := 2
  const MASK64: nat := 0x1_0000_0000_0000_0000

  datatype Status = NoMedia | Uninitialized | Ready | Recording | Finishing | Full | Error

  datatype Write = Write(target: nat, data: Sector)

  /** A card of fewer than 2^32 sectors, each written as a whole. */
  type Card = seq<Sector>

  type Text = b: Buffer | 0 !in b

  type ConfigurationBytes = b: Buffer | |b| <= 512

  /**
   * The last three fields are a history no operation reads: when the active log was opened, the samples taken
   * into it, and every superblock ever built.
   */
  datatype Store = Store(
    configuration: ConfigurationBytes, firmware: Text, build: Text,
    queue: seq<Write>, active: LogInfo, page: Sector, pageIndex: nat, pageValid: bool, block: Sector,
    nextSampleAt: uint64, captured: uint64, dropped: uint64, nextCheckpointAt: uint64, finishAfter: uint64,
    nextSector: uint32, nextLogId: uint32, generation: uint32, logCount: uint32, blockSequence: uint32,
    samplesInBlock: nat, status: Status, previousState: State, writeActive: bool, armedSeen: bool,
    startedAt: uint64, taken: seq<Sample>, issued: seq<Superblock>)

  const NoLog: LogInfo := LogInfo(0, 0, 0, 0, 0, false)

  /* ---------------- the queue ---------------- */

  function Enqueue(s: Store, target: nat, data: Sector): (r: (Store, bool))
    ensures r.0 == s.(queue := r.0.queue)
  {
    if |s.queue| >= QUEUE_CAPACITY then (s, false) else (s.(queue := s.queue + [Write(target, data)]), true)
  }

  /** A data sector takes the next free place, if the card has one. */
  function Allocate(s: Store, size: nat, data: Sector): (r: (Store, bool))
    ensures r.0 == s.(queue := r.0.queue, active := r.0.active, nextSector := r.0.nextSector)
  {
    if s.nextSector >= size then (s, false)
    else
      var (queued, ok) := Enqueue(s, s.nextSector, data);
      if !ok then (s, false)
      else (queued.(active := s.active.(endSector := s.nextSector), nextSector := (s.nextSector + 1) % MASK32), true)
  }

  function Snapshot(s: Store): (b: Superblock) {
    Superblock(s.generation, s.nextSector, s.nextLogId, s.logCount)
  }

  function EnqueueSuperblocks(s: Store): (r: (Store, bool))
    ensures r.0 == s.(queue := r.0.queue, issued := s.issued + [Snapshot(s)])
  {
    var data := BuildSuperblock(Snapshot(s));
    var (first, ok) := Enqueue(s.(issued := s.issued + [Snapshot(s)]), 0, data);
    if !ok then (first, false) else Enqueue(first, 1, data)
  }

  function EntriesOnPage(count: nat): (n: uint32) {
    if count % ENTRIES_PER_PAGE == 0 && count != 0 then ENTRIES_PER_PAGE else count % ENTRIES_PER_PAGE
  }

  function SlotOf(index: nat): (s: Slot) {
    index % ENTRIES_PER_PAGE
  }

  /** The active log's entry goes to its catalogue page, then the superblocks that list it. */
  function EnqueueMetadata(s: Store): (r: (Store, bool))
    requires s.logCount > 0
    ensures r.0 == s.(queue := r.0.queue, page := r.0.page, issued := r.0.issued)
  {
    var page := SealPage(PutEntry(s.page, SlotOf(s.logCount - 1), s.active), EntriesOnPage(s.logCount));
    var (queued, ok) := Enqueue(s.(page := page), FIRST_CATALOG_SECTOR + s.pageIndex, page);
    if !ok then (queued, false) else EnqueueSuperblocks(queued)
  }

  /* ---------------- blocks of the active log ---------------- */

  /** Numbers a block, finalizes the buffer and queues it behind the others. */
  function AppendBlock(s: Store, size: nat, buffer: Sector, kind: Kind, items: Kind, length: Length): (r: (Store, bool))
    ensures r.0 == s.(queue := r.0.queue, active := r.0.active, nextSector := r.0.nextSector,
                      blockSequence := r.0.blockSequence)
  {
    var data := Finalize(buffer, kind, s.active.id, s.blockSequence, items, length);
    Allocate(s.(blockSequence := (s.blockSequence + 1) % MASK32), size, data)
  }

  function WithPayload(payload: Buffer): (s: Sector)
    requires |payload| <= PAYLOAD_CAPACITY
  {
    Put(ZeroSector(), HEADER_SIZE, payload)
  }

  function Padded(text: Text, capacity: nat): (b: Buffer)
    requires capacity > 0
    ensures |b| == capacity
  {
    var kept := if |text| >= capacity then text[..capacity - 1] else text;
    kept + seq(capacity - |kept|, i => 0)
  }

  function HeaderPayload(s: Store, timestamp: uint64): (b: Buffer)
    ensures |b| == 68
  {
    U32(SAMPLE_INTERVAL_US) + U32(|s.configuration|) + U32(Crc32(s.configuration)) + U64(timestamp)
    + Padded(s.firmware, 16) + Padded(s.build, 32)
  }

  function FooterPayload(s: Store, timestamp: uint64, state: State): (b: Buffer)
    ensures |b| == 20
  {
    U64(timestamp) + U32(s.captured % MASK32) + U32(s.dropped % MASK32) + U32(StateCode(state))
  }

  function AppendConfiguration(s: Store, size: nat, offset: nat, chunk: nat): (r: (Store, bool))
    requires offset <= |s.configuration|
    ensures r.0 == s.(queue := r.0.queue, active := r.0.active, nextSector := r.0.nextSector,
                      blockSequence := r.0.blockSequence)
    decreases |s.configuration| - offset
  {
    if offset == |s.configuration| then (s, true)
    else
      var length := Min(|s.configuration| - offset, PAYLOAD_CAPACITY);
      var buffer := WithPayload(s.configuration[offset..offset + length]);
      var (appended, ok) := AppendBlock(s, size, buffer, CONFIGURATION, chunk % 0x1_0000, length);
      if !ok then (appended, false) else AppendConfiguration(appended, size, offset + length, chunk + 1)
  }

  /* ---------------- the catalogue page in memory ---------------- */

  /** A failed read leaves arbitrary bytes in the page buffer. */
  datatype ReadReply = ReadOk | ReadFailed(scrap: Sector)

  function LoadPage(s: Store, card: Card, index: nat, reply: ReadReply): (r: (Store, bool))
    ensures r.0 == s.(page := r.0.page, pageIndex := r.0.pageIndex, pageValid := r.0.pageValid)
  {
    if s.pageValid && s.pageIndex == index then (s, true)
    else if reply.ReadFailed? then (s.(page := reply.scrap, pageValid := false), false)
    else if FIRST_CATALOG_SECTOR + index >= |card| then (s.(pageValid := false), false)
    else
      var page := card[FIRST_CATALOG_SECTOR + index];
      if !PageValid(page, index) then (s.(page := page, pageValid := false), false)
      else (s.(page := page, pageIndex := index, pageValid := true), true)
  }

  function PreparePage(s: Store, card: Card, reply: ReadReply): (r: (Store, bool))
    requires s.logCount < LOG_CAPACITY
    ensures r.0 == s.(page := r.0.page, pageIndex := r.0.pageIndex, pageValid := r.0.pageValid)
  {
    var index := s.logCount / ENTRIES_PER_PAGE;
    if s.logCount % ENTRIES_PER_PAGE == 0 then
      (s.(page := NewPage(index), pageIndex := index, pageValid := true), true)
    else LoadPage(s, card, index, reply)
  }

  /* ---------------- starting, checkpointing, finishing ---------------- */

  function OpenLog(s: Store): (r: Store)
    requires s.logCount < LOG_CAPACITY
  {
    s.(captured := 0, dropped := 0, taken := [], active := NoLog.(id := s.nextLogId, startSector := s.nextSector),
       logCount := s.logCount + 1,
       nextLogId := if s.nextLogId < UINT32_MAX then s.nextLogId + 1 else s.nextLogId)
  }

  function NextGeneration(s: Store): (r: Store) {
    s.(generation := (s.generation + 1) % MASK32)
  }

  function BeginRecording(s: Store, timestamp: uint64): (r: Store) {
    s.(nextSampleAt := timestamp, nextCheckpointAt := CHECKPOINT_SAMPLE_INTERVAL, samplesInBlock := 0,
       armedSeen := false, finishAfter := 0, status := Recording, startedAt := timestamp)
  }

  function WriteOpening(s: Store, size: nat, timestamp: uint64): (r: (Store, bool))
    ensures r.0 == s.(queue := r.0.queue, active := r.0.active, nextSector := r.0.nextSector,
                      blockSequence := r.0.blockSequence)
  {
    var (headed, ok) := AppendBlock(s, size, WithPayload(HeaderPayload(s, timestamp)), FLIGHT_HEADER, 1, 68);
    if !ok then (headed, false) else AppendConfiguration(headed, size, 0, 0)
  }

  function StartFlight(s: Store, card: Card, timestamp: uint64, reply: ReadReply): (r: (Store, bool))
    ensures r.1 ==> r.0.logCount > 0 && r.0.samplesInBlock == 0 && r.0.status == Recording
  {
    if s.logCount >= LOG_CAPACITY || s.nextSector >= |card| || s.queue != [] then (s, false)
    else
      var (paged, loaded) := PreparePage(s, card, reply);
      if !loaded then (paged, false)
      else
        var (begun, written) := WriteOpening(OpenLog(paged), |card|, timestamp);
        if !written then (begun, false)
        else
          var (listed, ok) := EnqueueMetadata(NextGeneration(begun));
          if !ok then (listed, false) else (BeginRecording(listed, timestamp), true)
  }

  function Checkpoint(s: Store): (r: Store)
    requires s.logCount > 0
    ensures r == s.(queue := r.queue, page := r.page, active := r.active, generation := r.generation,
                    nextCheckpointAt := r.nextCheckpointAt, issued := r.issued)
  {
    if s.captured < s.nextCheckpointAt || |s.queue| > QUEUE_CAPACITY - 3 then s
    else
      var counted := s.(active := s.active.(samples := s.captured % MASK32, dropped := s.dropped % MASK32));
      var (listed, ok) := EnqueueMetadata(NextGeneration(counted));
      if ok then listed.(nextCheckpointAt := (s.nextCheckpointAt + CHECKPOINT_SAMPLE_INTERVAL) % MASK64) else listed
  }

  function FlushSamples(s: Store, size: nat): (r: (Store, bool))
    requires s.samplesInBlock <= SAMPLES_PER_BLOCK
    ensures r.0 == s.(queue := r.0.queue, active := r.0.active, nextSector := r.0.nextSector,
                      blockSequence := r.0.blockSequence, samplesInBlock := r.0.samplesInBlock, block := r.0.block)
    ensures r.1 ==> r.0.samplesInBlock == 0
  {
    if s.samplesInBlock == 0 then (s, true)
    else
      var (flushed, ok) := AppendBlock(s, size, s.block, SAMPLES, s.samplesInBlock, s.samplesInBlock * SAMPLE_SIZE);
      if ok then (flushed.(samplesInBlock := 0, block := ZeroSector()), true)
      else
        var data := Finalize(s.block, SAMPLES, s.active.id, s.blockSequence, s.samplesInBlock,
                             s.samplesInBlock * SAMPLE_SIZE);
        (flushed.(block := data), false)
  }

  function FinishFlight(s: Store, size: nat, timestamp: uint64, state: State): (r: Store)
    requires s.samplesInBlock <= SAMPLES_PER_BLOCK && s.logCount > 0
  {
    var (flushed, ok) := FlushSamples(s, size);
    if !ok then flushed.(status := Error)
    else
      var (footed, written) :=
        AppendBlock(flushed, size, WithPayload(FooterPayload(flushed, timestamp, state)), FLIGHT_FOOTER, 1, 20);
      if !written then footed.(status := Error)
      else
        var closed := footed.(active := footed.active.(samples := s.captured % MASK32, dropped := s.dropped % MASK32,
                                                       complete := true));
        var (listed, done) := EnqueueMetadata(NextGeneration(closed));
        listed.(status := if done then Finishing else Error)
  }

  /* ---------------- sampling ---------------- */

  function IntervalFor(finishAfter: uint64, state: State): (n: nat)
    ensures n > 0
  {
    if state == Boot || state == Initializing || state == Armed || state == Failsafe || finishAfter != 0 then
      SAMPLE_INTERVAL_US
    else IDLE_SAMPLE_INTERVAL_US
  }

  function AddDropped(s: Store, count: uint64): (r: Store) {
    s.(dropped := if count > UINT64_MAX - s.dropped then UINT64_MAX else s.dropped + count)
  }

  /** The tail timer: armed cancels it, the first disarmed sample after arming starts it. */
  function TrackState(s: Store, state: State, timestamp: uint64): (r: Store) {
    if state == Armed then s.(armedSeen := true, finishAfter := 0)
    else if s.armedSeen && state == Disarmed && s.finishAfter == 0 then
      s.(finishAfter :=
           if timestamp <= UINT64_MAX - POST_DISARM_DURATION_US then timestamp + POST_DISARM_DURATION_US
           else UINT64_MAX)
    else s
  }

  predicate StopsAfter(s: Store, state: State, timestamp: uint64) {
    state == Fault || (s.finishAfter != 0 && timestamp >= s.finishAfter)
  }

  /** Encodes a sample behind those waiting in the block, or counts it dropped when the queue is nearly full. */
  function TakeSample(s: Store, size: nat, sample: Sample): (r: Store)
    requires s.samplesInBlock < SAMPLES_PER_BLOCK && s.logCount > 0
    ensures r.logCount == s.logCount
    ensures r.status == Error || (r.status == s.status && r.samplesInBlock < SAMPLES_PER_BLOCK)
  {
    if |s.queue| >= QUEUE_CAPACITY - 4 then AddDropped(s, 1)
    else
      var sequence := (s.captured + 1) % MASK32;
      var taken := s.(
        block := Put(s.block, HEADER_SIZE + s.samplesInBlock * SAMPLE_SIZE, EncodeSample(sample, sequence)),
        samplesInBlock := s.samplesInBlock + 1, captured := (s.captured + 1) % MASK64,
        taken := s.taken + [sample]);
      if taken.samplesInBlock < SAMPLES_PER_BLOCK then Checkpoint(taken)
      else
        var (flushed, ok) := FlushSamples(taken, size);
        if ok then Checkpoint(flushed) else flushed.(status := Error)
  }

  /** The releases the clock has passed, and the next one; a state change releases a sample at once. */
  function Releases(s: Store, sample: Sample): (r: (nat, uint64))
    ensures r.0 <= UINT64_MAX + 1
  {
    PeriodsDue(s.nextSampleAt, sample.timestamp,
               IntervalFor(TrackState(s, sample.state, sample.timestamp).finishAfter, sample.state),
               sample.state != s.previousState)
  }

  predicate Closes(s: Store, sample: Sample) {
    StopsAfter(TrackState(s, sample.state, sample.timestamp), sample.state, sample.timestamp)
  }

  function Timed(s: Store, sample: Sample): (r: Store)
    ensures r == s.(armedSeen := r.armedSeen, finishAfter := r.finishAfter, nextSampleAt := r.nextSampleAt)
  {
    TrackState(s, sample.state, sample.timestamp).(nextSampleAt := Releases(s, sample).1)
  }

  function Missed(s: Store, sample: Sample): (r: Store)
    ensures r == s.(armedSeen := r.armedSeen, finishAfter := r.finishAfter, nextSampleAt := r.nextSampleAt,
                    dropped := r.dropped)
  {
    var periods := Releases(s, sample).0;
    if periods > 1 then AddDropped(Timed(s, sample), periods - 1) else Timed(s, sample)
  }

  function Sampled(s: Store, size: nat, sample: Sample): (r: Store)
    requires s.samplesInBlock < SAMPLES_PER_BLOCK && s.logCount > 0
    ensures r.logCount == s.logCount
    ensures r.status == Error || (r.status == s.status && r.samplesInBlock < SAMPLES_PER_BLOCK)
  {
    if Releases(s, sample).0 > 0 || Closes(s, sample) then TakeSample(Missed(s, sample), size, sample)
    else Timed(s, sample)
  }

  /** One sample while recording. */
  function RecordSample(s: Store, size: nat, sample: Sample): (r: Store)
    requires s.samplesInBlock < SAMPLES_PER_BLOCK && s.logCount > 0
  {
    var taken := Sampled(s, size, sample);
    if taken.status == Error then taken
    else if !Closes(s, sample) then taken.(previousState := sample.state)
    else FinishFlight(taken, size, sample.timestamp, sample.state).(previousState := sample.state)
  }

  function Capture(s: Store, card: Card, sample: Sample, reply: ReadReply): (r: Store)
    requires s.status == Recording ==> s.samplesInBlock < SAMPLES_PER_BLOCK && s.logCount > 0
  {
    match s.status
    case Ready =>
      if sample.state == Fault then s
      else
        var (started, ok) := StartFlight(s.(blockSequence := 0), card, sample.timestamp, reply);
        if ok then RecordSample(started, |card|, sample)
        else
          started.(status :=
                     if started.logCount >= LOG_CAPACITY || started.nextSector >= |card| then Full else Error)
    case Recording => RecordSample(s, |card|, sample)
    case _ => s
  }

  function FinishRecording(s: Store, size: nat, timestamp: uint64, state: State): (r: Store)
    requires s.status == Recording ==> s.samplesInBlock < SAMPLES_PER_BLOCK && s.logCount > 0
  {
    if s.status == Recording then FinishFlight(s, size, timestamp, state) else s
  }

  /* ---------------- the card side ---------------- */

  datatype CardReply = CardOk | CardBusy | CardFailed

  function Settled(s: Store): (r: Store) {
    if s.status == Finishing && s.queue == [] then s.(status := Ready, armedSeen := false) else s
  }

  /** One turn of the writer: start the oldest write, or see whether it is done. */
  function Service(s: Store, card: Card, reply: CardReply): (r: (Store, Card))
    ensures |r.1| == |card|
  {
    if s.queue == [] then (Settled(s), card)
    else if s.status == Error || reply == CardBusy then (s, card)
    else if reply == CardFailed then (s.(writeActive := false, status := Error), card)
    else if !s.writeActive then (s.(writeActive := true), card)
    else
      var head := s.queue[0];
      (Settled(s.(writeActive := false, queue := s.queue[1..])), Written(card, head))
  }

  function Written(card: Card, w: Write): (r: Card)
    ensures |r| == |card|
  {
    if w.target < |card| then card[w.target := w.data] else card
  }

  function Blank(configuration: ConfigurationBytes, firmware: Text, build: Text): (s: Store) {
    Store(configuration, firmware, build, [], NoLog, ZeroSector(), 0, false, ZeroSector(), 0, 0, 0, 0, 0,
          FIRST_DATA_SECTOR, 1, 0, 0, 0, 0, NoMedia, Boot, false, false, 0, [], [])
  }

  /** The newer of the superblocks that check out; the first on a tie. */
  function Newest(card: Card, primaryRead: bool, backupRead: bool): (b: Option<Superblock>)
    requires |card| >= 2
  {
    var primary := primaryRead && SuperblockValid(card[0]);
    var backup := backupRead && SuperblockValid(card[1]);
    if !primary && !backup then None
    else if !primary || (backup && LoadSuperblock(card[1]).generation > LoadSuperblock(card[0]).generation) then
      Some(LoadSuperblock(card[1]))
    else Some(LoadSuperblock(card[0]))
  }

  function MountedStatus(b: Superblock, size: nat): (s: Status) {
    if !(FIRST_DATA_SECTOR <= b.nextSector <= size && b.logCount <= LOG_CAPACITY) then Error
    else if b.nextSector == size || b.logCount == LOG_CAPACITY then Full
    else Ready
  }

  /** Mounting a card. */
  function Mount(card: Card, configuration: ConfigurationBytes, firmware: Text, build: Text,
                 primaryRead: bool, backupRead: bool): (s: Store)
    requires |card| >= 2
  {
    var blank := Blank(configuration, firmware, build);
    match Newest(card, primaryRead, backupRead)
    case None => blank.(status := Uninitialized)
    case Some(b) =>
      blank.(generation := b.generation, nextSector := b.nextSector, nextLogId := b.nextLogId, logCount := b.logCount,
             status := MountedStatus(b, |card|))
  }

  function SetConfiguration(s: Store, configuration: ConfigurationBytes): (r: Store) {
    if s.status == NoMedia || s.status == Uninitialized || s.status == Ready then s.(configuration := configuration)
    else s
  }

  /** Two blocking superblock writes forget every log; a failed one leaves its sector as it was. */
  function Format(s: Store, card: Card, firstWritten: bool, secondWritten: bool): (r: (Store, Card, bool))
    requires |card| >= 2
    ensures |r.1| == |card|
  {
    if s.status == NoMedia || s.status == Recording || s.status == Finishing then (s, card, false)
    else
      var cleared := NextGeneration(s.(
        active := NoLog, page := ZeroSector(), queue := [], pageValid := false, writeActive := false, logCount := 0,
        nextSector := FIRST_DATA_SECTOR, nextLogId := 1));
      var data := BuildSuperblock(Snapshot(cleared));
      var noted := cleared.(issued := s.issued + [Snapshot(cleared)]);
      if !firstWritten then (noted.(status := Error), card, false)
      else if !secondWritten then (noted.(status := Error), card[0 := data], false)
      else (noted.(status := Ready), card[0 := data][1 := data], true)
  }

  /** What the host may ask about a log: the one being recorded is answered from memory, the others from their page. */
  function Inspect(s: Store, card: Card, index: nat, reply: ReadReply): (r: (Store, Option<LogInfo>)) {
    if index >= s.logCount then (s, None)
    else if s.status == Recording && index == s.logCount - 1 then (s, Some(s.active))
    else
      var (loaded, ok) := LoadPage(s, card, index / ENTRIES_PER_PAGE, reply);
      if !ok then (loaded, None)
      else
        var e := EntryOf(loaded.page, SlotOf(index));
        if e.id == 0 || e.startSector < FIRST_DATA_SECTOR || e.endSector < e.startSector || e.endSector >= |card| then
          (loaded, None)
        else (loaded, Some(e))
  }
}
