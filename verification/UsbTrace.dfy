/** Reading the control trace over USB: a record leaves the ring only when its response was accepted. */
module UsbTrace {
  import opened Counters
  import opened SystemState
  import opened BlackboxSamples
  import opened ReleaseGrid
  import opened ControlTrace
  import opened TraceText

  /** nextSequence is the number a read response announces for the read after it. */
  datatype Response =
    | ReadBatch(captureId: uint32, records: seq<Record>, nextSequence: nat, text: string)
    | OtherResponse

  /** built says whether the response text fitted. */
  datatype Command =
    | StartTrace(level: Level, state: State, now: uint64, built: bool)
    | StopTrace(built: bool)
    | ReadTrace(requestId: uint32)
    | OtherCommand(built: bool)

  datatype Line = NoLine | BadLine | CommandLine(command: Command)

  datatype WriteReply = WriteAccepted | WriteBusy | WriteError

  datatype ProcessResult = ProcessIdle | InvalidState | BuildError | ResponseSent | ResponsePending | TransportError

  datatype Statistics = Statistics(
    commands: uint32, sent: uint32, busy: uint32, errors: uint32, buildErrors: uint32)

  /** A capture that is over: what it stored and what the host was given of it. */
  datatype Capture = Capture(id: uint32, stored: seq<Record>, delivered: seq<Record>)

  /** delivered and past are history: what accepted read responses have carried. */
  datatype Link = Link(
    trace: Trace, pending: Option<Response>, discardCount: nat, statistics: Statistics,
    delivered: seq<Record>, past: seq<Capture>)

  const InitialLink: Link := Link(ControlTrace.Initial, None, 0, Statistics(0, 0, 0, 0, 0), [], [])

  function Carried(r: Response): (records: seq<Record>) {
    if r.ReadBatch? then r.records else []
  }

  function Settled(l: Link, statistics: Statistics): (r: Link) {
    l.(pending := None, discardCount := 0, statistics := statistics)
  }

  /** Offering the pending response to the transport once. */
  function Send(l: Link, reply: WriteReply): (r: (Link, ProcessResult))
    requires l.pending.Some?
  {
    var stats := l.statistics;
    match reply
    case WriteAccepted =>
      var trace := if l.discardCount > 0 then Discard(l.trace, l.discardCount).0 else l.trace;
      (Settled(l, stats.(sent := SaturatingIncrement(stats.sent)))
       .(trace := trace, delivered := l.delivered + Carried(l.pending.value)), ResponseSent)
    case WriteBusy => (l.(statistics := stats.(busy := SaturatingIncrement(stats.busy))), ResponsePending)
    case WriteError => (Settled(l, stats.(errors := SaturatingIncrement(stats.errors))), TransportError)
  }

  /** Carrying out a command; None is a response that could not be built. */
  function Execute(l: Link, c: Command): (r: (Link, Option<Response>)) {
    match c
    case StartTrace(level, state, now, built) =>
      var (trace, started) := Start(l.trace, level, now);
      var response := if built then Some(OtherResponse) else None;
      if state == Disarmed && started then
        var ended := Capture(l.trace.captureId, l.trace.stored, l.delivered);
        (l.(trace := trace, delivered := [], past := l.past + [ended]), response)
      else (l, response)
    case StopTrace(built) => (l.(trace := Stop(l.trace)), if built then Some(OtherResponse) else None)
    case ReadTrace(requestId) =>
      var batch, count := Peek(l.trace, RECORD_LIMIT), Carries(requestId, BatchOf(l.trace));
      (l.(discardCount := count),
       Some(ReadBatch(l.trace.captureId, batch[..count], l.trace.consumed + |batch| + 1,
                      ResponseText(requestId, BatchOf(l.trace), count))))
    case OtherCommand(built) => (l, if built then Some(OtherResponse) else None)
  }

  function ProcessOnce(l: Link, line: Line, reply: WriteReply): (r: (Link, ProcessResult)) {
    if l.pending.Some? then Send(l, reply)
    else if line.NoLine? then (l, ProcessIdle)
    else if line.BadLine? then (l, InvalidState)
    else
      var counted := l.(discardCount := 0,
                        statistics := l.statistics.(commands := SaturatingIncrement(l.statistics.commands)));
      var (done, response) := Execute(counted, line.command);
      if response == None then
        var stats := done.statistics.(buildErrors := SaturatingIncrement(done.statistics.buildErrors));
        (done.(statistics := stats), BuildError)
      else Send(done.(pending := response), reply)
  }

  /** The control loop offers a sample; the USB service gets a turn. */
  datatype Step = Sampled(sample: Sample) | Polled(line: Line, reply: WriteReply)

  function LinkStep(l: Link, step: Step): (r: Link) {
    match step
    case Sampled(s) => l.(trace := RecordSample(l.trace, s).0)
    case Polled(line, reply) => ProcessOnce(l, line, reply).0
  }

  function LinkRun(l: Link, steps: seq<Step>): (r: Link)
    decreases |steps|
  {
    if steps == [] then l else LinkRun(LinkStep(l, steps[0]), steps[1..])
  }

  /* ---------------- what every run keeps ---------------- */

  /** A waiting read response carries exactly the records that its acceptance will drop. */
  predicate PendingMatches(trace: Trace, pending: Option<Response>, discardCount: nat) {
    if pending.Some? && pending.value.ReadBatch? then
      && discardCount == |pending.value.records|
      && trace.consumed + discardCount <= |trace.stored|
      && pending.value.records == trace.stored[trace.consumed..trace.consumed + discardCount]
    else discardCount == 0
  }

  predicate CaptureIsFaithful(c: Capture) {
    c.delivered <= c.stored && Numbered(c.stored)
  }

  predicate History(past: seq<Capture>) {
    forall i :: 0 <= i < |past| ==> CaptureIsFaithful(past[i]) && past[i].id == Min(i, UINT32_MAX)
  }

  /** Until the command counter saturates every command has had exactly one outcome or is still waiting for it. */
  predicate Accounted(s: Statistics, waiting: bool) {
    s.commands == UINT32_MAX ||
    s.commands == s.sent + s.errors + s.buildErrors + (if waiting then 1 else 0)
  }

  predicate Faithful(l: Link) {
    && TraceInv(l.trace)
    && l.trace.captureId == Min(|l.past|, UINT32_MAX)
    && l.delivered == l.trace.stored[..l.trace.consumed]
    && PendingMatches(l.trace, l.pending, l.discardCount)
    && History(l.past)
  }

  predicate LinkInv(l: Link) {
    Faithful(l) && Accounted(l.statistics, l.pending.Some?)
  }

  /** Nothing the host was given is ever taken back, and a capture that ends is kept as it was. */
  predicate Extends(before: Link, after: Link) {
    && before.past <= after.past
    && (if |after.past| == |before.past| then
          before.delivered <= after.delivered && before.trace.stored <= after.trace.stored
        else
          && before.delivered <= after.past[|before.past|].delivered
          && before.trace.stored <= after.past[|before.past|].stored)
  }

  lemma SendKeeps(l: Link, reply: WriteReply)
    requires LinkInv(l) && l.pending.Some?
    ensures LinkInv(Send(l, reply).0)
    ensures Extends(l, Send(l, reply).0)
  {
    hide History, Numbered, OnGrid;
    var t := l.trace;
    assert t.stored[..t.consumed] + t.stored[t.consumed..t.consumed + l.discardCount]
        == t.stored[..t.consumed + l.discardCount];
  }

  lemma StartKeeps(l: Link, level: Level, now: uint64)
    requires Faithful(l) && Start(l.trace, level, now).1
    ensures TraceInv(Start(l.trace, level, now).0)
    ensures History(l.past + [Capture(l.trace.captureId, l.trace.stored, l.delivered)])
  {
    StartIsSound(l.trace, level, now);
  }

  lemma ExecuteKeeps(l: Link, c: Command)
    requires Faithful(l) && l.pending == None
    ensures Faithful(Execute(l, c).0.(pending := Execute(l, c).1))
    ensures Execute(l, c).1 == None ==> Execute(l, c).0.discardCount == 0
    ensures Execute(l, c).0.statistics == l.statistics && Execute(l, c).0.pending == None
    ensures Extends(l, Execute(l, c).0)
  {
    hide History, Numbered, Carries, ResponseText;
    if c.StartTrace? && Start(l.trace, c.level, c.now).1 {
      StartKeeps(l, c.level, c.now);
    }
  }

  lemma PollKeeps(l: Link, line: Line, reply: WriteReply)
    requires LinkInv(l)
    ensures LinkInv(ProcessOnce(l, line, reply).0)
    ensures Extends(l, ProcessOnce(l, line, reply).0)
  {
    hide Faithful, Execute, Send;
    if l.pending.Some? {
      SendKeeps(l, reply);
    } else if line.CommandLine? {
      var counted := l.(discardCount := 0,
                        statistics := l.statistics.(commands := SaturatingIncrement(l.statistics.commands)));
      IdleIsFaithful(l, counted.statistics);
      ExecuteKeeps(counted, line.command);
      var (done, response) := Execute(counted, line.command);
      if response == None {
        IdleIsFaithful(done, done.statistics.(buildErrors := SaturatingIncrement(done.statistics.buildErrors)));
      } else {
        SendKeeps(done.(pending := response), reply);
      }
    }
  }

  /** With no response waiting, the statistics are the only thing left that may change freely. */
  lemma IdleIsFaithful(l: Link, statistics: Statistics)
    requires Faithful(l.(pending := None))
    ensures l.discardCount == 0
    ensures Faithful(l.(pending := None, statistics := statistics))
  {
  }

  lemma SampleKeeps(l: Link, s: Sample)
    requires LinkInv(l)
    ensures LinkInv(LinkStep(l, Sampled(s)))
    ensures Extends(l, LinkStep(l, Sampled(s)))
  {
    hide RecordSample, History, Numbered, Opened, Timed;
    RecordKeeps(l.trace, s);
    var longer := RecordSample(l.trace, s).0.stored;
    assert l.trace.stored == longer[..|l.trace.stored|];
  }

  lemma StepKeeps(l: Link, step: Step)
    requires LinkInv(l)
    ensures LinkInv(LinkStep(l, step))
    ensures Extends(l, LinkStep(l, step))
  {
    hide LinkInv, Extends, ProcessOnce;
    match step
    case Sampled(s) => SampleKeeps(l, s);
    case Polled(line, reply) => PollKeeps(l, line, reply);
  }

  lemma ExtendsTransitive(a: Link, b: Link, c: Link)
    requires Extends(a, b) && Extends(b, c)
    ensures Extends(a, c)
  {
  }

  lemma {:induction false} RunKeeps(l: Link, steps: seq<Step>)
    requires LinkInv(l)
    ensures LinkInv(LinkRun(l, steps))
    ensures Extends(l, LinkRun(l, steps))
    decreases |steps|
  {
    hide LinkInv, Extends, LinkStep;
    if steps == [] {
      assert Extends(l, l) by { SelfExtends(l); }
    } else {
      StepKeeps(l, steps[0]);
      RunKeeps(LinkStep(l, steps[0]), steps[1..]);
      ExtendsTransitive(l, LinkStep(l, steps[0]), LinkRun(l, steps));
    }
  }

  lemma SelfExtends(l: Link)
    ensures Extends(l, l)
  {
  }

  /**
   * The host's view of every run, whatever the samples, commands and transport replies: of each capture it holds a
   * prefix of the records stored, numbered 1, 2, 3, ...; a running capture has a slot left for the record that ends it;
   * and every command so far has been answered, failed, or is still waiting.
   */
  lemma HostSeesAPrefix(steps: seq<Step>)
    ensures var l := LinkRun(InitialLink, steps);
            && l.delivered <= l.trace.stored && Numbered(l.trace.stored)
            && (forall i :: 0 <= i < |l.past| ==> CaptureIsFaithful(l.past[i]))
            && (l.trace.level != Off ==> Pending(l.trace) < CAPACITY)
            && Accounted(l.statistics, l.pending.Some?)
  {
    hide LinkRun;
    RunKeeps(InitialLink, steps);
  }

  /* ---------------- what every call does ---------------- */

  /** A response is offered until it is accepted or the transport fails; only acceptance moves records to the host. */
  lemma OfferHasItsOutcome(l: Link, reply: WriteReply)
    requires LinkInv(l) && l.pending.Some?
    ensures var (r, result) := Send(l, reply);
            match reply
            case WriteAccepted =>
              && result == ResponseSent && r.pending == None && r.discardCount == 0
              && r.delivered == l.delivered + (if l.pending.value.ReadBatch? then l.pending.value.records else [])
              && r.trace == l.trace.(consumed := l.trace.consumed + l.discardCount)
              && r.statistics == l.statistics.(sent := Min(l.statistics.sent + 1, UINT32_MAX))
            case WriteBusy =>
              && result == ResponsePending
              && r == l.(statistics := l.statistics.(busy := Min(l.statistics.busy + 1, UINT32_MAX)))
            case WriteError =>
              && result == TransportError && r.pending == None && r.discardCount == 0 && r.trace == l.trace
              && r.delivered == l.delivered
              && r.statistics == l.statistics.(errors := Min(l.statistics.errors + 1, UINT32_MAX))
  {
    hide TraceInv, History;
  }

  /** A command is carried out only with no response waiting: what starting, stopping and reading do. */
  lemma CommandHasItsOutcome(l: Link, c: Command)
    requires LinkInv(l) && l.pending == None
    ensures var (r, response) := Execute(l, c);
            match c
            case StartTrace(level, state, now, built) =>
              var starts := state == Disarmed && l.trace.level == Off && level != Off;
              && response == (if built then Some(OtherResponse) else None)
              && (!starts ==> r == l)
              && (starts ==>
                    && r.trace == Start(l.trace, level, now).0 && r.trace.level == level && r.delivered == []
                    && r.past == l.past + [Capture(l.trace.captureId, l.trace.stored, l.delivered)])
            case StopTrace(built) =>
              && response == (if built then Some(OtherResponse) else None)
              && r == l.(trace := r.trace) && r.trace == l.trace.(level := Off, interval := 0)
            case ReadTrace(requestId) =>
              && response.Some? && response.value.ReadBatch? && r == l.(discardCount := r.discardCount)
              && r.discardCount == |response.value.records| <= 5
              && response.value.records == l.trace.stored[l.trace.consumed..l.trace.consumed + r.discardCount]
              && Min(|l.trace.stored| - l.trace.consumed, 4) <= r.discardCount
              && response.value.captureId == l.trace.captureId
            case OtherCommand(built) => r == l && response == (if built then Some(OtherResponse) else None)
  {
    hide History, Numbered, Opened, Timed, Carries, ResponseText;
    if c.ReadTrace? {
      CarriesAllThatFit(c.requestId, BatchOf(l.trace));
    }
  }

  /** A waiting response comes first; without one, a line is a command, refused or nothing. */
  lemma TurnHasItsOutcome(l: Link, line: Line, reply: WriteReply)
    requires LinkInv(l)
    ensures var (r, result) := ProcessOnce(l, line, reply);
            && (l.pending.Some? ==> (r, result) == Send(l, reply))
            && (l.pending == None && line.NoLine? ==> r == l && result == ProcessIdle)
            && (l.pending == None && line.BadLine? ==> r == l && result == InvalidState)
            && (l.pending == None && line.CommandLine? ==>
                  var counted := l.(statistics := l.statistics.(
                                      commands := Min(l.statistics.commands + 1, UINT32_MAX)));
                  var (done, response) := Execute(counted, line.command);
                  && (response == None ==>
                        && result == BuildError && r.trace == done.trace && r.delivered == done.delivered
                        && r.statistics.buildErrors == Min(l.statistics.buildErrors + 1, UINT32_MAX))
                  && (response.Some? ==> (r, result) == Send(done.(pending := response), reply)))
  {
    hide TraceInv, History, Execute, Send;
    IdleDiscardsNothing(l);
    if l.pending == None && line.CommandLine? {
      var statistics := l.statistics.(commands := SaturatingIncrement(l.statistics.commands));
      IdleIsFaithful(l, statistics);
      ExecuteKeeps(l.(statistics := statistics), line.command);
      assert l.(discardCount := 0, statistics := statistics) == l.(statistics := statistics);
    }
  }

  lemma IdleDiscardsNothing(l: Link)
    requires LinkInv(l)
    ensures l.pending == None ==> l.discardCount == 0
  {
  }

  /* ---------------- reading a finished capture to its end ---------------- */

  predicate ReadPoll(step: Step) {
    step.Polled? && step.line.CommandLine? && step.line.command.ReadTrace?
  }

  predicate Reading(l: Link) {
    && l.trace.level == Off
    && (l.pending.Some? ==> l.pending.value.ReadBatch? && (l.pending.value.records == [] ==> Pending(l.trace) == 0))
  }

  function Accepts(steps: seq<Step>): (n: nat)
    decreases |steps|
  {
    if steps == [] then 0
    else (if steps[0].Polled? && steps[0].reply == WriteAccepted then 1 else 0) + Accepts(steps[1..])
  }

  lemma ReadPollDrains(l: Link, step: Step)
    requires LinkInv(l) && Reading(l) && ReadPoll(step)
    ensures var l' := LinkStep(l, step);
            && LinkInv(l') && Reading(l')
            && l'.trace.stored == l.trace.stored
            && Pending(l'.trace) <= Pending(l.trace)
            && (step.reply == WriteAccepted && Pending(l.trace) > 0 ==> Pending(l'.trace) < Pending(l.trace))
  {
    hide LinkInv, TraceInv, History, Carries, ResponseText;
    StepKeeps(l, step);
    ReadingPending(l);
    CarriesAllThatFit(step.line.command.requestId, BatchOf(l.trace));
  }

  lemma ReadingPending(l: Link)
    requires LinkInv(l)
    ensures PendingMatches(l.trace, l.pending, l.discardCount) && l.trace.consumed <= |l.trace.stored|
    ensures l.delivered == l.trace.stored[..l.trace.consumed]
  {
  }

  /** However often the transport is busy or fails, as many accepted reads as there are unread records are enough. */
  lemma {:induction false} ReadsReachTheEnd(l: Link, steps: seq<Step>)
    requires LinkInv(l) && Reading(l)
    requires forall i :: 0 <= i < |steps| ==> ReadPoll(steps[i])
    requires Accepts(steps) >= Pending(l.trace)
    ensures LinkRun(l, steps).delivered == LinkRun(l, steps).trace.stored == l.trace.stored
    decreases |steps|
  {
    hide LinkInv, Reading, LinkStep, ReadPoll;
    ReadingPending(l);
    if steps != [] {
      ReadPollDrains(l, steps[0]);
      ReadsReachTheEnd(LinkStep(l, steps[0]), steps[1..]);
    }
  }

  /** The control loop goes on recording. */
  function RecordAll(t: Trace, samples: seq<Sample>): (r: Trace)
    decreases |samples|
  {
    if samples == [] then t else RecordAll(RecordSample(t, samples[0]).0, samples[1..])
  }

  lemma {:induction false} RecordAllKeeps(t: Trace, samples: seq<Sample>)
    requires TraceInv(t)
    ensures TraceInv(RecordAll(t, samples)) && RecordAll(t, samples).consumed == t.consumed
    decreases |samples|
  {
    hide TraceInv, RecordSample;
    if samples != [] {
      RecordKeeps(t, samples[0]);
      RecordAllKeeps(RecordSample(t, samples[0]).0, samples[1..]);
    }
  }

  lemma NextIsNumbered(t: Trace)
    requires TraceInv(t) && Peek(t, RECORD_LIMIT) != []
    ensures Peek(t, RECORD_LIMIT)[0].sequence == t.consumed + 1
  {
  }

  /**
   * The number a read response announces for the next read is the number of the first record the next read finds,
   * whatever is recorded in between, exactly when the response has room for the whole batch; that it has for any four
   * records, and for five ordinary ones.
   */
  lemma NextSequenceIsHonestWhenTheBatchFits(l: Link, requestId: uint32, samples: seq<Sample>)
    requires LinkInv(l) && l.pending == None
    ensures var (done, response) := Execute(l, ReadTrace(requestId));
            var batch := Peek(l.trace, RECORD_LIMIT);
            var fits := |ResponseText(requestId, BatchOf(l.trace), |batch|)| < RESPONSE_CAPACITY;
            && response.Some? && response.value.ReadBatch?
            && (var later := RecordAll(Send(done.(pending := response), WriteAccepted).0.trace, samples);
                Peek(later, RECORD_LIMIT) != [] ==>
                  (Peek(later, RECORD_LIMIT)[0].sequence == response.value.nextSequence <==> fits))
            && (|batch| <= 4 || Ordinary(batch) ==> fits)
  {
    hide Numbered, Opened, Timed, History, Carries, ResponseText, Ordinary;
    var (done, response) := Execute(l, ReadTrace(requestId));
    var left := Send(done.(pending := response), WriteAccepted).0.trace;
    CarriesAllThatFit(requestId, BatchOf(l.trace));
    ExecuteKeeps(l, ReadTrace(requestId));
    assert left == l.trace.(consumed := l.trace.consumed + done.discardCount);
    LeftIsSound(l.trace, left);
    RecordAllKeeps(left, samples);
    if Peek(RecordAll(left, samples), RECORD_LIMIT) != [] {
      NextIsNumbered(RecordAll(left, samples));
    }
  }

  lemma LeftIsSound(t: Trace, left: Trace)
    requires TraceInv(t) && left == t.(consumed := left.consumed) && t.consumed <= left.consumed <= |t.stored|
    ensures TraceInv(left)
  {
  }

  /* ---------------- the processor ---------------- */

  class CommandProcessor {
    const trace: TraceBuffer
    var pendingResponseValid: bool
    var pendingResponse: Response
    var pendingTraceDiscardCount: nat
    var commandCount: uint32
    var responseSentCount: uint32
    var responseBusyCount: uint32
    var responseErrorCount: uint32
    var responseBuildErrorCount: uint32
    ghost var delivered: seq<Record>
    ghost var past: seq<Capture>

    ghost predicate Valid()
      reads this, trace, trace.records
    {
      trace.Valid()
    }

    ghost function View(): (l: Link)
      reads this, trace
    {
      Link(trace.View(), if pendingResponseValid then Some(pendingResponse) else None, pendingTraceDiscardCount,
           Statistics(commandCount, responseSentCount, responseBusyCount, responseErrorCount, responseBuildErrorCount),
           delivered, past)
    }

    constructor (buffer: TraceBuffer)
      requires buffer.Valid() && buffer.View() == ControlTrace.Initial
      ensures Valid() && trace == buffer && View() == InitialLink
    {
      trace := buffer;
      pendingResponseValid, pendingResponse, pendingTraceDiscardCount := false, OtherResponse, 0;
      commandCount, responseSentCount, responseBusyCount, responseErrorCount, responseBuildErrorCount := 0, 0, 0, 0, 0;
      delivered, past := [], [];
    }

    method TrySendPendingResponse(reply: WriteReply) returns (result: ProcessResult)
      requires Valid() && pendingResponseValid
      modifies this, trace
      ensures Valid()
      ensures (View(), result) == Send(old(View()), reply)
    {
      hide TraceBuffer.Valid, Discard;
      match reply
      case WriteAccepted =>
        if pendingTraceDiscardCount > 0 {
          var _ := trace.DiscardRecords(pendingTraceDiscardCount);
          pendingTraceDiscardCount := 0;
        }
        delivered := delivered + Carried(pendingResponse);
        pendingResponseValid := false;
        responseSentCount := SaturatingIncrement(responseSentCount);
        return ResponseSent;
      case WriteBusy =>
        responseBusyCount := SaturatingIncrement(responseBusyCount);
        return ResponsePending;
      case WriteError =>
        pendingTraceDiscardCount := 0;
        pendingResponseValid := false;
        responseErrorCount := SaturatingIncrement(responseErrorCount);
        return TransportError;
    }

    method BuildReadResponse(requestId: uint32)
      requires Valid() && !pendingResponseValid && pendingTraceDiscardCount == 0
      modifies this
      ensures Valid()
      ensures Some(pendingResponse) == Execute(old(View()), ReadTrace(requestId)).1
      ensures View() == Execute(old(View()), ReadTrace(requestId)).0
    {
      hide TraceBuffer.Valid, HeaderText, ReadText, Texts, Fitting;
      var batch := trace.PeekRecords(RECORD_LIMIT);
      var pending := trace.PendingCount();
      var found := Batch(trace.captureId, trace.level, trace.consumerCount, pending, trace.droppedRecordCount, batch);
      assert found == BatchOf(trace.View());
      HeaderLength(requestId, found);
      var text, count := Serialize(HeaderText(requestId, found), batch);
      pendingResponse := ReadBatch(trace.captureId, batch[..count], trace.consumerCount + |batch| + 1, text);
      pendingTraceDiscardCount := count;
    }

    /** Carries out one command; a built response is left in the buffer but not yet marked as waiting. */
    method BuildResponse(c: Command) returns (built: bool)
      requires Valid() && !pendingResponseValid && pendingTraceDiscardCount == 0
      modifies this, trace
      ensures Valid()
      ensures View() == Execute(old(View()), c).0
      ensures built == Execute(old(View()), c).1.Some?
      ensures built ==> Some(pendingResponse) == Execute(old(View()), c).1
    {
      hide TraceBuffer.Valid, Peek;
      pendingResponse := OtherResponse;
      match c
      case StartTrace(level, state, now, fits) =>
        ghost var ended := Capture(trace.captureId, trace.View().stored, delivered);
        if state == Disarmed {
          var started := trace.StartCapture(level, now);
          if started {
            past, delivered := past + [ended], [];
          }
        }
        return fits;
      case StopTrace(fits) =>
        trace.StopCapture();
        return fits;
      case ReadTrace(requestId) =>
        BuildReadResponse(requestId);
        return true;
      case OtherCommand(fits) =>
        return fits;
    }

    method ProcessLine(line: Line, reply: WriteReply) returns (result: ProcessResult)
      requires Valid()
      modifies this, trace
      ensures Valid()
      ensures (View(), result) == ProcessOnce(old(View()), line, reply)
    {
      hide TraceBuffer.Valid, Send, Execute;
      if pendingResponseValid {
        result := TrySendPendingResponse(reply);
        return;
      }
      match line
      case NoLine => return ProcessIdle;
      case BadLine => return InvalidState;
      case CommandLine(c) =>
        commandCount := SaturatingIncrement(commandCount);
        pendingTraceDiscardCount := 0;
        var built := BuildResponse(c);
        if !built {
          responseBuildErrorCount := SaturatingIncrement(responseBuildErrorCount);
          return BuildError;
        }
        pendingResponseValid := true;
        result := TrySendPendingResponse(reply);
    }
  }
}
