/** The bootloader's session: BEGIN erases, DATA fills, END verifies and commits. */
module BootloaderProtocol {
  import opened Counters
  import opened Bytes
  import opened BootloaderText
  import opened BootloaderFlash

  const DATA_CAPACITY: nat := 1024

  /** sent is history: the payload accepted since the last BEGIN that was answered READY. */
  datatype Session = Session(
    flash: Flash, expectedLength: uint32, expectedCrc: uint32, received: uint32, receiving: bool,
    applicationValid: bool, vbusSensing: bool, resetPending: bool, sent: Buffer)

  /** What the hardware answers while one line is handled. */
  datatype Hardware = Hardware(erase: EraseReplies, flash: FlashReplies)

  function Opened(flash: Flash, applicationValid: bool, vbusSensing: bool): (b: Session) {
    Session(flash, 0, 0, 0, false, applicationValid, vbusSensing, false, [])
  }

  predicate SessionInv(b: Session) {
    && FlashInv(b.flash)
    && b.expectedLength <= MAXIMUM_LENGTH
    && b.received <= b.expectedLength
    && (b.received % 4 == 0 || b.received == b.expectedLength)
    && |b.sent| == b.received
    && (b.receiving ==> !b.applicationValid)
  }

  /* ---------------- arguments ---------------- */

  predicate Spaced(rest: string) {
    rest != "" && rest[0] == ' '
  }

  /** Length and checksum of a BEGIN the bootloader takes. */
  function BeginArguments(arguments: string): (r: Option<(uint32, uint32)>)
    ensures r.Some? ==> 8 <= r.value.0 <= MAXIMUM_LENGTH
  {
    match ParseDecimal(arguments)
    case None => None
    case Some((length, rest)) =>
      if !Spaced(rest) || ParseHexWord(rest[1..]) == None || length < 8 || length > MAXIMUM_LENGTH then None
      else Some((length, ParseHexWord(rest[1..]).value))
  }

  /** Offset and bytes of a DATA line that can be read at all. */
  function DataArguments(arguments: string): (r: Option<(uint32, Buffer)>)
    ensures r.Some? ==> 0 < |r.value.1| <= DATA_CAPACITY
  {
    match ParseDecimal(arguments)
    case None => None
    case Some((offset, rest)) =>
      if !Spaced(rest) || ParseHexBytes(rest[1..], DATA_CAPACITY) == None then None
      else Some((offset, ParseHexBytes(rest[1..], DATA_CAPACITY).value))
  }

  /** The block continues the image; only the last one may end off a word boundary. */
  predicate Continues(b: Session, offset: uint32, length: nat) {
    && offset == b.received && b.received <= b.expectedLength && length <= b.expectedLength - b.received
    && (b.received + length < b.expectedLength ==> length % 4 == 0)
  }

  /* ---------------- commands ---------------- */

  function AckText(received: uint32): (text: string) {
    "ACK " + PrintDecimal(received) + "\n"
  }

  function HandleBegin(b: Session, arguments: string, h: Hardware): (r: (Session, string)) {
    match BeginArguments(arguments)
    case None => (b, "ERR BEGIN_ARGUMENTS\n")
    case Some((length, crc)) =>
      var (flash, erased) := Erase(b.flash, h.erase);
      if !erased then (b.(flash := flash, receiving := false), "ERR ERASE\n")
      else
        (Session(flash, length, crc, 0, true, false, b.vbusSensing, b.resetPending, []), "READY\n")
  }

  function HandleData(b: Session, arguments: string, h: Hardware): (r: (Session, string))
    requires FlashInv(b.flash)
  {
    var parsed := DataArguments(arguments);
    if !b.receiving || parsed == None || !Continues(b, parsed.value.0, |parsed.value.1|) then (b, "ERR DATA\n")
    else
      var (offset, data) := parsed.value;
      var (flash, ok) := FlashWrite(b.flash, offset, data, h.flash);
      if !ok then (b.(flash := flash), "ERR DATA\n")
      else
        var received: uint32 := b.received + |data|;
        (b.(flash := flash, received := received, sent := b.sent + data), AckText(received))
  }

  /** Everything announced has arrived and the flash reads back with the announced checksum. */
  predicate Verified(b: Session)
    requires FlashInv(b.flash) && b.expectedLength <= MAXIMUM_LENGTH
  {
    && b.receiving && b.received == b.expectedLength
    && Crc32(ImageBytes(b.flash.words, b.expectedLength)) == b.expectedCrc
  }

  function HandleEnd(b: Session, h: Hardware): (r: (Session, string))
    requires FlashInv(b.flash) && b.expectedLength <= MAXIMUM_LENGTH
  {
    if !Verified(b) then (b, "ERR VERIFY\n")
    else
      var (flash, ok) := Commit(b.flash, b.expectedLength, b.expectedCrc, h.flash);
      if !ok || !ApplicationIsValid(flash.words) then (b.(flash := flash), "ERR COMMIT\n")
      else (b.(flash := flash, receiving := false, applicationValid := true), "OK\n")
  }

  predicate Starts(line: string, prefix: string) {
    |line| >= |prefix| && line[..|prefix|] == prefix
  }

  function HandleLine(b: Session, line: string, h: Hardware): (r: (Session, string))
    requires FlashInv(b.flash) && b.expectedLength <= MAXIMUM_LENGTH
  {
    if line == "INFO" then (b, if b.vbusSensing then "OFCBOOT 1 VBUS_SENSE\n" else "OFCBOOT 1 VBUS_ASSUME\n")
    else if Starts(line, "BEGIN ") then HandleBegin(b, line[6..], h)
    else if Starts(line, "DATA ") then HandleData(b, line[5..], h)
    else if line == "END" then HandleEnd(b, h)
    else if line == "BOOT" && b.applicationValid then (b.(resetPending := true), "BOOTING\n")
    else (b, "ERR COMMAND\n")
  }

  datatype Step = Step(line: string, hardware: Hardware)

  function Run(b: Session, steps: seq<Step>): (r: Session)
    requires SessionInv(b)
    ensures SessionInv(r)
    decreases |steps|
  {
    if steps == [] then b
    else
      LineKeeps(b, steps[0]);
      Run(HandleLine(b, steps[0].line, steps[0].hardware).0, steps[1..])
  }

  lemma LineKeeps(b: Session, step: Step)
    requires SessionInv(b)
    ensures SessionInv(HandleLine(b, step.line, step.hardware).0)
  {
    hide HandleBegin, HandleData, Commit, ApplicationIsValid, Verified;
    if Starts(step.line, "BEGIN ") {
      BeginKeeps(b, step.line[6..], step.hardware);
    } else if Starts(step.line, "DATA ") {
      DataKeeps(b, step.line[5..], step.hardware);
    }
  }

  lemma BeginKeeps(b: Session, arguments: string, h: Hardware)
    requires SessionInv(b)
    ensures SessionInv(HandleBegin(b, arguments, h).0)
  {
    hide Erase, BeginArguments;
    EraseKeeps(b.flash, h.erase);
  }

  lemma DataKeeps(b: Session, arguments: string, h: Hardware)
    requires SessionInv(b)
    ensures SessionInv(HandleData(b, arguments, h).0)
  {
    hide FlashWrite, DataArguments;
  }

  /** No erase was interrupted halfway. */
  predicate EraseIsWhole(r: EraseReplies) {
    !r.unlock || r.erased
  }

  lemma EraseKeeps(f: Flash, r: EraseReplies)
    requires FlashInv(f)
    ensures FlashInv(Erase(f, r).0)
    ensures Erase(f, r).1 ==> Erase(f, r).0 == Flash(Blank(), []) && Untouched(Erase(f, r).0)
    ensures EraseIsWhole(r) && Untouched(f) ==> Untouched(Erase(f, r).0)
  {
  }

  /* ---------------- power cuts, whatever the hardware answers ---------------- */

  /** The program calls a line makes if none fails. */
  function PlannedWrites(b: Session, line: string): (writes: seq<Write>)
    requires SessionInv(b)
    ensures InFlash(writes)
  {
    if Starts(line, "DATA ") then
      var parsed := DataArguments(line[5..]);
      if b.receiving && parsed.Some? && Continues(b, parsed.value.0, |parsed.value.1|) && b.received % 4 == 0 then
        WordWrites(b.received / 4, parsed.value.1)
      else []
    else if line == "END" && Verified(b) then CommitWrites(b.expectedLength, b.expectedCrc)
    else []
  }

  /** Handling a line other than BEGIN changes the flash by carrying out its plan, or not at all. */
  lemma LineFollowsItsPlan(b: Session, step: Step)
    requires SessionInv(b) && !Starts(step.line, "BEGIN ")
    ensures var after := HandleLine(b, step.line, step.hardware).0.flash;
            after == b.flash || after == Program(b.flash, PlannedWrites(b, step.line), step.hardware.flash.programs).0
  {
    hide Program, ApplicationIsValid, Verified, ParseDecimal, ParseHexBytes;
  }

  lemma LineKeepsUntouched(b: Session, step: Step)
    requires SessionInv(b) && Untouched(b.flash) && EraseIsWhole(step.hardware.erase)
    ensures Untouched(HandleLine(b, step.line, step.hardware).0.flash)
  {
    hide Program, Untouched, PlannedWrites, HandleData, HandleEnd;
    if Starts(step.line, "BEGIN ") {
      assert Untouched(HandleBegin(b, step.line[6..], step.hardware).0.flash) by {
        EraseKeeps(b.flash, step.hardware.erase);
      }
    } else {
      LineFollowsItsPlan(b, step);
      ProgramKeepsUntouched(b.flash, PlannedWrites(b, step.line), step.hardware.flash.programs);
    }
  }

  lemma {:induction false} RunKeepsUntouched(b: Session, steps: seq<Step>)
    requires SessionInv(b) && Untouched(b.flash)
    requires forall i :: 0 <= i < |steps| ==> EraseIsWhole(steps[i].hardware.erase)
    ensures Untouched(Run(b, steps).flash)
    decreases |steps|
  {
    hide SessionInv, Untouched, HandleLine;
    if steps != [] {
      LineKeeps(b, steps[0]);
      LineKeepsUntouched(b, steps[0]);
      InvGivesFlash(b);
      RunKeepsUntouched(HandleLine(b, steps[0].line, steps[0].hardware).0, steps[1..]);
    }
  }

  lemma InvGivesFlash(b: Session)
    requires SessionInv(b)
    ensures FlashInv(b.flash) && b.expectedLength <= MAXIMUM_LENGTH
  {
  }

  /**
   * Power fails anywhere in a session: after a BEGIN that was answered READY, any further lines, any replies of the
   * hardware, and any number of program calls of the next line. As long as no call has gone to the magic word, the
   * bootloader will find no valid application.
   */
  lemma CutBeforeMagicIsInvalid(b: Session, arguments: string, h: Hardware, steps: seq<Step>, next: Step, calls: nat)
    requires SessionInv(b) && HandleBegin(b, arguments, h).1 == "READY\n"
    requires forall i :: 0 <= i < |steps| ==> EraseIsWhole(steps[i].hardware.erase)
    ensures SessionInv(HandleBegin(b, arguments, h).0)
    ensures var now := Run(HandleBegin(b, arguments, h).0, steps);
            var plan := PlannedWrites(now, next.line);
            calls <= |plan| ==>
              var cut := Program(now.flash, plan[..calls], next.hardware.flash.programs).0;
              METADATA_WORD !in cut.programmed ==> !ApplicationIsValid(cut.words)
  {
    hide PlannedWrites, Run, Program;
    EraseKeeps(b.flash, h.erase);
    var started := HandleBegin(b, arguments, h).0;
    RunKeepsUntouched(started, steps);
    var now := Run(started, steps);
    var plan := PlannedWrites(now, next.line);
    if calls <= |plan| {
      ProgramKeepsUntouched(now.flash, plan[..calls], next.hardware.flash.programs);
    }
  }

  /** Only an END makes a call to the magic word, as its last one, with everything received and the checksum right. */
  lemma MagicIsLast(b: Session, line: string, k: nat)
    requires SessionInv(b) && k < |PlannedWrites(b, line)|
    ensures PlannedWrites(b, line)[k].index >= METADATA_WORD ==> line == "END" && Verified(b)
    ensures PlannedWrites(b, line)[k].index == METADATA_WORD ==> k == |PlannedWrites(b, line)| - 1 == 3
  {
    hide Verified, ParseDecimal, ParseHexBytes;
    if line != "END" {
      assert b.received + |DataArguments(line[5..]).value.1| <= MAXIMUM_LENGTH;
    }
  }

  /* ---------------- hardware that does what it is told ---------------- */

  /** Unlocking may fail; once unlocked, every program call and the final lock succeed. */
  predicate Dependable(r: FlashReplies, calls: nat) {
    r.lock && Succeeds(r.programs, calls)
  }

  function Counted(n: nat): (indices: seq<nat>)
    ensures |indices| == n
  {
    seq(n, i => i)
  }

  lemma WordsOfAppend(a: Buffer, b: Buffer)
    requires |a| % 4 == 0
    ensures WordsOf(a + b) == WordsOf(a) + WordsOf(b)
  {
    var k0 := |a| / 4;
    forall k | 0 <= k < |WordsOf(a + b)|
      ensures WordsOf(a + b)[k] == (WordsOf(a) + WordsOf(b))[k]
    {
      if k < k0 {
        assert (a + b)[4 * k..4 * k + 4] == a[4 * k..4 * k + 4];
      } else {
        var j := k - k0;
        assert (a + b)[4 * k..] == b[4 * j..];
        if 4 * k + 4 <= |a + b| {
          assert (a + b)[4 * k..4 * k + 4] == b[4 * j..4 * j + 4];
        }
      }
    }
  }

  /** What the flash holds once a payload has been written from the start of an erased device. */
  predicate Holds(flash: Flash, payload: Buffer) {
    && FlashInv(flash) && |payload| <= MAXIMUM_LENGTH
    && flash.programmed == Counted(Rounded(|payload|))
    && flash.words[..Rounded(|payload|)] == WordsOf(payload)
    && forall i :: Rounded(|payload|) <= i < FLASH_WORDS ==> flash.words[i] == ERASED
  }

  /** The image so far is the payload so far, each of its words was programmed once, and the rest is erased. */
  predicate Filled(b: Session) {
    SessionInv(b) && Holds(b.flash, b.sent)
  }

  /** Writing data at an erased stretch puts its words there and nowhere else. */
  lemma ProgramStretch(f: Flash, at: nat, data: Buffer, programs: seq<ProgramReply>)
    requires FlashInv(f) && Succeeds(programs, Rounded(|data|)) && at + Rounded(|data|) <= METADATA_WORD
    requires forall i :: at <= i < FLASH_WORDS ==> f.words[i] == ERASED
    ensures InFlash(WordWrites(at, data))
    ensures var (flash, ok) := Program(f, WordWrites(at, data), programs);
            && ok
            && flash.programmed == f.programmed + Indices(WordWrites(at, data))
            && flash.words[..at + Rounded(|data|)] == f.words[..at] + WordsOf(data)
            && (forall i :: at + Rounded(|data|) <= i < FLASH_WORDS ==> flash.words[i] == ERASED)
  {
    hide Program, WordAt;
    var writes := WordWrites(at, data);
    var flash := Program(f, writes, programs).0;
    ProgramStores(f, writes, programs, 0);
    forall i | 0 <= i < FLASH_WORDS
      ensures flash.words[i] == if at <= i < at + |writes| then WordsOf(data)[i - at] else f.words[i]
    {
      if at <= i < at + |writes| {
        ProgramStores(f, writes, programs, i - at);
      } else {
        ProgramTouches(f, writes, programs, i);
      }
    }
  }

  lemma ProgramExtends(f: Flash, payload: Buffer, data: Buffer, programs: seq<ProgramReply>)
    requires Holds(f, payload) && |payload| % 4 == 0 && |payload| + |data| <= MAXIMUM_LENGTH
    requires Succeeds(programs, Rounded(|data|))
    ensures InFlash(WordWrites(|payload| / 4, data))
    ensures var (flash, ok) := Program(f, WordWrites(|payload| / 4, data), programs);
            ok && Holds(flash, payload + data)
  {
    hide Program, WordAt, WordsOf;
    var at := |payload| / 4;
    ProgramStretch(f, at, data, programs);
    WordsOfAppend(payload, data);
    assert Counted(at) + Indices(WordWrites(at, data)) == Counted(at + Rounded(|data|));
  }

  /**
   * A block that continues the image extends it by exactly its bytes, each word programmed once, exactly when the
   * flash refused to unlock or did everything asked of it; after any other outcome the device's record of what it
   * has received no longer matches the flash.
   */
  lemma DataFills(b: Session, arguments: string, h: Hardware)
    requires Filled(b) && b.receiving && DataArguments(arguments).Some?
    requires var (offset, data) := DataArguments(arguments).value; Continues(b, offset, |data|)
    ensures var data := DataArguments(arguments).value.1;
            var (b', reply) := HandleData(b, arguments, h);
            && (Filled(b') <==> !h.flash.unlock || Dependable(h.flash, Rounded(|data|)))
            && (h.flash.unlock && Dependable(h.flash, Rounded(|data|)) ==>
                b'.sent == b.sent + data && reply == AckText(|b'.sent|))
            && (!h.flash.unlock ==> b' == b)
  {
    hide FlashWrite, Holds, DataArguments, Dependable;
    HoldsLength(b.flash, b.sent);
    WriteOutcome(b.flash, b.sent, DataArguments(arguments).value.1, h.flash);
  }

  lemma WriteOutcome(f: Flash, payload: Buffer, data: Buffer, r: FlashReplies)
    requires Holds(f, payload) && |payload| % 4 == 0 && data != [] && |payload| + |data| <= MAXIMUM_LENGTH
    ensures var (flash, ok) := FlashWrite(f, |payload|, data, r);
            if !r.unlock then (flash, ok) == (f, false)
            else if Dependable(r, Rounded(|data|)) then ok && Holds(flash, payload + data)
            else !ok && !Holds(flash, payload)
  {
    hide Program, Holds, Succeeds;
    HoldsLength(f, payload);
    ProgramReports(f, WordWrites(|payload| / 4, data), r.programs);
    if Succeeds(r.programs, Rounded(|data|)) {
      ProgramExtends(f, payload, data, r.programs);
    }
    if r.unlock && !Dependable(r, Rounded(|data|)) {
      NotHeld(f, FlashWrite(f, |payload|, data, r).0, payload);
    }
  }

  /** A DATA line that does not continue the image changes nothing. */
  lemma OtherDataIsRefused(b: Session, arguments: string, h: Hardware)
    requires SessionInv(b)
    requires b.receiving && DataArguments(arguments).Some? ==>
               !Continues(b, DataArguments(arguments).value.0, |DataArguments(arguments).value.1|)
    ensures HandleData(b, arguments, h) == (b, "ERR DATA\n")
  {
  }

  /** Whatever is behind the name of a command with arguments, even nothing, is its arguments. */
  lemma LinesAreTold(b: Session, rest: string, h: Hardware)
    requires SessionInv(b)
    ensures HandleLine(b, "BEGIN " + rest, h) == HandleBegin(b, rest, h)
    ensures HandleLine(b, "DATA " + rest, h) == HandleData(b, rest, h)
    ensures HandleLine(b, "END", h) == HandleEnd(b, h)
    ensures HandleLine(b, "INFO", h) ==
            (b, if b.vbusSensing then "OFCBOOT 1 VBUS_SENSE\n" else "OFCBOOT 1 VBUS_ASSUME\n")
  {
    assert ("BEGIN " + rest)[..6] == "BEGIN " && ("BEGIN " + rest)[6..] == rest;
    assert ("DATA " + rest)[..5] == "DATA " && ("DATA " + rest)[5..] == rest && ("DATA " + rest)[0] == 'D';
    assert !Starts("DATA " + rest, "BEGIN ") by { OtherStart("DATA " + rest, "BEGIN "); }
  }

  /** A reset is asked for exactly by BOOT, and only while the flag says that there is a valid application. */
  lemma BootIsAdmittedExactly(b: Session, line: string, h: Hardware)
    requires SessionInv(b)
    ensures var (r, text) := HandleLine(b, line, h);
            && (r.resetPending <==> b.resetPending || (line == "BOOT" && b.applicationValid))
            && (line == "BOOT" ==> r == b.(resetPending := r.resetPending))
            && (line == "BOOT" ==> text == if b.applicationValid then "BOOTING\n" else "ERR COMMAND\n")
  {
    hide DataArguments, BeginArguments, Erase, FlashWrite, Commit, ApplicationIsValid, Crc32, ImageBytes;
  }

  /** Any other line changes nothing. */
  lemma OtherLinesAreRefused(b: Session, line: string, h: Hardware)
    requires SessionInv(b) && line != "INFO" && line != "END" && line != "BOOT"
    requires forall rest :: line != "BEGIN " + rest && line != "DATA " + rest
    ensures HandleLine(b, line, h) == (b, "ERR COMMAND\n")
  {
    hide HandleBegin, HandleData, HandleEnd;
    StartsMeans(line, "BEGIN ");
    StartsMeans(line, "DATA ");
  }

  lemma OtherStart(line: string, prefix: string)
    requires line != "" && prefix != "" && line[0] != prefix[0]
    ensures !Starts(line, prefix)
  {
    assert |line| >= |prefix| ==> line[..|prefix|][0] == line[0];
  }

  lemma StartsMeans(line: string, prefix: string)
    ensures Starts(line, prefix) <==> exists rest :: line == prefix + rest
  {
    if Starts(line, prefix) {
      assert line == prefix + line[|prefix|..];
    }
    if rest :| line == prefix + rest {
      assert line[..|prefix|] == prefix;
    }
  }

  /** The flash refuses to unlock, or does everything it is asked to. */
  ghost predicate Obeys(r: FlashReplies) {
    !r.unlock || forall calls: nat :: Dependable(r, calls)
  }

  lemma LineFills(b: Session, step: Step)
    requires Filled(b) && !Starts(step.line, "BEGIN ") && step.line != "END" && Obeys(step.hardware.flash)
    ensures Filled(HandleLine(b, step.line, step.hardware).0)
  {
    hide Holds, HandleData, DataArguments;
    if Starts(step.line, "DATA ") {
      var arguments := step.line[5..];
      if b.receiving && DataArguments(arguments).Some?
         && Continues(b, DataArguments(arguments).value.0, |DataArguments(arguments).value.1|) {
        DataFills(b, arguments, step.hardware);
      } else {
        OtherDataIsRefused(b, arguments, step.hardware);
      }
    }
  }

  lemma {:induction false} RunFills(b: Session, steps: seq<Step>)
    requires Filled(b)
    requires forall i :: 0 <= i < |steps| ==>
               !Starts(steps[i].line, "BEGIN ") && steps[i].line != "END" && Obeys(steps[i].hardware.flash)
    ensures Filled(Run(b, steps))
    decreases |steps|
  {
    hide Holds, HandleLine, Obeys;
    if steps != [] {
      LineKeeps(b, steps[0]);
      LineFills(b, steps[0]);
      RunFills(HandleLine(b, steps[0].line, steps[0].hardware).0, steps[1..]);
    }
  }

  /**
   * From a BEGIN answered READY, through any lines but BEGIN and END on a flash that obeys: the image so far is the
   * payload so far, every program call went to the next word of it, each word once, and none to the metadata.
   */
  lemma SessionFills(b: Session, arguments: string, h: Hardware, steps: seq<Step>)
    requires SessionInv(b) && HandleBegin(b, arguments, h).1 == "READY\n"
    requires forall i :: 0 <= i < |steps| ==>
               !Starts(steps[i].line, "BEGIN ") && steps[i].line != "END" && Obeys(steps[i].hardware.flash)
    ensures SessionInv(HandleBegin(b, arguments, h).0)
    ensures var now := Run(HandleBegin(b, arguments, h).0, steps);
            && Filled(now) && ImageBytes(now.flash.words, |now.sent|) == now.sent
            && now.flash.programmed == Counted(Rounded(|now.sent|))
            && forall w | w in now.flash.programmed :: w < METADATA_WORD
  {
    hide Run, BeginArguments, WordsOf;
    BeginFills(b, arguments, h);
    var started := HandleBegin(b, arguments, h).0;
    RunFills(started, steps);
    var now := Run(started, steps);
    HeldImage(now.flash.words, now.sent);
  }

  lemma BeginFills(b: Session, arguments: string, h: Hardware)
    requires SessionInv(b) && HandleBegin(b, arguments, h).1 == "READY\n"
    ensures Filled(HandleBegin(b, arguments, h).0)
  {
    hide BeginArguments;
    EraseKeeps(b.flash, h.erase);
    assert WordsOf([]) == [] && Counted(0) == [];
  }

  /**
   * A block whose flash fails to lock afterwards is refused although its words were programmed; the same block again,
   * on a flash that obeys, is acknowledged, and every one of its words has been programmed twice.
   */
  lemma RepeatedBlockIsProgrammedTwice(b: Session, arguments: string, bad: Hardware, good: Hardware)
    requires Filled(b) && b.receiving && DataArguments(arguments).Some?
    requires var (offset, data) := DataArguments(arguments).value; Continues(b, offset, |data|)
    requires var n := Rounded(|DataArguments(arguments).value.1|);
             && bad.flash.unlock && !bad.flash.lock && Succeeds(bad.flash.programs, n)
             && good.flash.unlock && Dependable(good.flash, n)
    ensures var data := DataArguments(arguments).value.1;
            var words := Indices(WordWrites(b.received / 4, data));
            var (failed, refusal) := HandleData(b, arguments, bad);
            && FlashInv(failed.flash) && refusal == "ERR DATA\n"
            && var (again, reply) := HandleData(failed, arguments, good);
               && reply == AckText(|again.sent|) && again.sent == b.sent + data
               && again.flash.programmed == b.flash.programmed + words + words && words != []
  {
    hide Program, Holds, DataArguments, Succeeds, WordWrites;
    var (offset, data) := DataArguments(arguments).value;
    HoldsLength(b.flash, b.sent);
    var writes := WordWrites(b.received / 4, data);
    assert InFlash(writes);
    ProgramReports(b.flash, writes, bad.flash.programs);
    var failed := Program(b.flash, writes, bad.flash.programs).0;
    ProgramReports(failed, writes, good.flash.programs);
  }

  lemma NotHeld(before: Flash, after: Flash, payload: Buffer)
    requires Holds(before, payload) && |after.programmed| > |before.programmed|
    ensures !Holds(after, payload)
  {
  }

  lemma HoldsLength(flash: Flash, payload: Buffer)
    requires Holds(flash, payload)
    ensures FlashInv(flash) && |payload| <= MAXIMUM_LENGTH
  {
  }

  /** Read back as bytes, the image is the payload. */
  lemma HeldImage(words: seq<uint32>, payload: Buffer)
    requires |words| == FLASH_WORDS && |payload| <= MAXIMUM_LENGTH
    requires words[..Rounded(|payload|)] == WordsOf(payload)
    ensures ImageBytes(words, |payload|) == payload
  {
    WordsHoldData(payload);
  }

  /** The payload begins with a usable stack pointer and reset handler. */
  predicate Bootable(payload: Buffer) {
    |payload| >= 8 && StackPointerIsValid(GetU32(payload, 0)) && ResetHandlerIsValid(GetU32(payload, 4))
  }

  /** The device after a commit: payload, metadata, every word programmed once. */
  predicate Committed(flash: Flash, payload: Buffer, crc: uint32) {
    && FlashInv(flash) && |payload| <= MAXIMUM_LENGTH
    && flash.words[..Rounded(|payload|)] == WordsOf(payload)
    && flash.words[METADATA_WORD] == METADATA_MAGIC
    && flash.words[METADATA_WORD + 1] == METADATA_VERSION
    && flash.words[METADATA_WORD + 2] == |payload|
    && flash.words[METADATA_WORD + 3] == crc
    && flash.programmed ==
       Counted(Rounded(|payload|)) + [METADATA_WORD + 1, METADATA_WORD + 2, METADATA_WORD + 3, METADATA_WORD]
  }

  lemma MetadataStored(f: Flash, length: uint32, crc: uint32, programs: seq<ProgramReply>, i: nat)
    requires FlashInv(f) && Succeeds(programs, 4) && i < FLASH_WORDS
    requires forall k :: METADATA_WORD <= k < FLASH_WORDS ==> f.words[k] == ERASED
    ensures var (flash, ok) := Program(f, CommitWrites(length, crc), programs);
            && ok
            && flash.programmed == f.programmed + [METADATA_WORD + 1, METADATA_WORD + 2, METADATA_WORD + 3,
               METADATA_WORD]
            && flash.words[i] == (
              if i == METADATA_WORD then METADATA_MAGIC
              else if i == METADATA_WORD + 1 then METADATA_VERSION
              else if i == METADATA_WORD + 2 then length
              else if i == METADATA_WORD + 3 then crc
              else f.words[i])
  {
    hide Program;
    var writes := CommitWrites(length, crc);
    assert Indices(writes) == [METADATA_WORD + 1, METADATA_WORD + 2, METADATA_WORD + 3, METADATA_WORD];
    ProgramStores(f, writes, programs, if METADATA_WORD < i < METADATA_WORD + 4 then i - METADATA_WORD - 1 else 3);
    if i < METADATA_WORD || METADATA_WORD + 4 <= i {
      ProgramTouches(f, writes, programs, i);
    }
  }

  lemma CommitStores(f: Flash, payload: Buffer, crc: uint32, programs: seq<ProgramReply>)
    requires Holds(f, payload) && Succeeds(programs, 4)
    ensures var (flash, ok) := Program(f, CommitWrites(|payload|, crc), programs);
            ok && Committed(flash, payload, crc)
  {
    hide Program, WordsOf;
    var flash := Program(f, CommitWrites(|payload|, crc), programs).0;
    for i := 0 to 4
      invariant i > 0 ==> flash.words[METADATA_WORD] == METADATA_MAGIC
      invariant i > 1 ==> flash.words[METADATA_WORD + 1] == METADATA_VERSION
      invariant i > 2 ==> flash.words[METADATA_WORD + 2] == |payload|
      invariant i > 3 ==> flash.words[METADATA_WORD + 3] == crc
    {
      MetadataStored(f, |payload|, crc, programs, METADATA_WORD + i);
    }
    forall i | 0 <= i < Rounded(|payload|)
      ensures flash.words[i] == f.words[i]
    {
      MetadataStored(f, |payload|, crc, programs, i);
    }
    assert flash.words[..Rounded(|payload|)] == f.words[..Rounded(|payload|)];
    MetadataStored(f, |payload|, crc, programs, 0);
  }

  lemma VectorsOfPayload(words: seq<uint32>, payload: Buffer)
    requires |words| == FLASH_WORDS && 8 <= |payload| <= MAXIMUM_LENGTH
    requires words[..Rounded(|payload|)] == WordsOf(payload)
    ensures words[0] == GetU32(payload, 0) && words[1] == GetU32(payload, 4)
  {
    var head := words[..Rounded(|payload|)];
    assert words[0] == head[0] == WordAt(payload, 0) && words[1] == head[1] == WordAt(payload, 1);
  }

  /**
   * A committed payload is a valid application exactly when it can be started and the announced checksum is its own.
   */
  lemma CommittedIsValid(flash: Flash, payload: Buffer, crc: uint32)
    requires Committed(flash, payload, crc) && 8 <= |payload|
    ensures ApplicationIsValid(flash.words) <==> Bootable(payload) && Crc32(payload) == crc
  {
    hide Crc32, ImageBytes, WordsOf;
    HeldImage(flash.words, payload);
    VectorsOfPayload(flash.words, payload);
  }

  /**
   * END over a filled image: it answers OK exactly when everything announced was received, the announced checksum is
   * that of the received payload, the payload can be started, and the flash could be unlocked. Then the device holds
   * the payload and its metadata, every word programmed once, and the application is valid.
   */
  lemma EndOverFilledImage(b: Session, h: Hardware)
    requires Filled(b) && Dependable(h.flash, 4)
    ensures var (b', reply) := HandleEnd(b, h);
            && (reply == "OK\n" <==>
                b.receiving && |b.sent| == b.expectedLength && b.expectedLength >= 8
                && Crc32(b.sent) == b.expectedCrc && Bootable(b.sent) && h.flash.unlock)
            && (reply == "OK\n" ==>
                Committed(b'.flash, b.sent, b.expectedCrc) && ApplicationIsValid(b'.flash.words) && b'.applicationValid)
            && (reply != "OK\n" && !(Verified(b) && h.flash.unlock) ==> b' == b)
  {
    hide Crc32, ImageBytes, WordsOf, Program, Committed, Bootable, ApplicationIsValid;
    HeldImage(b.flash.words, b.sent);
    if Verified(b) && h.flash.unlock && b.expectedLength >= 8 {
      CommitStores(b.flash, b.sent, b.expectedCrc, h.flash.programs);
      CommittedIsValid(Program(b.flash, CommitWrites(b.expectedLength, b.expectedCrc), h.flash.programs).0, b.sent,
          b.expectedCrc);
    }
  }

  /* ---------------- the BOOT command ---------------- */

  /** The flag that lets BOOT through tells the truth about the flash. */
  predicate Honest(b: Session)
    requires FlashInv(b.flash)
  {
    b.applicationValid ==> ApplicationIsValid(b.flash.words)
  }

  /** Every line but BEGIN keeps the flag honest, whatever the hardware answers. */
  lemma LineKeepsHonest(b: Session, step: Step)
    requires SessionInv(b) && Honest(b) && !Starts(step.line, "BEGIN ")
    ensures SessionInv(HandleLine(b, step.line, step.hardware).0)
    ensures Honest(HandleLine(b, step.line, step.hardware).0)
  {
    hide ApplicationIsValid, Crc32, ImageBytes, FlashWrite, Commit, DataArguments;
    LineKeeps(b, step);
  }

  /**
   * A BEGIN whose erase fails answers an error but leaves the flag as it was. Whatever such an erase leaves behind, the
   * flag can be relied on exactly if it was not set, or the erase was never started, or it was completed.
   */
  lemma BeginKeepsHonest(b: Session, arguments: string, unlock: bool, lock: bool, erased: bool, flash: FlashReplies)
    requires SessionInv(b) && Honest(b) && BeginArguments(arguments).Some?
    ensures (forall residue: seq<uint32> :: |residue| == FLASH_WORDS ==>
               var h := Hardware(EraseReplies(unlock, lock, erased, residue), flash);
               FlashInv(HandleBegin(b, arguments, h).0.flash) && Honest(HandleBegin(b, arguments, h).0))
            <==> !b.applicationValid || !unlock || (erased && lock)
  {
    hide BeginArguments;
    if b.applicationValid && unlock && !(erased && lock) {
      var residue := Blank();
      var h := Hardware(EraseReplies(unlock, lock, erased, residue), flash);
      assert HandleBegin(b, arguments, h).0.flash.words == Blank();
      assert Blank()[METADATA_WORD] == ERASED;
      assert !Honest(HandleBegin(b, arguments, h).0);
    }
  }

  /* ---------------- the device ---------------- */

  class Bootloader {
    const memory: FlashMemory
    const dataBuffer: array<byte>
    var expectedLength: uint32
    var expectedCrc32: uint32
    var receivedLength: uint32
    var receiving: bool
    var applicationValid: bool
    var vbusSensingEnabled: bool
    var resetPending: bool
    ghost var sent: Buffer

    ghost predicate Valid()
      reads this, memory, memory.cells
    {
      memory.Valid() && dataBuffer.Length == DATA_CAPACITY && SessionInv(View())
    }

    ghost function View(): (b: Session)
      reads this, memory, memory.cells
    {
      Session(memory.View(), expectedLength, expectedCrc32, receivedLength, receiving, applicationValid,
              vbusSensingEnabled, resetPending, sent)
    }

    constructor (flash: FlashMemory, valid: bool, sensing: bool)
      requires flash.Valid()
      ensures Valid() && memory == flash && fresh(dataBuffer) && View() == Opened(flash.View(), valid, sensing)
    {
      memory := flash;
      dataBuffer := new byte[DATA_CAPACITY];
      expectedLength, expectedCrc32, receivedLength, receiving := 0, 0, 0, false;
      applicationValid, vbusSensingEnabled, resetPending := valid, sensing, false;
      sent := [];
    }

    method ScanBegin(arguments: string) returns (r: Option<(uint32, uint32)>)
      ensures r == BeginArguments(arguments)
    {
      hide ParseDecimal, ParseHexWord;
      var length := ScanDecimal(arguments);
      if length == None || length.value.1 == "" || length.value.1[0] != ' ' {
        return None;
      }
      var crc := ScanHexWord(length.value.1[1..]);
      if crc == None || length.value.0 < 8 || length.value.0 > MAXIMUM_LENGTH {
        return None;
      }
      return Some((length.value.0, crc.value));
    }

    method OnBegin(arguments: string, h: Hardware) returns (reply: string)
      requires Valid()
      modifies this, memory, memory.cells
      ensures Valid()
      ensures (View(), reply) == HandleBegin(old(View()), arguments, h)
    {
      hide BeginArguments, Erase, SessionInv;
      BeginKeeps(View(), arguments, h);
      var parsed := ScanBegin(arguments);
      if parsed == None {
        return "ERR BEGIN_ARGUMENTS\n";
      }
      receiving := false;
      var erased := memory.EraseSectors(h.erase);
      if !erased {
        return "ERR ERASE\n";
      }
      expectedLength, expectedCrc32 := parsed.value.0, parsed.value.1;
      receivedLength := 0;
      applicationValid := false;
      receiving := true;
      sent := [];
      return "READY\n";
    }

    /** The offset, and the bytes in the data buffer. */
    method ScanData(arguments: string) returns (offset: uint32, length: Option<nat>)
      requires dataBuffer.Length == DATA_CAPACITY
      modifies dataBuffer
      ensures length.Some? ==> length.value <= DATA_CAPACITY
      ensures DataArguments(arguments) ==
              if length == None then None else Some((offset, dataBuffer[..length.value]))
    {
      hide ParseDecimal, ParseHexBytes;
      var parsed := ScanDecimal(arguments);
      if parsed == None || parsed.value.1 == "" || parsed.value.1[0] != ' ' {
        return 0, None;
      }
      offset := parsed.value.0;
      length := ScanHexBytes(parsed.value.1[1..], dataBuffer);
    }

    method OnData(arguments: string, h: Hardware) returns (reply: string)
      requires Valid()
      modifies this, memory, memory.cells, dataBuffer
      ensures Valid()
      ensures (View(), reply) == HandleData(old(View()), arguments, h)
    {
      hide DataArguments, FlashWrite, SessionInv;
      DataKeeps(View(), arguments, h);
      InvGivesFlash(View());
      if !receiving {
        return "ERR DATA\n";
      }
      var offset, length := ScanData(arguments);
      if length == None || offset != receivedLength || receivedLength > expectedLength ||
         length.value > expectedLength - receivedLength ||
         (receivedLength + length.value < expectedLength && length.value % 4 != 0) {
        return "ERR DATA\n";
      }
      var ok := memory.WriteData(offset, dataBuffer, length.value, h.flash);
      if !ok {
        return "ERR DATA\n";
      }
      receivedLength := receivedLength + length.value;
      sent := sent + dataBuffer[..length.value];
      var digits := AppendDecimal(18, receivedLength);
      PrintedLength(receivedLength);
      return "ACK " + digits + "\n";
    }

    method OnEnd(h: Hardware) returns (reply: string)
      requires Valid()
      modifies this, memory, memory.cells
      ensures Valid()
      ensures (View(), reply) == HandleEnd(old(View()), h)
    {
      hide Crc32, ImageBytes, Commit, ApplicationIsValid;
      var actual := memory.ImageChecksum(expectedLength);
      if !receiving || receivedLength != expectedLength || actual != expectedCrc32 {
        return "ERR VERIFY\n";
      }
      var committed := memory.CommitMetadata(expectedLength, actual, h.flash);
      if !committed {
        return "ERR COMMIT\n";
      }
      var valid := memory.CheckApplication();
      if !valid {
        return "ERR COMMIT\n";
      }
      receiving := false;
      applicationValid := true;
      return "OK\n";
    }

    method OnLine(line: string, h: Hardware) returns (reply: string)
      requires Valid()
      modifies this, memory, memory.cells, dataBuffer
      ensures Valid()
      ensures (View(), reply) == HandleLine(old(View()), line, h)
    {
      hide SessionInv, HandleBegin, HandleData, HandleEnd;
      LineKeeps(View(), Step(line, h));
      if line == "INFO" {
        return if vbusSensingEnabled then "OFCBOOT 1 VBUS_SENSE\n" else "OFCBOOT 1 VBUS_ASSUME\n";
      } else if |line| >= 6 && line[..6] == "BEGIN " {
        reply := OnBegin(line[6..], h);
      } else if |line| >= 5 && line[..5] == "DATA " {
        reply := OnData(line[5..], h);
      } else if line == "END" {
        reply := OnEnd(h);
      } else if line == "BOOT" && applicationValid {
        resetPending := true;
        return "BOOTING\n";
      } else {
        return "ERR COMMAND\n";
      }
    }
  }
}
