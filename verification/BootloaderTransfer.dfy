/** The host's side of an update: the lines it sends for a payload, and what they leave on the device. */
module BootloaderTransfer {
  import opened Counters
  import opened Bytes
  import opened BootloaderText
  import opened BootloaderFlash
  import opened BootloaderProtocol

  const CHUNK: nat := 512

  function BeginLine(payload: Buffer): (line: string) {
    "BEGIN " + PrintDecimal(|payload|) + " " + PrintHexWord(Crc32(payload), 8)
  }

  function DataLine(offset: nat, chunk: Buffer): (line: string) {
    "DATA " + PrintDecimal(offset) + " " + PrintHexBytes(chunk)
  }

  function ChunkAt(payload: Buffer, offset: nat): (chunk: Buffer)
    requires offset < |payload|
    ensures 0 < |chunk| <= CHUNK && offset + |chunk| <= |payload|
  {
    payload[offset..Min(offset + CHUNK, |payload|)]
  }

  /** Everything works: what a transfer may count on. */
  ghost predicate Healthy(h: Hardware) {
    && h.erase.unlock && h.erase.lock && h.erase.erased && h.flash.unlock
    && forall calls: nat :: Dependable(h.flash, calls)
  }

  /** The device reads out of a BEGIN line what the host put into it, and takes it exactly if the length is allowed. */
  lemma BeginLineIsRead(payload: Buffer)
    ensures BeginArguments(BeginLine(payload)[6..]) ==
            if 8 <= |payload| <= MAXIMUM_LENGTH then Some((|payload|, Crc32(payload))) else None
    ensures Starts(BeginLine(payload), "BEGIN ")
  {
    hide Crc32, PrintDecimal, PrintHexWord, ParseDecimal, ParseHexWord;
    var rest := " " + PrintHexWord(Crc32(payload), 8);
    assert BeginLine(payload)[6..] == PrintDecimal(|payload|) + rest;
    DecimalRoundTrip(|payload|, rest);
    assert rest[1..] == PrintHexWord(Crc32(payload), 8);
    HexWordRoundTrip(Crc32(payload));
  }

  lemma DataLineIsRead(offset: uint32, chunk: Buffer)
    requires 0 < |chunk| <= CHUNK
    ensures DataArguments(DataLine(offset, chunk)[5..]) == Some((offset, chunk))
    ensures Starts(DataLine(offset, chunk), "DATA ")
  {
    hide PrintDecimal, PrintHexBytes, ParseDecimal, ParseHexBytes;
    var rest := " " + PrintHexBytes(chunk);
    assert DataLine(offset, chunk)[5..] == PrintDecimal(offset) + rest;
    DecimalRoundTrip(offset, rest);
    assert rest[1..] == PrintHexBytes(chunk);
    HexBytesRoundTrip(chunk, DATA_CAPACITY);
  }

  /** The device part way through a transfer of the payload. */
  predicate Receiving(b: Session, payload: Buffer) {
    && Filled(b) && b.receiving && b.sent <= payload
    && b.expectedLength == |payload| && b.expectedCrc == Crc32(payload)
  }

  lemma BeginDispatch(b: Session, payload: Buffer, h: Hardware)
    requires FlashInv(b.flash) && b.expectedLength <= MAXIMUM_LENGTH
    ensures HandleLine(b, BeginLine(payload), h) == HandleBegin(b, BeginLine(payload)[6..], h)
  {
    hide BeginLine, HandleBegin;
    BeginLineIsRead(payload);
  }

  lemma DataDispatch(b: Session, offset: uint32, chunk: Buffer, h: Hardware)
    requires FlashInv(b.flash) && b.expectedLength <= MAXIMUM_LENGTH && 0 < |chunk| <= CHUNK
    ensures HandleLine(b, DataLine(offset, chunk), h) == HandleData(b, DataLine(offset, chunk)[5..], h)
  {
    hide DataLine, HandleData;
    DataLineIsRead(offset, chunk);
    assert DataLine(offset, chunk)[0] == DataLine(offset, chunk)[..5][0] == 'D';
  }

  /** A BEGIN answered READY has announced this payload, whatever the hardware did. */
  lemma BeginAnnounces(b: Session, payload: Buffer, h: Hardware)
    requires SessionInv(b)
    ensures var (b', reply) := HandleLine(b, BeginLine(payload), h);
            && (reply == "READY\n" ==>
                b'.expectedLength == |payload| >= 8 && b'.expectedCrc == Crc32(payload) && b'.sent == [])
            && (Healthy(h) ==> (reply == "READY\n" <==> 8 <= |payload| <= MAXIMUM_LENGTH))
            && (Healthy(h) && reply == "READY\n" ==> Receiving(b', payload))
  {
    hide Crc32, BeginArguments, BeginLine, HandleLine;
    BeginDispatch(b, payload, h);
    BeginLineIsRead(payload);
    EraseKeeps(b.flash, h.erase);
    assert WordsOf([]) == [] && Counted(0) == [];
  }

  /** The next chunk is acknowledged and becomes part of the image. */
  lemma ChunkIsTaken(b: Session, payload: Buffer, h: Hardware)
    requires Receiving(b, payload) && |b.sent| < |payload| && Healthy(h)
    ensures var chunk := ChunkAt(payload, |b.sent|);
            var (b', reply) := HandleLine(b, DataLine(|b.sent|, chunk), h);
            reply == AckText(|b.sent| + |chunk|) && Receiving(b', payload) && b'.sent == b.sent + chunk
  {
    hide Crc32, DataArguments, DataLine, Holds, Program, HandleLine, AckText;
    var chunk := ChunkAt(payload, |b.sent|);
    DataLineIsRead(|b.sent|, chunk);
    DataDispatch(b, |b.sent|, chunk, h);
    HoldsLength(b.flash, b.sent);
    assert Dependable(h.flash, Rounded(|chunk|));
    ProgramExtends(b.flash, b.sent, chunk, h.flash.programs);
  }

  /** An acknowledged chunk leaves the announcement alone. */
  lemma DataKeepsAnnouncement(b: Session, offset: uint32, chunk: Buffer, h: Hardware)
    requires SessionInv(b) && 0 < |chunk| <= CHUNK
    ensures var b' := HandleLine(b, DataLine(offset, chunk), h).0;
            b'.expectedLength == b.expectedLength && b'.expectedCrc == b.expectedCrc
  {
    hide DataLine, DataArguments, Program, HandleLine;
    DataDispatch(b, offset, chunk, h);
  }

  /** OK means the flash itself was checked: the application is valid and reads back with the announced checksum. */
  lemma OkMeansVerified(b: Session, h: Hardware)
    requires SessionInv(b) && HandleLine(b, "END", h).1 == "OK\n"
    ensures var b' := HandleLine(b, "END", h).0;
            && b'.applicationValid && FlashInv(b'.flash) && ApplicationIsValid(b'.flash.words)
            && Crc32(ImageBytes(b'.flash.words, b.expectedLength)) == b.expectedCrc
  {
    hide Crc32, Pack, Program, ApplicationIsValid;
    var writes := CommitWrites(b.expectedLength, b.expectedCrc);
    var words := Program(b.flash, writes, h.flash.programs).0.words;
    forall i | 0 <= i < METADATA_WORD
      ensures words[i] == b.flash.words[i]
    {
      ProgramTouches(b.flash, writes, h.flash.programs, i);
    }
    assert words[..Rounded(b.expectedLength)] == b.flash.words[..Rounded(b.expectedLength)];
  }

  /** With the whole payload received, END succeeds exactly for a payload that can be started. */
  lemma EndOfTransfer(b: Session, payload: Buffer, h: Hardware)
    requires Receiving(b, payload) && b.sent == payload && |payload| >= 8 && Healthy(h)
    ensures var (b', reply) := HandleLine(b, "END", h);
            && (reply == "OK\n" <==> Bootable(payload))
            && (reply == "OK\n" ==> Committed(b'.flash, payload, Crc32(payload)))
  {
    hide Crc32, HandleEnd, Bootable, Committed;
    EndOverFilledImage(b, h);
  }

  lemma BootIsTaken(b: Session, h: Hardware)
    requires FlashInv(b.flash) && b.expectedLength <= MAXIMUM_LENGTH && b.applicationValid
    ensures HandleLine(b, "BOOT", h) == (b.(resetPending := true), "BOOTING\n")
  {
  }

  /* ---------------- two sessions that end badly ---------------- */

  /** The smallest image that can be started: a stack pointer and a reset handler. */
  const SmallImage: Buffer := [0, 0, 0, 0x20, 1, 0, 1, 8]

  /** Hardware that works, hardware whose flash does not lock again, and hardware whose erase fails halfway. */
  const Working: Hardware := Hardware(EraseReplies(true, true, true, []), FlashReplies(true, true, []))

  const Unlocked: Hardware := Hardware(EraseReplies(true, true, true, []), FlashReplies(true, false, []))

  function HalfErased(): (h: Hardware) {
    Hardware(EraseReplies(true, true, false, Blank()), FlashReplies(true, true, []))
  }

  lemma WorkingIsHealthy()
    ensures Healthy(Working)
    ensures forall calls: nat :: Succeeds([], calls)
  {
  }

  lemma RunStarts(b: Session, step: Step, steps: seq<Step>)
    requires SessionInv(b)
    ensures SessionInv(HandleLine(b, step.line, step.hardware).0)
    ensures Run(b, [step] + steps) == Run(HandleLine(b, step.line, step.hardware).0, steps)
  {
    hide HandleLine;
    LineKeeps(b, step);
    assert ([step] + steps)[1..] == steps;
  }

  /** The small image part way through its transfer. */
  lemma SmallTransfer(b: Session)
    requires SessionInv(b)
    ensures var b' := HandleLine(b, BeginLine(SmallImage), Working).0; Receiving(b', SmallImage) && b'.sent == []
  {
    hide HandleLine, BeginLine, Receiving;
    WorkingIsHealthy();
    BeginAnnounces(b, SmallImage, Working);
  }

  /** A transfer that succeeded, and a new BEGIN whose erase fails. */
  function FailedErase(): (steps: seq<Step>) {
    [Step(BeginLine(SmallImage), Working), Step(DataLine(0, SmallImage), Working), Step("END", Working),
     Step(BeginLine(SmallImage), HalfErased())]
  }

  lemma EraseFails(b: Session)
    requires SessionInv(b) && b.applicationValid
    ensures var d := HandleLine(b, BeginLine(SmallImage), HalfErased()).0;
            d.applicationValid && FlashInv(d.flash) && !ApplicationIsValid(d.flash.words)
  {
    hide HandleLine, BeginLine, Crc32, BeginArguments;
    BeginDispatch(b, SmallImage, HalfErased());
    BeginLineIsRead(SmallImage);
  }

  function After(b: Session, step: Step): (b': Session)
    requires SessionInv(b)
    ensures SessionInv(b')
  {
    LineKeeps(b, step);
    HandleLine(b, step.line, step.hardware).0
  }

  lemma SmallIsBootable()
    ensures Bootable(SmallImage) && ChunkAt(SmallImage, 0) == SmallImage && [] + SmallImage == SmallImage
  {
  }

  /** After BEGIN and DATA the small image is complete, and END sets the flag. */
  lemma SmallImageIsTaken(b: Session)
    requires SessionInv(b)
    ensures var steps := FailedErase();
            After(After(After(b, steps[0]), steps[1]), steps[2]).applicationValid
  {
    hide HandleLine, BeginLine, DataLine, Receiving, Crc32, Committed, Bootable, ChunkAt, Healthy;
    WorkingIsHealthy();
    SmallIsBootable();
    SmallTransfer(b);
    var b1 := After(b, Step(BeginLine(SmallImage), Working));
    ChunkIsTaken(b1, SmallImage, Working);
    var b2 := After(b1, Step(DataLine(0, SmallImage), Working));
    EndOfTransfer(b2, SmallImage, Working);
    OkMeansVerified(b2, Working);
  }

  /** BOOT would be answered although there is nothing to boot. */
  lemma FailedEraseKeepsTheFlag(b: Session)
    requires SessionInv(b)
    ensures var d := Run(b, FailedErase());
            d.applicationValid && FlashInv(d.flash) && !ApplicationIsValid(d.flash.words)
  {
    hide HandleLine, BeginLine, DataLine, Run, SessionInv, ApplicationIsValid;
    SmallImageIsTaken(b);
    var steps := FailedErase();
    RunStarts(b, steps[0], steps[1..]);
    var b1 := After(b, steps[0]);
    RunStarts(b1, steps[1], steps[2..]);
    var b2 := After(b1, steps[1]);
    RunStarts(b2, steps[2], steps[3..]);
    var b3 := After(b2, steps[2]);
    EraseFails(b3);
    RunStarts(b3, steps[3], []);
    EmptyRun(After(b3, steps[3]));
    assert steps == [steps[0]] + steps[1..] && steps[1..] == [steps[1]] + steps[2..];
    assert steps[2..] == [steps[2]] + steps[3..] && steps[3..] == [steps[3]] + [];
  }

  lemma EmptyRun(b: Session)
    requires SessionInv(b)
    ensures Run(b, []) == b
  {
  }

  /** A block refused because the flash did not lock, and sent again. */
  function RepeatedBlock(): (steps: seq<Step>) {
    [Step(BeginLine(SmallImage), Working), Step(DataLine(0, SmallImage), Unlocked),
     Step(DataLine(0, SmallImage), Working)]
  }

  lemma RepeatedBlockHappens(b: Session)
    requires SessionInv(b)
    ensures Run(b, RepeatedBlock()).flash.programmed == [0, 1, 0, 1]
  {
    hide HandleLine, BeginLine, DataLine, Run, Crc32, DataArguments, HandleData, Holds;
    WorkingIsHealthy();
    SmallTransfer(b);
    var steps := RepeatedBlock();
    var b1 := HandleLine(b, BeginLine(SmallImage), Working).0;
    assert b1.flash.programmed == [] by { NothingProgrammed(b1); }
    DataLineIsRead(0, SmallImage);
    DataDispatch(b1, 0, SmallImage, Unlocked);
    RepeatedBlockIsProgrammedTwice(b1, DataLine(0, SmallImage)[5..], Unlocked, Working);
    assert Indices(WordWrites(0, SmallImage)) == [0, 1];
    RunStarts(b, steps[0], steps[1..]);
    RunStarts(b1, steps[1], steps[2..]);
    var b2 := HandleLine(b1, DataLine(0, SmallImage), Unlocked).0;
    DataDispatch(b2, 0, SmallImage, Working);
    RunStarts(b2, steps[2], []);
    EmptyRun(HandleLine(b2, DataLine(0, SmallImage), Working).0);
    assert steps == [steps[0]] + steps[1..] && steps[1..] == [steps[1]] + steps[2..] && steps[2..] == [steps[2]] + [];
  }

  lemma NothingProgrammed(b: Session)
    requires Filled(b) && b.sent == []
    ensures b.flash.programmed == []
  {
  }

  /** Sends BEGIN and the payload in chunks, expecting the device's answer after each. */
  method SendImage(device: Bootloader, payload: Buffer, hardware: nat -> Hardware) returns (ok: bool, line: nat)
    requires device.Valid()
    modifies device, device.memory, device.memory.cells, device.dataBuffer
    ensures device.Valid()
    ensures ok ==> 8 <= |payload| <= MAXIMUM_LENGTH
                   && device.expectedLength == |payload| && device.expectedCrc32 == Crc32(payload)
    ensures (forall i: nat :: Healthy(hardware(i))) ==>
              && (ok <==> 8 <= |payload| <= MAXIMUM_LENGTH)
              && (ok ==> Receiving(device.View(), payload) && device.sent == payload)
  {
    hide HandleLine, Receiving, SessionInv, Crc32, Healthy, DataLine, BeginLine, AckText;
    ghost var healthy := forall i: nat :: Healthy(hardware(i));
    assert healthy ==> Healthy(hardware(1));
    InvGivesFlash(device.View());
    BeginAnnounces(device.View(), payload, hardware(1));
    var reply := device.OnLine(BeginLine(payload), hardware(1));
    line := 2;
    if reply != "READY\n" {
      return false, line;
    }
    InvGivesFlash(device.View());
    var offset: nat := 0;
    while offset < |payload|
      invariant offset <= |payload| <= MAXIMUM_LENGTH && |payload| >= 8
      invariant device.Valid()
      invariant device.expectedLength == |payload| && device.expectedCrc32 == Crc32(payload)
      invariant healthy ==> Receiving(device.View(), payload) && device.sent == payload[..offset]
    {
      var chunk := ChunkAt(payload, offset);
      InvGivesFlash(device.View());
      DataKeepsAnnouncement(device.View(), offset, chunk, hardware(line));
      if healthy {
        assert Healthy(hardware(line));
        ChunkIsTaken(device.View(), payload, hardware(line));
        assert payload[..offset] + chunk == payload[..offset + |chunk|];
      }
      reply := device.OnLine(DataLine(offset, chunk), hardware(line));
      line := line + 1;
      offset := offset + |chunk|;
      if reply != AckText(offset) {
        return false, line;
      }
    }
    assert payload[..offset] == payload;
    return true, line;
  }

  /** Sends END and BOOT. */
  method FinishTransfer(device: Bootloader, payload: Buffer, end: Hardware, boot: Hardware) returns (ok: bool)
    requires device.Valid() && 8 <= |payload| <= MAXIMUM_LENGTH
    requires device.expectedLength == |payload| && device.expectedCrc32 == Crc32(payload)
    modifies device, device.memory, device.memory.cells, device.dataBuffer
    ensures device.Valid()
    ensures ok ==> device.resetPending && ApplicationIsValid(device.View().flash.words)
                   && Crc32(ImageBytes(device.View().flash.words, |payload|)) == Crc32(payload)
    ensures Healthy(end) && old(Receiving(device.View(), payload)) && old(device.sent) == payload ==>
              && (ok <==> Bootable(payload))
              && (ok ==> Committed(device.View().flash, payload, Crc32(payload)))
  {
    hide HandleLine, Receiving, SessionInv, Crc32, ApplicationIsValid, Committed, Bootable, ImageBytes, Healthy;
    ghost var before := device.View();
    InvGivesFlash(before);
    if Healthy(end) && Receiving(before, payload) && device.sent == payload {
      EndOfTransfer(before, payload, end);
    }
    var reply := device.OnLine("END", end);
    if reply != "OK\n" {
      return false;
    }
    OkMeansVerified(before, end);
    InvGivesFlash(device.View());
    BootIsTaken(device.View(), boot);
    reply := device.OnLine("BOOT", boot);
    return reply == "BOOTING\n";
  }

  /**
   * The host's transfer, line by line. Whatever the hardware does, success means a valid application whose image has
   * the payload's checksum. If all of it works, the transfer succeeds exactly for payloads of an allowed length that
   * can be started, and then the image is the payload, every word programmed once.
   */
  method StreamApplication(device: Bootloader, payload: Buffer, hardware: nat -> Hardware) returns (ok: bool)
    requires device.Valid()
    modifies device, device.memory, device.memory.cells, device.dataBuffer
    ensures device.Valid()
    ensures ok ==> 8 <= |payload| <= MAXIMUM_LENGTH && device.resetPending
                   && ApplicationIsValid(device.View().flash.words)
                   && Crc32(ImageBytes(device.View().flash.words, |payload|)) == Crc32(payload)
    ensures (forall i: nat :: Healthy(hardware(i))) ==>
              && (ok <==> 8 <= |payload| <= MAXIMUM_LENGTH && Bootable(payload))
              && (ok ==> Committed(device.View().flash, payload, Crc32(payload)))
              && (ok ==> ImageBytes(device.View().flash.words, |payload|) == payload)
  {
    hide HandleLine, Receiving, SessionInv, Crc32, ApplicationIsValid, Bootable, ImageBytes, Healthy;
    InvGivesFlash(device.View());
    var info := device.OnLine("INFO", hardware(0));
    var sent, line := SendImage(device, payload, hardware);
    if !sent {
      return false;
    }
    ghost var healthy := forall i: nat :: Healthy(hardware(i));
    assert healthy ==> Healthy(hardware(line));
    ok := FinishTransfer(device, payload, hardware(line), hardware(line + 1));
    if ok && healthy {
      HeldImage(device.View().flash.words, payload);
    }
  }
}
