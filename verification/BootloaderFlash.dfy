/** The application flash as words: erasing, programming, and when the image in it counts as valid. */
module BootloaderFlash {
  import opened Counters
  import opened Bytes

  const APPLICATION_START: nat := 0x0801_0000
  const METADATA_ADDRESS: nat := 0x080D_FF00
  const ERASED_END: nat := 0x080E_0000
  const MAXIMUM_LENGTH: nat := METADATA_ADDRESS - APPLICATION_START
  const METADATA_WORD: nat := MAXIMUM_LENGTH / 4
  const FLASH_WORDS: nat := (ERASED_END - APPLICATION_START) / 4
  const METADATA_MAGIC: uint32 := 0x4F46_4341
  const METADATA_VERSION: uint32 := 1
  const ERASED: uint32 := 0xFFFF_FFFF

  /** programmed lists the words programmed since the last erase. */
  datatype Flash = Flash(words: seq<uint32>, programmed: seq<nat>)

  /** What the hardware answers; residue is what a word holds after a failure or after being programmed twice. */
  datatype ProgramReply = ProgramReply(ok: bool, residue: uint32)

  datatype FlashReplies = FlashReplies(unlock: bool, lock: bool, programs: seq<ProgramReply>)

  datatype EraseReplies = EraseReplies(unlock: bool, lock: bool, erased: bool, residue: seq<uint32>)

  datatype Write = Write(index: nat, value: uint32)

  predicate FlashInv(f: Flash) {
    |f.words| == FLASH_WORDS
  }

  function Blank(): (words: seq<uint32>)
    ensures |words| == FLASH_WORDS && forall i :: 0 <= i < FLASH_WORDS ==> words[i] == ERASED
  {
    seq(FLASH_WORDS, i => ERASED)
  }

  function Erase(f: Flash, r: EraseReplies): (result: (Flash, bool)) {
    if !r.unlock then (f, false)
    else if r.erased then (Flash(Blank(), []), r.lock)
    else (f.(words := if |r.residue| == FLASH_WORDS then r.residue else f.words), false)
  }

  /** A call beyond the given replies succeeds. */
  function ReplyAt(programs: seq<ProgramReply>, k: nat): (r: ProgramReply) {
    if k < |programs| then programs[k] else ProgramReply(true, ERASED)
  }

  function From(programs: seq<ProgramReply>, k: nat): (r: seq<ProgramReply>) {
    if k < |programs| then programs[k..] else []
  }

  function ProgramWord(f: Flash, w: Write, r: ProgramReply): (f': Flash)
    requires w.index < |f.words|
    ensures |f'.words| == |f.words|
  {
    var content := if r.ok && f.words[w.index] == ERASED then w.value else r.residue;
    Flash(f.words[w.index := content], f.programmed + [w.index])
  }

  predicate InFlash(writes: seq<Write>) {
    forall i :: 0 <= i < |writes| ==> writes[i].index < FLASH_WORDS
  }

  /** Programming one word after another, up to the first failure. */
  function Program(f: Flash, writes: seq<Write>, programs: seq<ProgramReply>): (r: (Flash, bool))
    requires FlashInv(f) && InFlash(writes)
    ensures FlashInv(r.0)
    decreases |writes|
  {
    if writes == [] then (f, true)
    else
      var f' := ProgramWord(f, writes[0], ReplyAt(programs, 0));
      if !ReplyAt(programs, 0).ok then (f', false) else Program(f', writes[1..], From(programs, 1))
  }

  /** After k successful calls the device is in state now, with the rest of the list to come. */
  predicate Remains(f: Flash, writes: seq<Write>, programs: seq<ProgramReply>, k: nat, now: Flash)
    requires FlashInv(f) && InFlash(writes) && k <= |writes|
  {
    FlashInv(now) && Program(f, writes, programs) == Program(now, writes[k..], From(programs, k))
  }

  lemma RemainsAtStart(f: Flash, writes: seq<Write>, programs: seq<ProgramReply>)
    requires FlashInv(f) && InFlash(writes)
    ensures Remains(f, writes, programs, 0, f)
  {
    assert writes[0..] == writes && From(programs, 0) == programs;
  }

  lemma RemainsAtEnd(f: Flash, writes: seq<Write>, programs: seq<ProgramReply>, now: Flash)
    requires FlashInv(f) && InFlash(writes) && Remains(f, writes, programs, |writes|, now)
    ensures Program(f, writes, programs) == (now, true)
  {
  }

  /* ---------------- words and bytes ---------------- */

  function Rounded(length: nat): (words: nat)
    ensures 4 * words - 4 < length <= 4 * words || length == words == 0
  {
    (length + 3) / 4
  }

  /** Four bytes of the data as a word; missing ones read as erased. */
  function WordAt(data: Buffer, k: nat): (w: uint32)
    requires 4 * k < |data|
  {
    GetU32(if 4 * k + 4 <= |data| then data[4 * k..4 * k + 4] else data[4 * k..] + [255, 255, 255], 0)
  }

  function WordsOf(data: Buffer): (words: seq<uint32>)
    ensures |words| == Rounded(|data|)
  {
    seq(Rounded(|data|), k requires 0 <= k < Rounded(|data|) => WordAt(data, k))
  }

  function WordWrites(at: nat, data: Buffer): (writes: seq<Write>)
    ensures |writes| == Rounded(|data|)
    ensures forall k :: 0 <= k < |writes| ==> writes[k] == Write(at + k, WordAt(data, k))
  {
    seq(Rounded(|data|), k requires 0 <= k < Rounded(|data|) => Write(at + k, WordAt(data, k)))
  }

  function FlashWrite(f: Flash, offset: nat, data: Buffer, r: FlashReplies): (result: (Flash, bool))
    requires FlashInv(f)
    ensures FlashInv(result.0)
  {
    if data == [] || offset % 4 != 0 || offset > MAXIMUM_LENGTH || |data| > MAXIMUM_LENGTH - offset || !r.unlock then
      (f, false)
    else
      var (f', ok) := Program(f, WordWrites(offset / 4, data), r.programs);
      (f', ok && r.lock)
  }

  /** The magic word, which makes the rest count, comes last. */
  function CommitWrites(length: uint32, crc: uint32): (writes: seq<Write>) {
    [Write(METADATA_WORD + 1, METADATA_VERSION), Write(METADATA_WORD + 2, length), Write(METADATA_WORD + 3, crc),
     Write(METADATA_WORD, METADATA_MAGIC)]
  }

  function Commit(f: Flash, length: uint32, crc: uint32, r: FlashReplies): (result: (Flash, bool))
    requires FlashInv(f)
    ensures FlashInv(result.0)
  {
    if length < 8 || length > MAXIMUM_LENGTH || !r.unlock then (f, false)
    else
      var (f', ok) := Program(f, CommitWrites(length, crc), r.programs);
      (f', ok && r.lock)
  }

  /* ---------------- the image ---------------- */

  /** The first length bytes of the application area. */
  function ImageBytes(words: seq<uint32>, length: nat): (image: Buffer)
    requires Rounded(length) <= |words|
    ensures |image| == length
  {
    Pack(words[..Rounded(length)])[..length]
  }

  predicate StackPointerIsValid(pointer: uint32) {
    0x2000_0000 <= pointer <= 0x2002_0000 || 0x1000_0000 <= pointer <= 0x1001_0000
  }

  predicate ResetHandlerIsValid(handler: uint32) {
    handler % 2 == 1 && APPLICATION_START <= handler - 1 < METADATA_ADDRESS
  }

  predicate ApplicationIsValid(words: seq<uint32>)
    requires |words| == FLASH_WORDS
  {
    && words[METADATA_WORD] == METADATA_MAGIC
    && words[METADATA_WORD + 1] == METADATA_VERSION
    && 8 <= words[METADATA_WORD + 2] <= MAXIMUM_LENGTH
    && StackPointerIsValid(words[0])
    && ResetHandlerIsValid(words[1])
    && Crc32(ImageBytes(words, words[METADATA_WORD + 2])) == words[METADATA_WORD + 3]
  }

  /* ---------------- what programming does ---------------- */

  /** Only the listed words change. */
  lemma {:induction false} ProgramTouches(f: Flash, writes: seq<Write>, programs: seq<ProgramReply>, i: nat)
    requires FlashInv(f) && InFlash(writes) && i < FLASH_WORDS
    requires forall k :: 0 <= k < |writes| ==> writes[k].index != i
    ensures Program(f, writes, programs).0.words[i] == f.words[i]
    decreases |writes|
  {
    if writes != [] && ReplyAt(programs, 0).ok {
      ProgramTouches(ProgramWord(f, writes[0], ReplyAt(programs, 0)), writes[1..], From(programs, 1), i);
    }
  }

  /** The first n program calls succeed. */
  predicate Succeeds(programs: seq<ProgramReply>, n: nat) {
    forall k :: 0 <= k < n ==> ReplyAt(programs, k).ok
  }

  function Indices(writes: seq<Write>): (r: seq<nat>)
    ensures |r| == |writes|
  {
    seq(|writes|, k requires 0 <= k < |writes| => writes[k].index)
  }

  /** Programming reports success exactly if every call succeeded, and any call at all is on record. */
  lemma {:induction false} ProgramReports(f: Flash, writes: seq<Write>, programs: seq<ProgramReply>)
    requires FlashInv(f) && InFlash(writes)
    ensures Program(f, writes, programs).1 <==> Succeeds(programs, |writes|)
    ensures |Program(f, writes, programs).0.programmed| >= |f.programmed| + (if writes == [] then 0 else 1)
    ensures Succeeds(programs, |writes|) ==> Program(f, writes, programs).0.programmed == f.programmed + Indices(writes)
    decreases |writes|
  {
    if writes == [] {
      assert f.programmed + Indices(writes) == f.programmed;
    } else if ReplyAt(programs, 0).ok {
      ProgramReports(ProgramWord(f, writes[0], ReplyAt(programs, 0)), writes[1..], From(programs, 1));
      LaterSucceeds(programs, |writes|);
      assert Indices(writes) == [writes[0].index] + Indices(writes[1..]);
      assert f.programmed + [writes[0].index] + Indices(writes[1..]) == f.programmed + Indices(writes);
    }
  }

  lemma LaterSucceeds(programs: seq<ProgramReply>, n: nat)
    requires n > 0
    ensures Succeeds(programs, n) <==> ReplyAt(programs, 0).ok && Succeeds(From(programs, 1), n - 1)
  {
    assert forall k :: 0 <= k < n - 1 ==> ReplyAt(From(programs, 1), k) == ReplyAt(programs, k + 1);
    if Succeeds(From(programs, 1), n - 1) {
      forall k | 1 <= k < n
        ensures ReplyAt(programs, k) == ReplyAt(From(programs, 1), k - 1)
      {
      }
    }
  }

  predicate DistinctErased(f: Flash, writes: seq<Write>)
    requires FlashInv(f) && InFlash(writes)
  {
    && (forall k :: 0 <= k < |writes| ==> f.words[writes[k].index] == ERASED)
    && (forall j, k :: 0 <= j < k < |writes| ==> writes[j].index != writes[k].index)
  }

  /** Without failures, distinct erased words all take their values, one program call each. */
  lemma {:induction false} ProgramStores(f: Flash, writes: seq<Write>, programs: seq<ProgramReply>, k: nat)
    requires FlashInv(f) && InFlash(writes) && DistinctErased(f, writes) && Succeeds(programs, |writes|)
    ensures Program(f, writes, programs).1
    ensures Program(f, writes, programs).0.programmed == f.programmed + Indices(writes)
    ensures k < |writes| ==> Program(f, writes, programs).0.words[writes[k].index] == writes[k].value
    decreases |writes|
  {
    if writes == [] {
      assert f.programmed + Indices(writes) == f.programmed;
    } else {
      var w := writes[0];
      LaterSucceeds(programs, |writes|);
      var f' := ProgramWord(f, w, ReplyAt(programs, 0));
      assert Indices(writes) == [w.index] + Indices(writes[1..]);
      assert f.programmed + [w.index] + Indices(writes[1..]) == f.programmed + Indices(writes);
      ProgramStores(f', writes[1..], From(programs, 1), if k > 0 then k - 1 else 0);
      if k == 0 {
        ProgramTouches(f', writes[1..], From(programs, 1), w.index);
      }
    }
  }

  /* ---------------- power cuts ---------------- */

  /** Whatever the hardware answers, a word no call has gone to since the erase is still erased. */
  predicate Untouched(f: Flash)
    requires FlashInv(f)
  {
    forall i :: 0 <= i < FLASH_WORDS && i !in f.programmed ==> f.words[i] == ERASED
  }

  lemma {:induction false} ProgramKeepsUntouched(f: Flash, writes: seq<Write>, programs: seq<ProgramReply>)
    requires FlashInv(f) && InFlash(writes) && Untouched(f)
    ensures Untouched(Program(f, writes, programs).0)
    ensures f.programmed <= Program(f, writes, programs).0.programmed <= f.programmed + Indices(writes)
    decreases |writes|
  {
    if writes != [] {
      var f' := ProgramWord(f, writes[0], ReplyAt(programs, 0));
      assert Indices(writes) == [writes[0].index] + Indices(writes[1..]);
      assert f'.programmed + Indices(writes[1..]) == f.programmed + Indices(writes);
      ProgramKeepsUntouched(f', writes[1..], From(programs, 1));
    }
  }

  /* ---------------- bytes of a programmed stretch ---------------- */

  lemma U32OfGet(b: Buffer)
    requires |b| == 4
    ensures U32(GetU32(b, 0)) == b
  {
    var b0: nat, b1: nat, b2: nat, b3: nat := b[0], b[1], b[2], b[3];
    var low := b0 + 0x100 * b1;
    var high := b2 + 0x100 * b3;
    assert GetU32(b, 0) == low + 0x1_0000 * high;
    assert GetU32(b, 0) / 0x100 == b1 + 0x100 * high;
    assert GetU32(b, 0) / 0x1_0000 == high;
    assert GetU32(b, 0) / 0x100_0000 == b3;
  }

  lemma {:induction false} PackAppend(a: seq<uint32>, b: seq<uint32>)
    ensures Pack(a + b) == Pack(a) + Pack(b)
    decreases |b|
  {
    if b == [] {
      assert a + b == a;
    } else {
      PackAppend(a, b[..|b| - 1]);
      assert (a + b)[..|a + b| - 1] == a + b[..|b| - 1];
    }
  }

  /** Reading the words of some data back as bytes gives the data. */
  lemma WordsHoldData(data: Buffer)
    ensures Pack(WordsOf(data))[..|data|] == data
  {
    var words := WordsOf(data);
    forall i | 0 <= i < |data|
      ensures Pack(words)[i] == data[i]
    {
      var k := i / 4;
      PackField(words, k);
      var piece := if 4 * k + 4 <= |data| then data[4 * k..4 * k + 4] else (data[4 * k..] + [255, 255, 255])[..4];
      assert GetU32(piece, 0) == WordAt(data, k);
      U32OfGet(piece);
      assert Pack(words)[i] == Pack(words)[4 * k..4 * k + 4][i - 4 * k];
    }
  }

  /* ---------------- the device ---------------- */

  class FlashMemory {
    const cells: array<uint32>
    ghost var programmed: seq<nat>

    ghost predicate Valid()
    {
      cells.Length == FLASH_WORDS
    }

    ghost function View(): (f: Flash)
      reads this, cells
    {
      Flash(cells[..], programmed)
    }

    constructor (contents: array<uint32>)
      requires contents.Length == FLASH_WORDS
      ensures Valid() && cells == contents && View() == Flash(contents[..], [])
    {
      cells := contents;
      programmed := [];
    }

    method EraseSectors(r: EraseReplies) returns (ok: bool)
      requires Valid()
      modifies this, cells
      ensures (View(), ok) == Erase(old(View()), r)
    {
      if !r.unlock {
        return false;
      }
      if r.erased {
        forall i | 0 <= i < cells.Length {
          cells[i] := ERASED;
        }
        programmed := [];
        assert cells[..] == Blank();
        return r.lock;
      }
      if |r.residue| == cells.Length {
        forall i | 0 <= i < cells.Length {
          cells[i] := r.residue[i];
        }
        assert cells[..] == r.residue;
      }
      return false;
    }

    /** One program call of a list that started from f. */
    method ProgramNext(ghost f: Flash, ghost writes: seq<Write>, k: nat, index: nat, value: uint32,
                       programs: seq<ProgramReply>) returns (ok: bool)
      requires Valid() && FlashInv(f) && InFlash(writes)
      requires k < |writes| && writes[k] == Write(index, value)
      requires Remains(f, writes, programs, k, View())
      modifies this, cells
      ensures if ok then Remains(f, writes, programs, k + 1, View())
              else Program(f, writes, programs) == (View(), false)
    {
      var r := ReplyAt(programs, k);
      assert writes[k..][1..] == writes[k + 1..];
      cells[index] := if r.ok && cells[index] == ERASED then value else r.residue;
      programmed := programmed + [index];
      return r.ok;
    }

    /** Up to four bytes from position on, the rest read as erased. */
    method LoadWord(data: array<byte>, position: nat, length: nat) returns (word: uint32)
      requires position < length <= data.Length && position % 4 == 0
      ensures word == WordAt(data[..length], position / 4)
    {
      var copied := Min(length - position, 4);
      var bytes := data[position..position + copied];
      if copied < 4 {
        bytes := bytes + [255, 255, 255];
      }
      assert 4 * (position / 4) == position;
      assert data[..length][position..position + copied] == data[position..position + copied];
      return GetU32(bytes, 0);
    }

    method WriteData(offset: nat, data: array<byte>, length: nat, r: FlashReplies) returns (ok: bool)
      requires Valid() && length <= data.Length
      modifies this, cells
      ensures (View(), ok) == FlashWrite(old(View()), offset, data[..length], r)
    {
      hide WordAt, Remains, Program;
      if length == 0 || offset % 4 != 0 || offset > MAXIMUM_LENGTH || length > MAXIMUM_LENGTH - offset || !r.unlock {
        return false;
      }
      ghost var f := View();
      ghost var writes := WordWrites(offset / 4, data[..length]);
      RemainsAtStart(f, writes, r.programs);
      var word, position := 0, 0;
      ok := true;
      while position < length && ok
        invariant word <= |writes| && position == Min(4 * word, length)
        invariant if ok then Remains(f, writes, r.programs, word, View())
                  else Program(f, writes, r.programs) == (View(), false)
        decreases length - position, ok
      {
        var value := LoadWord(data, position, length);
        ok := ProgramNext(f, writes, word, offset / 4 + word, value, r.programs);
        word := word + 1;
        position := position + Min(length - position, 4);
      }
      if ok {
        RemainsAtEnd(f, writes, r.programs, View());
      }
      return ok && r.lock;
    }

    method CommitMetadata(length: uint32, crc: uint32, r: FlashReplies) returns (ok: bool)
      requires Valid()
      modifies this, cells
      ensures (View(), ok) == Commit(old(View()), length, crc, r)
    {
      if length < 8 || length > MAXIMUM_LENGTH || !r.unlock {
        return false;
      }
      hide Remains, Program;
      ghost var f, writes := View(), CommitWrites(length, crc);
      RemainsAtStart(f, writes, r.programs);
      ok := ProgramNext(f, writes, 0, METADATA_WORD + 1, METADATA_VERSION, r.programs);
      if ok {
        ok := ProgramNext(f, writes, 1, METADATA_WORD + 2, length, r.programs);
      }
      if ok {
        ok := ProgramNext(f, writes, 2, METADATA_WORD + 3, crc, r.programs);
      }
      if ok {
        ok := ProgramNext(f, writes, 3, METADATA_WORD, METADATA_MAGIC, r.programs);
      }
      if ok {
        RemainsAtEnd(f, writes, r.programs, View());
      }
      return ok && r.lock;
    }

    /** The checksum of the first length bytes of the application area. */
    method ImageChecksum(length: nat) returns (crc: uint32)
      requires Valid() && length <= MAXIMUM_LENGTH
      ensures crc == Crc32(ImageBytes(cells[..], length))
    {
      hide Crc32, Pack;
      var bytes := new byte[length];
      for i := 0 to length
        invariant forall k :: 0 <= k < i ==> bytes[k] == ImageBytes(cells[..], length)[k]
      {
        PackField(cells[..][..Rounded(length)], i / 4);
        bytes[i] := U32(cells[i / 4])[i % 4];
      }
      assert bytes[..length] == ImageBytes(cells[..], length);
      crc := ComputeCrc32(bytes, length);
    }

    method CheckApplication() returns (valid: bool)
      requires Valid()
      ensures valid == ApplicationIsValid(cells[..])
    {
      hide Crc32;
      var length := cells[METADATA_WORD + 2];
      if cells[METADATA_WORD] != METADATA_MAGIC || cells[METADATA_WORD + 1] != METADATA_VERSION ||
         length < 8 || length > MAXIMUM_LENGTH || !StackPointerIsValid(cells[0]) || !ResetHandlerIsValid(cells[1]) {
        return false;
      }
      var crc := ImageChecksum(length);
      return crc == cells[METADATA_WORD + 3];
    }
  }
}
