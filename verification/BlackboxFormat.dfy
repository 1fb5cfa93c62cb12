/** The sectors of the flight log: blocks, superblocks and catalogue pages. */
module BlackboxFormat {
  import opened Counters
  import opened Bytes

  const SECTOR_SIZE: nat := 512
  const BLOCK_MAGIC: uint32 := 0x4243_464F
  const SUPERBLOCK_MAGIC: uint32 := 0x5343_464F
  const CATALOG_MAGIC: uint32 := 0x4343_464F
  const FORMAT_VERSION: nat := 2
  const HEADER_SIZE: nat := 20
  const CRC_OFFSET: nat := 508
  const PAYLOAD_CAPACITY: nat := 488
  const FIRST_CATALOG_SECTOR: nat := 2
  const CATALOG_PAGE_COUNT: nat := 1024
  const ENTRIES_PER_PAGE: nat := 20
  const LOG_CAPACITY: nat := 20480
  const FIRST_DATA_SECTOR: nat := 1026
  const CATALOG_HEADER_SIZE: nat := 16
  const ENTRY_SIZE: nat := 24

  type Sector = s: Buffer | |s| == 512 witness seq(512, i => 0)

  function ZeroSector(): (s: Sector) {
    seq(512, i => 0)
  }

  /** Stores the checksum of everything before it. */
  function Seal(s: Sector): (r: Sector)
    ensures r[..CRC_OFFSET] == s[..CRC_OFFSET]
  {
    Put(s, CRC_OFFSET, U32(Crc32(s[..CRC_OFFSET])))
  }

  predicate Sealed(s: Sector) {
    GetU32(s, CRC_OFFSET) == Crc32(s[..CRC_OFFSET])
  }

  lemma SealIsSealed(s: Sector)
    ensures Sealed(Seal(s))
  {
    hide Crc32, U32;
    var r := Seal(s);
    assert r[CRC_OFFSET..CRC_OFFSET + 4] == U32(Crc32(s[..CRC_OFFSET]));
    U32RoundTrip(r, CRC_OFFSET, Crc32(s[..CRC_OFFSET]));
  }

  lemma SameStretch(a: Buffer, b: Buffer, n: nat, low: nat, high: nat)
    requires low <= high <= n <= |a| && n <= |b| && a[..n] == b[..n]
    ensures a[low..high] == b[low..high]
  {
    assert a[low..high] == a[..n][low..high] && b[low..high] == b[..n][low..high];
  }

  lemma PutLeaves(s: Buffer, at: nat, b: Buffer, low: nat, high: nat)
    requires at + |b| <= low <= high <= |s|
    ensures Put(s, at, b)[low..high] == s[low..high]
  {
  }

  /** Reading a field inside an unchanged region reads the same value. */
  lemma SameFieldWithin(a: Buffer, b: Buffer, at: nat, size: nat, k: nat)
    requires at + size <= |a| && at + size <= |b| && a[at..at + size] == b[at..at + size] && k + 4 <= size
    ensures GetU32(a, at + k) == GetU32(b, at + k)
  {
    assert a[at + k] == a[at..at + size][k] && b[at + k] == b[at..at + size][k];
    assert a[at + k + 1] == a[at..at + size][k + 1] && b[at + k + 1] == b[at..at + size][k + 1];
    assert a[at + k + 2] == a[at..at + size][k + 2] && b[at + k + 2] == b[at..at + size][k + 2];
    assert a[at + k + 3] == a[at..at + size][k + 3] && b[at + k + 3] == b[at..at + size][k + 3];
  }

  /* ---------------- log blocks ---------------- */

  const FLIGHT_HEADER: nat := 1
  const CONFIGURATION: nat := 2
  const SAMPLES: nat := 3
  const FLIGHT_FOOTER: nat := 4

  type Kind = k: nat | k < 0x1_0000

  type Length = n: nat | n <= 488

  datatype Block = Block(version: nat, kind: nat, logId: uint32, sequence: uint32, items: nat, payload: Buffer)

  function BlockHeader(kind: Kind, logId: uint32, sequence: uint32, items: Kind, length: Length): (h: Buffer)
    ensures |h| == HEADER_SIZE
  {
    U32(BLOCK_MAGIC) + U16(FORMAT_VERSION) + U16(kind) + U32(logId) + U32(sequence) + U16(items) + U16(length)
  }

  /** The firmware's printer: header and checksum around the payload already in the buffer. */
  function Finalize(s: Sector, kind: Kind, logId: uint32, sequence: uint32, items: Kind, length: Length): (r: Sector) {
    Seal(Put(s, 0, BlockHeader(kind, logId, sequence, items, length)))
  }

  /** The host's parser; None where it raises an error. */
  function ParseBlock(s: Buffer): (b: Option<Block>) {
    if |s| != SECTOR_SIZE || s[..4] != U32(BLOCK_MAGIC) then None
    else
      var version, length := GetU16(s, 4), GetU16(s, 18);
      if !(version == 1 || version == 2) || length > PAYLOAD_CAPACITY || !Sealed(s) then None
      else
        Some(Block(version, GetU16(s, 6), GetU32(s, 8), GetU32(s, 12), GetU16(s, 16),
                   s[HEADER_SIZE..HEADER_SIZE + length]))
  }

  lemma HeaderFields(s: Buffer, kind: Kind, logId: uint32, sequence: uint32, items: Kind, length: Length)
    requires HEADER_SIZE <= |s| && s[..HEADER_SIZE] == BlockHeader(kind, logId, sequence, items, length)
    ensures s[..4] == U32(BLOCK_MAGIC) && GetU16(s, 4) == FORMAT_VERSION && GetU16(s, 6) == kind
    ensures GetU32(s, 8) == logId && GetU32(s, 12) == sequence && GetU16(s, 16) == items && GetU16(s, 18) == length
  {
    hide U32, U16, GetU32, GetU16;
    var h := s[..HEADER_SIZE];
    assert s[..4] == h[..4] == U32(BLOCK_MAGIC);
    assert s[4..6] == h[4..6] == U16(FORMAT_VERSION);
    assert s[6..8] == h[6..8] == U16(kind);
    assert s[8..12] == h[8..12] == U32(logId);
    assert s[12..16] == h[12..16] == U32(sequence);
    assert s[16..18] == h[16..18] == U16(items);
    assert s[18..20] == h[18..20] == U16(length);
    U16RoundTrip(s, 4, FORMAT_VERSION);
    U16RoundTrip(s, 6, kind);
    U32RoundTrip(s, 8, logId);
    U32RoundTrip(s, 12, sequence);
    U16RoundTrip(s, 16, items);
    U16RoundTrip(s, 18, length);
  }

  /** Whatever follows the payload in the buffer, the host reads back what the firmware finalized. */
  lemma FinalizeParses(s: Sector, kind: Kind, logId: uint32, sequence: uint32, items: Kind, length: Length)
    ensures ParseBlock(Finalize(s, kind, logId, sequence, items, length)) ==
            Some(Block(FORMAT_VERSION, kind, logId, sequence, items, s[HEADER_SIZE..HEADER_SIZE + length]))
  {
    hide U32, U16, GetU32, GetU16, BlockHeader, Seal, Sealed, Crc32;
    var header := BlockHeader(kind, logId, sequence, items, length);
    var put := Put(s, 0, header);
    var r := Finalize(s, kind, logId, sequence, items, length);
    SealIsSealed(put);
    SameStretch(r, put, CRC_OFFSET, 0, HEADER_SIZE);
    assert r[..HEADER_SIZE] == put[0..HEADER_SIZE] == header;
    HeaderFields(r, kind, logId, sequence, items, length);
    SameStretch(r, put, CRC_OFFSET, HEADER_SIZE, HEADER_SIZE + length);
    PutLeaves(s, 0, header, HEADER_SIZE, HEADER_SIZE + length);
  }

  /** A sealed sector damaged in any single byte no longer checks out, in the checksum as elsewhere. */
  lemma DamagedSectorIsRejected(s: Sector, i: nat, x: byte)
    requires Sealed(s) && i < SECTOR_SIZE && x != s[i]
    ensures !Sealed(s[i := x]) && ParseBlock(s[i := x]) == None
  {
    hide Crc32, GetU16;
    var r := s[i := x];
    if i < CRC_OFFSET {
      DamagedByteIsNoticed(s[..CRC_OFFSET], i, x);
      assert r[..CRC_OFFSET] == s[..CRC_OFFSET][i := x];
    } else {
      assert r[..CRC_OFFSET] == s[..CRC_OFFSET];
    }
  }

  /* ---------------- superblocks ---------------- */

  datatype Superblock = Superblock(generation: uint32, nextSector: uint32, nextLogId: uint32, logCount: uint32)

  function SuperblockWords(b: Superblock): (w: seq<uint32>) {
    [SUPERBLOCK_MAGIC, FORMAT_VERSION, b.generation, b.nextSector, b.nextLogId, b.logCount]
  }

  function BuildSuperblock(b: Superblock): (s: Sector) {
    Seal(Put(ZeroSector(), 0, Pack(SuperblockWords(b))))
  }

  predicate SuperblockValid(s: Sector) {
    GetU32(s, 0) == SUPERBLOCK_MAGIC && GetU32(s, 4) == FORMAT_VERSION && Sealed(s)
  }

  function LoadSuperblock(s: Sector): (b: Superblock) {
    Superblock(GetU32(s, 8), GetU32(s, 12), GetU32(s, 16), GetU32(s, 20))
  }

  lemma {:induction false} Window(s: Buffer, at: nat, size: nat, from: nat, length: nat)
    requires at + size <= |s| && from + length <= size
    ensures s[at..at + size][from..from + length] == s[at + from..at + from + length]
  {
    var inner, window := s[at..at + size][from..from + length], s[at + from..at + from + length];
    forall k | 0 <= k < length
      ensures inner[k] == window[k]
    {
      assert s[at..at + size][from + k] == s[at + (from + k)];
    }
  }

  /** A word written at a known place is read back from there. */
  lemma {:induction false} PackedWord(s: Buffer, at: nat, words: seq<uint32>, i: nat)
    requires at + 4 * |words| <= |s| && s[at..at + 4 * |words|] == Pack(words) && i < |words|
    ensures GetU32(s, at + 4 * i) == words[i]
  {
    hide U32, GetU32, Pack;
    PackField(words, i);
    Window(s, at, 4 * |words|, 4 * i, 4);
    U32RoundTrip(s, at + 4 * i, words[i]);
  }

  lemma SuperblockRoundTrip(b: Superblock)
    ensures SuperblockValid(BuildSuperblock(b)) && LoadSuperblock(BuildSuperblock(b)) == b
  {
    hide Pack, GetU32, Seal, Sealed;
    var words := SuperblockWords(b);
    var put := Put(ZeroSector(), 0, Pack(words));
    var r := BuildSuperblock(b);
    SealIsSealed(put);
    assert r[0..24] == r[..CRC_OFFSET][0..24] == put[0..24] == Pack(words);
    PackedWord(r, 0, words, 0);
    PackedWord(r, 0, words, 1);
    PackedWord(r, 0, words, 2);
    PackedWord(r, 0, words, 3);
    PackedWord(r, 0, words, 4);
    PackedWord(r, 0, words, 5);
  }

  /* ---------------- catalogue pages ---------------- */

  datatype LogInfo = LogInfo(
    id: uint32, startSector: uint32, endSector: uint32, samples: uint32, dropped: uint32, complete: bool)

  type Slot = n: nat | n < 20

  function EntryWords(e: LogInfo): (w: seq<uint32>) {
    [e.id, e.startSector, e.endSector, e.samples, e.dropped, if e.complete then 1 else 0]
  }

  function EntryOffset(slot: Slot): (n: nat) {
    CATALOG_HEADER_SIZE + slot * ENTRY_SIZE
  }

  function PutEntry(page: Sector, slot: Slot, e: LogInfo): (r: Sector) {
    Put(page, EntryOffset(slot), Pack(EntryWords(e)))
  }

  function EntryOf(page: Sector, slot: Slot): (e: LogInfo) {
    var at := EntryOffset(slot);
    LogInfo(GetU32(page, at), GetU32(page, at + 4), GetU32(page, at + 8), GetU32(page, at + 12), GetU32(page, at + 16),
            GetU32(page, at + 20) != 0)
  }

  function NewPage(index: uint32): (p: Sector) {
    Put(ZeroSector(), 0, Pack([CATALOG_MAGIC, FORMAT_VERSION, index]))
  }

  /** The entry count and the checksum go in last. */
  function SealPage(page: Sector, entryCount: uint32): (r: Sector) {
    Seal(Put(page, 12, U32(entryCount)))
  }

  predicate HeadedPage(page: Sector, index: nat) {
    GetU32(page, 0) == CATALOG_MAGIC && GetU32(page, 4) == FORMAT_VERSION && GetU32(page, 8) == index
  }

  predicate PageValid(page: Sector, index: nat) {
    HeadedPage(page, index) && Sealed(page)
  }

  lemma NewPageIsHeaded(index: uint32)
    ensures HeadedPage(NewPage(index), index)
  {
    hide Pack, GetU32;
    var words: seq<uint32> := [CATALOG_MAGIC, FORMAT_VERSION, index];
    assert NewPage(index)[0..12] == Pack(words);
    PackedWord(NewPage(index), 0, words, 0);
    PackedWord(NewPage(index), 0, words, 1);
    PackedWord(NewPage(index), 0, words, 2);
  }

  lemma SameEntry(a: Sector, b: Sector, slot: Slot)
    requires a[EntryOffset(slot)..EntryOffset(slot) + ENTRY_SIZE] ==
             b[EntryOffset(slot)..EntryOffset(slot) + ENTRY_SIZE]
    ensures EntryOf(a, slot) == EntryOf(b, slot)
  {
    hide GetU32;
    var at := EntryOffset(slot);
    SameFieldWithin(a, b, at, ENTRY_SIZE, 0);
    SameFieldWithin(a, b, at, ENTRY_SIZE, 4);
    SameFieldWithin(a, b, at, ENTRY_SIZE, 8);
    SameFieldWithin(a, b, at, ENTRY_SIZE, 12);
    SameFieldWithin(a, b, at, ENTRY_SIZE, 16);
    SameFieldWithin(a, b, at, ENTRY_SIZE, 20);
  }

  lemma SameHeading(a: Sector, b: Sector, index: nat)
    requires a[..12] == b[..12] && HeadedPage(a, index)
    ensures HeadedPage(b, index)
  {
    hide GetU32;
    assert a[0..12] == a[..12] && b[0..12] == b[..12];
    SameFieldWithin(a, b, 0, 12, 0);
    SameFieldWithin(a, b, 0, 12, 4);
    SameFieldWithin(a, b, 0, 12, 8);
  }

  /** Storing an entry stores exactly that entry. */
  lemma PutEntryRoundTrip(page: Sector, slot: Slot, e: LogInfo, index: nat)
    ensures EntryOf(PutEntry(page, slot, e), slot) == e
    ensures forall other: Slot | other != slot :: EntryOf(PutEntry(page, slot, e), other) == EntryOf(page, other)
    ensures HeadedPage(page, index) ==> HeadedPage(PutEntry(page, slot, e), index)
  {
    hide Pack, GetU32, EntryOf, HeadedPage;
    var words := EntryWords(e);
    var r := PutEntry(page, slot, e);
    var at := EntryOffset(slot);
    assert EntryOf(r, slot) == e by {
      assert r[at..at + 4 * |words|] == Pack(words);
      StoredEntry(r, slot, e);
    }
    forall other: Slot | other != slot
      ensures EntryOf(r, other) == EntryOf(page, other)
    {
      assert other < slot || slot < other;
      var o := EntryOffset(other);
      assert o + ENTRY_SIZE <= at || at + ENTRY_SIZE <= o;
      assert r[o..o + ENTRY_SIZE] == page[o..o + ENTRY_SIZE];
      SameEntry(r, page, other);
    }
    if HeadedPage(page, index) {
      assert r[..12] == page[..12];
      SameHeading(page, r, index);
    }
  }

  lemma StoredEntry(page: Sector, slot: Slot, e: LogInfo)
    requires page[EntryOffset(slot)..EntryOffset(slot) + ENTRY_SIZE] == Pack(EntryWords(e))
    ensures EntryOf(page, slot) == e
  {
    hide Pack, GetU32;
    var words := EntryWords(e);
    var at := EntryOffset(slot);
    PackedWord(page, at, words, 0);
    PackedWord(page, at, words, 1);
    PackedWord(page, at, words, 2);
    PackedWord(page, at, words, 3);
    PackedWord(page, at, words, 4);
    PackedWord(page, at, words, 5);
  }

  /** Sealing a headed page makes it valid and keeps its entries. */
  lemma SealPageKeeps(page: Sector, entryCount: uint32, index: nat)
    requires HeadedPage(page, index)
    ensures PageValid(SealPage(page, entryCount), index)
    ensures forall slot: Slot :: EntryOf(SealPage(page, entryCount), slot) == EntryOf(page, slot)
  {
    hide GetU32, U32, Seal, Sealed, HeadedPage, EntryOf;
    var put := Put(page, 12, U32(entryCount));
    var r := SealPage(page, entryCount);
    SealIsSealed(put);
    assert r[..12] == r[..CRC_OFFSET][..12] == page[..12];
    SameHeading(page, r, index);
    forall slot: Slot
      ensures EntryOf(r, slot) == EntryOf(page, slot)
    {
      var at := EntryOffset(slot);
      assert 16 <= at && at + ENTRY_SIZE <= CRC_OFFSET;
      SameStretch(r, put, CRC_OFFSET, at, at + ENTRY_SIZE);
      PutLeaves(page, 12, U32(entryCount), at, at + ENTRY_SIZE);
      SameEntry(r, page, slot);
    }
  }
}
