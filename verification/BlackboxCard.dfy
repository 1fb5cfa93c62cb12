/** What a card must look like to be worth mounting, and which single writes keep it so. */
module BlackboxCard {
  import opened Counters
  import opened Bytes
  import opened BlackboxFormat
  import opened BlackboxStore

  /** Every catalogue page and at least the start of the data area, addressable with 32 bits. */
  predicate Geometry(size: nat) {
    FIRST_DATA_SECTOR <= size < MASK32
  }

  /** Sector t holds a block of the log that starts at sector start, numbered by its distance from there. */
  ghost predicate BlockAt(card: Card, t: nat, id: uint32, start: nat) {
    && start <= t < |card| && ParseBlock(card[t]).Some?
    && ParseBlock(card[t]).value.logId == id && ParseBlock(card[t]).value.sequence == t - start
  }

  /** Every sector of the log is a block of that log, numbered from zero. */
  ghost predicate LogSound(card: Card, e: LogInfo) {
    && FIRST_DATA_SECTOR <= e.startSector <= e.endSector < |card|
    && forall t | e.startSector <= t <= e.endSector :: BlockAt(card, t, e.id, e.startSector)
  }

  function PageSector(i: nat): (t: nat)
    requires i < LOG_CAPACITY
    ensures FIRST_CATALOG_SECTOR <= t < FIRST_DATA_SECTOR
  {
    FIRST_CATALOG_SECTOR + i / ENTRIES_PER_PAGE
  }

  /** Entry i of the catalogue as the card holds it. */
  function Listed(card: Card, i: nat): (e: LogInfo)
    requires |card| >= FIRST_DATA_SECTOR && i < LOG_CAPACITY
  {
    EntryOf(card[PageSector(i)], SlotOf(i))
  }

  ghost predicate EntrySound(card: Card, i: nat)
    requires |card| >= FIRST_DATA_SECTOR && i < LOG_CAPACITY
  {
    PageValid(card[PageSector(i)], i / ENTRIES_PER_PAGE) && LogSound(card, Listed(card, i))
  }

  ghost predicate CatalogSound(card: Card, n: nat)
    requires |card| >= FIRST_DATA_SECTOR && n <= LOG_CAPACITY
  {
    forall i | 0 <= i < n :: EntrySound(card, i)
  }

  /** A superblock that lists no more than the sound entries, and was built in one piece. */
  ghost predicate SuperBounded(card: Card, b: nat, n: nat, known: seq<Superblock>)
    requires b < |card|
  {
    SuperblockValid(card[b]) ==>
      var super := LoadSuperblock(card[b]);
      super.logCount <= n && FIRST_DATA_SECTOR <= super.nextSector <= |card| && super in known
  }

  ghost predicate BaseKept(card: Card, base: seq<LogInfo>)
    requires |card| >= FIRST_DATA_SECTOR && |base| <= LOG_CAPACITY
  {
    forall i | 0 <= i < |base| :: Listed(card, i) == base[i]
  }

  /** The card lists n sound logs, the earliest of them exactly as in base. */
  ghost predicate Listing(card: Card, n: nat, base: seq<LogInfo>, known: seq<Superblock>) {
    && Geometry(|card|) && |base| <= n <= LOG_CAPACITY
    && CatalogSound(card, n)
    && SuperBounded(card, 0, n, known) && SuperBounded(card, 1, n, known)
    && (SuperblockValid(card[0]) || SuperblockValid(card[1]))
    && BaseKept(card, base)
  }

  ghost predicate Good(card: Card, base: seq<LogInfo>, known: seq<Superblock>) {
    exists n: nat :: Listing(card, n, base, known)
  }

  /** What remounting such a card finds: one known superblock, whose every log is sound. */
  lemma GoodCardMounts(card: Card, base: seq<LogInfo>, known: seq<Superblock>)
    requires Good(card, base, known)
    ensures Newest(card, true, true).Some?
    ensures var super := Newest(card, true, true).value;
            && super in known && MountedStatus(super, |card|) != Error && super.logCount <= LOG_CAPACITY
            && |base| <= LOG_CAPACITY && BaseKept(card, base)
            && (forall i | 0 <= i < super.logCount :: EntrySound(card, i))
  {
    var n: nat :| Listing(card, n, base, known);
  }

  /* ---------------- the three kinds of write ---------------- */

  lemma SoundElsewhere(card: Card, e: LogInfo, target: nat, data: Sector)
    requires LogSound(card, e) && target < |card|
    requires target < e.startSector || e.endSector < target
    ensures LogSound(card[target := data], e)
  {
    hide ParseBlock;
    var after := card[target := data];
    forall t | e.startSector <= t <= e.endSector
      ensures BlockAt(after, t, e.id, e.startSector)
    {
      assert BlockAt(card, t, e.id, e.startSector);
    }
  }

  lemma DataWriteKeeps(card: Card, n: nat, base: seq<LogInfo>, known: seq<Superblock>, target: nat, data: Sector)
    requires Listing(card, n, base, known)
    requires FIRST_DATA_SECTOR <= target < |card|
    requires forall i | 0 <= i < n :: Listed(card, i).endSector < target
    ensures Listing(card[target := data], n, base, known)
    ensures forall i | 0 <= i < n :: Listed(card[target := data], i) == Listed(card, i)
  {
    hide LogSound, PageValid, SuperblockValid;
    var after := card[target := data];
    forall i | 0 <= i < n
      ensures Listed(after, i) == Listed(card, i) && EntrySound(after, i)
    {
      assert EntrySound(card, i);
      SoundElsewhere(card, Listed(card, i), target, data);
    }
  }

  lemma PageWriteKeeps(card: Card, n: nat, base: seq<LogInfo>, known: seq<Superblock>, p: nat, page: Sector, m: nat)
    requires Listing(card, n, base, known)
    requires p < CATALOG_PAGE_COUNT && PageValid(page, p) && n <= m <= LOG_CAPACITY
    requires forall i | n <= i < m :: i / ENTRIES_PER_PAGE == p
    requires forall i | 0 <= i < m && i / ENTRIES_PER_PAGE == p :: LogSound(card, EntryOf(page, SlotOf(i)))
    requires forall i | 0 <= i < |base| && i / ENTRIES_PER_PAGE == p :: EntryOf(page, SlotOf(i)) == base[i]
    ensures Listing(card[FIRST_CATALOG_SECTOR + p := page], m, base, known)
    ensures forall i | 0 <= i < m ::
              Listed(card[FIRST_CATALOG_SECTOR + p := page], i) ==
              if i / ENTRIES_PER_PAGE == p then EntryOf(page, SlotOf(i)) else Listed(card, i)
  {
    hide LogSound, PageValid, SuperblockValid, EntryOf, SlotOf, LoadSuperblock;
    var target := FIRST_CATALOG_SECTOR + p;
    var after := card[target := page];
    forall i | 0 <= i < m
      ensures EntrySound(after, i)
      ensures Listed(after, i) == if i / ENTRIES_PER_PAGE == p then EntryOf(page, SlotOf(i)) else Listed(card, i)
    {
      if i / ENTRIES_PER_PAGE == p {
        StartIsData(card, EntryOf(page, SlotOf(i)));
        SoundElsewhere(card, EntryOf(page, SlotOf(i)), target, page);
      } else {
        assert EntrySound(card, i);
        StartIsData(card, Listed(card, i));
        SoundElsewhere(card, Listed(card, i), target, page);
      }
    }
  }

  lemma StartIsData(card: Card, e: LogInfo)
    requires LogSound(card, e)
    ensures FIRST_DATA_SECTOR <= e.startSector
  {
  }

  lemma SuperWriteKeeps(card: Card, n: nat, base: seq<LogInfo>, known: seq<Superblock>, b: nat, super: Superblock)
    requires Listing(card, n, base, known) && b < 2
    requires super.logCount <= n && FIRST_DATA_SECTOR <= super.nextSector <= |card| && super in known
    ensures Listing(card[b := BuildSuperblock(super)], n, base, known)
    ensures forall i | 0 <= i < n :: Listed(card[b := BuildSuperblock(super)], i) == Listed(card, i)
  {
    hide LogSound, PageValid, SuperblockValid, EntryOf, SlotOf, LoadSuperblock, BuildSuperblock;
    SuperblockRoundTrip(super);
    var after := card[b := BuildSuperblock(super)];
    forall i | 0 <= i < n
      ensures EntrySound(after, i) && Listed(after, i) == Listed(card, i)
    {
      assert EntrySound(card, i);
      StartIsData(card, Listed(card, i));
      SoundElsewhere(card, Listed(card, i), b, BuildSuperblock(super));
    }
  }

  lemma MoreKnown(card: Card, n: nat, base: seq<LogInfo>, known: seq<Superblock>, more: seq<Superblock>)
    requires Listing(card, n, base, known)
    ensures Listing(card, n, base, known + more)
  {
  }

  /* ---------------- cutting the power anywhere in the queue ---------------- */

  /** The card once all these writes have been done, in order. */
  function Applied(card: Card, writes: seq<Write>): (r: Card)
    ensures |r| == |card|
    decreases |writes|
  {
    if writes == [] then card else Written(Applied(card, writes[..|writes| - 1]), writes[|writes| - 1])
  }

  /** However many of the queued writes are done when the power goes, the card is good. */
  ghost predicate CutsGood(card: Card, writes: seq<Write>, base: seq<LogInfo>, known: seq<Superblock>) {
    forall k | 0 <= k <= |writes| :: Good(Applied(card, writes[..k]), base, known)
  }

  lemma LastApplied(card: Card, writes: seq<Write>, w: Write)
    ensures Applied(card, writes + [w]) == Written(Applied(card, writes), w)
  {
    assert (writes + [w])[..|writes|] == writes;
  }

  lemma OneMoreWrite(card: Card, writes: seq<Write>, w: Write, base: seq<LogInfo>, known: seq<Superblock>)
    requires CutsGood(card, writes, base, known)
    requires Good(Written(Applied(card, writes), w), base, known)
    ensures CutsGood(card, writes + [w], base, known)
  {
    hide Good;
    LastApplied(card, writes, w);
    var all := writes + [w];
    assert all[..|writes|] == writes;
    forall k | 0 <= k <= |all|
      ensures Good(Applied(card, all[..k]), base, known)
    {
      if k <= |writes| {
        assert all[..k] == writes[..k];
      } else {
        assert all[..k] == all;
      }
    }
  }

  lemma {:induction false} FirstWriteDone(card: Card, writes: seq<Write>)
    requires writes != []
    ensures Applied(card, writes) == Applied(Written(card, writes[0]), writes[1..])
    decreases |writes|
  {
    if |writes| > 1 {
      var init := writes[..|writes| - 1];
      FirstWriteDone(card, init);
      assert writes[1..][..|writes| - 2] == init[1..];
    } else {
      assert writes[..0] == [] && writes[1..] == [];
    }
  }

  lemma FirstWriteKeepsCuts(card: Card, writes: seq<Write>, base: seq<LogInfo>, known: seq<Superblock>)
    requires writes != [] && CutsGood(card, writes, base, known)
    ensures CutsGood(Written(card, writes[0]), writes[1..], base, known)
    ensures Applied(card, writes) == Applied(Written(card, writes[0]), writes[1..])
  {
    hide Good;
    FirstWriteDone(card, writes);
    forall k | 0 <= k <= |writes[1..]|
      ensures Good(Applied(Written(card, writes[0]), writes[1..][..k]), base, known)
    {
      FirstWriteDone(card, writes[..k + 1]);
      assert writes[..k + 1][1..] == writes[1..][..k];
      assert Good(Applied(card, writes[..k + 1]), base, known);
    }
  }

  lemma MoreKnownCuts(card: Card, writes: seq<Write>, base: seq<LogInfo>, known: seq<Superblock>, more: seq<Superblock>)
    requires CutsGood(card, writes, base, known)
    ensures CutsGood(card, writes, base, known + more)
  {
    forall k | 0 <= k <= |writes|
      ensures Good(Applied(card, writes[..k]), base, known + more)
    {
      assert Good(Applied(card, writes[..k]), base, known);
      var n: nat :| Listing(Applied(card, writes[..k]), n, base, known);
      MoreKnown(Applied(card, writes[..k]), n, base, known, more);
    }
  }
}
