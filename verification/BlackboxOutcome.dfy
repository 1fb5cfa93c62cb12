/** What the calls around a recording come to: writing, mounting, formatting and looking a log up. */
module BlackboxOutcome {
  import opened Counters
  import opened SystemState
  import opened Bytes
  import opened BlackboxFormat
  import opened BlackboxStore
  import opened BlackboxCard
  import opened BlackboxCrash

  /** The writer gets this many turns, and the card does what it is asked. */
  function Serve(s: Store, card: Card, turns: nat): (r: (Store, Card))
    decreases turns
  {
    if turns == 0 then (s, card)
    else
      var (next, c) := Service(s, card, CardOk);
      Serve(next, c, turns - 1)
  }

  /** The turns a queue takes: one to start each write and one to see it done. */
  function TurnsFor(s: Store): (n: nat) {
    if s.queue == [] then 0 else 2 * |s.queue| - (if s.writeActive then 1 else 0)
  }

  /** In that many turns, and not before, everything queued is on the card, and a log being closed is closed. */
  lemma {:induction false} QueueDrains(s: Store, card: Card)
    requires (s.status == Recording || s.status == Finishing) && s.queue != []
    ensures var (r, c) := Serve(s, card, TurnsFor(s));
            && c == Applied(card, s.queue)
            && r == s.(queue := [], writeActive := false, status := r.status, armedSeen := r.armedSeen)
            && (s.status == Recording ==> r.status == Recording && r.armedSeen == s.armedSeen)
            && (s.status == Finishing ==> r.status == Ready && !r.armedSeen)
    ensures Serve(s, card, TurnsFor(s) - 1).0.queue != []
    decreases |s.queue|
  {
    hide Applied, Written;
    if !s.writeActive {
      DrainsActive(s.(writeActive := true), card);
    } else {
      DrainsActive(s, card);
    }
  }

  lemma {:induction false} DrainsActive(s: Store, card: Card)
    requires (s.status == Recording || s.status == Finishing) && s.queue != [] && s.writeActive
    ensures var (r, c) := Serve(s, card, 2 * |s.queue| - 1);
            && c == Applied(card, s.queue)
            && r == s.(queue := [], writeActive := false, status := r.status, armedSeen := r.armedSeen)
            && (s.status == Recording ==> r.status == Recording && r.armedSeen == s.armedSeen)
            && (s.status == Finishing ==> r.status == Ready && !r.armedSeen)
    ensures Serve(s, card, 2 * |s.queue| - 2).0.queue != []
    decreases |s.queue|
  {
    hide Applied, Written;
    FirstWriteDone(card, s.queue);
    var (next, c) := Service(s, card, CardOk);
    if |s.queue| == 1 {
      assert s.queue[1..] == [];
      NothingToApply(c);
      assert Serve(s, card, 1) == (next, c);
    } else {
      var started := next.(writeActive := true);
      assert Service(next, c, CardOk) == (started, c);
      DrainsActive(started, c);
      TwoTurns(s, card, next, c, started, 2 * |s.queue| - 3);
      TwoTurns(s, card, next, c, started, 2 * |s.queue| - 4);
    }
  }

  lemma NothingToApply(card: Card)
    ensures Applied(card, []) == card
  {
  }

  lemma TwoTurns(s: Store, card: Card, next: Store, c: Card, started: Store, turns: nat)
    requires Service(s, card, CardOk) == (next, c) && Service(next, c, CardOk) == (started, c)
    ensures Serve(s, card, turns + 2) == Serve(started, c, turns)
  {
    hide Service;
    assert Serve(s, card, turns + 2) == Serve(next, c, turns + 1);
  }

  /** A card that is busy changes nothing; one that fails ends recording for good, and its sectors stay as they were. */
  lemma TroubleHasItsOutcome(s: Store, card: Card)
    requires s.queue != []
    ensures Service(s, card, CardBusy) == (s, card)
    ensures var (r, c) := Service(s, card, CardFailed);
            && c == card && r.queue == s.queue && r.status == Error
            && (s.status != Error ==> r == s.(status := Error, writeActive := false))
    ensures s.status == Error ==> forall reply :: Service(s, card, reply) == (s, card)
  {
  }

  /** Which superblock a mount goes by: the one that checks out, of two the newer, of two equal the first. */
  lemma MountsExactly(card: Card, configuration: ConfigurationBytes, firmware: Text, build: Text)
    requires |card| >= 2
    ensures var s := Mount(card, configuration, firmware, build, true, true);
            var first, second := SuperblockValid(card[0]), SuperblockValid(card[1]);
            var a, b := LoadSuperblock(card[0]), LoadSuperblock(card[1]);
            var chosen := if first && (!second || a.generation >= b.generation) then a else b;
            && s.queue == [] && s.configuration == configuration && s.firmware == firmware && s.build == build
            && !s.pageValid && !s.writeActive && !s.armedSeen && s.finishAfter == 0 && s.active == NoLog
            && s.blockSequence == 0 && s.samplesInBlock == 0 && s.captured == 0 && s.dropped == 0
            && s.previousState == Boot
            && (s.status == Uninitialized <==> !first && !second)
            && (!first && !second ==> Snapshot(s) == Superblock(0, FIRST_DATA_SECTOR, 1, 0))
            && (first || second ==>
                  && Snapshot(s) == chosen
                  && (s.status == Error <==>
                        chosen.nextSector < 1026 || chosen.nextSector > |card| || chosen.logCount > 20480)
                  && (s.status == Full <==>
                        && 1026 <= chosen.nextSector <= |card| && chosen.logCount <= 20480
                        && (chosen.nextSector == |card| || chosen.logCount == 20480))
                  && (s.status == Ready <==>
                        1026 <= chosen.nextSector < |card| && chosen.logCount < 20480))
  {
    hide SuperblockValid, LoadSuperblock;
  }

  /** Formatting is refused without a card and during a recording; otherwise it forgets every log, or fails. */
  lemma FormatHasItsOutcome(s: Store, card: Card, first: bool, second: bool)
    requires |card| >= 2
    ensures var (r, c, done) := Format(s, card, first, second);
            var allowed := s.status != NoMedia && s.status != Recording && s.status != Finishing;
            && (done <==> allowed && first && second) && (!allowed ==> r == s && c == card)
            && (allowed ==>
                  && r.queue == [] && r.logCount == 0 && r.nextSector == FIRST_DATA_SECTOR && r.nextLogId == 1
                  && r.generation == (s.generation + 1) % MASK32 && !r.pageValid && !r.writeActive
                  && r.status == (if done then Ready else Error) && r.configuration == s.configuration
                  && (forall t | 2 <= t < |card| :: c[t] == card[t])
                  && c[0] == (if first then BuildSuperblock(Snapshot(r)) else card[0])
                  && c[1] == (if first && second then BuildSuperblock(Snapshot(r)) else card[1]))
  {
    hide BuildSuperblock;
  }

  /** The entry is plausible: it names a log on the card. */
  predicate Plausible(e: LogInfo, size: nat) {
    e.id != 0 && FIRST_DATA_SECTOR <= e.startSector <= e.endSector < size
  }

  /** Looking a log up finds the card's own entry exactly if its page can be read and the entry is plausible. */
  lemma InspectHasItsOutcome(s: Store, card: Card, index: nat, reply: ReadReply)
    requires s.status != Recording && s.logCount <= LOG_CAPACITY && |card| >= FIRST_DATA_SECTOR
    requires s.pageValid ==>
               s.pageIndex < CATALOG_PAGE_COUNT && card[FIRST_CATALOG_SECTOR + s.pageIndex] == s.page &&
               PageValid(s.page, s.pageIndex)
    ensures var (r, found) := Inspect(s, card, index, reply);
            && (found.Some? <==>
                  && index < s.logCount && (reply == ReadOk || (s.pageValid && s.pageIndex == index / ENTRIES_PER_PAGE))
                  && PageValid(card[FIRST_CATALOG_SECTOR + index / ENTRIES_PER_PAGE], index / ENTRIES_PER_PAGE)
                  && Plausible(Listed(card, index), |card|))
            && (found.Some? ==> found.value == Listed(card, index))
            && r == s.(page := r.page, pageIndex := r.pageIndex, pageValid := r.pageValid)
  {
    hide PageValid, EntryOf;
    if index < s.logCount {
      assert PageSector(index) == FIRST_CATALOG_SECTOR + index / ENTRIES_PER_PAGE;
    }
  }

  /** The log being recorded is answered from memory; the configuration changes only outside a recording. */
  lemma RecordingIsAnswered(s: Store, card: Card, reply: ReadReply, configuration: ConfigurationBytes)
    requires s.status == Recording && s.logCount > 0
    ensures Inspect(s, card, s.logCount - 1, reply) == (s, Some(s.active))
    ensures SetConfiguration(s, configuration) == s
    ensures s.status == Recording && SetConfiguration(s.(status := Ready), configuration).configuration == configuration
  {
  }

  /** A catalogue page is loaded exactly if it is at hand or can be read and checks out; if not, none is at hand. */
  lemma PageLoadsExactly(s: Store, card: Card, index: nat, reply: ReadReply)
    ensures var (r, ok) := LoadPage(s, card, index, reply);
            var atHand, sector := s.pageValid && s.pageIndex == index, FIRST_CATALOG_SECTOR + index;
            && (ok <==> atHand || (reply == ReadOk && sector < |card| && PageValid(card[sector], index)))
            && r.pageValid == ok && (ok ==> r.pageIndex == index && r.page == if atHand then s.page else card[sector])
  {
    hide PageValid;
  }

  /** A page is written with the number of entries it holds: those since the last full page. */
  lemma PageCountsItsEntries(page: Sector, count: nat)
    ensures var n := EntriesOnPage(count);
            && n <= 20 && n <= count && (count - n) % 20 == 0 && (n == 0 <==> count == 0)
            && GetU32(SealPage(page, n), 12) == n
  {
    hide GetU32, U32, Crc32;
    var n := EntriesOnPage(count);
    var put := Put(page, 12, U32(n));
    assert SealPage(page, n)[..CRC_OFFSET] == put[..CRC_OFFSET];
    assert SealPage(page, n)[12..16] == put[..CRC_OFFSET][12..16] == U32(n);
    U32RoundTrip(SealPage(page, n), 12, n);
  }
}
