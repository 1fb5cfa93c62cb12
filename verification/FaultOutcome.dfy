/** What becomes of every report and every clear, and what health the records mean. */
module FaultOutcome {
  import opened Counters
  import opened SystemState
  import opened Faults

  /** The fault is recorded with this severity and this many occurrences. */
  predicate Recorded(records: seq<Record>, id: nat, severity: Severity, n: uint32) {
    exists i | 0 <= i < |records| :: records[i] == Active(id, severity, n)
  }

  predicate IsActive(records: seq<Record>, id: nat) {
    exists i | 0 <= i < |records| :: records[i].Active? && records[i].id == id
  }

  predicate IsFull(records: seq<Record>) {
    forall i | 0 <= i < |records| :: records[i].Active?
  }

  /** Nothing is different for any other fault. */
  ghost predicate OthersKept(before: seq<Record>, after: seq<Record>, id: nat) {
    forall other: nat, severity, n: uint32 | other != id ::
      Recorded(after, other, severity, n) <==> Recorded(before, other, severity, n)
  }

  lemma SlotKeepsOthers(records: seq<Record>, i: nat, r: Record, id: nat)
    requires i < |records| && (records[i].Free? || records[i].id == id) && (r.Free? || r.id == id)
    ensures OthersKept(records, records[i := r], id)
  {
    var after := records[i := r];
    forall other: nat, severity, n: uint32 | other != id
      ensures Recorded(after, other, severity, n) <==> Recorded(records, other, severity, n)
    {
      if k :| 0 <= k < |records| && records[k] == Active(other, severity, n) {
        assert after[k] == records[k];
      }
      if k :| 0 <= k < |after| && after[k] == Active(other, severity, n) {
        assert records[k] == after[k];
      }
    }
  }

  lemma ActiveIsFound(records: seq<Record>, id: nat)
    ensures IsActive(records, id) <==> RecordFor(records, id) < |records|
    ensures IsFull(records) <==> FirstFree(records) == |records|
  {
    if IsActive(records, id) {
      var i :| 0 <= i < |records| && records[i].Active? && records[i].id == id;
      assert Faults.Holds(records[i], id);
    }
    if RecordFor(records, id) < |records| {
      assert Faults.Holds(records[RecordFor(records, id)], id);
    }
  }

  /**
   * A report of a declared fault counts it if it is active, records it if there is room, and otherwise is dropped; a
   * critical or a dropped one leads to FAULT; no other record changes.
   */
  lemma {:induction false} ReportHasItsOutcome(c: Catalog, f: Registry, m: Machine, d: Definition)
    requires RegistryInv(c, f, m) && d in c
    ensures var (r, m', result) := Report(c, f, m, d.id);
            var active, full := IsActive(f.records, d.id), IsFull(f.records);
            && result == (if active then Updated else if full then CapacityExceeded else ReportResult.Recorded)
            && OthersKept(f.records, r.records, d.id)
            && (forall n: uint32 | Recorded(f.records, d.id, d.severity, n) ::
                  Recorded(r.records, d.id, d.severity, Min(n + 1, UINT32_MAX)))
            && (!active && !full ==> Recorded(r.records, d.id, d.severity, 1))
            && (!active && full ==> r.records == f.records)
            && r.dropped == Min(f.dropped + (if !active && full then 1 else 0), UINT32_MAX)
            && m'.current == (if d.severity == Critical || (!active && full) then Fault else m.current)
  {
    DefinitionIsUnique(c, d);
    ActiveIsFound(f.records, d.id);
    var index, slot := RecordFor(f.records, d.id), FirstFree(f.records);
    if index < |f.records| {
      var record := f.records[index];
      assert Definition(record.id, record.severity) in c;
      DefinitionIsUnique(c, Definition(record.id, record.severity));
      SlotKeepsOthers(f.records, index, record.(occurrences := SaturatingIncrement(record.occurrences)), d.id);
      forall n: uint32 | Recorded(f.records, d.id, d.severity, n)
        ensures n == record.occurrences
      {
        var k :| 0 <= k < |f.records| && f.records[k] == Active(d.id, d.severity, n);
        assert k == index;
      }
      assert Report(c, f, m, d.id).0.records[index] ==
             Active(d.id, d.severity, SaturatingIncrement(record.occurrences));
    } else {
      forall n: uint32
        ensures !Recorded(f.records, d.id, d.severity, n)
      {
        if k :| 0 <= k < |f.records| && f.records[k] == Active(d.id, d.severity, n) {
          assert IsActive(f.records, d.id);
        }
      }
      if slot < |f.records| {
        SlotKeepsOthers(f.records, slot, Active(d.id, d.severity, 1), d.id);
        assert Report(c, f, m, d.id).0.records[slot] == Active(d.id, d.severity, 1);
      }
    }
  }

  /** A report of an undeclared fault changes nothing. */
  lemma UndeclaredIsRefused(c: Catalog, f: Registry, m: Machine, id: nat)
    requires forall d | d in c :: d.id != id
    ensures Report(c, f, m, id) == (f, m, UnknownId) && Clear(c, f, id) == (f, ClearUnknownId)
  {
  }

  /** A clear takes out an active fault exactly if it is not critical, and no other. */
  lemma {:induction false} ClearHasItsOutcome(c: Catalog, f: Registry, m: Machine, d: Definition)
    requires RegistryInv(c, f, m) && d in c
    ensures var (r, result) := Clear(c, f, d.id);
            var active := IsActive(f.records, d.id);
            && result == (if !active then NotActive else if d.severity == Critical then CriticalLatched else Cleared)
            && (result == Cleared ==>
                  && !IsActive(r.records, d.id) && OthersKept(f.records, r.records, d.id) && !IsFull(r.records)
                  && r.dropped == f.dropped && r.activeCount == f.activeCount - 1)
            && (result != Cleared ==> r == f)
  {
    DefinitionIsUnique(c, d);
    ActiveIsFound(f.records, d.id);
    var (r, result) := Clear(c, f, d.id);
    if result == Cleared {
      var index := RecordFor(f.records, d.id);
      SlotKeepsOthers(f.records, index, Free, d.id);
      ClearKeeps(c, f, m, d.id);
      ActiveIsFound(r.records, d.id);
      assert r.records[index].Free?;
    }
  }

  predicate HasSeverity(records: seq<Record>, severity: Severity) {
    exists i | 0 <= i < |records| :: records[i].Active? && records[i].severity == severity
  }

  lemma SeverityIsCounted(records: seq<Record>, severity: Severity)
    ensures CountSeverity(records, severity) > 0 <==> HasSeverity(records, severity)
  {
    CountIsZero(records, (r: Record) => r.Active? && r.severity == severity);
  }

  /** Health is critical in FAULT, and otherwise as bad as the worst active fault. */
  lemma HealthIsTheWorst(c: Catalog, f: Registry, m: Machine)
    requires RegistryInv(c, f, m)
    ensures HealthOf(f, m) ==
            if m.current == Fault then HealthCritical
            else if HasSeverity(f.records, Degrading) then HealthDegraded
            else if HasSeverity(f.records, Warning) then HealthWarning
            else HealthOk
  {
    SeverityIsCounted(f.records, Critical);
    SeverityIsCounted(f.records, Degrading);
    SeverityIsCounted(f.records, Warning);
  }
}
