/** The bounded fault registry, its effect on the lifecycle, and the health derived from it. */
module Faults {
  import opened Counters
  import opened SystemState

  const FAULT_SYSTEM_CAPACITY: nat := 16
  const FAULT_DEFINITION_CAPACITY: nat := 32

  datatype Severity = Warning | Degrading | Critical

  datatype Definition = Definition(id: nat, severity: Severity)

  type Catalog = seq<Definition>

  datatype Record = Free | Active(id: nat, severity: Severity, occurrences: uint32)

  datatype Registry = Registry(records: seq<Record>, activeCount: int, dropped: uint32, transitionFailures: uint32)

  datatype ReportResult = Recorded | Updated | UnknownId | CapacityExceeded | CriticalTransitionFailed

  datatype ClearResult = Cleared | ClearUnknownId | NotActive | CriticalLatched

  /* ---------------- catalogue ---------------- */

  ghost predicate CatalogIsValid(c: Catalog) {
    && 0 < |c| <= FAULT_DEFINITION_CAPACITY
    && (forall i | 0 <= i < |c| :: c[i].id != 0)
    && (forall i, j | 0 <= i < j < |c| :: c[i].id != c[j].id)
  }

  method CheckCatalog(c: Catalog) returns (valid: bool)
    ensures valid <==> CatalogIsValid(c)
  {
    if |c| == 0 || |c| > FAULT_DEFINITION_CAPACITY {
      return false;
    }
    for index := 0 to |c|
      invariant forall i | 0 <= i < index :: c[i].id != 0
      invariant forall i, j | 0 <= i < index && i < j < |c| :: c[i].id != c[j].id
    {
      if c[index].id == 0 {
        return false;
      }
      for other := index + 1 to |c|
        invariant forall j | index < j < other :: c[index].id != c[j].id
      {
        if c[index].id == c[other].id {
          return false;
        }
      }
    }
    return true;
  }

  function DefinitionFor(c: Catalog, id: nat): (d: Option<Definition>)
    ensures d.Some? ==> d.value in c && d.value.id == id
    ensures d.None? ==> forall e | e in c :: e.id != id
    decreases |c|
  {
    if c == [] then None
    else if c[0].id == id then Some(c[0])
    else DefinitionFor(c[1..], id)
  }

  lemma {:induction false} DefinitionIsUnique(c: Catalog, d: Definition)
    requires CatalogIsValid(c) && d in c
    ensures DefinitionFor(c, d.id) == Some(d)
  {
    var found := DefinitionFor(c, d.id).value;
    var i :| 0 <= i < |c| && c[i] == d;
    var j :| 0 <= j < |c| && c[j] == found;
    assert i == j;
  }

  /* ---------------- registry ---------------- */

  predicate Holds(r: Record, id: nat) {
    r.Active? && r.id == id
  }

  /** The first index from which a record for the id, or a free slot, is found; |records| if there is none. */
  function RecordFor(records: seq<Record>, id: nat): (i: nat)
    ensures i <= |records|
    ensures i < |records| ==> Holds(records[i], id)
    ensures forall j | 0 <= j < i :: !Holds(records[j], id)
    decreases |records|
  {
    if records == [] then 0 else if Holds(records[0], id) then 0 else 1 + RecordFor(records[1..], id)
  }

  function FirstFree(records: seq<Record>): (i: nat)
    ensures i <= |records|
    ensures i < |records| ==> records[i].Free?
    ensures forall j | 0 <= j < i :: records[j].Active?
    decreases |records|
  {
    if records == [] then 0 else if records[0].Free? then 0 else 1 + FirstFree(records[1..])
  }

  function CountWhere(records: seq<Record>, p: Record -> bool): (n: nat)
    ensures n <= |records|
    decreases |records|
  {
    if records == [] then 0
    else (if p(records[0]) then 1 else 0) + CountWhere(records[1..], p)
  }

  function CountActive(records: seq<Record>): (n: nat) {
    CountWhere(records, (r: Record) => r.Active?)
  }

  function CountSeverity(records: seq<Record>, s: Severity): (n: nat) {
    CountWhere(records, (r: Record) => r.Active? && r.severity == s)
  }

  lemma {:induction false} CountUpdate(records: seq<Record>, p: Record -> bool, i: nat, r: Record)
    requires i < |records|
    ensures CountWhere(records[i := r], p) ==
            CountWhere(records, p) - (if p(records[i]) then 1 else 0) + (if p(r) then 1 else 0)
    decreases |records|
  {
    if i == 0 {
      assert records[i := r] == [r] + records[1..];
    } else {
      assert records[i := r] == [records[0]] + records[1..][i - 1 := r];
      CountUpdate(records[1..], p, i - 1, r);
    }
  }

  lemma {:induction false} CountIsZero(records: seq<Record>, p: Record -> bool)
    ensures CountWhere(records, p) == 0 <==> forall i | 0 <= i < |records| :: !p(records[i])
    decreases |records|
  {
    if records != [] {
      CountIsZero(records[1..], p);
      assert forall i | 0 < i < |records| :: records[i] == records[1..][i - 1];
      assert forall i | 0 <= i < |records[1..]| :: records[1..][i] == records[i + 1];
    }
  }

  lemma {:induction false} CountSnoc(records: seq<Record>, p: Record -> bool, i: nat)
    requires i < |records|
    ensures CountWhere(records[..i + 1], p) == CountWhere(records[..i], p) + (if p(records[i]) then 1 else 0)
    decreases i
  {
    if i == 0 {
      assert records[..1] == [records[0]];
    } else {
      CountSnoc(records[1..], p, i - 1);
      assert records[..i + 1] == [records[0]] + records[1..][..i];
      assert records[..i] == [records[0]] + records[1..][..i - 1];
    }
  }

  const EmptyRegistry: Registry := Registry(seq(FAULT_SYSTEM_CAPACITY, i => Free), 0, 0, 0)

  function ApplyFaultTransition(f: Registry, m: Machine): (r: (Registry, Machine, bool)) {
    if m.current == Fault then (f, m, true)
    else
      var (m', result) := HandleEvent(m, FaultDetected);
      if result == TransitionOk then (f, m', true)
      else (f.(transitionFailures := SaturatingIncrement(f.transitionFailures)), m', false)
  }

  /** What storing one report does to the records, before any lifecycle effect. */
  function StoreReport(f: Registry, d: Definition): (r: (Registry, ReportResult)) {
    var index := RecordFor(f.records, d.id);
    if index < |f.records| then
      var record := f.records[index];
      (f.(records := f.records[index := record.(occurrences := SaturatingIncrement(record.occurrences))]), Updated)
    else
      var slot := FirstFree(f.records);
      if slot < |f.records| then
        (f.(records := f.records[slot := Active(d.id, d.severity, 1)], activeCount := f.activeCount + 1), Recorded)
      else
        (f.(dropped := SaturatingIncrement(f.dropped)), CapacityExceeded)
  }

  function Report(c: Catalog, f: Registry, m: Machine, id: nat): (r: (Registry, Machine, ReportResult)) {
    var definition := DefinitionFor(c, id);
    if definition.None? then (f, m, UnknownId)
    else
      var (f1, result) := StoreReport(f, definition.value);
      var (f2, m2, ok) :=
        if result == CapacityExceeded then ApplyFaultTransition(f1, m) else (f1, m, true);
      if !ok then (f2, m2, CriticalTransitionFailed)
      else if definition.value.severity != Critical then (f2, m2, result)
      else
        var (f3, m3, criticalOk) := ApplyFaultTransition(f2, m2);
        (f3, m3, if criticalOk then result else CriticalTransitionFailed)
  }

  function Clear(c: Catalog, f: Registry, id: nat): (r: (Registry, ClearResult)) {
    var definition := DefinitionFor(c, id);
    var index := RecordFor(f.records, id);
    if definition.None? then (f, ClearUnknownId)
    else if index == |f.records| then (f, NotActive)
    else if definition.value.severity == Critical then (f, CriticalLatched)
    else (f.(records := f.records[index := Free], activeCount := f.activeCount - 1), Cleared)
  }

  /* ---------------- what every operation keeps ---------------- */

  ghost predicate UniqueIds(records: seq<Record>) {
    forall i, j | 0 <= i < j < |records| && records[i].Active? && records[j].Active? :: records[i].id != records[j].id
  }

  ghost predicate FromCatalog(c: Catalog, records: seq<Record>) {
    forall i | 0 <= i < |records| && records[i].Active? :: Definition(records[i].id, records[i].severity) in c
  }

  ghost predicate HasCritical(records: seq<Record>) {
    exists i | 0 <= i < |records| :: records[i].Active? && records[i].severity == Critical
  }

  ghost predicate RegistryInv(c: Catalog, f: Registry, m: Machine) {
    && CatalogIsValid(c)
    && |f.records| == FAULT_SYSTEM_CAPACITY
    && UniqueIds(f.records)
    && FromCatalog(c, f.records)
    && f.activeCount == CountActive(f.records)
    && f.transitionFailures == 0
    && (HasCritical(f.records) || f.dropped > 0 ==> m.current == Fault)
  }

  lemma EmptyRegistryIsSound(c: Catalog, m: Machine)
    requires CatalogIsValid(c)
    ensures RegistryInv(c, EmptyRegistry, m)
  {
    CountIsZero(EmptyRegistry.records, (r: Record) => r.Active?);
  }

  lemma {:induction false} StoreReportKeeps(c: Catalog, f: Registry, m: Machine, d: Definition)
    requires RegistryInv(c, f, m) && d in c
    ensures var r := StoreReport(f, d);
            && |r.0.records| == FAULT_SYSTEM_CAPACITY && UniqueIds(r.0.records) && FromCatalog(c, r.0.records)
            && r.0.activeCount == CountActive(r.0.records)
            && (HasCritical(r.0.records) ==> HasCritical(f.records) || d.severity == Critical)
            && (r.0.dropped > 0 ==> f.dropped > 0 || r.1 == CapacityExceeded)
            && (r.1 == CapacityExceeded ==> r.0.dropped > 0)
            && (r.1 != CapacityExceeded ==> RecordFor(r.0.records, d.id) < |r.0.records|)
  {
    var index := RecordFor(f.records, d.id);
    var active := (r: Record) => r.Active?;
    if index < |f.records| {
      var record := f.records[index];
      CountUpdate(f.records, active, index, record.(occurrences := SaturatingIncrement(record.occurrences)));
      assert Holds(StoreReport(f, d).0.records[index], d.id);
    } else {
      var slot := FirstFree(f.records);
      if slot < |f.records| {
        CountUpdate(f.records, active, slot, Active(d.id, d.severity, 1));
        assert Holds(StoreReport(f, d).0.records[slot], d.id);
      }
    }
  }

  /** A report keeps the registry sound, never refuses the fault transition, and latches FAULT for a critical id. */
  lemma {:induction false} ReportKeeps(c: Catalog, f: Registry, m: Machine, id: nat)
    requires RegistryInv(c, f, m)
    ensures var r := Report(c, f, m, id);
            && RegistryInv(c, r.0, r.1)
            && r.2 != CriticalTransitionFailed
            && (m.current == Fault ==> r.1 == m)
            && (r.1.current == m.current || r.1.current == Fault)
            && (r.1.current == m.current ==> r.1 == m)
            && (Definition(id, Critical) in c || r.2 == CapacityExceeded ==> r.1.current == Fault)
            && (r.2 != UnknownId && r.2 != CapacityExceeded ==> RecordFor(r.0.records, id) < |r.0.records|)
  {
    var definition := DefinitionFor(c, id);
    if Definition(id, Critical) in c {
      DefinitionIsUnique(c, Definition(id, Critical));
    }
    if definition.Some? {
      StoreReportKeeps(c, f, m, definition.value);
    }
  }

  /** Clearing keeps the registry sound, frees exactly the named record, and never frees a critical one. */
  lemma {:induction false} ClearKeeps(c: Catalog, f: Registry, m: Machine, id: nat)
    requires RegistryInv(c, f, m)
    ensures var r := Clear(c, f, id);
            && RegistryInv(c, r.0, m)
            && (r.1 == Cleared <==> r.0 != f)
            && (r.1 == Cleared ==> RecordFor(r.0.records, id) == |r.0.records|)
            && (forall other | other != id ::
                  RecordFor(r.0.records, other) < |r.0.records| <==> RecordFor(f.records, other) < |f.records|)
            && (HasCritical(f.records) ==> HasCritical(r.0.records))
  {
    var index := RecordFor(f.records, id);
    var r := Clear(c, f, id);
    if r.1 == Cleared {
      CountUpdate(f.records, (x: Record) => x.Active?, index, Free);
      forall other | other != id
        ensures RecordFor(r.0.records, other) < |r.0.records| <==> RecordFor(f.records, other) < |f.records|
      {
        var before, after := RecordFor(f.records, other), RecordFor(r.0.records, other);
        if before < |f.records| { assert Holds(r.0.records[before], other); }
        if after < |f.records| { assert Holds(f.records[after], other); }
      }
      if HasCritical(f.records) {
        var i :| 0 <= i < |f.records| && f.records[i].Active? && f.records[i].severity == Critical;
        if i == index {
          DefinitionIsUnique(c, Definition(id, Critical));
        }
        assert r.0.records[i].Active?;
      }
    }
  }

  /* ---------------- health ---------------- */

  datatype Health = HealthOk | HealthWarning | HealthDegraded | HealthUnknown | HealthCritical

  function HealthOf(f: Registry, m: Machine): (h: Health) {
    if m.current == Fault || CountSeverity(f.records, Critical) > 0 then HealthCritical
    else if f.dropped != 0 then HealthUnknown
    else if CountSeverity(f.records, Degrading) > 0 then HealthDegraded
    else if CountSeverity(f.records, Warning) > 0 then HealthWarning
    else HealthOk
  }

  predicate HealthAllowsOutput(h: Health) {
    h == HealthOk || h == HealthWarning || h == HealthDegraded
  }

  predicate OutputAllowed(f: Registry, m: Machine) {
    HealthAllowsOutput(HealthOf(f, m))
  }

  /** In every sound registry, health permits output exactly when the lifecycle is not FAULT. */
  lemma HealthIsLifecycle(c: Catalog, f: Registry, m: Machine)
    requires RegistryInv(c, f, m)
    ensures OutputAllowed(f, m) <==> m.current != Fault
    ensures HealthOf(f, m) != HealthUnknown
  {
    CountIsZero(f.records, (r: Record) => r.Active? && r.severity == Critical);
  }

  datatype RegistryCall = ReportCall(id: nat) | ClearCall(id: nat) | LifecycleCall(event: Event)

  function RunCalls(c: Catalog, f: Registry, m: Machine, calls: seq<RegistryCall>): (r: (Registry, Machine))
    requires RegistryInv(c, f, m)
    ensures RegistryInv(c, r.0, r.1)
    decreases |calls|
  {
    if calls == [] then (f, m)
    else
      match calls[0]
      case ReportCall(id) =>
        ReportKeeps(c, f, m, id);
        var (f', m', _) := Report(c, f, m, id);
        RunCalls(c, f', m', calls[1..])
      case ClearCall(id) =>
        ClearKeeps(c, f, m, id);
        RunCalls(c, Clear(c, f, id).0, m, calls[1..])
      case LifecycleCall(event) =>
        RunCalls(c, f, HandleEvent(m, event).0, calls[1..])
  }

  /** Whatever the order of reports, clears and lifecycle events, a critical report is terminal. */
  lemma {:induction false} CriticalReportIsTerminal(c: Catalog, f: Registry, m: Machine, calls: seq<RegistryCall>,
          k: nat)
    requires RegistryInv(c, f, m)
    requires m.current == Fault ||
             (k < |calls| && calls[k].ReportCall? && Definition(calls[k].id, Critical) in c)
    ensures var r := RunCalls(c, f, m, calls);
            r.1.current == Fault && !OutputAllowed(r.0, r.1)
    decreases |calls|
  {
    var r := RunCalls(c, f, m, calls);
    if calls != [] {
      var k' := if k == 0 then 0 else k - 1;
      match calls[0]
      case ReportCall(id) =>
        ReportKeeps(c, f, m, id);
        var (f', m', _) := Report(c, f, m, id);
        CriticalReportIsTerminal(c, f', m', calls[1..], k');
      case ClearCall(id) =>
        ClearKeeps(c, f, m, id);
        CriticalReportIsTerminal(c, Clear(c, f, id).0, m, calls[1..], k');
      case LifecycleCall(event) =>
        CriticalReportIsTerminal(c, f, HandleEvent(m, event).0, calls[1..], k');
    }
    HealthIsLifecycle(c, r.0, r.1);
  }

  /* ---------------- the registry updated in place ---------------- */

  class FaultSystem {
    const machine: StateMachine
    const catalog: Catalog
    const records: array<Record>
    var activeCount: int
    var droppedRecordCount: uint32
    var criticalTransitionFailureCount: uint32
    ghost var view: Registry

    /** The abstract registry is kept up to date by every method. */
    ghost predicate Consistent()
      reads this, records
    {
      view == Registry(records[..], activeCount, droppedRecordCount, criticalTransitionFailureCount)
    }

    ghost predicate Valid()
      reads this, records, machine
    {
      Consistent() && RegistryInv(catalog, view, machine.View())
    }

    constructor (machine: StateMachine, catalog: Catalog)
      requires CatalogIsValid(catalog)
      ensures Valid() && view == EmptyRegistry && this.machine == machine && this.catalog == catalog
      ensures fresh(records)
    {
      this.machine := machine;
      this.catalog := catalog;
      records := new Record[FAULT_SYSTEM_CAPACITY](i => Free);
      activeCount, droppedRecordCount, criticalTransitionFailureCount := 0, 0, 0;
      view := EmptyRegistry;
      new;
      assert records[..] == EmptyRegistry.records;
      EmptyRegistryIsSound(catalog, machine.View());
    }

    method FindRecord(id: nat) returns (index: nat)
      ensures index == RecordFor(records[..], id)
    {
      index := 0;
      while index < records.Length
        invariant index <= records.Length
        invariant forall j | 0 <= j < index :: !Holds(records[j], id)
      {
        if Holds(records[index], id) {
          return;
        }
        index := index + 1;
      }
    }

    method FindFree() returns (index: nat)
      ensures index == FirstFree(records[..])
    {
      index := 0;
      while index < records.Length
        invariant index <= records.Length
        invariant forall j | 0 <= j < index :: records[j].Active?
      {
        if records[index].Free? {
          return;
        }
        index := index + 1;
      }
    }

    method ApplyFaultStateTransition() returns (ok: bool)
      modifies machine
      ensures (view, machine.View(), ok) == ApplyFaultTransition(view, old(machine.View()))
    {
      if machine.current == Fault {
        return true;
      }
      var transition := machine.Handle(FaultDetected);
      if transition != TransitionOk {
        // The fault event is accepted from every other state, so this failure is never counted.
        assert false;
      }
      return true;
    }

    method ReportFault(id: nat) returns (result: ReportResult)
      requires Consistent()
      modifies this, records, machine
      ensures Consistent() && (old(Valid()) ==> Valid())
      ensures (view, machine.View(), result) == Report(catalog, old(view), old(machine.View()), id)
    {
      if Valid() {
        ReportKeeps(catalog, view, machine.View(), id);
      }
      var definition := DefinitionFor(catalog, id);
      if definition.None? {
        return UnknownId;
      }
      var index := FindRecord(id);
      if index < records.Length {
        records[index] := records[index].(occurrences := SaturatingIncrement(records[index].occurrences));
        view := view.(records := records[..]);
        result := Updated;
      } else {
        var slot := FindFree();
        if slot == records.Length {
          droppedRecordCount := SaturatingIncrement(droppedRecordCount);
          view := view.(dropped := droppedRecordCount);
          result := CapacityExceeded;
          var ok := ApplyFaultStateTransition();
          if !ok {
            return CriticalTransitionFailed;
          }
        } else {
          records[slot] := Active(id, definition.value.severity, 1);
          activeCount := activeCount + 1;
          view := view.(records := records[..], activeCount := activeCount);
          result := Recorded;
        }
      }
      if definition.value.severity == Critical {
        var ok := ApplyFaultStateTransition();
        if !ok {
          return CriticalTransitionFailed;
        }
      }
    }

    method ClearFault(id: nat) returns (result: ClearResult)
      requires Consistent()
      modifies this, records
      ensures Consistent() && (old(Valid()) ==> Valid())
      ensures (view, result) == Clear(catalog, old(view), id)
    {
      if Valid() {
        ClearKeeps(catalog, view, machine.View(), id);
      }
      var definition := DefinitionFor(catalog, id);
      if definition.None? {
        return ClearUnknownId;
      }
      var index := FindRecord(id);
      if index == records.Length {
        return NotActive;
      }
      if definition.value.severity == Critical {
        return CriticalLatched;
      }
      records[index] := Free;
      activeCount := activeCount - 1;
      view := view.(records := records[..], activeCount := activeCount);
      return Cleared;
    }

    /** One pass over the records; the counts decide the summary. */
    method EvaluateHealth() returns (health: Health, active: nat, warnings: nat, faults: nat, criticals: nat)
      requires Consistent()
      ensures health == HealthOf(view, machine.View())
      ensures active == CountActive(records[..])
      ensures warnings == CountSeverity(records[..], Warning)
      ensures faults == CountSeverity(records[..], Degrading)
      ensures criticals == CountSeverity(records[..], Critical)
    {
      active, warnings, faults, criticals := 0, 0, 0, 0;
      for index := 0 to records.Length
        invariant active == CountActive(records[..index])
        invariant warnings == CountSeverity(records[..index], Warning)
        invariant faults == CountSeverity(records[..index], Degrading)
        invariant criticals == CountSeverity(records[..index], Critical)
      {
        CountSnoc(records[..], (r: Record) => r.Active?, index);
        CountSnoc(records[..], (r: Record) => r.Active? && r.severity == Warning, index);
        CountSnoc(records[..], (r: Record) => r.Active? && r.severity == Degrading, index);
        CountSnoc(records[..], (r: Record) => r.Active? && r.severity == Critical, index);
        assert records[..][..index] == records[..index] && records[..][..index + 1] == records[..index + 1];
        match records[index] {
          case Free =>
          case Active(_, severity, _) =>
            active := active + 1;
            match severity {
              case Warning => warnings := warnings + 1;
              case Degrading => faults := faults + 1;
              case Critical => criticals := criticals + 1;
            }
        }
      }
      assert records[..records.Length] == records[..];
      health :=
        if machine.current == Fault || criticals > 0 then HealthCritical
        else if droppedRecordCount != 0 then HealthUnknown
        else if faults > 0 then HealthDegraded
        else if warnings > 0 then HealthWarning
        else HealthOk;
    }
  }
}
