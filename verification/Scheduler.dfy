/** The cooperative scheduler: ready batches, a strict task order, and a fixed release grid per task. */
module Scheduler {
  import opened Counters
  import opened ReleaseGrid

  const TASK_REGISTRY_CAPACITY: nat := 16
  const MASK64: nat := 0x1_0000_0000_0000_0000

  type Priority = n: nat | n < 256

  type Period = n: nat | 0 < n <= 0xFFFF_FFFF witness 1

  datatype Task = Task(
    period: Period, priority: Priority, order: nat, nextRelease: uint64, lastStart: uint64, lastDuration: uint32,
    longestDuration: uint32, executions: uint32, overruns: uint32, missed: uint32, enabled: bool)

  datatype Sched = Sched(tasks: seq<Task>, ready: set<nat>)

  /** The clock readings of one scheduler step, and whether the task it runs asks to be disabled. */
  datatype Reading = Reading(now: uint64, start: uint64, finish: uint64, disable: bool)

  /* ---------------- the order ---------------- */

  predicate Precedes(a: Task, b: Task) {
    if a.priority != b.priority then a.priority < b.priority
    else if a.nextRelease != b.nextRelease then a.nextRelease < b.nextRelease
    else a.order < b.order
  }

  /** Any two distinctly registered tasks are ordered, and the order has no cycles. */
  lemma PrecedesIsStrictTotal(a: Task, b: Task, c: Task)
    ensures !Precedes(a, a)
    ensures Precedes(a, b) ==> !Precedes(b, a)
    ensures Precedes(a, b) && Precedes(b, c) ==> Precedes(a, c)
    ensures a.order != b.order ==> Precedes(a, b) || Precedes(b, a)
  {
  }

  /* ---------------- one step ---------------- */

  /** The registry numbers its tasks, and the mask only ever holds enabled ones. */
  ghost predicate SchedInv(s: Sched) {
    && |s.tasks| <= TASK_REGISTRY_CAPACITY
    && (forall i | 0 <= i < |s.tasks| :: s.tasks[i].order == i)
    && (forall i | i in s.ready :: i < |s.tasks| && s.tasks[i].enabled)
  }

  function DueTasks(tasks: seq<Task>, now: uint64): (due: set<nat>) {
    set i | 0 <= i < |tasks| && tasks[i].enabled && now >= tasks[i].nextRelease
  }

  function Batch(s: Sched, now: uint64): (r: Sched) {
    if s.ready == {} then s.(ready := DueTasks(s.tasks, now)) else s
  }

  /** The first task in the order among the ready ones below an index. */
  function FirstBelow(tasks: seq<Task>, ready: set<nat>, n: nat): (best: Option<nat>)
    requires n <= |tasks|
    requires forall i | 0 <= i < |tasks| :: tasks[i].order == i
    ensures best.Some? ==> best.value < n && best.value in ready
    ensures best.None? <==> forall i | 0 <= i < n :: i !in ready
    ensures best.Some? ==>
              forall i | 0 <= i < n && i in ready && i != best.value :: Precedes(tasks[best.value], tasks[i])
  {
    if n == 0 then None
    else
      var best := FirstBelow(tasks, ready, n - 1);
      if n - 1 !in ready then best
      else if best.None? || Precedes(tasks[n - 1], tasks[best.value]) then Some(n - 1)
      else best
  }

  function ClampDuration(d: nat): (r: uint32) {
    if d > UINT32_MAX then UINT32_MAX else d
  }

  function SaturatingAdd(value: uint32, amount: nat): (r: uint32)
    ensures r == UINT32_MAX || r == value + amount
    ensures r == Min(value + amount, UINT32_MAX)
  {
    if amount >= UINT32_MAX - value then UINT32_MAX else value + amount
  }

  /** A difference of two clock readings, as the 64-bit subtraction gives it. */
  function Difference(later: uint64, earlier: uint64): (d: uint64) {
    if later >= earlier then later - earlier else later + MASK64 - earlier
  }

  /** The grid points from the task's release up to its finish. */
  function PeriodsPassed(t: Task, finish: uint64): (n: nat)
    ensures n > 0
  {
    Difference(finish, t.nextRelease) / t.period + 1
  }

  function NextGridPoint(t: Task, finish: uint64): (next: uint64) {
    (t.nextRelease + PeriodsPassed(t, finish) * t.period) % MASK64
  }

  function Executed(t: Task, start: uint64, finish: uint64): (r: Task) {
    var duration := Difference(finish, start);
    t.(lastStart := start, lastDuration := ClampDuration(duration),
       longestDuration := if ClampDuration(duration) > t.longestDuration then ClampDuration(duration)
           else t.longestDuration,
       executions := SaturatingIncrement(t.executions),
       overruns := if duration > t.period then SaturatingIncrement(t.overruns) else t.overruns,
       missed := SaturatingAdd(t.missed, PeriodsPassed(t, finish) - 1),
       nextRelease := NextGridPoint(t, finish))
  }

  function RunTask(s: Sched, i: nat, reading: Reading): (r: Sched)
    requires i < |s.tasks|
  {
    var ran := Executed(s.tasks[i], reading.start, reading.finish);
    Sched(s.tasks[i := if reading.disable then ran.(enabled := false) else ran], s.ready - {i})
  }

  /** Builds a batch if none is left, and runs its first task. */
  function Step(s: Sched, reading: Reading): (r: (Sched, Option<nat>))
    requires SchedInv(s)
    ensures SchedInv(r.0) && |r.0.tasks| == |s.tasks|
    ensures r.1.Some? ==> r.1.value < |s.tasks|
  {
    var batch := Batch(s, reading.now);
    var first := FirstBelow(batch.tasks, batch.ready, |batch.tasks|);
    if first.None? then (batch, None) else (RunTask(batch, first.value, reading), first)
  }

  function Execute(s: Sched, readings: seq<Reading>): (r: (Sched, seq<Option<nat>>))
    requires SchedInv(s)
    ensures SchedInv(r.0) && |r.0.tasks| == |s.tasks| && |r.1| == |readings|
    decreases |readings|
  {
    if readings == [] then (s, [])
    else
      var (next, ran) := Step(s, readings[0]);
      var (last, rest) := Execute(next, readings[1..]);
      (last, [ran] + rest)
  }

  /* ---------------- a batch runs once, in order ---------------- */

  /** These steps each ran a task, and together exactly the members of the batch, in the strict order. */
  ghost predicate RanInOrder(tasks: seq<Task>, batch: set<nat>, ran: seq<Option<nat>>) {
    && (forall k | 0 <= k < |ran| :: ran[k].Some? && ran[k].value in batch && ran[k].value < |tasks|)
    && (forall i | i in batch :: exists k :: 0 <= k < |ran| && ran[k] == Some(i))
    && (forall j, k | 0 <= j < k < |ran| :: Precedes(tasks[ran[j].value], tasks[ran[k].value]))
  }

  lemma StepRunsFirst(s: Sched, reading: Reading)
    requires SchedInv(s) && s.ready != {}
    ensures var (r, ran) := Step(s, reading);
            && ran.Some? && ran.value in s.ready && r.ready == s.ready - {ran.value}
            && (forall i | i in s.ready && i != ran.value :: Precedes(s.tasks[ran.value], s.tasks[i]))
            && (forall i | 0 <= i < |s.tasks| && i != ran.value :: r.tasks[i] == s.tasks[i])
  {
    hide Executed, Precedes;
    var i :| i in s.ready;
    assert i < |s.tasks|;
  }

  /** A batch of n tasks takes n steps, runs each member exactly once in the strict order, and leaves none behind. */
  lemma {:induction false} BatchInOrder(s: Sched, readings: seq<Reading>)
    requires SchedInv(s) && |readings| == |s.ready|
    ensures var (r, ran) := Execute(s, readings);
            && r.ready == {} && RanInOrder(s.tasks, s.ready, ran)
            && (forall i | 0 <= i < |s.tasks| && i !in s.ready :: r.tasks[i] == s.tasks[i])
    decreases |readings|
  {
    hide Executed, Precedes, Step;
    if s.ready != {} {
      StepRunsFirst(s, readings[0]);
      var (next, first) := Step(s, readings[0]);
      BatchInOrder(next, readings[1..]);
      var (r, ran) := Execute(s, readings);
      var rest := Execute(next, readings[1..]).1;
      assert ran == [first] + rest;
      OneMoreRan(s.tasks, s.ready, next.tasks, first.value, rest);
    }
  }

  lemma OneMoreRan(tasks: seq<Task>, batch: set<nat>, after: seq<Task>, first: nat, rest: seq<Option<nat>>)
    requires first in batch && first < |tasks| && |after| == |tasks|
    requires forall i | i in batch && i != first :: i < |tasks| && Precedes(tasks[first], tasks[i])
    requires forall i | 0 <= i < |tasks| && i != first :: after[i] == tasks[i]
    requires RanInOrder(after, batch - {first}, rest)
    ensures RanInOrder(tasks, batch, [Some(first)] + rest)
  {
    hide Precedes;
    var ran := [Some(first)] + rest;
    forall i | i in batch
      ensures exists k :: 0 <= k < |ran| && ran[k] == Some(i)
    {
      if i == first {
        assert ran[0] == Some(i);
      } else {
        assert i in batch - {first};
        var k :| 0 <= k < |rest| && rest[k] == Some(i);
        assert ran[k + 1] == Some(i);
      }
    }
    forall j, k | 0 <= j < k < |ran|
      ensures Precedes(tasks[ran[j].value], tasks[ran[k].value])
    {
      assert ran[k] == rest[k - 1];
      if j > 0 {
        assert ran[j] == rest[j - 1];
      }
    }
  }

  /* ---------------- no starvation ---------------- */

  lemma {:induction false} IndexSetSize(s: set<nat>, n: nat)
    requires forall i | i in s :: i < n
    ensures |s| <= n
  {
    if n == 0 {
      assert s == {};
    } else {
      var t := s - {n - 1};
      IndexSetSize(t, n - 1);
      assert s <= t + {n - 1};
      assert |s| <= |t + {n - 1}| <= |t| + 1;
    }
  }

  lemma {:induction false} ExecuteSplits(s: Sched, a: seq<Reading>, b: seq<Reading>)
    requires SchedInv(s)
    ensures Execute(s, a + b) ==
            var (mid, ranA) := Execute(s, a);
            var (last, ranB) := Execute(mid, b);
            (last, ranA + ranB)
    decreases |a|
  {
    hide Step, SchedInv;
    if a == [] {
      assert a + b == b;
      assert [] + Execute(s, b).1 == Execute(s, b).1;
    } else {
      var (next, ran) := Step(s, a[0]);
      ExecuteSplits(next, a[1..], b);
      assert (a + b)[1..] == a[1..] + b;
      assert (a + b)[0] == a[0];
      var (mid, ranA) := Execute(next, a[1..]);
      var ranB := Execute(mid, b).1;
      assert [ran] + (ranA + ranB) == ([ran] + ranA) + ranB;
    }
  }

  /** Building the batch first changes nothing about the steps that follow. */
  lemma BatchedExecute(s: Sched, readings: seq<Reading>)
    requires SchedInv(s) && s.ready == {} && readings != [] && Batch(s, readings[0].now).ready != {}
    ensures SchedInv(Batch(s, readings[0].now))
    ensures Execute(s, readings) == Execute(Batch(s, readings[0].now), readings)
  {
    hide Executed, Precedes;
    assert Batch(Batch(s, readings[0].now), readings[0].now) == Batch(s, readings[0].now);
  }

  lemma ReadyBelow(s: Sched)
    requires SchedInv(s)
    ensures forall j | j in s.ready :: j < |s.tasks|
  {
  }

  lemma MemberRuns(s: Sched, i: nat, readings: seq<Reading>)
    requires SchedInv(s) && i in s.ready && |readings| >= |s.tasks|
    ensures exists k :: 0 <= k < |s.tasks| && Execute(s, readings).1[k] == Some(i)
  {
    hide Step, Execute, Precedes, SchedInv;
    assert forall j | j in s.ready :: j < |s.tasks| by { ReadyBelow(s); }
    var n := |s.ready|;
    IndexSetSize(s.ready, |s.tasks|);
    BatchInOrder(s, readings[..n]);
    assert readings == readings[..n] + readings[n..];
    ExecuteSplits(s, readings[..n], readings[n..]);
    var ran := Execute(s, readings[..n]).1;
    var k :| 0 <= k < |ran| && ran[k] == Some(i);
    assert Execute(s, readings).1[k] == Some(i);
  }

  /** A due task left out of the current batch is in the next one. */
  lemma NextBatchRuns(s: Sched, i: nat, later: seq<Reading>)
    requires SchedInv(s) && s.ready == {} && i < |s.tasks| && s.tasks[i].enabled
    requires |later| >= |s.tasks| && later[0].now >= s.tasks[i].nextRelease
    ensures exists k :: 0 <= k < |s.tasks| && Execute(s, later).1[k] == Some(i)
  {
    hide Step, Execute, Precedes;
    var batch := Batch(s, later[0].now);
    assert i in batch.ready;
    BatchedExecute(s, later);
    MemberRuns(batch, i, later);
  }

  lemma RunsLater(first: seq<Option<nat>>, rest: seq<Option<nat>>, i: nat, n: nat)
    requires n <= |rest| && exists k :: 0 <= k < n && rest[k] == Some(i)
    ensures exists k :: 0 <= k < |first| + n && (first + rest)[k] == Some(i)
  {
    var k :| 0 <= k < n && rest[k] == Some(i);
    assert (first + rest)[|first| + k] == Some(i);
  }

  /** Whatever the priorities, an enabled task that is due runs within the next 2 * count steps. */
  lemma NoStarvation(s: Sched, i: nat, readings: seq<Reading>)
    requires SchedInv(s) && i < |s.tasks| && s.tasks[i].enabled
    requires |readings| >= 2 * |s.tasks|
    requires forall k | 0 <= k < |readings| :: readings[k].now >= s.tasks[i].nextRelease
    ensures exists k :: 0 <= k < 2 * |s.tasks| && Execute(s, readings).1[k] == Some(i)
  {
    hide Step, Execute, Precedes, RanInOrder;
    if i in s.ready {
      MemberRuns(s, i, readings);
    } else {
      var n := |s.ready|;
      IndexSetSize(s.ready, |s.tasks|);
      var current, later := readings[..n], readings[n..];
      assert readings == current + later;
      ExecuteSplits(s, current, later);
      BatchInOrder(s, current);
      var (mid, ran) := Execute(s, current);
      NextBatchRuns(mid, i, later);
      RunsLater(ran, Execute(mid, later).1, i, |s.tasks|);
    }
  }

  /* ---------------- releases ---------------- */

  /** The readings move forward, and stay clear of the end of the 64-bit clock. */
  predicate Forward(readings: seq<Reading>, clock: uint64)
    decreases |readings|
  {
    readings == [] ||
    (clock <= readings[0].now <= readings[0].start <= readings[0].finish < MASK64 - 0x1_0000_0000 &&
     Forward(readings[1..], readings[0].finish))
  }

  ghost predicate Released(s: Sched, clock: uint64) {
    forall i | i in s.ready :: i < |s.tasks| && s.tasks[i].nextRelease <= clock
  }

  /** One execution moves the release to the first grid point after its finish. */
  lemma ExecutionMovesRelease(t: Task, start: uint64, finish: uint64)
    requires t.nextRelease <= finish < MASK64 - 0x1_0000_0000
    ensures Executed(t, start, finish).nextRelease == FirstAfter(t.nextRelease, finish, t.period)
  {
    var q := (finish - t.nextRelease) / t.period + 1;
    QuotientBounds(finish - t.nextRelease, t.period);
    var next := t.nextRelease + q * t.period;
    assert next == FirstAfter(t.nextRelease, finish, t.period) < MASK64;
    assert next % MASK64 == next;
  }

  /** And it accounts for every grid point passed. */
  lemma ExecutionKeepsGrid(t: Task, start: uint64, finish: uint64, origin: uint64)
    requires t.nextRelease <= finish < MASK64 - 0x1_0000_0000
    requires Accounted(t, origin)
    ensures Executed(t, start, finish).nextRelease == FirstAfter(t.nextRelease, finish, t.period)
    ensures Accounted(Executed(t, start, finish), origin)
  {
    ExecutionMovesRelease(t, start, finish);
    ExecutionCounts(t, start, finish);
    hide Executed, PeriodsPassed, NextGridPoint;
    var r := Executed(t, start, finish);
    if r.executions != UINT32_MAX && r.missed != UINT32_MAX {
      QuotientBounds(finish - t.nextRelease, t.period);
      PassedPoints(t, finish);
      Distribute(t.executions + t.missed, PeriodsPassed(t, finish), t.period);
    }
  }

  lemma PassedPoints(t: Task, finish: uint64)
    requires t.nextRelease <= finish
    ensures FirstAfter(t.nextRelease, finish, t.period) == t.nextRelease + PeriodsPassed(t, finish) * t.period
  {
  }

  lemma ExecutionCounts(t: Task, start: uint64, finish: uint64)
    requires t.nextRelease <= finish
    ensures var r := Executed(t, start, finish);
            && r.period == t.period
            && (r.executions != UINT32_MAX ==> t.executions != UINT32_MAX && r.executions == t.executions + 1)
            && (r.missed != UINT32_MAX ==>
                  t.missed != UINT32_MAX && r.missed == t.missed + PeriodsPassed(t, finish) - 1)
  {
    hide PeriodsPassed, NextGridPoint;
  }

  lemma Distribute(a: nat, b: nat, c: nat)
    ensures (a + b) * c == a * c + b * c
  {
  }

  /** Executions and missed releases together are the grid points passed since the start, until one saturates. */
  ghost predicate Accounted(t: Task, origin: uint64) {
    t.executions == UINT32_MAX || t.missed == UINT32_MAX
        || t.nextRelease == origin + (t.executions + t.missed) * t.period
  }

  ghost predicate AllAccounted(s: Sched, origin: uint64) {
    forall i | 0 <= i < |s.tasks| :: Accounted(s.tasks[i], origin)
  }

  /** A task never runs before its release, and every step keeps the account. */
  lemma StepKeepsReleases(s: Sched, reading: Reading, clock: uint64, origin: uint64)
    requires SchedInv(s) && Released(s, clock) && AllAccounted(s, origin)
    requires clock <= reading.now <= reading.start <= reading.finish < MASK64 - 0x1_0000_0000
    ensures var (r, ran) := Step(s, reading);
            && Released(r, reading.finish) && AllAccounted(r, origin)
            && (ran.Some? ==> s.tasks[ran.value].nextRelease <= reading.start)
  {
    hide Executed, Precedes, Accounted;
    var batch := Batch(s, reading.now);
    var (r, ran) := Step(s, reading);
    if ran.Some? {
      var t := s.tasks[ran.value];
      ExecutionKeepsGrid(t, reading.start, reading.finish, origin);
      DisablingKeepsAccount(Executed(t, reading.start, reading.finish), origin);
    }
  }

  lemma DisablingKeepsAccount(t: Task, origin: uint64)
    requires Accounted(t, origin)
    ensures Accounted(t.(enabled := false), origin)
  {
  }

  /* ---------------- what a step does ---------------- */

  /** The task may run: left over from the batch, or, with no batch left, enabled and released. */
  predicate MayRun(s: Sched, now: uint64, i: nat) {
    i < |s.tasks| && if s.ready != {} then i in s.ready else s.tasks[i].enabled && s.tasks[i].nextRelease <= now
  }

  /** A lower number is the higher priority; then the earlier release comes first, then the earlier registration. */
  predicate AtLeastAsUrgent(s: Sched, i: nat, j: nat)
    requires i < |s.tasks| && j < |s.tasks|
  {
    var a, b := s.tasks[i], s.tasks[j];
    a.priority <= b.priority &&
    (a.priority == b.priority ==>
       a.nextRelease <= b.nextRelease && (a.nextRelease == b.nextRelease ==> i <= j))
  }

  /** A step runs a task exactly if one may run, and then the most urgent of them; the rest of the batch waits. */
  lemma StepRunsMostUrgent(s: Sched, reading: Reading)
    requires SchedInv(s)
    ensures var (r, ran) := Step(s, reading);
            && (ran.Some? <==> exists i: nat :: MayRun(s, reading.now, i))
            && (ran == None ==> r == s)
            && (ran.Some? ==>
                  && MayRun(s, reading.now, ran.value)
                  && (forall i: nat | MayRun(s, reading.now, i) :: AtLeastAsUrgent(s, ran.value, i))
                  && (forall i: nat :: i in r.ready <==> MayRun(s, reading.now, i) && i != ran.value)
                  && (forall i | 0 <= i < |s.tasks| && i != ran.value :: r.tasks[i] == s.tasks[i])
                  && (reading.disable ==> !r.tasks[ran.value].enabled)
                  && (!reading.disable ==> r.tasks[ran.value].enabled))
  {
    hide NextGridPoint, PeriodsPassed;
    var batch := Batch(s, reading.now);
    forall i: nat
      ensures i in batch.ready <==> MayRun(s, reading.now, i)
    {
    }
    var ran := Step(s, reading).1;
    if ran.Some? {
      forall i: nat | MayRun(s, reading.now, i)
        ensures AtLeastAsUrgent(s, ran.value, i)
      {
        assert i != ran.value ==> Precedes(batch.tasks[ran.value], batch.tasks[i]);
      }
    }
  }

  /** What an execution leaves: its time, the longest so far, an overrun if it exceeds the period, releases missed. */
  lemma ExecutionHasItsOutcome(t: Task, start: uint64, finish: uint64)
    requires start <= finish && t.nextRelease <= finish
    ensures var r := Executed(t, start, finish);
            && r.lastStart == start && r.lastDuration == Min(finish - start, UINT32_MAX)
            && r.longestDuration >= t.longestDuration && r.longestDuration >= r.lastDuration
            && (r.longestDuration == t.longestDuration || r.longestDuration == r.lastDuration)
            && r.executions == Min(t.executions + 1, UINT32_MAX)
            && r.overruns == Min(t.overruns + (if finish - start > t.period then 1 else 0), UINT32_MAX)
            && r.missed == Min(t.missed + (finish - t.nextRelease) / t.period, UINT32_MAX)
            && (r.period, r.priority, r.order, r.enabled) == (t.period, t.priority, t.order, t.enabled)
  {
    hide NextGridPoint;
  }

  function Initialized(tasks: seq<Task>, now: uint64): (s: Sched) {
    Sched(seq(|tasks|, i requires 0 <= i < |tasks| =>
            tasks[i].(nextRelease := now, lastStart := 0, lastDuration := 0, longestDuration := 0, executions := 0,
                      overruns := 0, missed := 0)), {})
  }

  lemma {:induction false} RunKeepsReleases(s: Sched, readings: seq<Reading>, clock: uint64, origin: uint64)
    requires SchedInv(s) && Released(s, clock) && AllAccounted(s, origin) && Forward(readings, clock)
    ensures AllAccounted(Execute(s, readings).0, origin)
    decreases |readings|
  {
    hide Step, SchedInv, AllAccounted, Released;
    if readings != [] {
      StepKeepsReleases(s, readings[0], clock, origin);
      RunKeepsReleases(Step(s, readings[0]).0, readings[1..], readings[0].finish, origin);
    }
  }

  /** In every run of an initialized scheduler on a forward clock, the releases of every task are accounted for. */
  lemma ReleasesAreAccounted(tasks: seq<Task>, now: uint64, readings: seq<Reading>)
    requires |tasks| <= TASK_REGISTRY_CAPACITY && forall i | 0 <= i < |tasks| :: tasks[i].order == i
    requires Forward(readings, now)
    ensures SchedInv(Initialized(tasks, now)) && AllAccounted(Execute(Initialized(tasks, now), readings).0, now)
  {
    hide Execute;
    RunKeepsReleases(Initialized(tasks, now), readings, now, now);
  }

  /** And no step of such a run executes a task before its release. */
  lemma {:induction false} NeverBeforeRelease(s: Sched, readings: seq<Reading>, clock: uint64, origin: uint64, k: nat)
    requires SchedInv(s) && Released(s, clock) && AllAccounted(s, origin) && Forward(readings, clock) && k < |readings|
    ensures var before := Execute(s, readings[..k]).0;
            var ran := Execute(s, readings).1[k];
            ran.Some? ==> ran.value < |before.tasks| && before.tasks[ran.value].nextRelease <= readings[k].start
    decreases k
  {
    hide SchedInv, AllAccounted, Released, Executed, Step, Precedes;
    StepKeepsReleases(s, readings[0], clock, origin);
    var next := Step(s, readings[0]).0;
    if k == 0 {
      assert readings[..0] == [];
    } else {
      NeverBeforeRelease(next, readings[1..], readings[0].finish, origin, k - 1);
      assert readings[..k][0] == readings[0] && readings[..k][1..] == readings[1..][..k - 1];
    }
  }

  /* ---------------- the scheduler updated in place ---------------- */

  datatype StepResult = Idle | TaskExecuted

  class TaskScheduler {
    const tasks: array<Task>
    var readyMask: set<nat>
    var lastExecuted: Option<nat>

    ghost function View(): (s: Sched)
      reads this, tasks
    {
      Sched(tasks[..], readyMask)
    }

    constructor (tasks: array<Task>)
      requires tasks.Length <= TASK_REGISTRY_CAPACITY
      ensures this.tasks == tasks && readyMask == {} && lastExecuted == None
    {
      this.tasks := tasks;
      readyMask := {};
      lastExecuted := None;
    }

    /** Every task starts on the same grid origin with its counters at zero. */
    method Initialize(now: uint64)
      modifies this, tasks
      ensures View() == Initialized(old(tasks[..]), now) && lastExecuted == None
    {
      for index := 0 to tasks.Length
        invariant forall i | 0 <= i < index :: tasks[i] == Initialized(old(tasks[..]), now).tasks[i]
        invariant forall i | index <= i < tasks.Length :: tasks[i] == old(tasks[i])
      {
        tasks[index] := tasks[index].(
          nextRelease := now, lastStart := 0, lastDuration := 0, longestDuration := 0, executions := 0, overruns := 0,
          missed := 0);
      }
      readyMask := {};
      lastExecuted := None;
    }

    method BuildReadyBatch(now: uint64)
      modifies this
      ensures readyMask == DueTasks(tasks[..], now) && lastExecuted == old(lastExecuted)
    {
      readyMask := {};
      for index := 0 to tasks.Length
        invariant readyMask == set i | 0 <= i < index && tasks[i].enabled && now >= tasks[i].nextRelease
        invariant lastExecuted == old(lastExecuted)
      {
        if tasks[index].enabled && now >= tasks[index].nextRelease {
          readyMask := readyMask + {index};
        }
      }
    }

    /** Scans the mask for the first task in the order, dropping any that was disabled meanwhile. */
    method SelectReadyTask() returns (selected: Option<nat>)
      requires SchedInv(View())
      modifies this
      ensures readyMask == old(readyMask) && lastExecuted == old(lastExecuted)
      ensures selected == FirstBelow(tasks[..], readyMask, tasks.Length)
    {
      selected := None;
      for index := 0 to tasks.Length
        invariant readyMask == old(readyMask) && lastExecuted == old(lastExecuted)
        invariant selected == FirstBelow(tasks[..], readyMask, index)
      {
        if index !in readyMask {
          continue;
        }
        if !tasks[index].enabled {
          // Only a running task can be disabled, and its bit is cleared before it runs.
          assert false;
        }
        if selected.None? || Precedes(tasks[index], tasks[selected.value]) {
          selected := Some(index);
        }
      }
    }

    method RecordExecution(index: nat, start: uint64, finish: uint64)
      requires index < tasks.Length
      modifies tasks
      ensures tasks[..] == old(tasks[..])[index := Executed(old(tasks[index]), start, finish)]
    {
      hide PeriodsPassed, NextGridPoint;
      var task := tasks[index];
      var duration := Difference(finish, start);
      var periods := PeriodsPassed(task, finish);
      var next := NextGridPoint(task, finish);
      var measured := ClampDuration(duration);
      task := task.(lastStart := start, lastDuration := measured);
      if measured > task.longestDuration {
        task := task.(longestDuration := measured);
      }
      task := task.(executions := SaturatingIncrement(task.executions));
      if duration > task.period {
        task := task.(overruns := SaturatingIncrement(task.overruns));
      }
      task := task.(missed := SaturatingAdd(task.missed, periods - 1),
                    nextRelease := next);
      tasks[index] := task;
    }

    method RunOnce(reading: Reading) returns (result: StepResult)
      requires SchedInv(View())
      modifies this, tasks
      ensures SchedInv(View())
      ensures View() == Step(old(View()), reading).0
      ensures result == TaskExecuted <==> Step(old(View()), reading).1.Some?
      ensures lastExecuted == if result == TaskExecuted then Step(old(View()), reading).1 else old(lastExecuted)
    {
      hide Executed, Precedes;
      if readyMask == {} {
        BuildReadyBatch(reading.now);
        if readyMask == {} {
          return Idle;
        }
      }
      assert View() == Batch(old(View()), reading.now);
      var selected := SelectReadyTask();
      if selected.None? {
        return Idle;
      }
      readyMask := readyMask - {selected.value};
      lastExecuted := selected;
      RecordExecution(selected.value, reading.start, reading.finish);
      if reading.disable {
        tasks[selected.value] := tasks[selected.value].(enabled := false);
      }
      assert View() == Step(old(View()), reading).0;
      return TaskExecuted;
    }
  }
}
