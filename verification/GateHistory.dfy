/** Safety of the motor gate over whole runs, stated on the log of what crossed its boundary. */
module GateHistory {
  import opened Counters
  import opened SystemState
  import opened Faults
  import opened MotorCommands
  import opened MotorGate

  type Log = seq<Entry>

  /* ---------------- what a justified frame is ---------------- */

  /** Entries after which the previous arming gives no authority any more. */
  predicate EndsAuthority(e: Entry) {
    e.ArmingDone? || e.DisarmDone? || e.FailsafeEntered? || e.ForceStopped?
  }

  /** Entry k is the arming that gave the source the authority it still has at the end of the log. */
  ghost predicate ArmedAt(log: Log, source: Source, k: nat) {
    && k < |log| && log[k].ArmingDone? && log[k].source == source
    && forall i | k < i < |log| :: !EndsAuthority(log[i])
  }

  /** Entry j is the latest command accepted since then, and the physical frame is its permuted copy. */
  ghost predicate CommandAt(log: Log, source: Source, mapping: Permutation, physical: Command, k: nat, j: nat) {
    && ArmedAt(log, source, k) && k < j < |log|
    && log[j].CommandAccepted? && log[j].source == source && log[j].command.valid
    && Create(Scatter(mapping, log[j].command.throttle), log[j].command.timestamp) == Some(physical)
    && forall i | j < i < |log| :: !log[i].CommandAccepted?
  }

  ghost predicate HasAuthority(log: Log, source: Source) {
    exists k: nat :: ArmedAt(log, source, k)
  }

  ghost predicate Carries(log: Log, source: Source, mapping: Permutation, physical: Command) {
    exists k: nat, j: nat :: CommandAt(log, source, mapping, physical, k, j)
  }

  ghost predicate FrameJustified(before: Log, e: Entry, timeout: nat)
    requires e.FrameGiven?
  {
    e.frame.throttle != ZeroThrottle ==>
      && e.lifecycle == Armed && e.healthy && e.source != NoSource
      && e.frame.timestamp <= e.at <= e.frame.timestamp + timeout
      && Carries(before, e.source, e.mapping, e.frame)
  }

  ghost predicate FramesJustified(log: Log, timeout: nat) {
    forall i | 0 <= i < |log| && log[i].FrameGiven? :: FrameJustified(log[..i], log[i], timeout)
  }

  /* ---------------- what a justified arming is ---------------- */

  predicate EndsPending(e: Entry) {
    e.ArmRequest? || e.ArmingDone? || e.ArmCancelled? || e.DisarmDone? || e.ForceStopped?
  }

  function CountDirections(log: Log): (n: nat)
    decreases |log|
  {
    if log == [] then 0
    else CountDirections(log[..|log| - 1]) + (if log[|log| - 1].DirectionAccepted? then 1 else 0)
  }

  /** Entry f is a stop frame the backend accepted, with no force-stop since. */
  ghost predicate StopStreamFrom(log: Log, f: nat) {
    && f < |log| && log[f].FrameGiven? && log[f].accepted && log[f].frame.throttle == ZeroThrottle
    && forall i | f < i < |log| :: !log[i].ForceStopped?
  }

  /**
   * Entry a is the open arm request, made at least the preparation time after stop frame f, with n direction frames
   * since.
   */
  ghost predicate RequestAt(log: Log, source: Source, n: nat, clock: nat, f: nat, a: nat) {
    && StopStreamFrom(log, f) && f < a < |log|
    && log[a].ArmRequest? && log[a].source == source
    && log[f].at + ARMING_PREPARATION_US <= log[a].at <= clock
    && (forall i | a < i < |log| :: !EndsPending(log[i]))
    && CountDirections(log[a..]) == n
  }

  ghost predicate StopStreamSince(log: Log, at: nat) {
    exists f: nat :: StopStreamFrom(log, f) && log[f].at == at
  }

  ghost predicate Requested(log: Log, source: Source, n: nat, clock: nat) {
    exists f: nat, a: nat :: RequestAt(log, source, n, clock, f, a)
  }

  ghost predicate ArmingJustified(before: Log, e: Entry)
    requires e.ArmingDone?
  {
    e.source != NoSource && Requested(before, e.source, DIRECTION_REPETITIONS, e.at)
  }

  ghost predicate ArmingsJustified(log: Log) {
    forall i | 0 <= i < |log| && log[i].ArmingDone? :: ArmingJustified(log[..i], log[i])
  }

  /* ---------------- invariants ---------------- */

  ghost predicate LifecycleInv(g: Gate) {
    && RegistryInv(g.catalog, g.registry, g.machine)
    && DeclaresMotorFaults(g.catalog)
    && (g.active != NoSource ==> g.machine.current == Armed || g.machine.current == Fault)
    && (g.pending != NoSource ==> g.machine.current == Disarmed || g.machine.current == Fault)
  }

  ghost predicate FrameInv(g: Gate) {
    && (g.machine.current == Armed && g.active != NoSource ==> HasAuthority(g.log, g.active))
    && (g.machine.current == Armed && g.retained.valid ==>
          g.active != NoSource && Carries(g.log, g.active, g.mapping, g.retained))
    && FramesJustified(g.log, g.timeout)
  }

  ghost predicate PreparationInv(g: Gate, clock: nat) {
    && g.directionsRemaining <= DIRECTION_REPETITIONS
    && (g.stopStreamStarted ==> g.stopStreamStartedAt <= clock && StopStreamSince(g.log, g.stopStreamStartedAt))
    && (g.preparationComplete ==> g.stopStreamStarted && g.stopStreamStartedAt + ARMING_PREPARATION_US <= clock)
    && (g.machine.current == Disarmed && g.pending != NoSource ==>
          && g.directionSequenceActive
          && Requested(g.log, g.pending, DIRECTION_REPETITIONS - g.directionsRemaining, clock))
    && ArmingsJustified(g.log)
  }

  ghost predicate SafeInv(g: Gate) {
    LifecycleInv(g) && FrameInv(g)
  }

  /* ---------------- extending the log ---------------- */

  lemma ExtendFrames(log: Log, e: Entry, timeout: nat)
    requires FramesJustified(log, timeout)
    requires e.FrameGiven? ==> FrameJustified(log, e, timeout)
    ensures FramesJustified(log + [e], timeout)
  {
    forall i | 0 <= i < |log + [e]| && (log + [e])[i].FrameGiven?
      ensures FrameJustified((log + [e])[..i], (log + [e])[i], timeout)
    {
      assert (log + [e])[..i] == log[..i];
      if i == |log| {
        assert log[..i] == log;
      }
    }
  }

  lemma ExtendArmings(log: Log, e: Entry)
    requires ArmingsJustified(log)
    requires e.ArmingDone? ==> ArmingJustified(log, e)
    ensures ArmingsJustified(log + [e])
  {
    forall i | 0 <= i < |log + [e]| && (log + [e])[i].ArmingDone?
      ensures ArmingJustified((log + [e])[..i], (log + [e])[i])
    {
      assert (log + [e])[..i] == log[..i];
      if i == |log| {
        assert log[..i] == log;
      }
    }
  }

  lemma ExtendAuthority(log: Log, e: Entry, source: Source)
    requires !EndsAuthority(e) && HasAuthority(log, source)
    ensures HasAuthority(log + [e], source)
  {
    var k: nat :| ArmedAt(log, source, k);
    assert ArmedAt(log + [e], source, k);
  }

  lemma ExtendCarries(log: Log, e: Entry, source: Source, mapping: Permutation, physical: Command)
    requires !EndsAuthority(e) && !e.CommandAccepted? && Carries(log, source, mapping, physical)
    ensures Carries(log + [e], source, mapping, physical)
  {
    var k: nat, j: nat :| CommandAt(log, source, mapping, physical, k, j);
    assert ArmedAt(log + [e], source, k);
    assert CommandAt(log + [e], source, mapping, physical, k, j);
  }

  lemma NewCarries(log: Log, source: Source, command: Command, mapping: Permutation)
    requires HasAuthority(log, source) && command.valid && InRange(command.throttle)
    ensures var physical := MapCommand(mapping, Create(command.throttle, command.timestamp).value);
            physical.Some? && Carries(log + [CommandAccepted(source, command)], source, mapping, physical.value)
  {
    var e := CommandAccepted(source, command);
    ValidationIsIdempotent(mapping, command.throttle, command.timestamp);
    SettleScatters(mapping, command.throttle);
    var physical := MapCommand(mapping, Create(command.throttle, command.timestamp).value).value;
    var k: nat :| ArmedAt(log, source, k);
    assert ArmedAt(log + [e], source, k);
    assert CommandAt(log + [e], source, mapping, physical, k, |log|);
  }

  lemma ExtendStopStream(log: Log, e: Entry, at: nat)
    requires StopStreamSince(log, at) && !e.ForceStopped?
    ensures StopStreamSince(log + [e], at)
  {
    var f: nat :| StopStreamFrom(log, f) && log[f].at == at;
    assert StopStreamFrom(log + [e], f) && (log + [e])[f].at == at;
  }

  lemma NewStopStream(log: Log, e: Entry)
    requires e.FrameGiven? && e.accepted && e.frame.throttle == ZeroThrottle
    ensures StopStreamSince(log + [e], e.at)
  {
    assert StopStreamFrom(log + [e], |log|) && (log + [e])[|log|].at == e.at;
  }

  lemma ExtendRequest(log: Log, e: Entry, source: Source, n: nat, clock: nat)
    requires Requested(log, source, n, clock) && !EndsPending(e)
    ensures Requested(log + [e], source, n + (if e.DirectionAccepted? then 1 else 0), clock)
  {
    var f: nat, a: nat :| RequestAt(log, source, n, clock, f, a);
    assert (log + [e])[a..] == log[a..] + [e];
    assert (log[a..] + [e])[..|log[a..]|] == log[a..];
    assert StopStreamFrom(log + [e], f);
    assert RequestAt(log + [e], source, n + (if e.DirectionAccepted? then 1 else 0), clock, f, a);
  }

  lemma NewRequest(log: Log, source: Source, startedAt: nat, now: nat)
    requires StopStreamSince(log, startedAt) && startedAt + ARMING_PREPARATION_US <= now
    ensures Requested(log + [ArmRequest(source, now)], source, 0, now)
  {
    var e := ArmRequest(source, now);
    var f: nat :| StopStreamFrom(log, f) && log[f].at == startedAt;
    assert StopStreamFrom(log + [e], f);
    assert (log + [e])[|log|..] == [e];
    assert CountDirections([e]) == CountDirections([e][..0]);
    assert RequestAt(log + [e], source, 0, now, f, |log|);
  }

  lemma LaterRequest(log: Log, source: Source, n: nat, clock: nat, later: nat)
    requires Requested(log, source, n, clock) && clock <= later
    ensures Requested(log, source, n, later)
  {
    var f: nat, a: nat :| RequestAt(log, source, n, clock, f, a);
    assert RequestAt(log, source, n, later, f, a);
  }

  /** Appending an entry that neither stops the stream nor touches a pending request keeps the preparation. */
  lemma ExtendPreparation(g: Gate, e: Entry, clock: nat)
    requires PreparationInv(g, clock) && !e.ForceStopped?
    requires g.machine.current == Disarmed && g.pending != NoSource ==> !EndsPending(e) && !e.DirectionAccepted?
    requires e.ArmingDone? ==> ArmingJustified(g.log, e)
    ensures PreparationInv(g.(log := g.log + [e]), clock)
  {
    ExtendArmings(g.log, e);
    if g.stopStreamStarted {
      ExtendStopStream(g.log, e, g.stopStreamStartedAt);
    }
    if g.machine.current == Disarmed && g.pending != NoSource {
      ExtendRequest(g.log, e, g.pending, DIRECTION_REPETITIONS - g.directionsRemaining, clock);
    }
  }

  /** A clock reading not behind the last one never hurts. */
  lemma LaterClock(g: Gate, clock: nat, later: nat)
    requires PreparationInv(g, clock) && clock <= later
    ensures PreparationInv(g, later)
  {
    if g.machine.current == Disarmed && g.pending != NoSource {
      LaterRequest(g.log, g.pending, DIRECTION_REPETITIONS - g.directionsRemaining, clock, later);
    }
  }

  /* ---------------- internal steps keep the invariants ---------------- */

  lemma ReportSafe(g: Gate, id: nat, clock: nat)
    requires SafeInv(g)
    ensures var r := ReportMotorFault(g, id);
            && SafeInv(r)
            && (PreparationInv(g, clock) ==> PreparationInv(r, clock))
            && (r.machine == g.machine || r.machine.current == Fault)
            && (Definition(id, Critical) in g.catalog || g.machine.current == Fault ==> r.machine.current == Fault)
  {
    ReportKeeps(g.catalog, g.registry, g.machine, id);
  }

  lemma EnterFailsafeSafe(g: Gate, clock: nat)
    requires SafeInv(g)
    ensures var r := EnterFailsafeIfArmed(g);
            && SafeInv(r) && r.machine.current != Armed
            && (PreparationInv(g, clock) ==> PreparationInv(r, clock))
  {
    if g.machine.current == Armed {
      ExtendFrames(g.log, FailsafeEntered, g.timeout);
      if PreparationInv(g, clock) {
        ExtendPreparation(g, FailsafeEntered, clock);
      }
    }
  }

  lemma ForceStopSafe(g: Gate, stopAccepted: bool, clock: nat)
    requires SafeInv(g)
    ensures var r := ForceStop(g, stopAccepted).0;
            && SafeInv(r)
            && (PreparationInv(g, clock) ==> PreparationInv(r, clock))
            && (g.machine.current == Fault || !stopAccepted ==> r.machine.current == Fault)
  {
    var e := ForceStopped(stopAccepted);
    ExtendFrames(g.log, e, g.timeout);
    var stopped := g.(
      active := NoSource, pending := NoSource, directionSequenceActive := false, directionsRemaining := 0,
      transferInProgress := false, stopStreamStarted := false, preparationComplete := false,
      retained := InvalidCommand, log := g.log + [e], outputsStopped := stopAccepted);
    if PreparationInv(g, clock) {
      ExtendArmings(g.log, e);
    }
    if !stopAccepted {
      ReportSafe(stopped, FAULT_ID_MOTOR_FORCE_STOP, clock);
    }
  }

  lemma StopAndReturnSafe(g: Gate, stopAccepted: bool, result: SubmitResult, clock: nat)
    requires SafeInv(g)
    ensures var r := StopAndReturn(g, stopAccepted, result).0;
            SafeInv(r) && (PreparationInv(g, clock) ==> PreparationInv(r, clock))
  {
    if !g.outputsStopped {
      ForceStopSafe(g, stopAccepted, clock);
    }
  }

  lemma FailOutputSafe(g: Gate, stopAccepted: bool, clock: nat)
    requires SafeInv(g)
    ensures var r := FailOutput(g, stopAccepted).0;
            && SafeInv(r) && r.machine.current == Fault
            && (PreparationInv(g, clock) ==> PreparationInv(r, clock))
  {
    ReportSafe(g, FAULT_ID_MOTOR_OUTPUT, clock);
    ForceStopSafe(ReportMotorFault(g, FAULT_ID_MOTOR_OUTPUT), stopAccepted, clock);
  }

  /* ---------------- arming ---------------- */

  lemma ArmSafe(g: Gate, source: Source, now: nat)
    requires SafeInv(g)
    ensures SafeInv(Arm(g, source, now).0)
    ensures PreparationInv(g, now) ==> PreparationInv(Arm(g, source, now).0, now)
  {
    var (ready, ok) := ReadyForArm(g, now);
    if Arm(g, source, now).1 == ArmPending {
      var e := ArmRequest(source, now);
      ExtendFrames(g.log, e, g.timeout);
      if PreparationInv(g, now) {
        ExtendPreparation(g, e, now);
        NewRequest(g.log, source, g.stopStreamStartedAt, now);
      }
    }
  }

  lemma CancelSafe(g: Gate, clock: nat)
    requires SafeInv(g) && g.machine.current == Disarmed
    ensures var r := g.(pending := NoSource, log := g.log + [ArmCancelled]);
            SafeInv(r) && (PreparationInv(g, clock) ==> PreparationInv(r, clock))
  {
    ExtendFrames(g.log, ArmCancelled, g.timeout);
    if PreparationInv(g, clock) {
      ExtendPreparation(g.(pending := NoSource), ArmCancelled, clock);
    }
  }

  lemma DisarmedSafe(g: Gate, machine: Machine, clock: nat)
    requires SafeInv(g) && machine.current == Disarmed
    requires g.machine.current == Armed || g.machine.current == Failsafe
    ensures var r := g.(
              machine := machine, active := NoSource, retained := InvalidCommand, log := g.log + [DisarmDone]);
            SafeInv(r) && (PreparationInv(g, clock) ==> PreparationInv(r, clock))
  {
    ExtendFrames(g.log, DisarmDone, g.timeout);
    if PreparationInv(g, clock) {
      ExtendPreparation(g, DisarmDone, clock);
    }
  }

  lemma DisarmSafe(g: Gate, clock: nat)
    requires SafeInv(g)
    ensures var r := Disarm(g).0;
            && SafeInv(r)
            && (PreparationInv(g, clock) ==> PreparationInv(r, clock))
  {
    var (machine, result) := HandleEvent(g.machine, DisarmRequested);
    if g.machine.current == Disarmed && g.pending != NoSource {
      CancelSafe(g, clock);
    } else if result == TransitionOk {
      DisarmedSafe(g, machine, clock);
    } else {
      assert machine.current == g.machine.current;
    }
  }

  lemma CompletePendingArmSafe(g: Gate, now: nat)
    requires SafeInv(g) && g.machine.current == Disarmed && g.directionsRemaining == 0
    ensures var r := CompletePendingArm(g.(directionSequenceActive := false), now);
            && SafeInv(r)
            && (r.machine.current == Armed ==> !r.retained.valid)
            && (PreparationInv(g, now) ==> PreparationInv(r, now))
  {
    hide FrameJustified, OutputAllowed, ArmingJustified, Requested, DeclaresMotorFaults, StopStreamSince;
    var r := CompletePendingArm(g.(directionSequenceActive := false), now);
    if r.machine.current == Armed {
      var e := ArmingDone(g.pending, now);
      assert r.log == g.log + [e];
      ExtendFrames(g.log, e, g.timeout);
      assert ArmedAt(g.log + [e], g.pending, |g.log|);
      if PreparationInv(g, now) {
        var cleared := g.(pending := NoSource);
        ExtendPreparation(cleared, e, now);
      }
    }
  }

  /* ---------------- commands and frames ---------------- */

  lemma DropCommandSafe(g: Gate, clock: nat)
    requires SafeInv(g) && g.machine.current != Armed
    ensures var r := g.(active := NoSource, retained := InvalidCommand);
            SafeInv(r) && (PreparationInv(g, clock) ==> PreparationInv(r, clock))
  {
  }

  lemma SubmitSafe(g: Gate, source: Source, command: Command, now: nat, stopAccepted: bool, clock: nat)
    requires SafeInv(g)
    ensures var r := Submit(g, source, command, now, stopAccepted).0;
            SafeInv(r) && (PreparationInv(g, clock) ==> PreparationInv(r, clock))
  {
    if g.machine.current != Armed {
      DropCommandSafe(g, clock);
      return;
    }
    if source == NoSource || source != g.active || !g.preparationComplete {
      return;
    }
    if g.Healthy() && command.valid && InRange(command.throttle) &&
       IsFresh(Create(command.throttle, command.timestamp).value, now, g.timeout) {
      AcceptCommandSafe(g, source, command, now, stopAccepted, clock);
    } else {
      RejectCommandSafe(g, source, command, now, stopAccepted, clock);
    }
  }

  lemma RejectCommandSafe(g: Gate, source: Source, command: Command, now: nat, stopAccepted: bool, clock: nat)
    requires SafeInv(g) && g.machine.current == Armed && source != NoSource && source == g.active
    requires g.preparationComplete
    requires !g.Healthy() || !command.valid || !InRange(command.throttle) ||
             !IsFresh(Create(command.throttle, command.timestamp).value, now, g.timeout)
    ensures var r := Submit(g, source, command, now, stopAccepted).0;
            SafeInv(r) && (PreparationInv(g, clock) ==> PreparationInv(r, clock))
  {
    var result :=
      if !g.Healthy() then SubmitBlockedHealth
      else if !command.valid || !InRange(command.throttle) then SubmitInvalidCommand
      else SubmitStaleCommand;
    EnterFailsafeSafe(g, clock);
    StopAndReturnSafe(EnterFailsafeIfArmed(g), stopAccepted, result, clock);
    assert Submit(g, source, command, now, stopAccepted) ==
        StopAndReturn(EnterFailsafeIfArmed(g), stopAccepted, result);
  }

  lemma AcceptCommandSafe(g: Gate, source: Source, command: Command, now: nat, stopAccepted: bool, clock: nat)
    requires SafeInv(g) && g.machine.current == Armed && source != NoSource && source == g.active
    requires g.preparationComplete && g.Healthy() && command.valid && InRange(command.throttle)
    requires IsFresh(Create(command.throttle, command.timestamp).value, now, g.timeout)
    ensures var (r, result) := Submit(g, source, command, now, stopAccepted);
            result == SubmitOk && SafeInv(r) && (PreparationInv(g, clock) ==> PreparationInv(r, clock))
  {
    NewCarries(g.log, source, command, g.mapping);
    var e := CommandAccepted(source, command);
    ExtendFrames(g.log, e, g.timeout);
    ExtendAuthority(g.log, e, source);
    if PreparationInv(g, clock) {
      ExtendPreparation(g, e, clock);
    }
  }

  /** What a command may be when it is given to the backend from this gate. */
  ghost predicate MayGive(g: Gate, command: Command, now: nat) {
    && command.valid
    && (command.throttle != ZeroThrottle ==>
          g.machine.current == Armed && g.Healthy() && command == g.retained && IsFresh(command, now, g.timeout))
  }

  lemma SelectCommandSafe(g: Gate, now: nat)
    requires SafeInv(g)
    ensures var r := SelectCommand(g, now);
            && SafeInv(r.0) && MayGive(r.0, r.1, now)
            && (r.1.throttle != ZeroThrottle ==> r.0 == g)
            && (PreparationInv(g, now) ==> PreparationInv(r.0, now))
  {
    hide IsFresh, OutputAllowed, RegistryInv, FramesJustified, ArmingsJustified, DeclaresMotorFaults;
    if g.machine.current == Armed {
      EnterFailsafeSafe(g, now);
      var failsafe := EnterFailsafeIfArmed(g);
      assert failsafe.(retained := InvalidCommand) == failsafe;
    } else {
      DropCommandSafe(g, now);
    }
  }

  /** A retained command survives the facade's revalidation unchanged. */
  lemma CanonicalSafe(g: Gate, command: Command, now: nat)
    requires SafeInv(g) && MayGive(g, command, now)
    ensures CanonicalFrame(command) == Some(command)
  {
    if command.throttle != ZeroThrottle {
      var k: nat, j: nat :| CommandAt(g.log, g.active, g.mapping, g.retained, k, j);
      SettleTwice(Scatter(g.mapping, g.log[j].command.throttle));
    } else {
      assert SettleAll(ZeroThrottle) == ZeroThrottle;
    }
  }

  lemma FrameEntrySafe(g: Gate, command: Command, accepted: bool, now: nat)
    requires SafeInv(g) && MayGive(g, command, now)
    ensures SafeInv(g.(log := g.log + [FrameEntry(g, command, accepted, now)]))
    ensures PreparationInv(g, now) ==> PreparationInv(g.(log := g.log + [FrameEntry(g, command, accepted, now)]), now)
  {
    var e := FrameEntry(g, command, accepted, now);
    ExtendFrames(g.log, e, g.timeout);
    if g.machine.current == Armed && g.active != NoSource {
      ExtendAuthority(g.log, e, g.active);
      if g.retained.valid {
        ExtendCarries(g.log, e, g.active, g.mapping, g.retained);
      }
    }
    if PreparationInv(g, now) {
      ExtendPreparation(g, e, now);
    }
  }

  lemma SentSafe(g: Gate, command: Command, now: nat)
    requires SafeInv(g) && MayGive(g, command, now)
    ensures var r := Sent(g.(log := g.log + [FrameEntry(g, command, true, now)]), command, now);
            SafeInv(r) && (PreparationInv(g, now) ==> PreparationInv(r, now))
  {
    hide FrameJustified, ArmingJustified, RegistryInv, OutputAllowed, IsFresh;
    var e := FrameEntry(g, command, true, now);
    FrameEntrySafe(g, command, true, now);
    if IsStop(command) {
      NewStopStream(g.log, e);
    }
  }

  lemma SubmitFrameSafe(g: Gate, command: Command, failsafeEntered: bool, now: nat, replies: Replies)
    requires SafeInv(g) && MayGive(g, command, now)
    ensures var r := SubmitFrame(g, command, failsafeEntered, now, replies).0;
            SafeInv(r) && (PreparationInv(g, now) ==> PreparationInv(r, now))
  {
    hide SafeInv, PreparationInv, MayGive, FailOutput, EnterFailsafeIfArmed, Sent, FrameEntry;
    CanonicalSafe(g, command, now);
    if replies.submit == SubmitAccepted {
      SentSafe(g, command, now);
    } else {
      var noted := g.(log := g.log + [FrameEntry(g, command, false, now)]);
      FrameEntrySafe(g, command, false, now);
      EnterFailsafeSafe(noted, now);
      FailOutputSafe(EnterFailsafeIfArmed(noted), replies.stopAccepted, now);
    }
  }

  lemma SendDirectionsSafe(g: Gate, now: nat, replies: Replies)
    requires SafeInv(g) && g.machine.current == Disarmed && g.directionsRemaining > 0
    ensures var r := SendDirections(g, now, replies).0;
            SafeInv(r) && (PreparationInv(g, now) ==> PreparationInv(r, now))
  {
    if replies.directions != SubmitAccepted {
      FailOutputSafe(g, replies.stopAccepted, now);
    } else {
      var e := DirectionAccepted(Scatter(g.mapping, g.configuration));
      ExtendFrames(g.log, e, g.timeout);
      if PreparationInv(g, now) {
        ExtendArmings(g.log, e);
        if g.stopStreamStarted {
          ExtendStopStream(g.log, e, g.stopStreamStartedAt);
        }
        if g.pending != NoSource {
          ExtendRequest(g.log, e, g.pending, DIRECTION_REPETITIONS - g.directionsRemaining, now);
        }
      }
    }
  }

  lemma HaltSafe(g: Gate, now: nat, replies: Replies)
    requires SafeInv(g) && Halts(g) && replies.status != BackendError
    ensures var r := Synchronize(g, now, replies).0;
            SafeInv(r) && (PreparationInv(g, now) ==> PreparationInv(r, now))
  {
    var g1 := if replies.status == Idle then g.(transferInProgress := false) else g;
    var halted := g1.(active := NoSource, pending := NoSource, directionSequenceActive := false,
                      retained := InvalidCommand);
    assert SafeInv(halted) && (PreparationInv(g, now) ==> PreparationInv(halted, now));
    ForceStopSafe(halted, replies.stopAccepted, now);
  }

  lemma PolledSafe(g: Gate, clock: nat)
    requires SafeInv(g)
    ensures var r := g.(transferInProgress := false);
            SafeInv(r) && (PreparationInv(g, clock) ==> PreparationInv(r, clock))
  {
  }

  lemma BusySafe(g: Gate, now: nat, replies: Replies)
    requires SafeInv(g) && !Halts(g) && replies.status == Busy
    ensures var r := Synchronize(g, now, replies).0;
            SafeInv(r) && (PreparationInv(g, now) ==> PreparationInv(r, now))
  {
    hide SafeInv, PreparationInv, SelectCommand, EnterFailsafeIfArmed, FailOutput;
    SelectCommandSafe(g, now);
    var g2 := SelectCommand(g, now).0;
    EnterFailsafeSafe(g2, now);
    FailOutputSafe(EnterFailsafeIfArmed(g2), replies.stopAccepted, now);
  }

  lemma IdleSafe(g: Gate, now: nat, replies: Replies)
    requires SafeInv(g) && !Halts(g) && replies.status == Idle
    ensures var r := Synchronize(g, now, replies).0;
            SafeInv(r) && (PreparationInv(g, now) ==> PreparationInv(r, now))
  {
    hide SafeInv, PreparationInv, SelectCommand, SubmitFrame, SendDirections, CompletePendingArm, OutputAllowed,
        IsFresh;
    var g1 := g.(transferInProgress := false);
    PolledSafe(g, now);
    SelectCommandSafe(g1, now);
    var (g2, command, failsafeEntered) := SelectCommand(g1, now);
    if g2.machine.current != Disarmed || !g2.directionSequenceActive {
      SubmitFrameSafe(g2, command, failsafeEntered, now, replies);
    } else if g2.directionsRemaining == 0 {
      CompletePendingArmSafe(g2, now);
      SubmitFrameSafe(CompletePendingArm(g2.(directionSequenceActive := false), now), command, failsafeEntered, now,
          replies);
    } else {
      SendDirectionsSafe(g2, now, replies);
    }
  }

  lemma SynchronizeSafe(g: Gate, now: nat, replies: Replies)
    requires SafeInv(g)
    ensures var r := Synchronize(g, now, replies).0;
            SafeInv(r) && (PreparationInv(g, now) ==> PreparationInv(r, now))
  {
    if replies.status == BackendError {
      EnterFailsafeSafe(g, now);
      FailOutputSafe(EnterFailsafeIfArmed(g), replies.stopAccepted, now);
    } else if Halts(g) {
      HaltSafe(g, now, replies);
    } else if replies.status == Busy {
      BusySafe(g, now, replies);
    } else {
      IdleSafe(g, now, replies);
    }
  }

  /* ---------------- every call ---------------- */

  function ReadingOf(call: Call, clock: nat): (t: nat) {
    match call
    case DoArm(_, at) => at
    case DoSubmit(_, _, at, _) => at
    case DoSynchronize(at, _) => at
    case _ => clock
  }

  lemma RemapSafe(g: Gate, mapping: Permutation, clock: nat)
    requires SafeInv(g) && g.machine.current == Disarmed
    ensures SafeInv(g.(mapping := mapping))
    ensures PreparationInv(g, clock) ==> PreparationInv(g.(mapping := mapping), clock)
  {
  }

  lemma ConfigureMappingSafe(g: Gate, mapping: Mapping, clock: nat)
    requires SafeInv(g)
    ensures var r := ConfigureMapping(g, mapping).0;
            SafeInv(r) && (PreparationInv(g, clock) ==> PreparationInv(r, clock))
  {
    if g.machine.current == Disarmed && IsPermutation(mapping) {
      RemapSafe(g, mapping, clock);
    }
  }

  lemma ApplyConfigurationSafe(g: Gate, configuration: Directions, clock: nat)
    requires SafeInv(g)
    ensures var r := ApplyConfiguration(g, configuration).0;
            SafeInv(r) && (PreparationInv(g, clock) ==> PreparationInv(r, clock))
  {
  }

  lemma SetExternalArmReadySafe(g: Gate, ready: bool, clock: nat)
    requires SafeInv(g)
    ensures var r := SetExternalArmReady(g, ready).0;
            SafeInv(r) && (PreparationInv(g, clock) ==> PreparationInv(r, clock))
  {
  }

  lemma SharedStateSafe(g: Gate, id: nat, completed: bool, clock: nat)
    requires SafeInv(g)
    ensures var r := g.(registry := Clear(g.catalog, g.registry, id).0);
            SafeInv(r) && (PreparationInv(g, clock) ==> PreparationInv(r, clock))
    ensures var event := if completed then InitializationCompleted else InitializationStarted;
            var r := g.(machine := HandleEvent(g.machine, event).0);
            SafeInv(r) && (PreparationInv(g, clock) ==> PreparationInv(r, clock))
  {
    ClearKeeps(g.catalog, g.registry, g.machine, id);
  }

  /** Every call keeps frames justified; with a clock reading not behind the last one, armings too. */
  lemma StepSafe(g: Gate, call: Call, clock: nat)
    requires SafeInv(g)
    ensures SafeInv(Step(g, call)) && Step(g, call).timeout == g.timeout
    ensures PreparationInv(g, clock) && clock <= ReadingOf(call, clock) ==>
              PreparationInv(Step(g, call), ReadingOf(call, clock))
  {
    hide SafeInv, PreparationInv, Arm, Disarm, Submit, Synchronize, MotorGate.ForceStop, EnterFailsafeIfArmed;
    hide ConfigureMapping, ApplyConfiguration, SetExternalArmReady, ReportMotorFault, HandleEvent;
    var later := ReadingOf(call, clock);
    if PreparationInv(g, clock) && clock <= later {
      LaterClock(g, clock, later);
    }
    match call
    case DoArm(source, at) => ArmSafe(g, source, at);
    case DoDisarm => DisarmSafe(g, clock);
    case DoRecover => DisarmSafe(g, clock);
    case DoSubmit(source, command, at, stopAccepted) => SubmitSafe(g, source, command, at, stopAccepted, at);
    case DoSynchronize(at, replies) => SynchronizeSafe(g, at, replies);
    case DoForceStop(stopAccepted) => ForceStopSafe(g, stopAccepted, clock);
    case DoEnterFailsafe => EnterFailsafeSafe(g, clock);
    case DoConfigureMapping(mapping) => ConfigureMappingSafe(g, mapping, clock);
    case DoApplyConfiguration(configuration) => ApplyConfigurationSafe(g, configuration, clock);
    case DoSetExternalArmReady(ready) => SetExternalArmReadySafe(g, ready, clock);
    case DoReport(id) => ReportSafe(g, id, clock);
    case DoClear(id) => SharedStateSafe(g, id, false, clock);
    case DoInitializationEvent(completed) => SharedStateSafe(g, 0, completed, clock);
  }

  /* ---------------- whole runs ---------------- */

  ghost function Run(g: Gate, calls: seq<Call>): (r: Gate)
    requires SafeInv(g)
    ensures SafeInv(r) && r.timeout == g.timeout
    decreases |calls|
  {
    if calls == [] then g
    else
      StepSafe(g, calls[0], 0);
      Run(Step(g, calls[0]), calls[1..])
  }

  predicate MonotoneFrom(calls: seq<Call>, clock: nat)
    decreases |calls|
  {
    calls == [] || (clock <= ReadingOf(calls[0], clock) && MonotoneFrom(calls[1..], ReadingOf(calls[0], clock)))
  }

  lemma StartedIsSafe(machine: Machine, registry: Registry, catalog: Catalog, timeout: nat, configuration: Directions,
          clock: nat)
    requires RegistryInv(catalog, registry, machine) && DeclaresMotorFaults(catalog)
    ensures var g := Started(machine, registry, catalog, timeout, configuration);
            SafeInv(g) && PreparationInv(g, clock)
  {
  }

  lemma {:induction false} RunTimed(g: Gate, calls: seq<Call>, clock: nat)
    requires SafeInv(g) && PreparationInv(g, clock) && MonotoneFrom(calls, clock)
    ensures ArmingsJustified(Run(g, calls).log)
    decreases |calls|
  {
    if calls != [] {
      StepSafe(g, calls[0], 0);
      StepSafe(g, calls[0], clock);
      RunTimed(Step(g, calls[0]), calls[1..], ReadingOf(calls[0], clock));
    }
  }

  /**
   * In every run of the started gate, each nonzero frame given to the backend was given while ARMED and
   * healthy, within its lease, and is the permuted copy of the latest command accepted from the armed
   * source since its own arming. No assumption is made about the clock or the backend.
   */
  lemma EveryFrameIsJustified(machine: Machine, registry: Registry, catalog: Catalog, timeout: nat,
                              configuration: Directions, calls: seq<Call>)
    requires RegistryInv(catalog, registry, machine) && DeclaresMotorFaults(catalog)
    ensures var g := Started(machine, registry, catalog, timeout, configuration);
            SafeInv(g) && FramesJustified(Run(g, calls).log, timeout)
  {
    StartedIsSafe(machine, registry, catalog, timeout, configuration, 0);
  }

  /**
   * In every run with a monotone clock, each arming follows its own request by exactly ten accepted direction
   * frames with nothing cancelling between, and the request came at least five seconds after a stop frame
   * the backend accepted, with no force-stop since that frame.
   */
  lemma EveryArmingIsJustified(machine: Machine, registry: Registry, catalog: Catalog, timeout: nat,
                               configuration: Directions, calls: seq<Call>)
    requires RegistryInv(catalog, registry, machine) && DeclaresMotorFaults(catalog)
    requires MonotoneFrom(calls, 0)
    ensures var g := Started(machine, registry, catalog, timeout, configuration);
            SafeInv(g) && ArmingsJustified(Run(g, calls).log)
  {
    StartedIsSafe(machine, registry, catalog, timeout, configuration, 0);
    RunTimed(Started(machine, registry, catalog, timeout, configuration), calls, 0);
  }

  /** In every reachable gate an active critical record or a dropped one means FAULT, and health is the lifecycle. */
  lemma ReachableHealth(machine: Machine, registry: Registry, catalog: Catalog, timeout: nat,
                        configuration: Directions, calls: seq<Call>)
    requires RegistryInv(catalog, registry, machine) && DeclaresMotorFaults(catalog)
    ensures var g := Started(machine, registry, catalog, timeout, configuration);
            SafeInv(g) &&
            var r := Run(g, calls);
            && (HasCritical(r.registry.records) || r.registry.dropped > 0 ==> r.machine.current == Fault)
            && UniqueIds(r.registry.records) && r.registry.activeCount == CountActive(r.registry.records)
            && (r.Healthy() <==> r.machine.current != Fault)
  {
    StartedIsSafe(machine, registry, catalog, timeout, configuration, 0);
    var r := Run(Started(machine, registry, catalog, timeout, configuration), calls);
    HealthIsLifecycle(r.catalog, r.registry, r.machine);
  }

  predicate MovesMotors(e: Entry) {
    e.FrameGiven? || e.DirectionAccepted?
  }

  lemma FaultForceStop(g: Gate, stopAccepted: bool)
    requires SafeInv(g) && g.machine.current == Fault
    ensures var r := ForceStop(g, stopAccepted).0;
            r.machine.current == Fault && r.log == g.log + [ForceStopped(stopAccepted)]
  {
    ForceStopSafe(g, stopAccepted, 0);
  }

  lemma FaultSynchronize(g: Gate, now: nat, replies: Replies)
    requires SafeInv(g) && g.machine.current == Fault
    ensures var r := Synchronize(g, now, replies).0;
            && r.machine.current == Fault
            && (r.log == g.log || r.log == g.log + [ForceStopped(true)] || r.log == g.log + [ForceStopped(false)])
  {
    if replies.status == BackendError {
      ReportSafe(g, FAULT_ID_MOTOR_OUTPUT, 0);
      FaultForceStop(ReportMotorFault(g, FAULT_ID_MOTOR_OUTPUT), replies.stopAccepted);
    } else {
      var g1 := if replies.status == Idle then g.(transferInProgress := false) else g;
      var halted := g1.(active := NoSource, pending := NoSource, directionSequenceActive := false,
                        retained := InvalidCommand);
      assert SafeInv(halted);
      FaultForceStop(halted, replies.stopAccepted);
    }
  }

  lemma FaultStep(g: Gate, call: Call)
    requires SafeInv(g) && g.machine.current == Fault
    ensures var r := Step(g, call);
            && r.machine.current == Fault
            && (r.log == g.log || r.log == g.log + [ForceStopped(true)] || r.log == g.log + [ForceStopped(false)])
  {
    match call
    case DoSynchronize(at, replies) => FaultSynchronize(g, at, replies);
    case DoForceStop(stopAccepted) => FaultForceStop(g, stopAccepted);
    case DoReport(id) => ReportSafe(g, id, 0);
    case _ =>
  }

  /** FAULT is terminal: whatever is called afterwards, no power or direction frame reaches the backend again. */
  lemma {:induction false} FaultIsTerminal(g: Gate, calls: seq<Call>)
    requires SafeInv(g) && g.machine.current == Fault
    ensures var r := Run(g, calls);
            && r.machine.current == Fault && g.log <= r.log
            && forall i | |g.log| <= i < |r.log| :: !MovesMotors(r.log[i])
    decreases |calls|
  {
    if calls != [] {
      StepSafe(g, calls[0], 0);
      FaultStep(g, calls[0]);
      FaultIsTerminal(Step(g, calls[0]), calls[1..]);
    }
  }
}
