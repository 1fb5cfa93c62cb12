/** What the gate gives: the converse of its safety theorems, call by call and over whole runs. */
module GateGives {
  import opened Counters
  import opened SystemState
  import opened Faults
  import opened MotorCommands
  import opened MotorGate
  import opened GateHistory

  /** The command may still be used at this time. */
  predicate Leased(c: Command, now: nat, timeout: nat) {
    timeout != 0 && c.timestamp <= now <= c.timestamp + timeout
  }

  predicate Usable(t: Throttles) {
    forall i | 0 <= i < MOTOR_COUNT :: 0.0 <= t[i] <= 1.0
  }

  /** What a motor is given for a throttle value. */
  function Effective(x: real): (r: real) {
    if x <= 0.001 then 0.0 else x
  }

  /** Each logical value, near-zero ones zero, at the output its motor is mapped to. */
  predicate Routed(m: Permutation, logical: Throttles, physical: Throttles) {
    forall i | 0 <= i < MOTOR_COUNT :: physical[m[i]] == Effective(logical[i])
  }

  lemma RoutedIsMapped(m: Permutation, c: Command)
    ensures c.valid && Usable(c.throttle) <==> MapCommand(m, c).Some?
    ensures MapCommand(m, c).Some? ==>
              var p := MapCommand(m, c).value;
              p.valid && p.timestamp == c.timestamp && Routed(m, c.throttle, p.throttle)
  {
    SettleScatters(m, c.throttle);
    UsableInRange(c.throttle);
    forall i | 0 <= i < MOTOR_COUNT
      ensures SettleAll(Scatter(m, c.throttle))[m[i]] == Effective(c.throttle[i])
    {
      assert Scatter(m, c.throttle)[m[i]] == c.throttle[i];
    }
  }

  lemma UsableInRange(t: Throttles)
    ensures Usable(t) <==> InRange(t)
  {
    if Usable(t) {
      assert 0.0 <= t[0] <= 1.0 && 0.0 <= t[1] <= 1.0 && 0.0 <= t[2] <= 1.0 && 0.0 <= t[3] <= 1.0;
    }
  }

  lemma EffectiveTwice(t: Throttles)
    requires Usable(t)
    ensures Create(t, 0).Some? && Usable(SettleAll(t)) && SettleAll(SettleAll(t)) == SettleAll(t)
    ensures forall i | 0 <= i < MOTOR_COUNT :: SettleAll(t)[i] == Effective(t[i])
  {
    UsableInRange(t);
    SettleTwice(t);
    UsableInRange(SettleAll(t));
  }

  lemma ArmedIsHealthy(g: Gate)
    requires SafeInv(g)
    ensures g.Healthy() <==> g.machine.current != Fault
  {
    hide RegistryInv, OutputAllowed;
    HealthIsLifecycle(g.catalog, g.registry, g.machine);
  }

  /* ---------------- commands ---------------- */

  /**
   * A command is accepted exactly from the source that is armed, of a prepared gate, if it is valid, in range and
   * leased; then it is what the gate holds, routed to the motors. Any other one from that source ends the flight.
   */
  lemma SubmitAcceptsExactly(g: Gate, source: Source, command: Command, now: nat, stopAccepted: bool)
    requires SafeInv(g)
    ensures var (r, result) := Submit(g, source, command, now, stopAccepted);
            var owns := g.machine.current == Armed && source != NoSource && source == g.active && g.preparationComplete;
            && (result == SubmitOk <==>
                  owns && command.valid && Usable(command.throttle) && Leased(command, now, g.timeout))
            && (result == SubmitOk ==>
                  && r == g.(retained := r.retained, log := g.log + [CommandAccepted(source, command)])
                  && r.retained.valid && r.retained.timestamp == command.timestamp
                  && Routed(g.mapping, command.throttle, r.retained.throttle))
            && (owns && result != SubmitOk ==>
                  && r.active == NoSource && !r.retained.valid
                  && r.log == g.log + [FailsafeEntered]
                              + (if g.outputsStopped then [] else [ForceStopped(stopAccepted)])
                  && r.machine.current == (if stopAccepted || g.outputsStopped then State.Failsafe else Fault))
            && (owns && result != SubmitOk ==>
                  result ==
                  if !stopAccepted && !g.outputsStopped then SubmitForceStopError
                  else if command.valid && Usable(command.throttle) then SubmitStaleCommand
                  else SubmitInvalidCommand)
            && (g.machine.current == Armed && !owns ==>
                  && r == g
                  && result == if source == NoSource || source != g.active then SubmitBlockedSource
                               else SubmitBlockedPreparation)
            && (g.machine.current != Armed ==>
                  result == SubmitBlockedState && r == g.(active := NoSource, retained := InvalidCommand))
  {
    hide SafeInv, OutputAllowed, Scatter, IsPermutation, MapCommand, MotorGate.ForceStop, EnterFailsafeIfArmed;
    ArmedIsHealthy(g);
    UsableInRange(command.throttle);
    if command.valid && Usable(command.throttle) {
      EffectiveTwice(command.throttle);
      var validated := Create(command.throttle, command.timestamp).value;
      RoutedIsMapped(g.mapping, validated);
      RoutedTwice(g.mapping, command, validated);
    }
    if g.machine.current == Armed {
      FailsafeAfterArmed(g);
      StopKeepsState(EnterFailsafeIfArmed(g), stopAccepted);
      StopResult(EnterFailsafeIfArmed(g), stopAccepted);
    }
  }

  lemma RoutedTwice(m: Permutation, c: Command, v: Command)
    requires Usable(c.throttle) && v.throttle == SettleAll(c.throttle)
    ensures forall p: Throttles :: Routed(m, v.throttle, p) ==> Routed(m, c.throttle, p)
  {
    EffectiveTwice(c.throttle);
    forall p: Throttles | Routed(m, v.throttle, p)
      ensures Routed(m, c.throttle, p)
    {
      forall i | 0 <= i < MOTOR_COUNT
        ensures p[m[i]] == Effective(c.throttle[i])
      {
        assert v.throttle[i] == Effective(c.throttle[i]);
      }
    }
  }

  /** A stop leaves the lifecycle alone, or is a fault when the backend refuses it. */
  lemma StopKeepsState(g: Gate, stopAccepted: bool)
    requires SafeInv(g)
    ensures var r := MotorGate.ForceStop(g, stopAccepted).0;
            && r.active == NoSource && r.pending == NoSource && !r.retained.valid
            && (if stopAccepted then r.machine == g.machine && r.outputsStopped else r.machine.current == Fault)
            && r.log == g.log + [ForceStopped(stopAccepted)]
  {
    hide SafeInv, Faults.Report;
    ForceStopSafe(g, stopAccepted, 0);
  }

  lemma FailsafeAfterArmed(g: Gate)
    requires SafeInv(g) && g.machine.current == Armed
    ensures var r := EnterFailsafeIfArmed(g);
            && r.machine.current == State.Failsafe && r.active == NoSource && !r.retained.valid
            && r.outputsStopped == g.outputsStopped && r.log == g.log + [FailsafeEntered] && SafeInv(r)
            && r.mapping == g.mapping && r.pending == g.pending
  {
    hide SafeInv;
    EnterFailsafeSafe(g, 0);
  }

  /* ---------------- frames ---------------- */

  /** The command in force: that of the armed source, inside its lease. */
  predicate InForce(g: Gate, now: nat) {
    g.machine.current == Armed && g.preparationComplete && g.retained.valid && Leased(g.retained, now, g.timeout)
  }

  /** The command in force has just run out. */
  predicate RunsOut(g: Gate, now: nat) {
    g.machine.current == Armed && g.preparationComplete && g.retained.valid && !Leased(g.retained, now, g.timeout)
  }

  predicate Running(g: Gate) {
    g.machine.current == Disarmed || g.machine.current == Armed || g.machine.current == State.Failsafe
  }

  /** A frame with these throttles was offered to the backend at this time. */
  predicate Offers(e: Entry, throttle: Throttles, accepted: bool, now: nat) {
    e.FrameGiven? && e.frame.valid && e.frame.throttle == throttle && e.accepted == accepted && e.at == now
  }

  /** The entries a call added to the log. */
  function Added(before: Log, after: Log): (added: Log)
    requires |before| <= |after|
  {
    after[|before|..]
  }

  /**
   * An idle backend outside a direction sequence is offered exactly one frame: the command in force if there is one,
   * and a stop otherwise. A command that has run out ends the flight first, and a refused frame ends it too.
   */
  lemma FrameIsGivenExactly(g: Gate, now: nat, directions: SubmitReply, submit: SubmitReply, stopAccepted: bool)
    requires SafeInv(g) && Running(g) && !(g.machine.current == Disarmed && g.directionSequenceActive)
    ensures var (r, result) := Synchronize(g, now, Replies(Idle, directions, submit, stopAccepted));
            var throttle := if InForce(g, now) then g.retained.throttle else ZeroThrottle;
            var accepted, lapsed := submit == SubmitAccepted, if RunsOut(g, now) then 1 else 0;
            && |g.log| < |r.log| && g.log <= r.log
            && var added := Added(g.log, r.log);
               && |added| > lapsed && (RunsOut(g, now) ==> added[0] == FailsafeEntered)
               && Offers(added[lapsed], throttle, accepted, now)
               && (InForce(g, now) ==> added[0].frame == g.retained)
               && (accepted ==>
                     && |added| == lapsed + 1
                     && result == (if RunsOut(g, now) then SyncFailsafeEntered else SyncSafe)
                     && r.machine == (if RunsOut(g, now) then r.machine else g.machine)
                     && (RunsOut(g, now) ==> r.machine.current == State.Failsafe)
                     && (InForce(g, now) ==>
                           r.retained == g.retained && r.active == g.active && r.mapping == g.mapping &&
                           r.preparationComplete)
                     && r.transferInProgress && r.transferStartedAt == now && !r.outputsStopped)
               && (!accepted ==>
                     && result == (if stopAccepted then SyncBackendError else SyncForceStopError)
                     && r.machine.current == Fault && added[|added| - 1] == ForceStopped(stopAccepted))
  {
    hide SafeInv, OutputAllowed, EnterFailsafeIfArmed, SubmitFrame;
    ArmedIsHealthy(g);
    var polled := g.(transferInProgress := false);
    PolledIsSafe(g);
    if g.machine.current == Armed {
      FailsafeAfterArmed(polled);
    }
    var (selected, command, failsafeEntered) := SelectCommand(polled, now);
    SelectCommandSafe(polled, now);
    StopIsCanonical(selected, command, now);
    SubmitsFrame(selected, command, failsafeEntered, now, Replies(Idle, directions, submit, stopAccepted));
  }

  lemma PolledIsSafe(g: Gate)
    requires SafeInv(g)
    ensures SafeInv(g.(transferInProgress := false))
  {
  }

  lemma StopIsCanonical(g: Gate, command: Command, now: nat)
    requires SafeInv(g) && MayGive(g, command, now)
    ensures CanonicalFrame(command) == Some(command) && command.valid
  {
    CanonicalSafe(g, command, now);
  }

  /** One frame goes out; a refusal is a fault, and everything stops. */
  lemma SubmitsFrame(g: Gate, command: Command, failsafeEntered: bool, now: nat, replies: Replies)
    requires SafeInv(g) && MayGive(g, command, now) && CanonicalFrame(command) == Some(command) && command.valid
    ensures var (r, result) := SubmitFrame(g, command, failsafeEntered, now, replies);
            var accepted := replies.submit == SubmitAccepted;
            && |r.log| > |g.log| && g.log <= r.log
            && Offers(r.log[|g.log|], command.throttle, accepted, now) && r.log[|g.log|].frame == command
            && (accepted ==>
                  && |r.log| == |g.log| + 1 && result == (if failsafeEntered then SyncFailsafeEntered else SyncSafe)
                  && r.machine == g.machine && r.retained == g.retained && r.active == g.active
                  && r.mapping == g.mapping && (g.preparationComplete ==> r.preparationComplete)
                  && r.transferInProgress && r.transferStartedAt == now && !r.outputsStopped)
            && (!accepted ==>
                  && result == (if replies.stopAccepted then SyncBackendError else SyncForceStopError)
                  && r.machine.current == Fault && r.log[|r.log| - 1] == ForceStopped(replies.stopAccepted))
  {
    hide SafeInv, OutputAllowed, EnterFailsafeIfArmed, FailOutput, CanonicalFrame, MayGive;
    var accepted := replies.submit == SubmitAccepted;
    var noted := Noted(g, Some(command), accepted, now);
    FrameEntrySafe(g, command, accepted, now);
    if !accepted {
      if g.machine.current == Armed {
        FailsafeAfterArmed(noted);
      } else {
        NotArmedStays(noted);
      }
      FailsToFault(EnterFailsafeIfArmed(noted), replies.stopAccepted);
    }
  }

  lemma NotArmedStays(g: Gate)
    requires g.machine.current != Armed
    ensures EnterFailsafeIfArmed(g) == g
  {
  }

  lemma FailsToFault(g: Gate, stopAccepted: bool)
    requires SafeInv(g)
    ensures var (r, result) := FailOutput(g, stopAccepted);
            && r.machine.current == Fault && r.log == g.log + [ForceStopped(stopAccepted)]
            && result == (if stopAccepted then SyncBackendError else SyncForceStopError)
            && r.active == NoSource && r.pending == NoSource && !r.retained.valid && SafeInv(r)
  {
    hide SafeInv, ReportMotorFault;
    ReportSafe(g, FAULT_ID_MOTOR_OUTPUT, 0);
    Declared(g);
    ReportedLog(g, FAULT_ID_MOTOR_OUTPUT);
    var reported := ReportMotorFault(g, FAULT_ID_MOTOR_OUTPUT);
    StopKeepsState(reported, stopAccepted);
    ForceStopSafe(reported, stopAccepted, 0);
    StopResult(reported, stopAccepted);
  }

  lemma StopResult(g: Gate, stopAccepted: bool)
    ensures MotorGate.ForceStop(g, stopAccepted).1 == stopAccepted
  {
  }

  lemma Declared(g: Gate)
    requires SafeInv(g)
    ensures Definition(FAULT_ID_MOTOR_OUTPUT, Critical) in g.catalog
  {
  }

  lemma ReportedLog(g: Gate, id: nat)
    ensures ReportMotorFault(g, id).log == g.log
  {
  }

  /**
   * An idle backend inside a direction sequence is offered the directions of the motors, routed, and one frame less is
   * to come; a refusal is a fault.
   */
  lemma DirectionsAreGivenExactly(g: Gate, now: nat, directions: SubmitReply, submit: SubmitReply, stopAccepted: bool)
    requires SafeInv(g) && g.machine.current == Disarmed && g.directionSequenceActive && g.directionsRemaining > 0
    ensures var (r, result) := Synchronize(g, now, Replies(Idle, directions, submit, stopAccepted));
            && |g.log| < |r.log|
            && (directions == SubmitAccepted ==>
                  && result == SyncSafe && |r.log| == |g.log| + 1 && r.log[|g.log|].DirectionAccepted?
                  && (forall i | 0 <= i < MOTOR_COUNT ::
                        r.log[|g.log|].physical[g.mapping[i]] == g.configuration[i])
                  && r == g.(active := NoSource, retained := InvalidCommand, log := r.log, transferInProgress := true,
                             transferStartedAt := now, outputsStopped := false,
                             directionsRemaining := g.directionsRemaining - 1))
            && (directions != SubmitAccepted ==>
                  && result == (if stopAccepted then SyncBackendError else SyncForceStopError)
                  && r.machine.current == Fault && r.pending == NoSource
                  && r.log == g.log + [ForceStopped(stopAccepted)])
  {
    hide SafeInv, OutputAllowed, FailOutput;
    var selected := g.(transferInProgress := false, active := NoSource, retained := InvalidCommand);
    PolledIsSafe(g);
    DropCommandSafe(g.(transferInProgress := false), 0);
    FailsToFault(selected, stopAccepted);
  }

  /**
   * At the end of the sequence the request is over: the source that asked is armed if the gate is still prepared, and
   * in any case the backend is offered a stop frame.
   */
  lemma SequenceEndsExactly(g: Gate, now: nat, directions: SubmitReply, stopAccepted: bool)
    requires SafeInv(g) && g.machine.current == Disarmed && g.directionSequenceActive && g.directionsRemaining == 0
    ensures var (r, result) := Synchronize(g, now, Replies(Idle, directions, SubmitAccepted, stopAccepted));
            var arms := g.pending != NoSource && g.preparationComplete;
            && result == SyncSafe && r.pending == NoSource && !r.directionSequenceActive
            && (r.machine.current == Armed <==> arms)
            && (if arms then
                  && r.active == g.pending && !r.retained.valid && |r.log| == |g.log| + 2
                  && r.log[|g.log|] == ArmingDone(g.pending, now)
                  && Offers(r.log[|g.log| + 1], ZeroThrottle, true, now)
                else
                  && r.machine == g.machine && r.active == NoSource
                  && |r.log| == |g.log| + 1 && Offers(r.log[|g.log|], ZeroThrottle, true, now))
  {
    hide SafeInv, OutputAllowed, SubmitFrame;
    ArmedIsHealthy(g);
    var selected := g.(transferInProgress := false, active := NoSource, retained := InvalidCommand);
    PolledIsSafe(g);
    DropCommandSafe(g.(transferInProgress := false), 0);
    ArmedIsHealthy(selected);
    CompletePendingArmSafe(selected, now);
    var completed := CompletePendingArm(selected.(directionSequenceActive := false), now);
    var replies := Replies(Idle, directions, SubmitAccepted, stopAccepted);
    StopIsCanonical(completed, StopCommand(now), now);
    SubmitsFrame(completed, StopCommand(now), false, now, replies);
    PendingIsOver(completed, StopCommand(now), now, replies);
  }

  lemma PendingIsOver(g: Gate, command: Command, now: nat, replies: Replies)
    requires CanonicalFrame(command) == Some(command) && replies.submit == SubmitAccepted
    ensures var r := SubmitFrame(g, command, false, now, replies).0;
            r.pending == g.pending && r.directionSequenceActive == g.directionSequenceActive
  {
  }

  /** A transfer that is not over in time, or started in the future, is stuck. */
  predicate Overdue(g: Gate, now: nat) {
    !g.transferInProgress || now < g.transferStartedAt || now >= g.transferStartedAt + 1000
  }

  /** A busy backend is left alone until its transfer is stuck; a command that has run out still ends the flight. */
  lemma BusyIsWaitedForExactly(g: Gate, now: nat, replies: Replies)
    requires SafeInv(g) && Running(g) && replies.status == Busy
    ensures var (r, result) := Synchronize(g, now, replies);
            if Overdue(g, now) then
              && result == (if replies.stopAccepted then SyncBackendError else SyncForceStopError)
              && r.machine.current == Fault
              && r.log == g.log + (if g.machine.current == Armed then [FailsafeEntered] else [])
                          + [ForceStopped(replies.stopAccepted)]
            else
              && result == (if RunsOut(g, now) then SyncFailsafeEntered else SyncSafe)
              && r.log == g.log + (if RunsOut(g, now) then [FailsafeEntered] else [])
              && (r.machine.current == (if RunsOut(g, now) then State.Failsafe else g.machine.current))
              && r.pending == g.pending && r.directionsRemaining == g.directionsRemaining
              && (InForce(g, now) ==>
                    r.retained == g.retained && r.active == g.active && r.mapping == g.mapping && r.preparationComplete)
  {
    hide SafeInv, EnterFailsafeIfArmed, FailOutput, SelectCommand;
    SelectsExactly(g, now);
    SelectCommandSafe(g, now);
    var selected := SelectCommand(g, now).0;
    if selected.machine.current == Armed {
      FailsafeAfterArmed(selected);
    } else {
      NotArmedStays(selected);
    }
    FailsToFault(EnterFailsafeIfArmed(selected), replies.stopAccepted);
  }

  /** What is selected before anything is offered. */
  lemma SelectsExactly(g: Gate, now: nat)
    requires SafeInv(g) && Running(g)
    ensures var (r, command, entered) := SelectCommand(g, now);
            && entered == RunsOut(g, now)
            && r.log == g.log + (if RunsOut(g, now) then [FailsafeEntered] else [])
            && r.machine.current == (if RunsOut(g, now) then State.Failsafe else g.machine.current)
            && r.pending == g.pending && r.directionsRemaining == g.directionsRemaining
            && r.transferInProgress == g.transferInProgress && r.transferStartedAt == g.transferStartedAt
            && (if InForce(g, now) then r == g && command == g.retained else command.throttle == ZeroThrottle)
  {
    hide SafeInv, OutputAllowed, EnterFailsafeIfArmed;
    ArmedIsHealthy(g);
    if g.machine.current == Armed {
      FailsafeAfterArmed(g);
      FailsafeSequence(g);
    }
  }

  lemma FailsafeSequence(g: Gate)
    ensures var r := EnterFailsafeIfArmed(g);
            && r.directionsRemaining == g.directionsRemaining && r.transferInProgress == g.transferInProgress
            && r.transferStartedAt == g.transferStartedAt && r.pending == g.pending
  {
  }

  /** A broken backend is a fault at once. */
  lemma BrokenIsFault(g: Gate, now: nat, replies: Replies)
    requires SafeInv(g) && replies.status == BackendError
    ensures var (r, result) := Synchronize(g, now, replies);
            && result == (if replies.stopAccepted then SyncBackendError else SyncForceStopError)
            && r.machine.current == Fault && r.active == NoSource && r.pending == NoSource
            && r.log == g.log + (if g.machine.current == Armed then [FailsafeEntered] else [])
                        + [ForceStopped(replies.stopAccepted)]
  {
    hide SafeInv, EnterFailsafeIfArmed, FailOutput;
    if g.machine.current == Armed {
      FailsafeAfterArmed(g);
    } else {
      NotArmedStays(g);
    }
    FailsToFault(EnterFailsafeIfArmed(g), replies.stopAccepted);
  }

  /** Outside the running states nothing is given: the outputs are stopped once and stay stopped. */
  lemma HaltedIsStopped(g: Gate, now: nat, replies: Replies)
    requires SafeInv(g) && !Running(g) && replies.status != BackendError
    ensures var (r, result) := Synchronize(g, now, replies);
            && r.active == NoSource && r.pending == NoSource && !r.retained.valid && !r.directionSequenceActive
            && r.log == g.log + (if g.outputsStopped then [] else [ForceStopped(replies.stopAccepted)])
            && result == (if g.outputsStopped || replies.stopAccepted then SyncStopped else SyncForceStopError)
            && (g.outputsStopped || replies.stopAccepted ==> r.outputsStopped && r.machine == g.machine)
  {
    hide SafeInv, MotorGate.ForceStop;
    var polled := if replies.status == Idle then g.(transferInProgress := false) else g;
    var halted := polled.(active := NoSource, pending := NoSource, directionSequenceActive := false,
                          retained := InvalidCommand);
    PolledIsSafe(g);
    DropIsSafe(polled);
    StopKeepsState(halted, replies.stopAccepted);
    StopResult(halted, replies.stopAccepted);
    StopSequence(halted, replies.stopAccepted);
  }

  lemma DropIsSafe(g: Gate)
    requires SafeInv(g) && g.machine.current != Armed
    ensures SafeInv(g.(active := NoSource, pending := NoSource, directionSequenceActive := false,
                       retained := InvalidCommand))
  {
  }

  lemma StopSequence(g: Gate, stopAccepted: bool)
    ensures !MotorGate.ForceStop(g, stopAccepted).0.directionSequenceActive
  {
  }

  /* ---------------- giving up, recovering, configuring ---------------- */

  /** A disarm is accepted exactly while armed, in FAILSAFE or asked to arm, and leaves nobody in charge. */
  lemma DisarmsExactly(g: Gate)
    requires SafeInv(g)
    ensures var (r, result) := Disarm(g);
            var asked := g.machine.current == Disarmed && g.pending != NoSource;
            && (result == DisarmAccepted <==>
                  asked || g.machine.current == Armed || g.machine.current == State.Failsafe)
            && (asked ==> r == g.(pending := NoSource, log := g.log + [ArmCancelled]))
            && (g.machine.current == Armed || g.machine.current == State.Failsafe ==>
                  r == g.(machine := r.machine, active := NoSource, retained := InvalidCommand,
                          log := g.log + [DisarmDone]) && r.machine.current == Disarmed)
            && (result != DisarmAccepted ==> r == g.(machine := r.machine) && r.machine.current == g.machine.current)
  {
    hide SafeInv;
  }

  /** Recovery leads to an idle DISARMED gate exactly from FAILSAFE or from there, and otherwise changes nothing. */
  lemma RecoversExactly(g: Gate)
    requires SafeInv(g)
    ensures var (r, result) := RecoverToDisarmed(g);
            var idle := g.machine.current == Disarmed && g.active == NoSource && g.pending == NoSource;
            && (result == RecoveryAccepted <==> idle || g.machine.current == State.Failsafe)
            && (result == RecoveryAccepted ==>
                  && r.machine.current == Disarmed && r.active == NoSource && r.pending == NoSource
                  && (!idle ==> !r.retained.valid && r.log == g.log + [DisarmDone]))
            && (result != RecoveryAccepted || idle ==> r == g)
  {
    hide FrameInv, RegistryInv, DeclaresMotorFaults, Disarm;
    DisarmsExactly(g);
  }

  /** When the mapping, the directions and the external gate may be changed, and that nothing else is. */
  lemma ConfiguresExactly(g: Gate, mapping: Mapping, configuration: Directions, ready: bool)
    ensures var (r, result) := ConfigureMapping(g, mapping);
            var accepted := g.machine.current == Disarmed && (forall p | 0 <= p < MOTOR_COUNT :: p in mapping);
            && (result == MappingOk <==> accepted) && (!accepted ==> r == g)
            && (accepted ==> IsPermutation(mapping) && r == g.(mapping := mapping))
    ensures var (r, accepted) := ApplyConfiguration(g, configuration);
            && (accepted <==> g.machine.current == Disarmed && g.pending == NoSource) && (!accepted ==> r == g)
            && (accepted ==> r == g.(configuration := configuration, directionsRemaining := 10,
                                     directionSequenceActive := true))
    ensures var (r, accepted) := SetExternalArmReady(g, ready);
            && (accepted <==>
                  g.machine.current != Armed && g.machine.current != State.Failsafe && g.pending == NoSource)
            && r == if accepted then g.(externalArmReady := ready) else g
  {
    OntoIsPermutation(mapping);
  }

  lemma OntoIsPermutation(m: Mapping)
    ensures IsPermutation(m) <==> forall p | 0 <= p < MOTOR_COUNT :: p in m
  {
    if IsPermutation(m) {
      PermutationIsOnto(m);
    }
    if forall p | 0 <= p < MOTOR_COUNT :: p in m {
      assert 0 in m && 1 in m && 2 in m && 3 in m;
    }
  }

  /** A force-stop leaves nobody in charge and nothing prepared; a refused one is a fault. */
  lemma ForceStopsExactly(g: Gate, stopAccepted: bool)
    requires SafeInv(g)
    ensures var (r, ok) := MotorGate.ForceStop(g, stopAccepted);
            && ok == stopAccepted && r.outputsStopped == stopAccepted
            && r.active == NoSource && r.pending == NoSource && !r.retained.valid && !r.directionSequenceActive
            && !r.stopStreamStarted && !r.preparationComplete && !r.transferInProgress
            && r.log == g.log + [ForceStopped(stopAccepted)]
            && (if stopAccepted then r.machine == g.machine else r.machine.current == Fault)
            && r.mapping == g.mapping && r.configuration == g.configuration
            && r.externalArmReady == g.externalArmReady
  {
    hide SafeInv, Faults.Report;
    StopKeepsState(g, stopAccepted);
  }

  /** Failsafe is entered exactly from ARMED. */
  lemma FailsafeEntersExactly(g: Gate)
    requires SafeInv(g)
    ensures var r := EnterFailsafeIfArmed(g);
            if g.machine.current == Armed then
              && r.machine.current == State.Failsafe && r.active == NoSource && !r.retained.valid
              && r.log == g.log + [FailsafeEntered] && r == g.(machine := r.machine, active := NoSource,
                                                               retained := InvalidCommand, log := r.log)
            else r == g
  {
  }
}
