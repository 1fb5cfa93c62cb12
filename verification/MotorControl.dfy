/**
 * The motor safety gate as the object the firmware keeps: fields updated in place by its calls, a lifecycle
 * machine and a fault registry shared with the rest of the firmware. Each call takes its clock reading and
 * the backend's replies as parameters and refines the transition of the same name.
 */
module MotorControl {
  import opened Counters
  import opened SystemState
  import opened Faults
  import opened MotorCommands
  import opened MotorGate
  import opened GateHistory

  datatype InitReply = InitOk | InitBackendFailed | InitStopFailed

  datatype InitResult = Initialized | AlreadyInitialized | InvalidArgument | InitialStopError | InitBackendError

  /** The gate's private state, one record replaced field by field. */
  datatype Control = Control(
    commandTimeout: nat,
    mapping: Permutation,
    configuration: Directions,
    retainedCommand: Command,
    activeSource: Source,
    pendingSource: Source,
    transferStartedAt: nat,
    stopStreamStartedAt: nat,
    transferInProgress: bool,
    stopStreamStarted: bool,
    armingPreparationComplete: bool,
    externalArmReady: bool,
    directionRepetitionsRemaining: nat,
    directionSequenceActive: bool,
    outputsStopped: bool,
    initialized: bool)

  const ZeroControl: Control :=
    Control(0, IdentityMapping, [Normal, Normal, Normal, Normal], InvalidCommand, NoSource, NoSource, 0, 0,
            false, false, false, false, 0, false, false, false)

  class MotorControl {
    const machine: StateMachine
    const faults: FaultSystem
    var control: Control
    ghost var log: seq<Entry>

    ghost function View(): (g: Gate)
      reads this, machine, faults
    {
      Gate(machine.View(), faults.view, faults.catalog, control.commandTimeout, control.mapping,
           control.configuration, control.retainedCommand, control.activeSource, control.pendingSource,
           control.transferStartedAt, control.stopStreamStartedAt, control.transferInProgress,
           control.stopStreamStarted, control.armingPreparationComplete, control.externalArmReady,
           control.directionRepetitionsRemaining, control.directionSequenceActive, control.outputsStopped, log)
    }

    /** The registry drives this gate's machine. */
    ghost predicate Linked()
      reads faults, faults.records
    {
      faults.machine == machine && faults.Consistent()
    }

    ghost predicate Valid()
      reads this, machine, faults, faults.records
    {
      Linked() && faults.Valid() && (control.initialized ==> SafeInv(View()))
    }

    constructor (machine: StateMachine, faults: FaultSystem)
      requires faults.machine == machine && faults.Valid()
      ensures Valid() && !control.initialized && this.machine == machine && this.faults == faults
    {
      this.machine := machine;
      this.faults := faults;
      control := ZeroControl;
      log := [];
    }

    method Initialize(timeout: nat, directions: Directions, reply: InitReply) returns (result: InitResult)
      requires Valid()
      modifies this, machine, faults, faults.records
      ensures Valid()
      ensures result == Initialized <==>
              !old(control.initialized) && timeout != 0 && DeclaresMotorFaults(faults.catalog) && reply == InitOk
      ensures result == Initialized ==>
                control.initialized && View() == Started(old(machine.View()), old(faults.view), faults.catalog,
                    timeout, directions)
      ensures result == AlreadyInitialized <==> old(control.initialized)
      ensures result == InvalidArgument <==>
                !old(control.initialized) && (timeout == 0 || !DeclaresMotorFaults(faults.catalog))
      ensures result == AlreadyInitialized || result == InvalidArgument ==>
                control == old(control) && View() == old(View())
      ensures result == InitialStopError || result == InitBackendError ==>
                && control == ZeroControl.(commandTimeout := timeout, configuration := directions)
                && machine.current == Fault
                && var fault := if result == InitialStopError then FAULT_ID_MOTOR_FORCE_STOP
                                else FAULT_ID_MOTOR_INITIALIZATION;
                   var reported := Faults.Report(faults.catalog, old(faults.view), old(machine.View()), fault);
                   (faults.view, machine.View()) == (reported.0, reported.1)
    {
      if control.initialized {
        return AlreadyInitialized;
      }
      var declared := IsDeclaredCritical(FAULT_ID_STATE_MACHINE_TRANSITION);
      if declared { declared := IsDeclaredCritical(FAULT_ID_MOTOR_INITIALIZATION); }
      if declared { declared := IsDeclaredCritical(FAULT_ID_MOTOR_OUTPUT); }
      if declared { declared := IsDeclaredCritical(FAULT_ID_MOTOR_FORCE_STOP); }
      if timeout == 0 || !declared {
        return InvalidArgument;
      }
      control := ZeroControl.(commandTimeout := timeout, configuration := directions);
      log := [];
      if reply == InitStopFailed {
        ReportKeeps(faults.catalog, faults.view, machine.View(), FAULT_ID_MOTOR_FORCE_STOP);
        var _ := faults.ReportFault(FAULT_ID_MOTOR_FORCE_STOP);
        return InitialStopError;
      }
      if reply == InitBackendFailed {
        ReportKeeps(faults.catalog, faults.view, machine.View(), FAULT_ID_MOTOR_INITIALIZATION);
        var _ := faults.ReportFault(FAULT_ID_MOTOR_INITIALIZATION);
        return InitBackendError;
      }
      control := control.(outputsStopped := true, externalArmReady := true, initialized := true);
      StartedIsSafe(machine.View(), faults.view, faults.catalog, timeout, directions, 0);
      return Initialized;
    }

    method IsDeclaredCritical(id: nat) returns (declared: bool)
      requires CatalogIsValid(faults.catalog)
      ensures declared <==> Definition(id, Critical) in faults.catalog
    {
      if Definition(id, Critical) in faults.catalog {
        DefinitionIsUnique(faults.catalog, Definition(id, Critical));
      }
      for index := 0 to |faults.catalog|
        invariant forall i | 0 <= i < index :: faults.catalog[i].id != id
      {
        if faults.catalog[index].id == id {
          DefinitionIsUnique(faults.catalog, faults.catalog[index]);
          return faults.catalog[index].severity == Critical;
        }
      }
      return false;
    }

    /* ---------------- internal steps ---------------- */

    method Report(id: nat)
      requires Linked()
      modifies this, machine, faults, faults.records
      ensures Linked() && control.initialized == old(control.initialized)
      ensures View() == ReportMotorFault(old(View()), id)
    {
      hide Faults.Report;
      var _ := faults.ReportFault(id);
    }

    method EnterFailsafe()
      requires Linked()
      modifies this, machine
      ensures Linked() && control.initialized == old(control.initialized)
      ensures View() == EnterFailsafeIfArmed(old(View()))
    {
      if machine.current == Armed {
        var transition := machine.Handle(FailsafeDetected);
        if transition != TransitionOk {
          // ARMED always accepts the failsafe event.
          assert false;
        }
        control := control.(activeSource := NoSource, retainedCommand := InvalidCommand);
        log := log + [FailsafeEntered];
      }
    }

    method ForceStopInternal(stopAccepted: bool) returns (ok: bool)
      requires Linked()
      modifies this, machine, faults, faults.records
      ensures Linked() && control.initialized == old(control.initialized)
      ensures (View(), ok) == MotorGate.ForceStop(old(View()), stopAccepted)
    {
      hide ReportMotorFault;
      control := control.(
        activeSource := NoSource, pendingSource := NoSource, directionSequenceActive := false,
        directionRepetitionsRemaining := 0, transferInProgress := false, stopStreamStarted := false,
        armingPreparationComplete := false, retainedCommand := InvalidCommand);
      log := log + [ForceStopped(stopAccepted)];
      if !stopAccepted {
        control := control.(outputsStopped := false);
        Report(FAULT_ID_MOTOR_FORCE_STOP);
        return false;
      }
      control := control.(outputsStopped := true);
      return true;
    }

    method HealthAllows() returns (allowed: bool)
      requires Linked()
      ensures allowed == View().Healthy()
    {
      var health, _, _, _, _ := faults.EvaluateHealth();
      return health == HealthOk || health == HealthWarning || health == HealthDegraded;
    }

    method CompleteArm(now: nat)
      requires Linked()
      modifies this, machine
      ensures Linked() && control.initialized == old(control.initialized)
      ensures View() == CompletePendingArm(old(View()), now)
    {
      hide Linked, OutputAllowed, IsPermutation;
      var source := control.pendingSource;
      if source == NoSource {
        return;
      }
      control := control.(pendingSource := NoSource);
      var allowed := HealthAllows();
      if machine.current != Disarmed || !allowed || !control.armingPreparationComplete {
        return;
      }
      var transition := machine.Handle(ArmRequested);
      if transition != TransitionOk {
        // DISARMED always accepts the arm event.
        assert false;
      }
      control := control.(activeSource := source, retainedCommand := InvalidCommand);
      log := log + [ArmingDone(source, now)];
    }

    method RecordStopFrame(now: nat)
      requires Linked()
      modifies this
      ensures Linked() && control.initialized == old(control.initialized)
      ensures View() == RecordAcceptedStopFrame(old(View()), now)
    {
      if !control.stopStreamStarted || now < control.stopStreamStartedAt {
        control := control.(stopStreamStartedAt := now, stopStreamStarted := true);
      }
      if now - control.stopStreamStartedAt >= ARMING_PREPARATION_US {
        control := control.(armingPreparationComplete := true);
      }
    }

    method FailAndStop(stopAccepted: bool) returns (result: SyncResult)
      requires Linked()
      modifies this, machine, faults, faults.records
      ensures Linked() && control.initialized == old(control.initialized)
      ensures (View(), result) == FailOutput(old(View()), stopAccepted)
    {
      hide Linked, ReportMotorFault, MotorGate.ForceStop;
      Report(FAULT_ID_MOTOR_OUTPUT);
      var ok := ForceStopInternal(stopAccepted);
      return if ok then SyncBackendError else SyncForceStopError;
    }

    method StopUnlessStopped(stopAccepted: bool, result: SubmitResult) returns (r: SubmitResult)
      requires Linked()
      modifies this, machine, faults, faults.records
      ensures Linked() && control.initialized == old(control.initialized)
      ensures (View(), r) == StopAndReturn(old(View()), stopAccepted, result)
    {
      hide Linked, MotorGate.ForceStop;
      if control.outputsStopped {
        return result;
      }
      var ok := ForceStopInternal(stopAccepted);
      return if ok then result else SubmitForceStopError;
    }

    /* ---------------- calls ---------------- */

    method ReadyForArm(now: nat) returns (ready: bool)
      requires Valid()
      modifies this
      ensures Valid() && control.initialized == old(control.initialized)
      ensures !control.initialized ==> !ready && View() == old(View())
      ensures control.initialized ==> (View(), ready) == MotorGate.ReadyForArm(old(View()), now)
    {
      if !control.initialized || machine.current != Disarmed || control.outputsStopped || !control.stopStreamStarted {
        return false;
      }
      if now < control.stopStreamStartedAt {
        return false;
      }
      if now - control.stopStreamStartedAt >= ARMING_PREPARATION_US {
        control := control.(armingPreparationComplete := true);
      }
      return control.armingPreparationComplete;
    }

    method Arm(source: Source, now: nat) returns (result: Option<ArmResult>)
      requires Valid()
      modifies this
      ensures Valid() && control.initialized == old(control.initialized)
      ensures !control.initialized ==> result == None && View() == old(View())
      ensures control.initialized ==> result.Some? && (View(), result.value) == MotorGate.Arm(old(View()), source, now)
    {
      if !control.initialized {
        return None;
      }
      ArmSafe(View(), source, now);
      if source == NoSource {
        return Some(ArmInvalidSource);
      }
      if machine.current != Disarmed || control.activeSource != NoSource || control.pendingSource != NoSource {
        return Some(ArmBlockedState);
      }
      var allowed := HealthAllows();
      if !allowed {
        return Some(ArmBlockedHealth);
      }
      if !control.externalArmReady {
        return Some(ArmBlockedExternal);
      }
      var ready := ReadyForArm(now);
      if !ready {
        return Some(ArmBlockedPreparation);
      }
      control := control.(
        pendingSource := source, retainedCommand := InvalidCommand,
        directionRepetitionsRemaining := DIRECTION_REPETITIONS, directionSequenceActive := true);
      log := log + [ArmRequest(source, now)];
      return Some(ArmPending);
    }

    method DisarmInternal() returns (result: DisarmResult)
      requires Linked()
      modifies this, machine
      ensures Linked() && control.initialized == old(control.initialized)
      ensures (View(), result) == MotorGate.Disarm(old(View()))
    {
      hide Linked;
      if machine.current == Disarmed && control.pendingSource != NoSource {
        control := control.(pendingSource := NoSource);
        log := log + [ArmCancelled];
        return DisarmAccepted;
      }
      var transition := machine.Handle(DisarmRequested);
      if transition == TransitionRejected {
        return DisarmBlockedState;
      }
      control := control.(activeSource := NoSource, retainedCommand := InvalidCommand);
      log := log + [DisarmDone];
      return DisarmAccepted;
    }

    method Disarm() returns (result: Option<DisarmResult>)
      requires Valid()
      modifies this, machine
      ensures Valid() && control.initialized == old(control.initialized)
      ensures !control.initialized ==> result == None && View() == old(View())
      ensures control.initialized ==> result.Some? && (View(), result.value) == MotorGate.Disarm(old(View()))
    {
      if !control.initialized {
        return None;
      }
      DisarmSafe(View(), 0);
      var disarmed := DisarmInternal();
      return Some(disarmed);
    }

    method RecoverToDisarmed() returns (result: Option<RecoveryResult>)
      requires Valid()
      modifies this, machine
      ensures Valid() && control.initialized == old(control.initialized)
      ensures !control.initialized ==> result == None && View() == old(View())
      ensures control.initialized ==> result.Some? && (View(), result.value) == MotorGate.RecoverToDisarmed(old(View()))
    {
      if !control.initialized {
        return None;
      }
      if machine.current == Disarmed && control.activeSource == NoSource && control.pendingSource == NoSource {
        return Some(RecoveryAccepted);
      }
      if machine.current != Failsafe {
        return Some(RecoveryBlockedState);
      }
      var disarmed := Disarm();
      return if disarmed == Some(DisarmAccepted) then Some(RecoveryAccepted) else Some(RecoveryBlockedState);
    }

    method SubmitInternal(source: Source, command: Command, now: nat, stopAccepted: bool) returns (result: SubmitResult)
      requires Linked()
      modifies this, machine, faults, faults.records
      ensures Linked() && control.initialized == old(control.initialized)
      ensures (View(), result) == MotorGate.Submit(old(View()), source, command, now, stopAccepted)
    {
      hide Linked, StopAndReturn, EnterFailsafeIfArmed, Retain, OutputAllowed, Create, IsFresh;
      if machine.current != Armed {
        control := control.(activeSource := NoSource, retainedCommand := InvalidCommand);
        return SubmitBlockedState;
      }
      if source == NoSource || source != control.activeSource {
        return SubmitBlockedSource;
      }
      if !control.armingPreparationComplete {
        return SubmitBlockedPreparation;
      }
      var healthy := HealthAllows();
      if !healthy {
        EnterFailsafe();
        result := StopUnlessStopped(stopAccepted, SubmitBlockedHealth);
        assert (View(), result) == StopAndReturn(EnterFailsafeIfArmed(old(View())), stopAccepted, SubmitBlockedHealth);
        return;
      }
      var validated: Option<Command> := None;
      if command.valid {
        validated := CreateCommand(command.throttle, command.timestamp);
      }
      if validated.None? {
        EnterFailsafe();
        result := StopUnlessStopped(stopAccepted, SubmitInvalidCommand);
        assert (View(), result) == StopAndReturn(EnterFailsafeIfArmed(old(View())), stopAccepted, SubmitInvalidCommand);
        return;
      }
      if !IsFresh(validated.value, now, control.commandTimeout) {
        EnterFailsafe();
        result := StopUnlessStopped(stopAccepted, SubmitStaleCommand);
        assert (View(), result) == StopAndReturn(EnterFailsafeIfArmed(old(View())), stopAccepted, SubmitStaleCommand);
        return;
      }
      result := RetainCommand(source, command, validated.value, stopAccepted);
      assert (View(), result) == Retain(old(View()), source, command, validated.value, stopAccepted);
    }

    method FailMapping(stopAccepted: bool) returns (result: SubmitResult)
      requires Linked()
      modifies this, machine, faults, faults.records
      ensures Linked() && control.initialized == old(control.initialized)
      ensures (View(), result) == StopAndReturn(ReportMotorFault(EnterFailsafeIfArmed(old(View())),
              FAULT_ID_MOTOR_OUTPUT),
                                                stopAccepted, SubmitMappingError)
    {
      hide Linked, View, StopAndReturn, EnterFailsafeIfArmed, ReportMotorFault;
      EnterFailsafe();
      Report(FAULT_ID_MOTOR_OUTPUT);
      result := StopUnlessStopped(stopAccepted, SubmitMappingError);
    }

    method StoreCommand(source: Source, command: Command, physical: Command)
      requires Linked()
      modifies this
      ensures Linked() && control.initialized == old(control.initialized)
      ensures View() == old(View()).(retained := physical, log := old(View()).log + [CommandAccepted(source, command)])
    {
      control := control.(retainedCommand := physical);
      log := log + [CommandAccepted(source, command)];
    }

    method RetainCommand(source: Source, command: Command, validated: Command, stopAccepted: bool)
      returns (result: SubmitResult)
      requires Linked()
      modifies this, machine, faults, faults.records
      ensures Linked() && control.initialized == old(control.initialized)
      ensures (View(), result) == Retain(old(View()), source, command, validated, stopAccepted)
    {
      hide Linked, StopAndReturn, EnterFailsafeIfArmed, ReportMotorFault, MapCommand;
      var physical := ApplyMapping(control.mapping, validated);
      assert physical == MapCommand(View().mapping, validated);
      hide View;
      if physical.None? {
        result := FailMapping(stopAccepted);
        return;
      }
      StoreCommand(source, command, physical.value);
      return SubmitOk;
    }

    method Submit(source: Source, command: Command, now: nat, stopAccepted: bool) returns (result: Option<SubmitResult>)
      requires Valid()
      modifies this, machine, faults, faults.records
      ensures Valid() && control.initialized == old(control.initialized)
      ensures !control.initialized ==> result == None && View() == old(View())
      ensures control.initialized ==> result.Some?
      ensures control.initialized ==>
                (View(), result.value) == MotorGate.Submit(old(View()), source, command, now, stopAccepted)
    {
      if !control.initialized {
        return None;
      }
      SubmitSafe(View(), source, command, now, stopAccepted, 0);
      var submitted := SubmitInternal(source, command, now, stopAccepted);
      return Some(submitted);
    }

    method ForceStop(stopAccepted: bool) returns (result: Option<bool>)
      requires Valid()
      modifies this, machine, faults, faults.records
      ensures Valid() && control.initialized == old(control.initialized)
      ensures !control.initialized ==> result == None && View() == old(View())
      ensures control.initialized ==>
                result.Some? && (View(), result.value) == MotorGate.ForceStop(old(View()), stopAccepted)
    {
      if !control.initialized {
        return None;
      }
      ForceStopSafe(View(), stopAccepted, 0);
      var ok := ForceStopInternal(stopAccepted);
      return Some(ok);
    }

    method RequestFailsafe() returns (accepted: bool)
      requires Valid()
      modifies this, machine
      ensures Valid() && control.initialized == old(control.initialized)
      ensures accepted <==> control.initialized && old(machine.current) == Armed
      ensures control.initialized ==> View() == EnterFailsafeIfArmed(old(View()))
      ensures !accepted ==> View() == old(View())
    {
      if !control.initialized || machine.current != Armed {
        return false;
      }
      EnterFailsafeSafe(View(), 0);
      EnterFailsafe();
      return true;
    }

    method ConfigureMapping(assignment: Mapping) returns (result: Option<MappingResult>)
      requires Valid()
      modifies this
      ensures Valid() && control.initialized == old(control.initialized)
      ensures !control.initialized ==> result == None && View() == old(View())
      ensures control.initialized ==>
                result.Some? && (View(), result.value) == MotorGate.ConfigureMapping(old(View()), assignment)
    {
      if !control.initialized {
        return None;
      }
      ConfigureMappingSafe(View(), assignment, 0);
      if machine.current != Disarmed {
        return Some(MappingUnsafeState);
      }
      var ok := AssignmentIsPermutation(assignment);
      if !ok {
        return Some(MappingInvalidPermutation);
      }
      control := control.(mapping := assignment);
      return Some(MappingOk);
    }

    method ApplyConfiguration(directions: Directions) returns (result: Option<bool>)
      requires Valid()
      modifies this
      ensures Valid() && control.initialized == old(control.initialized)
      ensures !control.initialized ==> result == None && View() == old(View())
      ensures control.initialized ==>
                result.Some? && (View(), result.value) == MotorGate.ApplyConfiguration(old(View()), directions)
    {
      if !control.initialized {
        return None;
      }
      ApplyConfigurationSafe(View(), directions, 0);
      if machine.current != Disarmed || control.pendingSource != NoSource {
        return Some(false);
      }
      control := control.(
        configuration := directions, directionRepetitionsRemaining := DIRECTION_REPETITIONS,
        directionSequenceActive := true);
      return Some(true);
    }

    method SetExternalArmReady(ready: bool) returns (accepted: bool)
      requires Valid()
      modifies this
      ensures Valid() && control.initialized == old(control.initialized)
      ensures !control.initialized ==> !accepted && View() == old(View())
      ensures control.initialized ==> (View(), accepted) == MotorGate.SetExternalArmReady(old(View()), ready)
    {
      if !control.initialized || machine.current == Armed || machine.current == Failsafe
          || control.pendingSource != NoSource {
        return false;
      }
      control := control.(externalArmReady := ready);
      return true;
    }

    /* ---------------- the periodic frame ---------------- */

    method DropToFailsafe()
      requires Linked()
      modifies this, machine
      ensures Linked() && control.initialized == old(control.initialized)
      ensures View() == EnterFailsafeIfArmed(old(View())).(retained := InvalidCommand)
    {
      EnterFailsafe();
      control := control.(retainedCommand := InvalidCommand);
    }

    method ChooseCommand(now: nat) returns (command: Command, failsafeEntered: bool)
      requires Linked()
      modifies this, machine
      ensures Linked() && control.initialized == old(control.initialized)
      ensures (View(), command, failsafeEntered) == SelectCommand(old(View()), now)
    {
      hide Linked, EnterFailsafeIfArmed, OutputAllowed, IsFresh;
      var stop := CreateCommand(ZeroThrottle, now);
      command := stop.value;
      assert command == StopCommand(now);
      failsafeEntered := false;
      if machine.current != Armed {
        control := control.(activeSource := NoSource, retainedCommand := InvalidCommand);
        return;
      }
      var healthy := HealthAllows();
      if !healthy {
        DropToFailsafe();
        failsafeEntered := true;
      } else if control.armingPreparationComplete && control.retainedCommand.valid {
        if IsFresh(control.retainedCommand, now, control.commandTimeout) {
          command := control.retainedCommand;
        } else {
          DropToFailsafe();
          failsafeEntered := true;
        }
      }
    }

    method NoteFrame(frame: Option<Command>, accepted: bool, now: nat)
      requires Linked()
      modifies this
      ensures Linked() && control.initialized == old(control.initialized)
      ensures View() == Noted(old(View()), frame, accepted, now)
    {
      if frame.Some? {
        log := log + [FrameEntry(View(), frame.value, accepted, now)];
      }
    }

    method AcceptFrame(command: Command, now: nat)
      requires Linked()
      modifies this
      ensures Linked() && control.initialized == old(control.initialized)
      ensures View() == Sent(old(View()), command, now)
    {
      control := control.(transferStartedAt := now, transferInProgress := true, outputsStopped := false);
      if IsStop(command) {
        RecordStopFrame(now);
      }
    }

    method GiveFrame(command: Command, failsafeEntered: bool, now: nat, replies: Replies) returns (result: SyncResult)
      requires Linked()
      modifies this, machine, faults, faults.records
      ensures Linked() && control.initialized == old(control.initialized)
      ensures (View(), result) == SubmitFrame(old(View()), command, failsafeEntered, now, replies)
    {
      hide Linked, EnterFailsafeIfArmed, FailOutput, Sent, Noted, Create;
      var frame: Option<Command> := None;
      if command.valid {
        frame := CreateCommand(command.throttle, command.timestamp);
      }
      var accepted := frame.Some? && replies.submit == SubmitAccepted;
      NoteFrame(frame, accepted, now);
      if accepted {
        AcceptFrame(command, now);
        return if failsafeEntered then SyncFailsafeEntered else SyncSafe;
      }
      EnterFailsafe();
      result := FailAndStop(replies.stopAccepted);
    }

    method MapDirections() returns (physical: Directions)
      ensures physical == Scatter(control.mapping, control.configuration)
    {
      var outputs := new Direction[MOTOR_COUNT](i => Normal);
      for logical := 0 to MOTOR_COUNT
        invariant forall i | 0 <= i < logical :: outputs[control.mapping[i]] == control.configuration[i]
      {
        outputs[control.mapping[logical]] := control.configuration[logical];
      }
      PermutationIsOnto(control.mapping);
      assert outputs[..] == Scatter(control.mapping, control.configuration);
      return outputs[..];
    }

    method GiveDirections(now: nat, replies: Replies) returns (result: SyncResult)
      requires Linked() && control.directionRepetitionsRemaining > 0
      modifies this, machine, faults, faults.records
      ensures Linked() && control.initialized == old(control.initialized)
      ensures (View(), result) == SendDirections(old(View()), now, replies)
    {
      hide Linked, FailOutput, Scatter;
      var physical := MapDirections();
      if replies.directions != SubmitAccepted {
        result := FailAndStop(replies.stopAccepted);
        return;
      }
      control := control.(
        directionRepetitionsRemaining := control.directionRepetitionsRemaining - 1, transferStartedAt := now,
        transferInProgress := true, outputsStopped := false);
      log := log + [DirectionAccepted(physical)];
      return SyncSafe;
    }

    method Halt(stopAccepted: bool) returns (result: SyncResult)
      requires Linked()
      modifies this, machine, faults, faults.records
      ensures Linked() && control.initialized == old(control.initialized)
      ensures (View(), result) == HaltOutput(old(View()), stopAccepted)
    {
      hide Linked, MotorGate.ForceStop;
      control := control.(activeSource := NoSource, pendingSource := NoSource, directionSequenceActive := false,
                          retainedCommand := InvalidCommand);
      if control.outputsStopped {
        return SyncStopped;
      }
      var ok := ForceStopInternal(stopAccepted);
      return if ok then SyncStopped else SyncForceStopError;
    }

    method ServeBusy(failsafeEntered: bool, now: nat, replies: Replies) returns (result: SyncResult)
      requires Linked()
      modifies this, machine, faults, faults.records
      ensures Linked() && control.initialized == old(control.initialized)
      ensures (View(), result) == WaitForTransfer(old(View()), failsafeEntered, now, replies)
    {
      hide Linked, EnterFailsafeIfArmed, FailOutput;
      var stuck := !control.transferInProgress || now < control.transferStartedAt ||
                   now - control.transferStartedAt >= OUTPUT_COMPLETION_TIMEOUT_US;
      assert stuck == TransferStuck(View(), now);
      hide View, TransferStuck;
      if stuck {
        EnterFailsafe();
        result := FailAndStop(replies.stopAccepted);
      } else {
        result := if failsafeEntered then SyncFailsafeEntered else SyncSafe;
      }
    }

    method ServeIdle(command: Command, failsafeEntered: bool, now: nat, replies: Replies) returns (result: SyncResult)
      requires Linked()
      modifies this, machine, faults, faults.records
      ensures Linked() && control.initialized == old(control.initialized)
      ensures (View(), result) == NextFrame(old(View()), command, failsafeEntered, now, replies)
    {
      hide Linked, CompletePendingArm, SendDirections, SubmitFrame;
      if machine.current == Disarmed && control.directionSequenceActive {
        if control.directionRepetitionsRemaining == 0 {
          control := control.(directionSequenceActive := false);
          CompleteArm(now);
        } else {
          result := GiveDirections(now, replies);
          return;
        }
      }
      result := GiveFrame(command, failsafeEntered, now, replies);
    }

    method SynchronizeInternal(now: nat, replies: Replies) returns (result: SyncResult)
      requires Linked()
      modifies this, machine, faults, faults.records
      ensures Linked() && control.initialized == old(control.initialized)
      ensures (View(), result) == MotorGate.Synchronize(old(View()), now, replies)
    {
      hide Linked, EnterFailsafeIfArmed, FailOutput, HaltOutput, SelectCommand, WaitForTransfer, NextFrame;
      if replies.status == BackendError {
        EnterFailsafe();
        result := FailAndStop(replies.stopAccepted);
        return;
      }
      if replies.status == Idle {
        control := control.(transferInProgress := false);
      }
      ghost var polled := View();
      assert polled == if replies.status == Idle then old(View()).(transferInProgress := false) else old(View());
      var halts := machine.current == Boot || machine.current == Initializing || machine.current == Fault;
      assert halts == Halts(polled);
      hide View, Halts;
      if halts {
        result := Halt(replies.stopAccepted);
        assert (View(), result) == HaltOutput(polled, replies.stopAccepted);
        return;
      }
      var command, failsafeEntered := ChooseCommand(now);
      ghost var selected := View();
      assert (selected, command, failsafeEntered) == SelectCommand(polled, now);
      if replies.status == Busy {
        result := ServeBusy(failsafeEntered, now, replies);
        assert (View(), result) == WaitForTransfer(selected, failsafeEntered, now, replies);
      } else {
        result := ServeIdle(command, failsafeEntered, now, replies);
        assert (View(), result) == NextFrame(selected, command, failsafeEntered, now, replies);
      }
    }

    method Synchronize(now: nat, replies: Replies) returns (result: Option<SyncResult>)
      requires Valid()
      modifies this, machine, faults, faults.records
      ensures Valid() && control.initialized == old(control.initialized)
      ensures !control.initialized ==> result == None && View() == old(View())
      ensures control.initialized ==> result.Some?
      ensures control.initialized ==> (View(), result.value) == MotorGate.Synchronize(old(View()), now, replies)
    {
      if !control.initialized {
        return None;
      }
      SynchronizeSafe(View(), now, replies);
      var synchronized := SynchronizeInternal(now, replies);
      return Some(synchronized);
    }
  }
}
