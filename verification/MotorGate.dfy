/**
 * The motor safety gate as a transition system: the only path from a command to the motors.
 * Every operation is a function from the gate before the call, the clock reading it takes and the
 * backend's replies, to the gate after it and the result. The log records what crossed the gate's
 * boundary; no operation reads it.
 */
module MotorGate {
  import opened Counters
  import opened SystemState
  import opened Faults
  import opened MotorCommands

  const ARMING_PREPARATION_US: nat := 5_000_000
  const DIRECTION_REPETITIONS: nat := 10
  const OUTPUT_COMPLETION_TIMEOUT_US: nat := 1000

  const FAULT_ID_STATE_MACHINE_TRANSITION: nat := 8
  const FAULT_ID_MOTOR_INITIALIZATION: nat := 13
  const FAULT_ID_MOTOR_OUTPUT: nat := 14
  const FAULT_ID_MOTOR_FORCE_STOP: nat := 15

  datatype Source = NoSource | UsbTest | Receiver

  datatype Direction = Normal | Reversed

  type Directions = d: seq<Direction> | |d| == 4 witness [Normal, Normal, Normal, Normal]

  type Permutation = m: Mapping | IsPermutation(m) witness IdentityMapping

  /* ---------------- replies of the motor output backend ---------------- */

  datatype BackendStatus = Idle | Busy | BackendError

  datatype SubmitReply = SubmitAccepted | SubmitBusy | SubmitFailed

  /** What the backend answers during one call; a call asks each question at most once. */
  datatype Replies = Replies(status: BackendStatus, directions: SubmitReply, submit: SubmitReply, stopAccepted: bool)

  /* ---------------- what crosses the boundary ---------------- */

  datatype Entry =
    | ArmRequest(source: Source, at: nat)
    | DirectionAccepted(physical: Directions)
    | FrameGiven(frame: Command, accepted: bool, at: nat, lifecycle: State, healthy: bool, source: Source,
        mapping: Permutation)
    | CommandAccepted(source: Source, command: Command)
    | ArmingDone(source: Source, at: nat)
    | ArmCancelled
    | DisarmDone
    | FailsafeEntered
    | ForceStopped(accepted: bool)

  datatype Gate = Gate(
    machine: Machine,
    registry: Registry,
    catalog: Catalog,
    timeout: nat,
    mapping: Permutation,
    configuration: Directions,
    retained: Command,
    active: Source,
    pending: Source,
    transferStartedAt: nat,
    stopStreamStartedAt: nat,
    transferInProgress: bool,
    stopStreamStarted: bool,
    preparationComplete: bool,
    externalArmReady: bool,
    directionsRemaining: nat,
    directionSequenceActive: bool,
    outputsStopped: bool,
    log: seq<Entry>)
  {
    predicate Healthy() {
      OutputAllowed(registry, machine)
    }
  }


  datatype ArmResult =
    | ArmPending | ArmInvalidSource | ArmBlockedState | ArmBlockedHealth | ArmBlockedExternal | ArmBlockedPreparation

  datatype DisarmResult = DisarmAccepted | DisarmBlockedState

  datatype SubmitResult =
    | SubmitOk | SubmitBlockedState | SubmitBlockedSource | SubmitBlockedPreparation | SubmitBlockedHealth
    | SubmitInvalidCommand | SubmitStaleCommand | SubmitMappingError | SubmitForceStopError

  datatype SyncResult = SyncSafe | SyncStopped | SyncFailsafeEntered | SyncBackendError | SyncForceStopError

  datatype RecoveryResult = RecoveryAccepted | RecoveryBlockedState

  datatype MappingResult = MappingOk | MappingUnsafeState | MappingInvalidPermutation

  /* ---------------- internal steps ---------------- */

  function ReportMotorFault(g: Gate, id: nat): (r: Gate)
    ensures r.timeout == g.timeout && g.log <= r.log
  {
    var (registry, machine, _) := Faults.Report(g.catalog, g.registry, g.machine, id);
    g.(registry := registry, machine := machine)
  }

  function EnterFailsafeIfArmed(g: Gate): (r: Gate)
    ensures r.timeout == g.timeout && g.log <= r.log
  {
    if g.machine.current != Armed then g
    else
      g.(machine := HandleEvent(g.machine, FailsafeDetected).0, active := NoSource, retained := InvalidCommand,
         log := g.log + [FailsafeEntered])
  }

  function ForceStop(g: Gate, stopAccepted: bool): (r: (Gate, bool))
    ensures r.0.timeout == g.timeout && g.log <= r.0.log
  {
    var stopped := g.(
      active := NoSource, pending := NoSource, directionSequenceActive := false, directionsRemaining := 0,
      transferInProgress := false, stopStreamStarted := false, preparationComplete := false,
      retained := InvalidCommand, log := g.log + [ForceStopped(stopAccepted)]);
    if stopAccepted then (stopped.(outputsStopped := true), true)
    else (ReportMotorFault(stopped.(outputsStopped := false), FAULT_ID_MOTOR_FORCE_STOP), false)
  }

  function StartDirectionSequence(g: Gate): (r: Gate)
    ensures r.timeout == g.timeout && g.log <= r.log
  {
    g.(directionsRemaining := DIRECTION_REPETITIONS, directionSequenceActive := true)
  }

  function CompletePendingArm(g: Gate, now: nat): (r: Gate)
    ensures r.timeout == g.timeout && g.log <= r.log
  {
    if g.pending == NoSource then g
    else if g.machine.current != Disarmed || !g.Healthy() || !g.preparationComplete then g.(pending := NoSource)
    else
      g.(pending := NoSource, machine := HandleEvent(g.machine, ArmRequested).0, active := g.pending,
         retained := InvalidCommand, log := g.log + [ArmingDone(g.pending, now)])
  }

  function RecordAcceptedStopFrame(g: Gate, now: nat): (r: Gate)
    ensures r.timeout == g.timeout && g.log <= r.log
  {
    var started := if !g.stopStreamStarted || now < g.stopStreamStartedAt then now else g.stopStreamStartedAt;
    g.(stopStreamStarted := true, stopStreamStartedAt := started,
       preparationComplete := g.preparationComplete || now - started >= ARMING_PREPARATION_US)
  }

  function StopAndReturn(g: Gate, stopAccepted: bool, result: SubmitResult): (r: (Gate, SubmitResult))
    ensures r.0.timeout == g.timeout && g.log <= r.0.log
  {
    if g.outputsStopped then (g, result)
    else
      var (g', ok) := ForceStop(g, stopAccepted);
      (g', if ok then result else SubmitForceStopError)
  }

  /* ---------------- arming and disarming ---------------- */

  function ReadyForArm(g: Gate, now: nat): (r: (Gate, bool))
    ensures r.0.timeout == g.timeout && g.log <= r.0.log
  {
    if g.machine.current != Disarmed || g.outputsStopped || !g.stopStreamStarted || now < g.stopStreamStartedAt then
      (g, false)
    else
      var complete := g.preparationComplete || now - g.stopStreamStartedAt >= ARMING_PREPARATION_US;
      (g.(preparationComplete := complete), complete)
  }

  function Arm(g: Gate, source: Source, now: nat): (r: (Gate, ArmResult))
    ensures r.0.timeout == g.timeout && g.log <= r.0.log
  {
    if source == NoSource then (g, ArmInvalidSource)
    else if g.machine.current != Disarmed || g.active != NoSource || g.pending != NoSource then (g, ArmBlockedState)
    else if !g.Healthy() then (g, ArmBlockedHealth)
    else if !g.externalArmReady then (g, ArmBlockedExternal)
    else
      var (g', ready) := ReadyForArm(g, now);
      if !ready then (g', ArmBlockedPreparation)
      else
        (StartDirectionSequence(g'.(pending := source, retained := InvalidCommand,
                                    log := g'.log + [ArmRequest(source, now)])), ArmPending)
  }

  function Disarm(g: Gate): (r: (Gate, DisarmResult))
    ensures r.0.timeout == g.timeout && g.log <= r.0.log
  {
    if g.machine.current == Disarmed && g.pending != NoSource then
      (g.(pending := NoSource, log := g.log + [ArmCancelled]), DisarmAccepted)
    else
      var (machine, result) := HandleEvent(g.machine, DisarmRequested);
      if result == TransitionRejected then (g.(machine := machine), DisarmBlockedState)
      else
        (g.(machine := machine, active := NoSource, retained := InvalidCommand, log := g.log + [DisarmDone]),
         DisarmAccepted)
  }

  function RecoverToDisarmed(g: Gate): (r: (Gate, RecoveryResult))
    ensures r.0.timeout == g.timeout && g.log <= r.0.log
  {
    if g.machine.current == Disarmed && g.active == NoSource && g.pending == NoSource then (g, RecoveryAccepted)
    else if g.machine.current != Failsafe then (g, RecoveryBlockedState)
    else
      var (g', result) := Disarm(g);
      (g', if result == DisarmAccepted then RecoveryAccepted else RecoveryBlockedState)
  }

  /* ---------------- commands ---------------- */

  function Retain(g: Gate, source: Source, command: Command, validated: Command,
          stopAccepted: bool): (r: (Gate, SubmitResult))
    ensures r.0.timeout == g.timeout && g.log <= r.0.log
  {
    var physical := MapCommand(g.mapping, validated);
    if physical.None? then
      StopAndReturn(ReportMotorFault(EnterFailsafeIfArmed(g), FAULT_ID_MOTOR_OUTPUT), stopAccepted, SubmitMappingError)
    else
      (g.(retained := physical.value, log := g.log + [CommandAccepted(source, command)]), SubmitOk)
  }

  function Submit(g: Gate, source: Source, command: Command, now: nat, stopAccepted: bool): (r: (Gate, SubmitResult))
    ensures r.0.timeout == g.timeout && g.log <= r.0.log
  {
    if g.machine.current != Armed then (g.(active := NoSource, retained := InvalidCommand), SubmitBlockedState)
    else if source == NoSource || source != g.active then (g, SubmitBlockedSource)
    else if !g.preparationComplete then (g, SubmitBlockedPreparation)
    else if !g.Healthy() then StopAndReturn(EnterFailsafeIfArmed(g), stopAccepted, SubmitBlockedHealth)
    else
      var validated := if command.valid then Create(command.throttle, command.timestamp) else None;
      if validated.None? then StopAndReturn(EnterFailsafeIfArmed(g), stopAccepted, SubmitInvalidCommand)
      else if !IsFresh(validated.value, now, g.timeout) then
        StopAndReturn(EnterFailsafeIfArmed(g), stopAccepted, SubmitStaleCommand)
      else
        Retain(g, source, command, validated.value, stopAccepted)
  }

  /* ---------------- the periodic frame ---------------- */

  function FailOutput(g: Gate, stopAccepted: bool): (r: (Gate, SyncResult))
    ensures r.0.timeout == g.timeout && g.log <= r.0.log
  {
    var (g', ok) := ForceStop(ReportMotorFault(g, FAULT_ID_MOTOR_OUTPUT), stopAccepted);
    (g', if ok then SyncBackendError else SyncForceStopError)
  }

  function StopCommand(now: nat): (c: Command) {
    Command(ZeroThrottle, now, true)
  }

  /** The command this release carries: the retained one while armed, healthy and leased, a stop otherwise. */
  function SelectCommand(g: Gate, now: nat): (r: (Gate, Command, bool))
    ensures r.0.timeout == g.timeout && g.log <= r.0.log
  {
    if g.machine.current == Armed && !g.Healthy() then
      (EnterFailsafeIfArmed(g).(retained := InvalidCommand), StopCommand(now), true)
    else if g.machine.current == Armed && g.preparationComplete && g.retained.valid then
      if !IsFresh(g.retained, now, g.timeout) then
        (EnterFailsafeIfArmed(g).(retained := InvalidCommand), StopCommand(now), true)
      else (g, g.retained, false)
    else if g.machine.current != Armed then (g.(active := NoSource, retained := InvalidCommand), StopCommand(now),
        false)
    else (g, StopCommand(now), false)
  }

  /** The frame the output facade hands to the backend: revalidated, or none. */
  function CanonicalFrame(c: Command): (f: Option<Command>) {
    if c.valid then Create(c.throttle, c.timestamp) else None
  }

  function FrameEntry(g: Gate, frame: Command, accepted: bool, now: nat): (e: Entry) {
    FrameGiven(frame, accepted, now, g.machine.current, g.Healthy(), g.active, g.mapping)
  }

  function Noted(g: Gate, frame: Option<Command>, accepted: bool, now: nat): (r: Gate)
    ensures r.timeout == g.timeout && g.log <= r.log
  {
    if frame.None? then g else g.(log := g.log + [FrameEntry(g, frame.value, accepted, now)])
  }

  function Sent(g: Gate, command: Command, now: nat): (r: Gate)
    ensures r.timeout == g.timeout && g.log <= r.log
  {
    var sent := g.(transferStartedAt := now, transferInProgress := true, outputsStopped := false);
    if IsStop(command) then RecordAcceptedStopFrame(sent, now) else sent
  }

  function SubmitFrame(g: Gate, command: Command, failsafeEntered: bool, now: nat,
          replies: Replies): (r: (Gate, SyncResult))
    ensures r.0.timeout == g.timeout && g.log <= r.0.log
  {
    var frame := CanonicalFrame(command);
    var accepted := frame.Some? && replies.submit == SubmitAccepted;
    var noted := Noted(g, frame, accepted, now);
    if accepted then (Sent(noted, command, now), if failsafeEntered then SyncFailsafeEntered else SyncSafe)
    else FailOutput(EnterFailsafeIfArmed(noted), replies.stopAccepted)
  }

  function SendDirections(g: Gate, now: nat, replies: Replies): (r: (Gate, SyncResult))
    requires g.directionsRemaining > 0
    ensures r.0.timeout == g.timeout && g.log <= r.0.log
  {
    if replies.directions != SubmitAccepted then FailOutput(g, replies.stopAccepted)
    else
      (g.(directionsRemaining := g.directionsRemaining - 1, transferStartedAt := now, transferInProgress := true,
          outputsStopped := false, log := g.log + [DirectionAccepted(Scatter(g.mapping, g.configuration))]), SyncSafe)
  }

  predicate TransferStuck(g: Gate, now: nat) {
    !g.transferInProgress || now < g.transferStartedAt || now - g.transferStartedAt >= OUTPUT_COMPLETION_TIMEOUT_US
  }

  predicate Halts(g: Gate) {
    g.machine.current == Boot || g.machine.current == Initializing || g.machine.current == Fault
  }

  function HaltOutput(g: Gate, stopAccepted: bool): (r: (Gate, SyncResult))
    ensures r.0.timeout == g.timeout && g.log <= r.0.log
  {
    var halted := g.(active := NoSource, pending := NoSource, directionSequenceActive := false,
                     retained := InvalidCommand);
    if halted.outputsStopped then (halted, SyncStopped)
    else
      var (stopped, ok) := ForceStop(halted, stopAccepted);
      (stopped, if ok then SyncStopped else SyncForceStopError)
  }

  function WaitForTransfer(g: Gate, failsafeEntered: bool, now: nat, replies: Replies): (r: (Gate, SyncResult))
    ensures r.0.timeout == g.timeout && g.log <= r.0.log
  {
    if TransferStuck(g, now) then FailOutput(EnterFailsafeIfArmed(g), replies.stopAccepted)
    else (g, if failsafeEntered then SyncFailsafeEntered else SyncSafe)
  }

  function NextFrame(g: Gate, command: Command, failsafeEntered: bool, now: nat,
          replies: Replies): (r: (Gate, SyncResult))
    ensures r.0.timeout == g.timeout && g.log <= r.0.log
  {
    if g.machine.current == Disarmed && g.directionSequenceActive then
      if g.directionsRemaining == 0 then
        SubmitFrame(CompletePendingArm(g.(directionSequenceActive := false), now), command, failsafeEntered, now,
            replies)
      else SendDirections(g, now, replies)
    else SubmitFrame(g, command, failsafeEntered, now, replies)
  }

  function Synchronize(g: Gate, now: nat, replies: Replies): (r: (Gate, SyncResult))
    ensures r.0.timeout == g.timeout && g.log <= r.0.log
  {
    if replies.status == BackendError then FailOutput(EnterFailsafeIfArmed(g), replies.stopAccepted)
    else
      var polled := if replies.status == Idle then g.(transferInProgress := false) else g;
      if Halts(polled) then HaltOutput(polled, replies.stopAccepted)
      else
        var (selected, command, failsafeEntered) := SelectCommand(polled, now);
        if replies.status == Busy then WaitForTransfer(selected, failsafeEntered, now, replies)
        else NextFrame(selected, command, failsafeEntered, now, replies)
  }

  /* ---------------- configuration ---------------- */

  function ConfigureMapping(g: Gate, mapping: Mapping): (r: (Gate, MappingResult))
    ensures r.0.timeout == g.timeout && g.log <= r.0.log
  {
    if g.machine.current != Disarmed then (g, MappingUnsafeState)
    else if !IsPermutation(mapping) then (g, MappingInvalidPermutation)
    else (g.(mapping := mapping), MappingOk)
  }

  function ApplyConfiguration(g: Gate, configuration: Directions): (r: (Gate, bool))
    ensures r.0.timeout == g.timeout && g.log <= r.0.log
  {
    if g.machine.current != Disarmed || g.pending != NoSource then (g, false)
    else (StartDirectionSequence(g.(configuration := configuration)), true)
  }

  function SetExternalArmReady(g: Gate, ready: bool): (r: (Gate, bool))
    ensures r.0.timeout == g.timeout && g.log <= r.0.log
  {
    if g.machine.current == Armed || g.machine.current == Failsafe || g.pending != NoSource then (g, false)
    else (g.(externalArmReady := ready), true)
  }

  function ActiveSource(g: Gate): (s: Source) {
    if g.machine.current != Armed then NoSource else g.active
  }

  function PendingSource(g: Gate): (s: Source) {
    if g.machine.current != Disarmed then NoSource else g.pending
  }

  /* ---------------- initialization ---------------- */

  ghost predicate DeclaresMotorFaults(c: Catalog) {
    && Definition(FAULT_ID_STATE_MACHINE_TRANSITION, Critical) in c
    && Definition(FAULT_ID_MOTOR_INITIALIZATION, Critical) in c
    && Definition(FAULT_ID_MOTOR_OUTPUT, Critical) in c
    && Definition(FAULT_ID_MOTOR_FORCE_STOP, Critical) in c
  }

  function Started(machine: Machine, registry: Registry, catalog: Catalog, timeout: nat,
          configuration: Directions): (g: Gate) {
    Gate(machine, registry, catalog, timeout, IdentityMapping, configuration, InvalidCommand, NoSource, NoSource,
         0, 0, false, false, false, true, 0, false, true, [])
  }

  /* ---------------- runs ---------------- */

  /** One call on the gate, or one change of the machine and registry it shares with the rest of the firmware. */
  datatype Call =
    | DoArm(source: Source, at: nat)
    | DoDisarm
    | DoRecover
    | DoSubmit(source: Source, command: Command, at: nat, stopAccepted: bool)
    | DoSynchronize(at: nat, replies: Replies)
    | DoForceStop(stopAccepted: bool)
    | DoEnterFailsafe
    | DoConfigureMapping(mapping: Mapping)
    | DoApplyConfiguration(configuration: Directions)
    | DoSetExternalArmReady(ready: bool)
    | DoReport(id: nat)
    | DoClear(id: nat)
    | DoInitializationEvent(completed: bool)

  function Step(g: Gate, call: Call): (r: Gate)
    ensures g.log <= r.log
  {
    match call
    case DoArm(source, at) => Arm(g, source, at).0
    case DoDisarm => Disarm(g).0
    case DoRecover => RecoverToDisarmed(g).0
    case DoSubmit(source, command, at, stopAccepted) => Submit(g, source, command, at, stopAccepted).0
    case DoSynchronize(at, replies) => Synchronize(g, at, replies).0
    case DoForceStop(stopAccepted) => ForceStop(g, stopAccepted).0
    case DoEnterFailsafe => EnterFailsafeIfArmed(g)
    case DoConfigureMapping(mapping) => ConfigureMapping(g, mapping).0
    case DoApplyConfiguration(configuration) => ApplyConfiguration(g, configuration).0
    case DoSetExternalArmReady(ready) => SetExternalArmReady(g, ready).0
    case DoReport(id) => ReportMotorFault(g, id)
    case DoClear(id) => g.(registry := Clear(g.catalog, g.registry, id).0)
    case DoInitializationEvent(completed) =>
      g.(machine := HandleEvent(g.machine, if completed then InitializationCompleted else InitializationStarted).0)
  }
}
