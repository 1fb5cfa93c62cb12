/** The code that drives the motor gate together with the receiver failsafe and the stored configuration. */
module FlightSystem {
  import opened Counters
  import opened SystemState
  import opened Faults
  import opened MotorCommands
  import opened MotorGate
  import opened GateHistory
  import opened GateGives
  import opened ReceiverFailsafe
  import opened ReceiverArming

  /* ---------------- recovery and configuration ---------------- */

  /** Recovery first brings the gate to DISARMED and only then releases the latch. */
  function RecoverReceiver(g: Gate, f: Failsafe): (r: (Gate, Failsafe, bool)) {
    if !f.initialized || !f.latched || !f.recoveryReady then (g, f, false)
    else
      var (g', result) := RecoverToDisarmed(g);
      if result != RecoveryAccepted then (g', f, false)
      else var (f', released) := AfterRelease(f); (g', f', released)
  }

  /** The parts of a configuration that reach the gate and the failsafe, and whether the rest of it is valid. */
  datatype Configuration = Configuration(failsafe: Config, motors: Directions, calibrated: bool, restIsValid: bool)
  {
    predicate Valid() {
      failsafe.Valid() && restIsValid
    }
  }

  /** How the services around a configuration change answer. */
  datatype ApplyReplies = ApplyReplies(
    stored: bool, prepared: bool, receiverRunning: bool, freshnessUpdated: bool, at: uint64)

  datatype ServiceResult = ServiceOk | ServiceInvalid | ServiceUnsafe | ServiceStorageError | ServiceApplyError

  predicate RuntimeIsSafe(g: Gate) {
    g.machine.current == Disarmed && PendingSource(g) == NoSource
  }

  function ApplyRuntime(g: Gate, f: Failsafe, c: Configuration, replies: ApplyReplies): (r: (Gate, Failsafe, bool)) {
    if !replies.prepared then (g, f, false)
    else
      var (g1, applied) := ApplyConfiguration(g, c.motors);
      if !applied then (g1, f, false)
      else
        var (g2, ready) := SetExternalArmReady(g1, c.calibrated);
        if !ready then (g2, f, false)
        else if !replies.receiverRunning then (g2, f, true)
        else if !replies.freshnessUpdated then (g2, f, false)
        else var (f', ok) := Initial(c.failsafe, replies.at); (g2, f', ok)
  }

  function WriteConfiguration(g: Gate, f: Failsafe, c: Configuration, replies: ApplyReplies)
    : (r: (Gate, Failsafe, ServiceResult))
  {
    if !c.Valid() then (g, f, ServiceInvalid)
    else if !RuntimeIsSafe(g) then (g, f, ServiceUnsafe)
    else if !replies.stored then (g, f, ServiceStorageError)
    else
      var (g', f', ok) := ApplyRuntime(g, f, c, replies);
      (g', f', if ok then ServiceOk else ServiceApplyError)
  }

  /* ---------------- executing an objective ---------------- */

  datatype CoreReply = CoreUpdated(command: Command) | CoreWaiting | CoreFailed

  datatype FlightResult = FlightIdle | FlightWaiting | FlightSubmitted | FlightSubmitError | FlightFailsafe
      | FlightFailsafeError

  function EnterFlightFailsafe(g: Gate): (r: (Gate, FlightResult)) {
    (EnterFailsafeIfArmed(g), if g.machine.current == Armed then FlightFailsafe else FlightFailsafeError)
  }

  function ExecuteObjective(g: Gate, authority: Source, inputs: bool, core: CoreReply, now: nat, stopAccepted: bool)
    : (r: (Gate, FlightResult))
  {
    if authority == NoSource || ActiveSource(g) != authority then (g, FlightIdle)
    else if !inputs then EnterFlightFailsafe(g)
    else
      match core
      case CoreWaiting => (g, FlightWaiting)
      case CoreFailed => EnterFlightFailsafe(g)
      case CoreUpdated(command) =>
        var (g', result) := Submit(g, authority, command, now, stopAccepted);
        (g', if result == SubmitOk then FlightSubmitted else FlightSubmitError)
  }

  /** The call added entries to the log and this is the last of them. */
  predicate EndsWith(before: Log, after: Log, e: Entry) {
    |after| > |before| && after[|after| - 1] == e
  }

  lemma StopAddsNoCommand(g: Gate, stopAccepted: bool, result: SubmitResult)
    requires result != SubmitOk
    ensures var (r, returned) := StopAndReturn(g, stopAccepted, result);
            returned != SubmitOk && (r.log == g.log || r.log == g.log + [ForceStopped(stopAccepted)])
  {
  }

  lemma ReportKeepsLog(g: Gate, id: nat)
    ensures ReportMotorFault(g, id).log == g.log
  {
  }

  lemma RetainGrowsLog(g: Gate, source: Source, command: Command, validated: Command, stopAccepted: bool)
    ensures var (r, result) := Retain(g, source, command, validated, stopAccepted);
            result == SubmitOk <==> EndsWith(g.log, r.log, CommandAccepted(source, command))
  {
    hide StopAndReturn, MapCommand, ReportMotorFault;
    var failsafe := EnterFailsafeIfArmed(g);
    ReportKeepsLog(failsafe, FAULT_ID_MOTOR_OUTPUT);
    StopAddsNoCommand(ReportMotorFault(failsafe, FAULT_ID_MOTOR_OUTPUT), stopAccepted, SubmitMappingError);
  }

  lemma SubmitGrowsLog(g: Gate, source: Source, command: Command, now: nat, stopAccepted: bool)
    ensures var (r, result) := Submit(g, source, command, now, stopAccepted);
            result == SubmitOk <==> EndsWith(g.log, r.log, CommandAccepted(source, command))
  {
    hide StopAndReturn, Create, IsFresh, OutputAllowed, Retain, EnterFailsafeIfArmed;
    if g.machine.current != Armed {
      return;
    }
    if source != NoSource && source == g.active && g.preparationComplete {
      RejectionsAddNoCommand(g, stopAccepted, CommandAccepted(source, command));
      var validated := Create(command.throttle, command.timestamp);
      if validated.Some? {
        RetainGrowsLog(g, source, command, validated.value, stopAccepted);
      }
    }
  }

  lemma RejectionsAddNoCommand(g: Gate, stopAccepted: bool, e: Entry)
    requires e.CommandAccepted?
    ensures forall result | result != SubmitOk ::
              var (r, returned) := StopAndReturn(EnterFailsafeIfArmed(g), stopAccepted, result);
              returned != SubmitOk && !EndsWith(g.log, r.log, e)
  {
    hide StopAndReturn;
    var failsafe := EnterFailsafeIfArmed(g);
    assert failsafe.log == g.log || failsafe.log == g.log + [FailsafeEntered];
    forall result | result != SubmitOk
      ensures var (r, returned) := StopAndReturn(failsafe, stopAccepted, result);
              returned != SubmitOk && !EndsWith(g.log, r.log, e)
    {
      StopAddsNoCommand(failsafe, stopAccepted, result);
    }
  }

  lemma EnteringAddsNoCommand(g: Gate)
    ensures var r := EnterFailsafeIfArmed(g);
            && (r.log == g.log || r.log == g.log + [FailsafeEntered])
            && (g.machine.current == Armed ==> r.machine.current == State.Failsafe && ActiveSource(r) == NoSource)
  {
  }

  /** An objective is submitted exactly when its command enters the log under the active authority. */
  lemma ObjectiveNeedsAuthority(g: Gate, authority: Source, inputs: bool, core: CoreReply, now: nat, stopAccepted: bool)
    ensures var (r, result) := ExecuteObjective(g, authority, inputs, core, now, stopAccepted);
            && (result == FlightSubmitted <==>
                  core.CoreUpdated? && EndsWith(g.log, r.log, CommandAccepted(authority, core.command)))
            && (result == FlightSubmitted ==> authority != NoSource && ActiveSource(g) == authority)
            && (ActiveSource(g) != authority ==> r == g && result == FlightIdle)
            && (result == FlightFailsafe ==> r.machine.current == State.Failsafe && ActiveSource(r) == NoSource)
            && result != FlightFailsafeError
  {
    hide Submit, EnterFailsafeIfArmed;
    EnteringAddsNoCommand(g);
    if core.CoreUpdated? {
      SubmitGrowsLog(g, authority, core.command, now, stopAccepted);
    }
  }

  /* ---------------- the whole system ---------------- */

  datatype System = System(gate: Gate, failsafe: Failsafe, arming: Arming)

  datatype FlightCall =
    | OnGate(call: Call)
    | Sampled(control: Option<Snapshot>, now: uint64)
    | ArmingStep(input: Option<Input>, decision: Option<Decision>, at: nat)
    | Recovery
    | Reconfigure(configuration: Configuration, replies: ApplyReplies)
    | Objective(authority: Source, inputs: bool, core: CoreReply, at: nat, stopAccepted: bool)

  function FlightStep(s: System, call: FlightCall): (r: System) {
    match call
    case OnGate(c) => s.(gate := Step(s.gate, c))
    case Sampled(control, now) =>
      if s.failsafe.initialized then s.(failsafe := AfterUpdate(s.failsafe, control, now)) else s
    case ArmingStep(input, decision, at) =>
      var (arming, gate, _) := Process(s.arming, Sample(input, decision, s.gate, true, at));
      s.(arming := arming, gate := gate)
    case Recovery =>
      var (gate, failsafe, _) := RecoverReceiver(s.gate, s.failsafe);
      s.(gate := gate, failsafe := failsafe)
    case Reconfigure(configuration, replies) =>
      var (gate, failsafe, _) := WriteConfiguration(s.gate, s.failsafe, configuration, replies);
      s.(gate := gate, failsafe := failsafe)
    case Objective(authority, inputs, core, at, stopAccepted) =>
      s.(gate := ExecuteObjective(s.gate, authority, inputs, core, at, stopAccepted).0)
  }

  function FlightRun(s: System, calls: seq<FlightCall>): (r: System)
    decreases |calls|
  {
    if calls == [] then s else FlightStep(FlightRun(s, calls[..|calls| - 1]), calls[|calls| - 1])
  }

  /* ---------------- the flight code adds no new way to the motors ---------------- */

  /** The gate calls one flight call makes. */
  function GateCalls(s: System, call: FlightCall): (calls: seq<Call>) {
    match call
    case OnGate(c) => [c]
    case Sampled(_, _) => []
    case ArmingStep(input, decision, at) =>
      var gate := Process(s.arming, Sample(input, decision, s.gate, true, at)).1;
      if gate == s.gate then []
      else if gate == MotorGate.Arm(s.gate, Receiver, at).0 then [DoArm(Receiver, at)]
      else [DoDisarm]
    case Recovery => if s.failsafe.initialized && s.failsafe.latched && s.failsafe.recoveryReady then [DoRecover]
        else []
    case Reconfigure(c, replies) =>
      if !c.Valid() || !RuntimeIsSafe(s.gate) || !replies.stored || !replies.prepared then []
      else [DoApplyConfiguration(c.motors), DoSetExternalArmReady(c.calibrated)]
    case Objective(authority, inputs, core, at, stopAccepted) =>
      if authority == NoSource || ActiveSource(s.gate) != authority then []
      else if !inputs || core.CoreFailed? then [DoEnterFailsafe]
      else if core.CoreWaiting? then []
      else [DoSubmit(authority, core.command, at, stopAccepted)]
  }

  function GateTrace(s: System, calls: seq<FlightCall>): (trace: seq<Call>)
    decreases |calls|
  {
    if calls == [] then []
    else
      var before := calls[..|calls| - 1];
      GateTrace(s, before) + GateCalls(FlightRun(s, before), calls[|calls| - 1])
  }

  lemma {:induction false} RunsCompose(g: Gate, a: seq<Call>, b: seq<Call>)
    requires SafeInv(g)
    ensures Run(g, a + b) == Run(Run(g, a), b)
    decreases |a|
  {
    hide Step, SafeInv;
    if a == [] {
      assert a + b == b;
    } else {
      StepSafe(g, a[0], 0);
      RunsCompose(Step(g, a[0]), a[1..], b);
      assert (a + b)[1..] == a[1..] + b;
    }
  }

  lemma RunOfTwo(g: Gate, first: Call, second: Call)
    requires SafeInv(g)
    ensures Run(g, [first]) == Step(g, first)
    ensures Run(g, [first, second]) == Step(Step(g, first), second)
  {
    hide Step, SafeInv;
    StepSafe(g, first, 0);
    StepSafe(Step(g, first), second, 0);
    assert [first, second][1..] == [second] && [first][1..] == [] && [second][1..] == [];
    assert Run(Step(g, first), [second]) == Run(Step(Step(g, first), second), []);
  }

  lemma ReconfigureIsGateRun(s: System, c: Configuration, replies: ApplyReplies)
    requires SafeInv(s.gate)
    ensures FlightStep(s, Reconfigure(c, replies)).gate == Run(s.gate, GateCalls(s, Reconfigure(c, replies)))
  {
    hide SafeInv;
    RunOfTwo(s.gate, DoApplyConfiguration(c.motors), DoSetExternalArmReady(c.calibrated));
  }

  lemma ObjectiveIsGateRun(s: System, call: FlightCall)
    requires call.Objective? && SafeInv(s.gate)
    ensures FlightStep(s, call).gate == Run(s.gate, GateCalls(s, call))
  {
    hide SafeInv, Process, Submit, MotorGate.Disarm, MotorGate.Arm, Synchronize, WriteConfiguration;
    RunOfTwo(s.gate, DoEnterFailsafe, DoDisarm);
    if call.core.CoreUpdated? {
      RunOfTwo(s.gate, DoSubmit(call.authority, call.core.command, call.at, call.stopAccepted), DoDisarm);
    }
  }

  lemma FlightStepIsGateRun(s: System, call: FlightCall)
    requires SafeInv(s.gate)
    ensures FlightStep(s, call).gate == Run(s.gate, GateCalls(s, call))
  {
    hide SafeInv, Process, Submit, MotorGate.Disarm, MotorGate.Arm, Synchronize, RecoverToDisarmed, WriteConfiguration;
    match call
    case ArmingStep(input, decision, at) =>
      ArmingRespectsOwner(s.arming, Sample(input, decision, s.gate, true, at));
      RunOfTwo(s.gate, DoArm(Receiver, at), DoDisarm);
      RunOfTwo(s.gate, DoDisarm, DoDisarm);
    case Reconfigure(c, replies) =>
      ReconfigureIsGateRun(s, c, replies);
    case Objective(_, _, _, _, _) => ObjectiveIsGateRun(s, call);
    case OnGate(c) => RunOfTwo(s.gate, c, c);
    case Recovery => RunOfTwo(s.gate, DoRecover, DoDisarm);
    case Sampled(_, _) =>
  }

  lemma {:induction false} FlightRunIsGateRun(s: System, calls: seq<FlightCall>)
    requires SafeInv(s.gate)
    ensures FlightRun(s, calls).gate == Run(s.gate, GateTrace(s, calls))
    decreases |calls|
  {
    hide SafeInv, FlightStep, GateCalls;
    if calls != [] {
      var before := calls[..|calls| - 1];
      FlightRunIsGateRun(s, before);
      FlightStepIsGateRun(FlightRun(s, before), calls[|calls| - 1]);
      RunsCompose(s.gate, GateTrace(s, before), GateCalls(FlightRun(s, before), calls[|calls| - 1]));
    }
  }

  /** Whatever the flight code does, in any order, every nonzero frame keeps its justification. */
  lemma EveryFlightFrameIsJustified(s: System, calls: seq<FlightCall>, machine: Machine, registry: Registry,
                                    catalog: Catalog, timeout: nat, configuration: Directions)
    requires RegistryInv(catalog, registry, machine) && DeclaresMotorFaults(catalog)
    requires s.gate == Started(machine, registry, catalog, timeout, configuration)
    ensures FramesJustified(FlightRun(s, calls).gate.log, timeout)
  {
    hide FramesJustified, FlightRun, Run;
    StartedIsSafe(machine, registry, catalog, timeout, configuration, 0);
    FlightRunIsGateRun(s, calls);
    EveryFrameIsJustified(machine, registry, catalog, timeout, configuration, GateTrace(s, calls));
  }

  /* ---------------- when the second stage lets go ---------------- */

  /** From call i on, every failsafe update was a safe one, none read a clock behind the first. */
  ghost predicate SafeSince(calls: seq<FlightCall>, c: Config, i: nat) {
    && i < |calls| && calls[i].Sampled?
    && forall k | i <= k < |calls| && calls[k].Sampled? ::
         SafeSample(c, calls[k].control, calls[k].now) && calls[i].now <= calls[k].now
  }

  /** An unbroken run of safe updates that spans the stable time. */
  ghost predicate StableSpan(calls: seq<FlightCall>, c: Config) {
    exists i: nat, j: nat :: SpanOf(calls, c, i, j)
  }

  ghost predicate SpanOf(calls: seq<FlightCall>, c: Config, i: nat, j: nat) {
    SafeSince(calls, c, i) && i <= j < |calls| && calls[j].Sampled? && calls[i].now + c.recoveryStable <= calls[j].now
  }

  ghost predicate TimerSince(calls: seq<FlightCall>, f: Failsafe) {
    exists i: nat :: SafeSince(calls, f.config, i) && calls[i].now == f.recoveryStartedAt
  }

  ghost predicate RecoveryInv(calls: seq<FlightCall>, f: Failsafe) {
    && FailsafeInv(f)
    && (f.timerActive ==> TimerSince(calls, f))
    && (f.recoveryReady ==> StableSpan(calls, f.config))
  }

  lemma ExtendSafeSince(calls: seq<FlightCall>, call: FlightCall, c: Config, i: nat)
    requires SafeSince(calls, c, i)
    requires call.Sampled? ==> SafeSample(c, call.control, call.now) && calls[i].now <= call.now
    ensures SafeSince(calls + [call], c, i)
  {
  }

  lemma SampledKeepsRecovery(calls: seq<FlightCall>, f: Failsafe, call: FlightCall)
    requires RecoveryInv(calls, f) && call.Sampled?
    ensures RecoveryInv(calls + [call], AfterUpdate(f, call.control, call.now))
  {
    hide SafeSample;
    var r := AfterUpdate(f, call.control, call.now);
    UpdateKeeps(f, call.control, call.now);
    var n := |calls|;
    if r.timerActive {
      if f.timerActive {
        var i: nat :| SafeSince(calls, f.config, i) && calls[i].now == f.recoveryStartedAt;
        ExtendSafeSince(calls, call, f.config, i);
        assert (calls + [call])[i].now == r.recoveryStartedAt;
        if r.recoveryReady {
          assert SpanOf(calls + [call], f.config, i, n);
        }
      } else {
        assert SafeSince(calls + [call], f.config, n) && (calls + [call])[n].now == r.recoveryStartedAt;
      }
    }
  }

  lemma OtherKeepsRecovery(calls: seq<FlightCall>, f: Failsafe, call: FlightCall)
    requires RecoveryInv(calls, f) && !call.Sampled?
    ensures RecoveryInv(calls + [call], f)
  {
    hide SafeSample;
    if f.timerActive {
      var i: nat :| SafeSince(calls, f.config, i) && calls[i].now == f.recoveryStartedAt;
      ExtendSafeSince(calls, call, f.config, i);
    }
    if f.recoveryReady {
      var i: nat, j: nat :| SpanOf(calls, f.config, i, j);
      ExtendSafeSince(calls, call, f.config, i);
      assert SpanOf(calls + [call], f.config, i, j);
    }
  }

  lemma {:induction false} RecoveryIsEarned(s: System, calls: seq<FlightCall>)
    requires FailsafeInv(s.failsafe) && !s.failsafe.latched
    ensures RecoveryInv(calls, FlightRun(s, calls).failsafe)
    decreases |calls|
  {
    hide RecoverToDisarmed, Process, Step, ExecuteObjective, AfterUpdate;
    if calls != [] {
      var before := calls[..|calls| - 1];
      var last := calls[|calls| - 1];
      RecoveryIsEarned(s, before);
      assert calls == before + [last];
      var f := FlightRun(s, before).failsafe;
      if last.Sampled? {
        SampledKeepsRecovery(before, f, last);
      } else {
        OtherKeepsRecovery(before, f, last);
      }
    }
  }

  lemma FailsafeDisarms(g: Gate)
    requires g.machine.current == State.Failsafe && g.pending == NoSource
    ensures var r := MotorGate.Disarm(g).0;
            r.machine.current == Disarmed && r.active == NoSource && r.pending == NoSource
  {
  }

  lemma RecoveredIsDisarmed(g: Gate)
    requires SafeInv(g)
    ensures var (r, result) := RecoverToDisarmed(g);
            result == RecoveryAccepted ==>
              r.machine.current == Disarmed && r.active == NoSource && r.pending == NoSource
  {
    hide FrameInv, DeclaresMotorFaults, RegistryInv, MotorGate.Disarm;
    if g.machine.current == State.Failsafe {
      FailsafeDisarms(g);
    }
  }

  /**
   * In every run from a gate just started and an unlatched failsafe: when a call opens the second-stage latch,
   * the system is DISARMED with no active and no pending source, and the call is either a configuration change
   * or a recovery earned by an unbroken run of safe updates over the configured time.
   */
  lemma LatchOpensOnlyWhenSafe(s: System, calls: seq<FlightCall>, call: FlightCall)
    requires SafeInv(s.gate) && FailsafeInv(s.failsafe) && !s.failsafe.latched
    ensures var before := FlightRun(s, calls);
            var after := FlightStep(before, call);
            before.failsafe.latched && !after.failsafe.latched ==>
              && after.gate.machine.current == Disarmed && after.gate.active == NoSource
                 && after.gate.pending == NoSource
              && (call.Reconfigure? || (call.Recovery? && StableSpan(calls, before.failsafe.config)))
  {
    hide SafeInv, StableSpan, RecoverToDisarmed, Process, Step, ExecuteObjective;
    var before := FlightRun(s, calls);
    RecoveryIsEarned(s, calls);
    FlightRunIsGateRun(s, calls);
    match call
    case Sampled(control, now) => UpdateKeeps(before.failsafe, control, now);
    case Recovery => RecoveredIsDisarmed(before.gate);
    case Reconfigure(c, replies) =>
      ReconfiguredIsIdle(before.gate, before.failsafe, c, replies);
    case _ =>
  }

  lemma ReconfiguredIsIdle(g: Gate, f: Failsafe, c: Configuration, replies: ApplyReplies)
    requires SafeInv(g)
    ensures var (g', f', _) := WriteConfiguration(g, f, c, replies);
            f' != f ==> g'.machine.current == Disarmed && g'.active == NoSource && g'.pending == NoSource
  {
  }

  /** A recovery opens the latch exactly when it is ready and the gate is in FAILSAFE or idle in DISARMED. */
  lemma RecoveryOpensExactly(g: Gate, f: Failsafe)
    requires SafeInv(g) && FailsafeInv(f) && f.latched
    ensures var (g', f', recovered) := RecoverReceiver(g, f);
            var idle := g.machine.current == Disarmed && g.active == NoSource && g.pending == NoSource;
            && (recovered <==> f.recoveryReady && (g.machine.current == State.Failsafe || idle))
            && (recovered <==> !f'.latched)
            && (recovered ==>
                  && g'.machine.current == Disarmed && g'.active == NoSource && g'.pending == NoSource
                  && !f'.timerActive && !f'.recoveryReady && f'.stage == Unavailable)
            && (!recovered ==> f' == f && g' == g)
  {
    hide SafeInv, RecoverToDisarmed, AfterRelease;
    RecoversExactly(g);
    ReleasesExactly(f);
  }

  function Samples(readings: seq<Reading>): (calls: seq<FlightCall>) {
    seq(|readings|, i requires 0 <= i < |readings| => Sampled(readings[i].control, readings[i].now))
  }

  lemma {:induction false} SamplesUpdate(s: System, readings: seq<Reading>)
    requires s.failsafe.initialized
    ensures var r := FlightRun(s, Samples(readings));
            && r.gate == s.gate && r.arming == s.arming && r.failsafe.initialized
            && r.failsafe == UpdateWith(s.failsafe, readings)
    decreases |readings|
  {
    hide AfterUpdate;
    if readings != [] {
      var init, last := readings[..|readings| - 1], readings[|readings| - 1];
      assert Samples(readings)[..|readings| - 1] == Samples(init);
      SamplesUpdate(s, init);
      UpdatesCompose(s.failsafe, init, last);
      assert readings == init + [last];
      StaysInitialized(UpdateWith(s.failsafe, init), last);
    }
  }

  lemma StaysInitialized(f: Failsafe, reading: Reading)
    requires f.initialized
    ensures AfterUpdate(f, reading.control, reading.now).initialized
  {
  }

  lemma {:induction false} UpdatesCompose(f: Failsafe, readings: seq<Reading>, last: Reading)
    ensures UpdateWith(f, readings + [last]) == AfterUpdate(UpdateWith(f, readings), last.control, last.now)
    decreases |readings|
  {
    hide AfterUpdate;
    if readings == [] {
      assert [] + [last] == [last];
    } else {
      assert (readings + [last])[1..] == readings[1..] + [last];
      UpdatesCompose(AfterUpdate(f, readings[0].control, readings[0].now), readings[1..], last);
    }
  }

  /**
   * The pilot gets control back: with the latch closed and the gate in FAILSAFE, safe samples on a forward clock that
   * last the configured time, and then a recovery, open the latch and leave the gate idle in DISARMED; ended earlier
   * they change neither.
   */
  lemma ControlComesBack(s: System, readings: seq<Reading>)
    requires SafeInv(s.gate) && FailsafeInv(s.failsafe) && s.failsafe.latched && !s.failsafe.timerActive
    requires s.gate.machine.current == State.Failsafe && SafeRun(s.failsafe.config, readings) && readings != []
    ensures var r := FlightStep(FlightRun(s, Samples(readings)), Recovery);
            if readings[|readings| - 1].now - readings[0].now >= s.failsafe.config.recoveryStable then
              && !r.failsafe.latched && r.gate.machine.current == Disarmed && r.gate.active == NoSource
              && r.gate.pending == NoSource
            else r.failsafe.latched && r.gate == s.gate
  {
    hide SafeInv, RecoverReceiver, FlightRun, UpdateWith, SafeRun, AfterUpdate;
    SamplesUpdate(s, readings);
    SafeRunIsReadyExactly(s.failsafe, readings);
    RecoveryOpensExactly(s.gate, UpdateWith(s.failsafe, readings));
    NotReadyIsIdle(s.gate, UpdateWith(s.failsafe, readings));
  }

  lemma NotReadyIsIdle(g: Gate, f: Failsafe)
    ensures !f.recoveryReady ==> RecoverReceiver(g, f) == (g, f, false)
  {
  }

  /**
   * A configuration is taken exactly if it is valid, the system is DISARMED with nothing pending, it could be stored,
   * the runtime could be prepared, and the receiver, if it runs, took its freshness limits. Then the gate has its
   * directions, to be told anew, and its readiness, and a running receiver's failsafe starts over. A refusal before
   * the preparation changes nothing; one by the receiver leaves the gate changed.
   */
  lemma ConfigurationHasItsOutcome(g: Gate, f: Failsafe, c: Configuration, replies: ApplyReplies)
    ensures var (g', f', result) := WriteConfiguration(g, f, c, replies);
            var safe := g.machine.current == Disarmed && g.pending == NoSource;
            var applied := g.(configuration := c.motors, directionsRemaining := 10, directionSequenceActive := true,
                              externalArmReady := c.calibrated);
            var valid := c.failsafe.Valid() && c.restIsValid;
            && (result == ServiceInvalid <==> !valid) && (result == ServiceUnsafe <==> valid && !safe)
            && (result == ServiceStorageError <==> valid && safe && !replies.stored)
            && (result == ServiceOk <==>
                  && valid && safe && replies.stored && replies.prepared
                  && (replies.receiverRunning ==> replies.freshnessUpdated))
            && g' == (if valid && safe && replies.stored && replies.prepared then applied else g)
            && (if result == ServiceOk && replies.receiverRunning then
                  && f'.initialized && f'.config == c.failsafe && f'.initializedAt == replies.at && !f'.latched
                  && f'.stage == Unavailable && !f'.timerActive && !f'.recoveryReady && f'.transitions == 0
                else f' == f)
  {
  }
}
