/** The calls that move the motor gate, the receiver failsafe and the stored configuration together. */
module FlightControl {
  import opened Counters
  import opened SystemState
  import opened MotorCommands
  import opened QuadMixer
  import opened RateControl
  import Core = ControlCore
  import opened ControlCore
  import opened RateLaw
  import opened CoreLaw
  import opened MotorGate
  import opened GateHistory
  import opened GateGives
  import opened MotorControl
  import opened ReceiverFailsafe
  import opened FlightSystem

  method RecoverReceiver(motor: MotorControl, failsafe: Monitor) returns (recovered: bool)
    requires motor.Valid()
    modifies motor, motor.machine, failsafe
    ensures motor.Valid() && motor.control.initialized == old(motor.control.initialized)
    ensures !motor.control.initialized ==>
              !recovered && motor.View() == old(motor.View()) && failsafe.View() == old(failsafe.View())
    ensures motor.control.initialized ==>
              (motor.View(), failsafe.View(), recovered) ==
              FlightSystem.RecoverReceiver(old(motor.View()), old(failsafe.View()))
  {
    hide MotorControl.Valid, RecoverToDisarmed;
    if !failsafe.initialized || !failsafe.stageTwoLatched || !failsafe.recoveryReady {
      return false;
    }
    var result := motor.RecoverToDisarmed();
    if result != Some(RecoveryAccepted) {
      return false;
    }
    recovered := failsafe.ReleaseStageTwo();
  }

  /** What the rest of the firmware sees of the last control update. */
  datatype Observation = Observation(desired: Axes, valid: bool, output: RateOutput, result: RateResult)

  const NothingObserved: Observation := Observation(ZeroAxes, false, NoOutput, RateDisabled)

  function ObservationOf(output: CoreOutput): (o: Observation) {
    Observation(output.desired, output.rateResult == RateSeeded || output.rateResult == RateUpdated, output.rateOutput,
                output.rateResult)
  }

  /** What the core's update means for the objective. */
  function ReplyOf(result: CoreResult, output: CoreOutput): (r: CoreReply) {
    if result == Core.CoreUpdated && output.mixer.Some? then CoreReply.CoreUpdated(output.mixer.value.command)
    else if result == Core.CoreWaiting then CoreReply.CoreWaiting
    else CoreFailed
  }

  /** The control core together with what is published of it. */
  class Stabilization {
    const core: FlightCore
    var observed: Observation

    ghost predicate Valid()
      reads core, core.rates
    {
      core.Valid()
    }

    constructor (core: FlightCore)
      ensures this.core == core && observed == NothingObserved
    {
      this.core := core;
      observed := NothingObserved;
    }

    /** Resets the core and withdraws what was published. */
    method Reset()
      requires Valid()
      modifies this, core, core.rates, core.rates.axis
      ensures Valid() && core.View() == ResetCore(old(core.View())) && observed == NothingObserved
    {
      core.Reset();
      observed := NothingObserved;
    }
  }

  method EnterFailsafe(motor: MotorControl, stabilization: Stabilization) returns (result: FlightResult)
    requires motor.Valid() && stabilization.Valid()
    modifies motor, motor.machine
    modifies stabilization, stabilization.core, stabilization.core.rates, stabilization.core.rates.axis
    ensures motor.Valid() && motor.control.initialized == old(motor.control.initialized) && stabilization.Valid()
    ensures !motor.control.initialized ==> result == FlightFailsafeError && motor.View() == old(motor.View())
    ensures motor.control.initialized ==> (motor.View(), result) == EnterFlightFailsafe(old(motor.View()))
    ensures stabilization.core.View() == ResetCore(old(stabilization.core.View()))
    ensures stabilization.observed == NothingObserved
  {
    hide MotorControl.Valid, ResetCore;
    stabilization.Reset();
    var accepted := motor.RequestFailsafe();
    return if accepted then FlightFailsafe else FlightFailsafeError;
  }

  /** An objective and what the core needs for it; None where the caller had something missing. */
  datatype Request = Request(profile: Profile, vehicle: Option<VehicleState>, objective: Objective)

  /** What the core answers to the request, and what is left of the core and of what was published. */
  function Attempt(c: Core.Core, was: Observation, owns: bool, request: Option<Request>, now: uint64)
    : (r: (CoreReply, Core.Core, Observation))
  {
    if !owns || request == None then (CoreFailed, ResetCore(c), NothingObserved)
    else
      var (next, result, output) :=
        UpdateCore(c, request.value.profile, request.value.vehicle, request.value.objective, now);
      match ReplyOf(result, output)
      case CoreUpdated(command) => (CoreReply.CoreUpdated(command), next, ObservationOf(output))
      case CoreWaiting => (CoreReply.CoreWaiting, next, was)
      case CoreFailed => (CoreFailed, ResetCore(next), NothingObserved)
  }

  method ExecuteObjective(motor: MotorControl, stabilization: Stabilization, authority: Source,
                          request: Option<Request>, now: uint64, stopAccepted: bool)
    returns (result: FlightResult)
    requires motor.Valid() && stabilization.Valid()
    modifies motor, motor.machine, motor.faults, motor.faults.records
    modifies stabilization, stabilization.core, stabilization.core.rates, stabilization.core.rates.axis
    ensures motor.Valid() && motor.control.initialized == old(motor.control.initialized) && stabilization.Valid()
    ensures !motor.control.initialized ==> result == FlightIdle && motor.View() == old(motor.View())
    ensures var owns := motor.control.initialized && authority != NoSource
                        && old(ActiveSource(motor.View())) == authority;
            var attempt := Attempt(old(stabilization.core.View()), old(stabilization.observed), owns, request, now);
            && (stabilization.core.View(), stabilization.observed) == (attempt.1, attempt.2)
            && (motor.control.initialized ==>
                  (motor.View(), result) ==
                  FlightSystem.ExecuteObjective(old(motor.View()), authority, request.Some?, attempt.0, now,
                                                stopAccepted))
  {
    hide MotorControl.Valid, Submit, EnterFlightFailsafe, UpdateCore, ResetCore;
    if authority == NoSource || !motor.control.initialized || motor.machine.current != Armed ||
       motor.control.activeSource != authority {
      stabilization.Reset();
      return FlightIdle;
    }
    if request == None {
      result := EnterFailsafe(motor, stabilization);
      return;
    }
    var outcome, output :=
      stabilization.core.Update(request.value.profile, request.value.vehicle, request.value.objective, now);
    match ReplyOf(outcome, output) {
      case CoreWaiting => return FlightWaiting;
      case CoreFailed => result := EnterFailsafe(motor, stabilization);
      case CoreUpdated(command) =>
        stabilization.observed := ObservationOf(output);
        var submitted := motor.Submit(authority, command, now, stopAccepted);
        return if submitted == Some(SubmitOk) then FlightSubmitted else FlightSubmitError;
    }
  }

  /** The update the observation speaks of. */
  predicate Observes(observed: Observation, output: CoreOutput) {
    && observed.desired == output.desired && observed.output == output.rateOutput
    && observed.result == output.rateResult
    && (observed.valid <==> output.rateResult == RateSeeded || output.rateResult == RateUpdated)
  }

  /** The command is the one the control law gives for this request, and the observation says how. */
  ghost predicate Flies(c: Core.Core, request: Request, now: uint64, command: Command, next: Core.Core,
                        observed: Observation)
  {
    exists output: CoreOutput ::
      && output.mixer.Some? && output.mixer.value.command == command && Observes(observed, output)
      && MotorsRespect(request.profile, output, now)
      && (request.objective.throttle == 0.0 ==> output.rateResult == RateDisabled && Unused(next.controller))
      && (request.objective.throttle > 0.0 ==>
            && request.vehicle.Some?
            && AllAsk(request.profile, request.vehicle.value, request.objective, output.desired)
            && RatesFollow(c, request.vehicle.value, request.objective, next, output))
  }

  /**
   * An objective under its own authority is answered by the control core: with a command exactly when the objective is
   * current and, unless it stops the motors, the sample is the first or the next one; then the command, the state left
   * and what is published follow the control law. A used sample is waited over; anything else resets core and
   * publication.
   */
  lemma SubmittedCommandIsMixed(c: Core.Core, was: Observation, request: Request, now: uint64)
    requires CoreInv(c) && ProfileValid(request.profile)
    ensures var (reply, next, observed) := Attempt(c, was, true, Some(request), now);
            var o, v := request.objective, request.vehicle;
            var ready := Current(o, now) && o.throttle > 0.0 && v.Some? && v.value.valid
                         && AllAnswerable(request.profile, o);
            && CoreInv(next)
            && (reply.CoreUpdated? <==>
                  || (Current(o, now) && o.throttle == 0.0)
                  || (ready && (FirstSample(c.controller) || NextSample(c.controller, v.value))))
            && (reply.CoreUpdated? ==> Flies(c, request, now, reply.command, next, observed))
            && (reply.CoreWaiting? <==> ready && SameSample(c.controller, v.value))
            && (reply.CoreWaiting? ==> observed == was)
            && (reply.CoreFailed? ==>
                  observed == NothingObserved && Unused(next.controller) && next.desired == ZeroAxes)
  {
    hide UpdateCore, MotorsRespect, ReachesRates, HoldsIntegrals, AllAsk, RatesFollow, IntegralsOf;
    CoreKeeps(c, request.profile, request.vehicle, request.objective, now);
    UpdateFollowsLaw(c, request.profile, request.vehicle, request.objective, now);
    var (next, result, output) := UpdateCore(c, request.profile, request.vehicle, request.objective, now);
    ClearedIntegrals(next.controller);
    if result == Core.CoreUpdated {
      MixedIsThere(request.profile, output, now);
      assert Observes(ObservationOf(output), output);
    }
  }

  lemma MixedIsThere(p: Profile, output: CoreOutput, now: uint64)
    requires MotorsRespect(p, output, now) && ProfileValid(p)
    ensures output.mixer.Some?
    ensures var command := output.mixer.value.command;
            command.valid && command.timestamp == now && Usable(command.throttle)
  {
    hide Feasible, Deltas, Torque;
    var m: Throttles :| MotorsFrom(p, output, m, now);
    forall i | 0 <= i < MOTOR_COUNT
      ensures 0.0 <= SettleAll(m)[i] <= 1.0
    {
      assert SettleAll(m)[i] == Settle(m[i]);
    }
  }

  /** Without authority or without inputs nothing is flown. */
  lemma NothingIsFlown(c: Core.Core, was: Observation, owns: bool, request: Option<Request>, now: uint64)
    requires !owns || request == None
    ensures var (reply, next, observed) := Attempt(c, was, owns, request, now);
            && reply.CoreFailed? && observed == NothingObserved && Unused(next.controller) && next.desired == ZeroAxes
  {
  }

  /**
   * What the core answers with, the gate takes: an objective is submitted exactly when its source is armed and prepared
   * and the core answers with a command.
   */
  lemma AnswerIsSubmitted(g: Gate, c: Core.Core, was: Observation, authority: Source, request: Request, now: uint64,
                          stopAccepted: bool)
    requires SafeInv(g) && g.timeout != 0 && CoreInv(c) && ProfileValid(request.profile)
    ensures var owns := authority != NoSource && g.machine.current == Armed && g.active == authority;
            var (reply, _, _) := Attempt(c, was, owns, Some(request), now);
            var (r, result) := FlightSystem.ExecuteObjective(g, authority, true, reply, now, stopAccepted);
            && (result == FlightSubmitted <==> owns && g.preparationComplete && reply.CoreUpdated?)
            && (result == FlightSubmitted ==>
                  r == g.(retained := r.retained, log := g.log + [CommandAccepted(authority, reply.command)])
                  && Routed(g.mapping, reply.command.throttle, r.retained.throttle))
            && (result == FlightIdle <==> !owns) && (result == FlightWaiting <==> owns && reply.CoreWaiting?)
            && (result == FlightIdle || result == FlightWaiting ==> r == g)
            && (result == FlightFailsafe <==> owns && reply.CoreFailed?)
            && (owns && reply.CoreFailed? ==> r.machine.current == State.Failsafe && r.active == NoSource)
  {
    hide SafeInv, Submit, EnterFailsafeIfArmed, UpdateCore, Flies, IntegralsOf, MotorsRespect, Routed;
    var owns := authority != NoSource && g.machine.current == Armed && g.active == authority;
    var (reply, next, _) := Attempt(c, was, owns, Some(request), now);
    if owns {
      FailsafeAfterArmed(g);
      if reply.CoreUpdated? {
        UpdateFollowsLaw(c, request.profile, request.vehicle, request.objective, now);
        MixedIsThere(request.profile, UpdateCore(c, request.profile, request.vehicle, request.objective, now).2, now);
        SubmitAcceptsExactly(g, authority, reply.command, now, stopAccepted);
      }
    }
  }

  class ConfigurationService {
    const motor: MotorControl
    const failsafe: Monitor
    const defaults: Configuration
    var active: Configuration
    var persistent: bool
    var revision: uint32

    constructor (motor: MotorControl, failsafe: Monitor, defaults: Configuration, loaded: Option<Configuration>)
      requires defaults.Valid() && (loaded.Some? ==> loaded.value.Valid())
      ensures this.motor == motor && this.failsafe == failsafe && this.defaults == defaults
      ensures active == (if loaded.Some? then loaded.value else defaults) && active.Valid()
      ensures persistent == loaded.Some? && revision == 1
    {
      this.motor := motor;
      this.failsafe := failsafe;
      this.defaults := defaults;
      active := if loaded.Some? then loaded.value else defaults;
      persistent := loaded.Some?;
      revision := 1;
    }

    method Apply(c: Configuration, replies: ApplyReplies) returns (ok: bool)
      requires motor.Valid()
      modifies motor, failsafe
      ensures motor.Valid() && motor.control.initialized == old(motor.control.initialized)
      ensures !motor.control.initialized ==>
                !ok && motor.View() == old(motor.View()) && failsafe.View() == old(failsafe.View())
      ensures motor.control.initialized ==>
                (motor.View(), failsafe.View(), ok) == ApplyRuntime(old(motor.View()), old(failsafe.View()), c, replies)
    {
      hide MotorControl.Valid, ApplyConfiguration, SetExternalArmReady, Initial;
      if !replies.prepared {
        return false;
      }
      var applied := motor.ApplyConfiguration(c.motors);
      if applied != Some(true) {
        return false;
      }
      var ready := motor.SetExternalArmReady(c.calibrated);
      if !ready {
        return false;
      }
      if !replies.receiverRunning {
        return true;
      }
      if !replies.freshnessUpdated {
        return false;
      }
      ok := failsafe.Initialize(c.failsafe, replies.at);
    }

    method AdvanceRevision()
      modifies this
      ensures revision == if old(revision) == UINT32_MAX then 1 else old(revision) + 1
      ensures active == old(active) && persistent == old(persistent)
    {
      revision := if revision == UINT32_MAX then 1 else revision + 1;
    }

    /** A gate that is not initialized owns nothing and takes no configuration. */
    function Offline(c: Configuration, current: State, replies: ApplyReplies): (r: ServiceResult) {
      if !c.Valid() then ServiceInvalid
      else if current != Disarmed then ServiceUnsafe
      else if !replies.stored then ServiceStorageError
      else ServiceApplyError
    }

    /** Stores and applies a configuration; the active one changes only when everything succeeded. */
    method Write(c: Configuration, replies: ApplyReplies) returns (result: ServiceResult)
      requires motor.Valid()
      modifies this, motor, failsafe
      ensures motor.Valid() && motor.control.initialized == old(motor.control.initialized)
      ensures motor.control.initialized ==>
                (motor.View(), failsafe.View(), result) ==
                WriteConfiguration(old(motor.View()), old(failsafe.View()), c, replies)
      ensures !motor.control.initialized ==>
                && motor.View() == old(motor.View()) && failsafe.View() == old(failsafe.View())
                && result == Offline(c, motor.machine.current, replies)
      ensures result == ServiceOk ==>
                && active == c && persistent
                && revision == if old(revision) == UINT32_MAX then 1 else old(revision) + 1
      ensures result != ServiceOk ==>
                active == old(active) && persistent == old(persistent) && revision == old(revision)
    {
      hide MotorControl.Valid, ApplyRuntime;
      if !c.Valid() {
        return ServiceInvalid;
      }
      if motor.machine.current != Disarmed ||
         (motor.control.initialized && motor.control.pendingSource != NoSource) {
        return ServiceUnsafe;
      }
      if !replies.stored {
        return ServiceStorageError;
      }
      var ok := Apply(c, replies);
      if !ok {
        return ServiceApplyError;
      }
      active := c;
      persistent := true;
      AdvanceRevision();
      return ServiceOk;
    }

    /** Restoring the defaults follows the same order as writing them. */
    method Reset(replies: ApplyReplies) returns (result: ServiceResult)
      requires motor.Valid() && defaults.Valid()
      modifies this, motor, failsafe
      ensures motor.Valid() && motor.control.initialized == old(motor.control.initialized)
      ensures motor.control.initialized ==>
                (motor.View(), failsafe.View(), result) ==
                WriteConfiguration(old(motor.View()), old(failsafe.View()), defaults, replies)
      ensures !motor.control.initialized ==>
                && motor.View() == old(motor.View()) && failsafe.View() == old(failsafe.View())
                && result == Offline(defaults, motor.machine.current, replies)
      ensures result == ServiceOk ==>
                && active == defaults && !persistent
                && revision == if old(revision) == UINT32_MAX then 1 else old(revision) + 1
      ensures result != ServiceOk ==>
                active == old(active) && persistent == old(persistent) && revision == old(revision)
    {
      hide MotorControl.Valid, ApplyRuntime;
      if motor.machine.current != Disarmed ||
         (motor.control.initialized && motor.control.pendingSource != NoSource) {
        return ServiceUnsafe;
      }
      if !replies.stored {
        return ServiceStorageError;
      }
      var ok := Apply(defaults, replies);
      if !ok {
        return ServiceApplyError;
      }
      active := defaults;
      persistent := false;
      AdvanceRevision();
      return ServiceOk;
    }
  }
}
