/** What one step of the receiver's arming switch does to the gate. */
module ArmingOutcome {
  import opened Counters
  import opened SystemState
  import opened MotorCommands
  import opened MotorGate
  import opened GateHistory
  import opened GateGives
  import opened GateServes
  import opened ReceiverFailsafe
  import opened ReceiverArming

  /** A valid, fresh sample the failsafe flies by. */
  predicate Steers(input: Option<Input>, decision: Option<Decision>) {
    && input.Some? && input.value.snapshot.valid && input.value.freshness == Fresh
    && 0.0 <= input.value.snapshot.throttle <= 1.0
    && decision.Some? && decision.value.stage == Live && decision.value.action == ActLive
  }

  /** The source armed, or else the one asking to be. */
  predicate Owns(g: Gate, source: Source) {
    || (g.machine.current == Armed && g.active == source)
    || (g.machine.current == Disarmed && g.pending == source)
  }

  predicate Free(g: Gate) {
    !(g.machine.current == Armed && g.active != NoSource) && !(g.machine.current == Disarmed && g.pending != NoSource)
  }

  /** The gate would admit a request of the receiver. */
  predicate Admits(g: Gate, now: nat) {
    && g.machine.current == Disarmed && g.active == NoSource && g.pending == NoSource && g.externalArmReady
    && !g.outputsStopped && g.stopStreamStarted && g.stopStreamStartedAt <= now
    && (g.preparationComplete || now - g.stopStreamStartedAt >= 5_000_000)
  }

  /**
   * One step on an initialized gate. Without a sample to steer by, the receiver's own pending request is taken back and
   * nothing else; another owner is left alone; an owning receiver gives up the gate exactly when its switch is low; and
   * a free gate is asked to arm exactly when the switch has just been raised from a low that was seen, at low throttle.
   */
  lemma StepHasItsOutcome(a: Arming, s: ReceiverArming.Sample)
    requires a.initialized && s.online && SafeInv(s.gate)
    ensures var (r, g, result) := Process(a, s);
            var high := s.input.Some? && s.input.value.snapshot.armSwitchHigh;
            r.lastResult == result &&
            if !Steers(s.input, s.decision) then
              && result == InputUnavailable && !r.lowSeen && !r.observed && !r.previousHigh
              && g == (if s.gate.machine.current == Disarmed && s.gate.pending == Receiver then
                         s.gate.(pending := NoSource, log := s.gate.log + [ArmCancelled])
                       else s.gate)
            else if Owns(s.gate, UsbTest) then
              result == OtherSourceActive && g == s.gate && !r.lowSeen && !r.observed && !r.previousHigh
            else if Owns(s.gate, Receiver) then
              && r.observed && r.previousHigh == high
              && (high ==> result == ReceiverActive && g == s.gate && r.lowSeen == a.lowSeen)
              && (!high ==>
                    && result == ReceiverDisarmed && r.lowSeen && g.machine.current == Disarmed
                    && g.active == NoSource && g.pending == NoSource && !Owns(g, Receiver)
                    && r.disarmRequests == Min(a.disarmRequests + 1, UINT32_MAX))
            else
              && Free(s.gate) && r.observed && r.previousHigh == high
              && (!high ==> result == ArmingReady && r.lowSeen && g == s.gate)
              && (high && !(a.lowSeen && a.observed && !a.previousHigh) ==>
                    result == WaitingForLow && g == s.gate && r.lowSeen == a.lowSeen)
              && (high && a.lowSeen && a.observed && !a.previousHigh ==>
                    && !r.lowSeen && r.armRequests == Min(a.armRequests + 1, UINT32_MAX)
                    && (if s.input.value.snapshot.throttle > a.throttleMaximum then
                          result == BlockedThrottle && g == s.gate
                        else if Admits(s.gate, s.now) then
                          result == ReceiverArmPending && g.pending == Receiver && g.machine == s.gate.machine
                        else
                          result == ArmRejected && g.pending == s.gate.pending && g.machine == s.gate.machine)
                    && r.rejectedArms ==
                       Min(a.rejectedArms + (if result == ReceiverArmPending then 0 else 1), UINT32_MAX))
  {
    hide SafeInv, MotorGate.Disarm, MotorGate.Arm;
    DisarmsExactly(s.gate);
    ArmAdmitsExactly(s.gate, Receiver, s.now);
    OwnersAreExclusive(s.gate);
  }

  lemma OwnersAreExclusive(g: Gate)
    requires SafeInv(g)
    ensures g.machine.current == Armed ==> g.pending == NoSource
    ensures g.machine.current == Disarmed ==> g.active == NoSource
  {
  }

  /** The arming state starts unqualified, and is usable exactly with a throttle limit up to the stop threshold. */
  lemma StartsUnqualified(limit: real)
    ensures var a := Unarmed(limit);
            && (a.initialized <==> 0.0 <= limit <= 0.001) && !a.lowSeen && !a.previousHigh && !a.observed
            && a.lastResult == ArmingIdle && a.armRequests == a.rejectedArms == a.disarmRequests == 0
            && a.throttleMaximum == if 0.0 <= limit <= 0.001 then limit else 0.0
  {
  }

  /** Without an initialized gate, or uninitialized itself, the arming code never gets anything from the gate. */
  lemma WithoutGateNothingHappens(a: Arming, s: ReceiverArming.Sample)
    requires !a.initialized || !s.online
    ensures var (r, g, result) := Process(a, s);
            && g == s.gate && (!a.initialized ==> r == a && result == NotInitialized)
            && (a.initialized ==>
                  && (result == InputUnavailable <==> !Steers(s.input, s.decision))
                  && (Steers(s.input, s.decision) ==>
                        result in {ArmingReady, WaitingForLow, BlockedThrottle, ArmRejected})
                  && r.disarmRequests == a.disarmRequests
                  && r.rejectedArms == Min(a.rejectedArms + (if result in {BlockedThrottle, ArmRejected} then 1 else 0),
                                           UINT32_MAX))
  {
  }
}
