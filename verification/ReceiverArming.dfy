/** Arming and disarming from the receiver's switch: three qualification flags in front of the motor gate. */
module ReceiverArming {
  import opened Counters
  import opened MotorCommands
  import opened MotorGate
  import opened MotorControl
  import opened SystemState
  import opened ReceiverFailsafe

  datatype Freshness = NoSignal | Fresh | Stale | Lost

  datatype Input = Input(snapshot: Snapshot, freshness: Freshness)

  datatype ArmingResult =
    | ArmingIdle | InputUnavailable | OtherSourceActive | WaitingForLow | ArmingReady | ReceiverActive
    | BlockedThrottle | ReceiverArmPending | ArmRejected | ReceiverDisarmed | DisarmRejected | NotInitialized

  datatype Arming = Arming(
    throttleMaximum: real, lastResult: ArmingResult, armRequests: uint32, rejectedArms: uint32, disarmRequests: uint32,
    lowSeen: bool, previousHigh: bool, observed: bool, initialized: bool)

  predicate ThrottleLimitIsValid(limit: real) {
    0.0 <= limit <= STOP_THRESHOLD
  }

  function Unarmed(limit: real): (a: Arming) {
    if ThrottleLimitIsValid(limit) then Arming(limit, ArmingIdle, 0, 0, 0, false, false, false, true)
    else Arming(0.0, ArmingIdle, 0, 0, 0, false, false, false, false)
  }

  predicate Usable(input: Option<Input>, decision: Option<Decision>) {
    && input.Some? && input.value.snapshot.valid
    && 0.0 <= input.value.snapshot.throttle <= 1.0
    && input.value.freshness == Fresh
    && decision.Some? && decision.value.stage == Live && decision.value.action == ActLive
  }

  /** The gate as the arming code sees it; a gate not yet initialized owns nothing and refuses everything. */
  function Owner(g: Gate, online: bool): (s: Source) {
    if !online then NoSource else if ActiveSource(g) != NoSource then ActiveSource(g) else PendingSource(g)
  }

  function TryDisarm(g: Gate, online: bool): (r: (Gate, bool)) {
    if !online then (g, false) else var (g', result) := MotorGate.Disarm(g); (g', result == DisarmAccepted)
  }

  function TryArm(g: Gate, online: bool, now: nat): (r: (Gate, bool)) {
    if !online then (g, false) else var (g', result) := MotorGate.Arm(g, Receiver, now); (g', result == ArmPending)
  }

  function Unqualified(a: Arming, result: ArmingResult): (r: Arming) {
    a.(lowSeen := false, previousHigh := false, observed := false, lastResult := result)
  }

  function HandleUnusable(a: Arming, g: Gate, online: bool): (r: (Arming, Gate, ArmingResult)) {
    var g' := if online && PendingSource(g) == Receiver then TryDisarm(g, online).0 else g;
    (Unqualified(a, InputUnavailable), g', InputUnavailable)
  }

  function HandleOwned(a: Arming, g: Gate, online: bool, high: bool): (r: (Arming, Gate, ArmingResult)) {
    var seen := a.(observed := true, previousHigh := high);
    if high then (seen.(lastResult := ReceiverActive), g, ReceiverActive)
    else
      var counted := seen.(disarmRequests := SaturatingIncrement(a.disarmRequests));
      var (g', accepted) := TryDisarm(g, online);
      if accepted then (counted.(lowSeen := true, lastResult := ReceiverDisarmed), g', ReceiverDisarmed)
      else (counted.(lastResult := DisarmRejected), g', DisarmRejected)
  }

  function RequestArm(a: Arming, g: Gate, online: bool, throttle: real, now: nat): (r: (Arming, Gate, ArmingResult)) {
    var counted := a.(armRequests := SaturatingIncrement(a.armRequests));
    var rejected := counted.(rejectedArms := SaturatingIncrement(a.rejectedArms));
    if throttle > a.throttleMaximum then (rejected.(lastResult := BlockedThrottle), g, BlockedThrottle)
    else
      var (g', pending) := TryArm(g, online, now);
      if pending then (counted.(lastResult := ReceiverArmPending), g', ReceiverArmPending)
      else (rejected.(lastResult := ArmRejected), g', ArmRejected)
  }

  function HandleFree(a: Arming, g: Gate, online: bool, s: Snapshot, now: nat): (r: (Arming, Gate, ArmingResult)) {
    if !s.armSwitchHigh then
      (a.(lowSeen := true, previousHigh := false, observed := true, lastResult := ArmingReady), g, ArmingReady)
    else
      var rising := a.observed && !a.previousHigh;
      var seen := a.(previousHigh := true, observed := true);
      if !a.lowSeen || !rising then (seen.(lastResult := WaitingForLow), g, WaitingForLow)
      else RequestArm(seen.(lowSeen := false), g, online, s.throttle, now)
  }

  /** What the arming code is given in one step: its inputs and the gate it then finds. */
  datatype Sample = Sample(input: Option<Input>, decision: Option<Decision>, gate: Gate, online: bool, now: nat)

  function Process(a: Arming, s: Sample): (r: (Arming, Gate, ArmingResult)) {
    if !a.initialized then (a, s.gate, NotInitialized)
    else if !Usable(s.input, s.decision) then HandleUnusable(a, s.gate, s.online)
    else if Owner(s.gate, s.online) == UsbTest then (Unqualified(a, OtherSourceActive), s.gate, OtherSourceActive)
    else if Owner(s.gate, s.online) == Receiver then
      HandleOwned(a, s.gate, s.online, s.input.value.snapshot.armSwitchHigh)
    else HandleFree(a, s.gate, s.online, s.input.value.snapshot, s.now)
  }

  /* ---------------- the two-sample rule ---------------- */

  /** The step offered a released switch the receiver may build on. */
  predicate Releases(s: Sample) {
    Usable(s.input, s.decision) && !s.input.value.snapshot.armSwitchHigh && Owner(s.gate, s.online) != UsbTest
  }

  /** The step asks for an arm: a raised switch at low throttle, with no source owning the gate. */
  predicate Raises(s: Sample, limit: real) {
    && Usable(s.input, s.decision) && s.input.value.snapshot.armSwitchHigh
    && Owner(s.gate, s.online) == NoSource && s.input.value.snapshot.throttle <= limit
  }

  /** These two results are given exactly when the gate was asked to arm. */
  predicate AskedToArm(result: ArmingResult) {
    result == ReceiverArmPending || result == ArmRejected
  }

  function After(a: Arming, samples: seq<Sample>): (r: Arming)
    decreases |samples|
  {
    if samples == [] then a else Process(After(a, samples[..|samples| - 1]), samples[|samples| - 1]).0
  }

  lemma OwnedDisarmIsAccepted(g: Gate, online: bool)
    requires Owner(g, online) == Receiver
    ensures TryDisarm(g, online).1
  {
  }

  /** The flags say no more and no less than that the step just taken released the switch. */
  lemma {:induction false} FlagsAreTheLastSample(limit: real, samples: seq<Sample>)
    requires ThrottleLimitIsValid(limit)
    ensures var a := After(Unarmed(limit), samples);
            && a.initialized && a.throttleMaximum == limit
            && (a.observed && !a.previousHigh <==> samples != [] && Releases(samples[|samples| - 1]))
            && (a.observed && !a.previousHigh ==> a.lowSeen)
    decreases |samples|
  {
    if samples != [] {
      var last := samples[|samples| - 1];
      FlagsAreTheLastSample(limit, samples[..|samples| - 1]);
      if Owner(last.gate, last.online) == Receiver {
        OwnedDisarmIsAccepted(last.gate, last.online);
      }
    }
  }

  /**
   * Whatever happens to the gate between steps, a step asks it to arm exactly when that step raises the switch
   * and the step just before released it.
   */
  lemma TwoSampleRule(limit: real, samples: seq<Sample>, next: Sample)
    requires ThrottleLimitIsValid(limit)
    ensures AskedToArm(Process(After(Unarmed(limit), samples), next).2) <==>
            Raises(next, limit) && samples != [] && Releases(samples[|samples| - 1])
  {
    FlagsAreTheLastSample(limit, samples);
  }

  /** The receiver never moves the gate while another source owns it, and never has a disarm refused. */
  lemma ArmingRespectsOwner(a: Arming, s: Sample)
    ensures var r := Process(a, s);
            && r.2 != DisarmRejected
            && (Owner(s.gate, s.online) == UsbTest ==> r.1 == s.gate)
            && (r.1 != s.gate ==>
                  s.online && (r.1 == MotorGate.Arm(s.gate, Receiver, s.now).0 ||
                               (Owner(s.gate, s.online) == Receiver && r.1 == MotorGate.Disarm(s.gate).0)))
  {
    if Owner(s.gate, s.online) == Receiver {
      OwnedDisarmIsAccepted(s.gate, s.online);
    }
  }

  /* ---------------- the arming state updated in place ---------------- */

  class Controller {
    var throttleMaximum: real
    var lastResult: ArmingResult
    var armRequestCount: uint32
    var rejectedArmCount: uint32
    var disarmRequestCount: uint32
    var armLowSeen: bool
    var previousArmSwitchHigh: bool
    var switchObserved: bool
    var initialized: bool

    ghost function View(): (a: Arming)
      reads this
    {
      Arming(throttleMaximum, lastResult, armRequestCount, rejectedArmCount, disarmRequestCount, armLowSeen,
             previousArmSwitchHigh, switchObserved, initialized)
    }

    constructor (limit: real)
      ensures View() == Unarmed(limit)
    {
      armRequestCount, rejectedArmCount, disarmRequestCount := 0, 0, 0;
      armLowSeen, previousArmSwitchHigh, switchObserved := false, false, false;
      lastResult := ArmingIdle;
      initialized := ThrottleLimitIsValid(limit);
      throttleMaximum := if ThrottleLimitIsValid(limit) then limit else 0.0;
    }

    method ClearQualification()
      modifies this
      ensures View() == old(View()).(lowSeen := false, previousHigh := false, observed := false)
    {
      armLowSeen := false;
      previousArmSwitchHigh := false;
      switchObserved := false;
    }

    method OwningSource(motor: MotorControl) returns (source: Source)
      ensures source == Owner(motor.View(), motor.control.initialized)
    {
      source := NoSource;
      if motor.control.initialized {
        if motor.machine.current == Armed {
          source := motor.control.activeSource;
        }
        if source == NoSource && motor.machine.current == Disarmed {
          source := motor.control.pendingSource;
        }
      }
    }

    method ProcessUnusable(motor: MotorControl) returns (result: ArmingResult)
      requires motor.Valid()
      modifies this, motor, motor.machine
      ensures motor.Valid() && motor.control.initialized == old(motor.control.initialized)
      ensures (View(), motor.View(), result) == HandleUnusable(old(View()), old(motor.View()),
              motor.control.initialized)
    {
      hide MotorControl.Valid, MotorGate.Disarm;
      if motor.control.initialized && motor.machine.current == Disarmed && motor.control.pendingSource == Receiver {
        var _ := motor.Disarm();
      }
      ClearQualification();
      lastResult := InputUnavailable;
      return lastResult;
    }

    method ProcessOwned(motor: MotorControl, high: bool) returns (result: ArmingResult)
      requires motor.Valid()
      modifies this, motor, motor.machine
      ensures motor.Valid() && motor.control.initialized == old(motor.control.initialized)
      ensures (View(), motor.View(), result) == HandleOwned(old(View()), old(motor.View()), motor.control.initialized,
              high)
    {
      hide MotorControl.Valid, MotorGate.Disarm;
      switchObserved := true;
      previousArmSwitchHigh := high;
      if high {
        lastResult := ReceiverActive;
        return lastResult;
      }
      disarmRequestCount := SaturatingIncrement(disarmRequestCount);
      var disarmed := motor.Disarm();
      if disarmed == Some(DisarmAccepted) {
        armLowSeen := true;
        lastResult := ReceiverDisarmed;
      } else {
        lastResult := DisarmRejected;
      }
      return lastResult;
    }

    method ProcessRequest(motor: MotorControl, throttle: real, now: nat) returns (result: ArmingResult)
      requires motor.Valid()
      modifies this, motor
      ensures motor.Valid() && motor.control.initialized == old(motor.control.initialized)
      ensures (View(), motor.View(), result) ==
              RequestArm(old(View()), old(motor.View()), motor.control.initialized, throttle, now)
    {
      hide MotorControl.Valid, MotorGate.Arm;
      armRequestCount := SaturatingIncrement(armRequestCount);
      if throttle > throttleMaximum {
        rejectedArmCount := SaturatingIncrement(rejectedArmCount);
        lastResult := BlockedThrottle;
        return lastResult;
      }
      var armed := motor.Arm(Receiver, now);
      if armed == Some(ArmPending) {
        lastResult := ReceiverArmPending;
        return lastResult;
      }
      rejectedArmCount := SaturatingIncrement(rejectedArmCount);
      lastResult := ArmRejected;
      return lastResult;
    }

    method ProcessFree(motor: MotorControl, s: Snapshot, now: nat) returns (result: ArmingResult)
      requires motor.Valid()
      modifies this, motor
      ensures motor.Valid() && motor.control.initialized == old(motor.control.initialized)
      ensures (View(), motor.View(), result) ==
              HandleFree(old(View()), old(motor.View()), motor.control.initialized, s, now)
    {
      hide MotorControl.Valid, RequestArm;
      if !s.armSwitchHigh {
        armLowSeen := true;
        previousArmSwitchHigh := false;
        switchObserved := true;
        lastResult := ArmingReady;
        return lastResult;
      }
      var rising := switchObserved && !previousArmSwitchHigh;
      previousArmSwitchHigh := true;
      switchObserved := true;
      if !armLowSeen || !rising {
        lastResult := WaitingForLow;
        return lastResult;
      }
      armLowSeen := false;
      result := ProcessRequest(motor, s.throttle, now);
    }

    method ProcessStep(motor: MotorControl, input: Option<Input>, decision: Option<Decision>, now: nat)
      returns (result: ArmingResult)
      requires motor.Valid()
      modifies this, motor, motor.machine
      ensures motor.Valid() && motor.control.initialized == old(motor.control.initialized)
      ensures (View(), motor.View(), result) ==
              Process(old(View()), Sample(input, decision, old(motor.View()), motor.control.initialized, now))
    {
      hide MotorControl.Valid, HandleUnusable, HandleOwned, HandleFree;
      if !initialized {
        return NotInitialized;
      }
      if !Usable(input, decision) {
        result := ProcessUnusable(motor);
        return;
      }
      var source := OwningSource(motor);
      if source == UsbTest {
        ClearQualification();
        lastResult := OtherSourceActive;
        return lastResult;
      }
      if source == Receiver {
        result := ProcessOwned(motor, input.value.snapshot.armSwitchHigh);
      } else {
        result := ProcessFree(motor, input.value.snapshot, now);
      }
    }
  }
}
