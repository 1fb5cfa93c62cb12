/** The receiver failsafe: escalation with the age of the last sample, and the latched second stage. */
module ReceiverFailsafe {
  import opened Counters

  /** A normalized stick sample. */
  datatype Snapshot = Snapshot(
    roll: real, pitch: real, yaw: real, throttle: real, armSwitchHigh: bool, receivedAt: uint64, valid: bool)

  const StoppedControl: Snapshot := Snapshot(0.0, 0.0, 0.0, 0.0, false, 0, true)

  datatype Config = Config(
    staleAfter: uint64, lossDetectedAfter: uint64, holdLastUntil: uint64, stageTwoAfter: uint64, recoveryStable: uint64,
    roll: real, pitch: real, yaw: real, throttle: real, recoveryThrottleMaximum: real)
  {
    predicate Valid() {
      && 0 < staleAfter < lossDetectedAfter < holdLastUntil < stageTwoAfter
      && recoveryStable > 0
      && -1.0 <= roll <= 1.0 && -1.0 <= pitch <= 1.0 && -1.0 <= yaw <= 1.0
      && 0.0 <= throttle <= 1.0 && 0.0 <= recoveryThrottleMaximum <= 1.0
    }
  }

  const ZeroConfig: Config := Config(0, 0, 0, 0, 0, 0.0, 0.0, 0.0, 0.0, 0.0)

  datatype Stage =
    | Unavailable | Live | StaleHold | LossHold | StageOne | StageTwoLatched | StageTwoRecovering

  datatype Action = NoAction | ActLive | ActHoldLast | ActStageOne | ActStop

  datatype Decision = Decision(
    stage: Stage, action: Action, requested: Snapshot, linkAge: uint64, transitions: uint32, lossDetected: bool,
    latched: bool, recoveryReady: bool, clockValid: bool)

  datatype Failsafe = Failsafe(
    config: Config, stage: Stage, initializedAt: uint64, recoveryStartedAt: uint64, transitions: uint32,
    latched: bool, timerActive: bool, recoveryReady: bool, initialized: bool)

  const ZeroFailsafe: Failsafe := Failsafe(ZeroConfig, Unavailable, 0, 0, 0, false, false, false, false)

  function SetStage(f: Failsafe, stage: Stage): (r: Failsafe) {
    if f.stage == stage then f else f.(stage := stage, transitions := SaturatingIncrement(f.transitions))
  }

  function Latch(f: Failsafe): (r: Failsafe) {
    SetStage(f.(latched := true, timerActive := false, recoveryReady := false), StageTwoLatched)
  }

  function Initial(config: Config, at: uint64): (r: (Failsafe, bool)) {
    if !config.Valid() then (ZeroFailsafe, false)
    else (ZeroFailsafe.(config := config, initializedAt := at, initialized := true), true)
  }

  /** A missing or invalid sample ages from initialization. */
  function Reference(f: Failsafe, control: Option<Snapshot>): (t: uint64) {
    if control.Some? && control.value.valid then control.value.receivedAt else f.initializedAt
  }

  /** A sample that counts towards recovery: valid, fresh, switch low and low throttle. */
  predicate SafeSample(c: Config, control: Option<Snapshot>, now: uint64) {
    && control.Some? && control.value.valid
    && control.value.receivedAt <= now <= control.value.receivedAt + c.staleAfter
    && !control.value.armSwitchHigh
    && control.value.throttle <= c.recoveryThrottleMaximum
  }

  function Recover(f: Failsafe, safe: bool, now: uint64): (r: Failsafe) {
    if !safe then SetStage(f.(timerActive := false, recoveryReady := false), StageTwoLatched)
    else if !f.timerActive then SetStage(f.(timerActive := true, recoveryStartedAt := now), StageTwoRecovering)
    else if now < f.recoveryStartedAt then Latch(f)
    else f.(recoveryReady := now - f.recoveryStartedAt >= f.config.recoveryStable)
  }

  /** The stage the age of the last valid sample calls for while nothing is latched. */
  function StageForAge(c: Config, age: nat): (s: Stage) {
    if age <= c.staleAfter then Live
    else if age <= c.lossDetectedAfter then StaleHold
    else if age <= c.holdLastUntil then LossHold
    else if age <= c.stageTwoAfter then StageOne
    else StageTwoLatched
  }

  function AfterUpdate(f: Failsafe, control: Option<Snapshot>, now: uint64): (r: Failsafe) {
    var reference := Reference(f, control);
    if now < reference then Latch(f)
    else if f.latched then Recover(f, SafeSample(f.config, control, now), now)
    else if !(control.Some? && control.value.valid) then
      if now - reference > f.config.stageTwoAfter then Latch(f) else SetStage(f, Unavailable)
    else
      var stage := StageForAge(f.config, now - reference);
      if stage == StageTwoLatched then Latch(f) else SetStage(f, stage)
  }

  function AfterRelease(f: Failsafe): (r: (Failsafe, bool)) {
    if !f.initialized || !f.latched || !f.recoveryReady then (f, false)
    else (SetStage(f.(latched := false, timerActive := false, recoveryReady := false), Unavailable), true)
  }

  function ActionFor(stage: Stage): (a: Action) {
    match stage
    case Live => ActLive
    case StaleHold => ActHoldLast
    case LossHold => ActHoldLast
    case StageOne => ActStageOne
    case StageTwoLatched => ActStop
    case StageTwoRecovering => ActStop
    case Unavailable => NoAction
  }

  function StageOneControl(c: Config): (s: Snapshot) {
    Snapshot(c.roll, c.pitch, c.yaw, c.throttle, false, 0, true)
  }

  /* ---------------- what every update keeps ---------------- */

  ghost predicate FailsafeInv(f: Failsafe) {
    && f.initialized && f.config.Valid()
    && (f.latched <==> f.stage == StageTwoLatched || f.stage == StageTwoRecovering)
    && (f.timerActive <==> f.stage == StageTwoRecovering)
    && (f.recoveryReady ==> f.timerActive)
  }

  /**
   * One update: the latch only ever closes, it closes exactly on a clock that ran backwards or a silence past
   * the second stage, and otherwise the stage is the age band of the sample.
   */
  lemma UpdateKeeps(f: Failsafe, control: Option<Snapshot>, now: uint64)
    requires FailsafeInv(f)
    ensures var r := AfterUpdate(f, control, now);
            && FailsafeInv(r) && r.config == f.config && r.initializedAt == f.initializedAt
            && (r.latched <==>
                  f.latched || now < Reference(f, control) || now - Reference(f, control) > f.config.stageTwoAfter)
            && (!r.latched && control.Some? && control.value.valid ==>
                  r.stage == StageForAge(f.config, now - control.value.receivedAt))
            && (!r.latched && !(control.Some? && control.value.valid) ==> r.stage == Unavailable)
            && r.transitions == Min(f.transitions + (if r.stage == f.stage then 0 else 1), UINT32_MAX)
            && (r.recoveryReady ==> SafeSample(f.config, control, now))
            && (r.timerActive <==> f.latched && SafeSample(f.config, control, now) &&
                                   (f.timerActive ==> f.recoveryStartedAt <= now))
            && (SafeSample(f.config, control, now) <==>
                  && control.Some? && control.value.valid && !control.value.armSwitchHigh
                  && 0 <= now - control.value.receivedAt <= f.config.staleAfter
                  && control.value.throttle <= f.config.recoveryThrottleMaximum)
  {
  }

  /**
   * What the system does at every age of the last valid sample: it flies by it while it is fresh, repeats it up to the
   * hold time, takes the configured control up to the second stage, and stops beyond that or while the latch holds;
   * without a valid sample it does nothing.
   */
  lemma ResponseFollowsAge(f: Failsafe, control: Option<Snapshot>, now: uint64)
    requires FailsafeInv(f)
    ensures var r := AfterUpdate(f, control, now);
            var action := ActionFor(r.stage);
            && (action == ActStop <==> r.latched)
            && (!r.latched ==>
                  if control.Some? && control.value.valid then
                    var age := now - control.value.receivedAt;
                    && age >= 0
                    && (action == ActLive <==> age <= f.config.staleAfter)
                    && (action == ActHoldLast <==> f.config.staleAfter < age <= f.config.holdLastUntil)
                    && (action == ActStageOne <==> f.config.holdLastUntil < age <= f.config.stageTwoAfter)
                    && (r.stage == StaleHold <==> f.config.staleAfter < age <= f.config.lossDetectedAfter)
                  else action == NoAction)
  {
  }

  /* ---------------- how long recovery takes ---------------- */

  datatype Reading = Reading(control: Option<Snapshot>, now: uint64)

  /** A failsafe starts exactly with a valid configuration, without a sample and unlatched. */
  lemma InitializesExactly(config: Config, at: uint64)
    ensures var (r, ok) := Initial(config, at);
            && (ok <==> config.Valid()) && r.initialized == ok && !r.latched && !r.timerActive && !r.recoveryReady
            && r.stage == Unavailable && r.transitions == 0
            && (ok ==> FailsafeInv(r) && r.config == config && r.initializedAt == at)
  {
  }

  function UpdateWith(f: Failsafe, readings: seq<Reading>): (r: Failsafe)
    decreases |readings|
  {
    if readings == [] then f else UpdateWith(AfterUpdate(f, readings[0].control, readings[0].now), readings[1..])
  }

  predicate SafeRun(c: Config, readings: seq<Reading>) {
    && (forall i | 0 <= i < |readings| :: SafeSample(c, readings[i].control, readings[i].now))
    && (forall i, j | 0 <= i < j < |readings| :: readings[i].now <= readings[j].now)
  }

  /**
   * Over an unbroken run of safe samples on a forward clock a latched failsafe is ready exactly from the configured
   * time on after the reading that started the run.
   */
  lemma {:induction false} SafeRunIsReadyExactly(f: Failsafe, readings: seq<Reading>)
    requires FailsafeInv(f) && f.latched && SafeRun(f.config, readings) && readings != []
    requires f.timerActive ==> f.recoveryStartedAt <= readings[0].now
    ensures var r := UpdateWith(f, readings);
            var started := if f.timerActive then f.recoveryStartedAt else readings[0].now;
            && FailsafeInv(r) && r.latched && r.timerActive && r.recoveryStartedAt == started && r.config == f.config
            && (r.recoveryReady <==> readings[|readings| - 1].now - started >= f.config.recoveryStable)
    decreases |readings|
  {
    hide SafeSample;
    UpdateKeeps(f, readings[0].control, readings[0].now);
    OneSafeSample(f, readings[0]);
    var rest := readings[1..];
    if rest != [] {
      assert forall i | 0 <= i < |rest| :: rest[i] == readings[i + 1];
      SafeRunIsReadyExactly(AfterUpdate(f, readings[0].control, readings[0].now), rest);
    }
  }

  lemma OneSafeSample(f: Failsafe, reading: Reading)
    requires FailsafeInv(f) && f.latched && SafeSample(f.config, reading.control, reading.now)
    requires f.timerActive ==> f.recoveryStartedAt <= reading.now
    ensures var r := AfterUpdate(f, reading.control, reading.now);
            var started := if f.timerActive then f.recoveryStartedAt else reading.now;
            && r.latched && r.timerActive && r.recoveryStartedAt == started
            && (r.recoveryReady <==> reading.now - started >= f.config.recoveryStable)
  {
  }

  /** The latch is released exactly when it is closed and ready, and then everything starts over. */
  lemma ReleasesExactly(f: Failsafe)
    requires FailsafeInv(f)
    ensures var (r, released) := AfterRelease(f);
            && (released <==> f.latched && f.recoveryReady)
            && (released ==>
                  && !r.latched && !r.timerActive && !r.recoveryReady && r.stage == Unavailable && FailsafeInv(r)
                  && r.config == f.config && r.initializedAt == f.initializedAt)
            && (!released ==> r == f)
  {
  }

  function Severity(s: Stage): (n: nat) {
    match s
    case Live => 0
    case StaleHold => 1
    case LossHold => 2
    case StageOne => 3
    case StageTwoLatched => 4
    case StageTwoRecovering => 4
    case Unavailable => 0
  }

  function UpdateAll(f: Failsafe, control: Option<Snapshot>, readings: seq<uint64>): (r: Failsafe)
    decreases |readings|
  {
    if readings == [] then f else UpdateAll(AfterUpdate(f, control, readings[0]), control, readings[1..])
  }

  predicate Rising(readings: seq<uint64>) {
    forall i, j | 0 <= i < j < |readings| :: readings[i] <= readings[j]
  }

  /**
   * Without a newer sample the response only escalates, and it ends latched exactly when the silence outlasts the
   * bound.
   */
  lemma {:induction false} SilenceEscalates(f: Failsafe, control: Snapshot, age: nat, readings: seq<uint64>)
    requires FailsafeInv(f) && control.valid && Rising(readings) && readings != []
    requires !f.latched ==> f.stage == StageForAge(f.config, age)
    requires control.receivedAt + age <= readings[0]
    ensures var r := UpdateAll(f, Some(control), readings);
            && FailsafeInv(r)
            && Severity(f.stage) <= Severity(r.stage)
            && (r.latched <==> f.latched || readings[|readings| - 1] - control.receivedAt > f.config.stageTwoAfter)
    decreases |readings|
  {
    UpdateKeeps(f, Some(control), readings[0]);
    var g := AfterUpdate(f, Some(control), readings[0]);
    var rest := readings[1..];
    if rest != [] {
      assert forall i, j | 0 <= i < j < |rest| :: rest[i] == readings[i + 1] && rest[j] == readings[j + 1];
      SilenceEscalates(g, control, readings[0] - control.receivedAt, rest);
    }
  }

  /* ---------------- the failsafe updated in place ---------------- */

  class Monitor {
    var config: Config
    var stage: Stage
    var initializedAt: uint64
    var recoveryStartedAt: uint64
    var transitionCount: uint32
    var stageTwoLatched: bool
    var recoveryTimerActive: bool
    var recoveryReady: bool
    var initialized: bool

    ghost function View(): (f: Failsafe)
      reads this
    {
      Failsafe(config, stage, initializedAt, recoveryStartedAt, transitionCount, stageTwoLatched, recoveryTimerActive,
               recoveryReady, initialized)
    }

    constructor ()
      ensures View() == ZeroFailsafe
    {
      config, stage, initializedAt, recoveryStartedAt, transitionCount := ZeroConfig, Unavailable, 0, 0, 0;
      stageTwoLatched, recoveryTimerActive, recoveryReady, initialized := false, false, false, false;
    }

    method Initialize(newConfig: Config, at: uint64) returns (ok: bool)
      modifies this
      ensures (View(), ok) == Initial(newConfig, at)
    {
      config, stage, initializedAt, recoveryStartedAt, transitionCount := ZeroConfig, Unavailable, 0, 0, 0;
      stageTwoLatched, recoveryTimerActive, recoveryReady, initialized := false, false, false, false;
      if !newConfig.Valid() {
        return false;
      }
      config := newConfig;
      stage := Unavailable;
      initializedAt := at;
      initialized := true;
      return true;
    }

    method EnterStage(next: Stage)
      modifies this
      ensures View() == SetStage(old(View()), next)
    {
      if stage == next {
        return;
      }
      stage := next;
      transitionCount := SaturatingIncrement(transitionCount);
    }

    method LatchStageTwo()
      modifies this
      ensures View() == Latch(old(View()))
    {
      stageTwoLatched := true;
      recoveryTimerActive := false;
      recoveryReady := false;
      EnterStage(StageTwoLatched);
    }

    method UpdateRecovery(safe: bool, now: uint64)
      modifies this
      ensures View() == Recover(old(View()), safe, now)
    {
      if !safe {
        recoveryTimerActive := false;
        recoveryReady := false;
        EnterStage(StageTwoLatched);
        return;
      }
      if !recoveryTimerActive {
        recoveryTimerActive := true;
        recoveryStartedAt := now;
        EnterStage(StageTwoRecovering);
        return;
      }
      if now < recoveryStartedAt {
        LatchStageTwo();
        return;
      }
      recoveryReady := now - recoveryStartedAt >= config.recoveryStable;
    }

    method Escalate(controlValid: bool, age: uint64)
      modifies this
      ensures View() ==
              var f := old(View());
              if !controlValid then if age > f.config.stageTwoAfter then Latch(f) else SetStage(f, Unavailable)
              else if StageForAge(f.config, age) == StageTwoLatched then Latch(f)
              else SetStage(f, StageForAge(f.config, age))
    {
      if !controlValid {
        if age > config.stageTwoAfter {
          LatchStageTwo();
        } else {
          EnterStage(Unavailable);
        }
      } else if age <= config.staleAfter {
        EnterStage(Live);
      } else if age <= config.lossDetectedAfter {
        EnterStage(StaleHold);
      } else if age <= config.holdLastUntil {
        EnterStage(LossHold);
      } else if age <= config.stageTwoAfter {
        EnterStage(StageOne);
      } else {
        LatchStageTwo();
      }
    }

    /** The control the current stage asks for. */
    method SelectControl(control: Option<Snapshot>) returns (requested: Snapshot)
      ensures ActionFor(stage) == ActStageOne ==>
                requested == Snapshot(config.roll, config.pitch, config.yaw, config.throttle, false, 0, true)
      ensures ActionFor(stage) == NoAction || ActionFor(stage) == ActStop ==> requested == StoppedControl
      ensures ActionFor(stage) == ActLive || ActionFor(stage) == ActHoldLast ==>
                requested == if control.Some? then control.value else StoppedControl
    {
      requested := StoppedControl;
      match stage {
        case Live | StaleHold | LossHold =>
          if control.Some? {
            requested := control.value;
          }
        case StageOne => requested := StageOneControl(config);
        case _ =>
      }
    }

    method Update(control: Option<Snapshot>, now: uint64) returns (decision: Option<Decision>)
      modifies this
      ensures !old(initialized) ==> decision == None && View() == old(View())
      ensures old(initialized) ==> View() == AfterUpdate(old(View()), control, now) && decision.Some?
      ensures decision.Some? ==>
                var d := decision.value;
                && d.stage == stage && d.action == ActionFor(stage) && d.transitions == transitionCount
                && d.latched == stageTwoLatched && d.recoveryReady == recoveryReady
                && d.clockValid == (now >= Reference(old(View()), control))
                && d.linkAge == (if d.clockValid then now - Reference(old(View()), control) else UINT64_MAX)
                && d.lossDetected == (stageTwoLatched || d.linkAge > config.lossDetectedAfter)
                && (d.action == ActStageOne ==>
                      d.requested == Snapshot(config.roll, config.pitch, config.yaw, config.throttle, false, 0, true))
                && (d.action == NoAction || d.action == ActStop ==> d.requested == StoppedControl)
                && (old(FailsafeInv(View())) && (d.action == ActLive || d.action == ActHoldLast) ==>
                      control == Some(d.requested) && d.requested.valid)
    {
      if !initialized {
        return None;
      }
      var valid := control.Some? && control.value.valid;
      var reference := if valid then control.value.receivedAt else initializedAt;
      var clockValid := now >= reference;
      var age: uint64 := if clockValid then now - reference else 0xFFFF_FFFF_FFFF_FFFF;
      if !clockValid {
        LatchStageTwo();
      } else if stageTwoLatched {
        var recent := valid && age <= config.staleAfter;
        var safe := recent && !control.value.armSwitchHigh && control.value.throttle <= config.recoveryThrottleMaximum;
        UpdateRecovery(safe, now);
      } else {
        Escalate(valid, age);
      }
      var requested := SelectControl(control);
      decision := Some(Decision(stage, ActionFor(stage), requested, age, transitionCount,
                                stageTwoLatched || age > config.lossDetectedAfter, stageTwoLatched, recoveryReady,
                                clockValid));
    }

    method ReleaseStageTwo() returns (released: bool)
      modifies this
      ensures (View(), released) == AfterRelease(old(View()))
    {
      if !initialized || !stageTwoLatched || !recoveryReady {
        return false;
      }
      stageTwoLatched := false;
      recoveryTimerActive := false;
      recoveryReady := false;
      EnterStage(Unavailable);
      return true;
    }
  }
}
