/** Which directions the motors have been told by the time they are armed. */
module GateDirections {
  import opened Counters
  import opened SystemState
  import opened Faults
  import opened MotorCommands
  import opened MotorGate
  import opened GateHistory
  import opened FlightSystem

  /** What the motors are to be told under this mapping. */
  function Wanted(g: Gate): (d: Directions) {
    Scatter(g.mapping, g.configuration)
  }

  /** What the motors were told, frame by frame. */
  function Frames(log: Log): (frames: seq<Directions>)
    decreases |log|
  {
    if log == [] then []
    else
      var last := log[|log| - 1];
      Frames(log[..|log| - 1]) + (if last.DirectionAccepted? then [last.physical] else [])
  }

  /** Mapping and configuration are as they were, and these direction frames were given. */
  predicate Sends(g: Gate, r: Gate, told: seq<Directions>) {
    r.mapping == g.mapping && r.configuration == g.configuration && Frames(r.log) == Frames(g.log) + told
  }

  lemma OneMoreFrame(log: Log, e: Entry)
    ensures Frames(log + [e]) == Frames(log) + (if e.DirectionAccepted? then [e.physical] else [])
  {
    assert (log + [e])[..|log|] == log;
  }

  lemma OneEntryKept(g: Gate, r: Gate, e: Entry)
    requires r.mapping == g.mapping && r.configuration == g.configuration && r.log == g.log + [e]
    ensures Sends(g, r, if e.DirectionAccepted? then [e.physical] else [])
  {
    OneMoreFrame(g.log, e);
  }

  lemma SameKept(g: Gate, r: Gate)
    requires r.mapping == g.mapping && r.configuration == g.configuration && r.log == g.log
    ensures Sends(g, r, [])
  {
  }

  lemma SendsOn(g: Gate, m: Gate, r: Gate, told: seq<Directions>)
    requires Sends(g, m, []) && Sends(m, r, told)
    ensures Sends(g, r, told)
  {
  }

  lemma KeptOn(g: Gate, m: Gate, r: Gate)
    requires Sends(g, m, []) && Sends(m, r, [])
    ensures Sends(g, r, [])
  {
  }

  lemma StopKept(g: Gate, stopAccepted: bool)
    ensures Sends(g, ForceStop(g, stopAccepted).0, [])
  {
    hide Sends, Faults.Report;
    OneEntryKept(g, ForceStop(g, stopAccepted).0, ForceStopped(stopAccepted));
  }

  lemma EnterKept(g: Gate)
    ensures Sends(g, EnterFailsafeIfArmed(g), [])
  {
    hide Sends;
    if g.machine.current == Armed {
      OneEntryKept(g, EnterFailsafeIfArmed(g), FailsafeEntered);
    } else {
      SameKept(g, g);
    }
  }

  lemma ReportKept(g: Gate, id: nat)
    ensures Sends(g, ReportMotorFault(g, id), [])
  {
    hide Sends, Faults.Report;
    SameKept(g, ReportMotorFault(g, id));
  }

  lemma FailKept(g: Gate, stopAccepted: bool)
    ensures Sends(g, FailOutput(g, stopAccepted).0, [])
  {
    hide Sends, ForceStop, ReportMotorFault;
    var reported := ReportMotorFault(g, FAULT_ID_MOTOR_OUTPUT);
    ReportKept(g, FAULT_ID_MOTOR_OUTPUT);
    StopKept(reported, stopAccepted);
    KeptOn(g, reported, ForceStop(reported, stopAccepted).0);
  }

  lemma EnterAndFailKept(g: Gate, stopAccepted: bool)
    ensures Sends(g, FailOutput(EnterFailsafeIfArmed(g), stopAccepted).0, [])
  {
    hide Sends, FailOutput, EnterFailsafeIfArmed;
    EnterKept(g);
    FailKept(EnterFailsafeIfArmed(g), stopAccepted);
    KeptOn(g, EnterFailsafeIfArmed(g), FailOutput(EnterFailsafeIfArmed(g), stopAccepted).0);
  }

  lemma SubmitKept(g: Gate, source: Source, command: Command, now: nat, stopAccepted: bool)
    requires g.machine.current != Armed
    ensures Sends(g, Submit(g, source, command, now, stopAccepted).0, [])
  {
    hide Sends;
    SameKept(g, Submit(g, source, command, now, stopAccepted).0);
  }

  lemma FrameKept(g: Gate, command: Command, failsafeEntered: bool, now: nat, replies: Replies)
    ensures Sends(g, SubmitFrame(g, command, failsafeEntered, now, replies).0, [])
  {
    hide Sends, FailOutput, EnterFailsafeIfArmed, CanonicalFrame, OutputAllowed;
    var frame := CanonicalFrame(command);
    var accepted := frame.Some? && replies.submit == SubmitAccepted;
    var noted := Noted(g, frame, accepted, now);
    if frame.None? {
      SameKept(g, noted);
    } else {
      OneEntryKept(g, noted, FrameEntry(g, frame.value, accepted, now));
    }
    SameKept(noted, Sent(noted, command, now));
    KeptOn(g, noted, Sent(noted, command, now));
    EnterAndFailKept(noted, replies.stopAccepted);
    KeptOn(g, noted, FailOutput(EnterFailsafeIfArmed(noted), replies.stopAccepted).0);
  }

  lemma CompletedKept(g: Gate, now: nat)
    ensures Sends(g, CompletePendingArm(g, now), [])
  {
    hide Sends, OutputAllowed;
    var r := CompletePendingArm(g, now);
    if g.pending == NoSource || g.machine.current != Disarmed || !g.Healthy() || !g.preparationComplete {
      SameKept(g, r);
    } else {
      OneEntryKept(g, r, ArmingDone(g.pending, now));
    }
  }

  /** The next frame is a direction frame, and the backend takes it. */
  predicate TellsNow(g: Gate, replies: Replies) {
    && g.machine.current == Disarmed && g.directionSequenceActive && g.directionsRemaining > 0
    && replies.directions == SubmitAccepted
  }

  lemma NextKept(g: Gate, command: Command, failsafeEntered: bool, now: nat, replies: Replies)
    ensures Sends(g, NextFrame(g, command, failsafeEntered, now, replies).0,
                  if TellsNow(g, replies) then [Wanted(g)] else [])
  {
    hide Sends, SubmitFrame, FailOutput, CompletePendingArm, Scatter;
    if g.machine.current == Disarmed && g.directionSequenceActive {
      if g.directionsRemaining == 0 {
        var ended := g.(directionSequenceActive := false);
        var completed := CompletePendingArm(ended, now);
        SameKept(g, ended);
        CompletedKept(ended, now);
        KeptOn(g, ended, completed);
        FrameKept(completed, command, failsafeEntered, now, replies);
        KeptOn(g, completed, SubmitFrame(completed, command, failsafeEntered, now, replies).0);
      } else if replies.directions == SubmitAccepted {
        OneEntryKept(g, SendDirections(g, now, replies).0, DirectionAccepted(Wanted(g)));
      } else {
        FailKept(g, replies.stopAccepted);
      }
    } else {
      FrameKept(g, command, failsafeEntered, now, replies);
    }
  }

  lemma SelectedKept(g: Gate, now: nat)
    ensures Sends(g, SelectCommand(g, now).0, [])
  {
    hide Sends, EnterFailsafeIfArmed, OutputAllowed, IsFresh;
    var entered := EnterFailsafeIfArmed(g);
    EnterKept(g);
    SameKept(entered, entered.(retained := InvalidCommand));
    KeptOn(g, entered, entered.(retained := InvalidCommand));
    SameKept(g, g);
    SameKept(g, g.(active := NoSource, retained := InvalidCommand));
  }

  lemma HaltKept(g: Gate, stopAccepted: bool)
    ensures Sends(g, HaltOutput(g, stopAccepted).0, [])
  {
    hide Sends, ForceStop;
    var halted := g.(active := NoSource, pending := NoSource, directionSequenceActive := false,
                     retained := InvalidCommand);
    SameKept(g, halted);
    StopKept(halted, stopAccepted);
    KeptOn(g, halted, ForceStop(halted, stopAccepted).0);
  }

  lemma WaitKept(g: Gate, failsafeEntered: bool, now: nat, replies: Replies)
    ensures Sends(g, WaitForTransfer(g, failsafeEntered, now, replies).0, [])
  {
    hide Sends, FailOutput, EnterFailsafeIfArmed;
    SameKept(g, g);
    EnterAndFailKept(g, replies.stopAccepted);
  }

  lemma EnteredIsUnarmed(g: Gate)
    ensures var r := EnterFailsafeIfArmed(g);
            && r.machine.current == (if g.machine.current == Armed then State.Failsafe else g.machine.current)
            && r.mapping == g.mapping && r.configuration == g.configuration && r.pending == g.pending
            && r.directionSequenceActive == g.directionSequenceActive && r.directionsRemaining == g.directionsRemaining
  {
  }

  lemma SelectedIsUnarmed(g: Gate, now: nat)
    ensures var r := SelectCommand(g, now).0;
            && r.mapping == g.mapping && r.configuration == g.configuration && r.pending == g.pending
            && r.directionSequenceActive == g.directionSequenceActive && r.directionsRemaining == g.directionsRemaining
            && (g.machine.current != Armed ==> r.machine == g.machine)
            && (g.machine.current == Armed ==> r.machine.current != Disarmed)
  {
    hide OutputAllowed, IsFresh, EnterFailsafeIfArmed;
    EnteredIsUnarmed(g);
  }

  lemma SynchronizeKept(g: Gate, now: nat, replies: Replies)
    ensures Sends(g, Synchronize(g, now, replies).0,
                  if replies.status == Idle && TellsNow(g, replies) then [Wanted(g)] else [])
  {
    hide Sends, NextFrame, FailOutput, HaltOutput, WaitForTransfer, SelectCommand, EnterFailsafeIfArmed;
    EnterAndFailKept(g, replies.stopAccepted);
    var polled := if replies.status == Idle then g.(transferInProgress := false) else g;
    SameKept(g, polled);
    HaltKept(polled, replies.stopAccepted);
    KeptOn(g, polled, HaltOutput(polled, replies.stopAccepted).0);
    var (selected, command, failsafeEntered) := SelectCommand(polled, now);
    SelectedKept(polled, now);
    KeptOn(g, polled, selected);
    WaitKept(selected, failsafeEntered, now, replies);
    KeptOn(g, selected, WaitForTransfer(selected, failsafeEntered, now, replies).0);
    NextKept(selected, command, failsafeEntered, now, replies);
    SelectedIsUnarmed(polled, now);
    if replies.status == Idle && TellsNow(g, replies) {
      SendsOn(g, selected, NextFrame(selected, command, failsafeEntered, now, replies).0, [Wanted(g)]);
    } else if replies.status == Idle && !Halts(polled) {
      KeptOn(g, selected, NextFrame(selected, command, failsafeEntered, now, replies).0);
    }
  }

  lemma DisarmKept(g: Gate)
    ensures Sends(g, Disarm(g).0, [])
  {
    hide Sends, HandleEvent;
    var r := Disarm(g).0;
    if g.machine.current == Disarmed && g.pending != NoSource {
      OneEntryKept(g, r, ArmCancelled);
    } else if HandleEvent(g.machine, DisarmRequested).1 == TransitionRejected {
      SameKept(g, r);
    } else {
      OneEntryKept(g, r, DisarmDone);
    }
  }

  lemma ArmKept(g: Gate, source: Source, now: nat)
    ensures Sends(g, Arm(g, source, now).0, [])
  {
    hide Sends, OutputAllowed;
    var r := Arm(g, source, now).0;
    if r.log == g.log {
      SameKept(g, r);
    } else {
      OneEntryKept(g, r, ArmRequest(source, now));
    }
  }

  /** The call gives a direction frame. */
  predicate Tells(g: Gate, call: Call) {
    call.DoSynchronize? && call.replies.status == Idle && TellsNow(g, call.replies)
  }

  /** While a request is pending, the configuration stays, and each direction frame says what is wanted then. */
  lemma PendingStepTells(g: Gate, call: Call)
    requires LifecycleInv(g) && g.pending != NoSource
    ensures var r := Step(g, call);
            && r.configuration == g.configuration
            && Frames(r.log) == Frames(g.log) + (if Tells(g, call) then [Wanted(g)] else [])
            && (r.mapping == g.mapping || (call.DoConfigureMapping? && r.mapping == call.mapping))
  {
    hide Synchronize, ForceStop, Submit, Disarm, Arm, ReportMotorFault, RegistryInv, IsPermutation, Clear;
    hide EnterFailsafeIfArmed, DeclaresMotorFaults, TellsNow, Scatter;
    match call
    case DoSynchronize(at, replies) => SynchronizeKept(g, at, replies);
    case DoSubmit(source, command, at, stopAccepted) => SubmitKept(g, source, command, at, stopAccepted);
    case DoForceStop(stopAccepted) => StopKept(g, stopAccepted);
    case DoReport(id) => ReportKept(g, id);
    case DoEnterFailsafe => EnterKept(g);
    case DoDisarm => DisarmKept(g);
    case DoRecover => DisarmKept(g);
    case DoArm(source, at) => ArmKept(g, source, at);
    case _ =>
  }

  /** The request stays pending up to the last call. */
  ghost predicate PendingThrough(g: Gate, calls: seq<Call>)
    requires SafeInv(g)
    decreases |calls|
  {
    calls == [] ||
    (g.pending != NoSource && (StepSafe(g, calls[0], 0); PendingThrough(Step(g, calls[0]), calls[1..])))
  }

  /** The mapping in force at each direction frame of the run. */
  ghost function InForce(g: Gate, calls: seq<Call>): (mappings: seq<Permutation>)
    requires SafeInv(g)
    decreases |calls|
  {
    if calls == [] then []
    else
      StepSafe(g, calls[0], 0);
      (if Tells(g, calls[0]) then [g.mapping] else []) + InForce(Step(g, calls[0]), calls[1..])
  }

  function Orders(mappings: seq<Permutation>, configuration: Directions): (frames: seq<Directions>) {
    seq(|mappings|, i requires 0 <= i < |mappings| => Scatter(mappings[i], configuration))
  }

  lemma {:induction false} RunTells(g: Gate, calls: seq<Call>)
    requires SafeInv(g) && PendingThrough(g, calls)
    ensures var r := Run(g, calls);
            && r.configuration == g.configuration
            && Frames(r.log) == Frames(g.log) + Orders(InForce(g, calls), g.configuration)
    decreases |calls|
  {
    hide FrameInv, LifecycleInv, Step, Tells, Scatter;
    if calls != [] {
      StepSafe(g, calls[0], 0);
      PendingStepTells(g, calls[0]);
      RunTells(Step(g, calls[0]), calls[1..]);
      var rest := InForce(Step(g, calls[0]), calls[1..]);
      if Tells(g, calls[0]) {
        assert Orders([g.mapping] + rest, g.configuration) == [Wanted(g)] + Orders(rest, g.configuration);
      } else {
        assert [] + rest == rest;
      }
    }
  }

  /** The motors were told so by each of the frames. */
  predicate ToldBy(frames: seq<Directions>, d: Directions) {
    forall i | 0 <= i < |frames| :: frames[i] == d
  }

  /** The direction frames given between two logs. */
  function Since(before: Log, after: Log): (frames: seq<Directions>)
    requires |Frames(before)| <= |Frames(after)|
  {
    Frames(after)[|Frames(before)|..]
  }

  /** Not armed by this, and a request that is still pending has as many frames to come. */
  predicate Waits(g: Gate, r: Gate) {
    && r.machine.current != Armed
    && (r.pending != NoSource ==>
          && r.directionsRemaining == g.directionsRemaining
          && (r.machine.current == Disarmed ==> g.machine.current == Disarmed))
  }

  lemma ReportWaits(g: Gate, id: nat)
    requires g.machine.current != Armed
    ensures Waits(g, ReportMotorFault(g, id))
  {
  }

  lemma StopWaits(g: Gate, stopAccepted: bool)
    requires g.machine.current != Armed
    ensures Waits(g, ForceStop(g, stopAccepted).0) && ForceStop(g, stopAccepted).0.pending == NoSource
  {
  }

  lemma FailWaits(g: Gate, stopAccepted: bool)
    requires g.machine.current != Armed
    ensures Waits(g, FailOutput(g, stopAccepted).0) && FailOutput(g, stopAccepted).0.pending == NoSource
  {
    hide ForceStop, ReportMotorFault;
    ReportWaits(g, FAULT_ID_MOTOR_OUTPUT);
    StopWaits(ReportMotorFault(g, FAULT_ID_MOTOR_OUTPUT), stopAccepted);
  }

  lemma FrameWaits(g: Gate, command: Command, failsafeEntered: bool, now: nat, replies: Replies)
    requires g.machine.current != Armed
    ensures Waits(g, SubmitFrame(g, command, failsafeEntered, now, replies).0)
  {
    hide FailOutput, CanonicalFrame, OutputAllowed;
    var frame := CanonicalFrame(command);
    FailWaits(Noted(g, frame, frame.Some? && replies.submit == SubmitAccepted, now), replies.stopAccepted);
  }

  lemma FrameKeepsPending(g: Gate, command: Command, failsafeEntered: bool, now: nat, replies: Replies)
    requires g.pending == NoSource
    ensures SubmitFrame(g, command, failsafeEntered, now, replies).0.pending == NoSource
  {
    hide CanonicalFrame, OutputAllowed, FailOutput, EnterFailsafeIfArmed;
    var frame := CanonicalFrame(command);
    var noted := Noted(g, frame, frame.Some? && replies.submit == SubmitAccepted, now);
    FailHasNoRequest(EnterFailsafeIfArmed(noted), replies.stopAccepted);
  }

  lemma FailHasNoRequest(g: Gate, stopAccepted: bool)
    ensures FailOutput(g, stopAccepted).0.pending == NoSource
  {
    hide Faults.Report;
  }

  lemma CompletedHasNoRequest(g: Gate, now: nat)
    ensures CompletePendingArm(g, now).pending == NoSource
  {
  }

  /** Only the end of the sequence arms; a request still pending has a frame less to come if one was given. */
  predicate Counts(g: Gate, r: Gate, told: bool) {
    && (r.machine.current == Armed ==>
          g.machine.current == Disarmed && g.directionsRemaining == 0 && r.pending == NoSource)
    && (r.pending != NoSource && r.machine.current == Disarmed ==>
          && g.machine.current == Disarmed
          && r.directionsRemaining + (if told then 1 else 0) == g.directionsRemaining)
  }

  lemma NextCounts(g: Gate, command: Command, failsafeEntered: bool, now: nat, replies: Replies)
    requires g.machine.current != Armed
    ensures Counts(g, NextFrame(g, command, failsafeEntered, now, replies).0, TellsNow(g, replies))
  {
    hide SubmitFrame, FailOutput, CompletePendingArm, Scatter, IsPermutation;
    FrameWaits(g, command, failsafeEntered, now, replies);
    FailWaits(g, replies.stopAccepted);
    var ended := g.(directionSequenceActive := false);
    CompletedHasNoRequest(ended, now);
    FrameKeepsPending(CompletePendingArm(ended, now), command, failsafeEntered, now, replies);
  }

  lemma HaltCounts(g: Gate, stopAccepted: bool)
    requires g.machine.current != Armed
    ensures Counts(g, HaltOutput(g, stopAccepted).0, false)
  {
    hide ForceStop;
    StopWaits(g.(active := NoSource, pending := NoSource, directionSequenceActive := false,
                 retained := InvalidCommand), stopAccepted);
  }

  lemma WaitCounts(g: Gate, failsafeEntered: bool, now: nat, replies: Replies)
    requires g.machine.current != Armed
    ensures Counts(g, WaitForTransfer(g, failsafeEntered, now, replies).0, false)
  {
    hide FailOutput;
    FailWaits(g, replies.stopAccepted);
  }

  lemma SynchronizeCounts(g: Gate, now: nat, replies: Replies)
    requires g.machine.current != Armed
    ensures Counts(g, Synchronize(g, now, replies).0, replies.status == Idle && TellsNow(g, replies))
  {
    hide NextFrame, FailOutput, HaltOutput, WaitForTransfer, SelectCommand, Counts;
    var polled := if replies.status == Idle then g.(transferInProgress := false) else g;
    var (selected, command, failsafeEntered) := SelectCommand(polled, now);
    SelectedIsUnarmed(polled, now);
    if replies.status == BackendError {
      FailWaits(g, replies.stopAccepted);
      SameCounts(g, g, FailOutput(g, replies.stopAccepted).0, false);
    } else if Halts(polled) {
      HaltCounts(polled, replies.stopAccepted);
      SameCounts(g, polled, HaltOutput(polled, replies.stopAccepted).0, false);
    } else if replies.status == Busy {
      WaitCounts(selected, failsafeEntered, now, replies);
      SameCounts(g, selected, WaitForTransfer(selected, failsafeEntered, now, replies).0, false);
    } else {
      NextCounts(selected, command, failsafeEntered, now, replies);
      SameCounts(g, selected, NextFrame(selected, command, failsafeEntered, now, replies).0, TellsNow(g, replies));
    }
  }

  lemma SameCounts(g: Gate, m: Gate, r: Gate, told: bool)
    requires m.machine == g.machine && m.directionsRemaining == g.directionsRemaining
    requires Counts(m, r, told) || (Waits(m, r) && !told)
    ensures Counts(g, r, told)
  {
  }

  lemma PendingStepCounts(g: Gate, call: Call)
    requires LifecycleInv(g) && g.pending != NoSource
    ensures Counts(g, Step(g, call), Tells(g, call))
  {
    hide RegistryInv, DeclaresMotorFaults, Synchronize, ForceStop, ReportMotorFault, IsPermutation, Submit, Disarm;
    hide OutputAllowed, Clear, TellsNow;
    match call
    case DoSynchronize(at, replies) => SynchronizeCounts(g, at, replies);
    case DoForceStop(stopAccepted) => StopWaits(g, stopAccepted);
    case DoReport(id) => ReportWaits(g, id);
    case DoSubmit(source, command, at, stopAccepted) => SubmitWaits(g, source, command, at, stopAccepted);
    case DoDisarm => DisarmWaits(g);
    case DoRecover => DisarmWaits(g);
    case _ =>
  }

  lemma SubmitWaits(g: Gate, source: Source, command: Command, now: nat, stopAccepted: bool)
    requires g.machine.current != Armed
    ensures Waits(g, Submit(g, source, command, now, stopAccepted).0)
  {
  }

  lemma DisarmWaits(g: Gate)
    requires LifecycleInv(g) && g.pending != NoSource
    ensures Waits(g, Disarm(g).0)
  {
    hide RegistryInv, DeclaresMotorFaults;
  }

  lemma DoneTelling(g: Gate, call: Call)
    requires g.directionsRemaining == 0
    ensures !Tells(g, call)
  {
  }

  lemma {:induction false} RunCounts(g: Gate, calls: seq<Call>)
    requires SafeInv(g) && PendingThrough(g, calls) && g.pending != NoSource && g.machine.current == Disarmed
    ensures Run(g, calls).machine.current == Armed ==> |InForce(g, calls)| == g.directionsRemaining
    decreases |calls|
  {
    hide FrameInv, RegistryInv, DeclaresMotorFaults, Step, Tells;
    if calls != [] {
      StepSafe(g, calls[0], 0);
      PendingStepCounts(g, calls[0]);
      var next := Step(g, calls[0]);
      if next.machine.current == Armed {
        assert calls[1..] == [];
        assert !Tells(g, calls[0]) by { DoneTelling(g, calls[0]); }
      } else if next.machine.current == Disarmed && next.pending != NoSource {
        RunCounts(next, calls[1..]);
      } else if calls[1..] == [] {
        assert Run(g, calls) == next;
      } else {
        FaultIsTerminal(next, calls[1..]);
      }
    }
  }

  /* ---------------- what the motors are armed with ---------------- */

  /**
   * From a pending request up to and including the call that ends it, through any calls and any number of changes of
   * the mapping: if it arms, every frame of the direction sequence was given; and what the motors were told is what
   * mapping and configuration say in the end, if and only if the mapping in force at each direction frame told each
   * motor the same as the last one does.
   */
  lemma ToldRightExactly(g: Gate, calls: seq<Call>)
    requires SafeInv(g) && PendingThrough(g, calls) && g.pending != NoSource && g.machine.current == Disarmed
    ensures var r := Run(g, calls);
            && (r.machine.current == Armed ==> |InForce(g, calls)| == g.directionsRemaining)
            && |Frames(g.log)| <= |Frames(r.log)| && |Since(g.log, r.log)| == |InForce(g, calls)|
            && (ToldBy(Since(g.log, r.log), Wanted(r)) <==> AllTell(InForce(g, calls), g.configuration, Wanted(r)))
            && Wanted(r) == Scatter(r.mapping, g.configuration)
  {
    hide Scatter, Run, InForce, PendingThrough, SafeInv, ToldBy, AllTell, Orders, Frames;
    RunTells(g, calls);
    RunCounts(g, calls);
    var r := Run(g, calls);
    OrdersTell(InForce(g, calls), g.configuration, Wanted(r));
    assert Since(g.log, r.log) == Orders(InForce(g, calls), g.configuration);
  }

  /** Each of the mappings tells the motors this. */
  predicate AllTell(mappings: seq<Permutation>, configuration: Directions, d: Directions) {
    forall i | 0 <= i < |mappings| :: Scatter(mappings[i], configuration) == d
  }

  lemma OrdersTell(mappings: seq<Permutation>, configuration: Directions, d: Directions)
    ensures ToldBy(Orders(mappings, configuration), d) <==> AllTell(mappings, configuration, d)
    ensures |Orders(mappings, configuration)| == |mappings|
  {
    hide Scatter;
    var orders := Orders(mappings, configuration);
    assert forall i | 0 <= i < |mappings| :: orders[i] == Scatter(mappings[i], configuration);
  }

  predicate KeepsMapping(mapping: Permutation, call: Call) {
    call.DoConfigureMapping? ==> !IsPermutation(call.mapping) || call.mapping == mapping
  }

  /** In particular they were told right if no call of the stretch changes the mapping. */
  lemma DirectionsAreCurrent(g: Gate, calls: seq<Call>)
    requires SafeInv(g) && PendingThrough(g, calls) && g.pending != NoSource && g.machine.current == Disarmed
    requires forall i | 0 <= i < |calls| :: KeepsMapping(g.mapping, calls[i])
    ensures var r := Run(g, calls);
            && r.mapping == g.mapping && |Frames(g.log)| <= |Frames(r.log)|
            && ToldBy(Since(g.log, r.log), Wanted(r))
  {
    hide Scatter, Run, InForce, PendingThrough, SafeInv, KeepsMapping;
    RunTells(g, calls);
    ToldRightExactly(g, calls);
    OneInForce(g, calls);
  }

  lemma {:induction false} OneInForce(g: Gate, calls: seq<Call>)
    requires SafeInv(g) && PendingThrough(g, calls)
    requires forall i | 0 <= i < |calls| :: KeepsMapping(g.mapping, calls[i])
    ensures Run(g, calls).mapping == g.mapping
    ensures forall i | 0 <= i < |InForce(g, calls)| :: InForce(g, calls)[i] == g.mapping
    decreases |calls|
  {
    hide FrameInv, RegistryInv, DeclaresMotorFaults, Step, Tells, Scatter, IsPermutation, KeepsMapping;
    if calls != [] {
      StepSafe(g, calls[0], 0);
      PendingStepTells(g, calls[0]);
      MappingStays(g, calls[0]);
      OneInForce(Step(g, calls[0]), calls[1..]);
    }
  }

  lemma MappingStays(g: Gate, call: Call)
    requires LifecycleInv(g) && g.pending != NoSource && KeepsMapping(g.mapping, call)
    ensures Step(g, call).mapping == g.mapping
  {
    hide RegistryInv, DeclaresMotorFaults, IsPermutation;
    if call.DoConfigureMapping? {
      assert ConfigureMapping(g, call.mapping).0.mapping == g.mapping;
    } else {
      PendingStepTells(g, call);
    }
  }

  /** One change of the mapping after the motors were told right leaves them told right exactly if it tells the same. */
  lemma MappingChangeIsUntold(g: Gate, m: Mapping, told: seq<Directions>)
    requires g.machine.current == Disarmed && IsPermutation(m) && told != [] && ToldBy(told, Wanted(g))
    ensures ToldBy(told, Wanted(Step(g, DoConfigureMapping(m)))) <==> Scatter(m, g.configuration) == Wanted(g)
  {
    assert told[0] == Wanted(g);
  }

  /* ---------------- a run with a change ---------------- */

  const AllWell: Replies := Replies(Idle, SubmitAccepted, SubmitAccepted, true)

  /** A call of the periodic loop at the time of the request. */
  const Turn: Call := DoSynchronize(ARMING_PREPARATION_US, AllWell)

  function LastReading(calls: seq<Call>, clock: nat): (at: nat)
    decreases |calls|
  {
    if calls == [] then clock else LastReading(calls[1..], ReadingOf(calls[0], clock))
  }

  lemma {:induction false} MonotoneMore(calls: seq<Call>, clock: nat, call: Call)
    requires MonotoneFrom(calls, clock) && LastReading(calls, clock) <= ReadingOf(call, LastReading(calls, clock))
    ensures MonotoneFrom(calls + [call], clock)
    ensures LastReading(calls + [call], clock) == ReadingOf(call, LastReading(calls, clock))
    decreases |calls|
  {
    if calls == [] {
      assert [] + [call] == [call];
    } else {
      assert (calls + [call])[1..] == calls[1..] + [call];
      MonotoneMore(calls[1..], ReadingOf(calls[0], clock), call);
    }
  }

  /** A run on a forward clock leads there, and its last reading was this one. */
  ghost predicate Reaches(start: Gate, g: Gate, clock: nat)
    requires SafeInv(start)
  {
    exists calls :: Run(start, calls) == g && MonotoneFrom(calls, 0) && LastReading(calls, 0) == clock
  }

  lemma NoCalls(g: Gate)
    requires SafeInv(g)
    ensures Run(g, []) == g
  {
  }

  lemma ReachesStep(start: Gate, g: Gate, clock: nat, call: Call)
    requires SafeInv(start) && Reaches(start, g, clock) && clock <= ReadingOf(call, clock)
    ensures SafeInv(g) && Reaches(start, Step(g, call), ReadingOf(call, clock))
  {
    hide SafeInv, Step;
    var calls :| Run(start, calls) == g && MonotoneFrom(calls, 0) && LastReading(calls, 0) == clock;
    RunsCompose(start, calls, [call]);
    RunOfTwo(g, call, call);
    MonotoneMore(calls, 0, call);
    assert Run(start, calls + [call]) == Step(g, call);
  }

  /** A request is pending with n direction frames still to come, and every one so far told the motors the same. */
  ghost predicate Telling(start: Gate, g: Gate, n: nat) {
    && LifecycleInv(g) && g.machine.current == Disarmed && g.pending == Receiver && g.preparationComplete
    && g.directionSequenceActive && g.directionsRemaining == n && n <= DIRECTION_REPETITIONS
    && Wanted(g) == Wanted(start) && g.configuration == start.configuration
    && ToldBy(Frames(g.log), Wanted(start)) && |Frames(g.log)| + n == DIRECTION_REPETITIONS
  }

  lemma FirstFrame(g: Gate)
    requires LifecycleInv(g) && g.machine.current == Disarmed && g.log == [] && g.pending == NoSource
    requires !g.stopStreamStarted && !g.directionSequenceActive
    ensures var r := Step(g, DoSynchronize(0, AllWell));
            && r.machine == g.machine && r.registry == g.registry && r.catalog == g.catalog && r.active == NoSource
            && r.pending == NoSource && r.mapping == g.mapping && r.configuration == g.configuration
            && !r.outputsStopped && r.stopStreamStarted && r.stopStreamStartedAt == 0
            && r.externalArmReady == g.externalArmReady
            && |r.log| == 1 && r.log[0].FrameGiven?
  {
    hide RegistryInv, OutputAllowed, DeclaresMotorFaults, IsPermutation;
  }

  lemma Asked(start: Gate, g: Gate)
    requires LifecycleInv(g) && g.machine.current == Disarmed && g.active == NoSource && g.pending == NoSource
    requires g.mapping == start.mapping && g.configuration == start.configuration && g.externalArmReady
    requires !g.outputsStopped && g.stopStreamStarted && g.stopStreamStartedAt == 0
    requires |g.log| == 1 && g.log[0].FrameGiven?
    ensures Telling(start, Step(g, DoArm(Receiver, ARMING_PREPARATION_US)), DIRECTION_REPETITIONS)
  {
    hide RegistryInv, OutputAllowed, DeclaresMotorFaults, Scatter, IsPermutation;
    HealthIsLifecycle(g.catalog, g.registry, g.machine);
    OneMoreFrame(g.log, ArmRequest(Receiver, ARMING_PREPARATION_US));
    assert g.log == [] + [g.log[0]];
    OneMoreFrame([], g.log[0]);
  }

  lemma OneMoreTold(start: Gate, g: Gate, n: nat)
    requires Telling(start, g, n) && n > 0
    ensures Telling(start, Step(g, Turn), n - 1)
  {
    hide RegistryInv, OutputAllowed, DeclaresMotorFaults, Scatter, IsPermutation;
    OneMoreFrame(g.log, DirectionAccepted(Wanted(g)));
  }

  lemma {:induction false} AllTold(start: Gate, g: Gate, n: nat) returns (r: Gate)
    requires SafeInv(start) && Reaches(start, g, ARMING_PREPARATION_US) && Telling(start, g, n)
    ensures Reaches(start, r, ARMING_PREPARATION_US) && Telling(start, r, 0)
    decreases n
  {
    hide SafeInv, Telling, Step, Reaches;
    r := g;
    if n > 0 {
      ReachesStep(start, g, ARMING_PREPARATION_US, Turn);
      OneMoreTold(start, g, n);
      r := AllTold(start, Step(g, Turn), n - 1);
    }
  }

  /** The mapping changes, the next frame arms, and every direction frame was given under the old mapping. */
  lemma ArmsUnderNewMapping(start: Gate, g: Gate, m: Mapping)
    requires Telling(start, g, 0) && IsPermutation(m)
    ensures var r := Step(Step(g, DoConfigureMapping(m)), Turn);
            && r.machine.current == Armed && r.mapping == m && r.configuration == start.configuration
            && ToldBy(Frames(r.log), Wanted(start)) && |Frames(r.log)| == DIRECTION_REPETITIONS
  {
    hide RegistryInv, OutputAllowed, DeclaresMotorFaults, Scatter, IsPermutation, Frames;
    HealthIsLifecycle(g.catalog, g.registry, g.machine);
    var r := Step(Step(g, DoConfigureMapping(m)), Turn);
    var done := ArmingDone(g.pending, ARMING_PREPARATION_US);
    assert r.log == g.log + [done] + [r.log[|g.log| + 1]];
    OneMoreFrame(g.log, done);
    OneMoreFrame(g.log + [done], r.log[|g.log| + 1]);
  }

  /**
   * From every start with the system disarmed some run on a forward clock arms under any mapping whatever, after ten
   * direction frames of the first one: what the motors were told is right exactly if both mappings tell them the same.
   */
  lemma NewMappingCanBeArmed(machine: Machine, registry: Registry, catalog: Catalog, timeout: nat,
                             configuration: Directions, m: Mapping)
    requires RegistryInv(catalog, registry, machine) && DeclaresMotorFaults(catalog)
    requires machine.current == Disarmed && IsPermutation(m)
    ensures var g := Started(machine, registry, catalog, timeout, configuration);
            && SafeInv(g)
            && exists calls ::
                 var r := Run(g, calls);
                 && MonotoneFrom(calls, 0) && r.machine.current == Armed && r.mapping == m
                 && |Frames(r.log)| == DIRECTION_REPETITIONS
                 && (ToldBy(Frames(r.log), Wanted(r)) <==>
                       Scatter(m, configuration) == Scatter(IdentityMapping, configuration))
  {
    hide FrameInv, Step, Scatter, IsPermutation, RegistryInv, Telling, Frames, Run;
    StartedIsSafe(machine, registry, catalog, timeout, configuration, 0);
    var g := Started(machine, registry, catalog, timeout, configuration);
    assert Reaches(g, g, 0) by { NoCalls(g); assert LastReading([], 0) == 0; }
    FirstFrame(g);
    ReachesStep(g, g, 0, DoSynchronize(0, AllWell));
    var streaming := Step(g, DoSynchronize(0, AllWell));
    Asked(g, streaming);
    ReachesStep(g, streaming, 0, DoArm(Receiver, ARMING_PREPARATION_US));
    var told := AllTold(g, Step(streaming, DoArm(Receiver, ARMING_PREPARATION_US)), DIRECTION_REPETITIONS);
    ArmsUnderNewMapping(g, told, m);
    ReachesStep(g, told, ARMING_PREPARATION_US, DoConfigureMapping(m));
    ReachesStep(g, Step(told, DoConfigureMapping(m)), ARMING_PREPARATION_US, Turn);
    var r := Step(Step(told, DoConfigureMapping(m)), Turn);
    assert Frames(r.log)[0] == Wanted(g);
  }
}
