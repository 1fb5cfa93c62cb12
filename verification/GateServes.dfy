/** What the gate does for its users over whole runs: commands are carried out, requests are admitted and armed. */
module GateServes {
  import opened Counters
  import opened SystemState
  import opened Faults
  import opened MotorCommands
  import opened MotorGate
  import opened GateHistory
  import opened GateGives
  import opened GateDirections

  /* ---------------- an accepted command is carried out ---------------- */

  /** Nothing since this entry took the command back. */
  predicate Standing(log: Log, from: nat) {
    forall i | from <= i < |log| :: !EndsAuthority(log[i]) && !log[i].CommandAccepted?
  }

  /** The gate still holds what it held. */
  predicate Holds(g: Gate, r: Gate) {
    && r.machine.current == Armed && r.retained == g.retained && r.active == g.active && r.mapping == g.mapping
    && r.timeout == g.timeout && r.preparationComplete
  }

  predicate Holding(g: Gate) {
    g.machine.current == Armed && g.preparationComplete && g.retained.valid && g.active != NoSource
  }

  lemma SynchronizeHolds(g: Gate, now: nat, replies: Replies)
    requires SafeInv(g) && Holding(g)
    ensures var r := Synchronize(g, now, replies).0;
            && g.log <= r.log
            && (Standing(r.log, |g.log|) ==> Holds(g, r))
  {
    hide SafeInv, Synchronize;
    if replies.status == BackendError {
      BrokenIsFault(g, now, replies);
      LastEnds(g.log, Synchronize(g, now, replies).0.log);
    } else if replies.status == Busy {
      BusyIsWaitedForExactly(g, now, replies);
      if Overdue(g, now) || RunsOut(g, now) {
        LastEnds(g.log, Synchronize(g, now, replies).0.log);
      }
    } else {
      FrameIsGivenExactly(g, now, replies.directions, replies.submit, replies.stopAccepted);
      var r := Synchronize(g, now, replies).0;
      if RunsOut(g, now) {
        assert r.log[|g.log|] == FailsafeEntered;
      } else if replies.submit != SubmitAccepted {
        LastEnds(g.log, r.log);
      }
    }
  }

  lemma LastEnds(before: Log, after: Log)
    requires |before| < |after| && EndsAuthority(after[|after| - 1])
    ensures !Standing(after, |before|)
  {
  }

  lemma SubmitHolds(g: Gate, source: Source, command: Command, now: nat, stopAccepted: bool)
    requires SafeInv(g) && Holding(g)
    ensures var r := Submit(g, source, command, now, stopAccepted).0;
            g.log <= r.log && (Standing(r.log, |g.log|) ==> Holds(g, r))
  {
    hide SafeInv, Create, Scatter, OutputAllowed, IsFresh, MapCommand;
    SubmitAcceptsExactly(g, source, command, now, stopAccepted);
    var r := Submit(g, source, command, now, stopAccepted).0;
    if source == g.active && r.machine.current != Armed {
      assert r.log[|g.log|] == FailsafeEntered;
    } else if r != g {
      assert r.log[|g.log|] == CommandAccepted(source, command);
    }
  }

  lemma StepHolds(g: Gate, call: Call)
    requires SafeInv(g) && Holding(g)
    ensures var r := Step(g, call);
            && g.log <= r.log
            && (Standing(r.log, |g.log|) && r.machine.current != Fault ==> Holds(g, r))
  {
    hide SafeInv, Synchronize, Submit, MotorGate.ForceStop, ReportMotorFault, EnterFailsafeIfArmed;
    match call
    case DoSynchronize(at, replies) => SynchronizeHolds(g, at, replies);
    case DoSubmit(source, command, at, stopAccepted) => SubmitHolds(g, source, command, at, stopAccepted);
    case DoForceStop(stopAccepted) =>
      StopKeepsState(g, stopAccepted);
      LastEnds(g.log, Step(g, call).log);
    case DoReport(id) => ReportHolds(g, id);
    case DoEnterFailsafe =>
      FailsafeAfterArmed(g);
      LastEnds(g.log, Step(g, call).log);
    case DoDisarm =>
      DisarmEnds(g);
      LastEnds(g.log, Step(g, call).log);
    case DoArm(source, at) =>
    case DoRecover =>
    case DoConfigureMapping(mapping) =>
    case DoApplyConfiguration(configuration) =>
    case DoSetExternalArmReady(ready) =>
    case DoClear(id) =>
    case DoInitializationEvent(completed) =>
  }

  lemma DisarmEnds(g: Gate)
    requires g.machine.current == Armed
    ensures Disarm(g).0.log == g.log + [DisarmDone]
  {
  }

  lemma ReportHolds(g: Gate, id: nat)
    requires SafeInv(g)
    ensures var r := ReportMotorFault(g, id);
            r == g.(machine := r.machine, registry := r.registry)
            && (r.machine == g.machine || r.machine.current == Fault)
  {
    hide SafeInv;
    ReportSafe(g, id, 0);
  }

  lemma {:induction false} RunExtends(g: Gate, calls: seq<Call>)
    requires SafeInv(g)
    ensures g.log <= Run(g, calls).log
    decreases |calls|
  {
    hide SafeInv, Step;
    if calls != [] {
      StepSafe(g, calls[0], 0);
      RunExtends(Step(g, calls[0]), calls[1..]);
    }
  }

  /** As long as nothing takes the command back and the gate is not in FAULT, the gate holds on to it. */
  lemma {:induction false} RunHolds(g: Gate, calls: seq<Call>)
    requires SafeInv(g) && Holding(g)
    ensures var r := Run(g, calls);
            && g.log <= r.log
            && (Standing(r.log, |g.log|) && r.machine.current == Armed ==> Holds(g, r))
    decreases |calls|
  {
    hide SafeInv, Step, EndsAuthority;
    if calls != [] {
      StepSafe(g, calls[0], 0);
      StepHolds(g, calls[0]);
      var next := Step(g, calls[0]);
      var r := Run(next, calls[1..]);
      if next.machine.current == Fault {
        FaultIsTerminal(next, calls[1..]);
      } else if Standing(next.log, |g.log|) {
        RunHolds(next, calls[1..]);
      } else {
        RunExtends(next, calls[1..]);
        var i :| |g.log| <= i < |next.log| && (EndsAuthority(next.log[i]) || next.log[i].CommandAccepted?);
        assert r.log[i] == next.log[i];
      }
    }
  }

  /**
   * A command that was accepted is carried out: after any calls with no later command, no end of its source's authority
   * and the gate still armed, the next idle synchronize offers the backend exactly this command, routed to the motors,
   * as long as its lease lasts, and ends the flight with a stop frame once it is over.
   */
  lemma CommandIsServed(g: Gate, source: Source, command: Command, at: nat, calls: seq<Call>, now: nat,
                        replies: Replies)
    requires SafeInv(g) && Submit(g, source, command, at, true).1 == SubmitOk && replies.status == Idle
    ensures var g' := Submit(g, source, command, at, true).0;
            && SafeInv(g')
            && var r := Run(g', calls);
               var s := Synchronize(r, now, replies).0;
               && |g'.log| <= |r.log|
               && (Standing(r.log, |g'.log|) && r.machine.current == Armed ==>
                     |r.log| < |s.log| &&
                     if Leased(command, now, g.timeout) then
                       var e := s.log[|r.log|];
                       && e.FrameGiven? && e.accepted == (replies.submit == SubmitAccepted) && e.at == now
                       && e.frame.valid && e.frame.timestamp == command.timestamp
                       && Routed(g.mapping, command.throttle, e.frame.throttle)
                     else
                       && s.log[|r.log|] == FailsafeEntered && |s.log| > |r.log| + 1
                       && Offers(s.log[|r.log| + 1], ZeroThrottle, replies.submit == SubmitAccepted, now))
  {
    hide SafeInv, Submit, Synchronize, Standing, Routed;
    SubmitAcceptsExactly(g, source, command, at, true);
    SubmitSafe(g, source, command, at, true, 0);
    var g' := Submit(g, source, command, at, true).0;
    RunHolds(g', calls);
    var r := Run(g', calls);
    if r.machine.current == Armed && Standing(r.log, |g'.log|) {
      FrameIsGivenExactly(r, now, replies.directions, replies.submit, replies.stopAccepted);
    }
  }

  /* ---------------- a request is admitted and armed ---------------- */

  /** An arm request is admitted exactly so. */
  lemma ArmAdmitsExactly(g: Gate, source: Source, now: nat)
    requires SafeInv(g)
    ensures var (r, result) := MotorGate.Arm(g, source, now);
            && (result == ArmPending <==>
                  && source != NoSource && g.machine.current == Disarmed && g.active == NoSource
                  && g.pending == NoSource && g.externalArmReady && !g.outputsStopped && g.stopStreamStarted
                  && g.stopStreamStartedAt <= now
                  && (g.preparationComplete || now - g.stopStreamStartedAt >= 5_000_000))
            && (result == ArmPending ==>
                  r == g.(pending := source, retained := InvalidCommand, log := g.log + [ArmRequest(source, now)],
                          preparationComplete := true, directionsRemaining := 10, directionSequenceActive := true))
            && (result != ArmPending ==> r == g)
            && (result == ArmInvalidSource <==> source == NoSource)
            && (result == ArmBlockedState || result == ArmBlockedHealth <==>
                  source != NoSource && !(g.machine.current == Disarmed && g.active == g.pending == NoSource))
            && (result == ArmBlockedExternal <==>
                  && source != NoSource && g.machine.current == Disarmed && g.active == g.pending == NoSource
                  && !g.externalArmReady)
  {
    hide SafeInv, OutputAllowed;
    ArmedIsHealthy(g);
  }

  function Turns(times: seq<nat>): (calls: seq<Call>) {
    seq(|times|, i requires 0 <= i < |times| => DoSynchronize(times[i], AllWell))
  }

  /** With the backend well, the rest of the direction sequence and one call more arm the source that asked. */
  lemma {:induction false} SequenceArms(g: Gate, times: seq<nat>)
    requires SafeInv(g) && g.machine.current == Disarmed && g.pending != NoSource && g.preparationComplete
    requires g.directionSequenceActive && |times| == g.directionsRemaining + 1
    ensures var r := Run(g, Turns(times)); r.machine.current == Armed && r.active == g.pending && !r.retained.valid
    decreases |times|
  {
    hide SafeInv, Synchronize;
    var calls := Turns(times);
    StepSafe(g, calls[0], 0);
    assert calls[1..] == Turns(times[1..]);
    if g.directionsRemaining == 0 {
      SequenceEndsExactly(g, times[0], SubmitAccepted, true);
      assert calls[1..] == [];
      assert Run(g, calls) == Step(g, calls[0]);
    } else {
      DirectionsAreGivenExactly(g, times[0], SubmitAccepted, SubmitAccepted, true);
      SequenceArms(Step(g, calls[0]), times[1..]);
    }
  }

  /** An admitted request ends armed: eleven idle turns of the loop with the backend well are enough. */
  lemma RequestEndsArmed(g: Gate, source: Source, at: nat, times: seq<nat>)
    requires SafeInv(g) && MotorGate.Arm(g, source, at).1 == ArmPending && |times| == 11
    ensures var asked := MotorGate.Arm(g, source, at).0;
            && SafeInv(asked)
            && var r := Run(asked, Turns(times)); r.machine.current == Armed && r.active == source
  {
    hide SafeInv, Run, MotorGate.Arm;
    ArmAdmitsExactly(g, source, at);
    ArmIsSafe(g, source, at);
    SequenceArms(MotorGate.Arm(g, source, at).0, times);
  }

  lemma ArmIsSafe(g: Gate, source: Source, at: nat)
    requires SafeInv(g)
    ensures SafeInv(MotorGate.Arm(g, source, at).0)
  {
    hide SafeInv;
    StepSafe(g, DoArm(source, at), 0);
  }

  /* ---------------- the stop stream ---------------- */

  /** Every stop frame the backend took since the last force-stop counts toward the preparation. */
  ghost predicate Streams(g: Gate) {
    && (forall f: nat | StopStreamFrom(g.log, f) :: g.stopStreamStarted && g.stopStreamStartedAt <= g.log[f].at)
    && (g.outputsStopped ==> !g.stopStreamStarted)
  }

  /** An entry that is no accepted frame and no force-stop leaves the stream as it is. */
  lemma OtherEntryStreams(g: Gate, r: Gate, e: Entry)
    requires Streams(g) && r.log == g.log + [e] && !(e.FrameGiven? && e.accepted)
    requires r.stopStreamStarted == g.stopStreamStarted && r.stopStreamStartedAt == g.stopStreamStartedAt
    requires r.outputsStopped ==> g.outputsStopped
    ensures Streams(r)
  {
    forall f: nat | StopStreamFrom(r.log, f)
      ensures r.stopStreamStarted && r.stopStreamStartedAt <= r.log[f].at
    {
      assert f < |g.log| && r.log[f] == g.log[f];
      assert forall i | f < i < |g.log| :: r.log[i] == g.log[i];
      assert StopStreamFrom(g.log, f);
    }
  }

  lemma SameStreams(g: Gate, r: Gate)
    requires Streams(g) && r.log == g.log && (r.outputsStopped ==> g.outputsStopped)
    requires r.stopStreamStarted == g.stopStreamStarted && r.stopStreamStartedAt == g.stopStreamStartedAt
    ensures Streams(r)
  {
  }

  lemma StopStreams(g: Gate, stopAccepted: bool)
    ensures Streams(MotorGate.ForceStop(g, stopAccepted).0)
  {
    hide Faults.Report;
    var r := MotorGate.ForceStop(g, stopAccepted).0;
    assert r.log[|g.log|].ForceStopped?;
    assert forall f: nat :: !StopStreamFrom(r.log, f);
  }

  lemma FailStreams(g: Gate, stopAccepted: bool)
    ensures Streams(FailOutput(g, stopAccepted).0)
  {
    hide Streams, MotorGate.ForceStop, ReportMotorFault;
    StopStreams(ReportMotorFault(g, FAULT_ID_MOTOR_OUTPUT), stopAccepted);
  }

  lemma EnterStreams(g: Gate)
    requires Streams(g)
    ensures Streams(EnterFailsafeIfArmed(g))
  {
    hide Streams;
    if g.machine.current == Armed {
      OtherEntryStreams(g, EnterFailsafeIfArmed(g), FailsafeEntered);
    }
  }

  lemma ReportStreams(g: Gate, id: nat)
    requires Streams(g)
    ensures Streams(ReportMotorFault(g, id))
  {
    hide Streams, Faults.Report;
    SameStreams(g, ReportMotorFault(g, id));
  }

  /** An accepted frame counts if it is a stop frame, and starts the outputs in any case. */
  lemma SentStreams(g: Gate, command: Command, now: nat)
    requires Streams(g) && command.valid
    ensures Streams(Sent(Noted(g, Some(command), true, now), command, now))
  {
    hide OutputAllowed;
    var r := Sent(Noted(g, Some(command), true, now), command, now);
    forall f: nat | StopStreamFrom(r.log, f)
      ensures r.stopStreamStarted && r.stopStreamStartedAt <= r.log[f].at
    {
      if f < |g.log| {
        assert r.log[f] == g.log[f];
        assert forall i | f < i < |g.log| :: r.log[i] == g.log[i];
        assert StopStreamFrom(g.log, f);
      }
    }
  }

  lemma FrameStreams(g: Gate, command: Command, failsafeEntered: bool, now: nat, replies: Replies)
    requires Streams(g) && command.valid && CanonicalFrame(command) == Some(command)
    ensures Streams(SubmitFrame(g, command, failsafeEntered, now, replies).0)
  {
    hide Streams, FailOutput, EnterFailsafeIfArmed, CanonicalFrame, OutputAllowed, Sent;
    SentStreams(g, command, now);
    FailStreams(EnterFailsafeIfArmed(Noted(g, Some(command), false, now)), replies.stopAccepted);
  }

  lemma CompletedStreams(g: Gate, now: nat)
    requires Streams(g)
    ensures Streams(CompletePendingArm(g, now))
  {
    hide Streams, OutputAllowed;
    var r := CompletePendingArm(g, now);
    if g.pending == NoSource || g.machine.current != Disarmed || !g.Healthy() || !g.preparationComplete {
      SameStreams(g, r);
    } else {
      OtherEntryStreams(g, r, ArmingDone(g.pending, now));
    }
  }

  lemma NextStreams(g: Gate, command: Command, failsafeEntered: bool, now: nat, replies: Replies)
    requires Streams(g) && command.valid && CanonicalFrame(command) == Some(command)
    ensures Streams(NextFrame(g, command, failsafeEntered, now, replies).0)
  {
    hide Streams, SubmitFrame, FailOutput, CompletePendingArm, CanonicalFrame, Scatter;
    if g.machine.current == Disarmed && g.directionSequenceActive {
      if g.directionsRemaining == 0 {
        var ended := g.(directionSequenceActive := false);
        SameStreams(g, ended);
        CompletedStreams(ended, now);
        FrameStreams(CompletePendingArm(ended, now), command, failsafeEntered, now, replies);
      } else if replies.directions == SubmitAccepted {
        OtherEntryStreams(g, SendDirections(g, now, replies).0, DirectionAccepted(Wanted(g)));
      } else {
        FailStreams(g, replies.stopAccepted);
      }
    } else {
      FrameStreams(g, command, failsafeEntered, now, replies);
    }
  }

  lemma SelectedStreams(g: Gate, now: nat)
    requires SafeInv(g) && Streams(g)
    ensures var (r, command, _) := SelectCommand(g, now);
            Streams(r) && command.valid && CanonicalFrame(command) == Some(command)
  {
    hide Streams, SafeInv, EnterFailsafeIfArmed, OutputAllowed, IsFresh, CanonicalFrame, MayGive;
    SelectCommandSafe(g, now);
    var (r, command, _) := SelectCommand(g, now);
    StopIsCanonical(r, command, now);
    EnterStreams(g);
    var entered := EnterFailsafeIfArmed(g);
    SameStreams(entered, entered.(retained := InvalidCommand));
    SameStreams(g, g.(active := NoSource, retained := InvalidCommand));
  }

  lemma SynchronizeStreams(g: Gate, now: nat, replies: Replies)
    requires SafeInv(g) && Streams(g)
    ensures Streams(Synchronize(g, now, replies).0)
  {
    hide Streams, SafeInv, NextFrame, FailOutput, MotorGate.ForceStop, SelectCommand, EnterFailsafeIfArmed;
    hide CanonicalFrame;
    FailStreams(EnterFailsafeIfArmed(g), replies.stopAccepted);
    var polled := if replies.status == Idle then g.(transferInProgress := false) else g;
    PolledIsSafe(g);
    SameStreams(g, polled);
    var halted := polled.(active := NoSource, pending := NoSource, directionSequenceActive := false,
                          retained := InvalidCommand);
    SameStreams(polled, halted);
    StopStreams(halted, replies.stopAccepted);
    SelectedStreams(polled, now);
    var (selected, command, failsafeEntered) := SelectCommand(polled, now);
    FailStreams(EnterFailsafeIfArmed(selected), replies.stopAccepted);
    NextStreams(selected, command, failsafeEntered, now, replies);
  }

  lemma SubmitStreams(g: Gate, source: Source, command: Command, now: nat, stopAccepted: bool)
    requires SafeInv(g) && Streams(g)
    ensures Streams(Submit(g, source, command, now, stopAccepted).0)
  {
    hide Streams, SafeInv, Submit;
    var r := Submit(g, source, command, now, stopAccepted).0;
    SubmitAcceptsExactly(g, source, command, now, stopAccepted);
    if Submit(g, source, command, now, stopAccepted).1 == SubmitOk {
      OtherEntryStreams(g, r, CommandAccepted(source, command));
    } else {
      RefusedStreams(g, source, command, now, stopAccepted);
    }
  }

  lemma RefusedStreams(g: Gate, source: Source, command: Command, now: nat, stopAccepted: bool)
    requires SafeInv(g) && Streams(g) && Submit(g, source, command, now, stopAccepted).1 != SubmitOk
    ensures Streams(Submit(g, source, command, now, stopAccepted).0)
  {
    hide Streams, SafeInv, MotorGate.ForceStop, EnterFailsafeIfArmed, ReportMotorFault, Create, MapCommand, IsFresh;
    hide OutputAllowed, Scatter;
    SameStreams(g, g.(active := NoSource, retained := InvalidCommand));
    EnterStreams(g);
    var entered := EnterFailsafeIfArmed(g);
    StopStreams(entered, stopAccepted);
    ReportStreams(entered, FAULT_ID_MOTOR_OUTPUT);
    StopStreams(ReportMotorFault(entered, FAULT_ID_MOTOR_OUTPUT), stopAccepted);
  }

  lemma DisarmStreams(g: Gate)
    requires Streams(g)
    ensures Streams(Disarm(g).0)
  {
    hide Streams, HandleEvent;
    var r := Disarm(g).0;
    if g.machine.current == Disarmed && g.pending != NoSource {
      OtherEntryStreams(g, r, ArmCancelled);
    } else if HandleEvent(g.machine, DisarmRequested).1 == TransitionRejected {
      SameStreams(g, r);
    } else {
      OtherEntryStreams(g, r, DisarmDone);
    }
  }

  lemma ArmStreams(g: Gate, source: Source, now: nat)
    requires SafeInv(g) && Streams(g)
    ensures Streams(MotorGate.Arm(g, source, now).0)
  {
    hide Streams, SafeInv, MotorGate.Arm;
    ArmAdmitsExactly(g, source, now);
    var r := MotorGate.Arm(g, source, now).0;
    if MotorGate.Arm(g, source, now).1 == ArmPending {
      OtherEntryStreams(g, r, ArmRequest(source, now));
    } else {
      SameStreams(g, r);
    }
  }

  lemma StepStreams(g: Gate, call: Call)
    requires SafeInv(g) && Streams(g)
    ensures Streams(Step(g, call))
  {
    hide Streams, SafeInv, Synchronize, MotorGate.ForceStop, Submit, Disarm, MotorGate.Arm, ReportMotorFault, Clear;
    hide EnterFailsafeIfArmed, IsPermutation;
    match call
    case DoSynchronize(at, replies) => SynchronizeStreams(g, at, replies);
    case DoSubmit(source, command, at, stopAccepted) => SubmitStreams(g, source, command, at, stopAccepted);
    case DoForceStop(stopAccepted) => StopStreams(g, stopAccepted);
    case DoReport(id) => ReportStreams(g, id);
    case DoEnterFailsafe => EnterStreams(g);
    case DoDisarm => DisarmStreams(g);
    case DoRecover => DisarmStreams(g);
    case DoArm(source, at) => ArmStreams(g, source, at);
    case _ => SameStreams(g, Step(g, call));
  }

  lemma {:induction false} RunStreams(g: Gate, calls: seq<Call>, clock: nat)
    requires SafeInv(g) && Streams(g) && PreparationInv(g, clock) && MonotoneFrom(calls, clock)
    ensures var r := Run(g, calls); Streams(r) && PreparationInv(r, LastReading(calls, clock))
    decreases |calls|
  {
    hide SafeInv, Streams, PreparationInv, Step, ReadingOf;
    if calls != [] {
      StepSafe(g, calls[0], 0);
      StepSafe(g, calls[0], clock);
      StepStreams(g, calls[0]);
      RunStreams(Step(g, calls[0]), calls[1..], ReadingOf(calls[0], clock));
    }
  }

  /**
   * In every run on a forward clock an arm request is admitted exactly if it names a source, the gate is DISARMED and
   * free, the external gate is open, and a stop frame the backend took at least five seconds ago was followed by no
   * force-stop.
   */
  lemma RequestIsAdmittedExactly(machine: Machine, registry: Registry, catalog: Catalog, timeout: nat,
                                 configuration: Directions, calls: seq<Call>, source: Source, now: nat)
    requires RegistryInv(catalog, registry, machine) && DeclaresMotorFaults(catalog)
    requires MonotoneFrom(calls, 0) && LastReading(calls, 0) <= now
    ensures var start := Started(machine, registry, catalog, timeout, configuration);
            && SafeInv(start)
            && var g := Run(start, calls);
               MotorGate.Arm(g, source, now).1 == ArmPending <==>
                 && source != NoSource && g.machine.current == Disarmed && g.active == NoSource
                 && g.pending == NoSource && g.externalArmReady
                 && exists f: nat :: StopStreamFrom(g.log, f) && g.log[f].at + 5_000_000 <= now
  {
    hide SafeInv, Run, MotorGate.Arm, RegistryInv, Requested, ArmingsJustified;
    StartedIsSafe(machine, registry, catalog, timeout, configuration, 0);
    var start := Started(machine, registry, catalog, timeout, configuration);
    assert Streams(start);
    RunStreams(start, calls, 0);
    var g := Run(start, calls);
    ArmAdmitsExactly(g, source, now);
    if g.stopStreamStarted {
      var f: nat :| StopStreamFrom(g.log, f) && g.log[f].at == g.stopStreamStartedAt;
    }
  }
}
