# OpenFlightComputer firmware: models and proofs

This project models the parts of the OpenFlightComputer firmware, and of its host tools, where several functions
together promise something, and proves those promises for every input, run or reachable state. Each component is a
specification on values (functions over a record of the state), a class or method that works in place as the firmware
does and is proved to compute that specification, and lemmas about whole runs of the specification. `dafny verify
dfyconfig.toml` checks everything.

## What is modelled

**The motor safety gate.** `SystemState`, `Faults` and `MotorCommands` hold the lifecycle machine, the bounded fault
registry with health, and commands with the motor permutation; `FaultOutcome` says what each report and clear does.
`MotorGate` combines them into a transition system with a history of frames, requests and commands; the backend's
replies are arbitrary and calls come in any order. `GateHistory` proves the safety theorems over that history,
`GateDirections` what the motors have been told about their directions by the time they are armed. `GateGives` and
`GateServes` prove the other direction: when the gate does give a command, a direction or an arming. `MotorControl` is
the class that keeps the state in place. `ReceiverFailsafe` and `ReceiverArming` are the two machines upstream,
`ArmingOutcome` the law of the second; `FlightSystem` and `FlightControl` glue all of them together with objectives,
recovery and configuration writes.

**The blackbox.** `Bytes`, `BlackboxFormat` and `BlackboxSamples` are the on-card formats with their round trips,
`BlackboxDecoder` is the host's decoder. `BlackboxStore` is the recorder with its queue of sector writes;
`BlackboxCard`, `BlackboxCrash` and `BlackboxRuns` prove what a card holds after a power cut between any two sector
writes, `BlackboxKept` that nothing listed before is lost, and `BlackboxCycles` carries that over any number of power
cycles; `BlackboxCheckpoint` says what a cut in flight leaves of the log being recorded. `BlackboxContents` and
`BlackboxFlights` prove that completed logs decode to what was recorded, `BlackboxFooter` when a log can be completed,
and `BlackboxTiming` when a log begins and ends and which samples it takes. `BlackboxOutcome` is about writing,
mounting, formatting and looking a log up. `BlackboxRecorder` is the class with the 32-slot ring, the catalogue page and
the block buffer changed in place.

**The scheduler.** `Scheduler` has ready batches, release grids and their accounting; `ReleaseGrid` compares the
three ways the firmware moves a release past the present.

**The control arithmetic.** `QuadMixer`, `RateControl`, `ControlCore`, `TakeoffLeveling` and `ControlCurve` are over the
reals, `GyroCalibration` over exact integers. `RateLaw` states the control law of an axis, `CoreLaw` what it makes of a
whole update up to the motors, and `GyroOutcome` when a calibration succeeds.

**Two small protocols.** `ControlTrace` and `UsbTrace` are the diagnostic ring and its read handshake over USB,
`TraceText` the text of a read response and how many records it has room for, `TraceOverflow` a read it misleads about;
`BootloaderText`, `BootloaderFlash`, `BootloaderProtocol` and `BootloaderTransfer` are the bootloader's lines, flash,
session, and the host's side of an update. The flash hardware may fail at any call and may leave anything in a word it
failed on or was asked to program twice.

## What the code does not promise

The model follows the code where a natural promise fails, and says exactly when it holds.

- The motor mapping may be changed while an arm request is pending, after direction frames have gone out.
  Condition: `GateDirections.ToldRightExactly`; input: `GateDirections.NewMappingCanBeArmed`.
- A card cut after a catalogue page and before the superblock behind it lists a log past the next free sector, and the
  next log is written over its end. Condition: `BlackboxCycles.CutIsCleanExactlyUnlessOverdue`; input:
  `BlackboxCycles.LogCanLoseItsEnd`. Power may fail any number of times at any other write without a log being lost
  or changed (`BlackboxCycles.CyclesLoseNothing`), as long as the wrap of the next item is not due.
- When the 32-bit number of the superblocks wraps over the only current copy, the older superblock can come back.
  Condition: `BlackboxKept.RemountIsFreshExactlyUnlessForgetful`, `BlackboxKept.NoLogIsLostExactlyUnless`; input:
  `BlackboxKept.WrappingLosesALog`.
- A footer may not fit into the blackbox queue behind a checkpoint; the log then ends in the error state. Condition:
  `BlackboxFooter.ClosingSampleOutcome` before the sample, `BlackboxFooter.FinishOutcome` when finishing; input:
  `BlackboxFooter.FooterCanBeLost`.
- A read response of the control trace announces the next sequence of the batch it looked at, not of the part that
  fitted into its 4096 bytes. Condition: `UsbTrace.NextSequenceIsHonestWhenTheBatchFits`; input:
  `TraceOverflow.ShortReadMisleads`. Only the fifth record of a batch can be left out, and only if values print in more
  than eight characters (`TraceText.CarriesAllThatFit`), which those below 10,000 in magnitude never do
  (`TraceText.SmallIsOrdinary`). Nothing is lost by it: only carried records are dropped.
- A BEGIN whose erase fails leaves the flag that admits BOOT as it was, although the application may be gone.
  Condition: `BootloaderProtocol.BeginKeepsHonest`; input: `BootloaderTransfer.FailedEraseKeepsTheFlag`. The next start
  checks the image itself.
- A DATA line that fails after programming has begun can be repeated by the host, and then programs words twice.
  Condition: `BootloaderProtocol.DataFills`; input: `BootloaderTransfer.RepeatedBlockHappens`. The checksum over the
  flash still decides at END (`BootloaderTransfer.OkMeansVerified`).
- A configuration write refused while it is being applied has changed motor directions and readiness already, although
  the active configuration stays. Condition: `FlightSystem.ConfigurationHasItsOutcome`, where the runtime was prepared
  but the receiver's freshness could not be updated.
- The acceptance test of the gyro calibration stays within 64 bits only up to a raw deviation of 303,700; the flight
  configuration stays far below (`GyroCalibration.LimitFitsExactly`, `GyroCalibration.FlightLimitsFit`).
- Loop and division form of the release time differ once the release has saturated at the end of the clock: the loop
  then still reports a sample as due at that last instant, the division form does not (`ReleaseGrid.FormsAgree`).

## Model

| member | source | states |
|---|---|---|
| `GateHistory.EveryFrameIsJustified` | firmware/app/motor_control.c:438-586 | in every run, with any clock and any replies of the backend, a nonzero frame was given while ARMED and healthy, inside its lease, and is the permuted copy of the latest command accepted from the armed source since that source's own arming |
| `GateHistory.EveryArmingIsJustified` | firmware/app/motor_control.c:306-339 | in every run on a monotone clock, an arming follows its own request by exactly ten accepted direction frames with no disarm, cancellation or force-stop between, and the request came at least 5,000,000 us after an accepted stop frame with no force-stop since that frame |
| `GateHistory.ReachableHealth` | firmware/app/fault.c:171-312 | in every reachable state an active critical record or a dropped report means FAULT, active ids are unique and counted, and output is healthy exactly when the lifecycle is not FAULT |
| `GateHistory.FaultIsTerminal` | firmware/app/motor_control.c:451-480 | once in FAULT, no sequence of calls gives the backend another power or direction frame, and FAULT stays |
| `GateHistory.StepSafe` | firmware/app/motor_control.c:438-586 | each single call of the gate keeps the frame history justified, and with a clock that did not go back the arming history too |
| `GateDirections.ToldRightExactly` | firmware/app/motor_control.c:438-586 | from a pending request up to and including the call that ends it, through any calls and any number of changes of the mapping: if it arms, the whole direction sequence was given; and what the motors were told is what mapping and configuration say in the end, if and only if the mapping in force at each direction frame told each motor the same as the last one |
| `GateDirections.DirectionsAreCurrent` | firmware/app/motor_control.c:438-586 | in particular the motors were told right whenever no call of the stretch changes the mapping |
| `GateDirections.MappingChangeIsUntold` | firmware/app/motor_control.c:635-660 | one change of the mapping after direction frames leaves the motors told right exactly if the new mapping tells each of them the same |
| `GateDirections.NewMappingCanBeArmed` | firmware/app/motor_control.c:635-660 | from every disarmed start some run on a forward clock arms under any given mapping with all ten direction frames of the old one |
| `GateHistory.SynchronizeSafe` | firmware/app/motor_control.c:438-586 | whatever the backend answers, synchronizing keeps both histories justified |
| `GateServes.CommandIsServed` | firmware/app/motor_control.c:380-586 | after an accepted command and any calls, as long as the history holds no end of authority and no later command and the gate is ARMED, the next turn on an idle backend offers exactly that command, near-zero values zero, at the outputs its motors are mapped to and under its time stamp, if its lease runs; and otherwise enters FAILSAFE and offers zero |
| `GateServes.RequestIsAdmittedExactly` | firmware/app/motor_control.c:306-339 | in every run on a monotone clock, an arm request is admitted if and only if its source is one, the gate is DISARMED without owner or request, the external gate is open, and the backend took a stop frame at least 5,000,000 us ago with no force-stop since |
| `GateServes.RequestEndsArmed` | firmware/app/motor_control.c:529-567 | an admitted request ends armed: eleven turns on an idle, accepting backend are enough, at any times |
| `GateServes.ArmAdmitsExactly` | firmware/app/motor_control.c:306-339 | the same admission over the state of one call, with everything an admitted and a refused request leave behind |
| `GateServes.RunHolds` | firmware/app/motor_control.c:438-586 | through any calls the armed gate keeps its command, owner and mapping until the history shows an end of authority or a later command |
| `GateGives.FrameIsGivenExactly` | firmware/app/motor_control.c:438-586 | on an idle backend an ARMED, prepared gate offers exactly its retained command if and only if the lease runs, and otherwise zero; results, states and history for an accepted and for a refused frame |
| `GateGives.SubmitAcceptsExactly` | firmware/app/motor_control.c:380-436 | a command is accepted if and only if its source is the armed one and throttles and lease are in range, and is retained at the outputs of its motors; any other command of the owner ends in FAILSAFE, and nobody else changes anything |
| `GateGives.DirectionsAreGivenExactly` | firmware/app/motor_control.c:529-567 | each turn of the direction sequence tells every output the configured direction of the motor mapped to it and counts down by one; a refusal is a fault |
| `GateGives.SequenceEndsExactly` | firmware/app/motor_control.c:529-567 | the turn after the last direction frame arms exactly if a source has asked and the preparation is complete, and gives a stop frame |
| `GateGives.BusyIsWaitedForExactly` | firmware/app/motor_control.c:451-527 | a busy backend is waited for less than 1000 us and is a fault from then on; a command whose lease ends meanwhile still means FAILSAFE |
| `GateGives.BrokenIsFault` | firmware/app/motor_control.c:451-480 | a broken backend means FAULT, with every request and authority gone |
| `GateGives.HaltedIsStopped` | firmware/app/motor_control.c:451-480 | outside the running states the outputs are stopped once and stay stopped |
| `GateGives.DisarmsExactly` | firmware/app/motor_control.c:341-378 | when a disarm is accepted, and that it leaves nobody in charge |
| `GateGives.RecoversExactly` | firmware/app/motor_control.c:611-633 | recovery leads to an idle DISARMED gate exactly from FAILSAFE or from there |
| `GateGives.ConfiguresExactly` | firmware/app/motor_control.c:635-696 | when mapping, directions and external gate change, and that nothing else does |
| `GateGives.ForceStopsExactly` | firmware/app/motor_control.c:588-596 | a force-stop leaves no authority, request, command or preparation, and a refused one is a fault |
| `GateGives.FailsafeEntersExactly` | firmware/app/motor_control.c:598-609 | FAILSAFE is entered exactly from ARMED, without an owner and a command |
| `MotorControl.MotorControl.Initialize` | firmware/app/motor_control.c:252-304 | starts the gate exactly for a usable timeout, a catalogue that declares the motor faults and a backend that accepts; every refusal says why and what is left: nothing changes for bad arguments or a second call, and a refusing backend leaves a silent gate in FAULT with its fault reported |
| `MotorControl.MotorControl.Arm` | firmware/app/motor_control.c:306-339 | refines the gate's arm request: who is refused and why, and the direction sequence an accepted request starts |
| `MotorControl.MotorControl.Disarm` | firmware/app/motor_control.c:341-378 | refines the gate's disarm, including the cancellation of a pending request |
| `MotorControl.MotorControl.Submit` | firmware/app/motor_control.c:380-436 | refines the gate's submit: which command is retained and what each refusal does to the outputs |
| `MotorControl.MotorControl.Synchronize` | firmware/app/motor_control.c:438-586 | refines the gate's synchronize over backend status, freshness, health, direction sequence and frame, the one whose frames `GateGives.FrameIsGivenExactly` states |
| `MotorControl.MotorControl.ForceStop` | firmware/app/motor_control.c:588-596 | refines force-stop: authority and preparation are given up, a refused stop reports the output fault |
| `MotorControl.MotorControl.RequestFailsafe` | firmware/app/motor_control.c:598-609 | enters FAILSAFE from ARMED and leaves every other state alone |
| `MotorControl.MotorControl.RecoverToDisarmed` | firmware/app/motor_control.c:611-633 | refines the gate's recovery to DISARMED |
| `MotorControl.MotorControl.ConfigureMapping` | firmware/app/motor_control.c:635-660 | a mapping is taken exactly while DISARMED and if it is a permutation |
| `MotorControl.MotorControl.ApplyConfiguration` | firmware/app/motor_control.c:662-679 | motor directions change only while disarmed with no request pending |
| `MotorControl.MotorControl.SetExternalArmReady` | firmware/app/motor_control.c:686-696 | the external readiness gate and when it may be changed |
| `MotorControl.MotorControl.ReadyForArm` | firmware/app/motor_control.c:703-722 | computes whether an arm request would be admitted, without changing anything |
| `MotorCommands.AssignmentIsPermutation` | firmware/flight/actuators/motor_mapping.c:5-28 | the seen-flag loop accepts exactly the permutations of the four outputs |
| `MotorCommands.ScatterPermutes` | firmware/flight/actuators/motor_mapping.c:77-114 | under an accepted mapping every physical output carries the value of exactly one logical motor |
| `MotorCommands.ApplyMapping` | firmware/flight/actuators/motor_mapping.c:77-114 | the mapping loop yields the command whose outputs are permuted, re-created from the logical values |
| `MotorCommands.CreateCommand` | firmware/flight/actuators/motor_command.c:30-57 | a command exists exactly for throttles in range, and throttles at or below the stop threshold become zero |
| `MotorCommands.ValidationIsIdempotent` | firmware/flight/actuators/motor_command.c:30-57 | validating a command twice changes nothing, and mapping commutes with validation |
| `SystemState.LifecycleRun` | firmware/app/system_state.c:47-134 | no event leaves FAULT, a fault event always reaches it, and without an arm event no run enters ARMED |
| `SystemState.EventHasItsOutcome` | firmware/app/system_state.c:47-134 | which state every event leads to from every state, which are refused, and what the counters show |
| `SystemState.StateMachine.Handle` | firmware/app/system_state.c:113-134 | the transition table, the previous state and the two saturating counters |
| `Faults.ReportKeeps` | firmware/app/fault.c:237-286 | a report keeps the registry sound, its fault transition is never refused, and a critical or unrecordable fault latches FAULT |
| `Faults.ClearKeeps` | firmware/app/fault.c:288-312 | a clear frees exactly the named record and never a critical one |
| `Faults.CriticalReportIsTerminal` | firmware/app/fault.c:171-312 | in any order of reports, clears and lifecycle events, after one critical report the system is in FAULT with output forbidden |
| `Faults.HealthIsLifecycle` | firmware/app/health.c:10-65 | for every sound registry output is allowed exactly outside FAULT, and health is never unknown |
| `FaultOutcome.ReportHasItsOutcome` | firmware/app/fault.c:237-286 | which result a report has, the occurrences it leaves of its own fault and of every other, what is counted as dropped, and that FAULT is entered exactly for a critical or an unrecordable one |
| `FaultOutcome.ClearHasItsOutcome` | firmware/app/fault.c:288-312 | an active fault is cleared if and only if it is not critical, and no other fault changes |
| `FaultOutcome.UndeclaredIsRefused` | firmware/app/fault.c:237-312 | reporting or clearing an undeclared fault changes nothing |
| `FaultOutcome.HealthIsTheWorst` | firmware/app/health.c:10-65 | health is critical exactly in FAULT and otherwise as bad as the worst active fault |
| `Faults.CheckCatalog` | firmware/app/fault.c:51-81 | the validation loops accept exactly the catalogues with valid entries and unique ids |
| `Faults.FaultSystem.ReportFault` | firmware/app/fault.c:237-286 | the in-place registry refines the report, including the forced lifecycle event |
| `Faults.FaultSystem.ClearFault` | firmware/app/fault.c:288-312 | the in-place registry refines the clear |
| `Faults.FaultSystem.EvaluateHealth` | firmware/app/health.c:10-65 | one loop over the records computes the summary counts and the health they mean |
| `ReceiverFailsafe.UpdateKeeps` | firmware/flight/receiver/receiver_failsafe.c:125-211 | one update closes the latch exactly on a clock that ran backwards or on silence past the second stage, otherwise the stage is the age band of the sample, and the recovery timer runs exactly over safe samples |
| `ReceiverFailsafe.SilenceEscalates` | firmware/flight/receiver/receiver_failsafe.c:125-211 | without a newer sample the response never de-escalates over any readings, and it ends latched exactly when the silence outlasts the bound |
| `ReceiverFailsafe.Monitor.Update` | firmware/flight/receiver/receiver_failsafe.c:125-211 | refines the update and states the decision: link age, action, requested control, and that live control is the received sample |
| `ReceiverFailsafe.SafeRunIsReadyExactly` | firmware/flight/receiver/receiver_failsafe.c:57-89 | from any latched failsafe, after any run of safe samples at nondecreasing readings, recovery is ready if and only if the last reading is at least the stable time after the one that started the unbroken run |
| `ReceiverFailsafe.ResponseFollowsAge` | firmware/flight/receiver/receiver_failsafe.c:125-211 | which of live, hold, stage one, stop and no control a sample of which age gets |
| `ReceiverFailsafe.ReleasesExactly` | firmware/flight/receiver/receiver_failsafe.c:213-225 | the latch is released if and only if it is closed and ready, and everything starts over |
| `ReceiverFailsafe.InitializesExactly` | firmware/flight/receiver/receiver_failsafe.c:106-123 | the failsafe starts exactly with a valid configuration, unlatched and without a sample |
| `ReceiverFailsafe.Monitor.UpdateRecovery` | firmware/flight/receiver/receiver_failsafe.c:57-89 | refines the recovery timer: it restarts on an unsafe sample or a clock running backwards, and is ready exactly from the stable time on |
| `ReceiverFailsafe.Monitor.ReleaseStageTwo` | firmware/flight/receiver/receiver_failsafe.c:213-225 | the latch is released only when latched and ready |
| `ReceiverArming.TwoSampleRule` | firmware/app/receiver_arming.c:79-163 | after any samples the receiver asks to arm at the next one exactly when that one raises the switch, usable, source-free and at low throttle, and the one just before was usable, released and not owned by another source |
| `ReceiverArming.FlagsAreTheLastSample` | firmware/app/receiver_arming.c:79-163 | the three qualification flags say no more and no less than that the last sample released the switch |
| `ReceiverArming.ArmingRespectsOwner` | firmware/app/receiver_arming.c:79-163 | no disarm of the receiver is ever refused, and the gate is untouched while another source owns it |
| `ArmingOutcome.StepHasItsOutcome` | firmware/app/receiver_arming.c:79-163 | what each call does, decided by link, owner, stick and the samples before: a link that stops steering cancels the receiver's own request, a released switch disarms, a raised one asks exactly when qualified, and the gate's admission decides the answer |
| `ArmingOutcome.WithoutGateNothingHappens` | firmware/app/receiver_arming.c:79-163 | without an initialized gate, or uninitialized itself, the arming code never arms, asks or disarms |
| `ArmingOutcome.StartsUnqualified` | firmware/app/receiver_arming.c:62-77 | arming starts unqualified, and is usable exactly with a throttle limit up to the stop threshold |
| `ReceiverArming.Controller.ProcessStep` | firmware/app/receiver_arming.c:79-163 | the class refines one arming step together with the gate it drives |
| `FlightSystem.LatchOpensOnlyWhenSafe` | firmware/app/flight_control.c:103-117 | in every run the stage-two latch opens only with the gate disarmed and no source active or pending, and then either by a reconfiguration or after an unbroken span of safe samples at least as long as the recovery time |
| `FlightSystem.RecoveryOpensExactly` | firmware/app/flight_control.c:103-117 | a recovery call opens a closed latch if and only if it is ready and the gate is in FAILSAFE, or DISARMED with no source active or pending; otherwise nothing changes |
| `FlightSystem.ControlComesBack` | firmware/app/flight_control.c:103-117 | from FAILSAFE with the latch closed, a run of safe samples and one recovery call end with the latch open in an idle DISARMED system if and only if the run lasted the stable time |
| `FlightSystem.RecoveryIsEarned` | firmware/flight/receiver/receiver_failsafe.c:57-89 | in every run, a recovery timer or a ready flag stands for an unbroken run of safe samples since it started |
| `FlightSystem.EveryFlightFrameIsJustified` | firmware/app/flight_control.c:25-117 | the frame guarantee holds in every run of receiver, failsafe, objectives, recovery and reconfiguration on top of the gate |
| `FlightSystem.FlightRunIsGateRun` | firmware/app/flight_control.c:25-117 | every run of the flight layer is a run of the gate's own calls, so every theorem about the gate carries over |
| `FlightSystem.ObjectiveNeedsAuthority` | firmware/app/flight_control.c:59-101 | an objective is submitted exactly when its command enters the history under the active authority; without authority nothing happens |
| `FlightSystem.ReconfiguredIsIdle` | firmware/app/flight_configuration_service.c:22-82 | the failsafe is re-initialized only with the gate disarmed and no source active or pending |
| `FlightSystem.ConfigurationHasItsOutcome` | firmware/app/flight_configuration_service.c:22-157 | the result of a configuration write decided by validity, gate and replies, and what each result leaves of gate and failsafe |
| `FlightControl.RecoverReceiver` | firmware/app/flight_control.c:103-117 | gate and failsafe move together as specified, and the latch is released only after the gate recovered |
| `FlightControl.Stabilization.Reset` | firmware/app/flight_control.c:5-23 | the control core is reset and everything published of it withdrawn |
| `FlightControl.EnterFailsafe` | firmware/app/flight_control.c:25-33 | refines entering failsafe through the gate, and resets core and publication whatever the gate answers |
| `FlightControl.ExecuteObjective` | firmware/app/flight_control.c:59-101 | refines one objective over the real control core: core, publication and gate after it, for a missing owner, missing inputs, a waiting, failing or updating core |
| `FlightControl.SubmittedCommandIsMixed` | firmware/app/flight_control.c:59-101 | with a sound core and a valid profile: when an objective has a command, waits or fails, decided by the request alone; its command's motors sum to four times the baseline and twist each axis by four times scale times the published rate total, which obeys the control law for that request; and what is published of it |
| `FlightControl.AnswerIsSubmitted` | firmware/app/flight_control.c:59-101 | for the owning authority such a command is submitted if and only if there is one and the preparation is complete, and is retained at the outputs of its motors; a waiting core changes nothing, a failing one ends in FAILSAFE |
| `FlightControl.NothingIsFlown` | firmware/app/flight_control.c:59-101 | without authority or inputs nothing is flown, and core and publication are reset |
| `FlightControl.ConfigurationService.Write` | firmware/app/flight_configuration_service.c:135-157 | the active configuration changes exactly when storing and applying succeeded, and the revision moves with it; without an initialized gate nothing is applied, and a stored configuration is answered with an apply error |
| `FlightControl.ConfigurationService.Reset` | firmware/app/flight_configuration_service.c:159-182 | restoring the defaults follows the same order, is all or nothing for the active configuration, and fails the same way without a gate |
| `FlightControl.ConfigurationService.Apply` | firmware/app/flight_configuration_service.c:60-82 | runtime preparation, motor directions, readiness and failsafe are applied in order up to the first refusal, with the state each refusal leaves |
| `BlackboxKept.PowerCutAnywhere` | firmware/app/blackbox.c:205-391 | after any run from a clean mount, cut at any sector write: the card mounts from a superblock built in one piece and every log it lists has all its sectors written with that log's blocks numbered 0, 1, 2, ...; without formatting every earlier entry is unchanged, and unless the older superblock can come back every earlier log is still listed, with its sectors, by the superblock of the mount or a newer one numbered on from it |
| `BlackboxKept.RemountIsFreshExactlyUnlessForgetful` | firmware/app/blackbox.c:614-667 | in every run without formatting, cut anywhere, the card mounts from the superblock of the start or one built since, if and only if it is not forgetful: numbers about to wrap over the only current copy while the other is valid, different and not number zero |
| `BlackboxKept.NoLogIsLostExactlyUnless` | firmware/app/blackbox.c:614-667 | in every run without formatting, cut anywhere, the card mounts with no fewer logs than before, if and only if it is not such a card whose older superblock lists fewer |
| `BlackboxKept.OlderSuperblockReturns` | firmware/app/blackbox.c:276-291 | on every forgetful card the cut between the two superblocks of the next log mounts the older one |
| `BlackboxKept.WrappingLosesALog` | firmware/app/blackbox.c:645-660 | a concrete clean card with one log, and the run and cut after which it mounts with none |
| `BlackboxKept.NothingIsForgotten` | firmware/app/blackbox.c:205-391 | the same from any ready state in the middle of a run: its own catalogue is what later cuts keep |
| `BlackboxCheckpoint.CutLosesLittle` | firmware/app/blackbox.c:375-391 | in every run from a clean mount, whenever the writes of a recording have caught up, the card as it is mounts with the log listed, and the host decodes what is listed to the configuration and all but at most the last 500 of the samples taken, in order |
| `BlackboxCheckpoint.CutLogDecodes` | firmware/app/blackbox.c:205-391 | cut at any write of a recording or of its closing: if a mount lists the log at all, its sectors decode to the configuration and the first samples taken, as many as the entry counts but for one still waiting, or to the whole closed log |
| `BlackboxCheckpoint.CheckpointReads` | firmware/app/blackbox.c:375-391 | a checkpoint comes as soon as its number of samples is reached, and once it is written the log is listed as it stands |
| `BlackboxCheckpoint.StartReads` | firmware/app/blackbox.c:293-373 | cut at any write of a log's opening: if a mount lists it, it decodes to its configuration and no samples |
| `BlackboxKept.StepFollows` | firmware/app/blackbox.c:578-904 | every call but formatting keeps the numbering of superblocks, the data area below the start, and a current superblock at every cut of the queue |
| `BlackboxCycles.CutIsCleanExactlyUnlessOverdue` | firmware/app/blackbox.c:205-291 | cut anywhere in a run without formatting, the card is again one a run may begin with, if and only if the next write was not an overdue superblock: one that lists the same logs as the superblock on the card but lies further on, or, at the wrap of the numbers, one whose first copy lists a log more |
| `BlackboxCycles.CyclesLoseNothing` | firmware/app/blackbox.c:205-291 | over any number of power cycles, cut at any writes but those, the card stays clean and every log keeps its entry and its sectors |
| `BlackboxCycles.NextLogOverwrites` | firmware/app/blackbox.c:293-373 | on a card whose last log reaches past the next free sector, the first block of the next log destroys it while it stays listed |
| `BlackboxCycles.LogCanLoseItsEnd` | firmware/app/blackbox.c:578-612 | a run and a cut that lead there exist on every clean card with room |
| `BlackboxCycles.MetadataTidy` | firmware/app/blackbox.c:284-291 | queueing page, superblock, superblock: which of the three cuts between them are clean |
| `BlackboxFooter.FinishOutcome` | firmware/app/blackbox.c:578-612 | a log closes if and only if its waiting samples and footer fit on the card, and into the queue together with the page and both superblocks; otherwise the store fails |
| `BlackboxFooter.ClosingSampleOutcome` | firmware/app/blackbox.c:744-825 | whether a sample that ends the log closes it or fails the store, decided before the call by the queue, the room, the samples waiting and whether a checkpoint comes due |
| `BlackboxTiming.RecordingEndsExactly` | firmware/app/blackbox.c:744-825 | over any run of samples, writes and catalogue reads of one recording: it goes on, unless a write failed or the card is full, up to exactly the first sample that reports FAULT or comes one second (saturating) or more after the first DISARMED sample since the last ARMED one; with that one the log is closed if its footer fits and the store fails if not |
| `BlackboxTiming.SampleFollows` | firmware/app/blackbox.c:744-825 | which samples a recording takes, decided by the samples before and the release time: those due, at a change of the lifecycle and those that end it, if the queue has room; and what is counted as dropped |
| `BlackboxTiming.ReleasesFollow` | firmware/app/blackbox.c:508-551 | the interval is 10 ms before, in and for one second after flight and 100 ms otherwise; a change of the lifecycle restarts the grid, and the next release is the first grid point after the sample |
| `BlackboxTiming.RecordingLasts` | firmware/app/blackbox.c:744-825 | through any calls that do not end it a recording keeps timers that mean the samples heard since it was opened |
| `BlackboxTiming.LogOpensExactly` | firmware/app/blackbox.c:293-373 | a sample that is no fault opens a log if and only if there is a free entry, a readable page and room for the opening blocks, and is its first sample; a fault opens none |
| `BlackboxFooter.FooterCanBeLost` | firmware/app/blackbox.c:375-391 | on every clean card with room some run reaches a recording, armed and with the card half a second behind, in which the next sample reports a fault and the footer is lost behind a checkpoint, although the card has room |
| `BlackboxRuns.ReadyMeansRemountable` | firmware/app/blackbox.c:837-904 | whenever the recorder is ready again, a remount finds exactly its catalogue, next sector, next id and generation, and the card is clean for the next run |
| `BlackboxRuns.StoreStepKeeps` | firmware/app/blackbox.c:578-904 | every call of the recorder, with any card reply, keeps every later cut good |
| `BlackboxRuns.DrainedIsIdle` | firmware/app/blackbox.c:837-904 | once the queue behind a footer has drained, the card alone carries everything |
| `BlackboxOutcome.QueueDrains` | firmware/app/blackbox.c:837-904 | two turns of the writer per write are enough, and one less is not, for everything queued to be on the card, and for a log being closed to be closed |
| `BlackboxOutcome.TroubleHasItsOutcome` | firmware/app/blackbox.c:837-904 | a busy card changes nothing, a failing one stops the store for good with the card as it was |
| `BlackboxOutcome.MountsExactly` | firmware/app/blackbox.c:614-667 | which superblock a mount goes by, and when the store is then ready, full, uninitialized or in error |
| `BlackboxOutcome.FormatHasItsOutcome` | firmware/app/blackbox.c:689-719 | when formatting is refused, done or failed, and what each leaves of store and card |
| `BlackboxOutcome.InspectHasItsOutcome` | firmware/app/blackbox.c:911-940 | a log is found if and only if its page can be read and its entry is plausible, and then it is the card's own entry |
| `BlackboxOutcome.PageLoadsExactly` | firmware/app/blackbox.c:145-173 | when a catalogue page is loaded, and that none is at hand if it is not |
| `BlackboxOutcome.PageCountsItsEntries` | firmware/app/blackbox.c:205-220 | a page is written with the number of entries it holds |
| `BlackboxOutcome.RecordingIsAnswered` | firmware/app/blackbox.c:669-687 | while recording the active log is answered from memory and the configuration stays |
| `BlackboxRuns.FormattedIsGood` | firmware/app/blackbox.c:689-719 | writing an empty superblock over any good card leaves a good card that lists nothing |
| `BlackboxRuns.FormattedIsClean` | firmware/app/blackbox.c:689-719 | formatting a card of the right size, whatever was on it, leaves a clean card and a store every run theorem applies to |
| `BlackboxCard.GoodCardMounts` | firmware/app/blackbox.c:614-667 | what mounting a good card finds: a known superblock, a usable status and sound entries |
| `BlackboxCrash.StartKeeps` | firmware/app/blackbox.c:293-373 | starting a log, including every way it can fail, keeps every cut good |
| `BlackboxCrash.AppendBlockKeeps` | firmware/app/blackbox.c:259-269 | appending a block keeps every cut good, and the log grows exactly when the block was queued |
| `BlackboxCrash.MetadataKeeps` | firmware/app/blackbox.c:205-291 | queueing page then superblocks keeps every cut good, and once all of it is queued the active log is listed |
| `BlackboxFlights.CompletedLogDecodes` | host_tools/openflightcomputer/blackbox.py:153-194 | in every run from a clean mount, the sectors of a closed log decode on the host to the configuration, exactly the samples taken, in order, with sequences 1, 2, ..., and a footer with both counters modulo 2^32 |
| `BlackboxFlights.ClosedLogStaysReadable` | host_tools/openflightcomputer/blackbox.py:153-194 | once a closed log has drained, in every run that follows without formatting and cut at any write, the superblock found lists it under its final entry and its sectors decode to what was recorded |
| `BlackboxFlights.ReleasesAreAccounted` | firmware/app/blackbox.c:744-825 | each due release is taken into the log or counted as dropped, never both, until the 64-bit drop counter is full |
| `BlackboxContents.FinishContent` | firmware/app/blackbox.c:578-612 | finishing a flight that held the samples taken leaves sectors that decode to them |
| `BlackboxContents.ConfigurationContent` | firmware/app/blackbox.c:293-373 | the opening blocks of a log carry the whole configuration, split over as many blocks as it takes |
| `BlackboxFormat.FinalizeParses` | host_tools/openflightcomputer/blackbox.py:80-94 | the host reads back from a finalized sector the header fields and exactly the payload, whatever follows it in the buffer |
| `BlackboxFormat.SuperblockRoundTrip` | firmware/app/blackbox.c:98-127 | a built superblock is valid and loads back to itself |
| `BlackboxFormat.PutEntryRoundTrip` | firmware/app/blackbox.c:175-203 | storing a catalogue entry stores exactly that entry and changes no other |
| `BlackboxFormat.SealPageKeeps` | firmware/app/blackbox.c:205-220 | sealing a catalogue page makes it valid and keeps its entries |
| `BlackboxSamples.SampleRoundTrip` | firmware/app/blackbox.c:408-506 | decoding an encoded sample shows exactly that sample under its sequence number |
| `BlackboxSamples.EncodeInto` | firmware/app/blackbox.c:408-506 | the in-place encoder writes the specified bytes at its offset and nothing else |
| `BlackboxSamples.ReadSample` | host_tools/openflightcomputer/blackbox.py:95-151 | the host's offset-advancing decoder computes the specified reading of the bytes |
| `BlackboxDecoder.Decode` | host_tools/openflightcomputer/blackbox.py:153-194 | the host's loops over sectors and samples compute the specified log or reject the data |
| `BlackboxDecoder.ReadBlocks` | host_tools/openflightcomputer/blackbox.py:153-194 | the loop over sectors yields all blocks in order, or nothing if one is damaged |
| `BlackboxRecorder.Recorder.QueueSector` | firmware/app/blackbox.c:240-257 | the 32-slot ring refines a first-in first-out queue with a capacity |
| `BlackboxRecorder.Recorder.AppendBlock` | firmware/app/blackbox.c:222-269 | finalizing a block in place and queueing it at the next sector |
| `BlackboxRecorder.Recorder.EnqueueMetadata` | firmware/app/blackbox.c:205-291 | the catalogue page and both superblocks enter the queue in that order |
| `BlackboxRecorder.Recorder.PreparePage` | firmware/app/blackbox.c:145-173 | the page holding the next slot is loaded, kept or freshly initialized |
| `BlackboxRecorder.Recorder.StartFlight` | firmware/app/blackbox.c:293-373 | refines the start of a log |
| `BlackboxRecorder.Recorder.Checkpoint` | firmware/app/blackbox.c:375-391 | refines the checkpoint and its spare queue slots |
| `BlackboxRecorder.Recorder.FinishFlight` | firmware/app/blackbox.c:578-612 | refines flush, footer and closing metadata with the error path of each |
| `BlackboxRecorder.Recorder.RecordSample` | firmware/app/blackbox.c:744-825 | refines timing, dropping, encoding, flushing and finishing for one sample, whose outcome `BlackboxTiming.SampleFollows` states |
| `BlackboxRecorder.Recorder.Capture` | firmware/app/blackbox.c:744-825 | refines the capture entry point, including starting a log and falling to FULL or ERROR; when a recording begins and ends is `BlackboxTiming.LogOpensExactly` and `BlackboxTiming.RecordingEndsExactly` |
| `BlackboxRecorder.Recorder.FinishRecording` | firmware/app/blackbox.c:827-835 | refines finishing on demand |
| `BlackboxRecorder.Recorder.Service` | firmware/app/blackbox.c:837-904 | one write at a time leaves the head of the queue; an error stops the store |
| `BlackboxRecorder.Recorder.Inspect` | firmware/app/blackbox.c:911-940 | answers for the log being recorded from memory, for any other from its catalogue page, and rejects an implausible entry |
| `BlackboxRecorder.Recorder.SetConfiguration` | firmware/app/blackbox.c:669-687 | replaces the configuration only outside a recording |
| `BlackboxRecorder.FinalizeBlock` | firmware/app/blackbox.c:222-238 | writes header and checksum into the buffer in place |
| `Bytes.ComputeCrc32` | firmware/app/blackbox.c:37-50 | the bitwise loop computes the CRC-32 of section 8 of RFC 1952 |
| `Bytes.DamagedByteIsNoticed` | firmware/app/blackbox.c:37-50 | a buffer of any length damaged in a single byte never keeps its checksum |
| `Bytes.ChecksumOfA` | firmware/app/blackbox.c:37-50 | the checksum of the text "a" is E8B7BE43 |
| `BlackboxFormat.DamagedSectorIsRejected` | host_tools/openflightcomputer/blackbox.py:80-94 | a sealed sector damaged in any single byte, the checksum included, is rejected by firmware and host |
| `ReleaseGrid.FirstAfterIsUnique` | firmware/app/blackbox.c:521-551 | the release computed is the only grid point after now and at most one interval after it |
| `ReleaseGrid.DivisionFormIsFirst` | firmware/app/blackbox.c:521-551 | the division form lands on the first grid point after now, saturating at the end of the 64-bit clock |
| `ReleaseGrid.StepPast` | firmware/app/control_trace.c:117-133 | the do-while loop lands on the same point, saturation included |
| `ReleaseGrid.FormsAgree` | firmware/app/control_trace.c:117-133 | loop and division agree whenever the release had not been saturated before |
| `Scheduler.NoStarvation` | firmware/app/scheduler.c:42-95 | whatever the priorities, an enabled task that is due runs within the next 2 * count steps |
| `Scheduler.BatchInOrder` | firmware/app/scheduler.c:42-95 | a batch of n tasks takes n steps, runs each member exactly once in the strict order, and touches no other task |
| `Scheduler.PrecedesIsStrictTotal` | firmware/app/scheduler.c:57-67 | priority, release time and registration order form a strict total order |
| `Scheduler.StepRunsMostUrgent` | firmware/app/scheduler.c:42-95 | a step runs a task if and only if one may run, and then one with the lowest priority number, among those with the earliest release, and among those the first registered; the others and the rest of the batch are left alone |
| `Scheduler.ExecutionHasItsOutcome` | firmware/app/scheduler.c:97-122 | the times, overrun and missed releases an execution leaves |
| `Scheduler.ReleasesAreAccounted` | firmware/app/scheduler.c:97-122 | in every run, executions plus missed releases are the grid points passed since initialization, until a counter saturates |
| `Scheduler.NeverBeforeRelease` | firmware/app/scheduler.c:158-196 | no step of a run on a forward clock executes a task before its release |
| `Scheduler.ExecutionMovesRelease` | firmware/app/scheduler.c:97-122 | one execution moves the release to the first grid point after its finish |
| `Scheduler.StepKeepsReleases` | firmware/app/scheduler.c:158-196 | every step keeps the account of releases and runs nothing early |
| `Scheduler.TaskScheduler.Initialize` | firmware/app/scheduler.c:124-156 | every task starts on one grid origin with its counters at zero |
| `Scheduler.TaskScheduler.BuildReadyBatch` | firmware/app/scheduler.c:42-55 | the loop collects exactly the enabled tasks that are due |
| `Scheduler.TaskScheduler.SelectReadyTask` | firmware/app/scheduler.c:69-95 | the scan finds the first ready task in the order |
| `Scheduler.TaskScheduler.RecordExecution` | firmware/app/scheduler.c:97-122 | the counters, the durations and the next release after an execution |
| `Scheduler.TaskScheduler.RunOnce` | firmware/app/scheduler.c:158-196 | refines one scheduler step |
| `QuadMixer.ScaleIsLargest` | firmware/flight/control/quad_x_mixer.c:42-65 | the scale lies in [0, 1], fits the corrections between floor and full throttle, and no larger one up to 1 does |
| `QuadMixer.SaturatedIffInfeasible` | firmware/flight/control/quad_x_mixer.c:99-158 | saturation is reported exactly when the full corrections do not fit |
| `QuadMixer.ClampNeverActs` | firmware/flight/control/quad_x_mixer.c:99-158 | no motor is changed by the final clamp |
| `QuadMixer.MixIsDecoupled` | firmware/flight/control/quad_x_mixer.c:67-158 | the motors sum to the commanded collective, and projected on roll, pitch and yaw give the scaled correction of that axis and no other |
| `QuadMixer.MixerRefusesOnlyInvalid` | firmware/flight/control/quad_x_mixer.c:99-158 | the mixer refuses exactly invalid inputs |
| `QuadMixer.RunMixer` | firmware/flight/control/quad_x_mixer.c:99-158 | the loops over motors and axes compute the specified mix |
| `RateControl.PidKeeps` | firmware/flight/control/rate_pid.c:72-125 | integral and output stay within their limits, and the integral never moves further into an output that is already saturated |
| `RateControl.RatesKeep` | firmware/flight/control/rate_controller.c:120-192 | every path of the controller stays sound, corrections are always acceptable to the mixer, and a saturated mix freezes or clears the integrals |
| `RateLaw.UpdateObeys` | firmware/flight/control/rate_pid.c:72-125 | the control law: the proportional term is gain times error, the derivative term opposes the measured change at its rate, the integral takes in gain times error times time within its limit unless the output is driven further out by it, and the total is the sum of the published terms within the output limit |
| `RateLaw.LawDecides` | firmware/flight/control/rate_pid.c:72-125 | the law leaves nothing open: it admits one state and one output only |
| `RateLaw.LawSteers` | firmware/flight/control/rate_pid.c:72-125 | a further demand moves the proportional term by gain times the difference, the derivative never aids the measured change, and the integral moves toward the error, by exactly its gain inside the limits, and stands still only if switched off, at its limit or driven out |
| `RateLaw.PushesTowardDemand` | firmware/flight/control/rate_pid.c:72-125 | with an empty integral and an unchanged measurement the output has the sign of the error |
| `RateLaw.RatesObey` | firmware/flight/control/rate_controller.c:120-192 | which samples seed, repeat, update or break continuity, as equivalences; every updated axis obeys its law over the time between the samples, and what is seeded or lost otherwise |
| `RateLaw.DisabledLeavesNothing` | firmware/flight/control/rate_controller.c:120-192 | disabled control clears everything but the configuration; enabled control is that of the law |
| `RateControl.RunPid` | firmware/flight/control/rate_pid.c:72-125 | the step-by-step update computes the specified one, which obeys `RateLaw.UpdateObeys` |
| `RateControl.RateController.Process` | firmware/flight/control/rate_controller.c:120-192 | refines the disabled path, seeding, continuity, update and reset on failure |
| `ControlCore.EveryUpdateIsBounded` | firmware/flight/control/flight_control_core.c:165-258 | in every run with valid profiles: integrals and totals stay within the limits of their axis, totals within one; an accepted update commands motors in [armed idle, 1]; integrals are zero after every update that stops the motors or reaches the rate controller below the activation throttle; and none grows when the last accepted mix was saturated and continuity has held since |
| `ControlCore.CoreKeeps` | firmware/flight/control/flight_control_core.c:165-258 | one update keeps the core sound and its limits, tracks whether the last mix was saturated, and lists every reason for a refusal; the mixer is never one |
| `CoreLaw.UpdateFollowsLaw` | firmware/flight/control/flight_control_core.c:165-258 | when an update is accepted or waits, as equivalences over objective, sample and profile; and of every accepted one: the motors sum to four times the baseline, their torque on each axis is four times scale times the total the output publishes (zero when seeded or stopped), the totals obey the rate law for the rates asked for, and the baseline is that of the throttle |
| `CoreLaw.DesiredAsks` | firmware/flight/control/flight_control_core.c:82-148 | rates are asked for if and only if every axis can answer its mode: none, the one requested, or one that turns toward the requested angle, within the limit |
| `CoreLaw.AngleTurnsToward` | firmware/flight/control/flight_control_core.c:82-148 | an angle mode asks for a rate with the sign of the angle still to go |
| `CoreLaw.UnusableProfileIsRefused` | firmware/flight/control/flight_control_core.c:165-258 | a profile the mixer cannot use is refused whatever is asked |
| `ControlCore.FlightCore.Update` | firmware/flight/control/flight_control_core.c:165-258 | refines the update over fields, rates and mixer, the one of `CoreLaw.UpdateFollowsLaw` |
| `ControlCore.FlightCore.PrepareRates` | firmware/flight/control/flight_control_core.c:82-148 | the desired rates per axis mode, or the refusal |
| `GyroCalibration.CalibrationIsWellFounded` | firmware/flight/sensors/gyro_calibration.c:124-192 | in every run READY comes at one of the calls and rests on an unbroken stretch of calls up to that one, all valid, fresh and not before its start: the window is exactly the samples of the stretch newer than all before them, enough, in range and lasting the sample duration, with the variance in bounds and the bias within half a count of the mean and within the rate limit |
| `GyroCalibration.RunIsExplained` | firmware/flight/sensors/gyro_calibration.c:124-192 | at every moment of every run the window is what an unbroken stretch of calls has brought, and READY was earned at one call by such a stretch |
| `GyroOutcome.QuietRunIsReadyExactly` | firmware/flight/sensors/gyro_calibration.c:124-192 | new, fresh samples in range on a forward clock, the last of which makes the window complete, end in READY if and only if every axis deviates no more than the limit |
| `GyroOutcome.CallHasItsOutcome` | firmware/flight/sensors/gyro_calibration.c:124-192 | what each call does, decided by freshness, number, rate and time: repeat, restart, wait, collect, and READY if and only if the window is complete and quiet |
| `GyroOutcome.StartsSettling` | firmware/flight/sensors/gyro_calibration.c:62-79 | a calibration starts exactly with a valid configuration, and its raw limits are the nearest whole counts |
| `GyroCalibration.IntegerTestIsVariance` | firmware/flight/sensors/gyro_calibration.c:97-114 | the integer test over sums and squares holds exactly when the population variance is within the limit |
| `GyroCalibration.AverageIsNear` | firmware/flight/sensors/gyro_calibration.c:116-122 | the rounded average is within half a count of the mean and no larger than the samples were |
| `GyroCalibration.WindowGrowsOrRestarts` | firmware/flight/sensors/gyro_calibration.c:124-192 | in either phase a call extends the window only by a newer, fresh, in-range sample, the first one only after settling; otherwise it repeats or restarts |
| `GyroCalibration.ProcessKeeps` | firmware/flight/sensors/gyro_calibration.c:124-192 | every call keeps the sums equal to those of the window, and READY is only reached on a well-founded one |
| `GyroCalibration.SumsNeverOverflow` | firmware/flight/sensors/gyro_calibration.c:97-114 | with 16-bit samples no sum, product or difference of the test leaves 64 bits |
| `GyroCalibration.LimitFitsExactly` | firmware/flight/sensors/gyro_calibration.c:97-114 | the right-hand side of the test fits 64 bits for every permitted window exactly up to a raw deviation of 303,700 |
| `GyroCalibration.FlightLimitsFit` | firmware/flight/configuration/flight_configuration.c:237-242 | a valid flight configuration keeps the deviation far below that bound |
| `GyroCalibration.GyroCalibrator.ProcessSample` | firmware/flight/sensors/gyro_calibration.c:124-192 | refines one call over the in-place sums |
| `TakeoffLeveling.FadingIsPathIndependent` | firmware/flight/control/takeoff_leveling.c:84-159 | however the time since capture is split into samples, the offset is the captured one less rate times time, never past zero, and levelling completes exactly at the first positive-throttle sample where both are zero |
| `TakeoffLeveling.SplitsAgree` | firmware/flight/control/takeoff_leveling.c:84-159 | two ways of splitting the same time end in the same offsets and stage |
| `TakeoffLeveling.OffsetOnlyShrinks` | firmware/flight/control/takeoff_leveling.c:10-19 | offsets never grow and never change sign |
| `TakeoffLeveling.TargetStartsAtMeasured` | firmware/flight/control/takeoff_leveling.c:84-159 | the sample that captures sets the target to the measured attitude |
| `TakeoffLeveling.SampleHasItsOutcome` | firmware/flight/control/takeoff_leveling.c:84-159 | what one sample does in every stage: the measured attitude up to the first positive throttle, then the offset less rate times time, and nothing more once complete or disabled; which samples are refused |
| `TakeoffLeveling.ResetAndCompletion` | firmware/flight/control/takeoff_leveling.c:54-82 | a reset waits to capture exactly if levelling is enabled, a completion hands the target to the pilot |
| `TakeoffLeveling.TakeoffLeveler.ApplySample` | firmware/flight/control/takeoff_leveling.c:84-159 | refines one application |
| `ControlCurve.CurveInterpolates` | firmware/flight/control/control_curve.c:43-115 | the prepared cubic evaluates to the straight line between the surrounding points and meets each point |
| `ControlCurve.CurveNeverFalls` | firmware/flight/control/control_curve.c:43-115 | the curve is nondecreasing on [0, 1] |
| `ControlCurve.ShapingIsOddAndRising` | firmware/flight/control/control_input_shaping.c:80-101 | a shaped stick is defined on [-1, 1], odd, bounded by one and nondecreasing |
| `ControlCurve.SetpointBounded` | firmware/flight/control/control_input_shaping.c:103-147 | exactly which sticks give a setpoint, and that it stays within the configured throttle, angles and rate |
| `ControlCurve.SetpointFollowsSticks` | firmware/flight/control/control_input_shaping.c:103-147 | each stick drives its own output: angle, angle, rate and throttle are the shaped stick times the limit of that axis, and all zero at throttle rest |
| `ControlCurve.ShapeFollowsStick` | firmware/flight/control/control_input_shaping.c:80-101 | a stick is zero in its deadband and beyond it the curve at its share of the remaining travel, on the side it is moved to |
| `ControlCurve.CurveReachesCorners` | firmware/flight/control/control_curve.c:11-41 | an accepted curve is at rest for a stick at rest and full for a full stick, up to a millionth |
| `ControlCurve.ApplyAxis` | firmware/flight/control/control_input_shaping.c:80-101 | the prepared deadband, scale and segments give the shaped value of the configured stick, and nothing outside [-1, 1] |
| `ControlCurve.PrepareShaping` | firmware/flight/control/control_input_shaping.c:53-78 | a configuration is prepared exactly if it is valid |
| `ControlCurve.ShapeSticks` | firmware/flight/control/control_input_shaping.c:103-147 | a prepared configuration gives the specified setpoint for a stick sample |
| `ControlCurve.CheckCurve` | firmware/flight/control/control_curve.c:11-41 | the loop accepts exactly the valid curves |
| `ControlCurve.Prepare` | firmware/flight/control/control_curve.c:43-75 | the loop fills one segment per pair of neighbouring points |
| `ControlCurve.ApplyCurve` | firmware/flight/control/control_curve.c:77-115 | the search and the Horner steps compute the curve |
| `ControlTrace.RecordKeeps` | firmware/app/control_trace.c:204-241 | every sample keeps the ring sound: a running capture has a free slot, sequences are 1, 2, 3, ..., only the first record opens the capture, releases stay on the grid, and the sample that ends a capture is always stored |
| `ControlTrace.RecordAccounts` | firmware/app/control_trace.c:204-241 | every wanted sample is stored or counted as dropped, and dropped exactly when only the reserved slot is left and the sample does not end the capture |
| `ControlTrace.SampleHasItsOutcome` | firmware/app/control_trace.c:204-241 | which samples are wanted, stored, dropped or end the capture, decided by release time, difference to the sample before, lifecycle and free slots |
| `ControlTrace.RecordIsTheSample` | firmware/app/control_trace.c:135-202 | a record is the sample it was made of, without the motors and the saturation of a mix that does not count |
| `ControlTrace.EventsAreDifferences` | firmware/app/control_trace.c:79-115 | one event for each thing that differs from the previous sample, and only the opening event without one |
| `ControlTrace.ReleaseMovesExactly` | firmware/app/control_trace.c:117-133 | a due sample moves the release to the first grid point after it or to the end of the clock, and no other sample moves it |
| `ControlTrace.ReadsAreOldestFirst` | firmware/app/control_trace.c:255-295 | reading returns the oldest unread records in order, and dropping drops as many as asked for or none |
| `ControlTrace.OffRecordsNothing` | firmware/app/control_trace.c:204-241 | nothing is recorded while tracing is off |
| `ControlTrace.CaptureStartsExactly` | firmware/app/control_trace.c:45-69 | a capture starts exactly from OFF at another level, empty, with the next number and the interval of its level |
| `ControlTrace.TraceBuffer.StoreSample` | firmware/app/control_trace.c:204-241 | the ring of 64 slots refines recording |
| `ControlTrace.TraceBuffer.ObserveEvents` | firmware/app/control_trace.c:79-115 | the flags raised are exactly the differences to the previous sample |
| `ControlTrace.TraceBuffer.TakePeriodicSample` | firmware/app/control_trace.c:117-133 | a due sample moves the release time to the first grid point after it |
| `ControlTrace.TraceBuffer.KeepSample` | firmware/app/control_trace.c:204-241 | storing, refusing and stopping with one slot kept back |
| `ControlTrace.TraceBuffer.StartCapture` | firmware/app/control_trace.c:45-69 | a capture starts only from OFF, with everything but its number cleared |
| `ControlTrace.TraceBuffer.PeekRecords` | firmware/app/control_trace.c:255-285 | returns the oldest unread records in order, at most the capacity asked for |
| `ControlTrace.TraceBuffer.DiscardRecords` | firmware/app/control_trace.c:287-295 | drops exactly that many of the oldest records or refuses |
| `UsbTrace.HostSeesAPrefix` | firmware/app/usb_command_processor.c:28-63 | in every run of samples, commands and transport replies, the records in accepted read responses are, for each capture, a prefix of those stored, each once and in order, and every command is answered, failed or still waiting |
| `UsbTrace.RunKeeps` | firmware/app/usb_command_processor.c:1176-1214 | no step of a run takes back a delivered record or alters an ended capture |
| `UsbTrace.OfferHasItsOutcome` | firmware/app/usb_command_processor.c:28-63 | what an accepted, a busy and a failed write each leave: only acceptance moves the carried records to the host |
| `UsbTrace.CommandHasItsOutcome` | firmware/app/usb_command_processor.c:84-163 | what starting, stopping and reading do, and when a start is obeyed |
| `UsbTrace.TurnHasItsOutcome` | firmware/app/usb_command_processor.c:1176-1214 | a waiting response comes first; only without one a line is a command, refused or nothing |
| `UsbTrace.ReadsReachTheEnd` | firmware/app/usb_command_processor.c:135-163 | however often the transport is busy or fails, and whatever the records hold, as many accepted reads as there are unread records deliver a stopped capture to its last record |
| `UsbTrace.NextSequenceIsHonestWhenTheBatchFits` | firmware/app/usb_command_processor.c:135-163 | the sequence announced for the next read is that of the first record the next read finds, whatever is recorded in between, exactly when the complete response for the whole batch fits its buffer; four records always do, and five whose values print in at most eight characters |
| `TraceText.CarriesAllThatFit` | firmware/app/usb_control_trace_response.c:296-383 | a read response can always be built: it carries the largest number of waiting records with which its text is complete in 4096 bytes, at least four if so many wait, and all five if their values are ordinary |
| `TraceText.FittingIsLargest` | firmware/app/usb_control_trace_response.c:353-373 | the loop that stops at the first record without room finds that largest number |
| `TraceText.RecordFits` | firmware/app/usb_control_trace_response.c:113-238 | a formatted record never exceeds 877 characters, or 712 if its values print in at most eight, so that formatting never fails |
| `TraceText.RecordLength` | firmware/app/usb_control_trace_response.c:113-238 | bounds on the length of a record's text, given bounds on what its values print |
| `TraceText.HeaderLength` | firmware/app/usb_control_trace_response.c:333-352 | bounds on the response header for any request and trace |
| `TraceText.MilliIsNearest` | firmware/app/usb_control_trace_response.c:68-85 | a finite value is printed as the nearest integer to a thousand times it, unless it was clamped to 32 bits |
| `TraceText.SmallIsOrdinary` | firmware/app/usb_control_trace_response.c:68-85 | values below 10,000 in magnitude print in at most eight characters |
| `TraceText.Serialize` | firmware/app/usb_control_trace_response.c:353-383 | the loop builds that response text |
| `TraceOverflow.ShortReadMisleads` | firmware/app/usb_control_trace_response.c:353-373 | a run with five records of extreme values after which the response carries four and announces 6, and the next read begins with 5 |
| `UsbTrace.SendKeeps` | firmware/app/usb_command_processor.c:28-63 | an accepted, busy or failed write keeps the agreement between ring, waiting response and host |
| `UsbTrace.ExecuteKeeps` | firmware/app/usb_command_processor.c:84-163 | starting, stopping and reading keep that agreement |
| `UsbTrace.CommandProcessor.TrySendPendingResponse` | firmware/app/usb_command_processor.c:28-63 | the class refines one offer of the waiting response |
| `UsbTrace.CommandProcessor.BuildReadResponse` | firmware/app/usb_command_processor.c:135-163 | the class refines building a read response, text included |
| `UsbTrace.CommandProcessor.ProcessLine` | firmware/app/usb_command_processor.c:1176-1214 | the class refines one turn behind the pending-response gate |
| `BootloaderText.ScanDecimal` | firmware/bootloader/bootloader_protocol.c:36-53 | the loop parses exactly the numbers up to 32 bits |
| `BootloaderText.DecimalRoundTrip` | firmware/bootloader/bootloader_protocol.c:36-53 | a printed number is parsed back with the text behind it, exactly if it fits 32 bits |
| `BootloaderText.AppendDecimal` | firmware/bootloader/bootloader_protocol.c:108-125 | the reversing loops print the decimal text, or nothing if it does not fit |
| `BootloaderText.ScanHexWord` | firmware/bootloader/bootloader_protocol.c:69-85 | the loop parses exactly one to eight hexadecimal digits |
| `BootloaderText.HexWordRoundTrip` | host_tools/openflightcomputer/workflows/usb_flash.py:131-134 | the host's eight-digit checksum is parsed back |
| `BootloaderText.ScanHexBytes` | firmware/bootloader/bootloader_protocol.c:87-106 | the loop fills the buffer with exactly the bytes the digit pairs spell, or refuses |
| `BootloaderText.HexBytesRoundTrip` | host_tools/openflightcomputer/workflows/usb_flash.py:139-142 | the host's digit pairs are parsed back |
| `BootloaderFlash.ProgramStores` | firmware/bootloader/bootloader_flash.c:44-56 | distinct erased words all take their values, one program call each, if every call succeeds |
| `BootloaderFlash.ProgramTouches` | firmware/bootloader/bootloader_flash.c:44-56 | programming changes only the listed words, whatever the hardware answers |
| `BootloaderFlash.ProgramKeepsUntouched` | firmware/bootloader/bootloader_flash.c:44-56 | a word no call has gone to since the erase is still erased, whatever the hardware answers |
| `BootloaderFlash.WordsHoldData` | firmware/bootloader/bootloader_flash.c:44-56 | the padded words read back as the data |
| `BootloaderFlash.FlashMemory.EraseSectors` | firmware/bootloader/bootloader_flash.c:8-27 | unlock, erase and lock, with each failure |
| `BootloaderFlash.FlashMemory.WriteData` | firmware/bootloader/bootloader_flash.c:29-61 | the loop over words up to the first failure |
| `BootloaderFlash.FlashMemory.CommitMetadata` | firmware/bootloader/bootloader_flash.c:70-87 | the four metadata words with the magic last |
| `BootloaderFlash.FlashMemory.CheckApplication` | firmware/bootloader/bootloader_image.c:38-56 | computes whether metadata, vectors and checksum make a valid application |
| `BootloaderProtocol.CutBeforeMagicIsInvalid` | firmware/bootloader/bootloader_protocol.c:147-212 | after a BEGIN answered READY, power cut after any lines, replies and program calls: while no call has gone to the magic word, no valid application is found |
| `BootloaderProtocol.MagicIsLast` | firmware/bootloader/bootloader_protocol.c:192-212 | only END programs metadata, the magic word last, with everything received and the checksum of the flash right |
| `BootloaderProtocol.DataFills` | firmware/bootloader/bootloader_protocol.c:171-190 | a block that continues the image extends it by exactly its bytes, each word programmed once, exactly when the flash did not unlock or did everything asked of it |
| `BootloaderProtocol.SessionFills` | firmware/bootloader/bootloader_protocol.c:214-230 | from a BEGIN answered READY, through any lines but BEGIN and END on a flash that obeys: the image is what was acknowledged, every word of it was programmed once, and no metadata word |
| `BootloaderProtocol.RepeatedBlockIsProgrammedTwice` | firmware/bootloader/bootloader_flash.c:29-61 | a block refused only because the flash did not lock, sent again, is acknowledged with every one of its words programmed twice |
| `BootloaderProtocol.OtherDataIsRefused` | firmware/bootloader/bootloader_protocol.c:171-190 | any other DATA line changes nothing |
| `BootloaderProtocol.EndOverFilledImage` | firmware/bootloader/bootloader_protocol.c:192-212 | over a filled image END answers OK exactly when length, checksum and vectors are right and the flash unlocks; then the device holds payload and metadata, each word programmed once, and a valid application |
| `BootloaderProtocol.CommittedIsValid` | firmware/bootloader/bootloader_image.c:38-56 | a committed payload is a valid application exactly when it can be started and the announced checksum is its own |
| `BootloaderProtocol.BeginKeepsHonest` | firmware/bootloader/bootloader_protocol.c:147-169 | the flag that admits BOOT can be relied on after a BEGIN exactly if it was not set, or the erase never started, or it completed |
| `BootloaderProtocol.LineKeepsHonest` | firmware/bootloader/bootloader_protocol.c:214-230 | every other line keeps that flag truthful |
| `BootloaderProtocol.BootIsAdmittedExactly` | firmware/bootloader/bootloader_protocol.c:214-230 | a reset is asked for exactly by BOOT while the flag says there is a valid application |
| `BootloaderProtocol.LinesAreTold` | firmware/bootloader/bootloader_protocol.c:214-230 | which line reaches which command, with everything behind its name as arguments |
| `BootloaderProtocol.OtherLinesAreRefused` | firmware/bootloader/bootloader_protocol.c:214-230 | any other line changes nothing |
| `BootloaderProtocol.Bootloader.OnBegin` | firmware/bootloader/bootloader_protocol.c:147-169 | refines BEGIN |
| `BootloaderProtocol.Bootloader.OnData` | firmware/bootloader/bootloader_protocol.c:171-190 | refines DATA through parser, buffer and flash |
| `BootloaderProtocol.Bootloader.OnEnd` | firmware/bootloader/bootloader_protocol.c:192-212 | refines END |
| `BootloaderProtocol.Bootloader.OnLine` | firmware/bootloader/bootloader_protocol.c:214-230 | refines the choice of command |
| `BootloaderTransfer.StreamApplication` | host_tools/openflightcomputer/workflows/usb_flash.py:119-152 | the host's transfer: success always means a valid application with the payload's checksum; on working hardware it succeeds exactly for startable payloads of an allowed length, and then the image is the payload |
| `BootloaderTransfer.OkMeansVerified` | firmware/bootloader/bootloader_protocol.c:192-212 | OK means the flash itself was checked, whatever the hardware did before |
| `BootloaderTransfer.FailedEraseKeepsTheFlag` | firmware/bootloader/bootloader_protocol.c:147-169 | a concrete run after which BOOT would be admitted with no valid application in the flash |
| `BootloaderTransfer.RepeatedBlockHappens` | firmware/bootloader/bootloader_protocol.c:171-190 | a concrete run that programs words 0, 1, 0, 1 |
| `BootloaderTransfer.BeginLineIsRead` | host_tools/openflightcomputer/workflows/usb_flash.py:131-134 | the device reads out of the host's BEGIN line what was put into it |
| `BootloaderTransfer.DataLineIsRead` | host_tools/openflightcomputer/workflows/usb_flash.py:139-142 | the device reads out of the host's DATA line the offset and the bytes |

## Left out

- Floating point rounding, infinities and not-a-number: throttles, rates, attitudes and curves are reals. The mixer's
  results are stated before values at or below the stop threshold become zero.
- The microsecond clock's own 64-bit wrap-around: the scheduler's account of releases is stated for readings at least
  2^32 below that limit. A clock that runs backwards is modelled where the code looks for it.
- Hardware and transport: SPI, USB queues, DShot and its DMA, the SD driver, HAL calls, reset and jump. Their replies
  are arbitrary inputs; one sector write or one flash word write either happens or does not, and a failed sector write
  leaves the sector as it was.
- CRC-32 as a guard beyond a single damaged byte: nothing assumes that two different buffers have different checksums.
- Rendering: the other JSON responses, log text, names, the command line and serial discovery. Whether those responses
  could be built is an input.
- Fault records keep id, severity and occurrences; time stamps, context words, the source field and the notification
  callback are not modelled, nor is attaching a clock.
- Null and uninitialized pointers, except where a caller can meet them: an uninitialized motor gate, failsafe or arming
  state.
- Branches that cannot be taken are not given a body of their own but shown impossible: a refused fault transition, a
  stop command that cannot be created, a direction mapping that fails, a disabled task left in the ready batch.
- Several of the C structures are one record field of the class that owns them (`control` in `MotorControl`, `r` in
  `BlackboxRecorder`), so aliasing between their members is not modelled.
- The geometry of the card: fewer than 2^32 sectors, as 32-bit sector numbers require.
- Blackbox statistics (write times, deepest queue) and the predicate that asks whether a capture is due. Runs of the
  recorder ask for catalogue entries only while nothing is recorded, as the command processor enforces
  (firmware/app/usb_command_processor.c:236).
- The configuration codec, its migrations and defaults; a configuration is a value with a validity predicate. The checks
  of curve type and interpolation have one admissible value and are not modelled.
- The mixer's coefficient table is derived from the propeller layout on each use instead of being stored.
- Attitude, level calibration, manual easy behaviour, CRSF and the timing encoders: their results are arbitrary inputs.
- The control trace's counters of stored and read records are unbounded; the firmware's are 64-bit. Its command counters
  per kind (started, stopped, read, refused) are left out; the transport counters are modelled.
- Bootloader lines are texts without NUL characters, erasing is one step with an arbitrary outcome, and starting the
  application is not modelled. Only the streaming part of the host's update is; reading the ELF file is not part of this
  model.
- BlackboxKept.PowerCutAnywhere: earlier logs are claimed to stay only for runs that do not format the card, because
  formatting exists to forget them.
- BlackboxCycles.CyclesLoseNothing: formatting is excluded for the same reason.
- BlackboxTiming.RecordingEndsExactly: runs that finish the recording on demand are excluded, because they end it
  themselves; `BlackboxFooter.FinishOutcome` says how.
