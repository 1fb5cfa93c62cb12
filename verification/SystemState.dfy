/** The vehicle lifecycle machine. */
module SystemState {
  import opened Counters

  datatype State = Boot | Initializing | Disarmed | Armed | Failsafe | Fault

  datatype Event =
    | InitializationStarted
    | InitializationCompleted
    | ArmRequested
    | DisarmRequested
    | FailsafeDetected
    | FaultDetected

  datatype TransitionResult = TransitionOk | TransitionRejected

  /** The transition table; None is a rejected event. */
  function NextState(current: State, event: Event): (next: Option<State>) {
    if event == FaultDetected then
      if current != Fault then Some(Fault) else None
    else
      match (current, event)
      case (Boot, InitializationStarted) => Some(Initializing)
      case (Initializing, InitializationCompleted) => Some(Disarmed)
      case (Disarmed, ArmRequested) => Some(Armed)
      case (Armed, DisarmRequested) => Some(Disarmed)
      case (Armed, FailsafeDetected) => Some(Failsafe)
      case (Failsafe, DisarmRequested) => Some(Disarmed)
      case (_, _) => None
  }

  datatype Machine = Machine(current: State, previous: State, transitions: uint32, rejected: uint32)

  function HandleEvent(m: Machine, event: Event): (r: (Machine, TransitionResult)) {
    match NextState(m.current, event)
    case None => (m.(rejected := SaturatingIncrement(m.rejected)), TransitionRejected)
    case Some(next) =>
      (m.(previous := m.current, current := next, transitions := SaturatingIncrement(m.transitions)), TransitionOk)
  }

  function HandleAll(m: Machine, events: seq<Event>): (r: Machine)
    decreases |events|
  {
    if events == [] then m else HandleAll(HandleEvent(m, events[0]).0, events[1..])
  }

  /** Nothing leaves FAULT, a fault event always gets there, and without an arm event no run enters ARMED. */
  lemma {:induction false} LifecycleRun(m: Machine, events: seq<Event>)
    ensures m.current == Fault || FaultDetected in events ==> HandleAll(m, events).current == Fault
    ensures m.current != Armed && ArmRequested !in events ==> HandleAll(m, events).current != Armed
    decreases |events|
  {
    if events != [] {
      LifecycleRun(HandleEvent(m, events[0]).0, events[1..]);
      assert events == [events[0]] + events[1..];
    }
  }

  /** Each state is entered by its own steps only, any other event is refused, and the counters stop at their limit. */
  lemma EventHasItsOutcome(m: Machine, event: Event)
    ensures var (r, result) := HandleEvent(m, event);
            && (result == TransitionRejected <==> r.current == m.current)
            && (r.current == Fault <==> m.current == Fault || event == FaultDetected)
            && (r.current == Initializing <==>
                  || (m.current == Boot && event == InitializationStarted)
                  || (m.current == Initializing && event !in {InitializationCompleted, FaultDetected}))
            && (r.current == Armed <==>
                  || (m.current == Disarmed && event == ArmRequested)
                  || (m.current == Armed && event !in {DisarmRequested, FailsafeDetected, FaultDetected}))
            && (r.current == Failsafe <==>
                  || (m.current == Armed && event == FailsafeDetected)
                  || (m.current == Failsafe && event !in {DisarmRequested, FaultDetected}))
            && (r.current == Boot <==> m.current == Boot && event !in {InitializationStarted, FaultDetected})
            && (result == TransitionOk ==>
                  && r.previous == m.current && r.rejected == m.rejected
                  && r.transitions == Min(m.transitions + 1, UINT32_MAX))
            && (result == TransitionRejected ==> r == m.(rejected := Min(m.rejected + 1, UINT32_MAX)))
  {
  }

  class StateMachine {
    var current: State
    var previous: State
    var transitionCount: uint32
    var rejectedTransitionCount: uint32

    ghost function View(): (m: Machine)
      reads this
    {
      Machine(current, previous, transitionCount, rejectedTransitionCount)
    }

    constructor ()
      ensures View() == Machine(Boot, Boot, 0, 0)
    {
      current, previous := Boot, Boot;
      transitionCount, rejectedTransitionCount := 0, 0;
    }

    method Handle(event: Event) returns (result: TransitionResult)
      modifies this
      ensures (View(), result) == HandleEvent(old(View()), event)
    {
      var next := NextState(current, event);
      match next {
        case None =>
          rejectedTransitionCount := SaturatingIncrement(rejectedTransitionCount);
          return TransitionRejected;
        case Some(state) =>
          previous := current;
          current := state;
          transitionCount := SaturatingIncrement(transitionCount);
          return TransitionOk;
      }
    }
  }
}
