/** InstanceManager: the engine's lifecycle state machine. The monitor thread, the wait handle
    and the sequence tasks become explicit steps: OnProconEnabled (the host's enable/disable
    callback), MonitorStep (one pass of the monitor loop after a wake) and CompleteTask (one
    submitted sequence body running to its end). The sleeps and watchdog kicks inside the
    sequence bodies are not modelled here. */
module Instance {

  datatype InstanceState = Setup | Stopped | Starting | Running | Stopping | Exception

  /** The three sequence bodies the manager submits: EngineSetup, EngineStartup, EngineShutdown. */
  datatype Sequence = EngineSetup | EngineStartup | EngineShutdown

  /** What one pass of the monitor switch does. */
  datatype Action =
    | LaunchSetup          // submit the setup sequence
    | LaunchStartup        // submit the startup sequence
    | LaunchShutdown       // submit the shutdown sequence
    | AcknowledgeShutdown  // tell the user a disable will wait for the startup to end
    | AcknowledgeStartup   // tell the user an enable will wait for the shutdown to end
    | ReportFatal          // report that the instance is in the exception state
    | Idle

  /** The monitor's switch on (State, ProconEnabled). It launches a sequence in exactly three
      pairs, acknowledges a change of mind in the two intermediate states, reports the
      exception state, and does nothing otherwise; Starting, Stopping and Exception never
      launch anything. */
  function MonitorAction(state: InstanceState, proconEnabled: bool): (r: Action)
    ensures r == LaunchSetup <==> state == Setup
    ensures r == LaunchStartup <==> state == Stopped && proconEnabled
    ensures r == LaunchShutdown <==> state == Running && !proconEnabled
    ensures r == AcknowledgeShutdown <==> state == Starting && !proconEnabled
    ensures r == AcknowledgeStartup <==> state == Stopping && proconEnabled
    ensures r == ReportFatal <==> state == Exception
    ensures state in {Starting, Stopping, Exception} ==> r !in {LaunchSetup, LaunchStartup, LaunchShutdown}
  {
    match state
    case Setup => LaunchSetup
    case Stopped => if proconEnabled then LaunchStartup else Idle
    case Starting => if !proconEnabled then AcknowledgeShutdown else Idle
    case Running => if !proconEnabled then LaunchShutdown else Idle
    case Stopping => if proconEnabled then AcknowledgeStartup else Idle
    case Exception => ReportFatal
  }

  class InstanceManager {
    /** The goal state: the last value given by the host's enable/disable callback. */
    var ProconEnabled: bool
    var State: InstanceState
    /** The monitor will evaluate its switch at its next step: its first pass, or
        _instanceMonitorWaitHandle has been set since its last pass. */
    var wakePending: bool
    /** The constructor submitted the monitor loop (StartInstanceMonitor did not throw). */
    const monitorStarted: bool
    /** The sequence bodies submitted and not yet finished, in submission order. */
    var inFlight: seq<Sequence>

    /** Starting and Stopping always have the body that ends them in flight; Setup has a setup
        body in flight or a monitor pass still due (right after construction it has only the
        latter) and nothing but setup bodies in flight; the exception state is exactly the one
        in which the monitor never started. */
    ghost predicate Valid()
      reads this
    {
      && (State == Exception <==> !monitorStarted)
      && (State == Exception ==> inFlight == [])
      && (State == Setup ==> wakePending || EngineSetup in inFlight)
      && (State == Setup ==> forall k :: 0 <= k < |inFlight| ==> inFlight[k] == EngineSetup)
      && (State == Starting ==> EngineStartup in inFlight)
      && (State == Stopping ==> EngineShutdown in inFlight)
    }

    /** `startFails` stands for StartInstanceMonitor throwing, the only way into Exception. */
    constructor (startFails: bool)
      ensures Valid()
      ensures State == if startFails then Exception else Setup
      ensures monitorStarted == !startFails && wakePending == !startFails
      ensures !ProconEnabled && inFlight == []
    {
      State := Setup;
      ProconEnabled := false;
      inFlight := [];
      if startFails {
        State := Exception;
        monitorStarted := false;
        wakePending := false;
      } else {
        monitorStarted := true;
        wakePending := true;
      }
    }

    method OnProconEnabled(pEnabled: bool)
      requires Valid()
      modifies this
      ensures Valid()
      ensures ProconEnabled == pEnabled && wakePending
      ensures State == old(State) && inFlight == old(inFlight)
    {
      ProconEnabled := pEnabled;
      wakePending := true;
    }

    method SetCurrentState(state: InstanceState)
      modifies this
      ensures State == state
      ensures ProconEnabled == old(ProconEnabled) && wakePending == old(wakePending) && inFlight == old(inFlight)
    {
      State := state;
    }

    /** Set the state and wake the monitor. */
    method SetTargetState(state: InstanceState)
      modifies this
      ensures State == state && wakePending
      ensures ProconEnabled == old(ProconEnabled) && inFlight == old(inFlight)
    {
      SetCurrentState(state);
      wakePending := true;
    }

    method RunSetupSequence()
      modifies this
      ensures State == Setup && inFlight == old(inFlight) + [EngineSetup]
      ensures ProconEnabled == old(ProconEnabled) && wakePending == old(wakePending)
    {
      SetCurrentState(Setup);
      inFlight := inFlight + [EngineSetup];
    }

    method RunStartupSequence()
      modifies this
      ensures State == Starting && inFlight == old(inFlight) + [EngineStartup]
      ensures ProconEnabled == old(ProconEnabled) && wakePending == old(wakePending)
    {
      SetCurrentState(Starting);
      inFlight := inFlight + [EngineStartup];
    }

    method RunShutdownSequence()
      modifies this
      ensures State == Stopping && inFlight == old(inFlight) + [EngineShutdown]
      ensures ProconEnabled == old(ProconEnabled) && wakePending == old(wakePending)
    {
      SetCurrentState(Stopping);
      inFlight := inFlight + [EngineShutdown];
    }

    /** One pass of the monitor loop, taken only when it is awake: act on the switch, then
        reset the wait handle and wait. `ran` is false while it waits or never started. */
    method MonitorStep() returns (ran: bool, action: Action)
      requires Valid()
      modifies this
      ensures Valid()
      ensures ran <==> monitorStarted && old(wakePending)
      ensures ProconEnabled == old(ProconEnabled)
      ensures !ran ==> State == old(State) && inFlight == old(inFlight) && wakePending == old(wakePending)
      ensures ran ==> action == MonitorAction(old(State), ProconEnabled) && !wakePending
      // Setup always submits setup again.
      ensures ran && old(State) == Setup ==> State == Setup && inFlight == old(inFlight) + [EngineSetup]
      ensures ran && old(State) == Stopped && ProconEnabled ==>
        State == Starting && inFlight == old(inFlight) + [EngineStartup]
      ensures ran && old(State) == Running && !ProconEnabled ==>
        State == Stopping && inFlight == old(inFlight) + [EngineShutdown]
      // Every other pair leaves the state and the submitted work as they were.
      ensures (ran && old(State) != Setup && !(old(State) == Stopped && ProconEnabled)
               && !(old(State) == Running && !ProconEnabled))
        ==> State == old(State) && inFlight == old(inFlight)
    {
      action := Idle;
      if !monitorStarted || !wakePending {
        return false, action;
      }
      action := MonitorAction(State, ProconEnabled);
      match action {
        case LaunchSetup => RunSetupSequence();
        case LaunchStartup => RunStartupSequence();
        case LaunchShutdown => RunShutdownSequence();
        case AcknowledgeShutdown =>
        case AcknowledgeStartup =>
        case ReportFatal =>
        case Idle =>
      }
      wakePending := false;
      ran := true;
    }

    /** The in-flight body at index `i` runs to its end (bodies may end in any order).
        Setup and shutdown declare Stopped; startup checks ProconEnabled once and declares
        Running only if it still holds, otherwise it runs the shutdown sequence. */
    method CompleteTask(i: nat) returns (result: bool)
      requires Valid()
      requires i < |inFlight|
      modifies this
      ensures Valid()
      ensures result
      ensures ProconEnabled == old(ProconEnabled)
      ensures var rest := old(inFlight[..i] + inFlight[i + 1..]);
        match old(inFlight[i])
        case EngineSetup => State == Stopped && inFlight == rest && wakePending
        case EngineShutdown => State == Stopped && inFlight == rest && wakePending
        case EngineStartup =>
          if old(ProconEnabled) then State == Running && inFlight == rest && wakePending
          else State == Stopping && inFlight == rest + [EngineShutdown] && wakePending == old(wakePending)
      // Running is declared only by a startup body that sees the flag still set.
      ensures State == Running <==> old(inFlight[i]) == EngineStartup && ProconEnabled
    {
      var task := inFlight[i];
      inFlight := inFlight[..i] + inFlight[i + 1..];
      match task {
        case EngineSetup => SetTargetState(Stopped);
        case EngineStartup =>
          if !ProconEnabled {
            RunShutdownSequence();
          } else {
            SetTargetState(Running);
          }
        case EngineShutdown => SetTargetState(Stopped);
      }
      result := true;
    }
  }

  /** From construction: setup ends in Stopped, enabling drives Starting then Running,
      disabling drives Stopping then Stopped. */
  method HappyPath() returns (states: seq<InstanceState>)
    ensures states == [Setup, Setup, Stopped, Starting, Running, Stopping, Stopped]
  {
    var m := new InstanceManager(false);
    states := [m.State];
    var ran, action := m.MonitorStep();
    states := states + [m.State];
    var result := m.CompleteTask(0);
    states := states + [m.State];
    m.OnProconEnabled(true);
    ran, action := m.MonitorStep();
    states := states + [m.State];
    result := m.CompleteTask(0);
    states := states + [m.State];
    m.OnProconEnabled(false);
    ran, action := m.MonitorStep();
    states := states + [m.State];
    result := m.CompleteTask(0);
    states := states + [m.State];
  }

  /** A disable seen by the startup body before it declares success sends the instance
      through Stopping to Stopped without ever reaching Running. */
  method CancelledStartup() returns (states: seq<InstanceState>, acknowledged: Action)
    ensures states == [Starting, Starting, Stopping, Stopped]
    ensures acknowledged == AcknowledgeShutdown
  {
    var m := new InstanceManager(false);
    var ran, action := m.MonitorStep();
    var result := m.CompleteTask(0);
    m.OnProconEnabled(true);
    ran, action := m.MonitorStep();
    states := [m.State];
    m.OnProconEnabled(false);
    ran, acknowledged := m.MonitorStep();
    states := states + [m.State];
    result := m.CompleteTask(0);
    states := states + [m.State];
    result := m.CompleteTask(0);
    states := states + [m.State];
  }

  /** Setup is not guaranteed to run once: a wake during Setup submits it again, and the
      late second setup body can then declare Stopped while a startup is in flight, after
      which the monitor submits a second startup. */
  method RepeatedSetup() returns (afterWake: seq<Sequence>, finally: seq<Sequence>, state: InstanceState)
    ensures afterWake == [EngineSetup, EngineSetup]
    ensures finally == [EngineStartup, EngineStartup] && state == Starting
  {
    var m := new InstanceManager(false);
    var ran, action := m.MonitorStep();
    m.OnProconEnabled(true);
    ran, action := m.MonitorStep();
    afterWake := m.inFlight;
    var result := m.CompleteTask(0);
    ran, action := m.MonitorStep();
    assert m.inFlight == [EngineSetup, EngineStartup];
    result := m.CompleteTask(0);
    ran, action := m.MonitorStep();
    finally := m.inFlight;
    state := m.State;
  }

  /** When the monitor never started, the instance stays in Exception whatever the host says. */
  method ExceptionIsTerminal(signal: bool) returns (ran: bool, state: InstanceState)
    ensures !ran && state == Exception
  {
    var m := new InstanceManager(true);
    m.OnProconEnabled(signal);
    var action;
    ran, action := m.MonitorStep();
    state := m.State;
  }
}
