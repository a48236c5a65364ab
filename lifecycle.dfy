/**
  The lifecycle of `UiAutomator` as functions on a snapshot of its state.

  A snapshot holds what the object changes: `state` (unset until the first
  transition, since the constructor never assigns it), the subprocess
  `proc`, the `processIsAlive` flag of the running `start`, the events
  emitted so far, the log entries written so far, and the calls made to the
  device and to the subprocess.  Every `await` of the source is a `Step`: the
  collaborator either returns or throws, and the subprocess may exit while
  the caller waits, which runs the exit handler at that point.
*/
module Lifecycle {
  import opened Base
  import opened JarPath
  import opened RunnerCommand

  /** `UiAutomator.STATE_*`. */
  datatype State = Stopped | Starting | Online | Stopping

  /** The string each state is announced as. */
  function StateName(s: State): string {
    match s
    case Stopped => "stopped"
    case Starting => "starting"
    case Online => "online"
    case Stopping => "stopping"
  }

  /** `UiAutomator.EVENT_ERROR` and `UiAutomator.EVENT_CHANGED`. */
  const EventError: string := "uiautomator_error"
  const EventChanged: string := "stateChanged"

  /** The device directory the jar is pushed to. */
  const TempPath: string := "/data/local/tmp/"

  /** The process name `killUiAutomatorOnDevice` kills. */
  const ProcessName: string := "uiautomator"

  /** An emitted event: `stateChanged` with `{state}`, or the error event
      with the error `start` caught. */
  datatype Event = StateChanged(state: State) | UiAutomatorError(error: Error)

  function EventName(e: Event): string {
    match e
    case StateChanged(_) => EventChanged
    case UiAutomatorError(_) => EventError
  }

  /** The log lines the lifecycle writes, by kind. */
  datatype LogTag = UnexpectedExit | NormalShutdown | KillWarning

  /** A `SubProcess` of teen_process, by the command and arguments it runs. */
  datatype SubProcess = SubProcess(command: string, args: seq<string>)

  /** The collaborator calls the lifecycle makes, in order. */
  datatype Call =
    | Push(localPath: string, remotePath: string)
    | KillProcessesByName(name: string)
    | StartProcess(proc: SubProcess)
    | StopProcess(proc: SubProcess)

  /** How an awaited call ends. */
  datatype Outcome = Returned | Threw(error: Error)

  /** One `await`: how the call ends, and whether the subprocess exits (and
      its exit handler runs) while it is awaited. */
  datatype Step = Step(outcome: Outcome, exitFires: bool)

  /** What the collaborators do during one `start`.  `adbPath` is what
      `adb.getAdbPath()` returns; `onlineListener` is whether the listeners
      of the `online` announcement return or one of them throws. */
  datatype StartEnv = StartEnv(
    push: Step,
    preKill: Step,
    adbPath: string,
    procStart: Step,
    onlineListener: Outcome,
    cleanupKill: Step,
    cleanupStop: Step)

  /** What the collaborators do during one `shutdown`. */
  datatype ShutdownEnv = ShutdownEnv(stop: Step, kill: Step)

  datatype Snapshot = Snapshot(
    state: Option<State>,
    proc: Option<SubProcess>,
    processIsAlive: bool,
    events: seq<Event>,
    log: seq<LogTag>,
    calls: seq<Call>)

  /** The state carried by the last `stateChanged` event, if any. */
  function LastState(events: seq<Event>): Option<State> {
    if events == [] then None
    else match events[|events| - 1]
      case StateChanged(st) => Some(st)
      case UiAutomatorError(_) => LastState(events[..|events| - 1])
  }

  /** The errors carried by the error events, in order. */
  function Errors(events: seq<Event>): seq<Error> {
    if events == [] then []
    else match events[|events| - 1]
      case StateChanged(_) => Errors(events[..|events| - 1])
      case UiAutomatorError(e) => Errors(events[..|events| - 1]) + [e]
  }

  /** What holds of every snapshot the lifecycle reaches: `state` is the
      state announced last (unset before any announcement), and the process
      is only ever alive once there is one. */
  predicate WellFormed(s: Snapshot) {
    s.state == LastState(s.events) && (s.processIsAlive ==> s.proc.Some?)
  }

  function Initial(): (s: Snapshot)
    ensures WellFormed(s) && s.state.None?
  {
    Snapshot(None, None, false, [], [], [])
  }

  /** `changeState(st)`. */
  function ChangeState(s: Snapshot, st: State): (r: Snapshot)
    ensures r.state == Some(st) && r.events == s.events + [StateChanged(st)]
    ensures r.(state := s.state, events := s.events) == s
    ensures WellFormed(s) ==> WellFormed(r)
  {
    s.(state := Some(st), events := s.events + [StateChanged(st)])
  }

  /** The error event `start` emits in its catch block. */
  function EmitError(s: Snapshot, e: Error): (r: Snapshot)
    ensures r.events == s.events + [UiAutomatorError(e)]
    ensures r.(events := s.events) == s
    ensures WellFormed(s) ==> WellFormed(r)
  {
    assert (s.events + [UiAutomatorError(e)])[..|s.events|] == s.events;
    s.(events := s.events + [UiAutomatorError(e)])
  }

  /** The exit handler `start` registers on the subprocess. */
  function Exit(s: Snapshot): (r: Snapshot)
    ensures r.state == Some(Stopped) && !r.processIsAlive
    ensures r.events == s.events + [StateChanged(Stopped)]
    ensures r.log == s.log + [UnexpectedExit] <==>
      s.state != Some(Stopped) && s.state != Some(Stopping)
    ensures r.log == s.log + [NormalShutdown] <==> s.state == Some(Stopping)
    ensures r.log == s.log <==> s.state == Some(Stopped)
    ensures r.proc == s.proc && r.calls == s.calls
    ensures WellFormed(s) ==> WellFormed(r)
  {
    var logged :=
      if s.state != Some(Stopped) && s.state != Some(Stopping) then s.log + [UnexpectedExit]
      else if s.state == Some(Stopping) then s.log + [NormalShutdown]
      else s.log;
    assert (s.log + [UnexpectedExit])[|s.log|] == UnexpectedExit;
    assert (s.log + [NormalShutdown])[|s.log|] == NormalShutdown;
    ChangeState(s.(processIsAlive := false, log := logged), Stopped)
  }

  /** The end of an `await`: the exit handler runs if the subprocess exits
      meanwhile.  A handler exists only once a subprocess has been made. */
  function Await(s: Snapshot, exitFires: bool): (r: Snapshot)
    ensures r.calls == s.calls && r.proc == s.proc
    ensures !(exitFires && s.proc.Some?) ==> r == s
    ensures exitFires && s.proc.Some? ==> r == Exit(s)
    ensures exitFires && s.proc.Some? ==> r.state == Some(Stopped) && !r.processIsAlive
    ensures WellFormed(s) ==> WellFormed(r)
  {
    if exitFires && s.proc.Some? then Exit(s) else s
  }

  /** `killUiAutomatorOnDevice`: a failure of the kill only adds a warning. */
  function KillOnDevice(s: Snapshot, step: Step): (r: Snapshot)
    ensures r.calls == s.calls + [KillProcessesByName(ProcessName)]
    ensures r.log == Await(s, step.exitFires).log + if step.outcome.Threw? then [KillWarning] else []
    ensures r.events == Await(s, step.exitFires).events && r.state == Await(s, step.exitFires).state
    ensures r.proc == s.proc && r.processIsAlive == Await(s, step.exitFires).processIsAlive
    ensures WellFormed(s) ==> WellFormed(r)
  {
    var called := s.(calls := s.calls + [KillProcessesByName(ProcessName)]);
    var waited := Await(called, step.exitFires);
    if step.outcome.Threw? then waited.(log := waited.log + [KillWarning]) else waited
  }

  /** The catch block of `start`: emit the error, clean up if the process
      was alive, and rethrow (or throw what `proc.stop()` threw). */
  function StartCatch(s: Snapshot, e: Error, env: StartEnv): (r: (Snapshot, Result<SubProcess>))
    requires s.processIsAlive ==> s.proc.Some?
  {
    var emitted := EmitError(s, e);
    if !emitted.processIsAlive then (emitted, Failure(e))
    else
      var killed := KillOnDevice(emitted, env.cleanupKill);
      var stopping := killed.(calls := killed.calls + [StopProcess(killed.proc.value)]);
      var stopped := Await(stopping, env.cleanupStop.exitFires);
      match env.cleanupStop.outcome
      case Threw(stopError) => (stopped, Failure(stopError))
      case Returned => (stopped, Failure(e))
  }

  /** `start(binaryPath, className, startDetector, ...extraParams)`: the
      `starting` announcement, then the parse. */
  function Start(s: Snapshot, binaryPath: string, className: string, extraParams: seq<string>, env: StartEnv): (r: (Snapshot, Result<SubProcess>))
  {
    var starting := ChangeState(s.(processIsAlive := false), Starting);
    match ParseJarNameFromPath(binaryPath)
    case Failure(e) => StartCatch(starting, e, env)
    case Success(jarName) => StartPush(starting, binaryPath, jarName, className, extraParams, env)
  }

  /** The push of the jar to `TempPath`. */
  function StartPush(s: Snapshot, binaryPath: string, jarName: string, className: string, extraParams: seq<string>, env: StartEnv): (r: (Snapshot, Result<SubProcess>))
    requires !s.processIsAlive
  {
    var pushing := s.(calls := s.calls + [Push(binaryPath, TempPath)]);
    var pushed := Await(pushing, env.push.exitFires);
    match env.push.outcome
    case Threw(e) => StartCatch(pushed, e, env)
    case Returned =>
      var killed := KillOnDevice(pushed, env.preKill);
      var proc := SubProcess(env.adbPath, RunTestArgs(jarName, className, extraParams));
      StartProcessStep(killed, proc, env)
  }

  /** The new subprocess and `proc.start(startDetector)`, then `online`. */
  function StartProcessStep(s: Snapshot, proc: SubProcess, env: StartEnv): (r: (Snapshot, Result<SubProcess>))
    requires !s.processIsAlive
  {
    var launching := s.(proc := Some(proc), calls := s.calls + [StartProcess(proc)]);
    var launched := Await(launching, env.procStart.exitFires);
    match env.procStart.outcome
    case Threw(e) => StartCatch(launched, e, env)
    case Returned =>
      var online := ChangeState(launched.(processIsAlive := true), Online);
      match env.onlineListener
      case Threw(e) => StartCatch(online, e, env)
      case Returned => (online, Success(proc))
  }

  /** What `shutdown` throws when no `start` ever made a subprocess:
      `this.proc` is undefined and `this.proc.stop()` is a TypeError. */
  const ProcUndefined: Error := Error("Cannot read properties of undefined (reading 'stop')")

  /** `shutdown()`. */
  function Shutdown(s: Snapshot, env: ShutdownEnv): (r: (Snapshot, Outcome))
  {
    var stopping := ChangeState(s, Stopping);
    match stopping.proc
    case None => (stopping, Threw(ProcUndefined))
    case Some(proc) =>
      var stopCalled := stopping.(calls := stopping.calls + [StopProcess(proc)]);
      var stopped := Await(stopCalled, env.stop.exitFires);
      match env.stop.outcome
      case Threw(e) => (stopped, Threw(e))
      case Returned =>
        var killed := KillOnDevice(stopped, env.kill);
        (ChangeState(killed, Stopped), Returned)
  }
}
