/** What the lifecycle promises: event order, end states, error
    propagation, and which cleanup runs. */
module LifecycleProperties {
  import opened Base
  import opened JarPath
  import opened RunnerCommand
  import opened Lifecycle

  /** Each state is announced under its own name. */
  lemma StateNamesDistinct(a: State, b: State)
    ensures StateName(a) == StateName(b) <==> a == b
  {
  }

  /** The error event and the state event are emitted under different
      names, so a listener of one never hears the other. */
  lemma EventNamesDistinct(a: Event, b: Event)
    ensures EventName(a) == EventName(b) <==> a.StateChanged? == b.StateChanged?
  {
  }

  /* ---------------------------------------------------------------------
     The error trail of a run, defined from the collaborators alone.
     --------------------------------------------------------------------- */

  /** The value of `o`, if any, as a sequence of length at most one. */
  function Listed<T>(o: Option<T>): seq<T> {
    if o.Some? then [o.value] else []
  }

  /** The error `start` catches once the jar is pushed and the stale
      runners are killed: what `proc.start` threw, else what a listener of
      the `online` announcement threw. */
  function LaunchError(env: StartEnv): Option<Error> {
    if env.procStart.outcome.Threw? then Some(env.procStart.outcome.error)
    else if env.onlineListener.Threw? then Some(env.onlineListener.error)
    else None
  }

  /** The error `start` catches once the path parsed: what the push threw,
      else the launch error. */
  function PushError(env: StartEnv): Option<Error> {
    if env.push.outcome.Threw? then Some(env.push.outcome.error) else LaunchError(env)
  }

  /** The error `start` catches, if any. */
  function CaughtError(path: string, env: StartEnv): Option<Error> {
    match ParseJarNameFromPath(path)
    case Failure(e) => Some(e)
    case Success(_) => PushError(env)
  }

  /** Whether the catch block finds the process alive and cleans up: only
      when `proc.start` returned and a listener of `online` threw. */
  predicate LaunchCleanup(env: StartEnv) {
    env.procStart.outcome.Returned? && env.onlineListener.Threw?
  }

  /** What the catch block throws: what `proc.stop()` threw during a
      cleanup, else the caught error. */
  function Rethrown(caught: Error, cleanup: bool, env: StartEnv): Error {
    if cleanup && env.cleanupStop.outcome.Threw? then env.cleanupStop.outcome.error else caught
  }

  /* ---------------------------------------------------------------------
     Errors carried by events.
     --------------------------------------------------------------------- */

  /** A state announcement carries no error. */
  lemma ErrorsAfterChange(events: seq<Event>, st: State)
    ensures Errors(events + [StateChanged(st)]) == Errors(events)
  {
    assert (events + [StateChanged(st)])[..|events|] == events;
  }

  /** An error event carries its error. */
  lemma ErrorsAfterError(events: seq<Event>, e: Error)
    ensures Errors(events + [UiAutomatorError(e)]) == Errors(events) + [e]
  {
    assert (events + [UiAutomatorError(e)])[..|events|] == events;
  }

  /** The exit handler announces a state and carries no error. */
  lemma ErrorsAfterAwait(s: Snapshot, exitFires: bool)
    ensures Errors(Await(s, exitFires).events) == Errors(s.events)
  {
    if exitFires && s.proc.Some? {
      ErrorsAfterChange(s.events, Stopped);
    }
  }

  /* ---------------------------------------------------------------------
     One lemma per stage of `start`, from the catch block outwards.
     --------------------------------------------------------------------- */

  /** The catch block: one error event, the caught error rethrown unless
      the cleanup's `proc.stop()` threw, and the cleanup calls only when
      the process is alive. */
  lemma CatchStage(s: Snapshot, e: Error, env: StartEnv, r: (Snapshot, Result<SubProcess>))
    requires s.processIsAlive ==> s.proc.Some?
    requires r == StartCatch(s, e, env)
    ensures r.1 == Failure(Rethrown(e, s.processIsAlive, env))
    ensures r.0.calls == s.calls +
      if s.processIsAlive then [KillProcessesByName(ProcessName), StopProcess(s.proc.value)] else []
    ensures Errors(r.0.events) == Errors(s.events) + [e]
    ensures WellFormed(s) ==> WellFormed(r.0)
  {
    var emitted := EmitError(s, e);
    ErrorsAfterError(s.events, e);
    if emitted.processIsAlive {
      var killed := KillOnDevice(emitted, env.cleanupKill);
      ErrorsAfterAwait(emitted, env.cleanupKill.exitFires);
      var stopping := killed.(calls := killed.calls + [StopProcess(killed.proc.value)]);
      ErrorsAfterAwait(stopping, env.cleanupStop.exitFires);
    }
  }

  /** `new SubProcess`, `proc.start` and the `online` announcement. */
  lemma LaunchStage(s: Snapshot, proc: SubProcess, env: StartEnv, r: (Snapshot, Result<SubProcess>))
    requires !s.processIsAlive
    requires r == StartProcessStep(s, proc, env)
    ensures r.1.Success? <==> LaunchError(env).None?
    ensures r.1.Success? ==>
      r.1.value == proc && r.0.state == Some(Online) && r.0.processIsAlive && r.0.proc == Some(proc) &&
      r.0.events != [] && r.0.events[|r.0.events| - 1] == StateChanged(Online)
    ensures r.1.Failure? ==> r.1.error == Rethrown(LaunchError(env).value, LaunchCleanup(env), env)
    ensures r.0.calls == s.calls + [StartProcess(proc)] +
      if LaunchCleanup(env) then [KillProcessesByName(ProcessName), StopProcess(proc)] else []
    ensures Errors(r.0.events) == Errors(s.events) + Listed(LaunchError(env))
    ensures WellFormed(s) ==> WellFormed(r.0)
  {
    var launching := s.(proc := Some(proc), calls := s.calls + [StartProcess(proc)]);
    var launched := Await(launching, env.procStart.exitFires);
    ErrorsAfterAwait(launching, env.procStart.exitFires);
    match env.procStart.outcome
    case Threw(e) =>
      CatchStage(launched, e, env, r);
    case Returned =>
      var online := ChangeState(launched.(processIsAlive := true), Online);
      ErrorsAfterChange(launched.events, Online);
      if env.onlineListener.Threw? {
        CatchStage(online, env.onlineListener.error, env, r);
      }
  }

  /** The push of the jar and the kill of stale runners, then the launch:
      how it ends. */
  lemma PushStage(s: Snapshot, path: string, jarName: string, className: string, extraParams: seq<string>,
                  env: StartEnv, r: (Snapshot, Result<SubProcess>))
    requires !s.processIsAlive
    requires r == StartPush(s, path, jarName, className, extraParams, env)
    ensures r.1.Success? <==> PushError(env).None?
    ensures r.1.Success? ==>
      var proc := SubProcess(env.adbPath, RunTestArgs(jarName, className, extraParams));
      r.1.value == proc && r.0.state == Some(Online) && r.0.processIsAlive && r.0.proc == Some(proc) &&
      r.0.events != [] && r.0.events[|r.0.events| - 1] == StateChanged(Online)
    ensures r.1.Failure? ==>
      r.1.error == Rethrown(PushError(env).value, env.push.outcome.Returned? && LaunchCleanup(env), env)
    ensures WellFormed(s) ==> WellFormed(r.0)
  {
    var pushed := Await(s.(calls := s.calls + [Push(path, TempPath)]), env.push.exitFires);
    match env.push.outcome
    case Threw(e) =>
      CatchStage(pushed, e, env, r);
    case Returned =>
      var proc := SubProcess(env.adbPath, RunTestArgs(jarName, className, extraParams));
      LaunchStage(KillOnDevice(pushed, env.preKill), proc, env, r);
  }

  /** The calls of the push stage: the push, then the kill and the launch. */
  lemma PushStageCalls(s: Snapshot, path: string, jarName: string, className: string, extraParams: seq<string>,
                       env: StartEnv, r: (Snapshot, Result<SubProcess>))
    requires !s.processIsAlive
    requires r == StartPush(s, path, jarName, className, extraParams, env)
    ensures r.0.calls == s.calls + CallTrail(Success(jarName), path, className, extraParams, env)
  {
    var pushed := Await(s.(calls := s.calls + [Push(path, TempPath)]), env.push.exitFires);
    match env.push.outcome
    case Threw(e) =>
      CatchStage(pushed, e, env, r);
    case Returned =>
      var killed := KillOnDevice(pushed, env.preKill);
      var proc := SubProcess(env.adbPath, RunTestArgs(jarName, className, extraParams));
      LaunchStage(killed, proc, env, r);
      var launch := [Push(path, TempPath), KillProcessesByName(ProcessName), StartProcess(proc)];
      var cleanup := if LaunchCleanup(env) then [KillProcessesByName(ProcessName), StopProcess(proc)] else [];
      AppendThree(s.calls, Push(path, TempPath), KillProcessesByName(ProcessName), StartProcess(proc));
      Associative(s.calls, launch, cleanup);
  }

  /** The error events of the push stage. */
  lemma PushStageErrors(s: Snapshot, path: string, jarName: string, className: string, extraParams: seq<string>,
                        env: StartEnv, r: (Snapshot, Result<SubProcess>))
    requires !s.processIsAlive
    requires r == StartPush(s, path, jarName, className, extraParams, env)
    ensures Errors(r.0.events) == Errors(s.events) + Listed(PushError(env))
  {
    var pushing := s.(calls := s.calls + [Push(path, TempPath)]);
    var pushed := Await(pushing, env.push.exitFires);
    ErrorsAfterAwait(pushing, env.push.exitFires);
    match env.push.outcome
    case Threw(e) =>
      CatchStage(pushed, e, env, r);
    case Returned =>
      var killed := KillOnDevice(pushed, env.preKill);
      ErrorsAfterAwait(pushed, env.preKill.exitFires);
      var proc := SubProcess(env.adbPath, RunTestArgs(jarName, className, extraParams));
      LaunchStage(killed, proc, env, r);
  }

  /* ---------------------------------------------------------------------
     `start` as a whole.
     --------------------------------------------------------------------- */

  /** `start` succeeds exactly when it catches nothing; it then ends
      `online` with the process alive and returns the subprocess it made
      from the adb path and the runtest arguments.  Otherwise it throws
      the caught error, or what the cleanup's `proc.stop()` threw. */
  lemma StartOutcome(s: Snapshot, path: string, className: string, extraParams: seq<string>,
                     env: StartEnv, r: (Snapshot, Result<SubProcess>))
    requires r == Start(s, path, className, extraParams, env)
    ensures r.1.Success? <==> CaughtError(path, env).None?
    ensures r.1.Success? ==>
      ParseJarNameFromPath(path).Success? &&
      r.1.value == SubProcess(env.adbPath, RunTestArgs(ParseJarNameFromPath(path).value, className, extraParams)) &&
      r.0.state == Some(Online) && r.0.processIsAlive && r.0.proc == Some(r.1.value) &&
      r.0.events != [] && r.0.events[|r.0.events| - 1] == StateChanged(Online)
    ensures r.1.Failure? ==>
      CaughtError(path, env).Some? &&
      r.1.error == Rethrown(CaughtError(path, env).value,
                            ParseJarNameFromPath(path).Success? && env.push.outcome.Returned? && LaunchCleanup(env),
                            env)
  {
    var starting := ChangeState(s.(processIsAlive := false), Starting);
    match ParseJarNameFromPath(path)
    case Failure(e) =>
      CatchStage(starting, e, env, r);
    case Success(jarName) =>
      PushStage(starting, path, jarName, className, extraParams, env, r);
  }

  /** `start` emits exactly one error event, carrying the error it caught,
      when it fails, and none when it succeeds; and it keeps `state` the
      state announced last. */
  lemma StartErrors(s: Snapshot, path: string, className: string, extraParams: seq<string>,
                    env: StartEnv, r: (Snapshot, Result<SubProcess>))
    requires r == Start(s, path, className, extraParams, env)
    ensures Errors(r.0.events) == Errors(s.events) + Listed(CaughtError(path, env))
    ensures WellFormed(s) ==> WellFormed(r.0)
  {
    var starting := ChangeState(s.(processIsAlive := false), Starting);
    ErrorsAfterChange(s.events, Starting);
    match ParseJarNameFromPath(path)
    case Failure(e) =>
      CatchStage(starting, e, env, r);
    case Success(jarName) =>
      PushStageErrors(starting, path, jarName, className, extraParams, env, r);
      PushStage(starting, path, jarName, className, extraParams, env, r);
  }

  /** The collaborator calls of one `start`, by how far it got: nothing
      after a failed parse, the push alone after a failed push, the push,
      the kill and `proc.start` after that; and when a listener of the
      `online` announcement throws, the catch block kills the runner on the
      device and stops the subprocess. */
  function CallTrail(parsed: Result<string>, path: string, className: string, extraParams: seq<string>,
                     env: StartEnv): seq<Call> {
    match parsed
    case Failure(_) => []
    case Success(jarName) =>
      if env.push.outcome.Threw? then [Push(path, TempPath)]
      else
        var p := SubProcess(env.adbPath, RunTestArgs(jarName, className, extraParams));
        [Push(path, TempPath), KillProcessesByName(ProcessName), StartProcess(p)] +
        if LaunchCleanup(env) then [KillProcessesByName(ProcessName), StopProcess(p)] else []
  }

  /** `start` appends exactly its call trail, given how the parse of its
      path ended, to the calls made so far. */
  lemma StartCalls(s: Snapshot, path: string, className: string, extraParams: seq<string>,
                   env: StartEnv, r: (Snapshot, Result<SubProcess>))
    requires r == Start(s, path, className, extraParams, env)
    ensures r.0.calls == s.calls + CallTrail(ParseJarNameFromPath(path), path, className, extraParams, env)
  {
    var starting := ChangeState(s.(processIsAlive := false), Starting);
    match ParseJarNameFromPath(path)
    case Failure(e) =>
      CatchStage(starting, e, env, r);
    case Success(jarName) =>
      PushStageCalls(starting, path, jarName, className, extraParams, env, r);
  }

  /** The trail holds a stop exactly when the catch block found the process
      alive. */
  lemma TrailStops(parsed: Result<string>, path: string, className: string, extraParams: seq<string>,
                   env: StartEnv)
    ensures (exists c :: c in CallTrail(parsed, path, className, extraParams, env) && c.StopProcess?) <==>
      parsed.Success? && env.push.outcome.Returned? && LaunchCleanup(env)
  {
    var trail := CallTrail(parsed, path, className, extraParams, env);
    if parsed.Success? && env.push.outcome.Returned? && LaunchCleanup(env) {
      assert trail[4].StopProcess? && trail[4] in trail;
    }
  }

  /** `start` stops the subprocess only from its catch block, and only when
      the process was alive there: the parse, the push and `proc.start`
      returned and a listener of the `online` announcement threw. */
  lemma StartCleanupOnlyWhenAlive(s: Snapshot, path: string, className: string, extraParams: seq<string>,
                                  env: StartEnv, r: (Snapshot, Result<SubProcess>))
    requires r == Start(s, path, className, extraParams, env)
    ensures s.calls <= r.0.calls
    ensures (exists k :: |s.calls| <= k < |r.0.calls| && r.0.calls[k].StopProcess?) <==>
      ParseJarNameFromPath(path).Success? && env.push.outcome.Returned? && LaunchCleanup(env)
  {
    StartCalls(s, path, className, extraParams, env, r);
    StopsInTail(s.calls, CallTrail(ParseJarNameFromPath(path), path, className, extraParams, env), r.0.calls);
    TrailStops(ParseJarNameFromPath(path), path, className, extraParams, env);
  }

  /** A stop among the calls appended to `before` is a stop in `tail`. */
  lemma StopsInTail(before: seq<Call>, tail: seq<Call>, calls: seq<Call>)
    requires calls == before + tail
    ensures before <= calls
    ensures (exists k :: |before| <= k < |calls| && calls[k].StopProcess?) <==>
            (exists c :: c in tail && c.StopProcess?)
  {
    if k :| |before| <= k < |calls| && calls[k].StopProcess? {
      assert tail[k - |before|] == calls[k];
    }
    if c :| c in tail && c.StopProcess? {
      var k :| 0 <= k < |tail| && tail[k] == c;
      assert calls[|before| + k] == tail[k];
    }
  }

  /** When every step returns and the subprocess does not exit, `start`
      announces `starting` then `online`, pushes, kills stale runners and
      starts the subprocess, in that order; a failed kill only adds a
      warning. */
  lemma StartHappyPath(s: Snapshot, path: string, jarName: string, className: string,
                       extraParams: seq<string>, env: StartEnv, r: (Snapshot, Result<SubProcess>))
    requires ParseJarNameFromPath(path) == Success(jarName)
    requires env.push == Step(Returned, false) && !env.preKill.exitFires
    requires env.procStart == Step(Returned, false) && env.onlineListener == Returned
    requires r == Start(s, path, className, extraParams, env)
    ensures r.1 == Success(SubProcess(env.adbPath, RunTestArgs(jarName, className, extraParams)))
    ensures r.0.state == Some(Online) && r.0.processIsAlive && r.0.proc == Some(r.1.value)
    ensures r.0.events == s.events + [StateChanged(Starting), StateChanged(Online)]
    ensures r.0.calls == s.calls + [Push(path, TempPath), KillProcessesByName(ProcessName), StartProcess(r.1.value)]
    ensures r.0.log == s.log + if env.preKill.outcome.Threw? then [KillWarning] else []
  {
    var starting := ChangeState(s.(processIsAlive := false), Starting);
    var pushed := starting.(calls := starting.calls + [Push(path, TempPath)]);
    var killed := KillOnDevice(pushed, env.preKill);
    var proc := SubProcess(env.adbPath, RunTestArgs(jarName, className, extraParams));
    assert r == StartProcessStep(killed, proc, env);
    CleanLaunch(killed, proc, env, r);
    AppendThree(s.calls, Push(path, TempPath), KillProcessesByName(ProcessName), StartProcess(proc));
  }

  /** Sequence concatenation regroups. */
  lemma Associative<T>(a: seq<T>, b: seq<T>, c: seq<T>)
    ensures a + (b + c) == (a + b) + c
  {
  }

  /** Three appends in a row are one append of three. */
  lemma AppendThree<T>(a: seq<T>, x: T, y: T, z: T)
    ensures a + [x] + [y] + [z] == a + [x, y, z]
  {
  }

  /** The launch stage when `proc.start` returns, the subprocess stays up
      and the `online` listeners return. */
  lemma CleanLaunch(s: Snapshot, proc: SubProcess, env: StartEnv, r: (Snapshot, Result<SubProcess>))
    requires !s.processIsAlive
    requires env.procStart == Step(Returned, false) && env.onlineListener == Returned
    requires r == StartProcessStep(s, proc, env)
    ensures r.1 == Success(proc)
    ensures r.0 == Snapshot(Some(Online), Some(proc), true, s.events + [StateChanged(Online)], s.log,
                            s.calls + [StartProcess(proc)])
  {
  }

  /** A path the pattern does not match: `starting`, then the error event,
      and the parse error rethrown; nothing is pushed, killed or stopped. */
  lemma StartParseFailure(s: Snapshot, path: string, className: string, extraParams: seq<string>,
                          env: StartEnv, r: (Snapshot, Result<SubProcess>))
    requires ParseJarNameFromPath(path).Failure?
    requires r == Start(s, path, className, extraParams, env)
    ensures r.1 == Failure(ParseError(path))
    ensures r.0.state == Some(Starting) && !r.0.processIsAlive
    ensures r.0.events == s.events + [StateChanged(Starting), UiAutomatorError(ParseError(path))]
    ensures r.0.calls == s.calls && r.0.log == s.log && r.0.proc == s.proc
  {
  }

  /** A failed push: `starting`, then the error event, and the push error
      rethrown; `state` stays `starting` and no kill or stop runs. */
  lemma StartPushFailure(s: Snapshot, path: string, className: string, extraParams: seq<string>,
                         env: StartEnv, e: Error, r: (Snapshot, Result<SubProcess>))
    requires ParseJarNameFromPath(path).Success?
    requires env.push == Step(Threw(e), false)
    requires r == Start(s, path, className, extraParams, env)
    ensures r.1 == Failure(e)
    ensures r.0.state == Some(Starting) && !r.0.processIsAlive
    ensures r.0.events == s.events + [StateChanged(Starting), UiAutomatorError(e)]
    ensures r.0.calls == s.calls + [Push(path, TempPath)] && r.0.log == s.log
  {
  }

  /** A `proc.start` that throws, with no exit before it: `starting`, then
      the error event, and the launch error rethrown; the process was never
      alive, so `state` stays `starting` and no cleanup runs. */
  lemma StartLaunchFailure(s: Snapshot, path: string, jarName: string, className: string,
                           extraParams: seq<string>, env: StartEnv, e: Error, r: (Snapshot, Result<SubProcess>))
    requires ParseJarNameFromPath(path) == Success(jarName)
    requires env.push == Step(Returned, false) && !env.preKill.exitFires
    requires env.procStart == Step(Threw(e), false)
    requires r == Start(s, path, className, extraParams, env)
    ensures r.1 == Failure(e)
    ensures r.0.state == Some(Starting) && !r.0.processIsAlive
    ensures r.0.events == s.events + [StateChanged(Starting), UiAutomatorError(e)]
    ensures var p := SubProcess(env.adbPath, RunTestArgs(jarName, className, extraParams));
      r.0.calls == s.calls + [Push(path, TempPath), KillProcessesByName(ProcessName), StartProcess(p)] &&
      r.0.proc == Some(p)
  {
    var starting := ChangeState(s.(processIsAlive := false), Starting);
    var pushed := starting.(calls := starting.calls + [Push(path, TempPath)]);
    var killed := KillOnDevice(pushed, env.preKill);
    var proc := SubProcess(env.adbPath, RunTestArgs(jarName, className, extraParams));
    assert r == StartProcessStep(killed, proc, env);
    var launched := killed.(proc := Some(proc), calls := killed.calls + [StartProcess(proc)]);
    assert r == StartCatch(launched, e, env);
    AppendThree(s.calls, Push(path, TempPath), KillProcessesByName(ProcessName), StartProcess(proc));
  }

  /* ---------------------------------------------------------------------
     `shutdown`.
     --------------------------------------------------------------------- */

  /** A `shutdown` whose `proc.stop()` returns: `stopping`, the stop, the
      kill, then `stopped`.  When the subprocess exits during the stop or
      the kill, its exit handler logs a normal shutdown and announces
      `stopped` once more before `shutdown` does; a failed kill only adds a
      warning. */
  lemma ShutdownCompletes(s: Snapshot, env: ShutdownEnv, r: (Snapshot, Outcome))
    requires s.proc.Some? && env.stop.outcome.Returned?
    requires r == Shutdown(s, env)
    ensures r.1 == Returned && r.0.state == Some(Stopped)
    ensures r.0.events == s.events + [StateChanged(Stopping)] +
      (if env.stop.exitFires then [StateChanged(Stopped)] else []) +
      (if env.kill.exitFires then [StateChanged(Stopped)] else []) +
      [StateChanged(Stopped)]
    ensures r.0.log == s.log +
      (if env.stop.exitFires || env.kill.exitFires then [NormalShutdown] else []) +
      (if env.kill.outcome.Threw? then [KillWarning] else [])
    ensures r.0.calls == s.calls + [StopProcess(s.proc.value), KillProcessesByName(ProcessName)]
    ensures r.0.processIsAlive <==> s.processIsAlive && !env.stop.exitFires && !env.kill.exitFires
    ensures r.0.proc == s.proc
  {
    var stopping := ChangeState(s, Stopping);
    var stopped := Await(stopping.(calls := stopping.calls + [StopProcess(s.proc.value)]), env.stop.exitFires);
    var killed := KillOnDevice(stopped, env.kill);
    assert r.0 == ChangeState(killed, Stopped);
  }

  /** A `shutdown` whose `proc.stop()` throws: the error escapes, nothing is
      killed, and `state` stays `stopping` unless the subprocess exited
      meanwhile. */
  lemma ShutdownStopFails(s: Snapshot, env: ShutdownEnv, e: Error, r: (Snapshot, Outcome))
    requires s.proc.Some? && env.stop.outcome == Threw(e)
    requires r == Shutdown(s, env)
    ensures r.1 == Threw(e)
    ensures r.0.state == Some(if env.stop.exitFires then Stopped else Stopping)
    ensures r.0.events == s.events + [StateChanged(Stopping)] +
      if env.stop.exitFires then [StateChanged(Stopped)] else []
    ensures r.0.calls == s.calls + [StopProcess(s.proc.value)]
  {
  }

  /** A `shutdown` before any `start` made a subprocess: `stopping` is
      announced, then `this.proc.stop()` throws a TypeError; nothing is
      called. */
  lemma ShutdownWithoutProcess(s: Snapshot, env: ShutdownEnv, r: (Snapshot, Outcome))
    requires s.proc.None?
    requires r == Shutdown(s, env)
    ensures r.1 == Threw(ProcUndefined)
    ensures r.0.state == Some(Stopping) && r.0.events == s.events + [StateChanged(Stopping)]
    ensures r.0.calls == s.calls && r.0.log == s.log
  {
  }

  /** `shutdown` emits no error event and keeps `state` the state
      announced last. */
  lemma ShutdownErrors(s: Snapshot, env: ShutdownEnv, r: (Snapshot, Outcome))
    requires r == Shutdown(s, env)
    ensures Errors(r.0.events) == Errors(s.events)
    ensures WellFormed(s) ==> WellFormed(r.0)
  {
    var stopping := ChangeState(s, Stopping);
    ErrorsAfterChange(s.events, Stopping);
    if s.proc.Some? {
      var stopCalled := stopping.(calls := stopping.calls + [StopProcess(s.proc.value)]);
      ErrorsAfterAwait(stopCalled, env.stop.exitFires);
      if env.stop.outcome.Returned? {
        var stopped := Await(stopCalled, env.stop.exitFires);
        ErrorsAfterAwait(stopped, env.kill.exitFires);
        ErrorsAfterChange(KillOnDevice(stopped, env.kill).events, Stopped);
      }
    }
  }
}
