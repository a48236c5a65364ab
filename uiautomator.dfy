/**
  The `UiAutomator` object: one instance drives one UiAutomator test runner
  on one device.  Each method changes the object the way the matching
  function of `Lifecycle` changes a snapshot.
*/
module Automator {
  import opened Base
  import opened JarPath
  import opened RunnerCommand
  import opened Lifecycle

  /** The adb driver the object is built around; its calls are recorded in
      `calls`, so the model needs none of its contents. */
  datatype Adb = Adb

  /** What the constructor throws without an adb driver. */
  const AdbRequired: Error := Error("adb is required to instantiate UiAutomator")

  class UiAutomator {
    const adb: Adb
    const tempPath: string
    var state: Option<State>
    var proc: Option<SubProcess>
    var processIsAlive: bool
    var events: seq<Event>
    var log: seq<LogTag>
    var calls: seq<Call>

    ghost function Snap(): Snapshot
      reads this
    {
      Snapshot(state, proc, processIsAlive, events, log, calls)
    }

    ghost predicate Valid()
      reads this
    {
      WellFormed(Snap()) && tempPath == TempPath
    }

    /** `new UiAutomator(adb)` for a present `adb`: `state` stays unset. */
    constructor (adb: Adb)
      ensures Valid() && this.adb == adb
      ensures tempPath == "/data/local/tmp/" && state.None?
      ensures Snap() == Initial()
    {
      this.adb := adb;
      tempPath := TempPath;
      state := None;
      proc := None;
      processIsAlive := false;
      events := [];
      log := [];
      calls := [];
    }

    /** `new UiAutomator(adb)`, which throws when `adb` is missing. */
    static method Create(adb: Option<Adb>) returns (r: Result<UiAutomator>)
      ensures r.Failure? <==> adb.None?
      ensures r.Failure? ==> r.error == AdbRequired
      ensures r.Success? ==> fresh(r.value) && r.value.Valid() && r.value.adb == adb.value
      ensures r.Success? ==> r.value.state.None? && r.value.Snap() == Initial()
    {
      if adb.None? {
        return Failure(AdbRequired);
      }
      var automator := new UiAutomator(adb.value);
      r := Success(automator);
    }

    /** `changeState(st)`. */
    method ChangeState(st: State)
      requires Valid()
      modifies this
      ensures Valid()
      ensures Snap() == Lifecycle.ChangeState(old(Snap()), st)
    {
      state := Some(st);
      events := events + [StateChanged(st)];
    }

    /** The exit handler registered on the subprocess; the environment may
        run it whenever the subprocess exits. */
    method OnExit()
      requires Valid()
      modifies this
      ensures Valid()
      ensures Snap() == Exit(old(Snap()))
    {
      processIsAlive := false;
      if state != Some(Stopped) && state != Some(Stopping) {
        log := log + [UnexpectedExit];
      } else if state == Some(Stopping) {
        log := log + [NormalShutdown];
      }
      ChangeState(Stopped);
    }

    /** The end of an `await`, during which the subprocess may have exited. */
    method Wait(exitFires: bool)
      requires Valid()
      modifies this
      ensures Valid()
      ensures Snap() == Await(old(Snap()), exitFires)
    {
      if exitFires && proc.Some? {
        OnExit();
      }
    }

    /** `killUiAutomatorOnDevice()`: never throws. */
    method KillUiAutomatorOnDevice(step: Step)
      requires Valid()
      modifies this
      ensures Valid()
      ensures Snap() == KillOnDevice(old(Snap()), step)
    {
      calls := calls + [KillProcessesByName(ProcessName)];
      Wait(step.exitFires);
      if step.outcome.Threw? {
        log := log + [KillWarning];
      }
    }

    /** `start(binaryPath, className, startDetector, ...extraParams)`; the
        start detector acts through `env.procStart`. */
    method Start(binaryPath: string, className: string, extraParams: seq<string>, env: StartEnv)
      returns (r: Result<SubProcess>)
      requires Valid()
      modifies this
      ensures Valid()
      ensures (Snap(), r) == Lifecycle.Start(old(Snap()), binaryPath, className, extraParams, env)
    {
      processIsAlive := false;
      ChangeState(Starting);
      var parsed := ParseJarNameFromPath(binaryPath);
      if parsed.Failure? {
        r := Rethrow(parsed.error, env);
        return;
      }
      calls := calls + [Push(binaryPath, tempPath)];
      Wait(env.push.exitFires);
      if env.push.outcome.Threw? {
        r := Rethrow(env.push.outcome.error, env);
        return;
      }
      KillUiAutomatorOnDevice(env.preKill);
      var args := RunTestArgs(parsed.value, className, extraParams);
      r := Launch(SubProcess(env.adbPath, args), env);
    }

    /** The part of `start` from `new SubProcess(adbPath, args)` on: start
        the subprocess, then announce `online`. */
    method Launch(subprocess: SubProcess, env: StartEnv) returns (r: Result<SubProcess>)
      requires Valid() && !processIsAlive
      modifies this
      ensures Valid()
      ensures (Snap(), r) == StartProcessStep(old(Snap()), subprocess, env)
    {
      proc := Some(subprocess);
      calls := calls + [StartProcess(subprocess)];
      Wait(env.procStart.exitFires);
      if env.procStart.outcome.Threw? {
        r := Rethrow(env.procStart.outcome.error, env);
        return;
      }
      processIsAlive := true;
      ChangeState(Online);
      if env.onlineListener.Threw? {
        r := Rethrow(env.onlineListener.error, env);
        return;
      }
      r := Success(subprocess);
    }

    /** The catch block of `start`. */
    method Rethrow(e: Error, env: StartEnv) returns (r: Result<SubProcess>)
      requires Valid()
      modifies this
      ensures Valid()
      ensures (Snap(), r) == StartCatch(old(Snap()), e, env)
    {
      events := events + [UiAutomatorError(e)];
      if processIsAlive {
        KillUiAutomatorOnDevice(env.cleanupKill);
        calls := calls + [StopProcess(proc.value)];
        Wait(env.cleanupStop.exitFires);
        if env.cleanupStop.outcome.Threw? {
          return Failure(env.cleanupStop.outcome.error);
        }
      }
      r := Failure(e);
    }

    /** `shutdown()`; without a subprocess it throws the TypeError of
        `this.proc.stop()` after announcing `stopping`. */
    method Shutdown(env: ShutdownEnv) returns (outcome: Outcome)
      requires Valid()
      modifies this
      ensures Valid()
      ensures (Snap(), outcome) == Lifecycle.Shutdown(old(Snap()), env)
    {
      ChangeState(Stopping);
      if proc.None? {
        return Threw(ProcUndefined);
      }
      calls := calls + [StopProcess(proc.value)];
      Wait(env.stop.exitFires);
      if env.stop.outcome.Threw? {
        return env.stop.outcome;
      }
      KillUiAutomatorOnDevice(env.kill);
      ChangeState(Stopped);
      outcome := Returned;
    }
  }
}
