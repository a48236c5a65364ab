/**
  Runs of several operations on one `UiAutomator`: starts, shutdowns and
  exits of the subprocess, in any order.
*/
module Scenarios {
  import opened Base
  import opened JarPath
  import opened RunnerCommand
  import opened Lifecycle
  import opened LifecycleProperties

  /** One thing that happens to the object: a `start` or a `shutdown` call
      run to completion in its environment, or an exit of the subprocess
      between calls. */
  datatype Op =
    | StartOp(path: string, className: string, extraParams: seq<string>, startEnv: StartEnv)
    | ShutdownOp(shutdownEnv: ShutdownEnv)
    | ExitOp

  /** The snapshot after one operation; an exit runs the handler only when
      a subprocess exists to carry it. */
  function Apply(s: Snapshot, op: Op): Snapshot {
    match op
    case StartOp(path, className, extraParams, env) => Start(s, path, className, extraParams, env).0
    case ShutdownOp(env) => Shutdown(s, env).0
    case ExitOp => Await(s, true)
  }

  function Run(s: Snapshot, ops: seq<Op>): Snapshot
    decreases |ops|
  {
    if ops == [] then s else Run(Apply(s, ops[0]), ops[1..])
  }

  /** The error one operation catches: a `start` catches at most one. */
  function OpErrors(op: Op): seq<Error> {
    match op
    case StartOp(path, _, _, env) => Listed(CaughtError(path, env))
    case _ => []
  }

  /** The errors the operations catch, in order: one per failed `start`. */
  function CaughtErrors(ops: seq<Op>): seq<Error>
    decreases |ops|
  {
    if ops == [] then [] else OpErrors(ops[0]) + CaughtErrors(ops[1..])
  }

  /** Each operation keeps `state` the state announced last, and emits an
      error event only for the error it caught. */
  lemma ApplyKeepsWellFormed(s: Snapshot, op: Op)
    requires WellFormed(s)
    ensures WellFormed(Apply(s, op))
    ensures Errors(Apply(s, op).events) == Errors(s.events) + OpErrors(op)
  {
    match op
    case StartOp(path, className, extraParams, env) =>
      StartErrors(s, path, className, extraParams, env, Start(s, path, className, extraParams, env));
    case ShutdownOp(env) =>
      ShutdownErrors(s, env, Shutdown(s, env));
    case ExitOp =>
      ErrorsAfterAwait(s, true);
  }

  /** Over any run, `state` stays the state announced last, and the error
      events are exactly the errors the failed starts caught, in order. */
  lemma {:induction false} RunKeepsWellFormed(s: Snapshot, ops: seq<Op>)
    requires WellFormed(s)
    ensures WellFormed(Run(s, ops))
    ensures Errors(Run(s, ops).events) == Errors(s.events) + CaughtErrors(ops)
    decreases |ops|
  {
    if ops != [] {
      var next := Apply(s, ops[0]);
      assert Run(s, ops) == Run(next, ops[1..]);
      ApplyKeepsWellFormed(s, ops[0]);
      RunKeepsWellFormed(next, ops[1..]);
      assert CaughtErrors(ops) == OpErrors(ops[0]) + CaughtErrors(ops[1..]);
      Associative(Errors(s.events), OpErrors(ops[0]), CaughtErrors(ops[1..]));
    }
  }

  /** A start in which every step returns and nothing exits. */
  predicate CleanStart(env: StartEnv) {
    env.push == Step(Returned, false) && env.preKill == Step(Returned, false) &&
    env.procStart == Step(Returned, false) && env.onlineListener == Returned
  }

  /** A fresh object started cleanly whose subprocess then dies: `starting`,
      `online`, `stopped`, with the unexpected exit logged. */
  lemma StartThenCrash(path: string, jarName: string, className: string, extraParams: seq<string>,
                       env: StartEnv, a: Snapshot)
    requires ParseJarNameFromPath(path) == Success(jarName) && CleanStart(env)
    requires a == Run(Initial(), [StartOp(path, className, extraParams, env), ExitOp])
    ensures a.events == [StateChanged(Starting), StateChanged(Online), StateChanged(Stopped)]
    ensures a.state == Some(Stopped) && !a.processIsAlive && a.log == [UnexpectedExit]
    ensures a.calls == [Push(path, TempPath), KillProcessesByName(ProcessName),
                        StartProcess(SubProcess(env.adbPath, RunTestArgs(jarName, className, extraParams)))]
  {
    var ops := [StartOp(path, className, extraParams, env), ExitOp];
    var started := Start(Initial(), path, className, extraParams, env);
    StartHappyPath(Initial(), path, jarName, className, extraParams, env, started);
    assert a == Run(started.0, ops[1..]);
    assert ops[1..][1..] == [];
    CrashOnline(started.0, a);
  }

  /** The exit half of `StartThenCrash`. */
  lemma CrashOnline(s: Snapshot, a: Snapshot)
    requires s.events == [StateChanged(Starting), StateChanged(Online)]
    requires s.state == Some(Online) && s.log == [] && s.proc.Some?
    requires a == Await(s, true)
    ensures a.events == [StateChanged(Starting), StateChanged(Online), StateChanged(Stopped)]
    ensures a.state == Some(Stopped) && !a.processIsAlive && a.log == [UnexpectedExit]
    ensures a.calls == s.calls
  {
  }

  /** A fresh object started cleanly, then shut down, its subprocess
      exiting during `proc.stop()`: `stopped` is announced twice, once by
      the exit handler and once by `shutdown`, and the exit is logged as a
      normal shutdown. */
  lemma StartThenShutdown(path: string, jarName: string, className: string, extraParams: seq<string>,
                          env: StartEnv, a: Snapshot)
    requires ParseJarNameFromPath(path) == Success(jarName) && CleanStart(env)
    requires a == Run(Initial(), [StartOp(path, className, extraParams, env),
                                  ShutdownOp(ShutdownEnv(Step(Returned, true), Step(Returned, false)))])
    ensures a.events == [StateChanged(Starting), StateChanged(Online), StateChanged(Stopping),
                         StateChanged(Stopped), StateChanged(Stopped)]
    ensures a.state == Some(Stopped) && !a.processIsAlive && a.log == [NormalShutdown]
    ensures var p := SubProcess(env.adbPath, RunTestArgs(jarName, className, extraParams));
      a.calls == [Push(path, TempPath), KillProcessesByName(ProcessName), StartProcess(p),
                  StopProcess(p), KillProcessesByName(ProcessName)]
  {
    var shutdownEnv := ShutdownEnv(Step(Returned, true), Step(Returned, false));
    var ops := [StartOp(path, className, extraParams, env), ShutdownOp(shutdownEnv)];
    var started := Start(Initial(), path, className, extraParams, env);
    StartHappyPath(Initial(), path, jarName, className, extraParams, env, started);
    assert a == Run(started.0, ops[1..]);
    assert ops[1..][1..] == [];
    ShutdownOnline(started.0, path, started.1.value, a);
  }

  /** The shutdown half of `StartThenShutdown`. */
  lemma ShutdownOnline(s: Snapshot, path: string, p: SubProcess, a: Snapshot)
    requires s.events == [StateChanged(Starting), StateChanged(Online)] && s.log == [] && s.proc == Some(p)
    requires s.calls == [Push(path, TempPath), KillProcessesByName(ProcessName), StartProcess(p)]
    requires a == Shutdown(s, ShutdownEnv(Step(Returned, true), Step(Returned, false))).0
    ensures a.events == [StateChanged(Starting), StateChanged(Online), StateChanged(Stopping),
                         StateChanged(Stopped), StateChanged(Stopped)]
    ensures a.state == Some(Stopped) && !a.processIsAlive && a.log == [NormalShutdown]
    ensures a.calls == [Push(path, TempPath), KillProcessesByName(ProcessName), StartProcess(p),
                        StopProcess(p), KillProcessesByName(ProcessName)]
  {
    var shutdownEnv := ShutdownEnv(Step(Returned, true), Step(Returned, false));
    ShutdownCompletes(s, shutdownEnv, Shutdown(s, shutdownEnv));
  }
}
