# UiAutomator lifecycle, modelled in Dafny

This project models `UiAutomator`, the object that drives one Android
UiAutomator test runner on one device through adb (`lib/uiautomator.js`).
The object:

- parses the jar name out of the runner binary's path with the regular
  expression `.*(\/|\\)(.*\.jar)`;
- pushes the jar to `/data/local/tmp/` and kills stale `uiautomator`
  processes;
- starts `adb shell uiautomator runtest <jar> -c <class> <extra...>` as a
  subprocess;
- announces each state change (`starting`, `online`, `stopping`,
  `stopped`) as a `stateChanged` event, and a failed start as a
  `uiautomator_error` event.

The project has these modules:

- `JarPath` (`jar_path.dfy`) is the regular expression, executed the way
  JavaScript does. The `.` matches anything but the four line terminators.
  The match is found in the first line that can hold one. Both `.*` are
  greedy, so the name runs from after the last separator that still has a
  `.jar` after it to the end of the last `.jar`. `JarPathProperties`
  (`jar_path_properties.dfy`) proves what that means for callers.
- `RunnerCommand` (`runner_command.dfy`) is the argument list of the
  runner, with its inverse.
- `Lifecycle` (`lifecycle.dfy`) gives `start`, `shutdown`,
  `changeState`, the exit handler and `killUiAutomatorOnDevice` as
  functions on a `Snapshot`. A snapshot holds:
  - the announced state;
  - the subprocess;
  - the `processIsAlive` flag;
  - the events emitted so far;
  - the log entries written so far;
  - the calls made to adb and to the subprocess.

  Every `await` is a `Step`: the awaited call returns or throws, and the
  subprocess may exit meanwhile, which runs the exit handler at that
  point. The collaborators' behaviour is a parameter (`StartEnv`,
  `ShutdownEnv`).
- `LifecycleProperties` (`lifecycle_properties.dfy`) proves what `start`
  and `shutdown` promise. `Scenarios` (`scenarios.dfy`) proves facts about
  runs of several operations.
- `Automator` (`uiautomator.dfy`) is the object itself: a class whose
  fields the methods update in place. Each method is proved to change the
  object exactly as the matching `Lifecycle` function changes a snapshot.

Some behaviours of the code are worth knowing:

- The lifecycle is often described as the sequence `starting`, `online`,
  `stopping`, `stopped`. The code gives that sequence only while the
  subprocess stays up until `shutdown` ends. When the subprocess exits
  during `proc.stop()`, the exit handler announces `stopped` and logs a
  normal shutdown. Then `shutdown` announces `stopped` a second time. The
  model follows the code (`ShutdownCompletes`, `StartThenShutdown`).
- After a `start` that fails before `proc.start` returns, with no exit of
  the subprocess meanwhile, `state` stays `starting`: nothing in the catch
  block announces another state (`StartParseFailure`, `StartPushFailure`,
  `StartLaunchFailure`).
  When a listener of the `online` announcement throws, `state` stays
  `online`, or becomes `stopped` if the subprocess exits during the
  cleanup. An exit during the last await before `start` fails (the push
  or `proc.start` when that stage throws, or the cleanup) leaves
  `stopped`.
- The cleanup in the catch block (kill, then `proc.stop()`) runs only when
  `processIsAlive` is set. That happens only after `proc.start` returned,
  so the only way to reach the cleanup is for a listener of the `online`
  announcement to throw (`StartCleanupOnlyWhenAlive`).
- `shutdown` before any `start` made a subprocess first announces
  `stopping`. Then `this.proc.stop()` throws a `TypeError` on `undefined`
  (`ShutdownWithoutProcess`).

## Model

| member | source | states |
|---|---|---|
| JarPath.ParseJarNameFromPath | lib/uiautomator.js:66-72 | `parseJarNameFromPath`: group 2 of the match, or the parse error. Its contract is stated by `JarPathProperties.ParseFailsExactly` (success exactly when some line holds a separator followed by `.jar`, and the fixed message otherwise) and `JarPathProperties.ParsedNameShape` (the name ends in `.jar`, holds no separator or line break, and follows a separator in the path) |
| JarPath.MatchLine | lib/uiautomator.js:67 | on one line, no match exactly when no separator has a `.jar` after it; otherwise the match is separator-to-end-of-`.jar` of a candidate whose separator and `.jar` are both the last possible |
| JarPath.ExecPattern | lib/uiautomator.js:67 | the pattern fails exactly when no line holds a separator followed by `.jar`; otherwise it matches within the first line that holds one, as that line alone would |
| JarPathProperties.ParseFailsExactly | lib/uiautomator.js:66-72 | `parseJarNameFromPath` succeeds exactly when some line holds a separator followed by `.jar`, and otherwise throws `Unable to parse jar name from <path>` |
| JarPathProperties.ParseFailsIffNoSeparatorBeforeJar | lib/uiautomator.js:66-72 | on a path without line breaks, the parse fails exactly when no `/` or `\` is followed later by `.jar` |
| JarPathProperties.ParseIsGreedy | lib/uiautomator.js:67-71 | on a path without line breaks, the name starts after the last separator that has a `.jar` after it and ends with the last `.jar` |
| JarPathProperties.ParsedNameShape | lib/uiautomator.js:66-72 | a parsed name ends in `.jar`, holds no separator and no line break, and stands in the path right after a separator |
| JarPathProperties.SingleLineParse | lib/uiautomator.js:67 | on a path without line breaks the pattern matches as on one line |
| JarPathProperties.GreediestCandidate | lib/uiautomator.js:67 | the greediest separator/`.jar` pair of a line is the one matched |
| JarPathProperties.ParseDirectoryAndName | lib/uiautomator.js:21-22 | a directory on one line, one separator and a separator-free name ending in `.jar` parse to exactly that name |
| JarPathProperties.ParseSlashExample | lib/uiautomator.js:21-22 | `/ads/ads/foo.jar` parses to `foo.jar` |
| JarPathProperties.ParseBackslashExample | lib/uiautomator.js:21-22 | `\asd\asd\foo.jar` parses to `foo.jar` |
| RunnerCommand.RunTestArgs | lib/uiautomator.js:26-27 | the arguments are `shell uiautomator runtest <jar> -c <class>` followed by every extra parameter in its place |
| RunnerCommand.RunTestArgsRoundTrip | lib/uiautomator.js:26-27 | reading the arguments back gives the jar, the class and the extra parameters unchanged |
| RunnerCommand.ReadRunTestArgsExact | lib/uiautomator.js:26-27 | every argument list that reads back is the one built from what it reads as |
| RunnerCommand.ExtraParamsInCallOrder | lib/uiautomator.js:27 | extra parameters are appended in call order |
| Lifecycle.Initial | lib/uiautomator.js:6-13 | a new object has no state yet, and what it holds is consistent: `state` is the state announced last and no process is alive without a subprocess |
| Lifecycle.ChangeState | lib/uiautomator.js:74-77 | `state` becomes the new state, one `stateChanged` event carrying it is appended, nothing else changes, and `state` stays the state announced last |
| Lifecycle.EmitError | lib/uiautomator.js:50 | one error event with the caught error is appended and nothing else changes |
| Lifecycle.Exit | lib/uiautomator.js:32-44 | the process is no longer alive, `stopped` is announced, and the log gains an unexpected-exit entry exactly when the state was neither `stopped` nor `stopping`, a normal-shutdown entry exactly when it was `stopping`, and nothing when it was `stopped` |
| Lifecycle.Await | lib/uiautomator.js:32 | an await calls nothing and keeps the subprocess; without an exit, or before any subprocess exists, it changes nothing; an exit with a subprocess runs the exit handler (`Exit`): `stopped` is announced, the log entry for the prior state is written, and the alive flag is cleared |
| Lifecycle.KillOnDevice | lib/uiautomator.js:79-85 | one kill of `uiautomator` is called; a failed kill adds only a warning and never escapes |
| Lifecycle.Start | lib/uiautomator.js:15-57 | `start`: `starting`, the parse, then the push stage. Its contract is stated by `LifecycleProperties.StartOutcome` (success exactly when nothing is caught, with the subprocess returned and `online` reached; otherwise the caught or cleanup error), `LifecycleProperties.StartErrors` (exactly one error event per caught error) and `LifecycleProperties.StartCalls` (exactly the call trail of how far it got) |
| Lifecycle.StartPush | lib/uiautomator.js:23-48 | the push, the kill of stale runners and the launch. Its contract is stated by `LifecycleProperties.PushStage`, `LifecycleProperties.PushStageCalls` and `LifecycleProperties.PushStageErrors` |
| Lifecycle.StartProcessStep | lib/uiautomator.js:30-48 | `new SubProcess`, `proc.start` and the `online` announcement. Its contract is stated by `LifecycleProperties.LaunchStage` (success exactly when neither `proc.start` nor an `online` listener throws) |
| Lifecycle.StartCatch | lib/uiautomator.js:49-56 | the catch block. Its contract is stated by `LifecycleProperties.CatchStage` (one error event, the cleanup kill and stop exactly when the process is alive, the cleanup's stop error or else the caught error rethrown) |
| Lifecycle.Shutdown | lib/uiautomator.js:59-64 | `shutdown`. Its contract is stated by `LifecycleProperties.ShutdownCompletes`, `LifecycleProperties.ShutdownStopFails`, `LifecycleProperties.ShutdownWithoutProcess` (which together cover every input) and `LifecycleProperties.ShutdownErrors` |
| LifecycleProperties.EventNamesDistinct | lib/uiautomator.js:89-90 | state changes and errors are emitted under two different event names |
| LifecycleProperties.StateNamesDistinct | lib/uiautomator.js:91-94 | the four states are announced under four different names |
| LifecycleProperties.CatchStage | lib/uiautomator.js:49-56 | the catch block emits one error event, kills and stops only when the process is alive, and throws the caught error unless the cleanup `proc.stop()` threw |
| LifecycleProperties.LaunchStage | lib/uiautomator.js:30-48 | the launch succeeds exactly when `proc.start` and the `online` listeners return, then ends `online` with the process alive, and otherwise throws that error, or what the cleanup `proc.stop()` threw |
| LifecycleProperties.PushStage | lib/uiautomator.js:23-48 | after the parse, `start` succeeds exactly when nothing throws, and otherwise throws the first error, or what the cleanup `proc.stop()` threw |
| LifecycleProperties.PushStageCalls | lib/uiautomator.js:23-54 | the calls after the parse are the push, then the kill and `proc.start`, then the cleanup |
| LifecycleProperties.PushStageErrors | lib/uiautomator.js:23-56 | after the parse, `start` emits exactly one error event, carrying the push or launch error, when one is thrown, and none otherwise |
| LifecycleProperties.StartOutcome | lib/uiautomator.js:15-57 | `start` succeeds exactly when it catches nothing. It then returns the subprocess built from the adb path and the runtest arguments, and ends `online` with the process alive. Otherwise it throws the caught error, or what the cleanup `proc.stop()` threw |
| LifecycleProperties.StartErrors | lib/uiautomator.js:15-57 | a failed `start` emits exactly one error event, carrying the error it caught; a successful one emits none; `state` stays the state announced last |
| LifecycleProperties.StartCalls | lib/uiautomator.js:15-57 | the calls of `start`: nothing after a failed parse; the push alone after a failed push; push, kill and `proc.start` after that; a kill and `proc.stop()` only in the cleanup |
| LifecycleProperties.TrailStops | lib/uiautomator.js:51-54 | the call trail holds a stop exactly when the catch block found the process alive |
| LifecycleProperties.StartCleanupOnlyWhenAlive | lib/uiautomator.js:46-54 | `start` only appends calls, and stops the subprocess exactly when the parse, the push and `proc.start` returned and an `online` listener threw |
| LifecycleProperties.StartHappyPath | lib/uiautomator.js:15-48 | with every step returning and no exit during the push, the kill or `proc.start`, `start` announces `starting` then `online`; it pushes, kills and starts the subprocess in that order; a failed kill adds only a warning |
| LifecycleProperties.CleanLaunch | lib/uiautomator.js:30-48 | a launch where nothing throws or exits adds the `proc.start` call and the `online` announcement and returns the subprocess |
| LifecycleProperties.StartParseFailure | lib/uiautomator.js:18-22 | an unparseable path gives `starting`, one error event and the parse error, and calls nothing |
| LifecycleProperties.StartLaunchFailure | lib/uiautomator.js:45-55 | a `proc.start` that throws, with no exit during the push, the kill or `proc.start`, gives `starting`, one error event and that error; `state` stays `starting`, the calls are push, kill and `proc.start`, and no cleanup runs |
| LifecycleProperties.StartPushFailure | lib/uiautomator.js:23 | a failed push, with no exit during the push, gives `starting`, one error event and the push error; `state` stays `starting` and nothing is killed or stopped |
| LifecycleProperties.ShutdownCompletes | lib/uiautomator.js:59-64 | `shutdown` gives `stopping`, then `stopped` once for every exit during the stop or the kill, then its own `stopped`. It logs one normal-shutdown entry when the subprocess exited, warns on a failed kill, and calls stop then kill |
| LifecycleProperties.ShutdownStopFails | lib/uiautomator.js:59-61 | a throwing `proc.stop()` escapes `shutdown`; nothing is killed and the state stays `stopping` unless the subprocess exited |
| LifecycleProperties.ShutdownWithoutProcess | lib/uiautomator.js:59-61 | without a subprocess, `shutdown` announces `stopping` and throws the `TypeError`, calling nothing |
| LifecycleProperties.ShutdownErrors | lib/uiautomator.js:59-64 | `shutdown` emits no error event and keeps `state` the state announced last |
| Scenarios.ApplyKeepsWellFormed | lib/uiautomator.js:15-85 | every operation keeps `state` the state announced last, and emits an error event only for the error a `start` caught |
| Scenarios.RunKeepsWellFormed | lib/uiautomator.js:15-85 | over any run, `state` is the state announced last, and the error events are exactly the errors the failed starts caught, in order |
| Scenarios.StartThenCrash | lib/uiautomator.js:32-47 | a clean start, then a crash, gives `starting`, `online`, `stopped` and one unexpected-exit log entry |
| Scenarios.StartThenShutdown | lib/uiautomator.js:32-64 | a clean start, then a shutdown during which the subprocess exits, gives `starting`, `online`, `stopping`, `stopped`, `stopped` and one normal-shutdown entry |
| Automator.UiAutomator.constructor | lib/uiautomator.js:6-13 | a new object keeps the adb driver, uses `/data/local/tmp/`, and has no state yet |
| Automator.UiAutomator.Create | lib/uiautomator.js:6-13 | construction fails with `adb is required to instantiate UiAutomator` exactly when no adb driver is given |
| Automator.UiAutomator.ChangeState | lib/uiautomator.js:74-77 | the object changes as `Lifecycle.ChangeState` says |
| Automator.UiAutomator.OnExit | lib/uiautomator.js:32-44 | the exit handler changes the object as `Lifecycle.Exit` says |
| Automator.UiAutomator.Wait | lib/uiautomator.js:32 | an await changes the object as `Lifecycle.Await` says |
| Automator.UiAutomator.KillUiAutomatorOnDevice | lib/uiautomator.js:79-85 | the object changes as `Lifecycle.KillOnDevice` says, and the method never fails |
| Automator.UiAutomator.Start | lib/uiautomator.js:15-57 | the object and the result are those of `Lifecycle.Start`, so every `LifecycleProperties.Start*` fact holds of the method |
| Automator.UiAutomator.Launch | lib/uiautomator.js:30-48 | the launch part of `start` changes the object as `Lifecycle.StartProcessStep` says |
| Automator.UiAutomator.Rethrow | lib/uiautomator.js:49-56 | the catch block changes the object as `Lifecycle.StartCatch` says |
| Automator.UiAutomator.Shutdown | lib/uiautomator.js:59-64 | the object and the outcome are those of `Lifecycle.Shutdown`, so every `LifecycleProperties.Shutdown*` fact holds of the method |

## Left out

- Log messages are kinds (`UnexpectedExit`, `NormalShutdown`,
  `KillWarning`), not text. The debug lines, and the exit code and signal
  in the unexpected-exit message, are not modelled.
- `log.errorAndThrow` is modelled as the throw alone. The error line it
  logs is not recorded.
- The start detector passed to `proc.start` is not modelled. Its effect is
  whether `proc.start` returns or throws (`StartEnv.procStart`).
- adb and teen_process (`adb.push`, `adb.killProcessesByName`,
  `adb.getAdbPath`, `new SubProcess`, `SubProcess.start`/`stop`) are not
  part of this model. The push, the kills, `proc.start` and `proc.stop()`
  are recorded in `calls`, and whether each returns or throws is a
  parameter.
- `adb.getAdbPath()` (line 28) is not recorded as a call and cannot throw:
  its result is the parameter `StartEnv.adbPath`. A throw from it, which
  the `try` would catch, is not modelled.
- `new SubProcess(adbPath, args)` (line 30) is not recorded as a call and
  cannot throw: the subprocess is the value of its command and
  arguments. A throwing constructor, which the `try` would catch, is not
  modelled.
- Concurrency is not modelled: no other call on the same object runs
  during an await.
- The subprocess's exit is the only asynchronous event, delivered at await
  points. The model lets it fire at any await once a subprocess exists,
  even more than once. So it over-approximates a real process, which
  exits once.
- The exit handler of an earlier `start`'s subprocess writes that
  `start`'s own `processIsAlive`. The model has one flag, reset at every
  `start`.
- A `Step` carries one `exitFires`, so the model runs the exit handler at
  most once per await. In the source the handler of every subprocess ever
  made stays registered. An earlier `start`'s subprocess and the current
  one may both exit during one await, for example during `proc.start`
  right after the kill on the device. The source then announces `stopped`
  twice; the model announces it at most once per await.
- Only a listener of the `online` announcement may throw. A listener that
  throws on another announcement or on the error event is not modelled.
- The subprocess is a value (command and arguments), so identity and
  aliasing of the object `start` returns are not modelled.
- Paths are sequences of Dafny characters, not UTF-16 code units.
  Non-string paths, which JavaScript would convert with `String()`, are
  not modelled.
- Any falsy `adb` argument is `None` in `Create`.
- `tempPath` is a constant. The source's public field could be reassigned
  from outside.
- The message of the `TypeError` that `shutdown` throws without a
  subprocess is the one V8 produces from Node.js 16.9 on. Older V8
  builds report `Cannot read property 'stop' of undefined`, and other
  engines word it differently.
