/**
  The argument list `start` gives the adb subprocess: the device shell runs
  `uiautomator runtest <jar> -c <class>` followed by the caller's extra
  parameters, verbatim and in call order.
*/
module RunnerCommand {
  import opened Base

  /** The fixed words in front of the jar name. */
  const RunTestPrefix: seq<string> := ["shell", "uiautomator", "runtest"]

  /** The flag that selects the test class. */
  const ClassFlag: string := "-c"

  function RunTestArgs(jarName: string, className: string, extraParams: seq<string>): (args: seq<string>)
    ensures |args| == 6 + |extraParams|
    ensures args[..3] == RunTestPrefix && args[3] == jarName
    ensures args[4] == ClassFlag && args[5] == className
    ensures forall k :: 0 <= k < |extraParams| ==> args[6 + k] == extraParams[k]
  {
    RunTestPrefix + [jarName, ClassFlag, className] + extraParams
  }

  /** What a `uiautomator runtest` command line asks for. */
  datatype Invocation = Invocation(jarName: string, className: string, extraParams: seq<string>)

  /** Reads an argument list back: the inverse of `RunTestArgs`. */
  function ReadRunTestArgs(args: seq<string>): Option<Invocation> {
    if |args| >= 6 && args[..3] == RunTestPrefix && args[4] == ClassFlag
    then Some(Invocation(args[3], args[5], args[6..]))
    else None
  }

  /** Nothing in the jar name, the class name or the extra parameters is lost
      or reordered on the way to the device. */
  lemma RunTestArgsRoundTrip(jarName: string, className: string, extraParams: seq<string>)
    ensures ReadRunTestArgs(RunTestArgs(jarName, className, extraParams)) ==
      Some(Invocation(jarName, className, extraParams))
  {
    var args := RunTestArgs(jarName, className, extraParams);
    assert args[6..] == extraParams;
  }

  /** Every argument list that reads back was built by `RunTestArgs`. */
  lemma ReadRunTestArgsExact(args: seq<string>)
    requires ReadRunTestArgs(args).Some?
    ensures var inv := ReadRunTestArgs(args).value;
      RunTestArgs(inv.jarName, inv.className, inv.extraParams) == args
  {
    var inv := ReadRunTestArgs(args).value;
    var built := RunTestArgs(inv.jarName, inv.className, inv.extraParams);
    assert built[..3] == args[..3];
    assert forall k :: 0 <= k < |args| ==> built[k] == args[k];
  }

  /** Passing `a` then `b` as extra parameters appends them in that order. */
  lemma ExtraParamsInCallOrder(jarName: string, className: string, a: seq<string>, b: seq<string>)
    ensures RunTestArgs(jarName, className, a + b) == RunTestArgs(jarName, className, a) + b
  {
  }
}
