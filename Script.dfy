/**
 * The watchdog batch scripts the updaters generate, as sequences of steps
 * rather than text, and what running one does: the commands it attempts, in
 * order, and how it ends. Which commands fail is an input (a set of step
 * positions); waiting for the application to quit is one step that ends once
 * the application has quit.
 */
module Script {

  /** What a step does when its command fails. */
  datatype OnFailure =
    | Continue                                               // no ERRORLEVEL check
    | Exit(status: int)                                      // `exit /b status`
    | RestoreThenExit(backup: string, target: string, status: int)  // `move /y backup target` then exit

  datatype Step =
    | WaitWhileRunning(imageName: string, pollSeconds: nat)  // the `tasklist` / `timeout` loop
    | Copy(source: string, target: string, onFailure: OnFailure)
    | Move(source: string, target: string, onFailure: OnFailure)
    | Delete(path: string)
    | Start(path: string)
    | DeleteSelf
    | ExitWith(status: int)

  /** A command the script attempted. */
  datatype Op =
    | Waited(imageName: string)
    | Copied(source: string, target: string)
    | Moved(source: string, target: string)
    | Deleted(path: string)
    | Started(path: string)
    | DeletedSelf

  datatype Ending = Finished | Exited(status: int)

  datatype Run = Run(ops: seq<Op>, ending: Ending)

  function OpOf(step: Step): Op
    requires !step.ExitWith?
  {
    match step
    case WaitWhileRunning(image, _) => Waited(image)
    case Copy(s, t, _) => Copied(s, t)
    case Move(s, t, _) => Moved(s, t)
    case Delete(p) => Deleted(p)
    case Start(p) => Started(p)
    case DeleteSelf => DeletedSelf
  }

  function FailureHandler(step: Step): OnFailure {
    match step
    case Copy(_, _, h) => h
    case Move(_, _, h) => h
    case _ => Continue
  }

  /** Running `steps` from position `i` on, the commands at the positions in `failing` failing. */
  function ExecuteFrom(steps: seq<Step>, failing: set<nat>, i: nat): Run
    decreases |steps| - i
  {
    if i >= |steps| then Run([], Finished)
    else if steps[i].ExitWith? then Run([], Exited(steps[i].status))
    else
      var op := OpOf(steps[i]);
      if i in failing && FailureHandler(steps[i]).Exit? then
        Run([op], Exited(FailureHandler(steps[i]).status))
      else if i in failing && FailureHandler(steps[i]).RestoreThenExit? then
        var h := FailureHandler(steps[i]);
        Run([op, Moved(h.backup, h.target)], Exited(h.status))
      else
        var rest := ExecuteFrom(steps, failing, i + 1);
        Run([op] + rest.ops, rest.ending)
  }

  function Execute(steps: seq<Step>, failing: set<nat>): Run {
    ExecuteFrom(steps, failing, 0)
  }

  /** `a` is attempted, and each attempt of `b` comes after an attempt of `a`. */
  ghost predicate AlwaysBefore(ops: seq<Op>, a: Op, b: Op) {
    forall j :: 0 <= j < |ops| && ops[j] == b ==> exists i :: 0 <= i < j && ops[i] == a
  }
}
