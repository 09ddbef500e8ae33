/**
 * What the two Windows updaters share: errors, how an outside operation or a
 * call ended, the process environment they read, and the effects they have
 * on the world, which the models record in order in a log.
 */
module UpdaterBase {
  import opened Wrappers
  import opened Paths
  import Script

  /** An `Error` object: its `code` property (absent on a plain `Error`) and its message. */
  datatype Error = Error(code: Option<string>, message: string)

  /** `newError(message, code)` of the runtime library. */
  function NewError(message: string, code: string): (e: Error)
    ensures e.code == Some(code)
  {
    Error(Some(code), message)
  }

  predicate HasCode(e: Error, code: string) {
    e.code == Some(code)
  }

  /** `update.cmd` in the directory of `exe`: where both updaters write their watchdog script. */
  function UpdateScriptPath(exe: string): string {
    PathJoin(Dirname(exe), "update.cmd")
  }

  /** Dispatched when an install is asked for with no downloaded update. */
  const NoValidUpdateError := Error(None, "No valid update available, can't quit and install")

  /** How an operation outside the model (a spawn, a download, a file write) ended. */
  datatype IoResult = Ok | Failed(error: Error)

  /** How a call ended: it returned a value or threw. */
  datatype Completion<T> = Return(value: T) | Throw(error: Error)

  /** The parts of the process environment the updaters read. */
  datatype ProcessEnv = ProcessEnv(
    portableExecutableFile: Option<string>,  // process.env.PORTABLE_EXECUTABLE_FILE
    resourcesPath: string,                   // process.resourcesPath
    execPath: string,                        // process.execPath
    platform: string)                        // process.platform

  /** `!!process.env.PORTABLE_EXECUTABLE_FILE`. */
  predicate IsPortable(env: ProcessEnv) {
    Truthy(env.portableExecutableFile)
  }

  /** The code-signature verification function in use (a foreign function; only its identity matters). */
  datatype Verifier = DefaultVerifier | CustomVerifier(id: nat)

  /** The cached copy of the previous version a differential download starts from. */
  datatype CachedFile = CurrentAppInstaller | CurrentAppPackage

  /** The two differential downloaders: with separate block-map files, or with the block map embedded. */
  datatype DifferentialKind = SeparateBlockMaps | EmbeddedBlockMap

  /** One effect on the world, as the updaters attempt it. */
  datatype Effect =
    | Spawn(command: string, args: seq<string>)            // spawnLog: detached, asynchronous
    | SpawnSync(command: string, args: seq<string>)        // spawnSyncLog / execFileSync
    | OpenPath(path: string)                               // electron.shell.openPath
    | WriteScript(path: string, script: seq<Script.Step>, throughShellEcho: bool)
    | Quit                                                 // app.quit()
    | DispatchError(error: Error)                          // the updater's "error" event
    | Download(url: string, destination: string)           // httpExecutor.download
    | FetchBlockMap(url: string)                           // httpExecutor.downloadToBuffer
    | DifferentialDownload(kind: DifferentialKind, url: string, cacheDir: string, oldFile: CachedFile, newFile: string)
    | VerifyCodeSignature(verifier: Verifier, publishers: seq<string>, file: string)
    | RemoveTempDir                                        // removeTempDirIfAny()
    | Unlink(path: string)

  /** The effects a call has, in order, and how it ends. */
  datatype Outcome<T> = Outcome(effects: seq<Effect>, result: T)

  /** Appending logs one after another is appending their concatenation. */
  lemma LogAssoc(a: seq<Effect>, b: seq<Effect>, c: seq<Effect>)
    ensures (a + b) + c == a + (b + c)
  {
  }

  /** The number of `DispatchError` effects in a log. */
  function DispatchCount(log: seq<Effect>): nat
    decreases |log|
  {
    if log == [] then 0
    else DispatchCount(log[..|log| - 1]) + (if log[|log| - 1].DispatchError? then 1 else 0)
  }

  /** The number of effects that spawn `command` (synchronously or not). */
  function SpawnCount(log: seq<Effect>, command: string): nat
    decreases |log|
  {
    if log == [] then 0
    else
      var e := log[|log| - 1];
      SpawnCount(log[..|log| - 1], command) + (if (e.Spawn? || e.SpawnSync?) && e.command == command then 1 else 0)
  }

  lemma {:induction false} DispatchCountAppend(a: seq<Effect>, b: seq<Effect>)
    ensures DispatchCount(a + b) == DispatchCount(a) + DispatchCount(b)
    decreases |b|
  {
    if b == [] {
      assert a + b == a;
    } else {
      assert (a + b)[..|a + b| - 1] == a + b[..|b| - 1];
      DispatchCountAppend(a, b[..|b| - 1]);
    }
  }

  lemma {:induction false} SpawnCountAppend(a: seq<Effect>, b: seq<Effect>, command: string)
    ensures SpawnCount(a + b, command) == SpawnCount(a, command) + SpawnCount(b, command)
    decreases |b|
  {
    if b == [] {
      assert a + b == a;
    } else {
      assert (a + b)[..|a + b| - 1] == a + b[..|b| - 1];
      SpawnCountAppend(a, b[..|b| - 1], command);
    }
  }

  /** Extending a log by one effect adds one to its dispatch count exactly when that effect dispatches. */
  lemma DispatchCountSnoc(log: seq<Effect>, x: Effect)
    ensures DispatchCount(log + [x]) == DispatchCount(log) + (if x.DispatchError? then 1 else 0)
  {
    assert (log + [x])[..|log|] == log;
  }

  /** A log without `DispatchError` effects has a dispatch count of zero, and conversely. */
  lemma {:induction false} DispatchCountZero(log: seq<Effect>)
    ensures DispatchCount(log) == 0 <==> forall i :: 0 <= i < |log| ==> !log[i].DispatchError?
    decreases |log|
  {
    if log != [] {
      DispatchCountZero(log[..|log| - 1]);
      assert forall i :: 0 <= i < |log| - 1 ==> log[..|log| - 1][i] == log[i];
    }
  }
}
