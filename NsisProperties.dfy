/**
 * Properties of the NSIS updater model: how the installer is started and what
 * follows a failed start, the traces of the portable watchdog script, the
 * rules of signature verification, and when each download path falls back to
 * a full download.
 */
module NsisProperties {
  import opened Wrappers
  import opened UpdaterBase
  import opened Paths
  import opened Nsis
  import Script

  // ---------------------------------------------------------------------------
  // Starting the installer

  /** A log made of dispatch-free effects followed by at most one dispatched error. */
  lemma CountsOfTail(head: seq<Effect>, tail: seq<Effect>)
    requires forall k :: 0 <= k < |head| ==> !head[k].DispatchError?
    requires tail == [] || (|tail| == 1 && tail[0].DispatchError?)
    ensures DispatchCount(head + tail) == |tail|
  {
    DispatchCountZero(head);
    if tail != [] {
      DispatchCountSnoc(head, tail[0]);
    } else {
      assert head + tail == head;
    }
  }

  /**
   * When admin rights are required the installer is never spawned directly:
   * the only spawn is one of `elevate.exe` with the installer path in front of
   * the arguments, and only its failure is dispatched.
   */
  lemma AdminRightsSpawnsElevateOnce(options: InstallOptions, args: seq<string>, resourcesPath: string,
                                     direct: IoResult, elevated: IoResult, shellOpen: IoResult)
    requires options.isAdminRightsRequired
    ensures var log := InstallEffects(options, args, resourcesPath, direct, elevated, shellOpen);
      && log[0] == Spawn(ElevateExe(resourcesPath), [options.installerPath] + args)
      && Spawn(options.installerPath, args) !in log
      && (forall k :: 1 <= k < |log| ==> log[k] == DispatchError(elevated.error))
      && DispatchCount(log) == (if elevated.Failed? then 1 else 0)
  {
    var log := InstallEffects(options, args, resourcesPath, direct, elevated, shellOpen);
    assert |[options.installerPath] + args| != |args|;
    CountsOfTail([log[0]], if elevated.Failed? then [DispatchError(elevated.error)] else []);
  }

  /** A direct start that succeeds is the only effect of installing. */
  lemma DirectStartSucceeds(options: InstallOptions, args: seq<string>, resourcesPath: string,
                            elevated: IoResult, shellOpen: IoResult)
    requires !options.isAdminRightsRequired
    ensures InstallEffects(options, args, resourcesPath, Ok, elevated, shellOpen) == [Spawn(options.installerPath, args)]
  {
  }

  /**
   * A direct start refused for lack of permission (EACCES or UNKNOWN) is
   * retried once through `elevate.exe`; a failure of that retry is dispatched
   * and not retried again.
   */
  lemma PermissionDeniedElevatesOnce(options: InstallOptions, args: seq<string>, resourcesPath: string,
                                     e: Error, elevated: IoResult, shellOpen: IoResult)
    requires !options.isAdminRightsRequired
    requires HasCode(e, "EACCES") || HasCode(e, "UNKNOWN")
    ensures var log := InstallEffects(options, args, resourcesPath, Failed(e), elevated, shellOpen);
      && log[..2] == [Spawn(options.installerPath, args), Spawn(ElevateExe(resourcesPath), [options.installerPath] + args)]
      && (forall k :: 2 <= k < |log| ==> log[k] == DispatchError(elevated.error))
      && DispatchCount(log) == (if elevated.Failed? then 1 else 0)
  {
    var log := InstallEffects(options, args, resourcesPath, Failed(e), elevated, shellOpen);
    CountsOfTail(log[..2], if elevated.Failed? then [DispatchError(elevated.error)] else []);
  }

  /**
   * A direct start that finds no such file (ENOENT) opens the installer with
   * the shell instead; an error is dispatched only when that open fails.
   */
  lemma NotFoundOpensWithShell(options: InstallOptions, args: seq<string>, resourcesPath: string,
                               e: Error, elevated: IoResult, shellOpen: IoResult)
    requires !options.isAdminRightsRequired
    requires HasCode(e, "ENOENT")
    ensures var log := InstallEffects(options, args, resourcesPath, Failed(e), elevated, shellOpen);
      && log[..2] == [Spawn(options.installerPath, args), OpenPath(options.installerPath)]
      && (forall k :: 2 <= k < |log| ==> log[k] == DispatchError(shellOpen.error))
      && DispatchCount(log) == (if shellOpen.Failed? then 1 else 0)
  {
    var log := InstallEffects(options, args, resourcesPath, Failed(e), elevated, shellOpen);
    assert !IsPermissionError(e);
    CountsOfTail(log[..2], if shellOpen.Failed? then [DispatchError(shellOpen.error)] else []);
  }

  /** Any other failure of the direct start is dispatched, once, and nothing else happens. */
  lemma OtherFailureDispatchedOnce(options: InstallOptions, args: seq<string>, resourcesPath: string,
                                   e: Error, elevated: IoResult, shellOpen: IoResult)
    requires !options.isAdminRightsRequired
    requires !HasCode(e, "EACCES") && !HasCode(e, "UNKNOWN") && !HasCode(e, "ENOENT")
    ensures var log := InstallEffects(options, args, resourcesPath, Failed(e), elevated, shellOpen);
      && log == [Spawn(options.installerPath, args), DispatchError(e)]
      && DispatchCount(log) == 1
  {
    var log := InstallEffects(options, args, resourcesPath, Failed(e), elevated, shellOpen);
    CountsOfTail([log[0]], [DispatchError(e)]);
  }

  // ---------------------------------------------------------------------------
  // Portable self-replacement from the NSIS updater

  /** Without a downloaded installer an error is dispatched, whatever the environment says, and no script is written. */
  lemma PortableWithoutInstaller(env: ProcessEnv, write: IoResult, launch: IoResult, env': ProcessEnv, write': IoResult, launch': IoResult)
    ensures InstallPortableOutcome(None, env, write, launch) == Outcome([DispatchError(NoValidUpdateError)], Return(false))
    ensures InstallPortableOutcome(None, env, write, launch) == InstallPortableOutcome(None, env', write', launch')
  {
  }

  /** A missing portable executable is thrown to the caller, not dispatched, and nothing is written. */
  lemma PortableWithoutExecutable(installer: string, env: ProcessEnv, write: IoResult, launch: IoResult)
    requires !Truthy(env.portableExecutableFile)
    ensures var o := InstallPortableOutcome(Some(installer), env, write, launch);
      && o.effects == []
      && o.result.Throw? && HasCode(o.result.error, "ERR_UPDATER_OLD_FILE_NOT_FOUND")
  {
  }

  /** The update script lives beside the portable executable, under the name `update.cmd`. */
  lemma UpdateScriptBesideExecutable(exe: string)
    ensures Dirname(UpdateScriptPath(exe)) == Dirname(exe)
    ensures Basename(UpdateScriptPath(exe)) == "update.cmd"
  {
    SplitJoin(Dirname(exe), "update.cmd");
  }

  /**
   * When writing and starting the script both succeed, the script is written,
   * started minimised, and the app quits, in that order.
   */
  lemma PortableInstallSucceeds(installer: string, env: ProcessEnv)
    requires Truthy(env.portableExecutableFile)
    ensures var exe := env.portableExecutableFile.value;
      InstallPortableOutcome(Some(installer), env, Ok, Ok) ==
        Outcome([ WriteScript(UpdateScriptPath(exe), PortableReplaceScript(exe, installer), false),
                  SpawnSync("cmd", ["/c", "start", "/min", "", UpdateScriptPath(exe)]),
                  Quit ],
                Return(true))
  {
  }

  /** A failure while writing or starting the script is dispatched once, the app does not quit, and the result is false. */
  lemma PortableInstallFailure(installer: string, env: ProcessEnv, write: IoResult, launch: IoResult)
    requires Truthy(env.portableExecutableFile)
    requires write.Failed? || launch.Failed?
    ensures var o := InstallPortableOutcome(Some(installer), env, write, launch);
      && o.result == Return(false)
      && DispatchCount(o.effects) == 1
      && Quit !in o.effects
      && o.effects[|o.effects| - 1] == DispatchError(if write.Failed? then write.error else launch.error)
  {
    var exe := env.portableExecutableFile.value;
    var written := WriteScript(UpdateScriptPath(exe), PortableReplaceScript(exe, installer), false);
    var started := SpawnSync("cmd", ["/c", "start", "/min", "", UpdateScriptPath(exe)]);
    if write.Failed? {
      CountsOfTail([written], [DispatchError(write.error)]);
      assert [written] + [DispatchError(write.error)] == [written, DispatchError(write.error)];
    } else {
      CountsOfTail([written, started], [DispatchError(launch.error)]);
      assert [written, started] + [DispatchError(launch.error)] == [written, started, DispatchError(launch.error)];
    }
  }

  // ---------------------------------------------------------------------------
  // The watchdog script of the NSIS portable update

  /** The positions of the backup copy and of the move in the script. */
  const CopyStep := 1
  const MoveStep := 2

  /** The script's run from position `i` on, once the copy and the move have succeeded. */
  lemma PortableScriptTail(exe: string, installer: string, failing: set<nat>)
    ensures Script.ExecuteFrom(PortableReplaceScript(exe, installer), failing, 3) ==
      Script.Run([Script.Deleted(exe + ".backup"), Script.Started(exe), Script.DeletedSelf], Script.Exited(0))
  {
    var s := PortableReplaceScript(exe, installer);
    assert Script.ExecuteFrom(s, failing, 6) == Script.Run([], Script.Exited(0));
    assert Script.ExecuteFrom(s, failing, 5) == Script.Run([Script.DeletedSelf], Script.Exited(0));
    assert Script.ExecuteFrom(s, failing, 4) == Script.Run([Script.Started(exe), Script.DeletedSelf], Script.Exited(0));
  }

  /** Without failures the script waits, backs up, moves, deletes the backup, starts the new version, deletes itself and exits 0. */
  lemma PortableScriptSucceeds(exe: string, installer: string, failing: set<nat>)
    requires CopyStep !in failing && MoveStep !in failing
    ensures Script.Execute(PortableReplaceScript(exe, installer), failing) ==
      Script.Run([ Script.Waited(Basename(exe)),
                   Script.Copied(exe, exe + ".backup"),
                   Script.Moved(installer, exe),
                   Script.Deleted(exe + ".backup"),
                   Script.Started(exe),
                   Script.DeletedSelf ],
                 Script.Exited(0))
  {
    var s := PortableReplaceScript(exe, installer);
    PortableScriptTail(exe, installer, failing);
    assert Script.ExecuteFrom(s, failing, 2).ops == [Script.Moved(installer, exe)] + Script.ExecuteFrom(s, failing, 3).ops;
    assert Script.ExecuteFrom(s, failing, 1).ops == [Script.Copied(exe, exe + ".backup")] + Script.ExecuteFrom(s, failing, 2).ops;
  }

  /** A failed backup copy ends the script with status 1 before anything is moved. */
  lemma PortableScriptBackupFails(exe: string, installer: string, failing: set<nat>)
    requires CopyStep in failing
    ensures Script.Execute(PortableReplaceScript(exe, installer), failing) ==
      Script.Run([Script.Waited(Basename(exe)), Script.Copied(exe, exe + ".backup")], Script.Exited(1))
  {
    var s := PortableReplaceScript(exe, installer);
    assert s[1] == Script.Copy(exe, exe + ".backup", Script.Exit(1));
    assert Script.ExecuteFrom(s, failing, 1) == Script.Run([Script.Copied(exe, exe + ".backup")], Script.Exited(1));
    assert s[0] == Script.WaitWhileRunning(Basename(exe), 2);
    assert 0 !in failing ==> Script.ExecuteFrom(s, failing, 0).ops == [Script.Waited(Basename(exe))] + Script.ExecuteFrom(s, failing, 1).ops;
  }

  /** A failed move restores the backup over the executable and ends the script with status 1. */
  lemma PortableScriptMoveFails(exe: string, installer: string, failing: set<nat>)
    requires CopyStep !in failing && MoveStep in failing
    ensures Script.Execute(PortableReplaceScript(exe, installer), failing) ==
      Script.Run([ Script.Waited(Basename(exe)),
                   Script.Copied(exe, exe + ".backup"),
                   Script.Moved(installer, exe),
                   Script.Moved(exe + ".backup", exe) ],
                 Script.Exited(1))
  {
    var s := PortableReplaceScript(exe, installer);
    assert Script.ExecuteFrom(s, failing, 2) == Script.Run([Script.Moved(installer, exe), Script.Moved(exe + ".backup", exe)], Script.Exited(1));
    assert Script.ExecuteFrom(s, failing, 1).ops == [Script.Copied(exe, exe + ".backup")] + Script.ExecuteFrom(s, failing, 2).ops;
  }

  /**
   * The ordering guarantees of the script: the new version is moved in only
   * after the backup was made, the backup is restored exactly when the move
   * failed, and the executable is started only after a successful move.
   */
  lemma PortableScriptOrdering(exe: string, installer: string, failing: set<nat>)
    requires installer != exe + ".backup"
    ensures var run := Script.Execute(PortableReplaceScript(exe, installer), failing);
      && Script.AlwaysBefore(run.ops, Script.Copied(exe, exe + ".backup"), Script.Moved(installer, exe))
      && (Script.Moved(exe + ".backup", exe) in run.ops <==> CopyStep !in failing && MoveStep in failing)
      && (Script.Started(exe) in run.ops <==> CopyStep !in failing && MoveStep !in failing)
      && (run.ending == Script.Exited(0) <==> CopyStep !in failing && MoveStep !in failing)
  {
    var run := Script.Execute(PortableReplaceScript(exe, installer), failing);
    var backup := exe + ".backup";
    assert Script.Moved(installer, exe) != Script.Moved(backup, exe);
    if CopyStep in failing {
      PortableScriptBackupFails(exe, installer, failing);
    } else if MoveStep in failing {
      PortableScriptMoveFails(exe, installer, failing);
      assert run.ops[1] == Script.Copied(exe, backup);
    } else {
      PortableScriptSucceeds(exe, installer, failing);
      assert run.ops[1] == Script.Copied(exe, backup);
    }
  }

  // ---------------------------------------------------------------------------
  // Signature verification

  /** A missing configuration file (ENOENT) accepts the update without asking the verifier. */
  lemma MissingConfigAccepts(e: Error, verifier: Verifier, file: string, verdict: Completion<Option<string>>)
    requires HasCode(e, "ENOENT")
    ensures SignatureOutcome(ConfigFailed(e), verifier, file, verdict) == Outcome([], Return(None))
  {
  }

  /** Any other error reading the configuration is rethrown. */
  lemma ConfigErrorRethrown(e: Error, verifier: Verifier, file: string, verdict: Completion<Option<string>>)
    requires !HasCode(e, "ENOENT")
    ensures SignatureOutcome(ConfigFailed(e), verifier, file, verdict) == Outcome([], Throw(e))
  {
  }

  /** No configured publisher accepts the update without asking the verifier. */
  lemma NoPublisherAccepts(verifier: Verifier, file: string, verdict: Completion<Option<string>>)
    ensures SignatureOutcome(ConfigLoaded(Absent), verifier, file, verdict) == Outcome([], Return(None))
  {
  }

  /** A single publisher name is checked as a one-element list, and the verifier's verdict is the answer. */
  lemma SinglePublisherIsList(name: string, verifier: Verifier, file: string, verdict: Completion<Option<string>>)
    ensures SignatureOutcome(ConfigLoaded(One(name)), verifier, file, verdict) ==
      Outcome([VerifyCodeSignature(verifier, [name], file)], verdict)
  {
  }

  /**
   * A rejected signature removes the temporary directory and throws
   * ERR_UPDATER_INVALID_SIGNATURE: the web package is neither fetched
   * differentially nor downloaded.
   */
  lemma RejectedSignatureStops(fileInfo: FileInfo, destination: string, packageFile: Option<string>, version: string,
                               helper: Option<DownloadedUpdate>, verifier: Verifier, platform: string,
                               world: DownloadWorld, reason: string)
    requires SignatureOutcome(world.config, verifier, destination, world.verdict).result == Return(Some(reason))
    ensures var o := VerifiedPhase(fileInfo, destination, packageFile, version, helper, verifier, platform, world);
      && o.result == Throw(InvalidSignatureError(version, reason))
      && HasCode(o.result.error, "ERR_UPDATER_INVALID_SIGNATURE")
      && o.effects[|o.effects| - 1] == RemoveTempDir
      && forall k :: 0 <= k < |o.effects| ==> !o.effects[k].Download? && !o.effects[k].DifferentialDownload?
  {
  }

  // ---------------------------------------------------------------------------
  // Differential downloads

  /** In test mode without differential downloads a full download is asked for, with nothing fetched. */
  lemma TestModeSkipsDifferential(helper: Option<DownloadedUpdate>, url: string, installerFile: string, world: DownloadWorld)
    ensures InstallerDifferentialOutcome(Some(TestOnlyOptions(false)), helper, url, installerFile, world) == Outcome([], Return(true))
  {
  }

  /** The conditions under which the installer's differential download succeeds. */
  predicate InstallerDifferentialSucceeds(testOnly: Option<TestOnlyOptions>, helper: Option<DownloadedUpdate>, world: DownloadWorld) {
    && !(testOnly.Some? && !testOnly.value.isUseDifferentialDownload)
    && helper.Some?
    && world.oldBlockMap.Parsed? && world.newBlockMap.Parsed?
    && world.installerDifferential.Ok?
  }

  /**
   * `false` (no full download needed) is returned exactly when both block maps
   * were fetched and parsed and the differential download succeeded; it is
   * then the last effect.
   */
  lemma InstallerDifferentialFalseIffSuccess(testOnly: Option<TestOnlyOptions>, helper: Option<DownloadedUpdate>,
                                             url: string, installerFile: string, world: DownloadWorld)
    ensures var o := InstallerDifferentialOutcome(testOnly, helper, url, installerFile, world);
      o.result == Return(false) <==> InstallerDifferentialSucceeds(testOnly, helper, world)
    ensures var o := InstallerDifferentialOutcome(testOnly, helper, url, installerFile, world);
      o.result == Return(false) ==>
        o.effects == [FetchBlockMap(world.blockMapUrls.0), FetchBlockMap(world.blockMapUrls.1),
                      DifferentialDownload(SeparateBlockMaps, url, helper.value.cacheDir, CurrentAppInstaller, installerFile)]
  {
  }

  /** Outside test mode every failure falls back to a full download; nothing is thrown. */
  lemma InstallerDifferentialFallsBack(helper: Option<DownloadedUpdate>, url: string, installerFile: string, world: DownloadWorld)
    ensures var o := InstallerDifferentialOutcome(None, helper, url, installerFile, world);
      o.result == Return(!InstallerDifferentialSucceeds(None, helper, world))
  {
  }

  /** An empty block map is reported with its URL, and falls back or (in test mode) is thrown. */
  lemma EmptyBlockMap(testOnly: Option<TestOnlyOptions>, cache: DownloadedUpdate, url: string, installerFile: string, world: DownloadWorld)
    requires !(testOnly.Some? && !testOnly.value.isUseDifferentialDownload)
    requires world.oldBlockMap == Empty
    ensures var o := InstallerDifferentialOutcome(testOnly, Some(cache), url, installerFile, world);
      && o.effects == [FetchBlockMap(world.blockMapUrls.0), FetchBlockMap(world.blockMapUrls.1)]
      && o.result == (if testOnly.Some? then Throw(Error(None, "Blockmap \"" + world.blockMapUrls.0 + "\" is empty")) else Return(true))
  {
  }

  /** In test mode (with differential downloads on) a failure is rethrown instead of falling back. */
  lemma TestModeRethrows(t: TestOnlyOptions, helper: Option<DownloadedUpdate>, url: string, installerFile: string, world: DownloadWorld)
    requires t.isUseDifferentialDownload
    requires !InstallerDifferentialSucceeds(Some(t), helper, world)
    ensures InstallerDifferentialOutcome(Some(t), helper, url, installerFile, world).result.Throw?
  {
  }

  /** Without a block-map size the web package is always downloaded in full, with no differential attempt. */
  lemma WebPackageWithoutBlockMap(helper: Option<DownloadedUpdate>, packageInfo: PackageInfo, packagePath: string,
                                  platform: string, world: DownloadWorld)
    requires packageInfo.blockMapSize.None?
    ensures WebPackageDifferentialOutcome(helper, packageInfo, packagePath, platform, world) == Outcome([], true)
  {
  }

  /** A failed differential download of the web package asks for a full download only on win32. */
  lemma WebPackageFailure(helper: Option<DownloadedUpdate>, packageInfo: PackageInfo, packagePath: string,
                          platform: string, world: DownloadWorld)
    requires packageInfo.blockMapSize.Some?
    requires helper.None? || world.packageDifferential.Failed?
    ensures WebPackageDifferentialOutcome(helper, packageInfo, packagePath, platform, world).result == (platform == "win32")
  {
  }

  /** A failed full download of the web package unlinks the package file and rethrows the error. */
  lemma PackageDownloadFailureUnlinks(helper: Option<DownloadedUpdate>, packageInfo: PackageInfo, packageFile: string,
                                      platform: string, world: DownloadWorld, e: Error)
    requires WebPackageDifferentialOutcome(helper, packageInfo, packageFile, platform, world).result
    requires world.packageDownload == Failed(e)
    ensures var o := PackagePhase(helper, packageInfo, packageFile, platform, world);
      && o.result == Throw(e)
      && |o.effects| >= 2
      && o.effects[|o.effects| - 2..] == [Download(packageInfo.path, packageFile), Unlink(packageFile)]
  {
  }

  // ---------------------------------------------------------------------------
  // The download task

  /** In portable mode the task is one full download: no differential attempt, no signature check. */
  lemma PortableDownloadOnly(fileInfo: FileInfo, destination: string, packageFile: Option<string>, disableWebInstaller: bool,
                             version: string, testOnly: Option<TestOnlyOptions>, helper: Option<DownloadedUpdate>,
                             verifier: Verifier, platform: string, world: DownloadWorld)
    ensures var o := DownloadTaskOutcome(true, fileInfo, destination, packageFile, disableWebInstaller, version, testOnly,
                                         helper, verifier, platform, world);
      && o.effects == [Download(fileInfo.url, destination)]
      && (o.result.Return? <==> world.installerDownload.Ok?)
  {
  }

  /** A web installer with web installers disabled is refused before anything is downloaded. */
  lemma WebInstallerDisabled(fileInfo: FileInfo, destination: string, packageFile: Option<string>, version: string,
                             testOnly: Option<TestOnlyOptions>, helper: Option<DownloadedUpdate>,
                             verifier: Verifier, platform: string, world: DownloadWorld)
    requires IsWebInstaller(fileInfo, packageFile)
    ensures var o := DownloadTaskOutcome(false, fileInfo, destination, packageFile, true, version, testOnly,
                                         helper, verifier, platform, world);
      && o.effects == []
      && o.result == Throw(WebInstallerDisabledError(version))
      && HasCode(o.result.error, "ERR_UPDATER_WEB_INSTALLER_DISABLED")
  {
  }

  /** A web installer is always downloaded in full, first, and never differentially. */
  lemma WebInstallerDownloadedInFull(fileInfo: FileInfo, destination: string, packageFile: Option<string>, version: string,
                                     testOnly: Option<TestOnlyOptions>, helper: Option<DownloadedUpdate>,
                                     verifier: Verifier, platform: string, world: DownloadWorld)
    requires IsWebInstaller(fileInfo, packageFile)
    ensures var o := DownloadTaskOutcome(false, fileInfo, destination, packageFile, false, version, testOnly,
                                         helper, verifier, platform, world);
      && o.effects[0] == Download(fileInfo.url, destination)
      && forall k :: 0 <= k < |o.effects| ==> !o.effects[k].FetchBlockMap?
  {
    var rest := VerifiedPhase(fileInfo, destination, packageFile, version, helper, verifier, platform, world);
    var sig := SignatureOutcome(world.config, verifier, destination, world.verdict);
    var pkg := PackagePhase(helper, fileInfo.packageInfo.value, packageFile.value, platform, world);
    assert forall k :: 0 <= k < |sig.effects| ==> sig.effects[k].VerifyCodeSignature?;
    assert forall k :: 0 <= k < |pkg.effects| ==> !pkg.effects[k].FetchBlockMap?;
    assert forall k :: 0 <= k < |rest.effects| ==> !rest.effects[k].FetchBlockMap?;
  }

  /**
   * For a setup installer that is not a web installer, the installer is
   * downloaded in full exactly when the differential attempt asked for it.
   */
  lemma SetupFullDownloadIff(fileInfo: FileInfo, destination: string, packageFile: Option<string>, disableWebInstaller: bool,
                             version: string, testOnly: Option<TestOnlyOptions>, helper: Option<DownloadedUpdate>,
                             verifier: Verifier, platform: string, world: DownloadWorld)
    requires !IsWebInstaller(fileInfo, packageFile)
    ensures var o := DownloadTaskOutcome(false, fileInfo, destination, packageFile, disableWebInstaller, version, testOnly,
                                         helper, verifier, platform, world);
      Download(fileInfo.url, destination) in o.effects <==>
        InstallerDifferentialOutcome(testOnly, helper, fileInfo.url, destination, world).result == Return(true)
  {
    var diff := InstallerDifferentialOutcome(testOnly, helper, fileInfo.url, destination, world);
    var rest := VerifiedPhase(fileInfo, destination, packageFile, version, helper, verifier, platform, world);
    var sig := SignatureOutcome(world.config, verifier, destination, world.verdict);
    assert forall k :: 0 <= k < |diff.effects| ==> !diff.effects[k].Download?;
    assert forall k :: 0 <= k < |sig.effects| ==> !sig.effects[k].Download?;
    assert forall k :: 0 <= k < |rest.effects| ==> !rest.effects[k].Download?;
  }
}
