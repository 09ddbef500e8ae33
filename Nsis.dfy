/**
 * The NSIS updater of electron-updater: how it downloads an update (in full,
 * differentially, or as a web installer with a separate package), how it
 * checks the code signature of what it downloaded, and how it runs the
 * installer, retrying through `elevate.exe` or falling back to the shell, or
 * replaces a portable executable through a watchdog script.
 *
 * Every effect on the world is appended to the updater's `effects` log; what
 * the world answers (spawn, download and verification results) comes in as
 * parameters. Each method is tied to a function that gives its effects and
 * its result, and the lemmas below state the properties of those functions.
 */
module Nsis {
  import opened Wrappers
  import opened UpdaterBase
  import opened Paths
  import Script
  import Text

  /** The options `quitAndInstall` hands to `doInstall`. */
  datatype InstallOptions = InstallOptions(
    installerPath: string,
    isSilent: bool,
    isForceRunAfter: bool,
    isAdminRightsRequired: bool)

  /** What the downloaded-update helper remembers of the last download. */
  datatype DownloadedUpdate = DownloadedUpdate(cacheDir: string, packageFile: Option<string>)

  /** The options tests set; their presence alone switches the updater into test mode. */
  datatype TestOnlyOptions = TestOnlyOptions(isUseDifferentialDownload: bool)

  /** The secondary package of a web installer. */
  datatype PackageInfo = PackageInfo(path: string, blockMapSize: Option<nat>)

  /** The resolved installer file. */
  datatype FileInfo = FileInfo(url: string, packageInfo: Option<PackageInfo>)

  /** What fetching one block map gave. */
  datatype BlockMapFetch =
    | Parsed                        // a non-empty buffer that gunzip and JSON.parse accepted
    | Empty                         // null or zero-length buffer
    | Unparsable(reason: string)    // gunzip or JSON.parse threw
    | FetchFailed(error: Error)     // the transport rejected

  /** What reading the on-disk update configuration gave. */
  datatype ConfigRead = ConfigLoaded(publisherName: OneOrMany<string>) | ConfigFailed(error: Error)

  /** Everything the world answers during one download task. */
  datatype DownloadWorld = DownloadWorld(
    installerDownload: IoResult,        // full download of the installer
    blockMapUrls: (string, string),     // old and new block-map URLs
    oldBlockMap: BlockMapFetch,
    newBlockMap: BlockMapFetch,
    installerDifferential: IoResult,    // the block-map differential download of the installer
    config: ConfigRead,
    verdict: Completion<Option<string>>,  // the signature verifier: null (accept) or a reason
    packageDifferential: IoResult,      // the embedded-block-map download of the package
    packageDownload: IoResult)          // full download of the package

  // ---------------------------------------------------------------------------
  // Installer arguments

  /** One argument of the installer's command line, in the order the arguments must come. */
  datatype InstallerArg = Updated | Silent | ForceRun | InstallDir(dir: string) | PackageFileArg(path: string)

  function Rank(a: InstallerArg): nat {
    match a
    case Updated => 0
    case Silent => 1
    case ForceRun => 2
    case InstallDir(_) => 3
    case PackageFileArg(_) => 4
  }

  /** The argument as the installer sees it. */
  function Render(a: InstallerArg): string {
    match a
    case Updated => "--updated"
    case Silent => "/S"
    case ForceRun => "--force-run"
    case InstallDir(d) => "/D=" + d
    case PackageFileArg(p) => "--package-file=" + p
  }

  function RenderAll(args: seq<InstallerArg>): seq<string> {
    seq(|args|, i requires 0 <= i < |args| => Render(args[i]))
  }

  /**
   * The installer's command line: "--updated", then "/S" when silent,
   * "--force-run" when the app must run afterwards, "/D=<dir>" when a custom
   * install directory is set and not empty, and "--package-file=<path>" when
   * the download left a package file; each at most once, in that order.
   */
  function InstallerArgs(isSilent: bool, isForceRunAfter: bool, installDirectory: Option<string>, packageFile: Option<string>): seq<InstallerArg> {
    [Updated] + (if isSilent then [Silent] else []) + (if isForceRunAfter then [ForceRun] else [])
      + (if Truthy(installDirectory) then [InstallDir(installDirectory.value)] else [])
      + (if packageFile.Some? then [PackageFileArg(packageFile.value)] else [])
  }

  /** Ranks strictly increase along the list: each kind of argument at most once, in rank order. */
  predicate Ranked(args: seq<InstallerArg>) {
    forall i, j :: 0 <= i < j < |args| ==> Rank(args[i]) < Rank(args[j])
  }

  /** An optional argument of rank `n` after a ranked list of lower ranks keeps it ranked. */
  lemma RankedSnoc(a: seq<InstallerArg>, opt: seq<InstallerArg>, n: nat)
    requires Ranked(a) && forall i :: 0 <= i < |a| ==> Rank(a[i]) < n
    requires |opt| <= 1 && forall i :: 0 <= i < |opt| ==> Rank(opt[i]) == n
    ensures Ranked(a + opt) && forall i :: 0 <= i < |a + opt| ==> Rank((a + opt)[i]) < n + 1
  {
  }

  /**
   * The installer's command line starts with `--updated`; `/S` is there
   * exactly when silent, `--force-run` exactly when the app must run
   * afterwards, `/D=<dir>` exactly when a custom install directory is set and
   * not empty (with that directory), `--package-file=<path>` exactly when the
   * download left a package file (with that path).
   */
  lemma InstallerArgsShape(isSilent: bool, isForceRunAfter: bool, installDirectory: Option<string>, packageFile: Option<string>)
    ensures var args := InstallerArgs(isSilent, isForceRunAfter, installDirectory, packageFile);
      && |args| >= 1 && args[0] == Updated
      && (isSilent <==> Silent in args)
      && (isForceRunAfter <==> ForceRun in args)
      && (Truthy(installDirectory) ==> InstallDir(installDirectory.value) in args)
      && (forall a :: a in args && a.InstallDir? ==> Truthy(installDirectory) && installDirectory.value == a.dir)
      && (packageFile.Some? ==> PackageFileArg(packageFile.value) in args)
      && (forall a :: a in args && a.PackageFileArg? ==> packageFile == Some(a.path))
  {
    var args := InstallerArgs(isSilent, isForceRunAfter, installDirectory, packageFile);
    forall a ensures a in args <==> IsExpectedArg(a, isSilent, isForceRunAfter, installDirectory, packageFile) {
      InstallerArgMember(a, isSilent, isForceRunAfter, installDirectory, packageFile);
    }
  }

  /** The arguments the options call for. */
  predicate IsExpectedArg(a: InstallerArg, isSilent: bool, isForceRunAfter: bool, installDirectory: Option<string>, packageFile: Option<string>) {
    || a == Updated
    || (isSilent && a == Silent)
    || (isForceRunAfter && a == ForceRun)
    || (Truthy(installDirectory) && a == InstallDir(installDirectory.value))
    || (packageFile.Some? && a == PackageFileArg(packageFile.value))
  }

  lemma InstallerArgMember(a: InstallerArg, isSilent: bool, isForceRunAfter: bool, installDirectory: Option<string>, packageFile: Option<string>)
    ensures a in InstallerArgs(isSilent, isForceRunAfter, installDirectory, packageFile) <==> IsExpectedArg(a, isSilent, isForceRunAfter, installDirectory, packageFile)
  {
    var s := if isSilent then [Silent] else [];
    var f := if isForceRunAfter then [ForceRun] else [];
    var d := if Truthy(installDirectory) then [InstallDir(installDirectory.value)] else [];
    var p := if packageFile.Some? then [PackageFileArg(packageFile.value)] else [];
    assert InstallerArgs(isSilent, isForceRunAfter, installDirectory, packageFile) == [Updated] + s + f + d + p;
  }

  /** Each kind of argument comes at most once, in the order `--updated`, `/S`, `--force-run`, `/D=`, `--package-file=`. */
  lemma InstallerArgsOrdered(isSilent: bool, isForceRunAfter: bool, installDirectory: Option<string>, packageFile: Option<string>)
    ensures Ranked(InstallerArgs(isSilent, isForceRunAfter, installDirectory, packageFile))
  {
    var s := if isSilent then [Silent] else [];
    var f := if isForceRunAfter then [ForceRun] else [];
    var d := if Truthy(installDirectory) then [InstallDir(installDirectory.value)] else [];
    var p := if packageFile.Some? then [PackageFileArg(packageFile.value)] else [];
    RankedSnoc([Updated], s, 1);
    RankedSnoc([Updated] + s, f, 2);
    RankedSnoc([Updated] + s + f, d, 3);
    RankedSnoc([Updated] + s + f + d, p, 4);
  }

  /** Different arguments reach the installer as different strings. */
  lemma RenderInjective(a: InstallerArg, b: InstallerArg)
    ensures Render(a) == Render(b) ==> a == b
  {
    if Render(a) == Render(b) {
      var r := Render(a);
      if a.InstallDir? && b.InstallDir? {
        assert a.dir == r[3..] == b.dir;
      } else if a.PackageFileArg? && b.PackageFileArg? {
        assert a.path == r[15..] == b.path;
      } else {
        RenderKind(a);
        RenderKind(b);
      }
    }
  }

  /** The second character and the length of a rendered argument tell its kind. */
  lemma RenderKind(a: InstallerArg)
    ensures var r := Render(a);
      && |r| >= 2
      && (r[1] == 'S' <==> a == Silent)
      && (r[1] == 'D' <==> a.InstallDir?)
      && (r[1] == '-' ==> (|r| == 9 <==> a == Updated) && (|r| == 11 <==> a == ForceRun) && (|r| >= 15 <==> a.PackageFileArg?))
  {
    var r := Render(a);
    match a
    case InstallDir(d) => assert r[1] == "/D="[1];
    case PackageFileArg(p) => assert r[1] == "--package-file="[1];
    case _ =>
  }

  /** An argument is on the rendered command line exactly when it is in the list. */
  lemma RenderedMember(args: seq<InstallerArg>, a: InstallerArg)
    ensures Render(a) in RenderAll(args) <==> a in args
  {
    if Render(a) in RenderAll(args) {
      var i :| 0 <= i < |args| && RenderAll(args)[i] == Render(a);
      RenderInjective(a, args[i]);
    }
    if a in args {
      var i :| 0 <= i < |args| && args[i] == a;
      assert RenderAll(args)[i] == Render(a);
    }
  }

  /**
   * The strings handed to the installer: `--updated` first, `/S` exactly when
   * silent, `--force-run` exactly when the app must run afterwards, and
   * `/D=<dir>` exactly for a set, non-empty install directory.
   */
  lemma RenderedCommandLine(isSilent: bool, isForceRunAfter: bool, installDirectory: Option<string>, packageFile: Option<string>, dir: string)
    ensures var line := RenderAll(InstallerArgs(isSilent, isForceRunAfter, installDirectory, packageFile));
      && |line| >= 1 && line[0] == "--updated"
      && ("/S" in line <==> isSilent)
      && ("--force-run" in line <==> isForceRunAfter)
      && ("/D=" + dir in line <==> Truthy(installDirectory) && installDirectory.value == dir)
  {
    var args := InstallerArgs(isSilent, isForceRunAfter, installDirectory, packageFile);
    InstallerArgsShape(isSilent, isForceRunAfter, installDirectory, packageFile);
    RenderedMember(args, Silent);
    RenderedMember(args, ForceRun);
    RenderedMember(args, InstallDir(dir));
  }

  // ---------------------------------------------------------------------------
  // Running the installer

  function ElevateExe(resourcesPath: string): string {
    PathJoin(resourcesPath, "elevate.exe")
  }

  /** One run of the installer through `elevate.exe`; its failure is dispatched, never retried. */
  function ElevationEffects(resourcesPath: string, installerPath: string, args: seq<string>, elevated: IoResult): seq<Effect> {
    [Spawn(ElevateExe(resourcesPath), [installerPath] + args)]
      + (if elevated.Failed? then [DispatchError(elevated.error)] else [])
  }

  /** A spawn error that calls for elevation. */
  predicate IsPermissionError(e: Error) {
    HasCode(e, "UNKNOWN") || HasCode(e, "EACCES")
  }

  /**
   * The effects of installing with the NSIS installer: the direct spawn (or,
   * when admin rights are required, the elevated one) and what follows its
   * failure.
   */
  function InstallEffects(options: InstallOptions, args: seq<string>, resourcesPath: string,
                          direct: IoResult, elevated: IoResult, shellOpen: IoResult): seq<Effect>
  {
    if options.isAdminRightsRequired then
      ElevationEffects(resourcesPath, options.installerPath, args, elevated)
    else
      [Spawn(options.installerPath, args)] +
      match direct
      case Ok => []
      case Failed(e) =>
        if IsPermissionError(e) then ElevationEffects(resourcesPath, options.installerPath, args, elevated)
        else if HasCode(e, "ENOENT") then
          [OpenPath(options.installerPath)] + (if shellOpen.Failed? then [DispatchError(shellOpen.error)] else [])
        else [DispatchError(e)]
  }

  // ---------------------------------------------------------------------------
  // Portable self-replacement

  /** The watchdog script that replaces the portable executable `exe` by `installer`. */
  function PortableReplaceScript(exe: string, installer: string): seq<Script.Step> {
    var backup := exe + ".backup";
    [ Script.WaitWhileRunning(Basename(exe), 2),
      Script.Copy(exe, backup, Script.Exit(1)),
      Script.Move(installer, exe, Script.RestoreThenExit(backup, exe, 1)),
      Script.Delete(backup),
      Script.Start(exe),
      Script.DeleteSelf,
      Script.ExitWith(0) ]
  }

  const PortableFileMissingError := NewError("PORTABLE_EXECUTABLE_DIR env is not defined", "ERR_UPDATER_OLD_FILE_NOT_FOUND")

  /**
   * `installPortable`: with an installer downloaded and the portable
   * executable known, write the watchdog script, start it minimised and quit.
   * `write` and `launch` say how writing and starting the script went.
   */
  function InstallPortableOutcome(installerPath: Option<string>, env: ProcessEnv, write: IoResult, launch: IoResult): Outcome<Completion<bool>> {
    if installerPath.None? then Outcome([DispatchError(NoValidUpdateError)], Return(false))
    else if !Truthy(env.portableExecutableFile) then Outcome([], Throw(PortableFileMissingError))
    else
      var exe := env.portableExecutableFile.value;
      var scriptPath := UpdateScriptPath(exe);
      var written := WriteScript(scriptPath, PortableReplaceScript(exe, installerPath.value), false);
      var started := SpawnSync("cmd", ["/c", "start", "/min", "", scriptPath]);
      if write.Failed? then Outcome([written, DispatchError(write.error)], Return(false))
      else if launch.Failed? then Outcome([written, started, DispatchError(launch.error)], Return(false))
      else Outcome([written, started, Quit], Return(true))
  }

  // ---------------------------------------------------------------------------
  // Signature verification

  /** The publisher allow-list handed to the verifier: a single name becomes a one-element list. */
  function PublisherList(publisherName: OneOrMany<string>): seq<string>
    requires !publisherName.Absent?
  {
    AsArray(publisherName)
  }

  /**
   * `verifySignature`: `None` means accept. No configured publisher, or no
   * configuration file at all, accepts without asking the verifier; any other
   * configuration error is rethrown.
   */
  function SignatureOutcome(config: ConfigRead, verifier: Verifier, file: string, verdict: Completion<Option<string>>): Outcome<Completion<Option<string>>> {
    match config
    case ConfigFailed(e) =>
      if HasCode(e, "ENOENT") then Outcome([], Return(None)) else Outcome([], Throw(e))
    case ConfigLoaded(p) =>
      if p.Absent? then Outcome([], Return(None))
      else Outcome([VerifyCodeSignature(verifier, PublisherList(p), file)], verdict)
  }

  // ---------------------------------------------------------------------------
  // Differential downloads

  /** The error `downloadBlockMap` ends with, if any. */
  function BlockMapError(url: string, fetch: BlockMapFetch): Option<Error> {
    match fetch
    case Parsed => None
    case Empty => Some(Error(None, "Blockmap \"" + url + "\" is empty"))
    case Unparsable(reason) => Some(Error(None, "Cannot parse blockmap \"" + url + ", error: " + reason))
    case FetchFailed(e) => Some(e)
  }

  /** The runtime error of dereferencing the missing downloaded-update helper. */
  const MissingHelperError := Error(None, "TypeError: downloadedUpdateHelper is not set")

  /** Falling back to a full download: `true`, or in test mode the error itself. */
  function Fallback(testOnly: Option<TestOnlyOptions>, effects: seq<Effect>, e: Error): Outcome<Completion<bool>> {
    if testOnly.Some? then Outcome(effects, Throw(e)) else Outcome(effects, Return(true))
  }

  /**
   * `differentialDownloadInstaller`: `Return(true)` asks for a full download,
   * `Return(false)` means the differential download succeeded.
   */
  function InstallerDifferentialOutcome(testOnly: Option<TestOnlyOptions>, helper: Option<DownloadedUpdate>,
                                        url: string, installerPath: string, world: DownloadWorld): Outcome<Completion<bool>> {
    if testOnly.Some? && !testOnly.value.isUseDifferentialDownload then Outcome([], Return(true))
    else if helper.None? then Fallback(testOnly, [], MissingHelperError)
    else
      var (oldUrl, newUrl) := world.blockMapUrls;
      var fetches := [FetchBlockMap(oldUrl), FetchBlockMap(newUrl)];
      var oldError := BlockMapError(oldUrl, world.oldBlockMap);
      var newError := BlockMapError(newUrl, world.newBlockMap);
      if oldError.Some? then Fallback(testOnly, fetches, oldError.value)
      else if newError.Some? then Fallback(testOnly, fetches, newError.value)
      else
        var run := DifferentialDownload(SeparateBlockMaps, url, helper.value.cacheDir, CurrentAppInstaller, installerPath);
        if world.installerDifferential.Failed? then Fallback(testOnly, fetches + [run], world.installerDifferential.error)
        else Outcome(fetches + [run], Return(false))
  }

  /**
   * `differentialDownloadWebPackage`: `true` asks for a full package
   * download. Without a block-map size it always does; a failure answers
   * whether the platform is win32.
   */
  function WebPackageDifferentialOutcome(helper: Option<DownloadedUpdate>, packageInfo: PackageInfo, packagePath: string,
                                         platform: string, world: DownloadWorld): Outcome<bool> {
    if packageInfo.blockMapSize.None? then Outcome([], true)
    else if helper.None? then Outcome([], platform == "win32")
    else
      var run := DifferentialDownload(EmbeddedBlockMap, packageInfo.path, helper.value.cacheDir, CurrentAppPackage, packagePath);
      if world.packageDifferential.Failed? then Outcome([run], platform == "win32")
      else Outcome([run], false)
  }

  // ---------------------------------------------------------------------------
  // The download task

  predicate IsWebInstaller(fileInfo: FileInfo, packageFile: Option<string>) {
    fileInfo.packageInfo.Some? && packageFile.Some?
  }

  function WebInstallerDisabledError(version: string): Error {
    NewError("Unable to download new version " + version + ". Web Installers are disabled", "ERR_UPDATER_WEB_INSTALLER_DISABLED")
  }

  function InvalidSignatureError(version: string, reason: string): Error {
    NewError("New version " + version + " is not signed by the application owner: " + reason, "ERR_UPDATER_INVALID_SIGNATURE")
  }

  /** The package phase of a web installer, after the signature check. */
  function PackagePhase(helper: Option<DownloadedUpdate>, packageInfo: PackageInfo, packageFile: string,
                        platform: string, world: DownloadWorld): Outcome<Completion<()>> {
    var diff := WebPackageDifferentialOutcome(helper, packageInfo, packageFile, platform, world);
    if !diff.result then Outcome(diff.effects, Return(()))
    else
      var fetched := diff.effects + [Download(packageInfo.path, packageFile)];
      match world.packageDownload
      case Ok => Outcome(fetched, Return(()))
      case Failed(e) => Outcome(fetched + [Unlink(packageFile)], Throw(e))
  }

  /** After the installer is on disk: the signature check, then the package of a web installer. */
  function VerifiedPhase(fileInfo: FileInfo, destination: string, packageFile: Option<string>, version: string,
                         helper: Option<DownloadedUpdate>, verifier: Verifier, platform: string,
                         world: DownloadWorld): Outcome<Completion<()>> {
    var sig := SignatureOutcome(world.config, verifier, destination, world.verdict);
    match sig.result
    case Throw(e) => Outcome(sig.effects, Throw(e))
    case Return(status) =>
      if status.Some? then Outcome(sig.effects + [RemoveTempDir], Throw(InvalidSignatureError(version, status.value)))
      else if IsWebInstaller(fileInfo, packageFile) then
        var pkg := PackagePhase(helper, fileInfo.packageInfo.value, packageFile.value, platform, world);
        Outcome(sig.effects + pkg.effects, pkg.result)
      else Outcome(sig.effects, Return(()))
  }

  /** The task `doDownloadUpdate` hands to `executeDownload`. */
  function DownloadTaskOutcome(isPortable: bool, fileInfo: FileInfo, destination: string, packageFile: Option<string>,
                               disableWebInstaller: bool, version: string, testOnly: Option<TestOnlyOptions>,
                               helper: Option<DownloadedUpdate>, verifier: Verifier, platform: string,
                               world: DownloadWorld): Outcome<Completion<()>> {
    var isWeb := IsWebInstaller(fileInfo, packageFile);
    var full := Download(fileInfo.url, destination);
    if isPortable then
      Outcome([full], if world.installerDownload.Failed? then Throw(world.installerDownload.error) else Return(()))
    else if isWeb && disableWebInstaller then Outcome([], Throw(WebInstallerDisabledError(version)))
    else
      var diff := if isWeb then Outcome([], Return(true))
                  else InstallerDifferentialOutcome(testOnly, helper, fileInfo.url, destination, world);
      match diff.result
      case Throw(e) => Outcome(diff.effects, Throw(e))
      case Return(needFull) =>
        if needFull && world.installerDownload.Failed? then
          Outcome(diff.effects + [full], Throw(world.installerDownload.error))
        else
          var before := diff.effects + (if needFull then [full] else []);
          var rest := VerifiedPhase(fileInfo, destination, packageFile, version, helper, verifier, platform, world);
          Outcome(before + rest.effects, rest.result)
  }

  // ---------------------------------------------------------------------------
  // The updater object

  class NsisUpdater {
    /** Custom install directory ("/D=" argument). */
    var installDirectory: Option<string>
    /** The code-signature verification function. */
    var verifier: Verifier
    /** The downloaded installer, if any. */
    var installerPath: Option<string>
    /** The downloaded-update helper, if any. */
    var helper: Option<DownloadedUpdate>
    /** Test-only options; when present the updater is in test mode. */
    var testOnly: Option<TestOnlyOptions>
    /** Every effect the updater has had on the world, in order. */
    var effects: seq<Effect>

    constructor ()
      ensures installDirectory == None && verifier == DefaultVerifier
      ensures installerPath == None && helper == None && testOnly == None
      ensures effects == []
    {
      installDirectory := None;
      verifier := DefaultVerifier;
      installerPath := None;
      helper := None;
      testOnly := None;
      effects := [];
    }

    /** The `verifyUpdateCodeSignature` setter: a null or undefined value keeps the current verifier. */
    method SetVerifyUpdateCodeSignature(value: Option<Verifier>)
      modifies this`verifier
      ensures value.Some? ==> verifier == value.value
      ensures value.None? ==> verifier == old(verifier)
    {
      if value.Some? {
        verifier := value.value;
      }
    }

    /** Packs the argument list for the installer the way `doInstall` does, push by push. */
    method BuildInstallerArgs(options: InstallOptions) returns (args: seq<InstallerArg>)
      ensures args == InstallerArgs(options.isSilent, options.isForceRunAfter, installDirectory,
                                    if helper.None? then None else helper.value.packageFile)
    {
      args := [Updated];
      if options.isSilent {
        args := args + [Silent];
      }
      if options.isForceRunAfter {
        args := args + [ForceRun];
      }
      if Truthy(installDirectory) {
        args := args + [InstallDir(installDirectory.value)];
      }
      var packagePath := if helper.None? then None else helper.value.packageFile;
      if packagePath.Some? {
        args := args + [PackageFileArg(packagePath.value)];
      }
    }

    /**
     * `doInstall`. In portable mode it is `installPortable`; otherwise it
     * spawns the installer (or `elevate.exe`) and returns true at once, the
     * spawn's failure being handled when it arrives: `direct`, `elevated` and
     * `shellOpen` say how the direct spawn, the elevated spawn and the shell open
     * end.
     */
    method DoInstall(options: InstallOptions, env: ProcessEnv, direct: IoResult, elevated: IoResult, shellOpen: IoResult,
                     write: IoResult, launch: IoResult) returns (r: Completion<bool>)
      modifies this`effects
      ensures IsPortable(env) ==>
        var o := InstallPortableOutcome(installerPath, env, write, launch);
        effects == old(effects) + o.effects && r == o.result
      ensures !IsPortable(env) ==> r == Return(true)
      ensures !IsPortable(env) ==>
        effects == old(effects) + InstallEffects(options,
          RenderAll(InstallerArgs(options.isSilent, options.isForceRunAfter, installDirectory,
                                  if helper.None? then None else helper.value.packageFile)),
          env.resourcesPath, direct, elevated, shellOpen)
    {
      if IsPortable(env) {
        r := InstallPortable(env, write, launch);
        return;
      }
      var argList := BuildInstallerArgs(options);
      var args := RenderAll(argList);
      if options.isAdminRightsRequired {
        CallUsingElevation(env.resourcesPath, options.installerPath, args, elevated);
        return Return(true);
      }
      ghost var start := effects;
      ghost var spawned := [Spawn(options.installerPath, args)];
      effects := effects + [Spawn(options.installerPath, args)];
      if direct.Failed? {
        var e := direct.error;
        if IsPermissionError(e) {
          CallUsingElevation(env.resourcesPath, options.installerPath, args, elevated);
          LogAssoc(start, spawned, ElevationEffects(env.resourcesPath, options.installerPath, args, elevated));
        } else if HasCode(e, "ENOENT") {
          ghost var shown := [OpenPath(options.installerPath)] + (if shellOpen.Failed? then [DispatchError(shellOpen.error)] else []);
          effects := effects + [OpenPath(options.installerPath)];
          if shellOpen.Failed? {
            effects := effects + [DispatchError(shellOpen.error)];
          }
          assert effects == start + (spawned + shown);
        } else {
          effects := effects + [DispatchError(e)];
          LogAssoc(start, spawned, [DispatchError(e)]);
        }
      } else {
        assert spawned + [] == spawned;
      }
      r := Return(true);
    }

    /** `callUsingElevation`: runs the installer through `elevate.exe`; its failure is dispatched. */
    method CallUsingElevation(resourcesPath: string, installerPath: string, args: seq<string>, elevated: IoResult)
      modifies this`effects
      ensures effects == old(effects) + ElevationEffects(resourcesPath, installerPath, args, elevated)
    {
      effects := effects + [Spawn(PathJoin(resourcesPath, "elevate.exe"), [installerPath] + args)];
      if elevated.Failed? {
        effects := effects + [DispatchError(elevated.error)];
      }
    }

    /** `installPortable`. */
    method InstallPortable(env: ProcessEnv, write: IoResult, launch: IoResult) returns (r: Completion<bool>)
      modifies this`effects
      ensures var o := InstallPortableOutcome(installerPath, env, write, launch);
        effects == old(effects) + o.effects && r == o.result
    {
      if installerPath.None? {
        effects := effects + [DispatchError(NoValidUpdateError)];
        return Return(false);
      }
      if !Truthy(env.portableExecutableFile) {
        return Throw(PortableFileMissingError);
      }
      var exe := env.portableExecutableFile.value;
      var scriptPath := UpdateScriptPath(exe);
      var script := PortableReplaceScript(exe, installerPath.value);
      effects := effects + [WriteScript(scriptPath, script, false)];
      if write.Failed? {
        effects := effects + [DispatchError(write.error)];
        return Return(false);
      }
      effects := effects + [SpawnSync("cmd", ["/c", "start", "/min", "", scriptPath])];
      if launch.Failed? {
        effects := effects + [DispatchError(launch.error)];
        return Return(false);
      }
      effects := effects + [Quit];
      r := Return(true);
    }

    /** `verifySignature` on the downloaded file. */
    method VerifySignature(config: ConfigRead, file: string, verdict: Completion<Option<string>>) returns (r: Completion<Option<string>>)
      modifies this`effects
      ensures var o := SignatureOutcome(config, verifier, file, verdict);
        effects == old(effects) + o.effects && r == o.result
    {
      match config {
        case ConfigFailed(e) =>
          if HasCode(e, "ENOENT") {
            return Return(None);
          }
          return Throw(e);
        case ConfigLoaded(p) =>
          if p.Absent? {
            return Return(None);
          }
          effects := effects + [VerifyCodeSignature(verifier, PublisherList(p), file)];
          r := verdict;
      }
    }

    /** `differentialDownloadInstaller`. */
    method DifferentialDownloadInstaller(url: string, installerFile: string, world: DownloadWorld) returns (r: Completion<bool>)
      modifies this`effects
      ensures var o := InstallerDifferentialOutcome(testOnly, helper, url, installerFile, world);
        effects == old(effects) + o.effects && r == o.result
    {
      if testOnly.Some? && !testOnly.value.isUseDifferentialDownload {
        return Return(true);
      }
      var failure: Option<Error> := None;
      if helper.None? {
        failure := Some(MissingHelperError);
      } else {
        var (oldUrl, newUrl) := world.blockMapUrls;
        effects := effects + [FetchBlockMap(oldUrl), FetchBlockMap(newUrl)];
        var oldError := BlockMapError(oldUrl, world.oldBlockMap);
        var newError := BlockMapError(newUrl, world.newBlockMap);
        if oldError.Some? {
          failure := oldError;
        } else if newError.Some? {
          failure := newError;
        } else {
          effects := effects + [DifferentialDownload(SeparateBlockMaps, url, helper.value.cacheDir, CurrentAppInstaller, installerFile)];
          if world.installerDifferential.Failed? {
            failure := Some(world.installerDifferential.error);
          } else {
            return Return(false);
          }
        }
      }
      if testOnly.Some? {
        return Throw(failure.value);
      }
      r := Return(true);
    }

    /** `differentialDownloadWebPackage`. */
    method DifferentialDownloadWebPackage(packageInfo: PackageInfo, packagePath: string, platform: string, world: DownloadWorld) returns (needFull: bool)
      modifies this`effects
      ensures var o := WebPackageDifferentialOutcome(helper, packageInfo, packagePath, platform, world);
        effects == old(effects) + o.effects && needFull == o.result
    {
      if packageInfo.blockMapSize.None? {
        return true;
      }
      if helper.None? {
        return platform == "win32";
      }
      effects := effects + [DifferentialDownload(EmbeddedBlockMap, packageInfo.path, helper.value.cacheDir, CurrentAppPackage, packagePath)];
      if world.packageDifferential.Failed? {
        return platform == "win32";
      }
      needFull := false;
    }

    /** The download task of `doDownloadUpdate`, run by `executeDownload` with its destination files. */
    method DownloadTask(env: ProcessEnv, fileInfo: FileInfo, destination: string, packageFile: Option<string>,
                        disableWebInstaller: bool, version: string, world: DownloadWorld) returns (r: Completion<()>)
      modifies this`effects
      ensures var o := DownloadTaskOutcome(IsPortable(env), fileInfo, destination, packageFile, disableWebInstaller,
                                           version, testOnly, helper, verifier, env.platform, world);
        effects == old(effects) + o.effects && r == o.result
    {
      var isWeb := IsWebInstaller(fileInfo, packageFile);
      if IsPortable(env) {
        effects := effects + [Download(fileInfo.url, destination)];
        if world.installerDownload.Failed? {
          return Throw(world.installerDownload.error);
        }
        return Return(());
      }
      if isWeb && disableWebInstaller {
        return Throw(WebInstallerDisabledError(version));
      }
      ghost var start := effects;
      ghost var diff := if isWeb then Outcome([], Return(true))
                        else InstallerDifferentialOutcome(testOnly, helper, fileInfo.url, destination, world);
      var needFull: bool;
      if isWeb {
        needFull := true;
        assert effects == start + diff.effects;
      } else {
        var d := DifferentialDownloadInstaller(fileInfo.url, destination, world);
        if d.Throw? {
          return Throw(d.error);
        }
        needFull := d.value;
      }
      ghost var before := diff.effects + (if needFull then [Download(fileInfo.url, destination)] else []);
      if needFull {
        LogAssoc(start, diff.effects, [Download(fileInfo.url, destination)]);
        effects := effects + [Download(fileInfo.url, destination)];
        if world.installerDownload.Failed? {
          return Throw(world.installerDownload.error);
        }
      } else {
        assert before == diff.effects;
      }
      assert effects == start + before;
      ghost var rest := VerifiedPhase(fileInfo, destination, packageFile, version, helper, verifier, env.platform, world);
      LogAssoc(start, before, rest.effects);
      r := CheckAndFetchPackage(fileInfo, destination, packageFile, version, env.platform, world);
    }

    /** The rest of the task once the installer is on disk: the signature check, then a web installer's package. */
    method CheckAndFetchPackage(fileInfo: FileInfo, destination: string, packageFile: Option<string>, version: string,
                                platform: string, world: DownloadWorld) returns (r: Completion<()>)
      modifies this`effects
      ensures var o := VerifiedPhase(fileInfo, destination, packageFile, version, helper, verifier, platform, world);
        effects == old(effects) + o.effects && r == o.result
    {
      var status := VerifySignature(world.config, destination, world.verdict);
      if status.Throw? {
        return Throw(status.error);
      }
      if status.value.Some? {
        effects := effects + [RemoveTempDir];
        return Throw(InvalidSignatureError(version, status.value.value));
      }
      if IsWebInstaller(fileInfo, packageFile) {
        var packageInfo := fileInfo.packageInfo.value;
        var fullPackage := DifferentialDownloadWebPackage(packageInfo, packageFile.value, platform, world);
        if fullPackage {
          effects := effects + [Download(packageInfo.path, packageFile.value)];
          if world.packageDownload.Failed? {
            effects := effects + [Unlink(packageFile.value)];
            return Throw(world.packageDownload.error);
          }
        }
      }
      r := Return(());
    }
  }
}
