# Windows updaters and the AppX manifest, in Dafny

This project models three parts of electron-builder:

- **The NSIS updater** of `electron-updater`:
  - It picks and downloads the new installer: in full, differentially from block maps, or as a web installer plus its package.
  - It checks the installer's code signature against the publisher names in the app's update configuration.
  - It starts the installer with the arguments its flags ask for. When starting fails for lack of rights, it retries through `elevate.exe`. When the installer is not found, it opens it with the shell.
  - In portable mode it replaces the running executable through a watchdog batch script.
- **The portable updater** of `electron-updater`:
  - It downloads the new executable in full.
  - It moves the download beside the running executable as `<name>.new`.
  - It writes and starts an `update.cmd` that swaps the file in once the app has quit.
- **The AppX manifest helpers** of `app-builder-lib`:
  - validation and selection of the identity name and the application id;
  - the `${macro}` expansion of the manifest template;
  - the resource-language, lock-screen, default-tile and splash-screen elements;
  - the selection of user and default assets;
  - the `<Extensions>` element;
  - the `[Files]` mapping file.

The updaters are classes with an effect log. Each method appends what it does to a `seq<Effect>` field, in order:

- spawning a process;
- downloading;
- fetching a block map;
- a differential download;
- a shell open;
- writing a script;
- unlinking a file;
- dispatching an error;
- quitting.

How each operation of the outside world ends (a spawn, a download, a file write) is a parameter of the method. Each method's `ensures` ties the new log and the result to a function of the inputs and the old state. The properties are lemmas about those functions.

A watchdog script is a sequence of steps rather than text. `Script.Execute` interprets the steps, given the set of steps whose command fails. It returns the commands attempted and how the script ended.

The AppX side is functions over strings plus the loops the code has:

- the `+=` loops of `getExtensions`;
- the `push` loops of `computeUserAssets` and `defaultTileTag`;
- the expansion of the template;
- the mapping loop of `build`.

Each loop is a method proved equal to a specification function, and the properties are proved about that function.

Modules:

| module | contents |
|---|---|
| `Wrappers` | Option, Result, `OneOrMany` with `asArray`, JavaScript truthiness and `||` on strings |
| `Text` | `includes`, `indexOf`, `replace` of the first occurrence, `join`, ASCII `toUpperCase`, `parseInt` and `toString` of numbers |
| `Paths` | `path.dirname`, `path.basename` and `path.join` with `\` as the joining separator, with their round trips |
| `Script` | watchdog scripts as steps, and what running one does |
| `UpdaterBase` | errors with codes, outcomes of the outside world, effects, counts of effects |
| `Nsis` | class `NsisUpdater` and the functions that specify its methods |
| `NsisProperties` | lemmas about the NSIS updater |
| `Portable` | class `PortableUpdater`, its specification and lemmas |
| `AppxNames` | the identity-name and application-id macros |
| `AppxAssets` | asset inclusion, the tag builders and `computeUserAssets` |
| `AppxExtensions` | `getExtensions` |
| `AppxManifest` | the macro switch, template expansion, resource languages, the mapping file |

Easily missed behaviour of the code, which the model follows:

- A rejected signature removes the temporary download directory before the error is thrown. The downloaded installer is not kept for diagnosis.
- The portable updater's script has no backup step. Only the NSIS updater's script backs up and restores.
- The portable updater stages the download as `<exe>.new`. The NSIS updater's portable mode moves the installer straight over the executable.
- The portable updater does not read `PORTABLE_EXECUTABLE_FILE` at all. It uses the path of the running executable, so it has no "marker missing" error.

## Model

Paths are relative to the repository root.

| member | source | states |
|---|---|---|
| Text.IndexOf | packages/app-builder-lib/src/targets/AppxTarget.ts:441 | The result is -1 exactly when the substring does not occur. Otherwise it is a position where it occurs, and there is no earlier one. |
| Text.ReplaceFirst | packages/app-builder-lib/src/targets/AppxTarget.ts:237-240 | A string pattern replaces only its first occurrence. A string without the pattern is unchanged. |
| Text.ReplaceChar | packages/app-builder-lib/src/targets/AppxTarget.ts:398 | `replace(/_/g, "-")` keeps the length and replaces every occurrence of the character, and only those. |
| Text.ToUpperAscii | packages/app-builder-lib/src/targets/AppxTarget.ts:252 | Upper-casing maps each character on its own and keeps the length. |
| Text.NatToString | packages/app-builder-lib/src/targets/AppxTarget.ts:237-240 | A number prints as decimal digits, with no leading zero unless it is 0. |
| Text.ParseIntOfNatToString | packages/app-builder-lib/src/targets/AppxTarget.ts:230 | `parseInt` of a printed number followed by a non-digit gives the number back. |
| Text.DigitsValueLeadingZero | packages/app-builder-lib/src/targets/AppxTarget.ts:230 | A leading zero does not change the value `parseInt` reads. |
| Text.Utf16LengthBounds | packages/app-builder-lib/src/targets/AppxTarget.ts:246 | A string's UTF-16 length lies between its number of characters and twice that. |
| Text.Utf16LengthOfBmp | packages/app-builder-lib/src/targets/AppxTarget.ts:266 | A string of characters up to U+FFFF has as many UTF-16 units as characters. |
| Text.Utf16LengthOfAstral | packages/app-builder-lib/src/targets/AppxTarget.ts:246 | A string of characters above U+FFFF has two UTF-16 units per character. |
| Text.ParseInt | packages/app-builder-lib/src/targets/AppxTarget.ts:230 | `parseInt(s, 10)`; its properties are stated by `Text.ParseIntOfNatToString`, `Text.ParseIntOfDigits` and `Text.ParseIntOfUnsigned`. |
| Paths.Dirname | packages/electron-updater/src/PortableUpdater.ts:41 | `path.dirname`; see `Paths.SplitJoin` and `Paths.JoinSplit`. |
| Paths.Basename | packages/electron-updater/src/PortableUpdater.ts:42 | `path.basename`; see `Paths.SplitJoin` and `Paths.JoinSplit`. |
| Paths.PathJoin | packages/electron-updater/src/PortableUpdater.ts:43 | `path.join` of two parts; see `Paths.SplitJoin`, `Paths.JoinSplit` and `Paths.LastSeparatorOfJoin`. |
| Paths.SplitJoin | packages/electron-updater/src/PortableUpdater.ts:40-43 | For a name with no separator, `dirname` of `path.join(dir, name)` is `dir` and `basename` is `name`. |
| Paths.JoinSplit | packages/electron-updater/src/PortableUpdater.ts:40-43 | When the last separator is a backslash, joining a path's `dirname` and `basename` gives the path back. |
| Nsis.InstallerArgs | packages/electron-updater/src/NsisUpdater.ts:137-162 | The installer's arguments; stated by `Nsis.InstallerArgsShape`, `Nsis.InstallerArgMember` and `Nsis.InstallerArgsOrdered`. |
| Nsis.InstallerArgsShape | packages/electron-updater/src/NsisUpdater.ts:137-162 | The arguments start with `--updated`. `/S` is present iff silent and `--force-run` iff force-run. `/D=dir` is present iff an install directory is set, and with that directory. `--package-file=p` is present iff a package file was recorded, and with that file. |
| Nsis.InstallerArgMember | packages/electron-updater/src/NsisUpdater.ts:137-162 | An argument is on the command line iff it is `--updated` or one the options call for: `/S` when silent, `--force-run` when force-run, `/D=dir` for a set, non-empty install directory, and `--package-file=p` for a recorded package file. |
| Nsis.InstallerArgsOrdered | packages/electron-updater/src/NsisUpdater.ts:137-162 | Each kind of argument appears at most once, in the order the installer expects. |
| Nsis.RenderInjective | packages/electron-updater/src/NsisUpdater.ts:137-162 | Different arguments are rendered as different command-line strings. |
| Nsis.RenderedMember | packages/electron-updater/src/NsisUpdater.ts:137-162 | A rendered argument is on the command line exactly when the argument is in the list. |
| Nsis.RenderedCommandLine | packages/electron-updater/src/NsisUpdater.ts:137-162 | The command line starts with `--updated`; `/S` is on it iff silent, `--force-run` iff force-run, and `/D=dir` iff the install directory is set, not empty and equal to `dir`. |
| Nsis.PortableReplaceScript | packages/electron-updater/src/NsisUpdater.ts:218-259 | The NSIS portable-mode watchdog script; stated by `NsisProperties.PortableScriptTail`, `PortableScriptSucceeds`, `PortableScriptBackupFails`, `PortableScriptMoveFails` and `PortableScriptOrdering`. |
| Nsis.InstallPortableOutcome | packages/electron-updater/src/NsisUpdater.ts:194-277 | The effects and result of `installPortable`; stated by `NsisProperties.PortableWithoutInstaller`, `PortableWithoutExecutable`, `UpdateScriptBesideExecutable`, `PortableInstallSucceeds` and `PortableInstallFailure`. |
| Nsis.SignatureOutcome | packages/electron-updater/src/NsisUpdater.ts:119-134 | The effects and verdict of `verifySignature`; stated by `NsisProperties.MissingConfigAccepts`, `ConfigErrorRethrown`, `NoPublisherAccepts` and `SinglePublisherIsList`. |
| Nsis.InstallerDifferentialOutcome | packages/electron-updater/src/NsisUpdater.ts:279-334 | The effects and result of `differentialDownloadInstaller`; stated by `NsisProperties.TestModeSkipsDifferential`, `InstallerDifferentialFalseIffSuccess`, `InstallerDifferentialFallsBack`, `EmptyBlockMap` and `TestModeRethrows`. |
| Nsis.WebPackageDifferentialOutcome | packages/electron-updater/src/NsisUpdater.ts:336-368 | The effects and result of `differentialDownloadWebPackage`; stated by `NsisProperties.WebPackageWithoutBlockMap` and `WebPackageFailure`. |
| Nsis.DownloadTaskOutcome | packages/electron-updater/src/NsisUpdater.ts:59-112 | The effects and result of the download task; stated by `NsisProperties.PortableDownloadOnly`, `WebInstallerDisabled`, `WebInstallerDownloadedInFull`, `SetupFullDownloadIff`, `RejectedSignatureStops` and `PackageDownloadFailureUnlinks`. |
| Nsis.NsisUpdater.constructor | packages/electron-updater/src/NsisUpdater.ts:24-29 | A new updater has no install directory, the default signature verifier, no downloaded update and an empty log. |
| Nsis.NsisUpdater.SetVerifyUpdateCodeSignature | packages/electron-updater/src/NsisUpdater.ts:39-43 | A given verifier replaces the current one. An absent one leaves it unchanged. |
| Nsis.NsisUpdater.BuildInstallerArgs | packages/electron-updater/src/NsisUpdater.ts:137-162 | The `push` sequence builds exactly `InstallerArgs` of the options, the install directory and the recorded package file. |
| Nsis.NsisUpdater.CallUsingElevation | packages/electron-updater/src/NsisUpdater.ts:164-166 | The log grows by the spawn of `elevate.exe` with the installer path and the arguments, then the dispatched error when that spawn fails. |
| Nsis.NsisUpdater.DoInstall | packages/electron-updater/src/NsisUpdater.ts:136-192 | In portable mode it behaves exactly as `installPortable`. Otherwise the result is `true`, and the log grows by the start, elevation and shell-open effects of the rendered arguments. |
| Nsis.NsisUpdater.InstallPortable | packages/electron-updater/src/NsisUpdater.ts:194-277 | The log grows by, and the result is, `InstallPortableOutcome`: its guards, script write, launch, quit and dispatched failures. |
| Nsis.NsisUpdater.VerifySignature | packages/electron-updater/src/NsisUpdater.ts:119-134 | The log and the result are those of `SignatureOutcome` for the current verifier. |
| Nsis.NsisUpdater.DifferentialDownloadInstaller | packages/electron-updater/src/NsisUpdater.ts:279-334 | The log and the result are those of `InstallerDifferentialOutcome` for the updater's test options and downloaded update. |
| Nsis.NsisUpdater.DifferentialDownloadWebPackage | packages/electron-updater/src/NsisUpdater.ts:336-368 | The log and the "full download needed" answer are those of `WebPackageDifferentialOutcome`. |
| Nsis.NsisUpdater.DownloadTask | packages/electron-updater/src/NsisUpdater.ts:59-112 | The download task's log and completion are those of `DownloadTaskOutcome` for the mode, the file and the world's answers. |
| Nsis.NsisUpdater.CheckAndFetchPackage | packages/electron-updater/src/NsisUpdater.ts:83-110 | What follows the installer download, as `VerifiedPhase`: the signature check, then the web package. |
| NsisProperties.AdminRightsSpawnsElevateOnce | packages/electron-updater/src/NsisUpdater.ts:164-172 | With admin rights required, the first effect is a spawn of `elevate.exe` with the installer path in front of the arguments, and the installer is never spawned directly. At most one error (the elevation's) is dispatched. |
| NsisProperties.DirectStartSucceeds | packages/electron-updater/src/NsisUpdater.ts:174 | A direct start that succeeds is the only effect. |
| NsisProperties.PermissionDeniedElevatesOnce | packages/electron-updater/src/NsisUpdater.ts:174-182 | After `EACCES` or `UNKNOWN` there is exactly one elevation attempt after the direct spawn. Its failure is dispatched once and not retried. |
| NsisProperties.NotFoundOpensWithShell | packages/electron-updater/src/NsisUpdater.ts:183-186 | After `ENOENT` the installer is opened with the shell. An error is dispatched only when that open fails. |
| NsisProperties.OtherFailureDispatchedOnce | packages/electron-updater/src/NsisUpdater.ts:187-189 | Any other failure code is dispatched once, and nothing else happens. |
| NsisProperties.PortableWithoutInstaller | packages/electron-updater/src/NsisUpdater.ts:195-199 | Without an installer path, one error is dispatched and the result is `false`. This happens whatever the environment says: the variable is not looked at. |
| NsisProperties.PortableWithoutExecutable | packages/electron-updater/src/NsisUpdater.ts:202-205 | A missing or empty `PORTABLE_EXECUTABLE_FILE` throws `ERR_UPDATER_OLD_FILE_NOT_FOUND` with no effect: it is not dispatched and no script is written. |
| NsisProperties.UpdateScriptBesideExecutable | packages/electron-updater/src/NsisUpdater.ts:207-217 | `update.cmd` lies in the directory of the portable executable. |
| NsisProperties.PortableInstallSucceeds | packages/electron-updater/src/NsisUpdater.ts:265-272 | On success the updater writes the script, starts it minimised, quits, and returns `true`, in that order. |
| NsisProperties.PortableInstallFailure | packages/electron-updater/src/NsisUpdater.ts:273-276 | A failed write or launch is dispatched exactly once, as the last effect. There is no quit, and the result is `false`. |
| NsisProperties.PortableScriptTail | packages/electron-updater/src/NsisUpdater.ts:251-258 | After the move, the script deletes the backup, starts the executable, deletes itself and exits 0. |
| NsisProperties.PortableScriptSucceeds | packages/electron-updater/src/NsisUpdater.ts:218-259 | When nothing fails, the script waits, backs up, moves the new version in, deletes the backup, starts it, deletes itself and exits 0. |
| NsisProperties.PortableScriptBackupFails | packages/electron-updater/src/NsisUpdater.ts:236-241 | A failed backup copy exits 1 before anything is moved. |
| NsisProperties.PortableScriptMoveFails | packages/electron-updater/src/NsisUpdater.ts:243-249 | A failed move restores the backup over the executable and exits 1. |
| NsisProperties.PortableScriptOrdering | packages/electron-updater/src/NsisUpdater.ts:218-259 | For every pattern of failures: the backup comes before the move; the restore happens iff the move failed after a successful backup; the executable is started iff backup and move both succeeded, and the same holds for exit status 0. |
| NsisProperties.MissingConfigAccepts | packages/electron-updater/src/NsisUpdater.ts:126-129 | A missing update configuration (`ENOENT`) accepts the file without calling the verifier. |
| NsisProperties.ConfigErrorRethrown | packages/electron-updater/src/NsisUpdater.ts:126-131 | Any other configuration error is rethrown. |
| NsisProperties.NoPublisherAccepts | packages/electron-updater/src/NsisUpdater.ts:122-124 | Without a publisher name the file is accepted without calling the verifier. |
| NsisProperties.SinglePublisherIsList | packages/electron-updater/src/NsisUpdater.ts:133 | A single publisher is checked as a one-element list, and the verifier's verdict is returned. |
| NsisProperties.RejectedSignatureStops | packages/electron-updater/src/NsisUpdater.ts:83-91 | A rejection removes the temporary directory as the last effect and throws `ERR_UPDATER_INVALID_SIGNATURE`. No web package is downloaded, fully or differentially. |
| NsisProperties.TestModeSkipsDifferential | packages/electron-updater/src/NsisUpdater.ts:286-288 | In test mode without differential downloads, it asks for a full download and fetches nothing. |
| NsisProperties.InstallerDifferentialFalseIffSuccess | packages/electron-updater/src/NsisUpdater.ts:279-334 | "No full download needed" is returned iff the differential download is allowed, the cache helper exists, both block maps parse and the differential download succeeds. The effects are then exactly the two block-map fetches and that download. |
| NsisProperties.InstallerDifferentialFallsBack | packages/electron-updater/src/NsisUpdater.ts:326-333 | Outside test mode nothing is thrown. Every failure becomes "full download needed". |
| NsisProperties.EmptyBlockMap | packages/electron-updater/src/NsisUpdater.ts:298-300 | An empty old block map is reported with its URL: it falls back, or is thrown in test mode. |
| NsisProperties.TestModeRethrows | packages/electron-updater/src/NsisUpdater.ts:326-331 | In test mode with differential downloads on, any failure is thrown instead of falling back. |
| NsisProperties.WebPackageWithoutBlockMap | packages/electron-updater/src/NsisUpdater.ts:342-344 | A package without a block-map size is downloaded in full, with no differential attempt. |
| NsisProperties.WebPackageFailure | packages/electron-updater/src/NsisUpdater.ts:362-366 | A failed differential package download asks for a full download exactly when the platform is `win32`. |
| NsisProperties.PackageDownloadFailureUnlinks | packages/electron-updater/src/NsisUpdater.ts:93-108 | A failed full package download is followed by unlinking the package file, and the error is rethrown. |
| NsisProperties.PortableDownloadOnly | packages/electron-updater/src/NsisUpdater.ts:63-66 | In portable mode the task is one full download, with no signature check. It completes iff that download does. |
| NsisProperties.WebInstallerDisabled | packages/electron-updater/src/NsisUpdater.ts:68-73 | With web installers disabled, a web installer throws `ERR_UPDATER_WEB_INSTALLER_DISABLED` before any effect. |
| NsisProperties.WebInstallerDownloadedInFull | packages/electron-updater/src/NsisUpdater.ts:79-81 | A web installer is downloaded in full, first, and no block map is ever fetched. |
| NsisProperties.SetupFullDownloadIff | packages/electron-updater/src/NsisUpdater.ts:79-81 | For an installer that is not a web installer, the full download happens iff the differential attempt asked for it. |
| Portable.PortableUpdater.constructor | packages/electron-updater/src/PortableUpdater.ts:10-12 | A new updater has no downloaded installer and an empty log. |
| Portable.PortableUpdater.DownloadTask | packages/electron-updater/src/PortableUpdater.ts:23-28 | The task is one full download of the file's URL to the update file, completing iff the download does. |
| Portable.PortableUpdater.DoInstall | packages/electron-updater/src/PortableUpdater.ts:32-82 | The log and the result are those of `InstallOutcome` for the installer path and the executable path. |
| Portable.ReplaceScript | packages/electron-updater/src/PortableUpdater.ts:55-69 | The portable watchdog script; stated by `Portable.ReplaceScriptRun`. |
| Portable.InstallOutcome | packages/electron-updater/src/PortableUpdater.ts:32-82 | The effects and result of `doInstall`; stated by `Portable.InstallWithoutInstaller`, `Portable.StagingBesideExecutable`, `Portable.InstallSucceeds` and `Portable.InstallFailure`. |
| Portable.InstallWithoutInstaller | packages/electron-updater/src/PortableUpdater.ts:33-37 | Without an installer path, exactly one error is dispatched, nothing is spawned, there is no quit, and the result is `false`. |
| Portable.StagingBesideExecutable | packages/electron-updater/src/PortableUpdater.ts:40-43 | The staging file lies in the executable's directory, named after it plus `.new`. |
| Portable.InstallSucceeds | packages/electron-updater/src/PortableUpdater.ts:46-77 | On success the effects are: move the download to `.new`, write `update.cmd`, start it minimised, quit. The result is `true`. |
| Portable.InstallFailure | packages/electron-updater/src/PortableUpdater.ts:46-81 | The error of the first failing step (move, then write, then launch) is dispatched exactly once, as the last effect. The move always comes first, there is no quit, and the result is `false`. |
| Portable.ReplaceScriptRun | packages/electron-updater/src/PortableUpdater.ts:55-69 | The script waits for the executable to quit, moves `.new` over it, starts it and deletes itself. There is no backup. |
| AppxNames.IdentityNameMacro | packages/app-builder-lib/src/targets/AppxTarget.ts:263-281 | `identityName \|\| name` is accepted iff its length in UTF-16 code units (JavaScript's `length`) is 3 to 50, every character is in `[a-zA-Z0-9.-]` and its upper case is not a reserved device name. Accepted, it is the value. Refused, it is an invalid-configuration error. |
| AppxNames.AstralIdentityName | packages/app-builder-lib/src/targets/AppxTarget.ts:266-271 | `a` followed by one emoji is 3 UTF-16 units long, so it passes the length check and is refused by the character check, with that message. |
| AppxNames.RestrictedIdentityRefused | packages/app-builder-lib/src/targets/AppxTarget.ts:272-274 | A reserved device name in any letter case passes the first two checks and is refused as restricted. |
| AppxNames.RestrictedLengths | packages/app-builder-lib/src/targets/AppxTarget.ts:22-45 | Every reserved device name has 3 or 4 characters. |
| AppxNames.ApplicationIdPatternIff | packages/app-builder-lib/src/targets/AppxTarget.ts:229 | The segment pattern accepts exactly the strings that start with a letter, hold only letters, digits and periods, and have a letter after every period. |
| AppxNames.ValidateApplicationId | packages/app-builder-lib/src/targets/AppxTarget.ts:246-260 | The chosen id is accepted iff its length in UTF-16 code units is 1 to 64, it matches the pattern and it is not restricted. Accepted, it is the value. Refused, it is an invalid-configuration error. |
| AppxNames.AstralApplicationIdTooLong | packages/app-builder-lib/src/targets/AppxTarget.ts:246-249 | An id of 33 characters outside the Basic Multilingual Plane is 66 UTF-16 units long and gets the length message. |
| AppxNames.RestrictedValuesJson | packages/app-builder-lib/src/targets/AppxTarget.ts:253 | The restricted names appear in the message as the JSON text `["CON","PRN","AUX","NUL","COM1",…,"COM9","LPT1",…,"LPT9"]`, in the order of the list. |
| AppxNames.IdentityNumber | packages/app-builder-lib/src/targets/AppxTarget.ts:230 | `parseInt(identityName, 10) \|\| NaN`; stated by `AppxNames.DoubleZeroNumber` and the identity-name lemmas below. |
| AppxNames.SelectApplicationId | packages/app-builder-lib/src/targets/AppxTarget.ts:231-245 | The candidate id before validation; stated by `AppxNames.ExplicitApplicationIdWins`, `UnnumberedIdentityName`, `NumberedIdentityName`, `LeadingZeroIdentityName` and `DoubleZeroSelected`. |
| AppxNames.ApplicationIdMacro | packages/app-builder-lib/src/targets/AppxTarget.ts:228-261 | The `applicationId` macro; stated by `AppxNames.DoubleZeroIdentityName` and `ValidateApplicationId`. |
| AppxNames.ExplicitApplicationIdWins | packages/app-builder-lib/src/targets/AppxTarget.ts:232-233 | A non-empty `applicationId` is used as it is. |
| AppxNames.UnnumberedIdentityName | packages/app-builder-lib/src/targets/AppxTarget.ts:242-244 | Without an explicit id, and when the identity name has no nonzero leading number, the result is `identityName \|\| name`. |
| AppxNames.NumberedIdentityName | packages/app-builder-lib/src/targets/AppxTarget.ts:238-241 | An identity name made of a positive number and a rest that does not start with a digit gives the rest. |
| AppxNames.LeadingZeroIdentityName | packages/app-builder-lib/src/targets/AppxTarget.ts:235-237 | An identity name made of "0", a positive number and such a rest also gives the rest. |
| AppxNames.DoubleZeroIdentityName | packages/app-builder-lib/src/targets/AppxTarget.ts:230-251 | With two leading zeros only one goes with the number: `0012Foo` gives `0Foo`, which the pattern refuses. |
| AppxNames.DoubleZeroNumber | packages/app-builder-lib/src/targets/AppxTarget.ts:230 | `parseInt("0012Foo", 10)` is 12. |
| AppxNames.DoubleZeroSelected | packages/app-builder-lib/src/targets/AppxTarget.ts:235-237 | With no application id, the identity name `0012Foo` gives the candidate `0Foo`: the code removes the first `012`. |
| AppxAssets.AnyContains | packages/app-builder-lib/src/targets/AppxTarget.ts:442 | `some(it => it.includes(sub))` holds iff some asset name contains `sub`. |
| AppxAssets.IsScaledAssetsProvided | packages/app-builder-lib/src/targets/AppxTarget.ts:445-447 | Holds iff some user asset contains `.scale-` or `.targetsize-`. |
| AppxAssets.IsDefaultAssetIncluded | packages/app-builder-lib/src/targets/AppxTarget.ts:440-443 | `isDefaultAssetIncluded`; stated by `AppxAssets.PrefixWithoutPeriod` and `AppxAssets.IncludedPng`. |
| AppxAssets.PrefixOfName | packages/app-builder-lib/src/targets/AppxTarget.ts:441 | The part before the first period of `base.ext` is `base`. |
| AppxAssets.PrefixWithoutPeriod | packages/app-builder-lib/src/targets/AppxTarget.ts:440-443 | A default name with no period (index -1 cuts it to "") is "included" as soon as there is any user asset. |
| AppxAssets.IncludedPng | packages/app-builder-lib/src/targets/AppxTarget.ts:440-443 | `base.png` is included iff some user asset contains `base`. |

| AppxAssets.LockScreenIff | packages/app-builder-lib/src/targets/AppxTarget.ts:401-407 | The lock-screen element is present iff some user asset contains `BadgeLogo`. |
| AppxAssets.SplashScreenIff | packages/app-builder-lib/src/targets/AppxTarget.ts:432-438 | The splash-screen element is present iff some user asset contains `SplashScreen`. |
| AppxAssets.DefaultTileTag | packages/app-builder-lib/src/targets/AppxTarget.ts:409-430 | `defaultTileTag`; stated by `AppxAssets.DefaultTileText`, `DefaultTileAttributes` and `TileText`. |
| AppxAssets.PushTileClosing | packages/app-builder-lib/src/targets/AppxTarget.ts:419-428 | The closing pushes append exactly the closing words for the show-name choice. |
| AppxAssets.BuildDefaultTileTag | packages/app-builder-lib/src/targets/AppxTarget.ts:409-430 | The push-by-push build gives the specified default-tile element. |
| AppxAssets.DefaultTileAttributes | packages/app-builder-lib/src/targets/AppxTarget.ts:410-417 | The tile starts with the element name and the wide logo. The large-tile attribute is present iff a large tile is included, and the small-tile one iff a small tile is. The large comes before the small. |
| AppxAssets.HiddenNameText | packages/app-builder-lib/src/targets/AppxTarget.ts:426-428 | Without names on tiles, the element closes itself with `/>`. |
| AppxAssets.ShownNameClosingTag | packages/app-builder-lib/src/targets/AppxTarget.ts:419-425 | With names on tiles, the element ends with ` </uap:DefaultTile>`. |
| AppxAssets.ShownNameNotSelfClosing | packages/app-builder-lib/src/targets/AppxTarget.ts:419-425 | With names on tiles, the element does not end with `/>`. |
| AppxAssets.TileText | packages/app-builder-lib/src/targets/AppxTarget.ts:410-429 | For any attribute list with the fixed first two words: the start, the `/>` iff names are hidden, and the closing tag when shown. |
| AppxAssets.DefaultTileText | packages/app-builder-lib/src/targets/AppxTarget.ts:409-430 | The default-tile element starts with `<uap:DefaultTile Wide310x150Logo=...`. It ends with `/>` iff names are not shown, and with `</uap:DefaultTile>` when they are. |
| AppxAssets.UserAssets | packages/app-builder-lib/src/targets/AppxTarget.ts:174 | A directory entry is kept iff it does not start with `.`, does not end with `.db` and contains a `.`. |
| AppxAssets.ChosenDefaultsMembers | packages/app-builder-lib/src/targets/AppxTarget.ts:181-187 | A default is chosen iff there are no user assets or it is not included. |
| AppxAssets.AddVendorDefaults | packages/app-builder-lib/src/targets/AppxTarget.ts:181-187 | The defaults loop appends the mapping line and the vendor file of exactly the chosen defaults, in table order. |
| AppxAssets.ComputeUserAssets | packages/app-builder-lib/src/targets/AppxTarget.ts:167-191 | There are no user assets without a directory, and the filtered listing with one. The mappings and files are those of the user assets, then those of the chosen defaults. `mappings` and `allAssets` have equal length. |
| AppxAssets.NoUserAssetsAllDefaults | packages/app-builder-lib/src/targets/AppxTarget.ts:181-187 | Without user assets, every default is taken from the vendor directory. |
| AppxAssets.DefaultAddedIff | packages/app-builder-lib/src/targets/AppxTarget.ts:182 | Each of the four defaults is added iff there are no user assets or it is not included. |
| AppxExtensions.ExtensionsText | packages/app-builder-lib/src/targets/AppxTarget.ts:335-390 | What `getExtensions` returns; stated by `AppxExtensions.EmptyOrWrapped`, `AutoLaunchFirst`, `ProtocolBlockCount` and `ConfigProtocolsFirst`. |
| AppxExtensions.AppendSchemeBlocks | packages/app-builder-lib/src/targets/AppxTarget.ts:360-367 | The inner `+=` loop appends exactly the protocol's scheme blocks. |
| AppxExtensions.AppendExtensionBlocks | packages/app-builder-lib/src/targets/AppxTarget.ts:371-380 | The inner `+=` loop appends exactly the association's extension blocks. |
| AppxExtensions.AppendProtocolBlocks | packages/app-builder-lib/src/targets/AppxTarget.ts:359-368 | The outer loop over the URI schemes appends the blocks of every protocol, protocol by protocol and scheme by scheme. |
| AppxExtensions.AppendAssociationBlocks | packages/app-builder-lib/src/targets/AppxTarget.ts:370-381 | The outer loop over the file associations appends the file-type blocks of every association, in order. |
| AppxExtensions.GetExtensions | packages/app-builder-lib/src/targets/AppxTarget.ts:335-390 | The accumulated string is the specified element. |
| AppxExtensions.EmptyOrWrapped | packages/app-builder-lib/src/targets/AppxTarget.ts:346-389 | The element is "" iff there is no auto-launch, scheme, association or custom path. Otherwise it starts with `<Extensions>` and ends with `</Extensions>`. |
| AppxExtensions.AutoLaunchFirst | packages/app-builder-lib/src/targets/AppxTarget.ts:340-357 | An explicit `addAutoLaunchExtension: true`, or none with the auto-launch dependency, puts the start-up task first. An explicit `false` overrides the dependency, so with nothing else configured the element is empty. |
| AppxExtensions.ProtocolBlocksAppend | packages/app-builder-lib/src/targets/AppxTarget.ts:359-368 | The blocks of two protocol lists are those of the first, then those of the second. |
| AppxExtensions.ProtocolBlockCount | packages/app-builder-lib/src/targets/AppxTarget.ts:359-368 | There is exactly one protocol block per scheme. |
| AppxExtensions.ConfigProtocolsFirst | packages/app-builder-lib/src/targets/AppxTarget.ts:336 | Top-level protocols come before the Windows-specific ones, in input order. |
| AppxExtensions.SingleProtocolBlocks | packages/app-builder-lib/src/targets/AppxTarget.ts:359-367 | A single protocol gives exactly its scheme blocks. |
| AppxManifest.ResourceLanguageTag | packages/app-builder-lib/src/targets/AppxTarget.ts:394-399 | `resourceLanguageTag`; stated by `AppxManifest.DefaultLanguageTag`, `SingleLanguageTag`, `LanguageTagSnoc` and `EntryHasNoUnderscore`. |
| AppxManifest.DefaultLanguageTag | packages/app-builder-lib/src/targets/AppxTarget.ts:394-399 | Without languages, the element is exactly the `en-US` entry. |
| AppxManifest.SingleLanguageTag | packages/app-builder-lib/src/targets/AppxTarget.ts:398 | One language gives its entry alone. |
| AppxManifest.LanguageTagSnoc | packages/app-builder-lib/src/targets/AppxTarget.ts:398 | One more language adds a line break and its entry at the end, so order is kept. |
| AppxManifest.EntryHasNoUnderscore | packages/app-builder-lib/src/targets/AppxTarget.ts:398 | A converted language keeps its length and has no `_` left. |
| AppxManifest.ParseMacro | packages/app-builder-lib/src/targets/AppxTarget.ts:213-330 | A name that selects a case of the switch is that case's name. |
| AppxManifest.ParseMacroName | packages/app-builder-lib/src/targets/AppxTarget.ts:213-330 | Every case's name selects that case, so no two cases share a name. |
| AppxManifest.PublisherDisplayNameRequired | packages/app-builder-lib/src/targets/AppxTarget.ts:217-223 | It is refused iff `publisherDisplayName` is absent or empty and there is no company name. An empty `publisherDisplayName` gives way to the company name. An empty company name is accepted as "". |
| AppxManifest.Expand | packages/app-builder-lib/src/targets/AppxTarget.ts:213-327 | Only the publisher-display-name, application-id and identity-name cases can fail, and their failures are invalid-configuration errors. |
| AppxManifest.MaxVersionFallback | packages/app-builder-lib/src/targets/AppxTarget.ts:322-326 | `maxVersionTested` falls back to `minVersion`, then to the architecture's minimum. |
| AppxManifest.ArchMacroValue | packages/app-builder-lib/src/targets/AppxTarget.ts:313-314 | `${arch}` always expands, to one of `x86`, `x64` and `arm64`: `x86` iff ia32, and `arm64` iff the architecture's minimum Windows version is 10.0.16299.0. |
| AppxManifest.UndefinedMacro | packages/app-builder-lib/src/targets/AppxTarget.ts:328-329 | A plain error comes exactly from a name outside the switch. |
| AppxManifest.ExpandAll | packages/app-builder-lib/src/targets/AppxTarget.ts:212-331 | The expanded template, or the first failure; stated by `AppxManifest.FailureStays`, `ExpandAllSucceeds`, `FirstFailingPlaceholder` and `UnknownPlaceholderAborts`. |
| AppxManifest.FailureStays | packages/app-builder-lib/src/targets/AppxTarget.ts:212-331 | A failure in a prefix of the template is the failure of the whole expansion. |
| AppxManifest.ExpandTemplate | packages/app-builder-lib/src/targets/AppxTarget.ts:212-331 | The left-to-right replacement loop gives the specified expansion. |
| AppxManifest.WriteManifest | packages/app-builder-lib/src/targets/AppxTarget.ts:199-332 | The manifest text is the expansion, with executable, display name and extensions computed first. |
| AppxManifest.ExpandAllSucceeds | packages/app-builder-lib/src/targets/AppxTarget.ts:212-331 | When every piece expands, the manifest is their values, in order. |
| AppxManifest.FirstFailingPlaceholder | packages/app-builder-lib/src/targets/AppxTarget.ts:212-331 | The expansion fails with the error of the first failing piece. |
| AppxManifest.UnknownPlaceholderAborts | packages/app-builder-lib/src/targets/AppxTarget.ts:328-329 | An unknown placeholder, after pieces that expand, aborts with `Macro <name> is not defined`. |
| AppxManifest.MappingText | packages/app-builder-lib/src/targets/AppxTarget.ts:140-143 | The `[Files]` mapping text; stated by `AppxManifest.MappingLines` and `EmptyListAddsBlankLine`. |
| AppxManifest.BuildMapping | packages/app-builder-lib/src/targets/AppxTarget.ts:140-143 | The `mapping +=` loop gives the specified mapping text. |
| AppxManifest.MappingLines | packages/app-builder-lib/src/targets/AppxTarget.ts:140-143 | With no empty list, the file is `[Files]` followed by one CRLF-separated line per entry, in order. |
| AppxManifest.EmptyListAddsBlankLine | packages/app-builder-lib/src/targets/AppxTarget.ts:142 | An empty list still adds a line break. |

## Left out

- Input and output are not modelled: the network, the file system, process spawning, `shell.openPath` and `app.quit`. They are effects in a log, and their outcomes are parameters.
- Asynchrony is flattened. The `.catch` continuations of `spawnLog` and `openPath` are logged as if they settled before `doInstall` returned. `Promise.all` over the two block maps reports the first failure in list order.
- The differential download engine is one outcome per attempt. The engine itself is not part of this model.
- Block-map bytes are not decoded. Fetching, gunzip and `JSON.parse` are one outcome: parsed, empty, unparsable or failed.
- The code-signature verifier is a foreign call. Its verdict is an input.
- `findFile`, `provider.resolveFiles`, `executeDownload`, download options and progress listeners are not modelled. The chosen file and the download destinations are inputs. So is the choice between the portable and the setup executable: the `["setup"]` or `["USB"]` exclusion that `doDownloadUpdate` hands to `findFile` (NsisUpdater.ts lines 47-51) is not modelled.
- Logging, `console.log` and the warning about `disableWebInstaller` are left out.
- `new URL(...)` is treated as always succeeding.
- `path.join` does not normalise its result in this model: it always joins with a backslash. `path.dirname` and `path.basename` split at the last `\` or `/`. Drive roots and trailing separators are not modelled. The updaters run on Windows, where that is what `path.join` does. The `path.join` calls of `computeUserAssets` (AppxTarget.ts lines 177 and 183) run on the build host instead, which joins with `/` on macOS and Linux; `AppxAssets.UserFiles` and `AppxAssets.VendorFile` always use `\`, so on those hosts the model's `allAssets` paths differ from the code's in their separator.
- Batch semantics are not modelled. These include `cmd` quoting, `echo`, ERRORLEVEL propagation and the `tasklist`/`timeout` polling, which is one step that ends once the app has quit. The echo-based write of the portable updater is a write-script effect marked as written through `echo`.
- `Text.ParseInt`: exact for integers, but JavaScript's floating-point rounding of very long digit runs is not modelled.
- `Text.IntToString`: the exponent form of `toString` for numbers of 21 digits or more is not modelled.
- `Text.ToUpperAscii`: it upper-cases ASCII letters only. It is reached only after the ASCII-only pattern has accepted the string.
- The regular-expression scan of the manifest template is not modelled. The template is given already cut into verbatim text and `${name}` placeholders.
- Reading the custom manifest and the custom extensions file is not modelled; their contents are inputs. A failed read is not modelled, and neither is the resolution of `customManifestPath`.
- The rest of `build` (`makeappx`, `makepri`, the VM, signing, staging, artifact events) is left out, except the mapping loop. `computePublisherName` and `getVersionInWeirdWindowsForm` are inputs.
- The AppX target's constructor (its platform check) and `readdir` are not modelled. The directory listing is an input.
- The `result == null` checks at AppxTarget.ts lines 255 and 275 can never fire, because `result` is a string by then. They are not modelled.
- `AppxAssets.UserAssets`: the contract states which entries are kept and the length bound, not that the listing order is kept. The body keeps the order.
