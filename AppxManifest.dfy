/**
 * The AppX manifest (`writeManifest`): every `${name}` placeholder of the
 * manifest template is replaced, left to right, by the value of the macro of
 * that name; an unknown name, or a macro whose configuration check fails,
 * aborts the whole manifest with that error. Also the resource-language
 * element and the makeappx mapping file.
 */
module AppxManifest {
  import opened Wrappers
  import opened Text
  import opened AppxNames
  import opened AppxAssets
  import opened AppxExtensions

  // ---------------------------------------------------------------------------
  // Architecture

  datatype Arch = Ia32 | X64 | Armv7l | Arm64 | Universal

  /** The `arch` macro: ia32 is "x86", arm64 is "arm64", every other architecture "x64". */
  function ArchName(arch: Arch): string {
    if arch == Ia32 then "x86" else if arch == Arm64 then "arm64" else "x64"
  }

  /** The lowest Windows version an architecture's package may declare. */
  function ArchSpecificMinVersion(arch: Arch): string {
    if arch == Arm64 then "10.0.16299.0" else "10.0.14316.0"
  }

  // ---------------------------------------------------------------------------
  // Resource languages

  const DefaultResourceLanguage := "en-US"

  /** One `<Resource>` entry; every `_` of the language becomes `-`. */
  function ResourceEntry(language: string): string {
    "<Resource Language=\"" + ReplaceChar(language, '_', '-') + "\" />"
  }

  /** The languages actually declared: `en-US` when none is configured. */
  function EffectiveLanguages(languages: seq<string>): seq<string> {
    if languages == [] then [DefaultResourceLanguage] else languages
  }

  function ResourceEntries(languages: seq<string>): seq<string> {
    var langs := EffectiveLanguages(languages);
    seq(|langs|, i requires 0 <= i < |langs| => ResourceEntry(langs[i]))
  }

  /** `resourceLanguageTag`: the entries, one per line. */
  function ResourceLanguageTag(languages: seq<string>): string {
    Join("\n", ResourceEntries(languages))
  }

  /** Without configured languages the element is exactly the `en-US` entry. */
  lemma DefaultLanguageTag()
    ensures ResourceLanguageTag([]) == "<Resource Language=\"en-US\" />"
  {
    var en := DefaultResourceLanguage;
    assert forall i :: 0 <= i < |en| ==> en[i] != '_';
    assert ReplaceChar(en, '_', '-') == en;
  }

  /** A single language gives its entry alone. */
  lemma SingleLanguageTag(language: string)
    ensures ResourceLanguageTag([language]) == ResourceEntry(language)
  {
  }

  /** Languages are kept in order: one more language adds a line with its entry at the end. */
  lemma LanguageTagSnoc(languages: seq<string>, language: string)
    requires languages != []
    ensures ResourceLanguageTag(languages + [language]) == ResourceLanguageTag(languages) + "\n" + ResourceEntry(language)
  {
    var entries := ResourceEntries(languages);
    assert ResourceEntries(languages + [language]) == entries + [ResourceEntry(language)];
    JoinSnoc("\n", entries, ResourceEntry(language));
  }

  /** No entry keeps an underscore. */
  lemma EntryHasNoUnderscore(language: string)
    ensures var converted := ReplaceChar(language, '_', '-');
      |converted| == |language| && forall i :: 0 <= i < |converted| ==> converted[i] != '_'
  {
  }

  // ---------------------------------------------------------------------------
  // Macros

  /** The inputs of `writeManifest` the macros read. */
  datatype AppInfo = AppInfo(
    name: string,
    productName: string,
    productFilename: string,
    companyName: Option<string>,
    description: Option<string>,
    /** `getVersionInWeirdWindowsForm(setBuildNumber)`, computed outside this model. */
    windowsVersion: string)

  /** The `appx` options the macros read; absent stands for null or undefined. */
  datatype AppxOptions = AppxOptions(
    publisherDisplayName: Option<string>,
    applicationId: Option<string>,
    identityName: Option<string>,
    displayName: Option<string>,
    backgroundColor: Option<string>,
    showNameOnTiles: Option<bool>,
    languages: OneOrMany<string>,
    minVersion: Option<string>,
    maxVersionTested: Option<string>)

  /** Everything a macro may expand to: the inputs and the values `writeManifest` computes first. */
  datatype ManifestContext = ManifestContext(
    publisher: string,
    options: AppxOptions,
    appInfo: AppInfo,
    arch: Arch,
    userAssets: seq<string>,
    extensions: string)

  datatype Macro =
    | Publisher | PublisherDisplayName | Version | ApplicationId | IdentityName
    | Executable | DisplayName | Description | BackgroundColor
    | Logo | Square150x150Logo | Square44x44Logo
    | LockScreen | DefaultTile | SplashScreen
    | ArchMacro | ResourceLanguages | Extensions | MinVersion | MaxVersionTested

  function MacroName(m: Macro): string {
    match m
    case Publisher => "publisher"
    case PublisherDisplayName => "publisherDisplayName"
    case Version => "version"
    case ApplicationId => "applicationId"
    case IdentityName => "identityName"
    case Executable => "executable"
    case DisplayName => "displayName"
    case Description => "description"
    case BackgroundColor => "backgroundColor"
    case Logo => "logo"
    case Square150x150Logo => "square150x150Logo"
    case Square44x44Logo => "square44x44Logo"
    case LockScreen => "lockScreen"
    case DefaultTile => "defaultTile"
    case SplashScreen => "splashScreen"
    case ArchMacro => "arch"
    case ResourceLanguages => "resourceLanguages"
    case Extensions => "extensions"
    case MinVersion => "minVersion"
    case MaxVersionTested => "maxVersionTested"
  }

  /** The case of the macro switch a placeholder name selects. */
  function ParseMacro(name: string): (r: Option<Macro>)
    ensures r.Some? ==> MacroName(r.value) == name
  {
    if name == "publisher" then Some(Publisher)
    else if name == "publisherDisplayName" then Some(PublisherDisplayName)
    else if name == "version" then Some(Version)
    else if name == "applicationId" then Some(ApplicationId)
    else if name == "identityName" then Some(IdentityName)
    else if name == "executable" then Some(Executable)
    else if name == "displayName" then Some(DisplayName)
    else if name == "description" then Some(Description)
    else if name == "backgroundColor" then Some(BackgroundColor)
    else if name == "logo" then Some(Logo)
    else if name == "square150x150Logo" then Some(Square150x150Logo)
    else if name == "square44x44Logo" then Some(Square44x44Logo)
    else if name == "lockScreen" then Some(LockScreen)
    else if name == "defaultTile" then Some(DefaultTile)
    else if name == "splashScreen" then Some(SplashScreen)
    else if name == "arch" then Some(ArchMacro)
    else if name == "resourceLanguages" then Some(ResourceLanguages)
    else if name == "extensions" then Some(Extensions)
    else if name == "minVersion" then Some(MinVersion)
    else if name == "maxVersionTested" then Some(MaxVersionTested)
    else None
  }

  /** The first ten macros of the switch. */
  predicate IsIdentityMacro(m: Macro) {
    m.Publisher? || m.PublisherDisplayName? || m.Version? || m.ApplicationId? || m.IdentityName?
      || m.Executable? || m.DisplayName? || m.Description? || m.BackgroundColor? || m.Logo?
  }

  /** Every macro's name selects that macro, so no two macros share a name. */
  lemma ParseMacroName(m: Macro)
    ensures ParseMacro(MacroName(m)) == Some(m)
  {
    if IsIdentityMacro(m) {
      ParseIdentityMacroName(m);
    } else if IsTileMacro(m) {
      ParseTileMacroName(m);
    } else {
      ParsePackageMacroName(m);
    }
  }

  lemma ParseIdentityMacroName(m: Macro)
    requires IsIdentityMacro(m)
    ensures ParseMacro(MacroName(m)) == Some(m)
  {
    match m
    case Publisher =>
    case PublisherDisplayName =>
    case Version =>
    case ApplicationId =>
    case IdentityName =>
    case Executable =>
    case DisplayName =>
    case Description =>
    case BackgroundColor =>
    case Logo =>
  }

  /** The asset and tile macros of the switch. */
  predicate IsTileMacro(m: Macro) {
    m.Square150x150Logo? || m.Square44x44Logo? || m.LockScreen? || m.DefaultTile? || m.SplashScreen?
  }

  lemma ParseTileMacroName(m: Macro)
    requires IsTileMacro(m)
    ensures ParseMacro(MacroName(m)) == Some(m)
  {
    match m
    case Square150x150Logo =>
    case Square44x44Logo =>
    case LockScreen =>
    case DefaultTile =>
    case SplashScreen =>
  }

  lemma ParsePackageMacroName(m: Macro)
    requires !IsIdentityMacro(m) && !IsTileMacro(m)
    ensures ParseMacro(MacroName(m)) == Some(m)
  {
    match m
    case ArchMacro =>
    case ResourceLanguages =>
    case Extensions =>
    case MinVersion =>
    case MaxVersionTested =>
  }

  const PublisherDisplayNameMessage :=
    "Please specify \"author\" in the application package.json \U{2014} it is required because \"appx.publisherDisplayName\" is not set."

  /**
   * `options.publisherDisplayName || appInfo.companyName`, refused only when
   * that is null: an empty company name is accepted as it is.
   */
  function PublisherDisplayNameMacro(publisherDisplayName: Option<string>, companyName: Option<string>): Result<string, BuildError> {
    if Truthy(publisherDisplayName) then Success(publisherDisplayName.value)
    else if companyName.None? then Failure(InvalidConfiguration(PublisherDisplayNameMessage))
    else Success(companyName.value)
  }

  /**
   * The publisher display name is refused exactly when neither a non-empty
   * `publisherDisplayName` nor any company name is given; an empty
   * `publisherDisplayName` gives way to the company name, and an empty
   * company name is accepted as it is.
   */
  lemma PublisherDisplayNameRequired(publisherDisplayName: Option<string>, companyName: Option<string>)
    ensures PublisherDisplayNameMacro(publisherDisplayName, companyName).Failure?
      <==> (publisherDisplayName.None? || publisherDisplayName.value == "") && companyName.None?
    ensures PublisherDisplayNameMacro(Some(""), companyName) == PublisherDisplayNameMacro(None, companyName)
    ensures PublisherDisplayNameMacro(None, Some("")) == Success("")
  {
  }

  /** `app\<productFilename>.exe`. */
  function ExecutablePath(appInfo: AppInfo): string {
    "app\\" + appInfo.productFilename + ".exe"
  }

  function ManifestDisplayName(options: AppxOptions, appInfo: AppInfo): string {
    OrElse(options.displayName, appInfo.productName)
  }

  /** `options.showNameOnTiles || false`. */
  function ShowNameOnTiles(options: AppxOptions): bool {
    options.showNameOnTiles == Some(true)
  }

  /** `options.minVersion || archSpecificMinVersion`. */
  function MinVersionOf(options: AppxOptions, arch: Arch): string {
    OrElse(options.minVersion, ArchSpecificMinVersion(arch))
  }

  /** `options.maxVersionTested || options.minVersion || archSpecificMinVersion`. */
  function MaxVersionTestedOf(options: AppxOptions, arch: Arch): string {
    OrElse(options.maxVersionTested, MinVersionOf(options, arch))
  }

  /** One case of the macro switch. */
  function Expand(m: Macro, ctx: ManifestContext): (r: Result<string, BuildError>)
    ensures r.Failure? ==> m == PublisherDisplayName || m == ApplicationId || m == IdentityName
    ensures r.Failure? ==> r.error.InvalidConfiguration?
  {
    var options := ctx.options;
    var appInfo := ctx.appInfo;
    match m
    case Publisher => Success(ctx.publisher)
    case PublisherDisplayName => PublisherDisplayNameMacro(options.publisherDisplayName, appInfo.companyName)
    case Version => Success(appInfo.windowsVersion)
    case ApplicationId => ApplicationIdMacro(options.applicationId, options.identityName, appInfo.name)
    case IdentityName => IdentityNameMacro(options.identityName, appInfo.name)
    case Executable => Success(ExecutablePath(appInfo))
    case DisplayName => Success(ManifestDisplayName(options, appInfo))
    case Description => Success(OrElse(appInfo.description, appInfo.productName))
    case BackgroundColor => Success(OrElse(options.backgroundColor, "#464646"))
    case Logo => Success("assets\\StoreLogo.png")
    case Square150x150Logo => Success("assets\\Square150x150Logo.png")
    case Square44x44Logo => Success("assets\\Square44x44Logo.png")
    case LockScreen => Success(LockScreenTag(ctx.userAssets))
    case DefaultTile => Success(DefaultTileTag(ctx.userAssets, ShowNameOnTiles(options)))
    case SplashScreen => Success(SplashScreenTag(ctx.userAssets))
    case ArchMacro => Success(ArchName(ctx.arch))
    case ResourceLanguages => Success(ResourceLanguageTag(AsArray(options.languages)))
    case Extensions => Success(ctx.extensions)
    case MinVersion => Success(MinVersionOf(options, ctx.arch))
    case MaxVersionTested => Success(MaxVersionTestedOf(options, ctx.arch))
  }

  /** The replacement of the placeholder `${name}`. */
  function ExpandMacro(name: string, ctx: ManifestContext): Result<string, BuildError> {
    match ParseMacro(name)
    case None => Failure(PlainError("Macro " + name + " is not defined"))
    case Some(m) => Expand(m, ctx)
  }

  /** `maxVersionTested` falls back to `minVersion`, then to the architecture's minimum. */
  lemma MaxVersionFallback(options: AppxOptions, arch: Arch)
    ensures Truthy(options.maxVersionTested) ==> MaxVersionTestedOf(options, arch) == options.maxVersionTested.value
    ensures !Truthy(options.maxVersionTested) && Truthy(options.minVersion) ==> MaxVersionTestedOf(options, arch) == options.minVersion.value
    ensures !Truthy(options.maxVersionTested) && !Truthy(options.minVersion) ==>
      MaxVersionTestedOf(options, arch) == (if arch == Arm64 then "10.0.16299.0" else "10.0.14316.0")
  {
  }

  /**
   * `${arch}` always expands, to "x86" for ia32, to "arm64" for arm64 (the
   * architecture whose minimum Windows version is 10.0.16299.0), and to "x64"
   * for every other architecture.
   */
  lemma ArchMacroValue(ctx: ManifestContext)
    ensures ExpandMacro("arch", ctx).Success?
    ensures ExpandMacro("arch", ctx).value in ["x86", "x64", "arm64"]
    ensures ExpandMacro("arch", ctx).value == "x86" <==> ctx.arch == Ia32
    ensures ExpandMacro("arch", ctx).value == "arm64" <==> ArchSpecificMinVersion(ctx.arch) == "10.0.16299.0"
  {
    assert ParseMacro("arch") == Some(ArchMacro) by { ParseMacroName(ArchMacro); }
    assert ExpandMacro("arch", ctx) == Success(ArchName(ctx.arch));
  }

  /** Only a name outside the switch gives the "not defined" error. */
  lemma UndefinedMacro(name: string, ctx: ManifestContext)
    ensures ExpandMacro(name, ctx).Failure? && ExpandMacro(name, ctx).error.PlainError? <==> ParseMacro(name).None?
  {
  }

  // ---------------------------------------------------------------------------
  // Template expansion

  /** The manifest template cut at its placeholders: text kept as it is, and `${name}`. */
  datatype Piece = Verbatim(text: string) | Placeholder(name: string)

  function PieceText(p: Piece, ctx: ManifestContext): Result<string, BuildError> {
    match p
    case Verbatim(t) => Success(t)
    case Placeholder(n) => ExpandMacro(n, ctx)
  }

  /** The expanded manifest: every piece in order, or the error of the first piece that fails. */
  function ExpandAll(pieces: seq<Piece>, ctx: ManifestContext): Result<string, BuildError>
    decreases |pieces|
  {
    if pieces == [] then Success("")
    else
      match ExpandAll(pieces[..|pieces| - 1], ctx)
      case Failure(e) => Failure(e)
      case Success(s) =>
        match PieceText(pieces[|pieces| - 1], ctx)
        case Failure(e) => Failure(e)
        case Success(t) => Success(s + t)
  }

  lemma ExpandAllSnoc(pieces: seq<Piece>, i: nat, ctx: ManifestContext)
    requires i < |pieces|
    ensures ExpandAll(pieces[..i + 1], ctx) ==
      match ExpandAll(pieces[..i], ctx)
      case Failure(e) => Failure(e)
      case Success(s) =>
        match PieceText(pieces[i], ctx)
        case Failure(e) => Failure(e)
        case Success(t) => Success(s + t)
  {
    assert pieces[..i + 1][..i] == pieces[..i];
  }

  /** Once a prefix of the template fails, the whole template fails with the same error. */
  lemma {:induction false} FailureStays(pieces: seq<Piece>, i: nat, ctx: ManifestContext)
    requires i <= |pieces| && ExpandAll(pieces[..i], ctx).Failure?
    ensures ExpandAll(pieces, ctx) == ExpandAll(pieces[..i], ctx)
    decreases |pieces| - i
  {
    if i < |pieces| {
      ExpandAllSnoc(pieces, i, ctx);
      FailureStays(pieces, i + 1, ctx);
    } else {
      assert pieces[..i] == pieces;
    }
  }

  /**
   * The `replace` of `writeManifest`: placeholders are expanded from left to
   * right and the first error aborts the expansion.
   */
  method ExpandTemplate(pieces: seq<Piece>, ctx: ManifestContext) returns (r: Result<string, BuildError>)
    ensures r == ExpandAll(pieces, ctx)
  {
    var manifest := "";
    for i := 0 to |pieces|
      invariant ExpandAll(pieces[..i], ctx) == Success(manifest)
    {
      ExpandAllSnoc(pieces, i, ctx);
      var piece := pieces[i];
      match piece
      case Verbatim(t) =>
        manifest := manifest + t;
      case Placeholder(n) =>
        var value := ExpandMacro(n, ctx);
        if value.Failure? {
          FailureStays(pieces, i + 1, ctx);
          return Failure(value.error);
        }
        manifest := manifest + value.value;
    }
    assert pieces[..|pieces|] == pieces;
    r := Success(manifest);
  }

  /**
   * `writeManifest` up to the file write: the executable path, the display
   * name and the extensions are computed first, then the template is
   * expanded. `customExtensions` is the content of the custom extensions
   * file, `pieces` the template (the custom one or the bundled one).
   */
  method WriteManifest(pieces: seq<Piece>, arch: Arch, publisher: string, userAssets: seq<string>,
                       options: AppxOptions, appInfo: AppInfo, extensionConfig: ExtensionConfig, customExtensions: string)
    returns (r: Result<string, BuildError>)
    ensures r == ExpandAll(pieces, ManifestContext(publisher, options, appInfo, arch, userAssets,
      ExtensionsText(extensionConfig, ExecutablePath(appInfo), ManifestDisplayName(options, appInfo), customExtensions)))
  {
    var executable := "app\\" + appInfo.productFilename + ".exe";
    var displayName := OrElse(options.displayName, appInfo.productName);
    var extensions := GetExtensions(extensionConfig, executable, displayName, customExtensions);
    r := ExpandTemplate(pieces, ManifestContext(publisher, options, appInfo, arch, userAssets, extensions));
  }

  /** Every macro that succeeds is replaced by its value, in place. */
  lemma {:induction false} ExpandAllSucceeds(pieces: seq<Piece>, ctx: ManifestContext)
    requires forall i :: 0 <= i < |pieces| ==> PieceText(pieces[i], ctx).Success?
    ensures ExpandAll(pieces, ctx) == Success(Concat(seq(|pieces|, i requires 0 <= i < |pieces| => PieceText(pieces[i], ctx).value)))
    decreases |pieces|
  {
    if pieces != [] {
      var init := pieces[..|pieces| - 1];
      ExpandAllSucceeds(init, ctx);
      var values := seq(|pieces|, i requires 0 <= i < |pieces| => PieceText(pieces[i], ctx).value);
      var initValues := seq(|init|, i requires 0 <= i < |init| => PieceText(init[i], ctx).value);
      assert values[..|values| - 1] == initValues;
    }
  }

  /**
   * The expansion fails with the error of the first failing placeholder: all
   * earlier ones are replaced, later ones are never looked at.
   */
  lemma {:induction false} FirstFailingPlaceholder(pieces: seq<Piece>, k: nat, ctx: ManifestContext)
    requires k < |pieces| && PieceText(pieces[k], ctx).Failure?
    requires forall i :: 0 <= i < k ==> PieceText(pieces[i], ctx).Success?
    ensures ExpandAll(pieces, ctx) == Failure(PieceText(pieces[k], ctx).error)
  {
    var prefix := pieces[..k];
    assert forall i :: 0 <= i < |prefix| ==> PieceText(prefix[i], ctx).Success?;
    ExpandAllSucceeds(prefix, ctx);
    ExpandAllSnoc(pieces, k, ctx);
    FailureStays(pieces, k + 1, ctx);
  }

  /** A placeholder with an unknown name aborts the manifest, if every placeholder before it expands. */
  lemma UnknownPlaceholderAborts(pieces: seq<Piece>, k: nat, ctx: ManifestContext)
    requires k < |pieces| && pieces[k].Placeholder? && ParseMacro(pieces[k].name).None?
    requires forall i :: 0 <= i < k ==> PieceText(pieces[i], ctx).Success?
    ensures ExpandAll(pieces, ctx) == Failure(PlainError("Macro " + pieces[k].name + " is not defined"))
  {
    FirstFailingPlaceholder(pieces, k, ctx);
  }

  // ---------------------------------------------------------------------------
  // The mapping file

  /** `[Files]`, then for every list a line break and its lines joined by line breaks. */
  function MappingText(lists: seq<seq<string>>): string
    decreases |lists|
  {
    if lists == [] then "[Files]"
    else MappingText(lists[..|lists| - 1]) + "\r\n" + Join("\r\n", lists[|lists| - 1])
  }

  /** The `mapping += ...` loop of `build`. */
  method BuildMapping(lists: seq<seq<string>>) returns (mapping: string)
    ensures mapping == MappingText(lists)
  {
    mapping := "[Files]";
    for i := 0 to |lists|
      invariant mapping == MappingText(lists[..i])
    {
      assert lists[..i + 1][..i] == lists[..i];
      mapping := mapping + "\r\n" + Join("\r\n", lists[i]);
    }
    assert lists[..|lists|] == lists;
  }

  function Flatten(lists: seq<seq<string>>): seq<string>
    decreases |lists|
  {
    if lists == [] then [] else Flatten(lists[..|lists| - 1]) + lists[|lists| - 1]
  }

  /**
   * When no list is empty the mapping file is `[Files]` followed by one line
   * per entry of all lists, in order.
   */
  lemma {:induction false} MappingLines(lists: seq<seq<string>>)
    requires lists != [] && forall i :: 0 <= i < |lists| ==> lists[i] != []
    ensures Flatten(lists) != []
    ensures MappingText(lists) == "[Files]" + "\r\n" + Join("\r\n", Flatten(lists))
    decreases |lists|
  {
    var init := lists[..|lists| - 1];
    var last := lists[|lists| - 1];
    if init == [] {
      assert Flatten(lists) == Flatten(init) + last;
      assert Flatten(lists) == last;
    } else {
      MappingLines(init);
      JoinAppend("\r\n", Flatten(init), last);
    }
  }

  /** An empty list still adds a line break: the file then holds an empty line. */
  lemma EmptyListAddsBlankLine(lists: seq<seq<string>>)
    ensures MappingText(lists + [[]]) == MappingText(lists) + "\r\n"
  {
    assert (lists + [[]])[..|lists|] == lists;
  }
}
