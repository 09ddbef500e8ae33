/**
 * The image assets of an AppX package: which files of the user's `appx`
 * directory count as assets, which of the four default assets are taken from
 * the vendor directory instead, how the manifest refers to optional assets
 * (badge logo, large and small tiles, splash screen), and the mapping lines
 * that place every asset under `assets\` in the package.
 */
module AppxAssets {
  import opened Wrappers
  import opened Text
  import opened Paths

  /** Some asset name contains `sub` (`assets.some(it => it.includes(sub))`). */
  function AnyContains(assets: seq<string>, sub: string): (r: bool)
    ensures r <==> exists i :: 0 <= i < |assets| && Contains(assets[i], sub)
    decreases |assets|
  {
    if assets == [] then false
    else
      assert forall i :: 1 <= i < |assets| ==> assets[i] == assets[1..][i - 1];
      Contains(assets[0], sub) || AnyContains(assets[1..], sub)
  }

  /** The part of an asset name before its first period; "" when it has none. */
  function DefaultAssetPrefix(name: string): string {
    var k := IndexOf(name, ".");
    if k == -1 then "" else name[..k]
  }

  /** A default asset is included when some user asset's name contains its name without extension. */
  predicate IsDefaultAssetIncluded(userAssets: seq<string>, defaultAsset: string) {
    AnyContains(userAssets, DefaultAssetPrefix(defaultAsset))
  }

  /** The user provides scaled assets (`.scale-` or `.targetsize-` variants). */
  function IsScaledAssetsProvided(userAssets: seq<string>): (r: bool)
    ensures r <==> exists i :: 0 <= i < |userAssets| && (Contains(userAssets[i], ".scale-") || Contains(userAssets[i], ".targetsize-"))
  {
    AnyContains(userAssets, ".scale-") || AnyContains(userAssets, ".targetsize-")
  }

  predicate HasNoPeriod(s: string) {
    forall i :: 0 <= i < |s| ==> s[i] != '.'
  }

  /** The prefix of `base.ext` is `base`, when `base` has no period. */
  lemma PrefixOfName(base: string, ext: string)
    requires HasNoPeriod(base)
    ensures DefaultAssetPrefix(base + "." + ext) == base
  {
    var name := base + "." + ext;
    assert OccursAt(name, ".", |base|) by { assert name[|base|..|base| + 1] == "."; }
    forall j: nat | j < |base| ensures !OccursAt(name, ".", j) {
      assert name[j..j + 1] == [base[j]];
    }
    assert name[..|base|] == base;
  }

  /** Every string contains "": a default name without a period is included as soon as there is any user asset. */
  lemma PrefixWithoutPeriod(userAssets: seq<string>, defaultAsset: string)
    requires HasNoPeriod(defaultAsset)
    ensures IsDefaultAssetIncluded(userAssets, defaultAsset) <==> userAssets != []
  {
    assert !Contains(defaultAsset, ".") by {
      forall i: nat | i <= |defaultAsset| ensures !OccursAt(defaultAsset, ".", i) {
        if i + 1 <= |defaultAsset| { assert defaultAsset[i..i + 1] == [defaultAsset[i]]; }
      }
    }
    if userAssets != [] {
      assert OccursAt(userAssets[0], "", 0);
    }
  }

  /** The prefix of `base.png` is `base`. */
  lemma PngPrefix(base: string)
    requires HasNoPeriod(base)
    ensures DefaultAssetPrefix(base + ".png") == base
  {
    PrefixOfName(base, "png");
    assert base + ".png" == base + "." + "png";
  }

  /** Which user assets contain `base` decides whether `base.png` is included. */
  lemma IncludedPng(userAssets: seq<string>, base: string)
    requires HasNoPeriod(base)
    ensures IsDefaultAssetIncluded(userAssets, base + ".png") <==> exists i :: 0 <= i < |userAssets| && Contains(userAssets[i], base)
  {
    PngPrefix(base);
  }

  // ---------------------------------------------------------------------------
  // Manifest tags of optional assets

  const LockScreenElement := "<uap:LockScreen Notification=\"badgeAndTileText\" BadgeLogo=\"assets\\BadgeLogo.png\" />"
  const SplashScreenElement := "<uap:SplashScreen Image=\"assets\\SplashScreen.png\" />"

  /** The lock-screen element, present only when a badge logo is among the user assets. */
  function LockScreenTag(userAssets: seq<string>): string {
    if IsDefaultAssetIncluded(userAssets, "BadgeLogo.png") then LockScreenElement else ""
  }

  /** The splash-screen element, present only when a splash screen is among the user assets. */
  function SplashScreenTag(userAssets: seq<string>): string {
    if IsDefaultAssetIncluded(userAssets, "SplashScreen.png") then SplashScreenElement else ""
  }

  /** The lock-screen element appears exactly when some user asset's name contains "BadgeLogo". */
  lemma LockScreenIff(userAssets: seq<string>)
    ensures LockScreenTag(userAssets) != "" <==> exists i :: 0 <= i < |userAssets| && Contains(userAssets[i], "BadgeLogo")
  {
    PngPrefix("BadgeLogo");
    assert "BadgeLogo" + ".png" == "BadgeLogo.png";
    assert LockScreenElement != "";
  }

  /** The splash-screen element appears exactly when some user asset's name contains "SplashScreen". */
  lemma SplashScreenIff(userAssets: seq<string>)
    ensures SplashScreenTag(userAssets) != "" <==> exists i :: 0 <= i < |userAssets| && Contains(userAssets[i], "SplashScreen")
  {
    PngPrefix("SplashScreen");
    assert "SplashScreen" + ".png" == "SplashScreen.png";
    assert SplashScreenElement != "";
  }

  const TileOpen := "<uap:DefaultTile"
  const WideLogoAttribute := "Wide310x150Logo=\"assets\\Wide310x150Logo.png\""
  const LargeTileAttribute := "Square310x310Logo=\"assets\\LargeTile.png\""
  const SmallTileAttribute := "Square71x71Logo=\"assets\\SmallTile.png\""

  /** The words that close the default-tile element. */
  function TileClosing(showNameOnTiles: bool): seq<string> {
    if showNameOnTiles then
      [">", "<uap:ShowNameOnTiles>",
       "<uap:ShowOn", "Tile=\"wide310x150Logo\"", "/>",
       "<uap:ShowOn", "Tile=\"square150x150Logo\"", "/>",
       "</uap:ShowNameOnTiles>", "</uap:DefaultTile>"]
    else ["/>"]
  }

  /** The words of the default-tile element, in order. */
  function TileAttributes(userAssets: seq<string>): seq<string> {
    [TileOpen, WideLogoAttribute]
      + (if IsDefaultAssetIncluded(userAssets, "LargeTile.png") then [LargeTileAttribute] else [])
      + (if IsDefaultAssetIncluded(userAssets, "SmallTile.png") then [SmallTileAttribute] else [])
  }

  function DefaultTileParts(userAssets: seq<string>, showNameOnTiles: bool): seq<string> {
    TileAttributes(userAssets) + TileClosing(showNameOnTiles)
  }

  /** The default-tile element: its words joined by spaces. */
  function DefaultTileTag(userAssets: seq<string>, showNameOnTiles: bool): string {
    Join(" ", DefaultTileParts(userAssets, showNameOnTiles))
  }

  /** The pushes of `defaultTileTag` that close the element. */
  method PushTileClosing(parts: seq<string>, showNameOnTiles: bool) returns (r: seq<string>)
    ensures r == parts + TileClosing(showNameOnTiles)
  {
    r := parts;
    if showNameOnTiles {
      r := r + [">"];
      r := r + ["<uap:ShowNameOnTiles>"];
      r := r + ["<uap:ShowOn", "Tile=\"wide310x150Logo\"", "/>"];
      r := r + ["<uap:ShowOn", "Tile=\"square150x150Logo\"", "/>"];
      r := r + ["</uap:ShowNameOnTiles>"];
      r := r + ["</uap:DefaultTile>"];
    } else {
      r := r + ["/>"];
    }
  }

  /** `defaultTileTag`, building the list of words push by push. */
  method BuildDefaultTileTag(userAssets: seq<string>, showNameOnTiles: bool) returns (tag: string)
    ensures tag == DefaultTileTag(userAssets, showNameOnTiles)
  {
    var parts := [TileOpen, WideLogoAttribute];
    if IsDefaultAssetIncluded(userAssets, "LargeTile.png") {
      parts := parts + [LargeTileAttribute];
    }
    if IsDefaultAssetIncluded(userAssets, "SmallTile.png") {
      parts := parts + [SmallTileAttribute];
    }
    assert parts == TileAttributes(userAssets);
    parts := PushTileClosing(parts, showNameOnTiles);
    assert parts == DefaultTileParts(userAssets, showNameOnTiles);
    tag := Join(" ", parts);
  }

  /**
   * The default-tile element starts with the element name and the wide logo;
   * the large-tile attribute is present exactly when a large tile is
   * included, the small-tile one exactly when a small tile is, and the first
   * comes before the second.
   */
  lemma DefaultTileAttributes(userAssets: seq<string>, showNameOnTiles: bool)
    ensures var parts := DefaultTileParts(userAssets, showNameOnTiles);
      && parts[..2] == [TileOpen, WideLogoAttribute]
      && (LargeTileAttribute in parts <==> IsDefaultAssetIncluded(userAssets, "LargeTile.png"))
      && (SmallTileAttribute in parts <==> IsDefaultAssetIncluded(userAssets, "SmallTile.png"))
      && forall i, j :: 0 <= i < |parts| && 0 <= j < |parts| && parts[i] == LargeTileAttribute && parts[j] == SmallTileAttribute ==> i < j
  {
    var closing := TileClosing(showNameOnTiles);
    assert LargeTileAttribute !in closing && SmallTileAttribute !in closing;
    TilePartsShape(IsDefaultAssetIncluded(userAssets, "LargeTile.png"), IsDefaultAssetIncluded(userAssets, "SmallTile.png"), closing);
  }

  /** The shape of the default-tile words, for any choice of the two optional attributes. */
  lemma TilePartsShape(large: bool, small: bool, closing: seq<string>)
    requires LargeTileAttribute !in closing && SmallTileAttribute !in closing
    ensures var parts := [TileOpen, WideLogoAttribute]
        + (if large then [LargeTileAttribute] else []) + (if small then [SmallTileAttribute] else []) + closing;
      && parts[..2] == [TileOpen, WideLogoAttribute]
      && (LargeTileAttribute in parts <==> large)
      && (SmallTileAttribute in parts <==> small)
      && forall i, j :: 0 <= i < |parts| && 0 <= j < |parts| && parts[i] == LargeTileAttribute && parts[j] == SmallTileAttribute ==> i < j
  {
    var head := [TileOpen, WideLogoAttribute];
    var optional := (if large then [LargeTileAttribute] else []) + (if small then [SmallTileAttribute] else []);
    var parts := head + (if large then [LargeTileAttribute] else []) + (if small then [SmallTileAttribute] else []) + closing;
    assert parts == head + optional + closing;
    assert LargeTileAttribute != TileOpen && LargeTileAttribute != WideLogoAttribute && LargeTileAttribute != SmallTileAttribute;
    assert SmallTileAttribute != TileOpen && SmallTileAttribute != WideLogoAttribute;
    assert forall k :: |head| + |optional| <= k < |parts| ==> parts[k] in closing;
  }

  /** A tag whose first two words are the element name and the wide logo starts with them. */
  lemma TileTextStart(parts: seq<string>)
    requires |parts| >= 3 && parts[..2] == [TileOpen, WideLogoAttribute]
    ensures StartsWith(Join(" ", parts), TileOpen + " " + WideLogoAttribute + " ")
  {
    var head := [TileOpen, WideLogoAttribute];
    var tail := parts[2..];
    assert parts == head + tail;
    JoinAppend(" ", head, tail);
    assert Join(" ", head) == TileOpen + " " + WideLogoAttribute;
  }

  /** The last two characters of a tag are those of its last word. */
  lemma TileTextEnd(parts: seq<string>)
    requires |parts| >= 2 && |parts[|parts| - 1]| >= 2
    ensures var tag := Join(" ", parts); var last := parts[|parts| - 1];
      && |tag| >= 2 && tag[|tag| - 2..] == last[|last| - 2..]
      && EndsWith(tag, " " + last)
  {
    JoinEndsWith(" ", parts);
    var tag := Join(" ", parts);
    var ending := " " + parts[|parts| - 1];
    assert tag[|tag| - |ending|..] == ending;
    assert tag[|tag| - 2..] == ending[|ending| - 2..];
  }

  /** Without names on tiles the element closes itself with "/>". */
  lemma HiddenNameText(attributes: seq<string>)
    requires |attributes| >= 2
    ensures EndsWith(Join(" ", attributes + TileClosing(false)), "/>")
  {
    var parts := attributes + TileClosing(false);
    assert parts[|parts| - 1] == "/>";
    TileTextEnd(parts);
  }

  /** With names on tiles the element ends with its closing tag. */
  lemma ShownNameClosingTag(attributes: seq<string>)
    ensures EndsWith(Join(" ", attributes + TileClosing(true)), " </uap:DefaultTile>")
  {
    var closing := TileClosing(true);
    var parts := attributes + closing;
    var last := closing[|closing| - 1];
    assert parts[|parts| - 1] == last;
    TileTextEnd(parts);
    assert last == "</uap:DefaultTile>";
  }

  /** With names on tiles the element does not end with "/>". */
  lemma ShownNameNotSelfClosing(attributes: seq<string>)
    ensures !EndsWith(Join(" ", attributes + TileClosing(true)), "/>")
  {
    var closing := TileClosing(true);
    var parts := attributes + closing;
    var last := closing[|closing| - 1];
    assert parts[|parts| - 1] == last;
    TileTextEnd(parts);
    assert last == "</uap:DefaultTile>";
    assert last[|last| - 2..] == "e>";
  }

  /** The text of an element made of `attributes` and the closing words, for any attribute list. */
  lemma TileText(attributes: seq<string>, showNameOnTiles: bool)
    requires |attributes| >= 2 && attributes[..2] == [TileOpen, WideLogoAttribute]
    ensures var tag := Join(" ", attributes + TileClosing(showNameOnTiles));
      && StartsWith(tag, TileOpen + " " + WideLogoAttribute + " ")
      && (EndsWith(tag, "/>") <==> !showNameOnTiles)
      && (showNameOnTiles ==> EndsWith(tag, " </uap:DefaultTile>"))
  {
    var parts := attributes + TileClosing(showNameOnTiles);
    assert parts[..2] == attributes[..2];
    TileTextStart(parts);
    if showNameOnTiles {
      ShownNameClosingTag(attributes);
      ShownNameNotSelfClosing(attributes);
    } else {
      HiddenNameText(attributes);
    }
  }

  /**
   * The element text starts with `<uap:DefaultTile Wide310x150Logo=...`; it
   * ends with "/>" exactly when the names are not shown on tiles, and with
   * "</uap:DefaultTile>" when they are.
   */
  lemma DefaultTileText(userAssets: seq<string>, showNameOnTiles: bool)
    ensures StartsWith(DefaultTileTag(userAssets, showNameOnTiles), TileOpen + " " + WideLogoAttribute + " ")
    ensures EndsWith(DefaultTileTag(userAssets, showNameOnTiles), "/>") <==> !showNameOnTiles
    ensures showNameOnTiles ==> EndsWith(DefaultTileTag(userAssets, showNameOnTiles), " </uap:DefaultTile>")
  {
    var attributes := TileAttributes(userAssets);
    assert attributes[..2] == [TileOpen, WideLogoAttribute];
    TileText(attributes, showNameOnTiles);
  }

  // ---------------------------------------------------------------------------
  // computeUserAssets

  /** A directory entry that counts as a user asset: not hidden, not a `.db` file, with an extension. */
  predicate IsUserAsset(name: string) {
    !StartsWith(name, ".") && !EndsWith(name, ".db") && Contains(name, ".")
  }

  /** The user assets of a directory listing, in listing order. */
  function UserAssets(listing: seq<string>): (r: seq<string>)
    ensures forall x :: x in r <==> x in listing && IsUserAsset(x)
    ensures |r| <= |listing|
    decreases |listing|
  {
    if listing == [] then []
    else
      var rest := UserAssets(listing[..|listing| - 1]);
      var last := listing[|listing| - 1];
      assert listing == listing[..|listing| - 1] + [last];
      rest + (if IsUserAsset(last) then [last] else [])
  }

  /** The default assets and the vendor files they fall back to, in declaration order. */
  const DefaultAssets: seq<(string, string)> := [
    ("StoreLogo.png", "SampleAppx.50x50.png"),
    ("Square150x150Logo.png", "SampleAppx.150x150.png"),
    ("Square44x44Logo.png", "SampleAppx.44x44.png"),
    ("Wide310x150Logo.png", "SampleAppx.310x150.png")]

  /** A default asset is taken from the vendor directory when there are no user assets or it is not among them. */
  predicate NeedsDefault(userAssets: seq<string>, defaultAsset: string) {
    |userAssets| == 0 || !IsDefaultAssetIncluded(userAssets, defaultAsset)
  }

  /** The defaults of `defaults` that are taken from the vendor directory, in order. */
  function ChosenDefaults(userAssets: seq<string>, defaults: seq<(string, string)>): seq<(string, string)>
    decreases |defaults|
  {
    if defaults == [] then []
    else
      var last := defaults[|defaults| - 1];
      ChosenDefaults(userAssets, defaults[..|defaults| - 1]) + (if NeedsDefault(userAssets, last.0) then [last] else [])
  }

  /** A default is chosen exactly when it is in the table and needed. */
  lemma {:induction false} ChosenDefaultsMembers(userAssets: seq<string>, defaults: seq<(string, string)>)
    ensures forall d :: d in ChosenDefaults(userAssets, defaults) <==> d in defaults && NeedsDefault(userAssets, d.0)
    decreases |defaults|
  {
    if defaults != [] {
      var init := defaults[..|defaults| - 1];
      var last := defaults[|defaults| - 1];
      assert defaults == init + [last];
      ChosenDefaultsMembers(userAssets, init);
    }
  }

  /** The mapping line of a user asset. */
  function UserMapping(toVmFile: string -> string, pathSep: string, dir: string, name: string): string {
    "\"" + toVmFile(dir) + pathSep + name + "\" \"assets\\" + name + "\""
  }

  /** The vendor file a default asset falls back to, joined with `\` as on a Windows build host. */
  function VendorFile(vendorPath: string, vendorName: string): string {
    PathJoin(PathJoin(vendorPath, "appxAssets"), vendorName)
  }

  /** The mapping line of a default asset. */
  function DefaultMapping(toVmFile: string -> string, vendorPath: string, d: (string, string)): string {
    "\"" + toVmFile(VendorFile(vendorPath, d.1)) + "\" \"assets\\" + d.0 + "\""
  }

  function UserMappings(toVmFile: string -> string, pathSep: string, dir: string, names: seq<string>): (r: seq<string>)
    ensures |r| == |names| && forall i :: 0 <= i < |names| ==> r[i] == UserMapping(toVmFile, pathSep, dir, names[i])
  {
    seq(|names|, i requires 0 <= i < |names| => UserMapping(toVmFile, pathSep, dir, names[i]))
  }

  /** The user assets' paths (`allAssets`), joined with `\` as on a Windows build host. */
  function UserFiles(dir: string, names: seq<string>): (r: seq<string>)
    ensures |r| == |names| && forall i :: 0 <= i < |names| ==> r[i] == PathJoin(dir, names[i])
  {
    seq(|names|, i requires 0 <= i < |names| => PathJoin(dir, names[i]))
  }

  function DefaultMappings(toVmFile: string -> string, vendorPath: string, ds: seq<(string, string)>): (r: seq<string>)
    ensures |r| == |ds| && forall i :: 0 <= i < |ds| ==> r[i] == DefaultMapping(toVmFile, vendorPath, ds[i])
  {
    seq(|ds|, i requires 0 <= i < |ds| => DefaultMapping(toVmFile, vendorPath, ds[i]))
  }

  function DefaultFiles(vendorPath: string, ds: seq<(string, string)>): (r: seq<string>)
    ensures |r| == |ds| && forall i :: 0 <= i < |ds| ==> r[i] == VendorFile(vendorPath, ds[i].1)
  {
    seq(|ds|, i requires 0 <= i < |ds| => VendorFile(vendorPath, ds[i].1))
  }

  lemma UserListsSnoc(toVmFile: string -> string, pathSep: string, dir: string, names: seq<string>, name: string)
    ensures UserMappings(toVmFile, pathSep, dir, names + [name]) == UserMappings(toVmFile, pathSep, dir, names) + [UserMapping(toVmFile, pathSep, dir, name)]
    ensures UserFiles(dir, names + [name]) == UserFiles(dir, names) + [PathJoin(dir, name)]
  {
    assert UserMappings(toVmFile, pathSep, dir, names + [name]) == UserMappings(toVmFile, pathSep, dir, names) + [UserMapping(toVmFile, pathSep, dir, name)];
    assert UserFiles(dir, names + [name]) == UserFiles(dir, names) + [PathJoin(dir, name)];
  }

  lemma DefaultListsSnoc(toVmFile: string -> string, vendorPath: string, ds: seq<(string, string)>, d: (string, string))
    ensures DefaultMappings(toVmFile, vendorPath, ds + [d]) == DefaultMappings(toVmFile, vendorPath, ds) + [DefaultMapping(toVmFile, vendorPath, d)]
    ensures DefaultFiles(vendorPath, ds + [d]) == DefaultFiles(vendorPath, ds) + [VendorFile(vendorPath, d.1)]
  {
    assert DefaultMappings(toVmFile, vendorPath, ds + [d]) == DefaultMappings(toVmFile, vendorPath, ds) + [DefaultMapping(toVmFile, vendorPath, d)];
    assert DefaultFiles(vendorPath, ds + [d]) == DefaultFiles(vendorPath, ds) + [VendorFile(vendorPath, d.1)];
  }

  lemma SnocAssoc<T>(a: seq<T>, b: seq<T>, x: T)
    ensures a + (b + [x]) == (a + b) + [x]
  {
  }

  /** One more default considered: it is chosen or not, the earlier choices stay. */
  lemma ChosenDefaultsSnoc(userAssets: seq<string>, defaults: seq<(string, string)>, d: (string, string))
    ensures ChosenDefaults(userAssets, defaults + [d]) ==
      ChosenDefaults(userAssets, defaults) + (if NeedsDefault(userAssets, d.0) then [d] else [])
  {
    assert (defaults + [d])[..|defaults|] == defaults;
  }

  /**
   * The loop of `computeUserAssets` over the default assets: the mapping line
   * and the vendor file of every default that is needed, in table order.
   */
  method AddVendorDefaults(toVmFile: string -> string, vendorPath: string, userAssets: seq<string>, defaults: seq<(string, string)>,
                           mappings0: seq<string>, allAssets0: seq<string>)
    returns (mappings: seq<string>, allAssets: seq<string>)
    ensures mappings == mappings0 + DefaultMappings(toVmFile, vendorPath, ChosenDefaults(userAssets, defaults))
    ensures allAssets == allAssets0 + DefaultFiles(vendorPath, ChosenDefaults(userAssets, defaults))
  {
    mappings := mappings0;
    allAssets := allAssets0;
    ghost var chosen: seq<(string, string)> := [];
    for j := 0 to |defaults|
      invariant chosen == ChosenDefaults(userAssets, defaults[..j])
      invariant mappings == mappings0 + DefaultMappings(toVmFile, vendorPath, chosen)
      invariant allAssets == allAssets0 + DefaultFiles(vendorPath, chosen)
    {
      var d := defaults[j];
      ChosenDefaultsSnoc(userAssets, defaults[..j], d);
      assert defaults[..j + 1] == defaults[..j] + [d];
      if NeedsDefault(userAssets, d.0) {
        var file := VendorFile(vendorPath, d.1);
        var line := "\"" + toVmFile(file) + "\" \"assets\\" + d.0 + "\"";
        assert line == DefaultMapping(toVmFile, vendorPath, d);
        DefaultListsSnoc(toVmFile, vendorPath, chosen, d);
        SnocAssoc(mappings0, DefaultMappings(toVmFile, vendorPath, chosen), line);
        SnocAssoc(allAssets0, DefaultFiles(vendorPath, chosen), file);
        chosen := chosen + [d];
        mappings := mappings + [line];
        allAssets := allAssets + [file];
      } else {
        assert chosen + [] == chosen;
      }
    }
    assert defaults[..|defaults|] == defaults;
  }

  /**
   * `computeUserAssets`: `toVmFile` and `pathSep` are those of the build
   * machine, `listing` is what reading the user asset directory gives.
   * Mapping lines and asset files come in the same order: the user assets
   * first, then the chosen defaults.
   */
  method ComputeUserAssets(toVmFile: string -> string, pathSep: string, vendorPath: string,
                           userAssetDir: Option<string>, listing: seq<string>)
    returns (userAssets: seq<string>, mappings: seq<string>, allAssets: seq<string>)
    ensures userAssets == if userAssetDir.None? then [] else UserAssets(listing)
    ensures userAssetDir.Some? ==>
      && mappings == UserMappings(toVmFile, pathSep, userAssetDir.value, userAssets)
                     + DefaultMappings(toVmFile, vendorPath, ChosenDefaults(userAssets, DefaultAssets))
      && allAssets == UserFiles(userAssetDir.value, userAssets) + DefaultFiles(vendorPath, ChosenDefaults(userAssets, DefaultAssets))
    ensures userAssetDir.None? ==>
      && mappings == DefaultMappings(toVmFile, vendorPath, DefaultAssets)
      && allAssets == DefaultFiles(vendorPath, DefaultAssets)
    ensures |mappings| == |allAssets|
  {
    mappings := [];
    allAssets := [];
    if userAssetDir.None? {
      userAssets := [];
    } else {
      var dir := userAssetDir.value;
      userAssets := UserAssets(listing);
      for i := 0 to |userAssets|
        invariant mappings == UserMappings(toVmFile, pathSep, dir, userAssets[..i])
        invariant allAssets == UserFiles(dir, userAssets[..i])
      {
        UserListsSnoc(toVmFile, pathSep, dir, userAssets[..i], userAssets[i]);
        assert userAssets[..i + 1] == userAssets[..i] + [userAssets[i]];
        mappings := mappings + [UserMapping(toVmFile, pathSep, dir, userAssets[i])];
        allAssets := allAssets + [PathJoin(dir, userAssets[i])];
      }
      assert userAssets[..|userAssets|] == userAssets;
    }
    mappings, allAssets := AddVendorDefaults(toVmFile, vendorPath, userAssets, DefaultAssets, mappings, allAssets);
    if userAssetDir.None? {
      NoUserAssetsAllDefaults(DefaultAssets);
    }
  }

  /** Without user assets every default is taken from the vendor directory. */
  lemma {:induction false} NoUserAssetsAllDefaults(defaults: seq<(string, string)>)
    ensures ChosenDefaults([], defaults) == defaults
    decreases |defaults|
  {
    if defaults != [] {
      NoUserAssetsAllDefaults(defaults[..|defaults| - 1]);
    }
  }

  /** A default asset is added from the vendor directory exactly when there are no user assets or it is not included. */
  lemma DefaultAddedIff(userAssets: seq<string>, i: nat)
    requires i < |DefaultAssets|
    ensures DefaultAssets[i] in ChosenDefaults(userAssets, DefaultAssets) <==>
      |userAssets| == 0 || !IsDefaultAssetIncluded(userAssets, DefaultAssets[i].0)
  {
    var defaults := DefaultAssets;
    var d := defaults[i];
    ChosenDefaultsMembers(userAssets, defaults);
    assert d in defaults;
    assert d in ChosenDefaults(userAssets, defaults) <==> NeedsDefault(userAssets, d.0);
  }
}
