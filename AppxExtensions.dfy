/**
 * The `<Extensions>` element of an AppX manifest (`getExtensions`): a
 * start-up task when auto-launch is wanted, one protocol block per URI
 * scheme, one file-type block per file extension, and the user's own
 * extensions file; nothing at all when none of these is configured.
 */
module AppxExtensions {
  import opened Wrappers
  import opened Text

  /** A protocol (`protocols` entry): its display name and one or more schemes. */
  datatype Protocol = Protocol(name: string, schemes: OneOrMany<string>)

  /** A file association (`fileAssociations` entry): one or more extensions. */
  datatype FileAssociation = FileAssociation(ext: OneOrMany<string>)

  /**
   * What `getExtensions` reads from the configuration: protocols and file
   * associations from the top-level and the Windows-specific configuration,
   * `appx.addAutoLaunchExtension` (absent when undefined), whether the app
   * depends on `electron-winstore-auto-launch`, and
   * `appx.customExtensionsPath` (absent when undefined).
   */
  datatype ExtensionConfig = ExtensionConfig(
    configProtocols: OneOrMany<Protocol>,
    platformProtocols: OneOrMany<Protocol>,
    configAssociations: OneOrMany<FileAssociation>,
    platformAssociations: OneOrMany<FileAssociation>,
    addAutoLaunchExtension: Option<bool>,
    hasAutoLaunchDependency: bool,
    customExtensionsPath: Option<string>)

  function UriSchemes(c: ExtensionConfig): seq<Protocol> {
    AsArray(c.configProtocols) + AsArray(c.platformProtocols)
  }

  function Associations(c: ExtensionConfig): seq<FileAssociation> {
    AsArray(c.configAssociations) + AsArray(c.platformAssociations)
  }

  /** An explicit `addAutoLaunchExtension` wins; when undefined, the dependency decides. */
  function IsAddAutoLaunch(c: ExtensionConfig): bool {
    if c.addAutoLaunchExtension.Some? then c.addAutoLaunchExtension.value else c.hasAutoLaunchDependency
  }

  /** Nothing to put in an `<Extensions>` element. */
  predicate NoExtensions(c: ExtensionConfig) {
    !IsAddAutoLaunch(c) && |UriSchemes(c)| == 0 && |Associations(c)| == 0 && c.customExtensionsPath.None?
  }

  const AutoLaunchOpen := "\n        <desktop:Extension Category=\"windows.startupTask\" Executable=\""
  const AutoLaunchMiddle := "\" EntryPoint=\"Windows.FullTrustApplication\">\n          <desktop:StartupTask TaskId=\"SlackStartup\" Enabled=\"true\" DisplayName=\""
  const AutoLaunchClose := "\" />\n        </desktop:Extension>"

  function AutoLaunchBlock(executable: string, displayName: string): string {
    AutoLaunchOpen + executable + AutoLaunchMiddle + displayName + AutoLaunchClose
  }

  const ProtocolOpen := "\n          <uap:Extension Category=\"windows.protocol\">\n            <uap:Protocol Name=\""
  const ProtocolMiddle := "\">\n               <uap:DisplayName>"
  const ProtocolClose := "</uap:DisplayName>\n             </uap:Protocol>\n          </uap:Extension>"

  function ProtocolBlock(scheme: string, protocolName: string): string {
    ProtocolOpen + scheme + ProtocolMiddle + protocolName + ProtocolClose
  }

  const FileTypeOpen := "\n          <uap:Extension Category=\"windows.fileTypeAssociation\">\n            <uap:FileTypeAssociation Name=\""
  const FileTypeMiddle := "\">\n              <uap:SupportedFileTypes>\n                <uap:FileType>."
  const FileTypeClose := "</uap:FileType>\n              </uap:SupportedFileTypes>\n            </uap:FileTypeAssociation>\n          </uap:Extension>"

  function FileTypeBlock(ext: string): string {
    FileTypeOpen + ext + FileTypeMiddle + ext + FileTypeClose
  }

  /** The blocks of one protocol, one per scheme, in order. */
  function SchemeBlocks(p: Protocol): seq<string> {
    var schemes := AsArray(p.schemes);
    seq(|schemes|, j requires 0 <= j < |schemes| => ProtocolBlock(schemes[j], p.name))
  }

  /** The blocks of all protocols, protocol by protocol. */
  function ProtocolBlocks(ps: seq<Protocol>): seq<string>
    decreases |ps|
  {
    if ps == [] then [] else ProtocolBlocks(ps[..|ps| - 1]) + SchemeBlocks(ps[|ps| - 1])
  }

  /** The blocks of one file association, one per extension, in order. */
  function ExtensionBlocks(a: FileAssociation): seq<string> {
    var exts := AsArray(a.ext);
    seq(|exts|, j requires 0 <= j < |exts| => FileTypeBlock(exts[j]))
  }

  /** The blocks of all file associations, association by association. */
  function AssociationBlocks(fas: seq<FileAssociation>): seq<string>
    decreases |fas|
  {
    if fas == [] then [] else AssociationBlocks(fas[..|fas| - 1]) + ExtensionBlocks(fas[|fas| - 1])
  }

  /** The number of schemes of all protocols. */
  function SchemeCount(ps: seq<Protocol>): nat
    decreases |ps|
  {
    if ps == [] then 0 else SchemeCount(ps[..|ps| - 1]) + |AsArray(ps[|ps| - 1].schemes)|
  }

  /**
   * What `getExtensions` writes between `<Extensions>` and `</Extensions>`:
   * the start-up task, the protocol blocks, the file-type blocks and the
   * custom extensions (`customExtensions` is the content of the file at
   * `customExtensionsPath`).
   */
  function ExtensionsBody(c: ExtensionConfig, executable: string, displayName: string, customExtensions: string): string {
    (if IsAddAutoLaunch(c) then AutoLaunchBlock(executable, displayName) else "")
      + Concat(ProtocolBlocks(UriSchemes(c)))
      + Concat(AssociationBlocks(Associations(c)))
      + (if c.customExtensionsPath.Some? then customExtensions else "")
  }

  /** The element `getExtensions` returns: "" when there is nothing to declare, the wrapped body otherwise. */
  function ExtensionsText(c: ExtensionConfig, executable: string, displayName: string, customExtensions: string): string {
    if NoExtensions(c) then ""
    else "<Extensions>" + ExtensionsBody(c, executable, displayName, customExtensions) + "</Extensions>"
  }

  lemma ProtocolBlocksSnoc(ps: seq<Protocol>, i: nat)
    requires i < |ps|
    ensures ProtocolBlocks(ps[..i + 1]) == ProtocolBlocks(ps[..i]) + SchemeBlocks(ps[i])
  {
    assert ps[..i + 1][..i] == ps[..i];
  }

  lemma AssociationBlocksSnoc(fas: seq<FileAssociation>, i: nat)
    requires i < |fas|
    ensures AssociationBlocks(fas[..i + 1]) == AssociationBlocks(fas[..i]) + ExtensionBlocks(fas[i])
  {
    assert fas[..i + 1][..i] == fas[..i];
  }

  /** One more block appended to a prefix of a block list. */
  lemma ConcatPrefixSnoc(blocks: seq<string>, j: nat)
    requires j < |blocks|
    ensures Concat(blocks[..j + 1]) == Concat(blocks[..j]) + blocks[j]
  {
    assert blocks[..j + 1] == blocks[..j] + [blocks[j]];
    ConcatSnoc(blocks[..j], blocks[j]);
  }

  /** The `+=` of every scheme block of one protocol. */
  method AppendSchemeBlocks(extensions0: string, protocol: Protocol) returns (extensions: string)
    ensures extensions == extensions0 + Concat(SchemeBlocks(protocol))
  {
    extensions := extensions0;
    var schemes := AsArray(protocol.schemes);
    ghost var blocks := SchemeBlocks(protocol);
    for j := 0 to |schemes|
      invariant extensions == extensions0 + Concat(blocks[..j])
    {
      ConcatPrefixSnoc(blocks, j);
      AppendAssoc(extensions0, Concat(blocks[..j]), blocks[j]);
      extensions := extensions + ProtocolBlock(schemes[j], protocol.name);
    }
    assert blocks[..|schemes|] == blocks;
  }

  /** The `+=` of every file-type block of one association. */
  method AppendExtensionBlocks(extensions0: string, association: FileAssociation) returns (extensions: string)
    ensures extensions == extensions0 + Concat(ExtensionBlocks(association))
  {
    extensions := extensions0;
    var exts := AsArray(association.ext);
    ghost var blocks := ExtensionBlocks(association);
    for j := 0 to |exts|
      invariant extensions == extensions0 + Concat(blocks[..j])
    {
      ConcatPrefixSnoc(blocks, j);
      AppendAssoc(extensions0, Concat(blocks[..j]), blocks[j]);
      extensions := extensions + FileTypeBlock(exts[j]);
    }
    assert blocks[..|exts|] == blocks;
  }

  /** The outer `for` over the URI schemes: every protocol's blocks, protocol by protocol. */
  method AppendProtocolBlocks(extensions0: string, ps: seq<Protocol>) returns (extensions: string)
    ensures extensions == extensions0 + Concat(ProtocolBlocks(ps))
  {
    extensions := extensions0;
    for i := 0 to |ps|
      invariant extensions == extensions0 + Concat(ProtocolBlocks(ps[..i]))
    {
      ProtocolBlocksSnoc(ps, i);
      ConcatAppend(ProtocolBlocks(ps[..i]), SchemeBlocks(ps[i]));
      AppendAssoc(extensions0, Concat(ProtocolBlocks(ps[..i])), Concat(SchemeBlocks(ps[i])));
      extensions := AppendSchemeBlocks(extensions, ps[i]);
    }
    assert ps[..|ps|] == ps;
  }

  /** The outer `for` over the file associations: every association's blocks, in order. */
  method AppendAssociationBlocks(extensions0: string, fas: seq<FileAssociation>) returns (extensions: string)
    ensures extensions == extensions0 + Concat(AssociationBlocks(fas))
  {
    extensions := extensions0;
    for i := 0 to |fas|
      invariant extensions == extensions0 + Concat(AssociationBlocks(fas[..i]))
    {
      AssociationBlocksSnoc(fas, i);
      ConcatAppend(AssociationBlocks(fas[..i]), ExtensionBlocks(fas[i]));
      AppendAssoc(extensions0, Concat(AssociationBlocks(fas[..i])), Concat(ExtensionBlocks(fas[i])));
      extensions := AppendExtensionBlocks(extensions, fas[i]);
    }
    assert fas[..|fas|] == fas;
  }

  /**
   * `getExtensions`: accumulates the element with `+=`, protocol by protocol
   * and scheme by scheme, then association by association and extension by
   * extension.
   */
  method GetExtensions(c: ExtensionConfig, executable: string, displayName: string, customExtensions: string)
    returns (extensions: string)
    ensures extensions == ExtensionsText(c, executable, displayName, customExtensions)
  {
    var uriSchemes := AsArray(c.configProtocols) + AsArray(c.platformProtocols);
    var fileAssociations := AsArray(c.configAssociations) + AsArray(c.platformAssociations);
    var isAddAutoLaunchExtension := c.hasAutoLaunchDependency;
    if c.addAutoLaunchExtension.Some? {
      isAddAutoLaunchExtension := c.addAutoLaunchExtension.value;
    }
    if !isAddAutoLaunchExtension && |uriSchemes| == 0 && |fileAssociations| == 0 && c.customExtensionsPath.None? {
      return "";
    }
    ghost var open := "<Extensions>";
    ghost var auto := if isAddAutoLaunchExtension then AutoLaunchBlock(executable, displayName) else "";
    ghost var protocols := Concat(ProtocolBlocks(uriSchemes));
    ghost var associations := Concat(AssociationBlocks(fileAssociations));
    ghost var custom := if c.customExtensionsPath.Some? then customExtensions else "";
    extensions := "<Extensions>";
    if isAddAutoLaunchExtension {
      extensions := extensions + AutoLaunchBlock(executable, displayName);
    } else {
      assert open + auto == open;
    }
    extensions := AppendProtocolBlocks(extensions, uriSchemes);
    extensions := AppendAssociationBlocks(extensions, fileAssociations);
    if c.customExtensionsPath.Some? {
      extensions := extensions + customExtensions;
    } else {
      assert extensions + custom == extensions;
    }
    assert extensions == open + auto + protocols + associations + custom;
    AppendAssoc(open, auto, protocols);
    AppendAssoc(open, auto + protocols, associations);
    AppendAssoc(open, auto + protocols + associations, custom);
    assert auto + protocols + associations + custom == ExtensionsBody(c, executable, displayName, customExtensions);
    extensions := extensions + "</Extensions>";
  }

  // ---------------------------------------------------------------------------
  // Properties

  /**
   * The element is empty exactly when there is no auto-launch, no scheme, no
   * association and no custom path; otherwise it is wrapped in
   * `<Extensions>` ... `</Extensions>`.
   */
  lemma EmptyOrWrapped(c: ExtensionConfig, executable: string, displayName: string, customExtensions: string)
    ensures var text := ExtensionsText(c, executable, displayName, customExtensions);
      && (text == "" <==> NoExtensions(c))
      && (!NoExtensions(c) ==> StartsWith(text, "<Extensions>") && EndsWith(text, "</Extensions>"))
  {
    if !NoExtensions(c) {
      var text := ExtensionsText(c, executable, displayName, customExtensions);
      var front := "<Extensions>" + ExtensionsBody(c, executable, displayName, customExtensions);
      assert text == front + "</Extensions>";
      assert front[..|"<Extensions>"|] == "<Extensions>";
      assert text[..|"<Extensions>"|] == front[..|"<Extensions>"|];
      assert text[|text| - |"</Extensions>"|..] == "</Extensions>";
    }
  }

  /**
   * An explicit `addAutoLaunchExtension: true`, or none with the
   * auto-launch dependency present, puts the start-up task first in the
   * element; an explicit `false` wins over the dependency, so with nothing
   * else configured the element is empty.
   */
  lemma AutoLaunchFirst(c: ExtensionConfig, executable: string, displayName: string, customExtensions: string)
    ensures c.addAutoLaunchExtension == Some(true) || (c.addAutoLaunchExtension.None? && c.hasAutoLaunchDependency) ==>
      StartsWith(ExtensionsText(c, executable, displayName, customExtensions), "<Extensions>" + AutoLaunchBlock(executable, displayName))
    ensures c.addAutoLaunchExtension == Some(false) && |UriSchemes(c)| == 0 && |Associations(c)| == 0 && c.customExtensionsPath.None? ==>
      ExtensionsText(c, executable, displayName, customExtensions) == ""
  {
    if IsAddAutoLaunch(c) {
      var block := AutoLaunchBlock(executable, displayName);
      var protocols := Concat(ProtocolBlocks(UriSchemes(c)));
      var associations := Concat(AssociationBlocks(Associations(c)));
      var custom := if c.customExtensionsPath.Some? then customExtensions else "";
      assert StartsWith(block, block);
      StartsWithAppend(block, block, "", protocols);
      StartsWithAppend(block + protocols, block, "", associations);
      StartsWithAppend(block + protocols + associations, block, "", custom);
      var body := block + protocols + associations + custom;
      assert body == ExtensionsBody(c, executable, displayName, customExtensions);
      StartsWithAppend(body, block, "<Extensions>", "");
      StartsWithAppend("<Extensions>" + body, "<Extensions>" + block, "", "</Extensions>");
    }
  }

  /** The blocks of two lists of protocols are those of the first followed by those of the second. */
  lemma {:induction false} ProtocolBlocksAppend(ps: seq<Protocol>, qs: seq<Protocol>)
    ensures ProtocolBlocks(ps + qs) == ProtocolBlocks(ps) + ProtocolBlocks(qs)
    decreases |qs|
  {
    if qs == [] {
      assert ps + qs == ps;
    } else {
      var init := qs[..|qs| - 1];
      assert (ps + qs)[..|ps + qs| - 1] == ps + init;
      ProtocolBlocksAppend(ps, init);
    }
  }

  /** There is one protocol block per scheme. */
  lemma {:induction false} ProtocolBlockCount(ps: seq<Protocol>)
    ensures |ProtocolBlocks(ps)| == SchemeCount(ps)
    decreases |ps|
  {
    if ps != [] {
      ProtocolBlockCount(ps[..|ps| - 1]);
    }
  }

  /**
   * The blocks of the top-level protocols come before those of the
   * Windows-specific ones, in input order.
   */
  lemma ConfigProtocolsFirst(c: ExtensionConfig)
    ensures ProtocolBlocks(UriSchemes(c)) == ProtocolBlocks(AsArray(c.configProtocols)) + ProtocolBlocks(AsArray(c.platformProtocols))
  {
    ProtocolBlocksAppend(AsArray(c.configProtocols), AsArray(c.platformProtocols));
  }

  /** A single protocol with schemes s1..sn gives the blocks for s1..sn, in that order. */
  lemma SingleProtocolBlocks(p: Protocol)
    ensures ProtocolBlocks([p]) == SchemeBlocks(p)
  {
    assert [p][..0] == [];
  }
}
