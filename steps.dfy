/**
 * The single steps of `wg new`, each as a function from the filesystem it
 * starts from to the `Progress` it leaves behind: the outcome, the new
 * filesystem and the external commands it launched. A failing step changes
 * nothing.
 */
module Steps {

  import opened Wrappers
  import opened Toml
  import opened FileSystem
  import opened Process
  import opened Errors
  import opened Manifest
  import opened Effects

  const GitignoreName := ".gitignore"
  const GitignoreText := "/target\nCargo.lock\n"
  const ToolchainName := "rust-toolchain.toml"
  const GitDirName := ".git"

  const ToolchainHead := "[toolchain]\nchannel = \""
  const ToolchainTail := "\"\n"

  /** The toolchain pin naming `channel`. */
  function ToolchainText(channel: string): string
  {
    ToolchainHead + channel + ToolchainTail
  }

  /** The channel a toolchain pin names, when the text has the pin's shape. */
  function ChannelOf(text: string): Option<string>
  {
    if |text| >= |ToolchainHead| + |ToolchainTail|
       && text[..|ToolchainHead|] == ToolchainHead
       && text[|text| - |ToolchainTail|..] == ToolchainTail
    then Some(text[|ToolchainHead|..|text| - |ToolchainTail|])
    else None
  }

  /** The pin written for a channel names exactly that channel. */
  lemma ToolchainTextReadsBack(channel: string)
    ensures ChannelOf(ToolchainText(channel)) == Some(channel)
  {
    var text := ToolchainText(channel);
    assert text[..|ToolchainHead|] == ToolchainHead;
    assert text[|text| - |ToolchainTail|..] == ToolchainTail;
    assert text[|ToolchainHead|..|text| - |ToolchainTail|] == channel;
  }

  /** The pin for the nightly channel, spelled out. */
  lemma NightlyPin()
    ensures ToolchainText("nightly") == "[toolchain]\nchannel = \"nightly\"\n"
  {
  }

  /** The files and directories `wg new` puts into the root are four different paths. */
  lemma RootEntriesDistinct(root: Path)
    ensures ManifestPath(root) != Join(root, GitignoreName)
    ensures ManifestPath(root) != Join(root, ToolchainName)
    ensures ManifestPath(root) != Join(root, GitDirName)
    ensures Join(root, GitignoreName) != Join(root, ToolchainName)
    ensures Join(root, GitignoreName) != Join(root, GitDirName)
    ensures Join(root, ToolchainName) != Join(root, GitDirName)
  {
    assert ManifestName[0] != GitignoreName[0];
    assert ManifestName[0] != ToolchainName[0] && ManifestName[0] != GitDirName[0];
    assert |GitignoreName| != |GitDirName| && GitignoreName[0] != ToolchainName[0];
    assert ToolchainName[0] != GitDirName[0];
    JoinInjective(root, GitignoreName, ManifestName);
    JoinInjective(root, ToolchainName, ManifestName);
    JoinInjective(root, GitDirName, ManifestName);
    JoinInjective(root, ToolchainName, GitignoreName);
    JoinInjective(root, GitDirName, GitignoreName);
    JoinInjective(root, GitDirName, ToolchainName);
  }

  /** `std::fs::write(path, contents)`, reporting a failure as `action` on `path`. */
  function Written(fs: FileSystem, path: Path, contents: Contents, action: string): (p: Progress)
    ensures p.runs == []
    ensures p.result.Pass? <==> Writable(fs, path)
    ensures p.result.Pass? ==> p.fs == fs[path := File(contents)]
    ensures p.result.Fail? ==> p.fs == fs && p.result.error == IoError(action, path)
  {
    if Writable(fs, path) then Progress(Pass, PutFile(fs, path, contents), [])
    else Progress(Fail(IoError(action, path)), fs, [])
  }

  /**
   * `ensure_target_dir`: a missing target is created with its missing
   * ancestors; an existing target must be a directory, and an empty one
   * unless `force` is set. An existing directory is never altered.
   */
  function TargetDir(fs: FileSystem, path: Path, force: bool): (p: Progress)
    ensures p.runs == []
    ensures p.result.Pass? <==>
      || (IsDir(fs, path) && (force || !HasEntries(fs, path)))
      || (path !in fs && CreateDirAll(fs, path).Some?)
    ensures p.result.Pass? ==> IsDir(p.fs, path)
    ensures p.result.Pass? ==> p.fs.Keys == fs.Keys + (if path in fs then {} else Prefixes(path))
    ensures p.result.Pass? ==> forall q | q in fs :: p.fs[q] == fs[q]
    ensures p.result.Pass? && path !in fs ==> !HasEntries(p.fs, path)
    ensures p.result.Fail? ==> p.fs == fs
    ensures path in fs && fs[path].File? ==> p.result == Fail(NotADirectory(path))
    ensures IsDir(fs, path) && !force && HasEntries(fs, path) ==> p.result == Fail(DirectoryNotEmpty(path))
    ensures path !in fs && p.result.Fail? ==> p.result == Fail(IoError("failed to create workspace directory", path))
  {
    if path in fs then
      if !fs[path].Dir? then Progress(Fail(NotADirectory(path)), fs, [])
      else if !force && HasEntries(fs, path) then Progress(Fail(DirectoryNotEmpty(path)), fs, [])
      else Unchanged(fs)
    else match CreateDirAll(fs, path)
      case None => Progress(Fail(IoError("failed to create workspace directory", path)), fs, [])
      case Some(created) => Progress(Pass, created, [])
  }

  /** Creating the target leaves what was or was not at the manifest's path as it was. */
  lemma TargetDirKeepsManifest(fs: FileSystem, root: Path, force: bool)
    requires TargetDir(fs, root, force).result.Pass?
    ensures ReadManifest(TargetDir(fs, root, force).fs, root) == ReadManifest(fs, root)
  {
  }

  /**
   * `write_workspace_manifest`: read the manifest (or start from
   * `[workspace]`), pin the resolver, set the members, write it back.
   */
  function ManifestWritten(fs: FileSystem, root: Path, members: seq<string>): (p: Progress)
    ensures p.runs == []
    ensures p.result.Pass? <==>
      IsDir(fs, root) && ReadManifest(fs, root).Success? && Merge(ReadManifest(fs, root).value, members).Success?
    ensures p.result.Pass? ==>
      p.fs == fs[ManifestPath(root) := File(Toml(Merge(ReadManifest(fs, root).value, members).value))]
    ensures p.result.Fail? ==> p.fs == fs
    ensures ReadManifest(fs, root).Failure? ==> p.result == Fail(ReadManifest(fs, root).error)
    ensures ReadManifest(fs, root).Success? && Merge(ReadManifest(fs, root).value, members).Failure? ==>
      p.result == Fail(WorkspaceNotATable)
    ensures ReadManifest(fs, root).Success? && Merge(ReadManifest(fs, root).value, members).Success? && !IsDir(fs, root) ==>
      p.result == Fail(IoError("failed to write", ManifestPath(root)))
  {
    match ReadManifest(fs, root)
    case Failure(e) => Progress(Fail(e), fs, [])
    case Success(doc) =>
      match Merge(doc, members)
      case Failure(e) => Progress(Fail(e), fs, [])
      case Success(merged) => Written(fs, ManifestPath(root), Toml(merged), "failed to write")
  }

  /** `write_gitignore`: an existing `.gitignore` is left alone; otherwise it is created. */
  function GitignoreWritten(fs: FileSystem, root: Path): (p: Progress)
    ensures p.runs == []
    ensures p.result.Pass? <==> Join(root, GitignoreName) in fs || IsDir(fs, root)
    ensures Join(root, GitignoreName) in fs ==> p.fs == fs
    ensures p.result.Pass? ==>
      Join(root, GitignoreName) in p.fs && p.fs == fs[Join(root, GitignoreName) := p.fs[Join(root, GitignoreName)]]
    ensures p.result.Pass? && Join(root, GitignoreName) !in fs ==>
      p.fs[Join(root, GitignoreName)] == File(Text(GitignoreText))
    ensures p.result.Fail? ==> p.fs == fs && p.result.error == IoError("failed to create", Join(root, GitignoreName))
  {
    var path := Join(root, GitignoreName);
    if path in fs then Unchanged(fs)
    else Written(fs, path, Text(GitignoreText), "failed to create")
  }

  /** `write_toolchain_file`: the pin is written whatever was there before. */
  function ToolchainWritten(fs: FileSystem, root: Path, channel: string): (p: Progress)
    ensures p.runs == []
    ensures p.result.Pass? <==> IsDir(fs, root) && !IsDir(fs, Join(root, ToolchainName))
    ensures p.result.Pass? ==> p.fs == fs[Join(root, ToolchainName) := File(Text(ToolchainText(channel)))]
    ensures p.result.Fail? ==> p.fs == fs && p.result.error == IoError("failed to write", Join(root, ToolchainName))
  {
    Written(fs, Join(root, ToolchainName), Text(ToolchainText(channel)), "failed to write")
  }

  /** Writing the ignore file a second time has the same outcome and changes nothing more. */
  lemma GitignoreIdempotent(fs: FileSystem, root: Path)
    ensures var once := GitignoreWritten(fs, root);
      GitignoreWritten(once.fs, root) == once
  {
  }

  /** Pinning the same channel a second time has the same outcome and changes nothing more. */
  lemma ToolchainIdempotent(fs: FileSystem, root: Path, channel: string)
    ensures var once := ToolchainWritten(fs, root, channel);
      ToolchainWritten(once.fs, root, channel) == once
  {
  }

  /** A later pin replaces an earlier one: only the last channel written remains. */
  lemma ToolchainLastWins(fs: FileSystem, root: Path, first: string, second: string)
    ensures ToolchainWritten(ToolchainWritten(fs, root, first).fs, root, second) == ToolchainWritten(fs, root, second)
  {
  }

  /** `init_git_repo`: run `git init` in the root; a successful run leaves a `.git` entry there. */
  function GitInitialised(fs: FileSystem, root: Path, succeeds: Invocation -> bool): (p: Progress)
    requires IsDir(fs, root)
    ensures p.runs == [GitInit(root)]
    ensures p.result.Pass? <==> succeeds(GitInit(root))
    ensures p.result.Pass? ==> Join(root, GitDirName) in p.fs
    ensures p.result.Pass? ==> p.fs == fs[Join(root, GitDirName) := p.fs[Join(root, GitDirName)]]
    ensures p.result.Fail? ==> p.fs == fs && p.result.error == CommandFailed(GitInit(root))
  {
    var dir := Join(root, GitDirName);
    if !succeeds(GitInit(root)) then Progress(Fail(CommandFailed(GitInit(root))), fs, [GitInit(root)])
    else if dir in fs then Progress(Pass, fs, [GitInit(root)])
    else Progress(Pass, AddDir(fs, dir), [GitInit(root)])
  }
}
