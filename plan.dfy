/**
 * What `wg new` does once its member list has passed the duplicate check:
 * resolve the target, prepare the root (gate, baseline manifest, ignore
 * file, toolchain pin, `git init`), then scaffold the libraries and the
 * binaries and record them in the manifest. Every step runs only if the
 * previous one passed, and nothing is undone after a failure.
 */
module Plan {

  import opened Wrappers
  import opened Toml
  import opened FileSystem
  import opened Process
  import opened Errors
  import opened Members
  import opened Manifest
  import opened Effects
  import opened Scaffold
  import opened Steps

  /** The target path as given on the command line. */
  datatype Utf8Path = Utf8Path(absolute: bool, components: seq<string>)

  /** The process's current directory: readable (and valid UTF-8 or not), or unreadable. */
  datatype WorkingDir = WorkingDir(path: Path, utf8: bool) | Unreadable

  /**
   * `resolve_path`: an absolute path is kept; a relative one is joined onto
   * the current directory, which must be readable and valid UTF-8.
   */
  function ResolvePath(input: Utf8Path, cwd: WorkingDir): (r: Result<Path, Error>)
    ensures input.absolute ==> r == Success(input.components)
    ensures !input.absolute ==> (r.Success? <==> cwd.WorkingDir? && cwd.utf8)
    ensures !input.absolute && cwd.Unreadable? ==> r == Failure(CurrentDirUnavailable)
    ensures !input.absolute && cwd.WorkingDir? && !cwd.utf8 ==> r == Failure(InvalidPath(input.components))
    ensures r.Success? ==>
      |r.value| >= |input.components| && r.value[|r.value| - |input.components|..] == input.components
    ensures r.Success? && !input.absolute ==>
      cwd.WorkingDir? && |r.value| == |cwd.path| + |input.components| && r.value[..|cwd.path|] == cwd.path
  {
    if input.absolute then Success(input.components)
    else if cwd.Unreadable? then Failure(CurrentDirUnavailable)
    else if !cwd.utf8 then Failure(InvalidPath(input.components))
    else Success(cwd.path + input.components)
  }

  /** The options of `wg new`. */
  datatype NewArgs = NewArgs(
    path: Utf8Path,
    libs: seq<string>,
    bins: seq<string>,
    git: bool,
    force: bool,
    toolchain: Option<string>)

  /** The target is absent and can be created, or is an empty directory. */
  predicate FreshTarget(fs: FileSystem, root: Path)
  {
    || (root !in fs && CreateDirAll(fs, root).Some?)
    || (IsDir(fs, root) && !HasEntries(fs, root))
  }

  /**
   * The names a member cannot take: those `wg new` itself puts into the root
   * before scaffolding, and those that name the root or its parent.
   */
  function Reserved(args: NewArgs): set<string>
  {
    {ManifestName, GitignoreName, "", ".", ".."}
      + (if args.toolchain.Some? then {ToolchainName} else {})
      + (if args.git then {GitDirName} else {})
  }

  /** Every entry directly inside `root` has one of the `allowed` names. */
  ghost predicate ChildrenAmong(fs: FileSystem, root: Path, allowed: set<string>)
  {
    forall q {:trigger Parent(q)} | q in fs && q != [] && Parent(q) == root :: q[|q| - 1] in allowed
  }

  /** The toolchain step, or no step at all when no channel was asked for. */
  function Pinned(fs: FileSystem, root: Path, toolchain: Option<string>): Progress
  {
    if toolchain.Some? then ToolchainWritten(fs, root, toolchain.value) else Unchanged(fs)
  }

  /** The gate on the target directory followed by the manifest with no members yet. */
  function Founded(fs: FileSystem, root: Path, force: bool): (p: Progress)
    ensures p.runs == []
    ensures p.result.Pass? ==> IsDir(p.fs, root) && ManifestPath(root) in p.fs
  {
    var gate := TargetDir(fs, root, force);
    if gate.result.Fail? then gate else ManifestWritten(gate.fs, root, [])
  }

  /** The ignore file, the toolchain pin when a channel was given, and `git init` when asked. */
  function Furnished(fs: FileSystem, root: Path, args: NewArgs, succeeds: Invocation -> bool): (p: Progress)
    requires IsDir(fs, root)
    ensures p.result.Pass? ==> IsDir(p.fs, root)
    ensures ManifestPath(root) in fs ==> ManifestPath(root) in p.fs && p.fs[ManifestPath(root)] == fs[ManifestPath(root)]
  {
    RootEntriesDistinct(root);
    var ignore := GitignoreWritten(fs, root);
    if ignore.result.Fail? then ignore else
    var pin := Pinned(ignore.fs, root, args.toolchain);
    if pin.result.Fail? || !args.git then pin else
    GitInitialised(pin.fs, root, succeeds)
  }

  /**
   * The first half of `NewArgs::run` once the target is resolved: gate the
   * target directory, write the manifest with no members yet, the ignore
   * file, the toolchain pin when a channel was given, and `git init` when
   * asked.
   */
  function Prepared(fs: FileSystem, root: Path, args: NewArgs, succeeds: Invocation -> bool): (p: Progress)
    ensures p.result.Pass? ==> IsDir(p.fs, root) && ManifestPath(root) in p.fs
  {
    var base := Founded(fs, root, args.force);
    if base.result.Fail? then base else Furnished(base.fs, root, args, succeeds)
  }

  /**
   * The second half of `NewArgs::run`: scaffold the libraries, then the
   * binaries, then write the manifest again with every member listed.
   */
  function Populated(fs: FileSystem, root: Path, args: NewArgs, succeeds: Invocation -> bool): Progress
    requires IsDir(fs, root)
  {
    var libs := Scaffolded(fs, root, args.libs, Lib, succeeds);
    if libs.result.Fail? then libs else
    ScaffoldedKeepsExisting(fs, root, args.libs, Lib, succeeds);
    var bins := Scaffolded(libs.fs, root, args.bins, Bin, succeeds);
    if bins.result.Fail? then Progress(bins.result, bins.fs, libs.runs + bins.runs) else
    var manifest := ManifestWritten(bins.fs, root, args.libs + args.bins);
    Progress(manifest.result, manifest.fs, libs.runs + bins.runs)
  }

  /** `NewArgs::run` from the resolved target on. */
  function Planned(fs: FileSystem, root: Path, args: NewArgs, succeeds: Invocation -> bool): Progress
  {
    var prep := Prepared(fs, root, args, succeeds);
    if prep.result.Fail? then prep else
    var rest := Populated(prep.fs, root, args, succeeds);
    Progress(rest.result, rest.fs, prep.runs + rest.runs)
  }

  /** A founded root holds the original manifest (or `[workspace]`) with the resolver pinned and no members. */
  lemma FoundedManifest(fs: FileSystem, root: Path, force: bool)
    requires Founded(fs, root, force).result.Pass?
    ensures ReadManifest(fs, root).Success? && Merge(ReadManifest(fs, root).value, []).Success?
    ensures Founded(fs, root, force).fs[ManifestPath(root)] == File(Toml(Merge(ReadManifest(fs, root).value, []).value))
  {
    TargetDirKeepsManifest(fs, root, force);
  }

  /** Founding a root changes nothing that was there except the manifest. */
  lemma FoundedKeepsEntries(fs: FileSystem, root: Path, force: bool)
    requires Founded(fs, root, force).result.Pass?
    ensures var p := Founded(fs, root, force);
      forall q | q in fs && q != ManifestPath(root) :: q in p.fs && p.fs[q] == fs[q]
  {
  }

  /**
   * A furnished root has an ignore file (the original one if there was one),
   * the requested toolchain pin and, when asked, a `.git` entry.
   */
  lemma FurnishedFiles(fs: FileSystem, root: Path, args: NewArgs, succeeds: Invocation -> bool)
    requires IsDir(fs, root) && Furnished(fs, root, args, succeeds).result.Pass?
    ensures var p := Furnished(fs, root, args, succeeds);
      && Join(root, GitignoreName) in p.fs
      && (Join(root, GitignoreName) in fs ==> p.fs[Join(root, GitignoreName)] == fs[Join(root, GitignoreName)])
      && (args.toolchain.Some? ==>
            Join(root, ToolchainName) in p.fs
            && p.fs[Join(root, ToolchainName)] == File(Text(ToolchainText(args.toolchain.value))))
      && (args.git ==> Join(root, GitDirName) in p.fs)
  {
    RootEntriesDistinct(root);
  }

  /** Furnishing launches `git init` in the root when asked, and nothing else. */
  lemma FurnishedRuns(fs: FileSystem, root: Path, args: NewArgs, succeeds: Invocation -> bool)
    requires IsDir(fs, root)
    ensures var p := Furnished(fs, root, args, succeeds);
      && (p.runs == [] || p.runs == [GitInit(root)])
      && (p.result.Pass? ==> p.runs == (if args.git then [GitInit(root)] else []))
  {
  }

  /** Populating keeps every entry that was there, except that it rewrites the manifest. */
  lemma PopulatedKeepsEntries(fs: FileSystem, root: Path, args: NewArgs, succeeds: Invocation -> bool)
    requires IsDir(fs, root)
    ensures var p := Populated(fs, root, args, succeeds);
      forall q | q in fs && q != ManifestPath(root) :: q in p.fs && p.fs[q] == fs[q]
  {
    var p := Populated(fs, root, args, succeeds);
    var libs := Scaffolded(fs, root, args.libs, Lib, succeeds);
    ScaffoldedKeepsExisting(fs, root, args.libs, Lib, succeeds);
    if libs.result.Pass? {
      var bins := Scaffolded(libs.fs, root, args.bins, Bin, succeeds);
      ScaffoldedKeepsExisting(libs.fs, root, args.bins, Bin, succeeds);
      if bins.result.Pass? {
        var written := ManifestWritten(bins.fs, root, args.libs + args.bins);
        assert p.fs == written.fs;
        assert forall q | q in bins.fs && q != ManifestPath(root) :: q in written.fs && written.fs[q] == bins.fs[q];
      }
    }
  }

  /**
   * A populated root whose manifest was already there holds that manifest
   * with the resolver pinned and every library and binary listed, in order.
   */
  lemma PopulatedManifest(fs: FileSystem, root: Path, args: NewArgs, succeeds: Invocation -> bool)
    requires IsDir(fs, root) && ManifestPath(root) in fs
    requires Populated(fs, root, args, succeeds).result.Pass?
    ensures ReadManifest(fs, root).Success?
    ensures Merge(ReadManifest(fs, root).value, args.libs + args.bins).Success?
    ensures Populated(fs, root, args, succeeds).fs[ManifestPath(root)]
      == File(Toml(Merge(ReadManifest(fs, root).value, args.libs + args.bins).value))
  {
    var libs := Scaffolded(fs, root, args.libs, Lib, succeeds);
    ScaffoldedKeepsExisting(fs, root, args.libs, Lib, succeeds);
    var bins := Scaffolded(libs.fs, root, args.bins, Bin, succeeds);
    ScaffoldedKeepsExisting(libs.fs, root, args.bins, Bin, succeeds);
    assert ReadManifest(bins.fs, root) == ReadManifest(fs, root);
  }

  /**
   * A populated root has a directory for every library and binary, made by
   * one `cargo new` each: the libraries first, then the binaries, in order.
   */
  lemma PopulatedMembers(fs: FileSystem, root: Path, args: NewArgs, succeeds: Invocation -> bool)
    requires IsDir(fs, root) && Populated(fs, root, args, succeeds).result.Pass?
    ensures var p := Populated(fs, root, args, succeeds);
      && (forall m | m in args.libs + args.bins :: IsDir(p.fs, Join(root, m)))
      && p.runs == CargoRuns(root, args.libs, Lib) + CargoRuns(root, args.bins, Bin)
  {
    var libs := Scaffolded(fs, root, args.libs, Lib, succeeds);
    ScaffoldedKeepsExisting(fs, root, args.libs, Lib, succeeds);
    ScaffoldedPassCreatesDirs(fs, root, args.libs, Lib, succeeds);
    ScaffoldedPassRuns(fs, root, args.libs, Lib, succeeds);
    var bins := Scaffolded(libs.fs, root, args.bins, Bin, succeeds);
    ScaffoldedKeepsExisting(libs.fs, root, args.bins, Bin, succeeds);
    ScaffoldedPassCreatesDirs(libs.fs, root, args.bins, Bin, succeeds);
    ScaffoldedPassRuns(libs.fs, root, args.bins, Bin, succeeds);
    var p := Populated(fs, root, args, succeeds);
    forall m | m in args.libs + args.bins
      ensures IsDir(p.fs, Join(root, m))
    {
      assert IsDir(bins.fs, Join(root, m));
    }
  }

  /**
   * A failing second half leaves `Cargo.toml` as it was, and a failure among
   * the libraries ends it there: no binary is scaffolded and no
   * `cargo new --bin` is launched.
   */
  lemma PopulatedFailure(fs: FileSystem, root: Path, args: NewArgs, succeeds: Invocation -> bool)
    requires IsDir(fs, root) && Populated(fs, root, args, succeeds).result.Fail?
    ensures var p := Populated(fs, root, args, succeeds);
      ManifestPath(root) in fs ==> ManifestPath(root) in p.fs && p.fs[ManifestPath(root)] == fs[ManifestPath(root)]
    ensures Scaffolded(fs, root, args.libs, Lib, succeeds).result.Fail? ==>
      Populated(fs, root, args, succeeds) == Scaffolded(fs, root, args.libs, Lib, succeeds)
  {
    var libs := Scaffolded(fs, root, args.libs, Lib, succeeds);
    ScaffoldedKeepsExisting(fs, root, args.libs, Lib, succeeds);
    if libs.result.Pass? {
      ScaffoldedKeepsExisting(libs.fs, root, args.bins, Bin, succeeds);
    }
  }

  /**
   * A run that fails after the root was prepared leaves the baseline
   * manifest on disk: the original one (or `[workspace]`) with the resolver
   * pinned and no members.
   */
  lemma PlannedFailureKeepsBaseline(fs: FileSystem, root: Path, args: NewArgs, succeeds: Invocation -> bool)
    requires Prepared(fs, root, args, succeeds).result.Pass? && Planned(fs, root, args, succeeds).result.Fail?
    ensures ReadManifest(fs, root).Success? && Merge(ReadManifest(fs, root).value, []).Success?
    ensures ManifestPath(root) in Planned(fs, root, args, succeeds).fs
    ensures Planned(fs, root, args, succeeds).fs[ManifestPath(root)]
      == File(Toml(Merge(ReadManifest(fs, root).value, []).value))
  {
    var base := Founded(fs, root, args.force);
    FoundedManifest(fs, root, args.force);
    var prep := Prepared(fs, root, args, succeeds);
    assert prep.fs[ManifestPath(root)] == base.fs[ManifestPath(root)];
    PopulatedFailure(prep.fs, root, args, succeeds);
  }

  /**
   * After a successful run the manifest is the one that was there (or
   * `[workspace]`) with the resolver pinned to "3" and exactly the libraries
   * followed by the binaries as members; every other setting is kept.
   */
  lemma PlannedManifest(fs: FileSystem, root: Path, args: NewArgs, succeeds: Invocation -> bool)
    requires Planned(fs, root, args, succeeds).result.Pass?
    ensures ReadManifest(fs, root).Success?
    ensures Merge(ReadManifest(fs, root).value, args.libs + args.bins).Success?
    ensures Planned(fs, root, args, succeeds).fs[ManifestPath(root)]
      == File(Toml(Merge(ReadManifest(fs, root).value, args.libs + args.bins).value))
  {
    var base := Founded(fs, root, args.force);
    FoundedManifest(fs, root, args.force);
    var prep := Prepared(fs, root, args, succeeds);
    assert ReadManifest(prep.fs, root) == Success(Merge(ReadManifest(fs, root).value, []).value);
    PopulatedManifest(prep.fs, root, args, succeeds);
    MergeSupersedes(ReadManifest(fs, root).value, [], args.libs + args.bins);
  }

  /**
   * After a successful run `Cargo.toml` is a document whose
   * `workspace.resolver` is "3" and whose `workspace.members` is exactly the
   * libraries followed by the binaries.
   */
  lemma PlannedMemberList(fs: FileSystem, root: Path, args: NewArgs, succeeds: Invocation -> bool)
    requires Planned(fs, root, args, succeeds).result.Pass?
    ensures var p := Planned(fs, root, args, succeeds);
      && ManifestPath(root) in p.fs && p.fs[ManifestPath(root)].File? && p.fs[ManifestPath(root)].contents.Toml?
      && MemberList(p.fs[ManifestPath(root)].contents.doc) == Some(args.libs + args.bins)
      && Resolver(p.fs[ManifestPath(root)].contents.doc) == Some(ResolverVersion)
  {
    PlannedManifest(fs, root, args, succeeds);
  }

  /**
   * After a successful run the root is a directory holding an ignore file
   * (the original one if there was one), the requested toolchain pin, a
   * `.git` entry when asked, and a directory for every member.
   */
  lemma PlannedLayout(fs: FileSystem, root: Path, args: NewArgs, succeeds: Invocation -> bool)
    requires Planned(fs, root, args, succeeds).result.Pass?
    ensures var p := Planned(fs, root, args, succeeds);
      && IsDir(p.fs, root)
      && Join(root, GitignoreName) in p.fs
      && (Join(root, GitignoreName) in fs ==> p.fs[Join(root, GitignoreName)] == fs[Join(root, GitignoreName)])
      && (args.toolchain.Some? ==>
            Join(root, ToolchainName) in p.fs
            && p.fs[Join(root, ToolchainName)] == File(Text(ToolchainText(args.toolchain.value))))
      && (args.git ==> Join(root, GitDirName) in p.fs)
      && (forall m | m in args.libs + args.bins :: IsDir(p.fs, Join(root, m)))
  {
    RootEntriesDistinct(root);
    var base := Founded(fs, root, args.force);
    FoundedKeepsEntries(fs, root, args.force);
    FurnishedFiles(base.fs, root, args, succeeds);
    var prep := Prepared(fs, root, args, succeeds);
    PopulatedKeepsEntries(prep.fs, root, args, succeeds);
    PopulatedMembers(prep.fs, root, args, succeeds);
  }

  /**
   * A successful run launched `git init` when asked, then one `cargo new`
   * per library and then one per binary, in the order given.
   */
  lemma PlannedRuns(fs: FileSystem, root: Path, args: NewArgs, succeeds: Invocation -> bool)
    requires Planned(fs, root, args, succeeds).result.Pass?
    ensures Planned(fs, root, args, succeeds).runs
      == (if args.git then [GitInit(root)] else []) + (CargoRuns(root, args.libs, Lib) + CargoRuns(root, args.bins, Bin))
  {
    var base := Founded(fs, root, args.force);
    FurnishedRuns(base.fs, root, args, succeeds);
    var prep := Prepared(fs, root, args, succeeds);
    assert prep.runs == (if args.git then [GitInit(root)] else []);
    var rest := Populated(prep.fs, root, args, succeeds);
    PopulatedMembers(prep.fs, root, args, succeeds);
    assert Planned(fs, root, args, succeeds).runs == prep.runs + rest.runs;
    assert rest.runs == CargoRuns(root, args.libs, Lib) + CargoRuns(root, args.bins, Bin);
  }

  /** A target that is a file is refused before anything is written or launched. */
  lemma PlannedRefusesFile(fs: FileSystem, root: Path, args: NewArgs, succeeds: Invocation -> bool)
    requires root in fs && fs[root].File?
    ensures Planned(fs, root, args, succeeds) == Progress(Fail(NotADirectory(root)), fs, [])
  {
  }

  /** A non-empty target directory is refused, unless forced, before anything is written or launched. */
  lemma PlannedRefusesNonEmpty(fs: FileSystem, root: Path, args: NewArgs, succeeds: Invocation -> bool)
    requires IsDir(fs, root) && HasEntries(fs, root) && !args.force
    ensures Planned(fs, root, args, succeeds) == Progress(Fail(DirectoryNotEmpty(root)), fs, [])
  {
  }

  /** On a fresh target the gate and the first manifest write pass, leaving the manifest as the root's only entry. */
  lemma FoundedFresh(fs: FileSystem, root: Path, force: bool)
    requires FreshTarget(fs, root)
    ensures Founded(fs, root, force).result.Pass?
    ensures ChildrenAmong(Founded(fs, root, force).fs, root, {ManifestName})
  {
    var gate := TargetDir(fs, root, force);
    assert gate.result.Pass? && !HasEntries(gate.fs, root);
    assert ManifestPath(root) !in gate.fs;
    var p := Founded(fs, root, force);
    forall q | q in p.fs && q != [] && Parent(q) == root
      ensures q[|q| - 1] in {ManifestName}
    {
      assert q == ManifestPath(root);
    }
  }

  /** Allowing more names keeps a root's entries among the allowed ones. */
  lemma ChildrenAmongWiden(fs: FileSystem, root: Path, allowed: set<string>, more: set<string>)
    requires ChildrenAmong(fs, root, allowed) && allowed <= more
    ensures ChildrenAmong(fs, root, more)
  {
  }

  /** Adding one entry with an allowed name keeps a root's entries among the allowed names. */
  lemma ChildrenAmongAdd(fs: FileSystem, after: FileSystem, root: Path, allowed: set<string>, path: Path)
    requires ChildrenAmong(fs, root, allowed)
    requires path != [] && path[|path| - 1] in allowed
    requires path in after && after == fs[path := after[path]]
    ensures ChildrenAmong(after, root, allowed)
  {
    forall q | q in after && q != [] && Parent(q) == root
      ensures q[|q| - 1] in allowed
    {
      if q != path {
        assert q in fs;
      }
    }
  }

  /** A root whose entries are among `allowed` has no entry of another name. */
  lemma ChildAbsent(fs: FileSystem, root: Path, allowed: set<string>, name: string)
    requires ChildrenAmong(fs, root, allowed) && name !in allowed
    ensures Join(root, name) !in fs
  {
    var path := Join(root, name);
    assert path[|path| - 1] == name;
  }

  /** In a directory root the ignore file can always be written or kept. */
  lemma GitignoreFresh(fs: FileSystem, root: Path, allowed: set<string>)
    requires IsDir(fs, root) && ChildrenAmong(fs, root, allowed) && GitignoreName in allowed
    ensures var p := GitignoreWritten(fs, root);
      p.result.Pass? && IsDir(p.fs, root) && ChildrenAmong(p.fs, root, allowed)
  {
    ChildrenAmongAdd(fs, GitignoreWritten(fs, root).fs, root, allowed, Join(root, GitignoreName));
  }

  /** In a directory root without a toolchain pin, the requested pin can always be written. */
  lemma PinnedFresh(fs: FileSystem, root: Path, toolchain: Option<string>, allowed: set<string>)
    requires IsDir(fs, root) && ChildrenAmong(fs, root, allowed) && Join(root, ToolchainName) !in fs
    requires toolchain.Some? ==> ToolchainName in allowed
    ensures var p := Pinned(fs, root, toolchain);
      p.result.Pass? && IsDir(p.fs, root) && ChildrenAmong(p.fs, root, allowed)
  {
    if toolchain.Some? {
      ChildrenAmongAdd(fs, Pinned(fs, root, toolchain).fs, root, allowed, Join(root, ToolchainName));
    }
  }

  /** A successful `git init` adds at most the `.git` entry. */
  lemma GitFresh(fs: FileSystem, root: Path, succeeds: Invocation -> bool, allowed: set<string>)
    requires IsDir(fs, root) && ChildrenAmong(fs, root, allowed) && GitDirName in allowed
    requires succeeds(GitInit(root))
    ensures var p := GitInitialised(fs, root, succeeds);
      p.result.Pass? && ChildrenAmong(p.fs, root, allowed)
  {
    ChildrenAmongAdd(fs, GitInitialised(fs, root, succeeds).fs, root, allowed, Join(root, GitDirName));
  }

  /**
   * In a root holding only the manifest, the ignore file and the toolchain
   * pin can always be written, and `git init` passes when the command does;
   * afterwards the root holds only names `wg new` itself reserves.
   */
  lemma FurnishedFresh(fs: FileSystem, root: Path, args: NewArgs, succeeds: Invocation -> bool)
    requires IsDir(fs, root) && ChildrenAmong(fs, root, {ManifestName})
    requires args.git ==> succeeds(GitInit(root))
    ensures Furnished(fs, root, args, succeeds).result.Pass?
    ensures ChildrenAmong(Furnished(fs, root, args, succeeds).fs, root, Reserved(args))
  {
    RootEntriesDistinct(root);
    var reserved := Reserved(args);
    ChildAbsent(fs, root, {ManifestName}, ToolchainName);
    ChildrenAmongWiden(fs, root, {ManifestName}, reserved);
    var ignore := GitignoreWritten(fs, root);
    GitignoreFresh(fs, root, reserved);
    var pin := Pinned(ignore.fs, root, args.toolchain);
    PinnedFresh(ignore.fs, root, args.toolchain, reserved);
    if args.git {
      GitFresh(pin.fs, root, succeeds, reserved);
    }
  }

  /** The names in a sequence, as a set. */
  function NameSet(names: seq<string>): set<string>
  {
    set m | m in names
  }

  /**
   * Distinct members whose names a root does not hold yet, and whose
   * `cargo new` runs succeed, are all scaffolded.
   */
  lemma MembersFresh(fs: FileSystem, root: Path, names: seq<string>, kind: MemberKind,
                     succeeds: Invocation -> bool, allowed: set<string>)
    requires IsDir(fs, root) && ChildrenAmong(fs, root, allowed)
    requires Distinct(names) && forall m | m in names :: m !in allowed && !AlwaysExists(m)
    requires forall i | 0 <= i < |names| :: succeeds(CargoNew(root, names[i], kind))
    ensures var p := Scaffolded(fs, root, names, kind, succeeds);
      && p.result.Pass? && IsDir(p.fs, root)
      && ChildrenAmong(p.fs, root, allowed + NameSet(names))
  {
    forall i | 0 <= i < |names|
      ensures Join(root, names[i]) !in fs
    {
      var dir := Join(root, names[i]);
      assert dir[|dir| - 1] == names[i];
    }
    ScaffoldedFreshNamesPass(fs, root, names, kind, succeeds);
    ScaffoldedPassKeys(fs, root, names, kind, succeeds);
    ScaffoldedKeepsExisting(fs, root, names, kind, succeeds);
    var p := Scaffolded(fs, root, names, kind, succeeds);
    forall q | q in p.fs && q != [] && Parent(q) == root
      ensures q[|q| - 1] in allowed + NameSet(names)
    {
      if q !in fs {
        var n :| n in names && q == Join(root, n);
      }
    }
  }

  /**
   * In a root holding only reserved names, distinct members with other
   * names whose `cargo new` runs all succeed are scaffolded and recorded.
   */
  lemma PopulatedFresh(fs: FileSystem, root: Path, args: NewArgs, succeeds: Invocation -> bool)
    requires IsDir(fs, root) && ManifestPath(root) in fs
    requires ReadManifest(fs, root).Success? && Merge(ReadManifest(fs, root).value, []).Success?
    requires ChildrenAmong(fs, root, Reserved(args))
    requires Distinct(args.libs + args.bins)
    requires forall m | m in args.libs + args.bins :: m !in Reserved(args)
    requires forall i | 0 <= i < |args.libs| :: succeeds(CargoNew(root, args.libs[i], Lib))
    requires forall i | 0 <= i < |args.bins| :: succeeds(CargoNew(root, args.bins[i], Bin))
    ensures Populated(fs, root, args, succeeds).result.Pass?
  {
    DistinctConcat(args.libs, args.bins);
    MembersFresh(fs, root, args.libs, Lib, succeeds, Reserved(args));
    var libs := Scaffolded(fs, root, args.libs, Lib, succeeds);
    MembersFresh(libs.fs, root, args.bins, Bin, succeeds, Reserved(args) + NameSet(args.libs));
    var bins := Scaffolded(libs.fs, root, args.bins, Bin, succeeds);
    ScaffoldedKeepsExisting(fs, root, args.libs, Lib, succeeds);
    ScaffoldedKeepsExisting(libs.fs, root, args.bins, Bin, succeeds);
    ManifestKept(fs, bins.fs, root);
  }

  /**
   * `wg new` succeeds on a target that is absent (and creatable) or an empty
   * directory, when the members are distinct, none takes a name `wg new`
   * reserves, and every `git init` and `cargo new` it launches succeeds.
   */
  lemma PlannedFresh(fs: FileSystem, root: Path, args: NewArgs, succeeds: Invocation -> bool)
    requires FreshTarget(fs, root)
    requires Distinct(args.libs + args.bins)
    requires forall m | m in args.libs + args.bins :: m !in Reserved(args)
    requires args.git ==> succeeds(GitInit(root))
    requires forall i | 0 <= i < |args.libs| :: succeeds(CargoNew(root, args.libs[i], Lib))
    requires forall i | 0 <= i < |args.bins| :: succeeds(CargoNew(root, args.bins[i], Bin))
    ensures Planned(fs, root, args, succeeds).result.Pass?
  {
    var base := Founded(fs, root, args.force);
    FoundedFresh(fs, root, args.force);
    FoundedManifest(fs, root, args.force);
    FurnishedFresh(base.fs, root, args, succeeds);
    var prep := Prepared(fs, root, args, succeeds);
    var doc := Merge(ReadManifest(fs, root).value, []).value;
    assert ReadManifest(prep.fs, root) == Success(doc);
    PopulatedFresh(prep.fs, root, args, succeeds);
  }

  /** The example's member list: `corelib`, then `applib`. */
  lemma DemoMembers()
    ensures ["corelib"] + ["applib"] == ["corelib", "applib"]
  {
  }

  /**
   * The end-to-end example: `wg new /tmp/demo --lib corelib --bin applib
   * --toolchain nightly`, on a `/tmp/demo` that is absent or an empty
   * directory, with every command it launches succeeding, passes.
   */
  lemma DemoWorkspacePasses(fs: FileSystem, root: Path, args: NewArgs, succeeds: Invocation -> bool)
    requires FreshTarget(fs, root) && root == ["tmp", "demo"]
    requires args == NewArgs(Utf8Path(true, root), ["corelib"], ["applib"], false, false, Some("nightly"))
    requires forall i :: succeeds(i)
    ensures Planned(fs, root, args, succeeds).result.Pass?
  {
    assert args.libs + args.bins == ["corelib", "applib"];
    PlannedFresh(fs, root, args, succeeds);
  }

  /** The example launches `cargo new` for the library, then for the binary, and nothing else. */
  lemma DemoWorkspaceRuns(fs: FileSystem, root: Path, args: NewArgs, succeeds: Invocation -> bool)
    requires FreshTarget(fs, root) && root == ["tmp", "demo"]
    requires args == NewArgs(Utf8Path(true, root), ["corelib"], ["applib"], false, false, Some("nightly"))
    requires forall i :: succeeds(i)
    ensures Planned(fs, root, args, succeeds).runs == [CargoNew(root, "corelib", Lib), CargoNew(root, "applib", Bin)]
  {
    DemoWorkspacePasses(fs, root, args, succeeds);
    PlannedRuns(fs, root, args, succeeds);
  }

  /** The example creates both member directories, the ignore file and the nightly pin. */
  lemma DemoWorkspaceLayout(fs: FileSystem, root: Path, args: NewArgs, succeeds: Invocation -> bool)
    requires FreshTarget(fs, root) && root == ["tmp", "demo"]
    requires args == NewArgs(Utf8Path(true, root), ["corelib"], ["applib"], false, false, Some("nightly"))
    requires forall i :: succeeds(i)
    ensures var p := Planned(fs, root, args, succeeds);
      && IsDir(p.fs, Join(root, "corelib")) && IsDir(p.fs, Join(root, "applib"))
      && Join(root, GitignoreName) in p.fs && Join(root, ToolchainName) in p.fs
      && p.fs[Join(root, ToolchainName)] == File(Text("[toolchain]\nchannel = \"nightly\"\n"))
  {
    DemoWorkspacePasses(fs, root, args, succeeds);
    PlannedLayout(fs, root, args, succeeds);
    NightlyPin();
  }

  /** The example's manifest pins resolver "3" and lists `corelib` then `applib`. */
  lemma DemoWorkspaceManifest(fs: FileSystem, root: Path, args: NewArgs, succeeds: Invocation -> bool)
    requires FreshTarget(fs, root) && root == ["tmp", "demo"]
    requires args == NewArgs(Utf8Path(true, root), ["corelib"], ["applib"], false, false, Some("nightly"))
    requires forall i :: succeeds(i)
    ensures var p := Planned(fs, root, args, succeeds);
      && ManifestPath(root) in p.fs && p.fs[ManifestPath(root)].File? && p.fs[ManifestPath(root)].contents.Toml?
      && MemberList(p.fs[ManifestPath(root)].contents.doc) == Some(["corelib", "applib"])
      && Resolver(p.fs[ManifestPath(root)].contents.doc) == Some("3")
  {
    DemoWorkspacePasses(fs, root, args, succeeds);
    PlannedMemberList(fs, root, args, succeeds);
    DemoMembers();
  }
}
