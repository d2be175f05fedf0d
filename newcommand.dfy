/**
 * `wg new` as it runs on a machine: a filesystem changed in place and a log
 * of the external commands launched. Each method is one function of
 * `new.rs` and is proved to do what the matching step of `Steps` or `Plan`
 * describes.
 */
module NewCommand {

  import opened Wrappers
  import opened Toml
  import opened FileSystem
  import opened Process
  import opened Errors
  import opened Members
  import opened Manifest
  import opened Effects
  import opened Scaffold
  import opened Steps
  import opened Plan

  /** The machine `wg new` runs on: its filesystem and the external commands launched so far. */
  class Host {
    var fs: FileSystem
    var launched: seq<Invocation>

    constructor (initial: FileSystem)
      ensures fs == initial && launched == []
    {
      fs := initial;
      launched := [];
    }

    /** `std::fs::write`: create or replace the file at `path`. */
    method Write(path: Path, contents: Contents, action: string) returns (r: Outcome<Error>)
      modifies this
      ensures var p := Written(old(fs), path, contents, action);
        r == p.result && fs == p.fs && launched == old(launched)
    {
      if Writable(fs, path) {
        fs := PutFile(fs, path, contents);
        r := Pass;
      } else {
        r := Fail(IoError(action, path));
      }
    }

    /** `ensure_target_dir`. */
    method EnsureTargetDir(path: Path, force: bool) returns (r: Outcome<Error>)
      modifies this
      ensures var p := TargetDir(old(fs), path, force);
        r == p.result && fs == p.fs && launched == old(launched)
    {
      if path in fs {
        if !fs[path].Dir? {
          return Fail(NotADirectory(path));
        }
        if !force && HasEntries(fs, path) {
          return Fail(DirectoryNotEmpty(path));
        }
      } else {
        var created := CreateDirAll(fs, path);
        if created.None? {
          return Fail(IoError("failed to create workspace directory", path));
        }
        fs := created.value;
      }
      return Pass;
    }

    /** `write_workspace_manifest`, editing the parsed document in place. */
    method WriteWorkspaceManifest(root: Path, members: seq<string>) returns (r: Outcome<Error>)
      modifies this
      ensures var p := ManifestWritten(old(fs), root, members);
        r == p.result && fs == p.fs && launched == old(launched)
    {
      var path := ManifestPath(root);
      var parsed := ReadManifest(fs, root);
      if parsed.Failure? {
        return Fail(parsed.error);
      }
      var doc := new Document(parsed.value);
      var workspace := doc.EnsureWorkspaceTable();
      if workspace.Failure? {
        return Fail(workspace.error);
      }
      doc.SetWorkspaceEntry(ResolverKey, Val(Str(ResolverVersion)));
      var list := BuildMembersArray(members);
      doc.SetWorkspaceEntry(MembersKey, Val(list));
      assert doc.root == Merge(parsed.value, members).value;
      r := Write(path, Toml(doc.root), "failed to write");
    }

    /** `write_gitignore`. */
    method WriteGitignore(root: Path) returns (r: Outcome<Error>)
      modifies this
      ensures var p := GitignoreWritten(old(fs), root);
        r == p.result && fs == p.fs && launched == old(launched)
    {
      var path := Join(root, GitignoreName);
      if path in fs {
        return Pass;
      }
      r := Write(path, Text(GitignoreText), "failed to create");
    }

    /** `write_toolchain_file`. */
    method WriteToolchainFile(root: Path, channel: string) returns (r: Outcome<Error>)
      modifies this
      ensures var p := ToolchainWritten(old(fs), root, channel);
        r == p.result && fs == p.fs && launched == old(launched)
    {
      r := Write(Join(root, ToolchainName), Text(ToolchainText(channel)), "failed to write");
    }

    /** `init_git_repo`. */
    method InitGitRepo(root: Path, succeeds: Invocation -> bool) returns (r: Outcome<Error>)
      requires IsDir(fs, root)
      modifies this
      ensures var p := GitInitialised(old(fs), root, succeeds);
        r == p.result && fs == p.fs && launched == old(launched) + p.runs
    {
      launched := launched + [GitInit(root)];
      if !succeeds(GitInit(root)) {
        return Fail(CommandFailed(GitInit(root)));
      }
      var dir := Join(root, GitDirName);
      if dir !in fs {
        fs := AddDir(fs, dir);
      }
      return Pass;
    }

    /** `scaffold_members`: the walk `Scaffolded` describes, one name at a time. */
    method ScaffoldMembers(root: Path, names: seq<string>, kind: MemberKind, succeeds: Invocation -> bool)
      returns (r: Outcome<Error>)
      requires IsDir(fs, root)
      modifies this
      ensures var p := Scaffolded(old(fs), root, names, kind, succeeds);
        r == p.result && fs == p.fs && launched == old(launched) + p.runs
    {
      ghost var done: seq<Invocation> := [];
      for i := 0 to |names|
        invariant IsDir(fs, root)
        invariant launched == old(launched) + done
        invariant var whole := Scaffolded(old(fs), root, names, kind, succeeds);
          var rest := Scaffolded(fs, root, names[i..], kind, succeeds);
          whole.result == rest.result && whole.fs == rest.fs && whole.runs == done + rest.runs
      {
        assert names[i..][0] == names[i] && names[i..][1..] == names[i + 1..];
        var name := names[i];
        var dir := Join(root, name);
        if dir in fs || AlwaysExists(name) {
          return Fail(MemberAlreadyExists(name, dir));
        }
        var cmd := CargoNew(root, name, kind);
        launched := launched + [cmd];
        ghost var before := done;
        done := done + [cmd];
        if !succeeds(cmd) {
          return Fail(CommandFailed(cmd));
        }
        fs := AddDir(fs, dir);
        AppendRuns(before, [cmd], Scaffolded(fs, root, names[i + 1..], kind, succeeds).runs);
      }
      return Pass;
    }

    /** The gate and the first manifest write of `NewArgs::run`. */
    method Found(root: Path, force: bool) returns (r: Outcome<Error>)
      modifies this
      ensures var p := Founded(old(fs), root, force);
        r == p.result && fs == p.fs && launched == old(launched)
    {
      r := EnsureTargetDir(root, force);
      if r.Fail? {
        return;
      }
      r := WriteWorkspaceManifest(root, []);
    }

    /** The ignore file, toolchain pin and `git init` steps of `NewArgs::run`. */
    method Furnish(root: Path, args: NewArgs, succeeds: Invocation -> bool) returns (r: Outcome<Error>)
      requires IsDir(fs, root)
      modifies this
      ensures var p := Furnished(old(fs), root, args, succeeds);
        r == p.result && fs == p.fs && launched == old(launched) + p.runs
    {
      r := WriteGitignore(root);
      if r.Fail? {
        return;
      }
      if args.toolchain.Some? {
        r := WriteToolchainFile(root, args.toolchain.value);
        if r.Fail? {
          return;
        }
      }
      if args.git {
        r := InitGitRepo(root, succeeds);
      }
    }

    /** Everything `NewArgs::run` does to the root before scaffolding. */
    method Prepare(root: Path, args: NewArgs, succeeds: Invocation -> bool) returns (r: Outcome<Error>)
      modifies this
      ensures var p := Prepared(old(fs), root, args, succeeds);
        r == p.result && fs == p.fs && launched == old(launched) + p.runs
    {
      r := Found(root, args.force);
      if r.Fail? {
        return;
      }
      r := Furnish(root, args, succeeds);
    }

    /** The scaffolding steps of `NewArgs::run` and the final manifest write. */
    method Populate(root: Path, args: NewArgs, succeeds: Invocation -> bool) returns (r: Outcome<Error>)
      requires IsDir(fs, root)
      modifies this
      ensures var p := Populated(old(fs), root, args, succeeds);
        r == p.result && fs == p.fs && launched == old(launched) + p.runs
    {
      ghost var start := launched;
      ghost var libs := Scaffolded(fs, root, args.libs, Lib, succeeds);
      ScaffoldedKeepsExisting(fs, root, args.libs, Lib, succeeds);
      r := ScaffoldMembers(root, args.libs, Lib, succeeds);
      if r.Fail? {
        return;
      }
      ghost var bins := Scaffolded(fs, root, args.bins, Bin, succeeds);
      r := ScaffoldMembers(root, args.bins, Bin, succeeds);
      AppendRuns(start, libs.runs, bins.runs);
      if r.Fail? {
        return;
      }
      var members := CollectMembers(args.libs, args.bins);
      r := WriteWorkspaceManifest(root, members);
    }

    /**
     * `NewArgs::run`: reject duplicate members, resolve the target, then
     * carry out `Planned`, stopping at the first failure.
     */
    method Run(args: NewArgs, cwd: WorkingDir, succeeds: Invocation -> bool) returns (r: Outcome<Error>)
      modifies this
      ensures !Distinct(args.libs + args.bins) ==>
        && r.Fail?
        && (exists j :: FirstRepeatAt(args.libs + args.bins, j) && r.error == DuplicateMember((args.libs + args.bins)[j]))
        && fs == old(fs) && launched == old(launched)
      ensures Distinct(args.libs + args.bins) && ResolvePath(args.path, cwd).Failure? ==>
        r == Fail(ResolvePath(args.path, cwd).error) && fs == old(fs) && launched == old(launched)
      ensures Distinct(args.libs + args.bins) && ResolvePath(args.path, cwd).Success? ==>
        var p := Planned(old(fs), ResolvePath(args.path, cwd).value, args, succeeds);
        r == p.result && fs == p.fs && launched == old(launched) + p.runs
    {
      r := EnsureNoDuplicateMembers(args.libs, args.bins);
      if r.Fail? {
        return;
      }
      var resolved := ResolvePath(args.path, cwd);
      if resolved.Failure? {
        return Fail(resolved.error);
      }
      var root := resolved.value;
      ghost var start := launched;
      ghost var prep := Prepared(fs, root, args, succeeds);
      r := Prepare(root, args, succeeds);
      if r.Fail? {
        return;
      }
      ghost var rest := Populated(fs, root, args, succeeds);
      r := Populate(root, args, succeeds);
      AppendRuns(start, prep.runs, rest.runs);
    }
  }
}
