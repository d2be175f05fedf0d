/**
 * Scaffolding of member packages: for each name, in order, refuse a name
 * whose directory already exists, otherwise run `cargo new` in the workspace
 * root; the first failure ends the walk.
 */
module Scaffold {

  import opened Wrappers
  import opened FileSystem
  import opened Process
  import opened Errors
  import opened Members
  import opened Effects

  /** The directories the names stand for under `root`. */
  function MemberDirs(root: Path, names: seq<string>): set<Path>
  {
    set n | n in names :: Join(root, n)
  }

  /**
   * `root.join(name)` names the root itself (`""`, `"."`) or its parent
   * (`".."`), so it exists whatever the filesystem holds.
   */
  predicate AlwaysExists(name: string)
  {
    name == "" || name == "." || name == ".."
  }

  /**
   * The walk `scaffold_members` performs. A successful `cargo new` creates
   * the member's directory; a failing one changes nothing.
   */
  function Scaffolded(fs: FileSystem, root: Path, names: seq<string>, kind: MemberKind,
                      succeeds: Invocation -> bool): Progress
    requires IsDir(fs, root)
    decreases |names|
  {
    if names == [] then Progress(Pass, fs, [])
    else
      var dir := Join(root, names[0]);
      var cmd := CargoNew(root, names[0], kind);
      if dir in fs || AlwaysExists(names[0]) then Progress(Fail(MemberAlreadyExists(names[0], dir)), fs, [])
      else if !succeeds(cmd) then Progress(Fail(CommandFailed(cmd)), fs, [cmd])
      else
        var rest := Scaffolded(AddDir(fs, dir), root, names[1..], kind, succeeds);
        Progress(rest.result, rest.fs, [cmd] + rest.runs)
  }

  /** `name` can be scaffolded on top of `fs`: its path does not exist and `cargo new` succeeds for it. */
  predicate Scaffoldable(fs: FileSystem, root: Path, name: string, kind: MemberKind, succeeds: Invocation -> bool)
  {
    !AlwaysExists(name) && Join(root, name) !in fs && succeeds(CargoNew(root, name, kind))
  }

  /** A first name that names the root or its parent is refused as existing, and nothing is launched. */
  lemma ScaffoldedRefusesRootNames(fs: FileSystem, root: Path, names: seq<string>, kind: MemberKind,
                                   succeeds: Invocation -> bool)
    requires IsDir(fs, root) && names != [] && AlwaysExists(names[0])
    ensures Scaffolded(fs, root, names, kind, succeeds)
      == Progress(Fail(MemberAlreadyExists(names[0], Join(root, names[0]))), fs, [])
  {
  }

  /** A successful walk met only distinct names, each of them scaffoldable. */
  lemma {:induction false} ScaffoldedPassNeedsFreshNames(fs: FileSystem, root: Path, names: seq<string>,
                                                         kind: MemberKind, succeeds: Invocation -> bool)
    requires IsDir(fs, root) && Scaffolded(fs, root, names, kind, succeeds).result.Pass?
    ensures Distinct(names)
    ensures forall i | 0 <= i < |names| :: Scaffoldable(fs, root, names[i], kind, succeeds)
    decreases |names|
  {
    if names != [] {
      var dir := Join(root, names[0]);
      var next := AddDir(fs, dir);
      var tail := names[1..];
      ScaffoldedPassNeedsFreshNames(next, root, tail, kind, succeeds);
      forall i | 1 <= i < |names| ensures names[i] != names[0] && Scaffoldable(fs, root, names[i], kind, succeeds) {
        assert Scaffoldable(next, root, tail[i - 1], kind, succeeds);
        JoinInjective(root, names[i], names[0]);
      }
      forall i, j | 0 <= i < j < |names| ensures names[i] != names[j] {
        if i > 0 {
          assert names[i] == tail[i - 1] && names[j] == tail[j - 1];
        }
      }
    }
  }

  /** Distinct names that are all scaffoldable make the walk succeed. */
  lemma {:induction false} ScaffoldedFreshNamesPass(fs: FileSystem, root: Path, names: seq<string>,
                                                    kind: MemberKind, succeeds: Invocation -> bool)
    requires IsDir(fs, root) && Distinct(names)
    requires forall i | 0 <= i < |names| :: Scaffoldable(fs, root, names[i], kind, succeeds)
    ensures Scaffolded(fs, root, names, kind, succeeds).result.Pass?
    decreases |names|
  {
    if names != [] {
      assert Scaffoldable(fs, root, names[0], kind, succeeds);
      var dir := Join(root, names[0]);
      var next := AddDir(fs, dir);
      var tail := names[1..];
      forall i | 0 <= i < |tail| ensures Scaffoldable(next, root, tail[i], kind, succeeds) {
        assert tail[i] == names[i + 1];
        assert Scaffoldable(fs, root, names[i + 1], kind, succeeds);
        JoinInjective(root, tail[i], names[0]);
      }
      assert Distinct(tail) by {
        forall i, j | 0 <= i < j < |tail| ensures tail[i] != tail[j] {
          assert tail[i] == names[i + 1] && tail[j] == names[j + 1];
        }
      }
      ScaffoldedFreshNamesPass(next, root, tail, kind, succeeds);
    }
  }

  lemma MemberDirsCons(root: Path, names: seq<string>)
    requires names != []
    ensures MemberDirs(root, names) == {Join(root, names[0])} + MemberDirs(root, names[1..])
  {
    forall n | n in names ensures n == names[0] || n in names[1..] {
      var i :| 0 <= i < |names| && names[i] == n;
      if i > 0 { assert names[1..][i - 1] == n; }
    }
  }

  /** A successful walk adds exactly the members' directories to the filesystem. */
  lemma {:induction false} ScaffoldedPassKeys(fs: FileSystem, root: Path, names: seq<string>,
                                              kind: MemberKind, succeeds: Invocation -> bool)
    requires IsDir(fs, root) && Scaffolded(fs, root, names, kind, succeeds).result.Pass?
    ensures Scaffolded(fs, root, names, kind, succeeds).fs.Keys == fs.Keys + MemberDirs(root, names)
    decreases |names|
  {
    if names != [] {
      var dir := Join(root, names[0]);
      var next := AddDir(fs, dir);
      var tail := names[1..];
      ScaffoldedPassKeys(next, root, tail, kind, succeeds);
      MemberDirsCons(root, names);
      assert next.Keys == fs.Keys + {dir};
    }
  }

  /** Whatever its outcome, the walk leaves every entry that existed before as it was. */
  lemma {:induction false} ScaffoldedKeepsExisting(fs: FileSystem, root: Path, names: seq<string>,
                                                   kind: MemberKind, succeeds: Invocation -> bool)
    requires IsDir(fs, root)
    ensures var p := Scaffolded(fs, root, names, kind, succeeds);
      forall q | q in fs :: q in p.fs && p.fs[q] == fs[q]
    decreases |names|
  {
    if names != [] && Scaffoldable(fs, root, names[0], kind, succeeds) {
      ScaffoldedKeepsExisting(AddDir(fs, Join(root, names[0])), root, names[1..], kind, succeeds);
    }
  }

  /** A successful walk makes each member's path a directory. */
  lemma {:induction false} ScaffoldedPassCreatesDirs(fs: FileSystem, root: Path, names: seq<string>,
                                                     kind: MemberKind, succeeds: Invocation -> bool)
    requires IsDir(fs, root) && Scaffolded(fs, root, names, kind, succeeds).result.Pass?
    ensures var p := Scaffolded(fs, root, names, kind, succeeds);
      forall n | n in names :: IsDir(p.fs, Join(root, n))
    decreases |names|
  {
    if names != [] {
      var dir := Join(root, names[0]);
      var next := AddDir(fs, dir);
      var tail := names[1..];
      ScaffoldedPassCreatesDirs(next, root, tail, kind, succeeds);
      ScaffoldedKeepsExisting(next, root, tail, kind, succeeds);
      var p := Scaffolded(fs, root, names, kind, succeeds);
      assert p.fs == Scaffolded(next, root, tail, kind, succeeds).fs;
      forall n | n in names ensures IsDir(p.fs, Join(root, n)) {
        if n != names[0] {
          assert n in tail;
        }
      }
    }
  }

  /** A successful walk launched one `cargo new` per name, in order, with the flag for `kind`. */
  lemma {:induction false} ScaffoldedPassRuns(fs: FileSystem, root: Path, names: seq<string>,
                                              kind: MemberKind, succeeds: Invocation -> bool)
    requires IsDir(fs, root) && Scaffolded(fs, root, names, kind, succeeds).result.Pass?
    ensures Scaffolded(fs, root, names, kind, succeeds).runs == CargoRuns(root, names, kind)
    decreases |names|
  {
    if names != [] {
      var next := AddDir(fs, Join(root, names[0]));
      ScaffoldedPassRuns(next, root, names[1..], kind, succeeds);
    }
  }

  /**
   * The walk succeeds exactly when the names are pairwise distinct, none of
   * their directories exists beforehand and every `cargo new` succeeds.
   */
  lemma ScaffoldedSucceeds(fs: FileSystem, root: Path, names: seq<string>, kind: MemberKind,
                           succeeds: Invocation -> bool)
    requires IsDir(fs, root)
    ensures Scaffolded(fs, root, names, kind, succeeds).result.Pass? <==>
      Distinct(names) && forall i | 0 <= i < |names| :: Scaffoldable(fs, root, names[i], kind, succeeds)
  {
    if Scaffolded(fs, root, names, kind, succeeds).result.Pass? {
      ScaffoldedPassNeedsFreshNames(fs, root, names, kind, succeeds);
    } else if Distinct(names) && forall i | 0 <= i < |names| :: Scaffoldable(fs, root, names[i], kind, succeeds) {
      ScaffoldedFreshNamesPass(fs, root, names, kind, succeeds);
    }
  }

  /**
   * When the first `k` names scaffold cleanly and name `k` does not, the walk
   * stops at name `k`: its outcome is the error for that name, no later name's
   * directory is created and no later `cargo new` is launched.
   */
  lemma {:induction false} ScaffoldedStopsAtFirstFailure(fs: FileSystem, root: Path, names: seq<string>,
                                                         kind: MemberKind, succeeds: Invocation -> bool, k: nat)
    requires IsDir(fs, root) && k < |names|
    requires Scaffolded(fs, root, names[..k], kind, succeeds).result.Pass?
    requires !Scaffoldable(Scaffolded(fs, root, names[..k], kind, succeeds).fs, root, names[k], kind, succeeds)
    ensures var before := Scaffolded(fs, root, names[..k], kind, succeeds);
      var p := Scaffolded(fs, root, names, kind, succeeds);
      var dir := Join(root, names[k]);
      var cmd := CargoNew(root, names[k], kind);
      && p.fs == before.fs
      && (dir in before.fs || AlwaysExists(names[k]) ==>
            p.result == Fail(MemberAlreadyExists(names[k], dir)) && p.runs == before.runs)
      && (dir !in before.fs && !AlwaysExists(names[k]) ==>
            p.result == Fail(CommandFailed(cmd)) && p.runs == before.runs + [cmd])
    decreases k
  {
    if k > 0 {
      var next := AddDir(fs, Join(root, names[0]));
      assert names[..k][0] == names[0] && names[..k][1..] == names[1..][..k - 1];
      ScaffoldedStopsAtFirstFailure(next, root, names[1..], kind, succeeds, k - 1);
    }
  }

  /** A failing walk has a first name that fails; `ScaffoldedStopsAtFirstFailure` says what the walk did there. */
  lemma {:induction false} ScaffoldedFailureHasFirst(fs: FileSystem, root: Path, names: seq<string>,
                                                     kind: MemberKind, succeeds: Invocation -> bool)
    returns (k: nat)
    requires IsDir(fs, root) && Scaffolded(fs, root, names, kind, succeeds).result.Fail?
    ensures k < |names|
    ensures Scaffolded(fs, root, names[..k], kind, succeeds).result.Pass?
    ensures !Scaffoldable(Scaffolded(fs, root, names[..k], kind, succeeds).fs, root, names[k], kind, succeeds)
    decreases |names|
  {
    if Scaffoldable(fs, root, names[0], kind, succeeds) {
      var next := AddDir(fs, Join(root, names[0]));
      var j := ScaffoldedFailureHasFirst(next, root, names[1..], kind, succeeds);
      k := j + 1;
      assert names[..k][0] == names[0] && names[..k][1..] == names[1..][..j];
    } else {
      k := 0;
    }
  }
}
