/**
 * An abstract filesystem: a map from absolute paths (sequences of path
 * components; `[]` is the filesystem root) to nodes. Every path other than
 * the root has its parent present as a directory.
 */
module FileSystem {

  import opened Wrappers
  import opened Toml

  type Path = seq<string>

  /** What a file holds: text, or a TOML document that reads back as itself. */
  datatype Contents = Text(text: string) | Toml(doc: Entries)

  datatype Node = File(contents: Contents) | Dir

  function Parent(p: Path): Path
    requires p != []
  {
    p[..|p| - 1]
  }

  /** The root is a directory and every other entry sits inside a directory. */
  predicate WellFormed(m: map<Path, Node>)
  {
    && [] in m && m[[]].Dir?
    && forall q {:trigger Parent(q)} :: q in m && q != [] ==> Parent(q) in m && m[Parent(q)].Dir?
  }

  type FileSystem = m: map<Path, Node> | WellFormed(m) witness map[[] := Dir]

  predicate IsDir(fs: FileSystem, p: Path)
  {
    p in fs && fs[p].Dir?
  }

  /** `read_dir(p)` yields at least one entry. */
  predicate HasEntries(fs: FileSystem, p: Path)
  {
    exists q {:trigger Parent(q)} :: q in fs && q != [] && Parent(q) == p
  }

  /** `std::fs::write(p, ..)` can succeed: the parent is a directory and `p` is not one. */
  predicate Writable(fs: FileSystem, p: Path)
  {
    p != [] && IsDir(fs, Parent(p)) && !IsDir(fs, p)
  }

  /** `root.join(name)` for a single-component name. */
  function Join(root: Path, name: string): (p: Path)
    ensures p != [] && Parent(p) == root
  {
    root + [name]
  }

  /** Different names give different paths under the same root. */
  lemma JoinInjective(root: Path, a: string, b: string)
    ensures Join(root, a) == Join(root, b) ==> a == b
  {
    if Join(root, a) == Join(root, b) {
      assert Join(root, a)[|root|] == a;
    }
  }

  /** `p` made an (empty) directory inside an existing directory. */
  function AddDir(fs: FileSystem, p: Path): (r: FileSystem)
    requires p != [] && IsDir(fs, Parent(p)) && p !in fs
    ensures r == fs[p := Dir] && !HasEntries(r, p)
  {
    var m := fs[p := Dir];
    assert WellFormed(m) by {
      forall q | q in m && q != [] ensures Parent(q) in m && m[Parent(q)].Dir? {
        if q != p { assert q in fs; }
      }
    }
    m
  }

  /** `p` made a file holding `c`, replacing a file of that name if there is one. */
  function PutFile(fs: FileSystem, p: Path, c: Contents): FileSystem
    requires p != [] && IsDir(fs, Parent(p)) && !IsDir(fs, p)
  {
    var m := fs[p := File(c)];
    assert WellFormed(m) by {
      forall q | q in m && q != [] ensures Parent(q) in m && m[Parent(q)].Dir? {
        if q != p { assert q in fs; }
      }
    }
    m
  }

  /** The path itself and all of its ancestors up to the root. */
  function Prefixes(p: Path): set<Path>
  {
    set i | 0 <= i <= |p| :: p[..i]
  }

  /**
   * `create_dir_all(p)`: every missing ancestor of `p`, and `p` itself, becomes
   * a directory; it fails (None) when some ancestor, or `p`, is a file.
   */
  function CreateDirAll(fs: FileSystem, p: Path): (r: Option<FileSystem>)
    ensures r.None? <==> exists i :: 0 <= i <= |p| && p[..i] in fs && fs[p[..i]].File?
    ensures r.Some? ==> IsDir(r.value, p) && r.value.Keys == fs.Keys + Prefixes(p)
    ensures r.Some? ==> forall q :: q in fs ==> r.value[q] == fs[q]
    ensures r.Some? && p !in fs ==> !HasEntries(r.value, p)
  {
    if exists i :: 0 <= i <= |p| && p[..i] in fs && fs[p[..i]].File? then None
    else
      var m := fs + map q | q in Prefixes(p) :: Dir;
      assert p[..|p|] == p;
      assert WellFormed(m) by {
        forall q | q in m && q != []
          ensures Parent(q) in m && m[Parent(q)].Dir?
        {
          if q in Prefixes(p) {
            var i :| 0 <= i <= |p| && q == p[..i];
            assert Parent(q) == p[..i - 1];
          }
        }
      }
      Some(m)
  }
}
