/**
 * External commands the generator launches. A command is recorded, not run:
 * whether it exits successfully is an input of the model.
 */
module Process {

  import opened FileSystem

  /** A program with its arguments, started in a working directory. */
  datatype Invocation = Invocation(program: string, args: seq<string>, dir: Path)

  /** The flavour of package `cargo new` creates. */
  datatype MemberKind = Lib | Bin

  function KindFlag(kind: MemberKind): string
  {
    match kind
    case Lib => "--lib"
    case Bin => "--bin"
  }

  /** `git init`, run inside the workspace root. */
  function GitInit(root: Path): Invocation
  {
    Invocation("git", ["init"], root)
  }

  /** `cargo new <name> --edition 2024 --vcs none --quiet --lib|--bin`, run inside the workspace root. */
  function CargoNew(root: Path, name: string, kind: MemberKind): Invocation
  {
    Invocation("cargo", ["new", name, "--edition", "2024", "--vcs", "none", "--quiet", KindFlag(kind)], root)
  }

  /** The `cargo new` commands for `names`, in order. */
  function CargoRuns(root: Path, names: seq<string>, kind: MemberKind): seq<Invocation>
  {
    seq(|names|, i requires 0 <= i < |names| => CargoNew(root, names[i], kind))
  }

  /** Appending to a log of invocations is associative. */
  lemma AppendRuns(a: seq<Invocation>, b: seq<Invocation>, c: seq<Invocation>)
    ensures a + b + c == a + (b + c)
  {
  }
}
