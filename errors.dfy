/** The ways a run of `wg new` can fail, and the one-line diagnostic printed for each. */
module Errors {

  import opened FileSystem
  import opened Process

  datatype Error =
    | DuplicateMember(name: string)
    | CurrentDirUnavailable
    | InvalidPath(input: Path)
    | NotADirectory(path: Path)
    | DirectoryNotEmpty(path: Path)
    | ManifestParseError(path: Path)
    | WorkspaceNotATable
    | MemberAlreadyExists(name: string, path: Path)
    | CommandFailed(command: Invocation)
    | IoError(action: string, path: Path)

  /** An absolute path as displayed: `/a/b/c`, and `/` for the root. */
  function PathText(p: Path): string
  {
    "/" + Joined(p)
  }

  /** The components separated by `/`. */
  function Joined(p: Path): string
  {
    if p == [] then "" else if |p| == 1 then p[0] else p[0] + "/" + Joined(p[1..])
  }

  /** Whether `part` occurs in `s` as a contiguous substring. */
  predicate Contains(s: string, part: string)
  {
    exists i | 0 <= i <= |s| - |part| :: OccursAt(s, part, i)
  }

  predicate OccursAt(s: string, part: string, i: int)
  {
    0 <= i <= |s| - |part| && s[i..i + |part|] == part
  }

  function Message(e: Error): string
  {
    match e
    case DuplicateMember(name) => "member " + name + " declared multiple times"
    case CurrentDirUnavailable => "failed to read current directory"
    case InvalidPath(input) => "target path is not valid UTF-8: " + Joined(input)
    case NotADirectory(path) => PathText(path) + " exists and is not a directory"
    case DirectoryNotEmpty(path) => "directory " + PathText(path) + " is not empty (use --force to override)"
    case ManifestParseError(path) => "failed to parse " + PathText(path)
    case WorkspaceNotATable => "workspace section is not a table"
    case MemberAlreadyExists(name, path) => "member " + name + " already exists at " + PathText(path)
    case CommandFailed(command) =>
      if command.program == "cargo" && |command.args| > 1
      then "cargo new failed for " + command.args[1]
      else "git init exited with a failure status"
    case IoError(action, path) => action + " " + PathText(path)
  }

  lemma OccursBetween(head: string, part: string, tail: string)
    ensures OccursAt(head + part + tail, part, |head|)
  {
    var s := head + part + tail;
    assert s[|head|..|head| + |part|] == part;
  }

  /** The diagnostic for a duplicate names the offending member. */
  lemma DuplicateMessageNamesMember(name: string)
    ensures Contains(Message(DuplicateMember(name)), name)
  {
    var msg := Message(DuplicateMember(name));
    assert OccursAt(msg, name, 7);
  }

  /** The diagnostic for a non-empty target says "not empty", whatever the path. */
  lemma NotEmptyMessageSaysNotEmpty(path: Path)
    ensures Contains(Message(DirectoryNotEmpty(path)), "not empty")
  {
    var head := "directory " + PathText(path) + " is ";
    var tail := " (use --force to override)";
    assert Message(DirectoryNotEmpty(path)) == head + "not empty" + tail;
    OccursBetween(head, "not empty", tail);
  }

  /** A failing `cargo new` is reported with the member's name. */
  lemma CargoFailureMessageNamesMember(root: Path, name: string, kind: MemberKind)
    ensures Contains(Message(CommandFailed(CargoNew(root, name, kind))), name)
  {
    var msg := Message(CommandFailed(CargoNew(root, name, kind)));
    assert OccursAt(msg, name, |"cargo new failed for "|);
  }
}
