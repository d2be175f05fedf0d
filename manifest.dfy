/**
 * The workspace manifest (`Cargo.toml` at the workspace root) and the merge
 * that pins `workspace.resolver` and rewrites `workspace.members`, leaving
 * every other key as it was.
 */
module Manifest {

  import opened Wrappers
  import opened Toml
  import opened FileSystem
  import opened Errors

  const ManifestName := "Cargo.toml"
  const WorkspaceKey := "workspace"
  const ResolverKey := "resolver"
  const MembersKey := "members"
  const ResolverVersion := "3"

  /** The document `"[workspace]\n"` parses to: an empty workspace table and nothing else. */
  const FreshManifest: Entries := map[WorkspaceKey := Table(map[])]

  function ManifestPath(root: Path): Path
  {
    Join(root, ManifestName)
  }

  /** The members array: one string per name, in order. */
  function MembersValue(names: seq<string>): Value
  {
    Array(seq(|names|, i requires 0 <= i < |names| => Str(names[i])))
  }

  /** The names held by an array of strings, as `as_array` then `as_str` on each element read them. */
  function StringsOf(v: Value): Option<seq<string>>
  {
    if v.Array? && forall e | e in v.elems :: e.Str?
    then Some(seq(|v.elems|, i requires 0 <= i < |v.elems| => v.elems[i].s))
    else None
  }

  /** The keys of the workspace table, or none when there is no such table. */
  function WorkspaceEntries(doc: Entries): map<string, Item>
  {
    if WorkspaceKey in doc && doc[WorkspaceKey].Table? then doc[WorkspaceKey].entries else map[]
  }

  /** `doc["workspace"]["resolver"].as_str()`. */
  function Resolver(doc: Entries): Option<string>
  {
    var ws := WorkspaceEntries(doc);
    if ResolverKey in ws then AsStr(ws[ResolverKey]) else None
  }

  /** `doc["workspace"]["members"]`, read back as a list of names. */
  function MemberList(doc: Entries): Option<seq<string>>
  {
    var ws := WorkspaceEntries(doc);
    if MembersKey in ws && ws[MembersKey].Val? then StringsOf(ws[MembersKey].v) else None
  }

  /** Building the array and reading it back gives the same names, in the same order. */
  lemma MembersValueReadsBack(names: seq<string>)
    ensures StringsOf(MembersValue(names)) == Some(names)
  {
    var v := MembersValue(names);
    assert forall e | e in v.elems :: e.Str?;
    assert seq(|v.elems|, i requires 0 <= i < |v.elems| => v.elems[i].s) == names;
  }

  /**
   * What `write_workspace_manifest` does to the document: make sure
   * `workspace` is a table (adding an empty one when the key is missing),
   * then set its `resolver` to "3" and its `members` to exactly `members`.
   */
  function Merge(doc: Entries, members: seq<string>): (r: Result<Entries, Error>)
    ensures r.Success? <==> WorkspaceKey !in doc || doc[WorkspaceKey].Table?
    ensures r.Failure? ==> r.error == WorkspaceNotATable
    ensures r.Success? ==> Resolver(r.value) == Some(ResolverVersion) && MemberList(r.value) == Some(members)
    ensures r.Success? ==> r.value.Keys == doc.Keys + {WorkspaceKey}
    ensures r.Success? ==> forall k :: k in doc && k != WorkspaceKey ==> r.value[k] == doc[k]
    ensures r.Success? ==> r.value[WorkspaceKey].Table?
    ensures r.Success? ==> WorkspaceEntries(r.value).Keys == WorkspaceEntries(doc).Keys + {ResolverKey, MembersKey}
    ensures r.Success? ==> forall k :: k in WorkspaceEntries(doc) && k != ResolverKey && k != MembersKey ==>
      WorkspaceEntries(r.value)[k] == WorkspaceEntries(doc)[k]
  {
    if WorkspaceKey in doc && !doc[WorkspaceKey].Table? then Failure(WorkspaceNotATable)
    else
      var ws := WorkspaceEntries(doc)[ResolverKey := Val(Str(ResolverVersion))][MembersKey := Val(MembersValue(members))];
      MembersValueReadsBack(members);
      Success(doc[WorkspaceKey := Table(ws)])
  }

  /** A later merge replaces whatever members an earlier one wrote. */
  lemma MergeSupersedes(doc: Entries, first: seq<string>, second: seq<string>)
    requires Merge(doc, first).Success?
    ensures Merge(Merge(doc, first).value, second) == Merge(doc, second)
  {
    var pinned := WorkspaceEntries(doc)[ResolverKey := Val(Str(ResolverVersion))];
    var once := Merge(doc, first).value;
    assert once == doc[WorkspaceKey := Table(pinned[MembersKey := Val(MembersValue(first))])];
    assert WorkspaceEntries(once) == pinned[MembersKey := Val(MembersValue(first))];
    var ws := WorkspaceEntries(once)[ResolverKey := Val(Str(ResolverVersion))][MembersKey := Val(MembersValue(second))];
    assert ws == pinned[MembersKey := Val(MembersValue(second))];
    assert Merge(once, second).value == once[WorkspaceKey := Table(ws)];
    assert once[WorkspaceKey := Table(ws)] == doc[WorkspaceKey := Table(ws)];
  }

  /** Merging the same member list twice is the same as merging it once. */
  lemma MergeIdempotent(doc: Entries, members: seq<string>)
    requires Merge(doc, members).Success?
    ensures Merge(Merge(doc, members).value, members) == Merge(doc, members)
  {
    MergeSupersedes(doc, members, members);
  }

  /**
   * The document `write_workspace_manifest` starts from: the parsed
   * manifest if one exists, otherwise `FreshManifest`.
   */
  function ReadManifest(fs: FileSystem, root: Path): (r: Result<Entries, Error>)
  {
    var path := ManifestPath(root);
    if path !in fs then Success(FreshManifest)
    else match fs[path]
      case Dir => Failure(IoError("failed to read", path))
      case File(Text(_)) => Failure(ManifestParseError(path))
      case File(Toml(doc)) => Success(doc)
  }

  /** The manifest read from a root depends only on what sits at the manifest's path. */
  lemma ManifestKept(fs: FileSystem, after: FileSystem, root: Path)
    requires ManifestPath(root) in fs && ManifestPath(root) in after
    requires after[ManifestPath(root)] == fs[ManifestPath(root)]
    ensures ReadManifest(after, root) == ReadManifest(fs, root)
  {
  }

  /**
   * The `Array` for the members field, built by pushing each name in turn.
   */
  method BuildMembersArray(members: seq<string>) returns (list: Value)
    ensures list == MembersValue(members)
    ensures StringsOf(list) == Some(members)
  {
    var elems: seq<Value> := [];
    for i := 0 to |members|
      invariant Array(elems) == MembersValue(members[..i])
    {
      elems := elems + [Str(members[i])];
    }
    assert members[..|members|] == members;
    list := Array(elems);
    MembersValueReadsBack(members);
  }

  /** A manifest document being edited in place. */
  class Document {
    var root: Entries

    constructor (parsed: Entries)
      ensures root == parsed
    {
      root := parsed;
    }

    /**
     * `doc.entry("workspace").or_insert(empty table).as_table_mut()`: the
     * workspace table, inserted empty when missing; an error, and no change,
     * when the key holds something other than a table.
     */
    method EnsureWorkspaceTable() returns (r: Result<map<string, Item>, Error>)
      modifies this
      ensures WorkspaceKey !in old(root) ==>
        r == Success(map[]) && root == old(root)[WorkspaceKey := Table(map[])]
      ensures WorkspaceKey in old(root) && old(root)[WorkspaceKey].Table? ==>
        r == Success(old(root)[WorkspaceKey].entries) && root == old(root)
      ensures WorkspaceKey in old(root) && !old(root)[WorkspaceKey].Table? ==>
        r == Failure(WorkspaceNotATable) && root == old(root)
    {
      if WorkspaceKey !in root {
        root := root[WorkspaceKey := Table(map[])];
      }
      var entry := root[WorkspaceKey];
      if entry.Table? {
        r := Success(entry.entries);
      } else {
        r := Failure(WorkspaceNotATable);
      }
    }

    /** `workspace[key] = item` on the workspace table. */
    method SetWorkspaceEntry(key: string, item: Item)
      requires WorkspaceKey in root && root[WorkspaceKey].Table?
      modifies this
      ensures root == old(root)[WorkspaceKey := Table(old(root)[WorkspaceKey].entries[key := item])]
    {
      root := root[WorkspaceKey := Table(root[WorkspaceKey].entries[key := item])];
    }
  }
}
