# wg new, modelled in Dafny

`wg new PATH [--lib NAME]… [--bin NAME]… [--git] [--force] [--toolchain CHANNEL]`
creates a Cargo workspace. It does the following steps, in this order:

1. It rejects a member name that appears twice across the libraries and binaries.
2. It resolves the target path.
3. It gates the target directory: it creates an absent one, and refuses a file or a non-empty directory unless `--force` is given.
4. It writes a baseline `Cargo.toml` with `workspace.resolver = "3"` and no members.
5. It writes a `.gitignore`, unless one exists.
6. It writes `rust-toolchain.toml` when a channel is given.
7. It runs `git init` when asked.
8. It runs `cargo new` for every library, then for every binary.
9. It rewrites `Cargo.toml` so that its members are the libraries followed by the binaries.

The first failure ends the run, and nothing done before it is undone.

## How it is modelled

The filesystem is a map from absolute paths to nodes (`FileSystem.FileSystem`). A path is a sequence of components. The map is well formed: the root is a directory, and every other entry sits inside a directory.

A manifest file holds either a TOML document or text that does not parse. A document is a map from top-level keys to items (`Toml.Entries`), and a table item holds its own key map.

`git init` and `cargo new` are not run. The model records each launch as an `Invocation`. Whether a launch succeeds is an input, the oracle `succeeds`:
- a successful `cargo new NAME` creates the directory `root/NAME`;
- a successful `git init` leaves a `.git` entry in the root;
- a failing command changes nothing.

The model has four parts:

- **Values** (`members.dfy`, `manifest.dfy`). The member-list check and assembly work on sequences: `Members.EnsureNoDuplicateMembers` and `Members.CollectMembers`. The document edit of `write_workspace_manifest` works on a document: `Manifest.Merge`, `Manifest.BuildMembersArray`, and the class `Manifest.Document`, which edits the parsed document in place as `ensure_workspace_table` and the `workspace[...] = ...` assignments do.
- **Steps** (`steps.dfy`, `scaffold.dfy`). One function per filesystem step of `new.rs`. Each maps the filesystem it starts from to a `Progress` (`effects.dfy`): the outcome, the new filesystem and the commands launched.
- **Phases** (`plan.dfy`). `Founded`, `Furnished`, `Prepared`, `Populated` and `Planned` compose the steps in the order `NewArgs::run` uses. The lemmas state what a run leaves behind: the manifest, the layout, the commands launched, and when a run must succeed or must fail.
- **Machine** (`newcommand.dfy`). `NewCommand.Host` is a class whose fields are the filesystem and the log of launched commands. Each method does one step in place, and its postcondition equates the outcome, the new filesystem and the extended log with the step function. `Host.Run` is `NewArgs::run`. It delegates to `Prepare` (gate, baseline manifest, auxiliary files, `git init`) and `Populate` (scaffolding, final manifest). Those in turn call the one-step methods.

`Members.EnsureNoDuplicateMembers`, `Members.CollectMembers`, `Manifest.BuildMembersArray` and `Host.ScaffoldMembers` are loops, with invariants.

Some details follow the code exactly:
- The code checks `member_dir.exists()`, so a member is refused when any entry of its name exists, not only a directory.
- The names `""`, `.` and `..` join onto the root as the root itself or its parent. Both always exist, so such a member is refused as already existing, and nothing is launched for it.
- The code checks `gitignore.exists()`, so an existing `.gitignore` of any kind is left alone.
- The baseline manifest write happens before the ignore file is written.

## Model

| member | source | states |
|---|---|---|
| Members.CollectMembers | wg/src/commands/new.rs:108-113 | the result is exactly the libraries followed by the binaries: as many names as both lists together, each list in its input order, libraries first |
| Members.EnsureNoDuplicateMembers | wg/src/commands/new.rs:115-123 | passes if and only if no name occurs at two positions of `libs ++ bins`; on failure the error is `DuplicateMember` of the first name seen a second time |
| Members.DistinctConcat | wg/src/commands/new.rs:115-123 | the combined list is duplicate-free exactly when each list is and no name is both a library and a binary, so disjoint duplicate-free lists always pass |
| Errors.DuplicateMessageNamesMember | wg/src/commands/new.rs:238-244 | the duplicate-member diagnostic contains the member's name |
| Errors.NotEmptyMessageSaysNotEmpty | wg/tests/new_command.rs:54-66 | the diagnostic for a non-empty target contains "not empty", for every path |
| Errors.CargoFailureMessageNamesMember | wg/src/commands/new.rs:226-227 | the diagnostic for a failing `cargo new` contains the member's name |
| FileSystem.CreateDirAll | wg/src/commands/new.rs:101-102 | `create_dir_all` fails exactly when the path or one of its ancestors is a file; otherwise the path and all its missing ancestors become directories, every existing entry is kept, and a newly created target is empty |
| Plan.ResolvePath | wg/src/commands/new.rs:79-89 | an absolute path is kept unchanged; a relative one is the current directory followed by the input; an unreadable current directory and a non-UTF-8 result are the two errors |
| Steps.Written | wg/src/commands/new.rs:175-180 | `fs::write` succeeds exactly when the parent is a directory and the path is not a directory; it then puts the file at that path and changes nothing else; on failure nothing changes and the error names the path |
| Steps.TargetDir | wg/src/commands/new.rs:91-106 | passes if and only if the target is a directory that is empty or forced, or is absent and creatable; a file is `NotADirectory`; a non-empty directory without `--force` is `DirectoryNotEmpty`; an absent target becomes an empty directory; existing entries are never altered |
| NewCommand.Host.EnsureTargetDir | wg/src/commands/new.rs:91-106 | the in-place gate has the outcome and new filesystem of `Steps.TargetDir` and launches nothing |
| Steps.TargetDirKeepsManifest | wg/src/commands/new.rs:91-106 | a passing gate leaves what the manifest read returns unchanged |
| Manifest.Document.EnsureWorkspaceTable | wg/src/commands/new.rs:152-160 | an absent `workspace` key gets an empty table, which is returned; an existing table is returned unchanged; any other value is `WorkspaceNotATable` and the document is unchanged |
| Manifest.Document.SetWorkspaceEntry | wg/src/commands/new.rs:138-144 | assigns one key of the workspace table and changes nothing else in the document |
| Manifest.BuildMembersArray | wg/src/commands/new.rs:140-144 | the array built by pushing each name holds the names as strings, reads back as exactly the member list, in order |
| Manifest.MembersValueReadsBack | wg/src/commands/new.rs:140-144 | reading the members array back as strings gives the original names in their original order |
| Manifest.Merge | wg/src/commands/new.rs:125-160 | succeeds exactly when `workspace` is absent or a table; afterwards `workspace.resolver` is "3", `workspace.members` reads back as exactly the given list, and every other top-level key and every other workspace key is unchanged |
| Manifest.MergeSupersedes | wg/src/commands/new.rs:138-144 | a second merge fully replaces the members of the first: merging `first` then `second` equals merging `second` alone |
| Manifest.MergeIdempotent | wg/src/commands/new.rs:138-144 | merging the same member list twice equals merging it once |
| Steps.ManifestWritten | wg/src/commands/new.rs:125-150 | passes if and only if the root is a directory, the existing manifest (or `[workspace]`) reads and the merge succeeds; it then stores the merged document at `Cargo.toml` and changes nothing else; a parse failure, a non-table `workspace` and a failed write are reported as such, with no change |
| NewCommand.Host.WriteWorkspaceManifest | wg/src/commands/new.rs:125-150 | editing the parsed document in place and writing it back has the outcome and new filesystem of `Steps.ManifestWritten` |
| Steps.GitignoreWritten | wg/src/commands/new.rs:162-173 | an existing `.gitignore` leaves the filesystem unchanged; otherwise one is created holding `/target` and `Cargo.lock` on separate lines; only that path changes; it fails (no change) only when the file is absent and the root is not a directory |
| Steps.GitignoreIdempotent | wg/src/commands/new.rs:162-173 | writing the ignore file twice equals writing it once |
| NewCommand.Host.WriteGitignore | wg/src/commands/new.rs:162-173 | the in-place writer matches `Steps.GitignoreWritten` |
| Steps.ToolchainWritten | wg/src/commands/new.rs:175-180 | the pin `[toolchain]\nchannel = "<c>"\n` overwrites whatever file was there; it fails (no change) only when the root is not a directory or the pin path is a directory |
| Steps.ToolchainTextReadsBack | wg/src/commands/new.rs:175-180 | the pin written for a channel names exactly that channel |
| Steps.NightlyPin | wg/src/commands/new.rs:177 | the pin for `nightly` is the text `[toolchain]\nchannel = "nightly"\n` |
| Steps.ToolchainIdempotent | wg/src/commands/new.rs:175-180 | writing the same pin twice equals writing it once |
| Steps.ToolchainLastWins | wg/src/commands/new.rs:175-180 | after two pins only the last channel remains: the result equals writing the second pin alone |
| NewCommand.Host.WriteToolchainFile | wg/src/commands/new.rs:175-180 | the in-place writer matches `Steps.ToolchainWritten` |
| NewCommand.Host.Write | wg/src/commands/new.rs:146-147 | the in-place `fs::write` matches `Steps.Written` |
| Steps.GitInitialised | wg/src/commands/new.rs:182-194 | launches exactly one `git init` in the root; passes if and only if that command succeeds, leaving a `.git` entry and changing nothing else; otherwise it fails with `CommandFailed` and changes nothing |
| NewCommand.Host.InitGitRepo | wg/src/commands/new.rs:182-194 | the in-place step matches `Steps.GitInitialised`, appending its launch to the log |
| Scaffold.ScaffoldedSucceeds | wg/src/commands/new.rs:196-232 | scaffolding passes if and only if the names are pairwise distinct, none of their paths exists beforehand (the root and its parent always exist), and every `cargo new` succeeds |
| Scaffold.ScaffoldedPassNeedsFreshNames | wg/src/commands/new.rs:196-232 | a passing walk met only distinct names whose paths were absent and whose `cargo new` succeeded |
| Scaffold.ScaffoldedFreshNamesPass | wg/src/commands/new.rs:196-232 | distinct names with absent paths and succeeding commands make the walk pass |
| Scaffold.ScaffoldedPassKeys | wg/src/commands/new.rs:196-232 | a passing walk adds exactly the member directories to the filesystem |
| Scaffold.ScaffoldedKeepsExisting | wg/src/commands/new.rs:196-232 | whatever the outcome, scaffolding never alters or removes an existing entry |
| Scaffold.ScaffoldedPassCreatesDirs | wg/src/commands/new.rs:196-232 | after a passing walk every name is a directory under the root |
| Scaffold.ScaffoldedPassRuns | wg/src/commands/new.rs:203-219 | a passing walk launched one `cargo new NAME --edition 2024 --vcs none --quiet --lib/--bin` per name, in input order, with the flag for the kind |
| Scaffold.ScaffoldedRefusesRootNames | wg/src/commands/new.rs:198-200 | a first name of `""`, `.` or `..` is refused with `MemberAlreadyExists` at once: the filesystem is unchanged and nothing is launched |
| Scaffold.ScaffoldedStopsAtFirstFailure | wg/src/commands/new.rs:197-228 | when name `k` is the first that cannot be scaffolded, the walk fails with that name's error (already exists, or `cargo new` failed); no later name's directory is created and no later command is launched |
| Scaffold.ScaffoldedFailureHasFirst | wg/src/commands/new.rs:197-228 | every failing walk has such a first failing name `k` |
| NewCommand.Host.ScaffoldMembers | wg/src/commands/new.rs:196-232 | the loop has the outcome, new filesystem and launched commands of `Scaffold.Scaffolded` |
| Plan.Founded | wg/src/commands/new.rs:44-48 | after the gate and the baseline manifest write pass, the root is a directory holding `Cargo.toml`; nothing is launched |
| Plan.FoundedManifest | wg/src/commands/new.rs:44-48 | the baseline manifest is the existing one (or `[workspace]`) merged with an empty member list |
| Plan.FoundedKeepsEntries | wg/src/commands/new.rs:44-48 | founding changes no existing entry other than `Cargo.toml` |
| Plan.FoundedFresh | wg/src/commands/new.rs:44-48 | on an absent (creatable) or empty target, founding passes and leaves `Cargo.toml` as the root's only entry |
| Plan.Furnished | wg/src/commands/new.rs:49-56 | the ignore-file, pin and `git init` steps keep the root a directory and never touch `Cargo.toml` |
| Plan.FurnishedFiles | wg/src/commands/new.rs:49-56 | after furnishing, the ignore file exists (the original one if there was one), the requested pin holds its channel, and `.git` exists when asked |
| Plan.FurnishedRuns | wg/src/commands/new.rs:54-56 | furnishing launches `git init` in the root when asked and nothing else |
| Plan.FurnishedFresh | wg/src/commands/new.rs:49-56 | in a root holding only `Cargo.toml`, furnishing passes whenever `git init` does, and leaves only the names `wg new` itself writes |
| Plan.GitignoreFresh | wg/src/commands/new.rs:162-173 | in a directory root the ignore step always passes and adds no entry besides `.gitignore` |
| Plan.PinnedFresh | wg/src/commands/new.rs:50-52 | in a directory root without a pin, the pin step always passes and adds no entry besides `rust-toolchain.toml` |
| Plan.GitFresh | wg/src/commands/new.rs:182-194 | a successful `git init` adds no entry besides `.git` |
| Plan.Prepared | wg/src/commands/new.rs:44-56 | after the first half of the run passes, the root is a directory holding `Cargo.toml` |
| Plan.PopulatedKeepsEntries | wg/src/commands/new.rs:58-62 | whatever the outcome, scaffolding and the final write change no existing entry other than `Cargo.toml` |
| Plan.PopulatedManifest | wg/src/commands/new.rs:58-62 | after a passing second half, the manifest is the earlier one merged with the libraries followed by the binaries |
| Plan.PopulatedMembers | wg/src/commands/new.rs:58-62 | after a passing second half, every member is a directory, and the commands launched are the library `cargo new`s in order, then the binary ones |
| Plan.MembersFresh | wg/src/commands/new.rs:196-232 | distinct members whose names the root does not hold and whose commands succeed are all scaffolded, and the root then holds only the earlier names plus theirs |
| Plan.PopulatedFresh | wg/src/commands/new.rs:58-62 | in a root holding only the reserved names, distinct non-reserved members whose commands succeed make the second half pass |
| Plan.PlannedManifest | wg/src/commands/new.rs:44-62 | after a successful run, `Cargo.toml` is the original manifest (or `[workspace]`) with resolver "3" and members exactly the libraries followed by the binaries, every other key kept: the first write is superseded by the second |
| Plan.PlannedMemberList | wg/src/commands/new.rs:61-62 | after a successful run `Cargo.toml` holds a document whose `workspace.resolver` reads "3" and whose `workspace.members` reads back as exactly the libraries followed by the binaries, in order |
| Plan.PlannedLayout | wg/src/commands/new.rs:44-62 | after a successful run the root is a directory holding `.gitignore` (the original if there was one), the requested pin, `.git` when asked, and a directory per member |
| Plan.PlannedRuns | wg/src/commands/new.rs:54-59 | a successful run launched `git init` when asked, then one `cargo new` per library, then one per binary, in order |
| Plan.PlannedRefusesFile | wg/src/commands/new.rs:91-95 | a target that is a file fails with `NotADirectory` before anything is written or launched |
| Plan.PopulatedFailure | wg/src/commands/new.rs:58-62 | when the second half fails, `Cargo.toml` is left as it was; when a library fails, the second half ends there, so no binary is scaffolded and no `cargo new --bin` is launched |
| Plan.PlannedFailureKeepsBaseline | wg/src/commands/new.rs:44-62 | a run that fails after the root was prepared leaves the baseline manifest on disk: the original one (or `[workspace]`) with resolver "3" and no members |
| Plan.PlannedRefusesNonEmpty | wg/src/commands/new.rs:96-99 | a non-empty target without `--force` fails with `DirectoryNotEmpty` before anything is written or launched |
| Plan.PlannedFresh | wg/src/commands/new.rs:40-70 | on an absent or empty target, with distinct members that avoid the reserved names (`Cargo.toml`, `.gitignore`, the pin and `.git` when written, `""`, `.`, `..`) and with every command succeeding, the run passes |
| Plan.DemoWorkspacePasses | wg/tests/new_command.rs:8-24 | `wg new /tmp/demo --lib corelib --bin applib --toolchain nightly` on a `/tmp/demo` that is absent (and creatable) or an empty directory passes |
| Plan.DemoWorkspaceRuns | wg/tests/new_command.rs:8-24 | the run launches `cargo new corelib --lib` and then `cargo new applib --bin`, and nothing else |
| Plan.DemoWorkspaceLayout | wg/tests/new_command.rs:26-29 | the run creates `corelib` and `applib` as directories, the ignore file, and the nightly pin |
| Plan.DemoWorkspaceManifest | wg/tests/new_command.rs:31-51 | the resulting manifest has resolver "3" and members `["corelib", "applib"]` |
| NewCommand.Host.Found | wg/src/commands/new.rs:44-48 | the gate and baseline write, done in place, match `Plan.Founded` |
| NewCommand.Host.Furnish | wg/src/commands/new.rs:49-56 | the auxiliary-file and `git init` steps, done in place, match `Plan.Furnished` |
| NewCommand.Host.Prepare | wg/src/commands/new.rs:44-56 | the first half of the run, done in place, matches `Plan.Prepared` |
| NewCommand.Host.Populate | wg/src/commands/new.rs:58-62 | scaffolding and the final write, done in place, match `Plan.Populated` |
| NewCommand.Host.Run | wg/src/commands/new.rs:40-70 | duplicate members fail with `DuplicateMember` of the first repeated name and change nothing; a failed path resolution fails and changes nothing; otherwise the outcome, the new filesystem and the launched commands are those of `Plan.Planned` |

## Left out

- TOML text is not modelled: parsing, serialisation, formatting, comments and key order. A manifest file holds either a document, read back as itself, or text that does not parse. Parse error locations are not kept.
- Command-line parsing, dispatch and exit codes are not modelled. They live in `wg/src/cli.rs`, `wg/src/commands/mod.rs` and `wg/src/main.rs`, which are not part of this model.
- `git init` and `cargo new` are not executed. Their success is the oracle `succeeds`. A failure to spawn and a failing exit status are both `CommandFailed`.
- The files `cargo new` and `git init` create inside their directories are not modelled. Any edit `cargo new` itself makes to the root manifest is not modelled either.
- Errors.Message: the exit status in "cargo new failed for NAME with STATUS" and "git init exited with STATUS" is not modelled. The error contexts are modelled only as far as the lemmas about key substrings.
- The `println!` summary at the end of a run is not modelled.
- I/O failures are modelled only where the filesystem's shape decides them: a write fails when the parent is not a directory or the target is one, and a manifest read fails when `Cargo.toml` is a directory. Permission errors, a full disk, and `read_dir` errors in `ensure_target_dir` are not modelled. Neither is a failure of the `.gitignore` `write_all` after the file was created, which would leave an empty file.
- Plan.ResolvePath: the current directory and its UTF-8 check are inputs. Path normalisation (`.`, `..`) is not modelled.
- Member names are treated as single path components. Names containing `/` (several components, or an absolute path) are not modelled.
- Races between the emptiness check and later writes, and concurrent runs, are not modelled. The model assumes exclusive access.
