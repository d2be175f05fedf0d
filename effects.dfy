/**
 * What one step of `wg new` leaves behind: its outcome, the filesystem
 * after it, and the external commands it launched, in order.
 */
module Effects {

  import opened Wrappers
  import opened FileSystem
  import opened Process
  import opened Errors

  datatype Progress = Progress(result: Outcome<Error>, fs: FileSystem, runs: seq<Invocation>)

  /** Nothing happened and nothing failed. */
  function Unchanged(fs: FileSystem): Progress
  {
    Progress(Pass, fs, [])
  }
}
