/**
 * Bookkeeping both download managers share: the task slot (`downloadTask`
 * and the tasks cancelled so far) and the value a `CurrentValueSubject`
 * holds after a run of sends.
 */
module DownloadSlot {
  import opened Wrappers

  /** A `URLSessionDownloadTask`: an identity and the remote URL it fetches. */
  datatype Transfer = Transfer(id: nat, url: string)

  /** The identity of the task in the slot, if any. */
  function TaskIds(task: Option<Transfer>): (ids: set<nat>)
  {
    if task.Some? then {task.value.id} else {}
  }

  /** The value of a subject created with `initial` after `sent` was sent on it. */
  function CurrentValue<S>(sent: seq<S>, initial: S): (value: S)
  {
    if sent == [] then initial else sent[|sent| - 1]
  }

  /**
   * A task in the slot belongs to a current video, and is the newest
   * identity handed out and never one that was cancelled.
   */
  ghost predicate SlotConsistent(task: Option<Transfer>, hasCurrentVideo: bool, nextTaskId: nat, cancelled: set<nat>)
  {
    && (task.Some? ==> hasCurrentVideo && task.value.id < nextTaskId && task.value.id !in cancelled)
    && (forall id | id in cancelled :: id < nextTaskId)
  }
}
