/**
 * The earlier download manager, which calls `FileManager.default` directly
 * (one store for every query and every file operation), has no delete, and
 * whose failed state carries only a message. Each operation and callback is
 * one atomic step, as in the current manager.
 */
module LegacyDownloads {
  import opened Wrappers
  import opened Storage
  import opened DownloadSlot

  datatype DownloadState =
    | NotStarted
    | Downloading(progress: real)
    | Completed
    | Failed(error: string)
  {
    function Progress(): (p: real)
    {
      match this
      case Downloading(p) => p
      case Completed => 1.0
      case _ => 0.0
    }

    predicate IsDownloading()
    {
      Downloading?
    }

    predicate HasCompleted()
    {
      Completed?
    }
  }

  /** The three projections agree with the case of the state they are taken of. */
  lemma ProjectionsFollowCase(s: DownloadState)
    ensures s.IsDownloading() <==> s.Downloading?
    ensures s.HasCompleted() <==> s == Completed
    ensures s.Downloading? ==> s.Progress() == s.progress
    ensures !s.Downloading? ==> (s.Progress() == 1.0 <==> s.HasCompleted())
    ensures !s.Downloading? && !s.HasCompleted() ==> s.Progress() == 0.0
  {
  }

  const NoDestinationMessage := "Failed to create destination URL"

  class DownloadManager {
    var state: DownloadState
    var emitted: seq<DownloadState>
    var task: Option<Transfer>
    var nextTaskId: nat
    var cancelled: set<nat>
    var currentVideoId: Option<string>
    /** `FileManager.default`. */
    const fileManager: FileSystem

    ghost predicate Valid()
      reads this
    {
      && state == CurrentValue(emitted, NotStarted)
      && SlotConsistent(task, currentVideoId.Some?, nextTaskId, cancelled)
    }

    constructor (fileManager: FileSystem)
      ensures Valid() && this.fileManager == fileManager
      ensures state == NotStarted && emitted == []
      ensures task == None && currentVideoId == None && cancelled == {} && nextTaskId == 0
    {
      this.fileManager := fileManager;
      state := NotStarted;
      emitted := [];
      task := None;
      nextTaskId := 0;
      cancelled := {};
      currentVideoId := None;
    }

    method Send(s: DownloadState)
      requires Valid()
      modifies this`state, this`emitted
      ensures Valid()
      ensures state == s && emitted == old(emitted) + [s]
    {
      state := s;
      emitted := emitted + [s];
    }

    /** `getLocalURL`: none exactly when the file manager lists no documents directory. */
    function GetLocalURL(videoId: string): (r: Option<string>)
      reads fileManager
      ensures r.None? <==> fileManager.documentDirectories == []
    {
      LocalPath(fileManager.documentDirectories, videoId)
    }

    predicate VideoExists(videoId: string)
      reads fileManager
      ensures VideoExists(videoId) ==> GetLocalURL(videoId).Some?
      ensures VideoExists(videoId) ==> LocalPath(fileManager.documentDirectories, videoId).value in fileManager.paths
    {
      var localURL := GetLocalURL(videoId);
      localURL.Some? && fileManager.FileExists(localURL.value)
    }

    function GetPlaybackURL(videoId: string, fallback: Option<string>): (r: Option<string>)
      reads fileManager
      ensures VideoExists(videoId) ==> r.Some? && r == LocalPath(fileManager.documentDirectories, videoId)
      ensures !VideoExists(videoId) ==> r == fallback
    {
      if VideoExists(videoId) && GetLocalURL(videoId).Some? then GetLocalURL(videoId) else fallback
    }

    method CancelDownload()
      requires Valid()
      modifies this
      ensures Valid()
      ensures task == None && currentVideoId == None
      ensures emitted == old(emitted) + [NotStarted]
      ensures cancelled == old(cancelled) + TaskIds(old(task)) && nextTaskId == old(nextTaskId)
      ensures unchanged(fileManager)
    {
      if task.Some? {
        cancelled := cancelled + {task.value.id};
      }
      task := None;
      currentVideoId := None;
      Send(NotStarted);
    }

    method DownloadVideo(videoId: string, url: string)
      requires Valid()
      modifies this
      ensures Valid()
      ensures currentVideoId == Some(videoId)
      ensures cancelled == old(cancelled) + TaskIds(old(task))
      ensures VideoExists(videoId) ==>
                && emitted == old(emitted) + [NotStarted, Completed]
                && task == None && nextTaskId == old(nextTaskId)
      ensures !VideoExists(videoId) ==>
                && emitted == old(emitted) + [NotStarted, Downloading(0.0)]
                && task == Some(Transfer(old(nextTaskId), url)) && nextTaskId == old(nextTaskId) + 1
      ensures unchanged(fileManager)
    {
      CancelDownload();
      currentVideoId := Some(videoId);
      if VideoExists(videoId) {
        Send(Completed);
        return;
      }
      Send(Downloading(0.0));
      task := Some(Transfer(nextTaskId, url));
      nextTaskId := nextTaskId + 1;
    }

    method DidWriteData(progress: real)
      requires Valid()
      modifies this`state, this`emitted
      ensures Valid()
      ensures emitted == old(emitted) + [Downloading(progress)]
    {
      Send(Downloading(progress));
    }

    /** `didFinishDownloadingTo location`; with no current video it returns without a trace. */
    method DidFinishDownloading(location: string, removeFault: Option<string>, moveFault: Option<string>)
      requires Valid()
      modifies this, fileManager
      ensures Valid()
      ensures currentVideoId == old(currentVideoId)
      ensures cancelled == old(cancelled) && nextTaskId == old(nextTaskId)
      ensures fileManager.documentDirectories == old(fileManager.documentDirectories)
      ensures old(currentVideoId).None? ==> unchanged(this) && unchanged(fileManager)
      ensures old(currentVideoId).Some? && old(GetLocalURL(currentVideoId.value)).None? ==>
                && emitted == old(emitted) + [Failed(NoDestinationMessage)]
                && task == old(task) && unchanged(fileManager)
      ensures old(currentVideoId).Some? && old(GetLocalURL(currentVideoId.value)).Some? ==>
                var destination := old(GetLocalURL(currentVideoId.value)).value;
                var r := ReplaceOutcome(old(fileManager.paths), location, destination, removeFault, moveFault);
                && task == None
                && fileManager.paths == r.paths
                && fileManager.removeCalls == old(fileManager.removeCalls)
                     + (if destination in old(fileManager.paths) then [destination] else [])
                && emitted == old(emitted) + [if r.error.None? then Completed else Failed(r.error.value)]
      ensures old(currentVideoId).Some? && state == Completed ==>
                currentVideoId.Some? && VideoExists(currentVideoId.value)
    {
      if currentVideoId.None? {
        return;
      }
      var destinationURL := GetLocalURL(currentVideoId.value);
      if destinationURL.None? {
        Send(Failed(NoDestinationMessage));
        return;
      }
      var destination := destinationURL.value;
      var error: Option<string> := None;
      if fileManager.FileExists(destination) {
        error := fileManager.RemoveItem(destination, removeFault);
      }
      if error.None? {
        error := fileManager.MoveItem(location, destination, moveFault);
      }
      if error.None? {
        Send(Completed);
      } else {
        Send(Failed(error.value));
      }
      task := None;
    }

    method DidCompleteWithError(error: Option<string>)
      requires Valid()
      modifies this
      ensures Valid()
      ensures error.None? ==> unchanged(this)
      ensures error.Some? ==>
                && emitted == old(emitted) + [Failed(error.value)]
                && task == None && currentVideoId == old(currentVideoId)
                && cancelled == old(cancelled) && nextTaskId == old(nextTaskId)
    {
      if error.None? {
        return;
      }
      Send(Failed(error.value));
      task := None;
    }
  }
}
