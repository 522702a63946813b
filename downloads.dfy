/**
 * The current download manager (the one built with an injected
 * `FileManagerProtocol`): a single download slot whose state is published on
 * a `CurrentValueSubject`, plus queries over the stored videos and a delete.
 *
 * Each public operation and each `URLSessionDownloadDelegate` callback is
 * one atomic step; a `DispatchQueue.main.async` hop is taken to run at once.
 * Publishing a state appends it to `emitted`; `state` is the subject's
 * current value.
 */
module Downloads {
  import opened Wrappers
  import opened Storage
  import opened DownloadSlot

  datatype FailureType = Download | Deletion

  datatype DownloadState =
    | NotStarted
    | Downloading(progress: real)
    | Completed
    | Failed(error: string, kind: FailureType)
  {
    /** The progress shown for this state; a downloading state carries its own, uncapped. */
    function Progress(): (p: real)
    {
      match this
      case Downloading(p) => p
      case Completed => 1.0
      case _ => 0.0
    }

    predicate IsDownloading()
    {
      Downloading?
    }

    predicate HasCompleted()
    {
      Completed?
    }
  }

  /** The three projections agree with the case of the state they are taken of. */
  lemma ProjectionsFollowCase(s: DownloadState)
    ensures s.IsDownloading() <==> s.Downloading?
    ensures s.HasCompleted() <==> s == Completed
    ensures s.Downloading? ==> s.Progress() == s.progress
    ensures !s.Downloading? ==> (s.Progress() == 1.0 <==> s.HasCompleted())
    ensures !s.Downloading? && !s.HasCompleted() ==> s.Progress() == 0.0
  {
  }

  const MissingVideoMessage := "The downloaded video could not be found"
  const DeleteErrorPrefix := "Could not delete the video: "
  const MissingIdMessage := "Internal error: Missing video ID"
  const NoStorageLocationMessage := "Could not create storage location for the video"

  class DownloadManager {
    /** The value `downloadStateSubject` holds. */
    var state: DownloadState
    /** Every state sent on `downloadStateSubject`, oldest first. */
    var emitted: seq<DownloadState>
    /** `downloadTask`. */
    var task: Option<Transfer>
    /** The identity the next task created will get. */
    var nextTaskId: nat
    /** The identities of the tasks `cancel()` was called on. */
    var cancelled: set<nat>
    var currentVideoId: Option<string>
    /** The injected file manager. */
    const fileManager: FileSystem
    /** `FileManager.default`, which the finish callback uses instead of `fileManager`. */
    const defaultFileManager: FileSystem

    ghost predicate Valid()
      reads this
    {
      && state == CurrentValue(emitted, NotStarted)
      && SlotConsistent(task, currentVideoId.Some?, nextTaskId, cancelled)
    }

    constructor (fileManager: FileSystem, defaultFileManager: FileSystem)
      ensures Valid()
      ensures this.fileManager == fileManager && this.defaultFileManager == defaultFileManager
      ensures state == NotStarted && emitted == []
      ensures task == None && currentVideoId == None && cancelled == {} && nextTaskId == 0
    {
      this.fileManager := fileManager;
      this.defaultFileManager := defaultFileManager;
      state := NotStarted;
      emitted := [];
      task := None;
      nextTaskId := 0;
      cancelled := {};
      currentVideoId := None;
    }

    /** `downloadStateSubject.send(s)`. */
    method Send(s: DownloadState)
      requires Valid()
      modifies this`state, this`emitted
      ensures Valid()
      ensures state == s && emitted == old(emitted) + [s]
    {
      state := s;
      emitted := emitted + [s];
    }

    /** `getLocalURL`: none exactly when the file manager lists no documents directory. */
    function GetLocalURL(videoId: string): (r: Option<string>)
      reads fileManager
      ensures r.None? <==> fileManager.documentDirectories == []
    {
      LocalPath(fileManager.documentDirectories, videoId)
    }

    /** A video exists when it has a local URL and the injected store holds an item there. */
    predicate VideoExists(videoId: string)
      reads fileManager
      ensures VideoExists(videoId) ==> GetLocalURL(videoId).Some?
      ensures VideoExists(videoId) ==> LocalPath(fileManager.documentDirectories, videoId).value in fileManager.paths
    {
      var localURL := GetLocalURL(videoId);
      localURL.Some? && fileManager.FileExists(localURL.value)
    }

    /**
     * The URL to play: the local file when the video exists, otherwise the
     * fallback (the caller's `URL(string: fallbackUrl)`), unchanged.
     */
    function GetPlaybackURL(videoId: string, fallback: Option<string>): (r: Option<string>)
      reads fileManager
      ensures VideoExists(videoId) ==> r.Some? && r == LocalPath(fileManager.documentDirectories, videoId)
      ensures !VideoExists(videoId) ==> r == fallback
    {
      if VideoExists(videoId) && GetLocalURL(videoId).Some? then GetLocalURL(videoId) else fallback
    }

    method CancelDownload()
      requires Valid()
      modifies this
      ensures Valid()
      ensures task == None && currentVideoId == None
      ensures emitted == old(emitted) + [NotStarted]
      ensures cancelled == old(cancelled) + TaskIds(old(task)) && nextTaskId == old(nextTaskId)
      ensures unchanged(fileManager) && unchanged(defaultFileManager)
    {
      if task.Some? {
        cancelled := cancelled + {task.value.id};
      }
      task := None;
      currentVideoId := None;
      Send(NotStarted);
    }

    method DownloadVideo(videoId: string, url: string)
      requires Valid()
      modifies this
      ensures Valid()
      ensures currentVideoId == Some(videoId)
      ensures cancelled == old(cancelled) + TaskIds(old(task))
      ensures VideoExists(videoId) ==>
                && emitted == old(emitted) + [NotStarted, Completed]
                && task == None && nextTaskId == old(nextTaskId)
      ensures !VideoExists(videoId) ==>
                && emitted == old(emitted) + [NotStarted, Downloading(0.0)]
                && task == Some(Transfer(old(nextTaskId), url)) && nextTaskId == old(nextTaskId) + 1
      ensures unchanged(fileManager) && unchanged(defaultFileManager)
    {
      CancelDownload();
      currentVideoId := Some(videoId);
      if VideoExists(videoId) {
        Send(Completed);
        return;
      }
      Send(Downloading(0.0));
      task := Some(Transfer(nextTaskId, url));
      nextTaskId := nextTaskId + 1;
    }

    /**
     * Deletes the stored file of `videoId` and returns the one state the
     * returned `Just` publisher yields; the shared subject, the task and the
     * current id are left alone. `fault` is the error `removeItem` throws, if any.
     */
    method DeleteDownloadedVideo(videoId: string, fault: Option<string>) returns (result: DownloadState)
      modifies fileManager
      ensures unchanged(this)
      ensures fileManager.documentDirectories == old(fileManager.documentDirectories)
      ensures !old(VideoExists(videoId)) ==>
                && result == Failed(MissingVideoMessage, Deletion)
                && fileManager.paths == old(fileManager.paths)
                && fileManager.removeCalls == old(fileManager.removeCalls)
      ensures old(VideoExists(videoId)) ==>
                var path := GetLocalURL(videoId).value;
                && fileManager.removeCalls == old(fileManager.removeCalls) + [path]
                && (fault.None? ==> result == NotStarted && fileManager.paths == old(fileManager.paths) - {path})
                && (fault.Some? ==> result == Failed(DeleteErrorPrefix + fault.value, Deletion)
                                    && fileManager.paths == old(fileManager.paths))
      ensures forall other :: other != videoId ==> (VideoExists(other) <==> old(VideoExists(other)))
    {
      var localURL := GetLocalURL(videoId);
      if localURL.None? || !fileManager.FileExists(localURL.value) {
        return Failed(MissingVideoMessage, Deletion);
      }
      var error := fileManager.RemoveItem(localURL.value, fault);
      forall other | other != videoId
        ensures VideoExists(other) <==> old(VideoExists(other))
      {
        LocalPathInjective(fileManager.documentDirectories, videoId, other);
      }
      if error.None? {
        result := NotStarted;
      } else {
        result := Failed(DeleteErrorPrefix + error.value, Deletion);
      }
    }

    /** `didWriteData`: `progress` stands for the ratio of bytes written to bytes expected. */
    method DidWriteData(progress: real)
      requires Valid()
      modifies this`state, this`emitted
      ensures Valid()
      ensures emitted == old(emitted) + [Downloading(progress)]
    {
      Send(Downloading(progress));
    }

    /**
     * `didFinishDownloadingTo location`: moves the temporary file into the
     * current video's local URL in `FileManager.default`, replacing a stale
     * item, and publishes the outcome. `removeFault` and `moveFault` are the
     * errors `removeItem` and `moveItem` throw, if any.
     */
    method DidFinishDownloading(location: string, removeFault: Option<string>, moveFault: Option<string>)
      requires Valid()
      modifies this, defaultFileManager
      ensures Valid()
      ensures currentVideoId == old(currentVideoId)
      ensures cancelled == old(cancelled) && nextTaskId == old(nextTaskId)
      ensures defaultFileManager.documentDirectories == old(defaultFileManager.documentDirectories)
      ensures fileManager != defaultFileManager ==> unchanged(fileManager)
      ensures old(currentVideoId).None? ==>
                && emitted == old(emitted) + [Failed(MissingIdMessage, Download)]
                && task == old(task) && unchanged(defaultFileManager)
      ensures old(currentVideoId).Some? && old(GetLocalURL(currentVideoId.value)).None? ==>
                && emitted == old(emitted) + [Failed(NoStorageLocationMessage, Download)]
                && task == old(task) && unchanged(defaultFileManager)
      ensures old(currentVideoId).Some? && old(GetLocalURL(currentVideoId.value)).Some? ==>
                var destination := old(GetLocalURL(currentVideoId.value)).value;
                var r := ReplaceOutcome(old(defaultFileManager.paths), location, destination, removeFault, moveFault);
                && task == None
                && defaultFileManager.paths == r.paths
                && defaultFileManager.removeCalls == old(defaultFileManager.removeCalls)
                     + (if destination in old(defaultFileManager.paths) then [destination] else [])
                && emitted == old(emitted) + [if r.error.None? then Completed else Failed(r.error.value, Download)]
      ensures state == Completed && fileManager == defaultFileManager ==>
                currentVideoId.Some? && VideoExists(currentVideoId.value)
    {
      if currentVideoId.None? {
        Send(Failed(MissingIdMessage, Download));
        return;
      }
      var destinationURL := GetLocalURL(currentVideoId.value);
      if destinationURL.None? {
        Send(Failed(NoStorageLocationMessage, Download));
        return;
      }
      var destination := destinationURL.value;
      var error: Option<string> := None;
      if defaultFileManager.FileExists(destination) {
        error := defaultFileManager.RemoveItem(destination, removeFault);
      }
      if error.None? {
        error := defaultFileManager.MoveItem(location, destination, moveFault);
      }
      if error.None? {
        Send(Completed);
      } else {
        Send(Failed(error.value, Download));
      }
      task := None;
    }

    /** `didCompleteWithError`: a transfer error fails the download; no error changes nothing. */
    method DidCompleteWithError(error: Option<string>)
      requires Valid()
      modifies this
      ensures Valid()
      ensures error.None? ==> unchanged(this)
      ensures error.Some? ==>
                && emitted == old(emitted) + [Failed(error.value, Download)]
                && task == None && currentVideoId == old(currentVideoId)
                && cancelled == old(cancelled) && nextTaskId == old(nextTaskId)
    {
      if error.None? {
        return;
      }
      Send(Failed(error.value, Download));
      task := None;
    }
  }
}
