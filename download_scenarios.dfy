/**
 * Runs of the current download manager: the situations its unit tests set
 * up, and whole flows (a full download, a cancel, switching videos, stale
 * callbacks of a cancelled transfer, a delete after a download). Each builds its own
 * stores and manager; a subscriber that attaches to the returned publisher
 * sees the subject's current value and then every later send.
 */
module DownloadScenarios {
  import opened Wrappers
  import opened Storage
  import opened Downloads
  import opened DownloadSlot

  const Documents := "/mock/documents"
  const VideoId := "test_video_123"
  const VideoPath := "/mock/documents/test_video_123.mp4"
  const RemoteURL := "https://example.com/video.mp4"
  const TemporaryFile := "/tmp/CFNetworkDownload_1.tmp"

  /** The test video's local URL under the mock documents directory. */
  lemma VideoPathIsLocal()
    ensures LocalPath([Documents], VideoId) == Some(VideoPath)
  {
    assert Documents + "/" + VideoId + VideoExtension == VideoPath;
  }

  /** The local URL is the documents directory plus "<id>.mp4", and none without a documents directory. */
  method LocalURLScenario() returns (withDirectory: Option<string>, withoutDirectory: Option<string>)
    ensures withDirectory == Some(VideoPath)
    ensures withoutDirectory == None
  {
    VideoPathIsLocal();
    var store := new FileSystem([Documents], {});
    var manager := new DownloadManager(store, store);
    withDirectory := manager.GetLocalURL(VideoId);
    var bare := new FileSystem([], {VideoPath});
    var managerWithoutDirectory := new DownloadManager(bare, bare);
    withoutDirectory := managerWithoutDirectory.GetLocalURL(VideoId);
  }

  /** `videoExists` looks for exactly "<id>.mp4" in the documents directory. */
  method VideoExistsScenario() returns (present: bool, absent: bool, otherVideo: bool)
    ensures present && !absent && !otherVideo
  {
    VideoPathIsLocal();
    var stocked := new FileSystem([Documents], {VideoPath});
    var manager := new DownloadManager(stocked, stocked);
    present := manager.VideoExists(VideoId);
    LocalPathInjective([Documents], VideoId, "test_video_124");
    otherVideo := manager.VideoExists("test_video_124");
    var empty := new FileSystem([Documents], {});
    var emptyManager := new DownloadManager(empty, empty);
    absent := emptyManager.VideoExists(VideoId);
  }

  /** Deleting a stored video removes exactly its file and yields `notStarted`. */
  method DeleteExistingScenario() returns (result: DownloadState, removeCalls: seq<string>, stillStored: bool)
    ensures result == NotStarted
    ensures removeCalls == [VideoPath] && !stillStored
  {
    VideoPathIsLocal();
    var store := new FileSystem([Documents], {VideoPath, "/mock/documents/other.mp4"});
    var manager := new DownloadManager(store, store);
    result := manager.DeleteDownloadedVideo(VideoId, None);
    removeCalls := store.removeCalls;
    stillStored := manager.VideoExists(VideoId);
  }

  /** Deleting a video that is not stored fails with the deletion kind and never calls `removeItem`. */
  method DeleteMissingScenario() returns (result: DownloadState, removeCalls: seq<string>)
    ensures result.Failed? && result.kind == Deletion
    ensures removeCalls == []
  {
    var store := new FileSystem([Documents], {});
    var manager := new DownloadManager(store, store);
    result := manager.DeleteDownloadedVideo(VideoId, None);
    removeCalls := store.removeCalls;
  }

  /** When `removeItem` throws, the deletion fails with its message and the file stays. */
  method DeleteRefusedScenario() returns (result: DownloadState, removeCalls: seq<string>, stillStored: bool)
    ensures result == Failed(DeleteErrorPrefix + "Mock error removing item", Deletion)
    ensures removeCalls == [VideoPath] && stillStored
  {
    VideoPathIsLocal();
    var store := new FileSystem([Documents], {VideoPath});
    var manager := new DownloadManager(store, store);
    result := manager.DeleteDownloadedVideo(VideoId, Some("Mock error removing item"));
    removeCalls := store.removeCalls;
    stillStored := manager.VideoExists(VideoId);
  }

  /** Playback uses the local file when it exists and the fallback, unchanged, otherwise. */
  method PlaybackURLScenario() returns (local: Option<string>, remote: Option<string>)
    ensures local == Some(VideoPath)
    ensures remote == Some(RemoteURL)
  {
    VideoPathIsLocal();
    var stocked := new FileSystem([Documents], {VideoPath});
    var manager := new DownloadManager(stocked, stocked);
    local := manager.GetPlaybackURL(VideoId, Some(RemoteURL));
    var empty := new FileSystem([Documents], {});
    var emptyManager := new DownloadManager(empty, empty);
    remote := emptyManager.GetPlaybackURL(VideoId, Some(RemoteURL));
  }

  /** Downloading a stored video cancels first, then completes at once without a transfer. */
  method DownloadExistingScenario() returns (emitted: seq<DownloadState>, seen: seq<DownloadState>, started: bool)
    ensures emitted == [NotStarted, Completed]
    ensures seen == [Completed] && !started
  {
    VideoPathIsLocal();
    var store := new FileSystem([Documents], {VideoPath});
    var manager := new DownloadManager(store, store);
    manager.DownloadVideo(VideoId, RemoteURL);
    emitted := manager.emitted;
    seen := [manager.state];
    started := manager.task.Some?;
  }

  /** Cancelling a running download publishes `notStarted` and forgets the task and the video. */
  method CancelScenario() returns (seen: seq<DownloadState>, videoId: Option<string>, cancelled: set<nat>)
    ensures seen == [Downloading(0.0), NotStarted]
    ensures seen[0].IsDownloading() && videoId == None
    ensures cancelled == {0}
  {
    var store := new FileSystem([Documents], {});
    var manager := new DownloadManager(store, store);
    manager.DownloadVideo(VideoId, RemoteURL);
    var attached := |manager.emitted|;
    var first := manager.state;
    manager.CancelDownload();
    seen := [first] + manager.emitted[attached..];
    videoId := manager.currentVideoId;
    cancelled := manager.cancelled;
  }

  /** Cancelling with nothing running still publishes `notStarted`. */
  method CancelIdleScenario() returns (emitted: seq<DownloadState>)
    ensures emitted == [NotStarted, NotStarted]
  {
    var store := new FileSystem([Documents], {});
    var manager := new DownloadManager(store, store);
    manager.CancelDownload();
    manager.CancelDownload();
    emitted := manager.emitted;
  }

  /**
   * A full download, wired as in production (the injected store is
   * `FileManager.default`): progress, the move into place, completion; the
   * video then plays from its local file.
   */
  method DownloadToCompletionScenario() returns (seen: seq<DownloadState>, stored: bool, playback: Option<string>, temporaryLeft: bool)
    ensures seen == [Downloading(0.0), Downloading(0.4), Completed]
    ensures stored && playback == Some(VideoPath) && !temporaryLeft
  {
    VideoPathIsLocal();
    var store := new FileSystem([Documents], {});
    var manager := new DownloadManager(store, store);
    manager.DownloadVideo(VideoId, RemoteURL);
    var attached := |manager.emitted|;
    var first := manager.state;
    manager.DidWriteData(0.4);
    store.paths := store.paths + {TemporaryFile};
    manager.DidFinishDownloading(TemporaryFile, None, None);
    manager.DidCompleteWithError(None);
    seen := [first] + manager.emitted[attached..];
    stored := manager.VideoExists(VideoId);
    playback := manager.GetPlaybackURL(VideoId, Some(RemoteURL));
    temporaryLeft := TemporaryFile in store.paths;
  }

  /** A stale file under the video's name is replaced by the new download. */
  method ReplaceStaleFileScenario() returns (seen: seq<DownloadState>, removeCalls: seq<string>, paths: set<string>)
    ensures seen == [Downloading(0.0), Completed]
    ensures removeCalls == [VideoPath] && paths == {VideoPath}
  {
    VideoPathIsLocal();
    var store := new FileSystem([Documents], {});
    var manager := new DownloadManager(store, store);
    manager.DownloadVideo(VideoId, RemoteURL);
    var attached := |manager.emitted|;
    var first := manager.state;
    store.paths := store.paths + {VideoPath, TemporaryFile};
    manager.DidFinishDownloading(TemporaryFile, None, None);
    seen := [first] + manager.emitted[attached..];
    removeCalls := store.removeCalls;
    paths := store.paths;
  }

  /** A transfer error fails the download with the download kind and clears the task, keeping the video id. */
  method TransferErrorScenario() returns (seen: seq<DownloadState>, running: bool, videoId: Option<string>, stored: bool)
    ensures seen == [Downloading(0.0), Failed("The network connection was lost.", Download)]
    ensures !running && videoId == Some(VideoId) && !stored
  {
    var store := new FileSystem([Documents], {});
    var manager := new DownloadManager(store, store);
    manager.DownloadVideo(VideoId, RemoteURL);
    var attached := |manager.emitted|;
    var first := manager.state;
    manager.DidCompleteWithError(Some("The network connection was lost."));
    seen := [first] + manager.emitted[attached..];
    running := manager.task.Some?;
    videoId := manager.currentVideoId;
    stored := manager.VideoExists(VideoId);
  }

  /**
   * When the move fails after the stale file was removed, the download
   * fails and the video is no longer stored at all. The callback does not
   * touch the temporary file (`URLSession` deletes it once the callback returns).
   */
  method MoveRefusedScenario() returns (last: DownloadState, stored: bool, temporaryUntouched: bool)
    ensures last == Failed("Disk full", Download)
    ensures !stored && temporaryUntouched
  {
    var store := new FileSystem([Documents], {});
    var manager := new DownloadManager(store, store);
    manager.DownloadVideo(VideoId, RemoteURL);
    store.paths := store.paths + {VideoPath, TemporaryFile};
    manager.DidFinishDownloading(TemporaryFile, None, Some("Disk full"));
    last := manager.state;
    stored := manager.VideoExists(VideoId);
    temporaryUntouched := TemporaryFile in store.paths;
  }

  /** Starting another video cancels the running transfer before the new one starts. */
  method SwitchVideoScenario() returns (emitted: seq<DownloadState>, cancelled: set<nat>, task: Option<Transfer>, videoId: Option<string>)
    ensures emitted == [NotStarted, Downloading(0.0), NotStarted, Downloading(0.0)]
    ensures cancelled == {0} && task == Some(Transfer(1, "http://x/v2.mp4"))
    ensures videoId == Some("v2")
  {
    var store := new FileSystem([Documents], {});
    var manager := new DownloadManager(store, store);
    manager.DownloadVideo("v1", "http://x/v1.mp4");
    manager.DownloadVideo("v2", "http://x/v2.mp4");
    emitted := manager.emitted;
    cancelled := manager.cancelled;
    task := manager.task;
    videoId := manager.currentVideoId;
  }

  /** Asking again for the video being downloaded restarts its transfer. */
  method SameVideoRestartScenario() returns (emitted: seq<DownloadState>, cancelled: set<nat>, task: Option<Transfer>)
    ensures emitted == [NotStarted, Downloading(0.0), NotStarted, Downloading(0.0)]
    ensures cancelled == {0} && task == Some(Transfer(1, RemoteURL))
  {
    var store := new FileSystem([Documents], {});
    var manager := new DownloadManager(store, store);
    manager.DownloadVideo(VideoId, RemoteURL);
    manager.DownloadVideo(VideoId, RemoteURL);
    emitted := manager.emitted;
    cancelled := manager.cancelled;
    task := manager.task;
  }

  /**
   * The callbacks do not look at which task they come from: progress of a
   * cancelled transfer is still published, and its finish, arriving with no
   * current video, publishes a failure.
   */
  method StaleCallbacksScenario() returns (emitted: seq<DownloadState>, running: bool)
    ensures emitted == [NotStarted, Downloading(0.0), NotStarted, Downloading(0.7), Failed(MissingIdMessage, Download)]
    ensures !running
  {
    var store := new FileSystem([Documents], {});
    var manager := new DownloadManager(store, store);
    manager.DownloadVideo(VideoId, RemoteURL);
    manager.CancelDownload();
    manager.DidWriteData(0.7);
    store.paths := store.paths + {TemporaryFile};
    manager.DidFinishDownloading(TemporaryFile, None, None);
    emitted := manager.emitted;
    running := manager.task.Some?;
  }

  /**
   * Deletion answers on its own one-shot publisher: after a completed
   * download is deleted, the shared subject still holds `completed`
   * although the file is gone.
   */
  method DeleteAfterDownloadScenario() returns (result: DownloadState, subject: DownloadState, stored: bool)
    ensures result == NotStarted
    ensures subject == Completed && !stored
  {
    var store := new FileSystem([Documents], {});
    var manager := new DownloadManager(store, store);
    manager.DownloadVideo(VideoId, RemoteURL);
    store.paths := store.paths + {TemporaryFile};
    manager.DidFinishDownloading(TemporaryFile, None, None);
    result := manager.DeleteDownloadedVideo(VideoId, None);
    subject := manager.state;
    stored := manager.VideoExists(VideoId);
  }

  /**
   * With an injected store that is not `FileManager.default`, the finished
   * download is moved into the default store: `completed` is published,
   * yet the injected store the queries consult never receives the file.
   */
  method InjectedStoreScenario() returns (last: DownloadState, stored: bool, inDefault: bool)
    ensures last == Completed
    ensures !stored && inDefault
  {
    VideoPathIsLocal();
    var injected := new FileSystem([Documents], {});
    var default := new FileSystem([Documents], {TemporaryFile});
    var manager := new DownloadManager(injected, default);
    manager.DownloadVideo(VideoId, RemoteURL);
    manager.DidFinishDownloading(TemporaryFile, None, None);
    last := manager.state;
    stored := manager.VideoExists(VideoId);
    inDefault := VideoPath in default.paths;
  }

  /**
   * The cancelled transfer's completion, which arrives with a cancellation
   * error, is published as a download failure and empties the task slot
   * although the new transfer is running: a later cancel then has nothing
   * to cancel, and the new transfer is neither held nor stopped.
   */
  method CancelledCompletionScenario() returns (afterCompletion: DownloadState, task: Option<Transfer>, cancelled: set<nat>, last: DownloadState)
    ensures afterCompletion == Failed("cancelled", Download)
    ensures task == None && cancelled == {0}
    ensures last == NotStarted
  {
    var store := new FileSystem([Documents], {});
    var manager := new DownloadManager(store, store);
    manager.DownloadVideo("v1", "http://x/v1.mp4");
    manager.DownloadVideo("v2", "http://x/v2.mp4");
    manager.DidCompleteWithError(Some("cancelled"));
    afterCompletion := manager.state;
    manager.CancelDownload();
    task := manager.task;
    cancelled := manager.cancelled;
    last := manager.state;
  }

  /**
   * A finish that arrives late from a cancelled transfer lands under the
   * current video's name: when that video was already stored, its file is
   * removed and replaced by the other video's download, and `completed` is
   * published.
   */
  method LateFinishScenario() returns (last: DownloadState, removeCalls: seq<string>, paths: set<string>)
    ensures last == Completed
    ensures removeCalls == [VideoPath] && paths == {VideoPath}
  {
    VideoPathIsLocal();
    var store := new FileSystem([Documents], {});
    var manager := new DownloadManager(store, store);
    manager.DownloadVideo("other_video", RemoteURL);
    store.paths := store.paths + {VideoPath};
    manager.DownloadVideo(VideoId, RemoteURL);
    store.paths := store.paths + {TemporaryFile};
    manager.DidFinishDownloading(TemporaryFile, None, None);
    last := manager.state;
    removeCalls := store.removeCalls;
    paths := store.paths;
  }
}
