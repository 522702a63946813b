/**
 * Runs of the earlier download manager, which keeps everything in
 * `FileManager.default`; they show where it differs from the current one.
 */
module LegacyScenarios {
  import opened Wrappers
  import opened Storage
  import opened LegacyDownloads

  import opened DownloadSlot
  import Tests = DownloadScenarios

  const Documents := Tests.Documents
  const VideoId := Tests.VideoId
  const VideoPath := Tests.VideoPath
  const RemoteURL := Tests.RemoteURL
  const TemporaryFile := Tests.TemporaryFile

  /** Downloading, progressing and finishing stores the video and publishes `completed`. */
  method DownloadToCompletionScenario() returns (seen: seq<DownloadState>, stored: bool, playback: Option<string>)
    ensures seen == [Downloading(0.0), Downloading(0.5), Completed]
    ensures stored && playback == Some(VideoPath)
  {
    Tests.VideoPathIsLocal();
    var store := new FileSystem([Documents], {});
    var manager := new DownloadManager(store);
    manager.DownloadVideo(VideoId, RemoteURL);
    var attached := |manager.emitted|;
    var first := manager.state;
    manager.DidWriteData(0.5);
    store.paths := store.paths + {TemporaryFile};
    manager.DidFinishDownloading(TemporaryFile, None, None);
    manager.DidCompleteWithError(None);
    seen := [first] + manager.emitted[attached..];
    stored := manager.VideoExists(VideoId);
    playback := manager.GetPlaybackURL(VideoId, Some(RemoteURL));
  }

  /** Downloading a stored video publishes `notStarted` then `completed` and starts no transfer. */
  method DownloadExistingScenario() returns (emitted: seq<DownloadState>, started: bool)
    ensures emitted == [NotStarted, Completed] && !started
  {
    Tests.VideoPathIsLocal();
    var store := new FileSystem([Documents], {VideoPath});
    var manager := new DownloadManager(store);
    manager.DownloadVideo(VideoId, RemoteURL);
    emitted := manager.emitted;
    started := manager.task.Some?;
  }

  /**
   * A finish that arrives after a cancel, with no current video, is dropped
   * without a word: nothing is published and the callback does not touch
   * the temporary file.
   */
  method FinishWithoutVideoScenario() returns (emitted: seq<DownloadState>, temporaryUntouched: bool, stored: bool)
    ensures emitted == [NotStarted, Downloading(0.0), NotStarted]
    ensures temporaryUntouched && !stored
  {
    Tests.VideoPathIsLocal();
    var store := new FileSystem([Documents], {});
    var manager := new DownloadManager(store);
    manager.DownloadVideo(VideoId, RemoteURL);
    manager.CancelDownload();
    store.paths := store.paths + {TemporaryFile};
    manager.DidFinishDownloading(TemporaryFile, None, None);
    emitted := manager.emitted;
    temporaryUntouched := TemporaryFile in store.paths;
    stored := manager.VideoExists(VideoId);
  }

  /** Without a documents directory the finish fails, and the task is left in place. */
  method NoDocumentsDirectoryScenario() returns (last: DownloadState, task: Option<Transfer>)
    ensures last == Failed(NoDestinationMessage)
    ensures task == Some(Transfer(0, RemoteURL))
  {
    var store := new FileSystem([], {TemporaryFile});
    var manager := new DownloadManager(store);
    manager.DownloadVideo(VideoId, RemoteURL);
    manager.DidFinishDownloading(TemporaryFile, None, None);
    last := manager.state;
    task := manager.task;
  }

  /** A transfer error publishes its message and clears the task. */
  method TransferErrorScenario() returns (last: DownloadState, running: bool, videoId: Option<string>)
    ensures last == Failed("The request timed out.")
    ensures !running && videoId == Some(VideoId)
  {
    var store := new FileSystem([Documents], {});
    var manager := new DownloadManager(store);
    manager.DownloadVideo(VideoId, RemoteURL);
    manager.DidCompleteWithError(Some("The request timed out."));
    last := manager.state;
    running := manager.task.Some?;
    videoId := manager.currentVideoId;
  }
}
