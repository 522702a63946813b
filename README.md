# Download manager model

A Dafny model of the download manager of an iOS video app: the single-slot
orchestrator that downloads one video at a time into the app's documents
directory, publishes the download's progress as a stream of states, says
whether a video is stored, picks the URL to play (local file or remote
fallback), and deletes a stored video.

Two versions of the manager exist in the repository, and both are modelled:

- `Downloads` models `KlutchShotsChallenge/Utils/Dependencies/DownloadManager.swift`,
  the current manager. It takes an injected file manager, can delete a
  stored video, and tags failures with a kind (download or deletion).
- `LegacyDownloads` models `KlutchShotsChallenge/Utils/DownloadManager.swift`,
  the earlier manager. It uses `FileManager.default` for everything, has no
  delete, and its failure carries only a message.

The task slot both managers share (task identities, the cancelled set, the
subject's current value) lives in `DownloadSlot`. Shared file pieces live in `Storage`: the file store (a `FileSystem` class standing
for `FileManagerProtocol`), the mapping from a video id to its local path,
and pure descriptions of what `removeItem`, `moveItem` and the finish
callback's remove-then-move sequence do to the set of stored paths.

Each manager is a class whose fields are the state the Swift class keeps:

- `state`, the value held by `downloadStateSubject`;
- `emitted`, every state sent on it, in order;
- `task`, standing for `downloadTask`;
- `currentVideoId`;
- the file store(s).

`FileSystem.FileExists` (`fileExists(atPath:)`) is a helper with no row.

The public operations and the three `URLSessionDownloadDelegate` callbacks
are methods. Each is one atomic step, and each one's contract states the new
state outright. The queries are functions. `Valid()` is the invariant every
operation keeps:

- the subject's value is the last state sent, or `notStarted` before any send;
- a live task always has a current video;
- a live task is never one that was cancelled.

The failures that depend on the environment are parameters chosen by the
caller:

- a transfer error;
- a `removeItem` or `moveItem` that throws;
- the progress fraction.

`DownloadScenarios` and `LegacyScenarios` run the managers through the
situations of `DownloadManagerTests.swift` and through whole flows:

- a download to completion;
- a cancel;
- switching videos;
- stale callbacks of a cancelled transfer;
- a delete after a download.

Each scenario states the exact states a subscriber sees. A subscriber
attaching to the `CurrentValueSubject` gets its current value and then every
later send.

## Behaviour worth knowing

The model reproduces these behaviours of the code as they are:

- `cancelDownload` publishes `notStarted` every time, even with no running
  download (`CancelIdleScenario`).
- `downloadVideo` cancels before it checks for a stored copy. A stored video
  therefore publishes `notStarted` before `completed`.
- Asking again for the video that is downloading cancels and restarts its
  transfer (`SameVideoRestartScenario`).
- `deleteDownloadedVideo` answers on a one-shot publisher and never touches
  the shared subject. After deleting a completed download, the subject still
  holds `completed` although the file is gone (`DeleteAfterDownloadScenario`).
- The callbacks ignore which task they come from. Progress and finish events
  of a cancelled transfer are still published (`StaleCallbacksScenario`).
- Progress is published as reported. Nothing checks that it stays in [0, 1]
  or that it never decreases within one transfer.
- Cancelling a transfer makes `URLSession` report its completion with a
  cancellation error, which is published as a download failure and empties
  the task slot. After switching videos, the old transfer's completion thus
  drops the new transfer: a later `cancelDownload` cannot stop it
  (`CancelledCompletionScenario`).
- A late finish of a cancelled transfer is saved under the current video's
  name. If that video was already stored, its file is removed and replaced by
  the other video's download, and `completed` is published
  (`LateFinishScenario`).
- A failed move after a successful removal of the stale file leaves the video
  not stored at all. The old copy is lost (`MoveRefusedScenario`).
- When no documents directory resolves, the finish callback publishes a
  failure but does not clear the task.
- In the current manager, the finish callback moves files in
  `FileManager.default`, while every query and the delete use the injected
  file manager. The two are the same object in the app, because the
  dependencies build `DownloadManager()` with the default. They differ under
  the unit tests' mock. The model keeps both references
  (`fileManager`, `defaultFileManager`), so they may or may not alias. With
  distinct stores, `completed` is published while `videoExists` stays false
  (`InjectedStoreScenario`).
- In the earlier manager, a finish with no current video returns without
  publishing anything (`FinishWithoutVideoScenario`). The current manager
  publishes a failure in that case.
- The unit tests' mock file manager answers `fileExists` without looking at
  the path. The model's store is a real set of paths.

## Model

| member | source | states |
|---|---|---|
| Storage.LocalPath | KlutchShotsChallenge/Utils/Dependencies/DownloadManager.swift:136-139 | the local URL is absent exactly when the documents-directory list is empty |
| Storage.LocalPathParts | KlutchShotsChallenge/Utils/Dependencies/DownloadManager.swift:136-139 | the local URL is the first documents directory, `/`, the video id and `.mp4`, in that order |
| Storage.LocalPathInjective | KlutchShotsChallenge/Utils/Dependencies/DownloadManager.swift:136-139 | two videos share a local URL only if they are the same video |
| Storage.RemoveOutcome | KlutchShotsChallenge/Utils/Dependencies/DownloadManager.swift:61-66 | `removeItem` succeeds exactly when the item is there and nothing refuses it; it then removes that item and nothing else, and on failure changes nothing |
| Storage.MoveOutcome | KlutchShotsChallenge/Utils/Dependencies/DownloadManager.swift:61-66 | `moveItem` succeeds exactly when the source is there, the destination is free and nothing refuses it; it then renames the source and changes nothing else; on failure it changes nothing |
| Storage.ReplaceOutcome | KlutchShotsChallenge/Utils/Dependencies/DownloadManager.swift:192-199 | removing a stale item then moving the temporary file succeeds exactly when the file is there, is not the destination, and neither call is refused; on success the destination holds the download and nothing else changed; on failure no file appears, the temporary file is not touched, and at most the stale item is lost |
| Storage.FileSystem.RemoveItem | KlutchShotsChallenge/Utils/Dependencies/DownloadManager.swift:64 | records the call on that path and updates the store as `RemoveOutcome` says |
| Storage.FileSystem.MoveItem | KlutchShotsChallenge/Utils/Dependencies/DownloadManager.swift:65 | updates the store as `MoveOutcome` says |
| Downloads.ProjectionsFollowCase | KlutchShotsChallenge/Utils/Dependencies/DownloadManager.swift:23-46 | `progress` is the carried value while downloading, 1 exactly when completed and 0 otherwise; `isDownloading` and `hasCompleted` hold exactly for their own case |
| Downloads.DownloadManager.constructor | KlutchShotsChallenge/Utils/Dependencies/DownloadManager.swift:73-87 | a new manager holds `notStarted`, no task, no current video, and keeps the injected file manager |
| Downloads.DownloadManager.GetLocalURL | KlutchShotsChallenge/Utils/Dependencies/DownloadManager.swift:136-139 | none exactly when the injected file manager lists no documents directory; otherwise the path `LocalPath` gives |
| Downloads.DownloadManager.Send | KlutchShotsChallenge/Utils/Dependencies/DownloadManager.swift:73 | `downloadStateSubject.send`: the subject holds the sent state and it is appended to the history |
| Downloads.DownloadManager.VideoExists | KlutchShotsChallenge/Utils/Dependencies/DownloadManager.swift:113-116 | a video exists only if it has a local URL and the injected store holds an item at that URL |
| Downloads.DownloadManager.GetPlaybackURL | KlutchShotsChallenge/Utils/Dependencies/DownloadManager.swift:125-134 | the local URL (never absent) when the video exists, otherwise the fallback unchanged |
| Downloads.DownloadManager.CancelDownload | KlutchShotsChallenge/Utils/Dependencies/DownloadManager.swift:118-123 | cancels the running task if any, clears the task and the current video, always publishes `notStarted`, leaves both stores alone |
| Downloads.DownloadManager.DownloadVideo | KlutchShotsChallenge/Utils/Dependencies/DownloadManager.swift:90-111 | cancels first (publishing `notStarted`), sets the current video; a stored video then publishes `completed` with no task, otherwise `downloading(0)` with exactly one new, never-cancelled task for the URL |
| Downloads.DownloadManager.DeleteDownloadedVideo | KlutchShotsChallenge/Utils/Dependencies/DownloadManager.swift:141-161 | a missing file (or no local URL) fails with the deletion kind without calling `removeItem`; otherwise `removeItem` is called once on that file, success yields `notStarted` and the file is gone, a refusal yields the deletion failure with its message; the subject, task and current video never change, nor does any other video's file |
| Downloads.DownloadManager.DidWriteData | KlutchShotsChallenge/Utils/Dependencies/DownloadManager.swift:166-174 | publishes `downloading` with the reported progress and changes nothing else |
| Downloads.DownloadManager.DidFinishDownloading | KlutchShotsChallenge/Utils/Dependencies/DownloadManager.swift:176-214 | no current video: publishes the missing-id failure; no local URL: publishes the storage-location failure, task kept; otherwise replaces the file in `FileManager.default` as `ReplaceOutcome` says, clears the task and publishes `completed` or the download failure; `completed` with an aliased store means the video now exists |
| Downloads.DownloadManager.DidCompleteWithError | KlutchShotsChallenge/Utils/Dependencies/DownloadManager.swift:216-229 | no error changes nothing; an error publishes the download failure with its message and clears the task |
| LegacyDownloads.ProjectionsFollowCase | KlutchShotsChallenge/Utils/DownloadManager.swift:17-40 | the same three projections, for the state whose failure carries only a message |
| LegacyDownloads.DownloadManager.constructor | KlutchShotsChallenge/Utils/DownloadManager.swift:55-63 | a new manager holds `notStarted`, no task and no current video |
| LegacyDownloads.DownloadManager.GetLocalURL | KlutchShotsChallenge/Utils/DownloadManager.swift:112-115 | none exactly when `FileManager.default` lists no documents directory; otherwise the path `LocalPath` gives |
| LegacyDownloads.DownloadManager.Send | KlutchShotsChallenge/Utils/DownloadManager.swift:57 | `downloadStateSubject.send`: the subject holds the sent state and it is appended to the history |
| LegacyDownloads.DownloadManager.VideoExists | KlutchShotsChallenge/Utils/DownloadManager.swift:89-92 | a video exists only if it has a local URL and `FileManager.default` holds an item there |
| LegacyDownloads.DownloadManager.GetPlaybackURL | KlutchShotsChallenge/Utils/DownloadManager.swift:101-110 | the local URL when the video exists, otherwise the fallback unchanged |
| LegacyDownloads.DownloadManager.CancelDownload | KlutchShotsChallenge/Utils/DownloadManager.swift:94-99 | cancels the running task if any, clears the task and current video, always publishes `notStarted` |
| LegacyDownloads.DownloadManager.DownloadVideo | KlutchShotsChallenge/Utils/DownloadManager.swift:66-87 | cancels first, sets the current video, then `completed` without a task when stored, else `downloading(0)` with one new task |
| LegacyDownloads.DownloadManager.DidWriteData | KlutchShotsChallenge/Utils/DownloadManager.swift:120-128 | publishes `downloading` with the reported progress |
| LegacyDownloads.DownloadManager.DidFinishDownloading | KlutchShotsChallenge/Utils/DownloadManager.swift:130-161 | no current video: returns changing nothing at all; no local URL: publishes a failure, task kept; otherwise replaces the file as `ReplaceOutcome` says, clears the task and publishes `completed` (the video then exists) or the failure |
| LegacyDownloads.DownloadManager.DidCompleteWithError | KlutchShotsChallenge/Utils/DownloadManager.swift:163-170 | no error changes nothing; an error publishes a failure with its message and clears the task |
| DownloadScenarios.VideoPathIsLocal | KlutchShotsChallengeTests/DownloadManagerTests.swift:59-68 | the test video's local URL is `/mock/documents/test_video_123.mp4` |
| DownloadScenarios.LocalURLScenario | KlutchShotsChallengeTests/DownloadManagerTests.swift:59-80 | the local URL under `/mock/documents`, and none without a documents directory |
| DownloadScenarios.VideoExistsScenario | KlutchShotsChallengeTests/DownloadManagerTests.swift:32-56 | true for the stored video, false when not stored, false for another id |
| DownloadScenarios.DeleteExistingScenario | KlutchShotsChallengeTests/DownloadManagerTests.swift:83-105 | delete yields `notStarted` after one `removeItem` on the video's own path, and the video is gone |
| DownloadScenarios.DeleteMissingScenario | KlutchShotsChallengeTests/DownloadManagerTests.swift:107-132 | delete of a missing video fails with the deletion kind and never calls `removeItem` |
| DownloadScenarios.DeleteRefusedScenario | KlutchShotsChallengeTests/DownloadManagerTests.swift:134-160 | a throwing `removeItem` gives the deletion failure with its message; the file stays |
| DownloadScenarios.PlaybackURLScenario | KlutchShotsChallengeTests/DownloadManagerTests.swift:163-187 | local path when stored, the fallback when not |
| DownloadScenarios.DownloadExistingScenario | KlutchShotsChallengeTests/DownloadManagerTests.swift:190-213 | a stored video publishes `notStarted` then `completed`, a subscriber sees `completed`, no transfer starts |
| DownloadScenarios.CancelScenario | KlutchShotsChallengeTests/DownloadManagerTests.swift:215-248 | a subscriber sees `downloading(0)` then `notStarted`; the current video is cleared and the task cancelled |
| DownloadScenarios.CancelIdleScenario | KlutchShotsChallenge/Utils/Dependencies/DownloadManager.swift:118-123 | cancelling with nothing running still publishes `notStarted` each time |
| DownloadScenarios.DownloadToCompletionScenario | KlutchShotsChallenge/Utils/Dependencies/DownloadManager.swift:90-229 | progress, finish and a nil completion error give `downloading(0)`, `downloading(0.4)`, `completed`; the video then plays from its local file and the temporary file has been moved |
| DownloadScenarios.ReplaceStaleFileScenario | KlutchShotsChallenge/Utils/Dependencies/DownloadManager.swift:192-205 | a stale file is removed once and replaced by the download |
| DownloadScenarios.TransferErrorScenario | KlutchShotsChallenge/Utils/Dependencies/DownloadManager.swift:216-229 | a transfer error publishes the download failure, clears the task, keeps the current video |
| DownloadScenarios.MoveRefusedScenario | KlutchShotsChallenge/Utils/Dependencies/DownloadManager.swift:192-213 | a refused move after the stale file was removed fails the download and leaves no stored video |
| DownloadScenarios.SwitchVideoScenario | KlutchShotsChallenge/Utils/Dependencies/DownloadManager.swift:90-111 | a second video cancels the first transfer (`notStarted`) before `downloading(0)` for the new one |
| DownloadScenarios.SameVideoRestartScenario | KlutchShotsChallenge/Utils/Dependencies/DownloadManager.swift:90-111 | asking again for the video being downloaded cancels and restarts its transfer |
| DownloadScenarios.StaleCallbacksScenario | KlutchShotsChallenge/Utils/Dependencies/DownloadManager.swift:166-181 | callbacks of a cancelled transfer are still published; its finish publishes the missing-id failure |
| DownloadScenarios.DeleteAfterDownloadScenario | KlutchShotsChallenge/Utils/Dependencies/DownloadManager.swift:141-161 | after a completed download is deleted, delete yields `notStarted` while the subject still holds `completed` |
| DownloadScenarios.CancelledCompletionScenario | KlutchShotsChallenge/Utils/Dependencies/DownloadManager.swift:118-123 | after a switch, the old transfer's cancellation error publishes the download failure and empties the slot; a later cancel cancels nothing more, and the new transfer is never cancelled |
| DownloadScenarios.LateFinishScenario | KlutchShotsChallenge/Utils/Dependencies/DownloadManager.swift:176-205 | a late finish of another video's transfer removes the current video's stored file, moves the download there and publishes `completed` |
| DownloadScenarios.InjectedStoreScenario | KlutchShotsChallenge/Utils/Dependencies/DownloadManager.swift:192-205 | with an injected store other than the default one, `completed` is published but the injected store never gets the file |
| LegacyScenarios.DownloadToCompletionScenario | KlutchShotsChallenge/Utils/DownloadManager.swift:66-170 | progress, finish and a nil error give `downloading(0)`, `downloading(0.5)`, `completed`, and local playback |
| LegacyScenarios.DownloadExistingScenario | KlutchShotsChallenge/Utils/DownloadManager.swift:66-87 | a stored video publishes `notStarted` then `completed` with no transfer |
| LegacyScenarios.FinishWithoutVideoScenario | KlutchShotsChallenge/Utils/DownloadManager.swift:130-131 | a finish after a cancel publishes nothing, and the callback does not touch the temporary file |
| LegacyScenarios.NoDocumentsDirectoryScenario | KlutchShotsChallenge/Utils/DownloadManager.swift:134-139 | without a documents directory the finish publishes the destination failure and keeps the task |
| LegacyScenarios.TransferErrorScenario | KlutchShotsChallenge/Utils/DownloadManager.swift:163-170 | a transfer error publishes its message and clears the task, keeping the current video |

## Left out

- Floating point: progress is a `real` chosen by the environment, standing for `Float(totalBytesWritten) / Float(totalBytesExpectedToWrite)`. The division itself is not modelled, including the NaN, infinite or negative values it gives for an unknown or zero expected size. No bound on progress is claimed, since the code enforces none.
- Concurrency: the `DispatchQueue.main.async` hops and Combine's delivery to subscribers are not modelled. Each operation and callback is one atomic step, and publishing appends to `emitted`. An interleaving of a callback's file work with its deferred publication is not captured.
- `URLSession` and its task objects: creating the lazy session, `resume` and `cancel` are bookkeeping on task identities (`nextTaskId`, `cancelled`). No transfer takes place. The temporary file a finished transfer hands over is a path the scenarios put in the store. `URLSession` deletes that file when the finish callback returns; the model leaves it in the store. The cancellation error `URLSession` reports for a cancelled task is a `DidCompleteWithError` call the environment makes, not something `CancelDownload` triggers.
- URLs: `URL(string: fallbackUrl)` is taken as already evaluated. `GetPlaybackURL` receives its result as an optional string and returns it unchanged. `appendingPathComponent` and `.path` are modelled as joining with `/`, without percent-encoding or normalisation. So `LocalPathInjective`, and the promise that deleting one video leaves every other video's file alone, hold for joined strings. On a real file system, ids such as `a/b` and `a//b` name the same file.
- Error texts: the messages Foundation gives for a missing item or an occupied destination are placeholders. Thrown errors carry the environment's message.
- Logging through OSLog is not modelled, since it has no effect on state.
- `currentDownloadingVideoId` is declared but never written in either version, so it is not modelled.
- The view models, views, networking service, image cache, dependency wiring and test doubles are not part of this model. The playback-source switching described for the detail screen is not present in `VideoDetailViewModel.swift`, so there is nothing in the code to model.
