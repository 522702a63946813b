/**
 * The file store the download manager works on: the part of Foundation's
 * `FileManager` that `FileManagerProtocol` exposes (the documents-directory
 * lookup, `fileExists`, `removeItem`, `moveItem`), and the path under which a
 * video is kept.
 *
 * A failure of the underlying file system that the program cannot predict
 * (a permission error, a full disk) is a `fault` parameter chosen by the
 * environment; the failures that follow from the store's contents (removing
 * or moving a missing item, moving onto an existing one) are modelled.
 */
module Storage {
  import opened Wrappers

  /** Stand-ins for the `localizedDescription` of Foundation's own errors. */
  const MissingItemError := "The file doesn't exist."
  const ItemExistsError := "A file with the same name already exists."

  /** The extension every stored video gets. */
  const VideoExtension := ".mp4"

  /**
   * `urls(for: .documentDirectory, in: .userDomainMask).first?
   *    .appendingPathComponent("<videoId>.mp4")`: none when the directory
   * list is empty, otherwise the first directory joined with the file name.
   */
  function LocalPath(documentDirectories: seq<string>, videoId: string): (r: Option<string>)
    ensures r.None? <==> documentDirectories == []
  {
    if documentDirectories == [] then None
    else Some(documentDirectories[0] + "/" + videoId + VideoExtension)
  }

  /** The local path is the first documents directory, a separator, the id and the extension, in that order. */
  lemma LocalPathParts(documentDirectories: seq<string>, videoId: string)
    requires documentDirectories != []
    ensures var p := LocalPath(documentDirectories, videoId).value;
      var d := documentDirectories[0];
      && |p| == |d| + 1 + |videoId| + |VideoExtension|
      && p[..|d|] == d
      && p[|d|] == '/'
      && p[|d| + 1..|d| + 1 + |videoId|] == videoId
      && p[|d| + 1 + |videoId|..] == VideoExtension
  {
  }

  /**
   * Two different videos never share a local path: the id can be read back
   * from the path. This is what keeps one video's download or deletion from
   * touching another video's file.
   */
  lemma {:induction false} LocalPathInjective(documentDirectories: seq<string>, a: string, b: string)
    requires documentDirectories != []
    ensures LocalPath(documentDirectories, a) == LocalPath(documentDirectories, b) <==> a == b
  {
    if LocalPath(documentDirectories, a) == LocalPath(documentDirectories, b) {
      LocalPathParts(documentDirectories, a);
      LocalPathParts(documentDirectories, b);
    }
  }

  /** What a file-system call reports, and the set of paths present afterwards. */
  datatype FsOutcome = FsOutcome(error: Option<string>, paths: set<string>)

  /** `removeItem(at: path)` on a store holding `paths`. */
  function RemoveOutcome(paths: set<string>, path: string, fault: Option<string>): (r: FsOutcome)
    ensures r.error.None? <==> fault.None? && path in paths
    ensures r.error.None? ==> path !in r.paths && r.paths + {path} == paths
    ensures r.error.Some? ==> r.paths == paths
  {
    if fault.Some? then FsOutcome(fault, paths)
    else if path !in paths then FsOutcome(Some(MissingItemError), paths)
    else FsOutcome(None, paths - {path})
  }

  /** `moveItem(at: source, to: destination)` on a store holding `paths`: never overwrites. */
  function MoveOutcome(paths: set<string>, source: string, destination: string, fault: Option<string>): (r: FsOutcome)
    ensures r.error.None? <==> fault.None? && source in paths && destination !in paths
    ensures r.error.None? ==> destination in r.paths && source !in r.paths
                              && r.paths - {destination} == paths - {source}
    ensures r.error.Some? ==> r.paths == paths
  {
    if fault.Some? then FsOutcome(fault, paths)
    else if source !in paths then FsOutcome(Some(MissingItemError), paths)
    else if destination in paths then FsOutcome(Some(ItemExistsError), paths)
    else FsOutcome(None, paths - {source} + {destination})
  }

  /**
   * The finish callback's file work: remove a stale item at `destination`
   * when `fileExists` reports one, then move the downloaded temporary file
   * `location` there; the first error stops the sequence.
   *
   * It succeeds exactly when the temporary file is there, is not itself the
   * destination, and neither step is refused. On success the destination
   * holds the download, the temporary file has been moved, and nothing else
   * changed; on failure no file was created, the temporary file is not
   * touched, and the only possible loss is the stale item at the destination
   * (removed before the move failed).
   */
  function ReplaceOutcome(paths: set<string>, location: string, destination: string,
                          removeFault: Option<string>, moveFault: Option<string>): (r: FsOutcome)
    ensures r.error.None? <==>
              location in paths && location != destination && moveFault.None?
              && (destination in paths ==> removeFault.None?)
    ensures r.error.None? ==>
              destination in r.paths && location !in r.paths
              && r.paths - {destination} == paths - {location, destination}
    ensures r.error.Some? ==>
              r.paths <= paths && paths - r.paths <= {destination}
              && (location in paths && location != destination ==> location in r.paths)
  {
    if destination in paths then
      var removed := RemoveOutcome(paths, destination, removeFault);
      if removed.error.Some? then removed
      else MoveOutcome(removed.paths, location, destination, moveFault)
    else MoveOutcome(paths, location, destination, moveFault)
  }

  /** A directory-backed store; stands for `FileManager.default` or an injected `FileManagerProtocol`. */
  class FileSystem {
    /** What `urls(for: .documentDirectory, in: .userDomainMask)` returns. */
    var documentDirectories: seq<string>
    /** The paths of the items present. */
    var paths: set<string>
    /** Every path `removeItem` was called with, in order. */
    var removeCalls: seq<string>

    constructor (documentDirectories: seq<string>, paths: set<string>)
      ensures this.documentDirectories == documentDirectories && this.paths == paths
      ensures removeCalls == []
    {
      this.documentDirectories := documentDirectories;
      this.paths := paths;
      removeCalls := [];
    }

    predicate FileExists(path: string)
      reads this
    {
      path in paths
    }

    method RemoveItem(path: string, fault: Option<string>) returns (error: Option<string>)
      modifies this
      ensures documentDirectories == old(documentDirectories)
      ensures removeCalls == old(removeCalls) + [path]
      ensures var r := RemoveOutcome(old(paths), path, fault); error == r.error && paths == r.paths
    {
      var r := RemoveOutcome(paths, path, fault);
      error, paths := r.error, r.paths;
      removeCalls := removeCalls + [path];
    }

    method MoveItem(source: string, destination: string, fault: Option<string>) returns (error: Option<string>)
      modifies this
      ensures documentDirectories == old(documentDirectories) && removeCalls == old(removeCalls)
      ensures var r := MoveOutcome(old(paths), source, destination, fault); error == r.error && paths == r.paths
    {
      var r := MoveOutcome(paths, source, destination, fault);
      error, paths := r.error, r.paths;
    }
  }
}
