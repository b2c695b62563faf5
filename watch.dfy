/**
 * The list of files a task watches: whatever is already registered under the
 * task's name, followed by the new request's files.
 */
module WatchList {
  import opened Requests

  /**
   * `watchers` is the registry of watch lists by task name; a missing key is
   * an undefined entry, while any present list, even an empty one, is used.
   */
  function FilesToWatch(watchers: map<string, seq<Path>>, request: Request): (watched: seq<Path>)
    ensures request.taskName !in watchers ==> watched == request.files
    ensures request.taskName in watchers ==>
      var already := watchers[request.taskName];
      && |watched| == |already| + |request.files|
      && watched[..|already|] == already
      && watched[|already|..] == request.files
  {
    if request.taskName in watchers then watchers[request.taskName] + request.files else request.files
  }

  /** Nothing is lost and nothing is added: a path is watched iff it was already watched or is requested. */
  lemma FilesToWatchMembers(watchers: map<string, seq<Path>>, request: Request, p: Path)
    ensures p in FilesToWatch(watchers, request) <==>
      (request.taskName in watchers && p in watchers[request.taskName]) || p in request.files
  {
    var watched := FilesToWatch(watchers, request);
    if request.taskName in watchers {
      var already := watchers[request.taskName];
      if p in watched {
        var i :| 0 <= i < |watched| && watched[i] == p;
        if i < |already| {
          assert already[i] == p;
        } else {
          assert request.files[i - |already|] == p;
        }
      }
    }
  }
}
