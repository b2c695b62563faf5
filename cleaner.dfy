/**
 * Deletion of the merged file left by a previous run, over an abstract file
 * system that maps each existing path to its content.
 */
module ArtifactCleaner {
  import opened Requests

  class Disk {
    /** The files that exist, with their contents. */
    var files: map<Path, string>

    constructor (initial: map<Path, string>)
      ensures files == initial
    {
      files := initial;
    }

    /** Removes `path` if it exists; does nothing otherwise. */
    method DeletePreviouslyMergedFile(path: Path)
      modifies this
      ensures path !in files
      ensures files == old(files) - {path}
      ensures forall p :: p != path ==> (p in files <==> p in old(files))
      ensures forall p :: p in files ==> files[p] == old(files)[p]
      ensures path !in old(files) ==> files == old(files)
    {
      if path in files {
        files := files - {path};
      }
    }
  }
}
