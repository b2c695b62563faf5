/**
 * The values the merge-task constructor works on: one merge request (also
 * called a file set once it is stored) and the global build flags that the
 * pipeline reads when a task runs.
 */
module Requests {

  type Path = string

  /** An opaque handle on the per-call-site minifier factory (`request.minifier`). */
  type MinifierId = nat

  /** An opaque handle on the transpiler options (`config.babel.options`). */
  type BabelOptionsId = nat

  /**
   * One request to merge `files`, in order, into `outputDir/concatFileName`.
   * `kind` is the request's `type` (for instance "styles" or "scripts"): the
   * key of the shared list the request is stored in.
   */
  datatype Request = Request(
    taskName: string,
    kind: string,
    files: seq<Path>,
    outputDir: Path,
    concatFileName: string,
    minifier: MinifierId)

  /** The flags of the global build configuration that the pipeline reads. */
  datatype Flags = Flags(
    production: bool,
    sourcemaps: bool,
    babelEnabled: bool,
    babelOptions: BabelOptionsId)

  /** The only task name for which the transpile stage may be applied. */
  const ScriptsTask: string := "scripts"

  /** The message of the notification that follows every merged file set. */
  const MergedMessage: string := "Files merged!"

  /** The directory, relative to the output, where source maps are written. */
  const MapsDir: Path := "."
}
