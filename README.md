# Merge-task constructor, modelled in Dafny

This project models the merge-task constructor `ingredients/commands/MergeFiles.js`.
A build file calls it once per merged output. It takes a request naming a task, a kind
(the request's `type`, such as "styles" or "scripts"), an ordered list of input files,
an output directory and a merged file name.

- **Accumulation.** Each call appends the request to the shared list
  `config.concatenate[type]`.
- **Task definition.** The task `taskName` is then redefined. Its body runs one
  file-set merge per entry of that shared list, all on behalf of the latest request.
- **Host calls.** The task's watch list is registered and the task is queued.
- **File-set merge.** A merge deletes the stale output file and logs "Merging" or
  "Merging and Minifying". It then pipes the files through a fixed chain of stages.
  Sourcemap init/write, transpiling and minifying can each be switched off by the build
  flags. Each merge is followed by a "Files merged!" notification.

Modules:

- `Requests` (`requests.dfy`): the request record, the build flags and the constants
  "scripts", "Files merged!" and ".".
- `ArtifactCleaner` (`cleaner.dfy`): class `Disk`, an abstract file system as a map from
  path to content, with the in-place deletion of a previously merged file.
- `Pipeline` (`pipeline.dfy`): the output path and the log label. It also holds the stage
  plan of one file set (`Plan`, built by `PipeIf`, the model of `.pipe(plugins.if(c, s))`)
  and the ordered steps of one file-set merge (`MergeFileSet`).
- `WatchList` (`watch.dfy`): the watch-list computation.
- `TaskRegistry` (`registry.dfy`): the registry state as a value and one constructor call
  on it (`BuildStep`). It also holds the task body (`TaskRuns`, `Invoke`) and class
  `Config`, the global configuration. `Config.BuildTask` updates that state in place, and
  `Config.RunTask` runs a defined task against a `Disk`.

Stored file sets are keyed by `type` (line 42), but the task is defined by `taskName`
(line 48). `SharedListReachesEarlierTask` shows the consequence: two task names that share
one type also share one list of file sets.

If `config.concatenate[type]` is undefined, the `push` at line 46 throws before anything
changes. The model returns `MissingList` (for `BuildStep`) or `false` (for `BuildTask`) and
leaves the state as it was.

The minifier and the transpile condition come from the capturing request (lines 94-95),
not from the file set being merged. The model does the same.

## Model

| member | source | states |
|---|---|---|
| `ArtifactCleaner.Disk.DeletePreviouslyMergedFile` | ingredients/commands/MergeFiles.js:16-20 | afterwards the path is absent; every other path keeps its presence and content; if the path was absent the file system is unchanged |
| `Pipeline.OutputPath` | ingredients/commands/MergeFiles.js:87 | the cleaned path is the output directory, then one '/', then the merged file name |
| `Pipeline.OutputPathInjective` | ingredients/commands/MergeFiles.js:87 | within one output directory, two sets clean the same path iff they have the same merged file name |
| `Pipeline.LogLabel` | ingredients/commands/MergeFiles.js:69-77 | the label is "Merging" when not production and "Merging and Minifying" when production |
| `Pipeline.LogLabelDecidesProduction` | ingredients/commands/MergeFiles.js:70-74 | two labels are equal iff their production flags are equal, so the label tells whether minification runs |
| `Pipeline.Plan` | ingredients/commands/MergeFiles.js:91-97 | the chain starts with reading the set's files and ends with writing to the set's directory; its length is 3 plus 2 with source maps, plus 1 with transpiling, plus 1 with minifying, so an absent stage is omitted and not replaced |
| `Pipeline.PlanInChainOrder` | ingredients/commands/MergeFiles.js:91-97 | stages always appear in the order read, map-init, concat, transpile, minify, map-write, write; no stage kind appears twice, so concat always precedes transpile |
| `Pipeline.PlanStagePresence` | ingredients/commands/MergeFiles.js:91-97 | read, concat and write are always present; map-init and map-write are present iff sourcemaps is on; transpile is present iff the capturing request's task is "scripts" and babel is enabled; minify is present iff production is on |
| `Pipeline.PlanStageArguments` | ingredients/commands/MergeFiles.js:91-97 | read takes the set's files, concat the set's merged file name, write the set's output directory, transpile the configured babel options, minify the capturing request's minifier, map-write "." |
| `Pipeline.MergeFileSetCleansFirst` | ingredients/commands/MergeFiles.js:86-97 | a set's merge first deletes outputDir + '/' + concatFileName, and deletes nothing later; then logs the set's files with the label; then one step per stage of the plan, in order |
| `WatchList.FilesToWatch` | ingredients/commands/MergeFiles.js:28-32 | with an existing entry for the task, the result is that entry followed by the request's files: length is the sum, both parts in order; without an entry, the request's files alone |
| `WatchList.FilesToWatchMembers` | ingredients/commands/MergeFiles.js:28-32 | a path is watched iff it was already watched for the task or is one of the request's files |
| `TaskRegistry.TaskRunsAt` | ingredients/commands/MergeFiles.js:52-55 | a task body has exactly one run per stored set, in list order; run k is set k's merge under the capturing request, followed by the notification |
| `TaskRegistry.TaskRunsAppend` | ingredients/commands/MergeFiles.js:52-55 | the body over two concatenated lists is the body over the first followed by the body over the second |
| `TaskRegistry.SetRunNotifiesOnce` | ingredients/commands/MergeFiles.js:53-54 | every set's run ends with "Files merged!" and holds no other notification |
| `TaskRegistry.BuildFailsIffMissing` | ingredients/commands/MergeFiles.js:42-46 | a constructor call fails iff there is no list for the request's type, and the failure names that type |
| `TaskRegistry.BuildAccumulates` | ingredients/commands/MergeFiles.js:42-46 | the list of the request's type grows by exactly one element, the request, at its end; earlier elements are kept; no other type's list changes, and no type is added |
| `TaskRegistry.BuildRedefinesTask` | ingredients/commands/MergeFiles.js:41-56 | the task keyed by the request's task name now captures this request; all other tasks keep their definitions; the watch lists are not changed by the constructor itself |
| `TaskRegistry.BuildCallsHost` | ingredients/commands/MergeFiles.js:58-60 | each call makes exactly two host calls, after all earlier ones: it registers the task with the computed watch list, then queues the task |
| `TaskRegistry.BuildPreservesResolve` | ingredients/commands/MergeFiles.js:42-48 | after a successful call, every defined task still finds the shared list of its capturing request's type |
| `TaskRegistry.InvokeAfterBuild` | ingredients/commands/MergeFiles.js:46-56 | right after a call, running its task merges every set accumulated under the request's type, the new one last, all under the new request |
| `TaskRegistry.SecondDefinitionWins` | ingredients/commands/MergeFiles.js:40-56 | after two calls with one task name and one type, the body runs under the second request and covers the whole shared list, including both calls' sets in call order |
| `TaskRegistry.SharedListReachesEarlierTask` | ingredients/commands/MergeFiles.js:42-56 | after two calls with one type and different task names, the task defined first also runs the set stored by the second call, under the first request |
| `TaskRegistry.Config.BuildTask` | ingredients/commands/MergeFiles.js:40-103 | the entry point: `buildTask` (lines 40-61), which the module export (lines 101-103) calls unchanged; succeeds iff the request's type has a list; on success the new state is one constructor step from the old one; on failure nothing changes; the flags never change and the task-resolution invariant is kept |
| `TaskRegistry.Config.RunTask` | ingredients/commands/MergeFiles.js:48-56 | running a defined task yields its body's runs, and deletes from the disk exactly the output paths of the stored sets of its capturing request's type |

## Left out

- The real file system is left out. `fs.existsSync` and `fs.unlinkSync` are modelled as
  membership in, and removal from, a map. A failing deletion (permission denied) is not modelled.
- What the Gulp stages do to the data is left out. `gulp.src`, `gulp.dest`, the
  concatenation plugin, `gulp-babel`, the minifier and the sourcemap plugins are foreign
  libraries, so each stage is an opaque tag. The merged content, its order by bytes and the
  stale-free output are therefore not stated. The write of `gulp.dest` (line 97) is not
  applied to the `Disk`: after `Config.RunTask` the disk shows the deletions only, not the
  outputs written again.
- The concurrency of `merge-stream` (line 52) is left out. The model keeps the ordered list
  of per-set runs that it combines. It does not model the join or how errors spread across
  sets.
- The `Notification` object (line 54) and `utilities.logTask` (line 76) are external sinks.
  The model records only their messages, as `Notify` and `Log` steps.
- The internals of `config.registerWatcher` and `config.queueTask` are not visible. The
  model records each of them as a `HostCall`. `watchers` stands for
  `config.watchers.default` (line 29), and the model never updates it itself. So in the
  model watch lists do not build up over repeated calls: a second call under one task name
  registers the initial entry followed by the second request's files only, without the
  first call's files. The model also ignores the value that `buildTask` returns.
- The task body closes over the list stored at `config.concatenate[type]`. The model reads
  the list under the capturing request's type when the task runs. This gives the same list
  because the core only appends to lists and never replaces one. Code outside the core that
  replaced a list is not modelled.
- On line 95, `request.minifier.call(this)` runs even when `production` is false, because
  it is an argument to `plugins.if`. The model records the minifier only in the `Minify`
  stage of production builds. It does not record that call.
- JavaScript values of the wrong shape are not modelled, such as a watch entry that is not
  an array.
