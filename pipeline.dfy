/**
 * The plan of one file-set merge: the stale output is deleted, the merge is
 * logged, and then the files go through a fixed chain of stream stages, some
 * of which are switched on or off by the build flags. Each stage is an opaque
 * tag; what a stage does to the data belongs to the plugin behind it.
 */
module Pipeline {
  import opened Requests

  datatype Stage =
    | Src(files: seq<Path>)
    | MapInit
    | Concat(name: string)
    | Babel(options: BabelOptionsId)
    | Minify(minifier: MinifierId)
    | MapWrite(mapsDir: Path)
    | Dest(dir: Path)

  datatype StageKind =
    SrcStage | MapInitStage | ConcatStage | BabelStage | MinifyStage | MapWriteStage | DestStage

  /** One observable effect of merging a file set, in the order it happens. */
  datatype Step =
    | Clean(path: Path)
    | Log(title: string, logged: seq<Path>)
    | Run(stage: Stage)
    | Notify(message: string)

  function KindOf(s: Stage): StageKind {
    match s
    case Src(_) => SrcStage
    case MapInit => MapInitStage
    case Concat(_) => ConcatStage
    case Babel(_) => BabelStage
    case Minify(_) => MinifyStage
    case MapWrite(_) => MapWriteStage
    case Dest(_) => DestStage
  }

  /** The position of each kind of stage in the fixed chain. */
  function Rank(k: StageKind): nat {
    match k
    case SrcStage => 0
    case MapInitStage => 1
    case ConcatStage => 2
    case BabelStage => 3
    case MinifyStage => 4
    case MapWriteStage => 5
    case DestStage => 6
  }

  /** Stages appear in chain order, each kind at most once. */
  predicate InChainOrder(p: seq<Stage>) {
    forall i, j :: 0 <= i < j < |p| ==> Rank(KindOf(p[i])) < Rank(KindOf(p[j]))
  }

  /** Every stage of `p` comes before rank `r` in the chain. */
  predicate Below(p: seq<Stage>, r: nat) {
    forall i :: 0 <= i < |p| ==> Rank(KindOf(p[i])) < r
  }

  predicate Has(p: seq<Stage>, k: StageKind) {
    exists i :: 0 <= i < |p| && KindOf(p[i]) == k
  }

  /** The path of the merged file of a set: its output directory, a slash, its file name. */
  function OutputPath(fileSet: Request): (path: Path)
    ensures |path| == |fileSet.outputDir| + 1 + |fileSet.concatFileName|
    ensures path[..|fileSet.outputDir|] == fileSet.outputDir
    ensures path[|fileSet.outputDir|] == '/'
    ensures path[|fileSet.outputDir| + 1..] == fileSet.concatFileName
  {
    fileSet.outputDir + "/" + fileSet.concatFileName
  }

  /** The console label of a merge. */
  function LogLabel(production: bool): (message: string)
    ensures !production ==> message == "Merging"
    ensures production ==> message == "Merging and Minifying"
  {
    var base := "Merging";
    if production then base + " and Minifying" else base
  }

  /** Whether the transpile stage is in the chain; decided by the capturing request. */
  predicate BabelApplies(request: Request, flags: Flags) {
    request.taskName == ScriptsTask && flags.babelEnabled
  }

  /** `chain.pipe(plugins.if(condition, stage))`: the stage is added only when the condition holds. */
  function PipeIf(chain: seq<Stage>, condition: bool, stage: Stage): seq<Stage> {
    if condition then chain + [stage] else chain
  }

  /**
   * The stream chain of one file set `fileSet`, run on behalf of the task built by
   * `request`, under `flags`.
   */
  function Plan(fileSet: Request, request: Request, flags: Flags): (plan: seq<Stage>)
    ensures |plan| == 3 + (if flags.sourcemaps then 2 else 0)
                        + (if BabelApplies(request, flags) then 1 else 0)
                        + (if flags.production then 1 else 0)
    ensures plan[0] == Src(fileSet.files)
    ensures plan[|plan| - 1] == Dest(fileSet.outputDir)
  {
    var read := [Src(fileSet.files)];
    var mapped := PipeIf(read, flags.sourcemaps, MapInit);
    var merged := mapped + [Concat(fileSet.concatFileName)];
    var transpiled := PipeIf(merged, BabelApplies(request, flags), Babel(flags.babelOptions));
    var minified := PipeIf(transpiled, flags.production, Minify(request.minifier));
    var written := PipeIf(minified, flags.sourcemaps, MapWrite(MapsDir));
    written + [Dest(fileSet.outputDir)]
  }

  /** Everything one call of the per-set merge does, in order. */
  function MergeFileSet(fileSet: Request, request: Request, flags: Flags): (steps: seq<Step>)
    ensures |steps| == 2 + |Plan(fileSet, request, flags)|
  {
    var plan := Plan(fileSet, request, flags);
    [Clean(OutputPath(fileSet)), Log(LogLabel(flags.production), fileSet.files)]
      + seq(|plan|, i requires 0 <= i < |plan| => Run(plan[i]))
  }

  lemma PipeIfKeepsOrder(chain: seq<Stage>, condition: bool, stage: Stage)
    requires InChainOrder(chain) && Below(chain, Rank(KindOf(stage)))
    ensures InChainOrder(PipeIf(chain, condition, stage))
    ensures Below(PipeIf(chain, condition, stage), Rank(KindOf(stage)) + 1)
  {
    if condition {
      var p := chain + [stage];
      forall i, j | 0 <= i < j < |p| ensures Rank(KindOf(p[i])) < Rank(KindOf(p[j])) {
        if j < |chain| {
          assert p[i] == chain[i] && p[j] == chain[j];
        } else {
          assert p[i] == chain[i];
        }
      }
    }
  }

  lemma PipeIfHas(chain: seq<Stage>, condition: bool, stage: Stage, k: StageKind)
    ensures Has(PipeIf(chain, condition, stage), k) <==> Has(chain, k) || (condition && KindOf(stage) == k)
  {
    var p := PipeIf(chain, condition, stage);
    if condition {
      if Has(chain, k) {
        var i :| 0 <= i < |chain| && KindOf(chain[i]) == k;
        assert p[i] == chain[i];
      }
      if KindOf(stage) == k {
        assert p[|chain|] == stage;
      }
      if Has(p, k) {
        var i :| 0 <= i < |p| && KindOf(p[i]) == k;
        if i < |chain| {
          assert p[i] == chain[i];
        }
      }
    }
  }

  /** The stages never leave the chain's fixed order, and no kind appears twice. */
  lemma PlanInChainOrder(fileSet: Request, request: Request, flags: Flags)
    ensures InChainOrder(Plan(fileSet, request, flags))
  {
    var read := [Src(fileSet.files)];
    PipeIfKeepsOrder(read, flags.sourcemaps, MapInit);
    var mapped := PipeIf(read, flags.sourcemaps, MapInit);
    PipeIfKeepsOrder(mapped, true, Concat(fileSet.concatFileName));
    var merged := mapped + [Concat(fileSet.concatFileName)];
    PipeIfKeepsOrder(merged, BabelApplies(request, flags), Babel(flags.babelOptions));
    var transpiled := PipeIf(merged, BabelApplies(request, flags), Babel(flags.babelOptions));
    PipeIfKeepsOrder(transpiled, flags.production, Minify(request.minifier));
    var minified := PipeIf(transpiled, flags.production, Minify(request.minifier));
    PipeIfKeepsOrder(minified, flags.sourcemaps, MapWrite(MapsDir));
    var written := PipeIf(minified, flags.sourcemaps, MapWrite(MapsDir));
    PipeIfKeepsOrder(written, true, Dest(fileSet.outputDir));
  }

  /**
   * Which stages are present: source, concatenation and destination always;
   * each source-map stage iff source maps are on; transpiling iff the
   * capturing request is the "scripts" task and babel is enabled; minifying
   * iff the build is a production build.
   */
  lemma PlanStagePresence(fileSet: Request, request: Request, flags: Flags)
    ensures var plan := Plan(fileSet, request, flags);
      && Has(plan, SrcStage)
      && Has(plan, ConcatStage)
      && Has(plan, DestStage)
      && (Has(plan, MapInitStage) <==> flags.sourcemaps)
      && (Has(plan, BabelStage) <==> BabelApplies(request, flags))
      && (Has(plan, MinifyStage) <==> flags.production)
      && (Has(plan, MapWriteStage) <==> flags.sourcemaps)
  {
    var read := [Src(fileSet.files)];
    var mapped := PipeIf(read, flags.sourcemaps, MapInit);
    var merged := mapped + [Concat(fileSet.concatFileName)];
    var transpiled := PipeIf(merged, BabelApplies(request, flags), Babel(flags.babelOptions));
    var minified := PipeIf(transpiled, flags.production, Minify(request.minifier));
    var written := PipeIf(minified, flags.sourcemaps, MapWrite(MapsDir));
    var plan := written + [Dest(fileSet.outputDir)];
    assert plan == Plan(fileSet, request, flags);
    forall k: StageKind
      ensures Has(plan, k) <==>
        || k == SrcStage || k == ConcatStage || k == DestStage
        || (k == MapInitStage && flags.sourcemaps)
        || (k == BabelStage && BabelApplies(request, flags))
        || (k == MinifyStage && flags.production)
        || (k == MapWriteStage && flags.sourcemaps)
    {
      assert Has(read, k) <==> k == SrcStage by {
        if k == SrcStage { assert KindOf(read[0]) == SrcStage; }
      }
      PipeIfHas(read, flags.sourcemaps, MapInit, k);
      PipeIfHas(mapped, true, Concat(fileSet.concatFileName), k);
      PipeIfHas(merged, BabelApplies(request, flags), Babel(flags.babelOptions), k);
      PipeIfHas(transpiled, flags.production, Minify(request.minifier), k);
      PipeIfHas(minified, flags.sourcemaps, MapWrite(MapsDir), k);
      PipeIfHas(written, true, Dest(fileSet.outputDir), k);
    }
  }

  /**
   * The arguments of the stages: the file set supplies its files, its merged file
   * name and its output directory; the capturing request supplies the
   * minifier; the flags supply the transpiler options; maps go to ".".
   */
  lemma PlanStageArguments(fileSet: Request, request: Request, flags: Flags)
    ensures var plan := Plan(fileSet, request, flags);
      forall i :: 0 <= i < |plan| ==>
        match plan[i]
        case Src(files) => files == fileSet.files
        case MapInit => true
        case Concat(name) => name == fileSet.concatFileName
        case Babel(options) => options == flags.babelOptions
        case Minify(minifier) => minifier == request.minifier
        case MapWrite(mapsDir) => mapsDir == MapsDir
        case Dest(dir) => dir == fileSet.outputDir
  {
  }

  /**
   * A set's merge deletes the set's output file first, and at no later
   * point; then logs the set's files with the label; then runs the plan.
   */
  lemma MergeFileSetCleansFirst(fileSet: Request, request: Request, flags: Flags)
    ensures var steps := MergeFileSet(fileSet, request, flags);
      && steps[0] == Clean(fileSet.outputDir + "/" + fileSet.concatFileName)
      && steps[1] == Log(LogLabel(flags.production), fileSet.files)
      && (forall i :: 1 <= i < |steps| ==> !steps[i].Clean?)
      && (forall i :: 2 <= i < |steps| ==> steps[i] == Run(Plan(fileSet, request, flags)[i - 2]))
  {
  }

  /** The log label names minification exactly when the build minifies. */
  lemma LogLabelDecidesProduction(a: bool, b: bool)
    ensures LogLabel(a) == LogLabel(b) <==> a == b
  {
    if a != b {
      assert |LogLabel(a)| != |LogLabel(b)|;
    }
  }

  /** Within one output directory, distinct merged file names give distinct output paths. */
  lemma OutputPathInjective(a: Request, b: Request)
    requires a.outputDir == b.outputDir
    ensures OutputPath(a) == OutputPath(b) <==> a.concatFileName == b.concatFileName
  {
    if OutputPath(a) == OutputPath(b) {
      assert OutputPath(a)[|a.outputDir| + 1..] == OutputPath(b)[|b.outputDir| + 1..];
    }
  }
}
