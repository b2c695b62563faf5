/**
 * Building a merge task. Every request is appended to the shared list of its
 * kind; the task named by the request is then (re)defined with a body that,
 * when run, merges every set of that shared list on behalf of the latest
 * request; finally the task's watch list is registered and the task queued.
 */
module TaskRegistry {
  import opened Requests
  import opened Pipeline
  import opened WatchList
  import opened ArtifactCleaner

  /** A call the constructor makes into the host scheduler, recorded in order. */
  datatype HostCall =
    | RegisterWatcher(task: string, paths: seq<Path>)
    | QueueTask(task: string)

  /**
   * The part of the global configuration the constructor reads and writes.
   * `watchers` stands for `config.watchers.default`, the watch lists by task name.
   * `tasks` records, for each defined task, the request whose definition is
   * current: its body iterates the shared list `concatenate[kind]` of that
   * request's kind, as that list stands when the task runs.
   */
  datatype Registry = Registry(
    concatenate: map<string, seq<Request>>,
    watchers: map<string, seq<Path>>,
    tasks: map<string, Request>,
    calls: seq<HostCall>)

  datatype BuildOutcome =
    | Built(after: Registry)
      /** `concatenate[kind]` is undefined, so appending to it fails before anything changes. */
    | MissingList(kind: string)

  /** Every defined task can find the shared list its body iterates. */
  predicate TasksResolve(reg: Registry) {
    forall name :: name in reg.tasks ==> reg.tasks[name].kind in reg.concatenate
  }

  /** One call of the constructor, on values. */
  function BuildStep(reg: Registry, request: Request): BuildOutcome {
    if request.kind !in reg.concatenate then
      MissingList(request.kind)
    else
      var task := request.taskName;
      var toConcat := reg.concatenate[request.kind] + [request];
      Built(Registry(
        reg.concatenate[request.kind := toConcat],
        reg.watchers,
        reg.tasks[task := request],
        reg.calls + [RegisterWatcher(task, FilesToWatch(reg.watchers, request)), QueueTask(task)]))
  }

  /** The merge of one stored set, followed by its notification. */
  function SetRun(fileSet: Request, request: Request, flags: Flags): seq<Step> {
    MergeFileSet(fileSet, request, flags) + [Notify(MergedMessage)]
  }

  /** The body of a task: one run per stored set, in list order, all for the capturing `request`. */
  function TaskRuns(sets: seq<Request>, request: Request, flags: Flags): seq<seq<Step>>
    decreases |sets|
  {
    if sets == [] then [] else [SetRun(sets[0], request, flags)] + TaskRuns(sets[1..], request, flags)
  }

  /** What running the task `name` does under `flags`. */
  function Invoke(reg: Registry, flags: Flags, name: string): seq<seq<Step>>
    requires TasksResolve(reg) && name in reg.tasks
  {
    var request := reg.tasks[name];
    TaskRuns(reg.concatenate[request.kind], request, flags)
  }

  function OutputPaths(sets: seq<Request>): set<Path> {
    set i | 0 <= i < |sets| :: OutputPath(sets[i])
  }

  lemma OutputPathsGrow(sets: seq<Request>, i: nat)
    requires i < |sets|
    ensures OutputPaths(sets[..i + 1]) == OutputPaths(sets[..i]) + {OutputPath(sets[i])}
  {
    var longer := sets[..i + 1];
    assert forall k :: 0 <= k < i ==> longer[k] == sets[..i][k];
    assert longer[i] == sets[i];
  }

  /**
   * A task body runs exactly one merge per stored set, in list order; each
   * is the set's merge under the capturing request, not under the set's own.
   */
  lemma {:induction false} TaskRunsAt(sets: seq<Request>, request: Request, flags: Flags)
    ensures |TaskRuns(sets, request, flags)| == |sets|
    ensures forall k :: 0 <= k < |sets| ==>
      TaskRuns(sets, request, flags)[k] == SetRun(sets[k], request, flags)
  {
    if sets != [] {
      TaskRunsAt(sets[1..], request, flags);
      forall k | 0 <= k < |sets|
        ensures TaskRuns(sets, request, flags)[k] == SetRun(sets[k], request, flags)
      {
        if k > 0 {
          assert sets[k] == sets[1..][k - 1];
        }
      }
    }
  }

  /** Task bodies compose: the body over two lists is the body over the first, then over the second. */
  lemma {:induction false} TaskRunsAppend(a: seq<Request>, b: seq<Request>, request: Request, flags: Flags)
    ensures TaskRuns(a + b, request, flags) == TaskRuns(a, request, flags) + TaskRuns(b, request, flags)
  {
    if a == [] {
      assert a + b == b;
    } else {
      assert (a + b)[1..] == a[1..] + b;
      TaskRunsAppend(a[1..], b, request, flags);
    }
  }

  lemma TaskRunsGrow(sets: seq<Request>, i: nat, request: Request, flags: Flags)
    requires i < |sets|
    ensures TaskRuns(sets[..i + 1], request, flags) == TaskRuns(sets[..i], request, flags) + [SetRun(sets[i], request, flags)]
  {
    assert sets[..i + 1] == sets[..i] + [sets[i]];
    TaskRunsAppend(sets[..i], [sets[i]], request, flags);
    assert TaskRuns([sets[i]], request, flags) == [SetRun(sets[i], request, flags)];
  }

  /** Each set's run ends in exactly one "Files merged!" notification. */
  lemma SetRunNotifiesOnce(fileSet: Request, request: Request, flags: Flags)
    ensures var run := SetRun(fileSet, request, flags);
      && run[|run| - 1] == Notify(MergedMessage)
      && forall i :: 0 <= i < |run| - 1 ==> !run[i].Notify?
  {
    var merge := MergeFileSet(fileSet, request, flags);
    MergeFileSetCleansFirst(fileSet, request, flags);
    var run := SetRun(fileSet, request, flags);
    forall i | 0 <= i < |run| - 1 ensures !run[i].Notify? {
      assert run[i] == merge[i];
    }
  }

  /** The constructor fails iff no shared list exists for the request's kind. */
  lemma BuildFailsIffMissing(reg: Registry, request: Request)
    ensures BuildStep(reg, request).MissingList? <==> request.kind !in reg.concatenate
    ensures BuildStep(reg, request).MissingList? ==> BuildStep(reg, request).kind == request.kind
  {
  }

  /**
   * Accumulation: the list of the request's kind grows by exactly the request,
   * at its end; no other kind's list changes.
   */
  lemma BuildAccumulates(reg: Registry, request: Request)
    requires request.kind in reg.concatenate
    ensures var after := BuildStep(reg, request).after;
      var before := reg.concatenate[request.kind];
      && after.concatenate.Keys == reg.concatenate.Keys
      && |after.concatenate[request.kind]| == |before| + 1
      && after.concatenate[request.kind][..|before|] == before
      && after.concatenate[request.kind][|before|] == request
      && forall kind :: kind in reg.concatenate && kind != request.kind ==>
           after.concatenate[kind] == reg.concatenate[kind]
  {
  }

  /**
   * The task keyed by the request's task name (not by its kind) now captures
   * this request; other tasks keep their definitions, and the watch lists are
   * left to the scheduler.
   */
  lemma BuildRedefinesTask(reg: Registry, request: Request)
    requires request.kind in reg.concatenate
    ensures var after := BuildStep(reg, request).after;
      && after.tasks.Keys == reg.tasks.Keys + {request.taskName}
      && after.tasks[request.taskName] == request
      && (forall name :: name in reg.tasks && name != request.taskName ==> after.tasks[name] == reg.tasks[name])
      && after.watchers == reg.watchers
  {
  }

  /**
   * Exactly two host calls per constructor call: registering the watch list,
   * then queueing the task; earlier calls are kept.
   */
  lemma BuildCallsHost(reg: Registry, request: Request)
    requires request.kind in reg.concatenate
    ensures var after := BuildStep(reg, request).after;
      && |after.calls| == |reg.calls| + 2
      && after.calls[..|reg.calls|] == reg.calls
      && after.calls[|reg.calls|] == RegisterWatcher(request.taskName, FilesToWatch(reg.watchers, request))
      && after.calls[|reg.calls| + 1] == QueueTask(request.taskName)
  {
  }

  lemma BuildPreservesResolve(reg: Registry, request: Request)
    requires TasksResolve(reg)
    ensures BuildStep(reg, request).Built? ==> TasksResolve(BuildStep(reg, request).after)
  {
  }

  /**
   * Right after a constructor call, running its task merges every set
   * accumulated under the request's kind, the new one last, all under the
   * new request.
   */
  lemma InvokeAfterBuild(reg: Registry, request: Request, flags: Flags)
    requires TasksResolve(reg) && request.kind in reg.concatenate
    ensures var after := BuildStep(reg, request).after;
      TasksResolve(after) && request.taskName in after.tasks &&
      Invoke(after, flags, request.taskName) == TaskRuns(reg.concatenate[request.kind] + [request], request, flags)
  {
  }

  /**
   * Two calls under one task name and one kind: the body reflects the second
   * request, and iterates both sets, in call order.
   */
  lemma SecondDefinitionWins(reg: Registry, first: Request, second: Request, flags: Flags)
    requires TasksResolve(reg) && first.kind in reg.concatenate
    requires second.taskName == first.taskName && second.kind == first.kind
    ensures var mid := BuildStep(reg, first).after;
      var after := BuildStep(mid, second).after;
      TasksResolve(after) && second.taskName in after.tasks &&
      var runs := Invoke(after, flags, second.taskName);
      var sets := reg.concatenate[first.kind] + [first, second];
      && |runs| == |sets|
      && runs == TaskRuns(sets, second, flags)
      && runs[|runs| - 2] == MergeFileSet(first, second, flags) + [Notify(MergedMessage)]
      && runs[|runs| - 1] == MergeFileSet(second, second, flags) + [Notify(MergedMessage)]
  {
    var mid := BuildStep(reg, first).after;
    var sets := reg.concatenate[first.kind] + [first, second];
    assert mid.concatenate[first.kind] + [second] == sets;
    TaskRunsAt(sets, second, flags);
  }

  /**
   * Two calls under different task names but one kind share that kind's
   * list: the task defined first also runs the set stored by the later call,
   * under its own, earlier request.
   */
  lemma SharedListReachesEarlierTask(reg: Registry, first: Request, second: Request, flags: Flags)
    requires TasksResolve(reg) && first.kind in reg.concatenate
    requires second.kind == first.kind && second.taskName != first.taskName
    ensures var mid := BuildStep(reg, first).after;
      var after := BuildStep(mid, second).after;
      TasksResolve(after) && first.taskName in after.tasks &&
      var runs := Invoke(after, flags, first.taskName);
      && |runs| == |reg.concatenate[first.kind]| + 2
      && runs[|runs| - 1] == MergeFileSet(second, first, flags) + [Notify(MergedMessage)]
  {
    var mid := BuildStep(reg, first).after;
    var sets := reg.concatenate[first.kind] + [first, second];
    assert mid.concatenate[first.kind] + [second] == sets;
    TaskRunsAt(sets, first, flags);
  }

  /** The global build configuration, as the constructor sees it. */
  class Config {
    var flags: Flags
    var concatenate: map<string, seq<Request>>
    var watchers: map<string, seq<Path>>
    var tasks: map<string, Request>
    var calls: seq<HostCall>

    constructor (flags: Flags, lists: map<string, seq<Request>>, watchers: map<string, seq<Path>>)
      ensures Valid()
      ensures this.flags == flags
      ensures State() == Registry(lists, watchers, map[], [])
    {
      this.flags := flags;
      concatenate := lists;
      this.watchers := watchers;
      tasks := map[];
      calls := [];
    }

    function State(): Registry
      reads this
    {
      Registry(concatenate, watchers, tasks, calls)
    }

    ghost predicate Valid()
      reads this
    {
      TasksResolve(State())
    }

    /**
     * The constructor's entry point. Returns false, changing nothing, when
     * there is no shared list for the request's kind.
     */
    method BuildTask(request: Request) returns (ok: bool)
      requires Valid()
      modifies this
      ensures Valid()
      ensures flags == old(flags)
      ensures ok <==> request.kind in old(concatenate)
      ensures ok ==> State() == BuildStep(old(State()), request).after
      ensures !ok ==> State() == old(State())
    {
      var task := request.taskName;
      if request.kind !in concatenate {
        return false;
      }
      var toConcat := concatenate[request.kind];
      concatenate := concatenate[request.kind := toConcat + [request]];
      tasks := tasks[task := request];
      calls := calls + [RegisterWatcher(task, FilesToWatch(watchers, request))];
      calls := calls + [QueueTask(task)];
      ok := true;
    }

    /**
     * Running the task `name`: every stored set has its stale output deleted
     * from `disk` and is merged under the task's capturing request. The disk
     * describes the state after these deletions only: the writes of the `Dest`
     * stages are not applied to it.
     */
    method RunTask(name: string, disk: Disk) returns (runs: seq<seq<Step>>)
      requires Valid() && name in tasks
      modifies disk
      ensures runs == Invoke(State(), flags, name)
      ensures disk.files == old(disk.files) - OutputPaths(concatenate[tasks[name].kind])
    {
      var request := tasks[name];
      var toConcat := concatenate[request.kind];
      runs := [];
      for i := 0 to |toConcat|
        invariant runs == TaskRuns(toConcat[..i], request, flags)
        invariant disk.files == old(disk.files) - OutputPaths(toConcat[..i])
      {
        disk.DeletePreviouslyMergedFile(OutputPath(toConcat[i]));
        OutputPathsGrow(toConcat, i);
        TaskRunsGrow(toConcat, i, request, flags);
        runs := runs + [SetRun(toConcat[i], request, flags)];
      }
      assert toConcat[..|toConcat|] == toConcat;
    }
  }
}
