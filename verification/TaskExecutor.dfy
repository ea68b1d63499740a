/** internal/sync/executor.go and the caller's side of internal/sync/runner.go: building and running a task. */
module TaskExecutor {
  import opened Wrappers
  import opened Text
  import opened Substitution
  import Paths
  import Host
  import Pipeline
  import TaskRun
  import TaskRunInvariants
  import TaskRunSafety
  import TaskRunResults
  import TaskRunProgress
  import TaskRunStuck
  import Bags

  // ----- the cross product of commands and files -----

  /** Command `cmd` expanded with the first j files. */
  function Row(cmd: string, files: seq<string>, j: nat): (r: seq<string>)
    requires j <= |files|
    ensures |r| == j && forall k :: 0 <= k < j ==> r[k] == Expand(cmd, files[k])
  {
    if j == 0 then [] else Row(cmd, files, j - 1) + [Expand(cmd, files[j - 1])]
  }

  /** The first i rows: commands outside, files inside, in order. */
  function Rows(commands: seq<string>, files: seq<string>, i: nat): seq<string>
    requires i <= |commands|
  {
    if i == 0 then [] else Rows(commands, files, i - 1) + Row(commands[i - 1], files, |files|)
  }

  function CrossProduct(commands: seq<string>, files: seq<string>): seq<string> {
    Rows(commands, files, |commands|)
  }

  lemma {:induction false} RowsSize(commands: seq<string>, files: seq<string>, i: nat)
    requires i <= |commands|
    ensures |Rows(commands, files, i)| == i * |files|
  {
    if i > 0 {
      RowsSize(commands, files, i - 1);
      assert i * |files| == (i - 1) * |files| + |files|;
    }
  }

  lemma RowMajor(i: nat, j: nat, m: nat, n: nat)
    requires i < m && j < n
    ensures i * n + j < m * n
  {
    assert (i + 1) * n <= m * n;
  }

  lemma {:induction false} RowsLayout(commands: seq<string>, files: seq<string>, m: nat, i: nat, j: nat)
    requires i < m <= |commands| && j < |files|
    ensures i * |files| + j < |Rows(commands, files, m)|
    ensures Rows(commands, files, m)[i * |files| + j] == Expand(commands[i], files[j])
    decreases m
  {
    RowsSize(commands, files, m - 1);
    RowsSize(commands, files, m);
    RowMajor(i, j, m, |files|);
    if i < m - 1 {
      RowsLayout(commands, files, m - 1, i, j);
    }
  }

  /** Layout: there are |commands| * |files| entries, and entry i*|files| + j is command i expanded with file j. */
  lemma CrossProductLayout(commands: seq<string>, files: seq<string>, i: nat, j: nat)
    requires i < |commands| && j < |files|
    ensures |CrossProduct(commands, files)| == |commands| * |files|
    ensures i * |files| + j < |CrossProduct(commands, files)|
    ensures CrossProduct(commands, files)[i * |files| + j] == Expand(commands[i], files[j])
  {
    RowsSize(commands, files, |commands|);
    RowsLayout(commands, files, |commands|, i, j);
  }

  // ----- the machines of a task -----

  /** The endpoints whose name the task lists, in the order of the configuration. */
  function Selected(endpoints: seq<Host.Endpoint>, runsOn: seq<string>): seq<Host.Endpoint> {
    if endpoints == [] then []
    else
      var before, ep := Selected(endpoints[..|endpoints| - 1], runsOn), endpoints[|endpoints| - 1];
      if ep.name in runsOn then before + [ep] else before
  }

  method GetTasksMachine(endpoints: seq<Host.Endpoint>, runsOn: seq<string>) returns (res: seq<Host.Endpoint>)
    ensures res == Selected(endpoints, runsOn)
  {
    res := [];
    for i := 0 to |endpoints|
      invariant res == Selected(endpoints[..i], runsOn)
    {
      assert endpoints[..i + 1][..i] == endpoints[..i];
      if endpoints[i].name in runsOn {
        res := res + [endpoints[i]];
      }
    }
    assert endpoints[..|endpoints|] == endpoints;
  }

  /** Every listed endpoint is selected as often as it is configured, and no other one is. */
  lemma {:induction false} SelectedExactly(endpoints: seq<Host.Endpoint>, runsOn: seq<string>, ep: Host.Endpoint)
    ensures multiset(Selected(endpoints, runsOn))[ep] == if ep.name in runsOn then multiset(endpoints)[ep] else 0
  {
    if endpoints != [] {
      var last := |endpoints| - 1;
      SelectedExactly(endpoints[..last], runsOn, ep);
      assert endpoints == endpoints[..last] + [endpoints[last]];
      assert multiset(endpoints) == multiset(endpoints[..last]) + multiset{endpoints[last]};
    }
  }

  /** `at` is where the selected endpoints stand in the configuration. */
  predicate InOrder(endpoints: seq<Host.Endpoint>, chosen: seq<Host.Endpoint>, at: seq<nat>) {
    && |at| == |chosen|
    && (forall k :: 0 <= k < |at| ==> at[k] < |endpoints| && chosen[k] == endpoints[at[k]])
    && (forall j, k :: 0 <= j < k < |at| ==> at[j] < at[k])
  }

  /** The selection keeps the order of the configuration. */
  lemma {:induction false} SelectedInOrder(endpoints: seq<Host.Endpoint>, runsOn: seq<string>) returns (at: seq<nat>)
    ensures InOrder(endpoints, Selected(endpoints, runsOn), at)
  {
    if endpoints == [] {
      at := [];
    } else {
      var last := |endpoints| - 1;
      at := SelectedInOrder(endpoints[..last], runsOn);
      if endpoints[last].name in runsOn { at := at + [last]; }
    }
  }

  // ----- the executor -----

  /** The explicit files of a task, below the workspace in the build directory. */
  function FilePaths(home: string, workspace: string, names: seq<string>): seq<string> {
    Bags.Map(names, (name: string) => Paths.Join([Paths.BuildPath(home), workspace, name]))
  }

  function ExitOf(phase: TaskRun.Phase): Option<TaskRun.Exit> {
    if phase.Returned? then Some(phase.exit) else None
  }

  /**
   * The file's path is made of the elements of the home directory, `conflowci` and `build`, those of the workspace and
   * those of the name, as far as none of them has to be resolved.
   */
  predicate Below(home: string, workspace: string, name: string, file: string) {
    && Paths.Rooted(file) == Paths.Rooted(Paths.BuildPath(home))
    && Paths.Parts(file) == Paths.Walk(Paths.Rooted(file), Paths.Parts(Paths.BuildPath(home)),
                                       Split(workspace, '/') + Split(name, '/'))
    && (Paths.Rooted(home) && Paths.Plain(Split(workspace, '/')) && Paths.Plain(Split(name, '/')) ==>
          Paths.Parts(file)
          == Paths.Parts(home) + [Paths.CONFLOWCI, Paths.BUILD] + Split(workspace, '/') + Split(name, '/'))
  }

  lemma PathBelow(home: string, workspace: string, name: string)
    ensures Below(home, workspace, name, Paths.Join([Paths.BuildPath(home), workspace, name]))
  {
    var build, elements := Paths.BuildPath(home), Split(workspace, '/') + Split(name, '/');
    Paths.PartsOfThree(build, workspace, name);
    if Paths.Rooted(home) && Paths.Plain(Split(workspace, '/')) && Paths.Plain(Split(name, '/')) {
      Paths.BuildPathParts(home);
      Paths.PlainWalk(true, Paths.Parts(build), elements);
      assert Paths.Parts(build) + elements
          == Paths.Parts(home) + [Paths.CONFLOWCI, Paths.BUILD] + Split(workspace, '/') + Split(name, '/');
    }
  }

  class TaskExecutor {
    var state: TaskRun.TaskState
    var runsOn: seq<Host.Endpoint>
    var files: seq<string>
    var cmds: seq<string>
    var outputs: seq<string>
    var errors: seq<string>

    constructor (runsOn: seq<Host.Endpoint>, files: seq<string>, cmds: seq<string>)
      ensures state == TaskRun.StartingTask && outputs == [] && errors == []
      ensures this.runsOn == runsOn && this.files == files && this.cmds == cmds
    {
      this.state, this.runsOn, this.files, this.cmds := TaskRun.StartingTask, runsOn, files, cmds;
      this.outputs, this.errors := [], [];
    }

    /**
     * Runs the task. `outcomes` says what each command gives; `pick` chooses the next step in every state, and
     * stands for the scheduler, the network, the broker and the workers; a choice by state covers every interleaving
     * (EveryRunChosen). The run is left when it has returned, or when the chosen
     * step is not possible or is a crash that would lose work.
     */
    method RunTaskOnAllMachines(outcomes: seq<TaskRun.Outcome>, pick: TaskRun.State -> TaskRun.Step)
      returns (exit: Option<TaskRun.Exit>, ghost steps: seq<TaskRun.Step>, ghost end: TaskRun.State)
      requires |outcomes| == |cmds|
      modifies this`state, this`outputs, this`errors
      ensures var job := TaskRun.Job(outcomes, |runsOn|);
              && TaskRun.CleanRuns(job, TaskRun.Init(job), steps, end)
              && Follows(job, pick, TaskRun.Init(job), steps, end) && Over(job, pick, end)
      ensures exit.Some? <==> end.phase.Returned?
      ensures exit.Some? ==> exit.value == end.phase.exit
      ensures exit.Some? && TaskRun.GivesError(exit.value) <==> end.ledger.noConsumer
      ensures exit == Some(TaskRun.CollectorError) ==> end.out.col.Broke? || end.err.col.Broke?
      ensures exit == Some(TaskRun.Collected) ==>
                state == end.taskState && outputs == end.outputs && errors == end.errors
      ensures exit == Some(TaskRun.Collected) ==>
                TaskRunResults.Refines(TaskRun.Job(outcomes, |runsOn|), state, outputs, errors)
      ensures exit != Some(TaskRun.Collected) ==>
                state == TaskRun.RunningTask && outputs == old(outputs) && errors == old(errors)
      ensures Diligent(TaskRun.Job(outcomes, |runsOn|), pick) ==> (exit.Some? <==> TaskRunStuck.NothingLost(end))
    {
      var job := TaskRun.Job(outcomes, |runsOn|);
      state := TaskRun.RunningTask;
      var s;
      s, steps := Drive(job, pick);
      end := s;
      if s.phase == TaskRun.Returned(TaskRun.Collected) {
        state, outputs, errors := s.taskState, s.outputs, s.errors;
      }
      exit := ExitOf(s.phase);
    }
  }

  /** Lets the goroutines, the broker and the workers take the chosen steps for as long as that is possible. */
  method Drive(job: TaskRun.Job, pick: TaskRun.State -> TaskRun.Step)
    returns (s: TaskRun.State, ghost steps: seq<TaskRun.Step>)
    ensures TaskRun.CleanRuns(job, TaskRun.Init(job), steps, s)
    ensures Follows(job, pick, TaskRun.Init(job), steps, s) && Over(job, pick, s)
    ensures s.phase == TaskRun.Returned(TaskRun.Collected) ==>
              TaskRunResults.Refines(job, s.taskState, s.outputs, s.errors)
    ensures s.phase.Returned? ==> TaskRunStuck.NothingLost(s)
    ensures !s.phase.Returned? && Diligent(job, pick) ==> !TaskRunStuck.NothingLost(s)
    ensures TaskRunInvariants.ExitOk(s)
  {
    s, steps := TaskRun.Init(job), [];
    TaskRunSafety.InitInv(job);
    while !s.phase.Returned? && CanAdvance(job, s, pick(s))
      invariant Follows(job, pick, TaskRun.Init(job), steps, s)
      invariant TaskRunInvariants.CleanInv(job, s)
      decreases Bags.Total(s.workers, TaskRunProgress.LiveOf), TaskRunProgress.Weight(job, s)
    {
      var step := pick(s);
      Advance(job, s, step);
      FollowsOneMore(job, pick, TaskRun.Init(job), steps, s);
      steps := steps + [step];
      s := TaskRun.Apply(job, s, step);
    }
    FollowsOneRun(job, pick, TaskRun.Init(job), steps, s, steps, s);
    Ended(job, pick, s);
  }

  /** The step is possible, and not a crash that would lose or repeat work. */
  predicate CanAdvance(job: TaskRun.Job, s: TaskRun.State, step: TaskRun.Step) {
    TaskRun.Enabled(job, s, step) && TaskRun.Clean(s, step)
  }

  /** The run has returned, or the chosen step cannot be taken. */
  predicate Over(job: TaskRun.Job, pick: TaskRun.State -> TaskRun.Step, s: TaskRun.State) {
    s.phase.Returned? || !CanAdvance(job, s, pick(s))
  }

  /** `steps` is the clean run from s to t in which every step is the one chosen, and none is taken after returning. */
  predicate Follows(job: TaskRun.Job, pick: TaskRun.State -> TaskRun.Step,
                    s: TaskRun.State, steps: seq<TaskRun.Step>, t: TaskRun.State)
    decreases |steps|
  {
    if steps == [] then s == t
    else !Over(job, pick, s) && steps[0] == pick(s) &&
         Follows(job, pick, TaskRun.Apply(job, s, steps[0]), steps[1..], t)
  }

  lemma {:induction false} FollowsOneMore(job: TaskRun.Job, pick: TaskRun.State -> TaskRun.Step,
                                          s: TaskRun.State, steps: seq<TaskRun.Step>, t: TaskRun.State)
    requires Follows(job, pick, s, steps, t) && !Over(job, pick, t)
    ensures Follows(job, pick, s, steps + [pick(t)], TaskRun.Apply(job, t, pick(t)))
    decreases |steps|
  {
    if steps == [] {
      assert [pick(t)][1..] == [];
      assert Follows(job, pick, TaskRun.Apply(job, t, pick(t)), [], TaskRun.Apply(job, t, pick(t)));
    } else {
      FollowsOneMore(job, pick, TaskRun.Apply(job, s, steps[0]), steps[1..], t);
      assert (steps + [pick(t)])[1..] == steps[1..] + [pick(t)];
    }
  }

  /** What the drive follows is a clean run, and the choices determine it. */
  lemma {:induction false} FollowsOneRun(job: TaskRun.Job, pick: TaskRun.State -> TaskRun.Step, s: TaskRun.State,
                                         steps: seq<TaskRun.Step>, t: TaskRun.State,
                                         steps': seq<TaskRun.Step>, t': TaskRun.State)
    requires Follows(job, pick, s, steps, t) && Over(job, pick, t)
    requires Follows(job, pick, s, steps', t') && Over(job, pick, t')
    ensures TaskRun.CleanRuns(job, s, steps, t)
    ensures steps == steps' && t == t'
    decreases |steps|
  {
    if steps != [] {
      FollowsOneRun(job, pick, TaskRun.Apply(job, s, steps[0]), steps[1..], t, steps'[1..], t');
    }
  }

  /** A clean run that takes no step after it has returned. */
  predicate UntilReturn(job: TaskRun.Job, s: TaskRun.State, steps: seq<TaskRun.Step>, t: TaskRun.State)
    decreases |steps|
  {
    if steps == [] then s == t
    else !s.phase.Returned? && CanAdvance(job, s, steps[0]) &&
         UntilReturn(job, TaskRun.Apply(job, s, steps[0]), steps[1..], t)
  }

  /** Fewer workers are left, or as many and the state is lighter. */
  predicate Later(job: TaskRun.Job, s: TaskRun.State, before: TaskRun.State) {
    var live := Bags.Total(before.workers, TaskRunProgress.LiveOf);
    var live' := Bags.Total(s.workers, TaskRunProgress.LiveOf);
    live' < live || (live' == live && TaskRunProgress.Weight(job, s) < TaskRunProgress.Weight(job, before))
  }

  /** A run that starts later than state `old_` never sees it, so that the choice there does not matter. */
  lemma {:induction false} ChoiceBefore(job: TaskRun.Job, pick: TaskRun.State -> TaskRun.Step,
                                        pick': TaskRun.State -> TaskRun.Step, old_: TaskRun.State,
                                        s: TaskRun.State, steps: seq<TaskRun.Step>, t: TaskRun.State)
    requires TaskRunInvariants.CleanInv(job, s) && Later(job, s, old_)
    requires forall x :: x != old_ ==> pick'(x) == pick(x)
    requires Follows(job, pick, s, steps, t) && Over(job, pick, t)
    ensures Follows(job, pick', s, steps, t) && Over(job, pick', t)
    decreases |steps|
  {
    if steps != [] {
      Advance(job, s, steps[0]);
      ChoiceBefore(job, pick, pick', old_, TaskRun.Apply(job, s, steps[0]), steps[1..], t);
    }
  }

  lemma {:induction false} RunChosen(job: TaskRun.Job, s: TaskRun.State, steps: seq<TaskRun.Step>, t: TaskRun.State)
    returns (pick: TaskRun.State -> TaskRun.Step)
    requires TaskRunInvariants.CleanInv(job, s) && UntilReturn(job, s, steps, t)
    ensures Follows(job, pick, s, steps, t) && Over(job, pick, t)
    decreases |steps|
  {
    if steps == [] {
      pick := (x: TaskRun.State) => TaskRun.Receive(|x.workers|);
    } else {
      Advance(job, s, steps[0]);
      var rest := RunChosen(job, TaskRun.Apply(job, s, steps[0]), steps[1..], t);
      pick := (x: TaskRun.State) => if x == s then steps[0] else rest(x);
      ChoiceBefore(job, rest, pick, s, TaskRun.Apply(job, s, steps[0]), steps[1..], t);
    }
  }

  /** Every clean run that takes no step after it has returned is the one some choice by state leads to. */
  lemma EveryRunChosen(job: TaskRun.Job, steps: seq<TaskRun.Step>, t: TaskRun.State)
    returns (pick: TaskRun.State -> TaskRun.Step)
    requires UntilReturn(job, TaskRun.Init(job), steps, t)
    ensures Follows(job, pick, TaskRun.Init(job), steps, t) && Over(job, pick, t)
  {
    TaskRunSafety.InitInv(job);
    pick := RunChosen(job, TaskRun.Init(job), steps, t);
  }

  lemma Advance(job: TaskRun.Job, s: TaskRun.State, step: TaskRun.Step)
    requires TaskRunInvariants.CleanInv(job, s) && CanAdvance(job, s, step)
    ensures var s' := TaskRun.Apply(job, s, step); TaskRunInvariants.CleanInv(job, s') && Later(job, s', s)
  {
    TaskRunSafety.KeepsCleanInv(job, s, step);
    TaskRunProgress.StepKeepsDead(job, s, step);
    if !step.Crash? { TaskRunProgress.StepFalls(job, s, step); }
  }

  lemma Ended(job: TaskRun.Job, pick: TaskRun.State -> TaskRun.Step, s: TaskRun.State)
    requires TaskRunInvariants.CleanInv(job, s)
    requires Over(job, pick, s)
    ensures s.phase.Returned? ==> TaskRunStuck.NothingLost(s)
    ensures s.phase == TaskRun.Returned(TaskRun.Collected) ==>
              TaskRunResults.Refines(job, s.taskState, s.outputs, s.errors)
    ensures !s.phase.Returned? && Diligent(job, pick) ==> !TaskRunStuck.NothingLost(s)
  {
    if s.phase.Returned? {
      TaskRunStuck.ReturnedLostNothing(job, s);
      if s.phase.exit.Collected? { TaskRunResults.CollectedRefines(job, s); }
    } else if Diligent(job, pick) {
      NoMoreSteps(job, pick, s);
      TaskRunStuck.StuckMeansLoss(job, s);
    }
  }

  /** Whenever a step other than a crash is possible, one that can be taken is chosen. */
  ghost predicate Diligent(job: TaskRun.Job, pick: TaskRun.State -> TaskRun.Step) {
    forall s, step :: TaskRun.Enabled(job, s, step) && !step.Crash? ==>
      CanAdvance(job, s, pick(s))
  }

  lemma NoMoreSteps(job: TaskRun.Job, pick: TaskRun.State -> TaskRun.Step, s: TaskRun.State)
    requires Diligent(job, pick) && !CanAdvance(job, s, pick(s))
    ensures TaskRunStuck.Quiescent(job, s)
  {
  }

  /**
   * NewTaskExecutor: one command per configured command and file. Without a file list the first endpoint is
   * asked for the files that match the pattern; `found` is its answer, None when the call fails.
   */
  method NewTaskExecutor(home: string, endpoints: seq<Host.Endpoint>, task: Pipeline.Task, workspace: string,
                         found: Option<seq<string>>)
    returns (te: TaskExecutor?)
    requires task.files.None? ==> endpoints != []
    ensures te == null <==> task.files.None? && found.None?
    ensures te != null ==>
              && fresh(te)
              && te.state == TaskRun.StartingTask && te.outputs == [] && te.errors == []
              && te.files == (if task.files.Some? then FilePaths(home, workspace, task.files.value) else found.value)
              && te.cmds == CrossProduct(task.commands, te.files)
              && te.runsOn == Selected(endpoints, task.runsOn)
  {
    var files;
    if task.files.None? {
      if found.None? { return null; }
      files := found.value;
    } else {
      files := WorkspaceFiles(home, workspace, task.files.value);
    }
    var cmds := ExpandCommands(task.commands, files);
    var machines := GetTasksMachine(endpoints, task.runsOn);
    te := new TaskExecutor(machines, files, cmds);
  }

  method WorkspaceFiles(home: string, workspace: string, names: seq<string>) returns (files: seq<string>)
    ensures |files| == |names|
    ensures forall k :: 0 <= k < |names| ==> Below(home, workspace, names[k], files[k])
    ensures files == FilePaths(home, workspace, names)
  {
    files := [];
    for k := 0 to |names|
      invariant files == FilePaths(home, workspace, names[..k])
    {
      files := files + [Paths.Join([Paths.BuildPath(home), workspace, names[k]])];
    }
    assert names[..|names|] == names;
    forall k | 0 <= k < |names| ensures Below(home, workspace, names[k], files[k]) {
      PathBelow(home, workspace, names[k]);
    }
  }

  method ExpandCommands(commands: seq<string>, files: seq<string>) returns (cmds: seq<string>)
    ensures cmds == CrossProduct(commands, files)
    ensures |cmds| == |commands| * |files|
  {
    cmds := [];
    for i := 0 to |commands|
      invariant cmds == Rows(commands, files, i)
    {
      for j := 0 to |files|
        invariant cmds == Rows(commands, files, i) + Row(commands[i], files, j)
      {
        cmds := cmds + [Expand(commands[i], files[j])];
      }
    }
    RowsSize(commands, files, |commands|);
  }

  // ----- what the commands of a task look like -----

  /** Of the tasks with a file list that validation accepts, exactly those with a non-empty list yield commands. */
  lemma FilesYieldCommands(home: string, workspace: string, task: Pipeline.Task)
    requires Pipeline.GoodTask(task) && task.files.Some?
    ensures CrossProduct(task.commands, FilePaths(home, workspace, task.files.value)) != [] <==> task.files.value != []
  {
    var files := FilePaths(home, workspace, task.files.value);
    RowsSize(task.commands, files, |task.commands|);
    if files != [] {
      RowMajor(0, 0, |task.commands|, |files|);
    }
  }

  /** An absolute path from which no expansion leaves a placeholder. */
  predicate Placeable(file: string) {
    file != "" && file[0] == '/' && Safe(file)
  }

  lemma {:induction false} RowsFree(commands: seq<string>, files: seq<string>, i: nat)
    requires i <= |commands| && forall j :: 0 <= j < |files| ==> Placeable(files[j])
    ensures forall c :: 0 <= c < |Rows(commands, files, i)| ==> !Contains(Rows(commands, files, i)[c], FILE)
  {
    if i > 0 {
      RowsFree(commands, files, i - 1);
      RowFree(commands[i - 1], files);
    }
  }

  lemma RowFree(cmd: string, files: seq<string>)
    requires forall j :: 0 <= j < |files| ==> Placeable(files[j])
    ensures forall c :: 0 <= c < |files| ==> !Contains(Row(cmd, files, |files|)[c], FILE)
  {
    forall c | 0 <= c < |files| ensures !Contains(Row(cmd, files, |files|)[c], FILE) {
      NoPlaceholder(cmd, files[c]);
    }
  }

  lemma FilePlaceable(home: string, workspace: string, name: string)
    requires Paths.Rooted(home) && '{' !in home && '{' !in workspace && '{' !in name
    ensures Placeable(Paths.Join([Paths.BuildPath(home), workspace, name]))
  {
    var dir := Paths.BuildPath(home);
    Paths.JoinUnder(dir, [workspace, name], '{');
    assert [dir] + [workspace, name] == [dir, workspace, name];
    BraceFree(Paths.Join([dir, workspace, name]));
  }

  /** With an absolute home directory and no opening brace in any name, no command keeps a placeholder. */
  lemma CommandsFreeOfPlaceholders(home: string, workspace: string, commands: seq<string>, names: seq<string>)
    requires Paths.Rooted(home) && '{' !in home && '{' !in workspace
    requires forall j :: 0 <= j < |names| ==> '{' !in names[j]
    ensures var cmds := CrossProduct(commands, FilePaths(home, workspace, names));
            forall c :: 0 <= c < |cmds| ==> !Contains(cmds[c], FILE)
  {
    var files := FilePaths(home, workspace, names);
    forall j | 0 <= j < |files| ensures Placeable(files[j]) {
      FilePlaceable(home, workspace, names[j]);
    }
    RowsFree(commands, files, |commands|);
  }
}
