/** pkg/config/pipeline.go: defaulting and validating the pipeline section of a configuration. */
module Pipeline {

  import opened Wrappers

  /** `files` is None when the configuration names no file list at all. */
  datatype Task = Task(name: string, runsOn: seq<string>, parallel: Option<bool>, commands: seq<string>,
                       pattern: string, files: Option<seq<string>>)

  datatype PipelineError =
    | EmptyBuildName
    | EmptyBuildSteps
    | NoTasks
    | NoTaskName
    | NoRunsOn(task: string)
    | NoCommands(task: string)
    | NoFileStrategy
    | FileStrategyConflict(task: string)

  function FileCount(t: Task): nat {
    if t.files.Some? then |t.files.value| else 0
  }

  /** What a task must have: a name, machines, commands, and either a pattern or files. */
  predicate GoodTask(t: Task) {
    t.name != "" && t.runsOn != [] && t.commands != [] && (t.pattern != "" <==> FileCount(t) == 0)
  }

  /** The first complaint about a task. */
  function TaskProblem(t: Task): (p: Option<PipelineError>)
    ensures p.None? <==> GoodTask(t)
    ensures p == Some(NoTaskName) <==> t.name == ""
    ensures p == Some(NoRunsOn(t.name)) <==> t.name != "" && t.runsOn == []
    ensures p == Some(NoCommands(t.name)) <==> t.name != "" && t.runsOn != [] && t.commands == []
    ensures p == Some(NoFileStrategy) <==>
              t.name != "" && t.runsOn != [] && t.commands != [] && t.pattern == "" && FileCount(t) == 0
    ensures p == Some(FileStrategyConflict(t.name)) <==>
              t.name != "" && t.runsOn != [] && t.commands != [] && t.pattern != "" && FileCount(t) > 0
  {
    if t.name == "" then Some(NoTaskName)
    else if t.runsOn == [] then Some(NoRunsOn(t.name))
    else if t.commands == [] then Some(NoCommands(t.name))
    else if t.pattern == "" && FileCount(t) == 0 then Some(NoFileStrategy)
    else if t.pattern != "" && FileCount(t) > 0 then Some(FileStrategyConflict(t.name))
    else None
  }

  /** A task runs in parallel unless it says otherwise. */
  function Defaulted(t: Task): (d: Task)
    ensures d.parallel == Some(if t.parallel.Some? then t.parallel.value else true)
    ensures d == t.(parallel := d.parallel)
  {
    if t.parallel.None? then t.(parallel := Some(true)) else t
  }

  class Config {
    var buildName: string
    var buildSteps: seq<string>
    var tasks: seq<Task>

    constructor (buildName: string, buildSteps: seq<string>, tasks: seq<Task>)
      ensures this.buildName == buildName && this.buildSteps == buildSteps && this.tasks == tasks
    {
      this.buildName, this.buildSteps, this.tasks := buildName, buildSteps, tasks;
    }

    /** Every task is defaulted, even when the validation that follows fails; the first problem is reported. */
    method ValidatePipeline() returns (problem: Option<PipelineError>)
      modifies this`tasks
      ensures |tasks| == |old(tasks)| && forall i :: 0 <= i < |tasks| ==> tasks[i] == Defaulted(old(tasks)[i])
      ensures problem.None? <==>
                buildName != "" && buildSteps != [] && tasks != [] &&
                forall i :: 0 <= i < |tasks| ==> GoodTask(tasks[i])
      ensures buildName == "" ==> problem == Some(EmptyBuildName)
      ensures buildName != "" && buildSteps == [] ==> problem == Some(EmptyBuildSteps)
      ensures buildName != "" && buildSteps != [] && tasks == [] ==> problem == Some(NoTasks)
      ensures buildName != "" && buildSteps != [] && tasks != [] && problem.Some? ==>
                exists k :: && 0 <= k < |tasks| && TaskProblem(tasks[k]) == problem
                            && forall i :: 0 <= i < k ==> GoodTask(tasks[i])
    {
      for i := 0 to |tasks|
        invariant |tasks| == |old(tasks)|
        invariant forall j :: 0 <= j < i ==> tasks[j] == Defaulted(old(tasks)[j])
        invariant forall j :: i <= j < |tasks| ==> tasks[j] == old(tasks)[j]
      {
        if tasks[i].parallel.None? {
          tasks := tasks[i := tasks[i].(parallel := Some(true))];
        }
      }

      if buildName == "" { return Some(EmptyBuildName); }
      if buildSteps == [] { return Some(EmptyBuildSteps); }
      if tasks == [] { return Some(NoTasks); }

      for i := 0 to |tasks|
        invariant forall j :: 0 <= j < i ==> GoodTask(tasks[j])
      {
        var t := tasks[i];
        var p := None;
        if t.name == "" {
          p := Some(NoTaskName);
        } else if t.runsOn == [] {
          p := Some(NoRunsOn(t.name));
        } else if t.commands == [] {
          p := Some(NoCommands(t.name));
        } else if t.pattern == "" && FileCount(t) == 0 {
          p := Some(NoFileStrategy);
        } else if t.pattern != "" && FileCount(t) > 0 {
          p := Some(FileStrategyConflict(t.name));
        }
        if p.Some? {
          assert TaskProblem(tasks[i]) == p;
          return p;
        }
      }
      return None;
    }
  }
}
