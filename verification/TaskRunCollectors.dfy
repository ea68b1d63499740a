/** Runs in which a collector cannot subscribe to its queue: when they hang, and when they report success. */
module TaskRunCollectors {
  import opened Bags
  import opened TaskRun
  import opened TaskRunInvariants
  import opened TaskRunSafety
  import opened TaskRunResults
  import opened TaskRunCompletes
  import opened TaskRunTraces
  import opened TaskRunRedelivery

  /** The exit status of the commands whose results the lane carries. */
  predicate StatusOf(kind: Kind) {
    kind.OutputLane?
  }

  /** Every command exits with this status. */
  predicate AllEnd(job: Job, ok: bool) {
    forall i :: 0 <= i < |job.outcomes| ==> job.outcomes[i].ok == ok
  }

  /** With all results drained, a lane whose collector could not subscribe was needed by no command. */
  lemma BrokenAndDrained(job: Job, s: State, kind: Kind)
    requires Inv(job, s) && Full(job, s) && Drained(job, s) && LaneOf(s, kind).col.Broke?
    ensures AllEnd(job, !StatusOf(kind))
  {
    forall i | 0 <= i < |job.outcomes| ensures job.outcomes[i].ok == !StatusOf(kind) {
      DrainedLane(job, s, i);
    }
  }

  /**
   * If a collector cannot subscribe and some command has a result for it, the run never gets past
   * cmdResWg.Wait().
   */
  lemma BrokenLaneHangs(job: Job, steps: seq<Step>, t: State, kind: Kind)
    requires CleanRuns(job, Init(job), steps, t) && LaneOf(t, kind).col.Broke?
    requires !AllEnd(job, !StatusOf(kind))
    ensures t.phase.Draining? && t.resWg > 0
  {
    CleanRunsSafe(job, steps, t);
    if t.resWg == 0 {
      DrainedAtZero(job, t);
      BrokenAndDrained(job, t, kind);
    }
  }

  /** A run that returns because a collector could not subscribe had no result for it. */
  lemma CollectorErrorMeans(job: Job, steps: seq<Step>, t: State)
    requires CleanRuns(job, Init(job), steps, t) && t.phase == Returned(CollectorError)
    ensures (t.out.col.Broke? && AllEnd(job, false)) || (t.err.col.Broke? && AllEnd(job, true))
  {
    CleanRunsSafe(job, steps, t);
    DrainedAtZero(job, t);
    CollectorErrorDrained(job, t);
  }

  /** The caller is given no error, and the fields are not those of the sequential loop. */
  ghost predicate FalseSuccess(job: Job, t: State) {
    t.phase.Returned? && !GivesError(t.phase.exit) && !Refines(job, t.taskState, t.outputs, t.errors)
  }

  /** After all commands are handled, every result is in the one queue that commands of this status use. */
  lemma AllInOneQueue(job: Job, ok: bool) returns (t: State)
    requires job.endpoints > 0 && job.outcomes != [] && AllEnd(job, ok)
    ensures Reachable(job, true, t) && !t.panicked && t.phase.AwaitFinish? && t.wg == 0
    ensures t.out.col.Off? && t.err.col.Off?
    ensures |LaneOf(t, if ok then OutputLane else ErrorLane).queue| == |job.outcomes|
  {
    ReachAllQueued(job, true);
    t := HandleAll(job, true, AllQueued(job), 0, Range(0, |job.outcomes|));
    OtherQueueEmpty(job, t, ok);
  }

  lemma OtherQueueEmpty(job: Job, t: State, ok: bool)
    requires Reachable(job, true, t) && AllEnd(job, ok)
    ensures LaneOf(t, if ok then ErrorLane else OutputLane).queue == []
  {
    var steps :| Runs(job, Init(job), steps, t) && CleanRuns(job, Init(job), steps, t);
    AllRunsSafe(job, steps, t);
    NoMessages(job, History(LaneOf(t, if ok then ErrorLane else OutputLane)), !ok);
  }

  /** The other collector cannot subscribe; the run drains all N results, stores none and returns nil. */
  lemma ReportsFalseSuccess(job: Job, ok: bool) returns (t: State)
    requires job.endpoints > 0 && job.outcomes != [] && AllEnd(job, ok)
    ensures Reachable(job, true, t) && t.phase == Returned(CollectorError)
  {
    var kind := if ok then OutputLane else ErrorLane;
    t := AllInOneQueue(job, ok);
    t := CreatesConsumers(job, true, t);
    t := Subscribes(job, true, t, ok, !ok);
    t := DrainsSome(job, true, t, kind, |job.outcomes|);
    t := Finishes(job, true, t);
  }

  lemma NothingStored(job: Job, steps: seq<Step>, t: State)
    requires Runs(job, Init(job), steps, t) && t.phase == Returned(CollectorError) && job.outcomes != []
    ensures FalseSuccess(job, t)
  {
    OtherReturnsStoreNothing(job, steps, t);
    if Refines(job, t.taskState, t.outputs, t.errors) {
      RefinesSize(job, t.taskState, t.outputs, t.errors);
    }
  }

  lemma FalseSuccessMeans(job: Job, steps: seq<Step>, t: State)
    requires CleanRuns(job, Init(job), steps, t) && FalseSuccess(job, t)
    ensures t.phase == Returned(CollectorError)
    ensures job.endpoints > 0 && job.outcomes != [] && (AllEnd(job, true) || AllEnd(job, false))
  {
    CleanRunsSafe(job, steps, t);
    if t.phase.exit.Collected? { CollectedRefines(job, t); }
    CollectorErrorMeans(job, steps, t);
    CleanRunsAreRuns(job, Init(job), steps, t);
    OtherReturnsStoreNothing(job, steps, t);
    if job.endpoints == 0 && job.outcomes != [] { NoEndpointsNeverReturns(job, steps, t); }
  }

  /** Some clean run reports success with other fields than the sequential loop leaves. */
  ghost predicate CleanlyReportsFalseSuccess(job: Job) {
    exists steps, t :: CleanRuns(job, Init(job), steps, t) && FalseSuccess(job, t)
  }

  /** Some run does, whatever crashes. */
  ghost predicate CanReportFalseSuccess(job: Job) {
    exists steps, t :: Runs(job, Init(job), steps, t) && FalseSuccess(job, t)
  }

  lemma FalseSuccessHappens(job: Job, ok: bool)
    requires job.endpoints > 0 && job.outcomes != [] && AllEnd(job, ok)
    ensures CleanlyReportsFalseSuccess(job) && CanReportFalseSuccess(job)
  {
    var t := ReportsFalseSuccess(job, ok);
    var steps :| Runs(job, Init(job), steps, t) && CleanRuns(job, Init(job), steps, t);
    NothingStored(job, steps, t);
  }

  /**
   * Theorem: a clean run can report success with other fields than the sequential loop leaves if and only if there
   * are endpoints and commands, and the commands all succeed or all fail, so that one collector has nothing to wait
   * for.
   */
  lemma CleanFalseSuccessExactly(job: Job)
    ensures CleanlyReportsFalseSuccess(job)
       <==> job.endpoints > 0 && job.outcomes != [] && (AllEnd(job, true) || AllEnd(job, false))
  {
    if CleanlyReportsFalseSuccess(job) {
      var steps, t :| CleanRuns(job, Init(job), steps, t) && FalseSuccess(job, t);
      FalseSuccessMeans(job, steps, t);
    } else if job.endpoints > 0 && job.outcomes != [] {
      if AllEnd(job, true) { FalseSuccessHappens(job, true); }
      if AllEnd(job, false) { FalseSuccessHappens(job, false); }
    }
  }

  // ----- under any crashes -----

  /** With two endpoints a result stored twice is enough. */
  lemma StoresFalseSuccess(job: Job)
    requires job.endpoints >= 2 && job.outcomes != []
    ensures CanReportFalseSuccess(job)
  {
    var t := StoresOneTooMany(job);
    var steps :| Runs(job, Init(job), steps, t);
    if Refines(job, t.taskState, t.outputs, t.errors) {
      RefinesSize(job, t.taskState, t.outputs, t.errors);
    }
  }

  lemma EmptyRefines(job: Job)
    requires job.outcomes == []
    ensures Refines(job, RunningTask, [], [])
  {
  }

  lemma FalseSuccessNeedsCommands(job: Job, steps: seq<Step>, t: State)
    requires Runs(job, Init(job), steps, t) && FalseSuccess(job, t)
    ensures job.outcomes != []
  {
    if job.outcomes == [] {
      NothingToRun(job, steps, t);
      EmptyRefines(job);
      if !t.phase.exit.Collected? { OtherReturnsStoreNothing(job, steps, t); }
    }
  }

  lemma CollectorErrorDrained(job: Job, t: State)
    requires Inv(job, t) && t.phase == Returned(CollectorError) && Full(job, t) && Drained(job, t)
    ensures (t.out.col.Broke? && AllEnd(job, false)) || (t.err.col.Broke? && AllEnd(job, true))
  {
    BrokenAndDrained(job, t, if t.out.col.Broke? then OutputLane else ErrorLane);
  }

  lemma OneWorkerExit(job: Job, steps: seq<Step>, t: State)
    requires job.endpoints <= 1 && Runs(job, Init(job), steps, t) && FalseSuccess(job, t)
    ensures t.phase == Returned(CollectorError) && Full(job, t) && Drained(job, t)
  {
    OneWorkerSafe(job, steps, t);
  }

  /** With one endpoint it takes a collector that cannot subscribe and has nothing to wait for. */
  lemma OneWorkerFalseSuccess(job: Job, steps: seq<Step>, t: State)
    requires job.endpoints <= 1 && Runs(job, Init(job), steps, t) && FalseSuccess(job, t)
    ensures job.endpoints == 1 && (AllEnd(job, true) || AllEnd(job, false))
  {
    OneWorkerExit(job, steps, t);
    FalseSuccessNeedsCommands(job, steps, t);
    if job.endpoints == 0 { NoEndpointsNeverReturns(job, steps, t); }
    AllRunsSafe(job, steps, t);
    CollectorErrorDrained(job, t);
  }

  /**
   * Theorem: whatever crashes, a run can report success with other fields than the sequential loop leaves if and only
   * if there are commands, and either two endpoints, or one and the commands all succeed or all fail.
   */
  lemma FalseSuccessExactly(job: Job)
    ensures CanReportFalseSuccess(job) <==>
            job.outcomes != [] &&
            (job.endpoints >= 2 || (job.endpoints == 1 && (AllEnd(job, true) || AllEnd(job, false))))
  {
    if CanReportFalseSuccess(job) {
      var steps, t :| Runs(job, Init(job), steps, t) && FalseSuccess(job, t);
      FalseSuccessNeedsCommands(job, steps, t);
      if job.endpoints <= 1 { OneWorkerFalseSuccess(job, steps, t); }
    } else if job.outcomes != [] {
      if job.endpoints >= 2 {
        StoresFalseSuccess(job);
      } else if job.endpoints == 1 {
        if AllEnd(job, true) { FalseSuccessHappens(job, true); }
        if AllEnd(job, false) { FalseSuccessHappens(job, false); }
      }
    }
  }
}
