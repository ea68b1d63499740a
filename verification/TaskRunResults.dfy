/** A completed clean run has computed what a plain loop over the commands computes. */
module TaskRunResults {
  import opened Bags
  import opened TaskRun
  import opened TaskRunInvariants
  import opened TaskRunSteps
  import opened TaskRunSafety

  // ----- the sequential loop, by command numbers -----

  /** The commands below k with the given exit status, in order. */
  function Indices(outcomes: seq<Outcome>, k: nat, ok: bool): seq<nat>
    requires k <= |outcomes|
  {
    if k == 0 then []
    else if outcomes[k - 1].ok == ok then Indices(outcomes, k - 1, ok) + [k - 1]
    else Indices(outcomes, k - 1, ok)
  }

  function OutputAt(outcomes: seq<Outcome>): nat -> string {
    (i: nat) => if i < |outcomes| then outcomes[i].output else ""
  }

  lemma BagAppend(s: seq<nat>, x: nat, i: nat)
    ensures multiset(s + [x])[i] == multiset(s)[i] + if i == x then 1 else 0
  {
  }

  lemma {:induction false} IndicesBag(outcomes: seq<Outcome>, k: nat, ok: bool, i: nat)
    requires k <= |outcomes|
    ensures multiset(Indices(outcomes, k, ok))[i] == if i < k && outcomes[i].ok == ok then 1 else 0
  {
    if k > 0 {
      IndicesBag(outcomes, k - 1, ok, i);
      BagAppend(Indices(outcomes, k - 1, ok), k - 1, i);
    }
  }

  lemma {:induction false} SequentialByIndex(outcomes: seq<Outcome>, k: nat, ok: bool)
    requires k <= |outcomes|
    ensures Sequential(outcomes[..k], ok) == Map(Indices(outcomes, k, ok), OutputAt(outcomes))
  {
    if k > 0 {
      SequentialByIndex(outcomes, k - 1, ok);
      assert outcomes[..k][..k - 1] == outcomes[..k - 1];
    }
  }

  // ----- a collected lane, by command numbers -----

  function IdOf(m: Msg): nat { m.id }

  lemma {:induction false} IdsBag(q: seq<Msg>)
    ensures multiset(Map(q, IdOf)) == Gather(q, MsgId)
  {
    if q != [] {
      var last := |q| - 1;
      IdsBag(q[..last]);
      assert Map(q, IdOf) == Map(q[..last], IdOf) + [q[last].id];
    }
  }

  lemma {:induction false} IdsTruthful(job: Job, q: seq<Msg>, ok: bool, id: nat)
    requires Truthful(job, q, ok) && Gather(q, MsgId)[id] > 0
    ensures id < |job.outcomes| && job.outcomes[id].ok == ok
  {
    var last := |q| - 1;
    if id != q[last].id {
      IdsTruthful(job, q[..last], ok, id);
    }
  }

  lemma BodiesByIndex(job: Job, q: seq<Msg>, ok: bool)
    requires Truthful(job, q, ok)
    ensures Bodies(q) == Map(Map(q, IdOf), OutputAt(job.outcomes))
  {
  }

  lemma LaneIds(job: Job, q: seq<Msg>, ok: bool)
    requires forall id: nat ::
               Gather(q, MsgId)[id] == if id < |job.outcomes| && job.outcomes[id].ok == ok then 1 else 0
    ensures multiset(Map(q, IdOf)) == multiset(Indices(job.outcomes, |job.outcomes|, ok))
  {
    IdsBag(q);
    forall id: nat ensures Gather(q, MsgId)[id] == multiset(Indices(job.outcomes, |job.outcomes|, ok))[id] {
      IndicesBag(job.outcomes, |job.outcomes|, ok, id);
    }
  }

  /** A lane holding each command of one exit status once carries the outputs the sequential loop collects. */
  lemma LaneRefines(job: Job, q: seq<Msg>, ok: bool)
    requires Truthful(job, q, ok)
    requires forall id: nat ::
               Gather(q, MsgId)[id] == if id < |job.outcomes| && job.outcomes[id].ok == ok then 1 else 0
    ensures multiset(Bodies(q)) == multiset(Sequential(job.outcomes, ok))
  {
    LaneIds(job, q, ok);
    BodiesByIndex(job, q, ok);
    SequentialByIndex(job.outcomes, |job.outcomes|, ok);
    assert job.outcomes[..|job.outcomes|] == job.outcomes;
    MapBag(Map(q, IdOf), Indices(job.outcomes, |job.outcomes|, ok), OutputAt(job.outcomes));
  }

  // ----- the drained state -----

  /** Once `resWg` is zero, the collectors have appended all N results and nothing is left to append. */
  predicate Drained(job: Job, s: State) {
    && History(s.out) == s.out.taken && s.out.queue == [] && !s.out.col.Holding?
    && History(s.err) == s.err.taken && s.err.queue == [] && !s.err.col.Holding?
    && |s.out.taken| + |s.err.taken| == |job.outcomes|
    && s.ledger.dropped == s.ledger.vanished == multiset{}
  }

  lemma ResultsCount(job: Job, s: State)
    requires Full(job, s)
    ensures |History(s.out)| + |History(s.err)| + |Missing(s)| == |job.outcomes|
  {
    forall id: nat
      ensures Ids(s.out)[id] + Ids(s.err)[id] + Missing(s)[id] == if id < |job.outcomes| then 1 else 0
    {
      assert Results(s, id) == if id < |job.outcomes| then 1 else 0;
    }
    SplitSize(Ids(s.out), Ids(s.err), Missing(s), |job.outcomes|);
    HistorySize(s.out);
    HistorySize(s.err);
  }

  lemma DrainedWhenFull(job: Job, s: State)
    requires Full(job, s) && |s.out.taken| + |s.err.taken| >= |job.outcomes|
    ensures Drained(job, s)
  {
    ResultsCount(job, s);
    assert |Missing(s)| == |s.ledger.dropped| + |s.ledger.vanished|;
  }

  lemma DrainedAtZero(job: Job, s: State)
    requires CleanInv(job, s) && Drains(s.phase) && s.resWg == 0
    ensures Drained(job, s) && Full(job, s)
  {
    FinishedResults(job, s);
    DrainedWhenFull(job, s);
  }

  /** Every command has exactly one result published, vanished or given up. */
  ghost predicate Full(job: Job, s: State) {
    forall id: nat :: Results(s, id) == if id < |job.outcomes| then 1 else 0
  }

  lemma DrainedLane(job: Job, s: State, id: nat)
    requires Inv(job, s) && Full(job, s) && Drained(job, s)
    ensures Gather(s.out.taken, MsgId)[id] == if id < |job.outcomes| && job.outcomes[id].ok then 1 else 0
    ensures Gather(s.err.taken, MsgId)[id] == if id < |job.outcomes| && !job.outcomes[id].ok then 1 else 0
  {
    assert Results(s, id) == if id < |job.outcomes| then 1 else 0;
    if Gather(s.out.taken, MsgId)[id] > 0 { IdsTruthful(job, s.out.taken, true, id); }
    if Gather(s.err.taken, MsgId)[id] > 0 { IdsTruthful(job, s.err.taken, false, id); }
  }

  lemma DrainedRefines(job: Job, s: State)
    requires Inv(job, s) && Full(job, s) && Drained(job, s)
    ensures multiset(Bodies(s.out.taken)) == multiset(Sequential(job.outcomes, true))
    ensures multiset(Bodies(s.err.taken)) == multiset(Sequential(job.outcomes, false))
  {
    forall id: nat
      ensures Gather(s.out.taken, MsgId)[id] == if id < |job.outcomes| && job.outcomes[id].ok == true then 1 else 0
      ensures Gather(s.err.taken, MsgId)[id] == if id < |job.outcomes| && job.outcomes[id].ok == false then 1 else 0
    {
      DrainedLane(job, s, id);
    }
    LaneRefines(job, s.out.taken, true);
    LaneRefines(job, s.err.taken, false);
  }

  // ----- the theorems -----

  /** Some command exits with an error. */
  predicate SomeFails(job: Job) {
    exists i :: 0 <= i < |job.outcomes| && !job.outcomes[i].ok
  }

  lemma {:induction false} SequentialErrors(outcomes: seq<Outcome>, k: nat)
    requires k <= |outcomes|
    ensures Sequential(outcomes[..k], false) != [] <==> exists i :: 0 <= i < k && !outcomes[i].ok
  {
    if k > 0 {
      SequentialErrors(outcomes, k - 1);
      assert outcomes[..k][..k - 1] == outcomes[..k - 1];
    }
  }

  /**
   * The fields the run leaves in the task executor are those of the sequential loop, up to the order of
   * completion. CompletedTask is never stored: a run without failing commands leaves RunningTask.
   */
  ghost predicate Refines(job: Job, taskState: TaskState, outputs: seq<string>, errors: seq<string>) {
    && multiset(outputs) == multiset(Sequential(job.outcomes, true))
    && multiset(errors) == multiset(Sequential(job.outcomes, false))
    && taskState == if SomeFails(job) then CompleteTaskWithErrors else RunningTask
  }

  lemma {:induction false} SequentialSize(outcomes: seq<Outcome>)
    ensures |Sequential(outcomes, true)| + |Sequential(outcomes, false)| == |outcomes|
  {
    if outcomes != [] {
      SequentialSize(outcomes[..|outcomes| - 1]);
    }
  }

  lemma RefinesSize(job: Job, state: TaskState, outputs: seq<string>, errors: seq<string>)
    requires Refines(job, state, outputs, errors)
    ensures |outputs| + |errors| == |job.outcomes|
  {
    SequentialSize(job.outcomes);
    assert |multiset(outputs)| == |outputs| && |multiset(errors)| == |errors|;
    assert |multiset(Sequential(job.outcomes, true))| == |Sequential(job.outcomes, true)|;
    assert |multiset(Sequential(job.outcomes, false))| == |Sequential(job.outcomes, false)|;
  }

  lemma NoMessages(job: Job, q: seq<Msg>, ok: bool)
    requires Truthful(job, q, ok) && forall i :: 0 <= i < |job.outcomes| ==> job.outcomes[i].ok != ok
    ensures q == []
  {
    if q != [] { TruthfulStatus(job, q, ok); }
  }

  lemma TruthfulStatus(job: Job, q: seq<Msg>, ok: bool)
    requires Truthful(job, q, ok) && q != []
    ensures exists i :: 0 <= i < |job.outcomes| && job.outcomes[i].ok == ok
  {
    assert job.outcomes[q[0].id].ok == ok;
  }

  lemma CollectedRefines(job: Job, t: State)
    requires CleanInv(job, t) && t.phase == Returned(Collected)
    ensures Refines(job, t.taskState, t.outputs, t.errors)
    ensures t.ledger.skipped == t.ledger.dropped == t.ledger.vanished == multiset{}
    ensures |t.outputs| + |t.errors| == |job.outcomes|
  {
    FinishedState(job, t);
    FullRefines(job, t);
  }

  /** A state that holds one result per command and has stored N of them has stored what the loop collects. */
  lemma FullRefines(job: Job, t: State)
    requires Inv(job, t) && Full(job, t)
    requires t.phase == Returned(Collected) && |t.outputs| + |t.errors| == |job.outcomes|
    ensures Refines(job, t.taskState, t.outputs, t.errors) && t.ledger.dropped == t.ledger.vanished == multiset{}
  {
    CollectedFields(job, t);
    DrainedRefines(job, t);
    ErrorsShown(job, t.errors);
  }

  lemma CollectedFields(job: Job, t: State)
    requires Inv(job, t) && Full(job, t)
    requires t.phase == Returned(Collected) && |t.outputs| + |t.errors| == |job.outcomes|
    ensures Drained(job, t) && t.outputs == Bodies(t.out.taken) && t.errors == Bodies(t.err.taken)
  {
    assert |Bodies(t.out.taken)| == |t.out.taken| && |Bodies(t.err.taken)| == |t.err.taken|;
    DrainedWhenFull(job, t);
  }

  /** A rearrangement of the sequential loop's errors is empty exactly when no command fails. */
  lemma ErrorsShown(job: Job, errors: seq<string>)
    requires multiset(errors) == multiset(Sequential(job.outcomes, false))
    ensures errors != [] <==> SomeFails(job)
  {
    SequentialErrors(job.outcomes, |job.outcomes|);
    assert job.outcomes[..|job.outcomes|] == job.outcomes;
    assert |multiset(errors)| == |errors|;
    assert |multiset(Sequential(job.outcomes, false))| == |Sequential(job.outcomes, false)|;
  }

  /** Theorem: whatever the interleaving and the split among workers, a completed clean run refines the loop. */
  lemma CompletedRunRefinesLoop(job: Job, steps: seq<Step>, t: State)
    requires CleanRuns(job, Init(job), steps, t) && t.phase == Returned(Collected)
    ensures Refines(job, t.taskState, t.outputs, t.errors)
    ensures |t.outputs| + |t.errors| == |job.outcomes|
  {
    CleanRunsSafe(job, steps, t);
    CollectedRefines(job, t);
  }

  /** A run that returns in any other way has left the task executor untouched. */
  lemma OtherReturnsStoreNothing(job: Job, steps: seq<Step>, t: State)
    requires Runs(job, Init(job), steps, t) && t.phase.Returned? && !t.phase.exit.Collected?
    ensures t.taskState == RunningTask && t.outputs == [] && t.errors == []
  {
    AllRunsSafe(job, steps, t);
  }

  /** Theorem: after cmdResWg.Wait() the collectors' buffers hold all N results and no step changes them. */
  lemma BuffersStable(job: Job, steps: seq<Step>, t: State, step: Step)
    requires CleanRuns(job, Init(job), steps, t) && Drains(t.phase) && t.resWg == 0
    requires Enabled(job, t, step)
    ensures |t.out.taken| + |t.err.taken| == |job.outcomes|
    ensures multiset(Bodies(t.out.taken)) == multiset(Sequential(job.outcomes, true))
    ensures multiset(Bodies(t.err.taken)) == multiset(Sequential(job.outcomes, false))
    ensures Apply(job, t, step).out.taken == t.out.taken && Apply(job, t, step).err.taken == t.err.taken
  {
    CleanRunsSafe(job, steps, t);
    DrainedAtZero(job, t);
    DrainedRefines(job, t);
    if OfWorker(step) {
      WorkerFrame(job, t, step);
      if step.PublishAttempt? { PublishFlow(job, t, step); }
    } else if OfCollector(step) {
      CollectorFrame(job, t, step);
      assert !step.Append?;
      assert LaneOf(Apply(job, t, step), step.kind).taken == LaneOf(t, step.kind).taken;
    } else {
      OrchestratorFrame(job, t, step);
    }
  }
}
