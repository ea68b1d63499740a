/** Which crashes, and which jobs, are safe: exact conditions for the invariant, the barrier and the results. */
module TaskRunRedelivery {
  import opened Bags
  import opened TaskRun
  import opened TaskRunInvariants
  import opened TaskRunSteps
  import opened TaskRunSafety
  import opened TaskRunResults
  import opened TaskRunProgress
  import opened TaskRunTraces

  // ----- which crashes a clean run survives -----

  lemma CrashKeepsResults(job: Job, s: State, step: Step, id: nat)
    requires Enabled(job, s, step) && step.Crash?
    ensures Results(Apply(job, s, step), id) == Results(s, id)
  {
    ResultsFlow(job, s, step, id);
  }

  lemma CrashUnpublishes(job: Job, s: State, step: Step, id: nat)
    requires Enabled(job, s, step) && step.Crash?
    ensures var s', x := Apply(job, s, step), s.workers[step.w];
            Published(s', id) + SettledOf(x)[id] + RepliesOf(x)[id] == Published(s, id)
  {
    WorkerFrame(job, s, step);
    var s' := Apply(job, s, step);
    GatherUpdateAt(s.workers, step.w, s'.workers[step.w], SettledOf, id);
    GatherUpdateAt(s.workers, step.w, s'.workers[step.w], RepliesOf, id);
  }

  /** What a crash does to the balance of results and publishes. */
  lemma CrashUnbalances(job: Job, s: State, step: Step, id: nat)
    requires Enabled(job, s, step) && step.Crash?
    ensures var s', x := Apply(job, s, step), s.workers[step.w];
            && Results(s', id) == Results(s, id)
            && Published(s', id) + SettledOf(x)[id] + RepliesOf(x)[id] == Published(s, id)
            && s'.ledger.redelivered[id] == s.ledger.redelivered[id] + AckingOf(x)[id]
  {
    CrashKeepsResults(job, s, step, id);
    CrashUnpublishes(job, s, step, id);
    SignalLedger(job, s, step, id);
  }

  lemma HeldBack(job: Job, s: State, w: nat)
    requires Enabled(job, s, Crash(w))
    requires ResultsMatch(s) && ResultsMatch(Apply(job, s, Crash(w)))
    requires s.ledger.redelivered == Apply(job, s, Crash(w)).ledger.redelivered == multiset{}
    ensures var x := s.workers[w]; forall id: nat :: SettledOf(x)[id] == RepliesOf(x)[id] == AckingOf(x)[id] == 0
  {
    var s', x := Apply(job, s, Crash(w)), s.workers[w];
    forall id: nat ensures SettledOf(x)[id] == RepliesOf(x)[id] == AckingOf(x)[id] == 0 {
      CrashUnbalances(job, s, Crash(w), id);
      assert Results(s, id) == Published(s, id) && Results(s', id) == Published(s', id);
    }
  }

  lemma SomethingHeldBack(x: Worker) returns (id: nat)
    requires !Redoable(x)
    ensures SettledOf(x)[id] + RepliesOf(x)[id] + AckingOf(x)[id] > 0
  {
    if x.stream != [] {
      id := x.stream[0].id;
      SignalReceived(x.stream, id);
    } else {
      id := x.pc.id;
    }
  }

  /**
   * Theorem: a crash keeps the invariant of clean runs if and only if the worker has no result published and not
   * yet acknowledged, and no finish signal under way.
   */
  lemma CrashSafeExactly(job: Job, s: State, w: nat)
    requires CleanInv(job, s) && Enabled(job, s, Crash(w))
    ensures CleanInv(job, Apply(job, s, Crash(w))) <==> Redoable(s.workers[w])
  {
    if Redoable(s.workers[w]) {
      KeepsCleanInv(job, s, Crash(w));
    } else if CleanInv(job, Apply(job, s, Crash(w))) {
      var id := SomethingHeldBack(s.workers[w]);
      HeldBack(job, s, w);
    }
  }

  // ----- a single worker -----

  predicate AllDead(s: State) {
    forall w :: 0 <= w < |s.workers| ==> !Live(s.workers[w])
  }

  ghost predicate Stored(job: Job, s: State) {
    s.phase == Returned(Collected) ==> |s.outputs| + |s.errors| == |job.outcomes|
  }

  /** The only worker is gone: too early, so that the run waits for ever, or with all results published. */
  ghost predicate Orphaned(job: Job, s: State) {
    && AllDead(s) && !s.panicked
    && ((s.wg > 0 && !Cancelled(s.phase))
        || (s.wg == 0 && Full(job, s) && Stored(job, s) && (s.phase.Returned? ==> s.resWg == 0)))
  }

  ghost predicate OneWorkerInv(job: Job, s: State) {
    && Inv(job, s) && |s.workers| <= 1
    && (CleanInv(job, s) || Orphaned(job, s))
  }

  lemma OnlyWorkerDies(job: Job, s: State, step: Step)
    requires |s.workers| <= 1 && Enabled(job, s, step) && step.Crash?
    ensures AllDead(Apply(job, s, step))
  {
    WorkerFrame(job, s, step);
  }

  lemma CrashKeepsFull(job: Job, s: State, step: Step)
    requires Full(job, s) && Enabled(job, s, step) && step.Crash?
    ensures Full(job, Apply(job, s, step))
  {
    forall id: nat ensures Results(Apply(job, s, step), id) == if id < |job.outcomes| then 1 else 0 {
      CrashKeepsResults(job, s, step, id);
    }
  }

  lemma Orphans(job: Job, s: State, step: Step)
    requires CleanInv(job, s) && |s.workers| <= 1 && Enabled(job, s, step) && step.Crash?
    ensures Orphaned(job, Apply(job, s, step))
  {
    WorkerFrame(job, s, step);
    OnlyWorkerDies(job, s, step);
    if s.wg == 0 {
      FinishedResults(job, s);
      CrashKeepsFull(job, s, step);
    }
  }

  lemma KeepsFull(job: Job, s: State, step: Step)
    requires Full(job, s) && Enabled(job, s, step) && !OfWorker(step)
    ensures Full(job, Apply(job, s, step))
  {
    var s' := Apply(job, s, step);
    forall id: nat ensures Results(s', id) == if id < |job.outcomes| then 1 else 0 {
      ResultsFlow(job, s, step, id);
    }
  }

  /** With one result per command no collector counts down below zero, and at zero all N are stored. */
  lemma FullCounts(job: Job, s: State)
    requires CountersOk(job, s) && Full(job, s)
    ensures s.out.col.Appended? || s.err.col.Appended? ==> s.resWg > 0
    ensures Drains(s.phase) && s.resWg == 0 ==> |s.out.taken| + |s.err.taken| == |job.outcomes|
  {
    ResultsCount(job, s);
  }

  lemma CollectorStaysOrphaned(job: Job, s: State, step: Step)
    requires CountersOk(job, s) && Orphaned(job, s) && Enabled(job, s, step) && OfCollector(step)
    ensures Orphaned(job, Apply(job, s, step))
  {
    CollectorFrame(job, s, step);
    LaneFlow(job, s, step);
    if Full(job, s) {
      KeepsFull(job, s, step);
      FullCounts(job, s);
    }
  }

  lemma OrchestratorStaysOrphaned(job: Job, s: State, step: Step)
    requires CountersOk(job, s) && Orphaned(job, s) && Enabled(job, s, step) && !OfWorker(step) && !OfCollector(step)
    ensures Orphaned(job, Apply(job, s, step))
  {
    OrchestratorFrame(job, s, step);
    if Full(job, s) {
      KeepsFull(job, s, step);
      FullCounts(job, s);
    }
  }

  lemma DeadTakeNoStep(job: Job, s: State, step: Step)
    requires AllDead(s) && Enabled(job, s, step)
    ensures !OfWorker(step)
  {
    if OfWorker(step) { LiveMoves(job, s, step); }
  }

  lemma LiveMoves(job: Job, s: State, step: Step)
    requires Enabled(job, s, step) && OfWorker(step)
    ensures Live(s.workers[step.w])
  {
  }

  lemma StaysOrphaned(job: Job, s: State, step: Step)
    requires Inv(job, s) && Orphaned(job, s) && Enabled(job, s, step)
    ensures Orphaned(job, Apply(job, s, step))
  {
    DeadTakeNoStep(job, s, step);
    if OfCollector(step) {
      CollectorStaysOrphaned(job, s, step);
    } else {
      OrchestratorStaysOrphaned(job, s, step);
    }
  }

  lemma KeepsOneWorkerInv(job: Job, s: State, step: Step)
    requires OneWorkerInv(job, s) && Enabled(job, s, step)
    ensures OneWorkerInv(job, Apply(job, s, step))
  {
    KeepsInv(job, s, step);
    WorkerCount(job, s, step);
    if Orphaned(job, s) {
      StaysOrphaned(job, s, step);
    } else if Clean(s, step) {
      KeepsCleanInv(job, s, step);
    } else {
      Orphans(job, s, step);
    }
  }

  lemma WorkerCount(job: Job, s: State, step: Step)
    requires Enabled(job, s, step)
    ensures |Apply(job, s, step).workers| == |s.workers|
  {
  }

  lemma {:induction false} RunKeepsOneWorkerInv(job: Job, s: State, steps: seq<Step>, t: State)
    requires OneWorkerInv(job, s) && Runs(job, s, steps, t)
    ensures OneWorkerInv(job, t)
    decreases |steps|
  {
    if steps != [] {
      KeepsOneWorkerInv(job, s, steps[0]);
      RunKeepsOneWorkerInv(job, Apply(job, s, steps[0]), steps[1..], t);
    }
  }

  lemma OneWorkerDrained(job: Job, s: State)
    requires OneWorkerInv(job, s) && s.phase == Returned(CollectorError)
    ensures Full(job, s) && Drained(job, s)
  {
    if CleanInv(job, s) {
      DrainedAtZero(job, s);
    } else {
      FullCounts(job, s);
      DrainedWhenFull(job, s);
    }
  }

  /** With a single worker every run, whatever crashes, is as good as a clean one. */
  lemma OneWorkerSafe(job: Job, steps: seq<Step>, t: State)
    requires job.endpoints <= 1 && Runs(job, Init(job), steps, t)
    ensures !t.panicked
    ensures t.wg == 0 ==> Full(job, t)
    ensures t.phase == Returned(Collected) ==> Refines(job, t.taskState, t.outputs, t.errors)
    ensures t.phase == Returned(CollectorError) ==> Full(job, t) && Drained(job, t)
  {
    InitInv(job);
    RunKeepsOneWorkerInv(job, Init(job), steps, t);
    if t.phase == Returned(CollectorError) { OneWorkerDrained(job, t); }
    if CleanInv(job, t) {
      if t.wg == 0 { FinishedResults(job, t); }
      if t.phase == Returned(Collected) { CollectedRefines(job, t); }
    } else if t.phase == Returned(Collected) {
      FullRefines(job, t);
    }
  }

  // ----- nothing to run -----

  lemma NothingToRun(job: Job, steps: seq<Step>, t: State)
    requires job.outcomes == [] && Runs(job, Init(job), steps, t)
    ensures !t.panicked
    ensures t.phase == Returned(Collected) ==> Refines(job, t.taskState, t.outputs, t.errors)
  {
    AllRunsSafe(job, steps, t);
    NoMessages(job, History(t.out), true);
    NoMessages(job, History(t.err), false);
    HandledAreCommands(job, t);
    assert t.ledger.handled == multiset{};
  }

  lemma HandledAreCommands(job: Job, s: State)
    requires Truthful(job, History(s.out), true) && Truthful(job, History(s.err), false) && DroppedOk(job, s)
    requires AllEvident(s)
    ensures forall id :: id in s.ledger.handled ==> id < |job.outcomes|
  {
    forall id | id in s.ledger.handled ensures id < |job.outcomes| {
      EvidentIsCommand(job, s, id);
    }
  }

  lemma EvidentIsCommand(job: Job, s: State, id: nat)
    requires Truthful(job, History(s.out), true) && Truthful(job, History(s.err), false) && DroppedOk(job, s)
    requires Evident(s, id)
    ensures id < |job.outcomes|
  {
    if Ids(s.out)[id] > 0 {
      IdsTruthful(job, History(s.out), true, id);
    } else if Ids(s.err)[id] > 0 {
      IdsTruthful(job, History(s.err), false, id);
    }
  }

  /** The part of the invariant that ties finish signals to commands. */
  lemma SignalsMeanResults(job: Job, steps: seq<Step>, t: State)
    requires Runs(job, Init(job), steps, t)
    ensures CountersOk(job, t) && AllEvident(t) && DroppedOk(job, t)
    ensures Truthful(job, History(t.out), true) && Truthful(job, History(t.err), false)
  {
    AllRunsSafe(job, steps, t);
  }

  lemma OneCommandHandled(job: Job, steps: seq<Step>, t: State)
    requires |job.outcomes| <= 1 && Runs(job, Init(job), steps, t) && t.wg == 0
    ensures AllHaveResults(job, t)
  {
    if job.outcomes != [] {
      OnlyCommandHandled(job, steps, t);
      forall id | 0 <= id < |job.outcomes| ensures Evident(t, id) {
        assert id == 0;
      }
    }
  }

  lemma OnlyCommandHandled(job: Job, steps: seq<Step>, t: State)
    requires |job.outcomes| == 1 && Runs(job, Init(job), steps, t) && t.wg == 0
    ensures Evident(t, 0)
  {
    SignalsMeanResults(job, steps, t);
    SomeHandled(job, t);
    OnlyCommandEvident(job, t);
  }

  lemma OnlyCommandEvident(job: Job, s: State)
    requires Truthful(job, History(s.out), true) && Truthful(job, History(s.err), false) && DroppedOk(job, s)
    requires AllEvident(s) && s.ledger.handled != multiset{} && |job.outcomes| == 1
    ensures Evident(s, 0)
  {
    var id := HandledEvident(s);
    EvidentIsCommand(job, s, id);
  }

  lemma SomeHandled(job: Job, s: State)
    requires CountersOk(job, s) && s.wg == 0 && job.outcomes != []
    ensures s.ledger.handled != multiset{}
  {
  }

  lemma HandledEvident(s: State) returns (id: nat)
    requires AllEvident(s) && s.ledger.handled != multiset{}
    ensures Evident(s, id)
  {
    id :| id in s.ledger.handled;
  }

  // ----- two workers: command 0 is run by both -----

  lemma QueuedWorkers(job: Job)
    requires job.endpoints >= 2
    ensures var ws := AllQueued(job).workers; |ws| >= 2 && ws[0] == ws[1] == IDLE_WORKER
  {
  }

  /** Worker 0 publishes the result of command i and crashes before its finish signal. */
  lemma Republishes(job: Job, s: State, i: nat) returns (t: State)
    requires Reachable(job, false, s) && !s.panicked && i in s.cmdQueue && i < |job.outcomes|
    requires s.workers != [] && s.workers[0] == IDLE_WORKER
    ensures Reachable(job, false, t)
    ensures t == PublishResult(job, s, i).(workers := s.workers[0 := DEAD_WORKER],
                                           ledger := s.ledger.(remade := s.ledger.remade + multiset{i}))
  {
    t := Starts(job, false, s, 0, i);
    t := Publishes(job, false, t, 0, i);
    t := DiesUnsignalled(job, t, 0, i);
    assert s.cmdQueue - multiset{i} + multiset{i} == s.cmdQueue;
    assert t.workers == s.workers[0 := DEAD_WORKER];
  }

  /** Worker 0 has published the result of command 0 and crashed before its finish signal. */
  lemma Republished(job: Job) returns (t: State)
    requires job.endpoints >= 2 && job.outcomes != []
    ensures Reachable(job, false, t) && !t.panicked && t.phase.AwaitFinish? && t.wg == |job.outcomes|
    ensures t.cmdQueue == Range(0, |job.outcomes|) && |t.workers| >= 2 && t.workers[1] == IDLE_WORKER
    ensures t.out == EMPTY_LANE.(queue := t.out.queue) && t.err == EMPTY_LANE.(queue := t.err.queue)
    ensures |t.out.queue| + |t.err.queue| == 1
  {
    ReachAllQueued(job, false);
    QueuedWorkers(job);
    PublishedOne(job, AllQueued(job), 0, 0);
    t := Republishes(job, AllQueued(job), 0);
  }

  /** Worker 1 then handles every command, so that there are N + 1 results. */
  lemma OneTooMany(job: Job) returns (t: State)
    requires job.endpoints >= 2 && job.outcomes != []
    ensures Reachable(job, false, t) && !t.panicked && t.phase.Draining? && t.resWg == |job.outcomes|
    ensures t.out == Lane(t.out.queue, Idle, []) && t.err == Lane(t.err.queue, Idle, [])
    ensures |t.out.queue| + |t.err.queue| == |job.outcomes| + 1
  {
    t := Republished(job);
    t := HandleAll(job, false, t, 1, Range(0, |job.outcomes|));
    t := CreatesConsumers(job, false, t);
    t := Subscribes(job, false, t, true, true);
  }

  /** The collectors append one result more before the orchestrator goes on after cmdResWg.Wait(). */
  lemma StoresOneTooMany(job: Job) returns (t: State)
    requires job.endpoints >= 2 && job.outcomes != []
    ensures Reachable(job, false, t) && t.phase == Returned(Collected)
    ensures |t.outputs| + |t.errors| == |job.outcomes| + 1
  {
    t := OneTooMany(job);
    var n := |job.outcomes|;
    var first := if |t.out.queue| <= n then |t.out.queue| else n;
    t := DrainsSome(job, false, t, OutputLane, first);
    t := DrainsSome(job, false, t, ErrorLane, n - first);
    t := Appends(job, false, t, if t.out.queue != [] then OutputLane else ErrorLane);
    t := Finishes(job, false, t);
  }

  /** Worker 0 finishes command i and crashes before its acknowledgement. */
  lemma Refinishes(job: Job, s: State, i: nat) returns (t: State)
    requires Reachable(job, false, s) && !s.panicked && s.wg > 0 && i in s.cmdQueue && i < |job.outcomes|
    requires s.workers != [] && s.workers[0] == IDLE_WORKER
    ensures Reachable(job, false, t) && !t.panicked && t.phase == s.phase && t.wg == s.wg - 1
    ensures t.cmdQueue == s.cmdQueue && t.workers == s.workers[0 := DEAD_WORKER]
    ensures t.out == PublishResult(job, s, i).out && t.err == PublishResult(job, s, i).err
    ensures Missing(t) == Missing(s) && t.ledger.skipped == s.ledger.skipped
  {
    t := FinishOne(job, false, s, 0, i);
    t := Dies(job, t, 0, i);
    assert s.cmdQueue - multiset{i} + multiset{i} == s.cmdQueue;
    assert t.workers == s.workers[0 := DEAD_WORKER];
  }

  lemma NoneEvidentYet(job: Job, id: nat)
    ensures Results(AllQueued(job), id) == 0
  {
  }

  /** Worker 0 has finished command 0 and crashed before its acknowledgement. */
  lemma Refinished(job: Job) returns (t: State)
    requires job.endpoints >= 2 && job.outcomes != []
    ensures Reachable(job, false, t) && !t.panicked && t.phase.AwaitFinish? && t.wg == |job.outcomes| - 1
    ensures t.cmdQueue == Range(0, |job.outcomes|) && |t.workers| >= 2 && t.workers[1] == IDLE_WORKER
    ensures forall id: nat :: id != 0 ==> Results(t, id) == 0
  {
    ReachAllQueued(job, false);
    QueuedWorkers(job);
    var s := AllQueued(job);
    t := Refinishes(job, s, 0);
    forall id: nat | id != 0 ensures Results(t, id) == 0 {
      PublishedOne(job, s, 0, id);
      NoneEvidentYet(job, id);
      assert Results(t, id) == Results(PublishResult(job, s, 0), id);
    }
  }

  /** Worker 1 handles every command but the last, among them command 0 again. */
  lemma WaitsTooShort(job: Job) returns (t: State)
    requires job.endpoints >= 2 && |job.outcomes| >= 2
    ensures Reachable(job, false, t) && t.phase.AwaitFinish? && t.wg == 0
    ensures !Evident(t, |job.outcomes| - 1) && !AllHaveResults(job, t)
  {
    var s := Refinished(job);
    var last := |job.outcomes| - 1;
    t := HandleAll(job, false, s, 1, Range(0, last));
    NotHandled(s, t, Range(0, last), last);
    OneMissing(job, t, last);
  }

  lemma NotHandled(s: State, t: State, done: multiset<nat>, id: nat)
    requires Handled(s, t, done) && Results(s, id) == 0 && id !in done
    ensures !Evident(t, id)
  {
    assert Results(t, id) == Results(s, id) + done[id];
  }

  /** The last command is skipped, and command 0 handled twice in its place. */
  lemma PassesWithSkipped(job: Job) returns (t: State)
    requires job.endpoints >= 2 && |job.outcomes| >= 2
    ensures Reachable(job, false, t) && t.phase.AwaitFinish? && t.wg == 0
    ensures t.ledger.skipped == multiset{|job.outcomes| - 1}
  {
    t := SkipsLast(job);
    QueuedWorkers(job);
    t := Refinishes(job, t, 0);
    t := HandleAll(job, false, t, 1, Range(0, |job.outcomes| - 1));
  }

  lemma SkipsLast(job: Job) returns (t: State)
    requires job.outcomes != []
    ensures var last := |job.outcomes| - 1;
            && Reachable(job, false, t)
            && t == AllQueued(job).(cmdQueue := Range(0, last), ledger := EMPTY_LEDGER.(skipped := multiset{last}))
  {
    var last := |job.outcomes| - 1;
    QueueAll(job, false, last);
    assert multiset{} + multiset{last} == multiset{last};
    t := Skips(job, Queued(job, last), last);
    t := Then(job, false, t, AllSent);
  }

  lemma Skips(job: Job, s: State, i: nat) returns (t: State)
    requires Reachable(job, false, s) && !s.panicked && s.phase == NextCommand(i) && i < |job.outcomes|
    ensures Reachable(job, false, t) && t == Skip(s, i)
  {
    t := Then(job, false, s, SkipCommand);
  }

  /** Worker 1 handles every command, and the counter is one finish signal short. */
  lemma CountsTooMany(job: Job) returns (t: State)
    requires job.endpoints >= 2 && job.outcomes != []
    ensures Reachable(job, false, t) && t.panicked
  {
    t := Refinished(job);
    t := HandleAll(job, false, t, 1, Range(1, |job.outcomes|));
    t := FinishOne(job, false, t, 1, 0);
  }

  // ----- the theorems -----

  /** Every run that stores results, whatever crashes, refines the sequential loop. */
  ghost predicate AlwaysRefines(job: Job) {
    forall steps, t :: Runs(job, Init(job), steps, t) && t.phase == Returned(Collected) ==>
      Refines(job, t.taskState, t.outputs, t.errors)
  }

  /** When wg.Wait() passes, every command has a result published, vanished or given up. */
  ghost predicate AlwaysWaitsForAll(job: Job) {
    forall steps, t :: Runs(job, Init(job), steps, t) && t.phase.AwaitFinish? && t.wg == 0 ==> AllHaveResults(job, t)
  }

  predicate AllHaveResults(job: Job, t: State) {
    forall id :: 0 <= id < |job.outcomes| ==> Evident(t, id)
  }

  /** No run makes a WaitGroup counter negative. */
  ghost predicate NeverPanics(job: Job) {
    forall steps, t :: Runs(job, Init(job), steps, t) ==> !t.panicked
  }

  lemma NotAlwaysRefines(job: Job)
    requires job.endpoints >= 2 && job.outcomes != []
    ensures !AlwaysRefines(job)
  {
    var t := StoresOneTooMany(job);
    var steps :| Runs(job, Init(job), steps, t);
    if Refines(job, t.taskState, t.outputs, t.errors) {
      RefinesSize(job, t.taskState, t.outputs, t.errors);
    }
  }

  lemma NotAlwaysWaitsForAll(job: Job)
    requires job.endpoints >= 2 && |job.outcomes| >= 2
    ensures !AlwaysWaitsForAll(job)
  {
    var t := WaitsTooShort(job);
    WaitedTooShort(job, t);
  }

  lemma WaitedTooShort(job: Job, t: State)
    requires Reachable(job, false, t) && t.phase.AwaitFinish? && t.wg == 0 && !AllHaveResults(job, t)
    ensures !AlwaysWaitsForAll(job)
  {
    var steps :| Runs(job, Init(job), steps, t);
  }

  lemma OneMissing(job: Job, t: State, id: nat)
    requires id < |job.outcomes| && !Evident(t, id)
    ensures !AllHaveResults(job, t)
  {
  }

  lemma SometimesPanics(job: Job)
    requires job.endpoints >= 2 && job.outcomes != []
    ensures !NeverPanics(job)
  {
    var t := CountsTooMany(job);
    var steps :| Runs(job, Init(job), steps, t);
  }

  /**
   * Theorem: whatever crashes, every run that stores results refines the sequential loop, if and only if the task
   * runs on at most one endpoint or has no command.
   */
  lemma RefinesExactly(job: Job)
    ensures AlwaysRefines(job) <==> job.endpoints <= 1 || job.outcomes == []
  {
    if job.endpoints <= 1 || job.outcomes == [] {
      forall steps, t | Runs(job, Init(job), steps, t) && t.phase == Returned(Collected)
        ensures Refines(job, t.taskState, t.outputs, t.errors)
      {
        if job.outcomes == [] { NothingToRun(job, steps, t); } else { OneWorkerSafe(job, steps, t); }
      }
    } else {
      NotAlwaysRefines(job);
    }
  }

  /**
   * Theorem: whatever crashes, every command has a result published, vanished or given up when wg.Wait() passes, if
   * and only if the task runs on at most one endpoint or has at most one command.
   */
  lemma WaitMeansAllFinished(job: Job)
    ensures AlwaysWaitsForAll(job) <==> job.endpoints <= 1 || |job.outcomes| <= 1
  {
    if job.endpoints <= 1 || |job.outcomes| <= 1 {
      forall steps, t | Runs(job, Init(job), steps, t) && t.phase.AwaitFinish? && t.wg == 0
        ensures AllHaveResults(job, t)
      {
        if job.endpoints <= 1 { OneWorkerSafe(job, steps, t); } else { OneCommandHandled(job, steps, t); }
      }
    } else {
      NotAlwaysWaitsForAll(job);
    }
  }

  /** Theorem: no run makes a WaitGroup counter negative, if and only if at most one endpoint or no command. */
  lemma NeverPanicsExactly(job: Job)
    ensures NeverPanics(job) <==> job.endpoints <= 1 || job.outcomes == []
  {
    if job.endpoints <= 1 || job.outcomes == [] {
      forall steps, t | Runs(job, Init(job), steps, t) ensures !t.panicked {
        if job.outcomes == [] { NothingToRun(job, steps, t); } else { OneWorkerSafe(job, steps, t); }
      }
    } else {
      SometimesPanics(job);
    }
  }
}
