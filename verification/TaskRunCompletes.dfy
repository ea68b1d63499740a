/** Every run without lasting faults returns, and leaves what the sequential loop leaves. */
module TaskRunCompletes {
  import opened Publish
  import opened TaskRun
  import opened TaskRunInvariants
  import opened TaskRunSafety
  import opened TaskRunResults
  import opened TaskRunProgress
  import opened TaskRunStuck
  import opened TaskRunTraces

  /** The attempt puts the message into its queue, or fails and is not the last of the ten. */
  predicate Retries(call: Call, verdict: Verdict) {
    call.Trying? ==> verdict.Landed? || (verdict.Denied? && call.attempt + 1 < MAX_RETRIES)
  }

  /** Another worker than w consumes or may still connect. */
  predicate Survivor(s: State, w: int) {
    exists v :: 0 <= v < |s.workers| && v != w && Live(s.workers[v])
  }

  /**
   * The step is not a lasting fault: no endpoint is refused, a worker that breaks or crashes leaves another one and
   * no work half published, every publisher and consumer is created, and every message is accepted by its tenth
   * attempt at the latest.
   */
  predicate Faultless(s: State, step: Step) {
    match step
    case Refuse(_) => false
    case ConnectBroken(w) => Survivor(s, w)
    case Crash(w) => w < |s.workers| && Redoable(s.workers[w]) && Survivor(s, w)
    case SkipCommand => false
    case CreateConsumer(ok) => ok
    case Subscribe(_, ok) => ok
    case SendAttempt(verdict) => s.phase.Sending? ==> Retries(s.phase.call, verdict)
    case PublishAttempt(w, verdict) =>
      w < |s.workers| && s.workers[w].pc.Publishing? ==> Retries(s.workers[w].pc.call, verdict)
    case _ => true
  }

  predicate FaultlessRuns(job: Job, s: State, steps: seq<Step>, t: State)
    decreases |steps|
  {
    if steps == [] then s == t
    else Enabled(job, s, steps[0]) && Faultless(s, steps[0]) &&
         FaultlessRuns(job, Apply(job, s, steps[0]), steps[1..], t)
  }

  // ----- what such runs keep -----

  predicate SoundWorker(x: Worker) {
    && !x.link.Refused?
    && (x.pc.Publishing? ==> !x.pc.call.GaveUp?)
  }

  predicate SoundPhase(phase: Phase) {
    && (phase.Sending? ==> !phase.call.GaveUp?)
    && (phase.Returned? ==> phase.exit.Collected?)
  }

  /** Nothing has gone wrong that the rest of the run would notice, apart from results and commands given up. */
  predicate Sound(job: Job, s: State) {
    && SoundPhase(s.phase)
    && (forall w :: 0 <= w < |s.workers| ==> SoundWorker(s.workers[w]))
    && !s.out.col.Broke? && !s.err.col.Broke?
    && (!Cancelled(s.phase) && job.endpoints > 0 ==> Survivor(s, -1))
  }

  /** No command and no result has got lost between s and t. */
  predicate SameLosses(s: State, t: State) {
    && t.ledger.skipped == s.ledger.skipped
    && t.ledger.dropped == s.ledger.dropped
    && t.ledger.vanished == s.ledger.vanished
  }

  lemma WorkerStaysSound(job: Job, s: State, step: Step)
    requires Sound(job, s) && Enabled(job, s, step) && Faultless(s, step) && OfWorker(step)
    ensures SoundWorker(WorkerAfter(job, s.workers[step.w], step))
    ensures Apply(job, s, step).ledger.dropped == s.ledger.dropped
    ensures Apply(job, s, step).ledger.vanished == s.ledger.vanished
    ensures !Apply(job, s, step).out.col.Broke? && !Apply(job, s, step).err.col.Broke?
  {
    assert SoundWorker(s.workers[step.w]);
  }

  /** A worker that goes leaves another one; no other step takes a worker away before cancel(). */
  lemma SomeoneStays(job: Job, s: State, step: Step)
    requires Enabled(job, s, step) && Faultless(s, step) && OfWorker(step)
    requires !Cancelled(s.phase) && Survivor(s, -1)
    ensures Survivor(Apply(job, s, step), -1)
  {
    WorkerFrame(job, s, step);
    var s' := Apply(job, s, step);
    if step.Crash? || step.ConnectBroken? {
      var v :| 0 <= v < |s.workers| && v != step.w && Live(s.workers[v]);
      assert s'.workers[v] == s.workers[v];
    } else {
      var v :| 0 <= v < |s.workers| && v != -1 && Live(s.workers[v]);
      LiveStays(job, s.workers[step.w], step);
      assert v != step.w ==> s'.workers[v] == s.workers[v];
    }
  }

  lemma LiveStays(job: Job, x: Worker, step: Step)
    requires OfWorker(step) && WorkerReady(job, x, step) && Live(x)
    requires !step.Crash? && !step.ConnectBroken? && !step.Refuse? && !step.Stop?
    ensures Live(WorkerAfter(job, x, step))
  {
  }

  lemma OrchestratorStaysSound(job: Job, s: State, step: Step)
    requires Sound(job, s) && Enabled(job, s, step) && Faultless(s, step) && !OfWorker(step) && !OfCollector(step)
    ensures SoundPhase(Apply(job, s, step).phase) && Apply(job, s, step).ledger.skipped == s.ledger.skipped
    ensures Cancelled(s.phase) ==> Cancelled(Apply(job, s, step).phase)
  {
  }

  lemma CollectorStaysSound(job: Job, s: State, step: Step)
    requires Sound(job, s) && Enabled(job, s, step) && Faultless(s, step) && OfCollector(step)
    ensures !Apply(job, s, step).out.col.Broke? && !Apply(job, s, step).err.col.Broke?
  {
  }

  lemma StaysSound(job: Job, s: State, step: Step)
    requires Sound(job, s) && Enabled(job, s, step) && Faultless(s, step)
    ensures var s' := Apply(job, s, step);
            Sound(job, s') && SameLosses(s, s')
  {
    if OfWorker(step) {
      WorkerFrame(job, s, step);
      WorkerStaysSound(job, s, step);
      if !Cancelled(s.phase) && job.endpoints > 0 { SomeoneStays(job, s, step); }
    } else if OfCollector(step) {
      CollectorFrame(job, s, step);
      CollectorStaysSound(job, s, step);
    } else {
      OrchestratorFrame(job, s, step);
      OrchestratorStaysSound(job, s, step);
    }
  }

  lemma FaultlessStep(job: Job, s: State, step: Step)
    requires CleanInv(job, s) && Sound(job, s) && Enabled(job, s, step) && Faultless(s, step)
    ensures var s' := Apply(job, s, step);
            CleanInv(job, s') && Sound(job, s') && SameLosses(s, s')
  {
    KeepsCleanInv(job, s, step);
    StaysSound(job, s, step);
  }

  lemma {:induction false} FaultlessRunKeeps(job: Job, s: State, steps: seq<Step>, t: State)
    requires CleanInv(job, s) && Sound(job, s) && FaultlessRuns(job, s, steps, t)
    ensures CleanInv(job, t) && Sound(job, t)
    ensures SameLosses(s, t)
    decreases |steps|
  {
    if steps != [] {
      FaultlessStep(job, s, steps[0]);
      FaultlessRunKeeps(job, Apply(job, s, steps[0]), steps[1..], t);
    }
  }

  lemma {:induction false} FaultlessRunsAreRuns(job: Job, s: State, steps: seq<Step>, t: State)
    requires FaultlessRuns(job, s, steps, t)
    ensures Runs(job, s, steps, t) && CleanRuns(job, s, steps, t)
    decreases |steps|
  {
    if steps != [] {
      FaultlessRunsAreRuns(job, Apply(job, s, steps[0]), steps[1..], t);
    }
  }

  lemma {:induction false} CleanRunsAreRuns(job: Job, s: State, steps: seq<Step>, t: State)
    requires CleanRuns(job, s, steps, t)
    ensures Runs(job, s, steps, t)
    decreases |steps|
  {
    if steps != [] {
      CleanRunsAreRuns(job, Apply(job, s, steps[0]), steps[1..], t);
    }
  }

  // ----- such runs never get stuck -----

  /** Where anything but a crash can happen, something faultless can. */
  function Instead(step: Step): Step {
    match step
    case Refuse(w) => Connect(w)
    case ConnectBroken(w) => Connect(w)
    case SkipCommand => OpenPublisher
    case CreateConsumer(_) => CreateConsumer(true)
    case Subscribe(kind, _) => Subscribe(kind, true)
    case SendAttempt(_) => SendAttempt(Landed)
    case PublishAttempt(w, _) => PublishAttempt(w, Landed)
    case _ => step
  }

  lemma InsteadWorks(job: Job, s: State, step: Step)
    requires Enabled(job, s, step) && !step.Crash?
    ensures Enabled(job, s, Instead(step)) && Faultless(s, Instead(step)) && !Instead(step).Crash?
  {
  }

  /** While nothing is cancelled, the workers left past the barrier consume. */
  lemma WorkersConsume(job: Job, s: State)
    requires WorkersOk(job, s) && Sound(job, s) && s.phase.AwaitFinish? && job.endpoints > 0
    ensures SomeWorker(s, Open)
  {
    NoRefusalAfterBarrier(job, s);
    var v :| 0 <= v < |s.workers| && v != -1 && Live(s.workers[v]);
  }

  lemma NoEndpointsNoCommands(job: Job, s: State)
    requires CleanInv(job, s) && s.phase.AwaitFinish? && job.outcomes == []
    ensures s.wg <= 0
  {
  }

  lemma NoneRefused(job: Job, s: State)
    requires Sound(job, s)
    ensures !SomeWorker(s, Refused)
  {
    forall w | 0 <= w < |s.workers| ensures s.workers[w].link != Refused {
      assert SoundWorker(s.workers[w]);
    }
  }

  /** Where a sound run stops: returned, or held up by exactly the commands or results given up. */
  lemma SoundAndStuck(job: Job, s: State)
    requires CleanInv(job, s) && Sound(job, s) && Quiescent(job, s)
    requires job.endpoints > 0 || job.outcomes == []
    ensures if s.ledger.skipped != multiset{} then s.phase.AwaitFinish? && s.wg == |s.ledger.skipped|
            else if Missing(s) != multiset{} then s.phase.Draining? && s.resWg == |Missing(s)|
            else s.phase == Returned(Collected)
  {
    QuiescentState(job, s);
    NoneRefused(job, s);
    if s.phase.AwaitFinish? {
      if job.endpoints > 0 { WorkersConsume(job, s); } else { NoEndpointsNoCommands(job, s); }
    } else {
      FinishedState(job, s);
      if s.phase.Returned? { DrainedAtZero(job, s); }
    }
  }

  lemma InitSound(job: Job)
    ensures Sound(job, Init(job))
  {
    if job.endpoints > 0 { assert Live(Init(job).workers[0]); }
  }

  /**
   * Theorem: with at least one endpoint, or nothing to run, every run without lasting faults takes at most
   * 33N + 2W + 12 steps and 21N + 1 more for each crash, and once it can go no further it has returned with the
   * result of the sequential loop.
   */
  lemma EveryFaultlessRunCompletes(job: Job, steps: seq<Step>, t: State)
    requires job.endpoints > 0 || job.outcomes == []
    requires FaultlessRuns(job, Init(job), steps, t)
    ensures |steps| <= 33 * |job.outcomes| + 2 * job.endpoints + 12 + Crashes(steps) * CrashCost(job)
    ensures Quiescent(job, t) ==>
              t.phase == Returned(Collected) && Refines(job, t.taskState, t.outputs, t.errors)
  {
    FaultlessRunsAreRuns(job, Init(job), steps, t);
    EveryRunEnds(job, steps, t);
    if Quiescent(job, t) {
      QuiescentRefines(job, steps, t);
    }
  }

  lemma QuiescentRefines(job: Job, steps: seq<Step>, t: State)
    requires job.endpoints > 0 || job.outcomes == []
    requires FaultlessRuns(job, Init(job), steps, t) && Quiescent(job, t)
    ensures t.phase == Returned(Collected) && Refines(job, t.taskState, t.outputs, t.errors)
  {
    InitInv(job);
    InitSound(job);
    FaultlessRunKeeps(job, Init(job), steps, t);
    SoundAndStuck(job, t);
    CollectedRefines(job, t);
  }

  /** From any sound state, steps without faults lead to where nothing but a crash can happen. */
  lemma {:induction false} CanSettle(job: Job, s: State) returns (steps: seq<Step>, t: State)
    requires CleanInv(job, s) && Sound(job, s)
    ensures FaultlessRuns(job, s, steps, t) && Quiescent(job, t)
    decreases Weight(job, s)
  {
    if Quiescent(job, s) {
      return [], s;
    }
    var any :| Enabled(job, s, any) && !any.Crash?;
    var step := Instead(any);
    InsteadWorks(job, s, any);
    FaultlessStep(job, s, step);
    StepFalls(job, s, step);
    var rest;
    rest, t := CanSettle(job, Apply(job, s, step));
    steps := [step] + rest;
    assert steps[1..] == rest;
  }

  lemma {:induction false} FaultlessConcat(job: Job, s: State, a: seq<Step>, m: State, b: seq<Step>, t: State)
    requires FaultlessRuns(job, s, a, m) && FaultlessRuns(job, m, b, t)
    ensures FaultlessRuns(job, s, a + b, t)
    decreases |a|
  {
    if a == [] {
      assert a + b == b;
    } else {
      FaultlessConcat(job, Apply(job, s, a[0]), a[1..], m, b, t);
      assert (a + b)[0] == a[0] && (a + b)[1..] == a[1..] + b;
    }
  }

  /** Whatever a run without lasting faults has done so far, it can go on to complete. */
  lemma EveryStateCanComplete(job: Job, steps: seq<Step>, s: State) returns (more: seq<Step>, t: State)
    requires job.endpoints > 0 || job.outcomes == []
    requires FaultlessRuns(job, Init(job), steps, s)
    ensures FaultlessRuns(job, s, more, t) && t.phase == Returned(Collected)
    ensures Refines(job, t.taskState, t.outputs, t.errors)
  {
    InitInv(job);
    InitSound(job);
    FaultlessRunKeeps(job, Init(job), steps, s);
    more, t := CanSettle(job, s);
    FaultlessConcat(job, Init(job), steps, s, more, t);
    QuiescentRefines(job, steps + more, t);
  }

  lemma {:induction false} NoWorkersNoSignals(job: Job, s: State, steps: seq<Step>, t: State)
    requires s.workers == [] && s.ledger.handled == multiset{} && Runs(job, s, steps, t)
    ensures t.ledger.handled == multiset{} && CleanRuns(job, s, steps, t)
    decreases |steps|
  {
    if steps != [] {
      if OfCollector(steps[0]) { CollectorFrame(job, s, steps[0]); } else { OrchestratorFrame(job, s, steps[0]); }
      NoWorkersNoSignals(job, Apply(job, s, steps[0]), steps[1..], t);
    }
  }

  /** Without endpoints a run with commands never returns: no machine matches the task, nothing consumes. */
  lemma NoEndpointsNeverReturns(job: Job, steps: seq<Step>, t: State)
    requires job.endpoints == 0 && job.outcomes != [] && Runs(job, Init(job), steps, t)
    ensures t.wg == |job.outcomes| && !t.phase.Returned?
  {
    NoWorkersNoSignals(job, Init(job), steps, t);
    CleanRunsSafe(job, steps, t);
  }

  // ----- runs held up by a failed publish -----

  lemma {:induction false} ReachableOn(job: Job, s: State, steps: seq<Step>, t: State)
    requires Reachable(job, true, s) && FaultlessRuns(job, s, steps, t)
    ensures Reachable(job, true, t)
    decreases |steps|
  {
    if steps != [] {
      var m := Then(job, true, s, steps[0]);
      ReachableOn(job, m, steps[1..], t);
    }
  }

  /** A sound state that can be reached goes on to one where nothing more can happen. */
  lemma Settled(job: Job, s: State) returns (t: State)
    requires Reachable(job, true, s) && Sound(job, s) && (job.endpoints > 0 || job.outcomes == [])
    ensures Reachable(job, true, t) && CleanInv(job, t) && Sound(job, t) && Quiescent(job, t)
    ensures SameLosses(s, t)
  {
    var before :| Runs(job, Init(job), before, s) && CleanRuns(job, Init(job), before, s);
    CleanRunsSafe(job, before, s);
    var steps;
    steps, t := CanSettle(job, s);
    ReachableOn(job, s, steps, t);
    FaultlessRunKeeps(job, s, steps, t);
  }

  lemma QueuedIsSound(job: Job, s: State)
    requires s.workers == AllQueued(job).workers && SoundPhase(s.phase) && !s.out.col.Broke? && !s.err.col.Broke?
    ensures Sound(job, s)
  {
    if job.endpoints > 0 { assert Live(s.workers[0]); }
  }

  /** One publisher that cannot be created holds every such run up for ever, at `wg` = 1. */
  lemma SkippedCommandHangs(job: Job) returns (t: State)
    requires job.endpoints > 0 && job.outcomes != []
    ensures Reachable(job, true, t) && Quiescent(job, t)
    ensures t.phase.AwaitFinish? && t.wg == 1 && t.ledger.skipped == multiset{0}
  {
    QueueAll(job, true, 0);
    t := Then(job, true, Queued(job, 0), SkipCommand);
    assert t.ledger.skipped == multiset{0};
    QueuedIsSound(job, t);
    t := Settled(job, t);
    SoundAndStuck(job, t);
  }

  /** So does one command whose publish returns nil for a message in no queue. */
  lemma VanishedCommandHangs(job: Job) returns (t: State)
    requires job.endpoints > 0 && job.outcomes != []
    ensures Reachable(job, true, t) && Quiescent(job, t)
    ensures t.phase.AwaitFinish? && t.wg == 1 && t.ledger.skipped == multiset{0}
  {
    QueueAll(job, true, 0);
    t := Opens(job, true, Queued(job, 0), 0);
    t := Then(job, true, t, SendAttempt(Vanished));
    assert t.ledger.skipped == multiset{0};
    QueuedIsSound(job, t);
    t := Settled(job, t);
    SoundAndStuck(job, t);
  }

  /** Worker 0 open, with nothing but this in hand. */
  function At(s: State, pc: Pc): State
    requires s.workers != []
  {
    s.(workers := s.workers[0 := IDLE_WORKER.(pc := pc)])
  }

  lemma FailsOnce(job: Job, s: State, i: nat, k: Try) returns (t: State)
    requires Reachable(job, true, s) && !s.panicked && i < |job.outcomes|
    requires s.workers != [] && s.workers[0] == IDLE_WORKER.(pc := Publishing(i, Trying(k)))
    ensures Reachable(job, true, t) && t == At(s, Publishing(i, AfterAttempt(Trying(k), Denied)))
  {
    t := Then(job, true, s, PublishAttempt(0, Denied));
  }

  lemma AtTwice(s: State, a: Pc, b: Pc)
    requires s.workers != []
    ensures At(At(s, a), b) == At(s, b)
  {
  }

  lemma {:induction false} Fails(job: Job, s: State, i: nat, k: Try) returns (t: State)
    requires Reachable(job, true, s) && !s.panicked && i < |job.outcomes|
    requires s.workers != [] && s.workers[0] == IDLE_WORKER.(pc := Publishing(i, Trying(k)))
    ensures Reachable(job, true, t) && t == At(s, Publishing(i, GaveUp))
    decreases MAX_RETRIES - k
  {
    t := FailsOnce(job, s, i, k);
    if k + 1 < MAX_RETRIES {
      AtTwice(s, Publishing(i, Trying(k + 1)), Publishing(i, GaveUp));
      t := Fails(job, t, i, k + 1);
    }
  }

  lemma GivesUpReturns(job: Job, s: State, i: nat) returns (t: State)
    requires Reachable(job, true, s) && !s.panicked
    requires s.workers != [] && s.workers[0] == IDLE_WORKER.(pc := Publishing(i, GaveUp))
    ensures Reachable(job, true, t)
    ensures t == s.(workers := s.workers[0 := IDLE_WORKER.(pc := Reporting(i, true))],
                    ledger := s.ledger.(dropped := s.ledger.dropped + multiset{i}))
  {
    t := Then(job, true, s, PublishReturn(0));
  }

  /** Worker 0 gives up publishing the result of command i. */
  lemma GivesUp(job: Job, s: State, i: nat) returns (t: State)
    requires Reachable(job, true, s) && !s.panicked && i in s.cmdQueue && i < |job.outcomes|
    requires s.workers != [] && s.workers[0] == IDLE_WORKER
    ensures Reachable(job, true, t)
    ensures t == s.(workers := s.workers[0 := IDLE_WORKER.(pc := Reporting(i, true))],
                    cmdQueue := s.cmdQueue - multiset{i},
                    ledger := s.ledger.(dropped := s.ledger.dropped + multiset{i}))
  {
    t := Starts(job, true, s, 0, i);
    t := Fails(job, t, i, 0);
    t := GivesUpReturns(job, t, i);
    assert t.workers == s.workers[0 := IDLE_WORKER.(pc := Reporting(i, true))];
  }

  lemma StillSound(job: Job, t: State)
    requires job.endpoints > 0 && t.workers != [] && Live(t.workers[0]) && SoundWorker(t.workers[0])
    requires t.workers == AllQueued(job).workers[0 := t.workers[0]]
    requires SoundPhase(t.phase) && !t.out.col.Broke? && !t.err.col.Broke?
    ensures Sound(job, t)
  {
  }

  /** One result whose publish fails ten times holds every such run up for ever, at `cmdResWg` = 1. */
  lemma DroppedResultHangs(job: Job) returns (t: State)
    requires job.endpoints > 0 && job.outcomes != []
    ensures Reachable(job, true, t) && Quiescent(job, t)
    ensures t.phase.Draining? && t.resWg == 1 && Missing(t) == multiset{0}
  {
    ReachAllQueued(job, true);
    t := GivesUp(job, AllQueued(job), 0);
    assert Missing(t) == multiset{0};
    StillSound(job, t);
    t := Settled(job, t);
    SoundAndStuck(job, t);
  }

  /** So does one result whose publish returns nil for a message in no queue, although no response carries an Error. */
  lemma VanishedResultHangs(job: Job) returns (t: State)
    requires job.endpoints > 0 && job.outcomes != []
    ensures Reachable(job, true, t) && Quiescent(job, t)
    ensures t.phase.Draining? && t.resWg == 1 && Missing(t) == multiset{0} && t.ledger.failedReplies == multiset{}
  {
    ReachAllQueued(job, true);
    var s := Starts(job, true, AllQueued(job), 0, 0);
    s := Vanishes(job, s, 0);
    assert Missing(s) == multiset{0};
    StillSound(job, s);
    t := Settled(job, s);
    SoundAndStuck(job, t);
    FinishedFailures(job, t);
  }

  lemma Vanishes(job: Job, s: State, i: nat) returns (t: State)
    requires Reachable(job, true, s) && !s.panicked && i < |job.outcomes|
    requires s.workers != [] && s.workers[0] == IDLE_WORKER.(pc := Publishing(i, Trying(0)))
    ensures Reachable(job, true, t)
    ensures t == s.(workers := s.workers[0 := IDLE_WORKER.(pc := Publishing(i, Accepted))],
                    ledger := s.ledger.(vanished := s.ledger.vanished + multiset{i}))
  {
    t := Then(job, true, s, PublishAttempt(0, Vanished));
  }
}
