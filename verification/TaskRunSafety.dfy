/** What holds in every reachable state of a task run, and what a completed run has computed. */
module TaskRunSafety {
  import opened Bags
  import opened TaskRun
  import opened TaskRunInvariants
  import opened TaskRunSteps

  // ----- consequences of conservation -----

  /** As long as some finish signal is under way, not all N have been handled. */
  lemma SignalUnderWay(job: Job, s: State, w: nat)
    requires Conserved(job, s) && w < |s.workers| && s.workers[w].stream != []
    ensures |s.ledger.handled| < |job.outcomes|
  {
    var id := s.workers[w].stream[0].id;
    SignalHeld(s.workers, w);
    assert Places(job, s, id) == if id < |job.outcomes| then 1 else 0;
    HandledRoom(job, s, id);
  }

  lemma SignalHeld(ws: seq<Worker>, w: nat)
    requires w < |ws| && ws[w].stream != []
    ensures Gather(ws, RepliesOf)[ws[w].stream[0].id] >= 1
  {
    var id := ws[w].stream[0].id;
    SignalReceived(ws[w].stream, id);
    assert RepliesOf(ws[w])[id] >= 1;
    GatherWithinAt(ws, w, RepliesOf, id);
  }

  lemma HandledRoom(job: Job, s: State, id: nat)
    requires Conserved(job, s) && id < |job.outcomes| && s.ledger.handled[id] == 0
    ensures |s.ledger.handled| < |job.outcomes|
  {
    var more := s.ledger.handled + multiset{id};
    forall i: nat ensures more[i] <= Range(0, |job.outcomes|)[i] {
      assert Places(job, s, i) == if i < |job.outcomes| then 1 else 0;
    }
    PartSize(more, Range(0, |job.outcomes|));
  }

  /** No result is published twice, and none for anything but a command. */
  lemma OneResultEach(job: Job, s: State, id: nat)
    requires Conserved(job, s) && ResultsMatch(s)
    ensures Results(s, id) <= if id < |job.outcomes| then 1 else 0
  {
    forall w | 0 <= w < |s.workers| ensures SettledOf(s.workers[w]) <= UnfinishedOf(s.workers[w]) {
    }
    GatherMono(s.workers, SettledOf, UnfinishedOf);
    assert Gather(s.workers, SettledOf)[id] <= Gather(s.workers, UnfinishedOf)[id];
    assert Results(s, id) == Published(s, id);
    assert Places(job, s, id) == if id < |job.outcomes| then 1 else 0;
  }

  lemma HistorySize(l: Lane)
    ensures |Ids(l)| == |History(l)|
  {
    GatherSize(History(l), MsgId);
  }

  /** So the two lanes together never carry more than N messages. */
  lemma RoomForResults(job: Job, s: State)
    requires Conserved(job, s) && ResultsMatch(s)
    ensures |History(s.out)| + |History(s.err)| + |Missing(s)| <= |job.outcomes|
  {
    var all := Ids(s.out) + Ids(s.err) + Missing(s);
    forall i: nat ensures all[i] <= Range(0, |job.outcomes|)[i] {
      OneResultEach(job, s, i);
    }
    PartSize(all, Range(0, |job.outcomes|));
    HistorySize(s.out);
    HistorySize(s.err);
  }

  // ----- clean steps keep the clean invariant -----

  /** In a clean run no WaitGroup counter goes below zero. */
  lemma NoPanic(job: Job, s: State, step: Step)
    requires CleanInv(job, s) && Enabled(job, s, step)
    ensures !Apply(job, s, step).panicked
    ensures step.Receive? ==> s.wg > 0
  {
    if OfWorker(step) {
      WorkerFrame(job, s, step);
      if step.Receive? {
        WgFlow(job, s, step);
        SignalUnderWay(job, s, step.w);
      }
    } else if OfCollector(step) {
      CollectorFrame(job, s, step);
      if step.CountDown? {
        LaneFlow(job, s, step);
        RoomForResults(job, s);
      }
    } else {
      OrchestratorFrame(job, s, step);
    }
  }

  lemma KeepsBalances(job: Job, s: State, step: Step)
    requires CleanInv(job, s) && Enabled(job, s, step) && Clean(s, step)
    ensures var s' := Apply(job, s, step); Conserved(job, s') && ResultsMatch(s') && FailuresMatch(s')
  {
    var s' := Apply(job, s, step);
    forall id: nat ensures Places(job, s', id) == if id < |job.outcomes| then 1 else 0 {
      StepConserved(job, s, step, id);
    }
    forall id: nat ensures Results(s', id) == Published(s', id) {
      ResultsFlow(job, s, step, id);
      PublishedFlow(job, s, step, id);
    }
    forall id: nat ensures s'.ledger.dropped[id] == Failures(s', id) {
      FailuresFlow(job, s, step, id);
    }
  }

  lemma RedoableHoldsNothing(x: Worker)
    requires Redoable(x)
    ensures RepliesOf(x) == AckingOf(x) == SettledOf(x) == multiset{}
  {
  }

  /** A redoable crash drops no finish signal, remakes no result, and requeues nothing whose finish signal was sent. */
  lemma KeepsNothingDropped(job: Job, s: State, step: Step)
    requires Tracked(job, s) && Enabled(job, s, step) && Clean(s, step)
    ensures Apply(job, s, step).ledger.lost == Apply(job, s, step).ledger.redelivered == multiset{}
    ensures Apply(job, s, step).ledger.remade == multiset{}
  {
    if OfWorker(step) {
      WorkerFrame(job, s, step);
      if step.Crash? { RedoableHoldsNothing(s.workers[step.w]); }
    } else if OfCollector(step) {
      CollectorFrame(job, s, step);
    } else {
      OrchestratorFrame(job, s, step);
    }
  }

  lemma StoredAll(job: Job, s: State, step: Step)
    requires CleanInv(job, s) && Enabled(job, s, step) && step.Finish?
    ensures var s' := Apply(job, s, step);
            s'.phase == Returned(Collected) ==> |s'.outputs| + |s'.errors| == |job.outcomes|
  {
    RoomForResults(job, s);
  }

  /** After cancel() the counter stays at zero. */
  lemma KeepsCancelled(job: Job, s: State, step: Step)
    requires CleanInv(job, s) && Enabled(job, s, step)
    ensures Cancelled(Apply(job, s, step).phase) ==> Apply(job, s, step).wg == 0
  {
    if OfWorker(step) {
      WorkerFrame(job, s, step);
      NoPanic(job, s, step);
    } else if OfCollector(step) {
      CollectorFrame(job, s, step);
    } else {
      OrchestratorFrame(job, s, step);
    }
  }

  /** After the run has returned no result is left to count down. */
  lemma KeepsDrained(job: Job, s: State, step: Step)
    requires CleanInv(job, s) && Enabled(job, s, step)
    ensures Apply(job, s, step).phase.Returned? ==> Apply(job, s, step).resWg == 0
  {
    if OfWorker(step) {
      WorkerFrame(job, s, step);
    } else if OfCollector(step) {
      CollectorFrame(job, s, step);
      if s.phase.Returned? { AllCountedAtZero(job, s); }
    } else {
      OrchestratorFrame(job, s, step);
    }
  }

  /** Once `cmdResWg` is zero no collector still has to count a result down. */
  lemma AllCountedAtZero(job: Job, s: State)
    requires Conserved(job, s) && ResultsMatch(s) && CountersOk(job, s) && Drains(s.phase) && s.resWg == 0
    ensures !s.out.col.Appended? && !s.err.col.Appended?
  {
    RoomForResults(job, s);
  }

  /** Results once stored stay complete. */
  lemma KeepsStored(job: Job, s: State, step: Step)
    requires CleanInv(job, s) && Enabled(job, s, step)
    ensures var s' := Apply(job, s, step);
            s'.phase == Returned(Collected) ==> |s'.outputs| + |s'.errors| == |job.outcomes|
  {
    if OfWorker(step) {
      WorkerFrame(job, s, step);
    } else if OfCollector(step) {
      CollectorFrame(job, s, step);
    } else if step.Finish? {
      StoredAll(job, s, step);
    } else {
      OrchestratorFrame(job, s, step);
    }
  }

  lemma KeepsCleanInv(job: Job, s: State, step: Step)
    requires CleanInv(job, s) && Enabled(job, s, step) && Clean(s, step)
    ensures CleanInv(job, Apply(job, s, step))
  {
    KeepsInv(job, s, step);
    KeepsBalances(job, s, step);
    KeepsNothingDropped(job, s, step);
    NoPanic(job, s, step);
    KeepsCancelled(job, s, step);
    KeepsDrained(job, s, step);
    KeepsStored(job, s, step);
  }

  // ----- whole runs -----

  lemma InitSums(job: Job)
    ensures var ws := Init(job).workers;
            && Gather(ws, UnackedOf) == Gather(ws, UnfinishedOf) == Gather(ws, SettledOf) == multiset{}
            && Gather(ws, RepliesOf) == Gather(ws, FailingOf) == Gather(ws, AckingOf) == multiset{}
            && Total(ws, UnreadyOf) == job.endpoints
  {
    var ws := Init(job).workers;
    GatherNone(ws, UnackedOf);
    GatherNone(ws, UnfinishedOf);
    GatherNone(ws, SettledOf);
    GatherNone(ws, RepliesOf);
    GatherNone(ws, FailingOf);
    GatherNone(ws, AckingOf);
    InitPending(ws);
  }

  lemma InitBalances(job: Job)
    ensures var s := Init(job);
            && Accounted(job, s) && Conserved(job, s)
            && ResultsMatch(s) && FailuresMatch(s) && SignalsMatch(s) && ResultsMade(s)
  {
    InitSums(job);
  }

  lemma InitInv(job: Job)
    ensures CleanInv(job, Init(job))
  {
    InitSums(job);
    InitBalances(job);
    InitLocal(job);
  }

  lemma InitLocal(job: Job)
    ensures var s := Init(job);
            && PhaseOk(job, s) && CountersOk(job, s) && FieldsOk(s) && AllEvident(s) && DroppedOk(job, s)
            && Truthful(job, History(s.out), true) && Truthful(job, History(s.err), false)
  {
  }

  lemma {:induction false} InitPending(ws: seq<Worker>)
    requires forall w :: 0 <= w < |ws| ==> ws[w] == FRESH_WORKER
    ensures Total(ws, UnreadyOf) == |ws|
  {
    if ws != [] {
      InitPending(ws[..|ws| - 1]);
    }
  }

  lemma {:induction false} RunKeepsInv(job: Job, s: State, steps: seq<Step>, t: State)
    requires Inv(job, s) && Runs(job, s, steps, t)
    ensures Inv(job, t)
    decreases |steps|
  {
    if steps != [] {
      KeepsInv(job, s, steps[0]);
      RunKeepsInv(job, Apply(job, s, steps[0]), steps[1..], t);
    }
  }

  lemma {:induction false} CleanRunKeepsInv(job: Job, s: State, steps: seq<Step>, t: State)
    requires CleanInv(job, s) && CleanRuns(job, s, steps, t)
    ensures CleanInv(job, t)
    decreases |steps|
  {
    if steps != [] {
      KeepsCleanInv(job, s, steps[0]);
      CleanRunKeepsInv(job, Apply(job, s, steps[0]), steps[1..], t);
    }
  }

  /** Theorem: in every reachable state of every run, whatever crashes, the invariant of all runs holds. */
  lemma AllRunsSafe(job: Job, steps: seq<Step>, t: State)
    requires Runs(job, Init(job), steps, t)
    ensures Inv(job, t)
  {
    InitInv(job);
    RunKeepsInv(job, Init(job), steps, t);
  }

  /** Theorem: as long as every crash is redoable, so does the invariant of clean runs. */
  lemma CleanRunsSafe(job: Job, steps: seq<Step>, t: State)
    requires CleanRuns(job, Init(job), steps, t)
    ensures CleanInv(job, t)
  {
    InitInv(job);
    CleanRunKeepsInv(job, Init(job), steps, t);
  }

  // ----- the theorems about clean runs -----

  /** Conservation: every command is in exactly one place, and the counters say what is left to do. */
  lemma Conservation(job: Job, steps: seq<Step>, t: State)
    requires CleanRuns(job, Init(job), steps, t)
    ensures !t.panicked && t.wg >= 0 && t.resWg >= 0
    ensures t.wg == |job.outcomes| - |t.ledger.handled|
    ensures Drains(t.phase) ==>
              t.resWg == |job.outcomes| - |t.out.taken| - |t.err.taken| + Uncounted(t.out) + Uncounted(t.err)
    ensures forall id: nat :: Places(job, t, id) == if id < |job.outcomes| then 1 else 0
    ensures forall id: nat :: Results(t, id) == Published(t, id) <= 1
  {
    CleanRunsSafe(job, steps, t);
    forall id: nat ensures Results(t, id) == Published(t, id) <= 1 {
      OneResultEach(job, t, id);
    }
  }

  /** No worker has anything left: nothing received, running or unreported, and no signal under way. */
  predicate Spent(x: Worker) {
    x.prefetch == [] && x.stream == [] && (x.pc.Selecting? || x.pc.Acking?)
  }

  lemma HandledAll(job: Job, s: State)
    requires CleanInv(job, s) && s.wg == 0
    ensures forall id: nat :: s.ledger.handled[id] == if id < |job.outcomes| then 1 else 0
    ensures forall id: nat :: Places(job, s, id) == s.ledger.handled[id]
  {
    forall id: nat ensures s.ledger.handled[id] <= if id < |job.outcomes| then 1 else 0 {
      assert Places(job, s, id) == if id < |job.outcomes| then 1 else 0;
    }
    SameBag(s.ledger.handled, |job.outcomes|);
  }

  lemma SpentWorker(job: Job, s: State, w: nat)
    requires CleanInv(job, s) && s.wg == 0 && w < |s.workers|
    ensures Spent(s.workers[w])
  {
    var x := s.workers[w];
    HandledAll(job, s);
    GatherUpdate(s.workers, w, x, UnfinishedOf);
    if x.stream != [] {
      SignalUnderWay(job, s, w);
    }
    forall id: nat ensures UnfinishedOf(x)[id] == 0 {
      assert Places(job, s, id) == s.ledger.handled[id];
      assert UnfinishedOf(x)[id] <= Gather(s.workers, UnfinishedOf)[id];
    }
    assert UnfinishedOf(x) == multiset{};
    UnfinishedSize(x);
  }

  lemma UnfinishedSize(x: Worker)
    ensures |UnfinishedOf(x)| == |x.prefetch| + if x.pc.Selecting? || x.pc.Acking? then 0 else 1
  {
  }

  /**
   * Phase separation: once `wg` is zero, so before cancel() and before any collector starts, every command
   * has exactly one result published, vanished or given up, nothing waits in the command queue, and no worker has
   * anything left to run, publish or report.
   */
  lemma PhaseSeparation(job: Job, steps: seq<Step>, t: State)
    requires CleanRuns(job, Init(job), steps, t) && t.wg == 0
    ensures forall id: nat :: Results(t, id) == if id < |job.outcomes| then 1 else 0
    ensures t.cmdQueue == multiset{} && t.ledger.skipped == multiset{}
    ensures forall w :: 0 <= w < |t.workers| ==> Spent(t.workers[w])
    ensures t.ledger.dropped == t.ledger.failedReplies
  {
    CleanRunsSafe(job, steps, t);
    FinishedState(job, t);
  }

  lemma SpentSums(ws: seq<Worker>)
    requires forall w :: 0 <= w < |ws| ==> Spent(ws[w])
    ensures Gather(ws, SettledOf) == Gather(ws, RepliesOf) == Gather(ws, FailingOf) == multiset{}
  {
    GatherNone(ws, SettledOf);
    GatherNone(ws, RepliesOf);
    GatherNone(ws, FailingOf);
  }

  lemma AllSpent(job: Job, s: State)
    requires CleanInv(job, s) && s.wg == 0
    ensures forall w :: 0 <= w < |s.workers| ==> Spent(s.workers[w])
  {
    forall w | 0 <= w < |s.workers| ensures Spent(s.workers[w]) {
      SpentWorker(job, s, w);
    }
  }

  lemma FinishedResults(job: Job, s: State)
    requires CleanInv(job, s) && s.wg == 0
    ensures forall id: nat :: Results(s, id) == if id < |job.outcomes| then 1 else 0
  {
    AllSpent(job, s);
    SpentSums(s.workers);
    HandledAll(job, s);
    forall id: nat ensures Results(s, id) == if id < |job.outcomes| then 1 else 0 {
      assert Results(s, id) == Published(s, id) == s.ledger.handled[id];
    }
  }

  lemma FinishedFailures(job: Job, s: State)
    requires CleanInv(job, s) && s.wg == 0
    ensures s.ledger.dropped == s.ledger.failedReplies
  {
    AllSpent(job, s);
    SpentSums(s.workers);
    SpentFailures(s);
  }

  lemma SpentFailures(s: State)
    requires FailuresMatch(s) && Gather(s.workers, FailingOf) == multiset{}
    ensures s.ledger.dropped == s.ledger.failedReplies
  {
    forall id: nat ensures s.ledger.dropped[id] == s.ledger.failedReplies[id] {
      assert s.ledger.dropped[id] == Failures(s, id);
    }
  }

  lemma FinishedState(job: Job, s: State)
    requires CleanInv(job, s) && s.wg == 0
    ensures forall id: nat :: Results(s, id) == if id < |job.outcomes| then 1 else 0
    ensures s.cmdQueue == multiset{} && s.ledger.skipped == multiset{}
    ensures forall w :: 0 <= w < |s.workers| ==> Spent(s.workers[w])
    ensures s.ledger.dropped == s.ledger.failedReplies
  {
    FinishedResults(job, s);
    FinishedFailures(job, s);
    AllSpent(job, s);
    NothingUpstream(job, s);
  }

  lemma NothingUpstream(job: Job, s: State)
    requires CleanInv(job, s) && s.wg == 0
    ensures s.cmdQueue == multiset{} && s.ledger.skipped == multiset{}
  {
    HandledAll(job, s);
    forall id: nat ensures s.cmdQueue[id] == 0 && s.ledger.skipped[id] == 0 {
      assert Places(job, s, id) == s.ledger.handled[id];
    }
  }
}
