/** Where a run that cannot go on has stopped: exactly what was lost, and when the run completes. */
module TaskRunStuck {
  import opened Bags
  import opened Publish
  import opened TaskRun
  import opened TaskRunInvariants
  import opened TaskRunSteps
  import opened TaskRunSafety
  import opened TaskRunResults

  /** Nothing can happen any more, except that a worker crashes. */
  ghost predicate Quiescent(job: Job, s: State) {
    forall step :: Enabled(job, s, step) ==> step.Crash?
  }

  predicate SomeWorker(s: State, link: Link) {
    exists w :: 0 <= w < |s.workers| && s.workers[w].link == link
  }

  // ----- the barrier -----

  lemma UnreadyWorker(job: Job, s: State)
    requires WorkersOk(job, s) && s.pending != 0
    ensures SomeWorker(s, Connecting) || SomeWorker(s, Refused)
  {
    var w := SomePositive(s.workers, UnreadyOf);
    assert s.workers[w].link == Connecting || s.workers[w].link == Refused;
  }

  lemma NoRefusalAfterBarrier(job: Job, s: State)
    requires WorkersOk(job, s) && !s.phase.AwaitReady?
    ensures !SomeWorker(s, Refused) && !SomeWorker(s, Connecting)
  {
    TotalZero(s.workers, UnreadyOf);
  }

  lemma StuckAtBarrier(job: Job, s: State)
    requires CleanInv(job, s) && Quiescent(job, s) && s.phase.AwaitReady?
    ensures SomeWorker(s, Refused)
  {
    if s.pending == 0 { var step := WaitMoves(job, s); }
    UnreadyWorker(job, s);
    if SomeWorker(s, Connecting) { var step := ConnectMoves(job, s); }
  }

  lemma ConnectMoves(job: Job, s: State) returns (step: Step)
    requires !s.panicked && SomeWorker(s, Connecting)
    ensures Enabled(job, s, step) && !step.Crash?
  {
    var w :| 0 <= w < |s.workers| && s.workers[w].link == Connecting;
    step := Connect(w);
  }

  // ----- waiting for finish signals -----

  predicate Busy(x: Worker) {
    x.link.Open? && (x.stream != [] || x.prefetch != [] || !x.pc.Selecting?)
  }

  /** A worker with anything left has a step of its own. */
  lemma WorkerMoves(job: Job, s: State, w: nat) returns (step: Step)
    requires Accounted(job, s) && !s.panicked && w < |s.workers| && Busy(s.workers[w])
    ensures Enabled(job, s, step) && !step.Crash?
  {
    if !s.workers[w].pc.Selecting? { HeldIsCommand(job, s, w); }
    step := OwnMove(job, s.workers[w], w);
  }

  lemma OwnMove(job: Job, x: Worker, w: nat) returns (step: Step)
    requires Busy(x) && (x.pc.Running? || x.pc.Publishing? ==> x.pc.id < |job.outcomes|)
    ensures OfWorker(step) && step.w == w && !step.Deliver? && !step.Stop? && !step.Crash?
    ensures WorkerReady(job, x, step)
  {
    if x.stream != [] { return Receive(w); }
    match x.pc {
      case Selecting => return Take(w);
      case Running(_) => return RunCommand(w);
      case Publishing(_, call) =>
        if call.Trying? { return PublishAttempt(w, Landed); } else { return PublishReturn(w); }
      case Reporting(_, _) => return Signal(w);
      case Acking(_) => return Ack(w);
    }
  }

  lemma StuckWorker(job: Job, s: State, w: nat)
    requires Accounted(job, s) && WorkersOk(job, s) && !s.panicked
    requires Quiescent(job, s) && !Cancelled(s.phase) && w < |s.workers|
    ensures UnackedOf(s.workers[w]) == RepliesOf(s.workers[w]) == AckingOf(s.workers[w]) == multiset{}
  {
    if Busy(s.workers[w]) {
      var step := WorkerMoves(job, s, w);
    }
    assert WorkerOk(s.workers[w]);
  }

  lemma StuckPlaces(job: Job, s: State)
    requires Accounted(job, s) && WorkersOk(job, s) && !s.panicked
    requires Quiescent(job, s) && s.phase.AwaitFinish?
    ensures Gather(s.workers, UnackedOf) == Gather(s.workers, RepliesOf) == Gather(s.workers, AckingOf) == multiset{}
  {
    forall w | 0 <= w < |s.workers|
      ensures UnackedOf(s.workers[w]) == RepliesOf(s.workers[w]) == AckingOf(s.workers[w]) == multiset{}
    {
      StuckWorker(job, s, w);
    }
    GatherNone(s.workers, UnackedOf);
    GatherNone(s.workers, RepliesOf);
    GatherNone(s.workers, AckingOf);
  }

  lemma AckedCount(job: Job, s: State)
    requires Accounted(job, s) && s.phase.AwaitFinish? && Gather(s.workers, UnackedOf) == multiset{}
    ensures |s.ledger.skipped| + |s.cmdQueue| + |s.ledger.acked| == |job.outcomes|
  {
    forall id: nat
      ensures s.ledger.skipped[id] + s.cmdQueue[id] + s.ledger.acked[id] == if id < |job.outcomes| then 1 else 0
    {
      assert Owners(job, s, id) == if id < |job.outcomes| then 1 else 0;
    }
    SplitSize(s.ledger.skipped, s.cmdQueue, s.ledger.acked, |job.outcomes|);
  }

  lemma SignalCount(s: State)
    requires SignalsMatch(s) && Gather(s.workers, RepliesOf) == Gather(s.workers, AckingOf) == multiset{}
    ensures |s.ledger.handled| + |s.ledger.lost| == |s.ledger.acked| + |s.ledger.redelivered|
  {
    forall id: nat
      ensures (s.ledger.handled + s.ledger.lost)[id] == (s.ledger.acked + s.ledger.redelivered)[id]
    {
      assert Sent(s, id) == Signalled(s, id);
    }
    assert s.ledger.handled + s.ledger.lost == s.ledger.acked + s.ledger.redelivered;
    assert |s.ledger.handled + s.ledger.lost| == |s.ledger.handled| + |s.ledger.lost|;
    assert |s.ledger.acked + s.ledger.redelivered| == |s.ledger.acked| + |s.ledger.redelivered|;
  }

  /** Where any run waits for finish signals with nothing else to do, `wg` balances what the crashes cost. */
  lemma StuckBalance(job: Job, s: State)
    requires Inv(job, s) && !s.panicked && Quiescent(job, s) && s.phase.AwaitFinish?
    ensures s.wg == |s.ledger.skipped| + |s.cmdQueue| + |s.ledger.lost| - |s.ledger.redelivered|
    ensures s.wg > 0 && (s.cmdQueue != multiset{} ==> !SomeWorker(s, Open))
  {
    StuckPlaces(job, s);
    AckedCount(job, s);
    SignalCount(s);
    if s.wg == 0 { var step := WaitMoves(job, s); }
    if SomeWorker(s, Open) && s.cmdQueue != multiset{} { var step := QueueMoves(job, s); }
  }

  lemma QueueMoves(job: Job, s: State) returns (step: Step)
    requires !s.panicked && SomeWorker(s, Open) && s.cmdQueue != multiset{}
    ensures Enabled(job, s, step) && !step.Crash?
  {
    var w :| 0 <= w < |s.workers| && s.workers[w].link == Open;
    var id :| id in s.cmdQueue;
    step := Deliver(w, id);
  }

  /** Each of the orchestrator's waits is over once its counter is zero. */
  lemma WaitMoves(job: Job, s: State) returns (step: Step)
    requires !s.panicked
    requires || (s.phase.AwaitReady? && s.pending == 0)
             || (s.phase.AwaitFinish? && s.wg == 0)
             || (s.phase.Draining? && s.resWg == 0)
    ensures Enabled(job, s, step) && !step.Crash?
  {
    step := if s.phase.AwaitReady? then PassBarrier else if s.phase.AwaitFinish? then Cancel else Finish;
  }

  /** `wg` stands at the number of commands skipped, or queued where no worker consumes. */
  lemma StuckWaiting(job: Job, s: State)
    requires CleanInv(job, s) && Quiescent(job, s) && s.phase.AwaitFinish?
    ensures s.wg == |s.ledger.skipped| + |s.cmdQueue| && s.wg > 0
    ensures s.cmdQueue != multiset{} ==> !SomeWorker(s, Open)
  {
    StuckBalance(job, s);
  }

  // ----- draining the result queues -----

  /** A collector that has anything left has a step. */
  lemma CollectorMoves(job: Job, s: State, kind: Kind) returns (step: Step)
    requires !s.panicked && Drains(s.phase)
    requires var l := LaneOf(s, kind); !l.col.Done? && !l.col.Broke? && (l.col.Idle? ==> l.queue != [])
    ensures Enabled(job, s, step) && !step.Crash?
  {
    match LaneOf(s, kind).col {
      case Off => return Subscribe(kind, true);
      case Idle => return Collect(kind);
      case Holding(_) => return Append(kind);
      case Appended => return CountDown(kind);
      case Settling => return AckResult(kind);
    }
  }

  lemma StuckCollector(job: Job, s: State, kind: Kind)
    requires Quiescent(job, s) && !s.panicked && Drains(s.phase)
    ensures var l := LaneOf(s, kind); l.col.Done? || l.col.Broke? || (l.col.Idle? && l.queue == [])
  {
    var l := LaneOf(s, kind);
    if !l.col.Done? && !l.col.Broke? && (l.col.Idle? ==> l.queue != []) {
      var step := CollectorMoves(job, s, kind);
    }
  }

  lemma StuckLane(job: Job, s: State, kind: Kind)
    requires CountersOk(job, s) && Quiescent(job, s) && !s.panicked && s.phase.Draining? && s.resWg > 0
    ensures var l := LaneOf(s, kind);
            |History(l)| == |l.taken| + |l.queue| && Uncounted(l) == 0 && (l.queue != [] ==> l.col.Broke?)
  {
    StuckCollector(job, s, kind);
  }

  lemma ResultsFill(job: Job, s: State)
    requires CleanInv(job, s) && s.wg == 0
    ensures |History(s.out)| + |History(s.err)| + |Missing(s)| == |job.outcomes|
  {
    FinishedResults(job, s);
    ResultsCount(job, s);
  }

  /** `resWg` stands at the number of results given up, vanished, or queued where the collector could not subscribe. */
  lemma StuckDraining(job: Job, s: State)
    requires CleanInv(job, s) && Quiescent(job, s) && s.phase.Draining?
    ensures s.resWg == |s.ledger.dropped| + |s.ledger.vanished| + |s.out.queue| + |s.err.queue| && s.resWg > 0
    ensures s.ledger.dropped == s.ledger.failedReplies
    ensures (s.out.queue != [] ==> s.out.col.Broke?) && (s.err.queue != [] ==> s.err.col.Broke?)
  {
    if s.resWg == 0 { var step := WaitMoves(job, s); }
    StuckLane(job, s, OutputLane);
    StuckLane(job, s, ErrorLane);
    ResultsFill(job, s);
    FinishedFailures(job, s);
  }

  lemma StoppedWorker(job: Job, s: State, w: nat)
    requires Accounted(job, s) && WorkersOk(job, s) && !s.panicked
    requires Quiescent(job, s) && s.phase.Draining? && w < |s.workers|
    ensures SettledOf(s.workers[w]) == AckingOf(s.workers[w]) == multiset{}
  {
    if s.workers[w].link.Open? {
      var step := OpenMoves(job, s, w);
    }
    assert WorkerOk(s.workers[w]);
  }

  /** After cancel() a worker that has nothing left can still stop. */
  lemma OpenMoves(job: Job, s: State, w: nat) returns (step: Step)
    requires Accounted(job, s) && !s.panicked && Cancelled(s.phase) && w < |s.workers| && s.workers[w].link.Open?
    ensures Enabled(job, s, step) && !step.Crash?
  {
    if Busy(s.workers[w]) {
      step := WorkerMoves(job, s, w);
    } else {
      step := Stop(w);
    }
  }

  lemma StoppedPlaces(job: Job, s: State)
    requires Accounted(job, s) && WorkersOk(job, s) && !s.panicked && Quiescent(job, s) && s.phase.Draining?
    ensures Gather(s.workers, SettledOf) == Gather(s.workers, AckingOf) == multiset{}
  {
    forall w | 0 <= w < |s.workers| ensures SettledOf(s.workers[w]) == AckingOf(s.workers[w]) == multiset{} {
      StoppedWorker(job, s, w);
    }
    GatherNone(s.workers, SettledOf);
    GatherNone(s.workers, AckingOf);
  }

  /** Every result there ever was belongs to a delivery acknowledged, or requeued since. */
  lemma MadeCount(s: State)
    requires ResultsMade(s) && Gather(s.workers, SettledOf) == Gather(s.workers, AckingOf) == multiset{}
    ensures |History(s.out)| + |History(s.err)| + |s.ledger.dropped| + |s.ledger.vanished|
            == |s.ledger.acked| + |s.ledger.remade|
  {
    var made, all := s.ledger.acked + s.ledger.remade, Ids(s.out) + Ids(s.err) + Missing(s);
    forall id: nat ensures all[id] == made[id] {
      assert Results(s, id) == Made(s, id);
    }
    assert all == made;
    HistorySize(s.out);
    HistorySize(s.err);
    assert |all| == |Ids(s.out)| + |Ids(s.err)| + |s.ledger.dropped| + |s.ledger.vanished|;
    assert |made| == |s.ledger.acked| + |s.ledger.remade|;
  }

  lemma OwnersCount(job: Job, s: State)
    requires Accounted(job, s) && s.phase.Draining?
    ensures |s.ledger.skipped| + |s.cmdQueue| + |Gather(s.workers, UnackedOf)| + |s.ledger.acked| == |job.outcomes|
  {
    var held := Gather(s.workers, UnackedOf);
    forall id: nat
      ensures (s.ledger.skipped + s.cmdQueue)[id] + held[id] + s.ledger.acked[id]
           == if id < |job.outcomes| then 1 else 0
    {
      assert Owners(job, s, id) == if id < |job.outcomes| then 1 else 0;
    }
    SplitSize(s.ledger.skipped + s.cmdQueue, held, s.ledger.acked, |job.outcomes|);
    assert |s.ledger.skipped + s.cmdQueue| == |s.ledger.skipped| + |s.cmdQueue|;
  }

  lemma StuckDrainBalance(job: Job, s: State)
    requires Inv(job, s) && !s.panicked && Quiescent(job, s) && s.phase.Draining?
    ensures s.resWg == |s.ledger.dropped| + |s.ledger.vanished| + |s.out.queue| + |s.err.queue|
                       + |s.ledger.skipped| + |s.cmdQueue| + |Gather(s.workers, UnackedOf)| - |s.ledger.remade|
    ensures s.resWg > 0 && (s.out.queue != [] ==> s.out.col.Broke?) && (s.err.queue != [] ==> s.err.col.Broke?)
  {
    if s.resWg == 0 { var step := WaitMoves(job, s); }
    StuckLane(job, s, OutputLane);
    StuckLane(job, s, ErrorLane);
    StoppedPlaces(job, s);
    MadeCount(s);
    OwnersCount(job, s);
  }

  // ----- the theorems -----

  /**
   * Exact loss accounting under any crashes. Where a run waits for finish signals and can go no further, `wg` is the
   * number of commands skipped or queued with no worker consuming, plus the finish signals a crash dropped, minus the
   * deliveries requeued after their finish signal. Where it drains the result queues, `resWg` is the number of results
   * given up, vanished, or queued for a collector that could not subscribe, plus the commands skipped, queued or left
   * with a stopped worker, minus the deliveries requeued after their result.
   */
  lemma ExactLossWithCrashes(job: Job, steps: seq<Step>, t: State)
    requires Runs(job, Init(job), steps, t) && Quiescent(job, t) && !t.panicked
    ensures t.phase.AwaitFinish? ==>
              && t.wg == |t.ledger.skipped| + |t.cmdQueue| + |t.ledger.lost| - |t.ledger.redelivered|
              && t.wg > 0 && (t.cmdQueue != multiset{} ==> !SomeWorker(t, Open))
    ensures t.phase.Draining? ==>
              && t.resWg == |t.ledger.dropped| + |t.ledger.vanished| + |t.out.queue| + |t.err.queue|
                            + |t.ledger.skipped| + |t.cmdQueue| + |Gather(t.workers, UnackedOf)| - |t.ledger.remade|
              && t.resWg > 0 && (t.out.queue != [] ==> t.out.col.Broke?) && (t.err.queue != [] ==> t.err.col.Broke?)
  {
    AllRunsSafe(job, steps, t);
    if t.phase.AwaitFinish? {
      StuckBalance(job, t);
    } else if t.phase.Draining? {
      StuckDrainBalance(job, t);
    }
  }

  /** Outside its three waits the orchestrator always has a step. */
  lemma OrchestratorMoves(job: Job, s: State) returns (step: Step)
    requires PhaseOk(job, s) && !s.panicked
    requires !s.phase.AwaitReady? && !s.phase.AwaitFinish? && !s.phase.Draining? && !s.phase.Returned?
    ensures Enabled(job, s, step) && !step.Crash?
  {
    if s.phase.NextCommand? {
      step := if s.phase.i < |job.outcomes| then OpenPublisher else AllSent;
    } else if s.phase.Sending? {
      step := if s.phase.call.Trying? then SendAttempt(Landed) else SendReturn;
    } else {
      step := CreateConsumer(true);
    }
  }

  lemma NotStuckElsewhere(job: Job, s: State)
    requires CleanInv(job, s) && Quiescent(job, s)
    ensures s.phase.AwaitReady? || s.phase.AwaitFinish? || s.phase.Draining? || s.phase.Returned?
  {
    if !s.phase.AwaitReady? && !s.phase.AwaitFinish? && !s.phase.Draining? && !s.phase.Returned? {
      var step := OrchestratorMoves(job, s);
    }
  }

  /** A clean run that cannot go on has returned, or waits for ever at one of the three WaitGroups. */
  predicate StuckOrReturned(s: State) {
    || s.phase.Returned?
    || (s.phase.AwaitReady? && SomeWorker(s, Refused))
    || (s.phase.AwaitFinish? && s.wg == |s.ledger.skipped| + |s.cmdQueue| > 0
        && (s.cmdQueue != multiset{} ==> !SomeWorker(s, Open)))
    || (s.phase.Draining? && s.resWg > 0
        && s.resWg == |s.ledger.failedReplies| + |s.ledger.vanished| + |s.out.queue| + |s.err.queue|
        && (s.out.queue != [] ==> s.out.col.Broke?) && (s.err.queue != [] ==> s.err.col.Broke?))
  }

  lemma QuiescentState(job: Job, s: State)
    requires CleanInv(job, s) && Quiescent(job, s)
    ensures StuckOrReturned(s)
  {
    NotStuckElsewhere(job, s);
    if s.phase.AwaitReady? {
      StuckAtBarrier(job, s);
    } else if s.phase.AwaitFinish? {
      StuckWaiting(job, s);
    } else if s.phase.Draining? {
      StuckDraining(job, s);
    }
  }

  /**
   * Exact loss accounting: where a clean run that cannot go on stands, the WaitGroup counter says how much
   * was lost: commands skipped or queued with no worker consuming, then results whose finish response carried
   * an Error, whose message vanished, or that are queued where a collector could not subscribe.
   */
  lemma ExactLoss(job: Job, steps: seq<Step>, t: State)
    requires CleanRuns(job, Init(job), steps, t) && Quiescent(job, t)
    ensures StuckOrReturned(t)
  {
    CleanRunsSafe(job, steps, t);
    QuiescentState(job, t);
  }

  /**
   * Nothing went wrong that the run would wait for. Results are not waited for when a result consumer could
   * not be created.
   */
  predicate NothingLost(s: State) {
    && !SomeWorker(s, Refused)
    && s.ledger.skipped == multiset{}
    && s.cmdQueue == multiset{}
    && (s.ledger.noConsumer ||
        (s.ledger.failedReplies == s.ledger.vanished == multiset{} && s.out.queue == [] && s.err.queue == []))
  }

  lemma ReturnedLostNothing(job: Job, s: State)
    requires CleanInv(job, s) && s.phase.Returned?
    ensures NothingLost(s)
  {
    NoRefusalAfterBarrier(job, s);
    FinishedState(job, s);
    if !s.phase.exit.SetupError? {
      DrainedAtZero(job, s);
    }
  }

  lemma StuckMeansLoss(job: Job, s: State)
    requires CleanInv(job, s) && Quiescent(job, s) && !s.phase.Returned?
    ensures !NothingLost(s)
  {
    QuiescentState(job, s);
  }

  /** Theorem: a clean run that can go no further has returned if and only if nothing was lost. */
  lemma CompletesIffNothingLost(job: Job, steps: seq<Step>, t: State)
    requires CleanRuns(job, Init(job), steps, t) && Quiescent(job, t)
    ensures t.phase.Returned? <==> NothingLost(t)
  {
    CleanRunsSafe(job, steps, t);
    if t.phase.Returned? {
      ReturnedLostNothing(job, t);
    } else {
      StuckMeansLoss(job, t);
    }
  }

  /**
   * Deadlock freedom: with no endpoint refused, a worker consuming (or nothing queued for one), every
   * command sent, every result published and both collectors subscribed, some step can be taken.
   */
  lemma NoDeadlock(job: Job, steps: seq<Step>, t: State)
    requires CleanRuns(job, Init(job), steps, t) && !t.phase.Returned?
    requires !SomeWorker(t, Refused)
    requires SomeWorker(t, Open) || t.cmdQueue == multiset{}
    requires t.ledger.skipped == t.ledger.failedReplies == t.ledger.vanished == multiset{}
    requires !t.out.col.Broke? && !t.err.col.Broke?
    ensures exists step :: Enabled(job, t, step) && !step.Crash?
  {
    if Quiescent(job, t) {
      ExactLoss(job, steps, t);
    }
  }
}
