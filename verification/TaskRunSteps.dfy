/** Every step of a task run keeps the invariants. */
module TaskRunSteps {
  import opened Bags
  import opened TaskRun
  import opened TaskRunInvariants

  // ----- simple parts of the invariant -----

  lemma KeepsPhase(job: Job, s: State, step: Step)
    requires Enabled(job, s, step) && PhaseOk(job, s)
    ensures PhaseOk(job, Apply(job, s, step))
  {
    if OfWorker(step) { WorkerFrame(job, s, step); } else if OfCollector(step) { CollectorFrame(job, s, step); }
  }

  lemma KeepsWorker(job: Job, x: Worker, step: Step)
    requires OfWorker(step) && WorkerReady(job, x, step) && WorkerOk(x)
    ensures WorkerOk(WorkerAfter(job, x, step))
    ensures WorkerAfter(job, x, step).link.Stopped? ==> x.link.Stopped? || step.Stop?
    ensures UnreadyOf(WorkerAfter(job, x, step)) + (if step.Connect? || step.ConnectBroken? then 1 else 0)
            == UnreadyOf(x)
  {
  }

  lemma PendingFlow(job: Job, s: State, step: Step)
    requires Enabled(job, s, step) && OfWorker(step)
    ensures Apply(job, s, step).pending + (if step.Connect? || step.ConnectBroken? then 1 else 0) == s.pending
  {
  }

  lemma OneWorkerChanged(job: Job, s: State, s': State, w: nat)
    requires WorkersOk(job, s) && s'.phase == s.phase
    requires w < |s.workers| == |s'.workers| && s'.workers == s.workers[w := s'.workers[w]]
    requires WorkerOk(s'.workers[w]) && (s'.workers[w].link.Stopped? ==> Cancelled(s'.phase))
    requires s'.pending + UnreadyOf(s.workers[w]) == s.pending + UnreadyOf(s'.workers[w])
    requires !s.phase.AwaitReady? ==> s'.pending <= 0
    ensures WorkersOk(job, s')
  {
    TotalUpdate(s.workers, w, s'.workers[w], UnreadyOf);
  }

  lemma KeepsWorkers(job: Job, s: State, step: Step)
    requires Enabled(job, s, step) && WorkersOk(job, s)
    ensures WorkersOk(job, Apply(job, s, step))
  {
    if OfWorker(step) {
      WorkerFrame(job, s, step);
      PendingFlow(job, s, step);
      KeepsWorker(job, s.workers[step.w], step);
      OneWorkerChanged(job, s, Apply(job, s, step), step.w);
    } else if OfCollector(step) {
      CollectorFrame(job, s, step);
    } else {
      OrchestratorFrame(job, s, step);
      if s.phase.AwaitReady? { assert step.PassBarrier?; }
    }
  }

  lemma LaneFlow(job: Job, s: State, step: Step)
    requires Enabled(job, s, step) && OfCollector(step)
    ensures var s', l, l' := Apply(job, s, step), LaneOf(s, step.kind), LaneOf(Apply(job, s, step), step.kind);
            && s'.resWg - |l.taken| + Uncounted(l) == s.resWg - |l'.taken| + Uncounted(l')
            && (step.CountDown? ==> s'.panicked == (s'.resWg < 0) && s'.resWg == s.resWg - 1)
            && (l'.col.Done? ==> s.resWg == 0)
            && (!step.Subscribe? && !step.StopCollector? ==> !l.col.Off?)
  {
  }

  lemma WgFlow(job: Job, s: State, step: Step)
    requires Enabled(job, s, step) && step.Receive?
    ensures var s' := Apply(job, s, step);
            s'.wg == s.wg - 1 && |s'.ledger.handled| == |s.ledger.handled| + 1 && s'.panicked == (s'.wg < 0)
  {
  }

  lemma PublishFlow(job: Job, s: State, step: Step)
    requires Enabled(job, s, step) && step.PublishAttempt?
    ensures var s' := Apply(job, s, step);
            && s'.out.col == s.out.col && s'.err.col == s.err.col
            && s'.out.taken == s.out.taken && s'.err.taken == s.err.taken
  {
  }

  lemma KeepsCounters(job: Job, s: State, step: Step)
    requires Enabled(job, s, step) && CountersOk(job, s)
    ensures CountersOk(job, Apply(job, s, step))
  {
    if OfWorker(step) {
      WorkerFrame(job, s, step);
      if step.Receive? { WgFlow(job, s, step); } else if step.PublishAttempt? { PublishFlow(job, s, step); }
    } else if OfCollector(step) {
      CollectorFrame(job, s, step);
      LaneFlow(job, s, step);
    } else {
      OrchestratorFrame(job, s, step);
    }
  }

  // ----- the result lanes -----

  /** Collectors only move messages along: the history of a lane does not change. */
  lemma CollectorKeepsHistory(job: Job, s: State, step: Step)
    requires Enabled(job, s, step) && OfCollector(step)
    ensures var s' := Apply(job, s, step); History(s'.out) == History(s.out) && History(s'.err) == History(s.err)
  {
    CollectorFrame(job, s, step);
    var l, l' := LaneOf(s, step.kind), LaneOf(Apply(job, s, step), step.kind);
    assert History(l') == History(l) by {
      if step.Collect? {
        assert l.queue == [l.queue[0]] + l.queue[1..];
      }
    }
  }

  /** A published result extends the history of the lane its command's exit status selects. */
  lemma PublishExtendsHistory(job: Job, s: State, step: Step)
    requires Enabled(job, s, step) && step.PublishAttempt?
    ensures var s', id := Apply(job, s, step), s.workers[step.w].pc.id;
            var m := Msg(id, job.outcomes[id].output);
            && History(s'.out) == History(s.out) + (if step.verdict.Landed? && job.outcomes[id].ok then [m] else [])
            && History(s'.err) == History(s.err) + (if step.verdict.Landed? && !job.outcomes[id].ok then [m] else [])
  {
    var id := s.workers[step.w].pc.id;
    var kind := if job.outcomes[id].ok then OutputLane else ErrorLane;
    if step.verdict.Landed? {
      HistoryExtended(LaneOf(s, kind), Msg(id, job.outcomes[id].output));
    }
  }

  lemma HistoryExtended(l: Lane, m: Msg)
    ensures History(l.(queue := l.queue + [m])) == History(l) + [m]
  {
  }

  lemma KeepsTruthful(job: Job, s: State, step: Step)
    requires Enabled(job, s, step)
    requires Truthful(job, History(s.out), true) && Truthful(job, History(s.err), false)
    ensures Truthful(job, History(Apply(job, s, step).out), true)
    ensures Truthful(job, History(Apply(job, s, step).err), false)
  {
    if OfCollector(step) {
      CollectorKeepsHistory(job, s, step);
    } else if !OfWorker(step) {
      OrchestratorFrame(job, s, step);
    } else if step.PublishAttempt? {
      PublishExtendsHistory(job, s, step);
    } else {
      WorkerFrame(job, s, step);
    }
  }

  /** The result a step publishes or gives up. */
  function NewResult(s: State, step: Step): multiset<nat>
    requires step.PublishAttempt? || step.PublishReturn? ==> step.w < |s.workers| && s.workers[step.w].pc.Publishing?
  {
    if (step.PublishAttempt? && !step.verdict.Denied?) || (step.PublishReturn? && s.workers[step.w].pc.call.GaveUp?)
    then multiset{s.workers[step.w].pc.id}
    else multiset{}
  }

  lemma IdsExtended(l: Lane, l': Lane, m: Msg, grows: bool, id: nat)
    requires History(l') == History(l) + (if grows then [m] else [])
    ensures Ids(l')[id] == Ids(l)[id] + (if grows then multiset{m.id}[id] else 0)
  {
    if grows {
      GatherAppend(History(l), m, MsgId);
    } else {
      assert History(l') == History(l);
    }
  }

  lemma VanishedFlow(job: Job, s: State, step: Step, id: nat)
    requires Enabled(job, s, step) && step.PublishAttempt?
    ensures Missing(Apply(job, s, step))[id]
            == Missing(s)[id] + if step.verdict.Vanished? && id == s.workers[step.w].pc.id then 1 else 0
  {
  }

  lemma PublishFlowIds(job: Job, s: State, step: Step, id: nat)
    requires Enabled(job, s, step) && step.PublishAttempt?
    ensures var s' := Apply(job, s, step);
            Results(s', id) == Results(s, id) + NewResult(s, step)[id]
  {
    PublishExtendsHistory(job, s, step);
    var s', i := Apply(job, s, step), s.workers[step.w].pc.id;
    var m := Msg(i, job.outcomes[i].output);
    VanishedFlow(job, s, step, id);
    IdsExtended(s.out, s'.out, m, step.verdict.Landed? && job.outcomes[i].ok, id);
    IdsExtended(s.err, s'.err, m, step.verdict.Landed? && !job.outcomes[i].ok, id);
  }

  lemma DroppedFlow(job: Job, s: State, step: Step, id: nat)
    requires Enabled(job, s, step) && step.PublishReturn?
    ensures Apply(job, s, step).ledger.dropped[id] == s.ledger.dropped[id] + NewResult(s, step)[id]
  {
  }

  /** A step adds to the results exactly what it publishes or gives up. */
  lemma ResultsFlow(job: Job, s: State, step: Step, id: nat)
    requires Enabled(job, s, step)
    ensures Results(Apply(job, s, step), id) == Results(s, id) + NewResult(s, step)[id]
  {
    if OfCollector(step) {
      CollectorKeepsHistory(job, s, step);
      CollectorFrame(job, s, step);
    } else if !OfWorker(step) {
      OrchestratorFrame(job, s, step);
    } else {
      WorkerFrame(job, s, step);
      if step.PublishAttempt? {
        PublishFlowIds(job, s, step, id);
      } else if step.PublishReturn? {
        DroppedFlow(job, s, step, id);
      }
    }
  }

  // ----- clean runs: results and failures -----

  /** The part of Published that belongs to one worker. */
  function OwnPublished(x: Worker, id: nat): nat {
    SettledOf(x)[id] + RepliesOf(x)[id]
  }

  /** The result a worker's own step settles. */
  function NewlySettled(x: Worker, step: Step): multiset<nat> {
    if x.pc.Publishing? &&
       ((step.PublishAttempt? && !step.verdict.Denied?) || (step.PublishReturn? && x.pc.call.GaveUp?))
    then multiset{x.pc.id} else multiset{}
  }

  lemma OwnPublishedKept(job: Job, x: Worker, step: Step, id: nat)
    requires OfWorker(step) && WorkerReady(job, x, step)
    requires !step.Receive? && !step.Crash? && !step.Signal? && !step.PublishAttempt? && !step.PublishReturn?
    ensures OwnPublished(WorkerAfter(job, x, step), id) == OwnPublished(x, id)
  {
    assert WorkerAfter(job, x, step).stream == x.stream;
    assert SettledOf(WorkerAfter(job, x, step)) == SettledOf(x);
  }

  lemma OwnPublishes(job: Job, x: Worker, step: Step, id: nat)
    requires (step.PublishAttempt? || step.PublishReturn?) && WorkerReady(job, x, step)
    ensures OwnPublished(WorkerAfter(job, x, step), id) == OwnPublished(x, id) + NewlySettled(x, step)[id]
  {
    assert WorkerAfter(job, x, step).stream == x.stream;
    OwnSettles(job, x, step, id);
  }

  lemma OwnSettles(job: Job, x: Worker, step: Step, id: nat)
    requires (step.PublishAttempt? || step.PublishReturn?) && WorkerReady(job, x, step)
    ensures SettledOf(WorkerAfter(job, x, step))[id] == SettledOf(x)[id] + NewlySettled(x, step)[id]
  {
  }

  lemma OwnSignalledPublished(x: Worker, y: Worker, id: nat)
    requires x.pc.Reporting?
    requires y == x.(pc := Acking(x.pc.id), stream := y.stream)
    requires RepliesOf(y)[id] == RepliesOf(x)[id] + multiset{x.pc.id}[id]
    ensures OwnPublished(x, id) == OwnPublished(y, id)
  {
  }

  lemma OwnCrashedPublished(x: Worker, id: nat)
    requires Redoable(x)
    ensures OwnPublished(x, id) == 0 && FailingOf(x)[id] == 0
  {
  }

  lemma OwnReceivedPublished(x: Worker, y: Worker, id: nat)
    requires x.stream != [] && y == x.(stream := x.stream[1..])
    ensures OwnPublished(x, id) == OwnPublished(y, id) + multiset{x.stream[0].id}[id]
  {
    SignalReceived(x.stream, id);
  }

  lemma OwnPublishedFlow(job: Job, x: Worker, step: Step, id: nat)
    requires OfWorker(step) && WorkerReady(job, x, step)
    requires step.Crash? ==> Redoable(x)
    ensures OwnPublished(WorkerAfter(job, x, step), id) + (if step.Receive? then multiset{x.stream[0].id}[id] else 0)
            == OwnPublished(x, id) + NewlySettled(x, step)[id]
  {
    if step.Receive? {
      OwnReceivedPublished(x, WorkerAfter(job, x, step), id);
    } else if step.Signal? {
      OwnSignalled(x, WorkerAfter(job, x, step), id);
      OwnSignalledPublished(x, WorkerAfter(job, x, step), id);
    } else if step.PublishAttempt? || step.PublishReturn? {
      OwnPublishes(job, x, step, id);
    } else if step.Crash? {
      OwnCrashedPublished(x, id);
    } else {
      OwnPublishedKept(job, x, step, id);
    }
  }

  /** The deliveries of a worker whose result is made. */
  function OwnMade(x: Worker, id: nat): nat {
    SettledOf(x)[id] + AckingOf(x)[id]
  }

  lemma OwnMadeKept(job: Job, x: Worker, step: Step, id: nat)
    requires OfWorker(step) && WorkerReady(job, x, step)
    requires !step.PublishAttempt? && !step.PublishReturn? && !step.Signal? && !step.Ack? && !step.Crash?
    ensures OwnMade(WorkerAfter(job, x, step), id) == OwnMade(x, id)
  {
    var y := WorkerAfter(job, x, step);
    assert || y.pc == x.pc
           || (y.pc.Running? && x.pc.Selecting?)
           || (y.pc.Publishing? && y.pc.call.Trying? && x.pc.Running?);
  }

  lemma OwnMadeMoves(job: Job, x: Worker, step: Step, id: nat)
    requires OfWorker(step) && WorkerReady(job, x, step)
    requires step.PublishAttempt? || step.PublishReturn? || step.Signal?
    ensures OwnMade(WorkerAfter(job, x, step), id) == OwnMade(x, id) + NewlySettled(x, step)[id]
  {
  }

  /** What a worker's step adds to the results made. */
  lemma OwnMadeFlow(job: Job, x: Worker, step: Step, id: nat)
    requires OfWorker(step) && WorkerReady(job, x, step)
    ensures OwnMade(WorkerAfter(job, x, step), id) + (if step.Ack? then multiset{x.pc.id}[id] else 0)
            + (if step.Crash? then OwnMade(x, id) else 0)
            == OwnMade(x, id) + NewlySettled(x, step)[id]
  {
    if step.PublishAttempt? || step.PublishReturn? || step.Signal? {
      OwnMadeMoves(job, x, step, id);
    } else if !step.Ack? && !step.Crash? {
      OwnMadeKept(job, x, step, id);
    }
  }

  lemma MadeLedger(job: Job, s: State, step: Step, id: nat)
    requires Enabled(job, s, step) && OfWorker(step)
    ensures var s', x := Apply(job, s, step), s.workers[step.w];
            s'.ledger.remade[id] == s.ledger.remade[id] + (if step.Crash? then OwnMade(x, id) else 0)
  {
  }

  lemma MadeBalance(s: State, s': State, w: nat, added: nat, id: nat)
    requires w < |s.workers| == |s'.workers| && s'.workers == s.workers[w := s'.workers[w]]
    requires s'.ledger.acked[id] + s'.ledger.remade[id] + OwnMade(s'.workers[w], id)
             == s.ledger.acked[id] + s.ledger.remade[id] + OwnMade(s.workers[w], id) + added
    ensures Made(s', id) == Made(s, id) + added
  {
    GatherUpdateAt(s.workers, w, s'.workers[w], SettledOf, id);
    GatherUpdateAt(s.workers, w, s'.workers[w], AckingOf, id);
  }

  /** A step makes exactly the results it publishes, gives up or has vanish. */
  lemma MadeFlow(job: Job, s: State, step: Step, id: nat)
    requires Enabled(job, s, step)
    ensures Made(Apply(job, s, step), id) == Made(s, id) + NewResult(s, step)[id]
  {
    if OfCollector(step) {
      CollectorFrame(job, s, step);
    } else if !OfWorker(step) {
      OrchestratorFrame(job, s, step);
    } else {
      WorkerFrame(job, s, step);
      MadeLedger(job, s, step, id);
      AckedFlow(job, s, step, id);
      OwnMadeFlow(job, s.workers[step.w], step, id);
      MadeBalance(s, Apply(job, s, step), step.w, NewResult(s, step)[id], id);
    }
  }

  lemma HandledFlow(job: Job, s: State, step: Step, id: nat)
    requires Enabled(job, s, step) && OfWorker(step)
    ensures var s', x := Apply(job, s, step), s.workers[step.w];
            && s'.ledger.handled[id] ==
               s.ledger.handled[id] + (if step.Receive? then multiset{x.stream[0].id}[id] else 0)
            && s'.ledger.failedReplies[id] ==
               s.ledger.failedReplies[id] + (if step.Receive? then ReplyFailure(x.stream[0])[id] else 0)
  {
  }

  lemma PublishedBalance(s: State, s': State, w: nat, added: nat, id: nat)
    requires w < |s.workers| == |s'.workers| && s'.workers == s.workers[w := s'.workers[w]]
    requires s'.ledger.handled[id] + OwnPublished(s'.workers[w], id)
             == s.ledger.handled[id] + OwnPublished(s.workers[w], id) + added
    ensures Published(s', id) == Published(s, id) + added
  {
    GatherUpdateAt(s.workers, w, s'.workers[w], SettledOf, id);
    GatherUpdateAt(s.workers, w, s'.workers[w], RepliesOf, id);
  }

  lemma PublishedFlow(job: Job, s: State, step: Step, id: nat)
    requires Enabled(job, s, step) && Clean(s, step)
    ensures Published(Apply(job, s, step), id) == Published(s, id) + NewResult(s, step)[id]
  {
    if OfCollector(step) {
      CollectorFrame(job, s, step);
    } else if !OfWorker(step) {
      OrchestratorFrame(job, s, step);
    } else {
      WorkerFrame(job, s, step);
      HandledFlow(job, s, step, id);
      OwnPublishedFlow(job, s.workers[step.w], step, id);
      PublishedBalance(s, Apply(job, s, step), step.w, NewResult(s, step)[id], id);
    }
  }

  lemma OwnFailingFlow(job: Job, x: Worker, step: Step, id: nat)
    requires OfWorker(step) && WorkerReady(job, x, step)
    requires step.Crash? ==> Redoable(x)
    ensures FailingOf(WorkerAfter(job, x, step))[id] + (if step.Receive? then ReplyFailure(x.stream[0])[id] else 0)
            == FailingOf(x)[id] + (if step.PublishReturn? then NewlySettled(x, step)[id] else 0)
  {
    if step.Receive? {
      SignalReceived(x.stream, id);
    } else if step.Signal? {
      OwnSignalled(x, WorkerAfter(job, x, step), id);
    } else if !step.Crash? {
      assert WorkerAfter(job, x, step).stream == x.stream;
    }
  }

  lemma FailuresBalance(s: State, s': State, w: nat, added: nat, id: nat)
    requires w < |s.workers| == |s'.workers| && s'.workers == s.workers[w := s'.workers[w]]
    requires s'.ledger.failedReplies[id] + FailingOf(s'.workers[w])[id]
             == s.ledger.failedReplies[id] + FailingOf(s.workers[w])[id] + added
    ensures Failures(s', id) == Failures(s, id) + added
  {
    GatherUpdateAt(s.workers, w, s'.workers[w], FailingOf, id);
  }

  lemma FailuresFlow(job: Job, s: State, step: Step, id: nat)
    requires Enabled(job, s, step) && Clean(s, step)
    requires s.ledger.dropped[id] == Failures(s, id)
    ensures Apply(job, s, step).ledger.dropped[id] == Failures(Apply(job, s, step), id)
  {
    if OfCollector(step) {
      CollectorFrame(job, s, step);
    } else if !OfWorker(step) {
      OrchestratorFrame(job, s, step);
    } else {
      WorkerFrame(job, s, step);
      HandledFlow(job, s, step, id);
      OwnFailingFlow(job, s.workers[step.w], step, id);
      var added := if step.PublishReturn? then NewResult(s, step)[id] else 0;
      if step.PublishReturn? { DroppedFlow(job, s, step, id); }
      FailuresBalance(s, Apply(job, s, step), step.w, added, id);
    }
  }

  // ----- all runs: owners and evidence -----

  lemma AckedFlow(job: Job, s: State, step: Step, id: nat)
    requires Enabled(job, s, step) && OfWorker(step)
    ensures var s', x := Apply(job, s, step), s.workers[step.w];
            && s'.cmdQueue[id] + (if step.Deliver? then multiset{step.id}[id] else 0)
               == s.cmdQueue[id] + (if step.Crash? then UnackedOf(x)[id] else 0)
            && s'.ledger.acked[id] == s.ledger.acked[id] + (if step.Ack? then multiset{x.pc.id}[id] else 0)
  {
  }

  lemma OwnUnackedFlow(job: Job, x: Worker, step: Step, id: nat)
    requires OfWorker(step) && WorkerReady(job, x, step)
    ensures UnackedOf(WorkerAfter(job, x, step))[id]
            + (if step.Crash? then UnackedOf(x)[id] else 0) + (if step.Ack? then multiset{x.pc.id}[id] else 0)
            == UnackedOf(x)[id] + (if step.Deliver? then multiset{step.id}[id] else 0)
  {
    if step.Take? {
      TakeFirst(x);
    }
  }

  lemma OwnersBalance(job: Job, s: State, s': State, w: nat, id: nat)
    requires w < |s.workers| == |s'.workers| && s'.workers == s.workers[w := s'.workers[w]]
    requires s'.phase == s.phase && s'.ledger.skipped == s.ledger.skipped
    requires s'.cmdQueue[id] + s'.ledger.acked[id] + UnackedOf(s'.workers[w])[id]
             == s.cmdQueue[id] + s.ledger.acked[id] + UnackedOf(s.workers[w])[id]
    ensures Owners(job, s', id) == Owners(job, s, id)
  {
    GatherUpdateAt(s.workers, w, s'.workers[w], UnackedOf, id);
  }

  lemma OwnersFlow(job: Job, s: State, step: Step, id: nat)
    requires Enabled(job, s, step) && PhaseOk(job, s)
    ensures Owners(job, Apply(job, s, step), id) == Owners(job, s, id)
  {
    if OfCollector(step) {
      CollectorFrame(job, s, step);
    } else if OfWorker(step) {
      WorkerFrame(job, s, step);
      AckedFlow(job, s, step, id);
      OwnUnackedFlow(job, s.workers[step.w], step, id);
      OwnersBalance(job, s, Apply(job, s, step), step.w, id);
    } else {
      OrchestratorFrame(job, s, step);
      OrchestratorUpstream(job, s, step, id);
    }
  }

  lemma ResultsGrow(job: Job, s: State, step: Step)
    requires Enabled(job, s, step)
    ensures forall id: nat :: Evident(s, id) ==> Evident(Apply(job, s, step), id)
  {
    forall id: nat ensures Evident(s, id) ==> Evident(Apply(job, s, step), id) {
      ResultsFlow(job, s, step, id);
    }
  }

  lemma EvidenceCarries(s: State, s': State, x: Worker)
    requires EvidentWorker(s, x)
    requires forall id: nat :: Evident(s, id) ==> Evident(s', id)
    ensures EvidentWorker(s', x)
  {
  }

  /** The worker's own step: a settled result is evident at once, and only evident results are signalled. */
  lemma OwnEvidence(job: Job, s: State, step: Step)
    requires Enabled(job, s, step) && OfWorker(step)
    requires EvidentWorker(s, s.workers[step.w])
    requires forall id: nat :: Evident(s, id) ==> Evident(Apply(job, s, step), id)
    ensures EvidentWorker(Apply(job, s, step), WorkerAfter(job, s.workers[step.w], step))
  {
    var s', x := Apply(job, s, step), s.workers[step.w];
    EvidenceCarries(s, s', x);
    if step.PublishAttempt? || step.PublishReturn? {
      ResultsFlow(job, s, step, x.pc.id);
      OwnPublishEvidence(job, s', x, step);
    } else if step.Receive? || step.Signal? {
      OwnStreamEvidence(job, s', x, step);
    }
  }

  lemma OwnPublishEvidence(job: Job, s: State, x: Worker, step: Step)
    requires (step.PublishAttempt? || step.PublishReturn?) && WorkerReady(job, x, step)
    requires EvidentWorker(s, x)
    requires x.pc.id in NewlySettled(x, step) ==> Evident(s, x.pc.id)
    ensures EvidentWorker(s, WorkerAfter(job, x, step))
  {
    assert WorkerAfter(job, x, step).stream == x.stream;
  }

  lemma OwnStreamEvidence(job: Job, s: State, x: Worker, step: Step)
    requires (step.Receive? || step.Signal?) && WorkerReady(job, x, step)
    requires EvidentWorker(s, x)
    ensures EvidentWorker(s, WorkerAfter(job, x, step))
  {
  }

  lemma LedgerEvidence(job: Job, s: State, step: Step)
    requires Enabled(job, s, step) && OfWorker(step)
    ensures var s', x := Apply(job, s, step), s.workers[step.w];
            && (forall id :: id in s'.ledger.acked ==> id in s.ledger.acked || (step.Ack? && id == x.pc.id))
            && (forall id :: id in s'.ledger.handled ==>
                  id in s.ledger.handled || (step.Receive? && id == x.stream[0].id))
  {
  }

  lemma KeepsEvident(job: Job, s: State, step: Step)
    requires Enabled(job, s, step) && AllEvident(s)
    ensures AllEvident(Apply(job, s, step))
  {
    var s' := Apply(job, s, step);
    ResultsGrow(job, s, step);
    if OfWorker(step) {
      WorkerFrame(job, s, step);
      LedgerEvidence(job, s, step);
      OwnEvidence(job, s, step);
    } else if OfCollector(step) {
      CollectorFrame(job, s, step);
    } else {
      OrchestratorFrame(job, s, step);
    }
    forall w | 0 <= w < |s'.workers| ensures EvidentWorker(s', s'.workers[w]) {
      if !OfWorker(step) || w != step.w {
        assert s'.workers[w] == s.workers[w];
        EvidenceCarries(s, s', s.workers[w]);
      }
    }
  }

  // ----- the fields of the task executor -----

  lemma BodiesExtend(q: seq<Msg>, m: Msg)
    ensures Bodies(q) <= Bodies(q + [m])
  {
  }

  lemma KeepsFields(job: Job, s: State, step: Step)
    requires Enabled(job, s, step) && FieldsOk(s)
    ensures FieldsOk(Apply(job, s, step))
  {
    var s' := Apply(job, s, step);
    if OfWorker(step) {
      WorkerFrame(job, s, step);
      if step.PublishAttempt? { PublishFlow(job, s, step); }
    } else if OfCollector(step) {
      CollectorFrame(job, s, step);
      if step.Append? {
        BodiesExtend(LaneOf(s, step.kind).taken, LaneOf(s, step.kind).col.m);
      } else {
        assert LaneOf(s', step.kind).taken == LaneOf(s, step.kind).taken;
      }
    } else {
      OrchestratorFrame(job, s, step);
    }
  }

  // ----- how the run returns -----

  lemma KeepsLanes(job: Job, s: State, step: Step)
    requires Enabled(job, s, step) && LaneOk(s.out) && LaneOk(s.err)
    ensures LaneOk(Apply(job, s, step).out) && LaneOk(Apply(job, s, step).err)
  {
    if OfWorker(step) {
      WorkerFrame(job, s, step);
      if step.PublishAttempt? { PublishFlow(job, s, step); }
    } else if OfCollector(step) {
      CollectorFrame(job, s, step);
      CollectorKeepsLane(job, s, step);
    } else {
      OrchestratorFrame(job, s, step);
    }
  }

  lemma CollectorKeepsLane(job: Job, s: State, step: Step)
    requires Enabled(job, s, step) && OfCollector(step) && LaneOk(LaneOf(s, step.kind))
    ensures LaneOk(LaneOf(Apply(job, s, step), step.kind))
    ensures LaneOf(s, step.kind).col.Broke? ==> LaneOf(Apply(job, s, step), step.kind).col.Broke?
  {
  }

  lemma KeepsExit(job: Job, s: State, step: Step)
    requires Enabled(job, s, step) && ExitOk(s) && LaneOk(s.out) && LaneOk(s.err)
    ensures ExitOk(Apply(job, s, step))
  {
    if OfWorker(step) {
      WorkerFrame(job, s, step);
      if step.PublishAttempt? { PublishFlow(job, s, step); }
    } else if OfCollector(step) {
      CollectorFrame(job, s, step);
      CollectorKeepsLane(job, s, step);
    } else {
      OrchestratorFrame(job, s, step);
    }
  }

  // ----- finish signals -----

  lemma OwnSent(x: Worker, y: Worker, id: nat)
    requires x.pc.Reporting?
    requires y == x.(pc := Acking(x.pc.id), stream := x.stream + [Response(x.pc.id, x.pc.failed)])
    ensures RepliesOf(y)[id] + AckingOf(x)[id] == RepliesOf(x)[id] + AckingOf(y)[id]
  {
    OwnSignalled(x, y, id);
  }

  lemma OwnSignalFlow(job: Job, x: Worker, step: Step, id: nat)
    requires OfWorker(step) && WorkerReady(job, x, step)
    ensures var y := WorkerAfter(job, x, step);
            RepliesOf(y)[id] + (if step.Receive? then multiset{x.stream[0].id}[id] else 0)
            + (if step.Crash? then RepliesOf(x)[id] else 0) + AckingOf(x)[id]
            == RepliesOf(x)[id] + AckingOf(y)[id] + (if step.Ack? then multiset{x.pc.id}[id] else 0)
               + (if step.Crash? then AckingOf(x)[id] else 0)
  {
    if step.Receive? {
      SignalReceived(x.stream, id);
    } else if step.Signal? {
      OwnSent(x, WorkerAfter(job, x, step), id);
    } else if !step.Crash? {
      assert WorkerAfter(job, x, step).stream == x.stream;
    }
  }

  lemma SignalLedger(job: Job, s: State, step: Step, id: nat)
    requires Enabled(job, s, step) && OfWorker(step)
    ensures var s', x := Apply(job, s, step), s.workers[step.w];
            && s'.ledger.lost[id] == s.ledger.lost[id] + (if step.Crash? then RepliesOf(x)[id] else 0)
            && s'.ledger.redelivered[id] == s.ledger.redelivered[id] + (if step.Crash? then AckingOf(x)[id] else 0)
  {
  }

  lemma SignalBalance(s: State, s': State, w: nat, id: nat)
    requires w < |s.workers| == |s'.workers| && s'.workers == s.workers[w := s'.workers[w]]
    requires s'.ledger.handled[id] + s'.ledger.lost[id] + RepliesOf(s'.workers[w])[id]
             + s.ledger.acked[id] + s.ledger.redelivered[id] + AckingOf(s.workers[w])[id]
             == s.ledger.handled[id] + s.ledger.lost[id] + RepliesOf(s.workers[w])[id]
                + s'.ledger.acked[id] + s'.ledger.redelivered[id] + AckingOf(s'.workers[w])[id]
    requires Sent(s, id) == Signalled(s, id)
    ensures Sent(s', id) == Signalled(s', id)
  {
    GatherUpdateAt(s.workers, w, s'.workers[w], RepliesOf, id);
    GatherUpdateAt(s.workers, w, s'.workers[w], AckingOf, id);
  }

  lemma KeepsSignals(job: Job, s: State, step: Step, id: nat)
    requires Enabled(job, s, step) && Sent(s, id) == Signalled(s, id)
    ensures Sent(Apply(job, s, step), id) == Signalled(Apply(job, s, step), id)
  {
    if OfCollector(step) {
      CollectorFrame(job, s, step);
    } else if OfWorker(step) {
      WorkerFrame(job, s, step);
      HandledFlow(job, s, step, id);
      AckedFlow(job, s, step, id);
      SignalLedger(job, s, step, id);
      OwnSignalFlow(job, s.workers[step.w], step, id);
      SignalBalance(s, Apply(job, s, step), step.w, id);
    } else {
      OrchestratorFrame(job, s, step);
    }
  }

  // ----- results given up -----

  lemma HeldIsCommand(job: Job, s: State, w: nat)
    requires Accounted(job, s) && w < |s.workers| && !s.workers[w].pc.Selecting?
    ensures s.workers[w].pc.id < |job.outcomes|
  {
    var x := s.workers[w];
    GatherWithinAt(s.workers, w, UnackedOf, x.pc.id);
    assert UnackedOf(x)[x.pc.id] >= 1;
    assert Owners(job, s, x.pc.id) == if x.pc.id < |job.outcomes| then 1 else 0;
  }

  lemma MissingFlow(job: Job, s: State, step: Step)
    requires Enabled(job, s, step) && (step.PublishAttempt? || step.PublishReturn?)
    ensures forall id :: id in Missing(Apply(job, s, step)) ==> id in Missing(s) || id == s.workers[step.w].pc.id
  {
  }

  lemma MissingKept(job: Job, s: State, step: Step)
    requires Enabled(job, s, step) && !step.PublishAttempt? && !step.PublishReturn?
    ensures Missing(Apply(job, s, step)) == Missing(s)
  {
    if OfWorker(step) {
      WorkerFrameLedger(job, s, step);
    } else if OfCollector(step) {
      CollectorFrame(job, s, step);
    } else {
      OrchestratorFrame(job, s, step);
    }
  }

  lemma KeepsDropped(job: Job, s: State, step: Step)
    requires Enabled(job, s, step) && Accounted(job, s) && DroppedOk(job, s)
    ensures DroppedOk(job, Apply(job, s, step))
  {
    if step.PublishAttempt? || step.PublishReturn? {
      HeldIsCommand(job, s, step.w);
      MissingFlow(job, s, step);
    } else {
      MissingKept(job, s, step);
    }
  }

  // ----- all together -----

  /** Every step, crashes included, keeps the invariant of all runs. */
  lemma KeepsInv(job: Job, s: State, step: Step)
    requires Inv(job, s) && Enabled(job, s, step)
    ensures Inv(job, Apply(job, s, step))
  {
    KeepsPhase(job, s, step);
    KeepsWorkers(job, s, step);
    KeepsCounters(job, s, step);
    KeepsTruthful(job, s, step);
    KeepsFields(job, s, step);
    KeepsEvident(job, s, step);
    KeepsDropped(job, s, step);
    KeepsLanes(job, s, step);
    KeepsExit(job, s, step);
    forall id: nat ensures Results(Apply(job, s, step), id) == Made(Apply(job, s, step), id) {
      ResultsFlow(job, s, step, id);
      MadeFlow(job, s, step, id);
    }
    forall id: nat ensures Sent(Apply(job, s, step), id) == Signalled(Apply(job, s, step), id) {
      KeepsSignals(job, s, step, id);
    }
    forall id: nat ensures Owners(job, Apply(job, s, step), id) == if id < |job.outcomes| then 1 else 0 {
      OwnersFlow(job, s, step, id);
    }
  }
}
