/** What every step of a task run keeps: with arbitrary crashes (Accounted), and with redoable ones (Tracked). */
module TaskRunInvariants {
  import opened Bags
  import opened TaskRun

  // ----- where commands and results are -----

  /** The first command the orchestrator has neither put into the command queue nor given up. */
  function NextUnsent(job: Job, phase: Phase): nat {
    match phase
    case AwaitReady => 0
    case NextCommand(i) => i
    case Sending(i, call) => if call.Accepted? then i + 1 else i
    case _ => |job.outcomes|
  }

  function Unsent(job: Job, phase: Phase, id: nat): nat {
    if NextUnsent(job, phase) <= id < |job.outcomes| then 1 else 0
  }

  /** Deliveries whose finish signal the worker has not yet sent. */
  function UnfinishedOf(x: Worker): multiset<nat> {
    multiset(x.prefetch) + match x.pc
                           case Running(id) => multiset{id}
                           case Publishing(id, _) => multiset{id}
                           case Reporting(id, _) => multiset{id}
                           case _ => multiset{}
  }

  /** Commands whose result was given up and whose finish signal has not yet been received. */
  function FailingOf(x: Worker): multiset<nat> {
    Gather(x.stream, ReplyFailure) +
    if x.pc.Reporting? && x.pc.failed then multiset{x.pc.id} else multiset{}
  }

  function UnreadyOf(x: Worker): nat {
    if x.link.Connecting? || x.link.Refused? then 1 else 0
  }

  /** All messages ever put into the lane's queue, in order: appended, in the collector's hands, queued. */
  function History(l: Lane): seq<Msg> {
    l.taken + (if l.col.Holding? then [l.col.m] else []) + l.queue
  }

  function Ids(l: Lane): multiset<nat> {
    Gather(History(l), MsgId)
  }

  // ----- invariants of all runs -----

  predicate PhaseOk(job: Job, s: State) {
    && (s.phase.NextCommand? ==> s.phase.i <= |job.outcomes|)
    && (s.phase.Sending? ==> s.phase.i < |job.outcomes|)
  }

  predicate WorkerOk(x: Worker) {
    && (!x.link.Open? && !x.link.Stopped? ==> x.prefetch == [] && x.pc.Selecting? && x.stream == [])
    && (x.link.Stopped? ==> x.pc.Selecting?)
  }

  predicate WorkersOk(job: Job, s: State) {
    && |s.workers| == job.endpoints
    && (forall w :: 0 <= w < |s.workers| ==>
          WorkerOk(s.workers[w]) && (s.workers[w].link.Stopped? ==> Cancelled(s.phase)))
    && s.pending == Total(s.workers, UnreadyOf)
    && (!s.phase.AwaitReady? ==> s.pending == 0)
  }

  function Uncounted(l: Lane): nat {
    if l.col.Appended? then 1 else 0
  }

  predicate CountersOk(job: Job, s: State) {
    && s.wg == |job.outcomes| - |s.ledger.handled|
    && s.resWg == (if Drains(s.phase)
                   then |job.outcomes| - |s.out.taken| - |s.err.taken| + Uncounted(s.out) + Uncounted(s.err)
                   else 0)
    && (s.panicked <==> s.wg < 0 || s.resWg < 0)
    && (s.out.col.Done? || s.err.col.Done? ==> s.resWg <= 0)
    && (!Drains(s.phase) ==> s.out.col.Off? && s.err.col.Off? && s.out.taken == [] && s.err.taken == [])
  }

  /** A collector that has not subscribed, or could not, has appended nothing. */
  predicate LaneOk(l: Lane) {
    l.col.Off? || l.col.Broke? ==> l.taken == []
  }

  /** How a run that stored nothing came to return. */
  predicate ExitOk(s: State) {
    && (s.phase == Returned(SetupError) <==> s.ledger.noConsumer)
    && (s.phase == Returned(CollectorError) ==> s.out.col.Broke? || s.err.col.Broke?)
  }

  /** How often a finish signal for `id` was sent: handled, under way, or dropped. */
  function Sent(s: State, id: nat): nat {
    s.ledger.handled[id] + Gather(s.workers, RepliesOf)[id] + s.ledger.lost[id]
  }

  /** How often a delivery of `id` has got past its finish signal: acknowledged, to be acknowledged, or requeued. */
  function Signalled(s: State, id: nat): nat {
    s.ledger.acked[id] + Gather(s.workers, AckingOf)[id] + s.ledger.redelivered[id]
  }

  ghost predicate SignalsMatch(s: State) {
    forall id: nat :: Sent(s, id) == Signalled(s, id)
  }

  predicate Truthful(job: Job, q: seq<Msg>, ok: bool) {
    forall k :: 0 <= k < |q| ==>
      q[k].id < |job.outcomes| && job.outcomes[q[k].id] == Outcome(q[k].body, ok)
  }

  /** The fields of the task executor: untouched until the results are stored. */
  predicate FieldsOk(s: State) {
    if s.phase == Returned(Collected)
    then && s.outputs <= Bodies(s.out.taken) && s.errors <= Bodies(s.err.taken)
         && s.taskState == if s.errors != [] then CompleteTaskWithErrors else RunningTask
    else s.taskState == RunningTask && s.outputs == [] && s.errors == []
  }

  /** How often command `id` is unsent, skipped, or in the command queue. */
  function Upstream(job: Job, s: State, id: nat): nat {
    Unsent(job, s.phase, id) + s.ledger.skipped[id] + s.cmdQueue[id]
  }

  /** How often command `id` is upstream, held unacknowledged by a worker, or acknowledged. */
  function Owners(job: Job, s: State, id: nat): nat {
    Upstream(job, s, id) + Gather(s.workers, UnackedOf)[id] + s.ledger.acked[id]
  }

  /** Every command has exactly one owner, and nothing else has any. */
  ghost predicate Accounted(job: Job, s: State) {
    forall id: nat :: Owners(job, s, id) == if id < |job.outcomes| then 1 else 0
  }

  /** How often the result of `id` was published, vanished or given up. */
  function Results(s: State, id: nat): nat {
    Ids(s.out)[id] + Ids(s.err)[id] + Missing(s)[id]
  }

  /** The results that were made and are in no queue: their publish failed, or their message vanished. */
  function Missing(s: State): multiset<nat> {
    s.ledger.dropped + s.ledger.vanished
  }

  /** How often a result of `id` was made: by deliveries under way, acknowledged, and requeued. */
  function Made(s: State, id: nat): nat {
    Gather(s.workers, SettledOf)[id] + Gather(s.workers, AckingOf)[id] + s.ledger.acked[id] + s.ledger.remade[id]
  }

  ghost predicate ResultsMade(s: State) {
    forall id: nat :: Results(s, id) == Made(s, id)
  }

  /** The result of command `id` is in a result queue or with a collector, or its publish vanished or was given up. */
  predicate Evident(s: State, id: nat) {
    Results(s, id) > 0
  }

  predicate EvidentWorker(s: State, x: Worker) {
    && (x.pc.Publishing? && x.pc.call.Accepted? ==> Evident(s, x.pc.id))
    && (x.pc.Reporting? || x.pc.Acking? ==> Evident(s, x.pc.id))
    && (forall k :: 0 <= k < |x.stream| ==> Evident(s, x.stream[k].id))
  }

  /** No acknowledgement and no finish signal without a result published, vanished or given up before it. */
  predicate AllEvident(s: State) {
    && (forall id :: id in s.ledger.acked ==> Evident(s, id))
    && (forall id :: id in s.ledger.handled ==> Evident(s, id))
    && (forall w :: 0 <= w < |s.workers| ==> EvidentWorker(s, s.workers[w]))
  }

  predicate DroppedOk(job: Job, s: State) {
    forall id :: id in Missing(s) ==> id < |job.outcomes|
  }

  ghost predicate Inv(job: Job, s: State) {
    && PhaseOk(job, s)
    && WorkersOk(job, s)
    && CountersOk(job, s)
    && Truthful(job, History(s.out), true)
    && Truthful(job, History(s.err), false)
    && FieldsOk(s)
    && Accounted(job, s)
    && AllEvident(s)
    && DroppedOk(job, s)
    && LaneOk(s.out) && LaneOk(s.err) && ExitOk(s)
    && SignalsMatch(s)
    && ResultsMade(s)
  }

  // ----- invariants of clean runs -----

  /** How often command `id` is upstream, unfinished at a worker, signalled, or handled. */
  function Places(job: Job, s: State, id: nat): nat {
    Upstream(job, s, id) + Gather(s.workers, UnfinishedOf)[id] + Gather(s.workers, RepliesOf)[id] + s.ledger.handled[id]
  }

  /** Every command is in exactly one place, and nothing else is in any. */
  ghost predicate Conserved(job: Job, s: State) {
    forall id: nat :: Places(job, s, id) == if id < |job.outcomes| then 1 else 0
  }

  /** How often `id` has got past its publish. */
  function Published(s: State, id: nat): nat {
    Gather(s.workers, SettledOf)[id] + Gather(s.workers, RepliesOf)[id] + s.ledger.handled[id]
  }

  /** Exactly the commands that got past their publish have a result, and each has one. */
  ghost predicate ResultsMatch(s: State) {
    forall id: nat :: Results(s, id) == Published(s, id)
  }

  /** How often a given-up result of `id` has, or will have, a finish signal carrying an Error. */
  function Failures(s: State, id: nat): nat {
    Gather(s.workers, FailingOf)[id] + s.ledger.failedReplies[id]
  }

  /** The results given up are exactly those whose finish signal carries an Error. */
  ghost predicate FailuresMatch(s: State) {
    forall id: nat :: s.ledger.dropped[id] == Failures(s, id)
  }

  ghost predicate Tracked(job: Job, s: State) {
    && !s.panicked
    && Conserved(job, s)
    && ResultsMatch(s)
    && FailuresMatch(s)
    && s.ledger.lost == s.ledger.redelivered == s.ledger.remade == multiset{}
    && (Cancelled(s.phase) ==> s.wg == 0)
    && (s.phase.Returned? ==> s.resWg == 0)
    && (s.phase == Returned(Collected) ==> |s.outputs| + |s.errors| == |job.outcomes|)
  }

  ghost predicate CleanInv(job: Job, s: State) {
    Inv(job, s) && Tracked(job, s)
  }

  // ----- effect of a step on the worker it belongs to -----

  lemma TakeFirst(x: Worker)
    requires x.pc.Selecting? && x.prefetch != []
    ensures var y := x.(prefetch := x.prefetch[1..], pc := Running(x.prefetch[0]));
            UnackedOf(y) == UnackedOf(x) && UnfinishedOf(y) == UnfinishedOf(x)
  {
    assert x.prefetch == [x.prefetch[0]] + x.prefetch[1..];
  }

  /** A finish signal appended to a stream. */
  lemma SignalSent(q: seq<Response>, r: Response, id: nat)
    ensures Gather(q + [r], ReplyId)[id] == Gather(q, ReplyId)[id] + multiset{r.id}[id]
    ensures Gather(q + [r], ReplyFailure)[id] == Gather(q, ReplyFailure)[id] + ReplyFailure(r)[id]
  {
    GatherAppend(q, r, ReplyId);
    GatherAppend(q, r, ReplyFailure);
  }

  /** A finish signal taken from a stream. */
  lemma SignalReceived(q: seq<Response>, id: nat)
    requires q != []
    ensures Gather(q, ReplyId)[id] == Gather(q[1..], ReplyId)[id] + multiset{q[0].id}[id]
    ensures Gather(q, ReplyFailure)[id] == Gather(q[1..], ReplyFailure)[id] + ReplyFailure(q[0])[id]
  {
    GatherHead(q, ReplyId);
    GatherHead(q, ReplyFailure);
  }

  // ----- which part of the state a step changes -----

  lemma WorkerFrameState(job: Job, s: State, step: Step)
    requires Enabled(job, s, step) && OfWorker(step)
    ensures step.w < |s.workers|
    ensures var s' := Apply(job, s, step);
            && s'.workers == s.workers[step.w := WorkerAfter(job, s.workers[step.w], step)]
            && s'.phase == s.phase && s'.resWg == s.resWg
            && s'.taskState == s.taskState && s'.outputs == s.outputs && s'.errors == s.errors
            && (!step.PublishAttempt? ==> s'.out == s.out && s'.err == s.err)
            && (!step.Deliver? && !step.Crash? ==> s'.cmdQueue == s.cmdQueue)
            && (!step.Receive? ==> s'.wg == s.wg && s'.panicked == s.panicked)
            && (!step.Connect? && !step.ConnectBroken? ==> s'.pending == s.pending)
  {
  }

  lemma WorkerFrameLedger(job: Job, s: State, step: Step)
    requires Enabled(job, s, step) && OfWorker(step)
    ensures var s' := Apply(job, s, step);
            && s'.ledger.skipped == s.ledger.skipped && s'.ledger.noConsumer == s.ledger.noConsumer
            && (!step.Receive? ==> s'.ledger.handled == s.ledger.handled &&
                                   s'.ledger.failedReplies == s.ledger.failedReplies)
            && (!step.PublishReturn? ==> s'.ledger.dropped == s.ledger.dropped)
            && (!step.PublishAttempt? ==> s'.ledger.vanished == s.ledger.vanished)
            && (!step.Ack? ==> s'.ledger.acked == s.ledger.acked)
            && (!step.Crash? ==> s'.ledger.lost == s.ledger.lost && s'.ledger.redelivered == s.ledger.redelivered &&
                                 s'.ledger.remade == s.ledger.remade)
  {
  }

  lemma WorkerFrame(job: Job, s: State, step: Step)
    requires Enabled(job, s, step) && OfWorker(step)
    ensures step.w < |s.workers|
    ensures var s' := Apply(job, s, step);
            && |s'.workers| == |s.workers|
            && s'.workers[step.w] == WorkerAfter(job, s.workers[step.w], step)
            && s'.workers == s.workers[step.w := s'.workers[step.w]]
            && s'.phase == s.phase && s'.ledger.skipped == s.ledger.skipped && s'.resWg == s.resWg
            && s'.taskState == s.taskState && s'.outputs == s.outputs && s'.errors == s.errors
            && (!step.PublishAttempt? ==> s'.out == s.out && s'.err == s.err)
            && (!step.Deliver? && !step.Crash? ==> s'.cmdQueue == s.cmdQueue)
            && (!step.Receive? ==> s'.wg == s.wg && s'.ledger.handled == s.ledger.handled &&
                                   s'.ledger.failedReplies == s.ledger.failedReplies && s'.panicked == s.panicked)
            && (!step.PublishReturn? ==> s'.ledger.dropped == s.ledger.dropped)
            && (!step.PublishAttempt? ==> s'.ledger.vanished == s.ledger.vanished)
            && (!step.Ack? ==> s'.ledger.acked == s.ledger.acked)
            && (!step.Crash? ==> s'.ledger.lost == s.ledger.lost && s'.ledger.redelivered == s.ledger.redelivered &&
                                 s'.ledger.remade == s.ledger.remade)
            && s'.ledger.noConsumer == s.ledger.noConsumer
            && (!step.Connect? && !step.ConnectBroken? ==> s'.pending == s.pending)
  {
    WorkerFrameState(job, s, step);
    WorkerFrameLedger(job, s, step);
  }

  lemma CollectorFrame(job: Job, s: State, step: Step)
    requires Enabled(job, s, step) && OfCollector(step)
    ensures var s' := Apply(job, s, step);
            && s'.workers == s.workers && s'.phase == s.phase && s'.ledger == s.ledger && s'.cmdQueue == s.cmdQueue
            && s'.pending == s.pending && s'.wg == s.wg
            && s'.taskState == s.taskState && s'.outputs == s.outputs && s'.errors == s.errors
            && (if step.kind.OutputLane? then s'.err == s.err else s'.out == s.out)
            && (!step.CountDown? ==> s'.resWg == s.resWg && s'.panicked == s.panicked)
  {
  }

  lemma OrchestratorFrame(job: Job, s: State, step: Step)
    requires Enabled(job, s, step) && !OfWorker(step) && !OfCollector(step)
    ensures var s' := Apply(job, s, step);
            && s'.workers == s.workers && s'.out == s.out && s'.err == s.err && !s'.panicked
            && s'.pending == s.pending && s'.wg == s.wg
            && s'.ledger == s.ledger.(skipped := s'.ledger.skipped, noConsumer := s'.ledger.noConsumer)
            && (!step.SkipCommand? && !step.SendReturn? && !step.SendAttempt? ==> s'.ledger.skipped == s.ledger.skipped)
            && (!step.CreateConsumer? ==> s'.ledger.noConsumer == s.ledger.noConsumer)
            && (!step.SendAttempt? ==> s'.cmdQueue == s.cmdQueue)
            && (!step.Finish? ==> s'.taskState == s.taskState && s'.outputs == s.outputs && s'.errors == s.errors)
  {
  }

  // ----- clean runs: conservation -----

  lemma OrchestratorUpstream(job: Job, s: State, step: Step, id: nat)
    requires Enabled(job, s, step) && !OfWorker(step) && !OfCollector(step) && PhaseOk(job, s)
    ensures Upstream(job, Apply(job, s, step), id) == Upstream(job, s, id)
  {
    OrchestratorFrame(job, s, step);
  }

  /** The part of Places that belongs to one worker. */
  function OwnPlaces(x: Worker, id: nat): nat {
    UnfinishedOf(x)[id] + RepliesOf(x)[id]
  }

  lemma OwnTaken(job: Job, x: Worker, step: Step, id: nat)
    requires step.Take? && WorkerReady(job, x, step)
    ensures OwnPlaces(WorkerAfter(job, x, step), id) == OwnPlaces(x, id)
  {
    TakeFirst(x);
  }

  lemma OwnSignalled(x: Worker, y: Worker, id: nat)
    requires x.pc.Reporting?
    requires y == x.(pc := Acking(x.pc.id), stream := x.stream + [Response(x.pc.id, x.pc.failed)])
    ensures RepliesOf(y)[id] == RepliesOf(x)[id] + multiset{x.pc.id}[id]
    ensures FailingOf(y)[id] == FailingOf(x)[id]
  {
    SignalSent(x.stream, Response(x.pc.id, x.pc.failed), id);
  }

  lemma OwnSignalledPlaces(x: Worker, y: Worker, id: nat)
    requires x.pc.Reporting?
    requires y == x.(pc := Acking(x.pc.id), stream := y.stream)
    requires RepliesOf(y)[id] == RepliesOf(x)[id] + multiset{x.pc.id}[id]
    ensures OwnPlaces(x, id) == OwnPlaces(y, id)
  {
    assert UnfinishedOf(x)[id] == UnfinishedOf(y)[id] + multiset{x.pc.id}[id];
  }

  lemma OwnReceived(x: Worker, y: Worker, id: nat)
    requires x.stream != [] && y == x.(stream := x.stream[1..])
    ensures OwnPlaces(x, id) == OwnPlaces(y, id) + multiset{x.stream[0].id}[id]
  {
    SignalReceived(x.stream, id);
    assert UnfinishedOf(y) == UnfinishedOf(x);
  }

  lemma OwnCrashed(job: Job, x: Worker, step: Step, id: nat)
    requires step.Crash? && WorkerReady(job, x, step) && Redoable(x)
    ensures OwnPlaces(x, id) == OwnPlaces(WorkerAfter(job, x, step), id) + UnackedOf(x)[id]
  {
    assert UnackedOf(x) == UnfinishedOf(x);
  }

  /** Steps that move no command between the worker and the rest of the state. */
  lemma OwnKept(job: Job, x: Worker, step: Step, id: nat)
    requires OfWorker(step) && WorkerReady(job, x, step)
    requires !step.Receive? && !step.Deliver? && !step.Crash?
    ensures OwnPlaces(WorkerAfter(job, x, step), id) == OwnPlaces(x, id)
  {
    if step.Take? {
      OwnTaken(job, x, step, id);
    } else if step.Signal? {
      OwnSignalled(x, WorkerAfter(job, x, step), id);
      OwnSignalledPlaces(x, WorkerAfter(job, x, step), id);
    } else {
      assert WorkerAfter(job, x, step).prefetch == x.prefetch && WorkerAfter(job, x, step).stream == x.stream;
    }
  }

  /** What a worker's step adds to the command queue and to the handled finish signals. */
  lemma SharedFlow(job: Job, s: State, step: Step, id: nat)
    requires Enabled(job, s, step) && OfWorker(step)
    ensures var s', x := Apply(job, s, step), s.workers[step.w];
            s'.cmdQueue[id] + s'.ledger.handled[id] + (if step.Deliver? then multiset{step.id}[id] else 0)
            == s.cmdQueue[id] + s.ledger.handled[id]
               + (if step.Receive? then multiset{x.stream[0].id}[id] else 0)
               + (if step.Crash? then UnackedOf(x)[id] else 0)
  {
  }

  lemma OwnConserved(job: Job, x: Worker, step: Step, id: nat)
    requires OfWorker(step) && WorkerReady(job, x, step)
    requires step.Crash? ==> Redoable(x)
    ensures OwnPlaces(WorkerAfter(job, x, step), id)
            + (if step.Receive? then multiset{x.stream[0].id}[id] else 0)
            + (if step.Crash? then UnackedOf(x)[id] else 0)
            == OwnPlaces(x, id) + (if step.Deliver? then multiset{step.id}[id] else 0)
  {
    if step.Receive? {
      OwnReceived(x, WorkerAfter(job, x, step), id);
    } else if step.Crash? {
      OwnCrashed(job, x, step, id);
    } else if !step.Deliver? {
      OwnKept(job, x, step, id);
    }
  }

  lemma WorkerBalance(job: Job, s: State, s': State, w: nat, id: nat)
    requires w < |s.workers| == |s'.workers| && s'.workers == s.workers[w := s'.workers[w]]
    requires s'.phase == s.phase && s'.ledger.skipped == s.ledger.skipped
    requires s'.cmdQueue[id] + s'.ledger.handled[id] + OwnPlaces(s'.workers[w], id)
             == s.cmdQueue[id] + s.ledger.handled[id] + OwnPlaces(s.workers[w], id)
    ensures Places(job, s', id) == Places(job, s, id)
  {
    GatherUpdateAt(s.workers, w, s'.workers[w], UnfinishedOf, id);
    GatherUpdateAt(s.workers, w, s'.workers[w], RepliesOf, id);
  }

  lemma StepConserved(job: Job, s: State, step: Step, id: nat)
    requires Enabled(job, s, step) && Clean(s, step) && PhaseOk(job, s)
    ensures Places(job, Apply(job, s, step), id) == Places(job, s, id)
  {
    if OfCollector(step) {
      CollectorFrame(job, s, step);
    } else if OfWorker(step) {
      WorkerFrame(job, s, step);
      SharedFlow(job, s, step, id);
      OwnConserved(job, s.workers[step.w], step, id);
      WorkerBalance(job, s, Apply(job, s, step), step.w, id);
    } else {
      OrchestratorFrame(job, s, step);
      OrchestratorUpstream(job, s, step, id);
    }
  }
}
