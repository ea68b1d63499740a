/**
 * internal/sync/runner.go and internal/mq/consume.go: one task run as a step system. Every step is one
 * atomic action of one goroutine (orchestrator, endpoint receiver, worker, collector) or of the broker.
 */
module TaskRun {
  import opened Bags
  import opened Publish

  // ----- one run -----

  /** What running a command gives: its combined output and whether it exited without error. */
  datatype Outcome = Outcome(output: string, ok: bool)

  /** The commands of the run (command i has outcome outcomes[i]) and the number of endpoints it runs on. */
  datatype Job = Job(outcomes: seq<Outcome>, endpoints: nat)

  // ----- messages -----

  /** A result message; `id` names the command it came from and is not read by any step. */
  datatype Msg = Msg(id: nat, body: string)

  /** A finish response on a worker's stream; `failed` when it carries an Error. */
  datatype Response = Response(id: nat, failed: bool)

  // ----- the goroutines -----

  /** Connecting, connection refused, stream open, stream ended by the worker, ended by cancel(). */
  datatype Link = Connecting | Refused | Open | Broken | Stopped

  /** Where ConsumeCommand is. */
  datatype Pc =
    | Selecting
    | Running(id: nat)
    | Publishing(id: nat, call: Call)
    | Reporting(id: nat, failed: bool)
    | Acking(id: nat)

  /** `prefetch` is what the broker has pushed to the consumer, `stream` the responses not yet received. */
  datatype Worker = Worker(link: Link, prefetch: seq<nat>, pc: Pc, stream: seq<Response>)

  /** Where ConsumeQueueContents is. */
  datatype Collector = Off | Idle | Holding(m: Msg) | Appended | Settling | Broke | Done

  /** A result queue, its collector and the messages whose bodies the collector has appended to its buffer. */
  datatype Lane = Lane(queue: seq<Msg>, col: Collector, taken: seq<Msg>)

  datatype Kind = OutputLane | ErrorLane

  /** How the run returned: a collector could not be created, could not subscribe, or results were stored. */
  datatype Exit = SetupError | CollectorError | Collected

  /** Whether the caller is given an error. A collector's error is noticed, but another, nil one is returned. */
  predicate GivesError(exit: Exit) {
    exit.SetupError?
  }

  /** Where RunTaskOnAllMachines is. */
  datatype Phase =
    | AwaitReady
    | NextCommand(i: nat)
    | Sending(i: nat, call: Call)
    | AwaitFinish
    | CreatingOutputConsumer
    | CreatingErrorConsumer
    | Draining
    | Returned(exit: Exit)

  datatype TaskState = StartingTask | RunningTask | CompletedTask | ErrorInTask | CompleteTaskWithErrors

  /**
   * Bookkeeping that no step reads: commands that never got into the command queue, because their publisher or
   * publish failed or their message vanished; results whose publish failed, and results whose message vanished;
   * acknowledged deliveries; finish signals handled, and those of them that carried an Error; finish signals a crash
   * dropped; deliveries requeued after their result was published, vanished or given up, and those requeued after
   * their finish signal; and whether a result consumer could not be created.
   */
  datatype Ledger = Ledger(skipped: multiset<nat>, dropped: multiset<nat>, vanished: multiset<nat>,
                           acked: multiset<nat>, handled: multiset<nat>, failedReplies: multiset<nat>,
                           lost: multiset<nat>, remade: multiset<nat>, redelivered: multiset<nat>,
                           noConsumer: bool)

  const EMPTY_LEDGER :=
    Ledger(multiset{}, multiset{}, multiset{}, multiset{}, multiset{}, multiset{}, multiset{}, multiset{}, multiset{},
           false)

  /**
   * The three WaitGroup counters are `pending` (consumersReady), `wg` and `resWg` (cmdResWg). A counter that
   * would go below zero panics. The command queue is a bag: no delivery order is assumed.
   */
  datatype State = State(
    phase: Phase, pending: int, wg: int, resWg: int, panicked: bool,
    workers: seq<Worker>, cmdQueue: multiset<nat>, out: Lane, err: Lane,
    taskState: TaskState, outputs: seq<string>, errors: seq<string>,
    ledger: Ledger)

  const FRESH_WORKER := Worker(Connecting, [], Selecting, [])
  const EMPTY_LANE := Lane([], Off, [])

  function Init(job: Job): State {
    State(AwaitReady, job.endpoints, |job.outcomes|, 0, false,
          seq(job.endpoints, _ => FRESH_WORKER), multiset{}, EMPTY_LANE, EMPTY_LANE,
          RunningTask, [], [], EMPTY_LEDGER)
  }

  // ----- the steps -----

  datatype Step =
    // an endpoint goroutine of the orchestrator
    | Refuse(w: nat)
    | Connect(w: nat)
    | ConnectBroken(w: nat)                       // the worker answers with an error and ends the stream
    | Receive(w: nat)
    // the orchestrator
    | PassBarrier
    | OpenPublisher
    | SkipCommand
    | SendAttempt(verdict: Verdict)
    | SendReturn
    | AllSent
    | Cancel
    | CreateConsumer(ok: bool)
    | Finish
    // the broker and a worker
    | Deliver(w: nat, id: nat)
    | Take(w: nat)
    | RunCommand(w: nat)
    | PublishAttempt(w: nat, verdict: Verdict)
    | PublishReturn(w: nat)
    | Signal(w: nat)
    | Ack(w: nat)
    | Stop(w: nat)
    | Crash(w: nat)                               // the broker requeues what the worker has not acknowledged
    // a collector
    | Subscribe(kind: Kind, ok: bool)
    | Collect(kind: Kind)
    | Append(kind: Kind)
    | CountDown(kind: Kind)
    | AckResult(kind: Kind)
    | StopCollector(kind: Kind)

  function LaneOf(s: State, kind: Kind): Lane {
    if kind.OutputLane? then s.out else s.err
  }

  function SetLane(s: State, kind: Kind, lane: Lane): State {
    if kind.OutputLane? then s.(out := lane) else s.(err := lane)
  }

  predicate Cancelled(phase: Phase) {
    phase.CreatingOutputConsumer? || phase.CreatingErrorConsumer? || phase.Draining? || phase.Returned?
  }

  /** Both collectors have been started. */
  predicate Drains(phase: Phase) {
    phase.Draining? || (phase.Returned? && !phase.exit.SetupError?)
  }

  /** The deliveries of a worker that the broker has not seen acknowledged. */
  function UnackedOf(x: Worker): multiset<nat> {
    multiset(x.prefetch) + match x.pc
                           case Selecting => multiset{}
                           case Running(id) => multiset{id}
                           case Publishing(id, _) => multiset{id}
                           case Reporting(id, _) => multiset{id}
                           case Acking(id) => multiset{id}
  }

  /** The delivery whose result is already published, vanished or given up, if its finish signal is still to be sent. */
  function SettledOf(x: Worker): multiset<nat> {
    match x.pc
    case Publishing(id, call) => if call.Accepted? then multiset{id} else multiset{}
    case Reporting(id, _) => multiset{id}
    case _ => multiset{}
  }

  /** The delivery whose finish signal is sent and which is still to be acknowledged. */
  function AckingOf(x: Worker): multiset<nat> {
    if x.pc.Acking? then multiset{x.pc.id} else multiset{}
  }

  /** Finish signals sent and not yet received. */
  function RepliesOf(x: Worker): multiset<nat> {
    Gather(x.stream, ReplyId)
  }

  function Bodies(q: seq<Msg>): seq<string> {
    Map(q, (m: Msg) => m.body)
  }

  /** Steps that change a worker. */
  predicate OfWorker(step: Step) {
    step.Refuse? || step.Connect? || step.ConnectBroken? || step.Receive? || step.Deliver? || step.Take? ||
    step.RunCommand? || step.PublishAttempt? || step.PublishReturn? || step.Signal? || step.Ack? || step.Stop? ||
    step.Crash?
  }

  /** Steps of a collector. */
  predicate OfCollector(step: Step) {
    step.Subscribe? || step.Collect? || step.Append? || step.CountDown? || step.AckResult? || step.StopCollector?
  }

  /** The condition a step puts on its own worker. */
  predicate WorkerReady(job: Job, x: Worker, step: Step)
    requires OfWorker(step)
  {
    match step
    case Refuse(_) => x.link.Connecting?
    case Connect(_) => x.link.Connecting?
    case ConnectBroken(_) => x.link.Connecting?
    case Receive(_) => x.link.Open? && x.stream != []
    case Deliver(_, _) => x.link.Open?
    case Take(_) => x.link.Open? && x.pc.Selecting? && x.prefetch != []
    case RunCommand(_) => x.link.Open? && x.pc.Running? && x.pc.id < |job.outcomes|
    case PublishAttempt(_, _) => x.link.Open? && x.pc.Publishing? && x.pc.call.Trying? && x.pc.id < |job.outcomes|
    case PublishReturn(_) => x.link.Open? && x.pc.Publishing? && !x.pc.call.Trying?
    case Signal(_) => x.link.Open? && x.pc.Reporting?
    case Ack(_) => x.link.Open? && x.pc.Acking?
    case Stop(_) => x.link.Open? && x.pc.Selecting?
    case Crash(_) => x.link.Open?
  }

  /** The worker after a step of its own. */
  function WorkerAfter(job: Job, x: Worker, step: Step): Worker
    requires OfWorker(step) && WorkerReady(job, x, step)
  {
    match step
    case Refuse(_) => x.(link := Refused)
    case Connect(_) => x.(link := Open)
    case ConnectBroken(_) => x.(link := Broken)
    case Receive(_) => x.(stream := x.stream[1..])
    case Deliver(_, id) => x.(prefetch := x.prefetch + [id])
    case Take(_) => x.(prefetch := x.prefetch[1..], pc := Running(x.prefetch[0]))
    case RunCommand(_) => x.(pc := Publishing(x.pc.id, Trying(0)))
    case PublishAttempt(_, verdict) => x.(pc := Publishing(x.pc.id, AfterAttempt(x.pc.call, verdict)))
    case PublishReturn(_) => x.(pc := Reporting(x.pc.id, x.pc.call.GaveUp?))
    case Signal(_) => x.(pc := Acking(x.pc.id), stream := x.stream + [Response(x.pc.id, x.pc.failed)])
    case Ack(_) => x.(pc := Selecting)
    case Stop(_) => x.(link := Stopped)
    case Crash(_) => Worker(Broken, [], Selecting, [])
  }

  /** What a worker's step does to the rest of the state. */
  function SharedAfter(job: Job, s: State, x: Worker, step: Step): State
    requires OfWorker(step) && WorkerReady(job, x, step)
  {
    match step
    case Connect(_) => s.(pending := s.pending - 1)
    case ConnectBroken(_) => s.(pending := s.pending - 1)
    case Receive(_) => Receipt(s, x.stream[0])
    case Deliver(_, id) => s.(cmdQueue := s.cmdQueue - multiset{id})
    case PublishAttempt(_, verdict) =>
      if verdict.Landed? then PublishResult(job, s, x.pc.id)
      else if verdict.Vanished?
      then s.(ledger := s.ledger.(vanished := s.ledger.vanished + multiset{x.pc.id}))
      else s
    case PublishReturn(_) =>
      if x.pc.call.GaveUp? then s.(ledger := s.ledger.(dropped := s.ledger.dropped + multiset{x.pc.id})) else s
    case Ack(_) => s.(ledger := s.ledger.(acked := s.ledger.acked + multiset{x.pc.id}))
    case Crash(_) =>
      s.(cmdQueue := s.cmdQueue + UnackedOf(x),
         ledger := s.ledger.(lost := s.ledger.lost + RepliesOf(x),
                             remade := s.ledger.remade + SettledOf(x) + AckingOf(x),
                             redelivered := s.ledger.redelivered + AckingOf(x)))
    case _ => s
  }

  /** Every finish response counts `wg` down, whether or not it carries an Error. */
  function Receipt(s: State, r: Response): State {
    s.(wg := s.wg - 1, panicked := s.wg - 1 < 0,
       ledger := s.ledger.(handled := s.ledger.handled + multiset{r.id},
                           failedReplies := s.ledger.failedReplies + ReplyFailure(r)))
  }

  /** A command that exits with an error sends its output to the error queue, any other to the output queue. */
  function PublishResult(job: Job, s: State, id: nat): State
    requires id < |job.outcomes|
  {
    var kind := if job.outcomes[id].ok then OutputLane else ErrorLane;
    var lane := LaneOf(s, kind);
    SetLane(s, kind, lane.(queue := lane.queue + [Msg(id, job.outcomes[id].output)]))
  }

  predicate Enabled(job: Job, s: State, step: Step) {
    && !s.panicked
    && if OfWorker(step)
       then && step.w < |s.workers|
            && WorkerReady(job, s.workers[step.w], step)
            && (step.Deliver? ==> step.id in s.cmdQueue)
            && (step.Stop? ==> Cancelled(s.phase))
       else match step
            case PassBarrier => s.phase.AwaitReady? && s.pending == 0
            case OpenPublisher => s.phase.NextCommand? && s.phase.i < |job.outcomes|
            case SkipCommand => s.phase.NextCommand? && s.phase.i < |job.outcomes|
            case SendAttempt(_) => s.phase.Sending? && s.phase.call.Trying?
            case SendReturn => s.phase.Sending? && !s.phase.call.Trying?
            case AllSent => s.phase.NextCommand? && s.phase.i == |job.outcomes|
            case Cancel => s.phase.AwaitFinish? && s.wg == 0
            case CreateConsumer(_) => s.phase.CreatingOutputConsumer? || s.phase.CreatingErrorConsumer?
            case Finish => s.phase.Draining? && s.resWg == 0
            case Subscribe(kind, _) => Drains(s.phase) && LaneOf(s, kind).col.Off?
            case Collect(kind) => LaneOf(s, kind).col.Idle? && LaneOf(s, kind).queue != []
            case Append(kind) => LaneOf(s, kind).col.Holding?
            case CountDown(kind) => LaneOf(s, kind).col.Appended?
            case AckResult(kind) => LaneOf(s, kind).col.Settling?
            case StopCollector(kind) => LaneOf(s, kind).col.Idle? && Drains(s.phase) && s.resWg == 0
  }

  function Apply(job: Job, s: State, step: Step): State
    requires Enabled(job, s, step)
  {
    if OfWorker(step) then
      var x := s.workers[step.w];
      SharedAfter(job, s, x, step).(workers := s.workers[step.w := WorkerAfter(job, x, step)])
    else match step
      case PassBarrier => s.(phase := NextCommand(0))
      case OpenPublisher => s.(phase := Sending(s.phase.i, Trying(0)))
      case SkipCommand => Skip(s, s.phase.i)
      case SendAttempt(verdict) =>
        var s' := s.(phase := Sending(s.phase.i, AfterAttempt(s.phase.call, verdict)));
        if verdict.Landed? then s'.(cmdQueue := s.cmdQueue + multiset{s.phase.i})
        else if verdict.Vanished? then s'.(ledger := s.ledger.(skipped := s.ledger.skipped + multiset{s.phase.i}))
        else s'
      case SendReturn =>
        if s.phase.call.Accepted? then s.(phase := NextCommand(s.phase.i + 1)) else Skip(s, s.phase.i)
      case AllSent => s.(phase := AwaitFinish)
      case Cancel => s.(phase := CreatingOutputConsumer)
      case CreateConsumer(ok) =>
        if !ok then s.(phase := Returned(SetupError), ledger := s.ledger.(noConsumer := true))
        else if s.phase.CreatingOutputConsumer? then s.(phase := CreatingErrorConsumer)
        else s.(phase := Draining, resWg := |job.outcomes|)
      case Finish => Store(s)
      case Subscribe(kind, ok) => SetLane(s, kind, LaneOf(s, kind).(col := if ok then Idle else Broke))
      case Collect(kind) =>
        var l := LaneOf(s, kind);
        SetLane(s, kind, l.(queue := l.queue[1..], col := Holding(l.queue[0])))
      case Append(kind) =>
        var l := LaneOf(s, kind);
        SetLane(s, kind, l.(col := Appended, taken := l.taken + [l.col.m]))
      case CountDown(kind) =>
        SetLane(s, kind, LaneOf(s, kind).(col := Settling))
        .(resWg := s.resWg - 1, panicked := s.resWg - 1 < 0)
      case AckResult(kind) => SetLane(s, kind, LaneOf(s, kind).(col := Idle))
      case StopCollector(kind) => SetLane(s, kind, LaneOf(s, kind).(col := Done))
  }

  /** The publisher or the publish of command i failed; the loop goes on to the next command. */
  function Skip(s: State, i: nat): State {
    s.(phase := NextCommand(i + 1), ledger := s.ledger.(skipped := s.ledger.skipped + multiset{i}))
  }

  /** A failed subscription makes the run return before the results are stored, with a nil error. */
  function Store(s: State): State {
    if s.err.col.Broke? || s.out.col.Broke? then s.(phase := Returned(CollectorError))
    else s.(phase := Returned(Collected),
            taskState := if s.err.taken != [] then CompleteTaskWithErrors else s.taskState,
            outputs := Bodies(s.out.taken),
            errors := Bodies(s.err.taken))
  }

  function ReplyId(r: Response): multiset<nat> { multiset{r.id} }
  function ReplyFailure(r: Response): multiset<nat> { if r.failed then multiset{r.id} else multiset{} }
  function MsgId(m: Msg): multiset<nat> { multiset{m.id} }

  // ----- runs -----

  /** A crash that loses nothing but time: the worker has no published and unacknowledged result,
      and no finish signal of it is on its way. */
  predicate Redoable(x: Worker) {
    x.stream == [] && (x.pc.Selecting? || x.pc.Running? || (x.pc.Publishing? && !x.pc.call.Accepted?))
  }

  predicate Clean(s: State, step: Step) {
    step.Crash? && step.w < |s.workers| ==> Redoable(s.workers[step.w])
  }

  /** `steps` is a possible run from s to t. */
  predicate Runs(job: Job, s: State, steps: seq<Step>, t: State)
    decreases |steps|
  {
    if steps == [] then s == t
    else Enabled(job, s, steps[0]) && Runs(job, Apply(job, s, steps[0]), steps[1..], t)
  }

  /** A possible run in which every crash is redoable. */
  predicate CleanRuns(job: Job, s: State, steps: seq<Step>, t: State)
    decreases |steps|
  {
    if steps == [] then s == t
    else Enabled(job, s, steps[0]) && Clean(s, steps[0]) && CleanRuns(job, Apply(job, s, steps[0]), steps[1..], t)
  }

  // ----- the sequential reference -----

  /** A plain loop over the commands, keeping the outputs of those whose exit status is `ok`, in order. */
  function Sequential(outcomes: seq<Outcome>, ok: bool): seq<string> {
    if outcomes == [] then []
    else
      var last := outcomes[|outcomes| - 1];
      var before := Sequential(outcomes[..|outcomes| - 1], ok);
      if last.ok == ok then before + [last.output] else before
  }
}
