/**
 * What the runs include: nothing but what the source waits for holds a goroutine up, every call may fail, and the
 * broker may push any command to any worker at any time.
 */
module TaskRunFreedom {
  import opened Bags
  import opened TaskRun
  import opened TaskRunInvariants
  import opened TaskRunSteps
  import opened TaskRunSafety
  import opened TaskRunTraces

  // ----- what can happen at any time -----

  /** No prefetch limit is set: a queued command may be pushed to any consuming worker, whatever it is doing. */
  lemma DeliveryFree(job: Job, clean: bool, s: State, w: nat, id: nat) returns (t: State)
    requires Reachable(job, clean, s) && !s.panicked && id in s.cmdQueue
    requires w < |s.workers| && s.workers[w].link.Open?
    ensures Reachable(job, clean, t)
    ensures t == s.(workers := s.workers[w := s.workers[w].(prefetch := s.workers[w].prefetch + [id])],
                    cmdQueue := s.cmdQueue - multiset{id})
  {
    t := Then(job, clean, s, Deliver(w, id));
  }

  /** A consuming worker waits for nothing but a delivery, and may crash at any time. */
  lemma WorkerFree(job: Job, clean: bool, s: State, w: nat)
    requires Reachable(job, clean, s) && !s.panicked && w < |s.workers| && s.workers[w].link.Open?
    ensures match s.workers[w].pc
            case Selecting =>
              && (s.workers[w].prefetch != [] ==> Enabled(job, s, Take(w)))
              && (Cancelled(s.phase) ==> Enabled(job, s, Stop(w)))
            case Running(_) => Enabled(job, s, RunCommand(w))
            case Publishing(_, call) =>
              if call.Trying? then forall v :: Enabled(job, s, PublishAttempt(w, v))
              else Enabled(job, s, PublishReturn(w))
            case Reporting(_, _) => Enabled(job, s, Signal(w))
            case Acking(_) => Enabled(job, s, Ack(w))
    ensures s.workers[w].stream != [] ==> Enabled(job, s, Receive(w))
    ensures Enabled(job, s, Crash(w))
  {
    if !s.workers[w].pc.Selecting? {
      ReachableHolds(job, clean, s, w);
    }
  }

  lemma ReachableHolds(job: Job, clean: bool, s: State, w: nat)
    requires Reachable(job, clean, s) && w < |s.workers| && !s.workers[w].pc.Selecting?
    ensures s.workers[w].pc.id < |job.outcomes|
  {
    var steps :| Runs(job, Init(job), steps, s) && (clean ==> CleanRuns(job, Init(job), steps, s));
    AllRunsSafe(job, steps, s);
    HeldIsCommand(job, s, w);
  }

  /** An endpoint may connect, be refused or break, whatever the others do. */
  lemma EndpointFree(job: Job, s: State, w: nat)
    requires !s.panicked && w < |s.workers| && s.workers[w].link.Connecting?
    ensures Enabled(job, s, Connect(w)) && Enabled(job, s, Refuse(w)) && Enabled(job, s, ConnectBroken(w))
  {
  }

  /** The orchestrator waits for its three WaitGroups only, and any call of it may fail. */
  lemma OrchestratorFree(job: Job, s: State)
    requires !s.panicked
    ensures match s.phase
            case AwaitReady => s.pending == 0 ==> Enabled(job, s, PassBarrier)
            case NextCommand(i) =>
              && (i < |job.outcomes| ==> Enabled(job, s, OpenPublisher) && Enabled(job, s, SkipCommand))
              && (i == |job.outcomes| ==> Enabled(job, s, AllSent))
            case Sending(_, call) =>
              if call.Trying? then forall v :: Enabled(job, s, SendAttempt(v)) else Enabled(job, s, SendReturn)
            case AwaitFinish => s.wg == 0 ==> Enabled(job, s, Cancel)
            case CreatingOutputConsumer => forall ok :: Enabled(job, s, CreateConsumer(ok))
            case CreatingErrorConsumer => forall ok :: Enabled(job, s, CreateConsumer(ok))
            case Draining => s.resWg == 0 ==> Enabled(job, s, Finish)
            case Returned(_) => true
  {
  }

  /** A collector waits for a message only, may fail to subscribe, and stops once all are counted. */
  lemma CollectorFree(job: Job, s: State, kind: Kind)
    requires !s.panicked
    ensures match LaneOf(s, kind).col
            case Off => Drains(s.phase) ==> forall ok :: Enabled(job, s, Subscribe(kind, ok))
            case Idle =>
              && (LaneOf(s, kind).queue != [] ==> Enabled(job, s, Collect(kind)))
              && (Drains(s.phase) && s.resWg == 0 ==> Enabled(job, s, StopCollector(kind)))
            case Holding(_) => Enabled(job, s, Append(kind))
            case Appended => Enabled(job, s, CountDown(kind))
            case Settling => Enabled(job, s, AckResult(kind))
            case Broke => true
            case Done => true
  {
  }

  /** The step b belongs to worker w and step a does not. */
  predicate Apart(a: Step, b: Step) {
    OfWorker(b) && !(OfWorker(a) && a.w == b.w)
  }

  /**
   * No step of anyone else takes away a step a worker could take, unless it takes the command that was to be
   * delivered or ends the process; and the worker then does the same.
   */
  lemma OthersDoNotBlock(job: Job, s: State, a: Step, b: Step)
    requires Enabled(job, s, a) && Enabled(job, s, b) && Apart(a, b)
    requires !Apply(job, s, a).panicked && (b.Deliver? ==> b.id in Apply(job, s, a).cmdQueue)
    ensures Enabled(job, Apply(job, s, a), b)
    ensures Apply(job, Apply(job, s, a), b).workers[b.w] == Apply(job, s, b).workers[b.w]
  {
    SameWorker(job, s, a, b.w);
    StaysCancelled(job, s, a);
    WorkerFrame(job, s, b);
    WorkerFrame(job, Apply(job, s, a), b);
  }

  lemma SameWorker(job: Job, s: State, a: Step, w: nat)
    requires Enabled(job, s, a) && w < |s.workers| && !(OfWorker(a) && a.w == w)
    ensures |Apply(job, s, a).workers| == |s.workers| && Apply(job, s, a).workers[w] == s.workers[w]
  {
    if OfWorker(a) {
      WorkerFrame(job, s, a);
    } else if OfCollector(a) {
      CollectorFrame(job, s, a);
    } else {
      OrchestratorFrame(job, s, a);
    }
  }

  lemma StaysCancelled(job: Job, s: State, a: Step)
    requires Enabled(job, s, a)
    ensures Cancelled(s.phase) ==> Cancelled(Apply(job, s, a).phase)
  {
    if OfWorker(a) {
      WorkerFrame(job, s, a);
    } else if OfCollector(a) {
      CollectorFrame(job, s, a);
    }
  }

  // ----- first in, first out -----

  /** What a worker has received and not acknowledged, in the order of delivery. */
  function Backlog(x: Worker): seq<nat> {
    (if x.pc.Selecting? then [] else [x.pc.id]) + x.prefetch
  }

  lemma OwnBacklog(job: Job, x: Worker, step: Step)
    requires OfWorker(step) && WorkerReady(job, x, step) && !step.Take?
    ensures var y := WorkerAfter(job, x, step);
            Backlog(y) == if step.Deliver? then Backlog(x) + [step.id]
                          else if step.Ack? then Backlog(x)[1..]
                          else if step.Crash? then []
                          else Backlog(x)
  {
    if step.Ack? {
      assert Backlog(x)[1..] == x.prefetch;
    } else if step.Deliver? {
      assert Backlog(x) + [step.id] == Backlog(WorkerAfter(job, x, step));
    }
  }

  lemma TakenFirst(x: Worker)
    requires x.pc.Selecting? && x.prefetch != []
    ensures Backlog(x.(prefetch := x.prefetch[1..], pc := Running(x.prefetch[0]))) == Backlog(x)
  {
    assert x.prefetch == [x.prefetch[0]] + x.prefetch[1..];
  }

  /** A worker handles its deliveries in order: they enter its backlog at the end and leave it in front. */
  lemma BacklogInOrder(job: Job, s: State, step: Step)
    requires Enabled(job, s, step) && OfWorker(step)
    ensures var x, y := s.workers[step.w], Apply(job, s, step).workers[step.w];
            Backlog(y) == if step.Deliver? then Backlog(x) + [step.id]
                          else if step.Ack? then Backlog(x)[1..]
                          else if step.Crash? then []
                          else Backlog(x)
  {
    WorkerFrame(job, s, step);
    if step.Take? {
      TakenFirst(s.workers[step.w]);
    } else {
      OwnBacklog(job, s.workers[step.w], step);
    }
  }

  /** The finish signals of a worker arrive in the order sent, each for the command at the head of its backlog. */
  lemma StreamInOrder(job: Job, s: State, step: Step)
    requires Enabled(job, s, step) && OfWorker(step)
    ensures var x, y := s.workers[step.w], Apply(job, s, step).workers[step.w];
            if step.Signal? then |y.stream| == |x.stream| + 1 && y.stream[..|x.stream|] == x.stream
                                 && y.stream[|x.stream|].id == Backlog(x)[0]
            else if step.Receive? then x.stream == [x.stream[0]] + y.stream
            else if step.Crash? then y.stream == []
            else y.stream == x.stream
  {
    WorkerFrame(job, s, step);
  }

  // ----- every assignment of the commands to the workers -----

  function BagOf(ids: seq<nat>): multiset<nat> { multiset(ids) }

  /** The commands in `hold[w]` have been pushed to worker w, in this order, and none has been taken. */
  function Assigned(job: Job, hold: seq<seq<nat>>): State
    requires |hold| == job.endpoints
  {
    AllQueued(job).(workers := seq(job.endpoints, w requires 0 <= w < |hold| => IDLE_WORKER.(prefetch := hold[w])),
                    cmdQueue := Range(0, |job.outcomes|) - Gather(hold, BagOf))
  }

  lemma NothingAssigned(job: Job, hold: seq<seq<nat>>)
    requires |hold| == job.endpoints && forall w :: 0 <= w < |hold| ==> hold[w] == []
    ensures Assigned(job, hold) == AllQueued(job)
  {
    GatherNone(hold, BagOf);
    assert Range(0, |job.outcomes|) - multiset{} == Range(0, |job.outcomes|);
    assert Assigned(job, hold).workers == AllQueued(job).workers;
  }

  /** Without the last command of worker w. */
  function Before(hold: seq<seq<nat>>, w: nat): seq<seq<nat>>
    requires w < |hold| && hold[w] != []
  {
    hold[w := hold[w][..|hold[w]| - 1]]
  }

  lemma SnocBag(ids: seq<nat>)
    requires ids != []
    ensures BagOf(ids) == BagOf(ids[..|ids| - 1]) + multiset{ids[|ids| - 1]}
  {
    assert ids == ids[..|ids| - 1] + [ids[|ids| - 1]];
  }

  lemma BeforeBag(hold: seq<seq<nat>>, w: nat)
    requires w < |hold| && hold[w] != []
    ensures Gather(hold, BagOf) == Gather(Before(hold, w), BagOf) + multiset{hold[w][|hold[w]| - 1]}
  {
    var front, last := hold[w][..|hold[w]| - 1], hold[w][|hold[w]| - 1];
    GatherUpdate(hold, w, front, BagOf);
    SnocBag(hold[w]);
    OneLess(Gather(hold, BagOf), Gather(Before(hold, w), BagOf), BagOf(hold[w]), BagOf(front), last);
  }

  lemma OneLess(all: multiset<nat>, before: multiset<nat>, whole: multiset<nat>, front: multiset<nat>, last: nat)
    requires before + whole == all + front && whole == front + multiset{last}
    ensures all == before + multiset{last}
  {
    forall i: nat ensures all[i] == (before + multiset{last})[i] {
      assert (before + whole)[i] == (all + front)[i];
    }
  }

  lemma TakenFromQueue(all: multiset<nat>, before: multiset<nat>, id: nat)
    requires before + multiset{id} <= all
    ensures id in all - before && all - before - multiset{id} == all - (before + multiset{id})
  {
  }

  lemma AssignedWorkers(job: Job, hold: seq<seq<nat>>, w: nat)
    requires |hold| == job.endpoints && w < |hold| && hold[w] != []
    ensures var s, id := Assigned(job, Before(hold, w)), hold[w][|hold[w]| - 1];
            && |s.workers| == |hold| && s.workers[w].link.Open?
            && Assigned(job, hold).workers
               == s.workers[w := s.workers[w].(prefetch := s.workers[w].prefetch + [id])]
  {
    var s, id := Assigned(job, Before(hold, w)), hold[w][|hold[w]| - 1];
    assert hold[w] == s.workers[w].prefetch + [id];
  }

  lemma AssignedNext(job: Job, hold: seq<seq<nat>>, w: nat)
    requires |hold| == job.endpoints && w < |hold| && hold[w] != []
    requires Gather(hold, BagOf) <= Range(0, |job.outcomes|)
    ensures var s, id := Assigned(job, Before(hold, w)), hold[w][|hold[w]| - 1];
            id in s.cmdQueue && Assigned(job, hold).cmdQueue == s.cmdQueue - multiset{id}
  {
    BeforeBag(hold, w);
    TakenFromQueue(Range(0, |job.outcomes|), Gather(Before(hold, w), BagOf), hold[w][|hold[w]| - 1]);
  }

  /** Theorem: for every assignment of commands to endpoints, each worker can hold all of its commands at once. */
  lemma {:induction false} AnyAssignment(job: Job, hold: seq<seq<nat>>)
    requires |hold| == job.endpoints && Gather(hold, BagOf) <= Range(0, |job.outcomes|)
    ensures Reachable(job, true, Assigned(job, hold))
    decreases |Gather(hold, BagOf)|
  {
    if w :| 0 <= w < |hold| && hold[w] != [] {
      BeforeBag(hold, w);
      AnyAssignment(job, Before(hold, w));
      AssignedWorkers(job, hold, w);
      AssignedNext(job, hold, w);
      var t := DeliveryFree(job, true, Assigned(job, Before(hold, w)), w, hold[w][|hold[w]| - 1]);
    } else {
      NothingAssigned(job, hold);
      ReachAllQueued(job, true);
    }
  }

  function Iota(n: nat): seq<nat> {
    seq(n, i => i)
  }

  lemma {:induction false} IotaBag(n: nat)
    ensures multiset(Iota(n)) == Range(0, n)
  {
    if n > 0 {
      IotaBag(n - 1);
      assert Iota(n) == Iota(n - 1) + [n - 1];
      RangeNext(n - 1);
    }
  }

  /** In particular one worker can hold every command. */
  lemma OneHoldsAll(job: Job) returns (t: State)
    requires job.endpoints > 0
    ensures Reachable(job, true, t) && t.workers != []
    ensures UnackedOf(t.workers[0]) == Range(0, |job.outcomes|) && t.cmdQueue == multiset{}
  {
    var n := |job.outcomes|;
    var hold := [Iota(n)] + seq(job.endpoints - 1, _ => []);
    GatherHead(hold, BagOf);
    GatherNone(hold[1..], BagOf);
    IotaBag(n);
    assert Gather(hold, BagOf) == Range(0, n);
    AnyAssignment(job, hold);
    t := Assigned(job, hold);
    HeldOnly(t.workers[0], n);
  }

  lemma HeldOnly(x: Worker, n: nat)
    requires x == IDLE_WORKER.(prefetch := Iota(n)) && multiset(Iota(n)) == Range(0, n)
    ensures UnackedOf(x) == Range(0, n)
  {
  }
}
