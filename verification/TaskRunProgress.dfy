/** Every task run ends: a measure that falls, and a bound on the number of steps. */
module TaskRunProgress {
  import opened Bags
  import opened Publish
  import opened TaskRun
  import opened TaskRunInvariants
  import opened TaskRunSteps
  import opened TaskRunSafety

  // ----- a measure over the positions of commands and results -----

  function TriesLeft(call: Call): nat
    requires call.Trying?
  {
    MAX_RETRIES - call.attempt
  }

  function PcWeight(pc: Pc): nat {
    match pc
    case Selecting => 0
    case Running(_) => 19
    case Publishing(_, call) => if call.Trying? then TriesLeft(call) + 8 else 4
    case Reporting(_, _) => 3
    case Acking(_) => 1
  }

  function WorkerWeight(x: Worker): nat {
    (if x.link.Connecting? then 2 else if x.link.Open? then 1 else 0)
    + 20 * |x.prefetch| + PcWeight(x.pc) + |x.stream|
  }

  function CollectorWeight(col: Collector): nat {
    match col
    case Off => 2
    case Idle => 1
    case Holding(_) => 4
    case Appended => 3
    case Settling => 2
    case Broke => 0
    case Done => 0
  }

  function LaneWeight(l: Lane): nat {
    4 * |l.queue| + CollectorWeight(l.col)
  }

  function PhaseWeight(job: Job, phase: Phase): nat {
    var n := |job.outcomes|;
    match phase
    case AwaitReady => 33 * n + 8
    case NextCommand(i) => if i <= n then 33 * (n - i) + 7 else 0
    case Sending(i, call) =>
      if i < n then 33 * (n - i - 1) + 7 + (if call.Trying? then TriesLeft(call) + 22 else 1) else 0
    case AwaitFinish => 6
    case CreatingOutputConsumer => 5
    case CreatingErrorConsumer => 4
    case Draining => 3
    case Returned(_) => 0
  }

  function Weight(job: Job, s: State): nat {
    PhaseWeight(job, s.phase) + Total(s.workers, WorkerWeight) + 21 * |s.cmdQueue|
    + LaneWeight(s.out) + LaneWeight(s.err)
  }

  // ----- every step but a crash makes the state lighter -----

  /** The weight of everything a worker's step shares with the rest of the system. */
  function SharedWeight(s: State): nat {
    21 * |s.cmdQueue| + LaneWeight(s.out) + LaneWeight(s.err)
  }

  lemma OwnFalls(job: Job, x: Worker, step: Step)
    requires OfWorker(step) && WorkerReady(job, x, step) && !step.Crash?
    ensures var y := WorkerAfter(job, x, step);
            if step.Deliver? then WorkerWeight(y) == WorkerWeight(x) + 20
            else if step.PublishAttempt? && step.verdict.Landed? then WorkerWeight(y) + 5 <= WorkerWeight(x)
            else WorkerWeight(y) < WorkerWeight(x)
  {
  }

  lemma SharedFalls(job: Job, s: State, step: Step)
    requires Enabled(job, s, step) && OfWorker(step) && !step.Crash?
    ensures var s' := Apply(job, s, step);
            SharedWeight(s') == SharedWeight(s)
                                - (if step.Deliver? then 21 else 0)
                                + (if step.PublishAttempt? && step.verdict.Landed? then 4 else 0)
  {
  }

  lemma WeightBalance(job: Job, s: State, s': State, w: nat)
    requires w < |s.workers| == |s'.workers| && s'.workers == s.workers[w := s'.workers[w]]
    requires s'.phase == s.phase
    ensures Weight(job, s') + WorkerWeight(s.workers[w]) + SharedWeight(s)
            == Weight(job, s) + WorkerWeight(s'.workers[w]) + SharedWeight(s')
  {
    TotalUpdate(s.workers, w, s'.workers[w], WorkerWeight);
  }

  lemma CollectorFalls(job: Job, s: State, step: Step)
    requires Enabled(job, s, step) && OfCollector(step)
    ensures LaneWeight(LaneOf(Apply(job, s, step), step.kind)) < LaneWeight(LaneOf(s, step.kind))
  {
  }

  lemma OrchestratorFalls(job: Job, s: State, step: Step)
    requires Enabled(job, s, step) && !OfWorker(step) && !OfCollector(step) && PhaseOk(job, s)
    ensures var s' := Apply(job, s, step);
            PhaseWeight(job, s'.phase) + 21 * |s'.cmdQueue| < PhaseWeight(job, s.phase) + 21 * |s.cmdQueue|
  {
  }

  lemma StepFalls(job: Job, s: State, step: Step)
    requires PhaseOk(job, s) && Enabled(job, s, step) && !step.Crash?
    ensures Weight(job, Apply(job, s, step)) < Weight(job, s)
  {
    if OfWorker(step) {
      WorkerFrame(job, s, step);
      OwnFalls(job, s.workers[step.w], step);
      SharedFalls(job, s, step);
      WeightBalance(job, s, Apply(job, s, step), step.w);
    } else if OfCollector(step) {
      CollectorFrame(job, s, step);
      CollectorFalls(job, s, step);
    } else {
      OrchestratorFrame(job, s, step);
      OrchestratorFalls(job, s, step);
    }
  }

  // ----- a crash costs one worker and requeues at most N deliveries -----

  /** The worker consumes or may still connect. */
  predicate Live(x: Worker) {
    x.link.Connecting? || x.link.Open?
  }

  function LiveOf(x: Worker): nat {
    if Live(x) then 1 else 0
  }

  lemma OwnLive(job: Job, x: Worker, step: Step)
    requires OfWorker(step) && WorkerReady(job, x, step)
    ensures LiveOf(WorkerAfter(job, x, step)) + (if step.Crash? then 1 else 0) <= LiveOf(x)
  {
  }

  lemma StepKeepsDead(job: Job, s: State, step: Step)
    requires Enabled(job, s, step)
    ensures Total(Apply(job, s, step).workers, LiveOf) + (if step.Crash? then 1 else 0) <= Total(s.workers, LiveOf)
  {
    if OfWorker(step) {
      WorkerFrame(job, s, step);
      OwnLive(job, s.workers[step.w], step);
      TotalUpdate(s.workers, step.w, Apply(job, s, step).workers[step.w], LiveOf);
    } else if OfCollector(step) {
      CollectorFrame(job, s, step);
    } else {
      OrchestratorFrame(job, s, step);
    }
  }

  lemma UnackedRoom(job: Job, s: State, w: nat)
    requires Accounted(job, s) && w < |s.workers|
    ensures |UnackedOf(s.workers[w])| <= |job.outcomes|
  {
    GatherUpdate(s.workers, w, s.workers[w], UnackedOf);
    forall i: nat ensures UnackedOf(s.workers[w])[i] <= Range(0, |job.outcomes|)[i] {
      assert Owners(job, s, i) == if i < |job.outcomes| then 1 else 0;
    }
    PartSize(UnackedOf(s.workers[w]), Range(0, |job.outcomes|));
  }

  lemma CrashShares(job: Job, s: State, step: Step)
    requires Enabled(job, s, step) && step.Crash?
    ensures SharedWeight(Apply(job, s, step)) == SharedWeight(s) + 21 * |UnackedOf(s.workers[step.w])|
    ensures Apply(job, s, step).workers[step.w] == Worker(Broken, [], Selecting, [])
  {
  }

  lemma CrashRises(job: Job, s: State, step: Step)
    requires Accounted(job, s) && Enabled(job, s, step) && step.Crash?
    ensures Weight(job, Apply(job, s, step)) <= Weight(job, s) + 21 * |job.outcomes|
  {
    WorkerFrame(job, s, step);
    UnackedRoom(job, s, step.w);
    CrashShares(job, s, step);
    WeightBalance(job, s, Apply(job, s, step), step.w);
  }

  // ----- every run is finite -----

  function Crashes(steps: seq<Step>): nat {
    if steps == [] then 0 else (if steps[0].Crash? then 1 else 0) + Crashes(steps[1..])
  }

  lemma {:induction false} RunCrashes(job: Job, s: State, steps: seq<Step>, t: State)
    requires Runs(job, s, steps, t)
    ensures Crashes(steps) + Total(t.workers, LiveOf) <= Total(s.workers, LiveOf)
    decreases |steps|
  {
    if steps != [] {
      StepKeepsDead(job, s, steps[0]);
      RunCrashes(job, Apply(job, s, steps[0]), steps[1..], t);
    }
  }

  /** What a crash can add to the weight, and the step itself. */
  function CrashCost(job: Job): nat {
    21 * |job.outcomes| + 1
  }

  lemma StepCost(job: Job, s: State, step: Step)
    requires Inv(job, s) && Enabled(job, s, step)
    ensures 1 + Weight(job, Apply(job, s, step)) <= Weight(job, s) + (if step.Crash? then CrashCost(job) else 0)
  {
    if step.Crash? {
      CrashRises(job, s, step);
    } else {
      StepFalls(job, s, step);
    }
  }

  function CrashCosts(job: Job, steps: seq<Step>): nat {
    if steps == [] then 0 else (if steps[0].Crash? then CrashCost(job) else 0) + CrashCosts(job, steps[1..])
  }

  lemma {:induction false} CrashCostsTotal(job: Job, steps: seq<Step>)
    ensures CrashCosts(job, steps) == Crashes(steps) * CrashCost(job)
  {
    if steps != [] {
      CrashCostsTotal(job, steps[1..]);
    }
  }

  lemma {:induction false} RunLength(job: Job, s: State, steps: seq<Step>, t: State)
    requires Inv(job, s) && Runs(job, s, steps, t)
    ensures |steps| + Weight(job, t) <= Weight(job, s) + CrashCosts(job, steps)
    decreases |steps|
  {
    if steps != [] {
      KeepsInv(job, s, steps[0]);
      StepCost(job, s, steps[0]);
      RunLength(job, Apply(job, s, steps[0]), steps[1..], t);
    }
  }

  lemma InitWeight(job: Job)
    ensures Weight(job, Init(job)) <= 33 * |job.outcomes| + 2 * job.endpoints + 12
    ensures Total(Init(job).workers, LiveOf) <= job.endpoints
  {
    TotalBound(Init(job).workers, WorkerWeight, 2);
    TotalBound(Init(job).workers, LiveOf, 1);
  }

  /**
   * Theorem: no run goes on for ever, whatever fails or crashes. N commands on W endpoints take at most
   * 33N + 2W + 12 steps, and every crash, of which there are at most W, adds at most 21N + 1.
   */
  lemma EveryRunEnds(job: Job, steps: seq<Step>, t: State)
    requires Runs(job, Init(job), steps, t)
    ensures Crashes(steps) <= job.endpoints
    ensures |steps| <= 33 * |job.outcomes| + 2 * job.endpoints + 12 + Crashes(steps) * CrashCost(job)
  {
    InitInv(job);
    InitWeight(job);
    RunCrashes(job, Init(job), steps, t);
    RunLength(job, Init(job), steps, t);
    CrashCostsTotal(job, steps);
  }
}
