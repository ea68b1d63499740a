/** Runs with arbitrary worker crashes: what is never lost, and what a crash after the finish signal breaks. */
module TaskRunCrash {
  import opened Bags
  import opened TaskRun
  import opened TaskRunInvariants
  import opened TaskRunSafety
  import opened TaskRunTraces

  // ----- what every run guarantees -----

  /**
   * No lost work: whatever crashes, every command is unsent, skipped, queued, held by a worker that has not
   * acknowledged it, or acknowledged, and only one of these. An acknowledged or signalled command has had
   * its result published, vanished or given up.
   */
  lemma NoLostWork(job: Job, steps: seq<Step>, t: State)
    requires Runs(job, Init(job), steps, t)
    ensures forall id: nat :: Owners(job, t, id) == if id < |job.outcomes| then 1 else 0
    ensures forall id :: id in t.ledger.acked || id in t.ledger.handled ==> Evident(t, id)
  {
    AllRunsSafe(job, steps, t);
  }

  // ----- a run that ends early -----

  /** Two commands on two endpoints. */
  const TWO := Job([Outcome("a", true), Outcome("b", true)], 2)

  /** Worker 0 has crashed after its finish signal for command 0 was handled, before acknowledging it. */
  function Requeued(): State {
    AllQueued(TWO).(
      workers := [DEAD_WORKER, IDLE_WORKER], cmdQueue := multiset{0, 1},
      out := EMPTY_LANE.(queue := [Msg(0, "a")]), wg := 1,
      ledger := EMPTY_LEDGER.(handled := multiset{0}, remade := multiset{0}, redelivered := multiset{0}))
  }

  /** Command 0 has been run twice and counted twice; command 1 is still in the queue. */
  function CountedTwice(): State {
    Requeued().(
      workers := [DEAD_WORKER, IDLE_WORKER.(pc := Acking(0))], cmdQueue := multiset{1},
      out := EMPTY_LANE.(queue := [Msg(0, "a"), Msg(0, "a")]), wg := 0,
      ledger := EMPTY_LEDGER.(handled := multiset{0, 0}, remade := multiset{0}, redelivered := multiset{0}))
  }

  lemma TwoQueued()
    ensures AllQueued(TWO).workers == [IDLE_WORKER, IDLE_WORKER] && AllQueued(TWO).cmdQueue == multiset{0, 1}
  {
    forall i: nat ensures Range(0, 2)[i] == multiset{0, 1}[i] {
    }
  }

  lemma ReachRequeued()
    ensures Reachable(TWO, false, Requeued())
  {
    ReachAllQueued(TWO, false);
    TwoQueued();
    var s := FinishOne(TWO, false, AllQueued(TWO), 0, 0);
    s := Dies(TWO, s, 0, 0);
    assert s.workers == [DEAD_WORKER, IDLE_WORKER];
    assert s.cmdQueue == multiset{0, 1};
    assert s.out.queue == [Msg(0, "a")];
    assert s.ledger.handled == multiset{0} && s.ledger.redelivered == s.ledger.remade == multiset{0};
  }

  /** A worker that crashes between its finish signal and its acknowledgement makes `wg` reach zero too early. */
  lemma CrashAfterSignal()
    ensures Reachable(TWO, false, CountedTwice()) && CountedTwice().wg == 0
    ensures 1 in CountedTwice().cmdQueue && !Evident(CountedTwice(), 1)
  {
    ReachRequeued();
    var s := FinishOne(TWO, false, Requeued(), 1, 0);
    assert s.workers == [DEAD_WORKER, IDLE_WORKER.(pc := Acking(0))];
    assert s.cmdQueue == multiset{1};
    assert s.out.queue == [Msg(0, "a"), Msg(0, "a")];
    assert s.ledger.handled == multiset{0, 0};
    NoMessageFor(1);
  }

  lemma NoMessageFor(id: nat)
    requires id != 0
    ensures !Evident(CountedTwice(), id)
  {
    var q := History(CountedTwice().out);
    assert q == [Msg(0, "a"), Msg(0, "a")];
    assert q[..1] == [Msg(0, "a")] && q[..1][..0] == [];
    assert History(CountedTwice().err) == [];
  }

  lemma SubscribesEarly(s: State) returns (t: State)
    requires Reachable(TWO, false, s) && !s.panicked && s.phase.AwaitFinish? && s.wg == 0
    requires s.out.col.Off? && s.err.col.Off?
    ensures Reachable(TWO, false, t)
    ensures t == s.(phase := Draining, resWg := 2, out := s.out.(col := Idle), err := s.err.(col := Idle))
  {
    t := CreatesConsumers(TWO, false, s);
    t := Subscribes(TWO, false, t, true, true);
  }

  /** The orchestrator then returns with the result of command 0 twice and that of command 1 not at all. */
  lemma EarlyReturn() returns (t: State)
    ensures Reachable(TWO, false, t) && t.phase == Returned(Collected)
    ensures t.outputs == ["a", "a"] && t.errors == []
    ensures Sequential(TWO.outcomes, true) == ["a", "b"]
  {
    CrashAfterSignal();
    t := SubscribesEarly(CountedTwice());
    t := StoresOutputs(t);
    LoopOfTwo();
  }

  /** The collector of outputs appends two results, and the orchestrator stores them. */
  lemma StoresOutputs(s: State) returns (t: State)
    requires Reachable(TWO, false, s) && !s.panicked && s.phase.Draining? && s.resWg == 2
    requires s.err.col.Idle? && s.err.taken == []
    requires s.out.col.Idle? && |s.out.queue| == 2 && s.out.taken == []
    ensures Reachable(TWO, false, t) && t.phase == Returned(Collected)
    ensures t.outputs == [s.out.queue[0].body, s.out.queue[1].body] && t.errors == []
  {
    var m := DrainsSome(TWO, false, s, OutputLane, 2);
    assert m.out.taken == [s.out.queue[0], s.out.queue[1]];
    t := Finishes(TWO, false, m);
  }

  lemma LoopOfTwo()
    ensures Sequential(TWO.outcomes, true) == ["a", "b"]
  {
    var o := TWO.outcomes;
    assert o[..1] == [Outcome("a", true)] && o[..1][..0] == [];
    assert Sequential(o[..1], true) == ["a"];
  }

  /** Or, if the orchestrator is slower than worker 1, the counter goes below zero and the process panics. */
  lemma NegativeCounter() returns (t: State)
    ensures Reachable(TWO, false, t) && t.panicked && t.wg == -1
  {
    CrashAfterSignal();
    t := Acks(TWO, false, CountedTwice(), 1, 0);
    t := FinishOne(TWO, false, t, 1, 1);
  }
}
