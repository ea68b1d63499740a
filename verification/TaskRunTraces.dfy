/** Building blocks of possible runs: what single steps and short sequences of steps lead to. */
module TaskRunTraces {
  import opened Bags
  import opened Publish
  import opened TaskRun
  import opened TaskRunInvariants
  import opened TaskRunSteps

  /** Some run leads to t; with `clean`, some run without other than redoable crashes. */
  ghost predicate Reachable(job: Job, clean: bool, t: State) {
    exists steps :: Runs(job, Init(job), steps, t) && (clean ==> CleanRuns(job, Init(job), steps, t))
  }

  lemma {:induction false} RunsOneMore(job: Job, clean: bool, s: State, steps: seq<Step>, t: State, step: Step)
    requires Runs(job, s, steps, t) && Enabled(job, t, step)
    requires clean ==> CleanRuns(job, s, steps, t) && Clean(t, step)
    ensures Runs(job, s, steps + [step], Apply(job, t, step))
    ensures clean ==> CleanRuns(job, s, steps + [step], Apply(job, t, step))
    decreases |steps|
  {
    if steps == [] {
      assert Runs(job, Apply(job, s, step), [], Apply(job, t, step));
      assert [step][1..] == [];
    } else {
      RunsOneMore(job, clean, Apply(job, s, steps[0]), steps[1..], t, step);
      assert (steps + [step])[1..] == steps[1..] + [step];
    }
  }

  lemma Then(job: Job, clean: bool, s: State, step: Step) returns (t: State)
    requires Reachable(job, clean, s) && Enabled(job, s, step) && (clean ==> Clean(s, step))
    ensures Reachable(job, clean, t) && t == Apply(job, s, step)
  {
    var steps :| Runs(job, Init(job), steps, s) && (clean ==> CleanRuns(job, Init(job), steps, s));
    RunsOneMore(job, clean, Init(job), steps, s, step);
    t := Apply(job, s, step);
  }

  lemma Start(job: Job, clean: bool)
    ensures Reachable(job, clean, Init(job))
  {
    assert Runs(job, Init(job), [], Init(job)) && CleanRuns(job, Init(job), [], Init(job));
  }

  const IDLE_WORKER := Worker(Open, [], Selecting, [])
  const DEAD_WORKER := Worker(Broken, [], Selecting, [])

  // ----- the endpoints connect -----

  /** The first k endpoints have connected. */
  function Connected(job: Job, k: nat): State
    requires k <= job.endpoints
  {
    Init(job).(pending := job.endpoints - k,
               workers := seq(job.endpoints, w => if w < k then IDLE_WORKER else FRESH_WORKER))
  }

  lemma {:induction false} ConnectAll(job: Job, clean: bool, k: nat)
    requires k <= job.endpoints
    ensures Reachable(job, clean, Connected(job, k))
  {
    if k == 0 {
      Start(job, clean);
      assert Connected(job, 0).workers == Init(job).workers;
    } else {
      ConnectAll(job, clean, k - 1);
      ConnectNext(job, k);
      var t := Then(job, clean, Connected(job, k - 1), Connect(k - 1));
    }
  }

  lemma ConnectNext(job: Job, k: nat)
    requires 0 < k <= job.endpoints
    ensures var s, step := Connected(job, k - 1), Connect(k - 1);
            Enabled(job, s, step) && Apply(job, s, step) == Connected(job, k)
  {
    var s := Connected(job, k - 1);
    assert s.workers[k - 1] == FRESH_WORKER;
    assert s.workers[k - 1 := IDLE_WORKER] == Connected(job, k).workers;
  }

  // ----- the commands are published -----

  /** All endpoints consume and the first k commands are queued. */
  function Queued(job: Job, k: nat): State {
    Connected(job, job.endpoints).(phase := NextCommand(k), cmdQueue := Range(0, k))
  }

  lemma Opens(job: Job, clean: bool, s: State, i: nat) returns (t: State)
    requires Reachable(job, clean, s) && !s.panicked && s.phase == NextCommand(i) && i < |job.outcomes|
    ensures Reachable(job, clean, t) && t == s.(phase := Sending(i, Trying(0)))
  {
    t := Then(job, clean, s, OpenPublisher);
  }

  lemma Accepts(job: Job, clean: bool, s: State, i: nat) returns (t: State)
    requires Reachable(job, clean, s) && !s.panicked && s.phase == Sending(i, Trying(0))
    ensures Reachable(job, clean, t)
    ensures t == s.(phase := Sending(i, Accepted), cmdQueue := s.cmdQueue + multiset{i})
  {
    t := Then(job, clean, s, SendAttempt(Landed));
  }

  lemma SendReturns(job: Job, clean: bool, s: State, i: nat) returns (t: State)
    requires Reachable(job, clean, s) && !s.panicked && s.phase == Sending(i, Accepted)
    ensures Reachable(job, clean, t) && t == s.(phase := NextCommand(i + 1))
  {
    SendReturnNext(job, s, i);
    t := Then(job, clean, s, SendReturn);
  }

  lemma SendReturnNext(job: Job, s: State, i: nat)
    requires !s.panicked && s.phase == Sending(i, Accepted)
    ensures Enabled(job, s, SendReturn) && Apply(job, s, SendReturn) == s.(phase := NextCommand(i + 1))
  {
  }

  lemma RangeNext(k: nat)
    ensures Range(0, k) + multiset{k} == Range(0, k + 1)
  {
    forall i: nat ensures (Range(0, k) + multiset{k})[i] == Range(0, k + 1)[i] {
    }
  }

  lemma {:induction false} QueueAll(job: Job, clean: bool, k: nat)
    requires k <= |job.outcomes|
    ensures Reachable(job, clean, Queued(job, k))
  {
    if k == 0 {
      ConnectAll(job, clean, job.endpoints);
      var t := Then(job, clean, Connected(job, job.endpoints), PassBarrier);
      assert t == Queued(job, 0);
    } else {
      QueueAll(job, clean, k - 1);
      var t := Opens(job, clean, Queued(job, k - 1), k - 1);
      t := Accepts(job, clean, t, k - 1);
      t := SendReturns(job, clean, t, k - 1);
      RangeNext(k - 1);
      assert t == Queued(job, k);
    }
  }

  /** All endpoints consume, all commands are queued, and the orchestrator waits for finish signals. */
  function AllQueued(job: Job): State {
    Queued(job, |job.outcomes|).(phase := AwaitFinish)
  }

  lemma ReachAllQueued(job: Job, clean: bool)
    ensures Reachable(job, clean, AllQueued(job))
  {
    QueueAll(job, clean, |job.outcomes|);
    var t := Then(job, clean, Queued(job, |job.outcomes|), AllSent);
  }

  // ----- a worker handles a command -----

  lemma Delivers(job: Job, clean: bool, s: State, w: nat, i: nat) returns (t: State)
    requires Reachable(job, clean, s) && !s.panicked && i in s.cmdQueue
    requires w < |s.workers| && s.workers[w] == IDLE_WORKER
    ensures Reachable(job, clean, t)
    ensures t == s.(workers := s.workers[w := IDLE_WORKER.(prefetch := [i])], cmdQueue := s.cmdQueue - multiset{i})
  {
    assert IDLE_WORKER.prefetch + [i] == [i];
    t := Then(job, clean, s, Deliver(w, i));
  }

  lemma Takes(job: Job, clean: bool, s: State, w: nat, i: nat) returns (t: State)
    requires Reachable(job, clean, s) && !s.panicked
    requires w < |s.workers| && s.workers[w] == IDLE_WORKER.(prefetch := [i])
    ensures Reachable(job, clean, t) && t == s.(workers := s.workers[w := IDLE_WORKER.(pc := Running(i))])
  {
    assert [i][1..] == [];
    t := Then(job, clean, s, Take(w));
  }

  lemma Executes(job: Job, clean: bool, s: State, w: nat, i: nat) returns (t: State)
    requires Reachable(job, clean, s) && !s.panicked && i < |job.outcomes|
    requires w < |s.workers| && s.workers[w] == IDLE_WORKER.(pc := Running(i))
    ensures Reachable(job, clean, t)
    ensures t == s.(workers := s.workers[w := IDLE_WORKER.(pc := Publishing(i, Trying(0)))])
  {
    t := Then(job, clean, s, RunCommand(w));
  }

  /** A worker takes a command and runs it. */
  lemma Starts(job: Job, clean: bool, s: State, w: nat, i: nat) returns (t: State)
    requires Reachable(job, clean, s) && !s.panicked && i in s.cmdQueue && i < |job.outcomes|
    requires w < |s.workers| && s.workers[w] == IDLE_WORKER
    ensures Reachable(job, clean, t)
    ensures t == s.(workers := s.workers[w := IDLE_WORKER.(pc := Publishing(i, Trying(0)))],
                    cmdQueue := s.cmdQueue - multiset{i})
  {
    t := Delivers(job, clean, s, w, i);
    t := Takes(job, clean, t, w, i);
    t := Executes(job, clean, t, w, i);
    assert t.workers == s.workers[w := IDLE_WORKER.(pc := Publishing(i, Trying(0)))];
  }

  lemma Publishes(job: Job, clean: bool, s: State, w: nat, i: nat) returns (t: State)
    requires Reachable(job, clean, s) && !s.panicked && i < |job.outcomes|
    requires w < |s.workers| && s.workers[w] == IDLE_WORKER.(pc := Publishing(i, Trying(0)))
    ensures Reachable(job, clean, t)
    ensures t == PublishResult(job, s, i).(workers := s.workers[w := IDLE_WORKER.(pc := Publishing(i, Accepted))])
  {
    t := Then(job, clean, s, PublishAttempt(w, Landed));
  }

  lemma PublishReturns(job: Job, clean: bool, s: State, w: nat, i: nat) returns (t: State)
    requires Reachable(job, clean, s) && !s.panicked
    requires w < |s.workers| && s.workers[w] == IDLE_WORKER.(pc := Publishing(i, Accepted))
    ensures Reachable(job, clean, t)
    ensures t == s.(workers := s.workers[w := IDLE_WORKER.(pc := Reporting(i, false))])
  {
    t := Then(job, clean, s, PublishReturn(w));
  }

  lemma Signals(job: Job, clean: bool, s: State, w: nat, i: nat) returns (t: State)
    requires Reachable(job, clean, s) && !s.panicked
    requires w < |s.workers| && s.workers[w] == IDLE_WORKER.(pc := Reporting(i, false))
    ensures Reachable(job, clean, t)
    ensures t == s.(workers := s.workers[w := IDLE_WORKER.(pc := Acking(i), stream := [Response(i, false)])])
  {
    assert IDLE_WORKER.stream + [Response(i, false)] == [Response(i, false)];
    t := Then(job, clean, s, Signal(w));
  }

  lemma Received(job: Job, clean: bool, s: State, w: nat, i: nat) returns (t: State)
    requires Reachable(job, clean, s) && !s.panicked
    requires w < |s.workers| && s.workers[w] == IDLE_WORKER.(pc := Acking(i), stream := [Response(i, false)])
    ensures Reachable(job, clean, t)
    ensures t == s.(workers := s.workers[w := IDLE_WORKER.(pc := Acking(i))],
                    wg := s.wg - 1, panicked := s.wg - 1 < 0,
                    ledger := s.ledger.(handled := s.ledger.handled + multiset{i}))
  {
    assert [Response(i, false)][1..] == [];
    t := Then(job, clean, s, Receive(w));
    assert s.ledger.failedReplies + multiset{} == s.ledger.failedReplies;
  }

  /** A worker whose result is published signals, and the orchestrator handles the signal. */
  lemma Reports(job: Job, clean: bool, s: State, w: nat, i: nat) returns (t: State)
    requires Reachable(job, clean, s) && !s.panicked
    requires w < |s.workers| && s.workers[w] == IDLE_WORKER.(pc := Publishing(i, Accepted))
    ensures Reachable(job, clean, t)
    ensures t == s.(workers := s.workers[w := IDLE_WORKER.(pc := Acking(i))],
                    wg := s.wg - 1, panicked := s.wg - 1 < 0,
                    ledger := s.ledger.(handled := s.ledger.handled + multiset{i}))
  {
    t := PublishReturns(job, clean, s, w, i);
    t := Signals(job, clean, t, w, i);
    t := Received(job, clean, t, w, i);
    assert t.workers == s.workers[w := IDLE_WORKER.(pc := Acking(i))];
  }

  lemma Acks(job: Job, clean: bool, s: State, w: nat, i: nat) returns (t: State)
    requires Reachable(job, clean, s) && !s.panicked
    requires w < |s.workers| && s.workers[w] == IDLE_WORKER.(pc := Acking(i))
    ensures Reachable(job, clean, t)
    ensures t == s.(workers := s.workers[w := IDLE_WORKER],
                    ledger := s.ledger.(acked := s.ledger.acked + multiset{i}))
  {
    t := Then(job, clean, s, Ack(w));
  }

  /** Command i has been run by worker w, its result published and its finish signal handled. */
  function AfterFinish(job: Job, s: State, w: nat, i: nat): State
    requires w < |s.workers| && i < |job.outcomes|
  {
    PublishResult(job, s, i).(
      workers := s.workers[w := IDLE_WORKER.(pc := Acking(i))],
      cmdQueue := s.cmdQueue - multiset{i},
      wg := s.wg - 1, panicked := s.wg - 1 < 0,
      ledger := s.ledger.(handled := s.ledger.handled + multiset{i}))
  }

  lemma FinishOne(job: Job, clean: bool, s: State, w: nat, i: nat) returns (t: State)
    requires Reachable(job, clean, s) && !s.panicked && i in s.cmdQueue && i < |job.outcomes|
    requires w < |s.workers| && s.workers[w] == IDLE_WORKER
    ensures Reachable(job, clean, t) && t == AfterFinish(job, s, w, i)
  {
    t := Starts(job, clean, s, w, i);
    t := Publishes(job, clean, t, w, i);
    t := Reports(job, clean, t, w, i);
    assert t.workers == s.workers[w := IDLE_WORKER.(pc := Acking(i))];
  }

  // ----- a worker handles many commands -----

  /** t differs from s by the commands in `done`, each handled once more, in the fields that later steps read. */
  ghost predicate Handled(s: State, t: State, done: multiset<nat>) {
    && t.workers == s.workers && t.phase == s.phase && t.pending == s.pending && !t.panicked
    && t.wg == s.wg - |done| && t.resWg == s.resWg
    && t.cmdQueue == s.cmdQueue - done && t.ledger.skipped == s.ledger.skipped
    && t.out == s.out.(queue := t.out.queue) && t.err == s.err.(queue := t.err.queue)
    && |t.out.queue| + |t.err.queue| == |s.out.queue| + |s.err.queue| + |done|
    && (forall id: nat :: Results(t, id) == Results(s, id) + done[id])
  }

  lemma PublishedOne(job: Job, s: State, i: nat, id: nat)
    requires i < |job.outcomes|
    ensures Results(PublishResult(job, s, i), id) == Results(s, id) + if id == i then 1 else 0
    ensures var t := PublishResult(job, s, i);
            && t.out == s.out.(queue := t.out.queue) && t.err == s.err.(queue := t.err.queue)
            && |t.out.queue| + |t.err.queue| == |s.out.queue| + |s.err.queue| + 1
  {
    var t, m := PublishResult(job, s, i), Msg(i, job.outcomes[i].output);
    var ok := job.outcomes[i].ok;
    if ok { HistoryExtended(s.out, m); } else { HistoryExtended(s.err, m); }
    IdsExtended(s.out, t.out, m, ok, id);
    IdsExtended(s.err, t.err, m, !ok, id);
  }

  lemma HandleOne(job: Job, clean: bool, s: State, w: nat, i: nat) returns (t: State)
    requires Reachable(job, clean, s) && !s.panicked && s.wg > 0 && i in s.cmdQueue && i < |job.outcomes|
    requires w < |s.workers| && s.workers[w] == IDLE_WORKER
    ensures Reachable(job, clean, t) && Handled(s, t, multiset{i})
  {
    t := FinishOne(job, clean, s, w, i);
    t := Acks(job, clean, t, w, i);
    assert t.workers == s.workers;
    forall id: nat ensures Results(t, id) == Results(s, id) + multiset{i}[id] {
      PublishedOne(job, s, i, id);
    }
    PublishedOne(job, s, i, 0);
  }

  lemma HandledTwice(s: State, m: State, t: State, a: multiset<nat>, b: multiset<nat>)
    requires Handled(s, m, a) && Handled(m, t, b)
    ensures Handled(s, t, a + b)
  {
    assert |a + b| == |a| + |b|;
    assert s.cmdQueue - a - b == s.cmdQueue - (a + b);
    forall id: nat ensures Results(t, id) == Results(s, id) + (a + b)[id] {
      assert Results(m, id) == Results(s, id) + a[id];
    }
  }

  /** Worker w handles the commands in `todo`, one after the other. */
  lemma {:induction false} HandleAll(job: Job, clean: bool, s: State, w: nat, todo: multiset<nat>) returns (t: State)
    requires Reachable(job, clean, s) && !s.panicked && s.wg >= |todo| && todo <= s.cmdQueue
    requires forall i :: i in todo ==> i < |job.outcomes|
    requires w < |s.workers| && s.workers[w] == IDLE_WORKER
    ensures Reachable(job, clean, t) && Handled(s, t, todo)
    decreases |todo|
  {
    if todo == multiset{} {
      t := s;
      assert s.cmdQueue - todo == s.cmdQueue;
    } else {
      var i :| i in todo;
      var rest := todo - multiset{i};
      assert todo == multiset{i} + rest;
      var m := HandleOne(job, clean, s, w, i);
      assert rest <= m.cmdQueue;
      t := HandleAll(job, clean, m, w, rest);
      HandledTwice(s, m, t, multiset{i}, rest);
    }
  }

  // ----- worker 0 crashes and its command is queued again -----

  /** After its result is published, before its finish signal. */
  lemma DiesUnsignalled(job: Job, s: State, w: nat, i: nat) returns (t: State)
    requires Reachable(job, false, s) && !s.panicked
    requires w < |s.workers| && s.workers[w] == IDLE_WORKER.(pc := Publishing(i, Accepted))
    ensures Reachable(job, false, t)
    ensures t == s.(workers := s.workers[w := DEAD_WORKER], cmdQueue := s.cmdQueue + multiset{i},
                    ledger := s.ledger.(remade := s.ledger.remade + multiset{i}))
  {
    assert multiset(IDLE_WORKER.prefetch) + multiset{i} == multiset{i};
    t := Then(job, false, s, Crash(w));
    assert s.ledger.lost + multiset{} == s.ledger.lost && s.ledger.redelivered + multiset{} == s.ledger.redelivered;
  }

  /** After its finish signal is handled, before its acknowledgement. */
  lemma Dies(job: Job, s: State, w: nat, i: nat) returns (t: State)
    requires Reachable(job, false, s) && !s.panicked
    requires w < |s.workers| && s.workers[w] == IDLE_WORKER.(pc := Acking(i))
    ensures Reachable(job, false, t)
    ensures t == s.(workers := s.workers[w := DEAD_WORKER], cmdQueue := s.cmdQueue + multiset{i},
                    ledger := s.ledger.(remade := s.ledger.remade + multiset{i},
                                        redelivered := s.ledger.redelivered + multiset{i}))
  {
    assert multiset(IDLE_WORKER.prefetch) + multiset{i} == multiset{i};
    t := Then(job, false, s, Crash(w));
    assert s.ledger.lost + multiset{} == s.ledger.lost;
  }

  // ----- the orchestrator drains the result queues -----

  lemma CreatesConsumers(job: Job, clean: bool, s: State) returns (t: State)
    requires Reachable(job, clean, s) && !s.panicked && s.phase.AwaitFinish? && s.wg == 0
    ensures Reachable(job, clean, t) && t == s.(phase := Draining, resWg := |job.outcomes|)
  {
    t := Then(job, clean, s, Cancel);
    t := Then(job, clean, t, CreateConsumer(true));
    t := Then(job, clean, t, CreateConsumer(true));
  }

  lemma Subscribes(job: Job, clean: bool, s: State, outOk: bool, errOk: bool) returns (t: State)
    requires Reachable(job, clean, s) && !s.panicked && s.phase.Draining? && s.out.col.Off? && s.err.col.Off?
    ensures Reachable(job, clean, t)
    ensures t == s.(out := s.out.(col := if outOk then Idle else Broke),
                    err := s.err.(col := if errOk then Idle else Broke))
  {
    t := Then(job, clean, s, Subscribe(OutputLane, outOk));
    t := Then(job, clean, t, Subscribe(ErrorLane, errOk));
  }

  lemma Appends(job: Job, clean: bool, s: State, kind: Kind) returns (t: State)
    requires Reachable(job, clean, s) && !s.panicked && LaneOf(s, kind).col.Idle? && LaneOf(s, kind).queue != []
    ensures Reachable(job, clean, t)
    ensures var l := LaneOf(s, kind); t == SetLane(s, kind, Lane(l.queue[1..], Appended, l.taken + [l.queue[0]]))
  {
    t := Then(job, clean, s, Collect(kind));
    t := Then(job, clean, t, Append(kind));
  }

  lemma CountsDown(job: Job, clean: bool, s: State, kind: Kind) returns (t: State)
    requires Reachable(job, clean, s) && !s.panicked && LaneOf(s, kind).col.Appended? && s.resWg > 0
    ensures Reachable(job, clean, t)
    ensures t == SetLane(s, kind, LaneOf(s, kind).(col := Idle)).(resWg := s.resWg - 1)
  {
    t := Then(job, clean, s, CountDown(kind));
    t := Then(job, clean, t, AckResult(kind));
  }

  lemma DrainsOne(job: Job, clean: bool, s: State, kind: Kind) returns (t: State)
    requires Reachable(job, clean, s) && !s.panicked && s.resWg > 0
    requires LaneOf(s, kind).col.Idle? && LaneOf(s, kind).queue != []
    ensures Reachable(job, clean, t)
    ensures var l := LaneOf(s, kind);
            t == SetLane(s, kind, Lane(l.queue[1..], Idle, l.taken + [l.queue[0]])).(resWg := s.resWg - 1)
  {
    t := Appends(job, clean, s, kind);
    t := CountsDown(job, clean, t, kind);
  }

  /** The lane after its collector has drained n messages. */
  function DrainedBy(l: Lane, n: nat): Lane
    requires n <= |l.queue|
  {
    Lane(l.queue[n..], Idle, l.taken + l.queue[..n])
  }

  lemma DrainedNext(l: Lane, n: nat)
    requires 0 < n <= |l.queue|
    ensures DrainedBy(Lane(l.queue[1..], Idle, l.taken + [l.queue[0]]), n - 1) == DrainedBy(l, n)
  {
    assert l.queue[1..][n - 1..] == l.queue[n..];
    assert l.taken + [l.queue[0]] + l.queue[1..][..n - 1] == l.taken + l.queue[..n];
  }

  /** A collector drains the first n messages of its queue. */
  lemma {:induction false} DrainsSome(job: Job, clean: bool, s: State, kind: Kind, n: nat) returns (t: State)
    requires Reachable(job, clean, s) && !s.panicked && LaneOf(s, kind).col.Idle?
    requires n <= |LaneOf(s, kind).queue| && n <= s.resWg
    ensures Reachable(job, clean, t)
    ensures t == SetLane(s, kind, DrainedBy(LaneOf(s, kind), n)).(resWg := s.resWg - n)
    decreases n
  {
    if n == 0 {
      t := s;
      assert DrainedBy(LaneOf(s, kind), 0) == LaneOf(s, kind);
    } else {
      var m := DrainsOne(job, clean, s, kind);
      t := DrainsSome(job, clean, m, kind, n - 1);
      DrainedNext(LaneOf(s, kind), n);
    }
  }

  lemma Finishes(job: Job, clean: bool, s: State) returns (t: State)
    requires Reachable(job, clean, s) && !s.panicked && s.phase.Draining? && s.resWg == 0
    ensures Reachable(job, clean, t) && t == Store(s)
  {
    t := Then(job, clean, s, Finish);
  }
}
