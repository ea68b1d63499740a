/**
 * Every order of completion, every split among the workers and every way to return happens in some run, so that the
 * results of completed clean runs are exactly the rearrangements of the sequential loop's.
 */
module TaskRunOrders {
  import opened Bags
  import opened TaskRun
  import opened TaskRunResults
  import opened TaskRunTraces
  import TaskRunCompletes

  // ----- every order of completion, and every split among the workers -----

  /** The messages of the commands in `order` with this exit status, in order. */
  function Messages(job: Job, order: seq<nat>, ok: bool): seq<Msg>
    requires forall k :: 0 <= k < |order| ==> order[k] < |job.outcomes|
  {
    if order == [] then []
    else
      var o, rest := job.outcomes[order[0]], Messages(job, order[1..], ok);
      if o.ok == ok then [Msg(order[0], o.output)] + rest else rest
  }

  /** All commands of `order` have been handled, one after the other. */
  predicate HandledInOrder(job: Job, s: State, t: State, order: seq<nat>)
    requires forall k :: 0 <= k < |order| ==> order[k] < |job.outcomes|
  {
    && !t.panicked && t.phase == s.phase && t.wg == s.wg - |order|
    && t.out == s.out.(queue := s.out.queue + Messages(job, order, true))
    && t.err == s.err.(queue := s.err.queue + Messages(job, order, false))
  }

  lemma HandleNext(job: Job, s: State, w: nat, i: nat) returns (t: State)
    requires Reachable(job, true, s) && !s.panicked && s.wg > 0 && i in s.cmdQueue && i < |job.outcomes|
    requires w < |s.workers| && s.workers[w] == IDLE_WORKER
    ensures Reachable(job, true, t) && !t.panicked && t.phase == s.phase && t.wg == s.wg - 1
    ensures t.workers == s.workers && t.cmdQueue == s.cmdQueue - multiset{i}
    ensures t.out == PublishResult(job, s, i).out && t.err == PublishResult(job, s, i).err
  {
    t := FinishOne(job, true, s, w, i);
    t := Acks(job, true, t, w, i);
    assert t.workers == s.workers;
  }

  lemma NextInOrder(job: Job, s: State, m: State, t: State, order: seq<nat>)
    requires order != [] && forall k :: 0 <= k < |order| ==> order[k] < |job.outcomes|
    requires m.phase == s.phase && m.wg == s.wg - 1
    requires m.out == PublishResult(job, s, order[0]).out && m.err == PublishResult(job, s, order[0]).err
    requires HandledInOrder(job, m, t, order[1..])
    ensures HandledInOrder(job, s, t, order)
  {
    var msg := Msg(order[0], job.outcomes[order[0]].output);
    AppendFirst(s.out.queue, msg, Messages(job, order[1..], true));
    AppendFirst(s.err.queue, msg, Messages(job, order[1..], false));
  }

  lemma AppendFirst<T>(a: seq<T>, x: T, b: seq<T>)
    ensures (a + [x]) + b == a + ([x] + b)
  {
  }

  lemma RestQueued(order: seq<nat>, queue: multiset<nat>)
    requires order != [] && multiset(order) <= queue
    ensures order[0] in queue && multiset(order[1..]) <= queue - multiset{order[0]}
  {
    assert order == [order[0]] + order[1..];
    assert order[0] in multiset(order);
  }

  /** Worker `who[k]` handles command `order[k]`. */
  lemma {:induction false} HandleInOrder(job: Job, s: State, order: seq<nat>, who: seq<nat>) returns (t: State)
    requires Reachable(job, true, s) && !s.panicked && s.wg >= |order| && multiset(order) <= s.cmdQueue
    requires forall k :: 0 <= k < |order| ==> order[k] < |job.outcomes|
    requires |who| == |order| && forall k :: 0 <= k < |who| ==> who[k] < |s.workers| && s.workers[who[k]] == IDLE_WORKER
    ensures Reachable(job, true, t) && HandledInOrder(job, s, t, order)
    decreases |order|
  {
    if order == [] {
      t := s;
      assert s.out.queue + [] == s.out.queue && s.err.queue + [] == s.err.queue;
    } else {
      RestQueued(order, s.cmdQueue);
      var m := HandleNext(job, s, who[0], order[0]);
      t := HandleInOrder(job, m, order[1..], who[1..]);
      NextInOrder(job, s, m, t, order);
    }
  }

  lemma QueuedIdle(job: Job, w: nat)
    requires w < job.endpoints
    ensures |AllQueued(job).workers| == job.endpoints && AllQueued(job).workers[w] == IDLE_WORKER
  {
  }

  lemma BagBelow(order: seq<nat>, n: nat)
    requires multiset(order) == Range(0, n)
    ensures |order| == n && forall k :: 0 <= k < |order| ==> order[k] < n
  {
    assert |multiset(order)| == |order|;
    forall k | 0 <= k < |order| ensures order[k] < n {
      assert order[k] in multiset(order);
    }
  }

  lemma {:induction false} MessageCount(job: Job, order: seq<nat>)
    requires forall k :: 0 <= k < |order| ==> order[k] < |job.outcomes|
    ensures |Messages(job, order, true)| + |Messages(job, order, false)| == |order|
  {
    if order != [] { MessageCount(job, order[1..]); }
  }

  /** The collectors drain two full queues, and the run stores their bodies in order. */
  lemma DrainsBoth(job: Job, s: State) returns (t: State)
    requires Reachable(job, true, s) && !s.panicked && s.phase.AwaitFinish? && s.wg == 0
    requires s.out == EMPTY_LANE.(queue := s.out.queue) && s.err == EMPTY_LANE.(queue := s.err.queue)
    requires |s.out.queue| + |s.err.queue| == |job.outcomes|
    ensures Reachable(job, true, t) && t.phase == Returned(Collected)
    ensures t.outputs == Bodies(s.out.queue) && t.errors == Bodies(s.err.queue)
  {
    var m := CreatesConsumers(job, true, s);
    m := Subscribes(job, true, m, true, true);
    m := DrainsSome(job, true, m, OutputLane, |s.out.queue|);
    m := DrainsSome(job, true, m, ErrorLane, |s.err.queue|);
    TakenAll(s.out.queue);
    TakenAll(s.err.queue);
    t := Finishes(job, true, m);
  }

  lemma TakenAll(q: seq<Msg>)
    ensures DrainedBy(Lane(q, Idle, []), |q|) == Lane([], Idle, q)
  {
    assert [] + q[..|q|] == q;
  }

  /**
   * Theorem: for every order of completion and every split of the commands among the workers, some clean run stores
   * the results in this order.
   */
  lemma AnyOrder(job: Job, order: seq<nat>, who: seq<nat>) returns (t: State)
    requires multiset(order) == Range(0, |job.outcomes|)
    requires |who| == |order| && forall k :: 0 <= k < |who| ==> who[k] < job.endpoints
    ensures Reachable(job, true, t) && t.phase == Returned(Collected)
    ensures forall k :: 0 <= k < |order| ==> order[k] < |job.outcomes|
    ensures t.outputs == Bodies(Messages(job, order, true)) && t.errors == Bodies(Messages(job, order, false))
  {
    BagBelow(order, |job.outcomes|);
    ReachAllQueued(job, true);
    forall k | 0 <= k < |who|
      ensures who[k] < |AllQueued(job).workers| && AllQueued(job).workers[who[k]] == IDLE_WORKER
    {
      QueuedIdle(job, who[k]);
    }
    var s := HandleInOrder(job, AllQueued(job), order, who);
    MessageCount(job, order);
    assert s.out.queue == Messages(job, order, true) && s.err.queue == Messages(job, order, false);
    t := DrainsBoth(job, s);
  }

  // ----- the results of completed clean runs are exactly the rearrangements of the sequential loop's -----

  /** A rearrangement of images comes from a rearrangement. */
  lemma {:induction false} Unmap<A, B>(a: seq<A>, b: seq<B>, f: A -> B) returns (a': seq<A>)
    requires multiset(Map(a, f)) == multiset(b)
    ensures multiset(a') == multiset(a) && Map(a', f) == b
    decreases |b|
  {
    assert |multiset(Map(a, f))| == |a| && |multiset(b)| == |b|;
    if b == [] {
      a' := a;
    } else {
      assert b[0] in multiset(b);
      var k := ImageOf(a, f, b[0]);
      var rest := a[..k] + a[k + 1..];
      MapCut(a, k, f);
      HeadCut(b);
      CancelOne(multiset(Map(rest, f)), multiset(b[1..]), b[0]);
      var tail := Unmap(rest, b[1..], f);
      a' := [a[k]] + tail;
      CutAt(a, k);
      MapCons(a[k], tail, f);
      assert b == [b[0]] + b[1..];
    }
  }

  lemma ImageOf<A, B>(a: seq<A>, f: A -> B, y: B) returns (k: nat)
    requires y in multiset(Map(a, f))
    ensures k < |a| && f(a[k]) == y
  {
    k := IndexOf(Map(a, f), y);
  }

  lemma HeadCut<B>(b: seq<B>)
    requires b != []
    ensures multiset(b) == multiset(b[1..]) + multiset{b[0]}
  {
    assert b == [b[0]] + b[1..];
  }

  lemma CutAt<A>(a: seq<A>, k: nat)
    requires k < |a|
    ensures multiset(a) == multiset{a[k]} + multiset(a[..k] + a[k + 1..])
  {
    assert a == a[..k] + [a[k]] + a[k + 1..];
  }

  lemma CancelOne<B>(a: multiset<B>, b: multiset<B>, x: B)
    requires a + multiset{x} == b + multiset{x}
    ensures a == b
  {
    assert a == a + multiset{x} - multiset{x} && b == b + multiset{x} - multiset{x};
  }

  lemma MapCons<A, B>(x: A, s: seq<A>, f: A -> B)
    ensures Map([x] + s, f) == [f(x)] + Map(s, f)
  {
  }

  lemma BodiesCons(m: Msg, q: seq<Msg>)
    ensures Bodies([m] + q) == [m.body] + Bodies(q)
  {
  }

  /** Commands of one exit status, as messages: all of them or none. */
  lemma {:induction false} MessagesOfOne(job: Job, order: seq<nat>, ok: bool)
    requires forall k :: 0 <= k < |order| ==> order[k] < |job.outcomes| && job.outcomes[order[k]].ok == ok
    ensures Bodies(Messages(job, order, ok)) == Map(order, OutputAt(job.outcomes))
    ensures Messages(job, order, !ok) == []
  {
    if order != [] {
      MessagesOfOne(job, order[1..], ok);
      MapCons(order[0], order[1..], OutputAt(job.outcomes));
      assert order == [order[0]] + order[1..];
      BodiesCons(Msg(order[0], job.outcomes[order[0]].output), Messages(job, order[1..], ok));
    }
  }

  lemma {:induction false} MessagesConcat(job: Job, a: seq<nat>, b: seq<nat>, ok: bool)
    requires forall k :: 0 <= k < |a + b| ==> (a + b)[k] < |job.outcomes|
    ensures (forall k :: 0 <= k < |a| ==> a[k] < |job.outcomes|) && (forall k :: 0 <= k < |b| ==> b[k] < |job.outcomes|)
    ensures Messages(job, a + b, ok) == Messages(job, a, ok) + Messages(job, b, ok)
    decreases |a|
  {
    forall k | 0 <= k < |a| ensures a[k] < |job.outcomes| { assert a[k] == (a + b)[k]; }
    forall k | 0 <= k < |b| ensures b[k] < |job.outcomes| { assert b[k] == (a + b)[|a| + k]; }
    if a == [] {
      assert a + b == b;
    } else {
      assert (a + b)[1..] == a[1..] + b;
      MessagesConcat(job, a[1..], b, ok);
    }
  }

  /** An order of the commands of one exit status that gives these outputs. */
  lemma OrderFor(job: Job, ok: bool, bodies: seq<string>) returns (order: seq<nat>)
    requires multiset(bodies) == multiset(Sequential(job.outcomes, ok))
    ensures multiset(order) == multiset(Indices(job.outcomes, |job.outcomes|, ok))
    ensures Map(order, OutputAt(job.outcomes)) == bodies
  {
    SequentialByIndex(job.outcomes, |job.outcomes|, ok);
    assert job.outcomes[..|job.outcomes|] == job.outcomes;
    order := Unmap(Indices(job.outcomes, |job.outcomes|, ok), bodies, OutputAt(job.outcomes));
  }

  lemma OrderStatus(job: Job, ok: bool, order: seq<nat>)
    requires multiset(order) == multiset(Indices(job.outcomes, |job.outcomes|, ok))
    ensures forall k :: 0 <= k < |order| ==> order[k] < |job.outcomes| && job.outcomes[order[k]].ok == ok
  {
    forall k | 0 <= k < |order| ensures order[k] < |job.outcomes| && job.outcomes[order[k]].ok == ok {
      assert order[k] in multiset(order);
      IndicesBag(job.outcomes, |job.outcomes|, ok, order[k]);
    }
  }

  lemma BothStatuses(job: Job, good: seq<nat>, bad: seq<nat>)
    requires multiset(good) == multiset(Indices(job.outcomes, |job.outcomes|, true))
    requires multiset(bad) == multiset(Indices(job.outcomes, |job.outcomes|, false))
    ensures multiset(good + bad) == Range(0, |job.outcomes|)
  {
    forall i: nat ensures multiset(good + bad)[i] == Range(0, |job.outcomes|)[i] {
      IndicesBag(job.outcomes, |job.outcomes|, true, i);
      IndicesBag(job.outcomes, |job.outcomes|, false, i);
    }
  }

  lemma OrderOfBoth(job: Job, good: seq<nat>, bad: seq<nat>)
    requires multiset(good) == multiset(Indices(job.outcomes, |job.outcomes|, true))
    requires multiset(bad) == multiset(Indices(job.outcomes, |job.outcomes|, false))
    ensures multiset(good + bad) == Range(0, |job.outcomes|)
    ensures forall k :: 0 <= k < |good + bad| ==> (good + bad)[k] < |job.outcomes|
    ensures Bodies(Messages(job, good + bad, true)) == Map(good, OutputAt(job.outcomes))
    ensures Bodies(Messages(job, good + bad, false)) == Map(bad, OutputAt(job.outcomes))
  {
    BothStatuses(job, good, bad);
    BagBelow(good + bad, |job.outcomes|);
    MessagesConcat(job, good, bad, true);
    MessagesConcat(job, good, bad, false);
    OrderStatus(job, true, good);
    OrderStatus(job, false, bad);
    MessagesOfOne(job, good, true);
    MessagesOfOne(job, bad, false);
    assert Messages(job, good, true) + [] == Messages(job, good, true);
    assert [] + Messages(job, bad, false) == Messages(job, bad, false);
  }

  /** Some clean run completes with these fields. */
  ghost predicate CanCollect(job: Job, taskState: TaskState, outputs: seq<string>, errors: seq<string>) {
    exists steps, t :: CleanRuns(job, Init(job), steps, t) && Stores(t, taskState, outputs, errors)
  }

  predicate Stores(t: State, taskState: TaskState, outputs: seq<string>, errors: seq<string>) {
    t.phase == Returned(Collected) && t.taskState == taskState && t.outputs == outputs && t.errors == errors
  }

  lemma CollectsAny(job: Job, taskState: TaskState, outputs: seq<string>, errors: seq<string>)
    requires Refines(job, taskState, outputs, errors) && (job.endpoints > 0 || job.outcomes == [])
    ensures CanCollect(job, taskState, outputs, errors)
  {
    var good := OrderFor(job, true, outputs);
    var bad := OrderFor(job, false, errors);
    OrderOfBoth(job, good, bad);
    BagBelow(good + bad, |job.outcomes|);
    var t := AnyOrder(job, good + bad, seq(|good + bad|, _ => 0));
    CollectedHere(job, t, taskState, outputs, errors);
  }

  lemma CollectedHere(job: Job, t: State, taskState: TaskState, outputs: seq<string>, errors: seq<string>)
    requires Reachable(job, true, t) && t.phase == Returned(Collected) && t.outputs == outputs && t.errors == errors
    requires Refines(job, taskState, outputs, errors)
    ensures CanCollect(job, taskState, outputs, errors)
  {
    var steps :| Runs(job, Init(job), steps, t) && CleanRuns(job, Init(job), steps, t);
    CompletedRunRefinesLoop(job, steps, t);
    assert Stores(t, taskState, outputs, errors);
  }

  lemma CollectedNeedsEndpoints(job: Job, steps: seq<Step>, t: State)
    requires CleanRuns(job, Init(job), steps, t) && t.phase.Returned?
    ensures job.endpoints > 0 || job.outcomes == []
  {
    if job.endpoints == 0 && job.outcomes != [] {
      TaskRunCompletes.CleanRunsAreRuns(job, Init(job), steps, t);
      TaskRunCompletes.NoEndpointsNeverReturns(job, steps, t);
    }
  }

  /**
   * Theorem: the fields completed clean runs leave are exactly those of the sequential loop up to the order of
   * completion: no run leaves others, and every rearrangement is left by some run.
   */
  lemma ResultsExactly(job: Job, taskState: TaskState, outputs: seq<string>, errors: seq<string>)
    ensures CanCollect(job, taskState, outputs, errors)
       <==> Refines(job, taskState, outputs, errors) && (job.endpoints > 0 || job.outcomes == [])
  {
    if CanCollect(job, taskState, outputs, errors) {
      var steps, t :| CleanRuns(job, Init(job), steps, t) && Stores(t, taskState, outputs, errors);
      CompletedRunRefinesLoop(job, steps, t);
      CollectedNeedsEndpoints(job, steps, t);
    } else if Refines(job, taskState, outputs, errors) && (job.endpoints > 0 || job.outcomes == []) {
      CollectsAny(job, taskState, outputs, errors);
    }
  }

  // ----- every way to return -----

  /** All commands have been handled, in the order of their numbers. */
  lemma AllHandled(job: Job) returns (t: State)
    requires job.endpoints > 0 || job.outcomes == []
    ensures Reachable(job, true, t) && !t.panicked && t.phase.AwaitFinish? && t.wg == 0
  {
    ReachAllQueued(job, true);
    t := AllQueued(job);
    if job.endpoints > 0 {
      QueuedIdle(job, 0);
      t := HandleAll(job, true, t, 0, Range(0, |job.outcomes|));
    }
  }

  lemma Cancels(job: Job, first: bool) returns (t: State)
    requires job.endpoints > 0 || job.outcomes == []
    ensures Reachable(job, true, t) && !t.panicked
    ensures t.phase == if first then CreatingOutputConsumer else CreatingErrorConsumer
  {
    var s := AllHandled(job);
    t := Then(job, true, s, Cancel);
    if !first { t := Then(job, true, t, CreateConsumer(true)); }
  }

  /** A run whose first or second result consumer cannot be created returns an error and stores nothing. */
  lemma ConsumerErrorReturned(job: Job, first: bool) returns (t: State)
    requires job.endpoints > 0 || job.outcomes == []
    ensures Reachable(job, true, t) && t.phase.Returned? && GivesError(t.phase.exit)
    ensures t.outputs == [] && t.errors == []
  {
    var m := Cancels(job, first);
    t := Then(job, true, m, CreateConsumer(false));
    var steps :| Runs(job, Init(job), steps, t) && CleanRuns(job, Init(job), steps, t);
    OtherReturnsStoreNothing(job, steps, t);
  }
}
