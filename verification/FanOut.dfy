/**
 * internal/sync/util.go and internal/sync/build.go: goroutines that append to one shared slice. Taking the
 * lock, reading the slice, writing it back and releasing the lock are separate steps, interleaved freely.
 */
module FanOut {
  import opened Bags
  import opened Wrappers

  /** Where a goroutine is: outside ConcurrentAppendToArray, inside it, or past its wg.Done(). */
  datatype Pc<T> = Outside | Locked | Loaded(snapshot: seq<T>) | Stored | Gone

  /** `todo` is what the goroutine has still to append. */
  datatype Goroutine<T> = Goroutine(todo: seq<T>, pc: Pc<T>)

  datatype State<T> = State(lock: Option<nat>, slice: seq<T>, threads: seq<Goroutine<T>>, wg: int)

  datatype Step = Lock(g: nat) | Load(g: nat) | Store(g: nat) | Unlock(g: nat) | Finish(g: nat)

  function Init<T>(jobs: seq<seq<T>>): State<T> {
    State(None, [], Map(jobs, (todo: seq<T>) => Goroutine(todo, Outside)), |jobs|)
  }

  /** With `mutex` false the lock is ignored, as it would be without the critical section. */
  predicate Enabled<T(==)>(s: State<T>, step: Step, mutex: bool) {
    && step.g < |s.threads|
    && var t := s.threads[step.g];
       match step
       case Lock(_) => t.pc.Outside? && t.todo != [] && (mutex ==> s.lock.None?)
       case Load(_) => t.pc.Locked?
       case Store(_) => t.pc.Loaded? && t.todo != []
       case Unlock(_) => t.pc.Stored?
       case Finish(_) => t.pc.Outside? && t.todo == []
  }

  function Apply<T(==)>(s: State<T>, step: Step, mutex: bool): State<T>
    requires Enabled(s, step, mutex)
  {
    var t := s.threads[step.g];
    match step
    case Lock(g) => s.(lock := Some(g), threads := s.threads[g := t.(pc := Locked)])
    case Load(g) => s.(threads := s.threads[g := t.(pc := Loaded(s.slice))])
    case Store(g) =>
      s.(slice := t.pc.snapshot + [t.todo[0]], threads := s.threads[g := Goroutine(t.todo[1..], Stored)])
    case Unlock(g) => s.(lock := None, threads := s.threads[g := t.(pc := Outside)])
    case Finish(g) => s.(wg := s.wg - 1, threads := s.threads[g := t.(pc := Gone)])
  }

  predicate Runs<T(==)>(s: State<T>, steps: seq<Step>, t: State<T>, mutex: bool)
    decreases |steps|
  {
    if steps == [] then s == t
    else Enabled(s, steps[0], mutex) && Runs(Apply(s, steps[0], mutex), steps[1..], t, mutex)
  }

  // ----- the invariant -----

  function TodoOf<T(==)>(t: Goroutine<T>): multiset<T> { multiset(t.todo) }
  function JobOf<T(==)>(todo: seq<T>): multiset<T> { multiset(todo) }

  function ActiveOf<T>(t: Goroutine<T>): nat { if t.pc.Gone? then 0 else 1 }

  predicate Critical<T>(t: Goroutine<T>) {
    t.pc.Locked? || t.pc.Loaded? || t.pc.Stored?
  }

  /** Mutual exclusion, and why it matters: only the holder of the lock can have read the slice. */
  predicate Exclusive<T(==)>(s: State<T>) {
    forall g :: 0 <= g < |s.threads| ==>
      var t := s.threads[g];
      && (Critical(t) <==> s.lock == Some(g))
      && (t.pc.Loaded? ==> t.pc.snapshot == s.slice)
      && (t.pc.Locked? || t.pc.Loaded? ==> t.todo != [])
      && (t.pc.Gone? ==> t.todo == [])
  }

  /** Nothing is lost or duplicated: what is in the slice and what is still to be appended make up the jobs. */
  predicate Complete<T(==)>(jobs: seq<seq<T>>, s: State<T>) {
    multiset(s.slice) + Gather(s.threads, TodoOf) == Gather(jobs, JobOf)
  }

  predicate Inv<T(==)>(jobs: seq<seq<T>>, s: State<T>) {
    && |s.threads| == |jobs|
    && (s.lock.Some? ==> s.lock.value < |s.threads|)
    && Exclusive(s)
    && Complete(jobs, s)
    && s.wg == Total(s.threads, ActiveOf)
  }

  lemma KeepsExclusive<T>(s: State<T>, step: Step)
    requires Exclusive(s) && (s.lock.Some? ==> s.lock.value < |s.threads|) && Enabled(s, step, true)
    ensures Exclusive(Apply(s, step, true))
  {
    var s' := Apply(s, step, true);
    forall g | 0 <= g < |s'.threads| && g != step.g ensures s'.threads[g] == s.threads[g] {
    }
  }

  lemma KeepsComplete<T>(jobs: seq<seq<T>>, s: State<T>, step: Step)
    requires Exclusive(s) && Complete(jobs, s) && Enabled(s, step, true)
    ensures Complete(jobs, Apply(s, step, true))
  {
    var s' := Apply(s, step, true);
    var t, t' := s.threads[step.g], s'.threads[step.g];
    assert s'.threads == s.threads[step.g := t'];
    GatherUpdate(s.threads, step.g, t', TodoOf);
    StepMoves(s, step);
    if step.Store? {
      StoreBalance(multiset(s.slice), Gather(s.threads, TodoOf), Gather(s'.threads, TodoOf), t.todo[0], TodoOf(t'));
    } else {
      Cancel(Gather(s'.threads, TodoOf), Gather(s.threads, TodoOf), TodoOf(t));
    }
  }

  /** Storing moves one element from the goroutine to the slice; no other step moves any. */
  lemma StepMoves<T>(s: State<T>, step: Step)
    requires Exclusive(s) && Enabled(s, step, true)
    ensures var s', t := Apply(s, step, true), s.threads[step.g];
            if step.Store?
            then multiset(s'.slice) == multiset(s.slice) + multiset{t.todo[0]}
                 && TodoOf(t) == multiset{t.todo[0]} + TodoOf(s'.threads[step.g])
            else s'.slice == s.slice && TodoOf(s'.threads[step.g]) == TodoOf(t)
  {
    var t := s.threads[step.g];
    if step.Store? {
      assert t.todo == [t.todo[0]] + t.todo[1..];
      assert Apply(s, step, true).slice == s.slice + [t.todo[0]];
    }
  }

  lemma Cancel<T>(a: multiset<T>, b: multiset<T>, c: multiset<T>)
    requires a + c == b + c
    ensures a == b
  {
    forall y: T ensures a[y] == b[y] {
      assert (a + c)[y] == (b + c)[y];
    }
  }

  lemma StoreBalance<T>(slice: multiset<T>, before: multiset<T>, after: multiset<T>, x: T, rest: multiset<T>)
    requires after + (multiset{x} + rest) == before + rest
    ensures slice + multiset{x} + after == slice + before
  {
    forall y: T ensures (slice + multiset{x} + after)[y] == (slice + before)[y] {
      assert (after + (multiset{x} + rest))[y] == (before + rest)[y];
    }
  }

  lemma KeepsInv<T>(jobs: seq<seq<T>>, s: State<T>, step: Step)
    requires Inv(jobs, s) && Enabled(s, step, true)
    ensures Inv(jobs, Apply(s, step, true))
  {
    KeepsExclusive(s, step);
    KeepsComplete(jobs, s, step);
    TotalUpdate(s.threads, step.g, Apply(s, step, true).threads[step.g], ActiveOf);
  }

  lemma {:induction false} InitSums<T>(jobs: seq<seq<T>>, threads: seq<Goroutine<T>>)
    requires |threads| == |jobs| && forall g :: 0 <= g < |jobs| ==> threads[g] == Goroutine(jobs[g], Outside)
    ensures Gather(threads, TodoOf) == Gather(jobs, JobOf)
    ensures Total(threads, ActiveOf) == |jobs|
  {
    if jobs != [] {
      InitSums(jobs[..|jobs| - 1], threads[..|jobs| - 1]);
    }
  }

  lemma InitInv<T>(jobs: seq<seq<T>>)
    ensures Inv(jobs, Init(jobs))
  {
    InitSums(jobs, Init(jobs).threads);
  }

  lemma {:induction false} RunKeepsInv<T>(jobs: seq<seq<T>>, s: State<T>, steps: seq<Step>, t: State<T>)
    requires Inv(jobs, s) && Runs(s, steps, t, true)
    ensures Inv(jobs, t)
    decreases |steps|
  {
    if steps != [] {
      KeepsInv(jobs, s, steps[0]);
      RunKeepsInv(jobs, Apply(s, steps[0], true), steps[1..], t);
    }
  }

  // ----- the theorems -----

  /** Theorem: whatever the interleaving, after wg.Wait() the slice is the bag sum of all contributions. */
  lemma NoLostUpdate<T>(jobs: seq<seq<T>>, steps: seq<Step>, t: State<T>)
    requires Runs(Init(jobs), steps, t, true) && t.wg == 0
    ensures multiset(t.slice) == Gather(jobs, JobOf)
    ensures t.lock.None?
  {
    InitInv(jobs);
    RunKeepsInv(jobs, Init(jobs), steps, t);
    if t.lock.Some? { HolderInside(jobs, t); }
    TotalZero(t.threads, ActiveOf);
    forall g | 0 <= g < |t.threads| ensures t.threads[g].pc.Gone? && TodoOf(t.threads[g]) == multiset{} {
      assert ActiveOf(t.threads[g]) == 0;
    }
    GatherNone(t.threads, TodoOf);
  }

  lemma HolderInside<T>(jobs: seq<seq<T>>, s: State<T>)
    requires Inv(jobs, s) && s.lock.Some?
    ensures s.lock.value < |s.threads| && Critical(s.threads[s.lock.value])
  {
  }

  /** How many steps a goroutine still has to take. */
  function StepsLeft<T>(t: Goroutine<T>): nat {
    var pc := match t.pc
              case Outside => 2
              case Locked => 1
              case Loaded(_) => 0
              case Stored => 3
              case Gone => 0;
    5 * |t.todo| + pc
  }

  /** Theorem: the mutex causes no deadlock, and every step brings the end nearer. */
  lemma Progress<T>(jobs: seq<seq<T>>, steps: seq<Step>, t: State<T>)
    returns (step: Step)
    requires Runs(Init(jobs), steps, t, true) && t.wg != 0
    ensures Enabled(t, step, true)
    ensures Total(Apply(t, step, true).threads, StepsLeft) < Total(t.threads, StepsLeft)
  {
    InitInv(jobs);
    RunKeepsInv(jobs, Init(jobs), steps, t);
    step := SomeStep(jobs, t);
    StepShortens(jobs, t, step);
  }

  lemma SomeStep<T>(jobs: seq<seq<T>>, s: State<T>) returns (step: Step)
    requires Inv(jobs, s) && s.wg != 0
    ensures Enabled(s, step, true)
  {
    if s.lock.Some? {
      var g := s.lock.value;
      assert Critical(s.threads[g]);
      match s.threads[g].pc {
        case Locked => return Load(g);
        case Loaded(_) => return Store(g);
        case Stored => return Unlock(g);
      }
    } else {
      var g := SomePositive(s.threads, ActiveOf);
      assert !Critical(s.threads[g]);
      step := if s.threads[g].todo == [] then Finish(g) else Lock(g);
    }
  }

  lemma StepShortens<T>(jobs: seq<seq<T>>, s: State<T>, step: Step)
    requires Inv(jobs, s) && Enabled(s, step, true)
    ensures Total(Apply(s, step, true).threads, StepsLeft) < Total(s.threads, StepsLeft)
  {
    TotalUpdate(s.threads, step.g, Apply(s, step, true).threads[step.g], StepsLeft);
  }

  /** Every run can go on until all goroutines are past their wg.Done(). */
  lemma {:induction false} CanFinish<T>(jobs: seq<seq<T>>, s: State<T>) returns (steps: seq<Step>, t: State<T>)
    requires Inv(jobs, s)
    ensures Runs(s, steps, t, true) && t.wg == 0
    decreases Total(s.threads, StepsLeft)
  {
    if s.wg == 0 {
      return [], s;
    }
    var step := SomeStep(jobs, s);
    KeepsInv(jobs, s, step);
    StepShortens(jobs, s, step);
    var rest;
    rest, t := CanFinish(jobs, Apply(s, step, true));
    steps := [step] + rest;
    assert steps[1..] == rest;
  }

  // ----- every order of appends -----

  /** The goroutines can append in this order: each is named as long as it has something left. */
  predicate Feasible<T(==)>(todos: seq<seq<T>>, order: seq<nat>)
    decreases |order|
  {
    order != [] ==>
      && order[0] < |todos| && todos[order[0]] != []
      && Feasible(Served(todos, order[0]), order[1..])
  }

  function Served<T>(todos: seq<seq<T>>, g: nat): seq<seq<T>>
    requires g < |todos| && todos[g] != []
  {
    todos[g := todos[g][1..]]
  }

  /** What is appended in this order, and what is left then. */
  function Merged<T(==)>(todos: seq<seq<T>>, order: seq<nat>): seq<T>
    requires Feasible(todos, order)
    decreases |order|
  {
    if order == [] then [] else [todos[order[0]][0]] + Merged(Served(todos, order[0]), order[1..])
  }

  function Left<T(==)>(todos: seq<seq<T>>, order: seq<nat>): seq<seq<T>>
    requires Feasible(todos, order)
    decreases |order|
  {
    if order == [] then todos else Left(Served(todos, order[0]), order[1..])
  }

  /** No goroutine is inside, none has finished. */
  function Waiting<T>(todos: seq<seq<T>>, slice: seq<T>): State<T> {
    State(None, slice, Map(todos, (todo: seq<T>) => Goroutine(todo, Outside)), |todos|)
  }

  lemma RunsStep<T>(s: State<T>, step: Step, rest: seq<Step>, t: State<T>)
    requires Enabled(s, step, true) && Runs(Apply(s, step, true), rest, t, true)
    ensures Runs(s, [step] + rest, t, true)
  {
    assert ([step] + rest)[1..] == rest;
  }

  lemma AppendsNext<T>(todos: seq<seq<T>>, slice: seq<T>, g: nat, rest: seq<Step>, t: State<T>)
    returns (steps: seq<Step>)
    requires g < |todos| && todos[g] != []
    requires Runs(Waiting(Served(todos, g), slice + [todos[g][0]]), rest, t, true)
    ensures Runs(Waiting(todos, slice), steps, t, true)
  {
    var s := Waiting(todos, slice);
    var locked := Apply(s, Lock(g), true);
    var loaded := Apply(locked, Load(g), true);
    var stored := Apply(loaded, Store(g), true);
    assert Apply(stored, Unlock(g), true).threads == Waiting(Served(todos, g), slice + [todos[g][0]]).threads;
    RunsStep(stored, Unlock(g), rest, t);
    RunsStep(loaded, Store(g), [Unlock(g)] + rest, t);
    RunsStep(locked, Load(g), [Store(g)] + ([Unlock(g)] + rest), t);
    RunsStep(s, Lock(g), [Load(g)] + ([Store(g)] + ([Unlock(g)] + rest)), t);
    steps := [Lock(g)] + ([Load(g)] + ([Store(g)] + ([Unlock(g)] + rest)));
  }

  lemma {:induction false} AppendsInOrder<T>(todos: seq<seq<T>>, slice: seq<T>, order: seq<nat>)
    returns (steps: seq<Step>)
    requires Feasible(todos, order)
    ensures Runs(Waiting(todos, slice), steps, Waiting(Left(todos, order), slice + Merged(todos, order)), true)
    decreases |order|
  {
    if order == [] {
      steps := [];
      assert slice + [] == slice;
    } else {
      var x, rest := todos[order[0]][0], Served(todos, order[0]);
      steps := AppendsInOrder(rest, slice + [x], order[1..]);
      assert slice + [x] + Merged(rest, order[1..]) == slice + ([x] + Merged(rest, order[1..]));
      steps := AppendsNext(todos, slice, order[0], steps, Waiting(Left(todos, order), slice + Merged(todos, order)));
    }
  }

  lemma {:induction false} RunsConcat<T>(s: State<T>, a: seq<Step>, m: State<T>, b: seq<Step>, t: State<T>)
    requires Runs(s, a, m, true) && Runs(m, b, t, true)
    ensures Runs(s, a + b, t, true)
    decreases |a|
  {
    if a == [] {
      assert a + b == b;
    } else {
      RunsConcat(Apply(s, a[0], true), a[1..], m, b, t);
      assert (a + b)[0] == a[0] && (a + b)[1..] == a[1..] + b;
    }
  }

  /** All goroutines have appended what they had, and are outside or past their wg.Done(). */
  predicate AllServed<T(==)>(s: State<T>) {
    forall g :: 0 <= g < |s.threads| ==> s.threads[g].todo == [] && (s.threads[g].pc.Outside? || s.threads[g].pc.Gone?)
  }

  lemma {:induction false} NothingMore<T>(s: State<T>, steps: seq<Step>, t: State<T>)
    requires AllServed(s) && Runs(s, steps, t, true)
    ensures t.slice == s.slice
    decreases |steps|
  {
    if steps != [] {
      NothingMore(Apply(s, steps[0], true), steps[1..], t);
    }
  }

  /** Theorem: every feasible order of appends is the order of the slice after some run. */
  lemma AnyOrder<T>(jobs: seq<seq<T>>, order: seq<nat>) returns (steps: seq<Step>, t: State<T>)
    requires Feasible(jobs, order)
    requires forall g :: 0 <= g < |Left(jobs, order)| ==> Left(jobs, order)[g] == []
    ensures Runs(Init(jobs), steps, t, true) && t.wg == 0
    ensures t.slice == Merged(jobs, order)
  {
    var s := Waiting(Left(jobs, order), [] + Merged(jobs, order));
    steps := AppendsInOrder(jobs, [], order);
    InitInv(jobs);
    RunKeepsInv(jobs, Init(jobs), steps, s);
    var rest;
    rest, t := CanFinish(jobs, s);
    NothingMore(s, rest, t);
    RunsConcat(Init(jobs), steps, s, rest, t);
    steps := steps + rest;
  }

  // ----- without the mutex -----

  ghost predicate Reachable<T>(s: State<T>, t: State<T>) {
    exists steps :: Runs(s, steps, t, false)
  }

  lemma {:induction false} OneMore<T>(s: State<T>, steps: seq<Step>, t: State<T>, step: Step)
    requires Runs(s, steps, t, false) && Enabled(t, step, false)
    ensures Runs(s, steps + [step], Apply(t, step, false), false)
    decreases |steps|
  {
    if steps == [] {
      assert Runs(Apply(s, step, false), [], Apply(t, step, false), false);
      assert [step][1..] == [];
    } else {
      OneMore(Apply(s, steps[0], false), steps[1..], t, step);
      assert (steps + [step])[1..] == steps[1..] + [step];
    }
  }

  /** Goroutine g of two takes a step of its own. */
  lemma Then<T>(s0: State<T>, s: State<T>, step: Step, slice: seq<T>, mine: Goroutine<T>, lock: Option<nat>, wg: int)
    returns (t: State<T>)
    requires Reachable(s0, s) && Enabled(s, step, false)
    requires Apply(s, step, false) == State(lock, slice, s.threads[step.g := mine], wg)
    ensures Reachable(s0, t) && t == State(lock, slice, s.threads[step.g := mine], wg)
  {
    var steps :| Runs(s0, steps, s, false);
    OneMore(s0, steps, s, step);
    t := Apply(s, step, false);
  }

  /** Goroutine g enters, whoever else is inside, and reads the slice. */
  lemma EntersAndReads<T>(s0: State<T>, s: State<T>, g: nat, x: T) returns (t: State<T>)
    requires Reachable(s0, s) && g < |s.threads| && s.threads[g] == Goroutine([x], Outside)
    ensures Reachable(s0, t)
    ensures t == s.(lock := Some(g), threads := s.threads[g := Goroutine([x], Loaded(s.slice))])
  {
    t := Then(s0, s, Lock(g), s.slice, Goroutine([x], Locked), Some(g), s.wg);
    t := Then(s0, t, Load(g), s.slice, Goroutine([x], Loaded(s.slice)), Some(g), s.wg);
  }

  /** Goroutine g writes what it read with its element appended, leaves and finishes. */
  lemma WritesAndLeaves<T>(s0: State<T>, s: State<T>, g: nat, x: T, read: seq<T>) returns (t: State<T>)
    requires Reachable(s0, s) && g < |s.threads| && s.threads[g] == Goroutine([x], Loaded(read))
    ensures Reachable(s0, t)
    ensures t == State(None, read + [x], s.threads[g := Goroutine([], Gone)], s.wg - 1)
  {
    assert [x][1..] == [];
    t := Then(s0, s, Store(g), read + [x], Goroutine([], Stored), s.lock, s.wg);
    t := Then(s0, t, Unlock(g), read + [x], Goroutine([], Outside), None, s.wg);
    t := Then(s0, t, Finish(g), read + [x], Goroutine([], Gone), None, s.wg - 1);
  }

  /** Without the lock an update is lost: two goroutines append an element each, and one element is left. */
  lemma LostWithoutMutex<T>(x: T, y: T) returns (t: State<T>)
    ensures Reachable(Init([[x], [y]]), t) && t.wg == 0 && t.slice == [y]
  {
    var s0 := Init([[x], [y]]);
    assert Runs(s0, [], s0, false);
    t := EntersAndReads(s0, s0, 0, x);
    t := EntersAndReads(s0, t, 1, y);
    t := WritesAndLeaves(s0, t, 0, x, []);
    t := WritesAndLeaves(s0, t, 1, y, []);
  }
}
