/** internal/mq/publish.go: publishing with a bounded, backing-off retry against a direct exchange. */
module Publish {

  const MAX_RETRIES: nat := 10

  /** Milliseconds. */
  const INITIAL_BACKOFF: nat := 500

  // ----- the retry protocol, as other modules see a call in progress -----

  type Try = k: nat | k < MAX_RETRIES

  /** A call of PublishWithRetry: about to make attempt `attempt`, or settled but not yet returned. */
  datatype Call = Trying(attempt: Try) | Accepted | GaveUp

  /**
   * What becomes of one attempt: a send error or a timely return, a copy in a queue, or no copy and no timely return,
   * which the call takes for success.
   */
  datatype Verdict = Denied | Landed | Vanished

  function AfterAttempt(call: Call, verdict: Verdict): Call
    requires call.Trying?
  {
    if !verdict.Denied? then Accepted
    else if call.attempt + 1 < MAX_RETRIES then Trying(call.attempt + 1)
    else GaveUp
  }

  /** The call after the attempts `tries`; attempts after the call has settled are not made. */
  function Settle(call: Call, tries: seq<Verdict>): Call
    decreases |tries|
  {
    if !call.Trying? || tries == [] then call else Settle(AfterAttempt(call, tries[0]), tries[1..])
  }

  // ----- the broker -----

  /** A queue bound to the exchange under a routing key. */
  datatype Binding = Binding(queue: string, key: string)

  /** AMQP 0-9-1, section 3.1.3.1: a direct exchange passes a message to the queues bound under its own key. */
  function Targets(bindings: set<Binding>, key: string): set<string> {
    set b | b in bindings && b.key == key :: b.queue
  }

  /** Some queue is bound under the key. */
  predicate Bound(bindings: set<Binding>, key: string) {
    exists b :: b in bindings && b.key == key
  }

  /** What queue q holds; nothing if it does not exist. */
  function Messages(queues: map<string, seq<string>>, q: string): seq<string> {
    if q in queues then queues[q] else []
  }

  /** One more copy of `body` in exactly the queues bound under the key, and no other change. */
  ghost predicate RoutedByKey(before: map<string, seq<string>>, after: map<string, seq<string>>,
                              bindings: set<Binding>, key: string, body: string) {
    && (forall q :: Binding(q, key) in bindings ==> q in after && after[q] == Messages(before, q) + [body])
    && (forall q :: Binding(q, key) !in bindings ==>
          (q in after <==> q in before) && Messages(after, q) == Messages(before, q))
  }

  lemma TargetsExactly(bindings: set<Binding>, key: string)
    ensures forall q :: q in Targets(bindings, key) <==> Binding(q, key) in bindings
    ensures Targets(bindings, key) == {} <==> !Bound(bindings, key)
  {
    forall b | b in bindings && b.key == key ensures b.queue in Targets(bindings, key) && b == Binding(b.queue, key) {
    }
  }

  lemma DeliveredByKey(queues: map<string, seq<string>>, bindings: set<Binding>, key: string, body: string)
    ensures RoutedByKey(queues, Delivered(queues, Targets(bindings, key), body), bindings, key, body)
  {
    TargetsExactly(bindings, key);
    forall q ensures Messages(queues, q) + [] == Messages(queues, q) {
    }
  }

  /** The queues after one copy of `body` has been added to each target. */
  function Delivered(queues: map<string, seq<string>>, targets: set<string>, body: string): map<string, seq<string>> {
    map q | q in queues.Keys + targets ::
      (if q in queues then queues[q] else []) + (if q in targets then [body] else [])
  }

  lemma DeliveredNowhere(queues: map<string, seq<string>>, body: string)
    ensures Delivered(queues, {}, body) == queues
  {
    forall q | q in queues ensures Delivered(queues, {}, body)[q] == queues[q] {
      assert queues[q] + [] == queues[q];
    }
    assert Delivered(queues, {}, body).Keys == queues.Keys;
  }

  class Broker {
    var bindings: set<Binding>
    var queues: map<string, seq<string>>

    constructor ()
      ensures bindings == {} && queues == map[]
    {
      bindings, queues := {}, map[];
    }

    /** A mandatory publish: a message that reaches no queue is returned to the sender. */
    method Route(key: string, body: string) returns (unroutable: bool)
      modifies this`queues
      ensures unroutable <==> !Bound(bindings, key)
      ensures RoutedByKey(old(queues), queues, bindings, key, body)
      ensures queues == Delivered(old(queues), Targets(bindings, key), body)
    {
      TargetsExactly(bindings, key);
      DeliveredByKey(queues, bindings, key, body);
      var targets := Targets(bindings, key);
      queues := Delivered(queues, targets, body);
      unroutable := targets == {};
    }
  }

  // ----- the environment of a call -----

  /**
   * What one attempt meets: whether the send itself fails, which queues are bound at that moment,
   * and whether the return of an unroutable message comes after the one-millisecond check.
   */
  datatype Attempt = Attempt(sendFails: bool, bindings: set<Binding>, returnLate: bool)

  /** The check sees neither an error nor a return, so the call returns nil. */
  predicate Passes(a: Attempt, key: string) {
    !a.sendFails && (Targets(a.bindings, key) == {} ==> a.returnLate)
  }

  /** The attempt is sent while no queue is bound, and its return comes after the check. */
  predicate Misjudged(a: Attempt, key: string) {
    !a.sendFails && Targets(a.bindings, key) == {} && a.returnLate
  }

  /** The attempt is sent while a queue is bound. */
  predicate Routed(a: Attempt, key: string) {
    !a.sendFails && Targets(a.bindings, key) != {}
  }

  function VerdictOf(a: Attempt, key: string): Verdict {
    if Routed(a, key) then Landed else if Misjudged(a, key) then Vanished else Denied
  }

  /** The first attempt from k on that passes, or |env| when none does. */
  function FirstPass(env: seq<Attempt>, key: string, k: nat): (j: nat)
    requires k <= |env|
    ensures k <= j <= |env|
    ensures forall i :: k <= i < j ==> !Passes(env[i], key)
    ensures j < |env| ==> Passes(env[j], key)
    decreases |env| - k
  {
    if k == |env| || Passes(env[k], key) then k else FirstPass(env, key, k + 1)
  }

  /** Whether the call returns nil. */
  predicate ReturnsNil(env: seq<Attempt>, key: string) {
    FirstPass(env, key, 0) < |env|
  }

  /** How many copies of the message the call puts into queues: one per target of the attempt that passes. */
  function Copies(env: seq<Attempt>, key: string): nat {
    var k := FirstPass(env, key, 0);
    if k < |env| then |Targets(env[k].bindings, key)| else 0
  }

  /** The queues after the call: delivered to where the attempt that passes routes the message, or as before. */
  function QueuesAfter(queues: map<string, seq<string>>, env: seq<Attempt>, key: string, body: string)
    : map<string, seq<string>>
  {
    var k := FirstPass(env, key, 0);
    if k < |env| then Delivered(queues, Targets(env[k].bindings, key), body) else queues
  }

  // ----- the retry loop -----

  function Pow2(k: nat): (p: nat)
    ensures p >= 1
  {
    if k == 0 then 1 else 2 * Pow2(k - 1)
  }

  function Sum(s: seq<nat>): nat {
    if s == [] then 0 else Sum(s[..|s| - 1]) + s[|s| - 1]
  }

  /** The pauses after the first k attempts: a doubling backoff. */
  function Pauses(k: nat): seq<nat> {
    seq(k, j requires 0 <= j < k => INITIAL_BACKOFF * Pow2(j))
  }

  lemma NextPause(k: nat)
    ensures Pauses(k) + [INITIAL_BACKOFF * Pow2(k)] == Pauses(k + 1)
  {
  }

  datatype LastError = None | SendFailed | Unroutable

  /** nil, or the error that names the number of attempts and the last failure. */
  datatype Result = Nil | Failed(attempts: nat, last: LastError)

  /** The attempt is sent, and some queue is bound under the key or the return comes too late to be seen. */
  predicate Accepting(a: Attempt, key: string) {
    !a.sendFails && (Bound(a.bindings, key) || a.returnLate)
  }

  class Publisher {
    const broker: Broker

    constructor (broker: Broker)
      ensures this.broker == broker
    {
      this.broker := broker;
    }

    /**
     * `env` gives what each of the ten attempts would meet; between attempts other clients may bind
     * or unbind queues, so the bindings are taken from it afresh. `slept` lists the pauses made.
     */
    method PublishWithRetry(key: string, body: string, env: seq<Attempt>) returns (result: Result, slept: seq<nat>)
      requires |env| == MAX_RETRIES
      modifies broker
      ensures result.Nil? == ReturnsNil(env, key)
      ensures slept == Pauses(FirstPass(env, key, 0))
      ensures Sum(slept) == INITIAL_BACKOFF * (Pow2(|slept|) - 1)
      ensures forall j :: 0 <= j < |slept| ==> !Accepting(env[j], key)
      ensures result.Nil? ==>
                && |slept| < MAX_RETRIES && Accepting(env[|slept|], key)
                && RoutedByKey(old(broker.queues), broker.queues, env[|slept|].bindings, key, body)
      ensures result.Failed? ==> |slept| == MAX_RETRIES && broker.queues == old(broker.queues)
      ensures broker.queues == QueuesAfter(old(broker.queues), env, key, body)
      ensures result.Failed? ==>
                result == Failed(MAX_RETRIES, if env[MAX_RETRIES - 1].sendFails then SendFailed else Unroutable)
    {
      var lastErr := None;
      var backoff := INITIAL_BACKOFF;
      var attempt := 0;
      slept := [];
      while attempt < MAX_RETRIES
        invariant attempt <= MAX_RETRIES
        invariant FirstPass(env, key, attempt) == FirstPass(env, key, 0)
        invariant backoff == INITIAL_BACKOFF * Pow2(attempt)
        invariant slept == Pauses(attempt)
        invariant forall j :: 0 <= j < attempt ==> !Accepting(env[j], key)
        invariant broker.queues == old(broker.queues)
        invariant attempt > 0 ==> lastErr == if env[attempt - 1].sendFails then SendFailed else Unroutable
      {
        var now := env[attempt];
        TargetsExactly(now.bindings, key);
        broker.bindings := now.bindings;
        if now.sendFails {
          lastErr := SendFailed;
        } else {
          var unroutable := broker.Route(key, body);
          if !unroutable || now.returnLate {
            PauseSum(attempt);
            return Nil, slept;
          }
          DeliveredNowhere(old(broker.queues), body);
          lastErr := Unroutable;
        }
        NextPause(attempt);
        slept := slept + [backoff];
        backoff := backoff * 2;
        attempt := attempt + 1;
      }
      PauseSum(attempt);
      return Failed(MAX_RETRIES, lastErr), slept;
    }
  }

  // ----- what a nil result is worth -----

  /** Every return of an unroutable message arrives before the check gives up waiting for it. */
  predicate Timely(env: seq<Attempt>) {
    forall k :: 0 <= k < |env| ==> !env[k].returnLate
  }

  /** The key never reaches more than one queue. */
  predicate OneQueuePerKey(env: seq<Attempt>, key: string) {
    forall k :: 0 <= k < |env| ==> |Targets(env[k].bindings, key)| <= 1
  }

  /** At most one copy, and nil exactly when there is one, however the bindings change between attempts. */
  lemma ExactlyOnce(env: seq<Attempt>, key: string)
    requires Timely(env) && OneQueuePerKey(env, key)
    ensures Copies(env, key) <= 1
    ensures ReturnsNil(env, key) <==> Copies(env, key) == 1
    ensures ReturnsNil(env, key) <==>
            exists k :: 0 <= k < |env| && !env[k].sendFails && Targets(env[k].bindings, key) != {}
  {
    var k := FirstPass(env, key, 0);
    if k < |env| {
      assert Passes(env[k], key) && Targets(env[k].bindings, key) != {};
    } else {
      forall i | 0 <= i < |env| ensures env[i].sendFails || Targets(env[i].bindings, key) == {} {
        assert !Passes(env[i], key);
      }
    }
  }

  /** The queues with one more message in queue q. */
  function Enqueued(queues: map<string, seq<string>>, q: string, body: string): map<string, seq<string>> {
    queues[q := (if q in queues then queues[q] else []) + [body]]
  }

  lemma OnlyMember(targets: set<string>) returns (q: string)
    requires |targets| <= 1 && targets != {}
    ensures targets == {q}
  {
    q :| q in targets;
    assert |targets - {q}| == 0;
  }

  lemma DeliveredToOne(queues: map<string, seq<string>>, q: string, body: string)
    ensures Delivered(queues, {q}, body) == Enqueued(queues, q, body)
  {
    var after := Delivered(queues, {q}, body);
    forall p | p in queues && p != q ensures after[p] == queues[p] {
      assert queues[p] + [] == queues[p];
    }
  }

  /**
   * The same on the queues themselves: nil exactly when one queue has got the message once and no other queue has
   * changed; otherwise no queue has.
   */
  lemma OneCopyInOneQueue(queues: map<string, seq<string>>, env: seq<Attempt>, key: string, body: string)
    requires Timely(env) && OneQueuePerKey(env, key)
    ensures ReturnsNil(env, key) <==> exists q :: QueuesAfter(queues, env, key, body) == Enqueued(queues, q, body)
    ensures !ReturnsNil(env, key) <==> QueuesAfter(queues, env, key, body) == queues
  {
    var after := QueuesAfter(queues, env, key, body);
    forall q ensures Enqueued(queues, q, body) != queues {
      var old_ := if q in queues then queues[q] else [];
      assert |Enqueued(queues, q, body)[q]| == |old_| + 1;
    }
    if ReturnsNil(env, key) {
      var k := FirstPass(env, key, 0);
      var q := OnlyMember(Targets(env[k].bindings, key));
      DeliveredToOne(queues, q, body);
    }
  }

  /** No attempt is misjudged before one is routed. */
  predicate RoutedFirst(env: seq<Attempt>, key: string) {
    forall k :: 0 <= k < |env| && Misjudged(env[k], key) ==> exists i :: 0 <= i < k && Routed(env[i], key)
  }

  /** An attempt ends the call either because it is routed or because it is misjudged. */
  lemma PassesExactly(a: Attempt, key: string)
    ensures Passes(a, key) <==> Routed(a, key) || Misjudged(a, key)
  {
  }

  /** The attempt that ends the call is misjudged if and only if some misjudged one comes before every routed one. */
  lemma FirstIsRouted(env: seq<Attempt>, key: string)
    ensures ReturnsNil(env, key) && Misjudged(env[FirstPass(env, key, 0)], key) <==> !RoutedFirst(env, key)
  {
    var first := FirstPass(env, key, 0);
    if first < |env| && Misjudged(env[first], key) {
      forall i | 0 <= i < first ensures !Routed(env[i], key) {
        PassesExactly(env[i], key);
      }
    } else {
      forall k | 0 <= k < |env| && Misjudged(env[k], key) ensures exists i :: 0 <= i < k && Routed(env[i], key) {
        assert Passes(env[k], key);
        PassesExactly(env[first], key);
      }
    }
  }

  /**
   * Theorem: the call reports success for a message it has put into no queue if and only if an attempt is sent with
   * no queue bound and a late return, and none before it was sent with a queue bound.
   */
  lemma LostExactly(queues: map<string, seq<string>>, env: seq<Attempt>, key: string, body: string)
    ensures ReturnsNil(env, key) && QueuesAfter(queues, env, key, body) == queues <==> !RoutedFirst(env, key)
  {
    FirstIsRouted(env, key);
    if ReturnsNil(env, key) {
      var targets := Targets(env[FirstPass(env, key, 0)].bindings, key);
      if targets == {} {
        DeliveredNowhere(queues, body);
      } else {
        DeliveredSomewhere(queues, targets, body);
      }
    }
  }

  lemma DeliveredSomewhere(queues: map<string, seq<string>>, targets: set<string>, body: string)
    requires targets != {}
    ensures Delivered(queues, targets, body) != queues
  {
    var q :| q in targets;
    assert |Delivered(queues, targets, body)[q]| == |if q in queues then queues[q] else []| + 1;
  }

  /** So, where no key names two queues, nil means exactly one copy if and only if no misjudged attempt comes first. */
  lemma ExactlyOnceExactly(env: seq<Attempt>, key: string)
    requires OneQueuePerKey(env, key)
    ensures (ReturnsNil(env, key) <==> Copies(env, key) == 1) <==> RoutedFirst(env, key)
  {
    FirstIsRouted(env, key);
    if ReturnsNil(env, key) {
      PassesExactly(env[FirstPass(env, key, 0)], key);
    }
  }

  /** A late return makes the call report success for a message no queue received. */
  lemma LateReturnLosesMessage(rest: seq<Attempt>, key: string)
    ensures var env := [Attempt(false, {}, true)] + rest; ReturnsNil(env, key) && Copies(env, key) == 0
  {
    var env := [Attempt(false, {}, true)] + rest;
    assert Passes(env[0], key);
  }

  lemma {:induction false} PauseSum(k: nat)
    ensures Sum(Pauses(k)) == INITIAL_BACKOFF * (Pow2(k) - 1)
  {
    if k > 0 {
      PauseSum(k - 1);
      assert Pauses(k)[..k - 1] == Pauses(k - 1);
    }
  }

  lemma {:induction false} Pow2Grows(j: nat, k: nat)
    requires j < k
    ensures Pow2(j) < Pow2(k)
  {
    if j < k - 1 { Pow2Grows(j, k - 1); }
  }

  /** A call pauses for 511 500 milliseconds in all if and only if it gives up; one that returns nil pauses less. */
  lemma ExhaustionPause(env: seq<Attempt>, key: string)
    requires |env| == MAX_RETRIES
    ensures var total := Sum(Pauses(FirstPass(env, key, 0)));
            total <= 511500 && (total == 511500 <==> !ReturnsNil(env, key))
  {
    var k := FirstPass(env, key, 0);
    PauseSum(k);
    if k < MAX_RETRIES { Pow2Grows(k, MAX_RETRIES); }
    assert Pow2(5) == 32;
    assert Pow2(10) == 32 * Pow2(5);
  }

  /** The attempts, as the protocol above sees them. */
  function Verdicts(env: seq<Attempt>, key: string): seq<Verdict> {
    seq(|env|, k requires 0 <= k < |env| => VerdictOf(env[k], key))
  }

  /** The verdict that settles a call; Denied when none does. */
  function Decisive(tries: seq<Verdict>): Verdict
    decreases |tries|
  {
    if tries == [] then Denied else if tries[0].Denied? then Decisive(tries[1..]) else tries[0]
  }

  /** The protocol seen by other modules settles as the loop does. */
  lemma {:induction false} CallSettles(env: seq<Attempt>, key: string, k: Try)
    requires |env| == MAX_RETRIES
    ensures Settle(Trying(k), Verdicts(env, key)[k..])
         == if FirstPass(env, key, k) < MAX_RETRIES then Accepted else GaveUp
    ensures Decisive(Verdicts(env, key)[k..])
         == if FirstPass(env, key, k) < MAX_RETRIES then VerdictOf(env[FirstPass(env, key, k)], key) else Denied
    decreases MAX_RETRIES - k
  {
    var tries := Verdicts(env, key)[k..];
    assert tries[0] == VerdictOf(env[k], key) && tries[1..] == Verdicts(env, key)[k + 1..];
    if !Passes(env[k], key) {
      if k + 1 < MAX_RETRIES {
        CallSettles(env, key, k + 1);
      } else {
        assert tries[1..] == [];
      }
    }
  }

  /**
   * The verdict a call settles by: Vanished exactly when the call loses its message, Denied exactly when it returns
   * an error.
   */
  lemma DecisiveExactly(env: seq<Attempt>, key: string)
    requires |env| == MAX_RETRIES
    ensures Decisive(Verdicts(env, key)).Vanished? <==> !RoutedFirst(env, key)
    ensures Decisive(Verdicts(env, key)).Denied? <==> !ReturnsNil(env, key)
  {
    assert Verdicts(env, key)[0..] == Verdicts(env, key);
    CallSettles(env, key, 0);
    FirstIsRouted(env, key);
  }
}
