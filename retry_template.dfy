/** Bounded retry of an operation that may fail with an optimistic-lock
    conflict (watchmen/pipeline/core/retry/retry_template.py).

    The wrapped operation is modelled as a script: `operation(k)` is what its
    k-th call (counting from 0) does. The sleeps, the calls of the operation and
    the call of the recovery callback are recorded as a list of events. */
module RetryTemplate {
  import opened Common

  /** `RetryPolicy`: how many retries follow the first call. */
  datatype RetryPolicy = RetryPolicy(maxAttempts: int)

  const DefaultRetryPolicy: RetryPolicy := RetryPolicy(3)

  /** `BackoffPolicy`: how many seconds one backoff sleeps. */
  datatype BackoffPolicy = BackoffPolicy(sleep: int)

  const DefaultBackoffPolicy: BackoffPolicy := BackoffPolicy(1)

  /** What one call of the wrapped operation does: return a value, raise
      `OptimisticLockError`, or raise any other exception. */
  datatype Attempt<T> = Succeeded(value: T) | Conflict | Failed(error: string)

  /** The observable effects of `execute`, in the order they happen. */
  datatype Event = Invoked | Slept(seconds: int) | Recovered

  /** What a call of the recovery callback does: return a value or raise. */
  datatype Callback<R> = Returns(value: R) | Raises(error: string)

  /** The closure `retry_template` returns: the operation, what the recovery
      callback does when called, and the policy. */
  datatype Execution<T, R> = Execution(operation: nat -> Attempt<T>, recovery: Callback<R>, policy: RetryPolicy)

  /** What `execute` does for its caller: return a value (Python's `None` is
      `Returned(None)`), or let an exception escape. */
  datatype ExecResult<R> = Returned(value: Option<R>) | Raised(error: string)

  /** How the `while need_retry` loop ended, with the final `count_`:
      `Stopped` when it left normally (`exhausted` when the last call conflicted
      and `retry_or_not` refused another try), `Escaped` when a non-conflict
      exception left `execute`. */
  datatype LoopEnd = Stopped(count: nat, exhausted: bool) | Escaped(error: string, count: nat)

  datatype LoopRun = LoopRun(events: seq<Event>, end: LoopEnd)

  datatype Outcome<R> = Outcome(result: ExecResult<R>, events: seq<Event>)

  /** What `execute` hands its caller once it has called the recovery: the
      callback's value, or its exception. */
  function RecoveryResult<R>(recovery: Callback<R>): ExecResult<R>
  {
    match recovery
    case Returns(v) => Returned(Some(v))
    case Raises(e) => Raised(e)
  }

  /** `backoff`: one sleep of the policy's length. */
  function Backoff(policy: BackoffPolicy): (e: Event)
    ensures e.Slept? && e.seconds == policy.sleep
  {
    Slept(policy.sleep)
  }

  /** `retry_or_not`: another try is allowed exactly while the counter is below
      the policy's bound. */
  function RetryOrNot(count: int, policy: RetryPolicy): (retry: bool)
    ensures retry <==> count < policy.maxAttempts
  {
    if count < policy.maxAttempts then true else false
  }

  /** `retry_template`: builds the `execute` closure. It calls nothing itself:
      no event happens until `Execute` runs the closure it returns. */
  function RetryTemplate<T, R>(operation: nat -> Attempt<T>, recovery: Callback<R>, policy: RetryPolicy): (x: Execution<T, R>)
    ensures x.operation == operation && x.recovery == recovery && x.policy == policy
  {
    Execution(operation, recovery, policy)
  }

  /** `n` handled conflicts: each call is followed by exactly one backoff. */
  function Retries(n: nat): (s: seq<Event>)
  {
    if n == 0 then [] else [Invoked, Backoff(DefaultBackoffPolicy)] + Retries(n - 1)
  }

  /** The loop entered with `count_ == count`. Every earlier iteration handled
      a conflict and incremented the counter, so the call made now is the
      operation's `count`-th. */
  function Loop<T>(operation: nat -> Attempt<T>, policy: RetryPolicy, count: nat): (run: LoopRun)
    decreases if count < policy.maxAttempts then policy.maxAttempts - count else 0
  {
    match operation(count)
    case Succeeded(_) => LoopRun([Invoked], Stopped(count, false))
    case Failed(e) => LoopRun([Invoked], Escaped(e, count))
    case Conflict =>
      if RetryOrNot(count, policy) then
        var rest := Loop(operation, policy, count + 1);
        LoopRun([Invoked, Backoff(DefaultBackoffPolicy)] + rest.events, rest.end)
      else
        LoopRun([Invoked], Stopped(count, true))
  }

  /** `execute` as written: after the loop, the recovery callback runs when
      the counter equals the literal 3, whatever the policy says. */
  function Executed<T, R>(x: Execution<T, R>): Outcome<R>
  {
    var run := Loop(x.operation, x.policy, 0);
    match run.end
    case Escaped(e, _) => Outcome(Raised(e), run.events)
    case Stopped(count, _) =>
      if count == 3 then Outcome(RecoveryResult(x.recovery), run.events + [Recovered])
      else Outcome(Returned(None), run.events)
  }

  /** `execute`: the `while need_retry` loop, then the recovery check. */
  method Execute<T, R>(x: Execution<T, R>) returns (result: ExecResult<R>, events: seq<Event>)
    ensures Outcome(result, events) == Executed(x)
  {
    ghost var run := Loop(x.operation, x.policy, 0);
    var needRetry := true;
    var count: nat := 0;
    events := [];
    while needRetry
      invariant needRetry ==> run == LoopRun(events + Loop(x.operation, x.policy, count).events,
                                             Loop(x.operation, x.policy, count).end)
      invariant !needRetry ==> run.events == events && run.end.Stopped? && run.end.count == count
      decreases needRetry, if count < x.policy.maxAttempts then x.policy.maxAttempts - count else 0
    {
      ghost var before := events;
      events := events + [Invoked];
      match x.operation(count)
      case Succeeded(_) =>
        needRetry := false;
      case Failed(e) =>
        result := Raised(e);
        return;
      case Conflict =>
        if RetryOrNot(count, x.policy) {
          needRetry := true;
          ghost var rest := Loop(x.operation, x.policy, count + 1);
          assert Loop(x.operation, x.policy, count).events == [Invoked, Slept(1)] + rest.events;
          count := count + 1;
          events := events + [Backoff(DefaultBackoffPolicy)];
          assert events + rest.events == before + ([Invoked, Slept(1)] + rest.events);
        } else {
          needRetry := false;
        }
    }
    if count == 3 {
      events := events + [Recovered];
      match x.recovery
      case Returns(v) =>
        result := Returned(Some(v));
      case Raises(e) =>
        result := Raised(e);
    } else {
      result := Returned(None);
    }
  }

  /** Every run of the loop: `n` handled conflicts, each one call followed by
      one backoff, then a last call; the counter grew by `n`, never beyond the
      policy's bound once it grew at all; the last call decided how it ended. */
  lemma {:induction false} LoopShape<T>(operation: nat -> Attempt<T>, policy: RetryPolicy, count: nat)
    ensures var run := Loop(operation, policy, count);
      && count <= run.end.count
      && run.events == Retries(run.end.count - count) + [Invoked]
      && (forall k :: count <= k < run.end.count ==> operation(k) == Conflict)
      && (run.end.count > count ==> run.end.count <= policy.maxAttempts)
      && match run.end
         case Stopped(n, exhausted) =>
           if exhausted then operation(n) == Conflict && policy.maxAttempts <= n
           else operation(n).Succeeded?
         case Escaped(e, n) => operation(n) == Failed(e)
    decreases if count < policy.maxAttempts then policy.maxAttempts - count else 0
  {
    if operation(count) == Conflict && RetryOrNot(count, policy) {
      LoopShape(operation, policy, count + 1);
    }
  }

  /** What `n` handled conflicts contain: `n` calls, `n` sleeps of one second
      each, nothing else. */
  lemma {:induction false} RetriesContents(n: nat)
    ensures multiset(Retries(n))[Invoked] == n
    ensures multiset(Retries(n))[Slept(1)] == n
    ensures forall e :: e in Retries(n) ==> e == Invoked || e == Slept(1)
  {
    if n > 0 {
      RetriesContents(n - 1);
    }
  }

  /** With a non-negative bound, the counter never exceeds the policy. */
  lemma CounterBounded<T>(operation: nat -> Attempt<T>, policy: RetryPolicy)
    requires 0 <= policy.maxAttempts
    ensures Loop(operation, policy, 0).end.count <= policy.maxAttempts
  {
    LoopShape(operation, policy, 0);
  }

  /** The events of `execute` as written: the loop's, then the recovery
      callback when the final counter is 3. */
  lemma ExecutedShape<T, R>(x: Execution<T, R>)
    ensures var run := Loop(x.operation, x.policy, 0);
      var recovers := run.end.Stopped? && run.end.count == 3;
      && Executed(x).events == Retries(run.end.count) + [Invoked] + (if recovers then [Recovered] else [])
      && Executed(x).result ==
           if recovers then RecoveryResult(x.recovery)
           else if run.end.Escaped? then Raised(run.end.error) else Returned(None)
  {
    LoopShape(x.operation, x.policy, 0);
  }

  /** Counting the events of `n` handled conflicts followed by a last call
      and possibly the recovery. */
  lemma EventCounts(n: nat, tail: seq<Event>)
    requires tail == [Invoked] || tail == [Invoked, Recovered]
    ensures multiset(Retries(n) + tail)[Invoked] == n + 1
    ensures multiset(Retries(n) + tail)[Slept(1)] == n
    ensures multiset(Retries(n) + tail)[Recovered] == |tail| - 1
    ensures forall e :: e in Retries(n) + tail ==> e == Invoked || e == Slept(1) || e == Recovered
  {
    RetriesContents(n);
  }

  /** The effects of `execute`: one call more than handled conflicts, one
      one-second sleep per handled conflict, and the recovery callback at
      most once. */
  lemma ExecuteEffects<T, R>(x: Execution<T, R>)
    ensures var out := Executed(x);
      var count := Loop(x.operation, x.policy, 0).end.count;
      && multiset(out.events)[Invoked] == count + 1
      && multiset(out.events)[Slept(1)] == count
      && (forall e :: e in out.events ==> e == Invoked || e == Slept(1) || e == Recovered)
      && multiset(out.events)[Recovered] <= 1
  {
    var run := Loop(x.operation, x.policy, 0);
    ExecutedShape(x);
    var recovers := run.end.Stopped? && run.end.count == 3;
    var tail := [Invoked] + (if recovers then [Recovered] else []);
    assert Executed(x).events == Retries(run.end.count) + tail;
    EventCounts(run.end.count, tail);
  }

  /** The recovery callback runs exactly when the final counter equals the
      literal 3, and then the caller gets what the callback returned or
      raised; otherwise `None`, or the operation's own exception. */
  lemma RecoveryIffCounterIsThree<T, R>(x: Execution<T, R>)
    ensures var out := Executed(x);
      var run := Loop(x.operation, x.policy, 0);
      && (Recovered in out.events <==> run.end.Stopped? && run.end.count == 3)
      && (Recovered in out.events ==> out.result == RecoveryResult(x.recovery))
      && (Recovered !in out.events ==>
            out.result == if run.end.Escaped? then Raised(run.end.error) else Returned(None))
  {
    var run := Loop(x.operation, x.policy, 0);
    ExecutedShape(x);
    RetriesContents(run.end.count);
    assert Recovered !in Retries(run.end.count);
  }

  /** Success on the first call: one call, no backoff, no recovery, and the
      operation's own value is dropped. */
  lemma FirstCallSucceeds<T, R>(x: Execution<T, R>)
    requires x.operation(0).Succeeded?
    ensures Executed(x) == Outcome(Returned(None), [Invoked])
  {
  }

  /** Any other exception from the operation leaves at once: no retry, no
      backoff, no recovery. */
  lemma OtherErrorEscapes<T, R>(x: Execution<T, R>, k: nat)
    requires forall j :: 0 <= j < k ==> x.operation(j) == Conflict
    requires x.operation(k).Failed?
    requires k == 0 || k <= x.policy.maxAttempts
    ensures Executed(x) == Outcome(Raised(x.operation(k).error), Retries(k) + [Invoked])
  {
    LoopShape(x.operation, x.policy, 0);
    var n := Loop(x.operation, x.policy, 0).end.count;
  }

  /** An operation that always conflicts is called `maxAttempts + 1` times,
      and the counter ends at `maxAttempts`. */
  lemma AlwaysConflicting<T>(operation: nat -> Attempt<T>, policy: RetryPolicy)
    requires forall k :: operation(k) == Conflict
    requires 0 <= policy.maxAttempts
    ensures Loop(operation, policy, 0) == LoopRun(Retries(policy.maxAttempts) + [Invoked], Stopped(policy.maxAttempts, true))
  {
    LoopShape(operation, policy, 0);
  }

  /** With the default policy an always-conflicting operation is called four
      times and the recovery callback runs once; its outcome is the caller's. */
  lemma DefaultPolicyRecovers<T, R>(x: Execution<T, R>)
    requires forall k :: x.operation(k) == Conflict
    requires x.policy == DefaultRetryPolicy
    ensures Executed(x) == Outcome(RecoveryResult(x.recovery), Retries(3) + [Invoked, Recovered])
  {
    AlwaysConflicting(x.operation, x.policy);
  }

  /** Below a bound of 3 the counter never reaches 3: no recovery, ever. */
  lemma NoRecoveryBelowThree<T, R>(x: Execution<T, R>)
    requires x.policy.maxAttempts < 3
    ensures Recovered !in Executed(x).events
  {
    LoopShape(x.operation, x.policy, 0);
    RecoveryIffCounterIsThree(x);
  }

  /** For an always-conflicting operation, recovery runs exactly when the
      bound is 3, not whenever the policy is exhausted. */
  lemma AlwaysConflictingRecoversOnlyAtThree<T, R>(x: Execution<T, R>)
    requires forall k :: x.operation(k) == Conflict
    ensures Recovered in Executed(x).events <==> x.policy.maxAttempts == 3
  {
    if x.policy.maxAttempts < 0 {
      NoRecoveryBelowThree(x);
    } else {
      AlwaysConflicting(x.operation, x.policy);
      RecoveryIffCounterIsThree(x);
    }
  }

  /** Finding, as written: under a bound of 5, an always-conflicting operation
      makes `execute` return `None` after six calls; the conflict is dropped
      and the recovery callback never runs. */
  lemma CustomBoundDropsConflict<T, R>(x: Execution<T, R>)
    requires forall k :: x.operation(k) == Conflict
    requires x.policy == RetryPolicy(5)
    ensures Executed(x) == Outcome(Returned(None), Retries(5) + [Invoked])
  {
    AlwaysConflicting(x.operation, x.policy);
  }

  /** Finding, as written: three conflicts then a success still run the
      recovery callback, under any bound of 3 or more. */
  lemma RecoveryAfterSuccess<T, R>(x: Execution<T, R>)
    requires x.operation(0) == Conflict && x.operation(1) == Conflict && x.operation(2) == Conflict
    requires x.operation(3).Succeeded?
    requires 3 <= x.policy.maxAttempts
    ensures Executed(x) == Outcome(RecoveryResult(x.recovery), Retries(3) + [Invoked, Recovered])
  {
    LoopShape(x.operation, x.policy, 0);
    var n := Loop(x.operation, x.policy, 0).end.count;
  }

  /** `execute` with the recovery keyed to the policy's exhaustion: the
      recovery callback runs exactly when the last call conflicted and the
      policy allowed no further try. */
  function ExecutedAsIntended<T, R>(x: Execution<T, R>): Outcome<R>
  {
    var run := Loop(x.operation, x.policy, 0);
    match run.end
    case Escaped(e, _) => Outcome(Raised(e), run.events)
    case Stopped(_, exhausted) =>
      if exhausted then Outcome(RecoveryResult(x.recovery), run.events + [Recovered])
      else Outcome(Returned(None), run.events)
  }

  /** The events of the corrected `execute`: the loop's, then the recovery
      callback when the last call conflicted and could not be retried. */
  lemma IntendedEvents<T, R>(x: Execution<T, R>)
    ensures var run := Loop(x.operation, x.policy, 0);
      var recovers := run.end.Stopped? && x.operation(run.end.count) == Conflict;
      ExecutedAsIntended(x).events == Retries(run.end.count) + [Invoked] + (if recovers then [Recovered] else [])
  {
    LoopShape(x.operation, x.policy, 0);
  }

  /** What the corrected `execute` hands its caller: the recovery's outcome
      after an exhausted conflict, else the operation's exception or `None`. */
  lemma IntendedShape<T, R>(x: Execution<T, R>)
    ensures var run := Loop(x.operation, x.policy, 0);
      var recovers := run.end.Stopped? && x.operation(run.end.count) == Conflict;
      ExecutedAsIntended(x).result ==
        if recovers then RecoveryResult(x.recovery)
        else if run.end.Escaped? then Raised(run.end.error) else Returned(None)
  {
    LoopShape(x.operation, x.policy, 0);
  }

  /** Corrected: recovery runs iff the last call conflicted with the policy
      exhausted, so never after a success or an escaped exception. */
  lemma IntendedRecoveryOnExhaustion<T, R>(x: Execution<T, R>)
    ensures var run := Loop(x.operation, x.policy, 0);
      Recovered in ExecutedAsIntended(x).events <==> run.end.Stopped? && x.operation(run.end.count) == Conflict
  {
    var run := Loop(x.operation, x.policy, 0);
    IntendedEvents(x);
    RetriesContents(run.end.count);
    assert Recovered !in Retries(run.end.count);
  }

  /** Corrected: the recovery callback runs at most once. */
  lemma IntendedRecoversAtMostOnce<T, R>(x: Execution<T, R>)
    ensures multiset(ExecutedAsIntended(x).events)[Recovered] <= 1
  {
    var run := Loop(x.operation, x.policy, 0);
    IntendedEvents(x);
    RetriesContents(run.end.count);
    assert Recovered !in Retries(run.end.count);
    var recovers := run.end.Stopped? && x.operation(run.end.count) == Conflict;
    var extra := if recovers then [Recovered] else [];
    assert multiset(Retries(run.end.count) + [Invoked] + extra)[Recovered] == multiset(extra)[Recovered];
  }

  /** Corrected: an always-conflicting operation is called `maxAttempts + 1`
      times and then recovered, whatever the bound. */
  lemma IntendedAlwaysConflictingRecovers<T, R>(x: Execution<T, R>)
    requires forall k :: x.operation(k) == Conflict
    requires 0 <= x.policy.maxAttempts
    ensures ExecutedAsIntended(x) == Outcome(RecoveryResult(x.recovery), Retries(x.policy.maxAttempts) + [Invoked, Recovered])
  {
    AlwaysConflicting(x.operation, x.policy);
  }
}
