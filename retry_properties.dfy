/**
 * What the retry executor promises, proved about its specification `Loop`:
 * how many times the operation runs, when it sleeps, what each call is
 * given, how each exit is reached, and that the retry count is checked
 * before the deadline.
 */
module RetryProperties {
  import opened Common
  import opened Errors
  import opened Lifecycle
  import opened RetryExecutor

  /** The state the loop body continues with after a failure that is retried. */
  function StateAfterRetriedFailure<T>(c: RetryCall<T>, s: HandlerState, r: nat, kw: Kwargs): HandlerState
    requires c.operation(r, AttemptKwargs(c, r, kw)).result.Failure?
  {
    var attempt := c.operation(r, AttemptKwargs(c, r, kw));
    AfterException(s.(link := attempt.link, running := attempt.running), c.classify(attempt.result.exception))
  }

  /** The keyword arguments the loop body continues with after a failure that is retried. */
  function KwargsAfterRetriedFailure<T>(c: RetryCall<T>, r: nat, kw: Kwargs): Kwargs
    requires c.operation(r, AttemptKwargs(c, r, kw)).result.Failure?
  {
    var kw1 := AttemptKwargs(c, r, kw);
    if c.requireLastException then kw1.(lastException := Some(c.classify(c.operation(r, kw1).result.exception))) else kw1
  }

  /**
   * Call `r`, given `kw`, fails with an error that `_handle_exception`
   * classifies and returns: it does not escape, it is retryable, and it is
   * not a lock-lost or connection error of a session receiver (one with a
   * session exactly when `hasSession`) that the call left running.
   */
  predicate FailsRetryably<T>(c: RetryCall<T>, r: nat, kw: Kwargs, hasSession: bool)
  {
    var attempt := c.operation(r, kw);
    attempt.result.Failure? && !Escapes(attempt.result.exception) &&
    c.classify(attempt.result.exception).retryable &&
    !(hasSession && attempt.running && IsSessionFailure(c.classify(attempt.result.exception)))
  }

  /** Call `i`, given `kw`, left the handler running and failed with a lock-lost or connection error. */
  predicate LosesSessionAt<T>(c: RetryCall<T>, i: nat, kw: Kwargs)
  {
    var attempt := c.operation(i, kw);
    attempt.running && attempt.result.Failure? && !Escapes(attempt.result.exception) &&
    IsSessionFailure(c.classify(attempt.result.exception))
  }

  /** Every backoff the policy computes is within `retry_backoff_max` and, with a deadline, ends by it. */
  predicate BackoffAlwaysFits<T>(c: RetryCall<T>)
  {
    forall n: nat :: 1 <= n <= c.policy.retryTotal ==>
      BackoffFits(c.policy, c.backoffTime(c.policy.mode, c.policy.backoffFactor, c.policy.backoffMax, n),
                  Deadline(c), c.clock.atBackoff(n))
  }

  /** One step of the loop: a failure that is retried and whose backoff fits goes on to the next call. */
  lemma LoopStep<T>(c: RetryCall<T>, s: HandlerState, r: nat, kw: Kwargs)
    requires r < c.policy.retryTotal
    requires FailsRetryably(c, r, AttemptKwargs(c, r, kw), s.session.Some?)
    requires BackoffAlwaysFits(c)
    ensures Loop(c, s, r, kw) == Prepend(AttemptKwargs(c, r, kw),
      c.backoffTime(c.policy.mode, c.policy.backoffFactor, c.policy.backoffMax, r + 1),
      Loop(c, StateAfterRetriedFailure(c, s, r, kw), r + 1, KwargsAfterRetriedFailure(c, r, kw)))
    ensures StateAfterRetriedFailure(c, s, r, kw).session.Some? == s.session.Some?
  {
  }

  /** The shape of every run that starts inside the retry budget. */
  lemma {:induction false} LoopCounts<T>(c: RetryCall<T>, s: HandlerState, r: nat, kw: Kwargs)
    requires r <= c.policy.retryTotal
    ensures var run := Loop(c, s, r, kw);
      1 <= |run.calls| <= c.policy.retryTotal + 1 - r &&
      |run.sleeps| == |run.calls| - 1 &&
      !run.outcome.FellThrough? && run.exit != NoAttempt &&
      (run.outcome.Returned? <==> run.exit == Succeeded) &&
      (run.exit == Exhausted ==> |run.calls| == c.policy.retryTotal + 1 - r) &&
      (run.exit == TimedOut ==> |run.calls| <= c.policy.retryTotal - r)
    decreases c.policy.retryTotal - r
  {
    var kw1 := AttemptKwargs(c, r, kw);
    var attempt := c.operation(r, kw1);
    var s1 := s.(link := attempt.link, running := attempt.running);
    if attempt.result.Failure? && !Escapes(attempt.result.exception) {
      var error := c.classify(attempt.result.exception);
      var s2 := AfterException(s1, error);
      if !ReRaises(s1, error) && r + 1 <= c.policy.retryTotal {
        var kw2 := if c.requireLastException then kw1.(lastException := Some(error)) else kw1;
        var step := BackoffAt(c.policy, c.backoffTime, r + 1, error, Deadline(c), c.clock.atBackoff(r + 1));
        if step.Sleep? {
          LoopCounts(c, s2, r + 1, kw2);
        }
      }
    }
  }

  /** The k-th sleep of a run from `retried == r` is the policy's delay for retry `r + k + 1`
      and fits `retry_backoff_max` and the deadline. */
  predicate SleepsFit<T>(c: RetryCall<T>, r: nat, sleeps: seq<int>)
  {
    forall k :: 0 <= k < |sleeps| ==> SleepFits(c, r + k + 1, sleeps[k])
  }

  /** `delay` is the policy's delay after the `n`-th failure and fits at that time. */
  predicate SleepFits<T>(c: RetryCall<T>, n: nat, delay: int)
  {
    delay == c.backoffTime(c.policy.mode, c.policy.backoffFactor, c.policy.backoffMax, n) &&
    BackoffFits(c.policy, delay, Deadline(c), c.clock.atBackoff(n))
  }

  /** The timeout call `i` is given: the time remaining before it when there is a
      deadline, and otherwise the one the run started with. */
  function ExpectedTimeout<T>(c: RetryCall<T>, i: nat, kw: Kwargs): Option<int>
  {
    if TruthyInt(Deadline(c)) then Some(Deadline(c).value - c.clock.beforeAttempt(i)) else kw.timeout
  }

  /** Call `k` of a run from `retried == r` is given the timeout it is due. */
  predicate TimeoutsPassed<T>(c: RetryCall<T>, r: nat, kw: Kwargs, calls: seq<Kwargs>)
  {
    forall k :: 0 <= k < |calls| ==> calls[k].timeout == ExpectedTimeout(c, r + k, kw)
  }

  /** Call `i`, given `before`, failed, and the next call is given its classified error
      when the caller asked for it, and otherwise what the run started with. */
  predicate PassesLastError<T>(c: RetryCall<T>, i: nat, kw: Kwargs, before: Kwargs, after: Kwargs)
  {
    c.operation(i, before).result.Failure? &&
    after.lastException ==
      if c.requireLastException then Some(c.classify(c.operation(i, before).result.exception)) else kw.lastException
  }

  ghost predicate LastErrorsPassed<T>(c: RetryCall<T>, r: nat, kw: Kwargs, calls: seq<Kwargs>)
  {
    (|calls| > 0 ==> calls[0].lastException == kw.lastException) &&
    forall k, j :: 0 <= k < j < |calls| && j == k + 1 ==> PassesLastError(c, r + k, kw, calls[k], calls[j])
  }

  /**
   * How the last call of a run from `retried == r`, on a handler with a
   * session exactly when `hasSession`, decides the run's end: a success
   * returns its value; `StopAsyncIteration` and `ImportError` are raised as
   * they are; an error `_handle_exception` raises is raised classified, and
   * a lost session is then marked lost with the handler closed; giving up
   * follows a retryable failure and raises its classified error, cleared of
   * its cause on exhaustion and a timeout wrapped with guidance.
   */
  ghost predicate LastCallDecides<T>(c: RetryCall<T>, r: nat, hasSession: bool, run: Run<T>)
  {
    run.exit != NoAttempt ==>
      |run.calls| > 0 &&
      var i := r + |run.calls| - 1;
      var kw := run.calls[|run.calls| - 1];
      var result := c.operation(i, kw).result;
      match run.exit
      case Succeeded => result.Success? && run.outcome == Returned(result.value)
      case Propagated => result.Failure? && Escapes(result.exception) && run.outcome == Raised(result.exception)
      case NotRetried =>
        result.Failure? && !Escapes(result.exception) && !FailsRetryably(c, i, kw, hasSession) &&
        run.outcome == Raised(ServiceBus(c.classify(result.exception))) &&
        (hasSession && LosesSessionAt(c, i, kw) ==>
          run.state.session.Some? && run.state.session.value.lockLost && run.state.link == None && !run.state.running)
      case Exhausted =>
        FailsRetryably(c, i, kw, hasSession) && run.outcome == Raised(ExhaustedError(c.classify(result.exception)))
      case TimedOut =>
        FailsRetryably(c, i, kw, hasSession) && run.outcome == Raised(TerminalError(c.classify(result.exception)))
      case NoAttempt => true
  }

  /** Every call of a run from `retried == r` but the last failed retryably. */
  predicate EarlierCallsRetried<T>(c: RetryCall<T>, r: nat, hasSession: bool, calls: seq<Kwargs>)
  {
    forall k :: 0 <= k < |calls| - 1 ==> FailsRetryably(c, r + k, calls[k], hasSession)
  }

  /** The handler state facts the loop keeps from `s` to `t`. */
  predicate KeepsShutdown(s: HandlerState, t: HandlerState)
  {
    t.shutdown == s.shutdown &&
    t.session.Some? == s.session.Some? &&
    (s.session.Some? && s.session.value.lockLost ==> t.session.value.lockLost)
  }

  /** What a pass that goes round again did: call `r` was given what it is due and
      failed, and the backoff that followed fits. */
  lemma PassContinues<T>(c: RetryCall<T>, s: HandlerState, r: nat, kw: Kwargs)
    requires r <= c.policy.retryTotal && OnePass(c, s, r, kw).Continued?
    ensures var p := OnePass(c, s, r, kw);
      r + 1 <= c.policy.retryTotal &&
      p.call == AttemptKwargs(c, r, kw) &&
      p.call.timeout == ExpectedTimeout(c, r, kw) && p.call.lastException == kw.lastException &&
      ExpectedTimeout(c, r + 1, p.next) == ExpectedTimeout(c, r + 1, kw) &&
      PassesLastError(c, r, kw, p.call, p.next) &&
      (!c.requireLastException ==> p.next.lastException == kw.lastException) &&
      SleepFits(c, r + 1, p.delay) &&
      FailsRetryably(c, r, p.call, s.session.Some?) &&
      KeepsShutdown(s, p.state) &&
      Loop(c, s, r, kw) == Prepend(p.call, p.delay, Loop(c, p.state, r + 1, p.next))
  {
  }

  /** What a pass that ends the call did: one call, given what it is due, and no sleep;
      giving up raises that call's error. */
  lemma PassFinishes<T>(c: RetryCall<T>, s: HandlerState, r: nat, kw: Kwargs)
    requires r <= c.policy.retryTotal && OnePass(c, s, r, kw).Finished?
    ensures var run := OnePass(c, s, r, kw).run;
      Loop(c, s, r, kw) == run &&
      run.calls == [AttemptKwargs(c, r, kw)] && run.sleeps == [] &&
      run.calls[0].timeout == ExpectedTimeout(c, r, kw) && run.calls[0].lastException == kw.lastException &&
      KeepsShutdown(s, run.state)
  {
  }

  /** A pass that ends the call ends it as its one call decides. */
  lemma PassDecides<T>(c: RetryCall<T>, s: HandlerState, r: nat, kw: Kwargs)
    requires r <= c.policy.retryTotal && OnePass(c, s, r, kw).Finished?
    ensures Loop(c, s, r, kw) == OnePass(c, s, r, kw).run
    ensures LastCallDecides(c, r, s.session.Some?, OnePass(c, s, r, kw).run)
  {
  }

  /** Every backoff slept is the policy's delay for that retry, within `retry_backoff_max` and the deadline. */
  lemma {:induction false} LoopSleeps<T>(c: RetryCall<T>, s: HandlerState, r: nat, kw: Kwargs)
    ensures SleepsFit(c, r, Loop(c, s, r, kw).sleeps)
    decreases c.policy.retryTotal + 1 - r
  {
    if r <= c.policy.retryTotal {
      var p := OnePass(c, s, r, kw);
      if p.Continued? {
        PassContinues(c, s, r, kw);
        var rest := Loop(c, p.state, r + 1, p.next).sleeps;
        LoopSleeps(c, p.state, r + 1, p.next);
        SleepsFitCons(c, r, p.delay, rest);
      } else {
        PassFinishes(c, s, r, kw);
      }
    }
  }

  lemma SleepsFitCons<T>(c: RetryCall<T>, r: nat, delay: int, rest: seq<int>)
    requires SleepFits(c, r + 1, delay) && SleepsFit(c, r + 1, rest)
    ensures SleepsFit(c, r, [delay] + rest)
  {
    var sleeps := [delay] + rest;
    forall k | 1 <= k < |sleeps|
      ensures SleepFits(c, r + k + 1, sleeps[k])
    {
      assert sleeps[k] == rest[k - 1];
      assert r + 1 + (k - 1) + 1 == r + k + 1;
    }
  }

  /** With a deadline, each call is given the time remaining before it; without one,
      the timeout the run started with. */
  lemma {:induction false} LoopTimeouts<T>(c: RetryCall<T>, s: HandlerState, r: nat, kw: Kwargs)
    ensures TimeoutsPassed(c, r, kw, Loop(c, s, r, kw).calls)
    decreases c.policy.retryTotal + 1 - r
  {
    if r <= c.policy.retryTotal {
      var p := OnePass(c, s, r, kw);
      if p.Continued? {
        PassContinues(c, s, r, kw);
        var rest := Loop(c, p.state, r + 1, p.next).calls;
        LoopTimeouts(c, p.state, r + 1, p.next);
        TimeoutsCons(c, r, kw, p.next, p.call, rest);
      } else {
        PassFinishes(c, s, r, kw);
      }
    }
  }

  lemma TimeoutsCons<T>(c: RetryCall<T>, r: nat, kw: Kwargs, kw': Kwargs, call: Kwargs, rest: seq<Kwargs>)
    requires call.timeout == ExpectedTimeout(c, r, kw)
    requires ExpectedTimeout(c, r + 1, kw') == ExpectedTimeout(c, r + 1, kw)
    requires TimeoutsPassed(c, r + 1, kw', rest)
    ensures TimeoutsPassed(c, r, kw, [call] + rest)
  {
    var calls := [call] + rest;
    forall k | 1 <= k < |calls|
      ensures calls[k].timeout == ExpectedTimeout(c, r + k, kw)
    {
      assert calls[k] == rest[k - 1];
      assert r + 1 + (k - 1) == r + k;
      assert ExpectedTimeout(c, r + k, kw') == ExpectedTimeout(c, r + k, kw);
    }
  }

  /** When asked for, each call is given the classified error of the call before it. */
  lemma {:induction false} LoopLastErrors<T>(c: RetryCall<T>, s: HandlerState, r: nat, kw: Kwargs)
    ensures LastErrorsPassed(c, r, kw, Loop(c, s, r, kw).calls)
    decreases c.policy.retryTotal + 1 - r
  {
    if r <= c.policy.retryTotal {
      var p := OnePass(c, s, r, kw);
      if p.Continued? {
        PassContinues(c, s, r, kw);
        var rest := Loop(c, p.state, r + 1, p.next).calls;
        LoopLastErrors(c, p.state, r + 1, p.next);
        LastErrorsCons(c, r, kw, p.next, p.call, rest);
      } else {
        PassFinishes(c, s, r, kw);
      }
    }
  }

  lemma LastErrorsCons<T>(c: RetryCall<T>, r: nat, kw: Kwargs, kw': Kwargs, call: Kwargs, rest: seq<Kwargs>)
    requires call.lastException == kw.lastException
    requires PassesLastError(c, r, kw, call, kw')
    requires !c.requireLastException ==> kw'.lastException == kw.lastException
    requires LastErrorsPassed(c, r + 1, kw', rest)
    ensures LastErrorsPassed(c, r, kw, [call] + rest)
  {
    var calls := [call] + rest;
    forall k, j | 0 <= k < j < |calls| && j == k + 1
      ensures PassesLastError(c, r + k, kw, calls[k], calls[j])
    {
      if k > 0 {
        assert calls[k] == rest[k - 1] && calls[j] == rest[j - 1];
        assert PassesLastError(c, r + 1 + (k - 1), kw', rest[k - 1], rest[j - 1]);
      }
    }
  }

  /** The loop never sets or clears shutdown, never drops a session, and never
      clears a session's lost lock. */
  lemma {:induction false} LoopKeepsShutdown<T>(c: RetryCall<T>, s: HandlerState, r: nat, kw: Kwargs)
    ensures KeepsShutdown(s, Loop(c, s, r, kw).state)
    decreases c.policy.retryTotal + 1 - r
  {
    if r <= c.policy.retryTotal {
      var p := OnePass(c, s, r, kw);
      if p.Continued? {
        PassContinues(c, s, r, kw);
        LoopKeepsShutdown(c, p.state, r + 1, p.next);
      } else {
        PassFinishes(c, s, r, kw);
      }
    }
  }

  /**
   * Every run ends as its last call decides (a value, an escaping exception,
   * a re-raised error or giving up), and every call before the last failed
   * retryably.
   */
  lemma {:induction false} LoopLastCallDecides<T>(c: RetryCall<T>, s: HandlerState, r: nat, kw: Kwargs)
    ensures LastCallDecides(c, r, s.session.Some?, Loop(c, s, r, kw))
    ensures EarlierCallsRetried(c, r, s.session.Some?, Loop(c, s, r, kw).calls)
    decreases c.policy.retryTotal + 1 - r
  {
    if r <= c.policy.retryTotal {
      var p := OnePass(c, s, r, kw);
      if p.Continued? {
        PassContinues(c, s, r, kw);
        LoopLastCallDecides(c, p.state, r + 1, p.next);
        LastCallDecidesPrepend(c, r, s.session.Some?, p.call, p.delay, Loop(c, p.state, r + 1, p.next));
      } else {
        PassDecides(c, s, r, kw);
      }
    }
  }

  lemma LastCallDecidesPrepend<T>(c: RetryCall<T>, r: nat, hasSession: bool, call: Kwargs, delay: int, rest: Run<T>)
    requires FailsRetryably(c, r, call, hasSession)
    requires LastCallDecides(c, r + 1, hasSession, rest) && EarlierCallsRetried(c, r + 1, hasSession, rest.calls)
    ensures LastCallDecides(c, r, hasSession, Prepend(call, delay, rest))
    ensures EarlierCallsRetried(c, r, hasSession, Prepend(call, delay, rest).calls)
  {
    var run := Prepend(call, delay, rest);
    if rest.exit != NoAttempt {
      assert run.calls[|run.calls| - 1] == rest.calls[|rest.calls| - 1];
      assert r + |run.calls| - 1 == r + 1 + |rest.calls| - 1;
    }
    forall k | 1 <= k < |run.calls| - 1
      ensures FailsRetryably(c, r + k, run.calls[k], hasSession)
    {
      assert run.calls[k] == rest.calls[k - 1];
      assert r + 1 + (k - 1) == r + k;
    }
  }

  /** The loop with every call from `r` on failing retryably and every backoff fitting. */
  lemma {:induction false} PersistentFailureLoop<T>(c: RetryCall<T>, s: HandlerState, r: nat, kw: Kwargs)
    requires r <= c.policy.retryTotal
    requires forall i: nat, k: Kwargs :: r <= i <= c.policy.retryTotal ==> FailsRetryably(c, i, k, s.session.Some?)
    requires BackoffAlwaysFits(c)
    ensures var run := Loop(c, s, r, kw);
      run.exit == Exhausted &&
      |run.calls| == c.policy.retryTotal + 1 - r &&
      |run.sleeps| == c.policy.retryTotal - r
    decreases c.policy.retryTotal - r
  {
    assert FailsRetryably(c, r, AttemptKwargs(c, r, kw), s.session.Some?);
    if r < c.policy.retryTotal {
      LoopStep(c, s, r, kw);
      PersistentFailureLoop(c, StateAfterRetriedFailure(c, s, r, kw), r + 1, KwargsAfterRetriedFailure(c, r, kw));
    }
  }

  /** The loop with calls `r .. r + k - 1` failing retryably, the backoffs fitting, and call `r + k` succeeding. */
  lemma {:induction false} RecoveryLoop<T>(c: RetryCall<T>, s: HandlerState, r: nat, k: nat, kw: Kwargs, v: T)
    requires r + k <= c.policy.retryTotal
    requires forall i: nat, kw': Kwargs :: r <= i < r + k ==> FailsRetryably(c, i, kw', s.session.Some?)
    requires forall i: nat, kw': Kwargs :: i == r + k ==> c.operation(i, kw').result == Success(v)
    requires BackoffAlwaysFits(c)
    ensures var run := Loop(c, s, r, kw);
      run.outcome == Returned(v) && run.exit == Succeeded &&
      |run.calls| == k + 1 && |run.sleeps| == k
    decreases k
  {
    if k > 0 {
      assert FailsRetryably(c, r, AttemptKwargs(c, r, kw), s.session.Some?);
      LoopStep(c, s, r, kw);
      RecoveryLoop(c, StateAfterRetriedFailure(c, s, r, kw), r + 1, k - 1, KwargsAfterRetriedFailure(c, r, kw), v);
    } else {
      assert c.operation(r, AttemptKwargs(c, r, kw)).result == Success(v);
    }
  }

  // ---- the call as a whole -------------------------------------------------

  /**
   * The operation runs at least once and at most `retry_total + 1` times, with
   * one backoff between consecutive calls; a negative `retry_total` never
   * runs it and yields `None`. Giving up for want of retries happens only
   * after the last allowed call; giving up for want of time happens before it.
   */
  lemma AttemptsAreBounded<T>(c: RetryCall<T>, s: HandlerState)
    ensures c.policy.retryTotal < 0 ==> Retry(c, s) == Run(FellThrough, NoAttempt, s, [], [])
    ensures c.policy.retryTotal >= 0 ==>
      var run := Retry(c, s);
      1 <= |run.calls| <= c.policy.retryTotal + 1 &&
      |run.sleeps| == |run.calls| - 1 &&
      !run.outcome.FellThrough? && run.exit != NoAttempt &&
      (run.outcome.Returned? <==> run.exit == Succeeded) &&
      (run.exit == Exhausted ==> |run.calls| == c.policy.retryTotal + 1) &&
      (run.exit == TimedOut ==> |run.calls| <= c.policy.retryTotal)
  {
    if c.policy.retryTotal >= 0 {
      LoopCounts(c, s, 0, Kwargs(None, None));
    }
  }

  /**
   * `_backoff` sleeps only a delay within `retry_backoff_max` that ends by the
   * deadline, if there is one; the k-th sleep follows the k-th failure.
   */
  lemma BackoffStaysWithinBudget<T>(c: RetryCall<T>, s: HandlerState)
    ensures var run := Retry(c, s);
      forall k :: 0 <= k < |run.sleeps| ==>
        run.sleeps[k] == c.backoffTime(c.policy.mode, c.policy.backoffFactor, c.policy.backoffMax, k + 1) &&
        run.sleeps[k] <= c.policy.backoffMax &&
        (Deadline(c).Some? ==> c.clock.atBackoff(k + 1) + run.sleeps[k] <= Deadline(c).value)
  {
    LoopSleeps(c, s, 0, Kwargs(None, None));
  }

  /**
   * With a deadline each call is given the time then remaining as `timeout`;
   * without one no timeout is passed. With `require_last_exception` each call
   * after the first is given the error of the call before it.
   */
  lemma CallsSeeRemainingTime<T>(c: RetryCall<T>, s: HandlerState)
    ensures TimeoutsPassed(c, 0, Kwargs(None, None), Retry(c, s).calls)
    ensures LastErrorsPassed(c, 0, Kwargs(None, None), Retry(c, s).calls)
  {
    LoopTimeouts(c, s, 0, Kwargs(None, None));
    LoopLastErrors(c, s, 0, Kwargs(None, None));
  }

  /** A retried call never touches the shutdown flag and never forgets a lost session. */
  lemma RetryKeepsShutdown<T>(c: RetryCall<T>, s: HandlerState)
    ensures KeepsShutdown(s, Retry(c, s).state)
  {
    LoopKeepsShutdown(c, s, 0, Kwargs(None, None));
  }

  /**
   * Whichever call ends the run decides it: a success returns that call's
   * value, an escaping exception is raised unclassified, a re-raised error is
   * raised classified, and giving up raises the last retryable error (cleared
   * of its cause on exhaustion, a timeout wrapped with guidance); every
   * earlier call failed retryably.
   */
  lemma EveryExitFollowsTheLastCall<T>(c: RetryCall<T>, s: HandlerState)
    ensures LastCallDecides(c, 0, s.session.Some?, Retry(c, s))
    ensures EarlierCallsRetried(c, 0, s.session.Some?, Retry(c, s).calls)
  {
    LoopLastCallDecides(c, s, 0, Kwargs(None, None));
  }

  /**
   * An operation that keeps failing with retryable errors, with every backoff
   * within `retry_backoff_max` and the deadline, runs exactly
   * `retry_total + 1` times and raises its last error.
   */
  lemma PersistentFailureUsesEveryAttempt<T>(c: RetryCall<T>, s: HandlerState)
    requires c.policy.retryTotal >= 0
    requires forall i: nat, k: Kwargs :: i <= c.policy.retryTotal ==> FailsRetryably(c, i, k, s.session.Some?)
    requires BackoffAlwaysFits(c)
    ensures var run := Retry(c, s);
      run.exit == Exhausted &&
      |run.calls| == c.policy.retryTotal + 1 && |run.sleeps| == c.policy.retryTotal &&
      c.operation(c.policy.retryTotal, run.calls[c.policy.retryTotal]).result.Failure? &&
      run.outcome == Raised(ExhaustedError(c.classify(
        c.operation(c.policy.retryTotal, run.calls[c.policy.retryTotal]).result.exception)))
  {
    PersistentFailureLoop(c, s, 0, Kwargs(None, None));
    LoopLastCallDecides(c, s, 0, Kwargs(None, None));
  }

  /** Failing retryably `k` times, with every backoff fitting, and then succeeding returns the value after `k` backoffs. */
  lemma RecoversAfterRetryableFailures<T>(c: RetryCall<T>, s: HandlerState, k: nat, v: T)
    requires k <= c.policy.retryTotal
    requires forall i: nat, kw: Kwargs :: i < k ==> FailsRetryably(c, i, kw, s.session.Some?)
    requires forall kw: Kwargs :: c.operation(k, kw).result == Success(v)
    requires BackoffAlwaysFits(c)
    ensures var run := Retry(c, s);
      run.outcome == Returned(v) && |run.calls| == k + 1 && |run.sleeps| == k
  {
    RecoveryLoop(c, s, 0, k, Kwargs(None, None), v);
  }

  /**
   * The first call decides the run when it succeeds, raises
   * `StopAsyncIteration` or `ImportError`, or fails with an error that
   * `_handle_exception` raises: then there is one call and no backoff.
   */
  lemma FirstCallExits<T>(c: RetryCall<T>, s: HandlerState)
    requires c.policy.retryTotal >= 0
    ensures var kw := AttemptKwargs(c, 0, Kwargs(None, None));
      var attempt := c.operation(0, kw);
      var s1 := s.(link := attempt.link, running := attempt.running);
      var run := Retry(c, s);
      (attempt.result.Success? ==>
        run == Run(Returned(attempt.result.value), Succeeded, s1, [kw], [])) &&
      (attempt.result.Failure? && Escapes(attempt.result.exception) ==>
        run == Run(Raised(attempt.result.exception), Propagated, s1, [kw], [])) &&
      (attempt.result.Failure? && !Escapes(attempt.result.exception) &&
       ReRaises(s1, c.classify(attempt.result.exception)) ==>
        run == Run(Raised(ServiceBus(c.classify(attempt.result.exception))), NotRetried,
                   AfterException(s1, c.classify(attempt.result.exception)), [kw], []))
  {
  }

  /**
   * On a session receiver, whichever call `k` fails with a lock-lost or
   * connection error while the handler is running, retryable or not, is the
   * last call: the error is raised classified, the session marked lost and
   * the handler closed.
   */
  lemma LostSessionIsNotRetried<T>(c: RetryCall<T>, s: HandlerState, k: nat)
    requires s.session.Some?
    requires k < |Retry(c, s).calls| && LosesSessionAt(c, k, Retry(c, s).calls[k])
    ensures var run := Retry(c, s);
      k == |run.calls| - 1 && run.exit == NotRetried &&
      run.outcome == Raised(ServiceBus(c.classify(c.operation(k, run.calls[k]).result.exception))) &&
      run.state.session.Some? && run.state.session.value.lockLost &&
      run.state.link == None && !run.state.running
  {
    var run := Retry(c, s);
    AttemptsAreBounded(c, s);
    LoopLastCallDecides(c, s, 0, Kwargs(None, None));
    assert !FailsRetryably(c, 0 + k, run.calls[k], true);
    assert k == |run.calls| - 1;
    assert run.exit != NoAttempt && LastCallDecides(c, 0, true, run);
  }

  /**
   * After the last allowed call fails, the loop raises at once: neither the
   * backoff rule nor the clock is consulted, so the result is the same for
   * any other backoff rule and any other readings in `_backoff`, even past
   * the deadline.
   */
  lemma ExhaustionCheckedBeforeDeadline<T>(c: RetryCall<T>, s: HandlerState, kw: Kwargs,
                                           otherBackoff: BackoffTime, otherReadings: nat -> int)
    requires c.policy.retryTotal >= 0
    requires FailsRetryably(c, c.policy.retryTotal, AttemptKwargs(c, c.policy.retryTotal, kw), s.session.Some?)
    ensures var run := Loop(c, s, c.policy.retryTotal, kw);
      run.exit == Exhausted && run.sleeps == [] && |run.calls| == 1
    ensures Loop(c.(backoffTime := otherBackoff, clock := c.clock.(atBackoff := otherReadings)), s, c.policy.retryTotal, kw)
         == Loop(c, s, c.policy.retryTotal, kw)
  {
  }

  /**
   * Before the last allowed call, a backoff that does not fit ends the call
   * with the last error (wrapped if a timeout) and no further call.
   */
  lemma NoTimeLeftEndsTheCall<T>(c: RetryCall<T>, s: HandlerState, r: nat, kw: Kwargs)
    requires r < c.policy.retryTotal
    requires FailsRetryably(c, r, AttemptKwargs(c, r, kw), s.session.Some?)
    requires !BackoffFits(c.policy, c.backoffTime(c.policy.mode, c.policy.backoffFactor, c.policy.backoffMax, r + 1),
                          Deadline(c), c.clock.atBackoff(r + 1))
    ensures var run := Loop(c, s, r, kw);
      run.exit == TimedOut && |run.calls| == 1 && run.sleeps == [] &&
      run.outcome == Raised(TerminalError(c.classify(c.operation(r, AttemptKwargs(c, r, kw)).result.exception)))
  {
  }
}
