/**
 * The retry executor (`_do_retryable_operation` with `_backoff`) as a
 * function of everything the loop observes: the retry policy, the backoff
 * rule, the error classifier, what each attempt of the operation does, and
 * the clock readings. `Loop` follows one iteration of the `while` loop per
 * call; the handler's method in handler.dfy is proved to compute it.
 */
module RetryExecutor {
  import opened Common
  import opened Errors
  import opened Lifecycle

  datatype RetryMode = Fixed | Exponential

  /** The retry settings of the handler's configuration (times are whole units). */
  datatype RetryPolicy = RetryPolicy(retryTotal: int, mode: RetryMode, backoffFactor: int, backoffMax: int)

  /** `_get_backoff_time(retry_mode, backoff_factor, backoff_max, retried_times)`. */
  type BackoffTime = (RetryMode, int, int, nat) -> int

  /** The keyword arguments the loop itself sets for the operation. */
  datatype Kwargs = Kwargs(timeout: Option<int>, lastException: Option<ServiceBusError>)

  datatype AttemptResult<T> = Success(value: T) | Failure(exception: Exception)

  /**
   * What one call of the operation does: its result, and the link and
   * running flag it leaves on the handler (an operation opens the handler
   * first, and that may attach a link).
   */
  datatype Attempt<T> = Attempt(result: AttemptResult<T>, link: Option<Link>, running: bool)

  /** The operation, as what its call number `i` does given its keyword arguments. */
  type Operation<T> = (nat, Kwargs) -> Attempt<T>

  /**
   * The readings of `time.time()`: at the start of the call, before attempt
   * `i`, and in `_backoff` once `retried_times` has become `n`.
   */
  datatype Clock = Clock(start: int, beforeAttempt: nat -> int, atBackoff: nat -> int)

  /** Everything one call of `_do_retryable_operation` depends on. */
  datatype RetryCall<T> = RetryCall(
    policy: RetryPolicy,
    backoffTime: BackoffTime,
    classify: Exception -> ServiceBusError,   // create_servicebus_exception
    operation: Operation<T>,
    clock: Clock,
    timeout: Option<int>,
    requireLastException: bool,
    operationRequiresTimeout: bool)

  /** How the call ends: a value, Python's `None` when the loop body never runs, or an exception. */
  datatype Outcome<T> = Returned(value: T) | FellThrough | Raised(exception: Exception)

  /** Which exit of the loop was taken (the log line the source writes). */
  datatype Exit = Succeeded | Propagated | NotRetried | Exhausted | TimedOut | NoAttempt

  /** The outcome, the handler state after the call, the keyword arguments of
      every call of the operation and every backoff slept, in order. */
  datatype Run<T> = Run(outcome: Outcome<T>, exit: Exit, state: HandlerState, calls: seq<Kwargs>, sleeps: seq<int>)

  const NextAvailableSessionGuidance :=
    "If trying to receive from NEXT_AVAILABLE_SESSION, use max_wait_time on the ServiceBusReceiver to control the timeout."

  /** The exceptions that leave the loop at once, unclassified. */
  predicate Escapes(e: Exception)
  {
    e.StopAsyncIteration? || e.ImportError?
  }

  /**
   * What `_backoff` raises when there is no time left for the backoff after
   * `last`: a timeout is replaced by a new timeout error with guidance,
   * caused by the original; anything else is raised as it is, cause included.
   */
  function TerminalError(last: ServiceBusError): (e: Exception)
    ensures e.ServiceBus? && e.error.kind == last.kind
    ensures last.kind == OperationTimeout ==>
      e.error.message == Some(NextAvailableSessionGuidance) && e.error.cause == Some(ServiceBus(last))
    ensures last.kind != OperationTimeout ==> e == ServiceBus(last)
  {
    if last.kind == OperationTimeout then
      ServiceBus(NewError(OperationTimeout, Some(NextAvailableSessionGuidance), None, Some(ServiceBus(last))))
    else ServiceBus(last)
  }

  /**
   * What the loop raises once the retries are exhausted after `last`: a
   * timeout is wrapped as by `_backoff`; anything else is raised `from None`,
   * which clears its cause.
   */
  function ExhaustedError(last: ServiceBusError): (e: Exception)
    ensures e.ServiceBus? && e.error.kind == last.kind
    ensures last.kind == OperationTimeout ==> e == TerminalError(last)
    ensures last.kind != OperationTimeout ==> e.error.cause == None && e.error == TerminalError(last).error.(cause := None)
  {
    if last.kind == OperationTimeout then
      ServiceBus(NewError(OperationTimeout, Some(NextAvailableSessionGuidance), None, Some(ServiceBus(last))))
    else ServiceBus(last.(cause := None))
  }

  /** `abs_timeout_time`: only an operation that requires a timeout, given a truthy one, has a deadline. */
  function Deadline<T>(c: RetryCall<T>): (d: Option<int>)
    ensures d.Some? <==> c.operationRequiresTimeout && TruthyInt(c.timeout)
    ensures d.Some? ==> d.value == c.clock.start + c.timeout.value
  {
    if c.operationRequiresTimeout && TruthyInt(c.timeout) then Some(c.clock.start + c.timeout.value) else None
  }

  /** The keyword arguments of call `i`: with a (truthy) deadline, the remaining time is passed as `timeout`. */
  function AttemptKwargs<T>(c: RetryCall<T>, i: nat, kw: Kwargs): Kwargs
  {
    var d := Deadline(c);
    if TruthyInt(d) then kw.(timeout := Some(d.value - c.clock.beforeAttempt(i))) else kw
  }

  datatype BackoffStep = Sleep(delay: int) | GiveUp(error: Exception)

  /** Whether `_backoff` sleeps `delay` at time `now` under `deadline`. */
  predicate BackoffFits(policy: RetryPolicy, delay: int, deadline: Option<int>, now: int)
  {
    delay <= policy.backoffMax && (deadline.None? || delay + now <= deadline.value)
  }

  /** `_backoff` after the `retried`-th failure `last`, at time `now`. */
  function BackoffAt(policy: RetryPolicy, backoffTime: BackoffTime, retried: nat, last: ServiceBusError,
                     deadline: Option<int>, now: int): (step: BackoffStep)
    ensures var delay := backoffTime(policy.mode, policy.backoffFactor, policy.backoffMax, retried);
      (step.Sleep? <==> BackoffFits(policy, delay, deadline, now)) &&
      (step.Sleep? ==> step.delay == delay && step.delay <= policy.backoffMax) &&
      (step.GiveUp? ==> step.error == TerminalError(last))
  {
    var delay := backoffTime(policy.mode, policy.backoffFactor, policy.backoffMax, retried);
    if BackoffFits(policy, delay, deadline, now) then Sleep(delay) else GiveUp(TerminalError(last))
  }

  /** Adds one call and one sleep in front of the rest of a run. */
  function Prepend<T>(kw: Kwargs, delay: int, rest: Run<T>): Run<T>
  {
    rest.(calls := [kw] + rest.calls, sleeps := [delay] + rest.sleeps)
  }

  /** A run continued after calls and sleeps that already happened. */
  function Following<T>(calls: seq<Kwargs>, sleeps: seq<int>, rest: Run<T>): Run<T>
  {
    rest.(calls := calls + rest.calls, sleeps := sleeps + rest.sleeps)
  }

  lemma FollowingPrepend<T>(calls: seq<Kwargs>, sleeps: seq<int>, kw: Kwargs, delay: int, rest: Run<T>)
    ensures Following(calls, sleeps, Prepend(kw, delay, rest)) == Following(calls + [kw], sleeps + [delay], rest)
  {
  }

  /** A run that ends with one last call, after calls and sleeps that already happened. */
  lemma FollowingLast<T>(calls: seq<Kwargs>, sleeps: seq<int>, outcome: Outcome<T>, exit: Exit, s: HandlerState, kw: Kwargs)
    ensures Following(calls, sleeps, Run(outcome, exit, s, [kw], [])) == Run(outcome, exit, s, calls + [kw], sleeps)
  {
  }

  /** A run that ends at the loop head, after calls and sleeps that already happened. */
  lemma FollowingNothing<T>(calls: seq<Kwargs>, sleeps: seq<int>, s: HandlerState)
    ensures Following(calls, sleeps, Run<T>.Run(FellThrough, NoAttempt, s, [], [])) == Run<T>.Run(FellThrough, NoAttempt, s, calls, sleeps)
  {
  }

  /**
   * How one pass of the loop body ends: the whole call is over with `run`, or
   * the handler, now in `state`, slept `delay` after calling the operation
   * with `call` and goes round again with keyword arguments `next`.
   */
  datatype Pass<T> = Finished(run: Run<T>) | Continued(call: Kwargs, delay: int, state: HandlerState, next: Kwargs)

  /** One pass of the loop body, with handler state `s`, `retried_times == retried` and keyword arguments `kw`. */
  function OnePass<T>(c: RetryCall<T>, s: HandlerState, retried: nat, kw: Kwargs): Pass<T>
  {
    var kw1 := AttemptKwargs(c, retried, kw);
    var attempt := c.operation(retried, kw1);
    var s1 := s.(link := attempt.link, running := attempt.running);
    match attempt.result
    case Success(v) => Finished(Run(Returned(v), Succeeded, s1, [kw1], []))
    case Failure(e) =>
      if Escapes(e) then Finished(Run(Raised(e), Propagated, s1, [kw1], []))
      else
        var error := c.classify(e);
        var s2 := AfterException(s1, error);
        if ReRaises(s1, error) then Finished(Run(Raised(ServiceBus(error)), NotRetried, s2, [kw1], []))
        else
          var kw2 := if c.requireLastException then kw1.(lastException := Some(error)) else kw1;
          // the retry count is checked before `_backoff` looks at the deadline
          if retried + 1 > c.policy.retryTotal then Finished(Run(Raised(ExhaustedError(error)), Exhausted, s2, [kw1], []))
          else
            match BackoffAt(c.policy, c.backoffTime, retried + 1, error, Deadline(c), c.clock.atBackoff(retried + 1))
            case GiveUp(x) => Finished(Run(Raised(x), TimedOut, s2, [kw1], []))
            case Sleep(delay) => Continued(kw1, delay, s2, kw2)
  }

  /**
   * The loop from its head, with handler state `s`, `retried_times == retried`
   * and keyword arguments `kw`.
   */
  function Loop<T>(c: RetryCall<T>, s: HandlerState, retried: nat, kw: Kwargs): Run<T>
    decreases c.policy.retryTotal + 1 - retried
  {
    if retried > c.policy.retryTotal then Run(FellThrough, NoAttempt, s, [], [])
    else
      match OnePass(c, s, retried, kw)
      case Finished(run) => run
      case Continued(call, delay, s2, next) => Prepend(call, delay, Loop(c, s2, retried + 1, next))
  }

  /** `_do_retryable_operation` on a handler in state `s`. */
  function Retry<T>(c: RetryCall<T>, s: HandlerState): Run<T>
  {
    Loop(c, s, 0, Kwargs(None, None))
  }
}
