/**
 * The asynchronous base handler: its addresses and credential, fixed at
 * construction, and the lifecycle fields `_handler`, `_running` and
 * `_shutdown` that its methods update in place. Each method is proved to
 * follow the specification functions of Lifecycle, RetryExecutor and
 * Management.
 */
module Handler {
  import opened Common
  import opened Errors
  import opened Credentials
  import opened Addressing
  import opened Lifecycle
  import opened RetryExecutor
  import opened Management
  import opened ManagementRetry

  /** The part of a session receiver's session the base handler reads and sets. */
  class Session {
    var lockLost: bool
    var lockExpired: bool
    var autoRenewError: Option<Exception>
  }

  class BaseHandler {
    const fullyQualifiedNamespace: string
    const entityName: string
    const entityPath: string
    const mgmtTarget: string
    const credential: Credential
    const policy: RetryPolicy
    /** `_get_backoff_time` */
    const backoffTime: BackoffTime
    /** The transport's `create_servicebus_exception` */
    const createServiceBusException: Exception -> ServiceBusError
    /** `_session` of a session receiver; `null` for handlers without one. */
    const session: Session?

    /** `_handler`: the open link, if any */
    var handler: Option<Link>
    /** `_running` */
    var running: bool
    /** whether the `_shutdown` event is set */
    var shutdown: bool
    /** the links whose `close_async` this handler has called, in order */
    var closedLinks: seq<Link>

    function State(): HandlerState
      reads this, session
    {
      HandlerState(handler, running, shutdown,
        if session == null then None
        else Some(SessionState(session.lockLost, session.lockExpired, session.autoRenewError)),
        closedLinks)
    }

    /**
     * `__init__`, given the namespace already stripped of its protocol. The
     * session is assigned by session receivers; other handlers pass `null`.
     */
    constructor (fullyQualifiedNamespace: string, entityName: string, credential: CredentialArg,
                 subscriptionName: Option<string>, policy: RetryPolicy, backoffTime: BackoffTime,
                 createServiceBusException: Exception -> ServiceBusError, session: Session?)
      ensures this.entityPath == EntityPath(entityName, subscriptionName)
      ensures this.mgmtTarget == ManagementTarget(this.entityPath)
      ensures this.credential == WrapCredential(credential)
      ensures this.fullyQualifiedNamespace == fullyQualifiedNamespace && this.entityName == entityName
      ensures this.policy == policy && this.backoffTime == backoffTime
      ensures this.createServiceBusException == createServiceBusException && this.session == session
      ensures handler == None && !running && !shutdown && closedLinks == []
    {
      this.fullyQualifiedNamespace := fullyQualifiedNamespace;
      this.entityName := entityName;
      var path := EntityPath(entityName, subscriptionName);
      this.entityPath := path;
      this.mgmtTarget := ManagementTarget(path);
      this.credential := WrapCredential(credential);
      this.policy := policy;
      this.backoffTime := backoffTime;
      this.createServiceBusException := createServiceBusException;
      this.session := session;
      running := false;
      handler := None;
      shutdown := false;
      closedLinks := [];
    }

    /** Everything one call of `_do_retryable_operation` on this handler depends on. */
    function Call<T>(operation: Operation<T>, clock: Clock, timeout: Option<int>,
                     requireLastException: bool, operationRequiresTimeout: bool): RetryCall<T>
    {
      RetryCall(policy, backoffTime, createServiceBusException, operation, clock, timeout,
                requireLastException, operationRequiresTimeout)
    }

    /** `_close_handler` */
    method CloseHandler()
      modifies this
      ensures State() == Lifecycle.CloseHandler(old(State()))
      ensures handler == None && !running && shutdown == old(shutdown)
    {
      if handler.Some? {
        closedLinks := closedLinks + [handler.value];   // close_async
        handler := None;
      }
      running := false;
    }

    /** `close` */
    method Close()
      modifies this
      ensures State() == Lifecycle.Close(old(State()))
      ensures shutdown && LiveError(State()) == Some(ValueError(ShutdownMessage))
    {
      CloseHandler();
      shutdown := true;
    }

    /** `_check_live`: the error it raises, if any. */
    method CheckLive() returns (error: Option<Exception>)
      ensures error == LiveError(State())
      ensures shutdown ==> error == Some(ValueError(ShutdownMessage))
      ensures error.None? ==> !shutdown && (session == null || (!session.lockLost && !session.lockExpired))
    {
      error := LiveError(State());
    }

    /**
     * `_handle_exception`: classifies `exception` and returns the error, with
     * `raise` set when the source raises it instead of returning it.
     */
    method HandleException(exception: Exception) returns (error: ServiceBusError, raise: bool)
      modifies this, session
      ensures error == createServiceBusException(exception)
      ensures raise == ReRaises(old(State()), error)
      ensures State() == AfterException(old(State()), error)
    {
      error := createServiceBusException(exception);
      if session != null && running && (error.kind == SessionLockLost || error.kind == ServiceBusConnection) {
        session.lockLost := true;
        CloseHandler();
        return error, true;
      }
      if error.shutdownHandler {
        CloseHandler();
      }
      raise := !error.retryable;
    }

    /** `_backoff` after the `retriedTimes`-th failure `lastException`, at time `now`. */
    method Backoff(retriedTimes: nat, lastException: ServiceBusError, absTimeoutTime: Option<int>, now: int)
      returns (step: BackoffStep)
      ensures step == BackoffAt(policy, backoffTime, retriedTimes, lastException, absTimeoutTime, now)
      ensures step.Sleep? ==> step.delay <= policy.backoffMax
      ensures step.Sleep? && absTimeoutTime.Some? ==> now + step.delay <= absTimeoutTime.value
      ensures step.GiveUp? ==> step.error == TerminalError(lastException)
    {
      step := BackoffAt(policy, backoffTime, retriedTimes, lastException, absTimeoutTime, now);
    }

    /**
     * One pass of the body of `_do_retryable_operation`'s `while` loop, with
     * `retried_times == retriedTimes`: calls the operation and either ends the
     * call or sleeps and comes back for another pass.
     */
    method TryOnce<T>(ghost c: RetryCall<T>, operation: Operation<T>, clock: Clock, requireLastException: bool,
                      operationRequiresTimeout: bool, absTimeoutTime: Option<int>, retriedTimes: nat, kwargs: Kwargs)
      returns (pass: Pass<T>)
      modifies this, session
      requires c.policy == policy && c.backoffTime == backoffTime && c.classify == createServiceBusException
      requires c.operation == operation && c.clock == clock && c.requireLastException == requireLastException
      requires c.operationRequiresTimeout == operationRequiresTimeout && absTimeoutTime == Deadline(c)
      ensures pass == OnePass(c, old(State()), retriedTimes, kwargs)
      ensures pass.Finished? ==> pass.run.state == State()
      ensures pass.Continued? ==> pass.state == State()
    {
      var call := kwargs;
      if operationRequiresTimeout && TruthyInt(absTimeoutTime) {
        call := call.(timeout := Some(absTimeoutTime.value - clock.beforeAttempt(retriedTimes)));
      }
      assert call == AttemptKwargs(c, retriedTimes, kwargs);
      var attempt := operation(retriedTimes, call);
      handler, running := attempt.link, attempt.running;
      ghost var s1 := State();
      assert s1 == old(State()).(link := attempt.link, running := attempt.running);
      if attempt.result.Success? {
        return Finished(Run(Returned(attempt.result.value), Succeeded, State(), [call], []));
      }
      var e := attempt.result.exception;
      if Escapes(e) {
        return Finished(Run(Raised(e), Propagated, State(), [call], []));
      }
      var lastException, raise := HandleException(e);
      if raise {
        return Finished(Run(Raised(ServiceBus(lastException)), NotRetried, State(), [call], []));
      }
      var next := call;
      if requireLastException {
        next := call.(lastException := Some(lastException));
      }
      if retriedTimes + 1 > policy.retryTotal {
        return Finished(Run(Raised(ExhaustedError(lastException)), Exhausted, State(), [call], []));
      }
      var step := Backoff(retriedTimes + 1, lastException, absTimeoutTime, clock.atBackoff(retriedTimes + 1));
      if step.GiveUp? {
        return Finished(Run(Raised(step.error), TimedOut, State(), [call], []));
      }
      pass := Continued(call, step.delay, State(), next);
    }

    /**
     * `_do_retryable_operation`: returns how the call ended, which exit it
     * took, the keyword arguments of each call of the operation and each
     * backoff slept.
     */
    method DoRetryableOperation<T>(operation: Operation<T>, clock: Clock, timeout: Option<int>,
                                   requireLastException: bool, operationRequiresTimeout: bool)
      returns (outcome: Outcome<T>, exit: Exit, calls: seq<Kwargs>, sleeps: seq<int>)
      modifies this, session
      ensures Run(outcome, exit, State(), calls, sleeps)
           == Retry(Call(operation, clock, timeout, requireLastException, operationRequiresTimeout), old(State()))
    {
      ghost var c := Call(operation, clock, timeout, requireLastException, operationRequiresTimeout);
      ghost var s0 := State();
      var retriedTimes: nat := 0;
      var absTimeoutTime := if operationRequiresTimeout && TruthyInt(timeout) then Some(clock.start + timeout.value) else None;
      var kwargs := Kwargs(None, None);
      calls, sleeps := [], [];
      ghost var rest := Retry(c, s0);
      while retriedTimes <= policy.retryTotal
        invariant rest == Loop(c, State(), retriedTimes, kwargs)
        invariant Retry(c, s0) == Following(calls, sleeps, rest)
        decreases policy.retryTotal + 1 - retriedTimes
      {
        var pass := TryOnce(c, operation, clock, requireLastException, operationRequiresTimeout,
                            absTimeoutTime, retriedTimes, kwargs);
        match pass {
          case Finished(run) =>
            assert rest == run;
            FollowingLast(calls, sleeps, run.outcome, run.exit, run.state, run.calls[0]);
            outcome, exit, calls := run.outcome, run.exit, calls + run.calls;
            return;
          case Continued(call, delay, _, next) =>
            ghost var after := Loop(c, State(), retriedTimes + 1, next);
            assert rest == Prepend(call, delay, after);
            FollowingPrepend(calls, sleeps, call, delay, after);
            calls, sleeps := calls + [call], sleeps + [delay];
            retriedTimes, kwargs, rest := retriedTimes + 1, next, after;
        }
      }
      assert rest == Run(FellThrough, NoAttempt, State(), [], []);
      FollowingNothing<T>(calls, sleeps, State());
      outcome, exit := FellThrough, NoAttempt;
    }

    /**
     * `_mgmt_request_response_with_retry`: the retry loop, with
     * `operation_requires_timeout` set, around `_mgmt_request_response` for
     * this handler's management node (`_open` is `open`, the transport `send`).
     */
    method MgmtRequestResponseWithRetry<M, R>(mgmtOperation: string, message: M, keepAliveAssociatedLink: bool,
                                              open: Opener, send: Transport<M, R>, clock: Clock, timeout: Option<int>)
      returns (outcome: Outcome<R>, exit: Exit, calls: seq<Kwargs>, sleeps: seq<int>)
      modifies this, session
      ensures Run(outcome, exit, State(), calls, sleeps)
           == Retry(MgmtRetryCall(policy, backoffTime, createServiceBusException, mgmtTarget, mgmtOperation, message,
                                  keepAliveAssociatedLink, open, send, clock, timeout), old(State()))
    {
      var operation := MgmtOperation(mgmtTarget, mgmtOperation, message, keepAliveAssociatedLink, open, send);
      outcome, exit, calls, sleeps := DoRetryableOperation(operation, clock, timeout, false, true);
    }

    /**
     * `_mgmt_request_response` once the handler is open: sends the request
     * for `mgmtOperation` to the management node through `send` (the
     * transport's `mgmt_client_request_async` with the response callback)
     * and passes the answer on, a transport timeout as `OperationTimeoutError`.
     */
    method MgmtRequestResponse<M, R>(mgmtOperation: string, message: M, keepAliveAssociatedLink: bool,
                                     timeout: Option<int>, send: MgmtRequest<M> -> Result<R, Exception>)
      returns (response: Result<R, Exception>)
      ensures response == MapTransportTimeout(send(BuildRequest(mgmtTarget, mgmtOperation, message,
                                                                keepAliveAssociatedLink, handler, timeout)))
      ensures response.Err? ==> !IsTransportTimeout(response.error)
    {
      var answer := send(BuildRequest(mgmtTarget, mgmtOperation, message, keepAliveAssociatedLink, handler, timeout));
      response := MapTransportTimeout(answer);
    }
  }
}
