/**
 * `_mgmt_request_response_with_retry`: the retry executor running
 * `_mgmt_request_response` as its operation, so that each attempt sends a
 * management request carrying the time then left before the deadline.
 */
module ManagementRetry {
  import opened Common
  import opened Errors
  import opened Lifecycle
  import opened Management
  import opened RetryExecutor
  import opened RetryProperties

  /** What the transport answers to the request of attempt `i`. */
  type Transport<!M, R> = (nat, MgmtRequest<M>) -> Result<R, Exception>

  /** What `_open` does before attempt `i`: whether it raised, and the link and running flag it leaves. */
  type Opener = nat -> Attempt<()>

  /** The request attempt `i` sends, given the keyword arguments the retry loop set for it. */
  function AttemptRequest<M>(mgmtTarget: string, mgmtOperation: string, message: M, keepAliveAssociatedLink: bool,
                             open: Opener, i: nat, kw: Kwargs): MgmtRequest<M>
  {
    BuildRequest(mgmtTarget, mgmtOperation, message, keepAliveAssociatedLink, open(i).link, kw.timeout)
  }

  /**
   * `_mgmt_request_response` as the operation the retry loop calls: `_open`
   * first, which may raise, then the request with the loop's `timeout`, whose
   * answer is passed on with transport timeouts mapped.
   */
  function MgmtOperation<M, R>(mgmtTarget: string, mgmtOperation: string, message: M, keepAliveAssociatedLink: bool,
                               open: Opener, send: Transport<M, R>): Operation<R>
  {
    (i: nat, kw: Kwargs) =>
      var afterOpen := open(i);
      if afterOpen.result.Failure? then Attempt(Failure(afterOpen.result.exception), afterOpen.link, afterOpen.running)
      else
        var answer := MapTransportTimeout(send(i, AttemptRequest(mgmtTarget, mgmtOperation, message,
                                                                 keepAliveAssociatedLink, open, i, kw)));
        Attempt(if answer.Ok? then Success(answer.value) else Failure(answer.error), afterOpen.link, afterOpen.running)
  }

  /** `_mgmt_request_response_with_retry` on a handler with the given policy, backoff rule and classifier. */
  function MgmtRetryCall<M, R>(policy: RetryPolicy, backoffTime: BackoffTime, classify: Exception -> ServiceBusError,
                               mgmtTarget: string, mgmtOperation: string, message: M, keepAliveAssociatedLink: bool,
                               open: Opener, send: Transport<M, R>, clock: Clock, timeout: Option<int>): RetryCall<R>
  {
    RetryCall(policy, backoffTime, classify,
              MgmtOperation(mgmtTarget, mgmtOperation, message, keepAliveAssociatedLink, open, send),
              clock, timeout, false, true)
  }

  /**
   * Every request of a retried management call is sent with the time left
   * before the deadline `start + timeout` when that deadline is truthy, and
   * with no timeout otherwise; an attempt whose request fails with a
   * transport timeout fails with an `OperationTimeoutError` instead.
   */
  lemma RetriedRequestsCarryRemainingTime<M, R>(policy: RetryPolicy, backoffTime: BackoffTime,
                                                classify: Exception -> ServiceBusError, mgmtTarget: string,
                                                mgmtOperation: string, message: M, keepAliveAssociatedLink: bool,
                                                open: Opener, send: Transport<M, R>, clock: Clock,
                                                timeout: Option<int>, s: HandlerState)
    ensures var c := MgmtRetryCall(policy, backoffTime, classify, mgmtTarget, mgmtOperation, message,
                                   keepAliveAssociatedLink, open, send, clock, timeout);
      var run := Retry(c, s);
      forall k :: 0 <= k < |run.calls| ==>
        var request := AttemptRequest(mgmtTarget, mgmtOperation, message, keepAliveAssociatedLink, open, k, run.calls[k]);
        request.node == mgmtTarget && request.operation == mgmtOperation &&
        request.timeout == (if TruthyInt(timeout) && clock.start + timeout.value != 0
                            then Some(clock.start + timeout.value - clock.beforeAttempt(k)) else None) &&
        (open(k).result.Success? ==>
          var result := c.operation(k, run.calls[k]).result;
          result.Failure? ==> !IsTransportTimeout(result.exception))
  {
    var c := MgmtRetryCall(policy, backoffTime, classify, mgmtTarget, mgmtOperation, message,
                           keepAliveAssociatedLink, open, send, clock, timeout);
    var run := Retry(c, s);
    CallsSeeRemainingTime(c, s);
    forall k | 0 <= k < |run.calls|
      ensures open(k).result.Success? ==>
        var result := c.operation(k, run.calls[k]).result;
        result.Failure? ==> !IsTransportTimeout(result.exception)
    {
      var answer := send(k, AttemptRequest(mgmtTarget, mgmtOperation, message, keepAliveAssociatedLink, open, k, run.calls[k]));
      OnlyTransportTimeoutsAreMapped(answer);
    }
  }
}
