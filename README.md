# Service Bus asynchronous base handler, modelled in Dafny

This project models the asynchronous base handler of the Azure Service Bus
Python client (`azure/servicebus/aio/_base_handler_async.py`). Every
sender, receiver and session receiver inherits this handler. The model covers:

- **Credential adapters** (`credentials.dfy`). The four adapter classes and
  their `get_token(*scopes)`. A stored SAS token is returned as it is. A
  shared key or named key is signed for the first scope, and no scope at all
  raises `ValueError("No token scope provided.")`. An `AzureSasCredential` is
  parsed into a signature and an expiry. Also modelled: how the constructor
  wraps the credential it is given. The azure-core `AzureNamedKeyCredential`
  and `AzureSasCredential` are objects the caller owns; an adapter holds the
  caller's object and reads its current key or signature at each `get_token`.
- **Addresses** (`addressing.dfy`). The entity path (`<topic>/Subscriptions/<name>`
  when a subscription name is given) and the management node
  `<entity path>/$management`.
- **Lifecycle** (`lifecycle.dfy`, `handler.dfy`). `_close_handler`, `close`,
  `_check_live` and `_handle_exception`, including the session lock-lost
  short-circuit. `lifecycle.dfy` states these as functions on a
  `HandlerState` value. The `BaseHandler` class in `handler.dfy` keeps that
  state in mutable fields (`handler`, `running`, `shutdown`) and a `Session`
  object, and each method is proved to follow its function.
- **Retry executor** (`retry.dfy`, `retry_properties.dfy`, `handler.dfy`).
  `_do_retryable_operation` and `_backoff`.
  - `retry.dfy` gives the loop as the recursive function `Loop`, and
    `OnePass` is one pass of its body.
  - `BaseHandler.DoRetryableOperation` runs the same `while` loop and is
    proved to compute `Retry`.
  - `retry_properties.dfy` proves what the loop promises: the number of
    calls, the early exits, that non-retryable errors are raised once, the
    deadline and backoff rules, the timeout wrapping, and that the retry
    count is checked before the deadline.
- **Management requests** (`management.dfy`, `handler.dfy`). The request
  that `_mgmt_request_response` hands to the transport, how a transport
  timeout becomes an `OperationTimeoutError` caused by it, and the retrying
  variant `_mgmt_request_response_with_retry` (`management_retry.dfy`), which
  retries `_mgmt_request_response` and sends each request with the time left.

How the environment is modelled:

- **Time.** Times are whole numbers. The clock is a `Clock` record of
  readings:
  - `start`, at the start of the call;
  - `beforeAttempt(i)`, before attempt `i`;
  - `atBackoff(n)`, inside `_backoff` once `retried_times` is `n`.
- **The operation.** It is a function from the attempt number and the
  keyword arguments the loop sets (`timeout`, `last_exception`) to an
  `Attempt`. An `Attempt` holds the result (a value or an exception) and the
  link and running flag the operation leaves. A subclass operation opens the
  handler first, so it may attach a link.
- **External collaborators.** These are given as function-valued
  parameters and are not part of this model:
  - the transport's error classifier `create_servicebus_exception`;
  - `_get_backoff_time`;
  - `_generate_sas_token`;
  - `parse_sas_credential`;
  - the management transport call.
- **Constants from the library's constants and exceptions modules.**
  - `MANAGEMENT_PATH_SUFFIX = "/$management"`
  - `ASSOCIATEDLINKPROPERTYNAME = "associated-link-name"`
  - `MGMT_REQUEST_OP_TYPE_ENTITY_MGMT = "entity-mgmt"`
  - `TOKEN_TYPE_SASTOKEN`
  - the default `retryable` / `shutdown_handler` flags of the three error
    classes the handler constructs itself.

  Those modules are not part of this model. The values are written into
  `addressing.dfy`, `management.dfy`, `credentials.dfy` and `errors.dfy`, and
  no proved property depends on the flag defaults.

Points where the model follows the code as written:

- **Negative `retry_total`.** It is not rejected. The loop body never runs
  and the call returns `None` (`FellThrough`).
- **Backoff limit.** `_backoff` also requires the delay to be at most
  `retry_backoff_max`, whether or not `_get_backoff_time` clamps it.
- **Cause of an exhausted error.** A non-timeout error raised after the last
  attempt is raised `from None`, which clears its cause (`ExhaustedError`).
  When `_backoff` gives up it raises the error as it is, cause included
  (`TerminalError`).
- **Deadline truthiness.** The deadline is tested for truthiness before
  each attempt (a deadline of `0` passes no timeout). In `_backoff` it is
  tested only for `None`.

## Model

| member | source | states |
|---|---|---|
| Credentials.TokenType | sdk/servicebus/azure-servicebus/azure/servicebus/aio/_base_handler_async.py:48-55 | every adapter announces the SAS token type `servicebus.windows.net:sastoken` |
| Credentials.GetToken | sdk/servicebus/azure-servicebus/azure/servicebus/aio/_base_handler_async.py:57-121 | a stored SAS token returns its token and expiry; a shared key or named key fails with `ValueError("No token scope provided.")` exactly when no scope is given, and otherwise returns the token generated for the first scope with its policy and key, or with the name and key the caller's named-key credential holds at the time of the call; an `AzureSasCredential` adapter returns the parse of the credential's current signature |
| Credentials.GetTokenUsesFirstScopeOnly | sdk/servicebus/azure-servicebus/azure/servicebus/aio/_base_handler_async.py:79-82 | scopes after the first never change the token |
| Credentials.StoredTokensIgnoreScopes | sdk/servicebus/azure-servicebus/azure/servicebus/aio/_base_handler_async.py:113-121 | the SAS-token and SAS-credential adapters always succeed and give the same token for any scopes, none included |
| Credentials.WrapCredential | sdk/servicebus/azure-servicebus/azure/servicebus/aio/_base_handler_async.py:141-146 | an `AzureSasCredential` is wrapped in the SAS adapter and an `AzureNamedKeyCredential` in the named-key adapter, each holding the caller's own object; any other credential is kept as given |
| Credentials.NamedKeyWrappingSignsWithTheKey | sdk/servicebus/azure-servicebus/azure/servicebus/aio/_base_handler_async.py:95-99 | a wrapped named key yields the same token as a shared key with the name and key the caller's credential holds at that time |
| Addressing.EntityPath | sdk/servicebus/azure-servicebus/azure/servicebus/aio/_base_handler_async.py:138-139 | the path starts with the entity name; a missing or empty subscription name adds nothing, otherwise `/Subscriptions/<name>` follows |
| Addressing.ManagementTarget | sdk/servicebus/azure-servicebus/azure/servicebus/aio/_base_handler_async.py:140 | the management node is the entity path followed by `/$management` |
| Addressing.SubscriptionsHaveDistinctTargets | sdk/servicebus/azure-servicebus/azure/servicebus/aio/_base_handler_async.py:138-140 | two different non-empty subscriptions of one topic get different management nodes |
| Lifecycle.CloseHandlerTearsDown | sdk/servicebus/azure-servicebus/azure/servicebus/aio/_base_handler_async.py:388-392 | after `_close_handler` there is no link and the handler is not running; the open link, and only it, was closed; shutdown and session are untouched |
| Lifecycle.CloseHandlerIdempotent | sdk/servicebus/azure-servicebus/azure/servicebus/aio/_base_handler_async.py:388-392 | a second `_close_handler` changes nothing and closes no link twice |
| Lifecycle.CloseIsTerminal | sdk/servicebus/azure-servicebus/azure/servicebus/aio/_base_handler_async.py:394-403 | `close` sets shutdown, repeating it changes nothing, `_check_live` then raises the shutdown `ValueError`, and at most one link is closed |
| Lifecycle.LiveErrorCases | sdk/servicebus/azure-servicebus/azure/servicebus/aio/_base_handler_async.py:198-219 | `_check_live` raises exactly on a shut-down handler or a lost or expired session lock: the shutdown `ValueError` first, otherwise a `SessionLockLostError` carrying the auto-renew error |
| Lifecycle.AfterExceptionKeepsShutdown | sdk/servicebus/azure-servicebus/azure/servicebus/aio/_base_handler_async.py:173-196 | handling an exception never changes the shutdown flag |
| Lifecycle.LostSessionStaysLost | sdk/servicebus/azure-servicebus/azure/servicebus/aio/_base_handler_async.py:184-187 | a lock-lost or connection error on a running session receiver marks the lock lost, closes the handler, is raised whatever its retryable flag, and from then on `_check_live` fails |
| Lifecycle.AfterExceptionOtherwise | sdk/servicebus/azure-servicebus/azure/servicebus/aio/_base_handler_async.py:191-196 | otherwise the error is raised exactly when it is not retryable, a `shutdown_handler` error closes the handler, and any other error leaves the state unchanged |
| RetryExecutor.TerminalError | sdk/servicebus/azure-servicebus/azure/servicebus/aio/_base_handler_async.py:291-301 | when `_backoff` gives up on an `OperationTimeoutError` it raises a new one with the NEXT_AVAILABLE_SESSION guidance and the original as its cause; any other error is raised unchanged, cause included |
| RetryExecutor.ExhaustedError | sdk/servicebus/azure-servicebus/azure/servicebus/aio/_base_handler_async.py:251-261 | after the last attempt a timeout is wrapped as by `_backoff`; any other error is raised with its cause cleared, and otherwise as `_backoff` would raise it |
| RetryExecutor.Deadline | sdk/servicebus/azure-servicebus/azure/servicebus/aio/_base_handler_async.py:227 | there is an absolute deadline exactly when the operation requires a timeout and a truthy timeout is given, and it is the start time plus the timeout |
| RetryExecutor.BackoffAt | sdk/servicebus/azure-servicebus/azure/servicebus/aio/_base_handler_async.py:268-301 | `_backoff` sleeps exactly when the computed delay is within `retry_backoff_max` and, with a deadline, ends by it; it then sleeps that delay, and otherwise raises the last error wrapped as for exhaustion |
| RetryProperties.LoopStep | sdk/servicebus/azure-servicebus/azure/servicebus/aio/_base_handler_async.py:240-266 | a retryable failure before the last attempt (not a session failure of a running session receiver), when every backoff is within `retry_backoff_max` and the deadline, records one call and one sleep and continues with the next attempt |
| RetryProperties.LoopCounts | sdk/servicebus/azure-servicebus/azure/servicebus/aio/_base_handler_async.py:229-266 | from attempt `r` within the budget, the operation runs between 1 and `retry_total + 1 - r` times, with one sleep between consecutive calls; the call returns a value exactly when it succeeded; exhaustion uses every attempt and a timeout stops before the last one |
| RetryProperties.LoopSleeps | sdk/servicebus/azure-servicebus/azure/servicebus/aio/_base_handler_async.py:262-279 | every sleep is the policy's delay for that retry count and fits `retry_backoff_max` and the deadline |
| RetryProperties.LoopTimeouts | sdk/servicebus/azure-servicebus/azure/servicebus/aio/_base_handler_async.py:231-233 | with a truthy deadline each call is given the time remaining before it; without one, the timeout is left as it was |
| RetryProperties.LoopLastErrors | sdk/servicebus/azure-servicebus/azure/servicebus/aio/_base_handler_async.py:241-243 | with `require_last_exception` each call after the first is given the classified error of the failed call before it; without it, what the run started with |
| RetryProperties.LoopKeepsShutdown | sdk/servicebus/azure-servicebus/azure/servicebus/aio/_base_handler_async.py:221-266 | the loop never changes the shutdown flag, never drops a session and never clears a lost lock |
| RetryProperties.LoopLastCallDecides | sdk/servicebus/azure-servicebus/azure/servicebus/aio/_base_handler_async.py:229-301 | from any attempt `r`, the last call decides the end: a success returns its value, `StopAsyncIteration`/`ImportError` are raised unclassified, an error `_handle_exception` raises is raised classified (a lost session then marked lost with the handler closed), and giving up follows a retryable failure and raises its error, cleared of its cause on exhaustion and a timeout wrapped; every earlier call failed retryably |
| RetryProperties.PersistentFailureLoop | sdk/servicebus/azure-servicebus/azure/servicebus/aio/_base_handler_async.py:229-266 | when every call from `r` on fails retryably and every backoff is within `retry_backoff_max` and the deadline (with or without one), the loop exhausts with `retry_total + 1 - r` calls and one sleep fewer |
| RetryProperties.RecoveryLoop | sdk/servicebus/azure-servicebus/azure/servicebus/aio/_base_handler_async.py:229-266 | with every backoff within `retry_backoff_max` and the deadline, `k` retryable failures followed by a success return that value after `k + 1` calls and `k` sleeps |
| RetryProperties.AttemptsAreBounded | sdk/servicebus/azure-servicebus/azure/servicebus/aio/_base_handler_async.py:224-245 | a negative `retry_total` never runs the operation and returns `None`; otherwise the operation runs 1 to `retry_total + 1` times with one sleep between consecutive calls |
| RetryProperties.BackoffStaysWithinBudget | sdk/servicebus/azure-servicebus/azure/servicebus/aio/_base_handler_async.py:268-279 | the k-th sleep is the policy's delay for retry `k + 1`, at most `retry_backoff_max`, and ends by the deadline when there is one |
| RetryProperties.CallsSeeRemainingTime | sdk/servicebus/azure-servicebus/azure/servicebus/aio/_base_handler_async.py:227-243 | each call receives the remaining time under a deadline (none otherwise) and, when asked for, the previous call's classified error |
| RetryProperties.RetryKeepsShutdown | sdk/servicebus/azure-servicebus/azure/servicebus/aio/_base_handler_async.py:221-266 | a retried call leaves the shutdown flag as it was and never forgets a lost session |
| RetryProperties.EveryExitFollowsTheLastCall | sdk/servicebus/azure-servicebus/azure/servicebus/aio/_base_handler_async.py:229-301 | whichever call ends a retried call decides it: its value, its escaping exception, its classified error, or on giving up its retryable error (cause cleared on exhaustion, a timeout wrapped with guidance); every earlier call failed retryably |
| RetryProperties.PersistentFailureUsesEveryAttempt | sdk/servicebus/azure-servicebus/azure/servicebus/aio/_base_handler_async.py:229-261 | an operation that always fails retryably, with every backoff within `retry_backoff_max` and the deadline, runs exactly `retry_total + 1` times, sleeps `retry_total` times and raises its last error as exhaustion raises it |
| RetryProperties.RecoversAfterRetryableFailures | sdk/servicebus/azure-servicebus/azure/servicebus/aio/_base_handler_async.py:229-266 | with every backoff within `retry_backoff_max` and the deadline, failing retryably `k` times and then succeeding returns the value after `k + 1` calls and `k` sleeps |
| RetryProperties.FirstCallExits | sdk/servicebus/azure-servicebus/azure/servicebus/aio/_base_handler_async.py:230-241 | a success, a `StopAsyncIteration` or `ImportError`, or an error `_handle_exception` raises ends the call after one attempt and no sleep; the two escaping exceptions are raised unclassified |
| RetryProperties.LostSessionIsNotRetried | sdk/servicebus/azure-servicebus/azure/servicebus/aio/_base_handler_async.py:184-187 | on a session receiver, any call that fails with a lock-lost or connection error while the handler is running is the last call: the error is raised classified, the lock marked lost and the handler closed |
| RetryProperties.ExhaustionCheckedBeforeDeadline | sdk/servicebus/azure-servicebus/azure/servicebus/aio/_base_handler_async.py:244-266 | after the last allowed call fails the loop raises at once, with the same result for any backoff rule and any clock reading in `_backoff` |
| RetryProperties.NoTimeLeftEndsTheCall | sdk/servicebus/azure-servicebus/azure/servicebus/aio/_base_handler_async.py:276-301 | before the last allowed call, a backoff that does not fit ends the call with the last error (wrapped if a timeout), without another call or sleep |
| Management.ApplicationProperties | sdk/servicebus/azure-servicebus/azure/servicebus/aio/_base_handler_async.py:331-339 | the only application property is the associated link's name, present exactly when asked for and a link is open |
| Management.BuildRequest | sdk/servicebus/azure-servicebus/azure/servicebus/aio/_base_handler_async.py:341-358 | the request goes to the management node, is answered to it, carries the operation, the entity-management operation type, the timeout, the body and those properties |
| Management.MapTransportTimeout | sdk/servicebus/azure-servicebus/azure/servicebus/aio/_base_handler_async.py:359-362 | a transport timeout becomes an `OperationTimeoutError` wrapping it and caused by it; any other answer passes through |
| Management.OnlyTransportTimeoutsAreMapped | sdk/servicebus/azure-servicebus/azure/servicebus/aio/_base_handler_async.py:359-362 | exactly the transport timeouts are changed, and no transport timeout reaches the caller |
| Handler.BaseHandler.constructor | sdk/servicebus/azure-servicebus/azure/servicebus/aio/_base_handler_async.py:125-158 | the entity path, management node and wrapped credential are as above; the handler starts with no link, not running and not shut down |
| Handler.BaseHandler.CloseHandler | sdk/servicebus/azure-servicebus/azure/servicebus/aio/_base_handler_async.py:388-392 | the fields follow `Lifecycle.CloseHandler`: no link, not running, the open link closed, shutdown kept |
| Handler.BaseHandler.Close | sdk/servicebus/azure-servicebus/azure/servicebus/aio/_base_handler_async.py:394-403 | the fields follow `Lifecycle.Close`, and the handler is no longer live |
| Handler.BaseHandler.CheckLive | sdk/servicebus/azure-servicebus/azure/servicebus/aio/_base_handler_async.py:198-219 | returns the error `_check_live` raises, the shutdown error when shut down, and none only on a live handler with a usable session |
| Handler.BaseHandler.HandleException | sdk/servicebus/azure-servicebus/azure/servicebus/aio/_base_handler_async.py:173-196 | returns the classified error, raises it exactly as `ReRaises` says, and updates the handler and session as `AfterException` says |
| Handler.BaseHandler.Backoff | sdk/servicebus/azure-servicebus/azure/servicebus/aio/_base_handler_async.py:268-301 | sleeps only within `retry_backoff_max` and the deadline, and otherwise gives up with the wrapped last error, as `BackoffAt` says |
| Handler.BaseHandler.TryOnce | sdk/servicebus/azure-servicebus/azure/servicebus/aio/_base_handler_async.py:230-266 | one pass of the loop body computes `OnePass` on the state before it and leaves the handler in the state it reports |
| Handler.BaseHandler.DoRetryableOperation | sdk/servicebus/azure-servicebus/azure/servicebus/aio/_base_handler_async.py:221-266 | the outcome, exit, calls, sleeps and new handler state are those of `Retry`, so every property proved about `Retry` holds of the method |
| Handler.BaseHandler.MgmtRequestResponseWithRetry | sdk/servicebus/azure-servicebus/azure/servicebus/aio/_base_handler_async.py:364-380 | runs the retry loop, with `operation_requires_timeout` set and no last-exception passing, around `_mgmt_request_response` for this handler's management node |
| ManagementRetry.RetriedRequestsCarryRemainingTime | sdk/servicebus/azure-servicebus/azure/servicebus/aio/_base_handler_async.py:303-380 | every request of a retried management call goes to the management node and is sent with the time left before a truthy deadline, and with no timeout otherwise; no attempt whose request was sent fails with a transport timeout |
| Handler.BaseHandler.MgmtRequestResponse | sdk/servicebus/azure-servicebus/azure/servicebus/aio/_base_handler_async.py:329-362 | sends `BuildRequest` for the handler's link and management node and passes the answer on with transport timeouts mapped, so no transport timeout escapes |

## Left out

- Asynchrony: `await`, `asyncio.sleep`, the `asyncio.Event` and cancellation. A sleep is recorded in the run's `sleeps`, and the event is a boolean.
- Logging (`_LOGGER.info`). The `Exit` value records which log branch was taken.
- Floating-point time and timeouts. They are whole numbers here.
- `_convert_connection_string_to_kwargs`, `__aexit__`, `_open` and `_open_with_retry`. They delegate to the synchronous handler or to subclasses, which are not part of this model. An operation's own opening of the link is folded into the `Attempt` it returns; for a management request, what `_open` does before each attempt is a parameter (`Opener`).
- Constructor details with no behaviour the core depends on: `amqp_transport` selection, `Configuration`, `create_properties`, the random container id, `_auth_uri`, and the stripping of whitespace and protocol from the namespace (`strip_protocol_from_uri` is not part of this model; the constructor takes the stripped namespace).
- Credential `get_token` for a caller's own token credential. It is an external object.
- The transport calls `create_servicebus_exception`, `get_handler_link_name`, `create_mgmt_msg` and `mgmt_client_request_async`, and the response `callback`. They are parameters or records. `get_handler_link_name` is assumed to return the open link's name, or to raise `AttributeError` when there is no link.
- Management request `**kwargs` passed to `create_mgmt_msg`, the `config` argument and the encoding of the node name. The node is kept as a string.
- Exception chaining other than `__cause__`. The implicit `__context__` and `__suppress_context__` are not modelled.
- Exceptions that are not `Exception` subclasses, such as `CancelledError` and `KeyboardInterrupt`.
- `entity_name` of `_backoff`. It only feeds a log line.
