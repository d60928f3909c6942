/**
 * The handler's lifecycle state as a value, and the transitions the base
 * handler makes on it: tearing the link down (`_close_handler`), shutting
 * the handler down (`close`), reacting to a classified error
 * (`_handle_exception`) and the liveness check (`_check_live`).
 * The class in handler.dfy keeps this state in fields and is proved to
 * follow these functions.
 */
module Lifecycle {
  import opened Common
  import opened Errors

  /** An open AMQP link, known by its link name. */
  datatype Link = Link(name: string)

  /** The fields of a session receiver's `_session` the handler reads or sets. */
  datatype SessionState = SessionState(lockLost: bool, lockExpired: bool, autoRenewError: Option<Exception>)

  /**
   * `_handler`, `_running`, whether `_shutdown` is set, the `_session`
   * (absent for handlers that have none), and the links whose
   * `close_async` the handler has called, in order.
   */
  datatype HandlerState = HandlerState(
    link: Option<Link>,
    running: bool,
    shutdown: bool,
    session: Option<SessionState>,
    closedLinks: seq<Link>)

  const ShutdownMessage := "The handler has already been shutdown. Please use ServiceBusClient to create a new instance."

  /** `_close_handler` */
  function CloseHandler(s: HandlerState): HandlerState
  {
    var closed := if s.link.Some? then s.closedLinks + [s.link.value] else s.closedLinks;
    s.(link := None, running := false, closedLinks := closed)
  }

  /** `close` */
  function Close(s: HandlerState): HandlerState
  {
    CloseHandler(s).(shutdown := true)
  }

  /** The errors after which a running session receiver gives its session up. */
  predicate IsSessionFailure(e: ServiceBusError)
  {
    e.kind == SessionLockLost || e.kind == ServiceBusConnection
  }

  /** The lock-lost short-circuit of `_handle_exception` applies. */
  predicate LosesSession(s: HandlerState, e: ServiceBusError)
  {
    s.session.Some? && s.running && IsSessionFailure(e)
  }

  /** Whether `_handle_exception` raises the classified error instead of returning it. */
  predicate ReRaises(s: HandlerState, e: ServiceBusError)
  {
    LosesSession(s, e) || !e.retryable
  }

  /** The state `_handle_exception` leaves behind for the classified error `e`. */
  function AfterException(s: HandlerState, e: ServiceBusError): HandlerState
  {
    if LosesSession(s, e) then CloseHandler(s.(session := Some(s.session.value.(lockLost := true))))
    else if e.shutdownHandler then CloseHandler(s)
    else s
  }

  /** The error `_check_live` raises, if any. */
  function LiveError(s: HandlerState): Option<Exception>
  {
    if s.shutdown then Some(ValueError(ShutdownMessage))
    else if s.session.Some? && (s.session.value.lockLost || s.session.value.lockExpired) then
      Some(ServiceBus(NewError(SessionLockLost, None, s.session.value.autoRenewError, None)))
    else None
  }

  /** Tearing down leaves no link and not running, closes the link that was
      open (and only that one) and touches neither shutdown nor session. */
  lemma CloseHandlerTearsDown(s: HandlerState)
    ensures CloseHandler(s).link == None && !CloseHandler(s).running
    ensures CloseHandler(s).shutdown == s.shutdown && CloseHandler(s).session == s.session
    ensures s.link.None? ==> CloseHandler(s).closedLinks == s.closedLinks
    ensures s.link.Some? ==> CloseHandler(s).closedLinks == s.closedLinks + [s.link.value]
  {
  }

  /** `_close_handler` is idempotent: a second call closes nothing more. */
  lemma CloseHandlerIdempotent(s: HandlerState)
    ensures CloseHandler(CloseHandler(s)) == CloseHandler(s)
  {
  }

  /** `close` may be repeated; it sets shutdown, after which `_check_live` always fails. */
  lemma CloseIsTerminal(s: HandlerState)
    ensures Close(s).shutdown && Close(Close(s)) == Close(s)
    ensures LiveError(Close(s)) == Some(ValueError(ShutdownMessage))
    ensures |Close(s).closedLinks| <= |s.closedLinks| + 1
  {
  }

  /** `_check_live` fails exactly on a shut-down handler or a lost or expired session lock. */
  lemma LiveErrorCases(s: HandlerState)
    ensures LiveError(s).None? <==>
      !s.shutdown && (s.session.None? || (!s.session.value.lockLost && !s.session.value.lockExpired))
    ensures s.shutdown ==> LiveError(s) == Some(ValueError(ShutdownMessage))
    ensures !s.shutdown && LiveError(s).Some? ==>
      LiveError(s).value.ServiceBus? && LiveError(s).value.error.kind == SessionLockLost &&
      LiveError(s).value.error.inner == s.session.value.autoRenewError
  {
  }

  /** Shutdown is monotone: no exception handling clears or sets it. */
  lemma AfterExceptionKeepsShutdown(s: HandlerState, e: ServiceBusError)
    ensures AfterException(s, e).shutdown == s.shutdown
  {
  }

  /**
   * The lock-lost short-circuit marks the session lost and closes the
   * handler, and from then on `_check_live` fails until the handler is
   * replaced (with the shutdown error once it is closed for good).
   */
  lemma LostSessionStaysLost(s: HandlerState, e: ServiceBusError)
    requires LosesSession(s, e)
    ensures ReRaises(s, e)
    ensures AfterException(s, e).session == Some(s.session.value.(lockLost := true))
    ensures AfterException(s, e).link == None && !AfterException(s, e).running
    ensures LiveError(AfterException(s, e)).Some?
    ensures !s.shutdown ==>
      LiveError(AfterException(s, e)) == Some(ServiceBus(NewError(SessionLockLost, None, s.session.value.autoRenewError, None)))
  {
  }

  /** Without the short-circuit, a `shutdown_handler` error closes the link and
      nothing else changes; any other error leaves the state alone. */
  lemma AfterExceptionOtherwise(s: HandlerState, e: ServiceBusError)
    requires !LosesSession(s, e)
    ensures ReRaises(s, e) <==> !e.retryable
    ensures e.shutdownHandler ==> AfterException(s, e) == CloseHandler(s)
    ensures !e.shutdownHandler ==> AfterException(s, e) == s
  {
  }
}
