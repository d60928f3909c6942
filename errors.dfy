/**
 * The exceptions the asynchronous base handler raises, catches or inspects.
 * The Service Bus error classes are told apart by `kind` (the handler only
 * ever asks `isinstance` of these); every Service Bus error carries the two
 * flags `_retryable` and `_shutdown_handler` that steer the retry loop.
 */
module Errors {
  import opened Common

  datatype ErrorKind =
    | ServiceBusConnection            // ServiceBusConnectionError
    | SessionLockLost                 // SessionLockLostError
    | OperationTimeout                // OperationTimeoutError
    | OtherServiceBusError(name: string)

  datatype Exception =
    | StopAsyncIteration
    | ImportError(name: string)
    | ValueError(message: string)
      /** An exception of the AMQP transport; `isTimeout` says whether it is an
          instance of the transport's `TIMEOUT_ERROR` class. */
    | TransportError(description: string, isTimeout: bool)
    | ServiceBus(error: ServiceBusError)

  /**
   * A Service Bus error. `message == None` stands for the class's default
   * message; `inner` is the `error=` keyword of the constructor and `cause`
   * is `__cause__`, set by `raise ... from ...`.
   */
  datatype ServiceBusError = ServiceBusError(
    kind: ErrorKind,
    message: Option<string>,
    retryable: bool,
    shutdownHandler: bool,
    inner: Option<Exception>,
    cause: Option<Exception>)

  /** Constructor defaults of the exception classes (`retryable=`). */
  function RetryableByDefault(kind: ErrorKind): bool
  {
    match kind
    case ServiceBusConnection => true
    case SessionLockLost => false
    case OperationTimeout => true
    case OtherServiceBusError(_) => false
  }

  /** Constructor defaults of the exception classes (`shutdown_handler=`). */
  function ShutsDownByDefault(kind: ErrorKind): bool
  {
    match kind
    case ServiceBusConnection => true
    case SessionLockLost => true
    case OperationTimeout => false
    case OtherServiceBusError(_) => true
  }

  /** An error the handler constructs itself, with its class's default flags. */
  function NewError(kind: ErrorKind, message: Option<string>, inner: Option<Exception>, cause: Option<Exception>): ServiceBusError
  {
    ServiceBusError(kind, message, RetryableByDefault(kind), ShutsDownByDefault(kind), inner, cause)
  }
}
