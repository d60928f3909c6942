/**
 * The management request/response exchange of `_mgmt_request_response`:
 * the request it hands to the transport, and how a transport timeout is
 * turned into an `OperationTimeoutError`.
 */
module Management {
  import opened Common
  import opened Errors
  import opened Lifecycle

  /** `ASSOCIATEDLINKPROPERTYNAME` of the library's constants. */
  const AssociatedLinkPropertyName := "associated-link-name"

  /** `MGMT_REQUEST_OP_TYPE_ENTITY_MGMT` of the library's constants. */
  const EntityManagementOperationType := "entity-mgmt"

  /** The message `create_mgmt_msg` builds from its arguments. */
  datatype MgmtMessage<M> = MgmtMessage(body: M, applicationProperties: map<string, string>, replyTo: string)

  /** The arguments of `mgmt_client_request_async`, apart from the link and the callback. */
  datatype MgmtRequest<M> = MgmtRequest(
    message: MgmtMessage<M>,
    operation: string,
    operationType: string,
    node: string,
    timeout: Option<int>)

  /**
   * The application properties: the associated link's name, when asked for
   * and when there is a link to name (with no link the transport's
   * `get_handler_link_name` fails with `AttributeError`, which is swallowed).
   */
  function ApplicationProperties(keepAliveAssociatedLink: bool, link: Option<Link>): (p: map<string, string>)
    ensures AssociatedLinkPropertyName in p <==> keepAliveAssociatedLink && link.Some?
    ensures p.Keys <= {AssociatedLinkPropertyName}
    ensures AssociatedLinkPropertyName in p ==> p[AssociatedLinkPropertyName] == link.value.name
  {
    if keepAliveAssociatedLink && link.Some? then map[AssociatedLinkPropertyName := link.value.name] else map[]
  }

  /** The request sent for `mgmt_operation` to the management node `mgmtTarget`. */
  function BuildRequest<M>(mgmtTarget: string, mgmtOperation: string, body: M, keepAliveAssociatedLink: bool,
                           link: Option<Link>, timeout: Option<int>): (req: MgmtRequest<M>)
    ensures req.node == mgmtTarget && req.message.replyTo == mgmtTarget
    ensures req.operation == mgmtOperation && req.operationType == EntityManagementOperationType
    ensures req.timeout == timeout && req.message.body == body
    ensures req.message.applicationProperties == ApplicationProperties(keepAliveAssociatedLink, link)
  {
    var properties := ApplicationProperties(keepAliveAssociatedLink, link);
    MgmtRequest(MgmtMessage(body, properties, mgmtTarget), mgmtOperation, EntityManagementOperationType, mgmtTarget, timeout)
  }

  predicate IsTransportTimeout(e: Exception)
  {
    e.TransportError? && e.isTimeout
  }

  /** The transport's answer as `_mgmt_request_response` passes it on. */
  function MapTransportTimeout<R>(answer: Result<R, Exception>): (r: Result<R, Exception>)
    ensures answer.Ok? ==> r == answer
    ensures answer.Err? && IsTransportTimeout(answer.error) ==>
      r == Err(ServiceBus(NewError(OperationTimeout, None, Some(answer.error), Some(answer.error))))
    ensures answer.Err? && !IsTransportTimeout(answer.error) ==> r == answer
  {
    match answer
    case Ok(_) => answer
    case Err(e) =>
      if IsTransportTimeout(e) then Err(ServiceBus(NewError(OperationTimeout, None, Some(e), Some(e))))
      else answer
  }

  /** Exactly the transport timeouts are replaced, and none survives the mapping. */
  lemma OnlyTransportTimeoutsAreMapped<R>(answer: Result<R, Exception>)
    ensures MapTransportTimeout(answer) != answer <==> answer.Err? && IsTransportTimeout(answer.error)
    ensures MapTransportTimeout(answer).Err? ==> !IsTransportTimeout(MapTransportTimeout(answer).error)
    ensures MapTransportTimeout(answer).Err? && answer.Err? && IsTransportTimeout(answer.error) ==>
      MapTransportTimeout(answer).error.error.kind == OperationTimeout
  {
  }
}
