/** proxy.js: how a client wraps a message for a router, and how it reports a failed hand-off. */
module Proxy {
  import opened Wrappers
  import opened Enum
  import opened Transport
  import opened Errors

  /** The destructured argument of `proxyTick` / `proxyRequest`. */
  datatype ProxyArgs = ProxyArgs(
    id: Option<string>,
    msgType: MessageType,
    event: string,
    data: Payload,
    timeout: Option<int>,
    filter: Option<Filter>,
    routerFilter: Option<Filter>)

  /** `filter ? serializeObject(filter) : undefined`: every filter object is truthy. */
  function SerializedIfGiven(filter: Option<Filter>): (w: Option<SerializedFilter>)
    ensures w.Some? <==> filter.Some?
    ensures Deserialize(w) == filter
  {
    match filter
    case None => None
    case Some(f) => Some(Serialize(f))
  }

  /** The object `proxyTick` hands to `tickAny`. */
  function TickRequest(a: ProxyArgs): (req: OuterRequest)
    ensures req.event == ROUTER_MESSAGE && req.filter == a.routerFilter && req.timeout.None?
    ensures req.envelope.id == a.id && req.envelope.event == a.event && req.envelope.data == a.data
    ensures ParseMessageType(req.envelope.msgType) == Some(a.msgType)
    ensures req.envelope.timeout.None?
    ensures Deserialize(req.envelope.filter) == a.filter
  {
    OuterRequest(
      ROUTER_MESSAGE,
      Envelope(a.id, WireName(a.msgType), a.event, a.data, None, SerializedIfGiven(a.filter)),
      None,
      a.routerFilter)
  }

  /** The object `proxyRequest` hands to `requestAny`: the timeout travels twice. */
  function RequestRequest(a: ProxyArgs): (req: OuterRequest)
    ensures req.event == ROUTER_MESSAGE && req.filter == a.routerFilter
    ensures req.timeout == a.timeout && req.envelope.timeout == a.timeout
    ensures req.envelope.id == a.id && req.envelope.event == a.event && req.envelope.data == a.data
    ensures ParseMessageType(req.envelope.msgType) == Some(a.msgType)
    ensures Deserialize(req.envelope.filter) == a.filter
  {
    OuterRequest(
      ROUTER_MESSAGE,
      Envelope(a.id, WireName(a.msgType), a.event, a.data, a.timeout, SerializedIfGiven(a.filter)),
      a.timeout,
      a.routerFilter)
  }

  /** The error thrown when the transport rejects the hand-off with `err`. A node-not-found
      error first gets a "no router available" cause and code NO_ONLINE_ROUTER; the cause is
      then overwritten by `err` in every case. */
  function Failure(nodeId: string, err: Cause): (e: KitooCoreError)
    ensures e.code == Some(NO_ONLINE_ROUTER) <==> err.code == Some(NodeNotFound)
    ensures err.code != Some(NodeNotFound) ==> e.code.None?
    ensures e.error == err
    ensures e.message.None? && e.description.None?
    ensures e.serviceId.None? && e.serviceName.None?
  {
    var kitooErr := NewKitooCoreError(NoArgs);
    var flagged :=
      if err.code == Some(NodeNotFound) then
        var noRouterAvailable := Cause(None, Some("There is no router available for service '" + nodeId + "'"));
        kitooErr.(error := noRouterAvailable, code := Some(NO_ONLINE_ROUTER))
      else kitooErr;
    flagged.(error := err)
  }

  /** `node::proxyTick(a)`; `failure` is the error `tickAny` throws, if any. */
  method ProxyTick(node: Node, a: ProxyArgs, failure: Option<Cause>) returns (r: Result<(), KitooCoreError>)
    modifies node
    ensures node.trace == old(node.trace) + [TickAnyRouter(TickRequest(a))]
    ensures r == if failure.Some? then Err(Failure(node.id, failure.value)) else Ok(())
  {
    node.trace := node.trace + [TickAnyRouter(TickRequest(a))];
    match failure
    case None => r := Ok(());
    case Some(err) => r := Err(Failure(node.id, err));
  }

  /** `node::proxyRequest(a)`; `outcome` is what `requestAny` resolves or rejects with. */
  method ProxyRequest(node: Node, a: ProxyArgs, outcome: Result<Payload, Cause>)
    returns (r: Result<Payload, KitooCoreError>)
    modifies node
    ensures node.trace == old(node.trace) + [RequestAnyRouter(RequestRequest(a))]
    ensures outcome.Ok? ==> r == Ok(outcome.value)
    ensures outcome.Err? ==> r == Err(Failure(node.id, outcome.error))
  {
    node.trace := node.trace + [RequestAnyRouter(RequestRequest(a))];
    match outcome
    case Ok(response) => r := Ok(response);
    case Err(err) => r := Err(Failure(node.id, err));
  }
}
