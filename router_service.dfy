/** routerService.js: a router's lifecycle guards, its join announcement to an existing
    network, and the dispatch of client envelopes to transport actions. */
module Router {
  import opened Wrappers
  import opened Enum
  import opened Transport
  import opened Errors
  import opened Proxy
  import opened Base

  /** The one transport action the tick handler takes for an envelope, if any. */
  function TickDispatch(env: Envelope): (action: Option<Effect>)
    ensures action.Some? <==> ParseMessageType(env.msgType) in {Some(Broadcast), Some(EmitAny), Some(EmitTo)}
    ensures action.Some? ==>
              && (action.value.Tick? || action.value.TickAny? || action.value.TickAll?)
              && action.value.event == env.event && action.value.data == env.data
    ensures action.Some? && action.value.Tick? ==> action.value.to == env.id
    ensures action.Some? && (action.value.TickAny? || action.value.TickAll?) ==> action.value.filter == Deserialize(env.filter)
    ensures action.Some? && action.value.TickAll? <==> ParseMessageType(env.msgType) == Some(Broadcast)
    ensures action.Some? && action.value.TickAny? <==> ParseMessageType(env.msgType) == Some(EmitAny)
    ensures action.Some? && action.value.Tick? <==> ParseMessageType(env.msgType) == Some(EmitTo)
  {
    match ParseMessageType(env.msgType)
    case Some(Broadcast) => Some(TickAll(env.event, env.data, Deserialize(env.filter)))
    case Some(EmitAny) => Some(TickAny(env.event, env.data, Deserialize(env.filter)))
    case Some(EmitTo) => Some(Tick(env.id, env.event, env.data))
    case _ => None
  }

  /** The one transport request the request handler makes for an envelope, if any. */
  function RequestDispatch(env: Envelope): (action: Option<Effect>)
    ensures action.Some? <==> ParseMessageType(env.msgType) in {Some(EmitAny), Some(EmitTo)}
    ensures action.Some? ==>
              && (action.value.Request? || action.value.RequestAny?)
              && action.value.event == env.event && action.value.data == env.data
              && action.value.timeout == env.timeout
    ensures action.Some? && action.value.Request? ==> action.value.to == env.id
    ensures action.Some? && action.value.RequestAny? <==> ParseMessageType(env.msgType) == Some(EmitAny)
    ensures action.Some? && action.value.Request? <==> ParseMessageType(env.msgType) == Some(EmitTo)
    ensures action.Some? && action.value.RequestAny? ==> action.value.filter == Deserialize(env.filter)
  {
    match ParseMessageType(env.msgType)
    case Some(EmitAny) => Some(RequestAny(env.event, env.data, env.timeout, Deserialize(env.filter)))
    case Some(EmitTo) => Some(Request(env.id, env.event, env.data, env.timeout))
    case _ => None
  }

  /** Why `connectToExistingNetwork` rejects. */
  datatype RouterError = NotStarted | ProxyFailed(error: KitooCoreError) | DisconnectFailed

  class RouterService {
    const base: ServiceBase
    /** What `getAddress()` reports: the address the router binds. */
    const address: string

    ghost predicate Valid()
      reads this, base
    {
      base.Valid()
    }

    /** `new RouterService({id, bind, options})`; `generated` stands for the shortid of the
        default id. No name is passed on, so `serviceName` is written as `undefined`. */
    constructor (id: Option<string>, generated: string, address: string, options: Options, now: int)
      modifies options
      ensures base.id == (if Truthy(id) then id.value else "router::" + generated)
      ensures this.address == address
      ensures base.options == options && options.fields == old(options.fields)[SERVICE_NAME := None]
      ensures fresh(base) && fresh(base.node) && base.node.trace == []
      ensures base.status == Init
      ensures Valid()
    {
      var resolved := if Truthy(id) then id.value else "router::" + generated;
      base := new ServiceBase(resolved, None, options, now);
      this.address := address;
    }

    /** `start()`: a no-op when ONLINE; otherwise go ONLINE, bind, and take client envelopes.
        `bindFails` says whether the bind rejects: the router then stays ONLINE without
        handlers and `start` rejects. */
    method Start(now: int, bindFails: bool) returns (ok: bool)
      requires Valid()
      modifies base, base.node
      ensures old(base.status) == Online ==>
                ok && base.node.trace == old(base.node.trace) && base.started == old(base.started)
      ensures old(base.status) != Online ==>
                && ok == !bindFails
                && base.started == Some(now)
                && base.node.trace == old(base.node.trace)
                     + [Bind(address)] + (if bindFails then [] else [OnTick(ROUTER_MESSAGE), OnRequest(ROUTER_MESSAGE)])
      ensures base.status == Online && base.stoped == old(base.stoped) && base.created == old(base.created)
      ensures Valid()
    {
      if base.status == Online {
        return true;
      }
      base.Start(now);
      base.node.trace := base.node.trace + [Bind(address)];
      if bindFails {
        return false;
      }
      base.node.trace := base.node.trace + [OnTick(ROUTER_MESSAGE), OnRequest(ROUTER_MESSAGE)];
      ok := true;
    }

    /** `stop()`: a no-op unless ONLINE, so a router never started stays at INIT.
        `stopFails` says whether the node's stop rejects: the router then stays ONLINE with
        its handlers and `stop` rejects. */
    method Stop(now: int, stopFails: bool) returns (ok: bool)
      requires Valid()
      modifies base, base.node
      ensures old(base.status) != Online ==>
                ok && base.status == old(base.status) && base.stoped == old(base.stoped)
                && base.node.trace == old(base.node.trace)
      ensures old(base.status) == Online && stopFails ==>
                && !ok && base.status == Online && base.stoped == old(base.stoped)
                && base.node.trace == old(base.node.trace) + [StopNode]
      ensures old(base.status) == Online && !stopFails ==>
                && ok && base.status == Offline && base.stoped == Some(now)
                && base.node.trace == old(base.node.trace)
                     + [StopNode, OffTick(ROUTER_MESSAGE), OffRequest(ROUTER_MESSAGE)]
      ensures base.started == old(base.started) && base.created == old(base.created)
      ensures Valid()
    {
      if base.status != Online {
        return true;
      }
      ok := base.Stop(now, stopFails);
      if !ok {
        return;
      }
      base.node.trace := base.node.trace + [OffTick(ROUTER_MESSAGE), OffRequest(ROUTER_MESSAGE)];
    }

    /** The announcement a joining router broadcasts through the router it reached. */
    function JoinAnnouncement(actorId: string): (a: ProxyArgs)
      ensures a.msgType == Broadcast && a.event == NETWORK_NEW_ROUTER && a.data == Text(address)
      ensures a.filter == Some(EmptyFilter) && a.routerFilter.None?
      ensures a.id == Some(actorId) && a.timeout.None?
    {
      ProxyArgs(Some(actorId), Broadcast, NETWORK_NEW_ROUTER, Text(address), None, Some(EmptyFilter), None)
    }

    /** `connectToExistingNetwork(routerAddress)`; `reply` is what the node's connect
        resolves to, `failure` the error the announcement's `tickAny` throws, if any, and
        `disconnectFails` whether the final disconnect rejects.
        A router that is not ONLINE rejects; otherwise it connects, announces itself to
        the whole network and drops the bootstrap link. */
    method ConnectToExistingNetwork(routerAddress: string, reply: ConnectReply, failure: Option<Cause>,
                                    disconnectFails: bool)
      returns (r: Result<(), RouterError>)
      requires Valid()
      modifies base.node
      ensures base.status != Online ==> r == Err(NotStarted) && base.node.trace == old(base.node.trace)
      ensures base.status == Online && failure.None? ==>
                && r == (if disconnectFails then Err(DisconnectFailed) else Ok(()))
                && base.node.trace == old(base.node.trace)
                     + [Connect(routerAddress), TickAnyRouter(TickRequest(JoinAnnouncement(reply.actorId))),
                        Disconnect(reply.address)]
      ensures base.status == Online && failure.Some? ==>
                && r == Err(ProxyFailed(Failure(base.node.id, failure.value)))
                && base.node.trace == old(base.node.trace)
                     + [Connect(routerAddress), TickAnyRouter(TickRequest(JoinAnnouncement(reply.actorId)))]
    {
      if base.status != Online {
        return Err(NotStarted);
      }
      base.node.trace := base.node.trace + [Connect(routerAddress)];
      var announced := ProxyTick(base.node, JoinAnnouncement(reply.actorId), failure);
      if announced.Err? {
        return Err(ProxyFailed(announced.error));
      }
      base.node.trace := base.node.trace + [Disconnect(reply.address)];
      r := if disconnectFails then Err(DisconnectFailed) else Ok(());
    }

    /** The handler for client tick envelopes; `sendFails` says whether the transport call
        throws, which is logged and never reaches the sender. */
    method TickMessageHandler(env: Envelope, sendFails: bool)
      modifies base.node
      ensures TickDispatch(env).None? ==> base.node.trace == old(base.node.trace)
      ensures TickDispatch(env).Some? ==>
                base.node.trace == old(base.node.trace) + [TickDispatch(env).value]
                                   + (if sendFails then [LogError] else [])
    {
      var action := TickDispatch(env);
      if action.Some? {
        base.node.trace := base.node.trace + [action.value];
        if sendFails {
          base.node.trace := base.node.trace + [LogError];
        }
      }
    }

    /** The handler for client request envelopes; `outcome` is how the forwarded request
        ends. The sender gets the service's response, or `undefined` for a type the router
        does not forward; a failed request is logged and never answered. */
    method RequestMessageHandler(env: Envelope, outcome: Result<Payload, Cause>)
      modifies base.node
      ensures RequestDispatch(env).None? ==> base.node.trace == old(base.node.trace) + [Reply(Undefined)]
      ensures RequestDispatch(env).Some? ==>
                base.node.trace == old(base.node.trace) + [RequestDispatch(env).value]
                                   + (if outcome.Ok? then [Reply(outcome.value)] else [LogError])
    {
      var action := RequestDispatch(env);
      if action.None? {
        base.node.trace := base.node.trace + [Reply(Undefined)];
        return;
      }
      base.node.trace := base.node.trace + [action.value];
      match outcome
      case Ok(response) => base.node.trace := base.node.trace + [Reply(response)];
      case Err(_) => base.node.trace := base.node.trace + [LogError];
    }
  }
}
