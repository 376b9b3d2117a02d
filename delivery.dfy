/** End to end: what reaches the services when a client call passes through a router, and
    the scenarios the repository's error tests exercise. */
module Delivery {
  import opened Wrappers
  import opened Enum
  import opened Transport
  import opened Proxy
  import opened Base
  import opened Storage
  import opened Network
  import opened Router

  /** The transport action each tick-style client call is meant to cause at the router:
      a direct tick for `to`, one matching node for `any`, every matching node for
      `broadcast`, each with the filter the caller gave (or `{}`), or the service-name
      filter of `getService`. A publish causes nothing: the router has no case for it. */
  function IntendedTick(call: ClientCall): Option<Effect>
  {
    match call
    case TickTo(to, event, data) => Some(Tick(to, event, data))
    case TickAnyCall(event, data, filter) => Some(TickAny(event, data, Some(OrEmpty(filter))))
    case TickAllCall(event, data, filter) => Some(TickAll(event, data, Some(OrEmpty(filter))))
    case ServiceTickAny(name, event, data) => Some(TickAny(event, data, Some(ServiceFilter(name))))
    case ServiceTickAll(name, event, data) => Some(TickAll(event, data, Some(ServiceFilter(name))))
    case PublishCall(_, _) => None
    case RequestTo(_, _, _, _) => None
    case RequestAnyCall(_, _, _, _) => None
    case ServiceRequestAny(_, _, _, _) => None
  }

  /** The request each request-style client call is meant to cause at the router. */
  function IntendedRequest(call: ClientCall): Option<Effect>
  {
    match call
    case RequestTo(to, event, data, timeout) => Some(Request(to, event, data, timeout))
    case RequestAnyCall(event, data, timeout, filter) => Some(RequestAny(event, data, timeout, Some(OrEmpty(filter))))
    case ServiceRequestAny(name, event, data, timeout) =>
      Some(RequestAny(event, data, timeout, Some(ServiceFilter(name))))
    case _ => None
  }

  /** Whatever router filter is used, the envelope of a tick-style call makes the router
      take exactly the intended action. */
  lemma TickCallDelivered(call: ClientCall, routerFilter: Option<Filter>)
    requires !IsRequest(call)
    ensures TickDispatch(TickRequest(ArgsOf(call, routerFilter)).envelope) == IntendedTick(call)
  {
  }

  /** A published message never leaves the router. */
  lemma PublishDropped(event: string, data: Payload)
    ensures TickDispatch(TickRequest(ArgsOf(PublishCall(event, data), None)).envelope).None?
  {
  }

  /** The envelope of a request-style call makes the router forward exactly the intended
      request, with the caller's timeout. */
  lemma RequestCallDelivered(call: ClientCall, routerFilter: Option<Filter>)
    requires IsRequest(call)
    ensures RequestDispatch(RequestRequest(ArgsOf(call, routerFilter)).envelope) == IntendedRequest(call)
  {
  }

  /** A joining router's announcement makes the router it reached broadcast NEW_ROUTER,
      carrying the joiner's address, to every node. */
  lemma JoinAnnouncementBroadcast(router: RouterService, actorId: string)
    ensures TickDispatch(TickRequest(router.JoinAnnouncement(actorId)).envelope)
         == Some(TickAll(NETWORK_NEW_ROUTER, Text(router.address), Some(EmptyFilter)))
  {
  }

  /** Adding the same router twice yields the same record and at most one new row. */
  method AddSameRouterTwice(network: NetworkService, address: string)
    returns (first: RouterRecord, second: RouterRecord)
    requires network.Valid()
    modifies network.storage
    ensures first == second
    ensures |network.storage.rows| <= |old(network.storage.rows)| + 1
    ensures network.Valid()
  {
    first := network.AddRouter(address);
    second := network.AddRouter(address);
  }

  /** Stopping a router that was never started leaves it at INIT. */
  method StopNeverStartedRouter(id: Option<string>, generated: string, address: string, now: int,
                                stopFails: bool)
    returns (status: ServiceStatus)
    ensures status == Init
  {
    var options := new Options(map[]);
    var router := new RouterService(id, generated, address, options, now);
    var _ := router.Stop(now, stopFails);
    status := router.base.GetStatus();
  }

  /** A stopped router can be started again: OFFLINE is not terminal, whether or not the
      binds succeed. */
  method RestartAfterStop(id: Option<string>, generated: string, address: string, now: int,
                          firstBindFails: bool, secondBindFails: bool)
    returns (status: ServiceStatus)
    ensures status == Online
  {
    var options := new Options(map[]);
    var router := new RouterService(id, generated, address, options, now);
    var _ := router.Start(now, firstBindFails);
    var _ := router.Stop(now + 1, false);
    assert router.base.status == Offline;
    var _ := router.Start(now + 2, secondBindFails);
    status := router.base.GetStatus();
  }

  /** A router that was never started cannot join a network, and sends nothing. */
  method JoinBeforeStart(id: Option<string>, generated: string, address: string, now: int,
                         routerAddress: string, reply: ConnectReply, disconnectFails: bool)
    returns (r: Result<(), RouterError>, sent: seq<Effect>)
    ensures r == Err(RouterError.NotStarted) && sent == []
  {
    var options := new Options(map[]);
    var router := new RouterService(id, generated, address, options, now);
    r := router.ConnectToExistingNetwork(routerAddress, reply, None, disconnectFails);
    sent := router.base.node.trace;
  }

  /** A network service that was never started cannot connect to a router. */
  method ConnectBeforeStart(id: Option<string>, generated: string, storage: RouterCollection, now: int,
                            routerAddress: string, reply: ConnectReply)
    returns (r: Result<Option<RouterRecord>, NetworkError>)
    requires storage.Valid() && UniquePerNetwork(storage.rows)
    modifies storage
    ensures r == Err(NetworkError.NotStarted) && storage.rows == old(storage.rows)
  {
    var options := new Options(map[]);
    var network := new NetworkService(id, generated, Some("foo"), None, options, storage, now);
    r := network.Connect(routerAddress, reply);
  }
}
