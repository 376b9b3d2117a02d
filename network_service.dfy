/** networkService.js: a client's view of the router network — its peer-router set, its
    lifecycle guards, the messages it hands to routers and its publish subscriptions. */
module Network {
  import opened Wrappers
  import opened Enum
  import opened Transport
  import opened Errors
  import opened Utils
  import opened Proxy
  import opened Storage
  import opened Base

  // ---------------------------------------------------------------------------
  // subscribe: the per-event subscription table

  /** The `service` argument of `subscribe`: one name (`"*"`, the default, meaning any
      service) or an array of names. */
  datatype ServiceSpec = One(name: string) | Many(names: seq<string>)

  const ANY_SERVICE: ServiceSpec := One("*")

  predicate NoDups(s: seq<string>)
  {
    forall i, j :: 0 <= i < j < |s| ==> s[i] != s[j]
  }

  /** `[...new Set(s)]`: each name once, at the position of its first occurrence. */
  function Dedup(s: seq<string>): (d: seq<string>)
    ensures forall x :: x in d <==> x in s
    ensures NoDups(d)
  {
    if |s| == 0 then []
    else
      var front := Dedup(s[..|s| - 1]);
      var x := s[|s| - 1];
      assert forall y :: y in s <==> y in s[..|s| - 1] || y == x by {
        assert s == s[..|s| - 1] + [x];
      }
      if x in front then front else front + [x]
  }

  /** Names seen earlier keep their places when more names follow. */
  lemma {:induction false} DedupPrefix(a: seq<string>, b: seq<string>)
    ensures |Dedup(a)| <= |Dedup(a + b)|
    ensures Dedup(a + b)[..|Dedup(a)|] == Dedup(a)
  {
    if |b| == 0 {
      assert a + b == a;
    } else {
      var shorter := b[..|b| - 1];
      DedupPrefix(a, shorter);
      assert (a + b)[..|a + b| - 1] == a + shorter;
    }
  }

  /** A list without repetitions is its own deduplication. */
  lemma {:induction false} DedupOfDistinct(a: seq<string>)
    requires NoDups(a)
    ensures Dedup(a) == a
  {
    if |a| > 0 {
      var front := a[..|a| - 1];
      DedupOfDistinct(front);
      assert a[|a| - 1] !in front;
      assert front + [a[|a| - 1]] == a;
    }
  }

  /** The event's entry before the call, after `subscribed` and the entry have been
      created when missing. */
  function EntryBefore(table: Option<Table>, event: string): Subscription
  {
    if table.Some? && event in table.value then table.value[event] else Services([])
  }

  function SpecNames(spec: ServiceSpec): seq<string>
  {
    match spec
    case One(name) => [name]
    case Many(names) => names
  }

  /** The `subscribed` table after `subscribe({event, service})`. */
  function Subscribed(table: Option<Table>, event: string, spec: ServiceSpec): (t: Table)
    ensures event in t
    ensures EntryBefore(table, event).AnyService? || spec == ANY_SERVICE ==> t[event] == AnyService
    ensures forall e :: e != event ==> (e in t <==> table.Some? && e in table.value)
    ensures forall e :: e != event && e in t ==> t[e] == table.value[e]
    ensures !EntryBefore(table, event).AnyService? && spec.Many? ==>
              var before := EntryBefore(table, event).names;
              && t[event].Services? && NoDups(t[event].names)
              && (forall x :: x in t[event].names <==> x in before || x in spec.names)
              && |Dedup(before)| <= |t[event].names|
              && t[event].names[..|Dedup(before)|] == Dedup(before)
              && t[event].names == Dedup(before + spec.names)
    ensures !EntryBefore(table, event).AnyService? && spec.One? && spec != ANY_SERVICE ==>
              t[event] == Services(EntryBefore(table, event).names + [spec.name])
  {
    var base := if table.Some? then table.value else map[];
    var entry := EntryBefore(table, event);
    var prior := if entry.Services? then entry.names else [];
    DedupPrefix(prior, SpecNames(spec));
    var updated :=
      if entry.AnyService? || spec == ANY_SERVICE then AnyService
      else match spec
        case Many(names) => Services(Dedup(entry.names + names))
        case One(name) => Services(entry.names + [name]);
    base[event := updated]
  }

  /** After a subscription the node accepts a publisher for that event exactly when it
      accepted it before, or the subscription was for any service, or it named the publisher. */
  lemma SubscribeAccepts(table: Option<Table>, event: string, spec: ServiceSpec, publisher: string)
    ensures PublishAccepts(Some(Subscribed(table, event, spec)), event, publisher) <==>
      (|| EntryBefore(table, event).AnyService?
       || spec == ANY_SERVICE
       || (EntryBefore(table, event).Services? && publisher in EntryBefore(table, event).names)
       || publisher in SpecNames(spec))
  {
  }

  /** Subscribing never withdraws acceptance, for any event and publisher. */
  lemma SubscribeMonotone(table: Option<Table>, event: string, spec: ServiceSpec, e: string, publisher: string)
    requires PublishAccepts(table, e, publisher)
    ensures PublishAccepts(Some(Subscribed(table, event, spec)), e, publisher)
  {
  }

  // ---------------------------------------------------------------------------
  // The messages a client hands to a router

  /** One call of the client API that goes through `proxyTick` / `proxyRequest`:
      `proxyTick`, `proxyTickAny`, `proxyTickAll`, `proxyRequest`, `proxyRequestAny`,
      `publish`, and the `tickAny` / `tickAll` / `requestAny` of `getService(serviceName)`. */
  datatype ClientCall =
    | TickTo(to: Option<string>, event: string, data: Payload)
    | TickAnyCall(event: string, data: Payload, filter: Option<Filter>)
    | TickAllCall(event: string, data: Payload, filter: Option<Filter>)
    | RequestTo(to: Option<string>, event: string, data: Payload, timeout: Option<int>)
    | RequestAnyCall(event: string, data: Payload, timeout: Option<int>, filter: Option<Filter>)
    | PublishCall(event: string, data: Payload)
    | ServiceTickAny(serviceName: string, event: string, data: Payload)
    | ServiceTickAll(serviceName: string, event: string, data: Payload)
    | ServiceRequestAny(serviceName: string, event: string, data: Payload, timeout: Option<int>)

  predicate IsRequest(call: ClientCall)
  {
    call.RequestTo? || call.RequestAnyCall? || call.ServiceRequestAny?
  }

  /** The calls `getRoutingInterface(routerFilter)` also offers, with its router filter. */
  predicate OnRoutingInterface(call: ClientCall)
  {
    call.TickTo? || call.TickAnyCall? || call.TickAllCall? || call.RequestTo? || call.RequestAnyCall?
  }

  /** The `filter = {}` parameter default. */
  function OrEmpty(filter: Option<Filter>): Filter
  {
    if filter.Some? then filter.value else EmptyFilter
  }

  /** The filter `getService(serviceName)` fixes. */
  function ServiceFilter(serviceName: string): Filter
  {
    Filter(map[SERVICE_NAME := serviceName])
  }

  /** The routing mode each call asks for. */
  function ModeOf(call: ClientCall): MessageType
  {
    match call
    case TickTo(_, _, _) => EmitTo
    case RequestTo(_, _, _, _) => EmitTo
    case TickAnyCall(_, _, _) => EmitAny
    case RequestAnyCall(_, _, _, _) => EmitAny
    case ServiceTickAny(_, _, _) => EmitAny
    case ServiceRequestAny(_, _, _, _) => EmitAny
    case TickAllCall(_, _, _) => Broadcast
    case ServiceTickAll(_, _, _) => Broadcast
    case PublishCall(_, _) => Publish
  }

  /** The argument each call passes to `proxyTick` / `proxyRequest`. */
  function ArgsOf(call: ClientCall, routerFilter: Option<Filter>): (a: ProxyArgs)
    ensures a.msgType == ModeOf(call) && a.event == call.event && a.data == call.data
    ensures a.routerFilter == routerFilter
    ensures a.id.Some? ==> call.TickTo? || call.RequestTo?
    ensures a.timeout.Some? ==> IsRequest(call)
    ensures a.filter.None? <==> call.TickTo? || call.RequestTo? || call.PublishCall?
    ensures call.ServiceTickAny? || call.ServiceTickAll? || call.ServiceRequestAny? ==>
              a.filter == Some(ServiceFilter(call.serviceName))
    ensures call.TickTo? || call.RequestTo? ==> a.id == call.to
    ensures IsRequest(call) ==> a.timeout == call.timeout
    ensures call.TickAnyCall? || call.TickAllCall? || call.RequestAnyCall? ==> a.filter == Some(OrEmpty(call.filter))
  {
    match call
    case TickTo(to, event, data) => ProxyArgs(to, EmitTo, event, data, None, None, routerFilter)
    case TickAnyCall(event, data, filter) => ProxyArgs(None, EmitAny, event, data, None, Some(OrEmpty(filter)), routerFilter)
    case TickAllCall(event, data, filter) => ProxyArgs(None, Broadcast, event, data, None, Some(OrEmpty(filter)), routerFilter)
    case RequestTo(to, event, data, timeout) => ProxyArgs(to, EmitTo, event, data, timeout, None, routerFilter)
    case RequestAnyCall(event, data, timeout, filter) =>
      ProxyArgs(None, EmitAny, event, data, timeout, Some(OrEmpty(filter)), routerFilter)
    case PublishCall(event, data) => ProxyArgs(None, Publish, event, data, None, None, routerFilter)
    case ServiceTickAny(name, event, data) =>
      ProxyArgs(None, EmitAny, event, data, None, Some(ServiceFilter(name)), routerFilter)
    case ServiceTickAll(name, event, data) =>
      ProxyArgs(None, Broadcast, event, data, None, Some(ServiceFilter(name)), routerFilter)
    case ServiceRequestAny(name, event, data, timeout) =>
      ProxyArgs(None, EmitAny, event, data, timeout, Some(ServiceFilter(name)), routerFilter)
  }

  // ---------------------------------------------------------------------------
  // The service

  /** The routers a network reaches at start: the stored addresses for its id if there
      are any, else the constructor's list. */
  function RoutersFor(rows: seq<RouterRecord>, networkId: string, fallback: seq<string>): seq<string>
  {
    var stored := AddressesOf(rows, networkId);
    if |stored| > 0 then stored else fallback
  }

  function Connects(addresses: seq<string>): seq<Effect>
  {
    seq(|addresses|, i requires 0 <= i < |addresses| => Effect.Connect(addresses[i]))
  }

  /** Why `connect` or `start` fails. */
  datatype NetworkError = NotStarted | ConnectFailed | DisconnectFailed

  class NetworkService {
    const base: ServiceBase
    /** The separate node the network talks to routers through; it shares `base.options`. */
    const node: Node
    /** The constructor's `routers` list. */
    const routers: seq<string>
    /** The process-wide ROUTERS collection, shared with every other network service. */
    const storage: RouterCollection

    ghost predicate Valid()
      reads this, base, storage
    {
      && base.Valid() && storage.Valid() && UniquePerNetwork(storage.rows)
      && node != base.node && node.id == base.id
    }

    /** `new NetworkService({id, name, routers, options})`; `generated` stands for the
        uuid of the default id. */
    constructor (id: Option<string>, generated: string, name: Option<string>, routers: Option<seq<string>>,
                 options: Options, storage: RouterCollection, now: int)
      requires storage.Valid() && UniquePerNetwork(storage.rows)
      modifies options
      ensures base.id == (if Truthy(id) then id.value else "network::" + generated)
      ensures base.options == options && options.fields == old(options.fields)[SERVICE_NAME := name]
      ensures options.subscribed == old(options.subscribed)
      ensures this.routers == (if routers.Some? then routers.value else [])
      ensures this.storage == storage
      ensures fresh(base) && fresh(base.node) && fresh(node) && node.trace == [] && base.node.trace == []
      ensures base.status == Init
      ensures Valid()
    {
      var resolved := if Truthy(id) then id.value else "network::" + generated;
      base := new ServiceBase(resolved, name, options, now);
      node := new Node(resolved);
      this.routers := if routers.Some? then routers.value else [];
      this.storage := storage;
    }

    /** `getRouters()`. */
    method GetRouters() returns (addresses: seq<string>)
      ensures addresses == RoutersFor(storage.rows, base.id, routers)
    {
      var rows := storage.rows;
      var found: seq<string> := [];
      var i := 0;
      while i < |rows|
        invariant 0 <= i <= |rows|
        invariant found == AddressesOf(rows[..i], base.id)
      {
        assert rows[..i + 1][..i] == rows[..i];
        if rows[i].networkId == base.id {
          found := found + [rows[i].address];
        }
        i := i + 1;
      }
      assert rows[..i] == rows;
      addresses := if |found| > 0 then found else routers;
    }

    /** `addRouter(routerAddress)`: returns the stored record for the address, inserting
        one only when there is none. */
    method AddRouter(routerAddress: string) returns (router: RouterRecord)
      requires Valid()
      modifies storage
      ensures Matches(router, routerAddress, base.id) && router in storage.rows
      ensures FirstMatch(old(storage.rows), routerAddress, base.id).Some? ==>
                router == FirstMatch(old(storage.rows), routerAddress, base.id).value && storage.rows == old(storage.rows)
      ensures FirstMatch(old(storage.rows), routerAddress, base.id).None? ==> storage.rows == old(storage.rows) + [router]
      ensures FirstMatch(storage.rows, routerAddress, base.id) == Some(router)
      ensures Valid()
    {
      var existing := storage.FindOne(routerAddress, base.id);
      if existing.Some? {
        router := existing.value;
      } else {
        ghost var before := storage.rows;
        router := storage.Insert(routerAddress, base.id);
        InsertAbsentKeepsUnique(before, router);
        FindAfterInsert(before, router);
      }
    }

    /** `disconnect(routerAddress)`: `Ok(false)` stands for the `null` returned when no
        record of this network has that address; `disconnectFails` says whether the node's
        disconnect rejects, which keeps the record and rejects. */
    method Disconnect(routerAddress: string, disconnectFails: bool) returns (r: Result<bool, NetworkError>)
      requires Valid()
      modifies node, storage
      ensures var found := FirstMatch(old(storage.rows), routerAddress, base.id);
        && (found.None? ==> r == Ok(false) && node.trace == old(node.trace) && storage.rows == old(storage.rows))
        && (found.Some? ==> node.trace == old(node.trace) + [Effect.Disconnect(found.value.address)])
        && (found.Some? && disconnectFails ==> r == Err(DisconnectFailed) && storage.rows == old(storage.rows))
        && (found.Some? && !disconnectFails ==>
              r == Ok(true) && storage.rows == WithoutKey(old(storage.rows), found.value.key))
      ensures Valid()
    {
      var router := storage.FindOne(routerAddress, base.id);
      if router.None? {
        return Ok(false);
      }
      node.trace := node.trace + [Effect.Disconnect(router.value.address)];
      if disconnectFails {
        return Err(DisconnectFailed);
      }
      WithoutKeyKeepsUnique(storage.rows, router.value.key);
      storage.Remove(router.value);
      r := Ok(true);
    }

    /** `removeRouter(routerAddress)`: the same as `disconnect`. */
    method RemoveRouter(routerAddress: string, disconnectFails: bool) returns (r: Result<bool, NetworkError>)
      requires Valid()
      modifies node, storage
      ensures var found := FirstMatch(old(storage.rows), routerAddress, base.id);
        && (found.None? ==> r == Ok(false) && node.trace == old(node.trace) && storage.rows == old(storage.rows))
        && (found.Some? ==> node.trace == old(node.trace) + [Effect.Disconnect(found.value.address)])
        && (found.Some? && disconnectFails ==> r == Err(DisconnectFailed) && storage.rows == old(storage.rows))
        && (found.Some? && !disconnectFails ==>
              r == Ok(true) && storage.rows == WithoutKey(old(storage.rows), found.value.key))
      ensures Valid()
    {
      r := Disconnect(routerAddress, disconnectFails);
    }

    /** `connect(routerAddress)`; `reply` is what the node's connect resolves to. Only an
        ONLINE service may connect; an online router is then added under the address it reports. */
    method Connect(routerAddress: string, reply: ConnectReply) returns (r: Result<Option<RouterRecord>, NetworkError>)
      requires Valid()
      modifies node, storage
      ensures base.status != Online ==>
                r == Err(NotStarted) && node.trace == old(node.trace) && storage.rows == old(storage.rows)
      ensures base.status == Online ==> node.trace == old(node.trace) + [Effect.Connect(routerAddress)]
      ensures base.status == Online && !reply.online ==> r == Ok(None) && storage.rows == old(storage.rows)
      ensures base.status == Online && reply.online ==>
                && r.Ok? && r.value.Some? && Matches(r.value.value, reply.address, base.id)
                && FirstMatch(storage.rows, reply.address, base.id) == r.value
                && storage.rows == (if FirstMatch(old(storage.rows), reply.address, base.id).Some?
                                    then old(storage.rows) else old(storage.rows) + [r.value.value])
      ensures Valid()
    {
      if base.status != Online {
        return Err(NotStarted);
      }
      node.trace := node.trace + [Effect.Connect(routerAddress)];
      if reply.online {
        var router := AddRouter(reply.address);
        r := Ok(Some(router));
      } else {
        r := Ok(None);
      }
    }

    /** `start()`: a no-op when already ONLINE; otherwise goes ONLINE, connects to every
        router `getRouters` yields and, once all connects succeeded, listens for new routers. */
    method Start(now: int, connectsSucceed: bool) returns (r: Result<(), NetworkError>)
      requires Valid()
      modifies base, node
      ensures old(base.status) == Online ==>
                r == Ok(()) && node.trace == old(node.trace) && base.started == old(base.started)
      ensures old(base.status) != Online ==>
                && base.status == Online && base.started == Some(now)
                && node.trace == old(node.trace) + Connects(RoutersFor(storage.rows, base.id, routers))
                                 + (if connectsSucceed then [OnTick(NETWORK_NEW_ROUTER)] else [])
                && r == (if connectsSucceed then Ok(()) else Err(ConnectFailed))
      ensures base.status == Online && base.stoped == old(base.stoped) && base.created == old(base.created)
      ensures Valid()
    {
      if base.status == Online {
        return Ok(());
      }
      base.Start(now);
      var toConnect := GetRouters();
      var i := 0;
      while i < |toConnect|
        invariant 0 <= i <= |toConnect|
        invariant node.trace == old(node.trace) + Connects(toConnect[..i])
        invariant base.status == Online && base.started == Some(now)
        invariant base.stoped == old(base.stoped) && base.created == old(base.created)
      {
        assert Connects(toConnect[..i + 1]) == Connects(toConnect[..i]) + [Effect.Connect(toConnect[i])];
        node.trace := node.trace + [Effect.Connect(toConnect[i])];
        i := i + 1;
      }
      assert toConnect[..i] == toConnect;
      if !connectsSucceed {
        return Err(ConnectFailed);
      }
      node.trace := node.trace + [OnTick(NETWORK_NEW_ROUTER)];
      r := Ok(());
    }

    /** `stop()`: no guard; the service goes OFFLINE, its router link stops and stops
        listening for new routers. `baseStopFails` says whether the service node's own stop
        rejects (not awaited: the status is then kept and nothing else notices), and
        `nodeStopFails` whether the router link's stop rejects (`stop` then rejects and
        the handler stays). */
    method Stop(now: int, baseStopFails: bool, nodeStopFails: bool) returns (ok: bool)
      requires Valid()
      modifies base, base.node, node
      ensures ok == !nodeStopFails
      ensures !baseStopFails ==> base.status == Offline && base.stoped == Some(now)
      ensures baseStopFails ==> base.status == old(base.status) && base.stoped == old(base.stoped)
      ensures base.started == old(base.started) && base.created == old(base.created)
      ensures base.node.trace == old(base.node.trace) + [StopNode]
      ensures node.trace == old(node.trace) + [StopNode] + (if nodeStopFails then [] else [OffTick(NETWORK_NEW_ROUTER)])
      ensures Valid()
    {
      var _ := base.Stop(now, baseStopFails);
      node.trace := node.trace + [StopNode];
      if nodeStopFails {
        return false;
      }
      node.trace := node.trace + [OffTick(NETWORK_NEW_ROUTER)];
      ok := true;
    }

    /** `subscribe({event, handler, service})`: updates the shared options' table in place,
        pushes the options to the node and listens for the event. */
    method Subscribe(event: string, spec: ServiceSpec)
      requires Valid()
      modifies base.options, node
      ensures base.options.subscribed == Some(Subscribed(old(base.options.subscribed), event, spec))
      ensures base.options.fields == old(base.options.fields)
      ensures node.trace == old(node.trace) + [SetOptions, OnTick(event)]
      ensures Valid()
    {
      var options := base.options;
      options.subscribed := Some(Subscribed(options.subscribed, event, spec));
      node.trace := node.trace + [SetOptions, OnTick(event)];
    }

    /** One client call, on the service itself (`routerFilter` = `None`) or on
        `getRoutingInterface(routerFilter)`; `outcome` is how the node's `tickAny` /
        `requestAny` ends. */
    method Send(call: ClientCall, routerFilter: Option<Filter>, outcome: Result<Payload, Cause>)
      returns (r: Result<Payload, KitooCoreError>)
      requires routerFilter.None? || OnRoutingInterface(call)
      modifies node
      ensures IsRequest(call) ==> node.trace == old(node.trace) + [RequestAnyRouter(RequestRequest(ArgsOf(call, routerFilter)))]
      ensures !IsRequest(call) ==> node.trace == old(node.trace) + [TickAnyRouter(TickRequest(ArgsOf(call, routerFilter)))]
      ensures outcome.Err? ==> r == Err(Failure(node.id, outcome.error))
      ensures outcome.Ok? ==> r == Ok(if IsRequest(call) then outcome.value else Undefined)
    {
      var args := ArgsOf(call, routerFilter);
      if IsRequest(call) {
        r := ProxyRequest(node, args, outcome);
      } else {
        var failure := if outcome.Err? then Some(outcome.error) else None;
        var ticked := ProxyTick(node, args, failure);
        r := if ticked.Err? then Err(ticked.error) else Ok(Undefined);
      }
    }

    /** The node's handler for a NEW_ROUTER tick: connect, then announce the router, or
        report the failure as an `error` event. */
    method NewRouterHandler(routerAddress: string, reply: ConnectReply)
      requires Valid()
      modifies node, storage, base.node
      ensures base.status == Online ==> base.node.trace == old(base.node.trace) + [Emit(NEW_ROUTER)]
      ensures base.status != Online ==> base.node.trace == old(base.node.trace) + [Emit(ERROR)]
      ensures base.status == Online ==> node.trace == old(node.trace) + [Effect.Connect(routerAddress)]
      ensures base.status == Online && !reply.online ==> storage.rows == old(storage.rows)
      ensures base.status == Online && reply.online ==>
                && FirstMatch(storage.rows, reply.address, base.id).Some?
                && storage.rows == (if FirstMatch(old(storage.rows), reply.address, base.id).Some?
                                    then old(storage.rows)
                                    else old(storage.rows) + [FirstMatch(storage.rows, reply.address, base.id).value])
      ensures base.status != Online ==> node.trace == old(node.trace) && storage.rows == old(storage.rows)
      ensures Valid()
    {
      var r := Connect(routerAddress, reply);
      if r.Err? {
        base.node.trace := base.node.trace + [Emit(ERROR)];
      } else {
        base.node.trace := base.node.trace + [Emit(NEW_ROUTER)];
      }
    }

    /** The node's handler for a router that stopped: drop it, then announce the stop; a
        rejected disconnect keeps the record and is reported as an `error` event instead. */
    method RouterStopHandler(routerAddress: string, disconnectFails: bool)
      requires Valid()
      modifies node, storage, base.node
      ensures var found := FirstMatch(old(storage.rows), routerAddress, base.id);
        && (found.Some? ==> node.trace == old(node.trace) + [Effect.Disconnect(found.value.address)])
        && (found.None? ==> node.trace == old(node.trace))
        && (found.Some? && !disconnectFails ==>
              && storage.rows == WithoutKey(old(storage.rows), found.value.key)
              && base.node.trace == old(base.node.trace) + [Emit(ROUTER_STOP)])
        && (found.None? ==> storage.rows == old(storage.rows) && base.node.trace == old(base.node.trace) + [Emit(ROUTER_STOP)])
        && (found.Some? && disconnectFails ==>
              storage.rows == old(storage.rows) && base.node.trace == old(base.node.trace) + [Emit(ERROR)])
      ensures Valid()
    {
      var r := Disconnect(routerAddress, disconnectFails);
      if r.Err? {
        base.node.trace := base.node.trace + [Emit(ERROR)];
      } else {
        base.node.trace := base.node.trace + [Emit(ROUTER_STOP)];
      }
    }

    /** The node's handler for a router that failed: only announced. */
    method RouterFailureHandler()
      modifies base.node
      ensures base.node.trace == old(base.node.trace) + [Emit(ROUTER_FAIL)]
    {
      base.node.trace := base.node.trace + [Emit(ROUTER_FAIL)];
    }
  }
}
