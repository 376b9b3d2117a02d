# kitoo-core routing glue, modelled in Dafny

kitoo-core lets service nodes talk to each other through one or more routers. A client (a
`NetworkService`) never addresses a service directly. It wraps every message in an envelope
and hands the envelope to one of its routers. The router unwraps it and performs a direct
tick, a load-balanced "any", a broadcast or a request on the client's behalf. Routers join an
existing network by broadcasting their own address through it.

This project models the logic kitoo-core itself contains around the transport:

- the publish subscription table and its matcher;
- the weighted random bucket pick;
- the INIT / ONLINE / OFFLINE lifecycle that routers and network services share;
- how a client builds envelopes and reports a failed hand-off, and how a router dispatches them;
- the set of peer routers a network service keeps in the process-wide storage;
- the legacy DNS registry of executors and services.

The transport node is a recorder: each `Node` has a `trace` of the calls the core makes on
it (`Transport.Effect`). What a transport call returns or throws is a method parameter, and so
are `Math.random()`, `Date.now()` and generated ids. The ROUTERS collection is a shared
`RouterCollection` object holding a sequence of records. Likewise the DNS collections
`dns-executors` and `dns-services` are one shared `LegacyDns.Registry` object that every `Dns`
is constructed over. The options object a service is
constructed with is a shared `Options` object, because the constructor and `subscribe` write
into the caller's object.

Modules (one per source file, plus shared ones):

- `Wrappers`: `Option` and `Result`, and JavaScript's string truthiness and `||`.
- `Enum`: message types, statuses and event names.
- `Transport`: envelopes and node calls.
- `Errors`: errors.js.
- `Utils`: utils.js.
- `Proxy`: proxy.js.
- `Base`: serviceBase.js.
- `Storage`: the ROUTERS collection.
- `Network`: networkService.js.
- `Router`: routerService.js.
- `LegacyDns`: dns.js.
- `Delivery`: end-to-end lemmas from a client call to the router's action, and the error-test
  scenarios.

Where the model records what the code does rather than what its API suggests:

- A router drops PUBLISH envelopes. Its tick handler has no case for them, so a published
  message reaches nobody (`Delivery.PublishDropped`). `publish`, `subscribe` and
  `publishPredicateBuilder` exist on the client side, but the router never consults them.
- OFFLINE is not terminal. `start` only checks for ONLINE, so a stopped router or network
  service starts again (`Delivery.RestartAfterStop`).
- Starting an ONLINE service is a silent no-op, not an error.
- A network service reacts to a failed router only by emitting `router.fail`. It does not
  reconnect.
- Subscribing with a single name appends it without deduplication. Only an array of names is
  set-unioned.

Where the model departs from the code, because the code refers to constants that are not
defined:

- routerService.js reads `EVENTS.ROUTER.MESSAGE`, `EVENTS.ROUTER.MESSAGE_TYPES` and
  `EVENTS.NETWORK.NEW_ROUTER` from globals.js, which defines none of them.
- networkService.js reads `Events.ROUTER.MESSAGE_TYPES`, which enum.js does not define.
- The model uses the values of enum.js `Events` and `MessageTypes` in both places.
- dns.js reads `EVENTS.AGENT` and `LAYERS.AGENT`, which globals.js does not define either. As
  written, `DnsManager.init` would throw once the six executor and service handlers are
  registered, and every tick of `serviceUpHandler` would throw. The model keeps those ticks
  abstract (`LegacyDns.Notice`) and models the decision the handler makes.

## Model

| member | source | states |
|---|---|---|
| Enum.WireName | packages/kitoo-core/src/enum.js:11-16 | each message type travels as a string that parses back to it |
| Errors.FirstTruthyIsFirst | packages/kitoo-core/src/errors.js:11-13 | a chain of `\|\|` yields its first truthy operand |
| Errors.FirstTruthyFallsThrough | packages/kitoo-core/src/errors.js:11-13 | with no truthy operand, a chain of `\|\|` yields the last one |
| Errors.NewKitooCoreError | packages/kitoo-core/src/errors.js:10-20 | `error` defaults to `{}`; `message` is the first truthy of the given message and `error.message`; `description` is the first truthy of description, message and `error.message`; serviceId, serviceName and code are stored as passed |
| Errors.DescriptionFollowsMessage | packages/kitoo-core/src/errors.js:12-13 | the description defaults to the resolved message |
| Utils.IndexOf | packages/kitoo-core/src/utils.js:13 | `indexOf` is -1 exactly when the name is absent, else the first position holding it |
| Utils.PublishAccepts | packages/kitoo-core/src/utils.js:7-15 | no table or no entry for the exact event: false; wildcard entry: true; a list: true iff it holds the publisher |
| Utils.Kept | packages/kitoo-core/src/utils.js:29-36 | the candidate list is no longer than the input |
| Utils.KeptMembers | packages/kitoo-core/src/utils.js:29-36 | the candidates are exactly the non-empty buckets |
| Utils.KeptWeights | packages/kitoo-core/src/utils.js:29-36 | one weight per candidate |
| Utils.KeptMass | packages/kitoo-core/src/utils.js:29-36 | candidate mass plus `unused` is the total mass of the buckets seen |
| Utils.KeptMassNonNegative | packages/kitoo-core/src/utils.js:29-36 | with non-negative weights the candidate mass is non-negative |
| Utils.KeptMassPositive | packages/kitoo-core/src/utils.js:29-36 | one non-empty bucket of positive weight makes the candidate mass positive |
| Utils.FirstReaching | packages/kitoo-core/src/utils.js:40-45 | the position found is the first whose running sum reaches the draw; none is found only when no running sum reaches it |
| Utils.Choose | packages/kitoo-core/src/utils.js:17-46 | what `randomWithProbablilities` returns for a draw: nothing, or one of the input buckets that is non-empty |
| Utils.ChooseIsFirstReaching | packages/kitoo-core/src/utils.js:38-45 | the pick is a non-empty input bucket, the first candidate whose running sum reaches the draw scaled to `1 - unused`; undefined exactly when no running sum reaches it |
| Utils.ChooseAlwaysPicks | packages/kitoo-core/src/utils.js:38-45 | with one bucket per probability plus the remainder bucket, non-negative probabilities summing to at most 1 and a draw in [0, 1), a non-empty bucket of positive mass guarantees a pick |
| Utils.RandomWithProbabilities | packages/kitoo-core/src/utils.js:17-46 | the caller's probabilities gain `1 - sum` as a last element, and the result is the pick described by `Choose` |
| Proxy.SerializedIfGiven | packages/kitoo-core/src/proxy.js:16 | the envelope filter is present iff a filter was given, and deserializes back to it |
| Proxy.TickRequest | packages/kitoo-core/src/proxy.js:9-19 | outer event ROUTER.MESSAGE, outer filter the router filter, no timeout; the envelope carries id, type, event and data unchanged and the given filter |
| Proxy.RequestRequest | packages/kitoo-core/src/proxy.js:39-51 | as for ticks, with the same timeout both in the envelope and on the outer request |
| Proxy.Failure | packages/kitoo-core/src/proxy.js:22-33 | code NO_ONLINE_ROUTER iff the transport error is NODE_NOT_FOUND, otherwise no code; the `error` field is the transport error in every case |
| Proxy.ProxyTick | packages/kitoo-core/src/proxy.js:7-35 | exactly one `tickAny` of the tick request; a transport error becomes `Failure` |
| Proxy.ProxyRequest | packages/kitoo-core/src/proxy.js:37-67 | exactly one `requestAny` of the request; its response is passed through, its error becomes `Failure` |
| Base.NameIn | packages/kitoo-core/src/serviceBase.js:68-73 | the `serviceName` value when the key exists (possibly undefined), else undefined |
| Base.ServiceBase.constructor | packages/kitoo-core/src/serviceBase.js:13-30 | writes `serviceName` into the caller's options; status INIT, `started` and `stoped` null, `created` set |
| Base.ServiceBase.Start | packages/kitoo-core/src/serviceBase.js:32-39 | ONLINE with `started` recorded, no guard; keeps the status/timestamp invariant |
| Base.ServiceBase.Stop | packages/kitoo-core/src/serviceBase.js:41-47 | the node stops, then OFFLINE with `stoped` recorded; when the node's stop rejects, status and timestamps stay as they were and the stop reports failure |
| Base.ServiceBase.GetStatus | packages/kitoo-core/src/serviceBase.js:63-66 | the current status |
| Base.ServiceBase.GetName | packages/kitoo-core/src/serviceBase.js:68-73 | the name held in the options |
| Storage.FirstMatch | packages/kitoo-core/src/networkService.js:73 | the lookup finds a record with that address and network id, and finds none only when none exists |
| Storage.AddressesOf | packages/kitoo-core/src/networkService.js:55-56 | exactly the addresses stored for the network id |
| Storage.WithoutKey | packages/kitoo-core/src/networkService.js:80 | removal keeps every record except the one with that key |
| Storage.RouterCollection.FindOne | packages/kitoo-core/src/storage/storage.js:27-33 | the first record matching address and network id |
| Storage.RouterCollection.Insert | packages/kitoo-core/src/storage/storage.js:35-41 | appends one record with a fresh key |
| Storage.RouterCollection.Remove | packages/kitoo-core/src/storage/storage.js:51-57 | removes the record with that key and keeps keys distinct |
| Storage.WithoutKeyKeepsKeys | packages/kitoo-core/src/storage/storage.js:51-57 | removal keeps record keys distinct |
| Storage.InsertAbsentKeepsUnique | packages/kitoo-core/src/networkService.js:84-91 | inserting only after a failed lookup keeps one record per (address, network id) |
| Storage.FindAfterInsert | packages/kitoo-core/src/networkService.js:84-91 | a record once inserted is what the next lookup of its pair finds |
| Storage.WithoutKeyKeepsUnique | packages/kitoo-core/src/networkService.js:72-82 | removal keeps one record per (address, network id) |
| Network.Dedup | packages/kitoo-core/src/networkService.js:294 | `[...new Set(s)]` holds the same names, each once |
| Network.DedupPrefix | packages/kitoo-core/src/networkService.js:294 | names seen earlier keep their places when more follow |
| Network.DedupOfDistinct | packages/kitoo-core/src/networkService.js:294 | a list without repetitions is unchanged |
| Network.Subscribed | packages/kitoo-core/src/networkService.js:288-295 | the table gains the event's entry; a wildcard entry or wildcard request gives `'*'`; an array request stores the names without repetitions, holding exactly the old and the requested names, in the order `[...new Set(old.concat(names))]` gives them, with the old names' order as a prefix; a single name is appended to the old list as is; other events' entries are untouched |
| Network.SubscribeAccepts | packages/kitoo-core/src/networkService.js:293-295 | after subscribing, the node accepts a publisher for the event iff it did before, or the request was `'*'`, or the request named the publisher |
| Network.SubscribeMonotone | packages/kitoo-core/src/networkService.js:284-300 | subscribing never withdraws acceptance of any (event, publisher) |
| Network.ArgsOf | packages/kitoo-core/src/networkService.js:192-258 | each client call picks its message type; only to-calls carry an id, and it is the caller's `to`; only requests carry a timeout, and it is the caller's; tick and request "any"/"all" calls carry the caller's filter, `{}` by default; getService fixes the filter `{serviceName}`; publish and to-calls carry none |
| Network.NetworkService.constructor | packages/kitoo-core/src/networkService.js:20-44 | id defaults to `network::<uuid>`, routers to `[]`; the options gain `serviceName` |
| Network.NetworkService.GetRouters | packages/kitoo-core/src/networkService.js:53-57 | the stored addresses for this network when there are any, else the constructor's list |
| Network.NetworkService.AddRouter | packages/kitoo-core/src/networkService.js:84-91 | returns the existing record for the address, inserting only when there is none; one record per (address, network id) is kept |
| Network.NetworkService.Disconnect | packages/kitoo-core/src/networkService.js:72-82 | no record: null and nothing changes; otherwise the link is closed, and exactly that record removed when the close succeeds; a rejected close keeps the record and rejects |
| Network.NetworkService.RemoveRouter | packages/kitoo-core/src/networkService.js:93-95 | the same as `disconnect`, success and rejection alike |
| Network.NetworkService.Connect | packages/kitoo-core/src/networkService.js:60-70 | fails unless ONLINE; otherwise connects and adds the router under the address it reports when it is online, else returns null |
| Network.NetworkService.Start | packages/kitoo-core/src/networkService.js:98-114 | no-op when ONLINE; otherwise ONLINE, connects to every router `getRouters` yields and, once all succeeded, listens for NEW_ROUTER |
| Network.NetworkService.Stop | packages/kitoo-core/src/networkService.js:117-125 | both nodes stopped; OFFLINE unless the service node's stop rejects; NEW_ROUTER no longer handled unless the router link's stop rejects, which makes `stop` reject |
| Network.NetworkService.Subscribe | packages/kitoo-core/src/networkService.js:284-300 | the shared options' table becomes `Subscribed(...)`, then the options are pushed and the event handled |
| Network.NetworkService.Send | packages/kitoo-core/src/networkService.js:127-190 | one proxied `tickAny`/`requestAny` of the call's arguments, with the routing interface's router filter or none |
| Network.NetworkService.NewRouterHandler | packages/kitoo-core/src/networkService.js:308-316 | when ONLINE, connects to the address, stores the reported router when it is online (once per address and network) and emits `new.router`; otherwise emits `error` and changes neither the link nor the storage |
| Network.NetworkService.RouterStopHandler | packages/kitoo-core/src/networkService.js:318-326 | closes the link to a stored router of this network and drops its record, then emits `router.stop`; a rejected close keeps the record and emits `error` instead; an unknown address changes nothing but the `router.stop` emit |
| Network.NetworkService.RouterFailureHandler | packages/kitoo-core/src/networkService.js:328-336 | only emits `router.fail` |
| Router.TickDispatch | packages/kitoo-core/src/routerService.js:91-112 | exactly one action for broadcast, any and to, none for any other type including publish; broadcast gives tickAll, any gives tickAny and to gives tick, each in both directions; broadcast and any use the deserialized filter, to goes to the envelope's id |
| Router.RequestDispatch | packages/kitoo-core/src/routerService.js:114-133 | one request for any and to, with the caller's timeout; any gives requestAny and to gives request, each in both directions; none otherwise |
| Router.RouterService.constructor | packages/kitoo-core/src/routerService.js:18-26 | id defaults to `router::<shortid>`; `serviceName` is written as undefined |
| Router.RouterService.Start | packages/kitoo-core/src/routerService.js:28-38 | no-op when ONLINE; otherwise ONLINE, bind, then handle ROUTER.MESSAGE ticks and requests; a rejected bind leaves it ONLINE without handlers and rejects; the creation time is kept |
| Router.RouterService.Stop | packages/kitoo-core/src/routerService.js:40-48 | no-op unless ONLINE; otherwise OFFLINE and the handlers removed; a rejected node stop keeps it ONLINE with its handlers and rejects; the creation time is kept |
| Router.RouterService.JoinAnnouncement | packages/kitoo-core/src/routerService.js:57-63 | a BROADCAST of NEW_ROUTER carrying the router's address, with filter `{}`, sent through the reached router's `actorId` |
| Router.RouterService.ConnectToExistingNetwork | packages/kitoo-core/src/routerService.js:50-66 | fails unless ONLINE; otherwise connect, announce, and drop the bootstrap link unless the announcement threw; a rejected final disconnect makes it reject after announcing |
| Router.RouterService.TickMessageHandler | packages/kitoo-core/src/routerService.js:91-112 | performs `TickDispatch`; a transport error is logged, not propagated |
| Router.RouterService.RequestMessageHandler | packages/kitoo-core/src/routerService.js:114-133 | performs `RequestDispatch` and replies with the response (undefined for other types); a failed request is logged and not answered |
| LegacyDns.OnlineIds | packages/kitoo-core/src/dns.js:61-72 | exactly the ids of records whose status is `online` |
| LegacyDns.OnlineIdsAppend | packages/kitoo-core/src/dns.js:61-72 | the filter keeps collection order: the ids of a concatenation are the ids of the first part followed by those of the second |
| LegacyDns.FloorIndex | packages/kitoo-core/src/dns.js:76 | `Math.floor(random * n)` is an index below n |
| LegacyDns.AnyOnline | packages/kitoo-core/src/dns.js:74-77 | an online executor id, undefined exactly when there is none |
| LegacyDns.FirstWithId | packages/kitoo-core/src/dns.js:80 | finds a record with the id, none only when none exists |
| LegacyDns.IsExecutorOnline | packages/kitoo-core/src/dns.js:79-86 | fails exactly for an unknown id, otherwise whether that record is online |
| LegacyDns.WithoutId | packages/kitoo-core/src/dns.js:155 | every record but those with the id |
| LegacyDns.OfflineWhere | packages/kitoo-core/src/dns.js:164-166 | records with the id go offline; the others are unchanged |
| LegacyDns.InsertKeepsUnique | packages/kitoo-core/src/dns.js:16-17 | an insert the unique index admits keeps ids and names unique |
| LegacyDns.UniqueSplit | packages/kitoo-core/src/dns.js:16-17 | the first record of a uniquely keyed collection clashes with none after it |
| LegacyDns.UniqueCons | packages/kitoo-core/src/dns.js:16-17 | a record clashing with none can precede a uniquely keyed collection |
| LegacyDns.WithoutIdKeepsUnique | packages/kitoo-core/src/dns.js:155 | removal keeps ids and names unique |
| LegacyDns.OfflineKeepsUnique | packages/kitoo-core/src/dns.js:164-166 | status updates keep ids and names unique |
| LegacyDns.FirstWithIdAppend | packages/kitoo-core/src/dns.js:155-156 | after the upsert, the new record is what a lookup of its id finds |
| LegacyDns.CountNamedAtMostOne | packages/kitoo-core/src/dns.js:88-100 | under the unique index a service name is counted at most once, and once exactly when registered |
| LegacyDns.ServiceUpDecision | packages/kitoo-core/src/dns.js:193-213 | fails when no executor is online or the requested one is not; otherwise the requested one, or an online one at random |
| LegacyDns.Registry.constructor | packages/kitoo-core/src/dns.js:15-17 | the two collections start empty, with ids and names unique |
| LegacyDns.Dns.constructor | packages/kitoo-core/src/dns.js:26-32 | a registry node over the process-wide collections it is given; nothing sent yet |
| LegacyDns.Dns.GetServiceInfo | packages/kitoo-core/src/dns.js:88-100 | counts every record with that name, whatever its status; `executors` stays empty |
| LegacyDns.Dns.ExecutorStartHandler | packages/kitoo-core/src/dns.js:151-157 | upsert: the old record with the id goes, then the new one is inserted unless its name is taken |
| LegacyDns.Dns.ExecutorStopHandler | packages/kitoo-core/src/dns.js:159-167 | records with the id go offline, the others are unchanged |
| LegacyDns.Dns.ServiceStartHandler | packages/kitoo-core/src/dns.js:171-176 | inserted unless its id or name is taken |
| LegacyDns.Dns.ServiceStopHandler | packages/kitoo-core/src/dns.js:178-185 | fails when no record has the id; otherwise those records go offline |
| LegacyDns.Dns.ServiceUpHandler | packages/kitoo-core/src/dns.js:189-214 | notifies the failure, or ticks the executor `ServiceUpDecision` chose |
| Delivery.TickCallDelivered | packages/kitoo-core/src/routerService.js:96-108 | every tick-style client call makes the router take exactly its intended action |
| Delivery.PublishDropped | packages/kitoo-core/src/networkService.js:302-305 | a published message never leaves the router |
| Delivery.RequestCallDelivered | packages/kitoo-core/src/routerService.js:120-129 | every request-style client call makes the router forward exactly its intended request |
| Delivery.JoinAnnouncementBroadcast | packages/kitoo-core/src/routerService.js:57-63 | the joiner's announcement is broadcast to every node as NEW_ROUTER with its address |
| Delivery.AddSameRouterTwice | packages/kitoo-core/test/errors.js:44-49 | adding the same router twice returns the same record |
| Delivery.StopNeverStartedRouter | packages/kitoo-core/test/errors.js:17-21 | stopping a never-started router leaves it at INIT, whatever the node's stop would do |
| Delivery.RestartAfterStop | packages/kitoo-core/src/routerService.js:28-31 | a stopped router starts again, ONLINE whether or not either bind succeeds |
| Delivery.JoinBeforeStart | packages/kitoo-core/test/errors.js:23-29 | a never-started router cannot join a network and sends nothing |
| Delivery.ConnectBeforeStart | packages/kitoo-core/src/networkService.js:60-63 | a never-started network service cannot connect |

## Left out

- The transport (zeronode and nodik-zmq `Node`). Binding, connecting, ticks, requests, option pushes, handler registration and event emission are only recorded in a trace. Their outcomes are parameters: whether `bind`, `disconnect` and a node's `stop` reject, what `connect` resolves to, and how ticks and requests end. Operator filters and load balancing live there.
- `serializeObject` / `deserializeObject` are not part of the shown utils.js. They are modelled as a lossless wrapper around a filter, which is a map of field names to strings.
- Timeouts, concurrency and interleaving of asynchronous steps. A rejected `node.connect` is not modelled; a connect always resolves with a reply.
- Network.NetworkService.Stop: the service's status is settled at once. In the code, `super.stop()` is not awaited, so the status changes only once the base node's stop completes, possibly after `stop` has returned.
- Utils.RandomWithProbabilities: uses exact real arithmetic. Floating-point rounding of `1 - sum` and of the running sums is not modelled.
- Utils.RandomWithProbabilities: requires at most one bucket more than there are probabilities. With more buckets the code reads past the end of `probabilities`, the weight becomes NaN, and the pick is an early bucket or undefined; that case is not modelled.
- Utils.Choose: requires at most one bucket more than there are probabilities, for the same reason as `RandomWithProbabilities`; the other inputs are not modelled.
- Proxy.Failure: the text of the overwritten "no router available" error is built but, as in the code, never observable.
- The pass-throughs `onTick`, `offTick`, `onRequest`, `offRequest`, `tickToRouter`, `tickAnyRouter`, `tickAllRouters`, `requestToRouter` and `requestAnyRouter` of networkService.js: each is one transport call with its arguments unchanged.
- The routing interface's `getService` returns undefined without making a call, so it has nothing to model.
- `toJSON` of both services: it only reports fields the model already has.
- `_serviceWelcomeHandler` and `_serviceFailOrStopHandler` of routerService.js refer to names that are never imported, so they can only fail and log.
- Dns `start`, `stop`, `DnsManager.init` and `destroy`: binding and handler registration only. The empty `serviceDownHandler`, `serviceRestartHandler` and `serviceStatusHandler` do nothing.
- The LokiJS unique index is modelled for the DNS collections only. It rejects an insert that repeats an id, or a defined name, and leaves the collection unchanged. The ROUTERS collection has no unique index.
- Executor and service notifications are taken to carry a defined `id`.
- executor.js, service.js, config.js, utils/index.js and the command-line tools (packing, forking, file system, process control) are not part of this model.
