/** The transport collaborator (a zeronode `Node`), reduced to the values the core hands it
    and a recorder of the calls it receives. */
module Transport {
  import opened Wrappers

  /** A user payload; the core never inspects it. */
  datatype Payload = Undefined | Text(text: string)

  /** A node filter, as far as the core builds one: field name to literal value. */
  datatype Filter = Filter(fields: map<string, string>)

  const EmptyFilter: Filter := Filter(map[])

  /** The output of `serializeObject`, which is not part of this model: a lossless wrapper. */
  datatype SerializedFilter = SerializedFilter(filter: Filter)

  function Serialize(f: Filter): SerializedFilter
  {
    SerializedFilter(f)
  }

  /** `deserializeObject` applied to the envelope's optional filter. */
  function Deserialize(w: Option<SerializedFilter>): Option<Filter>
  {
    match w
    case None => None
    case Some(s) => Some(s.filter)
  }

  /** The inner envelope a client sends to a router. */
  datatype Envelope = Envelope(
    id: Option<string>,
    msgType: string,
    event: string,
    data: Payload,
    timeout: Option<int>,
    filter: Option<SerializedFilter>)

  /** The outer request a client hands to its node's `tickAny` / `requestAny`. */
  datatype OuterRequest = OuterRequest(
    event: string,
    envelope: Envelope,
    timeout: Option<int>,
    filter: Option<Filter>)

  /** What `node.connect` resolves to. */
  datatype ConnectReply = ConnectReply(online: bool, address: string, actorId: string)

  /** One call made on a node, or one error logged by a handler. */
  datatype Effect =
    | Bind(address: string)
    | Connect(address: string)
    | Disconnect(address: string)
    | StopNode
    | Tick(to: Option<string>, event: string, data: Payload)
    | TickAny(event: string, data: Payload, filter: Option<Filter>)
    | TickAll(event: string, data: Payload, filter: Option<Filter>)
    | Request(to: Option<string>, event: string, data: Payload, timeout: Option<int>)
    | RequestAny(event: string, data: Payload, timeout: Option<int>, filter: Option<Filter>)
    | TickAnyRouter(request: OuterRequest)
    | RequestAnyRouter(request: OuterRequest)
    | OnTick(event: string)
    | OffTick(event: string)
    | OnRequest(event: string)
    | OffRequest(event: string)
    | SetOptions
    | Reply(response: Payload)
    | Emit(event: string)
    | LogError

  /** A transport node: everything the core asks of it, in order. */
  class Node {
    const id: string
    var trace: seq<Effect>

    constructor (id: string)
      ensures this.id == id && trace == []
    {
      this.id := id;
      trace := [];
    }
  }
}
