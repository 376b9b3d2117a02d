/** The constant tables the core refers to: message types, service statuses, event names. */
module Enum {
  import opened Wrappers

  /** The routing mode an envelope asks the router for (enum.js `MessageTypes`). */
  datatype MessageType = Broadcast | EmitAny | EmitTo | Publish

  /** The string a message type travels as inside an envelope. */
  function WireName(t: MessageType): (s: string)
    ensures ParseMessageType(s) == Some(t)
  {
    match t
    case Broadcast => "broadcast"
    case EmitAny => "any"
    case EmitTo => "to"
    case Publish => "publish"
  }

  /** Which message type a wire string denotes; `None` for any other string. */
  function ParseMessageType(s: string): Option<MessageType>
  {
    if s == "broadcast" then Some(Broadcast)
    else if s == "any" then Some(EmitAny)
    else if s == "to" then Some(EmitTo)
    else if s == "publish" then Some(Publish)
    else None
  }

  /** Lifecycle status of a service or router (enum.js `ServiceStatus`). */
  datatype ServiceStatus = Init | Online | Offline

  /** Event name of every envelope a client hands to a router. */
  const ROUTER_MESSAGE: string := "kitoo.core.router.message"

  /** Event name of the federation announcement of a joining router. */
  const NETWORK_NEW_ROUTER: string := "kitoo.core.network.new.router"

  /** Events a network service emits to its own listeners (enum.js `KitooCoreEvents`). */
  const ROUTER_FAIL: string := "router.fail"
  const ROUTER_STOP: string := "router.stop"
  const NEW_ROUTER: string := "new.router"

  /** The event a failed handler is reported under. */
  const ERROR: string := "error"
}
