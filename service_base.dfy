/** serviceBase.js: the lifecycle every router and network service shares. */
module Base {
  import opened Wrappers
  import opened Enum
  import opened Transport
  import Utils

  /** A node's options object. The caller keeps a reference to it, so what the
      constructor or `subscribe` writes into it is visible to the caller. */
  class Options {
    /** The plain string-valued keys; a key may be present with value `undefined`. */
    var fields: map<string, Option<string>>
    /** The `subscribed` table, `None` until the first subscription. */
    var subscribed: Option<Utils.Table>

    constructor (fields: map<string, Option<string>>)
      ensures this.fields == fields && subscribed.None?
    {
      this.fields := fields;
      subscribed := None;
    }
  }

  /** The options key the service name is stored under. */
  const SERVICE_NAME: string := "serviceName"

  /** The name `getName` reports: the `serviceName` key's value when the key exists
      (which may itself be `undefined`), else `undefined`. */
  function NameIn(fields: map<string, Option<string>>): (name: Option<string>)
    ensures SERVICE_NAME in fields ==> name == fields[SERVICE_NAME]
    ensures SERVICE_NAME !in fields ==> name.None?
  {
    if SERVICE_NAME in fields then fields[SERVICE_NAME] else None
  }

  class ServiceBase {
    const id: string
    const options: Options
    /** The transport node the service itself is. */
    const node: Node
    var status: ServiceStatus
    var created: int
    var started: Option<int>
    var stoped: Option<int>

    /** Timestamps agree with the status: INIT only before any start or stop,
        ONLINE only after a start, OFFLINE only after a stop. */
    ghost predicate Valid()
      reads this
    {
      && (status == Init ==> started.None? && stoped.None?)
      && (status == Online ==> started.Some?)
      && (status == Offline ==> stoped.Some?)
    }

    /** `new ServiceBase({id, name, options})` at time `now`: `serviceName` is written into
        the caller's options object. */
    constructor (id: string, name: Option<string>, options: Options, now: int)
      modifies options
      ensures this.id == id && this.options == options
      ensures options.fields == old(options.fields)[SERVICE_NAME := name]
      ensures options.subscribed == old(options.subscribed)
      ensures status == Init && created == now && started.None? && stoped.None?
      ensures fresh(node) && node.id == id && node.trace == []
      ensures Valid()
    {
      options.fields := options.fields[SERVICE_NAME := name];
      this.id := id;
      this.options := options;
      node := new Node(id);
      status := Init;
      created := now;
      started := None;
      stoped := None;
    }

    /** `start()`: no guard of its own. */
    method Start(now: int)
      requires Valid()
      modifies this
      ensures status == Online && started == Some(now)
      ensures created == old(created) && stoped == old(stoped)
      ensures Valid()
    {
      started := Some(now);
      status := Online;
    }

    /** `stop()`: the status turns OFFLINE once the node's own stop has completed;
        `stopFails` says whether that stop rejects, which leaves status and timestamps as
        they were. */
    method Stop(now: int, stopFails: bool) returns (stopped: bool)
      requires Valid()
      modifies this, node
      ensures node.trace == old(node.trace) + [StopNode]
      ensures stopped == !stopFails
      ensures stopped ==> status == Offline && stoped == Some(now)
      ensures !stopped ==> status == old(status) && stoped == old(stoped)
      ensures created == old(created) && started == old(started)
      ensures Valid()
    {
      node.trace := node.trace + [StopNode];
      if stopFails {
        return false;
      }
      status := Offline;
      stoped := Some(now);
      stopped := true;
    }

    /** `getStatus()`. */
    method GetStatus() returns (s: ServiceStatus)
      ensures s == status
    {
      s := status;
    }

    /** `getName()`. */
    method GetName() returns (name: Option<string>)
      ensures name == NameIn(options.fields)
    {
      name := NameIn(options.fields);
    }
  }
}
