/** dns.js: the legacy registry of executors and services, kept from their start and stop
    notifications, and the choice of an executor to run a service on. */
module LegacyDns {
  import opened Wrappers

  /** A record of the `dns-executors` or `dns-services` collection. The status is whatever
      string the notification carried. */
  datatype Entry = Entry(id: string, name: Option<string>, status: Option<string>)

  const ONLINE: string := "online"
  const OFFLINE: string := "offline"

  predicate IsOnline(e: Entry)
  {
    e.status == Some(ONLINE)
  }

  /** `getOnlineExecutors()`: the ids of the online executor records, in collection order. */
  function OnlineIds(executors: seq<Entry>): (ids: seq<string>)
    ensures forall x :: x in ids <==> exists i :: 0 <= i < |executors| && executors[i].id == x && IsOnline(executors[i])
    ensures |ids| <= |executors|
  {
    if |executors| == 0 then []
    else
      var front := OnlineIds(executors[..|executors| - 1]);
      var last := executors[|executors| - 1];
      assert forall i :: 0 <= i < |executors| - 1 ==> executors[..|executors| - 1][i] == executors[i];
      if IsOnline(last) then front + [last.id] else front
  }

  /** The filter keeps collection order: the ids of a concatenation are the ids of its
      parts, one after the other. */
  lemma {:induction false} OnlineIdsAppend(a: seq<Entry>, b: seq<Entry>)
    ensures OnlineIds(a + b) == OnlineIds(a) + OnlineIds(b)
  {
    if |b| == 0 {
      assert a + b == a;
    } else {
      var front := b[..|b| - 1];
      OnlineIdsAppend(a, front);
      assert (a + b)[..|a + b| - 1] == a + front;
      assert (a + b)[|a + b| - 1] == b[|b| - 1];
    }
  }

  /** `Math.floor(r * n)` for a draw `r` in [0, 1) is a valid index below `n`. */
  lemma FloorIndex(r: real, n: nat)
    requires 0.0 <= r < 1.0 && n > 0
    ensures 0 <= (r * n as real).Floor < n
  {
  }

  /** `getAnyOnlineExecutor()` when `Math.random()` yields `r`: an online executor, or
      `undefined` when there is none. */
  function AnyOnline(executors: seq<Entry>, r: real): (chosen: Option<string>)
    requires 0.0 <= r < 1.0
    ensures chosen.Some? <==> |OnlineIds(executors)| > 0
    ensures chosen.Some? ==> chosen.value in OnlineIds(executors)
  {
    var ids := OnlineIds(executors);
    if |ids| == 0 then None
    else
      FloorIndex(r, |ids|);
      Some(ids[(r * |ids| as real).Floor])
  }

  /** `findOne({id})`. */
  function FirstWithId(rows: seq<Entry>, id: string): (e: Option<Entry>)
    ensures e.Some? ==> e.value in rows && e.value.id == id
    ensures e.None? <==> forall i :: 0 <= i < |rows| ==> rows[i].id != id
  {
    if |rows| == 0 then None
    else if rows[0].id == id then Some(rows[0])
    else FirstWithId(rows[1..], id)
  }

  /** Why a query or handler fails. */
  datatype DnsError =
    | ExecutorNotFound(id: string)
    | ServiceNotFound(id: string)
    | DuplicateKey
    | NoOnlineExecutors(service: Option<string>)
    | ExecutorNotOnline(service: Option<string>, executor: string)

  /** `isExecutorOnline(executorId)`. */
  function IsExecutorOnline(executors: seq<Entry>, id: string): (r: Result<bool, DnsError>)
    ensures r.Err? <==> forall i :: 0 <= i < |executors| ==> executors[i].id != id
    ensures r.Err? ==> r.error == ExecutorNotFound(id)
    ensures r.Ok? ==> r.value == IsOnline(FirstWithId(executors, id).value)
  {
    match FirstWithId(executors, id)
    case None => Err(ExecutorNotFound(id))
    case Some(e) => Ok(IsOnline(e))
  }

  /** `findAndRemove({id})`. */
  function WithoutId(rows: seq<Entry>, id: string): (rest: seq<Entry>)
    ensures forall e :: e in rest <==> e in rows && e.id != id
    ensures |rest| <= |rows|
  {
    if |rows| == 0 then []
    else (if rows[0].id == id then [] else [rows[0]]) + WithoutId(rows[1..], id)
  }

  /** `findAndUpdate({id}, item => item.status = 'offline')`. */
  function OfflineWhere(rows: seq<Entry>, id: string): (updated: seq<Entry>)
    ensures |updated| == |rows|
    ensures forall i :: 0 <= i < |rows| ==> updated[i].id == rows[i].id && updated[i].name == rows[i].name
    ensures forall i :: 0 <= i < |rows| && rows[i].id == id ==> updated[i].status == Some(OFFLINE)
    ensures forall i :: 0 <= i < |rows| && rows[i].id != id ==> updated[i] == rows[i]
  {
    seq(|rows|, i requires 0 <= i < |rows| => if rows[i].id == id then rows[i].(status := Some(OFFLINE)) else rows[i])
  }

  /** The collections' unique index on `id` and `name`: no two records share an id, nor
      a name when both have one. */
  ghost predicate UniqueKeys(rows: seq<Entry>)
  {
    forall i, j :: 0 <= i < |rows| && 0 <= j < |rows| && i != j ==>
      rows[i].id != rows[j].id && (rows[i].name.Some? ==> rows[i].name != rows[j].name)
  }

  /** Whether an insert of `e` would break the unique index. */
  predicate Clashes(rows: seq<Entry>, e: Entry)
  {
    exists i :: 0 <= i < |rows| && (rows[i].id == e.id || (e.name.Some? && rows[i].name == e.name))
  }

  /** An insert the unique index admits keeps it satisfied. */
  lemma InsertKeepsUnique(rows: seq<Entry>, e: Entry)
    requires UniqueKeys(rows) && !Clashes(rows, e)
    ensures UniqueKeys(rows + [e])
  {
  }

  /** The head of a uniquely keyed sequence clashes with nothing after it, and the rest
      is uniquely keyed. */
  lemma UniqueSplit(rows: seq<Entry>)
    requires |rows| > 0 && UniqueKeys(rows)
    ensures UniqueKeys(rows[1..]) && !Clashes(rows[1..], rows[0])
  {
  }

  /** A record that clashes with nothing in a uniquely keyed sequence can head it. */
  lemma UniqueCons(x: Entry, tail: seq<Entry>)
    requires UniqueKeys(tail) && !Clashes(tail, x)
    ensures UniqueKeys([x] + tail)
  {
  }

  /** Removal by id keeps the unique index. */
  lemma {:induction false} WithoutIdKeepsUnique(rows: seq<Entry>, id: string)
    requires UniqueKeys(rows)
    ensures UniqueKeys(WithoutId(rows, id))
  {
    if |rows| > 0 {
      UniqueSplit(rows);
      WithoutIdKeepsUnique(rows[1..], id);
      var tail := WithoutId(rows[1..], id);
      if rows[0].id != id {
        assert !Clashes(tail, rows[0]) by {
          forall k | 0 <= k < |tail|
            ensures !(tail[k].id == rows[0].id || (rows[0].name.Some? && tail[k].name == rows[0].name))
          {
            assert tail[k] in rows[1..];
          }
        }
        UniqueCons(rows[0], tail);
        assert WithoutId(rows, id) == [rows[0]] + tail;
      } else {
        assert WithoutId(rows, id) == tail;
      }
    }
  }

  /** A record appended after records with other ids is what a lookup of its id finds. */
  lemma {:induction false} FirstWithIdAppend(rows: seq<Entry>, e: Entry)
    requires forall i :: 0 <= i < |rows| ==> rows[i].id != e.id
    ensures FirstWithId(rows + [e], e.id) == Some(e)
  {
    if |rows| > 0 {
      FirstWithIdAppend(rows[1..], e);
      assert (rows + [e])[1..] == rows[1..] + [e];
    }
  }

  /** Only statuses change, so the unique index still holds. */
  lemma OfflineKeepsUnique(rows: seq<Entry>, id: string)
    requires UniqueKeys(rows)
    ensures UniqueKeys(OfflineWhere(rows, id))
  {
  }

  /** The number of service records with that name, whatever their status. */
  function CountNamed(rows: seq<Entry>, name: string): nat
  {
    if |rows| == 0 then 0
    else CountNamed(rows[..|rows| - 1], name) + (if rows[|rows| - 1].name == Some(name) then 1 else 0)
  }

  /** Under the unique index a name is counted at most once. */
  lemma {:induction false} CountNamedAtMostOne(rows: seq<Entry>, name: string)
    requires UniqueKeys(rows)
    ensures CountNamed(rows, name) <= 1
    ensures CountNamed(rows, name) == 1 <==> exists i :: 0 <= i < |rows| && rows[i].name == Some(name)
  {
    if |rows| > 0 {
      var front := rows[..|rows| - 1];
      assert UniqueKeys(front) by {
        forall i, j | 0 <= i < |front| && 0 <= j < |front| && i != j
          ensures front[i].id != front[j].id && (front[i].name.Some? ==> front[i].name != front[j].name)
        {
          assert front[i] == rows[i] && front[j] == rows[j];
        }
      }
      CountNamedAtMostOne(front, name);
      if rows[|rows| - 1].name == Some(name) {
        forall i | 0 <= i < |front| ensures front[i].name != Some(name) {
          assert front[i] == rows[i];
        }
      } else {
        forall i | 0 <= i < |rows| && rows[i].name == Some(name) ensures i < |front| && front[i].name == Some(name) {
        }
      }
    }
  }

  /** What `getServiceInfo(name)` reports: `executors` is always left empty. */
  datatype ServiceMonitor = ServiceMonitor(name: string, online: nat, executors: seq<string>)

  /** `serviceUpHandler`'s choice of executor, `r` standing for `Math.random()`: fail when
      no executor is online or the requested one is not, run on the requested one when it
      is, else on an online one drawn at random. */
  function ServiceUpDecision(online: seq<string>, service: Option<string>, executor: Option<string>, r: real)
    : (d: Result<string, DnsError>)
    requires 0.0 <= r < 1.0
    ensures d.Ok? <==> |online| > 0 && (!Truthy(executor) || executor.value in online)
    ensures |online| == 0 ==> d == Err(NoOnlineExecutors(service))
    ensures |online| > 0 && Truthy(executor) && executor.value !in online ==>
              d == Err(ExecutorNotOnline(service, executor.value))
    ensures d.Ok? ==> d.value in online
    ensures d.Ok? && Truthy(executor) ==> d.value == executor.value
  {
    if |online| == 0 then Err(NoOnlineExecutors(service))
    else if Truthy(executor) && executor.value !in online then Err(ExecutorNotOnline(service, executor.value))
    else if Truthy(executor) then Ok(executor.value)
    else
      FloorIndex(r, |online|);
      Ok(online[(r * |online| as real).Floor])
  }

  /** A tick the registry sends towards the agent layer. */
  datatype Notice =
    | Notify(reason: DnsError)
    | RunService(executor: string, service: Option<string>, pack: Option<string>)

  /** The `dns-executors` and `dns-services` collections. They are created once per process,
      at module load, so every `Dns` instance reads and writes the same records. */
  class Registry {
    var executors: seq<Entry>
    var services: seq<Entry>

    ghost predicate Valid()
      reads this
    {
      UniqueKeys(executors) && UniqueKeys(services)
    }

    constructor ()
      ensures executors == [] && services == []
      ensures Valid()
    {
      executors := [];
      services := [];
    }
  }

  class Dns {
    /** The process-wide collections, shared with every other `Dns`. */
    const registry: Registry
    var sent: seq<Notice>

    ghost predicate Valid()
      reads this, registry
    {
      registry.Valid()
    }

    /** `new Dns()`: a registry node over the shared collections. */
    constructor (registry: Registry)
      requires registry.Valid()
      ensures this.registry == registry && sent == []
      ensures Valid()
    {
      this.registry := registry;
      sent := [];
    }

    /** `getServiceInfo(name)`: counts the service records with that name. */
    method GetServiceInfo(name: string) returns (info: ServiceMonitor)
      ensures info.name == name && info.executors == []
      ensures info.online == CountNamed(registry.services, name)
    {
      var count := 0;
      var i := 0;
      while i < |registry.services|
        invariant 0 <= i <= |registry.services|
        invariant count == CountNamed(registry.services[..i], name)
      {
        assert registry.services[..i + 1][..i] == registry.services[..i];
        if registry.services[i].name == Some(name) {
          count := count + 1;
        }
        i := i + 1;
      }
      assert registry.services[..i] == registry.services;
      info := ServiceMonitor(name, count, []);
    }

    /** The handler for an executor start: the old record with that id is removed, then
        the new one inserted unless another record already holds its name. */
    method ExecutorStartHandler(id: string, name: Option<string>, status: Option<string>)
      returns (r: Result<(), DnsError>)
      requires Valid()
      modifies registry
      ensures var kept := WithoutId(old(registry.executors), id);
        && (Clashes(kept, Entry(id, name, status)) ==> r == Err(DuplicateKey) && registry.executors == kept)
        && (!Clashes(kept, Entry(id, name, status)) ==> r == Ok(()) && registry.executors == kept + [Entry(id, name, status)])
      ensures r.Ok? ==> FirstWithId(registry.executors, id) == Some(Entry(id, name, status))
      ensures r.Err? ==> FirstWithId(registry.executors, id).None?
      ensures registry.services == old(registry.services) && sent == old(sent)
      ensures Valid()
    {
      WithoutIdKeepsUnique(registry.executors, id);
      registry.executors := WithoutId(registry.executors, id);
      var e := Entry(id, name, status);
      if Clashes(registry.executors, e) {
        return Err(DuplicateKey);
      }
      InsertKeepsUnique(registry.executors, e);
      FirstWithIdAppend(registry.executors, e);
      registry.executors := registry.executors + [e];
      r := Ok(());
    }

    /** The handler for an executor stop or failure. */
    method ExecutorStopHandler(id: string)
      requires Valid()
      modifies registry
      ensures registry.executors == OfflineWhere(old(registry.executors), id)
      ensures registry.services == old(registry.services) && sent == old(sent)
      ensures Valid()
    {
      OfflineKeepsUnique(registry.executors, id);
      registry.executors := OfflineWhere(registry.executors, id);
    }

    /** The handler for a service start: the record is inserted unless it repeats an id
        or a name already registered. */
    method ServiceStartHandler(id: string, name: Option<string>, status: Option<string>)
      returns (r: Result<(), DnsError>)
      requires Valid()
      modifies registry
      ensures Clashes(old(registry.services), Entry(id, name, status)) ==> r == Err(DuplicateKey) && registry.services == old(registry.services)
      ensures !Clashes(old(registry.services), Entry(id, name, status)) ==>
                r == Ok(()) && registry.services == old(registry.services) + [Entry(id, name, status)]
      ensures registry.executors == old(registry.executors) && sent == old(sent)
      ensures Valid()
    {
      var e := Entry(id, name, status);
      if Clashes(registry.services, e) {
        return Err(DuplicateKey);
      }
      InsertKeepsUnique(registry.services, e);
      registry.services := registry.services + [e];
      r := Ok(());
    }

    /** The handler for a service stop or failure: fails when no record has that id. */
    method ServiceStopHandler(id: string) returns (r: Result<(), DnsError>)
      requires Valid()
      modifies registry
      ensures FirstWithId(old(registry.services), id).None? ==> r == Err(ServiceNotFound(id)) && registry.services == old(registry.services)
      ensures FirstWithId(old(registry.services), id).Some? ==> r == Ok(()) && registry.services == OfflineWhere(old(registry.services), id)
      ensures registry.executors == old(registry.executors) && sent == old(sent)
      ensures Valid()
    {
      if FirstWithId(registry.services, id).None? {
        return Err(ServiceNotFound(id));
      }
      OfflineKeepsUnique(registry.services, id);
      registry.services := OfflineWhere(registry.services, id);
      r := Ok(());
    }

    /** `serviceUpHandler({name, pack, executor})`; `r` stands for `Math.random()`. A failure
        is sent as a notice and returned; a success ticks the chosen executor. */
    method ServiceUpHandler(service: Option<string>, pack: Option<string>, executor: Option<string>, r: real)
      returns (result: Result<string, DnsError>)
      requires 0.0 <= r < 1.0
      modifies this
      ensures result == ServiceUpDecision(OnlineIds(registry.executors), service, executor, r)
      ensures result.Err? ==> sent == old(sent) + [Notify(result.error)]
      ensures result.Ok? ==> sent == old(sent) + [RunService(result.value, service, pack)]
      ensures registry.executors == old(registry.executors) && registry.services == old(registry.services)
    {
      result := ServiceUpDecision(OnlineIds(registry.executors), service, executor, r);
      match result
      case Err(reason) => sent := sent + [Notify(reason)];
      case Ok(chosen) => sent := sent + [RunService(chosen, service, pack)];
    }
  }
}
