/** The ROUTERS collection of the process-wide storage: one record per known router of a
    network, in insertion order. Keys stand for the collection's own record ids. */
module Storage {
  import opened Wrappers

  datatype RouterRecord = RouterRecord(key: nat, address: string, networkId: string)

  predicate Matches(r: RouterRecord, address: string, networkId: string)
  {
    r.address == address && r.networkId == networkId
  }

  /** `findOne({address, networkId})`: the first matching record. */
  function FirstMatch(rows: seq<RouterRecord>, address: string, networkId: string): (r: Option<RouterRecord>)
    ensures r.Some? ==> r.value in rows && Matches(r.value, address, networkId)
    ensures r.None? <==> forall i :: 0 <= i < |rows| ==> !Matches(rows[i], address, networkId)
  {
    if |rows| == 0 then None
    else if Matches(rows[0], address, networkId) then Some(rows[0])
    else FirstMatch(rows[1..], address, networkId)
  }

  /** `find({networkId})` mapped to addresses, in collection order. */
  function AddressesOf(rows: seq<RouterRecord>, networkId: string): (addresses: seq<string>)
    ensures forall a :: a in addresses <==> exists i :: 0 <= i < |rows| && Matches(rows[i], a, networkId)
    ensures |addresses| <= |rows|
  {
    if |rows| == 0 then []
    else
      var front := AddressesOf(rows[..|rows| - 1], networkId);
      var last := rows[|rows| - 1];
      assert forall i :: 0 <= i < |rows| - 1 ==> rows[..|rows| - 1][i] == rows[i];
      if last.networkId == networkId then front + [last.address] else front
  }

  /** `remove(record)`: every record but the one with that key. */
  function WithoutKey(rows: seq<RouterRecord>, key: nat): (rest: seq<RouterRecord>)
    ensures forall r :: r in rest <==> r in rows && r.key != key
    ensures |rest| <= |rows|
  {
    if |rows| == 0 then []
    else (if rows[0].key == key then [] else [rows[0]]) + WithoutKey(rows[1..], key)
  }

  /** At most one record per (address, network id). */
  ghost predicate UniquePerNetwork(rows: seq<RouterRecord>)
  {
    forall i, j :: 0 <= i < |rows| && 0 <= j < |rows| && i != j && rows[i].address == rows[j].address ==>
      rows[i].networkId != rows[j].networkId
  }

  ghost predicate KeysBelow(rows: seq<RouterRecord>, bound: nat)
  {
    forall i :: 0 <= i < |rows| ==> rows[i].key < bound
  }

  ghost predicate DistinctKeys(rows: seq<RouterRecord>)
  {
    forall i, j :: 0 <= i < j < |rows| ==> rows[i].key != rows[j].key
  }

  class RouterCollection {
    var rows: seq<RouterRecord>
    var nextKey: nat

    /** Keys are distinct and below the next key to hand out. */
    ghost predicate Valid()
      reads this
    {
      KeysBelow(rows, nextKey) && DistinctKeys(rows)
    }

    constructor ()
      ensures rows == [] && Valid()
    {
      rows := [];
      nextKey := 0;
    }

    /** `findOne({address, networkId})`. */
    method FindOne(address: string, networkId: string) returns (r: Option<RouterRecord>)
      ensures r == FirstMatch(rows, address, networkId)
    {
      r := FirstMatch(rows, address, networkId);
    }

    /** `insert({address, networkId})`: the new record gets a fresh key. */
    method Insert(address: string, networkId: string) returns (r: RouterRecord)
      requires Valid()
      modifies this
      ensures r.address == address && r.networkId == networkId
      ensures r.key !in set i | 0 <= i < |old(rows)| :: old(rows)[i].key
      ensures rows == old(rows) + [r]
      ensures Valid()
    {
      r := RouterRecord(nextKey, address, networkId);
      rows := rows + [r];
      nextKey := nextKey + 1;
    }

    /** `remove(record)`. */
    method Remove(r: RouterRecord)
      requires Valid()
      modifies this
      ensures rows == WithoutKey(old(rows), r.key) && nextKey == old(nextKey)
      ensures Valid()
    {
      WithoutKeyKeepsKeys(rows, r.key, nextKey);
      rows := WithoutKey(rows, r.key);
    }
  }

  /** Removal keeps keys distinct and below any bound they were below. */
  lemma {:induction false} WithoutKeyKeepsKeys(rows: seq<RouterRecord>, key: nat, bound: nat)
    requires KeysBelow(rows, bound) && DistinctKeys(rows)
    ensures KeysBelow(WithoutKey(rows, key), bound) && DistinctKeys(WithoutKey(rows, key))
  {
    if |rows| > 0 {
      WithoutKeyKeepsKeys(rows[1..], key, bound);
      var tail := WithoutKey(rows[1..], key);
      if rows[0].key != key {
        var rest := WithoutKey(rows, key);
        assert rest == [rows[0]] + tail;
        forall j | 0 <= j < |tail| ensures tail[j].key != rows[0].key {
          assert tail[j] in rows[1..];
        }
      }
    }
  }

  /** Inserting a pair only when the lookup found nothing keeps one record per pair. */
  lemma InsertAbsentKeepsUnique(rows: seq<RouterRecord>, r: RouterRecord)
    requires UniquePerNetwork(rows)
    requires FirstMatch(rows, r.address, r.networkId).None?
    ensures UniquePerNetwork(rows + [r])
  {
  }

  /** Once inserted, a record is what a lookup of its pair finds. */
  lemma FindAfterInsert(rows: seq<RouterRecord>, r: RouterRecord)
    requires FirstMatch(rows, r.address, r.networkId).None?
    ensures FirstMatch(rows + [r], r.address, r.networkId) == Some(r)
  {
    var grown := rows + [r];
    var found := FirstMatch(grown, r.address, r.networkId);
    assert Matches(grown[|rows|], r.address, r.networkId);
    assert found.Some?;
    var k :| 0 <= k < |grown| && grown[k] == found.value;
  }

  /** Removing a record by key keeps one record per pair. */
  lemma WithoutKeyKeepsUnique(rows: seq<RouterRecord>, key: nat)
    requires DistinctKeys(rows) && UniquePerNetwork(rows)
    ensures UniquePerNetwork(WithoutKey(rows, key))
  {
  }
}
