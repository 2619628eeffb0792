/** The DynamoDB table `VpcManager` keeps its records in, keyed by `VpcId`.

    A request fails when its position among the table's requests is one of the
    injected faults; a failed request changes nothing. */
module Store {
  import opened Base
  import opened Records

  datatype StoreError = StoreFailure

  /** Every item sits under its own `VpcId`. */
  predicate Keyed(items: map<Id, Item>) {
    forall k :: k in items ==> items[k].vpcId == k
  }

  /** The item stored under `key`, if any: `get_item(...).get("Item")`. */
  function Lookup(items: map<Id, Item>, key: Id): (r: Option<Item>)
    ensures r.Some? <==> key in items
  {
    if key in items then Some(items[key]) else None
  }

  class Table {
    var items: map<Id, Item>
    var requests: nat
    const failing: set<nat>

    ghost predicate Valid()
      reads this
    {
      Keyed(items)
    }

    /** An empty table whose requests fail at the positions in `failing`. */
    constructor (failing: set<nat>)
      ensures Valid() && items == map[] && requests == 0 && this.failing == failing
    {
      items, requests := map[], 0;
      this.failing := failing;
    }

    /** `get_item(Key={"VpcId": key})`. */
    method GetItem(key: Id) returns (r: Result<Option<Item>, StoreError>)
      modifies this
      ensures items == old(items) && requests == old(requests) + 1
      ensures r.Err? <==> old(requests) in failing
      ensures r.Ok? ==> r.value == Lookup(items, key)
    {
      r := if requests in failing then Err(StoreFailure) else Ok(Lookup(items, key));
      requests := requests + 1;
    }

    /** `put_item(Item=item)`: the item replaces whatever was under its key. */
    method PutItem(item: Item) returns (ok: bool)
      requires Valid()
      modifies this
      ensures Valid() && requests == old(requests) + 1
      ensures ok <==> old(requests) !in failing
      ensures items == if ok then old(items)[item.vpcId := item] else old(items)
    {
      ok := requests !in failing;
      if ok {
        items := items[item.vpcId := item];
      }
      requests := requests + 1;
    }

    /** `update_item(Key={"VpcId": key}, UpdateExpression="SET #tg = :val")` with
        `#tg` the `Tags` attribute: an upsert that replaces the tags. */
    method SetTags(key: Id, tags: seq<Tag>) returns (ok: bool)
      requires Valid()
      modifies this
      ensures Valid() && requests == old(requests) + 1
      ensures ok <==> old(requests) !in failing
      ensures items == if ok then old(items)[key := WithTags(Lookup(old(items), key), key, tags)] else old(items)
    {
      ok := requests !in failing;
      if ok {
        items := items[key := WithTags(Lookup(items, key), key, tags)];
      }
      requests := requests + 1;
    }

    /** `delete_item(Key={"VpcId": key})`; deleting a missing key succeeds. */
    method DeleteItem(key: Id) returns (ok: bool)
      requires Valid()
      modifies this
      ensures Valid() && requests == old(requests) + 1
      ensures ok <==> old(requests) !in failing
      ensures items == if ok then old(items) - {key} else old(items)
    {
      ok := requests !in failing;
      if ok {
        items := items - {key};
      }
      requests := requests + 1;
    }

    /** `scan()`: every stored item exactly once, in no particular order. */
    method Scan() returns (r: Result<seq<Item>, StoreError>)
      requires Valid()
      modifies this
      ensures items == old(items) && requests == old(requests) + 1
      ensures r.Err? <==> old(requests) in failing
      ensures r.Ok? ==> Enumerates(r.value, items)
    {
      if requests in failing {
        requests := requests + 1;
        return Err(StoreFailure);
      }
      var found := ListItems(items);
      requests := requests + 1;
      return Ok(found);
    }
  }

  /** The items of `items` one by one, each once. */
  method ListItems(items: map<Id, Item>) returns (found: seq<Item>)
    requires Keyed(items)
    ensures Enumerates(found, items)
  {
    found := [];
    var remaining := items.Keys;
    while remaining != {}
      invariant remaining <= items.Keys
      invariant ListedSoFar(found, remaining, items)
      decreases |remaining|
    {
      var k :| k in remaining;
      ListStep(found, remaining, items, k);
      found := found + [items[k]];
      remaining := remaining - {k};
    }
  }

  /** `found` lists, each once, the items whose keys are not in `remaining`. */
  predicate ListedSoFar(found: seq<Item>, remaining: set<Id>, items: map<Id, Item>) {
    && Keys(found) !! remaining && Keys(found) + remaining == items.Keys
    && |found| + |remaining| == |items.Keys|
    && (forall i :: 0 <= i < |found| ==> found[i].vpcId in items && items[found[i].vpcId] == found[i])
    && (forall i, j :: 0 <= i < j < |found| ==> found[i].vpcId != found[j].vpcId)
  }

  lemma ListStep(found: seq<Item>, remaining: set<Id>, items: map<Id, Item>, k: Id)
    requires Keyed(items) && ListedSoFar(found, remaining, items) && k in remaining
    ensures ListedSoFar(found + [items[k]], remaining - {k}, items)
  {
    ListStepKeys(found, remaining, items, k);
    ListStepItems(found, remaining, items, k);
  }

  lemma ListStepKeys(found: seq<Item>, remaining: set<Id>, items: map<Id, Item>, k: Id)
    requires Keyed(items) && ListedSoFar(found, remaining, items) && k in remaining
    ensures var longer := found + [items[k]];
      && Keys(longer) !! remaining - {k}
      && Keys(longer) + (remaining - {k}) == items.Keys
      && |longer| + |remaining - {k}| == |items.Keys|
  {
    KeysAppend(found, items[k]);
  }

  lemma ListStepItems(found: seq<Item>, remaining: set<Id>, items: map<Id, Item>, k: Id)
    requires Keyed(items) && ListedSoFar(found, remaining, items) && k in remaining
    ensures var longer := found + [items[k]];
      && (forall i :: 0 <= i < |longer| ==> longer[i].vpcId in items && items[longer[i].vpcId] == longer[i])
      && (forall i, j :: 0 <= i < j < |longer| ==> longer[i].vpcId != longer[j].vpcId)
  {
    forall i | 0 <= i < |found|
      ensures found[i].vpcId != k
    {
      assert found[i].vpcId in Keys(found);
    }
  }

  /** The keys of the listed items. */
  function Keys(found: seq<Item>): set<Id> {
    set i | 0 <= i < |found| :: found[i].vpcId
  }

  lemma KeysAppend(found: seq<Item>, item: Item)
    ensures Keys(found + [item]) == Keys(found) + {item.vpcId}
  {
    var longer := found + [item];
    assert longer[|found|].vpcId == item.vpcId;
    forall k | k in Keys(found) ensures k in Keys(longer) {
      var i :| 0 <= i < |found| && found[i].vpcId == k;
      assert longer[i] == found[i];
    }
  }

  /** `found` lists the items of `items`, each once. */
  predicate Enumerates(found: seq<Item>, items: map<Id, Item>) {
    && |found| == |items.Keys|
    && Keys(found) == items.Keys
    && (forall i :: 0 <= i < |found| ==> found[i].vpcId in items && items[found[i].vpcId] == found[i])
    && (forall i, j :: 0 <= i < j < |found| ==> found[i].vpcId != found[j].vpcId)
  }
}
