/**
 * The Redis server that the Python client and the Go controller share,
 * reduced to what the core uses: lists (LPUSH, RPUSH, LPOP / BLPOP that finds
 * an item) and hashes (HSET). A key that is absent reads as an empty list or
 * an empty hash, which is how Redis treats a list it has emptied.
 */
module Broker {
  import opened Wrappers

  function ListAt(lists: map<string, seq<string>>, key: string): seq<string> {
    if key in lists then lists[key] else []
  }

  function HashAt(hashes: map<string, map<string, string>>, key: string): map<string, string> {
    if key in hashes then hashes[key] else map[]
  }

  /** The lists after LPUSH key value. */
  function LPushed(lists: map<string, seq<string>>, key: string, value: string): (r: map<string, seq<string>>)
    ensures ListAt(r, key) == [value] + ListAt(lists, key)
    ensures forall k :: k != key ==> ListAt(r, k) == ListAt(lists, k)
  {
    lists[key := [value] + ListAt(lists, key)]
  }

  /** The lists after RPUSH key value. */
  function RPushed(lists: map<string, seq<string>>, key: string, value: string): (r: map<string, seq<string>>)
    ensures ListAt(r, key) == ListAt(lists, key) + [value]
    ensures forall k :: k != key ==> ListAt(r, k) == ListAt(lists, k)
  {
    lists[key := ListAt(lists, key) + [value]]
  }

  /** The hashes after HSET key field value. */
  function HSetted(hashes: map<string, map<string, string>>, key: string, field: string, value: string)
    : (r: map<string, map<string, string>>)
    ensures HashAt(r, key) == HashAt(hashes, key)[field := value]
    ensures forall k :: k != key ==> HashAt(r, k) == HashAt(hashes, k)
  {
    hashes[key := HashAt(hashes, key)[field := value]]
  }

  class Store {
    var lists: map<string, seq<string>>
    var hashes: map<string, map<string, string>>

    constructor ()
      ensures lists == map[] && hashes == map[]
    {
      lists := map[];
      hashes := map[];
    }

    method LPush(key: string, value: string)
      modifies this
      ensures lists == LPushed(old(lists), key, value) && hashes == old(hashes)
    {
      lists := LPushed(lists, key, value);
    }

    method RPush(key: string, value: string)
      modifies this
      ensures lists == RPushed(old(lists), key, value) && hashes == old(hashes)
    {
      lists := RPushed(lists, key, value);
    }

    /** Removes and returns the head of a list; None, and no change, when the
        list is empty. */
    method LPop(key: string) returns (v: Option<string>)
      modifies this
      ensures ListAt(old(lists), key) == [] ==> v.None? && lists == old(lists)
      ensures ListAt(old(lists), key) != [] ==>
                v == Some(ListAt(old(lists), key)[0]) &&
                lists == old(lists)[key := ListAt(old(lists), key)[1..]]
      ensures hashes == old(hashes)
    {
      var items := ListAt(lists, key);
      if items == [] {
        return None;
      }
      lists := lists[key := items[1..]];
      v := Some(items[0]);
    }

    method HSet(key: string, field: string, value: string)
      modifies this
      ensures hashes == HSetted(old(hashes), key, field, value) && lists == old(lists)
    {
      hashes := HSetted(hashes, key, field, value);
    }
  }
}
