/**
 * The shared store, seen as maps. Every call takes whether it fails as an input;
 * a failed call changes nothing.
 */
module StoreModel {
  import opened Common

  /** The store value under a key, absent when there is none. */
  function Lookup(kv: map<string, string>, key: string): (v: Option<string>)
    ensures v.Some? <==> key in kv
  {
    if key in kv then Some(kv[key]) else None
  }

  /** A multi-get of `keys`: one value or absence per key, aligned with the keys. */
  function Lookups(kv: map<string, string>, keys: seq<string>): (vals: seq<Option<string>>)
    ensures |vals| == |keys|
  {
    seq(|keys|, i requires 0 <= i < |keys| => Lookup(kv, keys[i]))
  }

  /** JavaScript truthiness of a store reply: present and not the empty string. */
  predicate Truthy(v: Option<string>)
  {
    v.Some? && v.value != ""
  }

  /** The members of a sorted set with their scores (none when the set does not exist). */
  function Members(zsets: map<string, map<string, int>>, key: string): map<string, int>
  {
    if key in zsets then zsets[key] else map[]
  }

  class Store {
    /** Plain string values. */
    var kv: map<string, string>
    /** The expiry given to a key by its last write with an expiry. */
    var ttl: map<string, int>
    /** Sorted sets: member to score. */
    var zsets: map<string, map<string, int>>

    constructor ()
      ensures kv == map[] && ttl == map[] && zsets == map[]
    {
      kv, ttl, zsets := map[], map[], map[];
    }

    /** SETEX: write a value with an expiry. */
    method SetEx(key: string, seconds: int, value: string, fails: bool) returns (ok: bool)
      modifies this
      ensures ok == !fails
      ensures kv == if ok then old(kv)[key := value] else old(kv)
      ensures ttl == if ok then old(ttl)[key := seconds] else old(ttl)
      ensures zsets == old(zsets)
    {
      ok := !fails;
      if ok {
        kv := kv[key := value];
        ttl := ttl[key := seconds];
      }
    }

    /** SET: write a value without expiry (a plain SET discards any earlier expiry). */
    method Set(key: string, value: string, fails: bool) returns (ok: bool)
      modifies this
      ensures ok == !fails
      ensures kv == if ok then old(kv)[key := value] else old(kv)
      ensures ttl == if ok then old(ttl) - {key} else old(ttl)
      ensures zsets == old(zsets)
    {
      ok := !fails;
      if ok {
        kv := kv[key := value];
        ttl := ttl - {key};
      }
    }

    /** GET: `None` is an error reply, `Some(None)` an absent key. */
    method Get(key: string, fails: bool) returns (r: Option<Option<string>>)
      ensures r.None? <==> fails
      ensures r.Some? ==> r.value == Lookup(kv, key)
    {
      if fails {
        r := None;
      } else {
        r := Some(Lookup(kv, key));
      }
    }

    /** DEL: remove a key. */
    method Del(key: string, fails: bool) returns (ok: bool)
      modifies this
      ensures ok == !fails
      ensures kv == if ok then old(kv) - {key} else old(kv)
      ensures ttl == if ok then old(ttl) - {key} else old(ttl)
      ensures zsets == old(zsets)
    {
      ok := !fails;
      if ok {
        kv := kv - {key};
        ttl := ttl - {key};
      }
    }

    /** MGET: the values of several keys, aligned with them; `None` is an error reply. */
    method MGet(keys: seq<string>, fails: bool) returns (r: Option<seq<Option<string>>>)
      ensures r.None? <==> fails
      ensures r.Some? ==> |r.value| == |keys| && forall i :: 0 <= i < |keys| ==> r.value[i] == Lookup(kv, keys[i])
    {
      if fails {
        r := None;
      } else {
        r := Some(Lookups(kv, keys));
      }
    }

    /** ZADD: set the score of a member of a sorted set. */
    method ZAdd(key: string, score: int, member: string, fails: bool) returns (ok: bool)
      modifies this
      ensures ok == !fails
      ensures zsets == if ok then old(zsets)[key := Members(old(zsets), key)[member := score]] else old(zsets)
      ensures kv == old(kv) && ttl == old(ttl)
    {
      ok := !fails;
      if ok {
        zsets := zsets[key := Members(zsets, key)[member := score]];
      }
    }
  }
}
