/**
 * The membership reconciliation of one discovery cycle, as functions of the
 * previous snapshot, the live ids returned by the range query and the store's
 * registration records.
 */
module Membership {
  import opened Common
  import opened Keys
  import opened StoreModel

  /** A registration record: the fields every server carries, plus opaque metadata. */
  datatype ServerRecord = ServerRecord(id: string, host: string, port: int, pid: int, meta: string)

  /** The membership snapshot: server id to record. */
  type Snapshot = map<string, ServerRecord>

  /** The records of the live ids that the previous snapshot already holds. */
  function Cached(live: seq<string>, last: Snapshot): (r: Snapshot)
    ensures forall id :: id in r <==> id in live && id in last
    ensures forall id :: id in r ==> r[id] == last[id]
  {
    map id | id in live && id in last :: last[id]
  }

  /** The live ids without a cached record, in the order the descending walk
      meets them: the last live id first. */
  function MissingIds(live: seq<string>, last: Snapshot): (r: seq<string>)
    ensures |r| <= |live|
    ensures forall x :: x in r ==> x in live && x !in last
  {
    if live == [] then []
    else MissingIds(live[1..], last) + (if live[0] in last then [] else [live[0]])
  }

  /** The live ids without a cached record, in range-result order (the reference definition). */
  function Uncached(live: seq<string>, last: Snapshot): seq<string>
  {
    if live == [] then []
    else (if live[0] in last then [] else [live[0]]) + Uncached(live[1..], last)
  }

  /** The registration-record keys of a list of ids. */
  function KeysOf(p: Prefixes, env: string, ids: seq<string>): (keys: seq<string>)
    ensures |keys| == |ids|
  {
    seq(|ids|, i requires 0 <= i < |ids| => RegServerKey(p, env, ids[i]))
  }

  /** One step of the descending walk over the cached part: the id met first adds its
      record to the cached part of the ids after it. */
  lemma CachedStep(s: seq<string>, last: Snapshot)
    requires s != []
    ensures Cached(s, last) == if s[0] in last then Cached(s[1..], last)[s[0] := last[s[0]]] else Cached(s[1..], last)
  {
    assert s == [s[0]] + s[1..];
    var r := Cached(s, last);
    var e := if s[0] in last then Cached(s[1..], last)[s[0] := last[s[0]]] else Cached(s[1..], last);
    assert forall id :: id in r <==> id in e;
    assert r.Keys == e.Keys;
  }

  /** One step of the descending walk over the missing list: the id met first, if it is
      not cached, adds its key after the keys of the ids after it. */
  lemma MissingStep(s: seq<string>, last: Snapshot, p: Prefixes, env: string)
    requires s != []
    ensures KeysOf(p, env, MissingIds(s, last)) ==
      KeysOf(p, env, MissingIds(s[1..], last)) + (if s[0] in last then [] else [RegServerKey(p, env, s[0])])
  {
    var rest := MissingIds(s[1..], last);
    var ids := MissingIds(s, last);
    assert ids == rest + (if s[0] in last then [] else [s[0]]);
    var lhs := KeysOf(p, env, ids);
    var rhs := KeysOf(p, env, rest) + (if s[0] in last then [] else [RegServerKey(p, env, s[0])]);
    assert |lhs| == |rhs|;
    forall k | 0 <= k < |lhs| ensures lhs[k] == rhs[k] {
      if k < |rest| {
        assert ids[k] == rest[k];
      }
    }
  }

  /** `Array.prototype.slice(0, end)`: a negative end counts back from the length. */
  function Slice0<T>(s: seq<T>, end: int): (r: seq<T>)
    ensures |r| <= |s| && r == s[..|r|]
    ensures end >= |s| ==> r == s
    ensures 0 <= end <= |s| ==> |r| == end
    ensures end < 0 ==> |r| == if |s| + end < 0 then 0 else |s| + end
  {
    var e := if end < 0 then (if |s| + end < 0 then 0 else |s| + end)
             else (if end > |s| then |s| else end);
    s[..e]
  }

  /** The keys fetched in one go: all of them unless a (truthy) batch size is set. */
  function Batch(keys: seq<string>, max: int): (r: seq<string>)
    ensures |r| <= |keys| && r == keys[..|r|]
    ensures max == 0 ==> r == keys
  {
    if max != 0 then Slice0(keys, max) else keys
  }

  /** The descending merge of multi-get values: each truthy value is parsed and put
      under its record's own id; index 0 is put last, so it wins. */
  function Merged(acc: Snapshot, vals: seq<Option<string>>, parse: string -> ServerRecord): (r: Snapshot)
    ensures acc.Keys <= r.Keys
    ensures |r.Keys| <= |acc.Keys| + |vals|
  {
    if vals == [] then acc
    else
      var rest := Merged(acc, vals[1..], parse);
      if Truthy(vals[0]) then rest[parse(vals[0].value).id := parse(vals[0].value)] else rest
  }

  /** The registration-record keys a cycle fetches. */
  function FetchedKeys(last: Snapshot, live: seq<string>, p: Prefixes, env: string, max: int): (keys: seq<string>)
    ensures var missing := MissingIds(live, last);
      && |keys| <= |missing| && (max == 0 ==> |keys| == |missing|)
      && forall j :: 0 <= j < |keys| ==> keys[j] == RegServerKey(p, env, missing[j])
  {
    Batch(KeysOf(p, env, MissingIds(live, last)), max)
  }

  /** The snapshot a successful discovery cycle publishes. */
  function Reconciled(last: Snapshot, live: seq<string>, kv: map<string, string>,
                      p: Prefixes, env: string, max: int, parse: string -> ServerRecord): (r: Snapshot)
    ensures forall id :: id in live && id in last ==> id in r
  {
    Merged(Cached(live, last), Lookups(kv, FetchedKeys(last, live, p, env, max)), parse)
  }

  // ---------------------------------------------------------------------------
  // The missing list

  /** An id is missing iff it is live and has no cached record. */
  lemma {:induction false} MissingIdsExact(live: seq<string>, last: Snapshot, id: string)
    ensures id in MissingIds(live, last) <==> id in live && id !in last
  {
    if live != [] {
      MissingIdsExact(live[1..], last, id);
      assert live == [live[0]] + live[1..];
    }
  }

  /** The missing list is the uncached live ids in reverse range-result order. */
  lemma {:induction false} MissingIsReversed(live: seq<string>, last: Snapshot)
    ensures MissingIds(live, last) == Reverse(Uncached(live, last))
  {
    if live != [] {
      MissingIsReversed(live[1..], last);
      var u := Uncached(live[1..], last);
      if live[0] in last {
        assert Uncached(live, last) == u;
        assert MissingIds(live, last) == MissingIds(live[1..], last);
      } else {
        var w := [live[0]] + u;
        assert Uncached(live, last) == w;
        assert w[1..] == u;
        assert Reverse(w) == Reverse(u) + [live[0]];
      }
    }
  }

  lemma {:induction false} ReversePrefix<T>(s: seq<T>, n: nat)
    requires n <= |s|
    ensures Reverse(s)[..n] == Reverse(s[|s| - n..])
  {
    var t := s[|s| - n..];
    var a := Reverse(s)[..n];
    var b := Reverse(t);
    forall k | 0 <= k < n ensures a[k] == b[k] {
      ReverseAt(s, k);
      ReverseAt(t, k);
      assert t[n - 1 - k] == s[|s| - 1 - k];
    }
    assert a == b;
  }

  /** With a positive batch size n, the cycle fetches the keys of the LAST n uncached
      live ids of the range result (newest first); with no batch size, all of them. */
  lemma BatchFetchesLatest(last: Snapshot, live: seq<string>, p: Prefixes, env: string, max: int)
    ensures var u := Uncached(live, last);
      var n := if max > |u| then |u| else max;
      (max == 0 ==> FetchedKeys(last, live, p, env, max) == KeysOf(p, env, Reverse(u))) &&
      (max > 0 ==> FetchedKeys(last, live, p, env, max) == KeysOf(p, env, Reverse(u[|u| - n..])))
  {
    MissingIsReversed(live, last);
    var u := Uncached(live, last);
    if max > 0 {
      var n := if max > |u| then |u| else max;
      ReversePrefix(u, n);
      assert KeysOf(p, env, Reverse(u))[..n] == KeysOf(p, env, Reverse(u)[..n]);
    }
  }

  /** With a positive batch size, at most that many keys are fetched; the rest of the
      missing ids wait for a later cycle. */
  lemma BatchBound(last: Snapshot, live: seq<string>, p: Prefixes, env: string, max: int)
    requires max > 0
    ensures |FetchedKeys(last, live, p, env, max)| ==
            if max < |MissingIds(live, last)| then max else |MissingIds(live, last)|
  {
  }

  // ---------------------------------------------------------------------------
  // The merge

  /** Value `j` is truthy and its record carries id `k`. */
  predicate Carries(vals: seq<Option<string>>, parse: string -> ServerRecord, j: int, k: string)
  {
    0 <= j < |vals| && Truthy(vals[j]) && parse(vals[j].value).id == k
  }

  /** An id is in the merge iff it was already there or some truthy value carries it. */
  lemma {:induction false} MergedHas(acc: Snapshot, vals: seq<Option<string>>, parse: string -> ServerRecord, k: string)
    ensures k in Merged(acc, vals, parse) <==> k in acc || exists j :: Carries(vals, parse, j, k)
  {
    if vals != [] {
      var rest := Merged(acc, vals[1..], parse);
      MergedHas(acc, vals[1..], parse, k);
      var inTail := exists j :: Carries(vals[1..], parse, j, k);
      var inAll := exists j :: Carries(vals, parse, j, k);
      if inTail {
        var j :| Carries(vals[1..], parse, j, k);
        assert Carries(vals, parse, j + 1, k);
      }
      if inAll {
        var j :| Carries(vals, parse, j, k);
        if j > 0 {
          assert Carries(vals[1..], parse, j - 1, k);
        }
      }
      assert inAll <==> inTail || Carries(vals, parse, 0, k);
      if Truthy(vals[0]) {
        assert Merged(acc, vals, parse) == rest[parse(vals[0].value).id := parse(vals[0].value)];
      } else {
        assert !Carries(vals, parse, 0, k);
        assert Merged(acc, vals, parse) == rest;
      }
    }
  }

  /** When several values carry the same id, the one at the lowest index wins. */
  lemma {:induction false} MergedFirstWins(acc: Snapshot, vals: seq<Option<string>>, parse: string -> ServerRecord, k: string, j: nat)
    requires Carries(vals, parse, j, k)
    requires forall i :: 0 <= i < j ==> !Carries(vals, parse, i, k)
    ensures k in Merged(acc, vals, parse) && Merged(acc, vals, parse)[k] == parse(vals[j].value)
  {
    if j > 0 {
      assert !Carries(vals, parse, 0, k);
      forall i | 0 <= i < j - 1 ensures !Carries(vals[1..], parse, i, k) {
        assert !Carries(vals, parse, i + 1, k);
      }
      MergedFirstWins(acc, vals[1..], parse, k, j - 1);
    }
  }

  /** An id no value carries keeps the record it had. */
  lemma {:induction false} MergedKeepsAcc(acc: Snapshot, vals: seq<Option<string>>, parse: string -> ServerRecord, k: string)
    requires k in acc
    requires forall j :: !Carries(vals, parse, j, k)
    ensures k in Merged(acc, vals, parse) && Merged(acc, vals, parse)[k] == acc[k]
  {
    if vals != [] {
      assert !Carries(vals, parse, 0, k);
      forall j ensures !Carries(vals[1..], parse, j, k) {
        assert !Carries(vals, parse, j + 1, k);
      }
      MergedKeepsAcc(acc, vals[1..], parse, k);
    }
  }

  lemma {:induction false} LeastCarrier(vals: seq<Option<string>>, parse: string -> ServerRecord, k: string, j: nat)
    requires Carries(vals, parse, j, k)
    ensures exists m: nat :: Carries(vals, parse, m, k) && forall i :: 0 <= i < m ==> !Carries(vals, parse, i, k)
    decreases j
  {
    if exists i :: 0 <= i < j && Carries(vals, parse, i, k) {
      var i :| 0 <= i < j && Carries(vals, parse, i, k);
      LeastCarrier(vals, parse, k, i);
    } else {
      assert Carries(vals, parse, j, k) && forall i :: 0 <= i < j ==> !Carries(vals, parse, i, k);
    }
  }

  // ---------------------------------------------------------------------------
  // The published snapshot

  /** Every registration record in the store parses to a record carrying the id
      it is stored under (what the self-registration task writes). */
  ghost predicate SelfKeyed(kv: map<string, string>, p: Prefixes, env: string, parse: string -> ServerRecord)
  {
    forall id :: RegServerKey(p, env, id) in kv && kv[RegServerKey(p, env, id)] != "" ==>
      parse(kv[RegServerKey(p, env, id)]).id == id
  }

  /** A registration write of a record whose serialization parses back to its own id keeps
      every registration record self-keyed: the record lands under its own id's key, and
      no other id's key is touched. */
  lemma SelfKeyedWrite(kv: map<string, string>, p: Prefixes, env: string, parse: string -> ServerRecord,
                       stringify: ServerRecord -> string, r: ServerRecord)
    requires SelfKeyed(kv, p, env, parse)
    requires parse(stringify(r)).id == r.id
    ensures SelfKeyed(kv[RegServerKey(p, env, r.id) := stringify(r)], p, env, parse)
  {
    var kv' := kv[RegServerKey(p, env, r.id) := stringify(r)];
    forall id | RegServerKey(p, env, id) in kv' && kv'[RegServerKey(p, env, id)] != ""
      ensures parse(kv'[RegServerKey(p, env, id)]).id == id
    {
      if RegServerKey(p, env, id) == RegServerKey(p, env, r.id) {
        RegServerKeyInjective(p, env, id, r.id);
      }
    }
  }

  /** The id of a fetched key is an uncached live id. */
  lemma FetchedKeyId(last: Snapshot, live: seq<string>, p: Prefixes, env: string, max: int, j: nat)
    requires j < |FetchedKeys(last, live, p, env, max)|
    ensures exists id :: FetchedKeys(last, live, p, env, max)[j] == RegServerKey(p, env, id) && id in live && id !in last
  {
    var ks := KeysOf(p, env, MissingIds(live, last));
    var fk := FetchedKeys(last, live, p, env, max);
    assert fk[j] == ks[j];
    var id := MissingIds(live, last)[j];
    MissingIdsExact(live, last, id);
  }

  /** The snapshot after a successful cycle, when registration records carry their own ids:
      exactly the live ids that are cached or whose fetched record is truthy; a cached id
      keeps its cached record unchanged; a fetched id gets the record stored under its key;
      ids no longer live are dropped. */
  lemma ReconciledContents(last: Snapshot, live: seq<string>, kv: map<string, string>,
                           p: Prefixes, env: string, max: int, parse: string -> ServerRecord, k: string)
    requires SelfKeyed(kv, p, env, parse)
    ensures var r := Reconciled(last, live, kv, p, env, max, parse);
      && (k in r <==>
            (k in live && (k in last ||
              (RegServerKey(p, env, k) in FetchedKeys(last, live, p, env, max) &&
               Truthy(Lookup(kv, RegServerKey(p, env, k)))))))
      && (k in live && k in last ==> r[k] == last[k])
      && (k in r && k !in last ==> r[k] == parse(kv[RegServerKey(p, env, k)]))
  {
    var fk := FetchedKeys(last, live, p, env, max);
    var vals := Lookups(kv, fk);
    var acc := Cached(live, last);
    var r := Merged(acc, vals, parse);
    MergedHas(acc, vals, parse, k);
    // every carrier of k is a value stored under k's own key, for an uncached live k
    forall j | Carries(vals, parse, j, k)
      ensures fk[j] == RegServerKey(p, env, k) && k in live && k !in last
    {
      FetchedKeyId(last, live, p, env, max, j);
      var id :| fk[j] == RegServerKey(p, env, id) && id in live && id !in last;
      assert parse(kv[RegServerKey(p, env, id)]).id == id;
    }
    if k in live && k !in last && fk != [] && RegServerKey(p, env, k) in fk && Truthy(Lookup(kv, RegServerKey(p, env, k))) {
      var j :| 0 <= j < |fk| && fk[j] == RegServerKey(p, env, k);
      assert Carries(vals, parse, j, k);
    }
    if k in live && k in last {
      assert k in acc;
      MergedKeepsAcc(acc, vals, parse, k);
    }
    if k in r && k !in last {
      var j :| Carries(vals, parse, j, k);
      LeastCarrier(vals, parse, k, j);
      var m: nat :| Carries(vals, parse, m, k) && forall i :: 0 <= i < m ==> !Carries(vals, parse, i, k);
      MergedFirstWins(acc, vals, parse, k, m);
    }
  }
}
