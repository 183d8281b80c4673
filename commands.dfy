/** The command slot poll: get, then delete, then dispatch. */
module Commands {
  import opened Common
  import opened StoreModel

  /** The store after one poll and the payload handed to the command executor, if any. */
  datatype PollResult = PollResult(kv: map<string, string>, dispatched: Option<string>)

  /** One poll of the slot `key`: a failed get, or an absent or empty value, does nothing;
      a present value is deleted, and dispatched only if the delete succeeded. */
  function Poll(kv: map<string, string>, key: string, getFails: bool, delFails: bool): (r: PollResult)
    ensures r.dispatched.Some? <==> !getFails && Truthy(Lookup(kv, key)) && !delFails
    ensures r.dispatched.Some? ==> r.dispatched.value == kv[key]
    ensures r.kv == kv || (r.kv == kv - {key} && key in kv)
    ensures r.kv != kv <==> !getFails && Truthy(Lookup(kv, key)) && !delFails
  {
    if getFails then PollResult(kv, None)
    else match Lookup(kv, key)
      case None => PollResult(kv, None)
      case Some(v) =>
        if v == "" then PollResult(kv, None)
        else if delFails then PollResult(kv, None)
        else PollResult(kv - {key}, Some(v))
  }

  /** Two polls in a row with no new command written in between dispatch at most once. */
  lemma PollTwiceDispatchesAtMostOnce(kv: map<string, string>, key: string, g1: bool, d1: bool, g2: bool, d2: bool)
    ensures var r1 := Poll(kv, key, g1, d1);
      var r2 := Poll(r1.kv, key, g2, d2);
      !(r1.dispatched.Some? && r2.dispatched.Some?)
  {
  }

  /** Polling an absent slot is a no-op, however often it is repeated. */
  lemma PollAbsentIsNoOp(kv: map<string, string>, key: string, g: bool, d: bool)
    requires key !in kv
    ensures Poll(kv, key, g, d) == PollResult(kv, None)
  {
  }
}
