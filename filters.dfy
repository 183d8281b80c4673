/**
 * The filter service: two registered chains of filters, run around a request. A
 * filter's reaction to being invoked is part of the filter value: what it passes to
 * `next`, or that it never calls `next`.
 */
module FilterService {
  import opened Common

  const InvalidBefore := "invalid before filter."
  const InvalidAfter := "invalid after filter."

  /** The error handed along a chain: a falsy value, or an error object. */
  datatype Err = NoErr | Error(message: string)

  /** A response or options value handed along the before-chain. */
  datatype Val = Undefined | Value(v: string)

  /** What a before-hook does when invoked: call `next(err, resp, opts)`, or never call it. */
  datatype BeforeStep = Pass(err: Err, resp: Val, opts: Val) | Hang

  /** What an after-hook does when invoked: call `next(err)`, or never call it. */
  datatype AfterStep = Continue(err: Err) | Stall

  /** A registered filter: a function (run as either hook), an object whose `before` and
      `after` members may or may not be functions, or null/undefined. */
  datatype Filter =
    | Fn(onBefore: BeforeStep, onAfter: Err -> AfterStep)
    | Obj(before: Option<BeforeStep>, after: Option<Err -> AfterStep>)
    | Nullish

  /** How a chain treats a filter: call a hook, report an invalid filter, or throw while
      looking up the hook on a null filter. */
  datatype Hook<S> = Callable(step: S) | Invalid | Throws

  function BeforeHook(f: Filter): (h: Hook<BeforeStep>)
    ensures h.Throws? <==> f.Nullish?
    ensures h.Invalid? <==> f.Obj? && f.before.None?
    ensures h.Callable? ==> (f.Fn? && h.step == f.onBefore) || (f.Obj? && f.before == Some(h.step))
  {
    match f
    case Fn(b, _) => Callable(b)
    case Obj(b, _) => if b.Some? then Callable(b.value) else Invalid
    case Nullish => Throws
  }

  function AfterHook(f: Filter): (h: Hook<Err -> AfterStep>)
    ensures h.Throws? <==> f.Nullish?
    ensures h.Invalid? <==> f.Obj? && f.after.None?
    ensures h.Callable? ==> (f.Fn? && h.step == f.onAfter) || (f.Obj? && f.after == Some(h.step))
  {
    match f
    case Fn(_, a) => Callable(a)
    case Obj(_, a) => if a.Some? then Callable(a.value) else Invalid
    case Nullish => Throws
  }

  // ---------------------------------------------------------------------------
  // The before-chain

  /** How a before-chain ends: at its terminal step with the last `(err, resp, opts)`, with
      a filter that never calls `next`, or with a thrown TypeError. */
  datatype BeforeOutcome = Finished(err: Err, resp: Val, opts: Val) | Stalled | Threw

  /** The final value of the chain's index counter and how the chain ended. */
  datatype BeforeResult = BeforeResult(index: nat, outcome: BeforeOutcome)

  /** `next(err, resp, opts)` called with the index counter at `i`. */
  function BeforeFrom(fs: seq<Filter>, i: nat, err: Err, resp: Val, opts: Val): (r: BeforeResult)
    requires i <= |fs|
    ensures i <= r.index <= |fs|
    ensures r.outcome.Finished? && r.outcome.err.NoErr? ==> r.index == |fs|
    ensures r.outcome.Threw? ==> i < r.index && fs[r.index - 1] == Nullish
    ensures r.outcome.Stalled? ==> i < r.index && BeforeHook(fs[r.index - 1]) == Callable(Hang)
    decreases |fs| - i
  {
    if err.Error? || i == |fs| then BeforeResult(i, Finished(err, resp, opts))
    else
      match BeforeHook(fs[i])
      case Throws => BeforeResult(i + 1, Threw)
      case Invalid => BeforeFrom(fs, i + 1, Error(InvalidBefore), Undefined, Undefined)
      case Callable(step) =>
        if step.Hang? then BeforeResult(i + 1, Stalled)
        else BeforeFrom(fs, i + 1, step.err, step.resp, step.opts)
  }

  /** `beforeFilter`: the chain starts with `next()`. */
  function BeforeChain(fs: seq<Filter>): (r: BeforeResult)
    ensures r.index <= |fs|
    ensures fs == [] ==> r == BeforeResult(0, Finished(NoErr, Undefined, Undefined))
    ensures r.outcome.Finished? && r.outcome.err.NoErr? ==> r.index == |fs|
    ensures r.outcome.Threw? ==> 0 < r.index && fs[r.index - 1] == Nullish
    ensures r.outcome.Stalled? ==> 0 < r.index && BeforeHook(fs[r.index - 1]) == Callable(Hang)
  {
    BeforeFrom(fs, 0, NoErr, Undefined, Undefined)
  }

  /** A filter that lets the request through: its before-hook calls `next` without error. */
  predicate Passes(f: Filter)
  {
    BeforeHook(f).Callable? && BeforeHook(f).step.Pass? && BeforeHook(f).step.err.NoErr?
  }

  /** How the before-chain ends at a filter that does not let the request through. */
  function Halt(f: Filter): BeforeOutcome
  {
    match BeforeHook(f)
    case Throws => Threw
    case Invalid => Finished(Error(InvalidBefore), Undefined, Undefined)
    case Callable(step) => if step.Hang? then Stalled else Finished(step.err, step.resp, step.opts)
  }

  /** When every filter lets the request through, each runs exactly once, in order, and
      the chain reaches its terminal step without error. */
  lemma {:induction false} BeforeRunsAll(fs: seq<Filter>, i: nat, resp: Val, opts: Val)
    requires i <= |fs|
    requires forall k :: i <= k < |fs| ==> Passes(fs[k])
    ensures var r := BeforeFrom(fs, i, NoErr, resp, opts);
      r.index == |fs| && r.outcome.Finished? && r.outcome.err.NoErr?
    decreases |fs| - i
  {
    if i < |fs| {
      var step := BeforeHook(fs[i]).step;
      BeforeRunsAll(fs, i + 1, step.resp, step.opts);
    }
  }

  /** The first filter that does not let the request through decides the outcome, and no
      filter after it is invoked. */
  lemma {:induction false} BeforeStopsAtFirstFailure(fs: seq<Filter>, i: nat, k: nat, resp: Val, opts: Val)
    requires i <= k < |fs|
    requires forall j :: i <= j < k ==> Passes(fs[j])
    requires !Passes(fs[k])
    ensures BeforeFrom(fs, i, NoErr, resp, opts) == BeforeResult(k + 1, Halt(fs[k]))
    decreases k - i
  {
    if i < k {
      var step := BeforeHook(fs[i]).step;
      BeforeStopsAtFirstFailure(fs, i + 1, k, step.resp, step.opts);
    } else {
      match BeforeHook(fs[k])
      case Throws =>
      case Invalid =>
        assert BeforeFrom(fs, k + 1, Error(InvalidBefore), Undefined, Undefined)
            == BeforeResult(k + 1, Finished(Error(InvalidBefore), Undefined, Undefined));
      case Callable(step) =>
        if step.Pass? {
          assert BeforeFrom(fs, k + 1, step.err, step.resp, step.opts)
              == BeforeResult(k + 1, Finished(step.err, step.resp, step.opts));
        }
    }
  }

  /** One call of the caller's callback, with its arguments. */
  datatype CbCall = CbCall(err: Err, resp: Val, opts: Val)

  /** The first argument of `utils.invokeCallback`: the caller's callback, or a value
      that is not a function. */
  datatype Target = CallerCallback | NotAFunction

  /** `utils.invokeCallback`: calls its first argument with the rest when it is a function. */
  function InvokeCallback(target: Target, call: CbCall): (calls: seq<CbCall>)
    ensures |calls| <= 1
    ensures calls != [] <==> target.CallerCallback?
  {
    if target.CallerCallback? then [call] else []
  }

  /** An error value handed along the chain is an error object or a falsy value, never a
      function (`Err` has no function case), so in the callback's place it is never called
      whatever its value. */
  function ErrAsTarget(err: Err): Target
  {
    NotAFunction
  }

  /** The callbacks the terminal step makes as written: it hands `err` to
      `utils.invokeCallback` in the callback's place. */
  function AsWrittenBeforeCallbacks(o: BeforeOutcome): (calls: seq<CbCall>)
    ensures calls == []
  {
    if o.Finished? then InvokeCallback(ErrAsTarget(o.err), CbCall(o.err, o.resp, o.opts)) else []
  }

  /** The callbacks the terminal step is meant to make: the caller's callback, once, with
      the last `(err, resp, opts)`. */
  function BeforeCallbacks(o: BeforeOutcome): (calls: seq<CbCall>)
    ensures |calls| <= 1 && (calls != [] <==> o.Finished?)
    ensures o.Finished? ==> calls[0] == CbCall(o.err, o.resp, o.opts)
  {
    if o.Finished? then InvokeCallback(CallerCallback, CbCall(o.err, o.resp, o.opts)) else []
  }

  /** As written, no before-chain ever reaches the caller's callback. */
  lemma AsWrittenNeverCallsBack(fs: seq<Filter>)
    ensures AsWrittenBeforeCallbacks(BeforeChain(fs).outcome) == []
  {
  }

  /** With no before-filters at all the chain finishes at once, yet as written the caller's
      callback is not called; the intended terminal step calls it once. */
  lemma EmptyBeforeChainLosesCallback()
    ensures BeforeChain([]) == BeforeResult(0, Finished(NoErr, Undefined, Undefined))
    ensures AsWrittenBeforeCallbacks(BeforeChain([]).outcome) == []
    ensures BeforeCallbacks(BeforeChain([]).outcome) == [CbCall(NoErr, Undefined, Undefined)]
  {
  }

  /** With the intended terminal step, a request that every filter lets through reaches the
      caller's callback exactly once without error, and a request a filter rejects reaches
      it exactly once with that filter's error (or not at all if the filter never calls
      `next` or the chain throws). */
  lemma BeforeCallsBackOnce(fs: seq<Filter>)
    ensures (forall k :: 0 <= k < |fs| ==> Passes(fs[k])) ==>
      var calls := BeforeCallbacks(BeforeChain(fs).outcome);
      |calls| == 1 && calls[0].err.NoErr?
    ensures forall k :: 0 <= k < |fs| && !Passes(fs[k]) && (forall j :: 0 <= j < k ==> Passes(fs[j])) ==>
      var calls := BeforeCallbacks(BeforeChain(fs).outcome);
      && (Halt(fs[k]).Finished? ==> calls == [CbCall(Halt(fs[k]).err, Halt(fs[k]).resp, Halt(fs[k]).opts)])
      && (!Halt(fs[k]).Finished? ==> calls == [])
  {
    if forall k :: 0 <= k < |fs| ==> Passes(fs[k]) {
      BeforeRunsAll(fs, 0, Undefined, Undefined);
    }
    forall k | 0 <= k < |fs| && !Passes(fs[k]) && (forall j :: 0 <= j < k ==> Passes(fs[j]))
      ensures BeforeChain(fs) == BeforeResult(k + 1, Halt(fs[k]))
    {
      BeforeStopsAtFirstFailure(fs, 0, k, Undefined, Undefined);
    }
  }

  // ---------------------------------------------------------------------------
  // The after-chain

  /** How an after-chain ends: the caller's callback is called with the last error, a
      filter never calls `next`, or a TypeError is thrown. */
  datatype AfterOutcome = CalledBack(err: Err) | AfterStalled | AfterThrew

  datatype AfterResult = AfterResult(index: nat, outcome: AfterOutcome)

  /** `next(err)` called with the index counter at `i`. */
  function AfterFrom(fs: seq<Filter>, i: nat, err: Err): (r: AfterResult)
    requires i <= |fs|
    ensures i <= r.index <= |fs|
    ensures r.outcome.CalledBack? ==> r.index == |fs|
    ensures r.outcome.AfterThrew? ==> i < r.index && fs[r.index - 1] == Nullish
    ensures r.outcome.AfterStalled? ==> i < r.index && AfterHook(fs[r.index - 1]).Callable?
    decreases |fs| - i
  {
    if i == |fs| then AfterResult(i, CalledBack(err))
    else
      match AfterHook(fs[i])
      case Throws => AfterResult(i + 1, AfterThrew)
      case Invalid => AfterFrom(fs, i + 1, Error(InvalidAfter))
      case Callable(hook) =>
        var step := hook(err);
        if step.Stall? then AfterResult(i + 1, AfterStalled) else AfterFrom(fs, i + 1, step.err)
  }

  /** `afterFilter(err, …)`: the chain starts with `next(err)`. */
  function AfterChain(fs: seq<Filter>, err: Err): (r: AfterResult)
    ensures r.index <= |fs|
    ensures fs == [] ==> r == AfterResult(0, CalledBack(err))
    ensures r.outcome.CalledBack? ==> r.index == |fs|
    ensures r.outcome.AfterThrew? ==> 0 < r.index && fs[r.index - 1] == Nullish
    ensures r.outcome.AfterStalled? ==> 0 < r.index && AfterHook(fs[r.index - 1]).Callable?
  {
    AfterFrom(fs, 0, err)
  }

  /** A filter whose after-hook, if it has one, always calls `next`. */
  ghost predicate Cooperates(f: Filter)
  {
    !AfterHook(f).Throws? && (AfterHook(f).Callable? ==> forall e :: AfterHook(f).step(e).Continue?)
  }

  /** When every filter cooperates, errors do not stop the after-chain: each filter runs
      exactly once and the caller's callback is reached. */
  lemma {:induction false} AfterRunsAll(fs: seq<Filter>, i: nat, err: Err)
    requires i <= |fs|
    requires forall k :: i <= k < |fs| ==> Cooperates(fs[k])
    ensures var r := AfterFrom(fs, i, err); r.index == |fs| && r.outcome.CalledBack?
    decreases |fs| - i
  {
    if i < |fs| {
      match AfterHook(fs[i])
      case Invalid => AfterRunsAll(fs, i + 1, Error(InvalidAfter));
      case Callable(hook) => AfterRunsAll(fs, i + 1, hook(err).err);
    }
  }

  /** Shifts a result of a chain suffix to the index space of the whole chain. */
  function Shifted(r: AfterResult, offset: nat): AfterResult
  {
    AfterResult(r.index + offset, r.outcome)
  }

  /** Running the second part of a chain from its start is running the whole chain from
      the same filter. */
  lemma {:induction false} AfterSuffix(fs1: seq<Filter>, fs2: seq<Filter>, j: nat, err: Err)
    requires j <= |fs2|
    ensures AfterFrom(fs1 + fs2, |fs1| + j, err) == Shifted(AfterFrom(fs2, j, err), |fs1|)
    decreases |fs2| - j
  {
    var fs := fs1 + fs2;
    if j < |fs2| {
      assert fs[|fs1| + j] == fs2[j];
      match AfterHook(fs2[j])
      case Throws =>
      case Invalid => AfterSuffix(fs1, fs2, j + 1, Error(InvalidAfter));
      case Callable(hook) =>
        if hook(err).Continue? {
          AfterSuffix(fs1, fs2, j + 1, hook(err).err);
        }
    }
  }

  /** The first part of a chain decides the whole chain unless it reaches its end, in
      which case the error it ends with is what the second part starts from. */
  lemma {:induction false} AfterPrefix(fs1: seq<Filter>, fs2: seq<Filter>, i: nat, err: Err)
    requires i <= |fs1|
    ensures var r1 := AfterFrom(fs1, i, err);
      AfterFrom(fs1 + fs2, i, err) ==
        if r1.outcome.CalledBack? then Shifted(AfterFrom(fs2, 0, r1.outcome.err), |fs1|) else r1
    decreases |fs1| - i
  {
    var fs := fs1 + fs2;
    if i == |fs1| {
      AfterSuffix(fs1, fs2, 0, err);
    } else {
      assert fs[i] == fs1[i];
      match AfterHook(fs1[i])
      case Throws =>
      case Invalid => AfterPrefix(fs1, fs2, i + 1, Error(InvalidAfter));
      case Callable(hook) =>
        if hook(err).Continue? {
          AfterPrefix(fs1, fs2, i + 1, hook(err).err);
        }
    }
  }

  /** The after-chain threads its error through the filters: running two chains one after
      the other is running their concatenation. */
  lemma AfterCompose(fs1: seq<Filter>, fs2: seq<Filter>, err: Err)
    ensures var r1 := AfterChain(fs1, err);
      AfterChain(fs1 + fs2, err) ==
        if r1.outcome.CalledBack? then Shifted(AfterChain(fs2, r1.outcome.err), |fs1|) else r1
  {
    AfterPrefix(fs1, fs2, 0, err);
  }

  /** The callbacks `afterFilter`'s terminal step makes: the caller's, once, with the last error. */
  function AfterCallbacks(o: AfterOutcome): (calls: seq<Err>)
    ensures |calls| <= 1 && (|calls| == 1 <==> o.CalledBack?)
    ensures o.CalledBack? ==> calls == [o.err]
  {
    if o.CalledBack? then [o.err] else []
  }

  // ---------------------------------------------------------------------------
  // Registration order

  /** The after list once `regs` have been registered one by one in front of `init`. */
  function Unshifted(regs: seq<Filter>, init: seq<Filter>): (fs: seq<Filter>)
    ensures |fs| == |regs| + |init|
  {
    if regs == [] then init else Unshifted(regs[1..], [regs[0]] + init)
  }

  /** The before list once `regs` have been registered one by one after `init`. */
  function Pushed(regs: seq<Filter>, init: seq<Filter>): (fs: seq<Filter>)
    ensures |fs| == |regs| + |init|
  {
    if regs == [] then init else Pushed(regs[1..], init + [regs[0]])
  }

  /** Before-filters keep registration order. */
  lemma {:induction false} PushedInOrder(regs: seq<Filter>, init: seq<Filter>)
    ensures Pushed(regs, init) == init + regs
  {
    if regs != [] {
      PushedInOrder(regs[1..], init + [regs[0]]);
      assert init + [regs[0]] + regs[1..] == init + regs;
    }
  }

  /** After-filters end up in reverse registration order, ahead of those already there. */
  lemma {:induction false} UnshiftedReverses(regs: seq<Filter>, init: seq<Filter>)
    ensures Unshifted(regs, init) == Reverse(regs) + init
  {
    if regs != [] {
      UnshiftedReverses(regs[1..], [regs[0]] + init);
      assert Reverse(regs) == Reverse(regs[1..]) + [regs[0]];
      assert Reverse(regs[1..]) + ([regs[0]] + init) == Reverse(regs) + init;
    }
  }

  /** The `k`-th after-filter to run is the `k`-th most recently registered one. */
  lemma AfterRunsNewestFirst(regs: seq<Filter>, k: nat)
    requires k < |regs|
    ensures Unshifted(regs, [])[k] == regs[|regs| - 1 - k]
  {
    UnshiftedReverses(regs, []);
    ReverseAt(regs, k);
  }

  // ---------------------------------------------------------------------------
  // The service

  class Service {
    const name: string
    var befores: seq<Filter>
    var afters: seq<Filter>

    constructor ()
      ensures name == "filter" && befores == [] && afters == []
    {
      name := "filter";
      befores := [];
      afters := [];
    }

    /** `before`: append to the before list. */
    method Before(filter: Filter)
      modifies this`befores
      ensures befores == Pushed([filter], old(befores))
    {
      befores := befores + [filter];
    }

    /** `after`: insert at the front of the after list. */
    method After(filter: Filter)
      modifies this`afters
      ensures afters == Unshifted([filter], old(afters))
    {
      afters := [filter] + afters;
    }

    /** `beforeFilter`, with the terminal step calling the caller's callback. */
    method BeforeFilter() returns (index: nat, outcome: BeforeOutcome, cbCalls: seq<CbCall>, intendedCalls: seq<CbCall>)
      ensures BeforeResult(index, outcome) == BeforeChain(befores)
      ensures cbCalls == AsWrittenBeforeCallbacks(outcome)
      ensures intendedCalls == BeforeCallbacks(outcome)
    {
      index := 0;
      var err, resp, opts := NoErr, Undefined, Undefined;
      var done := false;
      outcome := Stalled;
      while !done
        invariant index <= |befores|
        invariant !done ==> BeforeFrom(befores, index, err, resp, opts) == BeforeChain(befores)
        invariant done ==> BeforeResult(index, outcome) == BeforeChain(befores)
        decreases |befores| - index, !done
      {
        if err.Error? || index >= |befores| {
          outcome := Finished(err, resp, opts);
          done := true;
        } else {
          var handler := befores[index];
          index := index + 1;
          match BeforeHook(handler)
          case Throws =>
            outcome := Threw;
            done := true;
          case Invalid =>
            err, resp, opts := Error(InvalidBefore), Undefined, Undefined;
          case Callable(step) =>
            if step.Hang? {
              outcome := Stalled;
              done := true;
            } else {
              err, resp, opts := step.err, step.resp, step.opts;
            }
        }
      }
      cbCalls := AsWrittenBeforeCallbacks(outcome);
      intendedCalls := BeforeCallbacks(outcome);
    }

    /** `afterFilter`. */
    method AfterFilter(err: Err) returns (index: nat, outcome: AfterOutcome, cbCalls: seq<Err>)
      ensures AfterResult(index, outcome) == AfterChain(afters, err)
      ensures cbCalls == AfterCallbacks(outcome)
    {
      index := 0;
      var e := err;
      var done := false;
      outcome := AfterStalled;
      while !done
        invariant index <= |afters|
        invariant !done ==> AfterFrom(afters, index, e) == AfterChain(afters, err)
        invariant done ==> AfterResult(index, outcome) == AfterChain(afters, err)
        decreases |afters| - index, !done
      {
        if index >= |afters| {
          outcome := CalledBack(e);
          done := true;
        } else {
          var handler := afters[index];
          index := index + 1;
          match AfterHook(handler)
          case Throws =>
            outcome := AfterThrew;
            done := true;
          case Invalid =>
            e := Error(InvalidAfter);
          case Callable(hook) =>
            var step := hook(e);
            if step.Stall? {
              outcome := AfterStalled;
              done := true;
            } else {
              e := step.err;
            }
        }
      }
      cbCalls := AfterCallbacks(outcome);
    }
  }
}
