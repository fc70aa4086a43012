/** The future of pond/future.go: outcome rules for `Then`, `OnSuccess` and
    `OnFailure`, and the one-shot `done` rendezvous behind `Value`. */
module Future {
  import opened Common

  // ---------------------------------------------------------------------
  // Outcome rules
  // ---------------------------------------------------------------------

  /** The outcome of the future `Then(next)` returns, given its parent's
      outcome: a failed parent is passed on as it is, value included, and
      `next` only sees the value of a parent that succeeded. */
  function ThenOutcome<V, E>(parent: Outcome<V, E>, next: V -> Outcome<V, E>): (r: Outcome<V, E>)
    ensures !parent.Succeeded() ==> r == parent
    ensures parent.Succeeded() ==> r == next(parent.value)
  {
    if parent.err.Some? then parent else next(parent.value)
  }

  /** How many of `stages` a `Then` chain hanging off `o` invokes. */
  function Invoked<V, E>(o: Outcome<V, E>, stages: seq<V -> Outcome<V, E>>): nat
    decreases |stages|
  {
    if stages == [] then 0
    else (if o.Succeeded() then 1 else 0) + Invoked(ThenOutcome(o, stages[0]), stages[1..])
  }

  /** The outcome at the end of `f.Then(stages[0]).Then(stages[1])...` when
      `f` resolves to `o`. */
  function Chain<V, E>(o: Outcome<V, E>, stages: seq<V -> Outcome<V, E>>): Outcome<V, E>
    decreases |stages|
  {
    if stages == [] then o else Chain(ThenOutcome(o, stages[0]), stages[1..])
  }

  /** A chain hanging off a failed outcome invokes nothing and ends with
      that very outcome. */
  lemma {:induction false} FailedChainIsInert<V, E>(o: Outcome<V, E>, stages: seq<V -> Outcome<V, E>>)
    requires !o.Succeeded()
    ensures Chain(o, stages) == o
    ensures Invoked(o, stages) == 0
    decreases |stages|
  {
    if stages != [] {
      FailedChainIsInert(ThenOutcome(o, stages[0]), stages[1..]);
    }
  }

  /** A chain is the chain of its first `k` stages followed by the rest. */
  lemma {:induction false} ChainSplit<V, E>(o: Outcome<V, E>, stages: seq<V -> Outcome<V, E>>, k: nat)
    requires k <= |stages|
    ensures Chain(o, stages) == Chain(Chain(o, stages[..k]), stages[k..])
    ensures Invoked(o, stages) == Invoked(o, stages[..k]) + Invoked(Chain(o, stages[..k]), stages[k..])
    decreases k
  {
    if k > 0 {
      var rest := stages[1..];
      assert stages[..k][1..] == rest[..k - 1];
      assert stages[k..] == rest[k - 1..];
      ChainSplit(ThenOutcome(o, stages[0]), rest, k - 1);
    }
  }

  /** The first error of a chain reaches its end: once the first `k` stages
      have produced an error, the later stages never run and the chain ends
      with that error and the value that came with it. */
  lemma FirstErrorReachesEnd<V, E>(o: Outcome<V, E>, stages: seq<V -> Outcome<V, E>>, k: nat)
    requires k <= |stages|
    requires !Chain(o, stages[..k]).Succeeded()
    ensures Chain(o, stages) == Chain(o, stages[..k])
    ensures Invoked(o, stages) == Invoked(o, stages[..k])
  {
    ChainSplit(o, stages, k);
    FailedChainIsInert(Chain(o, stages[..k]), stages[k..]);
  }

  /** A chain that ends in success started from a success and invoked every
      one of its stages. */
  lemma {:induction false} SucceededChainRanEveryStage<V, E>(o: Outcome<V, E>, stages: seq<V -> Outcome<V, E>>)
    requires Chain(o, stages).Succeeded()
    ensures o.Succeeded()
    ensures Invoked(o, stages) == |stages|
    decreases |stages|
  {
    if stages != [] {
      if !o.Succeeded() {
        FailedChainIsInert(o, stages);
      }
      SucceededChainRanEveryStage(ThenOutcome(o, stages[0]), stages[1..]);
    }
  }

  /** The three-stage chain of the package's test: the first two stages pass
      the value on, the third fails with "stop", which is what the chain's
      future finally holds. */
  lemma ThreeStageChainEndsWithStop()
    ensures
      var pass := (i: Option<string>) => Outcome(i, None);
      var stop := (i: Option<string>) => Outcome(None, Some("stop"));
      var start := Outcome(Some("future"), None);
      Chain(start, [pass, pass, stop]) == Outcome(None, Some("stop"))
      && Invoked(start, [pass, pass, stop]) == 3
  {
    var pass := (i: Option<string>) => Outcome(i, None);
    var stop := (i: Option<string>) => Outcome(None, Some("stop"));
    var start: Outcome<Option<string>, string> := Outcome(Some("future"), None);
    var stages := [pass, pass, stop];
    assert stages[1..] == [pass, stop];
    assert stages[1..][1..] == [stop];
    assert stages[1..][1..][1..] == [];
    var stopped: Outcome<Option<string>, string> := Outcome(None, Some("stop"));
    calc {
      Chain(start, stages);
      Chain(start, [pass, stop]);
      Chain(start, [stop]);
      Chain(stopped, []);
    }
    calc {
      Invoked(start, stages);
      1 + Invoked(start, [pass, stop]);
      2 + Invoked(start, [stop]);
      3 + Invoked(stopped, []);
    }
  }

  /** The argument `OnSuccess`'s callback is invoked with; None when it is
      not invoked. */
  function OnSuccessCall<V, E>(o: Outcome<V, E>): (call: Option<V>)
    ensures call.Some? <==> o.Succeeded()
    ensures call.Some? ==> call.value == o.value
  {
    if o.err == None then Some(o.value) else None
  }

  /** The argument `OnFailure`'s callback is invoked with; None when it is
      not invoked. */
  function OnFailureCall<V, E>(o: Outcome<V, E>): (call: Option<E>)
    ensures call.Some? <==> !o.Succeeded()
    ensures call.Some? ==> call == o.err
  {
    match o.err
    case None => None
    case Some(e) => Some(e)
  }

  /** The two callback rules split the outcomes: whatever the outcome, exactly
      one of them calls its callback. (Registered on one future, the two
      callbacks race for its single signal: `BothCallbacksOnOneFuture`.) */
  lemma ExactlyOneCallbackFires<V, E>(o: Outcome<V, E>)
    ensures OnSuccessCall(o).Some? != OnFailureCall(o).Some?
  {
  }

  // ---------------------------------------------------------------------
  // The one-shot cell
  // ---------------------------------------------------------------------

  /** `pondFuture`: the goroutine started by `newPondFuture` stores what its
      function returns into `value`/`err` and then sends once on the
      unbuffered `done`; every `Value` receives from `done`. Nothing caches
      the result, so only one receive ever completes. */
  class PondFuture<V, E> {
    /** What the producing goroutine stores in `value`/`err`; None while its
        function never returns. */
    var result: Option<Outcome<V, E>>
    /** Sends completed on `done`. */
    var signals: nat

    ghost predicate Valid()
      reads this
    {
      signals <= 1 && (signals == 1 ==> result.Some?)
    }

    /** The producer's single send on `done` is waiting for a receiver. */
    predicate Ready()
      reads this
    {
      result.Some? && signals == 0
    }

    /** `newPondFuture(next)`, where `produced` is what `next()` returns. */
    constructor (produced: Option<Outcome<V, E>>)
      ensures Valid()
      ensures result == produced && signals == 0
    {
      result := produced;
      signals := 0;
    }

    /** `Value`: the receive from `done`, then the stored pair. None stands
        for a call that blocks forever: the send has not come, or another
        observer already took it. */
    method Value() returns (r: Option<Outcome<V, E>>)
      requires Valid()
      modifies this
      ensures Valid() && result == old(result)
      ensures r == (if old(Ready()) then old(result) else None)
      ensures signals == (if old(Ready()) then 1 else old(signals))
    {
      if Ready() {
        signals := 1;
        r := result;
      } else {
        r := None;
      }
    }

    /** `Then(next)`: the new future's function observes this one through
        `Value` and applies the `Then` rule. */
    method Then(next: V -> Outcome<V, E>) returns (g: PondFuture<V, E>)
      requires Valid()
      modifies this
      ensures Valid() && result == old(result)
      ensures signals == (if old(Ready()) then 1 else old(signals))
      ensures fresh(g) && g.Valid() && g.signals == 0
      ensures g.result == (if old(Ready()) then Some(ThenOutcome(old(result).value, next)) else None)
    {
      var parent := Value();
      var produced := if parent.Some? then Some(ThenOutcome(parent.value, next)) else None;
      g := new PondFuture(produced);
    }

    /** `OnSuccess`: returns the argument the callback receives, None when it
        is never called. */
    method OnSuccess() returns (call: Option<V>)
      requires Valid()
      modifies this
      ensures Valid() && result == old(result)
      ensures signals == (if old(Ready()) then 1 else old(signals))
      ensures call == (if old(Ready()) then OnSuccessCall(old(result).value) else None)
    {
      var r := Value();
      call := if r.Some? then OnSuccessCall(r.value) else None;
    }

    /** `OnFailure`: returns the error the callback receives, None when it is
        never called. */
    method OnFailure() returns (call: Option<E>)
      requires Valid()
      modifies this
      ensures Valid() && result == old(result)
      ensures signals == (if old(Ready()) then 1 else old(signals))
      ensures call == (if old(Ready()) then OnFailureCall(old(result).value) else None)
    {
      var r := Value();
      call := if r.Some? then OnFailureCall(r.value) else None;
    }
  }

  /** Two observers of one future: the first gets exactly the pair the
      function produced, the second never returns. */
  method SecondObserverNeverReturns<V, E>(o: Outcome<V, E>) returns (first: Option<Outcome<V, E>>, second: Option<Outcome<V, E>>)
    ensures first == Some(o)
    ensures second == None
  {
    var fut := new PondFuture(Some(o));
    first := fut.Value();
    second := fut.Value();
  }

  /** `OnSuccess` and `OnFailure` registered on one future race for its one
      signal; with `OnSuccess` winning, `OnFailure`'s callback never runs,
      so at most one callback fires, and none when the outcome failed. */
  method BothCallbacksOnOneFuture<V, E>(o: Outcome<V, E>) returns (success: Option<V>, failure: Option<E>)
    ensures success == OnSuccessCall(o) && failure == None
    ensures !(success.Some? && failure.Some?)
    ensures !o.Succeeded() ==> success == None && failure == None
  {
    var fut := new PondFuture(Some(o));
    success := fut.OnSuccess();
    failure := fut.OnFailure();
  }

  /** A `Then` registered on a future takes its one signal: a later `Value`
      on the parent never returns, while the chained future holds the rule's
      outcome. */
  method ThenTakesTheSignal<V, E>(o: Outcome<V, E>, next: V -> Outcome<V, E>) returns (chained: Option<Outcome<V, E>>, parent: Option<Outcome<V, E>>)
    ensures chained == Some(ThenOutcome(o, next))
    ensures parent == None
  {
    var fut := new PondFuture(Some(o));
    var g := fut.Then(next);
    parent := fut.Value();
    chained := g.Value();
  }
}
