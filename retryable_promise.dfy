/** RetryablePromise as an object: its final fields (the promise generator,
    `times`, the `done` latch), the fields handleTryResult updates in place
    (`currentPromise`, `lastResult`, `currentTry`), and the subscriptions
    registered on each attempt. Two drivers deliver attempt outcomes: one
    through the subscriptions as the source wires them, one with every
    retried attempt fed back into handleTryResult. */
module Retryable {
  import opened RetrySpec

  /** A subscriber registered with `asResult` on an attempt: the method
      reference to handleTryResult, or the lambda that only prints the
      result it is given. */
  datatype Listener = TryResultHandler | ResultPrinter

  /** The subscribers of attempt `a` in `ls`. */
  function Subscribers(ls: map<Attempt, set<Listener>>, a: Attempt): set<Listener> {
    if a in ls then ls[a] else {}
  }

  /** The Supplier<Promise<T>>: each call hands out a fresh attempt. */
  class Generator {
    var calls: nat

    constructor ()
      ensures calls == 0
    {
      calls := 0;
    }

    method Get() returns (p: Attempt)
      modifies this
      ensures calls == old(calls) + 1
      ensures p == Attempt(old(calls))
    {
      p := Attempt(calls);
      calls := calls + 1;
    }
  }

  /** A CountDownLatch, without its waiters. */
  class Latch {
    var count: nat

    constructor (count: nat)
      ensures this.count == count
    {
      this.count := count;
    }

    /** Decrements the count; once it is zero, further calls do nothing. */
    method CountDown()
      modifies this
      ensures count == CountedDown(old(count))
    {
      if count > 0 {
        count := count - 1;
      }
    }
  }

  class RetryablePromise<T, E> {
    const promiseGenerator: Generator
    const times: int32
    const done: Latch
    var currentPromise: Attempt
    var lastResult: Option<Result<T, E>>
    var currentTry: int32
    /** The subscribers registered on each attempt so far. */
    var listeners: map<Attempt, set<Listener>>
    /** How many times the generator had been called before construction. */
    ghost const base: nat

    /** The latch holds 0 or 1, and the current attempt and every
        subscribed attempt came from the generator. */
    ghost predicate Valid()
      reads this, promiseGenerator, done
    {
      && done.count <= 1
      && base < promiseGenerator.calls
      && currentPromise.id < promiseGenerator.calls
      && forall a :: a in listeners ==> a.id < promiseGenerator.calls
    }

    /** The fields the state machine works on, as a value. */
    ghost function Snap(): State<T, E>
      reads this, promiseGenerator, done
    {
      State(currentTry, done.count, promiseGenerator.calls, currentPromise, lastResult)
    }

    /** The subscriptions after handleTryResult(r) ran in state `s`: a retry
        subscribes only the printing lambda to the new attempt. */
    ghost function ListenersAfter(ls: map<Attempt, set<Listener>>, s: State<T, E>, r: Result<T, E>): map<Attempt, set<Listener>> {
      if Retries(times, s, r) then ls[Attempt(s.calls) := {ResultPrinter}] else ls
    }

    /** The constructor: a closed latch, no try counted, the first attempt
        requested from the generator and subscribed to handleTryResult.
        `times` is taken as given, without validation. */
    constructor (promiseGenerator: Generator, times: int32)
      modifies promiseGenerator
      ensures this.promiseGenerator == promiseGenerator && this.times == times
      ensures fresh(done)
      ensures base == old(promiseGenerator.calls)
      ensures Valid()
      ensures Snap() == Initial(base)
      ensures listeners == map[Attempt(base) := {TryResultHandler}]
    {
      this.promiseGenerator := promiseGenerator;
      this.times := times;
      done := new Latch(1);
      currentTry := 0;
      base := promiseGenerator.calls;
      var first := promiseGenerator.Get();
      currentPromise := first;
      lastResult := None;
      listeners := map[];
      new;
      assert Subscribers(listeners, currentPromise) + {TryResultHandler} == {TryResultHandler};
      Subscribe(currentPromise, TryResultHandler);
    }

    /** `asResult`: registers subscriber `l` on attempt `a`. */
    method Subscribe(a: Attempt, l: Listener)
      requires Valid()
      requires a.id < promiseGenerator.calls
      modifies this`listeners
      ensures Valid()
      ensures listeners == old(listeners)[a := Subscribers(old(listeners), a) + {l}]
    {
      listeners := listeners[a := Subscribers(listeners, a) + {l}];
    }

    /** handleTryResult: record the result; on success, or on a failure that
        brings the pre-incremented try count to `times`, open the latch;
        otherwise ask the generator for a new attempt and subscribe the
        printing lambda to it. */
    method HandleTryResult(r: Result<T, E>)
      requires Valid()
      modifies this, promiseGenerator, done
      ensures Valid()
      ensures lastResult == Some(r)
      ensures r.Success? ==>
                && currentTry == old(currentTry) && done.count == 0
                && promiseGenerator.calls == old(promiseGenerator.calls)
                && currentPromise == old(currentPromise)
      ensures r.Failure? ==> currentTry == Inc32(old(currentTry))
      ensures r.Failure? && Inc32(old(currentTry)) == times ==>
                && done.count == 0
                && promiseGenerator.calls == old(promiseGenerator.calls)
                && currentPromise == old(currentPromise)
      ensures Retries(times, old(Snap()), r) ==>
                && done.count == old(done.count)
                && promiseGenerator.calls == old(promiseGenerator.calls) + 1
                && currentPromise == Attempt(old(promiseGenerator.calls))
                && currentPromise != old(currentPromise)
      ensures listeners == ListenersAfter(old(listeners), old(Snap()), r)
      ensures Snap() == Step(times, old(Snap()), r)
    {
      lastResult := Some(r);
      var settle := r.Success?;
      if !settle {
        currentTry := Inc32(currentTry);
        settle := currentTry == times;
      }
      if settle {
        done.CountDown();
      } else {
        currentPromise := promiseGenerator.Get();
        assert currentPromise !in listeners;
        assert Subscribers(listeners, currentPromise) + {ResultPrinter} == {ResultPrinter};
        // the subscription of handleTryResult is commented out in the source
        Subscribe(currentPromise, ResultPrinter);
      }
    }

    /** Attempt `a` completes with `r` and its subscribers are called:
        handleTryResult if it is one of them; the printing lambda changes
        nothing. */
    method Deliver(a: Attempt, r: Result<T, E>)
      requires Valid()
      modifies this, promiseGenerator, done
      ensures Valid()
      ensures TryResultHandler in Subscribers(old(listeners), a) ==>
                && Snap() == Step(times, old(Snap()), r)
                && listeners == ListenersAfter(old(listeners), old(Snap()), r)
      ensures TryResultHandler !in Subscribers(old(listeners), a) ==>
                Snap() == old(Snap()) && listeners == old(listeners)
    {
      if TryResultHandler in Subscribers(listeners, a) {
        HandleTryResult(r);
      }
    }

    /** The source as wired, right after construction: each attempt in
        flight completes once, with the next of `outcomes`. Only the first
        attempt reaches handleTryResult. */
    method RunLive(outcomes: seq<Result<T, E>>)
      requires Valid()
      requires listeners == map[currentPromise := {TryResultHandler}]
      modifies this, promiseGenerator, done
      ensures Valid()
      ensures Snap() == LiveRun(times, old(Snap()), outcomes)
      ensures forall a :: a in listeners && TryResultHandler in listeners[a] ==> a == old(currentPromise)
    {
      ghost var first := currentPromise;
      var settled: set<Attempt> := {};
      var i := 0;
      while i < |outcomes| && currentPromise !in settled
        invariant 0 <= i <= |outcomes|
        invariant Valid()
        invariant i == 0 ==> settled == {} && Snap() == old(Snap()) && listeners == old(listeners)
        invariant i >= 1 ==> first in settled && Snap() == Step(times, old(Snap()), outcomes[0])
        invariant forall a :: a in listeners && TryResultHandler in listeners[a] ==> a == first
        decreases |outcomes| - i
      {
        var inFlight := currentPromise;
        settled := settled + {inFlight};
        Deliver(inFlight, outcomes[i]);
        i := i + 1;
      }
    }

    /** The wiring the commented-out line would give: after each retry the
        new attempt is subscribed to handleTryResult as well, so every
        attempt's outcome is fed back until the latch opens. */
    method RunFedBack(outcomes: seq<Result<T, E>>)
      requires Valid()
      requires TryResultHandler in Subscribers(listeners, currentPromise)
      modifies this, promiseGenerator, done
      ensures Valid()
      ensures Snap() == Run(times, old(Snap()), outcomes)
      ensures done.count != 0 ==> TryResultHandler in Subscribers(listeners, currentPromise)
    {
      var i := 0;
      while i < |outcomes| && done.count != 0
        invariant 0 <= i <= |outcomes|
        invariant Valid()
        invariant Run(times, Snap(), outcomes[i..]) == Run(times, old(Snap()), outcomes)
        invariant done.count != 0 ==> TryResultHandler in Subscribers(listeners, currentPromise)
      {
        var inFlight := currentPromise;
        assert outcomes[i..][1..] == outcomes[i + 1..];
        Deliver(inFlight, outcomes[i]);
        if currentPromise != inFlight {
          Subscribe(currentPromise, TryResultHandler);
        }
        i := i + 1;
      }
    }
  }
}
