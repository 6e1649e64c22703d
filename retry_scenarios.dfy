/** Clients of RetryablePromise: construction followed by a run of attempt
    outcomes, under each wiring, and runs derived from the contracts alone:
    fail twice then succeed, a single failing try, five failures,
    `times = 0`, a resumed fed-back run, and a late success under the
    wiring as written. */
module RetryScenarios {
  import opened RetrySpec
  import opened RetryProperties
  import opened Retryable

  /** Construct a RetryablePromise over `gen` and feed every attempt's
      outcome back into handleTryResult. */
  method RetryFedBack<T, E>(gen: Generator, times: int32, outcomes: seq<Result<T, E>>)
      returns (p: RetryablePromise<T, E>)
    modifies gen
    ensures fresh(p) && fresh(p.done) && p.promiseGenerator == gen && p.times == times
    ensures p.Valid() && p.base == old(gen.calls)
    ensures p.Snap() == Run(times, Initial(old(gen.calls)), outcomes)
    ensures p.done.count != 0 ==> TryResultHandler in Subscribers(p.listeners, p.currentPromise)
  {
    p := new RetryablePromise(gen, times);
    p.RunFedBack(outcomes);
  }

  /** Construct a RetryablePromise over `gen` and let the attempts complete
      with `outcomes` through the subscriptions as the source makes them. */
  method RetryLive<T, E>(gen: Generator, times: int32, outcomes: seq<Result<T, E>>)
      returns (p: RetryablePromise<T, E>)
    modifies gen
    ensures fresh(p) && fresh(p.done) && p.promiseGenerator == gen && p.times == times
    ensures p.Valid() && p.base == old(gen.calls)
    ensures p.Snap() == LiveRun(times, Initial(old(gen.calls)), outcomes)
    ensures forall a :: a in p.listeners && TryResultHandler in p.listeners[a] ==> a == Attempt(old(gen.calls))
  {
    p := new RetryablePromise(gen, times);
    p.RunLive(outcomes);
  }

  /** Three tries; failure, failure, success: the success is the result and
      the generator was called three times. As wired, the first failure is
      the last result ever recorded and the latch stays closed. */
  method FailTwiceThenSucceed<T, E>(e: E, v: T) {
    var outcomes := [Failure(e), Failure(e), Success(v)];
    var gen := new Generator();
    var p := RetryFedBack(gen, 3, outcomes);
    EventualSuccess(3, 0, outcomes, 3);
    assert p.lastResult == Some(Success(v)) && p.done.count == 0 && gen.calls == 3;

    var gen2 := new Generator();
    var q := RetryLive(gen2, 3, outcomes);
    LiveRetryNeverSettles(3, 0, outcomes);
    assert q.lastResult == Some(Failure(e)) && q.done.count == 1 && gen2.calls == 2;
  }

  /** One try and a failure: no retry, the failure is the result. */
  method SingleTryFails<T, E>(e: E) {
    var outcomes: seq<Result<T, E>> := [Failure(e)];
    var gen := new Generator();
    var p := RetryFedBack(gen, 1, outcomes);
    Exhaustion(1, 0, outcomes);
    assert p.lastResult == Some(Failure(e)) && p.done.count == 0 && gen.calls == 1;
  }

  /** Five tries, all failing: five generator calls and the fifth failure
      is the result. */
  method AlwaysFails<T, E>(errors: seq<E>)
    requires |errors| == 5
  {
    var outcomes: seq<Result<T, E>> := seq(5, i requires 0 <= i < 5 => Failure(errors[i]));
    var gen := new Generator();
    var p := RetryFedBack(gen, 5, outcomes);
    Exhaustion(5, 0, outcomes);
    assert p.lastResult == Some(Failure(errors[4])) && p.done.count == 0 && gen.calls == 5;
  }

  /** `times` of 0 is not rejected: construction calls the generator once,
      and in the fed-back run a failure neither opens the latch nor stops
      the retries. */
  method ZeroTimesIsAccepted<T, E>(e: E) {
    var outcomes: seq<Result<T, E>> := [Failure(e), Failure(e)];
    var gen := new Generator();
    var p := RetryFedBack(gen, 0, outcomes);
    NonPositiveTimesStaysClosed(0, 0, outcomes);
    assert p.done.count == 1 && gen.calls == 3 && p.currentTry == 2;
  }

  /** A fed-back run can be resumed: one failure, then a success fed to the
      same promise, ends as the run over both outcomes does. */
  method FedBackRunResumes<T, E>(e: E, v: T) {
    var gen := new Generator();
    var p := RetryFedBack(gen, 3, [Failure(e)]);
    p.RunFedBack([Success(v)]);
    RunSplit(3, Initial<T, E>(0), [Failure(e)], [Success(v)]);
    assert [Failure(e)] + [Success(v)] == [Failure(e), Success(v)];
    EventualSuccess(3, 0, [Failure(e), Success(v)], 2);
    assert p.lastResult == Some(Success(v)) && p.done.count == 0 && gen.calls == 2;
  }

  /** As wired, once the first attempt has failed and been retried, the
      retried attempt's success reaches only the printing lambda: the latch
      stays closed and the failure stays the last result. */
  method LiveLateSuccessIgnored<T, E>(e: E, v: T) {
    var gen := new Generator();
    var p := RetryLive(gen, 3, [Failure(e)]);
    assert p.currentPromise == Attempt(1);
    p.Deliver(p.currentPromise, Success(v));
    assert p.done.count == 1 && p.lastResult == Some(Failure(e)) && gen.calls == 2;
  }
}
