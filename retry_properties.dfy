/** Properties of the retry state machine: the latch only ever opens, the
    fed-back run calls the generator at most `times` times and accounts for
    every try while the latch is closed, an eventual success stops the
    retries, exhaustion surfaces the last failure, a non-positive `times`
    only settles after the try counter wraps around, and the wiring as
    written loses every result after the first. */
module RetryProperties {
  import opened RetrySpec

  /* ---------- Java int arithmetic ---------- */

  /** Integers congruent modulo 2^32 denote the same `int`. */
  lemma WrapCongruent(a: int, b: int)
    requires (a - b) % Modulus == 0
    ensures Wrap32(a) == Wrap32(b)
  {
  }

  /** `int` values are their own wrap. */
  lemma WrapOfInt32(x: int32)
    ensures Wrap32(x as int) == x
  {
  }

  /** Pre-incrementing the wrap of `n` gives the wrap of `n + 1`. */
  lemma IncOfWrap(n: int)
    ensures Inc32(Wrap32(n)) == Wrap32(n + 1)
  {
  }

  /** A non-positive `times` is first met by the counter after exactly
      2^32 + times increments from 0. */
  lemma FirstHitOfNonPositive(times: int32, n: int)
    requires times <= 0
    requires 1 <= n <= Modulus + times as int
    ensures Wrap32(n) == times <==> n == Modulus + times as int
  {
  }

  /* ---------- the latch ---------- */

  /** The latch count never grows along a fed-back run, stays within {0, 1}
      when it starts there, and once at zero nothing changes any more. */
  lemma {:induction false} RunGateMonotone<T, E>(times: int32, s: State<T, E>, rs: seq<Result<T, E>>)
    ensures Run(times, s, rs).gate <= s.gate
    ensures s.gate == 0 ==> Run(times, s, rs) == s
    decreases |rs|
  {
    if rs != [] && s.gate != 0 {
      RunGateMonotone(times, Step(times, s, rs[0]), rs[1..]);
    }
  }

  /* ---------- the fed-back run with times >= 1 ---------- */

  /** The invariant of a fed-back run started by the constructor on a
      generator that had been called `base` times: the latch count is 0 or
      1; the generator has been called once more than the tries counted,
      up to `times` calls in all; the current attempt is the latest one
      generated; and while the latch is closed the tries are below `times`. */
  ghost predicate FedBackInv<T, E>(times: int32, base: nat, s: State<T, E>) {
    && 1 <= times
    && s.gate <= 1
    && 0 <= s.currentTry <= times
    && s.calls == base + (if s.currentTry < times then s.currentTry as int + 1 else times as int)
    && s.calls >= 1
    && s.current == Attempt(s.calls - 1)
    && (s.gate == 1 ==> s.currentTry < times)
  }

  lemma InitialFedBackInv<T, E>(times: int32, base: nat)
    requires 1 <= times
    ensures FedBackInv(times, base, Initial<T, E>(base))
  {
  }

  /** One transition from a closed latch keeps the invariant. */
  lemma StepFedBackInv<T, E>(times: int32, base: nat, s: State<T, E>, r: Result<T, E>)
    requires FedBackInv(times, base, s) && s.gate == 1
    ensures FedBackInv(times, base, Step(times, s, r))
  {
  }

  /** The whole fed-back run keeps the invariant. */
  lemma {:induction false} RunFedBackInv<T, E>(times: int32, base: nat, s: State<T, E>, rs: seq<Result<T, E>>)
    requires FedBackInv(times, base, s)
    ensures FedBackInv(times, base, Run(times, s, rs))
    decreases |rs|
  {
    if rs != [] && s.gate != 0 {
      StepFedBackInv(times, base, s, rs[0]);
      RunFedBackInv(times, base, Step(times, s, rs[0]), rs[1..]);
    }
  }

  /** With `times >= 1` and every outcome fed back, the generator is called
      at most `times` times, and while the latch is still closed it has been
      called exactly currentTry + 1 times with currentTry below `times`. */
  lemma InvocationBound<T, E>(times: int32, base: nat, rs: seq<Result<T, E>>)
    requires 1 <= times
    ensures var t := Run(times, Initial<T, E>(base), rs);
            && t.calls - base <= times as int
            && (t.gate == 1 ==> 0 <= t.currentTry < times && t.calls - base == t.currentTry as int + 1)
  {
    InitialFedBackInv<T, E>(times, base);
    RunFedBackInv(times, base, Initial<T, E>(base), rs);
  }

  /** With at least `times - currentTry` outcomes left, the fed-back run
      settles: every outcome either succeeds or uses up one try. */
  lemma {:induction false} RunSettles<T, E>(times: int32, base: nat, s: State<T, E>, rs: seq<Result<T, E>>)
    requires FedBackInv(times, base, s)
    requires times as int - s.currentTry as int <= |rs|
    ensures Run(times, s, rs).gate == 0
    decreases |rs|
  {
    if s.gate != 0 {
      StepFedBackInv(times, base, s, rs[0]);
      var t := Step(times, s, rs[0]);
      if t.gate != 0 {
        RunSettles(times, base, t, rs[1..]);
      } else {
        RunGateMonotone(times, t, rs[1..]);
      }
    }
  }

  /** m failures followed by a success, with enough tries left: the run
      stops at the success, which becomes the last result, after m more
      tries and m more generator calls. */
  lemma {:induction false} RunSucceeds<T, E>(times: int32, s: State<T, E>, rs: seq<Result<T, E>>, m: nat)
    requires s.gate == 1 && 0 <= s.currentTry
    requires s.currentTry as int + m < times as int
    requires m < |rs| && rs[m].Success?
    requires forall i :: 0 <= i < m ==> rs[i].Failure?
    ensures Run(times, s, rs) ==
            s.(currentTry := (s.currentTry as int + m) as int32, gate := 0,
               calls := s.calls + m,
               current := if m == 0 then s.current else Attempt(s.calls + m - 1),
               last := Some(rs[m]))
    decreases m
  {
    var t := Step(times, s, rs[0]);
    if m == 0 {
      RunGateMonotone(times, t, rs[1..]);
    } else {
      assert rs[0].Failure?;
      assert t.currentTry as int == s.currentTry as int + 1;
      assert forall i :: 0 <= i < m - 1 ==> rs[1..][i] == rs[i + 1];
      RunSucceeds(times, t, rs[1..], m - 1);
    }
  }

  /** Eventual success stops retrying: attempts 1 .. k-1 fail and attempt k
      succeeds, with k <= times. The final result is that success and the
      generator has been called exactly k times. */
  lemma EventualSuccess<T, E>(times: int32, base: nat, rs: seq<Result<T, E>>, k: nat)
    requires 1 <= k <= times as int && k <= |rs|
    requires rs[k - 1].Success?
    requires forall i :: 0 <= i < k - 1 ==> rs[i].Failure?
    ensures var t := Run(times, Initial<T, E>(base), rs);
            && t.gate == 0 && t.last == Some(rs[k - 1])
            && t.calls == base + k && t.currentTry as int == k - 1
  {
    RunSucceeds(times, Initial<T, E>(base), rs, k - 1);
  }

  /** Only failures, with at least `times - currentTry` of them: the run
      uses up every try, opens the latch at the last one, and that failure
      becomes the last result. */
  lemma {:induction false} RunExhausts<T, E>(times: int32, s: State<T, E>, rs: seq<Result<T, E>>)
    requires s.gate == 1 && 0 <= s.currentTry < times
    requires times as int - s.currentTry as int <= |rs|
    requires forall i :: 0 <= i < |rs| ==> rs[i].Failure?
    ensures var k := times as int - s.currentTry as int;
            Run(times, s, rs) ==
            s.(currentTry := times, gate := 0, calls := s.calls + k - 1,
               current := if k == 1 then s.current else Attempt(s.calls + k - 2),
               last := Some(rs[k - 1]))
    decreases times as int - s.currentTry as int
  {
    var t := Step(times, s, rs[0]);
    if Inc32(s.currentTry) == times {
      RunGateMonotone(times, t, rs[1..]);
    } else {
      assert forall i :: 0 <= i < |rs[1..]| ==> rs[1..][i] == rs[i + 1];
      RunExhausts(times, t, rs[1..]);
    }
  }

  /** Exhaustion surfaces the last failure: when every attempt fails, the
      generator is called exactly `times` times and the final result is the
      outcome of the last of them, not of the first. */
  lemma Exhaustion<T, E>(times: int32, base: nat, rs: seq<Result<T, E>>)
    requires 1 <= times as int <= |rs|
    requires forall i :: 0 <= i < |rs| ==> rs[i].Failure?
    ensures var t := Run(times, Initial<T, E>(base), rs);
            && t.gate == 0 && t.currentTry == times
            && t.calls == base + times as int
            && t.current == Attempt(base + times as int - 1)
            && t.last == Some(rs[times - 1])
  {
    RunExhausts(times, Initial<T, E>(base), rs);
  }

  /* ---------- times <= 0: no validation, only wrap-around settles ---------- */

  /** The try counter after `n` more pre-increments starting from `c`. */
  function CountAfter(c: int32, n: nat): int32 {
    Wrap32(c as int + n)
  }

  /** Only failures, none of which brings the wrapped counter to `times`:
      the latch stays closed, each failure counts one (wrapping) try and
      calls the generator once more, and the last failure is recorded. */
  lemma {:induction false} RunOfFailures<T, E>(times: int32, s: State<T, E>, rs: seq<Result<T, E>>)
    requires s.gate == 1
    requires forall i :: 0 <= i < |rs| ==> rs[i].Failure?
    requires forall n: nat :: 1 <= n <= |rs| ==> CountAfter(s.currentTry, n) != times
    ensures Run(times, s, rs) ==
            if rs == [] then s
            else s.(currentTry := Wrap32(s.currentTry as int + |rs|),
                    calls := s.calls + |rs|,
                    current := Attempt(s.calls + |rs| - 1),
                    last := Some(rs[|rs| - 1]))
    decreases |rs|
  {
    if rs != [] {
      var t := Step(times, s, rs[0]);
      WrapOfInt32(s.currentTry);
      IncOfWrap(s.currentTry as int);
      assert t.currentTry == Wrap32(s.currentTry as int + 1);
      assert CountAfter(s.currentTry, 1) != times;
      forall n: nat | 1 <= n <= |rs| - 1
        ensures CountAfter(t.currentTry, n) != times
      {
        assert CountAfter(s.currentTry, n + 1) != times;
        WrapCongruent(t.currentTry as int + n, s.currentTry as int + 1 + n);
      }
      assert forall i :: 0 <= i < |rs[1..]| ==> rs[1..][i] == rs[i + 1];
      RunOfFailures(times, t, rs[1..]);
      if |rs| > 1 {
        WrapCongruent(t.currentTry as int + |rs| - 1, s.currentTry as int + |rs|);
      }
    }
  }

  /** The constructor does not validate `times`: with `times <= 0` and
      only failures fed back, the latch stays closed for the first
      2^32 + times - 1 failures, and the generator is called once per
      failure. */
  lemma NonPositiveTimesStaysClosed<T, E>(times: int32, base: nat, rs: seq<Result<T, E>>)
    requires times <= 0
    requires |rs| < Modulus + times as int
    requires forall i :: 0 <= i < |rs| ==> rs[i].Failure?
    ensures var t := Run(times, Initial<T, E>(base), rs);
            && t.gate == 1 && t.calls == base + 1 + |rs|
            && t.currentTry == Wrap32(|rs|)
  {
    forall n: nat | 1 <= n <= |rs|
      ensures CountAfter(0, n) != times
    {
      FirstHitOfNonPositive(times, n);
    }
    RunOfFailures(times, Initial<T, E>(base), rs);
  }

  /** ... and it is only Java's `int` wrap-around that opens it: the
      (2^32 + times)-th failure brings the counter back to `times`. */
  lemma NonPositiveTimesSettlesOnWrap<T, E>(times: int32, base: nat, rs: seq<Result<T, E>>)
    requires times <= 0
    requires |rs| == Modulus + times as int
    requires forall i :: 0 <= i < |rs| ==> rs[i].Failure?
    ensures var t := Run(times, Initial<T, E>(base), rs);
            && t.gate == 0 && t.currentTry == times
            && t.calls == base + |rs| && t.last == Some(rs[|rs| - 1])
  {
    var k := |rs| - 1;
    var prefix := rs[..k];
    forall n: nat | 1 <= n <= k
      ensures CountAfter(0, n) != times
    {
      FirstHitOfNonPositive(times, n);
    }
    RunOfFailures(times, Initial<T, E>(base), prefix);
    RunSplit(times, Initial<T, E>(base), prefix, rs[k..]);
    assert prefix + rs[k..] == rs;
    FirstHitOfNonPositive(times, |rs|);
    var s := Run(times, Initial<T, E>(base), prefix);
    IncOfWrap(k);
    assert Inc32(s.currentTry) == times;
    RunGateMonotone(times, Step(times, s, rs[k]), rs[k..][1..]);
  }

  /** Running over a concatenation runs over the parts in turn. */
  lemma {:induction false} RunSplit<T, E>(times: int32, s: State<T, E>, xs: seq<Result<T, E>>, ys: seq<Result<T, E>>)
    ensures Run(times, s, xs + ys) == Run(times, Run(times, s, xs), ys)
    decreases |xs|
  {
    if xs == [] {
      assert xs + ys == ys;
    } else if s.gate == 0 {
      RunGateMonotone(times, s, xs + ys);
      RunGateMonotone(times, s, ys);
    } else {
      assert (xs + ys)[1..] == xs[1..] + ys;
      RunSplit(times, Step(times, s, xs[0]), xs[1..], ys);
    }
  }

  /* ---------- the wiring as written ---------- */

  /** As wired, a first failure that is retried leaves the latch closed for
      good: whatever the later attempts produce, their results only reach
      the printing subscriber. */
  lemma LiveRetryNeverSettles<T, E>(times: int32, base: nat, rs: seq<Result<T, E>>)
    requires |rs| >= 1 && rs[0].Failure? && times != 1
    ensures LiveRun(times, Initial<T, E>(base), rs).gate == 1
    ensures LiveRun(times, Initial<T, E>(base), rs).last == Some(rs[0])
    ensures LiveRun(times, Initial<T, E>(base), rs).calls == base + 2
  {
  }

  /** The discrepancy on a concrete input: two tries, the first attempt
      fails and the second succeeds. Fed back, the run settles with the
      success; as wired, the latch never opens and the blocking wait on it
      never returns. */
  lemma LateSuccessIsLost<T, E>(base: nat, e: E, v: T)
    ensures var rs := [Failure(e), Success(v)];
            && Run(2, Initial<T, E>(base), rs).gate == 0
            && Run(2, Initial<T, E>(base), rs).last == Some(Success(v))
            && LiveRun(2, Initial<T, E>(base), rs).gate == 1
  {
    var rs: seq<Result<T, E>> := [Failure(e), Success(v)];
    EventualSuccess(2, base, rs, 2);
  }
}
