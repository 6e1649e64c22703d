/** The abstract retry state machine of RetryablePromise: Java's 32-bit `int`,
    attempt results, the observable state of one retrying promise, the
    transition performed by handleTryResult, and the two ways a sequence of
    attempt outcomes can be fed through it. */
module RetrySpec {

  /** Java's `int`. */
  newtype int32 = x: int | -0x8000_0000 <= x < 0x8000_0000

  /** The number of distinct `int` values. */
  const Modulus: int := 0x1_0000_0000

  /** The `int` value that an unbounded integer `n` denotes after Java's
      two's-complement wrap-around: the one member of its residue class
      modulo 2^32 that lies in the `int` range. */
  function Wrap32(n: int): (r: int32)
    ensures (r as int - n) % Modulus == 0
  {
    ((n + 0x8000_0000) % Modulus - 0x8000_0000) as int32
  }

  /** Java's pre-increment `++x` on an `int`: MAX_VALUE wraps to MIN_VALUE. */
  function Inc32(x: int32): (r: int32)
    ensures r == Wrap32(x as int + 1)
    ensures x < 0x7fff_ffff ==> r as int == x as int + 1
  {
    if x == 0x7fff_ffff then -0x8000_0000 else x + 1
  }

  /** CountDownLatch.countDown on a count: decrements, and does nothing once
      the count has reached zero. */
  function CountedDown(count: nat): (r: nat)
    ensures r <= count
    ensures count > 0 ==> r + 1 == count
  {
    if count == 0 then 0 else count - 1
  }

  datatype Option<T> = None | Some(value: T)

  /** Ratpack's Result<T>: an attempt either produced a value or failed with
      an error (a Throwable in the source, opaque here). */
  datatype Result<T, E> = Success(value: T) | Failure(error: E)

  /** An opaque handle for the (cached) promise returned by one call of the
      promise generator; `id` is the index of that call, counted from the
      generator's creation. */
  datatype Attempt = Attempt(id: nat)

  /** What handleTryResult reads and writes, seen from outside:
      `currentTry`, the count of the `done` latch (`gate`), the number of
      times the generator has been called (`calls`), `currentPromise`
      (`current`) and `lastResult` (`last`, None while Java's field is still
      null). */
  datatype State<T, E> = State(
    currentTry: int32,
    gate: nat,
    calls: nat,
    current: Attempt,
    last: Option<Result<T, E>>)

  /** The state right after the constructor, for a generator that had been
      called `base` times before: no try counted, latch closed at 1, the
      generator called once, and its answer is the current attempt. */
  function Initial<T, E>(base: nat): State<T, E> {
    State(0, 1, base + 1, Attempt(base), None)
  }

  /** Whether handleTryResult(r) takes its retry branch: `r` failed and the
      pre-incremented try count has not reached `times`. */
  predicate Retries<T, E>(times: int32, s: State<T, E>, r: Result<T, E>) {
    r.Failure? && Inc32(s.currentTry) != times
  }

  /** The transition handleTryResult(r) performs on the state. */
  function Step<T, E>(times: int32, s: State<T, E>, r: Result<T, E>): (t: State<T, E>)
    // lastResult is overwritten on every branch
    ensures t.last == Some(r)
    // `||` short-circuits: a success leaves currentTry alone
    ensures r.Success? ==> t.currentTry == s.currentTry
    ensures r.Failure? ==> t.currentTry == Inc32(s.currentTry)
    // the latch is counted down exactly when the branch at line 53 is taken
    ensures !Retries(times, s, r) ==> t.gate == CountedDown(s.gate)
    ensures Retries(times, s, r) ==> t.gate == s.gate
    // the generator is asked for a fresh attempt exactly on a retry
    ensures !Retries(times, s, r) ==> t.calls == s.calls && t.current == s.current
    ensures Retries(times, s, r) ==> t.calls == s.calls + 1 && t.current == Attempt(s.calls)
  {
    if Retries(times, s, r) then
      s.(last := Some(r), currentTry := Inc32(s.currentTry),
         calls := s.calls + 1, current := Attempt(s.calls))
    else
      s.(last := Some(r),
         currentTry := if r.Failure? then Inc32(s.currentTry) else s.currentTry,
         gate := CountedDown(s.gate))
  }

  /** Every outcome fed back into handleTryResult in order, the wiring that
      the commented-out subscription would give: the outcome of the attempt
      in flight goes through Step while the latch is still closed; once it
      has opened no attempt is in flight and the remaining outcomes are
      never produced. */
  function Run<T, E>(times: int32, s: State<T, E>, rs: seq<Result<T, E>>): State<T, E>
    decreases |rs|
  {
    if rs == [] || s.gate == 0 then s
    else Run(times, Step(times, s, rs[0]), rs[1..])
  }

  /** The wiring as written: only the first attempt is subscribed to
      handleTryResult, so only the first outcome reaches the state machine;
      a retried attempt's outcome is only printed. */
  function LiveRun<T, E>(times: int32, s: State<T, E>, rs: seq<Result<T, E>>): State<T, E> {
    if rs == [] then s else Step(times, s, rs[0])
  }
}
