# RetryablePromise retry state machine in Dafny

This project models the retry core of `RetryablePromise` (tomdcc/promise-retry).
`RetryablePromise` wraps a generator of Ratpack promises. Its constructor creates a
one-shot `CountDownLatch(1)` called `done`, sets `currentTry = 0`, asks the generator
for the first attempt and subscribes `handleTryResult` to it. `handleTryResult`
runs once per attempt result:

- it always stores the result in `lastResult`;
- on success it counts the latch down;
- on failure it pre-increments `currentTry`, and counts the latch down if that equals `times`;
- otherwise it asks the generator for a new attempt.

The model has four modules:

- `RetrySpec` (`retry_spec.dfy`) holds the values the state machine works on:
  - Java's `int` as the newtype `int32`, with `++` written out as `Inc32`, wrap-around included;
  - `Result` and `Option`;
  - `Attempt`, an opaque handle for the promise returned by the n-th generator call;
  - `State`, the observable fields;
  - `Step`, the transition performed by `handleTryResult`;
  - `Run`, every attempt's outcome fed back into `Step` until the latch opens;
  - `LiveRun`, the source as wired, where only the first outcome reaches `Step`.
- `Retryable` (`retryable_promise.dfy`) is the object model:
  - `Generator` is the `Supplier`, reduced to a call counter.
  - `Latch` is the `CountDownLatch`, reduced to its count.
  - `RetryablePromise` has the source's fields, its constructor, `HandleTryResult`, and
    `Subscribe` for `asResult`.
  - It also has `listeners`, the subscribers registered on each attempt.
  - `Deliver` completes an attempt and calls its subscribers.
  - Two drivers: `RunLive` (the subscriptions as written) and `RunFedBack` (every retried
    attempt also subscribed to `handleTryResult`, which is what the commented-out line 61
    would do).
- `RetryProperties` (`retry_properties.dfy`) holds the lemmas:
  - the latch only ever opens;
  - the invariant of the fed-back run and the bound on generator calls;
  - eventual success, exhaustion, and settling;
  - the behaviour of a non-positive `times`;
  - what the live wiring loses.
- `RetryScenarios` (`retry_scenarios.dfy`) holds clients. They construct a promise, run
  outcomes through it, and derive runs from the contracts alone: fail twice then
  succeed, a single failing try, five failures, `times = 0`, a fed-back run resumed with
  a second call, and a late success that the wiring as written ignores.

Two behaviours of the code that a caller might not expect:

- A caller might expect `times < 1` to be rejected. The code does not validate `times` (lines 29-31),
  and the constructor has no precondition on it.
  - With every result fed back (`Run`), a failure with `times <= 0` keeps retrying, and the latch
    opens only at the (2^32 + times)-th failure, once `currentTry` has wrapped around
    (`NonPositiveTimesStaysClosed`, `NonPositiveTimesSettlesOnWrap`).
  - As written, the first failure retries once and the latch never opens (`LiveRetryNeverSettles`).
- The `// retry it` branch (line 58) and the commented-out line 61 show that each retried
  attempt was meant to re-enter `handleTryResult`. In the code only the first attempt is
  subscribed to `handleTryResult` (line 47). A retried attempt gets only
  the printing lambda (line 62), because line 61 is commented out. `RunLive` models the code
  as written. `RunFedBack` models the intended wiring; see "## Findings".

## Model

| member | source | states |
|---|---|---|
| `RetrySpec.Inc32` | src/main/java/com/gradle/RetryablePromise.java:53 | Java's `++currentTry` on an `int`: the result is the wrap-around of `currentTry + 1` modulo 2^32, and is exactly `currentTry + 1` below `Integer.MAX_VALUE` |
| `RetrySpec.Wrap32` | src/main/java/com/gradle/RetryablePromise.java:23 | the `int` that an unbounded count denotes is congruent to it modulo 2^32 |
| `RetrySpec.CountedDown` | src/main/java/com/gradle/RetryablePromise.java:56 | counting a latch down lowers a positive count by exactly one and never goes below zero |
| `RetrySpec.Step` | src/main/java/com/gradle/RetryablePromise.java:50-64 | the transition always records the result; a success leaves `currentTry` unchanged; a failure pre-increments it; the latch is counted down exactly when the result succeeded or the try count reached `times`; otherwise the latch is untouched and the generator is called exactly once more, for a new current attempt |
| `Retryable.Generator.Get` | src/main/java/com/gradle/RetryablePromise.java:45 | each call of the generator counts one call and hands out a new attempt |
| `Retryable.Latch.CountDown` | src/main/java/com/gradle/RetryablePromise.java:56 | `countDown` decrements a positive count and is a no-op at zero, so an open latch stays open |
| `Retryable.RetryablePromise.constructor` | src/main/java/com/gradle/RetryablePromise.java:29-48 | stores the generator and `times` (unvalidated), creates a fresh latch at 1, sets `currentTry` to 0, calls the generator exactly once and subscribes `handleTryResult` to that first attempt only |
| `Retryable.RetryablePromise.Subscribe` | src/main/java/com/gradle/RetryablePromise.java:47 | `asResult` adds one subscriber to an attempt the generator has handed out, changes no other subscription and keeps the object invariant |
| `Retryable.RetryablePromise.HandleTryResult` | src/main/java/com/gradle/RetryablePromise.java:50-64 | `lastResult` becomes the result on every branch. A success opens the latch and leaves `currentTry` and the generator alone. A failure increments `currentTry` by one (with wrap). When that reaches `times`, the latch opens and the generator is not called. Otherwise the latch count is unchanged, the generator is called exactly once, `currentPromise` becomes the new, different attempt, and only the printing lambda is subscribed to it. The latch stays within {0, 1} |
| `Retryable.RetryablePromise.Deliver` | src/main/java/com/gradle/RetryablePromise.java:47-62 | an attempt's result changes the state exactly as `Step` does when `handleTryResult` is subscribed to it, and changes nothing when only the printing lambda is |
| `Retryable.RetryablePromise.RunLive` | src/main/java/com/gradle/RetryablePromise.java:47-62 | as wired, with each attempt completing once, the final state is the first outcome's transition and no later outcome has any effect; afterwards `handleTryResult` is still subscribed to the first attempt only |
| `Retryable.RetryablePromise.RunFedBack` | src/main/java/com/gradle/RetryablePromise.java:60-61 | with the retried attempt subscribed to `handleTryResult` after every retry, the final state is `Run` of the outcomes, i.e. every outcome until the latch opens goes through the transition; while the latch is closed the current attempt stays subscribed to `handleTryResult`, so the run can be resumed |
| `RetryProperties.RunGateMonotone` | src/main/java/com/gradle/RetryablePromise.java:34-56 | along any run the latch count never increases, and once it is zero nothing changes any more |
| `RetryProperties.StepFedBackInv` | src/main/java/com/gradle/RetryablePromise.java:50-64 | one transition from a closed latch keeps the fed-back invariant: latch in {0, 1}, `0 <= currentTry <= times`, generator calls equal `currentTry + 1` capped at `times`, current attempt is the latest, closed latch implies `currentTry < times` |
| `RetryProperties.RunFedBackInv` | src/main/java/com/gradle/RetryablePromise.java:43-61 | the fed-back invariant holds after any sequence of outcomes |
| `RetryProperties.InvocationBound` | src/main/java/com/gradle/RetryablePromise.java:45-61 | with `times >= 1` and every result fed back, the generator is called at most `times` times, and while the latch is closed it has been called exactly `currentTry + 1` times with `currentTry < times` |
| `RetryProperties.RunSettles` | src/main/java/com/gradle/RetryablePromise.java:53-61 | with at least `times - currentTry` outcomes left, the fed-back run opens the latch |
| `RetryProperties.RunSucceeds` | src/main/java/com/gradle/RetryablePromise.java:52-61 | m failures then a success, within the tries left: the run stops at that success, with m more tries and m more generator calls |
| `RetryProperties.EventualSuccess` | src/main/java/com/gradle/RetryablePromise.java:52-61 | in the fed-back run, attempts 1..k-1 fail and attempt k <= times succeeds: the success is the final result, the latch is open and the generator was called exactly k times |
| `RetryProperties.RunExhausts` | src/main/java/com/gradle/RetryablePromise.java:52-61 | only failures, at least as many as tries left: every try is used, the latch opens at the last, and that failure is recorded |
| `RetryProperties.Exhaustion` | src/main/java/com/gradle/RetryablePromise.java:52-61 | in the fed-back run, when every attempt fails the generator is called exactly `times` times and the final result is the `times`-th failure, not the first |
| `RetryProperties.RunOfFailures` | src/main/java/com/gradle/RetryablePromise.java:53-61 | failures that never bring the wrapped counter to `times` keep the latch closed, each counting one try and one generator call |
| `RetryProperties.RunSplit` | src/main/java/com/gradle/RetryablePromise.java:50-64 | feeding two sequences of outcomes in turn is feeding their concatenation |
| `RetryProperties.NonPositiveTimesStaysClosed` | src/main/java/com/gradle/RetryablePromise.java:29-31 | `times <= 0` is accepted; in the fed-back run failures then keep the latch closed for fewer than 2^32 + times of them, each calling the generator again |
| `RetryProperties.NonPositiveTimesSettlesOnWrap` | src/main/java/com/gradle/RetryablePromise.java:53 | in the fed-back run with `times <= 0`, the (2^32 + times)-th failure wraps `currentTry` back to `times` and opens the latch |
| `RetryProperties.LiveRetryNeverSettles` | src/main/java/com/gradle/RetryablePromise.java:61-62 | as wired, a retried first failure (any `times` other than 1, including `times <= 0`) leaves the latch closed for good, with that failure as the last result and exactly two generator calls, whatever later attempts produce |
| `RetryProperties.LateSuccessIsLost` | src/main/java/com/gradle/RetryablePromise.java:61-62 | with `times = 2`, failure then success: the fed-back run settles with the success, the live wiring never opens the latch |
| `RetryScenarios.RetryFedBack` | src/main/java/com/gradle/RetryablePromise.java:29-61 | constructing and then feeding every outcome back yields `Run` of the outcomes from the initial state, with the current attempt still subscribed to `handleTryResult` while the latch is closed |
| `RetryScenarios.RetryLive` | src/main/java/com/gradle/RetryablePromise.java:29-62 | constructing and then completing the attempts as wired yields `LiveRun` of the outcomes from the initial state, with `handleTryResult` subscribed to the first attempt only |

## Findings

| source | as written | input that shows it | evidently intended | confidence | as-written member | corrected member |
|---|---|---|---|---|---|---|
| src/main/java/com/gradle/RetryablePromise.java:61-62 | a retried attempt is subscribed only to a lambda that prints its result; the subscription of `handleTryResult` is commented out | `times = 2`, attempt 1 fails, attempt 2 succeeds: the latch never opens, so the blocking wait on `done` never returns | every retried attempt's result re-enters `handleTryResult`; the run then settles with the success after two generator calls (`EventualSuccess`, `Exhaustion`) | high; not executed | `RetryProperties.LateSuccessIsLost` | `Retryable.RetryablePromise.RunFedBack` |

## Left out

- The blocking bridge at lines 35-40 is not modelled: `finalPromisePromise`, `execControl.blocking` and `done.await()`. It is thread scheduling in Ratpack's runtime. The latch is modelled only as the count the state machine decrements, with no waiters.
- The one-argument constructor at lines 25-27 is not modelled. It only looks up `ExecController.current()`, which belongs to the foreign runtime.
- The operator forwarding at lines 66-124 is not modelled: `onError`, `then`, `map`, `flatMap`, `cache`, `throttled` and so on. These are thin delegations to Ratpack promise operators whose semantics are not in this repository.
- `DelegatingSuccessPromise` at lines 126-193 is not modelled, for the same reason. Its two `UnsupportedOperationException` stubs are trivial.
- Generator.Get, HandleTryResult and the constructor: the generator is assumed to return a non-null promise normally. In the source, `promiseGenerator.get().cache()` at lines 45 and 60 can throw or return `null`. At line 45 that aborts construction. At line 60 it leaves `lastResult` written and `currentTry` incremented, with the latch still at 1 and `currentPromise` the old attempt. The model does not capture that failure path.
- The `.cache()` calls at lines 45 and 60 are not modelled. An attempt is an opaque handle numbered by the generator call that produced it.
- The `System.out.println` calls are left out. They are output only and change no state.
- The printing lambda of line 62 is kept as a subscriber that has no effect.
- The error carried by a failed `Result` is a type parameter and is opaque. Ratpack's `Result` is not part of this model beyond success or failure.
- `Deliver` does not enforce that an attempt completes only once; that is the runtime's promise. `RunLive` respects it by delivering to each attempt at most once.
- Concurrency is not modelled: callbacks run one at a time, as the comment at line 19 assumes.
- `HandleTryResult` may be called again after the latch has opened, as in the source. No property is claimed for such calls beyond what its contract states.
