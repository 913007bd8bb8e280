# Travel-planner aggregator: circuit breaker and orchestration strategies

This project models the two parts of the travel-planner aggregator service that carry logic, and proves properties of them in Dafny.

- **The sliding-window circuit breaker** (`circuit_breaker.dfy`, module `CircuitBreaker`). It has three states: CLOSED, OPEN and HALF-OPEN. It keeps a bounded FIFO window of 0/1 outcomes (1 = failure) and two half-open counters.
  - Its transitions are written as pure functions over a `Runtime` value holding the five mutable fields: `Push` (with `Slide` and `Evaluate`) and `ProbeResult`.
  - The class `Breaker` has the same five fields and updates them step by step, as the source does. Each of its methods is proved to leave exactly the state those functions give.
  - Lemmas about the functions state what each transition does and what holds over any sequence of calls.
- **The five orchestration strategies** of `AggregatorService` (`aggregator.dfy`, module `Aggregator`): scatter-gather (`SearchTrips`), chaining (`CheapestRoute`), branching (`ContextualTrip`), the v2 gather with weather (`SearchTripsV2`) and the breaker-guarded gather (`SearchTripsCB`).
  - Each downstream call is an input `Settled<T>`, either `Fulfilled(body)` or `Rejected`. A timeout is a rejection.
  - Each strategy returns its result record and the list of calls it actually issued, with their parameters.
  - The service owns the hit counters `v1Hits`/`v2Hits` and one breaker, configured `(10, 0.4, 20000, 5, 3)`.
- `scenarios.dfy` (module `Scenarios`) holds two client walk-throughs that use only the contracts above:
  - A breaker fed six failures and four successes opens on the tenth push, refuses requests, and turns HALF-OPEN on the first push more than 20000 ms after opening.
  - Ten failed weather calls open the service's breaker. A search made while it is open then skips the weather call, returns the "(CB open)" placeholder, is degraded, and records one outcome.

Points where the code is easy to misread (the model follows the code):
- While the breaker is OPEN, the skip path records outcome `0`, a success, not a failure. `OpenPushIgnoresWindow` shows that the pushed value cannot change the state or the counters while OPEN.
- Only `halfOpenProbes` is reset when the breaker enters HALF-OPEN. `successProbes` is never reset. As a result, once one half-open episode has closed the breaker, the first successful probe of any later episode closes it again (`LaterEpisodeClosesOnFirstSuccess`).
- The success test is a strict `>`: closing needs the lifetime count `successProbes` to exceed `halfOpenSuccessThreshold`.
- In `searchTripsCB`, a failed hotel call leaves `hotels` as `null` and does not set `degraded`. Fulfilled flight and hotel bodies are returned as they are, with no empty-list check.

## Model

| member | source | states |
|---|---|---|
| `CircuitBreaker.Sum` | src/circuit-breaker.ts:31 | the sum of the window never exceeds its length |
| `CircuitBreaker.SumIsFailureCount` | src/circuit-breaker.ts:31 | the window's sum is the number of failures (1s) in it |
| `CircuitBreaker.SumAppend` | src/circuit-breaker.ts:23 | pushing an outcome adds that outcome to the sum |
| `CircuitBreaker.FailureRate` | src/circuit-breaker.ts:30-33 | the rate is undefined (NaN) exactly on an empty window; otherwise it lies in [0, 1] and rate × length = number of failures |
| `CircuitBreaker.SlideKeepsLastOutcomes` | src/circuit-breaker.ts:22-27 | push-then-one-shift leaves exactly the last `windowSize` outcomes of old ++ [v], never more than `windowSize`, with v last |
| `CircuitBreaker.PushSlidesWindow` | src/circuit-breaker.ts:22-27 | after any push the window is the last `windowSize` elements of old ++ [v] and its length is bounded |
| `CircuitBreaker.PushFromClosed` | src/circuit-breaker.ts:51-58 | from CLOSED a push opens the breaker, with `lastOpenedAt := now`, iff the new window is full and sum/length ≥ threshold; otherwise it stays CLOSED; the counters are untouched |
| `CircuitBreaker.PushWhileFilling` | src/circuit-breaker.ts:51-58 | while the CLOSED window is not yet full, a push only appends the outcome |
| `CircuitBreaker.PushFromOpen` | src/circuit-breaker.ts:38-45 | from OPEN a push goes to HALF-OPEN iff now − lastOpenedAt > cooldownMs (strict), resetting only `halfOpenProbes`; it never closes; `successProbes` and `lastOpenedAt` are kept |
| `CircuitBreaker.OpenPushIgnoresWindow` | src/circuit-breaker.ts:38-45 | in OPEN the failure rate is not consulted: any window and any pushed value give the same state and counters |
| `CircuitBreaker.NoHalfOpenBeforeCooldown` | src/circuit-breaker.ts:38-45 | before the cooldown has strictly elapsed, a push keeps the breaker OPEN and a probe report changes nothing |
| `CircuitBreaker.PushFromHalfOpen` | src/circuit-breaker.ts:47-49 | in HALF-OPEN a push changes only the window |
| `CircuitBreaker.ProbeOutsideHalfOpen` | src/circuit-breaker.ts:67 | outside HALF-OPEN `onProbeResult` leaves every field unchanged |
| `CircuitBreaker.ProbeSuccess` | src/circuit-breaker.ts:69-79 | a successful probe increments both counters; it closes the breaker and empties the window iff successProbes + 1 > halfOpenSuccessThreshold (strict); otherwise the breaker stays HALF-OPEN with its window |
| `CircuitBreaker.ProbeFailure` | src/circuit-breaker.ts:80-86 | a failed probe increments `halfOpenProbes` only; it reopens the breaker, with `lastOpenedAt := now`, iff that count reaches `halfOpenMaxProbes`, whatever successes came earlier; the window is untouched |
| `CircuitBreaker.InitialInv` | src/circuit-breaker.ts:8-12 | the initial fields satisfy the breaker invariant |
| `CircuitBreaker.StepKeepsInv` | src/circuit-breaker.ts:22-87 | each push or probe report keeps the window within `windowSize`, and a CLOSED breaker never holds a full window at or above the threshold |
| `CircuitBreaker.RunKeepsInv` | src/circuit-breaker.ts:22-87 | the invariant holds after any sequence of pushes and probe reports |
| `CircuitBreaker.StepFollowsCycle` | src/circuit-breaker.ts:35-87 | one call moves only CLOSED→OPEN, OPEN→HALF-OPEN or HALF-OPEN→CLOSED/OPEN, or stays put; no state is skipped |
| `CircuitBreaker.RunNeverLowersSuccessProbes` | src/circuit-breaker.ts:66-87 | no sequence of calls ever lowers `successProbes` (it is never reset) |
| `CircuitBreaker.LaterEpisodeClosesOnFirstSuccess` | src/circuit-breaker.ts:69-79 | once `successProbes` has exceeded the threshold, the first successful probe of any later HALF-OPEN episode closes the breaker |
| `CircuitBreaker.Breaker.constructor` | src/circuit-breaker.ts:8-20 | the configuration is the given one (defaults 20, 0.5, 30000, 5, 5); the fields start empty, CLOSED and zero |
| `CircuitBreaker.Breaker.PushOutcome` | src/circuit-breaker.ts:22-28 | the new fields are `Push` of the old ones, and the invariant is kept |
| `CircuitBreaker.Breaker.EvaluateState` | src/circuit-breaker.ts:35-59 | the new fields are `Evaluate` of the old ones |
| `CircuitBreaker.Breaker.AllowRequest` | src/circuit-breaker.ts:61-63 | returns false iff the state is OPEN, and changes nothing |
| `CircuitBreaker.Breaker.OnProbeResult` | src/circuit-breaker.ts:66-87 | the new fields are `ProbeResult` of the old ones, and the invariant is kept |
| `CircuitBreaker.Breaker.Status` | src/circuit-breaker.ts:89-99 | a read-only snapshot of the configuration, state, `halfOpenProbes` and window; the rate is absent exactly on an empty window |
| `Aggregator.GatherBase` | src/aggregator/aggregator.service.ts:57-80 | each section is the body (fulfilled, non-empty), the "No … available" notice (fulfilled, empty) or the "… service unavailable" notice (rejected); `degraded` iff some call was rejected |
| `Aggregator.ClosedGuardedCallIgnoresProbe` | src/aggregator/aggregator.service.ts:395-405 | in CLOSED the probe report after a guarded call's push never changes the breaker, even when that push opened it |
| `Aggregator.HalfOpenGuardedCall` | src/aggregator/aggregator.service.ts:395-405 | in HALF-OPEN the guarded call's push only slides the window, and only the probe report changes the state |
| `Aggregator.AggregatorService.constructor` | src/aggregator/aggregator.service.ts:10-15 | the breaker is fresh, configured (10, 0.4, 20000, 5, 3) and in its initial state; both hit counters are 0 |
| `Aggregator.AggregatorService.SearchTrips` | src/aggregator/aggregator.service.ts:18-86 | `v1Hits` goes up by exactly 1 and `v2Hits` is kept; both searches are issued; sections follow the three-way rule; `degraded` iff a call was rejected |
| `Aggregator.AggregatorService.CheapestRoute` | src/aggregator/aggregator.service.ts:89-137 | the hotel search is issued only after the flight call fulfils, with `late` iff hour ≥ 20 or hour ≤ 6; any rejection yields exactly {'Partial or failed aggregation', degraded: true}; full success yields the flight, the hotel list, `lateCheckIn` and degraded: false |
| `Aggregator.AggregatorService.ContextualTrip` | src/aggregator/aggregator.service.ts:140-226 | events are searched iff the destination is CMB, BKK or MLE; inland gives the static placeholder and `degraded` from the base calls alone; a rejected events call gives "Events service unavailable" and sets `degraded`, leaving the other sections as assembled; the counters are untouched |
| `Aggregator.AggregatorService.SearchTripsV2` | src/aggregator/aggregator.service.ts:229-307 | `v2Hits` goes up by exactly 1 and `v1Hits` is kept; three calls are issued; a fulfilled forecast is returned raw, a rejected one becomes {weather: [], degraded: true, 'Weather data unavailable'}; `degraded` is the OR of the three rejections |
| `Aggregator.AggregatorService.SearchTripsCB` | src/aggregator/aggregator.service.ts:311-420 | flight/hotel bodies are returned raw or `null`, and only a flight failure degrades; when the breaker is OPEN, no weather call is issued, the "(CB open)" placeholder is returned, `degraded` is set and the breaker sees exactly `Push(0)`; otherwise it sees `Push(0)` then `ProbeResult(true)` on success, or `Push(1)` then `ProbeResult(false)` on failure, which also degrades |
| `Scenarios.TripWeatherBreaker` | src/aggregator/aggregator.service.ts:401-405 | from a fresh service breaker, ten failed weather calls leave it OPEN with `lastOpenedAt` at the tenth call and a full window |

## Left out

- HTTP: the `HttpService` calls, `lastValueFrom` and URL construction. Each downstream call is an abstract `Settled` input. The query parameters a call carries are kept in the `Call` values.
- The `Promise.race`/`setTimeout` timeout in `withTimeout`, the `Promise.allSettled` fan-out, and concurrent requests interleaving on the shared breaker. These are timing and concurrency. A timeout appears only as `Rejected`, and each strategy runs as one atomic step.
- `Date.now()`: it becomes the explicit `now` argument. `SearchTripsCB` takes one `now` for both its `pushOutcome` and its `onProbeResult`. The source reads the clock twice, in consecutive synchronous statements.
- `new Date(flight.arriveTime).getHours()` in `cheapestRoute`, which depends on the time zone. The flight carries its local arrival hour, 0..23, directly.
- `Logger` calls, including the no-op `this.logger.log[...]` expression at the end of `searchTripsCB`, and the `status()` calls whose results are only logged there.
- The top-level `catch` paths reached only through malformed response bodies, such as a missing `.flights` array raising a TypeError. Bodies are typed, so these paths cannot be taken.
- IEEE floating point: `failureRate` is computed in exact `real` arithmetic. Its comparison with `failureThreshold` can therefore differ from the source when a quotient rounds. NaN on an empty window is modelled as an absent rate, and every comparison with it is false, as in the source.
- JavaScript numbers are modelled as unbounded integers (timestamps, counters, configuration). Past 2^53 the source loses precision and the model does not.
- The routing controller, the module wiring and the sample HTTP client: they contain no logic.
- The reassignment of the public `weatherBreaker` field from outside the service: nothing in the service does it, so the model holds the field as a constant reference.
