# jqwik core: check loop, exhaustive set count, durations at a precision

This project models three pieces of the jqwik property-based testing engine and
proves what each one promises.

- **The property check loop** (`GenericProperty.check`, module `Properties`).
  A property has a name, a list of arbitraries and a forAll function. `check`
  takes one generator from the first arbitrary for the given seed and number of
  tries. Each try draws one value, wraps it in a one-element parameter list and
  applies the forAll function. The outcome is one of four kinds:
  - `true`: the try counts as a check.
  - `false`: the loop stops with FALSIFIED.
  - an assumption abort (`TestAbortedException`): the try is skipped and not counted as a check.
  - any other throwable: it counts as a check. It is re-thrown if its class is blacklisted; otherwise the loop stops with ERRONEOUS.

  Without a stop, the result is EXHAUSTED when no try was a check and SATISFIED otherwise.
  The method `GenericProperty.Check` is a loop over a `Generator` object whose cursor
  advances once per draw. It is proved equal to `Verdict`, a specification that
  reads the result off the first try that stops the loop. The lemmas beside it
  state the outcomes for true, false, rejected and thrown tries. In the module
  `GenericPropertyTests`, each of the five one-parameter scenarios calls `Check`
  and states its result, its number of draws and its number of forAll
  applications as verified postconditions.
- **The exhaustive set-size count** (`SetExhaustiveGenerator.calculateMaxCount`, module `SetExhaustive`).
  It decides whether every set with a size in `[minSize, maxSize]` can be
  enumerated from an element's exhaustive generator. When it can, it returns
  how many such sets there are. `CalculateMaxCount` is the loop over sizes. It
  is proved equal to `MaxCountOf`, which reads: infeasible when some size gives
  up, otherwise the sum of the per-size counts. The lemmas relate that sum to
  the true binomial coefficients `Choose(n, k)` and cover each way of giving up.
- **Durations at a fixed precision** (module `DurationPrecision`, with the examples in `MillisTests` and `MinutesTests`).
  The exhaustive generator of `Times.durations().ofPrecision(unit).between(min, max)`
  enumerates the multiples of the unit between the bounds in ascending order,
  and its maxCount is their number. Durations are integer nanoseconds. The lower
  bound is rounded up and the upper bound rounded down, toward plus and minus
  infinity on both sides of zero.

The code checks the ceiling `MAXIMUM_ACCEPTED_MAX_COUNT` against each size's
coefficient `choices`, never against the running total
(SetExhaustiveGenerator.java:41). `FourElementsSizesOneToTwo`
accepts a total of 10 under a ceiling of 6. The code also accepts `tries <= 0`
and returns EXHAUSTED with `countTries == tries`, and the model does the same.

## Model

| member | source | states |
|---|---|---|
| `Properties.Generator.constructor` | src/main/java/net/jqwik/properties/GenericProperty.java:23-24 | a generator built from the arbitrary's stream for (seed, tries) starts with nothing drawn |
| `Properties.Generator.Next` | src/main/java/net/jqwik/properties/GenericProperty.java:48 | `next()` returns the stream's next value and advances the cursor by exactly one |
| `Properties.GenericProperty.constructor` | src/main/java/net/jqwik/properties/GenericProperty.java:16-20 | the property keeps the given name, arbitraries and forAll function |
| `Properties.GenericProperty.GenerateParameters` | src/main/java/net/jqwik/properties/GenericProperty.java:47-52 | one draw per call, and the parameter list holds exactly that one drawn value |
| `Properties.GenericProperty.Check` | src/main/java/net/jqwik/properties/GenericProperty.java:22-45 | the result is `Verdict`: the first stopping try decides FALSIFIED, ERRONEOUS or an escaping blacklisted throwable, else EXHAUSTED or SATISFIED by the check count. The generator is drawn once and the forAll function applied once per try run, and try i is judged on the i-th drawn value. An empty arbitrary list makes `get(0)` throw |
| `Properties.Checks` | src/main/java/net/jqwik/properties/GenericProperty.java:29-37 | the number of checks (tries not rejected by an assumption) never exceeds the number of tries |
| `Properties.FirstStopFrom` | src/main/java/net/jqwik/properties/GenericProperty.java:26-40 | the try found stops the loop (false or a throwable) and no earlier try does; no try is found only when none in range stops |
| `Properties.AlwaysTrueIsSatisfied` | src/main/java/net/jqwik/properties/GenericProperty.java:26-44 | a forAll function that always holds gives SATISFIED with countTries = countChecks = tries, no sample and no throwable, after exactly `tries` tries |
| `Properties.FirstFalseIsFalsified` | src/main/java/net/jqwik/properties/GenericProperty.java:29-33 | the first false at try k, after only successes, gives FALSIFIED with countTries = countChecks = k and the k-th drawn value as sample, after exactly k tries |
| `Properties.OddTriesRejectedIsSatisfied` | src/main/java/net/jqwik/properties/GenericProperty.java:34-35 | rejected tries advance countTries but not countChecks and do not stop the loop: rejecting every odd try of any `tries >= 2` gives SATISFIED with `tries / 2` checks (rounded down) |
| `Properties.AllRejectedIsExhausted` | src/main/java/net/jqwik/properties/GenericProperty.java:42-43 | every try rejected (or no tries at all) gives EXHAUSTED with countTries = tries and countChecks = 0 |
| `Properties.FirstThrowIsErroneous` | src/main/java/net/jqwik/properties/GenericProperty.java:36-39 | a non-blacklisted throwable at try k after only successes gives ERRONEOUS with countTries = countChecks = k (the failing try counted), the k-th value as sample and that same throwable |
| `Properties.BlacklistedThrowEscapes` | src/main/java/net/jqwik/properties/GenericProperty.java:38 | a blacklisted throwable at the first stopping try escapes unchanged and no result is built |
| `Properties.VerdictIsWellFormed` | src/main/java/net/jqwik/properties/GenericProperty.java:32-44 | every result echoes name and seed. A one-element sample is present exactly for FALSIFIED and ERRONEOUS, and a throwable exactly for ERRONEOUS. Otherwise 1 <= countChecks <= countTries <= tries, with countTries = tries for SATISFIED |
| `Properties.AsWrittenLoopNeverExits` | src/main/java/net/jqwik/properties/GenericProperty.java:26 | with `tries == Integer.MAX_VALUE` the Java int counter satisfies the guard `countTries <= tries` after every number of increments: it reaches `tries` at the last try and the next increment wraps it to Integer.MIN_VALUE |
| `Properties.JavaIncrement` | src/main/java/net/jqwik/properties/GenericProperty.java:26 | Java's `++` on an `int` stays within the int range and adds one below Integer.MAX_VALUE |
| `Properties.JavaTryCounter` | src/main/java/net/jqwik/properties/GenericProperty.java:26 | the Java try counter after any number of increments from 1 lies within the int range |
| `Properties.JavaTryCounterCounts` | src/main/java/net/jqwik/properties/GenericProperty.java:26 | below Integer.MAX_VALUE the Java counter after n increments from 1 is n + 1, as with unbounded integers |
| `GenericPropertyTests.CheckSatisfied` | src/test/java/net/jqwik/properties/GenericPropertyTests.java:18-37 | two tries of an always-true property: SATISFIED, 2 tries, 2 checks, seed 42; two draws and two forAll applications |
| `GenericPropertyTests.CheckFalsified` | src/test/java/net/jqwik/properties/GenericPropertyTests.java:40-63 | the value 5 falsifies: FALSIFIED at try 5 with 5 checks, sample [5], seed 41; five draws and five forAll applications |
| `GenericPropertyTests.CheckSatisfiedWithRejectedAssumptions` | src/test/java/net/jqwik/properties/GenericPropertyTests.java:66-90 | odd values rejected: SATISFIED with 10 tries and 5 checks; ten draws and ten forAll applications |
| `GenericPropertyTests.CheckExhausted` | src/test/java/net/jqwik/properties/GenericPropertyTests.java:93-114 | every try rejected: EXHAUSTED with 10 tries and no checks; ten draws and ten forAll applications |
| `GenericPropertyTests.CheckErroneous` | src/test/java/net/jqwik/properties/GenericPropertyTests.java:117-146 | the fifth try throws: ERRONEOUS with 5 tries, 5 checks, sample [5] and the identical throwable; five draws and five forAll applications |
| `SetExhaustive.CalculateMaxCount` | engine/src/main/java/net/jqwik/engine/properties/arbitraries/exhaustive/SetExhaustiveGenerator.java:16-47 | empty without an exhaustive element generator. Otherwise the result is `MaxCountOf`: empty when some size in range gives up (size 0 never does; a size above the element count never does; otherwise more than 70 elements, binomial overflow, or a coefficient above the cap or below 0), else the sum of the per-size counts |
| `SetExhaustive.InvertedRangeCountsZero` | engine/src/main/java/net/jqwik/engine/properties/arbitraries/exhaustive/SetExhaustiveGenerator.java:22-46 | minSize > maxSize gives a count of 0 |
| `SetExhaustive.EmptySizeCountsOne` | engine/src/main/java/net/jqwik/engine/properties/arbitraries/exhaustive/SetExhaustiveGenerator.java:24-27 | sizes 0..0 give exactly 1, for any element count, more than 70 included |
| `SetExhaustive.SizesAboveElementCountCountZero` | engine/src/main/java/net/jqwik/engine/properties/arbitraries/exhaustive/SetExhaustiveGenerator.java:28-30 | sizes that all exceed the element count contribute 0 and never give up, even for more than 70 elements |
| `SetExhaustive.TooManyElementsIsInfeasible` | engine/src/main/java/net/jqwik/engine/properties/arbitraries/exhaustive/SetExhaustiveGenerator.java:31-34 | more than 70 elements with some size 1 <= k <= n in range makes the count empty |
| `SetExhaustive.BadCoefficientIsInfeasible` | engine/src/main/java/net/jqwik/engine/properties/arbitraries/exhaustive/SetExhaustiveGenerator.java:35-43 | a size 1 <= k <= n whose binomial overflows, exceeds the cap or is negative makes the count empty |
| `SetExhaustive.ChooseAboveN` | engine/src/main/java/net/jqwik/engine/properties/arbitraries/exhaustive/SetExhaustiveGenerator.java:28-30 | there are no k-element subsets of fewer than k elements: C(n, k) = 0 for k > n |
| `SetExhaustive.FeasibleSumIsBinomialSum` | engine/src/main/java/net/jqwik/engine/properties/arbitraries/exhaustive/SetExhaustiveGenerator.java:23-45 | over sizes where nothing gives up, the accumulated sum equals the sum of the true coefficients C(n, k) |
| `SetExhaustive.FeasibleCountIsSumOfBinomials` | engine/src/main/java/net/jqwik/engine/properties/arbitraries/exhaustive/SetExhaustiveGenerator.java:22-46 | a feasible count is the sum of C(n, k) over the sizes, with C(n, 0) = 1 and C(n, k) = 0 for k > n |
| `SetExhaustive.FourElementsSizesOneToTwo` | engine/src/main/java/net/jqwik/engine/properties/arbitraries/exhaustive/SetExhaustiveGenerator.java:41-46 | four elements with sizes 1..2 count C(4,1) + C(4,2) = 10, even under a cap of 6, since the cap applies per coefficient |
| `SetExhaustive.FourElementCoefficients` | engine/src/main/java/net/jqwik/engine/properties/arbitraries/exhaustive/SetExhaustiveGenerator.java:37 | C(4, 1) = 4 and C(4, 2) = 6 |
| `SetExhaustive.SetExhaustiveGenerator.constructor` | engine/src/main/java/net/jqwik/engine/properties/arbitraries/exhaustive/SetExhaustiveGenerator.java:49-54 | the generator keeps the element arbitrary, maxCount and size bounds it is given; the fields are constants |
| `SetExhaustive.SetExhaustiveGenerator.Iterator` | engine/src/main/java/net/jqwik/engine/properties/arbitraries/exhaustive/SetExhaustiveGenerator.java:56-59 | the enumeration is the combination enumerator applied to the element's exhaustive generator and the stored size bounds; it fails exactly when the element has no exhaustive generator |
| `SetExhaustive.SetExhaustiveGenerator.MaxCount` | engine/src/main/java/net/jqwik/engine/properties/arbitraries/exhaustive/SetExhaustiveGenerator.java:61-64 | `maxCount()` answers the stored count |
| `SetExhaustive.MaxCountIsConstructorArgument` | engine/src/main/java/net/jqwik/engine/properties/arbitraries/exhaustive/SetExhaustiveGenerator.java:49-64 | a freshly built generator reports exactly the maxCount passed to its constructor |
| `DurationPrecision.ToDuration` | time/src/test/java/net/jqwik/time/api/times/duration/exhaustiveGeneration/precision/MinutesTests.java:28-33 | a duration splits into whole seconds and a nanosecond part in [0, 10^9) that add back to it |
| `DurationPrecision.OfSeconds` | time/src/test/java/net/jqwik/time/api/times/duration/exhaustiveGeneration/precision/MillisTests.java:20-21 | `Duration.ofSeconds(s, adj)` carries the adjustment into the seconds by floor division and keeps its floor remainder as the nanosecond part, for either sign |
| `DurationPrecision.MaxCount` | time/src/test/java/net/jqwik/time/api/times/duration/exhaustiveGeneration/precision/MillisTests.java:27 | maxCount is 0 exactly when no multiple of the unit lies between the bounds; otherwise it counts the multiples from min rounded up to max rounded down |
| `DurationPrecision.ToDurationOfSeconds` | time/src/test/java/net/jqwik/time/api/times/duration/exhaustiveGeneration/precision/MinutesTests.java:28-33 | `Duration.ofSeconds(s, n)` with 0 <= n < 10^9 has s seconds and n nanoseconds |
| `DurationPrecision.CeilToUnit` | time/src/test/java/net/jqwik/time/api/times/duration/exhaustiveGeneration/precision/MillisTests.java:19-29 | the lower bound rounds up to the least multiple of the unit not below it, for either sign |
| `DurationPrecision.FloorToUnit` | time/src/test/java/net/jqwik/time/api/times/duration/exhaustiveGeneration/precision/MillisTests.java:19-32 | the upper bound rounds down to the greatest multiple of the unit not above it, for either sign |
| `DurationPrecision.Steps` | time/src/test/java/net/jqwik/time/api/times/duration/exhaustiveGeneration/precision/MillisTests.java:28-33 | values from first, each one unit after the previous, all between first and last; empty exactly when first > last |
| `DurationPrecision.Enumerate` | time/src/test/java/net/jqwik/time/api/times/duration/exhaustiveGeneration/precision/MillisTests.java:28-33 | every enumerated value is a multiple of the unit within [min, max]. Each value is exactly one unit after the previous, and the first is min rounded up |
| `DurationPrecision.EnumerationIsComplete` | time/src/test/java/net/jqwik/time/api/times/duration/exhaustiveGeneration/precision/MillisTests.java:28-33 | every multiple of the unit within [min, max] is enumerated |
| `DurationPrecision.EnumerationIsStrictlyAscending` | time/src/test/java/net/jqwik/time/api/times/duration/exhaustiveGeneration/precision/MillisTests.java:94-99 | values strictly ascend, so none (zero included) is enumerated twice |
| `DurationPrecision.EnumerationCountAndEnds` | time/src/test/java/net/jqwik/time/api/times/duration/exhaustiveGeneration/precision/MillisTests.java:27-33 | maxCount equals the number of enumerated values, and the last value is max rounded down |
| `DurationPrecision.StepsComplete` | time/src/test/java/net/jqwik/time/api/times/duration/exhaustiveGeneration/precision/MillisTests.java:28-33 | every value a whole number of units from first and within [first, last] is reached |
| `DurationPrecision.StepsLength` | time/src/test/java/net/jqwik/time/api/times/duration/exhaustiveGeneration/precision/MillisTests.java:27-33 | between bounds n units apart there are n + 1 values, the last being the upper bound |
| `DurationPrecision.StepsAt` | time/src/test/java/net/jqwik/time/api/times/duration/exhaustiveGeneration/precision/MinutesTests.java:28-33 | the i-th value is first + i units |
| `DurationPrecision.EnumerationFrom` | time/src/test/java/net/jqwik/time/api/times/duration/exhaustiveGeneration/precision/MinutesTests.java:27-33 | bounds rounding to first and first + n units give exactly first, first + unit, ..., first + n units, and maxCount n + 1 |
| `MillisTests.BetweenPositive` | time/src/test/java/net/jqwik/time/api/times/duration/exhaustiveGeneration/precision/MillisTests.java:15-34 | 183729 s + 997997921 ns .. 183730 s + 1213999 ns give 183729.998, 183729.999, 183730.000, 183730.001 s and maxCount 4 |
| `MillisTests.BetweenNegative` | time/src/test/java/net/jqwik/time/api/times/duration/exhaustiveGeneration/precision/MillisTests.java:37-56 | negative bounds round up below and down above, giving the four listed millisecond values and maxCount 4 |
| `MillisTests.BetweenNegativeOneSecond` | time/src/test/java/net/jqwik/time/api/times/duration/exhaustiveGeneration/precision/MillisTests.java:59-78 | -1.001999999 s .. -0.997382492 s give -1.001, -1.000, -0.999, -0.998 s and maxCount 4 |
| `MillisTests.BetweenAroundZero` | time/src/test/java/net/jqwik/time/api/times/duration/exhaustiveGeneration/precision/MillisTests.java:81-100 | a range around zero gives -2 ms, -1 ms, 0, +1 ms and maxCount 4 |
| `MillisTests.BetweenPositiveOneSecond` | time/src/test/java/net/jqwik/time/api/times/duration/exhaustiveGeneration/precision/MillisTests.java:103-122 | 0.997128492 s .. 1.001039392 s give 0.998, 0.999, 1.000, 1.001 s and maxCount 4 |
| `MinutesTests.MinuteValuesHaveNoNanos` | time/src/test/java/net/jqwik/time/api/times/duration/exhaustiveGeneration/precision/MinutesTests.java:28-33 | every value enumerated at minute precision has a zero nanosecond part |
| `MinutesTests.BetweenPositive` | time/src/test/java/net/jqwik/time/api/times/duration/exhaustiveGeneration/precision/MinutesTests.java:15-34 | 4:55.998 .. 8:31.001 give 5, 6, 7 and 8 minutes and maxCount 4 |
| `MinutesTests.BetweenNegative` | time/src/test/java/net/jqwik/time/api/times/duration/exhaustiveGeneration/precision/MinutesTests.java:37-56 | -490.003 s .. -294.998 s give -8, -7, -6 and -5 minutes and maxCount 4 |
| `MinutesTests.BetweenAroundZero` | time/src/test/java/net/jqwik/time/api/times/duration/exhaustiveGeneration/precision/MinutesTests.java:59-78 | a range across zero gives -2, -1, 0 and +1 minutes and maxCount 4 |

## Left out

- Random generation: the arbitrary's generator is modelled as a stream of values indexed by draw number for each (seed, tries). The pseudo-random source is not part of this model.
- Only the first arbitrary is used, as in the source; further parameters are not drawn.
- `BlacklistedExceptions`: its list of classes is not part of this model; the blacklisted class names are a parameter of `Check`.
- The forAll function is a pure function of its parameter list. The Java tests use a stateful spy that counts its calls; here the number of applications is a ghost output of `Check` instead.
- A throwable raised by the generator's `next()` itself is not modelled: draws always succeed.
- Java exceptions are tagged outcomes. A blacklisted throwable escaping `check` is the `Propagated` alternative. The exception an empty arbitrary list raises in `get(0)` is `Propagated(IndexOutOfBounds)`.
- `PropertyCheckResult` is not part of this model; its four factories are reconstructed from how `check` calls them.
- Properties.GenericProperty.Check: the try and check counters are unbounded integers, so the loop ends after `tries` tries even for `tries == Integer.MAX_VALUE`; the Java wrap-around is recorded under Findings.
- SetExhaustive.CalculateMaxCount: the size counter `k` and the sum are unbounded integers. In Java `k++` wraps when `maxSize == Integer.MAX_VALUE`, and `sum` is a `long`; neither is modelled.
- `MathSupport.binomial` is not part of this model. It is an oracle returning a value or an overflow. Lemmas that speak of true coefficients assume only that its answers for 1 <= k <= n <= 70 are C(n, k). For negative sizes its answer is taken as given.
- `ExhaustiveGenerators.MAXIMUM_ACCEPTED_MAX_COUNT` is not part of this model; it is the parameter `cap`.
- `Combinatorics.setCombinations` is not part of this model; `Iterator` applies it as a function parameter and claims no enumeration order.
- The duration generator itself is not part of this model. Its behaviour is specified from the millisecond and minute examples for any positive unit. Bounds with min > max give an empty enumeration here; the source's behaviour for them is not shown. `java.time.Duration`'s range limits are not modelled.
- Shrinking, the function wrapper (`Functions`), test discovery (`JqwikDiscoverer`), `Domain` and `BigIntegerArbitraryProvider` are outside the modelled core.

## Findings

| source | as written | input that shows it | evidently intended | confidence | as-written member | corrected member |
|---|---|---|---|---|---|---|
| src/main/java/net/jqwik/properties/GenericProperty.java:26 | `countTries` is a Java `int` incremented after every try. At `Integer.MAX_VALUE` it wraps to `Integer.MIN_VALUE`, and the guard `countTries <= tries` still holds | `tries = 2147483647` with a forAll function that always returns true | the loop ends after `tries` tries with SATISFIED | medium, not executed | `Properties.AsWrittenLoopNeverExits` | `Properties.GenericProperty.Check` |
