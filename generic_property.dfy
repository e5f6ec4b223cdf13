/**
 * The check loop of a property with one parameter: a generator drawn once per
 * try, the forAll function's outcome sorted into four kinds, and the result
 * record built when the loop ends.
 *
 * Java exceptions become tagged outcomes. A throwable escaping `check` (a
 * blacklisted one, which `check` re-throws, or what `arbitraries.get(0)`
 * throws) becomes the `Propagated` alternative of `CheckReturn`.
 */
module Properties {
  import opened Options

  /** A thrown Java object: its class, which decides blacklisting, and its identity. */
  datatype Throwable = Throwable(className: string, identity: nat)

  /** What `arbitraries.get(0)` throws when the parameter list is empty. */
  const IndexOutOfBounds := Throwable("java.lang.IndexOutOfBoundsException", 0)

  /** What one application of the forAll function did. */
  datatype Outcome =
    | Returned(holds: bool)         // returned normally with this boolean
    | AssumptionAborted             // threw TestAbortedException: an assumption was not met
    | Threw(throwable: Throwable)   // threw anything else

  datatype Status = Satisfied | Falsified | Erroneous | Exhausted

  /** The immutable record a check ends with. */
  datatype PropertyCheckResult<T> = PropertyCheckResult(
    propertyName: string,
    status: Status,
    countTries: int,
    countChecks: int,
    randomSeed: int,
    sample: Option<seq<T>>,
    throwable: Option<Throwable>)

  /**
   * How `check` ends: with a result, or with a throwable escaping it (a
   * blacklisted one, or what `arbitraries.get(0)` throws).
   */
  datatype CheckReturn<T> = Result(result: PropertyCheckResult<T>) | Propagated(escaped: Throwable)

  // The four factories of the result record.

  function FalsifiedResult<T>(name: string, countTries: int, countChecks: int, seed: int, sample: seq<T>): PropertyCheckResult<T> {
    PropertyCheckResult(name, Falsified, countTries, countChecks, seed, Some(sample), None)
  }

  function ErroneousResult<T>(name: string, countTries: int, countChecks: int, seed: int, sample: seq<T>, t: Throwable): PropertyCheckResult<T> {
    PropertyCheckResult(name, Erroneous, countTries, countChecks, seed, Some(sample), Some(t))
  }

  function ExhaustedResult<T>(name: string, tries: int, seed: int): PropertyCheckResult<T> {
    PropertyCheckResult(name, Exhausted, tries, 0, seed, None, None)
  }

  function SatisfiedResult<T>(name: string, tries: int, countChecks: int, seed: int): PropertyCheckResult<T> {
    PropertyCheckResult(name, Satisfied, tries, countChecks, seed, None, None)
  }

  /**
   * An arbitrary, reduced to what the check loop uses of it: given the seed and
   * the number of tries, the stream of values its generator yields, one per draw.
   */
  datatype Arbitrary<T> = Arbitrary(generator: (int, int) -> (nat -> T))

  /** A generator: a cursor over a fixed stream, advanced by one on every draw. */
  class Generator<T> {
    const values: nat -> T
    var drawn: nat

    constructor (values: nat -> T)
      ensures this.values == values && drawn == 0
    {
      this.values := values;
      drawn := 0;
    }

    method Next() returns (v: T)
      modifies this
      ensures v == values(old(drawn))
      ensures drawn == old(drawn) + 1
    {
      v := values(drawn);
      drawn := drawn + 1;
    }
  }

  // ---------------------------------------------------------------------------
  // The specification of the loop, try by try. Tries are numbered from 1.

  /** The parameter list of try `i`: the i-th value drawn, alone. */
  function Tuple<T>(values: nat -> T, i: nat): seq<T>
    requires i >= 1
  {
    [values(i - 1)]
  }

  /** The outcome of try `i`. */
  function OutcomeAt<T>(forAll: seq<T> -> Outcome, values: nat -> T, i: nat): Outcome
    requires i >= 1
  {
    forAll(Tuple(values, i))
  }

  /** An outcome that ends the loop: a `false`, or any throwable other than an assumption abort. */
  predicate Stops(o: Outcome) {
    o == Returned(false) || o.Threw?
  }

  /** The number of checks among tries 1..n: the tries whose assumption was met. */
  function Checks<T>(forAll: seq<T> -> Outcome, values: nat -> T, n: int): (c: nat)
    ensures c <= if n < 0 then 0 else n
    decreases n
  {
    if n <= 0 then 0
    else Checks(forAll, values, n - 1) + (if OutcomeAt(forAll, values, n).AssumptionAborted? then 0 else 1)
  }

  /** The first try in from..tries whose outcome ends the loop, if there is one. */
  function FirstStopFrom<T>(forAll: seq<T> -> Outcome, values: nat -> T, from: nat, tries: int): (k: Option<nat>)
    requires from >= 1
    ensures k.Some? ==> from <= k.value <= tries && Stops(OutcomeAt(forAll, values, k.value))
    ensures k.Some? ==> forall j: nat :: from <= j < k.value ==> !Stops(OutcomeAt(forAll, values, j))
    ensures k.None? ==> forall j: nat :: from <= j <= tries ==> !Stops(OutcomeAt(forAll, values, j))
    decreases tries - from
  {
    if from > tries then None
    else if Stops(OutcomeAt(forAll, values, from)) then Some(from)
    else FirstStopFrom(forAll, values, from + 1, tries)
  }

  function FirstStop<T>(forAll: seq<T> -> Outcome, values: nat -> T, tries: int): Option<nat> {
    FirstStopFrom(forAll, values, 1, tries)
  }

  /** The number of tries run, each with one draw and one application of forAll. */
  function TriesRun<T>(forAll: seq<T> -> Outcome, values: nat -> T, tries: int): nat {
    match FirstStop(forAll, values, tries)
    case Some(k) => k
    case None => if tries < 0 then 0 else tries
  }

  /**
   * What a check must end with: the first try that ends the loop decides the
   * status; without one, the number of checks tells satisfied from exhausted.
   */
  function Verdict<T>(name: string, forAll: seq<T> -> Outcome, values: nat -> T,
                      blacklisted: set<string>, tries: int, seed: int): CheckReturn<T>
  {
    match FirstStop(forAll, values, tries)
    case None =>
      var checks := Checks(forAll, values, tries);
      if checks == 0 then Result(ExhaustedResult(name, tries, seed))
      else Result(SatisfiedResult(name, tries, checks, seed))
    case Some(k) =>
      match OutcomeAt(forAll, values, k)
      case Threw(t) =>
        if t.className in blacklisted then Propagated(t)
        else Result(ErroneousResult(name, k, Checks(forAll, values, k), seed, Tuple(values, k), t))
      case _ =>
        Result(FalsifiedResult(name, k, Checks(forAll, values, k), seed, Tuple(values, k)))
  }

  // ---------------------------------------------------------------------------
  // The property and its check loop.

  class GenericProperty<T> {
    const name: string
    const arbitraries: seq<Arbitrary<T>>
    const forAllFunction: seq<T> -> Outcome

    constructor (name: string, arbitraries: seq<Arbitrary<T>>, forAllFunction: seq<T> -> Outcome)
      ensures this.name == name && this.arbitraries == arbitraries
      ensures this.forAllFunction == forAllFunction
    {
      this.name := name;
      this.arbitraries := arbitraries;
      this.forAllFunction := forAllFunction;
    }

    /**
     * Runs the property for `tries` tries. `blacklisted` holds the class names
     * the host reserves: a throwable of one of them escapes instead of making
     * the property erroneous. The ghost outputs count the generator's draws
     * and the applications of the forAll function: one of each per try run.
     */
    method Check(tries: int, seed: int, blacklisted: set<string>)
      returns (r: CheckReturn<T>, ghost draws: nat, ghost calls: nat)
      ensures arbitraries == [] ==> r == Propagated(IndexOutOfBounds) && draws == 0 && calls == 0
      ensures arbitraries != [] ==>
        var values := arbitraries[0].generator(seed, tries);
        && r == Verdict(name, forAllFunction, values, blacklisted, tries, seed)
        && draws == calls == TriesRun(forAllFunction, values, tries)
    {
      if arbitraries == [] {
        return Propagated(IndexOutOfBounds), 0, 0;
      }
      var a1 := arbitraries[0];
      ghost var values := a1.generator(seed, tries);
      var g1 := new Generator(a1.generator(seed, tries));
      calls := 0;
      var countChecks := 0;
      var countTries := 1;
      while countTries <= tries
        invariant 1 <= countTries <= if tries >= 1 then tries + 1 else 1
        invariant g1.values == values && g1.drawn == calls == countTries - 1
        invariant 0 <= countChecks < countTries
        invariant countChecks == Checks(forAllFunction, values, countTries - 1)
        invariant forall j: nat :: 1 <= j < countTries ==> !Stops(OutcomeAt(forAllFunction, values, j))
        decreases tries - countTries
      {
        var params := GenerateParameters(g1);
        assert params == Tuple(values, countTries);
        ghost var outcome := OutcomeAt(forAllFunction, values, countTries);
        ghost var checksBefore := countChecks;
        calls := calls + 1;
        match forAllFunction(params) {
          case Returned(check) =>
            countChecks := countChecks + 1;
            if !check {
              assert countChecks == Checks(forAllFunction, values, countTries);
              VerdictAtStop(name, forAllFunction, values, blacklisted, tries, seed, countTries);
              return Result(FalsifiedResult(name, countTries, countChecks, seed, params)), g1.drawn, calls;
            }
          case AssumptionAborted =>
          case Threw(throwable) =>
            countChecks := countChecks + 1;
            assert countChecks == Checks(forAllFunction, values, countTries);
            VerdictAtStop(name, forAllFunction, values, blacklisted, tries, seed, countTries);
            if throwable.className in blacklisted {
              return Propagated(throwable), g1.drawn, calls;
            }
            return Result(ErroneousResult(name, countTries, countChecks, seed, params, throwable)), g1.drawn, calls;
        }
        assert !Stops(outcome);
        assert countChecks == checksBefore + (if outcome.AssumptionAborted? then 0 else 1);
        countTries := countTries + 1;
      }
      VerdictWithoutStop(name, forAllFunction, values, blacklisted, tries, seed);
      assert countChecks == Checks(forAllFunction, values, tries);
      if countChecks == 0 {
        return Result(ExhaustedResult(name, tries, seed)), g1.drawn, calls;
      }
      return Result(SatisfiedResult(name, tries, countChecks, seed)), g1.drawn, calls;
    }

    /** Draws one value and wraps it as a one-element parameter list. */
    method GenerateParameters(g1: Generator<T>) returns (params: seq<T>)
      modifies g1
      ensures g1.drawn == old(g1.drawn) + 1
      ensures params == [g1.values(old(g1.drawn))]
    {
      var p1 := g1.Next();
      params := [];
      params := params + [p1];
    }
  }

  // ---------------------------------------------------------------------------
  // Properties of the verdict, and so of every check.

  /** One stopping try with none before it is the first stop. */
  lemma FirstStopAt<T>(forAll: seq<T> -> Outcome, values: nat -> T, tries: int, k: nat)
    requires 1 <= k <= tries
    requires Stops(OutcomeAt(forAll, values, k))
    requires forall j: nat :: 1 <= j < k ==> !Stops(OutcomeAt(forAll, values, j))
    ensures FirstStop(forAll, values, tries) == Some(k)
  {
  }

  /** A check that stops at try k ends as the verdict for its first stop. */
  lemma VerdictAtStop<T>(name: string, forAll: seq<T> -> Outcome, values: nat -> T,
                         blacklisted: set<string>, tries: int, seed: int, k: nat)
    requires 1 <= k <= tries
    requires Stops(OutcomeAt(forAll, values, k))
    requires forall j: nat :: 1 <= j < k ==> !Stops(OutcomeAt(forAll, values, j))
    ensures TriesRun(forAll, values, tries) == k
    ensures OutcomeAt(forAll, values, k).Threw? ==>
      var t := OutcomeAt(forAll, values, k).throwable;
      Verdict(name, forAll, values, blacklisted, tries, seed) ==
        if t.className in blacklisted then Propagated(t)
        else Result(ErroneousResult(name, k, Checks(forAll, values, k), seed, Tuple(values, k), t))
    ensures OutcomeAt(forAll, values, k) == Returned(false) ==>
      Verdict(name, forAll, values, blacklisted, tries, seed) ==
        Result(FalsifiedResult(name, k, Checks(forAll, values, k), seed, Tuple(values, k)))
  {
    FirstStopAt(forAll, values, tries, k);
  }

  /** A check that runs through every try ends satisfied or exhausted by its count of checks. */
  lemma VerdictWithoutStop<T>(name: string, forAll: seq<T> -> Outcome, values: nat -> T,
                              blacklisted: set<string>, tries: int, seed: int)
    requires forall j: nat :: 1 <= j <= tries ==> !Stops(OutcomeAt(forAll, values, j))
    ensures TriesRun(forAll, values, tries) == if tries < 0 then 0 else tries
    ensures Verdict(name, forAll, values, blacklisted, tries, seed) ==
      if Checks(forAll, values, tries) == 0 then Result(ExhaustedResult(name, tries, seed))
      else Result(SatisfiedResult(name, tries, Checks(forAll, values, tries), seed))
  {
    assert FirstStop(forAll, values, tries) == None;
  }

  /** When no assumption fails in tries 1..n, every try is a check. */
  lemma {:induction false} ChecksWithoutAborts<T>(forAll: seq<T> -> Outcome, values: nat -> T, n: nat)
    requires forall j: nat :: 1 <= j <= n ==> !OutcomeAt(forAll, values, j).AssumptionAborted?
    ensures Checks(forAll, values, n) == n
  {
    if n > 0 {
      ChecksWithoutAborts(forAll, values, n - 1);
    }
  }

  /** When every assumption in tries 1..n fails, no try is a check. */
  lemma {:induction false} ChecksAllAborted<T>(forAll: seq<T> -> Outcome, values: nat -> T, n: int)
    requires forall j: nat :: 1 <= j <= n ==> OutcomeAt(forAll, values, j).AssumptionAborted?
    ensures Checks(forAll, values, n) == 0
    decreases n
  {
    if n > 0 {
      ChecksAllAborted(forAll, values, n - 1);
    }
  }

  /** A predicate that always holds gives SATISFIED with every try a check. */
  lemma AlwaysTrueIsSatisfied<T>(name: string, forAll: seq<T> -> Outcome, values: nat -> T,
                                 blacklisted: set<string>, tries: int, seed: int)
    requires tries >= 1
    requires forall j: nat :: 1 <= j <= tries ==> OutcomeAt(forAll, values, j) == Returned(true)
    ensures Verdict(name, forAll, values, blacklisted, tries, seed)
         == Result(PropertyCheckResult(name, Satisfied, tries, tries, seed, None, None))
    ensures TriesRun(forAll, values, tries) == tries
  {
    ChecksWithoutAborts(forAll, values, tries);
  }

  /** The first `false`, after only successes, gives FALSIFIED at that try with its value as sample. */
  lemma FirstFalseIsFalsified<T>(name: string, forAll: seq<T> -> Outcome, values: nat -> T,
                                 blacklisted: set<string>, tries: int, seed: int, k: nat)
    requires 1 <= k <= tries
    requires forall j: nat :: 1 <= j < k ==> OutcomeAt(forAll, values, j) == Returned(true)
    requires OutcomeAt(forAll, values, k) == Returned(false)
    ensures Verdict(name, forAll, values, blacklisted, tries, seed)
         == Result(PropertyCheckResult(name, Falsified, k, k, seed, Some([values(k - 1)]), None))
    ensures TriesRun(forAll, values, tries) == k
  {
    FirstStopAt(forAll, values, tries, k);
    ChecksWithoutAborts(forAll, values, k);
  }

  /** With every odd try rejected, the alternating pattern counts one check per two tries. */
  lemma {:induction false} ChecksAlternating<T>(forAll: seq<T> -> Outcome, values: nat -> T, n: nat)
    requires forall j: nat :: 1 <= j <= n ==>
      OutcomeAt(forAll, values, j) == if j % 2 == 1 then AssumptionAborted else Returned(true)
    ensures Checks(forAll, values, n) == n / 2
  {
    if n > 0 {
      ChecksAlternating(forAll, values, n - 1);
    }
  }

  /**
   * Rejected tries advance the try count but not the check count and do not
   * stop the loop: rejecting every odd try of two or more tries gives
   * SATISFIED with half as many checks as tries, rounded down.
   */
  lemma OddTriesRejectedIsSatisfied<T>(name: string, forAll: seq<T> -> Outcome, values: nat -> T,
                                       blacklisted: set<string>, tries: int, seed: int)
    requires tries >= 2
    requires forall j: nat :: 1 <= j <= tries ==>
      OutcomeAt(forAll, values, j) == if j % 2 == 1 then AssumptionAborted else Returned(true)
    ensures Verdict(name, forAll, values, blacklisted, tries, seed)
         == Result(PropertyCheckResult(name, Satisfied, tries, tries / 2, seed, None, None))
    ensures TriesRun(forAll, values, tries) == tries
  {
    ChecksAlternating(forAll, values, tries);
  }

  /** Every try rejected, or no tries at all, gives EXHAUSTED with no checks. */
  lemma AllRejectedIsExhausted<T>(name: string, forAll: seq<T> -> Outcome, values: nat -> T,
                                  blacklisted: set<string>, tries: int, seed: int)
    requires forall j: nat :: 1 <= j <= tries ==> OutcomeAt(forAll, values, j) == AssumptionAborted
    ensures Verdict(name, forAll, values, blacklisted, tries, seed)
         == Result(PropertyCheckResult(name, Exhausted, tries, 0, seed, None, None))
  {
    ChecksAllAborted(forAll, values, tries);
  }

  /**
   * A throwable that is not blacklisted, after only successes, gives ERRONEOUS
   * at that try: the failing try is counted as a check, and the result holds
   * the drawn value and the very throwable that was thrown.
   */
  lemma FirstThrowIsErroneous<T>(name: string, forAll: seq<T> -> Outcome, values: nat -> T,
                                 blacklisted: set<string>, tries: int, seed: int, k: nat, t: Throwable)
    requires 1 <= k <= tries
    requires forall j: nat :: 1 <= j < k ==> OutcomeAt(forAll, values, j) == Returned(true)
    requires OutcomeAt(forAll, values, k) == Threw(t) && t.className !in blacklisted
    ensures Verdict(name, forAll, values, blacklisted, tries, seed)
         == Result(PropertyCheckResult(name, Erroneous, k, k, seed, Some([values(k - 1)]), Some(t)))
    ensures TriesRun(forAll, values, tries) == k
  {
    FirstStopAt(forAll, values, tries, k);
    ChecksWithoutAborts(forAll, values, k);
  }

  /** A blacklisted throwable at the first stopping try escapes unchanged and no result is built. */
  lemma BlacklistedThrowEscapes<T>(name: string, forAll: seq<T> -> Outcome, values: nat -> T,
                                   blacklisted: set<string>, tries: int, seed: int, k: nat, t: Throwable)
    requires 1 <= k <= tries
    requires forall j: nat :: 1 <= j < k ==> !Stops(OutcomeAt(forAll, values, j))
    requires OutcomeAt(forAll, values, k) == Threw(t) && t.className in blacklisted
    ensures Verdict(name, forAll, values, blacklisted, tries, seed) == Propagated(t)
  {
    FirstStopAt(forAll, values, tries, k);
  }

  /**
   * The invariants of every result: name and seed echoed, a one-element sample
   * exactly for FALSIFIED and ERRONEOUS, a throwable exactly for ERRONEOUS, and
   * counts with 0 < countChecks <= countTries <= tries except for EXHAUSTED,
   * which reports all tries and no checks.
   */
  predicate WellFormed<T>(res: PropertyCheckResult<T>, name: string, tries: int, seed: int) {
    && res.propertyName == name
    && res.randomSeed == seed
    && (res.sample.Some? <==> res.status in {Falsified, Erroneous})
    && (res.sample.Some? ==> |res.sample.value| == 1)
    && (res.throwable.Some? <==> res.status == Erroneous)
    && (res.status == Exhausted ==> res.countTries == tries && res.countChecks == 0)
    && (res.status == Satisfied ==> res.countTries == tries)
    && (res.status != Exhausted ==> 1 <= res.countChecks <= res.countTries <= tries)
  }

  lemma VerdictIsWellFormed<T>(name: string, forAll: seq<T> -> Outcome, values: nat -> T,
                               blacklisted: set<string>, tries: int, seed: int)
    ensures Verdict(name, forAll, values, blacklisted, tries, seed).Result? ==>
      WellFormed(Verdict(name, forAll, values, blacklisted, tries, seed).result, name, tries, seed)
  {
    match FirstStop(forAll, values, tries)
    case None =>
    case Some(k) =>
      assert Checks(forAll, values, k) >= 1 by {
        assert !OutcomeAt(forAll, values, k).AssumptionAborted?;
      }
  }

  // ---------------------------------------------------------------------------
  // The try counter as written: a Java `int`, incremented with wrap-around.

  const MaxInt := 0x7fff_ffff
  const MinInt := -0x8000_0000

  /** Java's `countTries++` on an `int`. */
  function JavaIncrement(c: int): (d: int)
    requires MinInt <= c <= MaxInt
    ensures MinInt <= d <= MaxInt
    ensures c < MaxInt ==> d == c + 1
  {
    if c == MaxInt then MinInt else c + 1
  }

  /** The value of the Java try counter after `n` increments from 1. */
  function JavaTryCounter(n: nat): (c: int)
    ensures MinInt <= c <= MaxInt
  {
    if n == 0 then 1 else JavaIncrement(JavaTryCounter(n - 1))
  }

  /** Before the counter reaches Integer.MAX_VALUE, `n` increments from 1 give n + 1. */
  lemma {:induction false} JavaTryCounterCounts(n: nat)
    requires n < MaxInt
    ensures JavaTryCounter(n) == n + 1
  {
    if n > 0 {
      JavaTryCounterCounts(n - 1);
    }
  }

  /**
   * With `tries == Integer.MAX_VALUE` the guard `countTries <= tries` holds
   * after every number of increments. The counter runs through 1..tries, one
   * value per try, and the increment after the last try wraps it to
   * Integer.MIN_VALUE instead of tries + 1, so a forAll function that never
   * stops the loop keeps it running forever.
   */
  lemma AsWrittenLoopNeverExits(tries: int, n: nat)
    requires tries == MaxInt
    ensures JavaTryCounter(n) <= tries
    ensures JavaTryCounter(tries - 1) == tries
    ensures JavaTryCounter(tries) == MinInt
  {
    JavaTryCounterCounts(tries - 1);
  }
}
