/**
 * The exhaustive generator of sets: deciding whether every set of every size
 * in a range can be enumerated, by summing the number of combinations per size,
 * and the generator object that keeps that count.
 *
 * Binomial coefficients are taken from an oracle `binomial` standing for the
 * engine's `MathSupport.binomial`: `None` is its ArithmeticException on
 * overflow. The engine-wide ceiling MAXIMUM_ACCEPTED_MAX_COUNT is the
 * parameter `cap`.
 */
module SetExhaustive {
  import opened Options

  /** An element's exhaustive generator: its count and the values it enumerates. */
  datatype ElementGenerator<T> = ElementGenerator(maxCount: int, values: seq<T>)

  /** An element arbitrary, seen through its optional exhaustive generator. */
  datatype ElementArbitrary<T> = ElementArbitrary(exhaustive: Option<ElementGenerator<T>>)

  /** The largest element count for which binomial coefficients are attempted. */
  const MaxBinomialN := 70

  /** The binomial coefficient C(n, k), by Pascal's rule. */
  function Choose(n: nat, k: nat): nat
  {
    if k == 0 then 1
    else if n == 0 then 0
    else Choose(n - 1, k - 1) + Choose(n - 1, k)
  }

  /** An oracle that, where it answers for 1 <= k <= n <= 70, answers C(n, k). */
  ghost predicate BinomialSound(binomial: (int, int) -> Option<int>) {
    forall n: nat, k: nat :: 1 <= k <= n <= MaxBinomialN && binomial(n, k).Some? ==> binomial(n, k).value == Choose(n, k)
  }

  // ---------------------------------------------------------------------------
  // What the count is, size by size.

  /** Size `k` makes the count infeasible for an element count `n`. */
  predicate GivesUpAt(n: int, k: int, binomial: (int, int) -> Option<int>, cap: int) {
    && k != 0
    && k <= n
    && (n > MaxBinomialN || binomial(n, k).None? || binomial(n, k).value > cap || binomial(n, k).value < 0)
  }

  /** The number of sets of size `k` that a feasible size contributes. */
  function SizeCount(n: int, k: int, binomial: (int, int) -> Option<int>): int {
    if k == 0 then 1
    else if n < k then 0
    else match binomial(n, k)
      case Some(c) => c
      case None => 0
  }

  /** The sum of SizeCount over the sizes lo..hi. */
  function SizesSum(n: int, lo: int, hi: int, binomial: (int, int) -> Option<int>): int
    decreases hi - lo
  {
    if hi < lo then 0 else SizesSum(n, lo, hi - 1, binomial) + SizeCount(n, hi, binomial)
  }

  /** Infeasible as soon as one size in range gives up; otherwise the sum over all sizes. */
  ghost function MaxCountOf(n: int, minSize: int, maxSize: int, binomial: (int, int) -> Option<int>, cap: int): Option<int> {
    if exists k :: minSize <= k <= maxSize && GivesUpAt(n, k, binomial, cap) then None
    else Some(SizesSum(n, minSize, maxSize, binomial))
  }

  /** The true number of sets with sizes lo..hi drawn from n elements. */
  function BinomialSum(n: nat, lo: nat, hi: int): nat
    decreases hi - lo
  {
    if hi < lo then 0 else BinomialSum(n, lo, hi - 1) + Choose(n, hi)
  }

  // ---------------------------------------------------------------------------
  // The feasibility count and the generator.

  method CalculateMaxCount<T>(elementArbitrary: ElementArbitrary<T>, minSize: int, maxSize: int,
                              binomial: (int, int) -> Option<int>, cap: int)
    returns (r: Option<int>)
    ensures elementArbitrary.exhaustive.None? ==> r == None
    ensures elementArbitrary.exhaustive.Some? ==>
      r == MaxCountOf(elementArbitrary.exhaustive.value.maxCount, minSize, maxSize, binomial, cap)
  {
    if elementArbitrary.exhaustive.None? {
      return None;
    }
    var elementMaxCount := elementArbitrary.exhaustive.value.maxCount;
    var sum := 0;
    var k := minSize;
    while k <= maxSize
      invariant minSize <= k <= if minSize <= maxSize then maxSize + 1 else minSize
      invariant sum == SizesSum(elementMaxCount, minSize, k - 1, binomial)
      invariant forall j :: minSize <= j < k ==> !GivesUpAt(elementMaxCount, j, binomial, cap)
      decreases maxSize - k
    {
      if k == 0 {
        sum := sum + 1;
      } else if elementMaxCount < k {
      } else if elementMaxCount > MaxBinomialN {
        assert GivesUpAt(elementMaxCount, k, binomial, cap);
        return None;
      } else {
        var choices := 0;
        match binomial(elementMaxCount, k) {
          case None =>
            assert GivesUpAt(elementMaxCount, k, binomial, cap);
            return None;
          case Some(c) =>
            choices := c;
        }
        if choices > cap || choices < 0 {
          assert GivesUpAt(elementMaxCount, k, binomial, cap);
          return None;
        }
        sum := sum + choices;
      }
      k := k + 1;
    }
    return Some(sum);
  }

  class SetExhaustiveGenerator<T(==)> {
    const elementArbitrary: ElementArbitrary<T>
    const maxCount: int
    const minSize: int
    const maxSize: int

    constructor (elementArbitrary: ElementArbitrary<T>, maxCount: int, minSize: int, maxSize: int)
      ensures this.elementArbitrary == elementArbitrary && this.maxCount == maxCount
      ensures this.minSize == minSize && this.maxSize == maxSize
    {
      this.elementArbitrary := elementArbitrary;
      this.minSize := minSize;
      this.maxSize := maxSize;
      this.maxCount := maxCount;
    }

    /**
     * The enumeration, delegated to the combination enumerator `setCombinations`,
     * which is not modelled. An element arbitrary without an exhaustive
     * generator makes the Java `get()` fail: `None` here.
     */
    function Iterator(setCombinations: (ElementGenerator<T>, int, int) -> seq<set<T>>): (it: Option<seq<set<T>>>)
      ensures it.Some? <==> elementArbitrary.exhaustive.Some?
      ensures it.Some? ==> it.value == setCombinations(elementArbitrary.exhaustive.value, minSize, maxSize)
    {
      match elementArbitrary.exhaustive
      case Some(g) => Some(setCombinations(g, minSize, maxSize))
      case None => None
    }

    function MaxCount(): (c: int)
      ensures c == maxCount
    {
      maxCount
    }
  }

  /** A generator reports, unchanged, the count it was built with. */
  method MaxCountIsConstructorArgument<T(==)>(elementArbitrary: ElementArbitrary<T>, maxCount: int, minSize: int, maxSize: int)
    returns (c: int)
    ensures c == maxCount
  {
    var generator := new SetExhaustiveGenerator(elementArbitrary, maxCount, minSize, maxSize);
    c := generator.MaxCount();
  }

  // ---------------------------------------------------------------------------
  // Properties of the count.

  /** An empty size range costs nothing and is feasible. */
  lemma InvertedRangeCountsZero(n: int, minSize: int, maxSize: int, binomial: (int, int) -> Option<int>, cap: int)
    requires minSize > maxSize
    ensures MaxCountOf(n, minSize, maxSize, binomial, cap) == Some(0)
  {
  }

  /** Size 0 alone counts exactly the empty set, however many elements there are. */
  lemma EmptySizeCountsOne(n: int, binomial: (int, int) -> Option<int>, cap: int)
    ensures MaxCountOf(n, 0, 0, binomial, cap) == Some(1)
  {
    assert SizesSum(n, 0, 0, binomial) == SizesSum(n, 0, -1, binomial) + 1;
  }

  /** Sizes above the element count contribute nothing to the sum. */
  lemma {:induction false} SizesAboveElementCountAddNothing(n: int, lo: int, hi: int, binomial: (int, int) -> Option<int>)
    requires n < lo && 1 <= lo
    ensures SizesSum(n, lo, hi, binomial) == 0
    decreases hi - lo
  {
    if hi >= lo {
      SizesAboveElementCountAddNothing(n, lo, hi - 1, binomial);
    }
  }

  /** Sizes above the element count are feasible even for more than 70 elements. */
  lemma SizesAboveElementCountCountZero(n: int, minSize: int, maxSize: int, binomial: (int, int) -> Option<int>, cap: int)
    requires n < minSize && 1 <= minSize
    ensures MaxCountOf(n, minSize, maxSize, binomial, cap) == Some(0)
  {
    SizesAboveElementCountAddNothing(n, minSize, maxSize, binomial);
  }

  /** More than 70 elements and one size in 1..n in range: infeasible. */
  lemma TooManyElementsIsInfeasible(n: int, minSize: int, maxSize: int, binomial: (int, int) -> Option<int>, cap: int, k: int)
    requires n > MaxBinomialN
    requires minSize <= k <= maxSize && 1 <= k <= n
    ensures MaxCountOf(n, minSize, maxSize, binomial, cap) == None
  {
    assert GivesUpAt(n, k, binomial, cap);
  }

  /** One size in 1..n whose coefficient overflows, exceeds the cap or is negative: infeasible. */
  lemma BadCoefficientIsInfeasible(n: int, minSize: int, maxSize: int, binomial: (int, int) -> Option<int>, cap: int, k: int)
    requires minSize <= k <= maxSize && 1 <= k <= n
    requires binomial(n, k).None? || binomial(n, k).value > cap || binomial(n, k).value < 0
    ensures MaxCountOf(n, minSize, maxSize, binomial, cap) == None
  {
    assert GivesUpAt(n, k, binomial, cap);
  }

  /** C(n, k) is 0 when there are fewer than k elements. */
  lemma {:induction false} ChooseAboveN(n: nat, k: nat)
    requires k > n
    ensures Choose(n, k) == 0
  {
    if n > 0 {
      ChooseAboveN(n - 1, k - 1);
      ChooseAboveN(n - 1, k);
    }
  }

  /** Over a feasible range, the oracle-based sum is the true number of sets. */
  lemma {:induction false} FeasibleSumIsBinomialSum(n: nat, lo: nat, hi: int, binomial: (int, int) -> Option<int>, cap: int)
    requires BinomialSound(binomial)
    requires forall j :: lo <= j <= hi ==> !GivesUpAt(n, j, binomial, cap)
    ensures SizesSum(n, lo, hi, binomial) == BinomialSum(n, lo, hi)
    decreases hi - lo
  {
    if hi >= lo {
      FeasibleSumIsBinomialSum(n, lo, hi - 1, binomial, cap);
      if hi > n {
        ChooseAboveN(n, hi);
      } else if hi > 0 {
        assert !GivesUpAt(n, hi, binomial, cap);
      }
    }
  }

  /**
   * When the count is feasible it is the sum of C(n, k) over the sizes, with
   * C(n, 0) = 1 and C(n, k) = 0 for k > n.
   */
  lemma FeasibleCountIsSumOfBinomials(n: nat, minSize: nat, maxSize: int, binomial: (int, int) -> Option<int>, cap: int)
    requires BinomialSound(binomial)
    requires MaxCountOf(n, minSize, maxSize, binomial, cap).Some?
    ensures MaxCountOf(n, minSize, maxSize, binomial, cap) == Some(BinomialSum(n, minSize, maxSize))
  {
    FeasibleSumIsBinomialSum(n, minSize, maxSize, binomial, cap);
  }

  /** The true coefficients for four elements. */
  lemma FourElementCoefficients()
    ensures Choose(4, 1) == 4 && Choose(4, 2) == 6
  {
    assert Choose(2, 1) == 2;
    assert Choose(3, 1) == 3 && Choose(3, 2) == 3;
  }

  /**
   * Four elements and sizes 1..2 give C(4, 1) + C(4, 2) = 10 sets. The cap is
   * compared with each coefficient, not with the total: a cap of 6 still
   * admits a total of 10.
   */
  lemma FourElementsSizesOneToTwo(binomial: (int, int) -> Option<int>, cap: int)
    requires BinomialSound(binomial) && binomial(4, 1).Some? && binomial(4, 2).Some?
    requires cap >= 6
    ensures MaxCountOf(4, 1, 2, binomial, cap) == Some(10)
  {
    FourElementCoefficients();
    assert binomial(4, 1) == Some(4) && binomial(4, 2) == Some(6);
    assert !GivesUpAt(4, 1, binomial, cap) && !GivesUpAt(4, 2, binomial, cap);
    assert SizesSum(4, 1, 2, binomial) == 10 by {
      assert SizesSum(4, 1, 1, binomial) == 4;
    }
  }
}
