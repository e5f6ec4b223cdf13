/**
 * The one-parameter check scenarios: a counting arbitrary whose generator
 * yields 1, 2, 3, ... and a forAll function deciding by the drawn value.
 * Each scenario builds a property, calls its check and states, as verified
 * postconditions, the result and how many values were drawn and how many
 * times the forAll function was applied.
 */
module GenericPropertyTests {
  import opened Options
  import opened Properties

  /** An arbitrary whose generator yields 1, 2, 3, ... whatever the seed. */
  function Counting(): Arbitrary<int> {
    Arbitrary((seed: int, tries: int) => (i: nat) => i + 1)
  }

  /** Two tries of a property that always holds. */
  method CheckSatisfied() returns (r: CheckReturn<int>, ghost draws: nat, ghost calls: nat)
    ensures r == Result(PropertyCheckResult("satisfied property", Status.Satisfied, 2, 2, 42, None, None))
    ensures draws == calls == 2
  {
    var forAll := (params: seq<int>) => Returned(true);
    var property := new GenericProperty("satisfied property", [Counting()], forAll);
    r, draws, calls := property.Check(2, 42, {});
    AlwaysTrueIsSatisfied("satisfied property", forAll, Counting().generator(42, 2), {}, 2, 42);
  }

  /** The value 5, drawn by the fifth try, is the first to falsify. */
  method CheckFalsified() returns (r: CheckReturn<int>, ghost draws: nat, ghost calls: nat)
    ensures r == Result(PropertyCheckResult("falsified property", Status.Falsified, 5, 5, 41, Some([5]), None))
    ensures draws == calls == 5
  {
    var forAll := (params: seq<int>) => Returned(|params| == 1 && params[0] < 5);
    var property := new GenericProperty("falsified property", [Counting()], forAll);
    r, draws, calls := property.Check(10, 41, {});
    FirstFalseIsFalsified("falsified property", forAll, Counting().generator(41, 10), {}, 10, 41, 5);
  }

  /** The odd values fail their assumption: ten tries, five checks. */
  method CheckSatisfiedWithRejectedAssumptions() returns (r: CheckReturn<int>, ghost draws: nat, ghost calls: nat)
    ensures r == Result(PropertyCheckResult("satisfied property", Status.Satisfied, 10, 5, 42, None, None))
    ensures draws == calls == 10
  {
    var property := new GenericProperty("satisfied property", [Counting()], EvenOnly);
    r, draws, calls := property.Check(10, 42, {});
    EvenOnlyRejectsOddTries(10);
    OddTriesRejectedIsSatisfied("satisfied property", EvenOnly, Counting().generator(42, 10), {}, 10, 42);
  }

  /** A forAll function that assumes its one parameter is even. */
  function EvenOnly(params: seq<int>): Outcome {
    if |params| == 1 && params[0] % 2 == 0 then Returned(true) else AssumptionAborted
  }

  /** Drawing 1, 2, 3, ..., the odd tries fail the assumption of EvenOnly and the even ones hold. */
  lemma EvenOnlyRejectsOddTries(tries: int)
    ensures forall j: nat :: 1 <= j <= tries ==>
      OutcomeAt(EvenOnly, Counting().generator(42, tries), j) == if j % 2 == 1 then AssumptionAborted else Returned(true)
  {
    forall j: nat | 1 <= j <= tries
      ensures OutcomeAt(EvenOnly, Counting().generator(42, tries), j) == if j % 2 == 1 then AssumptionAborted else Returned(true)
    {
      assert Tuple(Counting().generator(42, tries), j) == [j];
    }
  }

  /** Every assumption fails: ten tries, no check. */
  method CheckExhausted() returns (r: CheckReturn<int>, ghost draws: nat, ghost calls: nat)
    ensures r == Result(PropertyCheckResult("exhausted property", Status.Exhausted, 10, 0, 42, None, None))
    ensures draws == calls == 10
  {
    var forAll := (params: seq<int>) => AssumptionAborted;
    var property := new GenericProperty("exhausted property", [Counting()], forAll);
    r, draws, calls := property.Check(10, 42, {});
    AllRejectedIsExhausted("exhausted property", forAll, Counting().generator(42, 10), {}, 10, 42);
  }

  /** The fifth try throws: the result holds that very throwable and the value 5. */
  method CheckErroneous() returns (r: CheckReturn<int>, ghost draws: nat, ghost calls: nat)
    ensures r == Result(PropertyCheckResult("erroneous property", Status.Erroneous, 5, 5, 42, Some([5]),
                                            Some(Throwable("java.lang.RuntimeException", 1))))
    ensures draws == calls == 5
  {
    var thrownException := Throwable("java.lang.RuntimeException", 1);
    var forAll := (params: seq<int>) =>
      if |params| == 1 && params[0] == 5 then Threw(thrownException) else Returned(true);
    var property := new GenericProperty("erroneous property", [Counting()], forAll);
    r, draws, calls := property.Check(10, 42, {});
    FirstThrowIsErroneous("erroneous property", forAll, Counting().generator(42, 10), {}, 10, 42, 5, thrownException);
  }
}
