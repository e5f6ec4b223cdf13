/**
 * The minute-precision examples: each pair of bounds, the whole minutes
 * enumerated between them, in order, and the generator's maxCount.
 */
module MinutesTests {
  import opened DurationPrecision

  /** Whole minutes have no nanosecond part. */
  lemma MinuteValuesHaveNoNanos(min: int, max: int, i: int)
    requires 0 <= i < |Enumerate(min, max, Minutes)|
    ensures ToDuration(Enumerate(min, max, Minutes)[i]).nano == 0
  {
    var v := Enumerate(min, max, Minutes)[i];
    DivModUnique(v, NanosPerSecond, (v / Minutes) * 60, 0);
  }

  /** 4:55.998 rounds up to 5:00 and 8:31.001 down to 8:00. */
  lemma BetweenPositive()
    ensures Enumerate(OfSeconds(4 * 60 + 55, 997_997_921), OfSeconds(8 * 60 + 31, 1_213_999), Minutes)
         == [OfSeconds(5 * 60, 0), OfSeconds(6 * 60, 0), OfSeconds(7 * 60, 0), OfSeconds(8 * 60, 0)]
    ensures MaxCount(OfSeconds(4 * 60 + 55, 997_997_921), OfSeconds(8 * 60 + 31, 1_213_999), Minutes) == 4
  {
    EnumerationFrom(OfSeconds(4 * 60 + 55, 997_997_921), OfSeconds(8 * 60 + 31, 1_213_999), Minutes,
                    OfSeconds(5 * 60, 0), 3);
  }

  /** -8:10.003 rounds up to -8:00 and -4:54.998 down to -5:00. */
  lemma BetweenNegative()
    ensures Enumerate(OfSeconds(-8 * 60 - 11, 997_123_998), OfSeconds(-4 * 60 - 55, 1_999_999), Minutes)
         == [OfSeconds(-8 * 60, 0), OfSeconds(-7 * 60, 0), OfSeconds(-6 * 60, 0), OfSeconds(-5 * 60, 0)]
    ensures MaxCount(OfSeconds(-8 * 60 - 11, 997_123_998), OfSeconds(-4 * 60 - 55, 1_999_999), Minutes) == 4
  {
    EnumerationFrom(OfSeconds(-8 * 60 - 11, 997_123_998), OfSeconds(-4 * 60 - 55, 1_999_999), Minutes,
                    OfSeconds(-8 * 60, 0), 3);
  }

  /** A range across zero: -2, -1, 0 and +1 minutes. */
  lemma BetweenAroundZero()
    ensures Enumerate(OfSeconds(-2 * 60 - 33, -2_321_392), OfSeconds(60 + 28, 1_392_392), Minutes)
         == [OfSeconds(-2 * 60, 0), OfSeconds(-60, 0), 0, OfSeconds(60, 0)]
    ensures MaxCount(OfSeconds(-2 * 60 - 33, -2_321_392), OfSeconds(60 + 28, 1_392_392), Minutes) == 4
  {
    EnumerationFrom(OfSeconds(-2 * 60 - 33, -2_321_392), OfSeconds(60 + 28, 1_392_392), Minutes,
                    OfSeconds(-2 * 60, 0), 3);
  }
}
