/**
 * The millisecond-precision examples: each pair of bounds, the durations
 * enumerated between them, in order, and the generator's maxCount.
 */
module MillisTests {
  import opened DurationPrecision

  /** Bounds inside two adjacent seconds: the lower one rounds up, the upper one down. */
  lemma BetweenPositive()
    ensures Enumerate(OfSeconds(183729, 997_997_921), OfSeconds(183730, 1_213_999), Millis)
         == [OfSeconds(183729, 998_000_000), OfSeconds(183729, 999_000_000),
             OfSeconds(183730, 0), OfSeconds(183730, 1_000_000)]
    ensures MaxCount(OfSeconds(183729, 997_997_921), OfSeconds(183730, 1_213_999), Millis) == 4
  {
    EnumerationFrom(OfSeconds(183729, 997_997_921), OfSeconds(183730, 1_213_999), Millis,
                    OfSeconds(183729, 998_000_000), 3);
  }

  /** Negative bounds round toward plus infinity below and minus infinity above, not toward zero. */
  lemma BetweenNegative()
    ensures Enumerate(OfSeconds(-183730, 997_123_998), OfSeconds(-183729, 1_999_999), Millis)
         == [OfSeconds(-183730, 998_000_000), OfSeconds(-183730, 999_000_000),
             OfSeconds(-183729, 0), OfSeconds(-183729, 1_000_000)]
    ensures MaxCount(OfSeconds(-183730, 997_123_998), OfSeconds(-183729, 1_999_999), Millis) == 4
  {
    EnumerationFrom(OfSeconds(-183730, 997_123_998), OfSeconds(-183729, 1_999_999), Millis,
                    OfSeconds(-183730, 998_000_000), 3);
  }

  /** Bounds given with negative nanosecond adjustments, across minus one second. */
  lemma BetweenNegativeOneSecond()
    ensures Enumerate(OfSeconds(-1, -1_999_999), OfSeconds(0, -997_382_492), Millis)
         == [OfSeconds(-1, -1_000_000), OfSeconds(-1, 0),
             OfSeconds(0, -999_000_000), OfSeconds(0, -998_000_000)]
    ensures MaxCount(OfSeconds(-1, -1_999_999), OfSeconds(0, -997_382_492), Millis) == 4
  {
    EnumerationFrom(OfSeconds(-1, -1_999_999), OfSeconds(0, -997_382_492), Millis,
                    OfSeconds(-1, -1_000_000), 3);
  }

  /** A range around zero: -2 ms, -1 ms, zero once, and +1 ms. */
  lemma BetweenAroundZero()
    ensures Enumerate(OfSeconds(0, -2_321_392), OfSeconds(0, 1_392_392), Millis)
         == [OfSeconds(0, -2_000_000), OfSeconds(0, -1_000_000), 0, OfSeconds(0, 1_000_000)]
    ensures MaxCount(OfSeconds(0, -2_321_392), OfSeconds(0, 1_392_392), Millis) == 4
  {
    EnumerationFrom(OfSeconds(0, -2_321_392), OfSeconds(0, 1_392_392), Millis,
                    OfSeconds(0, -2_000_000), 3);
  }

  /** A range across the first second. */
  lemma BetweenPositiveOneSecond()
    ensures Enumerate(OfSeconds(0, 997_128_492), OfSeconds(1, 1_039_392), Millis)
         == [OfSeconds(0, 998_000_000), OfSeconds(0, 999_000_000),
             OfSeconds(1, 0), OfSeconds(1, 1_000_000)]
    ensures MaxCount(OfSeconds(0, 997_128_492), OfSeconds(1, 1_039_392), Millis) == 4
  {
    EnumerationFrom(OfSeconds(0, 997_128_492), OfSeconds(1, 1_039_392), Millis,
                    OfSeconds(0, 998_000_000), 3);
  }
}
