/**
 * Exhaustive generation of durations at a fixed precision: between two bounds,
 * the durations that are whole multiples of the precision unit, in ascending
 * order, and their number as the generator's maxCount.
 *
 * A duration is an integer number of nanoseconds. For a positive unit Dafny's
 * `/` rounds toward minus infinity, so the bounds are rounded outward-in the
 * same way on both sides of zero.
 */
module DurationPrecision {

  const NanosPerSecond := 1_000_000_000
  /** ChronoUnit.MILLIS in nanoseconds. */
  const Millis := 1_000_000
  /** ChronoUnit.MINUTES in nanoseconds. */
  const Minutes := 60 * NanosPerSecond

  /**
   * Duration.ofSeconds(seconds, nanoAdjustment), in nanoseconds. The
   * adjustment may be negative or exceed a second: it carries into the seconds
   * by floor division, and the nanosecond part is its floor remainder.
   */
  function OfSeconds(seconds: int, nanoAdjustment: int): (d: int)
    ensures d / NanosPerSecond == seconds + nanoAdjustment / NanosPerSecond
    ensures d % NanosPerSecond == nanoAdjustment % NanosPerSecond
  {
    var q, r := nanoAdjustment / NanosPerSecond, nanoAdjustment % NanosPerSecond;
    DivModUnique(seconds * NanosPerSecond + nanoAdjustment, NanosPerSecond, seconds + q, r);
    seconds * NanosPerSecond + nanoAdjustment
  }

  /** A duration as java.time.Duration keeps it: seconds, and nanoseconds within the second. */
  datatype Duration = Duration(seconds: int, nano: int)

  function ToDuration(total: int): (d: Duration)
    ensures 0 <= d.nano < NanosPerSecond
    ensures OfSeconds(d.seconds, d.nano) == total
  {
    Duration(total / NanosPerSecond, total % NanosPerSecond)
  }

  /** Durations given with a nanosecond part within the second come back unchanged. */
  lemma ToDurationOfSeconds(seconds: int, nano: int)
    requires 0 <= nano < NanosPerSecond
    ensures ToDuration(OfSeconds(seconds, nano)) == Duration(seconds, nano)
  {
    DivModUnique(OfSeconds(seconds, nano), NanosPerSecond, seconds, nano);
  }

  // ---------------------------------------------------------------------------
  // Arithmetic on multiples of a positive unit.

  /** (a - b) u = a u - b u. */
  lemma MulSub(a: int, b: int, u: int)
    ensures (a - b) * u == a * u - b * u
  {
  }

  /** A product with a positive unit keeps the sign of the other factor. */
  lemma {:induction false} MulSign(x: int, u: int)
    requires u > 0
    ensures x >= 1 ==> x * u >= u
    ensures x <= 0 ==> x * u <= 0
    decreases if x < 0 then -x else x
  {
    if x > 1 {
      MulSign(x - 1, u);
      MulSub(x, 1, u);
    } else if x < 0 {
      MulSign(x + 1, u);
      MulSub(x + 1, 1, u);
    }
  }

  lemma DivModUnique(a: int, u: int, q: int, r: int)
    requires u > 0 && 0 <= r < u && a == q * u + r
    ensures a / u == q && a % u == r
  {
    var q', r' := a / u, a % u;
    MulSub(q, q', u);
    MulSign(q - q', u);
    MulSign(q' - q, u);
    MulSub(q', q, u);
  }

  lemma MultipleMod(q: int, u: int)
    requires u > 0
    ensures (q * u) % u == 0 && (q * u) / u == q
  {
    DivModUnique(q * u, u, q, 0);
  }

  /** Shifting by one unit keeps the remainder. */
  lemma ModShift(a: int, u: int)
    requires u > 0
    ensures (a + u) % u == a % u && (a - u) % u == a % u
  {
    MulSub(a / u + 1, 1, u);
    DivModUnique(a + u, u, a / u + 1, a % u);
    MulSub(a / u, 1, u);
    DivModUnique(a - u, u, a / u - 1, a % u);
  }

  /** A positive multiple of the unit is at least the unit. */
  lemma PositiveMultiple(a: int, u: int)
    requires u > 0 && a > 0 && a % u == 0
    ensures a >= u
  {
    MulSign(a / u, u);
  }

  /** The least multiple of `unit` not below `t`. */
  function CeilToUnit(t: int, unit: int): (c: int)
    requires unit > 0
    ensures c % unit == 0 && t <= c < t + unit
  {
    MultipleMod(-((-t) / unit), unit);
    -((-t) / unit) * unit
  }

  /** The greatest multiple of `unit` not above `t`. */
  function FloorToUnit(t: int, unit: int): (f: int)
    requires unit > 0
    ensures f % unit == 0 && t - unit < f <= t
  {
    MultipleMod(t / unit, unit);
    (t / unit) * unit
  }

  // ---------------------------------------------------------------------------
  // The enumeration.

  /** first, first + unit, first + 2 unit, ... as long as the value stays within last. */
  function Steps(first: int, last: int, unit: int): (r: seq<int>)
    requires unit > 0
    ensures first > last <==> r == []
    ensures r != [] ==> r[0] == first
    ensures forall i :: 0 < i < |r| ==> r[i] == r[i - 1] + unit
    ensures forall i :: 0 <= i < |r| ==> first <= r[i] <= last
    decreases if first <= last then last - first + 1 else 0
  {
    if first > last then [] else [first] + Steps(first + unit, last, unit)
  }

  /** The durations a generator of precision `unit` between `min` and `max` enumerates. */
  function Enumerate(min: int, max: int, unit: int): (r: seq<int>)
    requires unit > 0
    ensures forall i :: 0 <= i < |r| ==> min <= r[i] <= max && r[i] % unit == 0
    ensures forall i :: 0 < i < |r| ==> r[i] == r[i - 1] + unit
    ensures r != [] ==> r[0] == CeilToUnit(min, unit)
  {
    var first := CeilToUnit(min, unit);
    var r := Steps(first, FloorToUnit(max, unit), unit);
    forall i | 0 <= i < |r| ensures r[i] % unit == 0 {
      StepsAt(first, FloorToUnit(max, unit), unit, i);
      MultipleMod(i, unit);
      ShiftedMultiple(first, r[i], unit);
    }
    r
  }

  /** A whole number of units away from a multiple of the unit is again a multiple. */
  lemma ShiftedMultiple(a: int, b: int, unit: int)
    requires unit > 0 && a % unit == 0 && (b - a) % unit == 0
    ensures b % unit == 0
  {
    var p, q := a / unit, (b - a) / unit;
    assert b == (q + p) * unit;
    DivModUnique(b, unit, q + p, 0);
  }

  /** The number of multiples of `unit` between `min` and `max`: the generator's maxCount. */
  function MaxCount(min: int, max: int, unit: int): (c: nat)
    requires unit > 0
    ensures c == 0 <==> FloorToUnit(max, unit) < CeilToUnit(min, unit)
    ensures c > 0 ==> FloorToUnit(max, unit) == CeilToUnit(min, unit) + (c - 1) * unit
  {
    var lowest := -((-min) / unit);   // ceil(min / unit)
    var highest := max / unit;        // floor(max / unit)
    MulSub(highest, lowest, unit);
    MulSign(highest - lowest, unit);
    if highest < lowest then 0 else highest - lowest + 1
  }

  // ---------------------------------------------------------------------------
  // Properties of the enumeration.

  /** Every value of Steps that is reached by whole units from first is in it. */
  lemma {:induction false} StepsComplete(first: int, last: int, unit: int, m: int)
    requires unit > 0 && first <= m <= last && (m - first) % unit == 0
    ensures m in Steps(first, last, unit)
    decreases m - first
  {
    if m != first {
      PositiveMultiple(m - first, unit);
      ModShift(m - first, unit);
      StepsComplete(first + unit, last, unit, m);
    }
  }

  /** Steps between two values a whole number of units apart ends exactly at last. */
  lemma {:induction false} StepsLength(first: int, last: int, unit: int, n: nat)
    requires unit > 0 && last == first + n * unit
    ensures |Steps(first, last, unit)| == n + 1
    ensures Steps(first, last, unit)[n] == last
    decreases n
  {
    if n > 0 {
      StepsLength(first + unit, last, unit, n - 1);
    }
  }

  /** Every multiple of the unit between the bounds is enumerated. */
  lemma EnumerationIsComplete(min: int, max: int, unit: int, m: int)
    requires unit > 0 && min <= m <= max && m % unit == 0
    ensures m in Enumerate(min, max, unit)
  {
    var first := CeilToUnit(min, unit);
    var last := FloorToUnit(max, unit);
    assert first <= m by {
      if m < first {
        PositiveMultiple(first - m, unit) by {
          DivModUnique(first - m, unit, first / unit - m / unit, 0);
        }
      }
    }
    assert m <= last by {
      if m > last {
        PositiveMultiple(m - last, unit) by {
          DivModUnique(m - last, unit, m / unit - last / unit, 0);
        }
      }
    }
    DivModUnique(m - first, unit, m / unit - first / unit, 0);
    StepsComplete(first, last, unit, m);
  }

  /**
   * maxCount is the number of enumerated values, and a non-empty enumeration
   * starts at the bound rounded up and ends at the bound rounded down.
   */
  lemma EnumerationCountAndEnds(min: int, max: int, unit: int)
    requires unit > 0
    ensures |Enumerate(min, max, unit)| == MaxCount(min, max, unit)
    ensures Enumerate(min, max, unit) != [] ==>
      Enumerate(min, max, unit)[|Enumerate(min, max, unit)| - 1] == FloorToUnit(max, unit)
  {
    var lowest, highest := -((-min) / unit), max / unit;
    var first, last := CeilToUnit(min, unit), FloorToUnit(max, unit);
    assert first == lowest * unit && last == highest * unit;
    MulSub(highest, lowest, unit);
    if highest >= lowest {
      StepsLength(first, last, unit, highest - lowest);
    } else {
      MulSign(lowest - highest, unit);
      MulSub(lowest, highest, unit);
    }
  }

  /** The i-th value of Steps is first + i units. */
  lemma {:induction false} StepsAt(first: int, last: int, unit: int, i: nat)
    requires unit > 0 && i < |Steps(first, last, unit)|
    ensures Steps(first, last, unit)[i] == first + i * unit
    decreases i
  {
    if i > 0 {
      StepsAt(first + unit, last, unit, i - 1);
      MulSub(i, 1, unit);
    }
  }

  /** Enumerated values strictly ascend, so none is enumerated twice. */
  lemma EnumerationIsStrictlyAscending(min: int, max: int, unit: int, i: int, j: int)
    requires unit > 0 && 0 <= i < j < |Enumerate(min, max, unit)|
    ensures Enumerate(min, max, unit)[i] < Enumerate(min, max, unit)[j]
  {
    var first := CeilToUnit(min, unit);
    var last := FloorToUnit(max, unit);
    StepsAt(first, last, unit, i);
    StepsAt(first, last, unit, j);
    MulSub(j, i, unit);
    MulSign(j - i, unit);
  }

  /**
   * When the rounded bounds are n whole units apart, the enumeration is
   * first, first + unit, ..., first + n unit, and maxCount is n + 1.
   */
  lemma EnumerationFrom(min: int, max: int, unit: int, first: int, n: nat)
    requires unit > 0
    requires CeilToUnit(min, unit) == first && FloorToUnit(max, unit) == first + n * unit
    ensures |Enumerate(min, max, unit)| == n + 1 == MaxCount(min, max, unit)
    ensures forall i :: 0 <= i <= n ==> Enumerate(min, max, unit)[i] == first + i * unit
  {
    StepsLength(first, first + n * unit, unit, n);
    EnumerationCountAndEnds(min, max, unit);
    forall i | 0 <= i <= n ensures Enumerate(min, max, unit)[i] == first + i * unit {
      StepsAt(first, first + n * unit, unit, i);
    }
  }
}
