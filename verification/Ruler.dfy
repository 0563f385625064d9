/**
 * The distance between the large ticks of a ruler.  The candidates are the
 * numbers v * 10^n; they are tried in an order that is not increasing.
 * Arithmetic is over the reals.
 */
module Ruler {

  import opened Arith

  const VALID_INTERVALS: seq<int> := [1, 5, 10, 25]

  const INTERVAL_BASE: int := 10

  const MIN_SPACE_MAJORTICKS: int := 80

  ghost predicate IsInterval(c: int) {
    exists i: nat, n: nat :: i < |VALID_INTERVALS| && c == IntervalAt(i, n)
  }

  function IntervalAt(i: nat, n: nat): (c: int)
    requires i < |VALID_INTERVALS|
    ensures c > 0
  {
    PowPositive(INTERVAL_BASE, n);
    VALID_INTERVALS[i] * Pow(INTERVAL_BASE, n)
  }

  function IntervalPixelSpacing(interval: real, lower: real, upper: real, allocatedSize: real): int
    requires upper > lower && allocatedSize > 0.0
  {
    (allocatedSize / (upper - lower) * interval).Floor
  }

  /** The spacing is the number of whole pixels that the interval takes of the ruler. */
  lemma SpacingBounds(interval: real, lower: real, upper: real, length: real, allocatedSize: real)
    requires upper > lower && allocatedSize > 0.0 && length == upper - lower
    ensures var spacing := IntervalPixelSpacing(interval, lower, upper, allocatedSize) as real;
      length * spacing <= allocatedSize * interval < length * spacing + length
  {
    var scale := allocatedSize / length;
    var exact := scale * interval;
    var whole: real := exact.Floor as real;
    assert IntervalPixelSpacing(interval, lower, upper, allocatedSize) == exact.Floor;
    QuotientTimes(scale, allocatedSize, length, interval);
    Between(whole, exact - whole, exact, length, allocatedSize * interval);
  }

  lemma Between(whole: real, rest: real, exact: real, length: real, product: real)
    requires length > 0.0 && 0.0 <= rest < 1.0 && exact == whole + rest && product == length * exact
    ensures length * whole <= product < length * whole + length
  {
    DistributeReal(length, whole, rest, product);
    Share(length, rest);
  }

  lemma DistributeReal(a: real, b: real, c: real, p: real)
    requires p == a * (b + c)
    ensures p == a * b + a * c
  {}

  lemma Share(a: real, b: real)
    requires a > 0.0 && 0.0 <= b < 1.0
    ensures 0.0 <= a * b < a
  {}

  lemma QuotientTimes(q: real, a: real, b: real, c: real)
    requires b > 0.0 && q == a / b
    ensures b * (q * c) == a * c
  {
    assert q * b == a;
    Swap(b, q, c);
  }

  lemma Swap(a: real, b: real, c: real)
    ensures a * (b * c) == b * a * c
  {}

  /** Ticks at this distance have enough space. */
  predicate WideEnough(c: int, lower: real, upper: real, allocatedSize: real)
    requires upper > lower && allocatedSize > 0.0
  {
    IntervalPixelSpacing(c as real, lower, upper, allocatedSize) >= MIN_SPACE_MAJORTICKS
  }

  /** The smallest interval that is wide enough. */
  ghost predicate IsLeast(c: int, lower: real, upper: real, allocatedSize: real)
    requires upper > lower && allocatedSize > 0.0
  {
    && IsInterval(c)
    && WideEnough(c, lower, upper, allocatedSize)
    && forall d | IsInterval(d) && WideEnough(d, lower, upper, allocatedSize) :: c <= d
  }

  lemma ScaleMonotone(s: real, a: real, b: real)
    requires s > 0.0 && a <= b
    ensures s * a <= s * b
  {}

  lemma QuotientPositive(a: real, b: real)
    requires a > 0.0 && b > 0.0
    ensures a / b > 0.0
  {}

  lemma WideEnoughMonotone(c: int, d: int, lower: real, upper: real, allocatedSize: real)
    requires upper > lower && allocatedSize > 0.0 && c <= d
    ensures WideEnough(c, lower, upper, allocatedSize) ==> WideEnough(d, lower, upper, allocatedSize)
  {
    QuotientPositive(allocatedSize, upper - lower);
    ScaleMonotone(allocatedSize / (upper - lower), c as real, d as real);
  }

  lemma {:induction false} PowExceeds(n: nat)
    ensures Pow(INTERVAL_BASE, n) > n
  {
    if n > 0 {
      PowExceeds(n - 1);
    }
  }

  lemma Archimedes(s: real, m: real) returns (n: nat)
    requires s > 0.0 && m > 0.0
    ensures s * (n as real) >= m
  {
    QuotientPositive(m, s);
    n := (m / s).Floor + 1;
    ScaleMonotone(s, m / s, n as real);
    assert s * (m / s) == m;
  }

  /** Some power of ten is wide enough. */
  lemma SomePowerIsWide(lower: real, upper: real, allocatedSize: real) returns (n: nat)
    requires upper > lower && allocatedSize > 0.0
    ensures WideEnough(IntervalAt(0, n), lower, upper, allocatedSize)
  {
    var s := allocatedSize / (upper - lower);
    QuotientPositive(allocatedSize, upper - lower);
    n := Archimedes(s, MIN_SPACE_MAJORTICKS as real);
    assert WideEnough(n, lower, upper, allocatedSize);
    PowExceeds(n);
    WideEnoughMonotone(n, IntervalAt(0, n), lower, upper, allocatedSize);
  }

  /** All candidates with an exponent below `n`, and the first `i` with exponent `n`, are too narrow. */
  ghost predicate AllNarrow(i: nat, n: nat, lower: real, upper: real, allocatedSize: real)
    requires upper > lower && allocatedSize > 0.0
  {
    forall j: nat, m: nat | j < |VALID_INTERVALS| && (m < n || (m == n && j < i)) ::
      !WideEnough(IntervalAt(j, m), lower, upper, allocatedSize)
  }

  lemma {:induction false} PowMonotone(m: nat, n: nat)
    requires m <= n
    ensures Pow(INTERVAL_BASE, m) <= Pow(INTERVAL_BASE, n)
    decreases n
  {
    if m < n {
      PowMonotone(m, n - 1);
      PowPositive(INTERVAL_BASE, n - 1);
    }
  }

  /**
   * A candidate tried later is smaller only if it is ten times the power of the
   * current one, which was tried before.
   */
  lemma LaterIsNotSmaller(i: nat, n: nat, j: nat, m: nat)
    requires i < |VALID_INTERVALS| && j < |VALID_INTERVALS| && (m > n || (m == n && j >= i))
    ensures IntervalAt(j, m) >= IntervalAt(i, n) || (i == 3 && IntervalAt(j, m) == IntervalAt(2, n))
  {
    PowPositive(INTERVAL_BASE, n);
    if m == n + 1 {
      assert Pow(INTERVAL_BASE, m) == 10 * Pow(INTERVAL_BASE, n);
    } else if m > n {
      assert Pow(INTERVAL_BASE, n + 2) == 10 * (10 * Pow(INTERVAL_BASE, n)) by {
        assert Pow(INTERVAL_BASE, n + 1) == 10 * Pow(INTERVAL_BASE, n);
      }
      PowMonotone(n + 2, m);
    }
  }

  lemma FirstWideIsLeast(i: nat, n: nat, lower: real, upper: real, allocatedSize: real)
    requires upper > lower && allocatedSize > 0.0
    requires i < |VALID_INTERVALS| && WideEnough(IntervalAt(i, n), lower, upper, allocatedSize)
    requires AllNarrow(i, n, lower, upper, allocatedSize)
    ensures IsLeast(IntervalAt(i, n), lower, upper, allocatedSize)
  {
    forall d | IsInterval(d) && WideEnough(d, lower, upper, allocatedSize)
      ensures IntervalAt(i, n) <= d
    {
      var j: nat, m: nat :| j < |VALID_INTERVALS| && d == IntervalAt(j, m);
      LaterIsNotSmaller(i, n, j, m);
    }
  }

  lemma SpacingNotNegative(c: int, lower: real, upper: real, allocatedSize: real)
    requires upper > lower && allocatedSize > 0.0 && c >= 0
    ensures IntervalPixelSpacing(c as real, lower, upper, allocatedSize) >= 0
  {
    QuotientPositive(allocatedSize, upper - lower);
    ScaleMonotone(allocatedSize / (upper - lower), 0.0, c as real);
  }

  /** Ends: some power of ten is wide enough, and the exponent grows until then.  The early return is never taken. */
  method CalculateInterval(lower: real, upper: real, allocatedSize: real) returns (interval: int)
    requires upper > lower && upper - lower >= 1.0 && allocatedSize > 0.0
    ensures IsLeast(interval, lower, upper, allocatedSize)
  {
    var intervalIndex: nat := 0;
    var intervalN: nat := 0;
    ghost var enough := SomePowerIsWide(lower, upper, allocatedSize);
    interval := 1;
    while true
      invariant intervalIndex < |VALID_INTERVALS|
      invariant AllNarrow(intervalIndex, intervalN, lower, upper, allocatedSize)
      invariant intervalN < enough || (intervalN == enough && intervalIndex == 0)
      decreases enough - intervalN, |VALID_INTERVALS| - intervalIndex
    {
      interval := IntervalAt(intervalIndex, intervalN);
      var spacing := IntervalPixelSpacing(interval as real, lower, upper, allocatedSize);
      SpacingNotNegative(interval, lower, upper, allocatedSize);
      if spacing < 0 {
        assert false;
        return -1;
      }
      if spacing >= MIN_SPACE_MAJORTICKS {
        FirstWideIsLeast(intervalIndex, intervalN, lower, upper, allocatedSize);
        break;
      }
      intervalIndex := intervalIndex + 1;
      if intervalIndex == |VALID_INTERVALS| {
        intervalIndex := 0;
        intervalN := intervalN + 1;
      }
    }
  }

  /** A large interval is at most five times one that was too narrow. */
  lemma PreviousInterval(c: int) returns (d: int)
    requires IsInterval(c) && c > 1
    ensures IsInterval(d) && d < c <= 5 * d
  {
    var i: nat, n: nat :| i < |VALID_INTERVALS| && c == IntervalAt(i, n);
    if i > 0 {
      d := IntervalAt(i - 1, n);
    } else {
      assert n > 0;
      d := IntervalAt(1, n - 1);
      assert Pow(INTERVAL_BASE, n) == 10 * Pow(INTERVAL_BASE, n - 1);
    }
    PowPositive(INTERVAL_BASE, n);
  }

  /** The large ticks are less than five times as far apart as they have to be, unless every integer has one. */
  lemma NotMuchTooWide(c: int, lower: real, upper: real, allocatedSize: real)
    requires upper > lower && allocatedSize > 0.0 && IsLeast(c, lower, upper, allocatedSize)
    ensures c == 1 || IntervalPixelSpacing(c as real, lower, upper, allocatedSize) < 5 * MIN_SPACE_MAJORTICKS
  {
    if c > 1 {
      var d := PreviousInterval(c);
      assert !WideEnough(d, lower, upper, allocatedSize);
      FiveTimesNarrow(c, d, lower, upper, allocatedSize);
    } else {
      OnlyOneIsSmallest(c);
    }
  }

  lemma OnlyOneIsSmallest(c: int)
    requires IsInterval(c)
    ensures c >= 1
  {}

  lemma FiveTimesNarrow(c: int, d: int, lower: real, upper: real, allocatedSize: real)
    requires upper > lower && allocatedSize > 0.0 && c <= 5 * d && !WideEnough(d, lower, upper, allocatedSize)
    ensures IntervalPixelSpacing(c as real, lower, upper, allocatedSize) < 5 * MIN_SPACE_MAJORTICKS
  {
    var s := allocatedSize / (upper - lower);
    QuotientPositive(allocatedSize, upper - lower);
    assert s * (d as real) < MIN_SPACE_MAJORTICKS as real;
    FiveFold(s, c as real, d as real, MIN_SPACE_MAJORTICKS as real);
  }

  lemma FiveFold(s: real, c: real, d: real, m: real)
    requires s > 0.0 && c <= 5.0 * d && s * d < m
    ensures s * c < 5.0 * m
  {
    ScaleMonotone(s, c, 5.0 * d);
    assert s * (5.0 * d) == 5.0 * (s * d);
  }

  /** The greatest multiple of `interval` that is not above `lower`. */
  function FirstTick(lower: real, interval: int): int
    requires interval > 0
  {
    (lower / (interval as real)).Floor * interval
  }

  lemma FirstTickIsGreatest(lower: real, interval: int, k: int)
    requires interval > 0
    ensures FirstTick(lower, interval) as real <= lower
    ensures (k * interval) as real <= lower <==> k * interval <= FirstTick(lower, interval)
  {
    var q := lower / (interval as real);
    assert q * (interval as real) == lower;
    FloorTimes(q, interval, k);
  }

  lemma FloorTimes(q: real, i: int, k: int)
    requires i > 0
    ensures (q.Floor * i) as real <= q * (i as real)
    ensures (k * i) as real <= q * (i as real) <==> k * i <= q.Floor * i
  {
    TimesReal(q.Floor, i);
    TimesReal(k, i);
    ScaleMonotone(i as real, q.Floor as real, q);
    if k <= q.Floor {
      MulMonotone(k, q.Floor, i);
      ScaleMonotone(i as real, k as real, q);
    } else {
      StrictlyMonotone(q.Floor, k, i);
      StrictScale(i as real, q, k as real);
    }
  }

  lemma TimesReal(a: int, b: int)
    ensures (a * b) as real == (a as real) * (b as real)
  {}

  lemma StrictlyMonotone(a: int, b: int, c: int)
    requires a < b && c > 0
    ensures a * c < b * c
  {}

  lemma StrictScale(s: real, a: real, b: real)
    requires s > 0.0 && a < b
    ensures s * a < s * b
  {}
}
