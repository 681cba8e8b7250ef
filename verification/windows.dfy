/**
 * Window expressions of a windowed aggregation and the
 * `java.util.concurrent.TimeUnit.toMillis` conversion the aggregate builder
 * applies to their sizes.
 */
module Windows {
  import opened JavaLang

  datatype TimeUnit = Nanoseconds | Microseconds | Milliseconds | Seconds | Minutes | Hours | Days

  /** The window clause of a windowed aggregation; sizes are Java longs. */
  datatype KsqlWindowExpression =
    | HoppingWindow(size: int, sizeUnit: TimeUnit, advanceBy: int, advanceByUnit: TimeUnit)
    | TumblingWindow(size: int, sizeUnit: TimeUnit)
    | SessionWindow(gap: int, sizeUnit: TimeUnit)

  predicate ValidWindow(w: KsqlWindowExpression)
  {
    match w
    case HoppingWindow(size, _, advanceBy, _) => IsLong(size) && IsLong(advanceBy)
    case TumblingWindow(size, _) => IsLong(size)
    case SessionWindow(gap, _) => IsLong(gap)
  }

  /** Java's `/` on longs: the quotient is truncated toward zero. */
  function TruncDiv(a: int, b: int): (q: int)
    requires b > 0
    ensures a >= 0 ==> q == a / b
    ensures a < 0 ==> q == -((-a) / b)
  {
    if a >= 0 then a / b else -((-a) / b)
  }

  /** Java's saturating `TimeUnit.x(d, m, Long.MAX_VALUE / m)`. */
  function Saturate(d: int, m: int): int
    requires m > 0
  {
    var over := LONG_MAX / m;
    if d > over then LONG_MAX else if d < -over then LONG_MIN else d * m
  }

  /** `unit.toMillis(d)`: finer units truncate, coarser units saturate. */
  function ToMillis(unit: TimeUnit, d: int): (r: int)
    requires IsLong(d)
  {
    match unit
    case Nanoseconds => TruncDiv(d, 1_000_000)
    case Microseconds => TruncDiv(d, 1_000)
    case Milliseconds => d
    case Seconds => Saturate(d, 1_000)
    case Minutes => Saturate(d, 60_000)
    case Hours => Saturate(d, 3_600_000)
    case Days => Saturate(d, 86_400_000)
  }

  /** The exact number of milliseconds, before narrowing to a long. */
  function ExactMillis(unit: TimeUnit, d: int): int
  {
    match unit
    case Nanoseconds => TruncDiv(d, 1_000_000)
    case Microseconds => TruncDiv(d, 1_000)
    case Milliseconds => d
    case Seconds => d * 1_000
    case Minutes => d * 60_000
    case Hours => d * 3_600_000
    case Days => d * 86_400_000
  }

  function ClampLong(x: int): (r: int)
    ensures IsLong(r)
  {
    if x > LONG_MAX then LONG_MAX else if x < LONG_MIN then LONG_MIN else x
  }

  lemma SaturateIsClamp(d: int, m: int)
    requires m > 0
    ensures Saturate(d, m) == ClampLong(d * m)
  {
    var over := LONG_MAX / m;
    assert over * m <= LONG_MAX < (over + 1) * m;
    if d > over {
      assert d * m >= (over + 1) * m by { MultiplyMonotone(over + 1, d, m); }
    } else if d < -over {
      assert d * m <= -(over + 1) * m by { MultiplyMonotone(d, -(over + 1), m); }
    } else {
      MultiplyMonotone(d, over, m);
      MultiplyMonotone(-over, d, m);
    }
  }

  lemma MultiplyMonotone(a: int, b: int, m: int)
    requires a <= b && m > 0
    ensures a * m <= b * m
  {
    assert b * m - a * m == (b - a) * m;
  }

  /**
   * The conversion is the exact millisecond count clamped to the long range:
   * it never wraps around.
   */
  lemma ToMillisIsClampedExact(unit: TimeUnit, d: int)
    requires IsLong(d)
    ensures ToMillis(unit, d) == ClampLong(ExactMillis(unit, d))
    ensures IsLong(ToMillis(unit, d))
  {
    match unit
    case Nanoseconds =>
    case Microseconds =>
    case Milliseconds =>
    case Seconds => SaturateIsClamp(d, 1_000);
    case Minutes => SaturateIsClamp(d, 60_000);
    case Hours => SaturateIsClamp(d, 3_600_000);
    case Days => SaturateIsClamp(d, 86_400_000);
  }

  lemma TruncDivMonotone(a: int, b: int, m: int)
    requires a <= b && m > 0
    ensures TruncDiv(a, m) <= TruncDiv(b, m)
  {
    if 0 <= a {
      DivMonotone(a, b, m);
    } else if b < 0 {
      DivMonotone(-b, -a, m);
    } else {
      DivMonotone(0, -a, m);
      DivMonotone(0, b, m);
      assert 0 / m == 0;
    }
  }

  lemma DivMonotone(a: int, b: int, m: int)
    requires 0 <= a <= b && m > 0
    ensures a / m <= b / m
  {
    if a / m > b / m {
      MultiplyMonotone(b / m + 1, a / m, m);
      assert false;
    }
  }

  /** A longer window in the source units never gives a shorter window in milliseconds. */
  lemma ToMillisMonotone(unit: TimeUnit, d1: int, d2: int)
    requires IsLong(d1) && IsLong(d2) && d1 <= d2
    ensures ToMillis(unit, d1) <= ToMillis(unit, d2)
  {
    ToMillisIsClampedExact(unit, d1);
    ToMillisIsClampedExact(unit, d2);
    match unit
    case Nanoseconds => TruncDivMonotone(d1, d2, 1_000_000);
    case Microseconds => TruncDivMonotone(d1, d2, 1_000);
    case Milliseconds =>
    case Seconds =>
    case Minutes =>
    case Hours =>
    case Days =>
  }
}
