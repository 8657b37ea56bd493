/** Small shared vocabulary: optional values and arithmetic facts about products and floor division. */
module Prelude {

  datatype Option<+T> = None | Some(value: T)

  /** One second, in the nanoseconds of `time.Duration`. */
  const SECOND := 1_000_000_000

  /** How a model and its optional adapter are written as one name. */
  function Qualified(base: string, adapter: string): string {
    if adapter == "" then base else base + "#" + adapter
  }

  lemma {:induction false} SubsetSize<T>(a: set<T>, b: set<T>)
    requires a <= b
    ensures |a| <= |b|
  {
    if a != {} {
      var x :| x in a;
      SubsetSize(a - {x}, b - {x});
    }
  }

  lemma ScaleMonotone(k: nat, x: int, y: int)
    requires x <= y
    ensures k * x <= k * y
  {
  }

  lemma LessScaled(x: int, y: int, k: int)
    requires 0 < k
    ensures x < y ==> x * k + k <= y * k
  {
    if x < y {
      ScaleMonotone(k, x + 1, y);
      assert k * (x + 1) == x * k + k;
    }
  }

  lemma FloorMonotone(x: int, y: int, period: int)
    requires 0 < period && x <= y
    ensures x / period <= y / period
  {
    assert x == x / period * period + x % period;
    assert y == y / period * period + y % period;
    LessScaled(y / period, x / period, period);
  }

  /** The quotient is the only whole number whose multiple is within one period below. */
  lemma FloorUnique(x: int, q: int, period: int)
    requires 0 < period && q * period <= x < q * period + period
    ensures x / period == q
  {
    assert x == x / period * period + x % period;
    LessScaled(x / period, q, period);
    LessScaled(q, x / period, period);
  }

  /** One more whole period has passed once a full period has been added. */
  lemma FloorAfterPeriod(x: int, y: int, period: int)
    requires 0 < period && x + period <= y
    ensures x / period + 1 <= y / period
  {
    assert x == x / period * period + x % period;
    assert (x / period + 1) * period == x / period * period + period;
    FloorUnique(x + period, x / period + 1, period);
    FloorMonotone(x + period, y, period);
  }

  lemma RealScale(x: real, y: real, k: real)
    requires 0.0 < k
    ensures x <= y <==> x * k <= y * k
  {
    if x <= y {
      assert (y - x) * k >= 0.0;
    } else {
      assert (x - y) * k > 0.0;
    }
  }

  lemma ProductBound(f: real, n: real, m: real, ratio: real)
    requires 0.0 < ratio && f >= ratio * n && m <= n
    ensures f >= ratio * m
  {
    RealScale(m, n, ratio);
    assert ratio * m == m * ratio && ratio * n == n * ratio;
  }

  lemma QuotientBound(f: real, n: real, ratio: real)
    requires 0.0 < n
    ensures f / n >= ratio <==> f >= ratio * n
  {
    assert f / n * n == f;
    RealScale(ratio, f / n, n);
  }
}
