/** Rounding over the reals: to the nearest grid point (ties to even), and truncation. */
module Rounding {

  /** The nearest integer; a tie goes to the even neighbour. */
  function Nearest(x: real): (n: int)
    ensures x - 0.5 <= n as real <= x + 0.5
  {
    var f := x.Floor;
    var d := x - f as real;
    if d < 0.5 then f
    else if d > 0.5 then f + 1
    else if f % 2 == 0 then f
    else f + 1
  }

  lemma NearestIsMonotone(x: real, y: real)
    requires x <= y
    ensures Nearest(x) <= Nearest(y)
  {
  }

  /** Truncation toward zero. */
  function Truncate(x: real): (n: int)
    ensures 0.0 <= x ==> n as real <= x < n as real + 1.0
  {
    if x >= 0.0 then x.Floor else -((-x).Floor)
  }

  lemma TruncateIsMonotone(x: real, y: real)
    requires x <= y
    ensures Truncate(x) <= Truncate(y)
  {
  }

  function Round2(x: real): (r: real)
    ensures x - 0.005 <= r <= x + 0.005
  {
    Nearest(x * 100.0) as real / 100.0
  }

  /** The rounded value is a whole number of hundredths, and no hundredth is nearer. */
  lemma NoHundredthIsNearer(x: real, n: int)
    ensures Round2(x) * 100.0 == (Round2(x) * 100.0).Floor as real
    ensures
      var other := n as real / 100.0;
      (if Round2(x) >= x then Round2(x) - x else x - Round2(x)) <= (if other >= x then other - x else x - other)
  {
    var m := Nearest(x * 100.0);
    NearestOfAnInteger(Round2(x) * 100.0, m);
    assert n < m ==> n as real <= m as real - 1.0;
    assert n > m ==> n as real >= m as real + 1.0;
    hide Nearest;
  }

  function Round6(x: real): (r: real)
    ensures x - 0.0000005 <= r <= x + 0.0000005
  {
    Nearest(x * 1000000.0) as real / 1000000.0
  }

  function Round8(x: real): (r: real)
    ensures x - 0.000000005 <= r <= x + 0.000000005
  {
    Nearest(x * 100000000.0) as real / 100000000.0
  }

  ghost predicate OnGrid6(x: real) { x * 1000000.0 == (x * 1000000.0).Floor as real }

  ghost predicate OnGrid8(x: real) { x * 100000000.0 == (x * 100000000.0).Floor as real }

  lemma NearestOfAnInteger(x: real, n: int)
    requires x == n as real
    ensures Nearest(x) == n && x.Floor == n
  {
  }

  lemma RoundingKeepsGrid6(x: real)
    ensures OnGrid6(x) ==> Round6(x) == x
    ensures OnGrid6(Round6(x))
  {
    var n := Nearest(x * 1000000.0);
    NearestOfAnInteger(Round6(x) * 1000000.0, n);
    if OnGrid6(x) {
      NearestOfAnInteger(x * 1000000.0, (x * 1000000.0).Floor);
    }
  }

  lemma RoundingKeepsGrid8(x: real)
    ensures OnGrid8(x) ==> Round8(x) == x
    ensures OnGrid8(Round8(x))
  {
    var n := Nearest(x * 100000000.0);
    NearestOfAnInteger(Round8(x) * 100000000.0, n);
    if OnGrid8(x) {
      NearestOfAnInteger(x * 100000000.0, (x * 100000000.0).Floor);
    }
  }

  lemma RoundingIsMonotone(x: real, y: real)
    requires x <= y
    ensures Round2(x) <= Round2(y) && Round6(x) <= Round6(y) && Round8(x) <= Round8(y)
  {
    NearestIsMonotone(x * 100.0, y * 100.0);
    NearestIsMonotone(x * 1000000.0, y * 1000000.0);
    NearestIsMonotone(x * 100000000.0, y * 100000000.0);
  }

  lemma MultiplesStayOnGrid8(n: int, step: real)
    requires OnGrid8(step)
    ensures OnGrid8(n as real * step)
  {
    var m := (step * 100000000.0).Floor;
    calc {
      (n as real * step) * 100000000.0;
      n as real * (step * 100000000.0);
      n as real * m as real;
      (n * m) as real;
    }
    NearestOfAnInteger((n as real * step) * 100000000.0, n * m);
  }

  lemma GridMultiplesRoundToThemselves(x: real, n: int, step: real)
    requires x == n as real * step && OnGrid8(step)
    ensures Round8(x) == x
  {
    MultiplesStayOnGrid8(n, step);
    RoundingKeepsGrid8(x);
  }

  // Facts about real products and quotients the solver is not left to find.

  lemma ProductIsMonotone(a: real, b: real, c: real, d: real)
    requires 0.0 <= a <= b && 0.0 <= c <= d
    ensures 0.0 <= a * c <= b * d
  {
    assert a * c <= b * c;
    assert b * c <= b * d;
  }

  lemma QuotientIsMonotone(a: real, b: real, d: real)
    requires a <= b && d > 0.0
    ensures a / d <= b / d
  {
  }

  lemma QuotientTimesDivisor(a: real, d: real)
    requires d != 0.0
    ensures (a / d) * d == a
  {
  }

  lemma ProductOverFactor(factor: real, x: real)
    requires factor > 0.0
    ensures factor * x / factor == x
  {
    QuotientTimesDivisor(factor * x, factor);
    assert (factor * x / factor - x) * factor == 0.0;
  }

  lemma ProductIsPositive(a: real, b: real)
    requires a > 0.0 && b > 0.0
    ensures a * b > 0.0
  {
  }

  lemma QuotientReaches(a: real, d: real, x: real)
    requires d > 0.0
    ensures a / d >= x <==> a >= x * d
  {
    QuotientTimesDivisor(a, d);
    ProductsCompare(a / d, x, d);
  }

  lemma ProductsCompare(a: real, b: real, d: real)
    requires d > 0.0
    ensures a >= b <==> a * d >= b * d
  {
    if a >= b {
      ProductIsMonotone(0.0, a - b, d, d);
      assert (a - b) * d == a * d - b * d;
    } else {
      ProductIsPositive(b - a, d);
      assert (b - a) * d == b * d - a * d;
    }
  }

  lemma PositiveFactor(x: real, factor: real)
    requires factor > 0.0 && x * factor > 0.0
    ensures x > 0.0
  {
  }
}
