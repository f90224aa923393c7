/** Rounding to cents. Prices and costs are exact; realised amounts are whole cents. */
module Money {

  /** Nearest integer, ties to even: `round(x)`. */
  function RoundHalfEven(x: real): (n: int)
    ensures -0.5 <= n as real - x <= 0.5
    ensures n as real - x == 0.5 || x - n as real == 0.5 ==> n % 2 == 0
  {
    var f := x.Floor;
    var rest := x - f as real;
    if rest < 0.5 || (rest == 0.5 && f % 2 == 0) then f else f + 1
  }

  /** Nearest integer, ties away from zero: `ROUND_HALF_UP`. */
  function RoundHalfUp(x: real): (n: int)
    ensures if x >= 0.0 then -0.5 < n as real - x <= 0.5 else -0.5 <= n as real - x < 0.5
  {
    if x >= 0.0 then (x + 0.5).Floor else -((0.5 - x).Floor)
  }

  /** `round(dollars, 2)`, in cents. */
  function ToCents(dollars: real): int {
    RoundHalfEven(dollars * 100.0)
  }

  /** Rounding to cents leaves a sum of whole cents as it is. */
  lemma WholeCentsStay(n: int)
    ensures RoundHalfEven(n as real) == n
  {
  }

  /** Ties go up, and a whole number below `x` stays below its rounding. */
  lemma HalfUpIsNearest(low: real, x: real)
    requires 0.0 <= low <= x
    ensures RoundHalfUp(x) as real - 0.5 <= x < RoundHalfUp(x) as real + 0.5
    ensures low.Floor <= RoundHalfUp(x)
  {
  }

  lemma ScaleKeepsOrder(a: real, b: real, c: real)
    requires c > 0.0
    ensures a * c <= b * c <==> a <= b
  {
    assert (b - a) * c == b * c - a * c;
    if a > b {
      assert (a - b) * c > 0.0;
    } else {
      assert (b - a) * c >= 0.0;
    }
  }

  lemma RoundingKeepsBounds(x: real, low: int, high: int)
    requires low as real <= x <= high as real
    ensures low <= RoundHalfEven(x) <= high
  {
    assert low <= x.Floor <= high;
  }
}
