/**
 * Decimal flooring as `floorToDecimal` from utils/numbers performs it: keep `d`
 * decimal places and round toward negative infinity.
 */
module Numbers {

  /** 10 raised to `d`, exactly. */
  function Pow10(d: nat): (p: real)
    ensures p >= 1.0
  {
    if d == 0 then 1.0 else 10.0 * Pow10(d - 1)
  }

  /** The value of one unit in the last of `d` decimal places. */
  function Unit(d: nat): (u: real)
    ensures 0.0 < u <= 1.0
    ensures u * Pow10(d) == 1.0
  {
    1.0 / Pow10(d)
  }

  /** `x` counted in units of the `d`-th decimal place. */
  function Scale(x: real, d: nat): real
  {
    x * Pow10(d)
  }

  /** `x` has no more than `d` decimal places. */
  predicate OnGrid(x: real, d: nat)
  {
    Scale(x, d).Floor as real == Scale(x, d)
  }

  /** Dividing a floored product back out lands below `x`, within one `1/p`. */
  lemma FloorDivision(x: real, p: real, n: int)
    requires p >= 1.0
    requires n as real <= x * p < n as real + 1.0
    ensures (n as real / p) * p == n as real
    ensures n as real / p <= x
    ensures x < n as real / p + 1.0 / p
  {
    var r := n as real / p;
    assert r * p == n as real;
    assert (1.0 / p) * p == 1.0;
    assert (r + 1.0 / p) * p == n as real + 1.0;
  }

  /** Division by a positive number preserves order. */
  lemma DivideMonotone(a: real, b: real, p: real)
    requires a <= b
    requires p > 0.0
    ensures a / p <= b / p
  {
    assert b / p - a / p == (b - a) / p;
    assert (b - a) / p * p == b - a;
  }

  /** Multiplication by a positive number preserves order. */
  lemma MultiplyMonotone(a: real, b: real, p: real)
    requires a <= b
    requires p > 0.0
    ensures a * p <= b * p
  {
    assert b * p - a * p == (b - a) * p;
  }

  /** A value whose scaled form is the integer `m` is `m` scaled back. */
  lemma Unscale(y: real, p: real, m: int)
    requires p > 0.0
    requires y * p == m as real
    ensures y == m as real / p
  {
  }

  /** The largest value with `d` decimal places that does not exceed `x`. */
  function FloorToDecimal(x: real, d: nat): (r: real)
    ensures OnGrid(r, d)
    ensures r <= x < r + Unit(d)
  {
    var n := Scale(x, d).Floor;
    FloorDivision(x, Pow10(d), n);
    assert Scale(n as real / Pow10(d), d) == n as real;
    n as real / Pow10(d)
  }

  /** No value on the `d`-place grid lies strictly between `FloorToDecimal(x, d)` and `x`. */
  lemma FloorToDecimalIsGreatest(x: real, y: real, d: nat)
    requires OnGrid(y, d)
    requires y <= x
    ensures y <= FloorToDecimal(x, d)
  {
    var m := Scale(y, d).Floor;
    var n := Scale(x, d).Floor;
    MultiplyMonotone(y, x, Pow10(d));
    assert m <= n;
    assert y * Pow10(d) == m as real;
    Unscale(y, Pow10(d), m);
    DivideMonotone(m as real, n as real, Pow10(d));
  }

  /** Flooring a value that is already on the grid leaves it alone. */
  lemma FloorToDecimalIdempotent(x: real, d: nat)
    requires OnGrid(x, d)
    ensures FloorToDecimal(x, d) == x
  {
    FloorToDecimalIsGreatest(x, x, d);
  }

  /** Flooring preserves order. */
  lemma FloorToDecimalMonotone(x: real, y: real, d: nat)
    requires x <= y
    ensures FloorToDecimal(x, d) <= FloorToDecimal(y, d)
  {
    FloorToDecimalIsGreatest(y, FloorToDecimal(x, d), d);
  }
}
