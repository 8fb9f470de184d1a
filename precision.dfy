/** Rounding an order quantity down to the precision an instrument allows
    (`FuturesOrders._floor` in bybit_order.py). Quantities are exact reals
    here: the source's float arithmetic is not modelled. */
module Precision {

  /** 10 to the power n. */
  function Pow10(n: nat): (p: nat)
    ensures p >= 1
    ensures n > 0 ==> p >= 10
  {
    if n == 0 then 1 else 10 * Pow10(n - 1)
  }

  /** One step of the grid with `decimals` fractional digits: 10^-decimals. */
  function Unit(decimals: nat): (u: real)
    ensures 0.0 < u <= 1.0
  {
    1.0 / Pow10(decimals) as real
  }

  /** A grid step times 10^decimals is one. */
  lemma UnitScale(decimals: nat)
    ensures Unit(decimals) * Pow10(decimals) as real == 1.0
  {
  }

  /** `x` is a whole multiple of 10^-decimals, i.e. it has at most
      `decimals` fractional digits. */
  ghost predicate OnGrid(x: real, decimals: nat)
  {
    exists k: int :: GridIndex(x, decimals, k)
  }

  /** `x` is the k-th point of the grid with `decimals` fractional digits. */
  predicate GridIndex(x: real, decimals: nat, k: int)
  {
    x * Pow10(decimals) as real == k as real
  }

  /** A number whose scaled value is a whole number is on the grid. */
  lemma OnGridOf(x: real, decimals: nat, k: int)
    requires x * Pow10(decimals) as real == k as real
    ensures OnGrid(x, decimals)
  {
    assert GridIndex(x, decimals, k);
  }

  /** A grid point scaled by 10^decimals is a whole number. */
  lemma OnGridScaled(x: real, decimals: nat) returns (k: int)
    requires OnGrid(x, decimals)
    ensures k as real == x * Pow10(decimals) as real
  {
    k :| GridIndex(x, decimals, k);
  }

  /** `_floor(value, decimals)`: factor = 1 / 10^decimals, then
      (value // factor) * factor, with `//` the flooring division. */
  function FloorTo(value: real, decimals: nat): (r: real)
    ensures OnGrid(r, decimals)
    ensures r <= value
    ensures value - r < Unit(decimals)
  {
    FloorToFacts(value, decimals);
    var factor := Unit(decimals);
    (value / factor).Floor as real * factor
  }

  /** The arithmetic behind FloorTo's contract. */
  lemma FloorToFacts(value: real, decimals: nat)
    ensures var factor := Unit(decimals);
      var r := (value / factor).Floor as real * factor;
      OnGrid(r, decimals) && r <= value && value - r < factor
  {
    var factor := Unit(decimals);
    var k := (value / factor).Floor;
    GridMultiple(k, decimals);
    FloorBounds(value, factor, k);
  }

  /** Every whole multiple of the grid step is on the grid. */
  lemma GridMultiple(k: int, decimals: nat)
    ensures OnGrid(k as real * Unit(decimals), decimals)
  {
    UnitScale(decimals);
    Cancel(k as real, Unit(decimals), Pow10(decimals) as real);
    OnGridOf(k as real * Unit(decimals), decimals, k);
  }

  /** Flooring the quotient by a positive step lands at most one step below. */
  lemma FloorBounds(value: real, factor: real, k: int)
    requires factor > 0.0
    requires k == (value / factor).Floor
    ensures k as real * factor <= value
    ensures value - k as real * factor < factor
  {
    var x := value / factor;
    DivMul(value, factor);
    MulMono(k as real, x, factor);
    assert x < k as real + 1.0;
    MulStrictMono(x, k as real + 1.0, factor);
    assert (k as real + 1.0) * factor == k as real * factor + factor;
  }

  lemma Cancel(a: real, factor: real, p: real)
    requires factor * p == 1.0
    ensures a * factor * p == a
  {
    assert a * factor * p == a * (factor * p);
  }

  lemma DivMul(value: real, factor: real)
    requires factor > 0.0
    ensures value / factor * factor == value
  {
  }

  /** FloorTo(value) is the greatest grid point not above `value`: together
      with FloorTo's own contract this defines it uniquely. */
  lemma {:induction false} FloorToGreatest(value: real, decimals: nat, g: real)
    requires OnGrid(g, decimals) && g <= value
    ensures g <= FloorTo(value, decimals)
  {
    var m := OnGridScaled(g, decimals);
    UnitScale(decimals);
    GridPointBelow(value, Unit(decimals), Pow10(decimals) as real, g, m);
  }

  lemma GridPointBelow(value: real, factor: real, p: real, g: real, m: int)
    requires factor > 0.0 && factor * p == 1.0
    requires m as real == g * p && g <= value
    ensures g <= (value / factor).Floor as real * factor
  {
    var x := value / factor;
    var k := x.Floor;
    DivMul(value, factor);
    assert p > 0.0;
    Cancel(value, factor, p);
    assert x == x * factor * p == value * p;
    MulMono(g, value, p);
    assert m <= k;
    MulMono(m as real, k as real, factor);
    Cancel(g, p, factor) by {
      assert p * factor == factor * p;
    }
    assert g == g * p * factor == m as real * factor;
  }

  /** A grid point is left unchanged by flooring: a quantity that already has
      the instrument's precision (such as its minimum) is submitted as is. */
  lemma FloorToFixesGrid(x: real, decimals: nat)
    requires OnGrid(x, decimals)
    ensures FloorTo(x, decimals) == x
  {
    FloorToGreatest(x, decimals, x);
  }

  /** Flooring twice is flooring once. */
  lemma FloorToIdempotent(value: real, decimals: nat)
    ensures FloorTo(FloorTo(value, decimals), decimals) == FloorTo(value, decimals)
  {
    FloorToFixesGrid(FloorTo(value, decimals), decimals);
  }

  /** Flooring preserves order. */
  lemma FloorToMonotone(v: real, w: real, decimals: nat)
    requires v <= w
    ensures FloorTo(v, decimals) <= FloorTo(w, decimals)
  {
    FloorToGreatest(w, decimals, FloorTo(v, decimals));
  }

  /** Against a minimum that is itself a grid point, the floored value falls
      short exactly when the unfloored one does. */
  lemma FloorToBelowGridPoint(value: real, decimals: nat, m: real)
    requires OnGrid(m, decimals)
    ensures FloorTo(value, decimals) < m <==> value < m
  {
    if m <= value {
      FloorToGreatest(value, decimals, m);
    }
  }

  /** The worked cases: 0.1234 and 0.123456 give 0.123, a value below one
      step gives 0, a grid point stays, and 1000 / 10000 at three decimals
      stays 0.1. */
  lemma FloorToExamples()
    ensures FloorTo(0.1234, 3) == 0.123
    ensures FloorTo(0.123456, 3) == 0.123
    ensures FloorTo(0.0005, 3) == 0.0
    ensures FloorTo(0.001, 3) == 0.001
    ensures FloorTo(1000.0 / 10000.0, 3) == 0.1
  {
    assert Pow10(3) == 1000;
    assert Unit(3) == 0.001;
    assert (0.1234 / 0.001).Floor == 123;
    assert (0.123456 / 0.001).Floor == 123;
    assert (0.0005 / 0.001).Floor == 0;
    assert (0.001 / 0.001).Floor == 1;
    assert (0.1 / 0.001).Floor == 100;
  }

  lemma MulMono(a: real, b: real, c: real)
    requires a <= b && c > 0.0
    ensures a * c <= b * c
  {}

  lemma MulStrictMono(a: real, b: real, c: real)
    requires a < b && c > 0.0
    ensures a * c < b * c
  {}
}
