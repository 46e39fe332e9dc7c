/**
 * Python's `round` on exact reals: `round(x)` rounds to the nearest integer with ties to
 * even, and `round(x, d)` does the same at the d-th decimal place. Binary floating point is
 * not modelled: these are the values the Python calls would return on exact decimals.
 */
module Rounding {

  /** `round(x)`: the nearest integer, ties going to the even neighbour. */
  function RoundHalfEven(x: real): (n: int)
    ensures n as real - 0.5 <= x <= n as real + 0.5
  {
    var f := x.Floor;
    var frac := x - f as real;
    if frac < 0.5 then f
    else if frac > 0.5 then f + 1
    else if f % 2 == 0 then f
    else f + 1
  }

  lemma RoundHalfEvenOfInt(k: int)
    ensures RoundHalfEven(k as real) == k
  {
  }

  /** Rounding never reverses the order of two numbers. */
  lemma RoundHalfEvenMonotone(x: real, y: real)
    requires x <= y
    ensures RoundHalfEven(x) <= RoundHalfEven(y)
  {
  }

  lemma DivideLe(a: real, b: real, p: real)
    requires a <= b && p > 0.0
    ensures a / p <= b / p
  {
    assert b / p - a / p == (b - a) / p;
  }

  lemma MultiplyLe(a: real, b: real, p: real)
    requires a <= b && p >= 0.0
    ensures a * p <= b * p
  {
    assert b * p - a * p == (b - a) * p;
  }

  /** `round(x, d)`, written with the scale `10^d` as a real. */
  function RoundAt(x: real, scale: real): real
    requires scale > 0.0
  {
    RoundHalfEven(x * scale) as real / scale
  }

  lemma RoundAtUnfold(x: real, scale: real)
    requires scale > 0.0
    ensures RoundAt(x, scale) == RoundHalfEven(x * scale) as real / scale
  {
  }

  /** `round(x, 2)`: the quote generator's size precision. */
  function Round2(x: real): real { RoundAt(x, 100.0) }

  /** `round(x, 4)`: the precision `OrderBookLevel` and `Quote` prices are kept at. */
  function Round4(x: real): real { RoundAt(x, 10000.0) }

  /** A number with at most d decimals is unchanged by `round(x, d)`. */
  lemma RoundAtExact(k: int, scale: real)
    requires scale > 0.0
    ensures RoundAt(k as real / scale, scale) == k as real / scale
  {
    var y := k as real / scale;
    assert y * scale == k as real;
    RoundHalfEvenOfInt(k);
    assert RoundHalfEven(y * scale) == k;
    RoundAtUnfold(y, scale);
  }

  /** `round(x, d)` moves x by at most half a unit of the d-th decimal. */
  lemma RoundAtError(x: real, scale: real)
    requires scale > 0.0
    ensures x - 0.5 / scale <= RoundAt(x, scale) <= x + 0.5 / scale
  {
    var n := RoundHalfEven(x * scale) as real;
    DivideLe(n - 0.5, x * scale, scale);
    DivideLe(x * scale, n + 0.5, scale);
    assert (n - 0.5) / scale == n / scale - 0.5 / scale;
    assert (n + 0.5) / scale == n / scale + 0.5 / scale;
    assert (x * scale) / scale == x;
  }

  lemma RoundAtMonotone(x: real, y: real, scale: real)
    requires x <= y && scale > 0.0
    ensures RoundAt(x, scale) <= RoundAt(y, scale)
  {
    MultiplyLe(x, y, scale);
    RoundHalfEvenMonotone(x * scale, y * scale);
    DivideLe(RoundHalfEven(x * scale) as real, RoundHalfEven(y * scale) as real, scale);
  }

  /** `round(x / tick) * tick`: the quote generator's snap to the tick grid. */
  function RoundToTick(x: real, tick: real): real
    requires tick != 0.0
  {
    RoundHalfEven(x / tick) as real * tick
  }

  lemma RoundToTickUnfold(x: real, tick: real)
    requires tick != 0.0
    ensures RoundToTick(x, tick) == RoundHalfEven(x / tick) as real * tick
  {
  }

  lemma HalfTickBelow(x: real, q: real, n: real, tick: real)
    requires tick > 0.0 && q * tick == x && n - 0.5 <= q
    ensures n * tick <= x + tick / 2.0
  {
    var lo, nt := n - 0.5, n * tick;
    MultiplyLe(lo, q, tick);
    assert lo * tick == nt - tick / 2.0;
  }

  lemma HalfTickAbove(x: real, q: real, n: real, tick: real)
    requires tick > 0.0 && q * tick == x && q <= n + 0.5
    ensures x - tick / 2.0 <= n * tick
  {
    var hi, nt := n + 0.5, n * tick;
    MultiplyLe(q, hi, tick);
    assert hi * tick == nt + tick / 2.0;
  }

  /** Snapping to a positive tick moves a price by at most half a tick. */
  lemma RoundToTickError(x: real, tick: real)
    requires tick > 0.0
    ensures x - tick / 2.0 <= RoundToTick(x, tick) <= x + tick / 2.0
  {
    HalfTickBelow(x, x / tick, RoundHalfEven(x / tick) as real, tick);
    HalfTickAbove(x, x / tick, RoundHalfEven(x / tick) as real, tick);
    RoundToTickUnfold(x, tick);
  }

  /** Snapping to a positive tick keeps the order of two prices. */
  lemma RoundToTickMonotone(x: real, y: real, tick: real)
    requires tick > 0.0 && x <= y
    ensures RoundToTick(x, tick) <= RoundToTick(y, tick)
  {
    DivideLe(x, y, tick);
    RoundHalfEvenMonotone(x / tick, y / tick);
    MultiplyLe(RoundHalfEven(x / tick) as real, RoundHalfEven(y / tick) as real, tick);
  }

  /** A price already on the tick grid is left where it is. */
  /** A snapped price is already on the grid, so snapping it again changes nothing. */
  lemma RoundToTickIdempotent(x: real, tick: real)
    requires tick != 0.0
    ensures RoundToTick(RoundToTick(x, tick), tick) == RoundToTick(x, tick)
  {
    var k := RoundHalfEven(x / tick);
    RoundToTickUnfold(x, tick);
    assert RoundToTick(x, tick) == k as real * tick;
    RoundToTickOnGrid(k, tick);
    assert RoundToTick(k as real * tick, tick) == k as real * tick;
  }

  lemma RoundToTickOnGrid(k: int, tick: real)
    requires tick != 0.0
    ensures RoundToTick(k as real * tick, tick) == k as real * tick
  {
    assert (k as real * tick) / tick == k as real;
    RoundHalfEvenOfInt(k);
  }
}
