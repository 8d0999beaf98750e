/**
 * Conversion of ForceEffect lengths into centimetres, the internal length unit
 * of the Fusion API (`afeVal2cm`).
 */
module Units {

  /** The multiplier that converts one unit of `unit` into centimetres. */
  function Factor(unit: string): (f: real)
    ensures f > 0.0
    ensures unit !in {"ft", "in", "mm", "m"} ==> f == 1.0
  {
    if unit == "ft" then 30.48
    else if unit == "in" then 2.54
    else if unit == "mm" then 0.1
    else if unit == "m" then 100.0
    else 1.0
  }

  /**
   * Feet go through inches (×12, then ×2.54), millimetres are divided by 10,
   * metres multiplied by 100; any other unit string leaves the value as it is
   * (the source's permissive fallback).
   */
  function ToCm(unit: string, value: real): (r: real)
    ensures r == Factor(unit) * value
  {
    if unit == "ft" then value * 12.0 * 2.54
    else if unit == "in" then value * 2.54
    else if unit == "mm" then value / 10.0
    else if unit == "m" then value * 100.0
    else value
  }

  /** Every unit converts linearly: sums and scalar multiples are preserved. */
  lemma ToCmLinear(unit: string, a: real, b: real, k: real)
    ensures ToCm(unit, a + b) == ToCm(unit, a) + ToCm(unit, b)
    ensures ToCm(unit, k * a) == k * ToCm(unit, a)
    ensures ToCm(unit, 0.0) == 0.0
  {
    var f := Factor(unit);
    assert f * (k * a) == k * (f * a);
  }

  /** Conversion preserves strict order, because every factor is positive. */
  lemma ToCmMonotonic(unit: string, a: real, b: real)
    requires a < b
    ensures ToCm(unit, a) < ToCm(unit, b)
  {
    var f := Factor(unit);
    assert f * b - f * a == f * (b - a);
  }

  /** Unknown units are the identity. */
  lemma ToCmUnknownUnit(unit: string, value: real)
    requires unit !in {"ft", "in", "mm", "m"}
    ensures ToCm(unit, value) == value
  {
  }

  /** The four known factors, as the source writes them. */
  lemma KnownFactors()
    ensures Factor("ft") == 12.0 * 2.54 == 30.48
    ensures Factor("in") == 2.54
    ensures Factor("mm") == 1.0 / 10.0
    ensures Factor("m") == 100.0
  {
  }
}
