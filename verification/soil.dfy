/**
 * The single input record every analysis reads, and the rounding the
 * analyses share.
 */
module Soil {

  datatype Option<+T> = None | Some(value: T)

  /** One farm's soil and weather readings, as submitted by the form. */
  datatype SoilData = SoilData(
    nitrogen: real,     // mg/kg
    phosphorus: real,   // mg/kg
    potassium: real,    // mg/kg
    ph: real,
    temperature: real,  // degrees Celsius
    humidity: real,     // percent
    rainfall: real,     // mm
    location: string,
    farmSize: real      // acres
  )

  /** A closed interval [lo, hi]: the optimal ranges and bands of the readings. */
  datatype Range = Range(lo: real, hi: real)

  predicate In(x: real, r: Range)
  {
    r.lo <= x <= r.hi
  }

  /**
   * JavaScript's Math.round: the nearest integer, halves rounded up
   * (towards positive infinity, so -2.5 rounds to -2).
   */
  function Round(x: real): (r: int)
    ensures r as real - 0.5 <= x < r as real + 0.5
  {
    (x + 0.5).Floor
  }

  /** Rounding an integer-valued real gives that integer back. */
  lemma RoundOfInt(k: int)
    ensures Round(k as real) == k
  {
    var r := Round(k as real);
    assert r as real - 0.5 <= k as real < r as real + 0.5;
  }

  /** Rounding never decreases as its argument grows. */
  lemma RoundMonotone(x: real, y: real)
    requires x <= y
    ensures Round(x) <= Round(y)
  {
  }

  /** A non-negative argument rounds to a non-negative integer. */
  lemma RoundNonNegative(x: real)
    requires x >= 0.0
    ensures Round(x) >= 0
  {
    RoundMonotone(0.0, x);
    RoundOfInt(0);
  }
}
