/** Helpers on real numbers shared by the sensor-driven views. */
module Reals {
  /** The absolute value of `x`. */
  function Abs(x: real): (a: real)
    ensures 0.0 <= a && (a == x || a == -x)
  {
    if x < 0.0 then -x else x
  }
}
