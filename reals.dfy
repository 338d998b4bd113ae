/** Arithmetic on reals shared by the mapping and the distortion stages. */
module Reals {
  /** The absolute value: `fabs` on a sample, or `abs` on the popped messages' mean. */
  function Abs(x: real): real {
    if x < 0.0 then -x else x
  }
}
