/** Absolute value, extremes and clips of single numbers. */
module Scalars {
  function Abs(x: real): (r: real)
    ensures r >= 0.0 && (r == x || r == -x)
  {
    if x < 0.0 then -x else x
  }

  function Max(x: real, y: real): real { if x < y then y else x }

  function Min(x: real, y: real): real { if y < x then y else x }

  /** numpy's clip: the upper bound wins when the bounds cross. */
  function Clamp(x: real, lo: real, hi: real): real { Min(Max(x, lo), hi) }

  /** How far two integers are apart. */
  function Distance(x: int, y: int): nat { if x < y then y - x else x - y }
}
