/** Numeric helpers: doubles are modelled as reals. */
module Numeric {

  /** std::numeric_limits<double>::max(), the largest finite double. */
  const MaxDouble: real := 1.7976931348623157e308

  /** std::abs on doubles. */
  function Abs(x: real): real
  {
    if x < 0.0 then -x else x
  }

  /** std::min(a, b): returns `a` unless `b < a`. */
  function Min(a: real, b: real): real
  {
    if b < a then b else a
  }

  /** std::max(a, b): returns `a` unless `a < b`. */
  function Max(a: real, b: real): real
  {
    if a < b then b else a
  }
}
