/** Optional values, and the quotient used where the source's divisor may be zero. */
module Options {
  datatype Option<+T> = None | Some(value: T)

  /** x / y, and 0 when y is 0. */
  function Ratio(x: real, y: real): real
  {
    if y == 0.0 then 0.0 else x / y
  }

  lemma RatioTimes(x: real, y: real)
    requires y != 0.0
    ensures Ratio(x, y) * y == x
  {
  }
}
