/** Quantities that the scripts let be infinite (`float("inf")`): a real or infinity. */
module Bounds {

  datatype ExtReal = Finite(value: real) | Infinity

  /** `x <= b`, where every real is below infinity. */
  predicate AtMost(x: real, b: ExtReal)
  {
    b.Infinity? || x <= b.value
  }

  /** `x < b`, where every real is below infinity and infinity is not below itself. */
  predicate Below(x: ExtReal, b: ExtReal)
  {
    match (x, b)
    case (Finite(u), Finite(v)) => u < v
    case (Finite(_), Infinity) => true
    case (Infinity, _) => false
  }

  /** Python's `min(b, n)` for a possibly infinite `b` and a finite `n`. */
  function Min(b: ExtReal, n: real): (r: real)
    ensures r <= n && AtMost(r, b)
    ensures r == n || (b.Finite? && r == b.value)
    ensures b.Infinity? ==> r == n
  {
    if b.Finite? && b.value <= n then b.value else n
  }
}
