/** Doubles up to rounding, with the non-finite values. */
module Floats {
  /** A double, up to rounding. */
  datatype Float = NaN | NegInf | Fin(r: real) | PosInf

  function Plus(a: Float, b: Float): Float {
    if a.NaN? || b.NaN? then NaN
    else if a.Fin? && b.Fin? then Fin(a.r + b.r)
    else if a.Fin? then b
    else if b.Fin? || a == b then a
    else NaN
  }

  /** `a >= b`, false whenever either side is NaN. */
  predicate AtLeast(a: Float, b: Float) {
    && !a.NaN? && !b.NaN?
    && (a.PosInf? || b.NegInf? || (a.Fin? && b.Fin? && a.r >= b.r))
  }

  /** `Math.max`: NaN when either argument is. */
  function JsMax(a: Float, b: Float): Float {
    if a.NaN? || b.NaN? then NaN else if AtLeast(a, b) then a else b
  }
}
