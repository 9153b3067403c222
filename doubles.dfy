/**
 * Swift's `Double` as the equation evaluator uses it: exact real numbers
 * together with the three non-finite IEEE 754 values.  Rounding and the sign
 * of zero are not modelled; everything else follows IEEE 754 propagation.
 */
module Doubles {
  datatype Double = Finite(x: real) | PosInf | NegInf | NaN

  const Zero: Double := Finite(0.0)
  const One: Double := Finite(1.0)
  const MinusOne: Double := Finite(-1.0)

  /** -1, 0 or 1 for a value that is not NaN. */
  function Sign(a: Double): int
  {
    match a
    case Finite(x) => if x > 0.0 then 1 else if x < 0.0 then -1 else 0
    case PosInf => 1
    case NegInf => -1
    case NaN => 0
  }

  function Negate(a: Double): Double
  {
    match a
    case Finite(x) => Finite(-x)
    case PosInf => NegInf
    case NegInf => PosInf
    case NaN => NaN
  }

  /** IEEE 754 addition: infinities absorb finite values, opposite infinities give NaN. */
  function Add(a: Double, b: Double): Double
  {
    if a.NaN? || b.NaN? then NaN
    else if a.Finite? && b.Finite? then Finite(a.x + b.x)
    else if (a.PosInf? && b.NegInf?) || (a.NegInf? && b.PosInf?) then NaN
    else if a.PosInf? || b.PosInf? then PosInf
    else NegInf
  }

  function Subtract(a: Double, b: Double): Double
  {
    Add(a, Negate(b))
  }

  /** IEEE 754 multiplication: an infinity times zero is NaN. */
  function Multiply(a: Double, b: Double): Double
  {
    if a.NaN? || b.NaN? then NaN
    else if a.Finite? && b.Finite? then Finite(a.x * b.x)
    else if Sign(a) == 0 || Sign(b) == 0 then NaN
    else if Sign(a) == Sign(b) then PosInf
    else NegInf
  }

  /** IEEE 754 division by a divisor other than zero. */
  function Divide(a: Double, b: Double): Double
    requires b != Zero
  {
    if a.NaN? || b.NaN? then NaN
    else if a.Finite? && b.Finite? then Finite(a.x / b.x)
    else if !a.Finite? && !b.Finite? then NaN
    else if a.Finite? then Zero
    else if Sign(a) == Sign(b) then PosInf
    else NegInf
  }

  /** IEEE 754 `<`: false whenever an operand is NaN. */
  predicate Less(a: Double, b: Double)
  {
    match (a, b)
    case (Finite(x), Finite(y)) => x < y
    case (NegInf, _) => b.Finite? || b.PosInf?
    case (_, PosInf) => a.Finite?
    case _ => false
  }

  /** IEEE 754 `==`: NaN equals nothing, not even itself. */
  predicate Equal(a: Double, b: Double)
  {
    !a.NaN? && a == b
  }

  predicate LessOrEqual(a: Double, b: Double)
  {
    Less(a, b) || Equal(a, b)
  }
}
