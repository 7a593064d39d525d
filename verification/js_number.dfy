/**
  Numbers as the trading bot's JavaScript sees them.

  A value is finite (kept exact, as a real), NaN, or one of the two infinities.
  `undefined` -- what an indicator array yields when it is too short -- behaves
  as NaN in arithmetic and in `<` / `>`, so it is represented by `NaN` too.
  Floating-point rounding and the sign of zero are not modelled.
 */
module JsNumber {

  datatype Num = Finite(v: real) | NaN | PosInf | NegInf

  /** Position on the extended number line; meaningful only for non-NaN values. */
  function Rank(a: Num): int {
    match a
    case NegInf => 0
    case Finite(_) => 1
    case PosInf => 2
    case NaN => 1
  }

  /** Sign of a non-NaN value: -1, 0 or 1. */
  function Sign(a: Num): int {
    match a
    case Finite(x) => if x > 0.0 then 1 else if x < 0.0 then -1 else 0
    case PosInf => 1
    case NegInf => -1
    case NaN => 0
  }

  function Infinity(sign: int): Num {
    if sign > 0 then PosInf else NegInf
  }

  /** `-a` */
  function Neg(a: Num): Num {
    match a
    case Finite(x) => Finite(-x)
    case NaN => NaN
    case PosInf => NegInf
    case NegInf => PosInf
  }

  /** `a + b` */
  function Add(a: Num, b: Num): Num {
    if a.NaN? || b.NaN? then NaN
    else if a.Finite? && b.Finite? then Finite(a.v + b.v)
    else if a.Finite? then b
    else if b.Finite? || a == b then a
    else NaN  // Infinity + -Infinity
  }

  /** `a - b` */
  function Sub(a: Num, b: Num): Num {
    Add(a, Neg(b))
  }

  /** `a * b` */
  function Mul(a: Num, b: Num): Num {
    if a.NaN? || b.NaN? then NaN
    else if a.Finite? && b.Finite? then Finite(a.v * b.v)
    else if Sign(a) == 0 || Sign(b) == 0 then NaN  // Infinity * 0
    else Infinity(Sign(a) * Sign(b))
  }

  /** `a / b` */
  function Div(a: Num, b: Num): Num {
    if a.NaN? || b.NaN? then NaN
    else if b == Finite(0.0) then (if Sign(a) == 0 then NaN else Infinity(Sign(a)))
    else if b.Finite? then (if a.Finite? then Finite(a.v / b.v) else Infinity(Sign(a) * Sign(b)))
    else if a.Finite? then Finite(0.0)
    else NaN  // Infinity / Infinity
  }

  /** `Math.abs(a)` */
  function Abs(a: Num): Num {
    match a
    case Finite(x) => Finite(if x < 0.0 then -x else x)
    case NaN => NaN
    case PosInf => PosInf
    case NegInf => PosInf
  }

  /** `a < b`: false whenever either side is NaN. */
  predicate Less(a: Num, b: Num) {
    if a.NaN? || b.NaN? then false
    else if a.Finite? && b.Finite? then a.v < b.v
    else Rank(a) < Rank(b)
  }

  /** `a <= b`: false whenever either side is NaN. */
  predicate LessEq(a: Num, b: Num) {
    if a.NaN? || b.NaN? then false
    else if a.Finite? && b.Finite? then a.v <= b.v
    else Rank(a) <= Rank(b)
  }

  /** `a > b` */
  predicate Greater(a: Num, b: Num) {
    Less(b, a)
  }

  /** `a >= b` */
  predicate GreaterEq(a: Num, b: Num) {
    LessEq(b, a)
  }

  /** For values that are not NaN, `a >= b` is exactly `!(a < b)`; NaN is where the two part. */
  lemma NotLessIsGreaterEq(a: Num, b: Num)
    requires !a.NaN? && !b.NaN?
    ensures !Less(a, b) <==> GreaterEq(a, b)
  {
  }
}
