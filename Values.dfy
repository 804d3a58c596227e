/** Exact results with an explicit "undefined" value.

    The engines report an expected value that is undefined when the shoe
    holds too few cards; the arithmetic below lets an undefined operand
    absorb every sum, difference and scaling it takes part in.
 */
module Values {

  datatype Value = Undefined | Defined(v: real)

  predicate IsFinite(x: Value)
  {
    x.Defined?
  }

  function Plus(x: Value, y: Value): Value
  {
    if x.Defined? && y.Defined? then Defined(x.v + y.v) else Undefined
  }

  function Minus(x: Value, y: Value): Value
  {
    if x.Defined? && y.Defined? then Defined(x.v - y.v) else Undefined
  }

  /** Multiplication by a finite factor. */
  function Scale(k: real, x: Value): Value
  {
    if x.Defined? then Defined(k * x.v) else Undefined
  }

  function Abs(x: real): real
  {
    if x < 0.0 then -x else x
  }

  /** The absolute tolerance of the probability-sum guard. */
  const Tolerance: real := 0.000000001

  /** Adding two quotients over one common denominator. */
  lemma AddQuotients(x: real, y: real, d: real)
    requires d != 0.0
    ensures x / d + y / d == (x + y) / d
  {
  }

  /** One more term of a sum of products with a common factor m. */
  lemma ProductStep(m: int, total': int, total: int, w: int, x: int, y: int, z: int)
    requires total' == total + w && total == m * x && w == m * y && z == x + y
    ensures total' == m * z
  {
  }

  lemma AddProductsRight(x: int, y: int, m: int, u: int, v: int)
    requires u == x * m && v == y * m
    ensures u + v == (x + y) * m
  {
  }

  lemma ScaleQuotient(k: real, x: real, d: real)
    requires d != 0.0
    ensures (k * x) / d == k * (x / d)
  {
  }

  lemma NonNegativeQuotient(x: real, d: real)
    requires x >= 0.0 && d > 0.0
    ensures x / d >= 0.0
  {
  }

  lemma UnitQuotient(d: real)
    requires d != 0.0
    ensures d / d == 1.0
  {
  }

  lemma PositiveProduct(x: int, y: int)
    requires x > 0 && y > 0
    ensures x * y > 0
  {
  }
}
