/**
 * Floating-point values. Finite floats are modelled as `real` (rounding is not
 * modelled); every infinity or NaN that numpy produces instead of raising is
 * collapsed into `NonFinite`.
 */
module Floats {
  import opened Wrappers

  datatype Float = Finite(value: real) | NonFinite

  /**
   * The float primitives the core calls but that are not written out here:
   * `numpy.exp`, the power operator on a fractional exponent, Python's
   * `str()` of a float, and Python's `float()` of a string.
   */
  datatype FloatOps = FloatOps(
    exp: real -> Float,
    pow: (real, real) -> Float,
    repr: real -> string,
    parse: string -> Option<Float>)

  /** The two facts of real analysis that some lemmas rely on: e^0 = 1 and 1^k = 1. */
  ghost predicate ExpAndPowAtUnit(ops: FloatOps)
  {
    && ops.exp(0.0) == Finite(1.0)
    && forall k :: ops.pow(1.0, k) == Finite(1.0)
  }

  /** The double nearest to pi (`math.pi`), written out exactly. */
  const Pi: real := 3.141592653589793115997963468544185161590576171875

  /** `math.radians`: degrees times pi / 180. */
  function Radians(degrees: real): (r: real)
    ensures degrees == 0.0 ==> r == 0.0
    ensures degrees > 0.0 ==> r > 0.0
  {
    degrees * (Pi / 180.0)
  }

  function Add(a: Float, b: Float): (r: Float)
    ensures r.Finite? <==> a.Finite? && b.Finite?
  {
    if a.Finite? && b.Finite? then Finite(a.value + b.value) else NonFinite
  }

  function Sub(a: Float, b: Float): (r: Float)
    ensures r.Finite? <==> a.Finite? && b.Finite?
  {
    if a.Finite? && b.Finite? then Finite(a.value - b.value) else NonFinite
  }

  function Mul(a: Float, b: Float): (r: Float)
    ensures r.Finite? <==> a.Finite? && b.Finite?
  {
    if a.Finite? && b.Finite? then Finite(a.value * b.value) else NonFinite
  }

  /** numpy float division: a zero divisor gives inf or NaN rather than an exception. */
  function Div(a: Float, b: Float): (r: Float)
    ensures r.Finite? <==> a.Finite? && b.Finite? && b.value != 0.0
    ensures r.Finite? ==> r.value * b.value == a.value
  {
    if a.Finite? && b.Finite? && b.value != 0.0 then Finite(a.value / b.value) else NonFinite
  }

  function Exp(ops: FloatOps, a: Float): Float
  {
    if a.Finite? then ops.exp(a.value) else NonFinite
  }

  function Pow(ops: FloatOps, a: Float, k: real): Float
  {
    if a.Finite? then ops.pow(a.value, k) else NonFinite
  }
}
