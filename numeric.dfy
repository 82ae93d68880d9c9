/** Scalar helpers shared by every geometric module (scadder_math/src/lib.rs). */
module Numeric {
  function Abs(x: real): (r: real)
    ensures r >= 0.0
    ensures r == x || r == -x
  {
    if x < 0.0 then -x else x
  }

  /** `approx_eq`: `a` and `b` lie strictly closer than `epsilon`. */
  predicate ApproxEq(a: real, b: real, epsilon: real)
  {
    Abs(a - b) < epsilon
  }

  /** `approx_eq` holds exactly when `a` lies in the open interval of radius
      `epsilon` around `b`. */
  lemma ApproxEqInterval(a: real, b: real, epsilon: real)
    ensures ApproxEq(a, b, epsilon) <==> b - epsilon < a < b + epsilon
  {
  }

  /** `approx_eq` is symmetric, reflexive for positive tolerances and never
      holds for a non-positive tolerance. */
  lemma ApproxEqProperties(a: real, b: real, epsilon: real)
    ensures ApproxEq(a, b, epsilon) == ApproxEq(b, a, epsilon)
    ensures ApproxEq(a, a, epsilon) <==> epsilon > 0.0
    ensures epsilon <= 0.0 ==> !ApproxEq(a, b, epsilon)
  {
  }

  /** A square is never negative. */
  lemma SquareNonNegative(u: real)
    ensures u * u >= 0.0
  {
    if u < 0.0 {
      assert (-u) * (-u) > 0.0;
    }
  }

  /** The transcendental part of the numeric environment. Sine and cosine of
      an angle in degrees (`dsin`, `dcos`), the square root, and the
      normalisation of a 3-vector (division by its square-root length, which
      yields NaN for the zero vector) are not modelled numerically: every
      function that needs them receives them through this record. */
  datatype Trig = Trig(
    dsin: real -> real,
    dcos: real -> real,
    sqrt: real -> real,
    unit3: (real, real, real) -> (real, real, real))

  /** The Pythagorean identity at one angle; lemmas about rotations assume it
      only where they need it. */
  predicate Pythagorean(t: Trig, degrees: real)
  {
    t.dcos(degrees) * t.dcos(degrees) + t.dsin(degrees) * t.dsin(degrees) == 1.0
  }

  /** Cosine is even and sine is odd at one angle. */
  predicate Symmetric(t: Trig, degrees: real)
  {
    t.dcos(-degrees) == t.dcos(degrees) && t.dsin(-degrees) == -t.dsin(degrees)
  }

  /** A rotation by zero degrees is exact. */
  predicate ExactAtZero(t: Trig)
  {
    t.dcos(0.0) == 1.0 && t.dsin(0.0) == 0.0
  }
}
