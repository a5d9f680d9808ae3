/**
 * Real-number helpers shared by the steering and frame-step models.
 *
 * The browser's Math.sqrt, Math.atan2, Math.cos and Math.sin are not given
 * concrete definitions: they are fields of a MathLib value passed to every
 * operation that calls them, so every property proved about the game holds
 * for every choice of those functions. The one law some proofs assume about
 * sqrt is SqrtLaw below; no law is assumed about atan2, cos or sin.
 */
module Numeric {

  datatype MathLib = MathLib(
    sqrt: real -> real,
    atan2: (real, real) -> real,
    cos: real -> real,
    sin: real -> real)

  /**
   * What the proofs need of Math.sqrt: the root of 0 is 0 and the root of a
   * positive number is positive. The true square root satisfies this, and so
   * does every function that agrees with it in sign.
   */
  ghost predicate SqrtLaw(sqrt: real -> real) {
    && sqrt(0.0) == 0.0
    && forall x :: 0.0 < x ==> 0.0 < sqrt(x)
  }

  /** Math.abs */
  function Abs(x: real): real {
    if x < 0.0 then -x else x
  }

  /** Math.max on two arguments */
  function Max(a: real, b: real): real {
    if a < b then b else a
  }

  /** Math.min on two arguments */
  function Min(a: real, b: real): real {
    if a < b then a else b
  }

  /** -1, 0 or 1 according to the sign of x */
  function Sign(x: real): int {
    if x < 0.0 then -1 else if x == 0.0 then 0 else 1
  }

  /** Length of the vector (dx, dy), computed as sqrt(dx*dx + dy*dy) */
  function Hypot(m: MathLib, dx: real, dy: real): real {
    m.sqrt(dx * dx + dy * dy)
  }

  /** Under the square-root law a length is non-negative, and it is zero exactly for the zero vector. */
  lemma HypotZeroIff(m: MathLib, dx: real, dy: real)
    requires SqrtLaw(m.sqrt)
    ensures 0.0 <= Hypot(m, dx, dy)
    ensures Hypot(m, dx, dy) == 0.0 <==> dx == 0.0 && dy == 0.0
  {
    if dx == 0.0 && dy == 0.0 {
      assert dx * dx + dy * dy == 0.0;
    } else if dx != 0.0 {
      assert 0.0 < dx * dx + dy * dy;
    } else {
      assert 0.0 < dx * dx + dy * dy;
    }
  }

  /** A step of (d / len) * k keeps the sign of d when len and k are positive. */
  lemma ScaledDirectionSign(d: real, len: real, k: real)
    requires 0.0 < len && 0.0 < k
    ensures Sign((d / len) * k) == Sign(d)
  {
  }
}
