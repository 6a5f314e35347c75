/** Small shared vocabulary: optional values, absolute value, maximum and minimum. */
module Common {
  datatype Option<+T> = None | Some(value: T)

  /** fabs, fmax and fmin over idealised floats. */
  function Abs(x: real): real { if x < 0.0 then -x else x }
  function Max(x: real, y: real): real { if x < y then y else x }
  function Min(x: real, y: real): real { if y < x then y else x }

  /** Integer conversion of a C-family cast: truncation toward zero. */
  function Trunc(x: real): int {
    if x >= 0.0 then x.Floor else -((-x).Floor)
  }

  /** Integer division of a C-family language: truncation toward zero. */
  function Quotient(a: int, b: int): int
    requires b > 0
  {
    if a >= 0 then a / b else -((-a) / b)
  }

  /** A set inside another one is no larger, and is the whole when the sizes agree. */
  lemma SubsetSize<T>(a: set<T>, b: set<T>)
    requires a <= b
    ensures |a| <= |b|
    ensures |a| == |b| ==> a == b
  {
    assert b == a + (b - a);
  }

  lemma MulEq(a: real, b: real, c: real)
    requires b == c
    ensures a * b == a * c && b * a == c * a
  {
  }

  /** The square roots of numbers that are not negative. */
  ghost predicate IsSqrt(sqrt: real -> real) {
    forall t :: t >= 0.0 ==> sqrt(t) >= 0.0 && sqrt(t) * sqrt(t) == t
  }

  /** A product of a number with itself is not negative, and is zero only for zero. */
  lemma SquareSign(y: real, z: real, s: real)
    requires y == z && s == y * z
    ensures s >= 0.0 && (s <= 0.0 ==> y == 0.0)
  {
    if y > 0.0 {
      assert y * z > 0.0;
    } else if y < 0.0 {
      assert y * z > 0.0;
    } else {
      assert y * z == 0.0;
    }
  }
}
