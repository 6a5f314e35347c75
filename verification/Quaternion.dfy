/**
 * Quaternions of 3D/Math.h: DXQuaternionMultiply, the rotation matrix of a unit quaternion, and the quaternion read
 * back from the matrix of one.
 */
module Quaternions {
  import opened Common
  import opened MatrixAlgebra
  import opened MatrixRoutines

  datatype Quaternion = Quaternion(x: real, y: real, z: real, w: real)

  // ---------------------------------------------------------------------------------------------
  // Textbook definitions.

  function ScalarPart(d: real, h: real, a: real, e: real, b: real, f: real, c: real, g: real): real {
    d * h - (a * e + b * f + c * g)
  }

  function VectorPart(d: real, e: real, h: real, a: real, b: real, g: real, c: real, f: real): real {
    d * e + h * a + (b * g - c * f)
  }

  /** Hamilton's product in scalar and vector parts: w w' - v.v', and w v' + w' v + v x v'. */
  function Hamilton(p: Quaternion, q: Quaternion): Quaternion {
    Quaternion(VectorPart(p.w, q.x, q.w, p.x, p.y, q.z, p.z, q.y),
               VectorPart(p.w, q.y, q.w, p.y, p.z, q.x, p.x, q.z),
               VectorPart(p.w, q.z, q.w, p.z, p.x, q.y, p.y, q.x),
               ScalarPart(p.w, q.w, p.x, q.x, p.y, q.y, p.z, q.z))
  }

  function SumOfSquares(a: real, b: real, c: real, d: real): real { a * a + b * b + c * c + d * d }

  function NormSquared(q: Quaternion): real { SumOfSquares(q.x, q.y, q.z, q.w) }

  function Conjugate(q: Quaternion): Quaternion { Quaternion(-q.x, -q.y, -q.z, q.w) }

  function Negated(q: Quaternion): Quaternion { Quaternion(-q.x, -q.y, -q.z, -q.w) }

  const ONE: Quaternion := Quaternion(0.0, 0.0, 0.0, 1.0)

  predicate Unit(q: Quaternion) { NormSquared(q) == 1.0 }

  /** The vector (a, b, c) turned by q: the quaternion q v q*. */
  function Turned(q: Quaternion, v: Quaternion): Quaternion {
    Hamilton(Hamilton(q, v), Conjugate(q))
  }

  function Kept(n: real, y: real, z: real): real { n - 2.0 * (y * y + z * z) }

  function Mixed(x: real, y: real, z: real, w: real): real { 2.0 * (x * y + z * w) }

  function Unmixed(x: real, y: real, z: real, w: real): real { 2.0 * (x * y - z * w) }

  /** What DXMatrixRotationQuaternion stores. */
  function Rotation(q: Quaternion): Matrix {
    Matrix(Row(Kept(1.0, q.y, q.z), Mixed(q.x, q.y, q.z, q.w), Unmixed(q.x, q.z, q.y, q.w), 0.0),
           Row(Unmixed(q.x, q.y, q.z, q.w), Kept(1.0, q.x, q.z), Mixed(q.y, q.z, q.x, q.w), 0.0),
           Row(Mixed(q.x, q.z, q.y, q.w), Unmixed(q.y, q.z, q.x, q.w), Kept(1.0, q.x, q.y), 0.0),
           Row(0.0, 0.0, 0.0, 1.0))
  }

  // ---------------------------------------------------------------------------------------------
  // The product.

  /** Euler's four-square identity. */
  lemma FourSquares(a: real, b: real, c: real, d: real, e: real, f: real, g: real, h: real)
    ensures SumOfSquares(VectorPart(d, e, h, a, b, g, c, f), VectorPart(d, f, h, b, c, e, a, g),
                         VectorPart(d, g, h, c, a, f, b, e), ScalarPart(d, h, a, e, b, f, c, g))
         == SumOfSquares(a, b, c, d) * SumOfSquares(e, f, g, h)
  {
    FourSquaresExpanded(a, b, c, d, e, f, g, h);
    SumsTimes(SumOfSquares(a, b, c, d), SumOfSquares(e, f, g, h), a * a + b * b + c * c + d * d,
      e * e + f * f + g * g + h * h);
    SquaredParts(a, b, c, d, e, f, g, h);
  }

  lemma SquaredParts(a: real, b: real, c: real, d: real, e: real, f: real, g: real, h: real)
    ensures SumOfSquares(VectorPart(d, e, h, a, b, g, c, f), VectorPart(d, f, h, b, c, e, a, g),
                         VectorPart(d, g, h, c, a, f, b, e), ScalarPart(d, h, a, e, b, f, c, g))
         == (d * e + h * a + (b * g - c * f)) * (d * e + h * a + (b * g - c * f))
          + (d * f + h * b + (c * e - a * g)) * (d * f + h * b + (c * e - a * g))
          + (d * g + h * c + (a * f - b * e)) * (d * g + h * c + (a * f - b * e))
          + (d * h - (a * e + b * f + c * g)) * (d * h - (a * e + b * f + c * g))
  {
    Squares(VectorPart(d, e, h, a, b, g, c, f), VectorPart(d, f, h, b, c, e, a, g),
      VectorPart(d, g, h, c, a, f, b, e), ScalarPart(d, h, a, e, b, f, c, g),
      d * e + h * a + (b * g - c * f), d * f + h * b + (c * e - a * g),
      d * g + h * c + (a * f - b * e), d * h - (a * e + b * f + c * g));
  }

  lemma FourSquaresExpanded(a: real, b: real, c: real, d: real, e: real, f: real, g: real, h: real)
    ensures (d * e + h * a + (b * g - c * f)) * (d * e + h * a + (b * g - c * f))
          + (d * f + h * b + (c * e - a * g)) * (d * f + h * b + (c * e - a * g))
          + (d * g + h * c + (a * f - b * e)) * (d * g + h * c + (a * f - b * e))
          + (d * h - (a * e + b * f + c * g)) * (d * h - (a * e + b * f + c * g))
         == (a * a + b * b + c * c + d * d) * (e * e + f * f + g * g + h * h)
  {
  }

  lemma Squares(a: real, b: real, c: real, d: real, e: real, f: real, g: real, h: real)
    requires a == e && b == f && c == g && d == h
    ensures SumOfSquares(a, b, c, d) == e * e + f * f + g * g + h * h
  {
  }

  lemma SumsTimes(x: real, y: real, a: real, b: real)
    requires x == a && y == b
    ensures x * y == a * b
  {
  }

  /** The norm is multiplicative. */
  lemma NormOfProduct(p: Quaternion, q: Quaternion)
    ensures NormSquared(Hamilton(p, q)) == NormSquared(p) * NormSquared(q)
  {
    FourSquares(p.x, p.y, p.z, p.w, q.x, q.y, q.z, q.w);
  }

  lemma AssociatesVector(a: real, b: real, c: real, d: real, e: real, f: real, g: real, h: real, i: real, j: real,
      k: real, l: real)
    ensures VectorPart(d * h - (a * e + b * f + c * g), i, l, d * e + h * a + (b * g - c * f),
                       d * f + h * b + (c * e - a * g), k, d * g + h * c + (a * f - b * e), j)
         == VectorPart(d, h * i + l * e + (f * k - g * j), h * l - (e * i + f * j + g * k), a,
                       b, h * k + l * g + (e * j - f * i), c, h * j + l * f + (g * i - e * k))
  {
  }

  lemma AssociatesScalar(a: real, b: real, c: real, d: real, e: real, f: real, g: real, h: real, i: real, j: real,
      k: real, l: real)
    ensures ScalarPart(d * h - (a * e + b * f + c * g), l, d * e + h * a + (b * g - c * f), i,
                       d * f + h * b + (c * e - a * g), j, d * g + h * c + (a * f - b * e), k)
         == ScalarPart(d, h * l - (e * i + f * j + g * k), a, h * i + l * e + (f * k - g * j),
                       b, h * j + l * f + (g * i - e * k), c, h * k + l * g + (e * j - f * i))
  {
  }

  /** Renaming the axes in a cycle commutes with the product. */
  function Cycled(q: Quaternion): Quaternion { Quaternion(q.y, q.z, q.x, q.w) }

  lemma ScalarCycled(d: real, h: real, a: real, e: real, b: real, f: real, c: real, g: real)
    ensures ScalarPart(d, h, b, f, c, g, a, e) == ScalarPart(d, h, a, e, b, f, c, g)
  {
  }

  lemma ProductCycled(p: Quaternion, q: Quaternion)
    ensures Hamilton(Cycled(p), Cycled(q)) == Cycled(Hamilton(p, q))
  {
    ScalarCycled(p.w, q.w, p.x, q.x, p.y, q.y, p.z, q.z);
  }

  lemma AssociatesInX(p: Quaternion, q: Quaternion, r: Quaternion)
    ensures Hamilton(Hamilton(p, q), r).x == Hamilton(p, Hamilton(q, r)).x
  {
    AssociatesVector(p.x, p.y, p.z, p.w, q.x, q.y, q.z, q.w, r.x, r.y, r.z, r.w);
  }

  lemma AssociatesInW(p: Quaternion, q: Quaternion, r: Quaternion)
    ensures Hamilton(Hamilton(p, q), r).w == Hamilton(p, Hamilton(q, r)).w
  {
    AssociatesScalar(p.x, p.y, p.z, p.w, q.x, q.y, q.z, q.w, r.x, r.y, r.z, r.w);
  }

  lemma AssociatesInY(p: Quaternion, q: Quaternion, r: Quaternion)
    ensures Hamilton(Hamilton(p, q), r).y == Hamilton(p, Hamilton(q, r)).y
  {
    ProductCycled(p, q); ProductCycled(q, r);
    ProductCycled(Hamilton(p, q), r); ProductCycled(p, Hamilton(q, r));
    AssociatesInX(Cycled(p), Cycled(q), Cycled(r));
  }

  lemma ProductAssociates(p: Quaternion, q: Quaternion, r: Quaternion)
    ensures Hamilton(Hamilton(p, q), r) == Hamilton(p, Hamilton(q, r))
  {
    AssociatesInX(p, q, r);
    AssociatesInY(p, q, r);
    AssociatesInW(p, q, r);
    ProductCycled(p, q); ProductCycled(q, r);
    ProductCycled(Hamilton(p, q), r); ProductCycled(p, Hamilton(q, r));
    AssociatesInY(Cycled(p), Cycled(q), Cycled(r));
  }

  lemma NegatedParts(a: real, b: real, c: real, d: real, e: real, f: real, g: real, h: real)
    ensures VectorPart(h, -a, d, -e, -f, -c, -g, -b) == -VectorPart(d, e, h, a, b, g, c, f)
    ensures ScalarPart(h, d, -e, -a, -f, -b, -g, -c) == ScalarPart(d, h, a, e, b, f, c, g)
  {
  }

  /** Conjugation reverses products. */
  lemma ConjugateOfProduct(p: Quaternion, q: Quaternion)
    ensures Conjugate(Hamilton(p, q)) == Hamilton(Conjugate(q), Conjugate(p))
  {
    NegatedParts(p.x, p.y, p.z, p.w, q.x, q.y, q.z, q.w);
    NegatedParts(p.y, p.z, p.x, p.w, q.y, q.z, q.x, q.w);
    NegatedParts(p.z, p.x, p.y, p.w, q.z, q.x, q.y, q.w);
  }

  lemma ConjugateParts(a: real, b: real, c: real, d: real)
    ensures VectorPart(d, -a, d, a, b, -c, c, -b) == 0.0
    ensures ScalarPart(d, d, a, -a, b, -b, c, -c) == SumOfSquares(a, b, c, d)
  {
  }

  lemma ConjugateIsInverse(q: Quaternion)
    ensures Hamilton(q, Conjugate(q)) == Quaternion(0.0, 0.0, 0.0, NormSquared(q))
  {
    ConjugateParts(q.x, q.y, q.z, q.w);
    ConjugateParts(q.y, q.z, q.x, q.w);
    ConjugateParts(q.z, q.x, q.y, q.w);
  }

  // ---------------------------------------------------------------------------------------------
  // The matrix is the rotation.

  function Combined(a: real, k: real, b: real, l: real, c: real, m: real): real { a * k + b * l + c * m }

  function Sums(a: real, b: real, c: real, d: real, e: real, f: real, g: real, h: real): real {
    a * b + c * d + e * f + g * h
  }

  function Differences(a: real, b: real, c: real, d: real, e: real, f: real, g: real, h: real): real {
    a * b + c * d - e * f - g * h
  }

  lemma BetweenVectorFlat(x: real, y: real, z: real, w: real, p: real, q: real, r: real, s: real, a: real, b: real,
      c: real)
    ensures -(x * a + y * b + z * c) * -p + s * (w * a + (y * c - z * b))
          + ((w * b + (z * a - x * c)) * -r - (w * c + (x * b - y * a)) * -q)
         == a * (x * p + w * s - y * q - z * r) + b * (x * q + y * p - z * s - w * r)
           + c * (x * r + z * p + y * s + w * q)
  {
  }

  /** The x part of (t, i, j, k) times r*, where that is q v for the vector (a, b, c). */
  lemma BetweenVector(x: real, y: real, z: real, w: real, p: real, q: real, r: real, s: real, a: real, b: real, c: real,
    t: real, i: real, j: real, k: real, e: real, f: real, g: real)
    requires t == -(x * a + y * b + z * c) && i == w * a + (y * c - z * b)
    requires j == w * b + (z * a - x * c) && k == w * c + (x * b - y * a)
    requires e == Differences(x, p, w, s, y, q, z, r) && f == Differences(x, q, y, p, z, s, w, r)
    requires g == Sums(x, r, z, p, y, s, w, q)
    ensures VectorPart(t, -p, s, i, j, -r, k, -q) == Combined(a, e, b, f, c, g)
  {
    MulEq(-p, t, -(x * a + y * b + z * c)); MulEq(s, i, w * a + (y * c - z * b));
    MulEq(-r, j, w * b + (z * a - x * c)); MulEq(-q, k, w * c + (x * b - y * a));
    MulEq(a, e, x * p + w * s - y * q - z * r);
    MulEq(b, f, x * q + y * p - z * s - w * r);
    MulEq(c, g, x * r + z * p + y * s + w * q);
    BetweenVectorFlat(x, y, z, w, p, q, r, s, a, b, c);
  }

  lemma BetweenScalarFlat(x: real, y: real, z: real, w: real, p: real, q: real, r: real, s: real, a: real, b: real,
      c: real)
    ensures -(x * a + y * b + z * c) * s
          - ((w * a + (y * c - z * b)) * -p + (w * b + (z * a - x * c)) * -q + (w * c + (x * b - y * a)) * -r)
         == a * (w * p + z * q - x * s - y * r) + b * (w * q + x * r - y * s - z * p)
           + c * (y * p + w * r - z * s - x * q)
  {
  }

  lemma BetweenScalar(x: real, y: real, z: real, w: real, p: real, q: real, r: real, s: real, a: real, b: real, c: real,
    t: real, i: real, j: real, k: real, e: real, f: real, g: real)
    requires t == -(x * a + y * b + z * c) && i == w * a + (y * c - z * b)
    requires j == w * b + (z * a - x * c) && k == w * c + (x * b - y * a)
    requires e == Differences(w, p, z, q, x, s, y, r) && f == Differences(w, q, x, r, y, s, z, p)
    requires g == Differences(y, p, w, r, z, s, x, q)
    ensures ScalarPart(t, s, i, -p, j, -q, k, -r) == Combined(a, e, b, f, c, g)
  {
    MulEq(s, t, -(x * a + y * b + z * c)); MulEq(-p, i, w * a + (y * c - z * b));
    MulEq(-q, j, w * b + (z * a - x * c)); MulEq(-r, k, w * c + (x * b - y * a));
    MulEq(a, e, w * p + z * q - x * s - y * r);
    MulEq(b, f, w * q + x * r - y * s - z * p);
    MulEq(c, g, y * p + w * r - z * s - x * q);
    BetweenScalarFlat(x, y, z, w, p, q, r, s, a, b, c);
  }

  lemma EqualFactors(x: real, y: real, z: real, w: real)
    ensures Differences(x, x, w, w, y, y, z, z) == Kept(SumOfSquares(x, y, z, w), y, z)
    ensures Differences(x, y, y, x, z, w, w, z) == Unmixed(x, y, z, w)
    ensures Sums(x, z, z, x, y, w, w, y) == Mixed(x, z, y, w)
    ensures Differences(w, x, z, y, x, w, y, z) == 0.0 == Differences(w, y, x, z, y, w, z, x)
    ensures Differences(y, x, w, z, z, w, x, y) == 0.0
  {
  }

  lemma NothingCombined(a: real, b: real, c: real)
    ensures Combined(a, 0.0, b, 0.0, c, 0.0) == 0.0
  {
  }

  lemma ThreeRowsCombined(a: real, b: real, c: real,
    k0: real, k1: real, k2: real, l0: real, l1: real, l2: real, n0: real, n1: real, n2: real)
    ensures RowTimes(Row(a, b, c, 0.0), Matrix(Row(k0, k1, k2, 0.0), Row(l0, l1, l2, 0.0), Row(n0, n1, n2, 0.0),
                                               Row(0.0, 0.0, 0.0, 1.0)))
         == Row(Combined(a, k0, b, l0, c, n0), Combined(a, k1, b, l1, c, n1), Combined(a, k2, b, l2, c, n2), 0.0)
  {
    DotOf(a, b, c, 0.0, k0, l0, n0, 0.0);
    DotOf(a, b, c, 0.0, k1, l1, n1, 0.0);
    DotOf(a, b, c, 0.0, k2, l2, n2, 0.0);
    DotOf(a, b, c, 0.0, 0.0, 0.0, 0.0, 1.0);
  }

  lemma RowTimesRotation(q: Quaternion, a: real, b: real, c: real)
    ensures RowTimes(Row(a, b, c, 0.0), Rotation(q))
         == Row(Combined(a, Kept(1.0, q.y, q.z), b, Unmixed(q.x, q.y, q.z, q.w), c, Mixed(q.x, q.z, q.y, q.w)),
                Combined(a, Mixed(q.x, q.y, q.z, q.w), b, Kept(1.0, q.x, q.z), c, Unmixed(q.y, q.z, q.x, q.w)),
                Combined(a, Unmixed(q.x, q.z, q.y, q.w), b, Mixed(q.y, q.z, q.x, q.w), c, Kept(1.0, q.x, q.y)), 0.0)
  {
    ThreeRowsCombined(a, b, c,
      Kept(1.0, q.y, q.z), Mixed(q.x, q.y, q.z, q.w), Unmixed(q.x, q.z, q.y, q.w),
      Unmixed(q.x, q.y, q.z, q.w), Kept(1.0, q.x, q.z), Mixed(q.y, q.z, q.x, q.w),
      Mixed(q.x, q.z, q.y, q.w), Unmixed(q.y, q.z, q.x, q.w), Kept(1.0, q.x, q.y));
  }

  lemma PureParts(x: real, y: real, z: real, w: real, a: real, b: real, c: real)
    ensures VectorPart(w, a, 0.0, x, y, c, z, b) == w * a + (y * c - z * b)
    ensures ScalarPart(w, 0.0, x, a, y, b, z, c) == -(x * a + y * b + z * c)
  {
  }

  lemma TimesPure(q: Quaternion, a: real, b: real, c: real)
    ensures var x, y, z, w := q.x, q.y, q.z, q.w;
      Hamilton(q, Quaternion(a, b, c, 0.0))
      == Quaternion(w * a + (y * c - z * b), w * b + (z * a - x * c), w * c + (x * b - y * a), -(x * a + y * b + z * c))
  {
    PureParts(q.x, q.y, q.z, q.w, a, b, c);
    PureParts(q.y, q.z, q.x, q.w, b, c, a);
    PureParts(q.z, q.x, q.y, q.w, c, a, b);
  }

  lemma TurnedVector(x: real, y: real, z: real, w: real, a: real, b: real, c: real, t: real, i: real, j: real, k: real)
    requires SumOfSquares(x, y, z, w) == 1.0
    requires t == -(x * a + y * b + z * c) && i == w * a + (y * c - z * b)
    requires j == w * b + (z * a - x * c) && k == w * c + (x * b - y * a)
    ensures VectorPart(t, -x, w, i, j, -z, k, -y)
         == Combined(a, Kept(1.0, y, z), b, Unmixed(x, y, z, w), c, Mixed(x, z, y, w))
  {
    EqualFactors(x, y, z, w);
    BetweenVector(x, y, z, w, x, y, z, w, a, b, c, t, i, j, k, Kept(1.0, y, z), Unmixed(x, y, z, w), Mixed(x, z, y, w));
  }

  lemma TurnedScalar(x: real, y: real, z: real, w: real, a: real, b: real, c: real, t: real, i: real, j: real, k: real)
    requires t == -(x * a + y * b + z * c) && i == w * a + (y * c - z * b)
    requires j == w * b + (z * a - x * c) && k == w * c + (x * b - y * a)
    ensures ScalarPart(t, w, i, -x, j, -y, k, -z) == 0.0
  {
    EqualFactors(x, y, z, w);
    BetweenScalar(x, y, z, w, x, y, z, w, a, b, c, t, i, j, k, 0.0, 0.0, 0.0);
    NothingCombined(a, b, c);
  }

  lemma TurnedInX(q: Quaternion, a: real, b: real, c: real)
    requires Unit(q)
    ensures Turned(q, Quaternion(a, b, c, 0.0)).x
         == Combined(a, Kept(1.0, q.y, q.z), b, Unmixed(q.x, q.y, q.z, q.w), c, Mixed(q.x, q.z, q.y, q.w))
  {
    var v := Hamilton(q, Quaternion(a, b, c, 0.0));
    TimesPure(q, a, b, c);
    TurnedVector(q.x, q.y, q.z, q.w, a, b, c, v.w, v.x, v.y, v.z);
  }

  lemma TurnedInW(q: Quaternion, a: real, b: real, c: real)
    ensures Turned(q, Quaternion(a, b, c, 0.0)).w == 0.0
  {
    var v := Hamilton(q, Quaternion(a, b, c, 0.0));
    TimesPure(q, a, b, c);
    TurnedScalar(q.x, q.y, q.z, q.w, a, b, c, v.w, v.x, v.y, v.z);
  }

  lemma TurnedCycled(q: Quaternion, v: Quaternion)
    ensures Turned(Cycled(q), Cycled(v)) == Cycled(Turned(q, v))
  {
    ProductCycled(q, v);
    ProductCycled(Hamilton(q, v), Conjugate(q));
  }

  lemma OrderOfTerms(x: real, y: real, z: real, w: real)
    ensures Kept(w, y, z) == Kept(w, z, y)
    ensures Mixed(x, y, z, w) == Mixed(y, x, z, w) && Unmixed(x, y, z, w) == Unmixed(y, x, z, w)
  {
  }

  lemma OrderOfSums(a: real, k: real, b: real, l: real, c: real, m: real)
    ensures Combined(b, l, c, m, a, k) == Combined(a, k, b, l, c, m)
    ensures SumOfSquares(b, c, a, k) == SumOfSquares(a, b, c, k)
  {
  }

  lemma UnitCycled(q: Quaternion)
    ensures Unit(Cycled(q)) <==> Unit(q)
  {
    OrderOfSums(q.x, q.w, q.y, 0.0, q.z, 0.0);
  }

  lemma TurnedInY(q: Quaternion, a: real, b: real, c: real)
    requires Unit(q)
    ensures Turned(q, Quaternion(a, b, c, 0.0)).y
         == Combined(a, Mixed(q.x, q.y, q.z, q.w), b, Kept(1.0, q.x, q.z), c, Unmixed(q.y, q.z, q.x, q.w))
  {
    UnitCycled(q);
    TurnedCycled(q, Quaternion(a, b, c, 0.0));
    TurnedInX(Cycled(q), b, c, a);
    OrderOfTerms(q.y, q.x, q.z, q.w); OrderOfTerms(0.0, q.z, q.x, 1.0);
    OrderOfSums(a, Mixed(q.x, q.y, q.z, q.w), b, Kept(1.0, q.x, q.z), c, Unmixed(q.y, q.z, q.x, q.w));
  }

  lemma TurnedInZ(q: Quaternion, a: real, b: real, c: real)
    requires Unit(q)
    ensures Turned(q, Quaternion(a, b, c, 0.0)).z
         == Combined(a, Unmixed(q.x, q.z, q.y, q.w), b, Mixed(q.y, q.z, q.x, q.w), c, Kept(1.0, q.x, q.y))
  {
    UnitCycled(q);
    TurnedCycled(q, Quaternion(a, b, c, 0.0));
    TurnedInY(Cycled(q), b, c, a);
    OrderOfTerms(q.x, q.z, q.y, q.w); OrderOfTerms(0.0, q.x, q.y, 1.0);
    OrderOfSums(a, Unmixed(q.x, q.z, q.y, q.w), b, Mixed(q.y, q.z, q.x, q.w), c, Kept(1.0, q.x, q.y));
  }

  /** For a unit quaternion, a row vector times the matrix is the vector turned by the quaternion. */
  lemma RotationTurns(q: Quaternion, a: real, b: real, c: real)
    requires Unit(q)
    ensures var t := Turned(q, Quaternion(a, b, c, 0.0));
      t.w == 0.0 && RowTimes(Row(a, b, c, 0.0), Rotation(q)) == Row(t.x, t.y, t.z, 0.0)
  {
    RowTimesRotation(q, a, b, c);
    TurnedInW(q, a, b, c);
    TurnedInX(q, a, b, c);
    TurnedInY(q, a, b, c);
    TurnedInZ(q, a, b, c);
  }

  /** Hamilton's rules for the units: i j = k, j k = i and k i = j. */
  lemma UnitRules()
    ensures var i, j := Quaternion(1.0, 0.0, 0.0, 0.0), Quaternion(0.0, 1.0, 0.0, 0.0);
      var k := Quaternion(0.0, 0.0, 1.0, 0.0);
      Hamilton(i, j) == k && Hamilton(j, k) == i && Hamilton(k, i) == j
  {
  }

  lemma AxisEntries(s: real, w: real, c: real, d: real)
    requires w * w + s * s == 1.0 && c == w * w - s * s && d == 2.0 * (s * w)
    ensures Kept(1.0, 0.0, s) == c && Kept(1.0, s, 0.0) == c && Mixed(0.0, 0.0, s, w) == d
    ensures Unmixed(0.0, s, 0.0, w) == 0.0 && Unmixed(s, 0.0, 0.0, w) == 0.0
  {
  }

  /**
   * With w and s the cosine and sine of half an angle, the quaternion on the third axis turns the first axis towards
   * the second one by the whole angle, and that is the first row of the matrix; so for the axes in a cycle.
   */
  lemma AxisTurns(s: real, w: real, c: real, d: real)
    requires w * w + s * s == 1.0 && c == w * w - s * s && d == 2.0 * (s * w)
    ensures var m := Rotation(Quaternion(0.0, 0.0, s, w));
      m.r0 == Row(c, d, 0.0, 0.0) == RowTimes(Row(1.0, 0.0, 0.0, 0.0), m)
    ensures var m := Rotation(Quaternion(s, 0.0, 0.0, w));
      m.r1 == Row(0.0, c, d, 0.0) == RowTimes(Row(0.0, 1.0, 0.0, 0.0), m)
    ensures var m := Rotation(Quaternion(0.0, s, 0.0, w));
      m.r2 == Row(d, 0.0, c, 0.0) == RowTimes(Row(0.0, 0.0, 1.0, 0.0), m)
  {
    AxisEntries(s, w, c, d);
    FirstRowOf(Rotation(Quaternion(0.0, 0.0, s, w)));
    FirstRowOf(Rotation(Quaternion(s, 0.0, 0.0, w)));
    FirstRowOf(Rotation(Quaternion(0.0, s, 0.0, w)));
  }

  /** Turning by p and then by q is turning by their product. */
  lemma TurnedTwice(p: Quaternion, q: Quaternion, v: Quaternion)
    ensures Turned(Hamilton(q, p), v) == Turned(q, Turned(p, v))
  {
    ConjugateOfProduct(q, p);
    ProductAssociates(q, p, v);
    var pv := Hamilton(p, v);
    ProductAssociates(Hamilton(q, pv), Conjugate(p), Conjugate(q));
    ProductAssociates(q, pv, Conjugate(p));
  }

  lemma UnitProduct(p: Quaternion, q: Quaternion)
    requires Unit(p) && Unit(q)
    ensures Unit(Hamilton(p, q))
  {
    NormOfProduct(p, q);
  }

  /** One row vector through both rotations. */
  lemma TwoRotations(p: Quaternion, q: Quaternion, a: real, b: real, c: real, r: Row)
    requires Unit(p) && Unit(q) && r == Row(a, b, c, 0.0)
    ensures RowTimes(r, Rotation(Hamilton(q, p))) == RowTimes(RowTimes(r, Rotation(p)), Rotation(q))
  {
    UnitProduct(q, p);
    var t := Turned(p, Quaternion(a, b, c, 0.0));
    RotationTurns(Hamilton(q, p), a, b, c);
    RotationTurns(p, a, b, c);
    RotationTurns(q, t.x, t.y, t.z);
    TurnedTwice(p, q, Quaternion(a, b, c, 0.0));
  }

  lemma FirstRowOf(m: Matrix)
    ensures RowTimes(Row(1.0, 0.0, 0.0, 0.0), m) == m.r0 && RowTimes(Row(0.0, 1.0, 0.0, 0.0), m) == m.r1
    ensures RowTimes(Row(0.0, 0.0, 1.0, 0.0), m) == m.r2 && RowTimes(Row(0.0, 0.0, 0.0, 1.0), m) == m.r3
  {
    IdentityTimes(m);
  }

  lemma LastRowOfProduct(p: Quaternion, q: Quaternion)
    ensures RowTimes(Rotation(p).r3, Rotation(q)) == Rotation(q).r3
  {
    FirstRowOf(Rotation(q));
  }

  lemma RowsOfProduct(a: Matrix, b: Matrix, c: Matrix)
    requires RowTimes(a.r0, b) == c.r0 && RowTimes(a.r1, b) == c.r1 && RowTimes(a.r2, b) == c.r2
      && RowTimes(a.r3, b) == c.r3
    ensures Product(a, b) == c
  {
  }

  lemma RowOfRotations(p: Quaternion, q: Quaternion, a: real, b: real, c: real, x: Row, y: Row)
    requires Unit(p) && Unit(q)
    requires RowTimes(Row(a, b, c, 0.0), Rotation(p)) == x && RowTimes(Row(a, b, c, 0.0), Rotation(Hamilton(q, p))) == y
    ensures RowTimes(x, Rotation(q)) == y
  {
    TwoRotations(p, q, a, b, c, Row(a, b, c, 0.0));
  }

  /** The matrix of a product of unit quaternions is the product of their matrices. */
  lemma RotationOfProduct(p: Quaternion, q: Quaternion)
    requires Unit(p) && Unit(q)
    ensures Unit(Hamilton(q, p)) && Rotation(Hamilton(q, p)) == Product(Rotation(p), Rotation(q))
  {
    UnitProduct(q, p);
    var m, n := Rotation(p), Rotation(Hamilton(q, p));
    FirstRowOf(m); FirstRowOf(n);
    RowOfRotations(p, q, 1.0, 0.0, 0.0, m.r0, n.r0);
    RowOfRotations(p, q, 0.0, 1.0, 0.0, m.r1, n.r1);
    RowOfRotations(p, q, 0.0, 0.0, 1.0, m.r2, n.r2);
    LastRowOfProduct(p, q);
    RowsOfProduct(m, Rotation(q), n);
  }

  // ---------------------------------------------------------------------------------------------
  // Transposition undoes the rotation.

  lemma NegatedEntries(x: real, y: real, z: real, w: real)
    ensures Kept(w, -y, -z) == Kept(w, y, z)
    ensures Mixed(-x, -y, -z, w) == Unmixed(x, y, z, w) && Unmixed(-x, -y, -z, w) == Mixed(x, y, z, w)
    ensures SumOfSquares(-x, -y, -z, w) == SumOfSquares(x, y, z, w)
  {
  }

  lemma RotationOfConjugate(q: Quaternion)
    ensures Rotation(Conjugate(q)) == Transpose(Rotation(q))
    ensures NormSquared(Conjugate(q)) == NormSquared(q)
  {
    NegatedEntries(q.x, q.y, q.z, q.w); NegatedEntries(q.x, q.z, q.y, q.w); NegatedEntries(q.y, q.z, q.x, q.w);
    NegatedEntries(0.0, q.y, q.z, 1.0); NegatedEntries(0.0, q.x, q.z, 1.0); NegatedEntries(0.0, q.x, q.y, 1.0);
  }

  lemma RotationOfOne()
    ensures Rotation(ONE) == IDENTITY
  {
  }

  lemma RotationIsOrthogonal(q: Quaternion)
    requires Unit(q)
    ensures Product(Rotation(q), Transpose(Rotation(q))) == IDENTITY
  {
    var c := Conjugate(q);
    RotationOfConjugate(q);
    ConjugateIsInverse(c);
    RotationOfProduct(q, c);
    RotationOfOne();
  }

  /** What a squared row comes to when the squared norm is n. */
  function RowSquare(n: real, y: real, z: real): real { 1.0 - 4.0 * ((1.0 - n) * (y * y + z * z)) }

  lemma FirstRowFlat(x: real, y: real, z: real, w: real)
    ensures SumOfSquares(1.0 - 2.0 * (y * y + z * z), 2.0 * (x * y + z * w), 2.0 * (x * z - y * w), 0.0)
         == RowSquare(x * x + y * y + z * z + w * w, y, z)
  {
  }

  lemma SecondRowFlat(x: real, y: real, z: real, w: real)
    ensures SumOfSquares(2.0 * (x * y - z * w), 1.0 - 2.0 * (x * x + z * z), 2.0 * (y * z + x * w), 0.0)
         == RowSquare(x * x + y * y + z * z + w * w, x, z)
  {
  }

  lemma FirstRowNorm(x: real, y: real, z: real, w: real)
    ensures SumOfSquares(Kept(1.0, y, z), Mixed(x, y, z, w), Unmixed(x, z, y, w), 0.0)
         == RowSquare(SumOfSquares(x, y, z, w), y, z)
  {
    FirstRowFlat(x, y, z, w);
  }

  lemma SecondRowNorm(x: real, y: real, z: real, w: real)
    ensures SumOfSquares(Unmixed(x, y, z, w), Kept(1.0, x, z), Mixed(y, z, x, w), 0.0)
         == RowSquare(SumOfSquares(x, y, z, w), x, z)
  {
    SecondRowFlat(x, y, z, w);
  }

  lemma SumIsZero(n: real, y: real, z: real)
    requires n != 1.0 && RowSquare(n, y, z) == 1.0
    ensures y == 0.0 && z == 0.0
  {
    Cancel(1.0 - n, y * y + z * z);
    NoSquares(y, z);
  }

  lemma NoSquares(y: real, z: real)
    requires y * y + z * z == 0.0
    ensures y == 0.0 && z == 0.0
  {
    SquareSign(y, y, y * y);
    SquareSign(z, z, z * z);
  }

  lemma Cancel(a: real, b: real)
    requires a != 0.0 && a * b == 0.0
    ensures b == 0.0
  {
  }

  /** The matrix is orthogonal exactly for unit quaternions and for the real ones. */
  lemma OrthogonalIff(q: Quaternion)
    ensures Product(Rotation(q), Transpose(Rotation(q))) == IDENTITY
       <==> Unit(q) || (q.x == 0.0 && q.y == 0.0 && q.z == 0.0)
  {
    if Unit(q) {
      RotationIsOrthogonal(q);
    } else if q.x == 0.0 && q.y == 0.0 && q.z == 0.0 {
      NoTurn(q);
      GramOfIdentity();
    } else if Product(Rotation(q), Transpose(Rotation(q))) == IDENTITY {
      OrthogonalOnlyIf(q, Rotation(q));
    }
  }

  lemma NoTurn(q: Quaternion)
    requires q.x == 0.0 && q.y == 0.0 && q.z == 0.0
    ensures Rotation(q) == IDENTITY
  {
    NoTurnEntries(q.w);
  }

  lemma GramOfIdentity()
    ensures Product(IDENTITY, Transpose(IDENTITY)) == IDENTITY
  {
    TimesIdentity(IDENTITY);
    TransposedDiagonal(1.0);
  }

  lemma TransposedDiagonal(d: real)
    ensures Transpose(Diagonal(d)) == Diagonal(d)
  {
  }

  lemma NoTurnEntries(w: real)
    ensures Kept(1.0, 0.0, 0.0) == 1.0 && Mixed(0.0, 0.0, 0.0, w) == 0.0 && Unmixed(0.0, 0.0, 0.0, w) == 0.0
  {
  }

  lemma DiagonalOfGram(m: Matrix)
    requires Product(m, Transpose(m)) == IDENTITY
    ensures Dot(m.r0, m.r0) == 1.0 && Dot(m.r1, m.r1) == 1.0
  {
    TransposeColumns(m);
  }

  lemma DotSelf(p: Row)
    ensures Dot(p, p) == SumOfSquares(p.x0, p.x1, p.x2, p.x3)
  {
  }

  lemma OrthogonalOnlyIf(q: Quaternion, m: Matrix)
    requires m == Rotation(q) && Product(m, Transpose(m)) == IDENTITY && !Unit(q)
    ensures q.x == 0.0 && q.y == 0.0 && q.z == 0.0
  {
    DiagonalOfGram(m);
    DotSelf(m.r0);
    DotSelf(m.r1);
    FirstRowNorm(q.x, q.y, q.z, q.w);
    SecondRowNorm(q.x, q.y, q.z, q.w);
    SumIsZero(NormSquared(q), q.y, q.z);
    SumIsZero(NormSquared(q), q.x, q.z);
  }

  // ---------------------------------------------------------------------------------------------
  // The routines.

  /** The rotation pq1 followed by the rotation pq2. */
  method DXQuaternionMultiply(pq1: Quaternion, pq2: Quaternion) returns (out: Quaternion)
    ensures out == Hamilton(pq2, pq1)
  {
    var x := pq2.w * pq1.x + pq2.x * pq1.w + pq2.y * pq1.z - pq2.z * pq1.y;
    var y := pq2.w * pq1.y - pq2.x * pq1.z + pq2.y * pq1.w + pq2.z * pq1.x;
    var z := pq2.w * pq1.z + pq2.x * pq1.y - pq2.y * pq1.x + pq2.z * pq1.w;
    var w := pq2.w * pq1.w - pq2.x * pq1.x - pq2.y * pq1.y - pq2.z * pq1.z;
    out := Quaternion(x, y, z, w);
  }

  method DXMatrixIdentity(out: array2<real>)
    requires Is4x4(out)
    modifies out
    ensures Value(out) == IDENTITY
  {
    for j := 0 to 4
      invariant forall a, b :: 0 <= a < j && 0 <= b < 4 ==> out[a, b] == if a == b then 1.0 else 0.0
    {
      for i := 0 to 4
        invariant forall a, b :: 0 <= a < j && 0 <= b < 4 ==> out[a, b] == if a == b then 1.0 else 0.0
        invariant forall b :: 0 <= b < i ==> out[j, b] == if j == b then 1.0 else 0.0
      {
        if i == j {
          out[j, i] := 1.0;
        } else {
          out[j, i] := 0.0;
        }
      }
    }
  }

  method DXMatrixRotationQuaternion(pout: array2<real>, pq: Quaternion)
    requires Is4x4(pout)
    modifies pout
    ensures Value(pout) == Rotation(pq)
  {
    DXMatrixIdentity(pout);
    pout[0, 0] := Kept(1.0, pq.y, pq.z);
    pout[0, 1] := Mixed(pq.x, pq.y, pq.z, pq.w);
    pout[0, 2] := Unmixed(pq.x, pq.z, pq.y, pq.w);
    pout[1, 0] := Unmixed(pq.x, pq.y, pq.z, pq.w);
    pout[1, 1] := Kept(1.0, pq.x, pq.z);
    pout[1, 2] := Mixed(pq.y, pq.z, pq.x, pq.w);
    pout[2, 0] := Mixed(pq.x, pq.z, pq.y, pq.w);
    pout[2, 1] := Unmixed(pq.y, pq.z, pq.x, pq.w);
    pout[2, 2] := Kept(1.0, pq.x, pq.y);
  }

  /** A quaternion that the matrix is the rotation of. */
  ghost predicate Rotates(q: Quaternion, m: Matrix) { Unit(q) && Rotation(q) == m }

  ghost predicate UpToSign(out: Quaternion, q: Quaternion) { out == q || out == Negated(q) }

  // The four branches of DXQuaternionRotationMatrix.

  method ReadW(m: array2<real>, sqrt: real -> real, t: real) returns (out: Quaternion)
    requires Is4x4(m) && IsSqrt(sqrt) && t > 0.0 && t == m[0, 0] + m[1, 1] + m[2, 2] + 1.0
    ensures forall q :: Rotates(q, Value(m)) ==> UpToSign(out, q)
  {
    var s := 2.0 * sqrt(t);
    RootIsPositive(sqrt, t);
    out := Quaternion((m[1, 2] - m[2, 1]) / s, (m[2, 0] - m[0, 2]) / s, (m[0, 1] - m[1, 0]) / s, 0.25 * s);
    forall q | Rotates(q, Value(m)) ensures UpToSign(out, q) {
      EntriesOf(q, Value(m));
      ReadFromW(q, Value(m), s, out);
    }
  }

  method ReadX(m: array2<real>, sqrt: real -> real, t: real) returns (out: Quaternion)
    requires Is4x4(m) && IsSqrt(sqrt) && t > 0.0 && t == 1.0 + m[0, 0] - m[1, 1] - m[2, 2]
    ensures forall q :: Rotates(q, Value(m)) ==> UpToSign(out, q)
  {
    var s := 2.0 * sqrt(t);
    RootIsPositive(sqrt, t);
    out := Quaternion(0.25 * s, (m[0, 1] + m[1, 0]) / s, (m[0, 2] + m[2, 0]) / s, (m[1, 2] - m[2, 1]) / s);
    forall q | Rotates(q, Value(m)) ensures UpToSign(out, q) {
      EntriesOf(q, Value(m));
      ReadFromX(q, Value(m), s, out);
    }
  }

  method ReadY(m: array2<real>, sqrt: real -> real, t: real) returns (out: Quaternion)
    requires Is4x4(m) && IsSqrt(sqrt) && t > 0.0 && t == 1.0 + m[1, 1] - m[0, 0] - m[2, 2]
    ensures forall q :: Rotates(q, Value(m)) ==> UpToSign(out, q)
  {
    var s := 2.0 * sqrt(t);
    RootIsPositive(sqrt, t);
    out := Quaternion((m[0, 1] + m[1, 0]) / s, 0.25 * s, (m[1, 2] + m[2, 1]) / s, (m[2, 0] - m[0, 2]) / s);
    forall q | Rotates(q, Value(m)) ensures UpToSign(out, q) {
      EntriesOf(q, Value(m));
      ReadFromY(q, Value(m), s, out);
    }
  }

  method ReadZ(m: array2<real>, sqrt: real -> real, t: real) returns (out: Quaternion)
    requires Is4x4(m) && IsSqrt(sqrt) && t > 0.0 && t == 1.0 + m[2, 2] - m[0, 0] - m[1, 1]
    ensures forall q :: Rotates(q, Value(m)) ==> UpToSign(out, q)
  {
    var s := 2.0 * sqrt(t);
    RootIsPositive(sqrt, t);
    out := Quaternion((m[0, 2] + m[2, 0]) / s, (m[1, 2] + m[2, 1]) / s, 0.25 * s, (m[0, 1] - m[1, 0]) / s);
    forall q | Rotates(q, Value(m)) ensures UpToSign(out, q) {
      EntriesOf(q, Value(m));
      ReadFromZ(q, Value(m), s, out);
    }
  }

  method LargestDiagonal(m: array2<real>) returns (maxi: nat)
    requires Is4x4(m)
    ensures maxi < 3 && m[0, 0] <= m[maxi, maxi] && m[1, 1] <= m[maxi, maxi] && m[2, 2] <= m[maxi, maxi]
  {
    maxi := 0;
    for i := 1 to 3
      invariant maxi < i && forall k :: 0 <= k < i ==> m[k, k] <= m[maxi, maxi]
    {
      if m[i, i] > m[maxi, maxi] {
        maxi := i;
      }
    }
  }

  lemma RootIsPositive(sqrt: real -> real, t: real)
    requires IsSqrt(sqrt) && t > 0.0
    ensures sqrt(t) > 0.0 && (2.0 * sqrt(t)) * (2.0 * sqrt(t)) == 4.0 * t
  {
  }

  /** The four components from four times the products with one of them. */
  lemma Quotients(t: real, s: real, a: real, b: real, c: real, pa: real, pb: real, pc: real)
    requires s > 0.0 && s * s == 16.0 * (t * t)
    requires pa == 4.0 * (t * a) && pb == 4.0 * (t * b) && pc == 4.0 * (t * c)
    ensures (0.25 * s == t && pa / s == a && pb / s == b && pc / s == c)
         || (0.25 * s == -t && pa / s == -a && pb / s == -b && pc / s == -c)
  {
    SameSquare(s, 4.0 * t);
    if s == 4.0 * t {
      Divided(s, t, a, pa); Divided(s, t, b, pb); Divided(s, t, c, pc);
    } else {
      Divided(s, -t, -a, pa); Divided(s, -t, -b, pb); Divided(s, -t, -c, pc);
    }
  }

  lemma SameSquare(s: real, t: real)
    requires s * s == t * t
    ensures s == t || s == -t
  {
    assert (s - t) * (s + t) == 0.0;
  }

  lemma Divided(s: real, t: real, a: real, p: real)
    requires s > 0.0 && s == 4.0 * t && p == 4.0 * (t * a)
    ensures p / s == a
  {
    MulEq(a, s, 4.0 * t);
    assert p == a * s;
  }

  lemma DiagonalSums(x: real, y: real, z: real, w: real)
    requires x * x + y * y + z * z + w * w == 1.0
    ensures Kept(1.0, y, z) + Kept(1.0, x, z) + Kept(1.0, x, y) + 1.0 == 4.0 * (w * w)
    ensures 1.0 + Kept(1.0, y, z) - Kept(1.0, x, z) - Kept(1.0, x, y) == 4.0 * (x * x)
    ensures 1.0 + Kept(1.0, x, z) - Kept(1.0, y, z) - Kept(1.0, x, y) == 4.0 * (y * y)
    ensures 1.0 + Kept(1.0, x, y) - Kept(1.0, y, z) - Kept(1.0, x, z) == 4.0 * (z * z)
  {
  }

  lemma OffDiagonalSums(x: real, y: real, z: real, w: real)
    ensures Mixed(x, y, z, w) + Unmixed(x, y, z, w) == 4.0 * (x * y) == 4.0 * (y * x)
    ensures Mixed(x, y, z, w) - Unmixed(x, y, z, w) == 4.0 * (w * z) == 4.0 * (z * w)
  {
  }

  /** The sums and differences of entries that give products of two components. */
  ghost predicate GivesProducts(q: Quaternion, m: Matrix) {
    && m.r0.x0 + m.r1.x1 + m.r2.x2 + 1.0 == 4.0 * (q.w * q.w)
    && 1.0 + m.r0.x0 - m.r1.x1 - m.r2.x2 == 4.0 * (q.x * q.x)
    && 1.0 + m.r1.x1 - m.r0.x0 - m.r2.x2 == 4.0 * (q.y * q.y)
    && 1.0 + m.r2.x2 - m.r0.x0 - m.r1.x1 == 4.0 * (q.z * q.z)
    && m.r0.x1 + m.r1.x0 == 4.0 * (q.x * q.y) == 4.0 * (q.y * q.x)
    && m.r0.x2 + m.r2.x0 == 4.0 * (q.x * q.z) == 4.0 * (q.z * q.x)
    && m.r1.x2 + m.r2.x1 == 4.0 * (q.y * q.z) == 4.0 * (q.z * q.y)
    && m.r1.x2 - m.r2.x1 == 4.0 * (q.w * q.x) == 4.0 * (q.x * q.w)
    && m.r2.x0 - m.r0.x2 == 4.0 * (q.w * q.y) == 4.0 * (q.y * q.w)
    && m.r0.x1 - m.r1.x0 == 4.0 * (q.w * q.z) == 4.0 * (q.z * q.w)
  }

  lemma EntriesOf(q: Quaternion, m: Matrix)
    requires Rotates(q, m)
    ensures GivesProducts(q, m)
  {
    DiagonalEntries(q, m.r0.x0, m.r1.x1, m.r2.x2);
    OffDiagonalEntries(q.x, q.y, q.z, q.w, m.r0.x1, m.r1.x0);
    OffDiagonalEntries(q.x, q.z, q.y, q.w, m.r2.x0, m.r0.x2);
    OffDiagonalEntries(q.y, q.z, q.x, q.w, m.r1.x2, m.r2.x1);
  }

  lemma DiagonalEntries(q: Quaternion, a: real, b: real, c: real)
    requires Unit(q) && a == Kept(1.0, q.y, q.z) && b == Kept(1.0, q.x, q.z) && c == Kept(1.0, q.x, q.y)
    ensures a + b + c + 1.0 == 4.0 * (q.w * q.w) && 1.0 + a - b - c == 4.0 * (q.x * q.x)
    ensures 1.0 + b - a - c == 4.0 * (q.y * q.y) && 1.0 + c - a - b == 4.0 * (q.z * q.z)
  {
    DiagonalSums(q.x, q.y, q.z, q.w);
  }

  lemma OffDiagonalEntries(x: real, y: real, z: real, w: real, a: real, b: real)
    requires a == Mixed(x, y, z, w) && b == Unmixed(x, y, z, w)
    ensures a + b == 4.0 * (x * y) == 4.0 * (y * x)
    ensures a - b == 4.0 * (w * z) == 4.0 * (z * w)
  {
    OffDiagonalSums(x, y, z, w);
  }

  ghost predicate ReadBack(q: Quaternion, m: Matrix, s: real, t: real) {
    GivesProducts(q, m) && s > 0.0 && s * s == 4.0 * t
  }

  lemma ReadFromW(q: Quaternion, m: Matrix, s: real, out: Quaternion)
    requires ReadBack(q, m, s, m.r0.x0 + m.r1.x1 + m.r2.x2 + 1.0)
    requires out == Quaternion((m.r1.x2 - m.r2.x1) / s, (m.r2.x0 - m.r0.x2) / s, (m.r0.x1 - m.r1.x0) / s, 0.25 * s)
    ensures UpToSign(out, q)
  {
    Quotients(q.w, s, q.x, q.y, q.z, m.r1.x2 - m.r2.x1, m.r2.x0 - m.r0.x2, m.r0.x1 - m.r1.x0);
  }

  lemma ReadFromX(q: Quaternion, m: Matrix, s: real, out: Quaternion)
    requires ReadBack(q, m, s, 1.0 + m.r0.x0 - m.r1.x1 - m.r2.x2)
    requires out == Quaternion(0.25 * s, (m.r0.x1 + m.r1.x0) / s, (m.r0.x2 + m.r2.x0) / s, (m.r1.x2 - m.r2.x1) / s)
    ensures UpToSign(out, q)
  {
    Quotients(q.x, s, q.y, q.z, q.w, m.r0.x1 + m.r1.x0, m.r0.x2 + m.r2.x0, m.r1.x2 - m.r2.x1);
  }

  lemma ReadFromY(q: Quaternion, m: Matrix, s: real, out: Quaternion)
    requires ReadBack(q, m, s, 1.0 + m.r1.x1 - m.r0.x0 - m.r2.x2)
    requires out == Quaternion((m.r0.x1 + m.r1.x0) / s, 0.25 * s, (m.r1.x2 + m.r2.x1) / s, (m.r2.x0 - m.r0.x2) / s)
    ensures UpToSign(out, q)
  {
    Quotients(q.y, s, q.x, q.z, q.w, m.r0.x1 + m.r1.x0, m.r1.x2 + m.r2.x1, m.r2.x0 - m.r0.x2);
  }

  lemma ReadFromZ(q: Quaternion, m: Matrix, s: real, out: Quaternion)
    requires ReadBack(q, m, s, 1.0 + m.r2.x2 - m.r0.x0 - m.r1.x1)
    requires out == Quaternion((m.r0.x2 + m.r2.x0) / s, (m.r1.x2 + m.r2.x1) / s, 0.25 * s, (m.r0.x1 - m.r1.x0) / s)
    ensures UpToSign(out, q)
  {
    Quotients(q.z, s, q.x, q.y, q.w, m.r0.x2 + m.r2.x0, m.r1.x2 + m.r2.x1, m.r0.x1 - m.r1.x0);
  }

  // ---------------------------------------------------------------------------------------------
  // Which quaternions share a rotation.

  lemma CancelFactor(t: real, u: real, a: real, b: real, p: real, q: real)
    requires t != 0.0 && t == u && p == t * a && q == u * b && p == q
    ensures a == b
  {
    MulEq(b, u, t);
    assert t * (a - b) == 0.0;
  }

  /** The products of component t with itself and with three others. */
  ghost predicate AgreeFrom(t: real, a: real, b: real, c: real, u: real, d: real, e: real, f: real) {
    t * t == u * u && t * a == u * d && t * b == u * e && t * c == u * f
  }

  lemma OneSignForAll(t: real, a: real, b: real, c: real, u: real, d: real, e: real, f: real)
    requires t != 0.0 && AgreeFrom(t, a, b, c, u, d, e, f)
    ensures (t == u && a == d && b == e && c == f) || (t == -u && a == -d && b == -e && c == -f)
  {
    SameSquare(t, u);
    if t == u {
      CancelFactor(t, u, a, d, t * a, u * d);
      CancelFactor(t, u, b, e, t * b, u * e);
      CancelFactor(t, u, c, f, t * c, u * f);
    } else {
      CancelFactor(t, -u, a, -d, t * a, (-u) * (-d));
      CancelFactor(t, -u, b, -e, t * b, (-u) * (-e));
      CancelFactor(t, -u, c, -f, t * c, (-u) * (-f));
    }
  }

  lemma NegatedRotation(q: Quaternion)
    ensures Rotation(Negated(q)) == Rotation(q)
  {
    NegatedProducts(q.x, q.y, q.z, q.w); NegatedProducts(q.x, q.z, q.y, q.w); NegatedProducts(q.y, q.z, q.x, q.w);
  }

  lemma NegatedProducts(x: real, y: real, z: real, w: real)
    ensures Mixed(-x, -y, -z, -w) == Mixed(x, y, z, w) && Unmixed(-x, -y, -z, -w) == Unmixed(x, y, z, w)
    ensures Kept(1.0, -x, -y) == Kept(1.0, x, y)
  {
  }

  /** Two unit quaternions turn alike exactly when they agree up to the sign. */
  lemma RotationsEqualIff(p: Quaternion, q: Quaternion)
    requires Unit(p) && Unit(q)
    ensures Rotation(p) == Rotation(q) <==> UpToSign(p, q)
  {
    NegatedRotation(q);
    if Rotation(p) == Rotation(q) {
      EntriesOf(p, Rotation(p));
      EntriesOf(q, Rotation(p));
      SameProducts(p, q, Rotation(p));
    }
  }

  lemma Agreeing(p: Quaternion, q: Quaternion, m: Matrix)
    requires GivesProducts(p, m) && GivesProducts(q, m)
    ensures AgreeFrom(p.w, p.x, p.y, p.z, q.w, q.x, q.y, q.z)
    ensures AgreeFrom(p.x, p.y, p.z, p.w, q.x, q.y, q.z, q.w)
    ensures AgreeFrom(p.y, p.x, p.z, p.w, q.y, q.x, q.z, q.w)
    ensures AgreeFrom(p.z, p.x, p.y, p.w, q.z, q.x, q.y, q.w)
  {
  }

  lemma SameProducts(p: Quaternion, q: Quaternion, m: Matrix)
    requires GivesProducts(p, m) && GivesProducts(q, m) && Unit(p)
    ensures UpToSign(p, q)
  {
    Agreeing(p, q, m);
    SomeComponent(p);
    SignFrom(p, q);
  }

  lemma SignFrom(p: Quaternion, q: Quaternion)
    requires AgreeFrom(p.w, p.x, p.y, p.z, q.w, q.x, q.y, q.z)
    requires AgreeFrom(p.x, p.y, p.z, p.w, q.x, q.y, q.z, q.w)
    requires AgreeFrom(p.y, p.x, p.z, p.w, q.y, q.x, q.z, q.w)
    requires AgreeFrom(p.z, p.x, p.y, p.w, q.z, q.x, q.y, q.w)
    requires p.x != 0.0 || p.y != 0.0 || p.z != 0.0 || p.w != 0.0
    ensures UpToSign(p, q)
  {
    if p.w != 0.0 {
      OneSignForAll(p.w, p.x, p.y, p.z, q.w, q.x, q.y, q.z);
    } else if p.x != 0.0 {
      OneSignForAll(p.x, p.y, p.z, p.w, q.x, q.y, q.z, q.w);
    } else if p.y != 0.0 {
      OneSignForAll(p.y, p.x, p.z, p.w, q.y, q.x, q.z, q.w);
    } else {
      OneSignForAll(p.z, p.x, p.y, p.w, q.z, q.x, q.y, q.w);
    }
  }

  lemma SomeComponent(p: Quaternion)
    requires Unit(p)
    ensures p.x != 0.0 || p.y != 0.0 || p.z != 0.0 || p.w != 0.0
  {
  }
}
