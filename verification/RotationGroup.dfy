/** The matrices that rotate are those of the unit quaternions, and DXQuaternionRotationMatrix reads all of them. */
module RotationGroup {
  import opened Common
  import opened MatrixAlgebra
  import opened MatrixRoutines
  import opened Quaternions

  /** Orthogonal, of determinant 1, and the identity in the last row (and so in the last column). */
  ghost predicate IsRotation(m: Matrix) {
    Product(m, Transpose(m)) == IDENTITY && Determinant(m) == 1.0 && m.r3 == Row(0.0, 0.0, 0.0, 1.0)
  }

  /** The matrix with the rows (a, b, c), (d, e, f) and (g, h, i). */
  function Matrix3(a: real, b: real, c: real, d: real, e: real, f: real, g: real, h: real, i: real): Matrix {
    Matrix(Row(a, b, c, 0.0), Row(d, e, f, 0.0), Row(g, h, i, 0.0), Row(0.0, 0.0, 0.0, 1.0))
  }

  // ---------------------------------------------------------------------------------------------
  // The matrix of a unit quaternion has determinant 1.

  lemma MinorKeptFlat(x: real, y: real, z: real, w: real)
    requires x * x + y * y + z * z + w * w == 1.0
    ensures (1.0 - 2.0 * (x * x + z * z)) * (1.0 - 2.0 * (x * x + y * y))
          - (2.0 * (y * z + x * w)) * (2.0 * (y * z - x * w)) == 1.0 - 2.0 * (y * y + z * z)
  {
    assert 4.0 * (x * x) * (x * x + y * y + z * z + w * w) == 4.0 * (x * x);
  }

  lemma MinorMixedFlat(x: real, y: real, z: real, w: real)
    requires x * x + y * y + z * z + w * w == 1.0
    ensures (2.0 * (y * z + x * w)) * (2.0 * (x * z + y * w)) - (2.0 * (x * y - z * w)) * (1.0 - 2.0 * (x * x + y * y))
         == 2.0 * (x * y + z * w)
  {
    assert 4.0 * (x * y + z * w) * (x * x + y * y + z * z + w * w) == 4.0 * (x * y + z * w);
  }

  lemma MinorUnmixedFlat(x: real, y: real, z: real, w: real)
    requires x * x + y * y + z * z + w * w == 1.0
    ensures (2.0 * (x * y - z * w)) * (2.0 * (y * z - x * w)) - (1.0 - 2.0 * (x * x + z * z)) * (2.0 * (x * z + y * w))
         == 2.0 * (x * z - y * w)
  {
    assert 4.0 * (x * z - y * w) * (x * x + y * y + z * z + w * w) == 4.0 * (x * z - y * w);
  }

  lemma MinorKept(x: real, y: real, z: real, w: real, e: real, f: real, h: real, i: real)
    requires SumOfSquares(x, y, z, w) == 1.0
    requires e == Kept(1.0, x, z) && f == Mixed(y, z, x, w) && h == Unmixed(y, z, x, w) && i == Kept(1.0, x, y)
    ensures e * i - f * h == Kept(1.0, y, z)
  {
    MinorKeptFlat(x, y, z, w);
    assert e * i == (1.0 - 2.0 * (x * x + z * z)) * (1.0 - 2.0 * (x * x + y * y));
    assert f * h == (2.0 * (y * z + x * w)) * (2.0 * (y * z - x * w));
  }

  lemma MinorMixed(x: real, y: real, z: real, w: real, d: real, f: real, g: real, i: real)
    requires SumOfSquares(x, y, z, w) == 1.0
    requires d == Unmixed(x, y, z, w) && f == Mixed(y, z, x, w) && g == Mixed(x, z, y, w) && i == Kept(1.0, x, y)
    ensures f * g - d * i == Mixed(x, y, z, w)
  {
    MinorMixedFlat(x, y, z, w);
    assert f * g == (2.0 * (y * z + x * w)) * (2.0 * (x * z + y * w));
    assert d * i == (2.0 * (x * y - z * w)) * (1.0 - 2.0 * (x * x + y * y));
  }

  lemma MinorUnmixed(x: real, y: real, z: real, w: real, d: real, e: real, g: real, h: real)
    requires SumOfSquares(x, y, z, w) == 1.0
    requires d == Unmixed(x, y, z, w) && e == Kept(1.0, x, z) && g == Mixed(x, z, y, w) && h == Unmixed(y, z, x, w)
    ensures d * h - e * g == Unmixed(x, z, y, w)
  {
    MinorUnmixedFlat(x, y, z, w);
    assert d * h == (2.0 * (x * y - z * w)) * (2.0 * (y * z - x * w));
    assert e * g == (1.0 - 2.0 * (x * x + z * z)) * (2.0 * (x * z + y * w));
  }

  /** 3x3 determinants with the last row and column of the identity. */
  lemma Standard(a: real, b: real, c: real, d: real, e: real, f: real)
    ensures Det3(b, c, 0.0, e, f, 0.0, 0.0, 0.0, 1.0) == b * f - c * e
    ensures Det3(a, c, 0.0, d, f, 0.0, 0.0, 0.0, 1.0) == a * f - c * d
    ensures Det3(a, b, 0.0, d, e, 0.0, 0.0, 0.0, 1.0) == a * e - b * d
  {
  }

  /** A vector product with the last row of the identity in third place. */
  lemma CrossWithLast(a: real, b: real, c: real, d: real, e: real, f: real, p: Row)
    requires p == Cross(Row(a, b, c, 0.0), Row(d, e, f, 0.0), Row(0.0, 0.0, 0.0, 1.0))
    ensures p.x0 == b * f - c * e && p.x1 == -(a * f - c * d) && p.x2 == a * e - b * d
  {
    CrossIs(a, b, c, 0.0, d, e, f, 0.0, 0.0, 0.0, 0.0, 1.0);
    Standard(a, b, c, d, e, f);
  }

  lemma DotWithItself(a: real, b: real, c: real, u: Row)
    requires u.x0 == a && u.x1 == b && u.x2 == c
    ensures Dot(Row(a, b, c, 0.0), u) == a * a + b * b + c * c
  {
    DotOf(a, b, c, 0.0, a, b, c, u.x3);
  }

  lemma DeterminantOf3(a: real, b: real, c: real, d: real, e: real, f: real, g: real, h: real, i: real)
    requires e * i - f * h == a && f * g - d * i == b && d * h - e * g == c
    requires a * a + b * b + c * c == 1.0
    ensures Determinant(Matrix3(a, b, c, d, e, f, g, h, i)) == 1.0
  {
    var u := Cross(Row(d, e, f, 0.0), Row(g, h, i, 0.0), Row(0.0, 0.0, 0.0, 1.0));
    CrossWithLast(d, e, f, g, h, i, u);
    DotWithItself(a, b, c, u);
  }

  /** The last row and column are those of the identity. */
  ghost predicate TurnsOnly(m: Matrix) {
    m == Matrix3(m.r0.x0, m.r0.x1, m.r0.x2, m.r1.x0, m.r1.x1, m.r1.x2, m.r2.x0, m.r2.x1, m.r2.x2)
  }

  lemma RotationTurnsOnly(q: Quaternion)
    ensures TurnsOnly(Rotation(q))
  {
  }

  /** Orthonormal rows. */
  lemma RowsOf(m: Matrix)
    requires Product(m, Transpose(m)) == IDENTITY
    ensures Dot(m.r0, m.r0) == 1.0 && Dot(m.r1, m.r1) == 1.0 && Dot(m.r2, m.r2) == 1.0
    ensures Dot(m.r0, m.r1) == 0.0 && Dot(m.r0, m.r2) == 0.0 && Dot(m.r1, m.r2) == 0.0
    ensures Dot(m.r0, m.r3) == 0.0 && Dot(m.r1, m.r3) == 0.0 && Dot(m.r2, m.r3) == 0.0
  {
    TransposeColumns(m);
    var t := Transpose(m);
    assert Product(m, t).r0 == RowTimes(m.r0, t) && Product(m, t).r1 == RowTimes(m.r1, t);
    assert Product(m, t).r2 == RowTimes(m.r2, t);
  }

  lemma SumOfThree(a: real, b: real, c: real)
    ensures Dot(Row(a, b, c, 0.0), Row(a, b, c, 0.0)) == a * a + b * b + c * c
  {
    DotOf(a, b, c, 0.0, a, b, c, 0.0);
  }

  /** The first row is the vector product of the other two. */
  ghost predicate FirstIsProduct(m: Matrix) {
    && m.r1.x1 * m.r2.x2 - m.r1.x2 * m.r2.x1 == m.r0.x0
    && m.r1.x2 * m.r2.x0 - m.r1.x0 * m.r2.x2 == m.r0.x1
    && m.r1.x0 * m.r2.x1 - m.r1.x1 * m.r2.x0 == m.r0.x2
  }

  lemma MinorsOfRotation(q: Quaternion, m: Matrix)
    requires Unit(q) && m == Rotation(q)
    ensures FirstIsProduct(m)
  {
    MinorKept(q.x, q.y, q.z, q.w, m.r1.x1, m.r1.x2, m.r2.x1, m.r2.x2);
    MinorMixed(q.x, q.y, q.z, q.w, m.r1.x0, m.r1.x2, m.r2.x0, m.r2.x2);
    MinorUnmixed(q.x, q.y, q.z, q.w, m.r1.x0, m.r1.x1, m.r2.x0, m.r2.x1);
  }

  lemma OrthogonalAndProduct(m: Matrix)
    requires TurnsOnly(m) && FirstIsProduct(m) && Product(m, Transpose(m)) == IDENTITY
    ensures IsRotation(m)
  {
    RowsOf(m);
    SumOfThree(m.r0.x0, m.r0.x1, m.r0.x2);
    DeterminantOf3(m.r0.x0, m.r0.x1, m.r0.x2, m.r1.x0, m.r1.x1, m.r1.x2, m.r2.x0, m.r2.x1, m.r2.x2);
  }

  lemma UnitRotates(q: Quaternion)
    requires Unit(q)
    ensures IsRotation(Rotation(q))
  {
    RotationIsOrthogonal(q);
    MinorsOfRotation(q, Rotation(q));
    RotationTurnsOnly(q);
    OrthogonalAndProduct(Rotation(q));
  }

  // ---------------------------------------------------------------------------------------------
  // What a rotation matrix satisfies.

  /** Rows and columns are orthonormal. */
  ghost predicate Orthonormal(a: real, b: real, c: real, d: real, e: real, f: real, g: real, h: real, i: real) {
    && a * a + b * b + c * c == 1.0 && d * d + e * e + f * f == 1.0 && g * g + h * h + i * i == 1.0
    && a * d + b * e + c * f == 0.0 && a * g + b * h + c * i == 0.0 && d * g + e * h + f * i == 0.0
  }

  /** Every entry is its own cofactor. */
  ghost predicate OwnCofactors(a: real, b: real, c: real, d: real, e: real, f: real, g: real, h: real, i: real) {
    && a == e * i - f * h && b == f * g - d * i && c == d * h - e * g
    && d == c * h - b * i && e == a * i - c * g && f == b * g - a * h
    && g == b * f - c * e && h == c * d - a * f && i == a * e - b * d
  }

  ghost predicate Rotating(a: real, b: real, c: real, d: real, e: real, f: real, g: real, h: real, i: real) {
    && Orthonormal(a, b, c, d, e, f, g, h, i) && Orthonormal(a, d, g, b, e, h, c, f, i)
    && OwnCofactors(a, b, c, d, e, f, g, h, i)
  }

  lemma RowsOrthonormal(a: real, b: real, c: real, d: real, e: real, f: real, g: real, h: real, i: real)
    requires var m := Matrix3(a, b, c, d, e, f, g, h, i); Product(m, Transpose(m)) == IDENTITY
    ensures Orthonormal(a, b, c, d, e, f, g, h, i)
  {
    RowsOf(Matrix3(a, b, c, d, e, f, g, h, i));
    DotOf(a, b, c, 0.0, a, b, c, 0.0);
    DotOf(d, e, f, 0.0, d, e, f, 0.0);
    DotOf(g, h, i, 0.0, g, h, i, 0.0);
    DotOf(a, b, c, 0.0, d, e, f, 0.0);
    DotOf(a, b, c, 0.0, g, h, i, 0.0);
    DotOf(d, e, f, 0.0, g, h, i, 0.0);
  }

  lemma ScaledByOne(p: Row)
    ensures Times1(1.0, p) == p
  {
  }

  /** The transposed matrix is the inverse, on both sides, and so the adjugate. */
  lemma TransposeInverts(m: Matrix)
    requires Product(m, Transpose(m)) == IDENTITY && Determinant(m) == 1.0
    ensures Product(Transpose(m), m) == IDENTITY && Cofactors(m) == m
  {
    RightInverseIsInverse(m, Transpose(m));
    InverseTwoSided(m);
    var c := Transpose(Cofactors(m));
    ScaledByOne(c.r0);
    ScaledByOne(c.r1);
    ScaledByOne(c.r2);
    ScaledByOne(c.r3);
    assert Transpose(m) == c;
    TransposeColumns(m);
    TransposeColumns(Cofactors(m));
  }

  lemma RowOfCross(a: real, b: real, c: real, d: real, e: real, f: real, g: real, h: real, i: real)
    requires Row(a, b, c, 0.0) == Cross(Row(d, e, f, 0.0), Row(g, h, i, 0.0), Row(0.0, 0.0, 0.0, 1.0))
    ensures a == e * i - f * h && b == f * g - d * i && c == d * h - e * g
  {
    CrossWithLast(d, e, f, g, h, i, Row(a, b, c, 0.0));
  }

  lemma RowOfOpposite(d: real, e: real, f: real, a: real, b: real, c: real, g: real, h: real, i: real)
    requires Row(d, e, f, 0.0) == Opposite(Cross(Row(a, b, c, 0.0), Row(g, h, i, 0.0), Row(0.0, 0.0, 0.0, 1.0)))
    ensures d == c * h - b * i && e == a * i - c * g && f == b * g - a * h
  {
    CrossWithLast(a, b, c, g, h, i, Cross(Row(a, b, c, 0.0), Row(g, h, i, 0.0), Row(0.0, 0.0, 0.0, 1.0)));
  }

  lemma CofactorsOf3(m: Matrix, a: real, b: real, c: real, d: real, e: real, f: real, g: real, h: real, i: real)
    requires m == Matrix3(a, b, c, d, e, f, g, h, i) && Cofactors(m) == m
    ensures OwnCofactors(a, b, c, d, e, f, g, h, i)
  {
    CofactorsAre(m, Row(a, b, c, 0.0), Row(d, e, f, 0.0), Row(g, h, i, 0.0), Row(0.0, 0.0, 0.0, 1.0));
    RowOfCross(a, b, c, d, e, f, g, h, i);
    RowOfOpposite(d, e, f, a, b, c, g, h, i);
    RowOfCross(g, h, i, a, b, c, d, e, f);
  }

  lemma LastColumn(p: Row)
    requires Dot(p, Row(0.0, 0.0, 0.0, 1.0)) == 0.0
    ensures p == Row(p.x0, p.x1, p.x2, 0.0)
  {
    DotOf(p.x0, p.x1, p.x2, p.x3, 0.0, 0.0, 0.0, 1.0);
  }

  lemma RotationEntries(m: Matrix)
    requires IsRotation(m)
    ensures TurnsOnly(m)
    ensures Rotating(m.r0.x0, m.r0.x1, m.r0.x2, m.r1.x0, m.r1.x1, m.r1.x2, m.r2.x0, m.r2.x1, m.r2.x2)
  {
    RowsOf(m);
    LastColumn(m.r0);
    LastColumn(m.r1);
    LastColumn(m.r2);
    TransposeInverts(m);
    Entries3(m, m.r0.x0, m.r0.x1, m.r0.x2, m.r1.x0, m.r1.x1, m.r1.x2, m.r2.x0, m.r2.x1, m.r2.x2);
  }

  lemma Entries3(m: Matrix, a: real, b: real, c: real, d: real, e: real, f: real, g: real, h: real, i: real)
    requires m == Matrix3(a, b, c, d, e, f, g, h, i)
    requires Product(m, Transpose(m)) == IDENTITY == Product(Transpose(m), m) && Cofactors(m) == m
    ensures Rotating(a, b, c, d, e, f, g, h, i)
  {
    RowsOrthonormal(a, b, c, d, e, f, g, h, i);
    assert Transpose(m) == Matrix3(a, d, g, b, e, h, c, f, i);
    TransposeColumns(m);
    RowsOrthonormal(a, d, g, b, e, h, c, f, i);
    CofactorsOf3(m, a, b, c, d, e, f, g, h, i);
  }

  // ---------------------------------------------------------------------------------------------
  // From the matrix to the quaternion, by its fourth component.

  /** The sums and differences that give the products of the other components with each other. */
  lemma MixedProducts(a: real, b: real, c: real, d: real, e: real, f: real, g: real, h: real, i: real,
    t: real, u: real, v: real, w: real)
    requires Rotating(a, b, c, d, e, f, g, h, i) && t == 1.0 + a + e + i && u == f - h && v == g - c && w == b - d
    ensures u * v == t * (b + d) && u * w == t * (c + g) && v * w == t * (f + h)
  {
  }

  lemma SquaredProducts(a: real, b: real, c: real, d: real, e: real, f: real, g: real, h: real, i: real,
    t: real, u: real, v: real, w: real)
    requires Rotating(a, b, c, d, e, f, g, h, i) && t == 1.0 + a + e + i && u == f - h && v == g - c && w == b - d
    ensures u * u == t * (1.0 + a - e - i) && v * v == t * (1.0 + e - a - i) && w * w == t * (1.0 + i - a - e)
  {
  }

  /** Quotients x and y of two numbers by the double root s of t. */
  lemma QuotientProducts(a: real, b: real, x: real, y: real, s: real, t: real, p: real)
    requires s > 0.0 && s * s == 4.0 * t && a * b == t * p && a == x * s && b == y * s
    ensures 4.0 * (x * y) == p
  {
    assert a * b == (x * y) * (s * s);
    MulEq(x * y, s * s, 4.0 * t);
    assert t * (4.0 * (x * y) - p) == 0.0;
    SquareSign(s, s, s * s);
  }

  lemma QuotientWithRoot(a: real, x: real, w: real, s: real)
    requires a == x * s && w == 0.25 * s
    ensures 4.0 * (w * x) == a
  {
    MulEq(x, w, 0.25 * s);
  }

  /** A quaternion whose products are given by the matrix is a unit quaternion with that matrix. */
  lemma ProductsGive(q: Quaternion, m: Matrix)
    requires TurnsOnly(m)
    requires GivesMixed(q, m) && GivesSquares(q, m)
    ensures Rotates(q, m)
  {
    KeptEntry(q.y, q.z, m.r0.x0, 1.0 + m.r1.x1 - m.r0.x0 - m.r2.x2, 1.0 + m.r2.x2 - m.r0.x0 - m.r1.x1);
    KeptEntry(q.x, q.z, m.r1.x1, 1.0 + m.r0.x0 - m.r1.x1 - m.r2.x2, 1.0 + m.r2.x2 - m.r0.x0 - m.r1.x1);
    KeptEntry(q.x, q.y, m.r2.x2, 1.0 + m.r0.x0 - m.r1.x1 - m.r2.x2, 1.0 + m.r1.x1 - m.r0.x0 - m.r2.x2);
    MixedEntries(q.x, q.y, q.z, q.w, m.r0.x1, m.r1.x0);
    MixedEntries(q.x, q.z, q.y, q.w, m.r2.x0, m.r0.x2);
    MixedEntries(q.y, q.z, q.x, q.w, m.r1.x2, m.r2.x1);
  }

  lemma KeptEntry(y: real, z: real, a: real, yy: real, zz: real)
    requires 4.0 * (y * y) == yy && 4.0 * (z * z) == zz && yy + zz == 2.0 - 2.0 * a
    ensures Kept(1.0, y, z) == a
  {
  }

  lemma MixedEntries(x: real, y: real, z: real, w: real, a: real, b: real)
    requires 4.0 * (x * y) == a + b && 4.0 * (w * z) == a - b
    ensures Mixed(x, y, z, w) == a && Unmixed(x, y, z, w) == b
  {
  }

  /** The products of the components of q, from those of u, v and w. */
  lemma ProductsOf(q: Quaternion, s: real, t: real, u: real, v: real, w: real, uv: real, uw: real, vw: real)
    requires s > 0.0 && s * s == 4.0 * t && u == q.x * s && v == q.y * s && w == q.z * s && q.w == 0.25 * s
    requires u * v == t * uv && u * w == t * uw && v * w == t * vw
    ensures 4.0 * (q.x * q.y) == uv && 4.0 * (q.x * q.z) == uw && 4.0 * (q.y * q.z) == vw
    ensures 4.0 * (q.w * q.x) == u && 4.0 * (q.w * q.y) == v && 4.0 * (q.w * q.z) == w
  {
    QuotientProducts(u, v, q.x, q.y, s, t, uv);
    QuotientProducts(u, w, q.x, q.z, s, t, uw);
    QuotientProducts(v, w, q.y, q.z, s, t, vw);
    QuotientWithRoot(u, q.x, q.w, s);
    QuotientWithRoot(v, q.y, q.w, s);
    QuotientWithRoot(w, q.z, q.w, s);
  }

  lemma SquareOf(x: real, s: real, t: real, u: real, uu: real)
    requires s > 0.0 && s * s == 4.0 * t && u == x * s && u * u == t * uu
    ensures 4.0 * (x * x) == uu
  {
    QuotientProducts(u, u, x, x, s, t, uu);
  }

  lemma SquareOfRoot(w: real, s: real, t: real)
    requires s * s == 4.0 * t && w == 0.25 * s
    ensures 4.0 * (w * w) == t
  {
    assert 4.0 * (w * w) == 0.25 * (s * s);
  }

  /** What the off-diagonal and what the diagonal entries say of the products of the components. */
  ghost predicate GivesMixed(q: Quaternion, m: Matrix) {
    && 4.0 * (q.x * q.y) == m.r0.x1 + m.r1.x0 && 4.0 * (q.w * q.z) == m.r0.x1 - m.r1.x0
    && 4.0 * (q.x * q.z) == m.r0.x2 + m.r2.x0 && 4.0 * (q.w * q.y) == m.r2.x0 - m.r0.x2
    && 4.0 * (q.y * q.z) == m.r1.x2 + m.r2.x1 && 4.0 * (q.w * q.x) == m.r1.x2 - m.r2.x1
  }

  ghost predicate GivesSquares(q: Quaternion, m: Matrix) {
    && 4.0 * (q.x * q.x) == 1.0 + m.r0.x0 - m.r1.x1 - m.r2.x2
    && 4.0 * (q.y * q.y) == 1.0 + m.r1.x1 - m.r0.x0 - m.r2.x2
    && 4.0 * (q.z * q.z) == 1.0 + m.r2.x2 - m.r0.x0 - m.r1.x1
    && 4.0 * (q.w * q.w) == 1.0 + m.r0.x0 + m.r1.x1 + m.r2.x2
  }

  /** u, v and w are the differences of opposite entries, and q their quotients by the double root s of t. */
  ghost predicate ReadByTrace(q: Quaternion, m: Matrix, s: real, t: real, u: real, v: real, w: real) {
    && t == 1.0 + m.r0.x0 + m.r1.x1 + m.r2.x2 && s > 0.0 && s * s == 4.0 * t
    && u == m.r1.x2 - m.r2.x1 && v == m.r2.x0 - m.r0.x2 && w == m.r0.x1 - m.r1.x0
    && u == q.x * s && v == q.y * s && w == q.z * s && q.w == 0.25 * s
  }

  lemma FromMixed(q: Quaternion, m: Matrix, s: real, t: real, u: real, v: real, w: real)
    requires ReadByTrace(q, m, s, t, u, v, w)
    requires u * v == t * (m.r0.x1 + m.r1.x0) && u * w == t * (m.r0.x2 + m.r2.x0) && v * w == t * (m.r1.x2 + m.r2.x1)
    ensures GivesMixed(q, m)
  {
    ProductsOf(q, s, t, u, v, w, m.r0.x1 + m.r1.x0, m.r0.x2 + m.r2.x0, m.r1.x2 + m.r2.x1);
  }

  lemma FromSquares(q: Quaternion, m: Matrix, s: real, t: real, u: real, v: real, w: real, uu: real, vv: real, ww: real)
    requires ReadByTrace(q, m, s, t, u, v, w) && u * u == t * uu && v * v == t * vv && w * w == t * ww
    requires uu == 1.0 + m.r0.x0 - m.r1.x1 - m.r2.x2 && vv == 1.0 + m.r1.x1 - m.r0.x0 - m.r2.x2
    requires ww == 1.0 + m.r2.x2 - m.r0.x0 - m.r1.x1
    ensures GivesSquares(q, m)
  {
    SquareOf(q.x, s, t, u, uu);
    SquareOf(q.y, s, t, v, vv);
    SquareOf(q.z, s, t, w, ww);
    SquareOfRoot(q.w, s, t);
  }

  lemma FromFourth(q: Quaternion, m: Matrix, s: real, t: real, u: real, v: real, w: real)
    requires TurnsOnly(m)
    requires Rotating(m.r0.x0, m.r0.x1, m.r0.x2, m.r1.x0, m.r1.x1, m.r1.x2, m.r2.x0, m.r2.x1, m.r2.x2)
    requires ReadByTrace(q, m, s, t, u, v, w)
    ensures Rotates(q, m)
  {
    MixedProducts(m.r0.x0, m.r0.x1, m.r0.x2, m.r1.x0, m.r1.x1, m.r1.x2, m.r2.x0, m.r2.x1, m.r2.x2, t, u, v, w);
    SquaredProducts(m.r0.x0, m.r0.x1, m.r0.x2, m.r1.x0, m.r1.x1, m.r1.x2, m.r2.x0, m.r2.x1, m.r2.x2, t, u, v, w);
    FromMixed(q, m, s, t, u, v, w);
    FromSquares(q, m, s, t, u, v, w, 1.0 + m.r0.x0 - m.r1.x1 - m.r2.x2, 1.0 + m.r1.x1 - m.r0.x0 - m.r2.x2,
      1.0 + m.r2.x2 - m.r0.x0 - m.r1.x1);
    ProductsGive(q, m);
  }

  /** When the trace is large enough, the matrix is that of a quaternion whose fourth component is not zero. */
  lemma QuaternionByTrace(m: Matrix, sqrt: real -> real) returns (q: Quaternion)
    requires IsRotation(m) && IsSqrt(sqrt) && m.r0.x0 + m.r1.x1 + m.r2.x2 + 1.0 > 0.0
    ensures Rotates(q, m)
  {
    RotationEntries(m);
    var t := 1.0 + m.r0.x0 + m.r1.x1 + m.r2.x2;
    RootIsPositive(sqrt, t);
    var s := 2.0 * sqrt(t);
    q := Quaternion((m.r1.x2 - m.r2.x1) / s, (m.r2.x0 - m.r0.x2) / s, (m.r0.x1 - m.r1.x0) / s, 0.25 * s);
    FromFourth(q, m, s, t, m.r1.x2 - m.r2.x1, m.r2.x0 - m.r0.x2, m.r0.x1 - m.r1.x0);
  }

  // ---------------------------------------------------------------------------------------------
  // The other three components, by half a turn about an axis.

  const HALF_TURN_X: Quaternion := Quaternion(1.0, 0.0, 0.0, 0.0)
  const HALF_TURN_Y: Quaternion := Quaternion(0.0, 1.0, 0.0, 0.0)
  const HALF_TURN_Z: Quaternion := Quaternion(0.0, 0.0, 1.0, 0.0)

  lemma HalfTurns()
    ensures Unit(HALF_TURN_X) && Rotation(HALF_TURN_X) == Matrix3(1.0, 0.0, 0.0, 0.0, -1.0, 0.0, 0.0, 0.0, -1.0)
    ensures Unit(HALF_TURN_Y) && Rotation(HALF_TURN_Y) == Matrix3(-1.0, 0.0, 0.0, 0.0, 1.0, 0.0, 0.0, 0.0, -1.0)
    ensures Unit(HALF_TURN_Z) && Rotation(HALF_TURN_Z) == Matrix3(-1.0, 0.0, 0.0, 0.0, -1.0, 0.0, 0.0, 0.0, 1.0)
  {
  }

  /** Rotations can be composed. */
  lemma ProductRotates(a: Matrix, b: Matrix)
    requires IsRotation(a) && IsRotation(b)
    ensures IsRotation(Product(a, b))
  {
    TransposeOfProduct(a, b);
    ProductAssociative(Product(a, b), Transpose(b), Transpose(a));
    ProductAssociative(a, b, Transpose(b));
    TimesIdentity(a);
    DeterminantOfProduct(a, b);
    RotationEntries(b);
    LastRowKept(a, b);
  }

  lemma LastRowKept(a: Matrix, b: Matrix)
    requires a.r3 == Row(0.0, 0.0, 0.0, 1.0)
    ensures Product(a, b).r3 == b.r3
  {
    DotOf(0.0, 0.0, 0.0, 1.0, b.r0.x0, b.r1.x0, b.r2.x0, b.r3.x0);
    DotOf(0.0, 0.0, 0.0, 1.0, b.r0.x1, b.r1.x1, b.r2.x1, b.r3.x1);
    DotOf(0.0, 0.0, 0.0, 1.0, b.r0.x2, b.r1.x2, b.r2.x2, b.r3.x2);
    DotOf(0.0, 0.0, 0.0, 1.0, b.r0.x3, b.r1.x3, b.r2.x3, b.r3.x3);
  }

  /** What half a turn in front does to a diagonal. */
  lemma TurnedDiagonal(x: real, y: real, z: real, m: Matrix)
    ensures var p := Product(Matrix3(x, 0.0, 0.0, 0.0, y, 0.0, 0.0, 0.0, z), m);
      p.r0.x0 == x * m.r0.x0 && p.r1.x1 == y * m.r1.x1 && p.r2.x2 == z * m.r2.x2
  {
    DotOf(x, 0.0, 0.0, 0.0, m.r0.x0, m.r1.x0, m.r2.x0, m.r3.x0);
    DotOf(0.0, y, 0.0, 0.0, m.r0.x1, m.r1.x1, m.r2.x1, m.r3.x1);
    DotOf(0.0, 0.0, z, 0.0, m.r0.x2, m.r1.x2, m.r2.x2, m.r3.x2);
  }

  /** A matrix that is a rotation by a quaternion after half a turn is one by a quaternion itself. */
  lemma TurnBack(m: Matrix, h: Quaternion, q: Quaternion) returns (r: Quaternion)
    requires Unit(h) && Product(Rotation(h), Rotation(h)) == IDENTITY && Rotates(q, Product(Rotation(h), m))
    ensures Rotates(r, m)
  {
    r := Hamilton(q, h);
    RotationOfProduct(h, q);
    ProductAssociative(Rotation(h), Rotation(h), m);
    IdentityTimes(m);
  }

  lemma HalfTurnTwice(x: real, y: real, z: real)
    requires x * x == 1.0 && y * y == 1.0 && z * z == 1.0
    ensures var d := Matrix3(x, 0.0, 0.0, 0.0, y, 0.0, 0.0, 0.0, z); Product(d, d) == IDENTITY
  {
  }

  /** The same through half a turn h, whose matrix has x, y and z on the diagonal. */
  lemma QuaternionByTurn(m: Matrix, sqrt: real -> real, h: Quaternion, x: real, y: real, z: real)
    returns (q: Quaternion)
    requires IsRotation(m) && IsSqrt(sqrt)
    requires Unit(h) && Rotation(h) == Matrix3(x, 0.0, 0.0, 0.0, y, 0.0, 0.0, 0.0, z)
    requires x * x == 1.0 && y * y == 1.0 && z * z == 1.0
    requires x * m.r0.x0 + y * m.r1.x1 + z * m.r2.x2 + 1.0 > 0.0
    ensures Rotates(q, m)
  {
    UnitRotates(h);
    ProductRotates(Rotation(h), m);
    TurnedDiagonal(x, y, z, m);
    HalfTurnTwice(x, y, z);
    q := QuaternionByTrace(Product(Rotation(h), m), sqrt);
    q := TurnBack(m, h, q);
  }

  lemma QuaternionOf(m: Matrix, sqrt: real -> real) returns (q: Quaternion)
    requires IsRotation(m) && IsSqrt(sqrt)
    ensures Rotates(q, m)
  {
    HalfTurns();
    var a, e, i := m.r0.x0, m.r1.x1, m.r2.x2;
    if a + e + i + 1.0 > 0.0 {
      q := QuaternionByTrace(m, sqrt);
    } else if a - e - i + 1.0 > 0.0 {
      q := QuaternionByTurn(m, sqrt, HALF_TURN_X, 1.0, -1.0, -1.0);
    } else if -a + e - i + 1.0 > 0.0 {
      q := QuaternionByTurn(m, sqrt, HALF_TURN_Y, -1.0, 1.0, -1.0);
    } else {
      q := QuaternionByTurn(m, sqrt, HALF_TURN_Z, -1.0, -1.0, 1.0);
    }
  }

  /** The rotation matrices are exactly the matrices of unit quaternions. */
  lemma RotatesIff(m: Matrix, sqrt: real -> real)
    requires IsSqrt(sqrt)
    ensures IsRotation(m) <==> exists q :: Rotates(q, m)
  {
    if IsRotation(m) {
      var q := QuaternionOf(m, sqrt);
    }
    if exists q :: Rotates(q, m) {
      var q :| Rotates(q, m);
      UnitRotates(q);
    }
  }

  lemma SameUpToSign(p: Quaternion, q: Quaternion, m: Matrix)
    requires Rotates(q, m) && UpToSign(p, q)
    ensures Rotates(p, m)
  {
    NegatedRotation(q);
    NegatedUnit(q);
  }

  lemma NegatedUnit(q: Quaternion)
    requires Unit(q)
    ensures Unit(Negated(q))
  {
  }

  /** From every rotation matrix a unit quaternion with that matrix, which leaves open its sign and nothing else. */
  method DXQuaternionRotationMatrix(m: array2<real>, sqrt: real -> real) returns (out: Quaternion)
    requires Is4x4(m) && IsSqrt(sqrt)
    ensures forall q :: Rotates(q, Value(m)) ==> UpToSign(out, q)
    ensures IsRotation(Value(m)) ==> Rotates(out, Value(m))
  {
    var trace := m[0, 0] + m[1, 1] + m[2, 2] + 1.0;
    if trace > 1.0 {
      out := ReadW(m, sqrt, trace);
    } else {
      var maxi := LargestDiagonal(m);
      if maxi == 0 {
        out := ReadX(m, sqrt, 1.0 + m[0, 0] - m[1, 1] - m[2, 2]);
      } else if maxi == 1 {
        out := ReadY(m, sqrt, 1.0 + m[1, 1] - m[0, 0] - m[2, 2]);
      } else {
        out := ReadZ(m, sqrt, 1.0 + m[2, 2] - m[0, 0] - m[1, 1]);
      }
    }
    if IsRotation(Value(m)) {
      ghost var q := QuaternionOf(Value(m), sqrt);
      SameUpToSign(out, q, Value(m));
    }
  }
}
