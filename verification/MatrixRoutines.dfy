/**
 * DXMatrixDeterminant, DXMatrixInverse and DXMatrixMultiply of 3D/Math.h. A matrix in memory is a 4x4 array; the
 * output may be the same array as an input.
 */
module MatrixRoutines {
  import opened Common
  import opened MatrixAlgebra

  ghost predicate Is4x4(a: array2<real>) {
    a.Length0 == 4 && a.Length1 == 4
  }

  ghost function Value(a: array2<real>): Matrix
    requires Is4x4(a)
    reads a
  {
    Matrix(Row(a[0, 0], a[0, 1], a[0, 2], a[0, 3]), Row(a[1, 0], a[1, 1], a[1, 2], a[1, 3]),
           Row(a[2, 0], a[2, 1], a[2, 2], a[2, 3]), Row(a[3, 0], a[3, 1], a[3, 2], a[3, 3]))
  }

  // ---------------------------------------------------------------------------------------------
  // 3x3 determinants as the routines expand them: down a column, over 2x2 minors that several of them share.

  /** Down the first column. */
  lemma DownFirst(a: real, b: real, c: real, d: real, e: real, f: real, g: real, h: real, i: real,
    x: real, y: real, z: real, v: real)
    requires x == e * i - f * h && y == b * i - c * h && z == b * f - c * e
    requires v == a * x - d * y + g * z
    ensures v == Det3(a, b, c, d, e, f, g, h, i)
  {
    MulEq(a, x, e * i - f * h);
    MulEq(d, y, b * i - c * h);
    MulEq(g, z, b * f - c * e);
  }

  lemma DownFirstNegated(a: real, b: real, c: real, d: real, e: real, f: real, g: real, h: real, i: real,
    x: real, y: real, z: real, v: real)
    requires x == e * i - f * h && y == b * i - c * h && z == b * f - c * e
    requires v == -a * x + d * y - g * z
    ensures v == -Det3(a, b, c, d, e, f, g, h, i)
  {
    DownFirst(a, b, c, d, e, f, g, h, i, x, y, z, -v);
  }

  /** Down the last column. */
  lemma DownLast(a: real, b: real, c: real, d: real, e: real, f: real, g: real, h: real, i: real,
    x: real, y: real, z: real, v: real)
    requires x == a * e - d * b && y == a * h - g * b && z == d * h - g * e
    requires v == i * x - f * y + c * z
    ensures v == Det3(a, b, c, d, e, f, g, h, i)
  {
    MulEq(i, x, a * e - d * b);
    MulEq(f, y, a * h - g * b);
    MulEq(c, z, d * h - g * e);
  }

  lemma DownLastNegated(a: real, b: real, c: real, d: real, e: real, f: real, g: real, h: real, i: real,
    x: real, y: real, z: real, v: real)
    requires x == a * e - d * b && y == a * h - g * b && z == d * h - g * e
    requires v == -i * x + f * y - c * z
    ensures v == -Det3(a, b, c, d, e, f, g, h, i)
  {
    DownLast(a, b, c, d, e, f, g, h, i, x, y, z, -v);
  }

  /** The same with the middle minor negated. */
  lemma DownLastMixed(a: real, b: real, c: real, d: real, e: real, f: real, g: real, h: real, i: real,
    x: real, y: real, z: real, v: real)
    requires x == a * e - d * b && y == g * b - a * h && z == d * h - g * e
    requires v == i * x + f * y + c * z
    ensures v == Det3(a, b, c, d, e, f, g, h, i)
  {
    MulEq(i, x, a * e - d * b);
    MulEq(f, y, g * b - a * h);
    MulEq(c, z, d * h - g * e);
  }

  lemma DownLastMixedNegated(a: real, b: real, c: real, d: real, e: real, f: real, g: real, h: real, i: real,
    x: real, y: real, z: real, v: real)
    requires x == a * e - d * b && y == g * b - a * h && z == d * h - g * e
    requires v == -i * x - f * y - c * z
    ensures v == -Det3(a, b, c, d, e, f, g, h, i)
  {
    DownLastMixed(a, b, c, d, e, f, g, h, i, x, y, z, -v);
  }

  /** The cofactors of the rows, as 3x3 determinants of the other three. */
  lemma CofactorsAre(m: Matrix, p: Row, q: Row, r: Row, s: Row)
    requires m == Matrix(p, q, r, s)
    ensures Cofactors(m).r0 == Cross(q, r, s)
    ensures Cofactors(m).r1 == Opposite(Cross(p, r, s))
    ensures Cofactors(m).r2 == Cross(p, q, s)
    ensures Cofactors(m).r3 == Opposite(Cross(p, q, r))
  {
  }

  function Opposite(p: Row): Row { Row(-p.x0, -p.x1, -p.x2, -p.x3) }

  lemma CrossIs(p0: real, p1: real, p2: real, p3: real, q0: real, q1: real, q2: real, q3: real,
    r0: real, r1: real, r2: real, r3: real)
    ensures Cross(Row(p0, p1, p2, p3), Row(q0, q1, q2, q3), Row(r0, r1, r2, r3)) ==
      Row(Det3(p1, p2, p3, q1, q2, q3, r1, r2, r3), -Det3(p0, p2, p3, q0, q2, q3, r0, r2, r3),
          Det3(p0, p1, p3, q0, q1, q3, r0, r1, r3), -Det3(p0, p1, p2, q0, q1, q2, r0, r1, r2))
  {
  }

  method DXMatrixDeterminant(pm: array2<real>) returns (r: real)
    requires Is4x4(pm)
    ensures r == Determinant(Value(pm))
  {
    var m00, m01, m02, m03 := pm[0, 0], pm[0, 1], pm[0, 2], pm[0, 3];
    var m10, m11, m12, m13 := pm[1, 0], pm[1, 1], pm[1, 2], pm[1, 3];
    var m20, m21, m22, m23 := pm[2, 0], pm[2, 1], pm[2, 2], pm[2, 3];
    var m30, m31, m32, m33 := pm[3, 0], pm[3, 1], pm[3, 2], pm[3, 3];
    var t0 := m22 * m33 - m23 * m32;
    var t1 := m12 * m33 - m13 * m32;
    var t2 := m12 * m23 - m13 * m22;
    var v0 := m11 * t0 - m21 * t1 + m31 * t2;
    var v1 := -m10 * t0 + m20 * t1 - m30 * t2;
    DownFirst(m11, m12, m13, m21, m22, m23, m31, m32, m33, t0, t1, t2, v0);
    DownFirstNegated(m10, m12, m13, m20, m22, m23, m30, m32, m33, t0, t1, t2, v1);
    var u0 := m10 * m21 - m20 * m11;
    var u1 := m10 * m31 - m30 * m11;
    var u2 := m20 * m31 - m30 * m21;
    var v2 := m33 * u0 - m23 * u1 + m13 * u2;
    var v3 := -m32 * u0 + m22 * u1 - m12 * u2;
    DownLast(m10, m11, m13, m20, m21, m23, m30, m31, m33, u0, u1, u2, v2);
    DownLastNegated(m10, m11, m12, m20, m21, m22, m30, m31, m32, u0, u1, u2, v3);
    CrossIs(m10, m11, m12, m13, m20, m21, m22, m23, m30, m31, m32, m33);
    CofactorsAre(Value(pm), Row(m00, m01, m02, m03), Row(m10, m11, m12, m13), Row(m20, m21, m22, m23),
      Row(m30, m31, m32, m33));
    r := m00 * v0 + m01 * v1 + m02 * v2 + m03 * v3;
    DotOf(m00, m01, m02, m03, v0, v1, v2, v3);
  }

  /** The first part of DXMatrixInverse: the cofactors of the first row, which give the determinant. */
  method FirstRowCofactors(pm: array2<real>) returns (v0: real, v4: real, v8: real, v12: real)
    requires Is4x4(pm)
    ensures Cofactors(Value(pm)).r0 == Row(v0, v4, v8, v12)
  {
    var m00, m01, m02, m03 := pm[0, 0], pm[0, 1], pm[0, 2], pm[0, 3];
    var m10, m11, m12, m13 := pm[1, 0], pm[1, 1], pm[1, 2], pm[1, 3];
    var m20, m21, m22, m23 := pm[2, 0], pm[2, 1], pm[2, 2], pm[2, 3];
    var m30, m31, m32, m33 := pm[3, 0], pm[3, 1], pm[3, 2], pm[3, 3];
    var t0 := m22 * m33 - m23 * m32;
    var t1 := m12 * m33 - m13 * m32;
    var t2 := m12 * m23 - m13 * m22;
    v0 := m11 * t0 - m21 * t1 + m31 * t2;
    v4 := -m10 * t0 + m20 * t1 - m30 * t2;
    DownFirst(m11, m12, m13, m21, m22, m23, m31, m32, m33, t0, t1, t2, v0);
    DownFirstNegated(m10, m12, m13, m20, m22, m23, m30, m32, m33, t0, t1, t2, v4);
    var u0 := m10 * m21 - m20 * m11;
    var u1 := m10 * m31 - m30 * m11;
    var u2 := m20 * m31 - m30 * m21;
    v8 := m33 * u0 - m23 * u1 + m13 * u2;
    v12 := -m32 * u0 + m22 * u1 - m12 * u2;
    DownLast(m10, m11, m13, m20, m21, m23, m30, m31, m33, u0, u1, u2, v8);
    DownLastNegated(m10, m11, m12, m20, m21, m22, m30, m31, m32, u0, u1, u2, v12);
    CrossIs(m10, m11, m12, m13, m20, m21, m22, m23, m30, m31, m32, m33);
    CofactorsAre(Value(pm), Row(m00, m01, m02, m03), Row(m10, m11, m12, m13), Row(m20, m21, m22, m23),
      Row(m30, m31, m32, m33));
  }

  method SecondRowCofactors(pm: array2<real>) returns (v1: real, v5: real, v9: real, v13: real)
    requires Is4x4(pm)
    ensures Cofactors(Value(pm)).r1 == Row(v1, v5, v9, v13)
  {
    var m00, m01, m02, m03 := pm[0, 0], pm[0, 1], pm[0, 2], pm[0, 3];
    var m10, m11, m12, m13 := pm[1, 0], pm[1, 1], pm[1, 2], pm[1, 3];
    var m20, m21, m22, m23 := pm[2, 0], pm[2, 1], pm[2, 2], pm[2, 3];
    var m30, m31, m32, m33 := pm[3, 0], pm[3, 1], pm[3, 2], pm[3, 3];
    var t0 := m22 * m33 - m23 * m32;
    var t1 := m02 * m33 - m03 * m32;
    var t2 := m02 * m23 - m03 * m22;
    v1 := -m01 * t0 + m21 * t1 - m31 * t2;
    v5 := m00 * t0 - m20 * t1 + m30 * t2;
    DownFirstNegated(m01, m02, m03, m21, m22, m23, m31, m32, m33, t0, t1, t2, v1);
    DownFirst(m00, m02, m03, m20, m22, m23, m30, m32, m33, t0, t1, t2, v5);
    var u0 := m00 * m21 - m20 * m01;
    var u1 := m30 * m01 - m00 * m31;
    var u2 := m20 * m31 - m30 * m21;
    v9 := -m33 * u0 - m23 * u1 - m03 * u2;
    v13 := m32 * u0 + m22 * u1 + m02 * u2;
    DownLastMixedNegated(m00, m01, m03, m20, m21, m23, m30, m31, m33, u0, u1, u2, v9);
    DownLastMixed(m00, m01, m02, m20, m21, m22, m30, m31, m32, u0, u1, u2, v13);
    CrossIs(m00, m01, m02, m03, m20, m21, m22, m23, m30, m31, m32, m33);
    CofactorsAre(Value(pm), Row(m00, m01, m02, m03), Row(m10, m11, m12, m13), Row(m20, m21, m22, m23),
      Row(m30, m31, m32, m33));
  }

  method ThirdRowCofactors(pm: array2<real>) returns (v2: real, v6: real, v10: real, v14: real)
    requires Is4x4(pm)
    ensures Cofactors(Value(pm)).r2 == Row(v2, v6, v10, v14)
  {
    var m00, m01, m02, m03 := pm[0, 0], pm[0, 1], pm[0, 2], pm[0, 3];
    var m10, m11, m12, m13 := pm[1, 0], pm[1, 1], pm[1, 2], pm[1, 3];
    var m20, m21, m22, m23 := pm[2, 0], pm[2, 1], pm[2, 2], pm[2, 3];
    var m30, m31, m32, m33 := pm[3, 0], pm[3, 1], pm[3, 2], pm[3, 3];
    var t0 := m12 * m33 - m13 * m32;
    var t1 := m02 * m33 - m03 * m32;
    var t2 := m02 * m13 - m03 * m12;
    v2 := m01 * t0 - m11 * t1 + m31 * t2;
    v6 := -m00 * t0 + m10 * t1 - m30 * t2;
    DownFirst(m01, m02, m03, m11, m12, m13, m31, m32, m33, t0, t1, t2, v2);
    DownFirstNegated(m00, m02, m03, m10, m12, m13, m30, m32, m33, t0, t1, t2, v6);
    var u0 := m00 * m11 - m10 * m01;
    var u1 := m30 * m01 - m00 * m31;
    var u2 := m10 * m31 - m30 * m11;
    v10 := m33 * u0 + m13 * u1 + m03 * u2;
    v14 := -m32 * u0 - m12 * u1 - m02 * u2;
    DownLastMixed(m00, m01, m03, m10, m11, m13, m30, m31, m33, u0, u1, u2, v10);
    DownLastMixedNegated(m00, m01, m02, m10, m11, m12, m30, m31, m32, u0, u1, u2, v14);
    CrossIs(m00, m01, m02, m03, m10, m11, m12, m13, m30, m31, m32, m33);
    CofactorsAre(Value(pm), Row(m00, m01, m02, m03), Row(m10, m11, m12, m13), Row(m20, m21, m22, m23),
      Row(m30, m31, m32, m33));
  }

  method FourthRowCofactors(pm: array2<real>) returns (v3: real, v7: real, v11: real, v15: real)
    requires Is4x4(pm)
    ensures Cofactors(Value(pm)).r3 == Row(v3, v7, v11, v15)
  {
    var m00, m01, m02, m03 := pm[0, 0], pm[0, 1], pm[0, 2], pm[0, 3];
    var m10, m11, m12, m13 := pm[1, 0], pm[1, 1], pm[1, 2], pm[1, 3];
    var m20, m21, m22, m23 := pm[2, 0], pm[2, 1], pm[2, 2], pm[2, 3];
    var m30, m31, m32, m33 := pm[3, 0], pm[3, 1], pm[3, 2], pm[3, 3];
    var t0 := m12 * m23 - m13 * m22;
    var t1 := m02 * m23 - m03 * m22;
    var t2 := m02 * m13 - m03 * m12;
    v3 := -m01 * t0 + m11 * t1 - m21 * t2;
    v7 := m00 * t0 - m10 * t1 + m20 * t2;
    DownFirstNegated(m01, m02, m03, m11, m12, m13, m21, m22, m23, t0, t1, t2, v3);
    DownFirst(m00, m02, m03, m10, m12, m13, m20, m22, m23, t0, t1, t2, v7);
    var u0 := m11 * m23 - m13 * m21;
    var u1 := m01 * m23 - m03 * m21;
    var u2 := m01 * m13 - m03 * m11;
    v11 := -m00 * u0 + m10 * u1 - m20 * u2;
    var w0 := m11 * m22 - m12 * m21;
    var w1 := m01 * m22 - m02 * m21;
    var w2 := m01 * m12 - m02 * m11;
    v15 := m00 * w0 - m10 * w1 + m20 * w2;
    DownFirstNegated(m00, m01, m03, m10, m11, m13, m20, m21, m23, u0, u1, u2, v11);
    DownFirst(m00, m01, m02, m10, m11, m12, m20, m21, m22, w0, w1, w2, v15);
    CrossIs(m00, m01, m02, m03, m10, m11, m12, m13, m20, m21, m22, m23);
    CofactorsAre(Value(pm), Row(m00, m01, m02, m03), Row(m10, m11, m12, m13), Row(m20, m21, m22, m23),
      Row(m30, m31, m32, m33));
  }

  /** The work array, read row by row. */
  function Laid(v: seq<real>): Matrix
    requires |v| == 16
  {
    Matrix(Row(v[0], v[1], v[2], v[3]), Row(v[4], v[5], v[6], v[7]),
           Row(v[8], v[9], v[10], v[11]), Row(v[12], v[13], v[14], v[15]))
  }

  /** The work array is filled column by column with the rows of cofactors. */
  lemma LaidIsTransposed(c: Matrix, v: seq<real>)
    requires |v| == 16
    requires c.r0 == Row(v[0], v[4], v[8], v[12]) && c.r1 == Row(v[1], v[5], v[9], v[13])
    requires c.r2 == Row(v[2], v[6], v[10], v[14]) && c.r3 == Row(v[3], v[7], v[11], v[15])
    ensures Laid(v) == Transpose(c)
  {
  }

  lemma ScaledFour(k: real, a: real, b: real, c: real, d: real, p: Row)
    requires p.x0 == a * k && p.x1 == b * k && p.x2 == c * k && p.x3 == d * k
    ensures p == Times1(k, Row(a, b, c, d))
  {
    ScaledRow(k, a, b, c, d);
  }

  /**
   * `pout` receives the inverse, or zeros when there is none. The determinant is stored only over a value that is
   * not zero, as the test on the output parameter reads its value.
   */
  method DXMatrixInverse(pout: array2<real>, pdeterminant: real, pm: array2<real>) returns (determinant: real)
    requires Is4x4(pout) && Is4x4(pm)
    modifies pout
    ensures var m := old(Value(pm));
      if Determinant(m) == 0.0 then
        (forall i, j :: 0 <= i < 4 && 0 <= j < 4 ==> pout[i, j] == 0.0) && determinant == pdeterminant
      else
        Value(pout) == Inverse(m) && determinant == if pdeterminant != 0.0 then Determinant(m) else pdeterminant
  {
    ghost var m := Value(pm);
    var v0, v4, v8, v12 := FirstRowCofactors(pm);
    var det := ExpandFirstRow(pm, v0, v4, v8, v12);
    determinant := pdeterminant;
    if det == 0.0 {
      Clear(pout);
      return;
    }
    if determinant != 0.0 {
      determinant := det;
    }
    FillInverse(pout, det, pm, v0, v4, v8, v12);
  }

  method ExpandFirstRow(pm: array2<real>, v0: real, v4: real, v8: real, v12: real) returns (det: real)
    requires Is4x4(pm) && Cofactors(Value(pm)).r0 == Row(v0, v4, v8, v12)
    ensures det == Determinant(Value(pm))
  {
    det := pm[0, 0] * v0 + pm[0, 1] * v4 + pm[0, 2] * v8 + pm[0, 3] * v12;
    DotOf(pm[0, 0], pm[0, 1], pm[0, 2], pm[0, 3], v0, v4, v8, v12);
    assert Value(pm).r0 == Row(pm[0, 0], pm[0, 1], pm[0, 2], pm[0, 3]);
  }

  /** The last part: the other cofactors, and the scaled work array. */
  method FillInverse(pout: array2<real>, det: real, pm: array2<real>, v0: real, v4: real, v8: real, v12: real)
    requires Is4x4(pout) && Is4x4(pm) && det == Determinant(Value(pm)) != 0.0
    requires Cofactors(Value(pm)).r0 == Row(v0, v4, v8, v12)
    modifies pout
    ensures Value(pout) == old(Inverse(Value(pm)))
  {
    ghost var c := Cofactors(Value(pm));
    var v1, v5, v9, v13 := SecondRowCofactors(pm);
    var v2, v6, v10, v14 := ThirdRowCofactors(pm);
    var v3, v7, v11, v15 := FourthRowCofactors(pm);
    var v := new real[16] [v0, v1, v2, v3, v4, v5, v6, v7, v8, v9, v10, v11, v12, v13, v14, v15];
    LaidIsTransposed(c, v[..]);
    FillScaled(pout, v, 1.0 / det);
  }

  method Clear(pout: array2<real>)
    requires Is4x4(pout)
    modifies pout
    ensures forall i, j :: 0 <= i < 4 && 0 <= j < 4 ==> pout[i, j] == 0.0
  {
    for j := 0 to 4
      invariant forall a, b :: 0 <= a < j && 0 <= b < 4 ==> pout[a, b] == 0.0
    {
      for i := 0 to 4
        invariant forall a, b :: 0 <= a < j && 0 <= b < 4 ==> pout[a, b] == 0.0
        invariant forall b :: 0 <= b < i ==> pout[j, b] == 0.0
      {
        pout[j, i] := 0.0;
      }
    }
  }

  method FillScaled(pout: array2<real>, v: array<real>, det: real)
    requires Is4x4(pout) && v.Length == 16
    modifies pout
    ensures Value(pout) == Scale(det, Laid(v[..]))
  {
    ghost var m := Scale(det, Laid(v[..]));
    for i := 0 to 4
      invariant i > 0 ==> Value(pout).r0 == m.r0
      invariant i > 1 ==> Value(pout).r1 == m.r1
      invariant i > 2 ==> Value(pout).r2 == m.r2
      invariant i > 3 ==> Value(pout).r3 == m.r3
    {
      FillScaledRow(pout, i, v, det);
    }
  }

  method FillScaledRow(pout: array2<real>, i: nat, v: array<real>, det: real)
    requires Is4x4(pout) && v.Length == 16 && i < 4
    modifies pout
    ensures Row(pout[i, 0], pout[i, 1], pout[i, 2], pout[i, 3])
         == Times1(det, Row(v[4 * i], v[4 * i + 1], v[4 * i + 2], v[4 * i + 3]))
    ensures forall a, b :: 0 <= a < 4 && 0 <= b < 4 && a != i ==> pout[a, b] == old(pout[a, b])
  {
    for j := 0 to 4
      invariant j > 0 ==> pout[i, 0] == v[4 * i] * det
      invariant j > 1 ==> pout[i, 1] == v[4 * i + 1] * det
      invariant j > 2 ==> pout[i, 2] == v[4 * i + 2] * det
      invariant j > 3 ==> pout[i, 3] == v[4 * i + 3] * det
      invariant forall a, b :: 0 <= a < 4 && 0 <= b < 4 && a != i ==> pout[a, b] == old(pout[a, b])
    {
      pout[i, j] := v[4 * i + j] * det;
    }
    ScaledFour(det, v[4 * i], v[4 * i + 1], v[4 * i + 2], v[4 * i + 3],
      Row(pout[i, 0], pout[i, 1], pout[i, 2], pout[i, 3]));
  }

  /** The product; `pout` may be one of the factors. */
  method DXMatrixMultiply(pout: array2<real>, pm1: array2<real>, pm2: array2<real>)
    requires Is4x4(pout) && Is4x4(pm1) && Is4x4(pm2)
    modifies pout
    ensures Value(pout) == Product(old(Value(pm1)), old(Value(pm2)))
  {
    var out := new real[4, 4];
    FillProduct(out, pm1, pm2, Product(Value(pm1), Value(pm2)));
    Copy(pout, out);
  }

  method FillProduct(out: array2<real>, pm1: array2<real>, pm2: array2<real>, ghost c: Matrix)
    requires Is4x4(out) && Is4x4(pm1) && Is4x4(pm2) && out != pm1 && out != pm2
    requires c == Product(Value(pm1), Value(pm2))
    modifies out
    ensures Value(out) == c
  {
    for i := 0 to 4
      invariant forall x, y :: 0 <= x < i && 0 <= y < 4 ==> out[x, y] == c.At(x, y)
    {
      for j := 0 to 4
        invariant forall x, y :: 0 <= x < i && 0 <= y < 4 ==> out[x, y] == c.At(x, y)
        invariant forall y :: 0 <= y < j ==> out[i, y] == c.At(i, y)
      {
        var e := ProductAt(pm1, pm2, i, j);
        out[i, j] := e;
      }
    }
    SameEntries(Value(out), c);
  }

  lemma SameEntries(a: Matrix, b: Matrix)
    requires a.r0.x0 == b.At(0, 0) && a.r0.x1 == b.At(0, 1) && a.r0.x2 == b.At(0, 2) && a.r0.x3 == b.At(0, 3)
    requires a.r1.x0 == b.At(1, 0) && a.r1.x1 == b.At(1, 1) && a.r1.x2 == b.At(1, 2) && a.r1.x3 == b.At(1, 3)
    requires a.r2.x0 == b.At(2, 0) && a.r2.x1 == b.At(2, 1) && a.r2.x2 == b.At(2, 2) && a.r2.x3 == b.At(2, 3)
    requires a.r3.x0 == b.At(3, 0) && a.r3.x1 == b.At(3, 1) && a.r3.x2 == b.At(3, 2) && a.r3.x3 == b.At(3, 3)
    ensures a == b
  {
  }

  method ProductAt(pm1: array2<real>, pm2: array2<real>, i: nat, j: nat) returns (e: real)
    requires Is4x4(pm1) && Is4x4(pm2) && i < 4 && j < 4
    ensures e == Product(Value(pm1), Value(pm2)).At(i, j)
  {
    e := pm1[i, 0] * pm2[0, j] + pm1[i, 1] * pm2[1, j] + pm1[i, 2] * pm2[2, j] + pm1[i, 3] * pm2[3, j];
    ProductEntry(Value(pm1), Value(pm2), i, j, pm1[i, 0], pm1[i, 1], pm1[i, 2], pm1[i, 3],
      pm2[0, j], pm2[1, j], pm2[2, j], pm2[3, j], e);
  }

  lemma ProductEntry(a: Matrix, b: Matrix, i: nat, j: nat,
    p0: real, p1: real, p2: real, p3: real, q0: real, q1: real, q2: real, q3: real, e: real)
    requires i < 4 && j < 4
    requires p0 == a.At(i, 0) && p1 == a.At(i, 1) && p2 == a.At(i, 2) && p3 == a.At(i, 3)
    requires q0 == b.At(0, j) && q1 == b.At(1, j) && q2 == b.At(2, j) && q3 == b.At(3, j)
    requires e == p0 * q0 + p1 * q1 + p2 * q2 + p3 * q3
    ensures e == Product(a, b).At(i, j)
  {
    DotOf(p0, p1, p2, p3, q0, q1, q2, q3);
    assert b.Column(j) == Row(q0, q1, q2, q3);
    assert (if i == 0 then a.r0 else if i == 1 then a.r1 else if i == 2 then a.r2 else a.r3) == Row(p0, p1, p2, p3);
  }

  method Copy(pout: array2<real>, out: array2<real>)
    requires Is4x4(pout) && Is4x4(out) && pout != out
    modifies pout
    ensures Value(pout) == old(Value(out))
  {
    forall i, j | 0 <= i < 4 && 0 <= j < 4 {
      pout[i, j] := out[i, j];
    }
  }

  /** Inverting in place and multiplying back gives the identity in either order. */
  method InvertAndMultiplyBack(pm: array2<real>, right: array2<real>, left: array2<real>) returns (det: real)
    requires Is4x4(pm) && Is4x4(right) && Is4x4(left) && pm != right && pm != left && right != left
    modifies pm, right, left
    ensures det == old(Determinant(Value(pm)))
    ensures det != 0.0 ==> Value(right) == IDENTITY && Value(left) == IDENTITY
  {
    det := DXMatrixDeterminant(pm);
    ghost var m := Value(pm);
    Copy(right, pm);
    Copy(left, pm);
    var _ := DXMatrixInverse(pm, det, pm);
    if det != 0.0 {
      DXMatrixMultiply(right, right, pm);
      DXMatrixMultiply(left, pm, left);
      InverseTwoSided(m);
    }
  }
}
