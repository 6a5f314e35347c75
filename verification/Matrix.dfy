/** 4x4 matrices of 3D/Math.h over idealised floats: product, determinant and inverse. */
module MatrixAlgebra {
  import opened Common

  datatype Row = Row(x0: real, x1: real, x2: real, x3: real) {
    function At(j: nat): real
      requires j < 4
    {
      if j == 0 then x0 else if j == 1 then x1 else if j == 2 then x2 else x3
    }
  }

  datatype Matrix = Matrix(r0: Row, r1: Row, r2: Row, r3: Row) {
    function At(i: nat, j: nat): real
      requires i < 4 && j < 4
    {
      (if i == 0 then r0 else if i == 1 then r1 else if i == 2 then r2 else r3).At(j)
    }

    function Column(j: nat): Row
      requires j < 4
    {
      Row(r0.At(j), r1.At(j), r2.At(j), r3.At(j))
    }
  }

  // ---------------------------------------------------------------------------------------------
  // Textbook definitions.

  function Dot(p: Row, q: Row): real {
    p.x0 * q.x0 + p.x1 * q.x1 + p.x2 * q.x2 + p.x3 * q.x3
  }

  /** The determinant of the 3x3 matrix with rows (a, b, c), (d, e, f), (g, h, i). */
  function Det3(a: real, b: real, c: real, d: real, e: real, f: real, g: real, h: real, i: real): real {
    a * (e * i - f * h) - b * (d * i - f * g) + c * (d * h - e * g)
  }

  /** The signed 3x3 minors of three rows: each leaves out one column. */
  function Cross(p: Row, q: Row, r: Row): Row {
    Row(Det3(p.x1, p.x2, p.x3, q.x1, q.x2, q.x3, r.x1, r.x2, r.x3),
        -Det3(p.x0, p.x2, p.x3, q.x0, q.x2, q.x3, r.x0, r.x2, r.x3),
        Det3(p.x0, p.x1, p.x3, q.x0, q.x1, q.x3, r.x0, r.x1, r.x3),
        -Det3(p.x0, p.x1, p.x2, q.x0, q.x1, q.x2, r.x0, r.x1, r.x2))
  }

  /** The determinant, expanded along the first row. */
  function Det4(p: Row, q: Row, r: Row, s: Row): real {
    Dot(p, Cross(q, r, s))
  }

  function Determinant(m: Matrix): real { Det4(m.r0, m.r1, m.r2, m.r3) }

  function By(x: real, k: real): real { x * k }

  function Times1(k: real, p: Row): Row { Row(By(p.x0, k), By(p.x1, k), By(p.x2, k), By(p.x3, k)) }

  function Scale(k: real, m: Matrix): Matrix {
    Matrix(Times1(k, m.r0), Times1(k, m.r1), Times1(k, m.r2), Times1(k, m.r3))
  }

  /** Entry (i, j) is the signed minor of the matrix without row i and column j. */
  function Cofactors(m: Matrix): Matrix {
    Matrix(Cross(m.r1, m.r2, m.r3), Times1(-1.0, Cross(m.r0, m.r2, m.r3)),
           Cross(m.r0, m.r1, m.r3), Times1(-1.0, Cross(m.r0, m.r1, m.r2)))
  }

  function Transpose(m: Matrix): Matrix {
    Matrix(m.Column(0), m.Column(1), m.Column(2), m.Column(3))
  }

  function Diagonal(d: real): Matrix {
    Matrix(Row(d, 0.0, 0.0, 0.0), Row(0.0, d, 0.0, 0.0), Row(0.0, 0.0, d, 0.0), Row(0.0, 0.0, 0.0, d))
  }

  const IDENTITY: Matrix := Diagonal(1.0)

  /** The combination of the rows of b with the entries of p: one row of a product. */
  function RowTimes(p: Row, b: Matrix): Row {
    Row(Dot(p, b.Column(0)), Dot(p, b.Column(1)), Dot(p, b.Column(2)), Dot(p, b.Column(3)))
  }

  function Product(a: Matrix, b: Matrix): Matrix {
    Matrix(RowTimes(a.r0, b), RowTimes(a.r1, b), RowTimes(a.r2, b), RowTimes(a.r3, b))
  }

  function Inverse(m: Matrix): Matrix
    requires Determinant(m) != 0.0
  {
    Scale(1.0 / Determinant(m), Transpose(Cofactors(m)))
  }

  // ---------------------------------------------------------------------------------------------
  // Polynomial identities. Each is first put in terms of the plain entries.

  lemma DotOf(a: real, b: real, c: real, d: real, w: real, x: real, y: real, z: real)
    ensures Dot(Row(a, b, c, d), Row(w, x, y, z)) == a * w + b * x + c * y + d * z
  {
    var p, q := Row(a, b, c, d), Row(w, x, y, z);
    MulEq(a, q.x0, w); MulEq(b, q.x1, x); MulEq(c, q.x2, y); MulEq(d, q.x3, z);
  }

  lemma Det4Entries(p: Row, q: Row, r: Row, s: Row)
    ensures Det4(p, q, r, s) ==
      p.x0 * (q.x1 * (r.x2 * s.x3 - r.x3 * s.x2) - q.x2 * (r.x1 * s.x3 - r.x3 * s.x1)
        + q.x3 * (r.x1 * s.x2 - r.x2 * s.x1))
      - p.x1 * (q.x0 * (r.x2 * s.x3 - r.x3 * s.x2) - q.x2 * (r.x0 * s.x3 - r.x3 * s.x0)
        + q.x3 * (r.x0 * s.x2 - r.x2 * s.x0))
      + p.x2 * (q.x0 * (r.x1 * s.x3 - r.x3 * s.x1) - q.x1 * (r.x0 * s.x3 - r.x3 * s.x0)
        + q.x3 * (r.x0 * s.x1 - r.x1 * s.x0))
      - p.x3 * (q.x0 * (r.x1 * s.x2 - r.x2 * s.x1) - q.x1 * (r.x0 * s.x2 - r.x2 * s.x0)
        + q.x2 * (r.x0 * s.x1 - r.x1 * s.x0))
  {
    var c := Cross(q, r, s);
    MulEq(p.x0, c.x0, q.x1 * (r.x2 * s.x3 - r.x3 * s.x2) - q.x2 * (r.x1 * s.x3 - r.x3 * s.x1)
      + q.x3 * (r.x1 * s.x2 - r.x2 * s.x1));
    MulEq(p.x1, c.x1, -(q.x0 * (r.x2 * s.x3 - r.x3 * s.x2) - q.x2 * (r.x0 * s.x3 - r.x3 * s.x0)
      + q.x3 * (r.x0 * s.x2 - r.x2 * s.x0)));
    MulEq(p.x2, c.x2, q.x0 * (r.x1 * s.x3 - r.x3 * s.x1) - q.x1 * (r.x0 * s.x3 - r.x3 * s.x0)
      + q.x3 * (r.x0 * s.x1 - r.x1 * s.x0));
    MulEq(p.x3, c.x3, -(q.x0 * (r.x1 * s.x2 - r.x2 * s.x1) - q.x1 * (r.x0 * s.x2 - r.x2 * s.x0)
      + q.x2 * (r.x0 * s.x1 - r.x1 * s.x0)));
  }

  /** The determinant is alternating in its rows. */
  lemma EqualRows(p: Row, r: Row, s: Row)
    ensures Det4(p, p, r, s) == 0.0
    ensures Det4(p, r, p, s) == 0.0
    ensures Det4(p, r, s, p) == 0.0
  {
    Det4Entries(p, p, r, s);
    Det4Entries(p, r, p, s);
    Det4Entries(p, r, s, p);
  }

  lemma SwapFirst(p: Row, q: Row, r: Row, s: Row)
    ensures Det4(q, p, r, s) == -Det4(p, q, r, s)
  {
    Det4Entries(p, q, r, s);
    Det4Entries(q, p, r, s);
  }

  lemma SwapMiddle(p: Row, q: Row, r: Row, s: Row)
    ensures Det4(p, r, q, s) == -Det4(p, q, r, s)
  {
    Det4Entries(p, q, r, s);
    Det4Entries(p, r, q, s);
  }

  lemma SwapLast(p: Row, q: Row, r: Row, s: Row)
    ensures Det4(p, q, s, r) == -Det4(p, q, r, s)
  {
    Det4Entries(p, q, r, s);
    Det4Entries(p, q, s, r);
  }

  /** A row of the matrix against the cofactors of a row. */
  lemma RowAgainstCofactors(m: Matrix)
    ensures var c := Cofactors(m); var d := Determinant(m);
      && Dot(m.r0, c.r0) == d && Dot(m.r1, c.r0) == 0.0 && Dot(m.r2, c.r0) == 0.0 && Dot(m.r3, c.r0) == 0.0
      && Dot(m.r0, c.r1) == 0.0 && Dot(m.r1, c.r1) == d && Dot(m.r2, c.r1) == 0.0 && Dot(m.r3, c.r1) == 0.0
      && Dot(m.r0, c.r2) == 0.0 && Dot(m.r1, c.r2) == 0.0 && Dot(m.r2, c.r2) == d && Dot(m.r3, c.r2) == 0.0
      && Dot(m.r0, c.r3) == 0.0 && Dot(m.r1, c.r3) == 0.0 && Dot(m.r2, c.r3) == 0.0 && Dot(m.r3, c.r3) == d
  {
    var p, q, r, s := m.r0, m.r1, m.r2, m.r3;
    EqualRows(q, r, s); EqualRows(r, q, s); EqualRows(s, q, r);
    RowAgainstNegated(p, q, r, s);
    RowAgainstThird(p, q, r, s);
    RowAgainstNegated3(p, q, r, s);
  }

  lemma DotNegated(p: Row, q: Row)
    ensures Dot(p, Times1(-1.0, q)) == -Dot(p, q)
  {
  }

  lemma RowAgainstNegated(p: Row, q: Row, r: Row, s: Row)
    ensures var c := Times1(-1.0, Cross(p, r, s));
      Dot(p, c) == 0.0 && Dot(q, c) == Det4(p, q, r, s) && Dot(r, c) == 0.0 && Dot(s, c) == 0.0
  {
    var x := Cross(p, r, s);
    DotNegated(p, x); DotNegated(q, x); DotNegated(r, x); DotNegated(s, x);
    EqualRows(p, r, s); EqualRows(r, p, s); EqualRows(s, p, r);
    SwapFirst(p, q, r, s);
  }

  lemma RowAgainstThird(p: Row, q: Row, r: Row, s: Row)
    ensures var c := Cross(p, q, s);
      Dot(p, c) == 0.0 && Dot(q, c) == 0.0 && Dot(r, c) == Det4(p, q, r, s) && Dot(s, c) == 0.0
  {
    EqualRows(p, q, s); EqualRows(q, p, s); EqualRows(s, p, q);
    SwapMiddle(p, q, r, s); SwapFirst(p, r, q, s);
  }

  lemma RowAgainstNegated3(p: Row, q: Row, r: Row, s: Row)
    ensures var c := Times1(-1.0, Cross(p, q, r));
      Dot(p, c) == 0.0 && Dot(q, c) == 0.0 && Dot(r, c) == 0.0 && Dot(s, c) == Det4(p, q, r, s)
  {
    var x := Cross(p, q, r);
    DotNegated(p, x); DotNegated(q, x); DotNegated(r, x); DotNegated(s, x);
    EqualRows(p, q, r); EqualRows(q, p, r); EqualRows(r, p, q);
    SwapLast(p, q, r, s); SwapMiddle(p, q, s, r); SwapFirst(p, s, q, r);
  }

  lemma Det3Transpose(a: real, b: real, c: real, d: real, e: real, f: real, g: real, h: real, i: real)
    ensures Det3(a, b, c, d, e, f, g, h, i) == Det3(a, d, g, b, e, h, c, f, i)
  {
  }

  lemma CofactorsOfTranspose(m: Matrix)
    ensures Cofactors(Transpose(m)) == Transpose(Cofactors(m))
  {
    var p, q, r, s := m.r0, m.r1, m.r2, m.r3;
    CrossTranspose(q, r, s);
    CrossTranspose(p, r, s);
    CrossTranspose(p, q, s);
    CrossTranspose(p, q, r);
  }

  /** The minors of three rows are those of the three columns they come from. */
  lemma CrossTranspose(p: Row, q: Row, r: Row)
    ensures var c := Cross(p, q, r);
      && c.x0 == Det3(p.x1, q.x1, r.x1, p.x2, q.x2, r.x2, p.x3, q.x3, r.x3)
      && c.x1 == -Det3(p.x0, q.x0, r.x0, p.x2, q.x2, r.x2, p.x3, q.x3, r.x3)
      && c.x2 == Det3(p.x0, q.x0, r.x0, p.x1, q.x1, r.x1, p.x3, q.x3, r.x3)
      && c.x3 == -Det3(p.x0, q.x0, r.x0, p.x1, q.x1, r.x1, p.x2, q.x2, r.x2)
  {
    Det3Transpose(p.x1, p.x2, p.x3, q.x1, q.x2, q.x3, r.x1, r.x2, r.x3);
    Det3Transpose(p.x0, p.x2, p.x3, q.x0, q.x2, q.x3, r.x0, r.x2, r.x3);
    Det3Transpose(p.x0, p.x1, p.x3, q.x0, q.x1, q.x3, r.x0, r.x1, r.x3);
    Det3Transpose(p.x0, p.x1, p.x2, q.x0, q.x1, q.x2, r.x0, r.x1, r.x2);
  }

  lemma DeterminantOfTranspose(m: Matrix)
    ensures Determinant(Transpose(m)) == Determinant(m)
  {
    var Matrix(Row(a, b, c, d), Row(e, f, g, h), Row(i, j, k, l), Row(n, o, p, q)) := m;
    Det4Plain(a, b, c, d, e, f, g, h, i, j, k, l, n, o, p, q);
    Det4Plain(a, e, i, n, b, f, j, o, c, g, k, p, d, h, l, q);
    PlainTransposed(a, b, c, d, e, f, g, h, i, j, k, l, n, o, p, q);
  }

  /** The sum over the first row, of the minors of the three rows below. */
  function Plain(a: real, b: real, c: real, d: real, e: real, f: real, g: real, h: real,
    i: real, j: real, k: real, l: real, n: real, o: real, p: real, q: real): real
  {
    a * (f * (k * q - l * p) - g * (j * q - l * o) + h * (j * p - k * o))
    - b * (e * (k * q - l * p) - g * (i * q - l * n) + h * (i * p - k * n))
    + c * (e * (j * q - l * o) - f * (i * q - l * n) + h * (i * o - j * n))
    - d * (e * (j * p - k * o) - f * (i * p - k * n) + g * (i * o - j * n))
  }

  lemma Det4Plain(a: real, b: real, c: real, d: real, e: real, f: real, g: real, h: real,
    i: real, j: real, k: real, l: real, n: real, o: real, p: real, q: real)
    ensures Det4(Row(a, b, c, d), Row(e, f, g, h), Row(i, j, k, l), Row(n, o, p, q))
      == Plain(a, b, c, d, e, f, g, h, i, j, k, l, n, o, p, q)
  {
    Det4Entries(Row(a, b, c, d), Row(e, f, g, h), Row(i, j, k, l), Row(n, o, p, q));
  }

  lemma PlainTransposed(a: real, b: real, c: real, d: real, e: real, f: real, g: real, h: real,
    i: real, j: real, k: real, l: real, n: real, o: real, p: real, q: real)
    ensures Plain(a, b, c, d, e, f, g, h, i, j, k, l, n, o, p, q)
      == Plain(a, e, i, n, b, f, j, o, c, g, k, p, d, h, l, q)
  {
  }

  // ---------------------------------------------------------------------------------------------
  // The inverse.

  lemma DotSymmetric(p: Row, q: Row)
    ensures Dot(p, q) == Dot(q, p)
  {
  }

  lemma TransposeColumns(m: Matrix)
    ensures Transpose(m).Column(0) == m.r0 && Transpose(m).Column(1) == m.r1
    ensures Transpose(m).Column(2) == m.r2 && Transpose(m).Column(3) == m.r3
    ensures Transpose(Transpose(m)) == m
  {
  }

  lemma DotScaled(p: Row, q: Row, k: real)
    ensures Dot(p, Times1(k, q)) == By(Dot(p, q), k)
  {
    DotOf(p.x0, p.x1, p.x2, p.x3, q.x0 * k, q.x1 * k, q.x2 * k, q.x3 * k);
    DotOf(p.x0, p.x1, p.x2, p.x3, q.x0, q.x1, q.x2, q.x3);
    MulEq(k, Dot(p, q), p.x0 * q.x0 + p.x1 * q.x1 + p.x2 * q.x2 + p.x3 * q.x3);
  }

  /** An entry of m times its inverse, from the same entry of m times its cofactors. */
  lemma EntryScaled(p: Row, q: Row, k: real, d: real, v: real)
    requires Dot(p, q) == d && By(d, k) == v
    ensures Dot(p, Times1(k, q)) == v
  {
    DotScaled(p, q, k);
  }

  lemma ScaledRow(k: real, a: real, b: real, c: real, d: real)
    ensures Times1(k, Row(a, b, c, d)) == Row(a * k, b * k, c * k, d * k)
  {
    var p := Row(a, b, c, d);
    MulEq(k, p.x0, a); MulEq(k, p.x1, b); MulEq(k, p.x2, c); MulEq(k, p.x3, d);
  }

  lemma ScaledColumns(k: real, m: Matrix)
    ensures Scale(k, m).Column(0) == Times1(k, m.Column(0)) && Scale(k, m).Column(1) == Times1(k, m.Column(1))
    ensures Scale(k, m).Column(2) == Times1(k, m.Column(2)) && Scale(k, m).Column(3) == Times1(k, m.Column(3))
  {
    var v := Scale(k, m);
    ScaledColumn(k, m, v.Column(0), 0); ScaledColumn(k, m, v.Column(1), 1);
    ScaledColumn(k, m, v.Column(2), 2); ScaledColumn(k, m, v.Column(3), 3);
  }

  lemma ScaledColumn(k: real, m: Matrix, v: Row, j: nat)
    requires j < 4 && v == Scale(k, m).Column(j)
    ensures v == Times1(k, m.Column(j))
  {
    var c := m.Column(j);
    ScaledEntry(k, m.r0, j); ScaledEntry(k, m.r1, j); ScaledEntry(k, m.r2, j); ScaledEntry(k, m.r3, j);
    assert c == Row(m.r0.At(j), m.r1.At(j), m.r2.At(j), m.r3.At(j));
  }

  lemma ScaledEntry(k: real, p: Row, j: nat)
    requires j < 4
    ensures Times1(k, p).At(j) == By(p.At(j), k)
  {
  }

  lemma InverseColumns(c: Matrix, k: real)
    ensures var v := Scale(k, Transpose(c));
      && v.Column(0) == Times1(k, c.r0) && v.Column(1) == Times1(k, c.r1)
      && v.Column(2) == Times1(k, c.r2) && v.Column(3) == Times1(k, c.r3)
  {
    ScaledColumns(k, Transpose(c));
    TransposeColumns(c);
  }

  /** One row of m against the columns of the scaled cofactors. */
  lemma RowTimesInverse(p: Row, c: Matrix, k: real, e: Row, f: Row)
    requires Dot(p, c.r0) == e.x0 && Dot(p, c.r1) == e.x1 && Dot(p, c.r2) == e.x2 && Dot(p, c.r3) == e.x3
    requires By(e.x0, k) == f.x0 && By(e.x1, k) == f.x1 && By(e.x2, k) == f.x2 && By(e.x3, k) == f.x3
    ensures RowTimes(p, Scale(k, Transpose(c))) == f
  {
    EntryScaled(p, c.r0, k, e.x0, f.x0); EntryScaled(p, c.r1, k, e.x1, f.x1);
    EntryScaled(p, c.r2, k, e.x2, f.x2); EntryScaled(p, c.r3, k, e.x3, f.x3);
    InverseColumns(c, k);
    RowFromColumns(p, Scale(k, Transpose(c)), Times1(k, c.r0), Times1(k, c.r1), Times1(k, c.r2), Times1(k, c.r3));
  }

  lemma RowFromColumns(p: Row, v: Matrix, a: Row, b: Row, c: Row, d: Row)
    requires v.Column(0) == a && v.Column(1) == b && v.Column(2) == c && v.Column(3) == d
    ensures RowTimes(p, v) == Row(Dot(p, a), Dot(p, b), Dot(p, c), Dot(p, d))
  {
  }

  lemma InverseOnTheRight(m: Matrix)
    requires Determinant(m) != 0.0
    ensures Product(m, Inverse(m)) == IDENTITY
  {
    var d := Determinant(m);
    RowAgainstCofactors(m);
    var c := Cofactors(m);
    assert By(d, 1.0 / d) == 1.0 && By(0.0, 1.0 / d) == 0.0;
    RowTimesInverse(m.r0, c, 1.0 / d, Row(d, 0.0, 0.0, 0.0), IDENTITY.r0);
    RowTimesInverse(m.r1, c, 1.0 / d, Row(0.0, d, 0.0, 0.0), IDENTITY.r1);
    RowTimesInverse(m.r2, c, 1.0 / d, Row(0.0, 0.0, d, 0.0), IDENTITY.r2);
    RowTimesInverse(m.r3, c, 1.0 / d, Row(0.0, 0.0, 0.0, d), IDENTITY.r3);
  }

  lemma TransposeOfScaled(k: real, m: Matrix)
    ensures Transpose(Scale(k, m)) == Scale(k, Transpose(m))
  {
    ScaledColumns(k, m);
  }

  /** Transposition reverses products. */
  lemma TransposeOfProduct(a: Matrix, b: Matrix)
    ensures Transpose(Product(a, b)) == Product(Transpose(b), Transpose(a))
  {
    TransposeColumns(a);
    DotSymmetricAll(a.r0, b); DotSymmetricAll(a.r1, b); DotSymmetricAll(a.r2, b); DotSymmetricAll(a.r3, b);
  }

  lemma DotSymmetricAll(p: Row, b: Matrix)
    ensures Dot(p, b.Column(0)) == Dot(b.Column(0), p) && Dot(p, b.Column(1)) == Dot(b.Column(1), p)
    ensures Dot(p, b.Column(2)) == Dot(b.Column(2), p) && Dot(p, b.Column(3)) == Dot(b.Column(3), p)
  {
    DotSymmetric(p, b.Column(0));
    DotSymmetric(p, b.Column(1));
    DotSymmetric(p, b.Column(2));
    DotSymmetric(p, b.Column(3));
  }

  /** The inverse of the transposed matrix is the transposed inverse. */
  lemma InverseOfTranspose(m: Matrix)
    requires Determinant(m) != 0.0
    ensures Determinant(Transpose(m)) == Determinant(m)
    ensures Inverse(Transpose(m)) == Transpose(Inverse(m))
  {
    DeterminantOfTranspose(m);
    CofactorsOfTranspose(m);
    TransposeOfScaled(1.0 / Determinant(m), Transpose(Cofactors(m)));
  }

  /** The inverse is an inverse on both sides. */
  lemma InverseTwoSided(m: Matrix)
    requires Determinant(m) != 0.0
    ensures Product(m, Inverse(m)) == IDENTITY == Product(Inverse(m), m)
  {
    InverseOnTheRight(m);
    InverseOfTranspose(m);
    InverseOnTheRight(Transpose(m));
    TransposeOfProduct(Inverse(m), m);
    TransposeColumns(Product(Inverse(m), m));
    assert Transpose(IDENTITY) == IDENTITY;
  }

  // ---------------------------------------------------------------------------------------------
  // The determinant of a product.

  /** The determinant is linear in its first row. */
  lemma FirstRowLinear(p: Row, b: Matrix, q: Row, r: Row, s: Row)
    ensures Det4(RowTimes(p, b), q, r, s)
      == p.x0 * Det4(b.r0, q, r, s) + p.x1 * Det4(b.r1, q, r, s) + p.x2 * Det4(b.r2, q, r, s)
        + p.x3 * Det4(b.r3, q, r, s)
  {
    CombinationDot(p, b, Cross(q, r, s),
      Det4(b.r0, q, r, s), Det4(b.r1, q, r, s), Det4(b.r2, q, r, s), Det4(b.r3, q, r, s));
  }

  lemma CombinationDot(p: Row, b: Matrix, c: Row, d0: real, d1: real, d2: real, d3: real)
    requires d0 == Dot(b.r0, c) && d1 == Dot(b.r1, c) && d2 == Dot(b.r2, c) && d3 == Dot(b.r3, c)
    ensures Dot(RowTimes(p, b), c) == Sum4(p, d0, d1, d2, d3)
  {
    DotCombination(p, b, c, Row(d0, d1, d2, d3));
    DotIsSum4(p, d0, d1, d2, d3);
  }

  function Sum4(p: Row, d0: real, d1: real, d2: real, d3: real): real {
    p.x0 * d0 + p.x1 * d1 + p.x2 * d2 + p.x3 * d3
  }

  lemma DotIsSum4(p: Row, d0: real, d1: real, d2: real, d3: real)
    ensures Dot(p, Row(d0, d1, d2, d3)) == Sum4(p, d0, d1, d2, d3)
  {
    DotOf(p.x0, p.x1, p.x2, p.x3, d0, d1, d2, d3);
  }

  /** A combination of rows times `x` is the combination of the products of the rows with `x`. */
  lemma DotCombination(p: Row, b: Matrix, x: Row, y: Row)
    requires y == Row(Dot(b.r0, x), Dot(b.r1, x), Dot(b.r2, x), Dot(b.r3, x))
    ensures Dot(RowTimes(p, b), x) == Dot(p, y)
  {
    CombinationSplit(p, b);
    var first, second := Plus(Times1(p.x0, b.r0), Times1(p.x1, b.r1)), Plus(Times1(p.x2, b.r2), Times1(p.x3, b.r3));
    DotPlus(first, second, x);
    DotPair(p.x0, p.x1, b.r0, b.r1, x, y.x0, y.x1);
    DotPair(p.x2, p.x3, b.r2, b.r3, x, y.x2, y.x3);
    DotAsSum(p, y);
  }

  function Plus(p: Row, q: Row): Row {
    Row(p.x0 + q.x0, p.x1 + q.x1, p.x2 + q.x2, p.x3 + q.x3)
  }

  lemma DotPlus(p: Row, q: Row, x: Row)
    ensures Dot(Plus(p, q), x) == Dot(p, x) + Dot(q, x)
  {
  }

  lemma DotPair(k: real, l: real, p: Row, q: Row, x: Row, d: real, e: real)
    requires d == Dot(p, x) && e == Dot(q, x)
    ensures Dot(Plus(Times1(k, p), Times1(l, q)), x) == By(d, k) + By(e, l)
  {
    DotPlus(Times1(k, p), Times1(l, q), x);
    DotSymmetric(Times1(k, p), x);
    DotSymmetric(Times1(l, q), x);
    DotSymmetric(p, x);
    DotSymmetric(q, x);
    EntryScaled(x, p, k, d, By(d, k));
    EntryScaled(x, q, l, e, By(e, l));
  }

  lemma DotAsSum(p: Row, y: Row)
    ensures Dot(p, y) == (By(y.x0, p.x0) + By(y.x1, p.x1)) + (By(y.x2, p.x2) + By(y.x3, p.x3))
  {
  }

  lemma CombinationSplit(p: Row, b: Matrix)
    ensures RowTimes(p, b) == Plus(Plus(Times1(p.x0, b.r0), Times1(p.x1, b.r1)),
                                   Plus(Times1(p.x2, b.r2), Times1(p.x3, b.r3)))
  {
    DotAsSum(p, b.Column(0));
    DotAsSum(p, b.Column(1));
    DotAsSum(p, b.Column(2));
    DotAsSum(p, b.Column(3));
  }

  lemma SecondRowLinear(p: Row, b: Matrix, q: Row, r: Row, s: Row)
    ensures Det4(q, RowTimes(p, b), r, s)
      == p.x0 * Det4(q, b.r0, r, s) + p.x1 * Det4(q, b.r1, r, s) + p.x2 * Det4(q, b.r2, r, s)
        + p.x3 * Det4(q, b.r3, r, s)
  {
    FirstRowLinear(p, b, q, r, s);
    SwapFirst(RowTimes(p, b), q, r, s);
    SwapFirst(b.r0, q, r, s); SwapFirst(b.r1, q, r, s); SwapFirst(b.r2, q, r, s); SwapFirst(b.r3, q, r, s);
  }

  lemma ThirdRowLinear(p: Row, b: Matrix, q: Row, r: Row, s: Row)
    ensures Det4(q, r, RowTimes(p, b), s)
      == p.x0 * Det4(q, r, b.r0, s) + p.x1 * Det4(q, r, b.r1, s) + p.x2 * Det4(q, r, b.r2, s)
        + p.x3 * Det4(q, r, b.r3, s)
  {
    SecondRowLinear(p, b, q, r, s);
    SwapMiddle(q, RowTimes(p, b), r, s);
    SwapMiddle(q, b.r0, r, s); SwapMiddle(q, b.r1, r, s); SwapMiddle(q, b.r2, r, s); SwapMiddle(q, b.r3, r, s);
  }

  lemma FourthRowLinear(p: Row, b: Matrix, q: Row, r: Row, s: Row)
    ensures Det4(q, r, s, RowTimes(p, b))
      == p.x0 * Det4(q, r, s, b.r0) + p.x1 * Det4(q, r, s, b.r1) + p.x2 * Det4(q, r, s, b.r2)
        + p.x3 * Det4(q, r, s, b.r3)
  {
    ThirdRowLinear(p, b, q, r, s);
    SwapLast(q, r, RowTimes(p, b), s);
    SwapLast(q, r, b.r0, s); SwapLast(q, r, b.r1, s); SwapLast(q, r, b.r2, s); SwapLast(q, r, b.r3, s);
  }

  /** A combination of rows does not depend on the order of the rows. */
  lemma Reorder(p: Row, b: Matrix)
    ensures RowTimes(p, b) == RowTimes(Row(p.x1, p.x0, p.x2, p.x3), Matrix(b.r1, b.r0, b.r2, b.r3))
    ensures RowTimes(p, b) == RowTimes(Row(p.x2, p.x1, p.x0, p.x3), Matrix(b.r2, b.r1, b.r0, b.r3))
    ensures RowTimes(p, b) == RowTimes(Row(p.x3, p.x1, p.x2, p.x0), Matrix(b.r3, b.r1, b.r2, b.r0))
    ensures RowTimes(p, b) == RowTimes(Row(p.x0, p.x2, p.x1, p.x3), Matrix(b.r0, b.r2, b.r1, b.r3))
    ensures RowTimes(p, b) == RowTimes(Row(p.x0, p.x3, p.x2, p.x1), Matrix(b.r0, b.r3, b.r2, b.r1))
  {
    ReorderEntry(p, b, 0); ReorderEntry(p, b, 1); ReorderEntry(p, b, 2); ReorderEntry(p, b, 3);
  }

  lemma ReorderEntry(p: Row, b: Matrix, j: nat)
    requires j < 4
    ensures Dot(p, b.Column(j)) == Dot(Row(p.x1, p.x0, p.x2, p.x3), Matrix(b.r1, b.r0, b.r2, b.r3).Column(j))
    ensures Dot(p, b.Column(j)) == Dot(Row(p.x2, p.x1, p.x0, p.x3), Matrix(b.r2, b.r1, b.r0, b.r3).Column(j))
    ensures Dot(p, b.Column(j)) == Dot(Row(p.x3, p.x1, p.x2, p.x0), Matrix(b.r3, b.r1, b.r2, b.r0).Column(j))
    ensures Dot(p, b.Column(j)) == Dot(Row(p.x0, p.x2, p.x1, p.x3), Matrix(b.r0, b.r2, b.r1, b.r3).Column(j))
    ensures Dot(p, b.Column(j)) == Dot(Row(p.x0, p.x3, p.x2, p.x1), Matrix(b.r0, b.r3, b.r2, b.r1).Column(j))
  {
    var c := b.Column(j);
    DotOf(p.x0, p.x1, p.x2, p.x3, c.x0, c.x1, c.x2, c.x3);
    DotOf(p.x1, p.x0, p.x2, p.x3, c.x1, c.x0, c.x2, c.x3);
    DotOf(p.x2, p.x1, p.x0, p.x3, c.x2, c.x1, c.x0, c.x3);
    DotOf(p.x3, p.x1, p.x2, p.x0, c.x3, c.x1, c.x2, c.x0);
    DotOf(p.x0, p.x2, p.x1, p.x3, c.x0, c.x2, c.x1, c.x3);
    DotOf(p.x0, p.x3, p.x2, p.x1, c.x0, c.x3, c.x2, c.x1);
  }

  /** Exchanging two rows of a matrix negates its determinant. */
  lemma Exchange(b: Matrix)
    ensures Determinant(Matrix(b.r1, b.r0, b.r2, b.r3)) == -Determinant(b)
    ensures Determinant(Matrix(b.r2, b.r1, b.r0, b.r3)) == -Determinant(b)
    ensures Determinant(Matrix(b.r3, b.r1, b.r2, b.r0)) == -Determinant(b)
    ensures Determinant(Matrix(b.r0, b.r2, b.r1, b.r3)) == -Determinant(b)
    ensures Determinant(Matrix(b.r0, b.r3, b.r2, b.r1)) == -Determinant(b)
  {
    var p, q, r, s := b.r0, b.r1, b.r2, b.r3;
    Det4Entries(p, q, r, s);
    Det4Entries(q, p, r, s); Det4Entries(r, q, p, s); Det4Entries(s, q, r, p);
    Det4Entries(p, r, q, s); Det4Entries(p, s, r, q);
  }

  lemma LastRow(b: Matrix, u: Row)
    ensures Det4(b.r0, b.r1, b.r2, RowTimes(u, b)) == Determinant(b) * u.x3
    ensures Det4(b.r0, b.r1, b.r3, RowTimes(u, b)) == -Determinant(b) * u.x2
  {
    FourthRowLinear(u, b, b.r0, b.r1, b.r2);
    FourthRowLinear(u, b, b.r0, b.r1, b.r3);
    EqualRows(b.r0, b.r1, b.r2); EqualRows(b.r0, b.r1, b.r3);
    EqualLastRows(b.r0, b.r1, b.r2); EqualLastRows(b.r0, b.r1, b.r3);
    SwapLast(b.r0, b.r1, b.r2, b.r3);
  }

  lemma EqualLastRows(p: Row, q: Row, r: Row)
    ensures Det4(p, q, r, q) == 0.0 && Det4(p, q, r, r) == 0.0
  {
    SwapFirst(p, q, r, q); SwapFirst(p, r, q, r); SwapMiddle(p, q, r, r);
    EqualRows(q, p, r); EqualRows(r, p, q);
  }

  lemma LastTwoRows(b: Matrix, t: Row, u: Row)
    ensures Det4(b.r0, b.r1, RowTimes(t, b), RowTimes(u, b)) == Determinant(b) * (t.x2 * u.x3 - t.x3 * u.x2)
  {
    var y := RowTimes(u, b);
    ThirdRowLinear(t, b, b.r0, b.r1, y);
    EqualRows(b.r0, b.r1, y);
    SwapFirst(b.r0, b.r1, b.r1, y); EqualRows(b.r1, b.r0, y);
    SecondRepeated(b.r0, b.r1, y);
    LastRow(b, u);
  }

  lemma SecondRepeated(p: Row, q: Row, s: Row)
    ensures Det4(p, q, q, s) == 0.0
  {
    SwapMiddle(p, q, q, s);
  }

  /** The same with rows 2 and 3 of the matrix put in second place. */
  lemma LastTwoRowsMoved(b: Matrix, t: Row, u: Row)
    ensures Det4(b.r0, b.r2, RowTimes(t, b), RowTimes(u, b)) == -Determinant(b) * (t.x1 * u.x3 - t.x3 * u.x1)
    ensures Det4(b.r0, b.r3, RowTimes(t, b), RowTimes(u, b)) == -Determinant(b) * (t.x2 * u.x1 - t.x1 * u.x2)
  {
    Exchange(b);
    Reorder(t, b); Reorder(u, b);
    LastTwoRows(Matrix(b.r0, b.r2, b.r1, b.r3), Row(t.x0, t.x2, t.x1, t.x3), Row(u.x0, u.x2, u.x1, u.x3));
    LastTwoRows(Matrix(b.r0, b.r3, b.r2, b.r1), Row(t.x0, t.x3, t.x2, t.x1), Row(u.x0, u.x3, u.x2, u.x1));
  }

  lemma LastThreeRows(b: Matrix, s: Row, t: Row, u: Row)
    ensures Det4(b.r0, RowTimes(s, b), RowTimes(t, b), RowTimes(u, b))
         == Determinant(b) * Det3(s.x1, s.x2, s.x3, t.x1, t.x2, t.x3, u.x1, u.x2, u.x3)
  {
    var x, y := RowTimes(t, b), RowTimes(u, b);
    SecondRowLinear(s, b, b.r0, x, y);
    EqualRows(b.r0, x, y);
    LastTwoRows(b, t, u);
    LastTwoRowsMoved(b, t, u);
    LastThreeSum(Determinant(b), s, t, u, Det4(b.r0, b.r0, x, y), Det4(b.r0, b.r1, x, y), Det4(b.r0, b.r2, x, y),
      Det4(b.r0, b.r3, x, y));
  }

  lemma LastThreeSum(d: real, s: Row, t: Row, u: Row, e0: real, e1: real, e2: real, e3: real)
    requires e0 == 0.0 && e1 == d * (t.x2 * u.x3 - t.x3 * u.x2)
    requires e2 == -d * (t.x1 * u.x3 - t.x3 * u.x1) && e3 == -d * (t.x2 * u.x1 - t.x1 * u.x2)
    ensures s.x0 * e0 + s.x1 * e1 + s.x2 * e2 + s.x3 * e3
         == d * Det3(s.x1, s.x2, s.x3, t.x1, t.x2, t.x3, u.x1, u.x2, u.x3)
  {
    MulEq(s.x0, e0, 0.0);
    MulEq(s.x1, e1, d * (t.x2 * u.x3 - t.x3 * u.x2));
    MulEq(s.x2, e2, -d * (t.x1 * u.x3 - t.x3 * u.x1));
    MulEq(s.x3, e3, -d * (t.x2 * u.x1 - t.x1 * u.x2));
    MulEq(d, Det3(s.x1, s.x2, s.x3, t.x1, t.x2, t.x3, u.x1, u.x2, u.x3),
      s.x1 * (t.x2 * u.x3 - t.x3 * u.x2) - s.x2 * (t.x1 * u.x3 - t.x3 * u.x1) + s.x3 * (t.x1 * u.x2 - t.x2 * u.x1));
  }

  lemma NegatedFactor(x: real, c: real, d: real, k: real)
    requires x == c * k && c == -d
    ensures x == -d * k
  {
  }

  /** The same with another row of the matrix put in first place. */
  lemma LastThreeRowsMoved1(b: Matrix, s: Row, t: Row, u: Row)
    ensures Det4(b.r1, RowTimes(s, b), RowTimes(t, b), RowTimes(u, b))
         == -Determinant(b) * Det3(s.x0, s.x2, s.x3, t.x0, t.x2, t.x3, u.x0, u.x2, u.x3)
  {
    Exchange(b);
    Reorder(s, b); Reorder(t, b); Reorder(u, b);
    var c := Matrix(b.r1, b.r0, b.r2, b.r3);
    LastThreeRows(c, Row(s.x1, s.x0, s.x2, s.x3), Row(t.x1, t.x0, t.x2, t.x3), Row(u.x1, u.x0, u.x2, u.x3));
    NegatedFactor(Det4(b.r1, RowTimes(s, b), RowTimes(t, b), RowTimes(u, b)), Determinant(c), Determinant(b),
      Det3(s.x0, s.x2, s.x3, t.x0, t.x2, t.x3, u.x0, u.x2, u.x3));
  }

  lemma LastThreeRowsMoved2(b: Matrix, s: Row, t: Row, u: Row)
    ensures Det4(b.r2, RowTimes(s, b), RowTimes(t, b), RowTimes(u, b))
         == -Determinant(b) * Det3(s.x1, s.x0, s.x3, t.x1, t.x0, t.x3, u.x1, u.x0, u.x3)
  {
    Exchange(b);
    Reorder(s, b); Reorder(t, b); Reorder(u, b);
    var c := Matrix(b.r2, b.r1, b.r0, b.r3);
    LastThreeRows(c, Row(s.x2, s.x1, s.x0, s.x3), Row(t.x2, t.x1, t.x0, t.x3), Row(u.x2, u.x1, u.x0, u.x3));
    NegatedFactor(Det4(b.r2, RowTimes(s, b), RowTimes(t, b), RowTimes(u, b)), Determinant(c), Determinant(b),
      Det3(s.x1, s.x0, s.x3, t.x1, t.x0, t.x3, u.x1, u.x0, u.x3));
  }

  lemma LastThreeRowsMoved3(b: Matrix, s: Row, t: Row, u: Row)
    ensures Det4(b.r3, RowTimes(s, b), RowTimes(t, b), RowTimes(u, b))
         == -Determinant(b) * Det3(s.x1, s.x2, s.x0, t.x1, t.x2, t.x0, u.x1, u.x2, u.x0)
  {
    Exchange(b);
    Reorder(s, b); Reorder(t, b); Reorder(u, b);
    var c := Matrix(b.r3, b.r1, b.r2, b.r0);
    LastThreeRows(c, Row(s.x3, s.x1, s.x2, s.x0), Row(t.x3, t.x1, t.x2, t.x0), Row(u.x3, u.x1, u.x2, u.x0));
    NegatedFactor(Det4(b.r3, RowTimes(s, b), RowTimes(t, b), RowTimes(u, b)), Determinant(c), Determinant(b),
      Det3(s.x1, s.x2, s.x0, t.x1, t.x2, t.x0, u.x1, u.x2, u.x0));
  }

  /** The determinant of a product is the product of the determinants. */
  lemma DeterminantOfProduct(a: Matrix, b: Matrix)
    ensures Determinant(Product(a, b)) == Determinant(a) * Determinant(b)
  {
    var w, x, y := RowTimes(a.r1, b), RowTimes(a.r2, b), RowTimes(a.r3, b);
    FirstRowLinear(a.r0, b, w, x, y);
    LastThreeRows(b, a.r1, a.r2, a.r3);
    LastThreeRowsMoved1(b, a.r1, a.r2, a.r3);
    LastThreeRowsMoved2(b, a.r1, a.r2, a.r3);
    LastThreeRowsMoved3(b, a.r1, a.r2, a.r3);
    FirstRowSum(Determinant(b), a, Det4(b.r0, w, x, y), Det4(b.r1, w, x, y), Det4(b.r2, w, x, y), Det4(b.r3, w, x, y));
  }

  lemma FirstRowSum(d: real, a: Matrix, e0: real, e1: real, e2: real, e3: real)
    requires var s, t, u := a.r1, a.r2, a.r3; e0 == d * Det3(s.x1, s.x2, s.x3, t.x1, t.x2, t.x3, u.x1, u.x2, u.x3)
    requires var s, t, u := a.r1, a.r2, a.r3; e1 == -d * Det3(s.x0, s.x2, s.x3, t.x0, t.x2, t.x3, u.x0, u.x2, u.x3)
    requires var s, t, u := a.r1, a.r2, a.r3; e2 == -d * Det3(s.x1, s.x0, s.x3, t.x1, t.x0, t.x3, u.x1, u.x0, u.x3)
    requires var s, t, u := a.r1, a.r2, a.r3; e3 == -d * Det3(s.x1, s.x2, s.x0, t.x1, t.x2, t.x0, u.x1, u.x2, u.x0)
    ensures a.r0.x0 * e0 + a.r0.x1 * e1 + a.r0.x2 * e2 + a.r0.x3 * e3 == Determinant(a) * d
  {
    var p, s, t, u := a.r0, a.r1, a.r2, a.r3;
    MulEq(d, Det3(s.x1, s.x2, s.x3, t.x1, t.x2, t.x3, u.x1, u.x2, u.x3),
      s.x1 * (t.x2 * u.x3 - t.x3 * u.x2) - s.x2 * (t.x1 * u.x3 - t.x3 * u.x1) + s.x3 * (t.x1 * u.x2 - t.x2 * u.x1));
    MulEq(p.x0, e0, d * (s.x1 * (t.x2 * u.x3 - t.x3 * u.x2) - s.x2 * (t.x1 * u.x3 - t.x3 * u.x1)
      + s.x3 * (t.x1 * u.x2 - t.x2 * u.x1)));
    MulEq(-d, Det3(s.x0, s.x2, s.x3, t.x0, t.x2, t.x3, u.x0, u.x2, u.x3),
      s.x0 * (t.x2 * u.x3 - t.x3 * u.x2) - s.x2 * (t.x0 * u.x3 - t.x3 * u.x0) + s.x3 * (t.x0 * u.x2 - t.x2 * u.x0));
    MulEq(p.x1, e1, -d * (s.x0 * (t.x2 * u.x3 - t.x3 * u.x2) - s.x2 * (t.x0 * u.x3 - t.x3 * u.x0)
      + s.x3 * (t.x0 * u.x2 - t.x2 * u.x0)));
    MulEq(-d, Det3(s.x1, s.x0, s.x3, t.x1, t.x0, t.x3, u.x1, u.x0, u.x3),
      s.x1 * (t.x0 * u.x3 - t.x3 * u.x0) - s.x0 * (t.x1 * u.x3 - t.x3 * u.x1) + s.x3 * (t.x1 * u.x0 - t.x0 * u.x1));
    MulEq(p.x2, e2, -d * (s.x1 * (t.x0 * u.x3 - t.x3 * u.x0) - s.x0 * (t.x1 * u.x3 - t.x3 * u.x1)
      + s.x3 * (t.x1 * u.x0 - t.x0 * u.x1)));
    MulEq(-d, Det3(s.x1, s.x2, s.x0, t.x1, t.x2, t.x0, u.x1, u.x2, u.x0),
      s.x1 * (t.x2 * u.x0 - t.x0 * u.x2) - s.x2 * (t.x1 * u.x0 - t.x0 * u.x1) + s.x0 * (t.x1 * u.x2 - t.x2 * u.x1));
    MulEq(p.x3, e3, -d * (s.x1 * (t.x2 * u.x0 - t.x0 * u.x2) - s.x2 * (t.x1 * u.x0 - t.x0 * u.x1)
      + s.x0 * (t.x1 * u.x2 - t.x2 * u.x1)));
    Det4Entries(p, s, t, u);
    MulEq(d, Determinant(a),
      p.x0 * (s.x1 * (t.x2 * u.x3 - t.x3 * u.x2) - s.x2 * (t.x1 * u.x3 - t.x3 * u.x1)
        + s.x3 * (t.x1 * u.x2 - t.x2 * u.x1))
      - p.x1 * (s.x0 * (t.x2 * u.x3 - t.x3 * u.x2) - s.x2 * (t.x0 * u.x3 - t.x3 * u.x0)
        + s.x3 * (t.x0 * u.x2 - t.x2 * u.x0))
      + p.x2 * (s.x0 * (t.x1 * u.x3 - t.x3 * u.x1) - s.x1 * (t.x0 * u.x3 - t.x3 * u.x0)
        + s.x3 * (t.x0 * u.x1 - t.x1 * u.x0))
      - p.x3 * (s.x0 * (t.x1 * u.x2 - t.x2 * u.x1) - s.x1 * (t.x0 * u.x2 - t.x2 * u.x0)
        + s.x2 * (t.x0 * u.x1 - t.x1 * u.x0)));
  }

  // ---------------------------------------------------------------------------------------------
  // Singular matrices.

  lemma DeterminantOfIdentity()
    ensures Determinant(IDENTITY) == 1.0
  {
    Det4Entries(IDENTITY.r0, IDENTITY.r1, IDENTITY.r2, IDENTITY.r3);
  }

  lemma RowTimesProduct(p: Row, b: Matrix, c: Matrix)
    ensures RowTimes(RowTimes(p, b), c) == RowTimes(p, Product(b, c))
  {
    DotProductColumn(p, b, c, 0);
    DotProductColumn(p, b, c, 1);
    DotProductColumn(p, b, c, 2);
    DotProductColumn(p, b, c, 3);
  }

  lemma DotProductColumn(p: Row, b: Matrix, c: Matrix, j: nat)
    requires j < 4
    ensures Dot(RowTimes(p, b), c.Column(j)) == Dot(p, Product(b, c).Column(j))
  {
    ProductColumn(b, c, j, c.Column(j));
    DotCombination(p, b, c.Column(j), Product(b, c).Column(j));
  }

  lemma ProductColumn(b: Matrix, c: Matrix, j: nat, x: Row)
    requires j < 4 && x == c.Column(j)
    ensures Product(b, c).Column(j) == Row(Dot(b.r0, x), Dot(b.r1, x), Dot(b.r2, x), Dot(b.r3, x))
  {
  }

  /** Multiplication of matrices is associative. */
  lemma ProductAssociative(a: Matrix, b: Matrix, c: Matrix)
    ensures Product(Product(a, b), c) == Product(a, Product(b, c))
  {
    RowTimesProduct(a.r0, b, c); RowTimesProduct(a.r1, b, c); RowTimesProduct(a.r2, b, c); RowTimesProduct(a.r3, b, c);
  }

  lemma RowTimesIdentity(p: Row)
    ensures RowTimes(p, IDENTITY) == p
  {
    DotOf(p.x0, p.x1, p.x2, p.x3, 1.0, 0.0, 0.0, 0.0); DotOf(p.x0, p.x1, p.x2, p.x3, 0.0, 1.0, 0.0, 0.0);
    DotOf(p.x0, p.x1, p.x2, p.x3, 0.0, 0.0, 1.0, 0.0); DotOf(p.x0, p.x1, p.x2, p.x3, 0.0, 0.0, 0.0, 1.0);
  }

  lemma TimesIdentity(m: Matrix)
    ensures Product(m, IDENTITY) == m
  {
    RowTimesIdentity(m.r0); RowTimesIdentity(m.r1); RowTimesIdentity(m.r2); RowTimesIdentity(m.r3);
  }

  lemma IdentityTimes(m: Matrix)
    ensures Product(IDENTITY, m) == m
  {
    TimesIdentity(Transpose(m));
    TransposeOfProduct(IDENTITY, m);
    TransposeColumns(Product(IDENTITY, m));
    TransposeColumns(m);
    assert Transpose(IDENTITY) == IDENTITY;
  }

  /** A matrix has an inverse on the right exactly when its determinant is not zero, and then it is this one. */
  lemma InvertibleIff(m: Matrix)
    ensures Determinant(m) != 0.0 <==> exists n :: Product(m, n) == IDENTITY
    ensures forall n :: Product(m, n) == IDENTITY ==> Determinant(m) != 0.0 && n == Inverse(m)
  {
    if Determinant(m) != 0.0 {
      InverseTwoSided(m);
    }
    forall n | Product(m, n) == IDENTITY ensures Determinant(m) != 0.0 && n == Inverse(m) {
      RightInverseIsInverse(m, n);
    }
  }

  lemma RightInverseIsInverse(m: Matrix, n: Matrix)
    requires Product(m, n) == IDENTITY
    ensures Determinant(m) != 0.0 && n == Inverse(m)
  {
    DeterminantOfProduct(m, n);
    DeterminantOfIdentity();
    NoFactorIsZero(Determinant(m), Determinant(n));
    InverseTwoSided(m);
    LeftAndRightInverseAgree(Inverse(m), m, n);
  }

  lemma NoFactorIsZero(x: real, y: real)
    requires x * y == 1.0
    ensures x != 0.0
  {
  }

  lemma LeftAndRightInverseAgree(l: Matrix, m: Matrix, n: Matrix)
    requires Product(l, m) == IDENTITY && Product(m, n) == IDENTITY
    ensures n == l
  {
    ProductAssociative(l, m, n);
    IdentityTimes(n);
    TimesIdentity(l);
  }
}
