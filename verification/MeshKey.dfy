/** The packed lookup key of a mesh point (PointEntry::MakeKey). */
module MeshKey {
  import opened Common

  const PRECISION := 0.001
  const Y_STEP := 4194304
  const Z_STEP := 17592186044416
  const TWO_63 := 0x8000_0000_0000_0000
  const TWO_64 := 0x1_0000_0000_0000_0000

  /** Two's complement wrap-around of a 64-bit `long`. */
  function Wrap64(n: int): int {
    (n + TWO_63) % TWO_64 - TWO_63
  }

  function Quantise(c: real): int { Trunc(c / PRECISION) }

  function Pack(x: int, y: int, z: int): int {
    Wrap64(x + Y_STEP * y + Z_STEP * z)
  }

  function MakeKey(x: real, y: real, z: real): int {
    Pack(Quantise(x), Quantise(y), Quantise(z))
  }

  /** The quantised coordinates for which the 64 bits have room: 22 bits, 22 bits and 20 bits. */
  predicate InBox(x: int, y: int, z: int) {
    && -0x20_0000 <= x < 0x20_0000
    && -0x20_0000 <= y < 0x20_0000
    && -0x8_0000 <= z < 0x8_0000
  }

  lemma WrapInjective(a: int, b: int)
    requires Wrap64(a) == Wrap64(b) && -TWO_64 < a - b < TWO_64
    ensures a == b
  {
  }

  /**
   * Inside the box the packing is a perfect one, even with wrap-around: different triples have different keys.
   */
  lemma PackInjective(x: int, y: int, z: int, x': int, y': int, z': int)
    requires InBox(x, y, z) && InBox(x', y', z')
    ensures Pack(x, y, z) == Pack(x', y', z') <==> x == x' && y == y' && z == z'
  {
    if Pack(x, y, z) == Pack(x', y', z') {
      WrapInjective(x + Y_STEP * y + Z_STEP * z, x' + Y_STEP * y' + Z_STEP * z');
    }
  }

  /** The sum fits in 64 bits without wrapping when |X|, |Y| < 2^21 and |Z| < 2^18. */
  lemma PackFits(x: int, y: int, z: int)
    requires -0x20_0000 < x < 0x20_0000 && -0x20_0000 < y < 0x20_0000 && -0x4_0000 < z < 0x4_0000
    ensures Pack(x, y, z) == x + Y_STEP * y + Z_STEP * z
    ensures -TWO_63 < Pack(x, y, z) < TWO_63
  {
  }

  lemma KeyExample()
    ensures MakeKey(1.0, 2.0, -3.0) == 1000 + 4194304 * 2000 - 17592186044416 * 3000
  {
    CellOf(1.0, 1000);
    CellOf(2.0, 2000);
    CellOf(-3.0, -3000);
  }

  /** Just outside the box two different points share a key. */
  lemma PackCollides()
    ensures Pack(Y_STEP, 0, 0) == Pack(0, 1, 0)
  {
  }

  /** Coordinate c lies in the m-th cell of a thousandth; the one around zero is twice as wide. */
  predicate InCell(c: real, m: int) {
    if m > 0 then m as real <= 1000.0 * c < m as real + 1.0
    else if m < 0 then m as real - 1.0 < 1000.0 * c <= m as real
    else -1.0 < 1000.0 * c < 1.0
  }

  lemma CellOf(c: real, m: int)
    ensures Quantise(c) == m <==> InCell(c, m)
  {
    assert c / PRECISION == 1000.0 * c;
  }

  ghost predicate SameCell(c: real, d: real) {
    exists m: int :: InCell(c, m) && InCell(d, m)
  }

  lemma SameCellIff(c: real, d: real)
    ensures Quantise(c) == Quantise(d) <==> SameCell(c, d)
  {
    CellOf(c, Quantise(c));
    CellOf(d, Quantise(c));
    if SameCell(c, d) {
      var m :| InCell(c, m) && InCell(d, m);
      CellOf(c, m);
      CellOf(d, m);
    }
  }

  /** Points inside the box share a key if and only if each coordinate lies in the same cell. */
  lemma SameKeyIff(x: real, y: real, z: real, x': real, y': real, z': real)
    requires InBox(Quantise(x), Quantise(y), Quantise(z)) && InBox(Quantise(x'), Quantise(y'), Quantise(z'))
    ensures MakeKey(x, y, z) == MakeKey(x', y', z') <==> SameCell(x, x') && SameCell(y, y') && SameCell(z, z')
  {
    PackInjective(Quantise(x), Quantise(y), Quantise(z), Quantise(x'), Quantise(y'), Quantise(z'));
    SameCellIff(x, x');
    SameCellIff(y, y');
    SameCellIff(z, z');
  }

  lemma SameBucketClose(c: real, d: real)
    requires Quantise(c) == Quantise(d)
    ensures Abs(c - d) < 0.002
  {
    var q, r := c / PRECISION, d / PRECISION;
    assert c == q * PRECISION && d == r * PRECISION;
    assert Abs(q - r) < 2.0;
  }

  /** Points inside the box that share a key differ by less than 0.002 in every coordinate. */
  lemma SameKeyClose(x: real, y: real, z: real, x': real, y': real, z': real)
    requires InBox(Quantise(x), Quantise(y), Quantise(z)) && InBox(Quantise(x'), Quantise(y'), Quantise(z'))
    requires MakeKey(x, y, z) == MakeKey(x', y', z')
    ensures Abs(x - x') < 0.002 && Abs(y - y') < 0.002 && Abs(z - z') < 0.002
  {
    PackInjective(Quantise(x), Quantise(y), Quantise(z), Quantise(x'), Quantise(y'), Quantise(z'));
    SameBucketClose(x, x');
    SameBucketClose(y, y');
    SameBucketClose(z, z');
  }
}
