/** DXSHRotateZ and DXSHDot of 3D/Math.h, with sine and cosine as parameters. */
module SphericalHarmonics {
  import opened Common

  // ---------------------------------------------------------------------------------------------
  // Layout: band l holds the 2l + 1 cells around its centre l^2 + l.

  /** The centre of a band, as the routine accumulates it. */
  function Center(l: nat): nat {
    if l == 0 then 0 else Center(l - 1) + 2 * l
  }

  lemma {:induction false} CenterIs(l: nat)
    ensures Center(l) == l * l + l && Center(l) + l + 1 == (l + 1) * (l + 1)
  {
    if l > 0 {
      CenterIs(l - 1);
    }
  }

  lemma Fits(l: nat, order: nat)
    requires l < order
    ensures l <= Center(l) && Center(l) - l == l * l && Center(l) + l < order * order
  {
    CenterIs(l);
    assert (l + 1) * (l + 1) <= order * order by {
      SquaresAscend(l + 1, order);
    }
  }

  lemma SquaresAscend(a: nat, b: nat)
    requires a <= b
    ensures a * a <= b * b
  {
    assert a * a <= a * b <= b * b;
  }

  /** Every cell below order^2 is in one of the bands. */
  lemma {:induction false} CellHasBand(k: nat, order: nat) returns (l: nat)
    requires k < order * order
    ensures l < order && l <= Center(l) && Center(l) - l <= k <= Center(l) + l
  {
    Fits(order - 1, order);
    CenterIs(order - 1);
    if k >= (order - 1) * (order - 1) {
      l := order - 1;
    } else {
      l := CellHasBand(k, order - 1);
    }
  }

  // ---------------------------------------------------------------------------------------------
  // What a rotation by given cosines and sines of the multiples of the angle does.

  function Mix(c: real, a: real, s: real, b: real): real { c * a + s * b }

  /** The cells at distance j from a centre, turned by c and s. */
  ghost predicate TurnedPair(y: seq<real>, x: seq<real>, center: nat, j: nat, c: real, s: real)
    requires j <= center && center + j < |x| && center + j < |y|
  {
    && y[center - j] == Mix(c, x[center - j], s, x[center + j])
    && y[center + j] == Mix(-s, x[center - j], c, x[center + j])
  }

  ghost predicate TurnedBand(y: seq<real>, x: seq<real>, center: nat, l: nat, c: nat -> real, s: nat -> real)
    requires l <= center && center + l < |x| && center + l < |y|
  {
    && y[center] == x[center]
    && forall j: nat :: 1 <= j <= l ==> TurnedPair(y, x, center, j, c(j), s(j))
  }

  ghost predicate BandOf(y: seq<real>, x: seq<real>, l: nat, c: nat -> real, s: nat -> real) {
    && l <= Center(l) && Center(l) + l < |x| && Center(l) + l < |y|
    && TurnedBand(y, x, Center(l), l, c, s)
  }

  /** The first `order` bands of y are those of x, turned. */
  ghost predicate Rotated(y: seq<real>, x: seq<real>, order: nat, c: nat -> real, s: nat -> real) {
    forall l: nat :: l < order ==> BandOf(y, x, l, c, s)
  }

  function Multiple(j: nat, angle: real): real { j as real * angle }

  function Multiples(f: real -> real, angle: real): nat -> real {
    (j: nat) => f(Multiple(j, angle))
  }

  /** Two to six bands are rotated, whatever the order asks for. */
  function Clamped(order: int): (n: nat)
    ensures 2 <= n <= 6 && (2 <= order <= 6 ==> n == order) && (order < 2 ==> n == 2) && (order > 6 ==> n == 6)
  {
    if order < 2 then 2 else if order > 6 then 6 else order
  }

  // ---------------------------------------------------------------------------------------------
  // The routines.

  /** `out` receives the first order^2 cells, and keeps the others. */
  method DXSHRotateZ(out: array<real>, order: int, angle: real, input: array<real>, cos: real -> real,
      sin: real -> real)
    requires out != input
    requires out.Length >= Clamped(order) * Clamped(order) && input.Length >= Clamped(order) * Clamped(order)
    modifies out
    ensures Rotated(out[..], input[..], Clamped(order), Multiples(cos, angle), Multiples(sin, angle))
    ensures forall k :: Clamped(order) * Clamped(order) <= k < out.Length ==> out[k] == old(out[k])
  {
    var sum := 0;
    var c, s := new real[5], new real[5];
    var n := Clamped(order);
    ghost var cs, sn := Multiples(cos, angle), Multiples(sin, angle);
    Fits(0, n);
    out[0] := input[0];
    for i := 1 to n
      invariant sum == Center(i - 1)
      invariant forall j :: 1 <= j < i ==> c[j - 1] == cs(j) && s[j - 1] == sn(j)
      invariant Rotated(out[..], input[..], i, cs, sn)
      invariant forall k :: sum + i <= k < out.Length ==> out[k] == old(out[k])
    {
      c[i - 1] := cos(Multiple(i, angle));
      s[i - 1] := sin(Multiple(i, angle));
      assert c[i - 1] == cs(i) && s[i - 1] == sn(i);
      sum := sum + i * 2;
      AddBand(out, i, sum, input, c, s, cs, sn, n);
    }
    CenterIs(n - 1);
  }

  method AddBand(out: array<real>, i: nat, sum: nat, input: array<real>, c: array<real>, s: array<real>,
                 ghost cs: nat -> real, ghost sn: nat -> real, ghost n: nat)
    requires 1 <= i <= c.Length && i <= s.Length && out != input && out != c && out != s
    requires i < n && out.Length >= n * n && input.Length >= n * n && sum == Center(i)
    requires forall j :: 1 <= j <= i ==> c[j - 1] == cs(j) && s[j - 1] == sn(j)
    requires Rotated(out[..], input[..], i, cs, sn)
    modifies out
    ensures Rotated(out[..], input[..], i + 1, cs, sn)
    ensures forall k :: sum + i < k < out.Length ==> out[k] == old(out[k])
  {
    ghost var before := out[..];
    Fits(i, n);
    RotateBand(out, i, sum, input, c, s, cs, sn);
    Extend(before, out[..], input[..], i, cs, sn);
  }

  /** One more band, in cells after the bands so far. */
  lemma Extend(y: seq<real>, z: seq<real>, x: seq<real>, i: nat, c: nat -> real, s: nat -> real)
    requires Rotated(y, x, i, c, s) && |y| == |z| && BandOf(z, x, i, c, s)
    requires forall k :: 0 <= k < Center(i) - i && k < |y| ==> z[k] == y[k]
    ensures Rotated(z, x, i + 1, c, s)
  {
    CenterIs(i);
    forall l: nat | l < i ensures BandOf(z, x, l, c, s) {
      assert BandOf(y, x, l, c, s);
      Fits(l, i);
      forall j: nat | 1 <= j <= l ensures TurnedPair(z, x, Center(l), j, c(j), s(j)) {
        assert TurnedPair(y, x, Center(l), j, c(j), s(j));
      }
    }
  }

  method RotateBand(out: array<real>, i: nat, sum: nat, input: array<real>, c: array<real>, s: array<real>,
                    ghost cs: nat -> real, ghost sn: nat -> real)
    requires 1 <= i <= c.Length && i <= s.Length && out != input && out != c && out != s
    requires i <= sum && sum + i < out.Length && sum + i < input.Length
    requires forall j :: 1 <= j <= i ==> c[j - 1] == cs(j) && s[j - 1] == sn(j)
    modifies out
    ensures TurnedBand(out[..], input[..], sum, i, cs, sn)
    ensures forall k :: 0 <= k < out.Length && (k < sum - i || sum + i < k) ==> out[k] == old(out[k])
  {
    LeftHalf(out, i, sum, input, c, s, cs, sn);
    out[sum] := input[sum];
    RightHalf(out, i, sum, input, c, s, cs, sn);
    ghost var y, x := out[..], input[..];
    forall j: nat | 1 <= j <= i ensures TurnedPair(y, x, sum, j, cs(j), sn(j)) {
      assert y[sum - j] == out[sum - j] && y[sum + j] == out[sum + j];
    }
  }

  method LeftHalf(out: array<real>, i: nat, sum: nat, input: array<real>, c: array<real>, s: array<real>,
                  ghost cs: nat -> real, ghost sn: nat -> real)
    requires 1 <= i <= c.Length && i <= s.Length && out != input && out != c && out != s
    requires i <= sum && sum + i < out.Length && sum + i < input.Length
    requires forall j :: 1 <= j <= i ==> c[j - 1] == cs(j) && s[j - 1] == sn(j)
    modifies out
    ensures forall k :: 1 <= k <= i ==> out[sum - k] == Mix(cs(k), input[sum - k], sn(k), input[sum + k])
    ensures forall k :: 0 <= k < out.Length && (k < sum - i || sum <= k) ==> out[k] == old(out[k])
  {
    WriteMix(out, sum - i, c[i - 1], input[sum - i], s[i - 1], input[sum + i]);
    for j := i downto 1
      invariant forall k :: j <= k <= i ==> out[sum - k] == Mix(cs(k), input[sum - k], sn(k), input[sum + k])
      invariant forall k :: 0 <= k < out.Length && (k < sum - i || sum <= k) ==> out[k] == old(out[k])
    {
      out[sum - j] := 0.0;
      WriteMix(out, sum - j, c[j - 1], input[sum - j], s[j - 1], input[sum + j]);
    }
  }

  method RightHalf(out: array<real>, i: nat, sum: nat, input: array<real>, c: array<real>, s: array<real>,
                   ghost cs: nat -> real, ghost sn: nat -> real)
    requires 1 <= i <= c.Length && i <= s.Length && out != input && out != c && out != s
    requires i <= sum && sum + i < out.Length && sum + i < input.Length
    requires forall j :: 1 <= j <= i ==> c[j - 1] == cs(j) && s[j - 1] == sn(j)
    modifies out
    ensures forall k :: 1 <= k <= i ==> out[sum + k] == Mix(-sn(k), input[sum - k], cs(k), input[sum + k])
    ensures forall k :: 0 <= k < out.Length && (k <= sum || sum + i < k) ==> out[k] == old(out[k])
  {
    for j := 1 to i
      invariant forall k :: 1 <= k < j ==> out[sum + k] == Mix(-sn(k), input[sum - k], cs(k), input[sum + k])
      invariant forall k :: 0 <= k < out.Length && (k <= sum || sum + i < k) ==> out[k] == old(out[k])
    {
      out[sum + j] := 0.0;
      WriteMix(out, sum + j, -s[j - 1], input[sum - j], c[j - 1], input[sum + j]);
    }
    WriteMix(out, sum + i, -s[i - 1], input[sum - i], c[i - 1], input[sum + i]);
  }

  method WriteMix(out: array<real>, k: nat, c: real, a: real, s: real, b: real)
    requires k < out.Length
    modifies out
    ensures out[k] == Mix(c, a, s, b)
    ensures forall d :: 0 <= d < out.Length && d != k ==> out[d] == old(out[d])
  {
    out[k] := c * a;
    out[k] := out[k] + s * b;
  }

  function Products(a: seq<real>, b: seq<real>, n: nat): real
    requires n <= |a| && n <= |b|
  {
    if n == 0 then 0.0 else Products(a, b, n - 1) + Term(a, b, n - 1)
  }

  function Term(a: seq<real>, b: seq<real>, k: nat): real
    requires k < |a| && k < |b|
  {
    a[k] * b[k]
  }

  /** How many cells the dot product runs over: at least the first, whatever the order. */
  function Cells(order: int): nat {
    if order * order > 1 then order * order else 1
  }

  method DXSHDot(order: int, a: array<real>, b: array<real>) returns (s: real)
    requires a.Length >= Cells(order) && b.Length >= Cells(order)
    ensures s == Products(a[..], b[..], Cells(order))
  {
    s := a[0] * b[0];
    var i := 1;
    while i < order * order
      invariant 1 <= i <= Cells(order)
      invariant s == Products(a[..], b[..], i)
    {
      s := s + a[i] * b[i];
      i := i + 1;
    }
  }

  /** The product with a single one is the cell there. */
  lemma {:induction false} DotPicks(a: seq<real>, e: seq<real>, k: nat, n: nat)
    requires n <= |a| && n <= |e|
    requires forall i :: 0 <= i < n ==> e[i] == if i == k then 1.0 else 0.0
    ensures Products(a, e, n) == if k < n then a[k] else 0.0
  {
    if n > 0 {
      DotPicks(a, e, k, n - 1);
    }
  }

  // ---------------------------------------------------------------------------------------------
  // A rotation keeps dot products.

  function PairProduct(a: real, b: real, e: real, f: real): real { a * e + b * f }

  ghost predicate Circle(c: nat -> real, s: nat -> real) {
    forall j: nat :: c(j) * c(j) + s(j) * s(j) == 1.0
  }

  lemma PairFlat(c: real, s: real, a: real, b: real, e: real, f: real)
    ensures (c * a + s * b) * (c * e + s * f) + (-s * a + c * b) * (-s * e + c * f) == (c * c + s * s) * (a * e + b * f)
  {
  }

  lemma SameFactors(a: real, b: real, e: real, f: real, p: real, q: real, u: real, v: real)
    requires a == p && b == q && e == u && f == v
    ensures PairProduct(a, b, e, f) == p * u + q * v
  {
  }

  lemma SameProduct(n: real, w: real, x: real, y: real)
    requires n == x && w == y
    ensures n * w == x * y
  {
  }

  lemma PairTurned(c: real, s: real, a: real, b: real, e: real, f: real, p: real, q: real, u: real, v: real,
      n: real, w: real)
    requires p == c * a + s * b && q == -s * a + c * b && u == c * e + s * f && v == -s * e + c * f
    requires n == c * c + s * s && w == a * e + b * f
    ensures PairProduct(p, q, u, v) == n * w
  {
    PairFlat(c, s, a, b, e, f);
    SameFactors(p, q, u, v, c * a + s * b, -s * a + c * b, c * e + s * f, -s * e + c * f);
    SameProduct(n, w, c * c + s * s, a * e + b * f);
  }

  lemma PairKept(c: real, s: real, a: real, b: real, e: real, f: real)
    requires c * c + s * s == 1.0
    ensures PairProduct(Mix(c, a, s, b), Mix(-s, a, c, b), Mix(c, e, s, f), Mix(-s, e, c, f)) == PairProduct(a, b, e, f)
  {
    PairTurned(c, s, a, b, e, f, Mix(c, a, s, b), Mix(-s, a, c, b), Mix(c, e, s, f), Mix(-s, e, c, f),
      1.0, PairProduct(a, b, e, f));
  }

  /** The part of a dot product within distance j of a centre. */
  function Around(a: seq<real>, b: seq<real>, center: nat, j: nat): real
    requires j <= center && center + j < |a| && center + j < |b|
  {
    if j == 0 then Term(a, b, center)
    else Around(a, b, center, j - 1) + Term(a, b, center - j) + Term(a, b, center + j)
  }

  lemma {:induction false} AroundIsPart(a: seq<real>, b: seq<real>, center: nat, j: nat)
    requires j <= center && center + j < |a| && center + j < |b|
    ensures Products(a, b, center + j + 1) == Products(a, b, center - j) + Around(a, b, center, j)
  {
    assert Products(a, b, center + j + 1) == Products(a, b, center + j) + Term(a, b, center + j);
    if j > 0 {
      assert Products(a, b, center - j + 1) == Products(a, b, center - j) + Term(a, b, center - j);
      AroundIsPart(a, b, center, j - 1);
    }
  }

  lemma PairTerms(a: seq<real>, b: seq<real>, k: nat, m: nat)
    requires k < |a| && k < |b| && m < |a| && m < |b|
    ensures Term(a, b, k) + Term(a, b, m) == PairProduct(a[k], a[m], b[k], b[m])
  {
  }

  lemma {:induction false} AroundKept(y: seq<real>, x: seq<real>, z: seq<real>, w: seq<real>,
                                      center: nat, l: nat, j: nat, c: nat -> real, s: nat -> real)
    requires j <= l <= center && center + l < |y| && center + l < |x| && center + l < |z| && center + l < |w|
    requires TurnedBand(y, x, center, l, c, s) && TurnedBand(z, w, center, l, c, s) && Circle(c, s)
    ensures Around(y, z, center, j) == Around(x, w, center, j)
  {
    if j > 0 {
      AroundKept(y, x, z, w, center, l, j - 1, c, s);
      assert TurnedPair(y, x, center, j, c(j), s(j)) && TurnedPair(z, w, center, j, c(j), s(j));
      PairKept(c(j), s(j), x[center - j], x[center + j], w[center - j], w[center + j]);
      PairTerms(y, z, center - j, center + j);
      PairTerms(x, w, center - j, center + j);
    } else {
      SameProduct(y[center], z[center], x[center], w[center]);
    }
  }

  /** Rotating both functions keeps their dot product. */
  lemma {:induction false} DotKept(y: seq<real>, x: seq<real>, z: seq<real>, w: seq<real>, order: nat,
      c: nat -> real, s: nat -> real)
    requires order * order <= |y| && order * order <= |x| && order * order <= |z| && order * order <= |w|
    requires Rotated(y, x, order, c, s) && Rotated(z, w, order, c, s) && Circle(c, s)
    ensures Products(y, z, order * order) == Products(x, w, order * order)
  {
    if order > 0 {
      var l := order - 1;
      SquaresAscend(l, order);
      DotKept(y, x, z, w, l, c, s);
      CenterIs(l);
      Fits(l, order);
      assert BandOf(y, x, l, c, s) && BandOf(z, w, l, c, s);
      AroundKept(y, x, z, w, Center(l), l, l, c, s);
      AroundIsPart(y, z, Center(l), l);
      AroundIsPart(x, w, Center(l), l);
    }
  }

  // ---------------------------------------------------------------------------------------------
  // One rotation after another.

  lemma MixFlat(c: real, s: real, d: real, t: real, a: real, b: real)
    ensures d * (c * a + s * b) + t * (-s * a + c * b) == (c * d - s * t) * a + (s * d + c * t) * b
    ensures -t * (c * a + s * b) + d * (-s * a + c * b) == -(s * d + c * t) * a + (c * d - s * t) * b
  {
  }

  lemma MixTwice(c: real, s: real, d: real, t: real, e: real, u: real, a: real, b: real, p: real, q: real)
    requires e == c * d - s * t && u == s * d + c * t
    requires p == Mix(c, a, s, b) && q == Mix(-s, a, c, b)
    ensures Mix(d, p, t, q) == Mix(e, a, u, b) && Mix(-t, p, d, q) == Mix(-u, a, e, b)
  {
    MixFlat(c, s, d, t, a, b);
    MulEq(d, p, c * a + s * b); MulEq(t, q, -s * a + c * b);
    MulEq(-t, p, c * a + s * b); MulEq(d, q, -s * a + c * b);
    MulEq(a, e, c * d - s * t); MulEq(b, u, s * d + c * t);
    MulEq(a, -u, -(s * d + c * t)); MulEq(b, e, c * d - s * t);
  }

  /** The cosines and sines of the sum of two angles. */
  ghost predicate Sums(e: nat -> real, u: nat -> real, c: nat -> real, s: nat -> real, d: nat -> real, t: nat -> real) {
    forall j: nat :: e(j) == c(j) * d(j) - s(j) * t(j) && u(j) == s(j) * d(j) + c(j) * t(j)
  }

  /** A rotation after a rotation is the rotation by the sum of the angles. */
  lemma RotatedTwice(z: seq<real>, y: seq<real>, x: seq<real>, order: nat, c: nat -> real, s: nat -> real,
                     d: nat -> real, t: nat -> real, e: nat -> real, u: nat -> real)
    requires Rotated(y, x, order, c, s) && Rotated(z, y, order, d, t) && Sums(e, u, c, s, d, t)
    ensures Rotated(z, x, order, e, u)
  {
    forall l: nat | l < order ensures BandOf(z, x, l, e, u) {
      assert BandOf(y, x, l, c, s) && BandOf(z, y, l, d, t);
      forall j: nat | 1 <= j <= l ensures TurnedPair(z, x, Center(l), j, e(j), u(j)) {
        assert TurnedPair(y, x, Center(l), j, c(j), s(j)) && TurnedPair(z, y, Center(l), j, d(j), t(j));
        MixTwice(c(j), s(j), d(j), t(j), e(j), u(j), x[Center(l) - j], x[Center(l) + j], y[Center(l) - j],
          y[Center(l) + j]);
      }
    }
  }

  ghost predicate AdditionFormulas(cos: real -> real, sin: real -> real) {
    forall p, q :: AddsUp(cos, sin, p, q)
  }

  ghost predicate AddsUp(cos: real -> real, sin: real -> real, p: real, q: real) {
    cos(p + q) == cos(p) * cos(q) - sin(p) * sin(q) && sin(p + q) == sin(p) * cos(q) + cos(p) * sin(q)
  }

  lemma MultiplesAdd(j: nat, a: real, b: real)
    ensures Multiple(j, a + b) == Multiple(j, a) + Multiple(j, b)
  {
  }

  lemma AnglesAdd(cos: real -> real, sin: real -> real, a: real, b: real)
    requires AdditionFormulas(cos, sin)
    ensures Sums(Multiples(cos, a + b), Multiples(sin, a + b), Multiples(cos, a), Multiples(sin, a),
      Multiples(cos, b), Multiples(sin, b))
  {
    var c, s, d, t := Multiples(cos, a), Multiples(sin, a), Multiples(cos, b), Multiples(sin, b);
    var e, u := Multiples(cos, a + b), Multiples(sin, a + b);
    forall j: nat ensures e(j) == c(j) * d(j) - s(j) * t(j) && u(j) == s(j) * d(j) + c(j) * t(j) {
      MultiplesAdd(j, a, b);
      assert AddsUp(cos, sin, Multiple(j, a), Multiple(j, b));
      AtSum(cos, sin, Multiple(j, a), Multiple(j, b), c(j), s(j), d(j), t(j));
    }
  }

  lemma AtSum(cos: real -> real, sin: real -> real, p: real, q: real, c: real, s: real, d: real, t: real)
    requires AddsUp(cos, sin, p, q) && c == cos(p) && s == sin(p) && d == cos(q) && t == sin(q)
    ensures cos(p + q) == c * d - s * t && sin(p + q) == s * d + c * t
  {
    MulEq(c, d, cos(q)); MulEq(s, t, sin(q)); MulEq(s, d, cos(q)); MulEq(c, t, sin(q));
  }

  /** Where the addition formulas hold, rotating by a and then by b is rotating by a + b. */
  lemma RotationsAdd(z: seq<real>, y: seq<real>, x: seq<real>, order: nat, cos: real -> real, sin: real -> real,
      a: real, b: real)
    requires AdditionFormulas(cos, sin)
    requires Rotated(y, x, order, Multiples(cos, a), Multiples(sin, a))
    requires Rotated(z, y, order, Multiples(cos, b), Multiples(sin, b))
    ensures Rotated(z, x, order, Multiples(cos, a + b), Multiples(sin, a + b))
  {
    AnglesAdd(cos, sin, a, b);
    RotatedTwice(z, y, x, order, Multiples(cos, a), Multiples(sin, a), Multiples(cos, b), Multiples(sin, b),
      Multiples(cos, a + b), Multiples(sin, a + b));
  }

  // ---------------------------------------------------------------------------------------------
  // What the coefficients stand for: in band l a series in the azimuth f, whose order j goes round j times.

  function Wave(x: seq<real>, l: nat, j: nat, f: real, cos: real -> real, sin: real -> real): real
    requires j <= l <= l * l + l && l * l + l + j < |x|
  {
    x[l * l + l + j] * cos(j as real * f) + x[l * l + l - j] * sin(j as real * f)
  }

  /** The orders up to j. */
  function Waves(x: seq<real>, l: nat, j: nat, f: real, cos: real -> real, sin: real -> real): real
    requires j <= l <= l * l + l && l * l + l + j < |x|
  {
    if j == 0 then x[l * l + l] else Waves(x, l, j - 1, f, cos, sin) + Wave(x, l, j, f, cos, sin)
  }

  ghost predicate EvenAndOdd(cos: real -> real, sin: real -> real) {
    forall p :: cos(-p) == cos(p) && sin(-p) == -sin(p)
  }

  lemma DifferenceFormulas(cos: real -> real, sin: real -> real, p: real, q: real)
    requires AdditionFormulas(cos, sin) && EvenAndOdd(cos, sin)
    ensures cos(p - q) == cos(p) * cos(q) + sin(p) * sin(q)
    ensures sin(p - q) == sin(p) * cos(q) - cos(p) * sin(q)
  {
    assert AddsUp(cos, sin, p, -q);
    assert p + -q == p - q;
    MulEq(sin(p), sin(-q), -sin(q));
    MulEq(cos(p), sin(-q), -sin(q));
  }

  lemma ShiftFlat(a: real, b: real, p: real, q: real, u: real, v: real)
    ensures (-q * a + p * b) * u + (p * a + q * b) * v == b * (u * p + v * q) + a * (v * p - u * q)
  {
  }

  lemma PairShift(a: real, b: real, p: real, q: real, u: real, v: real, w: real, z: real, ya: real, yb: real)
    requires ya == Mix(p, a, q, b) && yb == Mix(-q, a, p, b) && w == u * p + v * q && z == v * p - u * q
    ensures yb * u + ya * v == b * w + a * z
  {
    ShiftFlat(a, b, p, q, u, v);
    MulEq(u, yb, -q * a + p * b); MulEq(v, ya, p * a + q * b);
    MulEq(b, w, u * p + v * q); MulEq(a, z, v * p - u * q);
  }

  lemma MultipleOfDifference(j: nat, f: real, angle: real)
    ensures j as real * (f - angle) == j as real * f - Multiple(j, angle)
  {
  }

  lemma WaveTurned(y: seq<real>, x: seq<real>, l: nat, j: nat, f: real, angle: real, cos: real -> real,
      sin: real -> real)
    requires j <= l <= l * l + l && l * l + l + j < |x| && l * l + l + j < |y|
    requires AdditionFormulas(cos, sin) && EvenAndOdd(cos, sin)
    requires TurnedPair(y, x, l * l + l, j, cos(Multiple(j, angle)), sin(Multiple(j, angle)))
    ensures Wave(y, l, j, f, cos, sin) == Wave(x, l, j, f - angle, cos, sin)
  {
    var c := l * l + l;
    var turn, at, before := Multiple(j, angle), j as real * f, j as real * (f - angle);
    MultipleOfDifference(j, f, angle);
    DifferenceFormulas(cos, sin, at, turn);
    PairShift(x[c - j], x[c + j], cos(turn), sin(turn), cos(at), sin(at), cos(before), sin(before), y[c - j], y[c + j]);
  }

  lemma {:induction false} WavesTurned(y: seq<real>, x: seq<real>, l: nat, j: nat, f: real, angle: real,
      cos: real -> real, sin: real -> real)
    requires j <= l <= l * l + l && l * l + l + l < |x| && l * l + l + l < |y|
    requires AdditionFormulas(cos, sin) && EvenAndOdd(cos, sin)
    requires TurnedBand(y, x, l * l + l, l, Multiples(cos, angle), Multiples(sin, angle))
    ensures Waves(y, l, j, f, cos, sin) == Waves(x, l, j, f - angle, cos, sin)
  {
    if j > 0 {
      WavesTurned(y, x, l, j - 1, f, angle, cos, sin);
      var c, s := Multiples(cos, angle), Multiples(sin, angle);
      assert TurnedPair(y, x, l * l + l, j, c(j), s(j));
      WaveTurned(y, x, l, j, f, angle, cos, sin);
    }
  }

  /** Band l of the rotated function has at azimuth f the value that the original one has at f - angle. */
  lemma RotationTurnsFunction(y: seq<real>, x: seq<real>, order: nat, l: nat, f: real, angle: real,
      cos: real -> real, sin: real -> real)
    requires l < order && order * order <= |x| && order * order <= |y|
    requires Rotated(y, x, order, Multiples(cos, angle), Multiples(sin, angle))
    requires AdditionFormulas(cos, sin) && EvenAndOdd(cos, sin)
    ensures l <= l * l + l && l * l + l + l < order * order
    ensures Waves(y, l, l, f, cos, sin) == Waves(x, l, l, f - angle, cos, sin)
  {
    Fits(l, order);
    CenterIs(l);
    assert BandOf(y, x, l, Multiples(cos, angle), Multiples(sin, angle));
    WavesTurned(y, x, l, l, f, angle, cos, sin);
  }

  /** The function that the cells stand for, turned by the angle about the axis, band by band. */
  method RotateSeries(input: array<real>, order: int, angle: real, cos: real -> real, sin: real -> real)
    returns (out: array<real>)
    requires 2 <= order <= 6 && input.Length == order * order && AdditionFormulas(cos, sin) && EvenAndOdd(cos, sin)
    ensures fresh(out) && out.Length == order * order
    ensures forall l: nat, f: real :: l < order ==> TurnedAt(out[..], input[..], l, f, angle, cos, sin)
  {
    out := new real[order * order];
    DXSHRotateZ(out, order, angle, input, cos, sin);
    ghost var y, x := out[..], input[..];
    forall l: nat, f: real | l < order ensures TurnedAt(y, x, l, f, angle, cos, sin) {
      RotationTurnsFunction(y, x, order, l, f, angle, cos, sin);
    }
  }

  /** Band l of y has at the azimuth f the value that band l of x has at f - angle. */
  ghost predicate TurnedAt(y: seq<real>, x: seq<real>, l: nat, f: real, angle: real, cos: real -> real,
      sin: real -> real)
  {
    && l <= l * l + l && l * l + l + l < |x| && l * l + l + l < |y|
    && Waves(y, l, l, f, cos, sin) == Waves(x, l, l, f - angle, cos, sin)
  }

  /** A rotation by nothing keeps every cell of the bands. */
  lemma NotRotated(z: seq<real>, x: seq<real>, order: nat, c: nat -> real, s: nat -> real)
    requires order * order <= |z| && order * order <= |x|
    requires Rotated(z, x, order, c, s) && forall j: nat :: c(j) == 1.0 && s(j) == 0.0
    ensures z[..order * order] == x[..order * order]
  {
    forall k: nat | k < order * order ensures z[k] == x[k] {
      var l := CellHasBand(k, order);
      assert BandOf(z, x, l, c, s);
      if k != Center(l) {
        var j := if k < Center(l) then Center(l) - k else k - Center(l);
        assert TurnedPair(z, x, Center(l), j, c(j), s(j));
        MixNothing(x[Center(l) - j], x[Center(l) + j]);
      }
    }
  }

  lemma MixNothing(a: real, b: real)
    ensures Mix(1.0, a, 0.0, b) == a && Mix(-0.0, a, 1.0, b) == b
  {
  }

  /** The rotation with the sines negated undoes a rotation. */
  lemma RotatedBack(z: seq<real>, y: seq<real>, x: seq<real>, order: nat, c: nat -> real, s: nat -> real,
      t: nat -> real)
    requires order * order <= |z| && order * order <= |x|
    requires Rotated(y, x, order, c, s) && Rotated(z, y, order, c, t)
    requires Circle(c, s) && forall j: nat :: t(j) == -s(j)
    ensures z[..order * order] == x[..order * order]
  {
    var e, u := (j: nat) => 1.0, (j: nat) => 0.0;
    forall j: nat ensures e(j) == c(j) * c(j) - s(j) * t(j) && u(j) == s(j) * c(j) + c(j) * t(j) {
      MulEq(s(j), t(j), -s(j));
      MulEq(c(j), t(j), -s(j));
    }
    RotatedTwice(z, y, x, order, c, s, c, t, e, u);
    NotRotated(z, x, order, e, u);
  }

  /** Rotating by the angle and by its opposite gives back the coefficients, and the dot products on the way agree. */
  method RotateThereAndBack(x: array<real>, y: array<real>, z: array<real>, order: nat, angle: real,
      cos: real -> real, sin: real -> real)
    returns (before: real, between: real)
    requires 2 <= order <= 6 && x != y && x != z && y != z
    requires order * order <= x.Length && order * order <= y.Length && order * order <= z.Length
    requires Circle(Multiples(cos, angle), Multiples(sin, angle))
    modifies y, z
    ensures z[..order * order] == x[..order * order]
    ensures before == between
  {
    SquaresAscend(2, order);
    before := DXSHDot(order, x, x);
    DXSHRotateZ(y, order, angle, x, cos, sin);
    between := DXSHDot(order, y, y);
    var c, s := Multiples(cos, angle), Multiples(sin, angle);
    DotKept(y[..], x[..], y[..], x[..], order, c, s);
    ghost var turned := y[..];
    DXSHRotateZ(z, order, angle, y, cos, t => -sin(t));
    RotatedBack(z[..], turned, x[..], order, c, s, Multiples(t => -sin(t), angle));
    assert z[..][..order * order] == z[..order * order] && x[..][..order * order] == x[..order * order];
  }
}
