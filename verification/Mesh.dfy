/** Mesh::GetBuffers: faces become a vertex list and an index list, with optional sharing of equal-key points. */
module MeshBuild {
  import opened Common
  import opened MeshKey

  datatype Vector = Vector(x: real, y: real, z: real)

  datatype Vertex<A> = Vertex(x: real, y: real, z: real, normal: Vector, attributes: A)

  const FACE_FLAGS_TRIANGLE: nat := 1
  const FACE_FLAGS_QUAD: nat := 2

  datatype Face<A> = Face(flags: nat, p0: Vertex<A>, p1: Vertex<A>, p2: Vertex<A>, p3: Vertex<A>) {
    function Point(k: nat): Vertex<A>
      requires k < 4
    {
      if k == 0 then p0 else if k == 1 then p1 else if k == 2 then p2 else p3
    }

    /** UpdateNormal: all four points get the normal of the first three. */
    function WithNormal(sqrt: real -> real): (f: Face<A>)
      ensures f.flags == flags
      ensures forall k :: 0 <= k < 4 ==>
        f.Point(k) == Point(k).(normal := Normalize(VectorProduct(Edge(p0, p1), Edge(p0, p2)), sqrt))
    {
      var n := Normalize(VectorProduct(Edge(p0, p1), Edge(p0, p2)), sqrt);
      Face(flags, p0.(normal := n), p1.(normal := n), p2.(normal := n), p3.(normal := n))
    }

    /** (flags & FACE_FLAGS_QUAD) == FACE_FLAGS_QUAD. */
    predicate IsQuad() { flags / FACE_FLAGS_QUAD % 2 == 1 }
  }

  function Placed<A>(v: Vertex<A>, p: Vector): Vertex<A> { v.(x := p.x, y := p.y, z := p.z) }

  /** The two constructors of a face. Only positions are set; `unset` is a vertex as it is by default. */
  function TriangleFace<A>(a: Vector, b: Vector, c: Vector, unset: Vertex<A>): Face<A> {
    Face(FACE_FLAGS_TRIANGLE, Placed(unset, a), Placed(unset, b), Placed(unset, c), unset)
  }

  function QuadFace<A>(a: Vector, b: Vector, c: Vector, d: Vector, unset: Vertex<A>): Face<A> {
    Face(FACE_FLAGS_QUAD, Placed(unset, a), Placed(unset, b), Placed(unset, c), Placed(unset, d))
  }

  // ---------------------------------------------------------------------------------------------
  // The normal of a face, with the square root as a parameter.

  /** From the vertex v to the vertex w. */
  function Edge<A>(v: Vertex<A>, w: Vertex<A>): Vector { Vector(w.x - v.x, w.y - v.y, w.z - v.z) }

  function VectorProduct(a: Vector, b: Vector): Vector {
    Vector(a.y * b.z - a.z * b.y, a.z * b.x - a.x * b.z, a.x * b.y - a.y * b.x)
  }

  function ScalarProduct(a: Vector, b: Vector): real { a.x * b.x + a.y * b.y + a.z * b.z }

  function Normalize(v: Vector, sqrt: real -> real): Vector {
    var norm := sqrt(ScalarProduct(v, v));
    if norm == 0.0 then Vector(0.0, 0.0, 0.0) else Vector(v.x / norm, v.y / norm, v.z / norm)
  }

  lemma ProductIsOrthogonal(a: Vector, b: Vector)
    ensures ScalarProduct(VectorProduct(a, b), a) == 0.0 && ScalarProduct(VectorProduct(a, b), b) == 0.0
  {
  }

  lemma SquaresAreNotNegative(v: Vector)
    ensures ScalarProduct(v, v) >= 0.0
    ensures ScalarProduct(v, v) == 0.0 <==> v == Vector(0.0, 0.0, 0.0)
  {
    SquareSign(v.x, v.x, v.x * v.x);
    SquareSign(v.y, v.y, v.y * v.y);
    SquareSign(v.z, v.z, v.z * v.z);
  }

  lemma Divided(v: Vector, w: Vector, n: real)
    requires n != 0.0
    ensures ScalarProduct(Vector(v.x / n, v.y / n, v.z / n), w) == ScalarProduct(v, w) / n
  {
    QuotientTimes(v.x, w.x, n);
    QuotientTimes(v.y, w.y, n);
    QuotientTimes(v.z, w.z, n);
  }

  lemma QuotientTimes(a: real, b: real, n: real)
    requires n != 0.0
    ensures (a / n) * b == (a * b) / n
  {
  }

  /** The normal is orthogonal to both edges, and of length 1 unless the three points lie on a line. */
  lemma NormalIs(a: Vector, b: Vector, sqrt: real -> real)
    requires IsSqrt(sqrt)
    ensures var n := Normalize(VectorProduct(a, b), sqrt);
      && ScalarProduct(n, a) == 0.0 && ScalarProduct(n, b) == 0.0
      && ScalarProduct(n, n) == if VectorProduct(a, b) == Vector(0.0, 0.0, 0.0) then 0.0 else 1.0
  {
    var v := VectorProduct(a, b);
    var norm := sqrt(ScalarProduct(v, v));
    ProductIsOrthogonal(a, b);
    SquaresAreNotNegative(v);
    SquareSign(norm, norm, norm * norm);
    if norm != 0.0 {
      Divided(v, a, norm);
      Divided(v, b, norm);
      UnitLength(v, Normalize(v, sqrt), norm);
    }
  }

  lemma UnitLength(v: Vector, n: Vector, norm: real)
    requires norm != 0.0 && norm * norm == ScalarProduct(v, v) && n == Vector(v.x / norm, v.y / norm, v.z / norm)
    ensures ScalarProduct(n, n) == 1.0
  {
    Divided(v, n, norm);
    assert ScalarProduct(v, n) == ScalarProduct(n, v);
    Divided(v, v, norm);
    assert norm * norm / norm == norm;
  }

  lemma NotNegative(a: real, n: real)
    requires a >= 0.0 && n > 0.0
    ensures a / n >= 0.0
  {
  }

  lemma SameSide(v: Vector, n: Vector, norm: real)
    requires norm > 0.0 && n == Vector(v.x / norm, v.y / norm, v.z / norm)
    ensures ScalarProduct(n, v) >= 0.0
  {
    Divided(v, v, norm);
    SquaresAreNotNegative(v);
    NotNegative(ScalarProduct(v, v), norm);
  }

  lemma NormalSide(v: Vector, sqrt: real -> real)
    requires IsSqrt(sqrt)
    ensures ScalarProduct(Normalize(v, sqrt), v) >= 0.0
  {
    SquaresAreNotNegative(v);
    if sqrt(ScalarProduct(v, v)) != 0.0 {
      SameSide(v, Normalize(v, sqrt), sqrt(ScalarProduct(v, v)));
    }
  }

  /** It points to the side from which the edges a and b turn anticlockwise in a right-handed system. */
  lemma NormalIsRightHanded(a: Vector, b: Vector, w: Vector, sqrt: real -> real)
    requires IsSqrt(sqrt)
    requires w == Vector(a.y * b.z - a.z * b.y, a.z * b.x - a.x * b.z, a.x * b.y - a.y * b.x)
    ensures ScalarProduct(Normalize(VectorProduct(a, b), sqrt), w) >= 0.0
  {
    assert w == VectorProduct(a, b);
    NormalSide(w, sqrt);
  }

  datatype MeshType = ConnectedPoints | SeparatePoints

  datatype PointEntry<A> = PointEntry(point: Vertex<A>, key: int)

  function KeyOf<A>(v: Vertex<A>): int { MakeKey(v.x, v.y, v.z) }

  function Entry<A>(v: Vertex<A>): PointEntry<A> { PointEntry(v, KeyOf(v)) }

  /** DictStruct::IndexOf in list mode, with the key comparison of PointEntry::operator==. */
  function IndexOf<A>(ps: seq<PointEntry<A>>, v: Vertex<A>): (r: int)
    ensures -1 <= r < |ps|
    ensures r >= 0 ==> ps[r].key == KeyOf(v)
    ensures forall k :: 0 <= k < (if r == -1 then |ps| else r) ==> ps[k].key != KeyOf(v)
  {
    if ps == [] then -1
    else if ps[0].key == KeyOf(v) then 0
    else
      var r := IndexOf(ps[1..], v);
      if r == -1 then -1 else r + 1
  }

  // ---------------------------------------------------------------------------------------------
  // Reference meaning.

  /** The corners a face stands for: one triangle, or the two triangles of a quad. */
  function FaceCorners<A>(f: Face<A>): seq<Vertex<A>> {
    [f.p0, f.p1, f.p2] + if f.IsQuad() then [f.p0, f.p2, f.p3] else []
  }

  function Corners<A>(faces: seq<Face<A>>): seq<Vertex<A>> {
    if faces == [] then [] else Corners(faces[..|faces| - 1]) + FaceCorners(faces[|faces| - 1])
  }

  /** The first corner of each key, in order of appearance. */
  function FirstSeen<A>(cs: seq<Vertex<A>>): seq<PointEntry<A>> {
    if cs == [] then []
    else
      var before := FirstSeen(cs[..|cs| - 1]);
      var v := cs[|cs| - 1];
      if IndexOf(before, v) == -1 then before + [Entry(v)] else before
  }

  /** Where each corner is found among the points seen up to it. */
  function SharedIndices<A>(cs: seq<Vertex<A>>): seq<int> {
    if cs == [] then [] else SharedIndices(cs[..|cs| - 1]) + [IndexOf(FirstSeen(cs), cs[|cs| - 1])]
  }

  function Points<A>(ps: seq<PointEntry<A>>): seq<Vertex<A>> {
    seq(|ps|, i requires 0 <= i < |ps| => ps[i].point)
  }

  /** What the two buffers hold for a list of corners. */
  function Vertices<A>(t: MeshType, cs: seq<Vertex<A>>): seq<Vertex<A>> {
    if t.SeparatePoints? then cs else Points(FirstSeen(cs))
  }

  function Indices<A>(t: MeshType, cs: seq<Vertex<A>>): seq<int> {
    if t.SeparatePoints? then seq(|cs|, i => i) else SharedIndices(cs)
  }

  // ---------------------------------------------------------------------------------------------
  // Properties of the reference meaning.

  lemma {:induction false} FirstSeenDistinct<A>(cs: seq<Vertex<A>>)
    ensures forall i :: 0 <= i < |FirstSeen(cs)| ==> FirstSeen(cs)[i] == Entry(FirstSeen(cs)[i].point)
    ensures forall i, j :: 0 <= i < j < |FirstSeen(cs)| ==> FirstSeen(cs)[i].key != FirstSeen(cs)[j].key
  {
    if cs != [] {
      FirstSeenDistinct(cs[..|cs| - 1]);
    }
  }

  /** Seeing more corners only appends points. */
  lemma {:induction false} FirstSeenGrows<A>(cs: seq<Vertex<A>>, n: nat)
    requires n <= |cs|
    ensures FirstSeen(cs[..n]) <= FirstSeen(cs)
    decreases |cs|
  {
    if n == |cs| {
      assert cs[..n] == cs;
    } else {
      FirstSeenGrows(cs[..|cs| - 1], n);
      assert cs[..|cs| - 1][..n] == cs[..n];
    }
  }

  lemma IndexInPrefix<A>(ps: seq<PointEntry<A>>, qs: seq<PointEntry<A>>, v: Vertex<A>)
    requires ps <= qs && IndexOf(ps, v) != -1
    ensures IndexOf(qs, v) == IndexOf(ps, v)
  {
    var r := IndexOf(ps, v);
    assert qs[r] == ps[r];
    assert forall k :: 0 <= k < r ==> qs[k] == ps[k];
  }

  lemma {:induction false} SharedIndicesAre<A>(cs: seq<Vertex<A>>, j: nat)
    requires j < |cs|
    ensures |SharedIndices(cs)| == |cs|
    ensures SharedIndices(cs)[j] == IndexOf(FirstSeen(cs), cs[j]) != -1
    decreases |cs|
  {
    var init := cs[..|cs| - 1];
    if init == [] {
    } else if j < |cs| - 1 {
      SharedIndicesAre(init, j);
      FirstSeenGrows(cs, |cs| - 1);
      IndexInPrefix(FirstSeen(init), FirstSeen(cs), cs[j]);
    } else {
      SharedIndicesAre(init, 0);
    }
    LastIsSeen(cs);
  }

  lemma LastIsSeen<A>(cs: seq<Vertex<A>>)
    requires cs != []
    ensures IndexOf(FirstSeen(cs), cs[|cs| - 1]) != -1
  {
    var ps, v := FirstSeen(cs), cs[|cs| - 1];
    var before := FirstSeen(cs[..|cs| - 1]);
    if IndexOf(before, v) == -1 {
      assert ps[|before|] == Entry(v);
    }
  }

  /** A corner seen before adds no point. */
  lemma SeenAddsNothing<A>(cs: seq<Vertex<A>>, v: Vertex<A>)
    requires IndexOf(FirstSeen(cs), v) != -1
    ensures FirstSeen(cs + [v]) == FirstSeen(cs)
    ensures SharedIndices(cs + [v]) == SharedIndices(cs) + [IndexOf(FirstSeen(cs), v)]
  {
    assert (cs + [v])[..|cs|] == cs;
  }

  lemma Snoc<A>(cs: seq<Vertex<A>>, v: Vertex<A>)
    ensures FirstSeen(cs + [v]) == if IndexOf(FirstSeen(cs), v) == -1 then FirstSeen(cs) + [Entry(v)] else FirstSeen(cs)
    ensures SharedIndices(cs + [v]) == SharedIndices(cs) + [IndexOf(FirstSeen(cs + [v]), v)]
    ensures FirstSeen(cs) <= FirstSeen(cs + [v]) && IndexOf(FirstSeen(cs + [v]), v) != -1
  {
    assert (cs + [v])[..|cs|] == cs;
    LastIsSeen(cs + [v]);
  }

  /** Every point is the first corner that has its key. */
  lemma {:induction false} FirstSeenIsFirst<A>(cs: seq<Vertex<A>>, i: nat) returns (j: nat)
    requires i < |FirstSeen(cs)|
    ensures j < |cs| && cs[j] == FirstSeen(cs)[i].point
    ensures forall k :: 0 <= k < j ==> KeyOf(cs[k]) != KeyOf(cs[j])
    decreases |cs|
  {
    var init := cs[..|cs| - 1];
    if i < |FirstSeen(init)| {
      j := FirstSeenIsFirst(init, i);
    } else {
      j := |cs| - 1;
      forall k | 0 <= k < j ensures KeyOf(cs[k]) != KeyOf(cs[j]) {
        SharedIndicesAre(init, k);
      }
    }
  }

  /**
   * Geometry: reading the vertices through the indices gives the corners back, exactly in separate mode and up to
   * the lookup key in connected mode.
   */
  lemma Geometry<A>(t: MeshType, cs: seq<Vertex<A>>, j: nat)
    requires j < |cs|
    ensures |Indices(t, cs)| == |cs|
    ensures 0 <= Indices(t, cs)[j] < |Vertices(t, cs)|
    ensures KeyOf(Vertices(t, cs)[Indices(t, cs)[j]]) == KeyOf(cs[j])
    ensures t.SeparatePoints? ==> Indices(t, cs)[j] == j && Vertices(t, cs)[j] == cs[j]
  {
    if t.ConnectedPoints? {
      SharedIndicesAre(cs, j);
      FirstSeenDistinct(cs);
    }
  }

  /** No two vertices of a connected mesh share a key, and none is superfluous. */
  lemma ConnectedMinimal<A>(cs: seq<Vertex<A>>)
    ensures var vs := Vertices(ConnectedPoints, cs);
      && (forall i, j :: 0 <= i < j < |vs| ==> KeyOf(vs[i]) != KeyOf(vs[j]))
      && (forall i :: 0 <= i < |vs| ==> vs[i] in cs)
  {
    FirstSeenDistinct(cs);
    var vs := Vertices(ConnectedPoints, cs);
    forall i, j | 0 <= i < j < |vs| ensures KeyOf(vs[i]) != KeyOf(vs[j]) {
      assert FirstSeen(cs)[i].key != FirstSeen(cs)[j].key;
    }
    forall i | 0 <= i < |vs| ensures vs[i] in cs {
      var j := FirstSeenIsFirst(cs, i);
    }
  }

  /** Sharing moves no corner by 0.002 or more, as long as the coordinates are inside the key's range. */
  lemma ConnectedMovesLittle<A>(cs: seq<Vertex<A>>, j: nat)
    requires j < |cs|
    requires forall v :: v in cs ==> InBox(Quantise(v.x), Quantise(v.y), Quantise(v.z))
    ensures |SharedIndices(cs)| == |cs|
    ensures var vs := Vertices(ConnectedPoints, cs); var i := SharedIndices(cs)[j];
      0 <= i < |vs| && Abs(vs[i].x - cs[j].x) < 0.002 && Abs(vs[i].y - cs[j].y) < 0.002
        && Abs(vs[i].z - cs[j].z) < 0.002
  {
    Geometry(ConnectedPoints, cs, j);
    ConnectedMinimal(cs);
    var w := Vertices(ConnectedPoints, cs)[SharedIndices(cs)[j]];
    SameKeyClose(w.x, w.y, w.z, cs[j].x, cs[j].y, cs[j].z);
  }

  /** The loop state after the corners `cs`. */
  ghost predicate Built<A>(t: MeshType, cs: seq<Vertex<A>>, points: seq<PointEntry<A>>, indices: seq<int>) {
    && indices == Indices(t, cs)
    && if t.SeparatePoints? then Points(points) == cs else points == FirstSeen(cs)
  }

  /** Where the next point goes, and the point list after it. */
  function Found<A>(t: MeshType, points: seq<PointEntry<A>>, v: Vertex<A>): int {
    var known := if t.SeparatePoints? then -1 else IndexOf(points, v);
    if known == -1 then |points| else known
  }

  function WithPoint<A>(t: MeshType, points: seq<PointEntry<A>>, v: Vertex<A>): seq<PointEntry<A>> {
    if t.SeparatePoints? || IndexOf(points, v) == -1 then points + [Entry(v)] else points
  }

  lemma BuiltOneMore<A>(t: MeshType, cs: seq<Vertex<A>>, points: seq<PointEntry<A>>, indices: seq<int>, v: Vertex<A>)
    requires Built(t, cs, points, indices)
    ensures Built(t, cs + [v], WithPoint(t, points, v), indices + [Found(t, points, v)])
    ensures points <= WithPoint(t, points, v)
    ensures t.ConnectedPoints? ==> IndexOf(WithPoint(t, points, v), v) == Found(t, points, v)
  {
    if t.SeparatePoints? {
      assert Points(points + [Entry(v)]) == Points(points) + [v];
    } else {
      Snoc(cs, v);
      LastIsSeen(cs + [v]);
      if IndexOf(points, v) == -1 {
        assert WithPoint(t, points, v)[|points|].key == KeyOf(v);
      }
    }
  }

  /** The remembered face indices are where the points are now. */
  ghost predicate Recalled<A>(t: MeshType, points: seq<PointEntry<A>>, vs: seq<Vertex<A>>, faceIndices: seq<int>) {
    && |faceIndices| == |vs|
    && (t.ConnectedPoints? ==> forall m :: 0 <= m < |vs| ==> faceIndices[m] == IndexOf(points, vs[m]) != -1)
  }

  /** The state of the corner loop after k of the corners `vs` of a face. */
  ghost predicate InTriangle<A>(t: MeshType, cs: seq<Vertex<A>>, vs: seq<Vertex<A>>, k: nat,
      points: seq<PointEntry<A>>, indices: seq<int>, faceIndices: seq<int>)
  {
    k <= |vs| && Built(t, cs + vs[..k], points, indices) && Recalled(t, points, vs[..k], faceIndices)
  }

  lemma TriangleStart<A>(t: MeshType, cs: seq<Vertex<A>>, vs: seq<Vertex<A>>, points: seq<PointEntry<A>>,
      indices: seq<int>)
    requires Built(t, cs, points, indices)
    ensures InTriangle(t, cs, vs, 0, points, indices, [])
  {
    assert cs + vs[..0] == cs;
  }

  lemma TriangleStep<A>(t: MeshType, cs: seq<Vertex<A>>, vs: seq<Vertex<A>>, k: nat, points: seq<PointEntry<A>>,
      indices: seq<int>, faceIndices: seq<int>)
    requires k < |vs| && InTriangle(t, cs, vs, k, points, indices, faceIndices)
    ensures var points', found := WithPoint(t, points, vs[k]), Found(t, points, vs[k]);
      InTriangle(t, cs, vs, k + 1, points', indices + [found], faceIndices + [found])
  {
    BuiltOneMore(t, cs + vs[..k], points, indices, vs[k]);
    assert cs + vs[..k] + [vs[k]] == cs + vs[..k + 1];
    var points' := WithPoint(t, points, vs[k]);
    if t.ConnectedPoints? {
      forall m | 0 <= m < k ensures IndexOf(points', vs[..k + 1][m]) == faceIndices[m] {
        assert vs[..k + 1][m] == vs[..k][m];
        IndexInPrefix(points, points', vs[m]);
      }
    }
  }

  lemma TriangleEnd<A>(t: MeshType, cs: seq<Vertex<A>>, vs: seq<Vertex<A>>, points: seq<PointEntry<A>>,
      indices: seq<int>, faceIndices: seq<int>)
    requires InTriangle(t, cs, vs, |vs|, points, indices, faceIndices)
    ensures Built(t, cs + vs, points, indices) && Recalled(t, points, vs, faceIndices)
  {
    assert vs[..|vs|] == vs;
  }

  /** The second triangle of a quad: corners 0 and 2 are found again. */
  lemma BuiltSecondTriangle<A>(t: MeshType, cs: seq<Vertex<A>>, points: seq<PointEntry<A>>, indices: seq<int>,
      face: Face<A>)
    requires Built(t, cs, points, indices) && face.IsQuad()
    requires t.ConnectedPoints? ==> IndexOf(points, face.p0) != -1 && IndexOf(points, face.p2) != -1
    ensures t.ConnectedPoints? ==>
      Built(t, cs + [face.p0, face.p2, face.p3], WithPoint(t, points, face.p3),
        indices + [IndexOf(points, face.p0)] + [IndexOf(points, face.p2)] + [Found(t, points, face.p3)])
    ensures t.SeparatePoints? ==>
      Built(t, cs + [face.p0, face.p2, face.p3], points + [Entry(face.p0)] + [Entry(face.p2)] + [Entry(face.p3)],
        indices + [|indices|] + [|indices| + 1] + [|indices| + 2])
  {
    assert cs + [face.p0, face.p2, face.p3] == cs + [face.p0] + [face.p2] + [face.p3];
    if t.ConnectedPoints? {
      SeenAddsNothing(cs, face.p0);
      SeenAddsNothing(cs + [face.p0], face.p2);
      BuiltOneMore(t, cs + [face.p0] + [face.p2], points,
        indices + [IndexOf(points, face.p0)] + [IndexOf(points, face.p2)], face.p3);
    }
  }

  // ---------------------------------------------------------------------------------------------

  class Mesh<A> {
    var faces: seq<Face<A>>
    var meshType: MeshType
    var initialized: bool
    var vbuff: Option<seq<Vertex<A>>>
    var ibuff: Option<seq<int>>
    /** How many faces there were when the buffers were made. */
    ghost var built: nat

    ghost predicate Valid()
      reads this
    {
      && built <= |faces|
      && (vbuff.Some? <==> ibuff.Some?)
      && (vbuff.Some? ==>
            && vbuff.value == Vertices(meshType, Corners(faces[..built]))
            && ibuff.value == Indices(meshType, Corners(faces[..built])))
    }

    constructor (t: MeshType)
      ensures Valid() && faces == [] && meshType == t && vbuff.None?
    {
      faces, meshType, initialized, vbuff, ibuff, built := [], t, false, None, None, 0;
    }

    /** Sets the normal of a face and adds it. Buffers that were made before stay as they are. */
    method AddFace(face: Face<A>, sqrt: real -> real) returns (updated: Face<A>)
      requires Valid()
      modifies this
      ensures updated == face.WithNormal(sqrt)
      ensures Valid() && faces == old(faces) + [updated]
      ensures meshType == old(meshType) && vbuff == old(vbuff) && ibuff == old(ibuff) && built == old(built)
    {
      updated := face.WithNormal(sqrt);
      faces := faces + [updated];
      assert faces[..built] == old(faces)[..built];
    }

    method GetBuffers() returns (vertices: seq<Vertex<A>>, indices: seq<int>)
      requires Valid()
      modifies this
      ensures Valid() && faces == old(faces) && meshType == old(meshType)
      ensures built == if old(vbuff.Some?) then old(built) else |faces|
      ensures vbuff == Some(vertices) && ibuff == Some(indices)
      ensures vertices == Vertices(meshType, Corners(faces[..built]))
      ensures indices == Indices(meshType, Corners(faces[..built]))
    {
      initialized := true;
      if vbuff.Some? && ibuff.Some? {
        return vbuff.value, ibuff.value;
      }
      var points: seq<PointEntry<A>> := [];
      indices := [];
      var i := 0;
      while i < |faces|
        invariant 0 <= i <= |faces|
        invariant Built(meshType, Corners(faces[..i]), points, indices)
        invariant faces == old(faces) && meshType == old(meshType) && vbuff == old(vbuff) && ibuff == old(ibuff)
      {
        points, indices := AddFaceTo(faces[i], points, indices, Corners(faces[..i]));
        assert faces[..i + 1][..i] == faces[..i];
        i := i + 1;
      }
      assert faces[..i] == faces;
      vertices := Points(points);
      built := |faces|;
      vbuff := Some(vertices);
      ibuff := Some(indices);
      assert faces[..built] == faces;
    }

    /** One round of the face loop. `cs` are the corners of the earlier faces. */
    method AddFaceTo(face: Face<A>, points0: seq<PointEntry<A>>, indices0: seq<int>, ghost cs: seq<Vertex<A>>)
      returns (points: seq<PointEntry<A>>, indices: seq<int>)
      requires Built(meshType, cs, points0, indices0)
      ensures Built(meshType, cs + FaceCorners(face), points, indices)
    {
      var faceIndices;
      points, indices, faceIndices := AddFirstTriangle(face, points0, indices0, cs);
      ghost var done := cs + [face.p0, face.p1, face.p2];
      if face.IsQuad() {
        assert cs + FaceCorners(face) == done + [face.p0, face.p2, face.p3];
        BuiltSecondTriangle(meshType, done, points, indices, face);
        if meshType.ConnectedPoints? {
          var found := IndexOf(points, face.p3);
          if found == -1 {
            points := points + [Entry(face.p3)];
            found := |points| - 1;
          }
          indices := indices + [faceIndices[0]];
          indices := indices + [faceIndices[2]];
          indices := indices + [found];
        } else {
          var n := |indices|;
          indices := indices + [n] + [n + 1] + [n + 2];
          points := points + [Entry(face.p0)] + [Entry(face.p2)] + [Entry(face.p3)];
        }
      } else {
        assert cs + FaceCorners(face) == done;
      }
    }

    method AddFirstTriangle(face: Face<A>, points0: seq<PointEntry<A>>, indices0: seq<int>, ghost cs: seq<Vertex<A>>)
      returns (points: seq<PointEntry<A>>, indices: seq<int>, faceIndices: seq<int>)
      requires Built(meshType, cs, points0, indices0)
      ensures Built(meshType, cs + [face.p0, face.p1, face.p2], points, indices)
      ensures |faceIndices| == 3
      ensures meshType.ConnectedPoints? ==>
        && faceIndices[0] == IndexOf(points, face.p0) != -1
        && faceIndices[2] == IndexOf(points, face.p2) != -1
    {
      points, indices, faceIndices := points0, indices0, [];
      var k := 0;
      ghost var vs := [face.p0, face.p1, face.p2];
      TriangleStart(meshType, cs, vs, points, indices);
      while k < 3
        invariant 0 <= k <= 3
        invariant InTriangle(meshType, cs, vs, k, points, indices, faceIndices)
      {
        var v := face.Point(k);
        TriangleStep(meshType, cs, vs, k, points, indices, faceIndices);
        ghost var points', found' := WithPoint(meshType, points, v), Found(meshType, points, v);
        var found := if meshType.SeparatePoints? then -1 else IndexOf(points, v);
        if found == -1 {
          points := points + [Entry(v)];
          found := |points| - 1;
        }
        assert points == points' && found == found';
        faceIndices := faceIndices + [found];
        indices := indices + [found];
        k := k + 1;
      }
      TriangleEnd(meshType, cs, vs, points, indices, faceIndices);
      assert vs[0] == face.p0 && vs[2] == face.p2;
    }
  }
}
