/** From triangles and quads to buffers: what a device that reads the vertices through the indices draws. */
module MeshShapes {
  import opened MeshBuild
  import opened MeshKey

  datatype Shape = Triangle(a: Vector, b: Vector, c: Vector) | Quad(a: Vector, b: Vector, c: Vector, d: Vector)

  function Triangles(shapes: seq<Shape>): nat {
    if shapes == [] then 0
    else Triangles(shapes[..|shapes| - 1]) + if shapes[|shapes| - 1].Triangle? then 1 else 0
  }

  function Quads(shapes: seq<Shape>): nat {
    if shapes == [] then 0
    else Quads(shapes[..|shapes| - 1]) + if shapes[|shapes| - 1].Quad? then 1 else 0
  }

  /** Where the indices of the shape after these begin. */
  function Start(shapes: seq<Shape>): nat { 3 * Triangles(shapes) + 6 * Quads(shapes) }

  /** The vertex is at the position, or has the position's key where points are shared. */
  predicate IsAt<A>(t: MeshType, v: Vertex<A>, p: Vector) {
    match t
    case SeparatePoints => v.x == p.x && v.y == p.y && v.z == p.z
    case ConnectedPoints => MakeKey(v.x, v.y, v.z) == MakeKey(p.x, p.y, p.z)
  }

  /** Three indices from position i on name vertices at a, b and c. */
  predicate Draws<A>(t: MeshType, vs: seq<Vertex<A>>, ix: seq<int>, i: nat, a: Vector, b: Vector, c: Vector) {
    && i + 3 <= |ix| && (forall k :: i <= k < i + 3 ==> 0 <= ix[k] < |vs|)
    && IsAt(t, vs[ix[i]], a) && IsAt(t, vs[ix[i + 1]], b) && IsAt(t, vs[ix[i + 2]], c)
  }

  predicate DrawsShape<A>(t: MeshType, vs: seq<Vertex<A>>, ix: seq<int>, i: nat, shape: Shape) {
    match shape
    case Triangle(a, b, c) => Draws(t, vs, ix, i, a, b, c)
    case Quad(a, b, c, d) => Draws(t, vs, ix, i, a, b, c) && Draws(t, vs, ix, i + 3, a, c, d)
  }

  /** Three indices for each triangle and six for each quad, which draw the shapes in their order. */
  ghost predicate DrawsAll<A>(t: MeshType, vs: seq<Vertex<A>>, ix: seq<int>, shapes: seq<Shape>) {
    && |ix| == 3 * Triangles(shapes) + 6 * Quads(shapes)
    && forall k :: 0 <= k < |shapes| ==> DrawsShape(t, vs, ix, Start(shapes[..k]), shapes[k])
  }

  /** No vertex is stored without need: one for each index, or one for each key. */
  ghost predicate Sparing<A>(t: MeshType, vs: seq<Vertex<A>>, ix: seq<int>) {
    match t
    case SeparatePoints => |vs| == |ix|
    case ConnectedPoints => forall i, j :: 0 <= i < j < |vs| ==> KeyOf(vs[i]) != KeyOf(vs[j])
  }

  // ---------------------------------------------------------------------------------------------

  function NewFace<A>(shape: Shape, unset: Vertex<A>): Face<A> {
    match shape
    case Triangle(a, b, c) => TriangleFace(a, b, c, unset)
    case Quad(a, b, c, d) => QuadFace(a, b, c, d, unset)
  }

  /** The faces are those of the shapes, whatever their normals are. */
  ghost predicate FacesOf<A>(faces: seq<Face<A>>, shapes: seq<Shape>) {
    |faces| == |shapes| && forall k :: 0 <= k < |shapes| ==> IsFaceOf(faces[k], shapes[k])
  }

  ghost predicate IsFaceOf<A>(face: Face<A>, shape: Shape) {
    && face.flags == (if shape.Quad? then FACE_FLAGS_QUAD else FACE_FLAGS_TRIANGLE)
    && Position(face.p0) == shape.a && Position(face.p1) == shape.b && Position(face.p2) == shape.c
    && (shape.Quad? ==> Position(face.p3) == shape.d)
  }

  function Position<A>(v: Vertex<A>): Vector { Vector(v.x, v.y, v.z) }

  lemma NewFaceIs<A>(shape: Shape, unset: Vertex<A>, sqrt: real -> real)
    ensures IsFaceOf(NewFace(shape, unset).WithNormal(sqrt), shape)
  {
    var face := NewFace(shape, unset);
    var updated := face.WithNormal(sqrt);
    assert forall k :: 0 <= k < 4 ==> Position(updated.Point(k)) == Position(face.Point(k));
    assert updated.Point(0) == updated.p0 && updated.Point(1) == updated.p1 && updated.Point(2) == updated.p2;
    assert updated.Point(3) == updated.p3;
  }

  /** The corner list of a shape's face. */
  lemma CornersOfFace<A>(face: Face<A>, shape: Shape)
    requires IsFaceOf(face, shape)
    ensures FaceCorners(face) == if shape.Quad? then [face.p0, face.p1, face.p2, face.p0, face.p2, face.p3]
      else [face.p0, face.p1, face.p2]
  {
  }

  /** Corner i of the list is a vertex at p. */
  ghost predicate CornerAt<A>(cs: seq<Vertex<A>>, i: nat, p: Vector) {
    i < |cs| && Position(cs[i]) == p
  }

  ghost predicate CornersAt<A>(cs: seq<Vertex<A>>, i: nat, shape: Shape) {
    && CornerAt(cs, i, shape.a) && CornerAt(cs, i + 1, shape.b) && CornerAt(cs, i + 2, shape.c)
    && (shape.Quad? ==> CornerAt(cs, i + 3, shape.a) && CornerAt(cs, i + 4, shape.c) && CornerAt(cs, i + 5, shape.d))
  }

  lemma {:induction false} CornersAppend<A>(cs: seq<Vertex<A>>, more: seq<Vertex<A>>, i: nat, shape: Shape)
    requires CornersAt(cs, i, shape)
    ensures CornersAt(cs + more, i, shape)
  {
  }

  lemma {:induction false} LastCorners<A>(cs: seq<Vertex<A>>, face: Face<A>, shape: Shape)
    requires IsFaceOf(face, shape)
    ensures CornersAt(cs + FaceCorners(face), |cs|, shape)
    ensures |cs + FaceCorners(face)| == |cs| + if shape.Quad? then 6 else 3
  {
    CornersOfFace(face, shape);
  }

  lemma {:induction false} FacesInit<A>(faces: seq<Face<A>>, shapes: seq<Shape>, n: nat)
    requires FacesOf(faces, shapes) && |faces| == n + 1
    ensures FacesOf(faces[..n], shapes[..n]) && IsFaceOf(faces[n], shapes[n])
    ensures Start(shapes) == Start(shapes[..n]) + if shapes[n].Quad? then 6 else 3
    ensures Corners(faces) == Corners(faces[..n]) + FaceCorners(faces[n])
  {
  }

  /** The corners of the faces, shape by shape. */
  lemma {:induction false} CornersAre<A>(faces: seq<Face<A>>, shapes: seq<Shape>, k: nat)
    requires FacesOf(faces, shapes)
    ensures |Corners(faces)| == Start(shapes)
    ensures k < |shapes| ==> CornersAt(Corners(faces), Start(shapes[..k]), shapes[k])
    decreases |faces|
  {
    if faces != [] {
      var n := |faces| - 1;
      FacesInit(faces, shapes, n);
      CornersAre(faces[..n], shapes[..n], k);
      var before := Corners(faces[..n]);
      LastCorners(before, faces[n], shapes[n]);
      if k < n {
        assert shapes[..n][..k] == shapes[..k];
        CornersAppend(before, FaceCorners(faces[n]), Start(shapes[..k]), shapes[k]);
      }
    }
  }

  /** A corner is where the index at its place leads. */
  lemma CornerIsRead<A>(t: MeshType, cs: seq<Vertex<A>>, i: nat, p: Vector)
    requires CornerAt(cs, i, p)
    ensures |Indices(t, cs)| == |cs| && 0 <= Indices(t, cs)[i] < |Vertices(t, cs)|
    ensures IsAt(t, Vertices(t, cs)[Indices(t, cs)[i]], p)
  {
    Geometry(t, cs, i);
  }

  lemma TriangleIsRead<A>(t: MeshType, cs: seq<Vertex<A>>, i: nat, a: Vector, b: Vector, c: Vector)
    requires CornerAt(cs, i, a) && CornerAt(cs, i + 1, b) && CornerAt(cs, i + 2, c)
    ensures Draws(t, Vertices(t, cs), Indices(t, cs), i, a, b, c)
  {
    CornerIsRead(t, cs, i, a);
    CornerIsRead(t, cs, i + 1, b);
    CornerIsRead(t, cs, i + 2, c);
  }

  lemma ShapeIsRead<A>(t: MeshType, cs: seq<Vertex<A>>, i: nat, shape: Shape)
    requires CornersAt(cs, i, shape)
    ensures DrawsShape(t, Vertices(t, cs), Indices(t, cs), i, shape)
  {
    TriangleIsRead(t, cs, i, shape.a, shape.b, shape.c);
    if shape.Quad? {
      TriangleIsRead(t, cs, i + 3, shape.a, shape.c, shape.d);
    }
  }

  /** The buffers of a mesh of these shapes draw every shape, in order, and nothing else. */
  lemma {:induction false} ShapesAreDrawn<A>(t: MeshType, faces: seq<Face<A>>, shapes: seq<Shape>,
      vertices: seq<Vertex<A>>, indices: seq<int>)
    requires FacesOf(faces, shapes)
    requires vertices == Vertices(t, Corners(faces)) && indices == Indices(t, Corners(faces))
    ensures DrawsAll(t, vertices, indices, shapes) && Sparing(t, vertices, indices)
  {
    var cs := Corners(faces);
    ConnectedMinimal(cs);
    CornersAre(faces, shapes, |shapes|);
    IndexForEach(t, cs);
    forall k | 0 <= k < |shapes| ensures DrawsShape(t, vertices, indices, Start(shapes[..k]), shapes[k]) {
      CornersAre(faces, shapes, k);
      ShapeIsRead(t, cs, Start(shapes[..k]), shapes[k]);
    }
  }

  lemma {:induction false} IndexForEach<A>(t: MeshType, cs: seq<Vertex<A>>)
    ensures |Indices(t, cs)| == |cs|
  {
    if cs != [] {
      Geometry(t, cs, 0);
    }
  }

  lemma OneMoreFace<A>(faces: seq<Face<A>>, face: Face<A>, shapes: seq<Shape>, i: nat)
    requires i < |shapes| && FacesOf(faces, shapes[..i]) && IsFaceOf(face, shapes[i])
    ensures FacesOf(faces + [face], shapes[..i + 1])
  {
    assert shapes[..i + 1] == shapes[..i] + [shapes[i]];
  }

  method AddShapes<A>(mesh: Mesh<A>, shapes: seq<Shape>, unset: Vertex<A>, sqrt: real -> real)
    requires mesh.Valid() && mesh.vbuff.None? && mesh.faces == []
    modifies mesh
    ensures mesh.Valid() && mesh.vbuff.None? && mesh.meshType == old(mesh.meshType) && FacesOf(mesh.faces, shapes)
  {
    var i := 0;
    while i < |shapes|
      invariant 0 <= i <= |shapes|
      invariant mesh.Valid() && mesh.vbuff.None? && mesh.meshType == old(mesh.meshType)
      invariant FacesOf(mesh.faces, shapes[..i])
    {
      NewFaceIs(shapes[i], unset, sqrt);
      ghost var before := mesh.faces;
      var updated := mesh.AddFace(NewFace(shapes[i], unset), sqrt);
      OneMoreFace(before, updated, shapes, i);
      i := i + 1;
    }
    assert shapes[..i] == shapes;
  }

  /**
   * A mesh of triangles and quads in any order: three indices for each triangle and six for each quad, which lead to
   * (a, b, c), and for a quad to (a, c, d) as well.
   */
  method BuildMesh<A>(t: MeshType, shapes: seq<Shape>, unset: Vertex<A>, sqrt: real -> real)
    returns (vertices: seq<Vertex<A>>, indices: seq<int>)
    ensures DrawsAll(t, vertices, indices, shapes) && Sparing(t, vertices, indices)
  {
    var mesh := new Mesh<A>(t);
    AddShapes(mesh, shapes, unset, sqrt);
    vertices, indices := mesh.GetBuffers();
    assert mesh.faces[..mesh.built] == mesh.faces;
    ShapesAreDrawn(t, mesh.faces, shapes, vertices, indices);
  }
}
