/** The two cube vertex serialisers of `src/shape.js`: each writes the unit cube centred at the
    origin as six quads of four corner records, turns every quad in place into the six vertices
    of a two-triangle list (corner order 0,1,2,3,2,1) and flattens the result into one
    interleaved list of numbers. */
module Cube {
  import opened Vectors

  /** A textured corner record: position, normal, texture coordinates, texture selector. */
  datatype TexVertex = TexVertex(pos: V3, normal: V3, uv: V2, tex: real)

  /** A coloured corner record: position and an RGBA colour. */
  datatype ColorVertex = ColorVertex(pos: V3, color: V4)

  const FaceCount: nat := 6
  const CornersPerFace: nat := 4
  const VertsPerFace: nat := 6
  const CubeVerts: nat := FaceCount * VertsPerFace
  /** Numbers per textured vertex: 3 position + 3 normal + 2 uv + 1 selector. */
  const TexStride: nat := 9
  /** Numbers per coloured vertex: 3 position + 4 colour. */
  const ColorStride: nat := 7

  function TexFields(v: TexVertex): seq<real> {
    V3Fields(v.pos) + V3Fields(v.normal) + V2Fields(v.uv) + [v.tex]
  }

  function ColorFields(v: ColorVertex): seq<real> {
    V3Fields(v.pos) + V4Fields(v.color)
  }

  /** Every coordinate of a cube corner is +0.5 or -0.5. */
  predicate IsCubeCorner(p: V3) {
    p.x in {0.5, -0.5} && p.y in {0.5, -0.5} && p.z in {0.5, -0.5}
  }

  /** `p` lies on the cube face that the axis-aligned unit normal `n` points to: on the
      normal's axis its coordinate is half the normal's component. */
  predicate LiesOnFace(p: V3, n: V3) {
    && (n.x != 0.0 ==> p.x == 0.5 * n.x)
    && (n.y != 0.0 ==> p.y == 0.5 * n.y)
    && (n.z != 0.0 ==> p.z == 0.5 * n.z)
  }

  // ---------------------------------------------------------------------------------------
  // The literal corner tables
  // ---------------------------------------------------------------------------------------

  /** The `faces` table of `generateTexturedCubeVertices`: front (+z), right (+x), left (-x),
      top (+y), bottom (-y), rear (-z). */
  function TexturedQuads(texNum: real): (faces: seq<seq<TexVertex>>)
    ensures |faces| == FaceCount
    ensures forall f :: 0 <= f < |faces| ==> |faces[f]| == CornersPerFace
    ensures forall f, i :: 0 <= f < |faces| && 0 <= i < |faces[f]| ==>
      var c := faces[f][i];
      && c.tex == texNum
      && c.normal == faces[f][0].normal
      && IsAxisUnit(c.normal)
      && IsCubeCorner(c.pos)
      && LiesOnFace(c.pos, c.normal)
  {
    [
      [ TexVertex(V3(-0.5,  0.5,  0.5), V3(0.0, 0.0,  1.0), V2(0.0, 1.0), texNum),
        TexVertex(V3(-0.5, -0.5,  0.5), V3(0.0, 0.0,  1.0), V2(0.0, 0.0), texNum),
        TexVertex(V3( 0.5,  0.5,  0.5), V3(0.0, 0.0,  1.0), V2(1.0, 1.0), texNum),
        TexVertex(V3( 0.5, -0.5,  0.5), V3(0.0, 0.0,  1.0), V2(1.0, 0.0), texNum) ],
      [ TexVertex(V3( 0.5,  0.5,  0.5), V3( 1.0, 0.0, 0.0), V2(1.0, 1.0), texNum),
        TexVertex(V3( 0.5, -0.5,  0.5), V3( 1.0, 0.0, 0.0), V2(1.0, 0.0), texNum),
        TexVertex(V3( 0.5,  0.5, -0.5), V3( 1.0, 0.0, 0.0), V2(0.0, 1.0), texNum),
        TexVertex(V3( 0.5, -0.5, -0.5), V3( 1.0, 0.0, 0.0), V2(0.0, 0.0), texNum) ],
      [ TexVertex(V3(-0.5,  0.5,  0.5), V3(-1.0, 0.0, 0.0), V2(1.0, 1.0), texNum),
        TexVertex(V3(-0.5, -0.5,  0.5), V3(-1.0, 0.0, 0.0), V2(1.0, 0.0), texNum),
        TexVertex(V3(-0.5,  0.5, -0.5), V3(-1.0, 0.0, 0.0), V2(0.0, 1.0), texNum),
        TexVertex(V3(-0.5, -0.5, -0.5), V3(-1.0, 0.0, 0.0), V2(0.0, 0.0), texNum) ],
      [ TexVertex(V3(-0.5,  0.5, -0.5), V3(0.0,  1.0, 0.0), V2(0.0, 0.0), texNum),
        TexVertex(V3(-0.5,  0.5,  0.5), V3(0.0,  1.0, 0.0), V2(0.0, 1.0), texNum),
        TexVertex(V3( 0.5,  0.5, -0.5), V3(0.0,  1.0, 0.0), V2(1.0, 0.0), texNum),
        TexVertex(V3( 0.5,  0.5,  0.5), V3(0.0,  1.0, 0.0), V2(1.0, 1.0), texNum) ],
      [ TexVertex(V3(-0.5, -0.5, -0.5), V3(0.0, -1.0, 0.0), V2(0.0, 0.0), texNum),
        TexVertex(V3(-0.5, -0.5,  0.5), V3(0.0, -1.0, 0.0), V2(0.0, 1.0), texNum),
        TexVertex(V3( 0.5, -0.5, -0.5), V3(0.0, -1.0, 0.0), V2(1.0, 0.0), texNum),
        TexVertex(V3( 0.5, -0.5,  0.5), V3(0.0, -1.0, 0.0), V2(1.0, 1.0), texNum) ],
      [ TexVertex(V3(-0.5,  0.5, -0.5), V3(0.0, 0.0, -1.0), V2(0.0, 1.0), texNum),
        TexVertex(V3(-0.5, -0.5, -0.5), V3(0.0, 0.0, -1.0), V2(0.0, 0.0), texNum),
        TexVertex(V3( 0.5,  0.5, -0.5), V3(0.0, 0.0, -1.0), V2(1.0, 1.0), texNum),
        TexVertex(V3( 0.5, -0.5, -0.5), V3(0.0, 0.0, -1.0), V2(1.0, 0.0), texNum) ]
    ]
  }

  /** The `faces` table of `generateColoredCubeVertices`, in the same face order. */
  function ColoredQuads(color: V4): (faces: seq<seq<ColorVertex>>)
    ensures |faces| == FaceCount
    ensures forall f :: 0 <= f < |faces| ==> |faces[f]| == CornersPerFace
    ensures forall f, i :: 0 <= f < |faces| && 0 <= i < |faces[f]| ==>
      faces[f][i].color == color && IsCubeCorner(faces[f][i].pos)
  {
    [
      [ ColorVertex(V3(-0.5,  0.5,  0.5), color),
        ColorVertex(V3(-0.5, -0.5,  0.5), color),
        ColorVertex(V3( 0.5,  0.5,  0.5), color),
        ColorVertex(V3( 0.5, -0.5,  0.5), color) ],
      [ ColorVertex(V3( 0.5,  0.5,  0.5), color),
        ColorVertex(V3( 0.5, -0.5,  0.5), color),
        ColorVertex(V3( 0.5,  0.5, -0.5), color),
        ColorVertex(V3( 0.5, -0.5, -0.5), color) ],
      [ ColorVertex(V3(-0.5,  0.5,  0.5), color),
        ColorVertex(V3(-0.5, -0.5,  0.5), color),
        ColorVertex(V3(-0.5,  0.5, -0.5), color),
        ColorVertex(V3(-0.5, -0.5, -0.5), color) ],
      [ ColorVertex(V3(-0.5,  0.5, -0.5), color),
        ColorVertex(V3(-0.5,  0.5,  0.5), color),
        ColorVertex(V3( 0.5,  0.5, -0.5), color),
        ColorVertex(V3( 0.5,  0.5,  0.5), color) ],
      [ ColorVertex(V3(-0.5, -0.5, -0.5), color),
        ColorVertex(V3(-0.5, -0.5,  0.5), color),
        ColorVertex(V3( 0.5, -0.5, -0.5), color),
        ColorVertex(V3( 0.5, -0.5,  0.5), color) ],
      [ ColorVertex(V3(-0.5,  0.5, -0.5), color),
        ColorVertex(V3(-0.5, -0.5, -0.5), color),
        ColorVertex(V3( 0.5,  0.5, -0.5), color),
        ColorVertex(V3( 0.5, -0.5, -0.5), color) ]
    ]
  }

  // ---------------------------------------------------------------------------------------
  // Quad to triangle list, in place
  // ---------------------------------------------------------------------------------------

  /** `face.push(face[2], face[1])`: a quad c0,c1,c2,c3 becomes the triangles (c0,c1,c2) and
      (c3,c2,c1), which share the diagonal c1-c2. */
  function Triangulate<T>(face: seq<T>): (r: seq<T>)
    requires |face| >= 3
    ensures |face| == 4 ==> r == [face[0], face[1], face[2], face[3], face[2], face[1]]
  {
    face + [face[2], face[1]]
  }

  function TriangulateAll<T>(faces: seq<seq<T>>): seq<seq<T>>
    requires forall f :: 0 <= f < |faces| ==> |faces[f]| >= 3
  {
    seq(|faces|, f requires 0 <= f < |faces| => Triangulate(faces[f]))
  }

  /** The `for (const face of faces)` loop: every face array grows by its third and second
      element, in place; the outer array keeps its length. */
  method ExpandFaces<T>(faces: array<seq<T>>)
    requires forall f :: 0 <= f < faces.Length ==> |faces[f]| >= 3
    modifies faces
    ensures forall f :: 0 <= f < faces.Length ==> |old(faces[f])| >= 3
    ensures faces[..] == TriangulateAll(old(faces[..]))
  {
    for f := 0 to faces.Length
      invariant forall g :: 0 <= g < f ==> faces[g] == Triangulate(old(faces[g]))
      invariant forall g :: f <= g < faces.Length ==> faces[g] == old(faces[g])
    {
      var face := faces[f];
      faces[f] := face + [face[2], face[1]];
    }
  }

  // ---------------------------------------------------------------------------------------
  // faces.flat(3)
  // ---------------------------------------------------------------------------------------

  /** The outer level of `flat`: the faces' vertex lists, one after the other. */
  function Join<T>(faces: seq<seq<T>>): seq<T> {
    if faces == [] then [] else faces[0] + Join(faces[1..])
  }

  /** The inner levels of `flat`: each vertex record written out as its fields. */
  function Encode<T>(vs: seq<T>, fields: T -> seq<real>): seq<real> {
    if vs == [] then [] else fields(vs[0]) + Encode(vs[1..], fields)
  }

  /** Face `f` (six consecutive vertices) of a triangle list. */
  function Face<T>(tris: seq<T>, f: nat): seq<T>
    requires VertsPerFace * f + VertsPerFace <= |tris|
  {
    tris[VertsPerFace * f .. VertsPerFace * f + VertsPerFace]
  }

  /** Record `k` (the `w` numbers of vertex `k`) of an interleaved list. */
  function Record(data: seq<real>, w: nat, k: nat): seq<real>
    requires w * k + w <= |data|
  {
    data[w * k .. w * k + w]
  }

  lemma MulSucc(a: nat, b: nat)
    ensures a * (b + 1) == a + a * b
  {
  }

  /** Joining faces of `n` vertices each puts face `f` at positions n*f .. n*f+n. */
  lemma {:induction false} JoinFace<T>(faces: seq<seq<T>>, n: nat, f: nat)
    requires forall g :: 0 <= g < |faces| ==> |faces[g]| == n
    requires f < |faces|
    ensures |Join(faces)| == n * |faces|
    ensures n * f + n <= |Join(faces)|
    ensures Join(faces)[n * f .. n * f + n] == faces[f]
  {
    var rest := faces[1..];
    var tail := Join(rest);
    assert Join(faces) == faces[0] + tail;
    JoinLength(rest, n);
    MulSucc(n, |rest|);
    if f == 0 {
      assert (faces[0] + tail)[0 .. n] == faces[0];
    } else {
      JoinFace(rest, n, f - 1);
      var s := n * (f - 1);
      MulSucc(n, f - 1);
      assert (faces[0] + tail)[n + s .. n + s + n] == tail[s .. s + n];
    }
  }

  lemma {:induction false} JoinLength<T>(faces: seq<seq<T>>, n: nat)
    requires forall g :: 0 <= g < |faces| ==> |faces[g]| == n
    ensures |Join(faces)| == n * |faces|
  {
    if faces != [] {
      JoinLength(faces[1..], n);
      MulSucc(n, |faces| - 1);
    }
  }

  /** Encoding records of `w` fields each puts vertex `k` at positions w*k .. w*k+w. */
  lemma {:induction false} EncodeRecord<T>(vs: seq<T>, fields: T -> seq<real>, w: nat, k: nat)
    requires forall v :: |fields(v)| == w
    requires k < |vs|
    ensures |Encode(vs, fields)| == w * |vs|
    ensures w * k + w <= |Encode(vs, fields)|
    ensures Record(Encode(vs, fields), w, k) == fields(vs[k])
  {
    var rest := vs[1..];
    var tail := Encode(rest, fields);
    assert Encode(vs, fields) == fields(vs[0]) + tail;
    EncodeLength(rest, fields, w);
    MulSucc(w, |rest|);
    if k == 0 {
      assert (fields(vs[0]) + tail)[0 .. w] == fields(vs[0]);
    } else {
      EncodeRecord(rest, fields, w, k - 1);
      var s := w * (k - 1);
      MulSucc(w, k - 1);
      assert (fields(vs[0]) + tail)[w + s .. w + s + w] == tail[s .. s + w];
    }
  }

  lemma {:induction false} EncodeLength<T>(vs: seq<T>, fields: T -> seq<real>, w: nat)
    requires forall v :: |fields(v)| == w
    ensures |Encode(vs, fields)| == w * |vs|
  {
    if vs != [] {
      EncodeLength(vs[1..], fields, w);
      MulSucc(w, |vs| - 1);
    }
  }

  // ---------------------------------------------------------------------------------------
  // The two generators
  // ---------------------------------------------------------------------------------------

  /** The 36 textured triangle-list vertices, before flattening. */
  function TexturedTriangles(texNum: real): seq<TexVertex> {
    Join(TriangulateAll(TexturedQuads(texNum)))
  }

  /** What `generateTexturedCubeVertices(texNum)` returns. */
  function TexturedCube(texNum: real): seq<real> {
    Encode(TexturedTriangles(texNum), TexFields)
  }

  /** The 36 coloured triangle-list vertices, before flattening. */
  function ColoredTriangles(color: V4): seq<ColorVertex> {
    Join(TriangulateAll(ColoredQuads(color)))
  }

  /** What `generateColoredCubeVertices(color)` returns. */
  function ColoredCube(color: V4): seq<real> {
    Encode(ColoredTriangles(color), ColorFields)
  }

  /** The textured generator: literal table, in-place expansion, flattening. */
  method GenerateTexturedCubeVertices(texNum: real) returns (data: seq<real>)
    ensures data == TexturedCube(texNum)
    ensures |data| == CubeVerts * TexStride
    ensures forall k :: 0 <= k < CubeVerts ==> Record(data, TexStride, k)[8] == texNum
  {
    var quads := TexturedQuads(texNum);
    var faces := new seq<TexVertex>[|quads|](f requires 0 <= f < |quads| => quads[f]);
    assert faces[..] == quads;
    ExpandFaces(faces);
    data := Encode(Join(faces[..]), TexFields);
    TexturedCubeLayout(texNum);
  }

  /** The coloured generator: literal table, in-place expansion, flattening. */
  method GenerateColoredCubeVertices(color: V4) returns (data: seq<real>)
    ensures data == ColoredCube(color)
    ensures |data| == CubeVerts * ColorStride
    ensures forall k :: 0 <= k < CubeVerts ==> Record(data, ColorStride, k)[3..] == V4Fields(color)
  {
    var quads := ColoredQuads(color);
    var faces := new seq<ColorVertex>[|quads|](f requires 0 <= f < |quads| => quads[f]);
    assert faces[..] == quads;
    ExpandFaces(faces);
    data := Encode(Join(faces[..]), ColorFields);
    ColoredCubeLayout(color);
  }

  // ---------------------------------------------------------------------------------------
  // Properties of the generated data
  // ---------------------------------------------------------------------------------------

  /** Each face of the textured triangle list is its quad in the order c0,c1,c2,c3,c2,c1. */
  lemma TexturedFaces(texNum: real)
    ensures |TexturedTriangles(texNum)| == CubeVerts
    ensures forall f :: 0 <= f < FaceCount ==>
      var q := TexturedQuads(texNum)[f];
      Face(TexturedTriangles(texNum), f) == [q[0], q[1], q[2], q[3], q[2], q[1]]
  {
    var quads := TriangulateAll(TexturedQuads(texNum));
    forall f | 0 <= f < FaceCount
      ensures |Join(quads)| == CubeVerts
      ensures Face(Join(quads), f) == quads[f]
    {
      JoinFace(quads, VertsPerFace, f);
    }
  }

  /** Each face of the coloured triangle list is its quad in the order c0,c1,c2,c3,c2,c1. */
  lemma ColoredFaces(color: V4)
    ensures |ColoredTriangles(color)| == CubeVerts
    ensures forall f :: 0 <= f < FaceCount ==>
      var q := ColoredQuads(color)[f];
      Face(ColoredTriangles(color), f) == [q[0], q[1], q[2], q[3], q[2], q[1]]
  {
    var quads := TriangulateAll(ColoredQuads(color));
    forall f | 0 <= f < FaceCount
      ensures |Join(quads)| == CubeVerts
      ensures Face(Join(quads), f) == quads[f]
    {
      JoinFace(quads, VertsPerFace, f);
    }
  }

  /** Within each face of the textured cube the sixth vertex repeats the second and the fifth
      repeats the third, all six carry one axis-aligned unit normal, and every position is a
      cube corner lying on the face that normal points to. */
  lemma TexturedFaceGeometry(texNum: real, f: nat)
    requires f < FaceCount
    ensures |TexturedTriangles(texNum)| == CubeVerts
    ensures var fv := Face(TexturedTriangles(texNum), f);
      && fv[4] == fv[2] && fv[5] == fv[1]
      && IsAxisUnit(fv[0].normal)
      && forall i :: 0 <= i < VertsPerFace ==>
           && fv[i].normal == fv[0].normal
           && fv[i].tex == texNum
           && IsCubeCorner(fv[i].pos)
           && LiesOnFace(fv[i].pos, fv[i].normal)
  {
    TexturedFaces(texNum);
    var q := TexturedQuads(texNum)[f];
    var fv := Face(TexturedTriangles(texNum), f);
    assert fv == [q[0], q[1], q[2], q[3], q[2], q[1]];
    forall i | 0 <= i < VertsPerFace
      ensures fv[i] in q
    {
    }
  }

  /** The six faces have six different normals, one per axis direction. */
  lemma TexturedNormalsCoverAllDirections(texNum: real)
    ensures |TexturedTriangles(texNum)| == CubeVerts
    ensures (set f | 0 <= f < FaceCount :: Face(TexturedTriangles(texNum), f)[0].normal) ==
      { V3(1.0, 0.0, 0.0), V3(-1.0, 0.0, 0.0), V3(0.0, 1.0, 0.0),
        V3(0.0, -1.0, 0.0), V3(0.0, 0.0, 1.0), V3(0.0, 0.0, -1.0) }
  {
    TexturedFaces(texNum);
    var tris := TexturedTriangles(texNum);
    var quads := TexturedQuads(texNum);
    assert forall f :: 0 <= f < FaceCount ==> Face(tris, f)[0] == quads[f][0];
    var normals := set f | 0 <= f < FaceCount :: Face(tris, f)[0].normal;
    assert Face(tris, 0)[0].normal == V3(0.0, 0.0, 1.0);
    assert Face(tris, 1)[0].normal == V3(1.0, 0.0, 0.0);
    assert Face(tris, 2)[0].normal == V3(-1.0, 0.0, 0.0);
    assert Face(tris, 3)[0].normal == V3(0.0, 1.0, 0.0);
    assert Face(tris, 4)[0].normal == V3(0.0, -1.0, 0.0);
    assert Face(tris, 5)[0].normal == V3(0.0, 0.0, -1.0);
  }

  /** Vertex `k` of the triangle list sits at position `k % 6` of face `k / 6`. */
  lemma {:induction false} VertexInFace<T>(tris: seq<T>, k: nat)
    requires |tris| == CubeVerts
    requires k < CubeVerts
    ensures k / VertsPerFace < FaceCount
    ensures tris[k] == Face(tris, k / VertsPerFace)[k % VertsPerFace]
  {
  }

  /** The textured output is 36 records of 9 numbers; record `k` is position, normal, uv and
      selector of triangle-list vertex `k`, and its selector is `texNum`. */
  lemma TexturedCubeLayout(texNum: real)
    ensures |TexturedTriangles(texNum)| == CubeVerts
    ensures |TexturedCube(texNum)| == CubeVerts * TexStride
    ensures forall k :: 0 <= k < CubeVerts ==>
      && Record(TexturedCube(texNum), TexStride, k) == TexFields(TexturedTriangles(texNum)[k])
      && Record(TexturedCube(texNum), TexStride, k)[8] == texNum
  {
    var tris := TexturedTriangles(texNum);
    TexturedFaces(texNum);
    EncodeLength(tris, TexFields, TexStride);
    forall k | 0 <= k < CubeVerts
      ensures Record(TexturedCube(texNum), TexStride, k) == TexFields(tris[k])
      ensures tris[k].tex == texNum
    {
      EncodeRecord(tris, TexFields, TexStride, k);
      VertexInFace(tris, k);
      TexturedFaceGeometry(texNum, k / VertsPerFace);
    }
  }

  /** The coloured output is 36 records of 7 numbers; record `k` is the position of
      triangle-list vertex `k` followed by `color`. */
  lemma ColoredCubeLayout(color: V4)
    ensures |ColoredTriangles(color)| == CubeVerts
    ensures |ColoredCube(color)| == CubeVerts * ColorStride
    ensures forall k :: 0 <= k < CubeVerts ==>
      && Record(ColoredCube(color), ColorStride, k) == ColorFields(ColoredTriangles(color)[k])
      && Record(ColoredCube(color), ColorStride, k)[3..] == V4Fields(color)
  {
    var tris := ColoredTriangles(color);
    ColoredFaces(color);
    EncodeLength(tris, ColorFields, ColorStride);
    forall k | 0 <= k < CubeVerts
      ensures Record(ColoredCube(color), ColorStride, k) == ColorFields(tris[k])
      ensures tris[k].color == color
    {
      EncodeRecord(tris, ColorFields, ColorStride, k);
      VertexInFace(tris, k);
      var f := k / VertsPerFace;
      var q := ColoredQuads(color)[f];
      assert Face(tris, f) == [q[0], q[1], q[2], q[3], q[2], q[1]];
      assert tris[k] in q;
    }
  }

  /** Both generators emit the same 36 positions in the same order: the first three numbers of
      every record agree. */
  lemma SamePositions(texNum: real, color: V4)
    ensures |TexturedCube(texNum)| == CubeVerts * TexStride
    ensures |ColoredCube(color)| == CubeVerts * ColorStride
    ensures forall k :: 0 <= k < CubeVerts ==>
      Record(TexturedCube(texNum), TexStride, k)[..3] == Record(ColoredCube(color), ColorStride, k)[..3]
  {
    TexturedCubeLayout(texNum);
    ColoredCubeLayout(color);
    TexturedFaces(texNum);
    ColoredFaces(color);
    var tt := TexturedTriangles(texNum);
    var ct := ColoredTriangles(color);
    forall k | 0 <= k < CubeVerts
      ensures tt[k].pos == ct[k].pos
    {
      VertexInFace(tt, k);
      VertexInFace(ct, k);
      var f := k / VertsPerFace;
      var tq := TexturedQuads(texNum)[f];
      var cq := ColoredQuads(color)[f];
      assert Face(tt, f) == [tq[0], tq[1], tq[2], tq[3], tq[2], tq[1]];
      assert Face(ct, f) == [cq[0], cq[1], cq[2], cq[3], cq[2], cq[1]];
      assert forall i :: 0 <= i < CornersPerFace ==> tq[i].pos == cq[i].pos;
    }
  }
}
