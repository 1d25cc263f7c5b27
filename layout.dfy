/** The vertex-attribute layouts and vertex count that `src/main.js` hands to each `Mesh`
    together with the output of a cube generator, and the proof that the two agree: the
    declared fields tile each vertex record exactly and read back the generator's fields. */
module Layout {
  import opened Vectors
  import opened Cube

  /** `Float32Array.BYTES_PER_ELEMENT`: strides and offsets are declared in bytes. */
  const F32: nat := 4

  /** The only component type the descriptors use, `gl.FLOAT`. */
  datatype ComponentType = Float

  /** One `{ size, type, stride, offset }` descriptor; `stride` and `offset` are bytes. */
  datatype VertexAttribute = VertexAttribute(size: nat, componentType: ComponentType, stride: nat, offset: nat)

  /** The arguments of a `new Mesh(...)` call that describe its vertex buffer. */
  datatype MeshArgs = MeshArgs(vertexData: seq<real>, vertexCount: nat, attributes: seq<VertexAttribute>)

  const NumTriangles: nat := 12
  const NumVerts: nat := NumTriangles * 3

  /** Position, normal, texture coordinates, texture index over a 9-float stride. */
  function TexturedLayout(): seq<VertexAttribute> {
    [ VertexAttribute(3, Float, 9 * F32, 0 * F32),
      VertexAttribute(3, Float, 9 * F32, 3 * F32),
      VertexAttribute(2, Float, 9 * F32, 6 * F32),
      VertexAttribute(1, Float, 9 * F32, 8 * F32) ]
  }

  /** Position and colour over a 7-float stride. */
  function ColoredLayout(): seq<VertexAttribute> {
    [ VertexAttribute(3, Float, 7 * F32, 0 * F32),
      VertexAttribute(4, Float, 7 * F32, 3 * F32) ]
  }

  /** Sum of the component counts of `layout`. */
  function SizeSum(layout: seq<VertexAttribute>): nat {
    if layout == [] then 0 else SizeSum(layout[..|layout| - 1]) + layout[|layout| - 1].size
  }

  /** The layout tiles a `w`-float vertex record: every field is non-empty and shares the
      stride, each starts where the previous one ends, and together they fill the stride. */
  predicate Tiles(layout: seq<VertexAttribute>, w: nat) {
    && (forall i :: 0 <= i < |layout| ==> layout[i].stride == w * F32 && layout[i].size > 0)
    && (forall i :: 0 <= i < |layout| ==> layout[i].offset == F32 * SizeSum(layout[..i]))
    && SizeSum(layout) == w
  }

  /** Float slot `j` of a record falls inside attribute `a`. */
  predicate Covers(a: VertexAttribute, j: nat) {
    a.offset <= F32 * j < a.offset + F32 * a.size
  }

  /** The floats WebGL reads for attribute `a` of vertex `k`. */
  function Read(data: seq<real>, a: VertexAttribute, k: nat): seq<real>
    requires (k * a.stride + a.offset) / F32 + a.size <= |data|
  {
    data[(k * a.stride + a.offset) / F32 .. (k * a.stride + a.offset) / F32 + a.size]
  }

  /** A mesh's buffer holds exactly `vertexCount` records of one common stride, and every
      attribute of every drawn vertex reads inside the buffer. */
  predicate Consistent(m: MeshArgs) {
    && |m.attributes| > 0
    && m.attributes[0].stride % F32 == 0
    && |m.vertexData| == m.vertexCount * (m.attributes[0].stride / F32)
    && forall i :: 0 <= i < |m.attributes| ==>
         && m.attributes[i].stride == m.attributes[0].stride
         && m.attributes[i].offset % F32 == 0
         && m.attributes[i].offset + F32 * m.attributes[i].size <= m.attributes[i].stride
  }

  lemma {:induction false} SizeSumPrefix(layout: seq<VertexAttribute>, i: nat, j: nat)
    requires i <= j <= |layout|
    ensures SizeSum(layout[..i]) <= SizeSum(layout[..j])
    decreases j - i
  {
    if i < j {
      SizeSumPrefix(layout, i, j - 1);
      assert layout[..j][..j - 1] == layout[..j - 1];
    }
  }

  /** In a tiling layout attribute `i` ends where the sizes up to and including it end. */
  lemma AttributeEnd(layout: seq<VertexAttribute>, w: nat, i: nat)
    requires Tiles(layout, w)
    requires i < |layout|
    ensures layout[i].offset + F32 * layout[i].size == F32 * SizeSum(layout[..i + 1])
  {
    assert layout[..i + 1][..i] == layout[..i];
  }

  /** In a tiling layout an earlier attribute ends at or before a later one starts. */
  lemma NoOverlap(layout: seq<VertexAttribute>, w: nat, i: nat, i': nat)
    requires Tiles(layout, w)
    requires i < i' < |layout|
    ensures layout[i].offset + F32 * layout[i].size <= layout[i'].offset
  {
    AttributeEnd(layout, w, i);
    SizeSumPrefix(layout, i + 1, i');
  }

  /** In a tiling layout every float slot of the record belongs to exactly one attribute:
      the fields are contiguous and never overlap. */
  lemma {:induction false} TilesPartition(layout: seq<VertexAttribute>, w: nat, j: nat)
    requires Tiles(layout, w)
    requires j < w
    ensures exists i :: 0 <= i < |layout| && Covers(layout[i], j)
    ensures forall i, i' ::
      (0 <= i < |layout| && 0 <= i' < |layout| && Covers(layout[i], j) && Covers(layout[i'], j)) ==> i == i'
  {
    forall i, i' | 0 <= i < |layout| && 0 <= i' < |layout| && Covers(layout[i], j) && Covers(layout[i'], j)
      ensures i == i'
    {
      if i < i' {
        NoOverlap(layout, w, i, i');
      } else if i' < i {
        NoOverlap(layout, w, i', i);
      }
    }
    // The last attribute whose start is at or below slot j covers it.
    var i := 0;
    while i + 1 < |layout| && layout[i + 1].offset <= F32 * j
      invariant 0 <= i < |layout|
      invariant layout[i].offset <= F32 * j
    {
      i := i + 1;
    }
    AttributeEnd(layout, w, i);
    if i + 1 < |layout| {
      assert layout[i + 1].offset == F32 * SizeSum(layout[..i + 1]);
    } else {
      assert layout[..i + 1] == layout;
    }
    assert Covers(layout[i], j);
  }

  /** `numVerts = numTriangles * 3` is the vertex count of both generators. */
  lemma NumVertsMatchesGenerators(texNum: real, color: V4)
    ensures NumVerts == CubeVerts
    ensures |TexturedCube(texNum)| == NumVerts * TexStride
    ensures |ColoredCube(color)| == NumVerts * ColorStride
  {
    TexturedCubeLayout(texNum);
    ColoredCubeLayout(color);
  }

  /** An attribute that shares a `w`-float stride reads a slice of the vertex's record. */
  lemma ReadInRecord(data: seq<real>, a: VertexAttribute, w: nat, k: nat)
    requires a.stride == w * F32 && a.offset % F32 == 0
    requires a.offset + F32 * a.size <= a.stride
    requires w * k + w <= |data|
    ensures (k * a.stride + a.offset) / F32 + a.size <= |data|
    ensures Read(data, a, k) == Record(data, w, k)[a.offset / F32 .. a.offset / F32 + a.size]
  {
    var o := a.offset / F32;
    assert k * a.stride + a.offset == F32 * (w * k + o);
    assert (k * a.stride + a.offset) / F32 == w * k + o;
    assert o + a.size <= w;
    assert Record(data, w, k)[o .. o + a.size] == data[w * k + o .. w * k + o + a.size];
  }

  /** Sizes 3, 3, 2, 1 at float offsets 0, 3, 6, 8 tile a 9-float stride. */
  lemma TexturedLayoutTiles()
    ensures Tiles(TexturedLayout(), TexStride)
  {
    var l := TexturedLayout();
    assert l[..0] == [] && l[..1] == [l[0]] && l[..2] == [l[0], l[1]];
    assert l[..3] == [l[0], l[1], l[2]] && l[..4] == l;
    assert SizeSum(l[..1]) == 3;
    assert SizeSum(l[..2]) == 6;
    assert l[..3][..2] == l[..2];
    assert SizeSum(l[..3]) == 8;
    assert SizeSum(l) == 9;
  }

  /** Sizes 3, 4 at float offsets 0, 3 tile a 7-float stride. */
  lemma ColoredLayoutTiles()
    ensures Tiles(ColoredLayout(), ColorStride)
  {
    var l := ColoredLayout();
    assert l[..0] == [] && l[..1] == [l[0]] && l[..2] == l;
    assert SizeSum(l[..1]) == 3;
    assert SizeSum(l) == 7;
  }

  /** The textured layout tiles the 9-float record, and its four attributes read back the
      generator's position, normal, texture coordinates and texture selector of every vertex. */
  lemma TexturedLayoutMatches(texNum: real, k: nat)
    requires k < NumVerts
    ensures Tiles(TexturedLayout(), TexStride)
    ensures |TexturedTriangles(texNum)| == NumVerts
    ensures var data, v, l := TexturedCube(texNum), TexturedTriangles(texNum)[k], TexturedLayout();
      && (k * l[3].stride + l[3].offset) / F32 + l[3].size <= |data|
      && Read(data, l[0], k) == V3Fields(v.pos)
      && Read(data, l[1], k) == V3Fields(v.normal)
      && Read(data, l[2], k) == V2Fields(v.uv)
      && Read(data, l[3], k) == [texNum]
  {
    var l := TexturedLayout();
    TexturedLayoutTiles();
    TexturedCubeLayout(texNum);
    var data := TexturedCube(texNum);
    var rec := Record(data, TexStride, k);
    assert rec == TexFields(TexturedTriangles(texNum)[k]);
    ReadInRecord(data, l[0], TexStride, k);
    ReadInRecord(data, l[1], TexStride, k);
    ReadInRecord(data, l[2], TexStride, k);
    ReadInRecord(data, l[3], TexStride, k);
  }

  /** The coloured layout tiles the 7-float record, and its two attributes read back the
      generator's position and the mesh colour of every vertex. */
  lemma ColoredLayoutMatches(color: V4, k: nat)
    requires k < NumVerts
    ensures Tiles(ColoredLayout(), ColorStride)
    ensures |ColoredTriangles(color)| == NumVerts
    ensures var data, v, l := ColoredCube(color), ColoredTriangles(color)[k], ColoredLayout();
      && (k * l[1].stride + l[1].offset) / F32 + l[1].size <= |data|
      && Read(data, l[0], k) == V3Fields(v.pos)
      && Read(data, l[1], k) == V4Fields(color)
  {
    var l := ColoredLayout();
    ColoredLayoutTiles();
    ColoredCubeLayout(color);
    var data := ColoredCube(color);
    var rec := Record(data, ColorStride, k);
    assert rec == ColorFields(ColoredTriangles(color)[k]);
    ReadInRecord(data, l[0], ColorStride, k);
    ReadInRecord(data, l[1], ColorStride, k);
  }

  /** Every textured mesh of the scene (crate and brick, whatever their selector) gets a buffer
      of exactly `numVerts` records of the layout's stride, so a draw over `numVerts` vertices
      reads the whole buffer and nothing beyond it. */
  lemma TexturedMeshConsistent(texNum: real)
    ensures Consistent(MeshArgs(TexturedCube(texNum), NumVerts, TexturedLayout()))
  {
    TexturedCubeLayout(texNum);
  }

  /** The same for every coloured light mesh, whatever its colour. */
  lemma ColoredMeshConsistent(color: V4)
    ensures Consistent(MeshArgs(ColoredCube(color), NumVerts, ColoredLayout()))
  {
    ColoredCubeLayout(color);
  }

}
