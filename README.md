# Cube meshes, scene objects and pick helpers of a WebGL lighting demo

This project models, in Dafny, the small amount of data logic in a WebGL scene renderer. The
renderer draws a textured crate, a brick floor and three coloured light cubes. The model covers
four things:

- **Cube vertex serialisers** (`Cube`). `generateTexturedCubeVertices(texNum)` and
  `generateColoredCubeVertices(color)` each write six quads of four corner records. They turn
  every quad in place into six triangle-list vertices, in corner order 0,1,2,3,2,1. Then they
  flatten everything into one interleaved list of numbers: 9 per textured vertex (position,
  normal, uv, texture selector) and 7 per coloured vertex (position, RGBA).
- **Vertex layouts** (`Layout`). These are the `{ size, type, stride, offset }` descriptors and
  the vertex count `numVerts = numTriangles * 3` that the scene passes to every mesh. The model
  proves that the descriptors tile each vertex record exactly. It also proves that they read
  back the fields the generators wrote.
- **Pick helpers** (`Pick`). These are two pure steps of the colour-picking click handler: the
  mouse-Y flip within the canvas's bounding box into bottom-up row order, and the nested if/else
  that names a picked RGB byte triple or logs it raw.
- **Scene objects** (`Scene`). `SceneObject` is a class whose pose and colour fields are mutable
  `vec3` objects. Its constructor defaults each option on its own. It then scales the ambient
  vector by 0.25 in place, which also changes the vector the caller passed in. A missing diffuse
  becomes 1.2 times the scaled ambient. `getModelMatrix` is modelled symbolically, as the
  product `T·((Rz·Ry)·Rx)·S` of named transforms. The model proves its factor order under every
  associative multiplication.

Numbers are exact `real`s, so 0.25 × 1.2 is exactly 0.3. The `mv-redux` vector library is
modelled only as far as it is used here. Value vectors inside vertex records are the datatypes
`V2`/`V3`/`V4`. The mutable vectors held by a scene object are the class `Vec3`. The model
assumes that `flat(3)` flattens these vectors into their components, in order.

## Model

| member | source | states |
|---|---|---|
| `Cube.TexturedQuads` | src/shape.js:73-116 | six quads of four corners. Every corner carries `texNum` and the face's single axis-aligned unit normal. Its position is a cube corner (each coordinate ±0.5) lying on the face that normal points to |
| `Cube.ColoredQuads` | src/shape.js:133-176 | six quads of four corners. Every corner carries `color` and a cube-corner position |
| `Cube.Triangulate` | src/shape.js:117-121 | `face.push(face[2], face[1])` turns a quad c0..c3 into exactly c0,c1,c2,c3,c2,c1 |
| `Cube.ExpandFaces` | src/shape.js:120-122 | the in-place loop replaces every face of the array by its triangulation. The array keeps its length, and the state after the call is `TriangulateAll` of the old one |
| `Cube.JoinFace` | src/shape.js:125 | flattening faces of `n` vertices each gives length `n·faces`, with face `f` at positions `n·f .. n·f+n` |
| `Cube.EncodeRecord` | src/shape.js:125 | flattening records of `w` numbers each gives length `w·count`, with record `k` at positions `w·k .. w·k+w` |
| `Cube.GenerateTexturedCubeVertices` | src/shape.js:72-126 | returns the textured cube data: 36 × 9 = 324 numbers, with the selector (field 8) of every vertex equal to `texNum` |
| `Cube.GenerateColoredCubeVertices` | src/shape.js:132-187 | returns the coloured cube data: 36 × 7 = 252 numbers, with fields 3..6 of every vertex equal to `color` |
| `Cube.TexturedFaces` | src/shape.js:117-122 | the textured triangle list has 36 vertices, and face `f` (vertices 6f..6f+5) is quad `f` in the order c0,c1,c2,c3,c2,c1 |
| `Cube.ColoredFaces` | src/shape.js:178-183 | the same per-face structure for the coloured triangle list |
| `Cube.TexturedFaceGeometry` | src/shape.js:73-122 | within each textured face, vertex 4 equals vertex 2 and vertex 5 equals vertex 1. All six vertices carry one axis-aligned unit normal and the selector `texNum`. Each position is a cube corner on the face that normal points to |
| `Cube.TexturedNormalsCoverAllDirections` | src/shape.js:73-116 | the six faces' normals are exactly the six axis directions ±x, ±y, ±z |
| `Cube.TexturedCubeLayout` | src/shape.js:72-125 | the textured output is 324 numbers. Record `k` is the position, normal, uv and selector of triangle-list vertex `k`, and its field 8 is `texNum` |
| `Cube.ColoredCubeLayout` | src/shape.js:132-186 | the coloured output is 252 numbers. Record `k` is the position of vertex `k` followed by `color` |
| `Cube.SamePositions` | src/shape.js:73-176 | both generators emit the same 36 positions in the same order: the first three numbers of every record agree |
| `Layout.TexturedLayoutTiles` | src/main.js:257-261 | sizes 3,3,2,1 at float offsets 0,3,6,8 tile a 9-float stride: contiguous, non-empty, one stride, sizes summing to 9 |
| `Layout.ColoredLayoutTiles` | src/main.js:271-274 | sizes 3,4 at float offsets 0,3 tile a 7-float stride |
| `Layout.AttributeEnd` | src/main.js:257-261 | in a tiling layout each attribute ends where the prefix sum of sizes up to it ends |
| `Layout.NoOverlap` | src/main.js:257-261 | in a tiling layout an earlier attribute ends at or before a later one starts |
| `Layout.TilesPartition` | src/main.js:257-261 | in a tiling layout every float slot of a record belongs to exactly one attribute (existence and uniqueness) |
| `Layout.NumVertsMatchesGenerators` | src/main.js:255-256 | `numVerts = 12*3 = 36` is the vertex count of both generators' output |
| `Layout.ReadInRecord` | src/main.js:257-283 | an attribute sharing a `w`-float stride reads, for vertex `k`, the slice of record `k` at its offset |
| `Layout.TexturedLayoutMatches` | src/main.js:257-269 | the four textured attributes read back, for every vertex, the generator's position, normal, uv and `[texNum]` |
| `Layout.ColoredLayoutMatches` | src/main.js:271-283 | the two coloured attributes read back, for every vertex, the generator's position and the mesh colour |
| `Layout.TexturedMeshConsistent` | src/main.js:257-269 | a textured mesh's buffer is exactly `numVerts` records of its layout's stride, and every attribute stays inside the stride |
| `Layout.ColoredMeshConsistent` | src/main.js:271-283 | the same for every coloured light mesh |
| `Pick.FlipY` | src/main.js:384-385 | `height - mouseY - 1` lies in [0,height) exactly when `mouseY` does, and flipping the result gives `mouseY` back |
| `Pick.FlipYReverses` | src/main.js:385 | the flip reverses the order of rows |
| `Pick.PickPixel` | src/main.js:381-385 | x is the offset from the box's left edge. A click is inside the box vertically exactly when the flipped y is a row of the bounding box, and y is the flip of the offset from the top |
| `Pick.ClassifyPick` | src/main.js:394-402 | for each of the seven outcomes, the condition on (r,g,b) that produces it, in both directions. Red and green full → yellow whatever blue is. Red and blue full → magenta. Green and blue full → cyan. Green alone → green. Blue alone → blue. Red alone → raw pixel. No full channel → raw pixel with x, y |
| `Pick.ClassifyPickOutcomes` | src/main.js:394-402 | every pixel gets one of the five names or one of the two raw logs |
| `Scene.Coalesce` | src/shape.js:37-48 | `option ?? vec3(...)`: the supplied vector object itself, or a fresh vector holding the default |
| `Scene.InitPose` | src/shape.js:37-39 | position, rotation and scale are each the supplied vector or a fresh default, (0,0,0), (0,0,0), (1,1,1); no two fields share a defaulted vector |
| `Scene.InitMaterial` | src/shape.js:41-48 | the ambient vector (supplied or fresh) ends at 0.25 × its value; diffuse and specular are the supplied vectors or fresh defaults, 1.2 × the scaled ambient and (1,1,1); no two fields share a defaulted vector; only the supplied ambient changes |
| `Scene.SceneObject.constructor` | src/shape.js:34-49 | see below the table |
| `Scene.SceneObject.ModelMatrix` | src/shape.js:55-65 | the model matrix's factors, left to right, are T(position), Rz, Ry, Rx, S(scale), taken from the current pose |
| `Scene.EvalIsProduct` | src/shape.js:62-64 | under any associative multiplication, a product of `mult` calls equals the product of its factors in order, whatever the bracketing |
| `Scene.ModelMatrixOrder` | src/shape.js:55-65 | for any associative matrix product the model matrix is T·(Rz·(Ry·(Rx·S))): scale first, then rotate about x, y, z, then translate |
| `Scene.ModelMatrixOfPlainPose` | src/shape.js:55-65 | with zero rotation and unit scale, the model matrix is the translation by the position, whenever those transforms are the identity |
| `Scene.DefaultMaterial` | src/shape.js:37-48 | constructing with no options gives ambient (0.25,0.25,0.25), diffuse (0.3,0.3,0.3), specular (1,1,1), position and rotation (0,0,0), scale (1,1,1) |
| `Scene.ReusedAmbient` | src/shape.js:41-45 | handing one ambient vector to two constructions scales it twice, to 1/16 of its value, and both objects share it |

What the constructor's contract (`Scene.SceneObject.constructor`) states:

- Each of position, rotation, scale, diffuse and specular is the supplied object itself. When
  it is absent, it is a fresh vector: (0,0,0), (0,0,0), (1,1,1), 1.2 × the scaled ambient, and
  (1,1,1).
- The ambient is the supplied object, or a fresh one. Either way its value becomes 0.25 × the
  supplied value, or 0.25 × (1,1,1) when none is supplied.
- Every defaulted vector is a new object of its own: it is a different object from each of the
  other five fields, whether those were supplied or defaulted. Only supplied vectors can be
  shared, when the caller passes one object for several options.
- Only the supplied ambient vector is modified.

## Left out

- `src/mesh.js`: buffer, vertex-array and texture creation are calls into WebGL. Binding
  attribute `i` to slot `i` is a loop over those calls. Texture loading is asynchronous promise
  work. `Draw` is a single `drawArrays` call. What the model keeps of a mesh is its constructor
  arguments (`Layout.MeshArgs`) and the requirement that buffer, count and layout agree.
- The numerics of `getModelMatrix`, meaning the matrix entries, trigonometry and
  floating-point arithmetic of `mv-redux`. The model keeps only which transforms are multiplied,
  and in which order. For the same reason the model does not cover "the origin maps to the
  position" or "a quarter turn about y maps +x to -z".
- `Float32Array` rounding: all numbers are exact reals. In IEEE doubles, 0.25 × 1.2 is not
  exactly 0.3.
- Pick coordinates are whole pixels. In the browser, `getBoundingClientRect` and the mouse
  position are doubles.
- `Pick.PickPixel`: the flip uses the height of the bounding box, which is in CSS pixels, while
  `readPixels` addresses drawing-buffer pixels. The model assumes one CSS pixel per
  drawing-buffer pixel, that is, a canvas shown unscaled (src/main.js:48, 385, 391). On a scaled
  canvas, or with a device pixel ratio other than 1, the picked pixel is not the one under the
  mouse.
- The per-frame animation and uniform uploads in `draw`, and the render-to-texture picking
  pass around the two pick helpers. These are time-driven floating-point updates and GPU state.
  The same goes for canvas, shader and texture setup, and for filling the `models` list.
- `Scene.SceneObject.constructor`: JavaScript's `??` also treats a supplied `null` as absent,
  and a `null` options object as all-absent. Both are modelled as `None` / `NoOptions`. Values
  of any type other than a vector are not modelled.
- `Cube.ExpandFaces`: each face is a JavaScript array that `push` grows in place. In the model
  each face is a sequence value held in a slot of the outer array, and each corner record is a
  value. This loses aliasing. After the pushes, corners 4 and 5 of a face are the same objects as
  corners 2 and 1 (src/shape.js:121), and every corner of a coloured face holds the caller's one
  `color` object (src/shape.js:136-174). Nothing can observe this sharing: no code changes a
  record or the colour before `flat(3)` copies the numbers out.
