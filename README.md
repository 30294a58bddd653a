# Procedural meshes and 4x4 transforms, in Dafny

This project models the computational core of a small WebGL viewer of solids:

- the seven mesh generators of `visual/shapes.js` (`createCone`, `createCube`,
  `createCylinder`, `createEllipsoid`, `createHyperboloid`, `createSphere`,
  `createToroid`). Each returns `{ positions, normals, indices }`, built by
  pushing onto arrays inside nested loops;
- the matrix and vector helpers of `utils/helpers.js` (`multiplyMatrices`,
  `makeTranslation`, `makePerspective`, `makeLookAt`, `makeRotationX/Y/Z`,
  `cross`, `dot`, `subtract`);
- `hexToRGB` of `main.js`;
- the 16-bit index upload of `main.js` under the slider ranges of
  `utils/controlDisplay.js`.

Modules, one per concern:

| module | file | models |
|---|---|---|
| `JsMath` | jsmath.dfy | `Math.sin/cos/tan/sqrt/PI` as an arbitrary `MathLib` value |
| `Vectors` | vectors.dfy | `subtract`, `cross`, `dot` on `Vec3` |
| `MeshCore` | mesh.dfy | the mesh object, flat buffers, triangle lists, well-formedness |
| `GridStitch` | grid.dfy | the row-major vertex loops and the two-triangles-per-cell stitch shared by five generators |
| `RoundShapes` | round.dfy | sphere, ellipsoid, hyperboloid, toroid |
| `ConeShape` | cone.dfy | cone |
| `CylinderShape` | cylinder.dfy | cylinder |
| `CubeShape` | cube.dfy | cube |
| `Transforms` | transforms.dfy | the 4x4 matrices |
| `HexColor` | color.dfy | `hexToRGB` |
| `IndexUpload` | upload.dfy | `new Uint16Array(indices)` under the slider limits |

Each generator is a `method` whose loops grow the three buffers as
sequences. Its `ensures` ties the result to a specification function, for
example `CreateSphere` returns `SphereMesh`. Lemmas then prove what the
source promises about that function: vertex and triangle counts, every index
in bounds, the exact triangle pattern of each cell and fan, and where each
vertex lies relative to its normal. `Math.sin`, `Math.cos`, `Math.tan` and
`Math.sqrt` are uninterpreted, so every structural fact holds whatever they
return. Facts that need sin² + cos² = 1 state it as a precondition
(`JsMath.Pythagorean`).

`multiplyMatrices` keeps its zero-filled 16-element array and its three nested
loops. It is proved equal to the row-major product, and that product is proved
associative, with the zero translation as a two-sided identity.
`Transforms.TransformProduct` fixes the order of composition: a point
transformed by `multiplyMatrices(a, b)` is transformed by `a` first, then by `b`.

## Model

| member | source | states |
|---|---|---|
| JsMath.TurnForms | visual/shapes.js:140-141 | the source's three angle expressions `(j * 2 * PI) / n`, `(2 * PI * j) / n` and `(j / n) * 2 * PI` agree over the reals |
| Vectors.Subtract | utils/helpers.js:51-53 | `subtract(a, b) + b == a`, and the result is the zero vector exactly when `a == b` |
| Vectors.Dot | utils/helpers.js:59-61 | `dot(a, a)` is never negative |
| Vectors.Cross | utils/helpers.js:55-57 | `cross(a, b)` is orthogonal to both `a` and `b` (both dot products are 0) |
| Vectors.DotSymmetric | utils/helpers.js:59-61 | `dot(a, b) == dot(b, a)` |
| Vectors.CrossAntiCommutative | utils/helpers.js:55-57 | `cross(a, b) == -cross(b, a)` |
| Vectors.CrossSelf | utils/helpers.js:55-57 | `cross(a, a)` is the zero vector |
| MeshCore.TriangleListAt | visual/shapes.js:224-225 | triangle i pushed by a stitch loop sits at index entries 3i, 3i+1, 3i+2 |
| MeshCore.WellFormedOf | visual/shapes.js:44 | n vertices, matching normal and position buffers, whole triangles and indices below n make a mesh the renderer can draw, with n vertices |
| GridStitch.FillRow | visual/shapes.js:206-217 | the inner vertex loop appends, for j = 0 .. n-1, the position and normal its body computes for (i, j), and nothing else |
| GridStitch.FillGrid | visual/shapes.js:201-218 | the nested vertex loops append row after row, in row-major order, to empty buffers |
| GridStitch.GridFlatAt | visual/shapes.js:201-218 | vertex `i * cols + j` of the filled buffer is exactly the point the body computed for (i, j) |
| GridStitch.FillFan | visual/shapes.js:164-173 | a cap pushes its centre and then its ring of n vertices onto the buffers it is given |
| GridStitch.StitchGrid | visual/shapes.js:220-227 | the nested index loops emit exactly the cells of rows 0 .. M-1, each row's cells 0 .. N-1 in order |
| GridStitch.GridIndicesCell | visual/shapes.js:220-226 | cell (i, j) occupies entries 6(iN+j) .. 6(iN+j)+5 and is `(first, second, first+1, second, second+1, first+1)` with `first = i(N+1)+j`, `second = first+N+1` |
| GridStitch.CellDiagonal | visual/shapes.js:222-225 | the two triangles of a cell share the diagonal (second, first+1), `second == first + N + 1`, and the second triangle uses `second + 1` |
| GridStitch.GridIndicesBound | visual/shapes.js:220-227 | every index the stitch emits is below (M+1)(N+1), the number of grid vertices |
| GridStitch.BuildGrid | visual/shapes.js:268-294 | the vertex loops followed by the index loops yield the grid mesh of the loop body |
| GridStitch.GridMeshShape | visual/shapes.js:201-227 | a grid mesh has 3(M+1)(N+1) position entries, as many normal entries, 6MN index entries, and is well formed |
| GridStitch.GridMeshVertex | visual/shapes.js:201-218 | grid vertex (i, j), for i <= M and j <= N, is stored at index `i(N+1)+j` with the position and normal the body computed |
| RoundShapes.CreateSphere | visual/shapes.js:263-297 | `createSphere` returns the grid mesh of the sphere's loop body with latBands rows and longBands columns of cells |
| RoundShapes.SphereVertexScaled | visual/shapes.js:278-283 | the loop body pushes as position the radius times the normal |
| RoundShapes.SpherePositionIsScaledNormal | visual/shapes.js:278-283 | every vertex of the sphere mesh has position == radius * normal |
| RoundShapes.SpherePole | visual/shapes.js:268-283 | when sin 0 = 0 and cos 0 = 1, every vertex of row 0 (latitude 0) is the pole: position (0, radius, 0), normal (0, 1, 0), whatever its longitude |
| RoundShapes.SphereVertexOnSurface | visual/shapes.js:278-283 | under sin² + cos² = 1, the body's normal has length 1 and its position has squared length radius² |
| RoundShapes.SphereOnSurface | visual/shapes.js:278-283 | under sin² + cos² = 1, every normal of the sphere mesh is a unit vector and every position is at distance abs(radius) from the origin |
| RoundShapes.CreateEllipsoid | visual/shapes.js:196-230 | `createEllipsoid` returns the grid mesh of the ellipsoid's loop body |
| RoundShapes.EllipsoidVertexScales | visual/shapes.js:211-216 | the body's position is its normal scaled by rx, ry, rz axis by axis |
| RoundShapes.EllipsoidPositionScalesNormal | visual/shapes.js:211-216 | every vertex of the ellipsoid mesh has position == (rx nx, ry ny, rz nz) |
| RoundShapes.EllipsoidVertexOnSurface | visual/shapes.js:211-216 | under sin² + cos² = 1 and non-zero radii, the body's position satisfies (x/rx)² + (y/ry)² + (z/rz)² = 1 |
| RoundShapes.EllipsoidOnSurface | visual/shapes.js:211-216 | the same for every position of the ellipsoid mesh |
| RoundShapes.EllipsoidWithEqualRadiiIsSphere | visual/shapes.js:196-230 | `createEllipsoid(r, r, r, m, n)` builds the very mesh of `createSphere(r, m, n)` |
| RoundShapes.CreateHyperboloid | visual/shapes.js:232-261 | `createHyperboloid` returns the grid mesh of its loop body with `stacks = segments` rows and segments columns |
| RoundShapes.HyperboloidNormalIsRadial | visual/shapes.js:244-247 | every normal is its position with y replaced by 0 |
| RoundShapes.HyperboloidRowHeights | visual/shapes.js:239 | the body puts row 0 at y = -height/2 and row `segments` at y = height/2 |
| RoundShapes.HyperboloidEnds | visual/shapes.js:238-239 | in the mesh, vertex j of the first row has y = -height/2 and vertex j of the last row has y = height/2 |
| RoundShapes.CreateToroid | visual/shapes.js:299-337 | `createToroid` returns the grid mesh of its loop body with majorSegments rows and minorSegments columns of cells |
| RoundShapes.ToroidVertexOnTube | visual/shapes.js:314-320 | the body's position is the tube centre (R cos θ, 0, R sin θ) plus the minor radius times the normal |
| RoundShapes.ToroidPositionOnTube | visual/shapes.js:314-323 | the same for every vertex of the toroid mesh |
| RoundShapes.UnitTube | visual/shapes.js:318-320 | under sin² + cos² = 1, (cos φ cos θ, sin φ, cos φ sin θ) is a unit vector |
| RoundShapes.ToroidNormalsUnit | visual/shapes.js:318-323 | under sin² + cos² = 1, every toroid normal is a unit vector |
| RoundShapes.UnitSpherical | visual/shapes.js:278-280 | under sin² + cos² = 1, (cos φ sin θ, cos θ, sin φ sin θ) is a unit vector |
| RoundShapes.RoundShapesWellFormed | visual/shapes.js:201-227 | sphere, ellipsoid and toroid have (M+1)(N+1) vertices, the hyperboloid (M+1)², with 6MN (6M²) index entries, all in bounds |
| ConeShape.CreateCone | visual/shapes.js:1-45 | `createCone` returns the cone mesh: apex and side ring, then bottom centre and bottom ring; the side fan, then the bottom fan |
| ConeShape.StitchSide | visual/shapes.js:15-18 | the side loop emits triangles (0, i, i+1 or 1 after the last) for i = 1 .. segments, in order |
| ConeShape.AddBottom | visual/shapes.js:20-42 | the bottom half appends the bottom centre and ring to the buffers and the bottom fan around `bottomCenterIndex` to the indices |
| ConeShape.StitchCap | visual/shapes.js:35-42 | the bottom loop emits (c, c+i+1, c+((i+1) mod segments)+1) for i = 0 .. segments-1 |
| ConeShape.ConeIndicesBound | visual/shapes.js:15-42 | every index of either fan is below 2·segments + 4 |
| ConeShape.ConeWellFormed | visual/shapes.js:1-45 | 2·segments + 4 vertices, 2·segments triangles, mesh well formed |
| ConeShape.ConeSideTriangle | visual/shapes.js:16-18 | side triangle i is (0, i, i+1), except the last, which wraps to ring vertex 1 |
| ConeShape.ConeCapTriangle | visual/shapes.js:36-42 | the bottom centre is vertex segments+2 and bottom triangle i is (c, c+i+1, c+((i+1) mod segments)+1) |
| ConeShape.ConeUnusedSeamVertices | visual/shapes.js:16-41 | no triangle uses the last side-ring vertex (segments+1) or the last bottom-ring vertex (c+segments+1) |
| ConeShape.ConeCenters | visual/shapes.js:2-23 | the apex is vertex 0 at (0, height, 0) facing up, and the bottom centre is at the origin facing down |
| ConeShape.ConeSideVertex | visual/shapes.js:7-13 | every side-ring vertex lies in the base plane, its position is radius times the normal's (x, z), and its normal has y = 0.5 |
| ConeShape.ConeCapVertex | visual/shapes.js:26-33 | bottom-ring vertex i repeats the position of side-ring vertex i and faces (0, -1, 0) |
| CylinderShape.CreateCylinder | visual/shapes.js:130-194 | `createCylinder` returns the cylinder mesh: the side grid, then the top cap, then the bottom cap |
| CylinderShape.AddCaps | visual/shapes.js:163-191 | the two cap blocks append the top centre and ring, then the bottom centre and ring, and the two fans around `topCenterIndex` and `topCenterIndex + r + 2` |
| CylinderShape.StitchTop | visual/shapes.js:174-176 | the top loop emits (t, t+i+1, t+i+2) for i = 0 .. r-1 |
| CylinderShape.StitchBottom | visual/shapes.js:189-191 | the bottom loop emits (b, b+i+2, b+i+1) for i = 0 .. r-1 |
| CylinderShape.CylinderIndicesFrom | visual/shapes.js:164-179 | with `topCenterIndex = positions.length / 3` after the side grid, the assembled indices are the cylinder's |
| CylinderShape.CylinderIndicesBound | visual/shapes.js:152-191 | every index of the side stitch and the two fans is below (h+1)(r+1) + 2(r+2) |
| CylinderShape.CylinderWellFormed | visual/shapes.js:130-194 | (h+1)(r+1) + 2(r+2) vertices, 2hr + 2r triangles, mesh well formed |
| CylinderShape.CylinderCenters | visual/shapes.js:164-181 | `topCenterIndex = (h+1)(r+1)` at (0, height/2, 0) facing up, and `bottomCenterIndex = topCenterIndex + r + 2` at (0, -height/2, 0) facing down |
| CylinderShape.CylinderTopRing | visual/shapes.js:167-173 | every top-ring vertex has y = height/2 and normal (0, 1, 0) |
| CylinderShape.CylinderBottomRing | visual/shapes.js:182-188 | every bottom-ring vertex has y = -height/2 and normal (0, -1, 0) |
| CylinderShape.CylinderCapTriangles | visual/shapes.js:174-190 | top triangle i is (t, t+i+1, t+i+2), and bottom triangle i is it shifted by r+2 with its last two corners swapped |
| CylinderShape.SideVertexShape | visual/shapes.js:136-148 | the side body's normal is horizontal, its position's (x, z) is radius times the normal, and its y is (y/h)·height − height/2 |
| CylinderShape.CylinderSideVertex | visual/shapes.js:135-149 | the same for side vertex (y, i) of the mesh, stored at index y(r+1)+i |
| CylinderShape.SideVertexEnds | visual/shapes.js:136-186 | side ring 0 has the positions of the bottom ring and side ring h those of the top ring |
| CylinderShape.CylinderSideMeetsBottom | visual/shapes.js:135-188 | side vertex (0, i) of the mesh has the position of bottom-ring vertex i |
| CylinderShape.CylinderSideMeetsTop | visual/shapes.js:135-173 | side vertex (h, i) of the mesh has the position of top-ring vertex i |
| CubeShape.CubeVertices | visual/shapes.js:54-85 | the vertex table has 24 entries |
| CubeShape.CubeNormals | visual/shapes.js:87-94 | one normal per vertex, 24 in all |
| CubeShape.CreateCube | visual/shapes.js:47-128 | `createCube(size)` returns the table's vertices for half-extent size/2, each face's normal four times, and the joined index table |
| CubeShape.PushFaces | visual/shapes.js:111-125 | the face loop appends, face by face, its four vertices, four copies of its normal and its six indices |
| CubeShape.PushFace | visual/shapes.js:118-121 | the `forEach` appends each vertex of the face and the face normal once per vertex |
| CubeShape.FaceIndicesRow | visual/shapes.js:96-109 | face k's index row is (4k, 4k+1, 4k+2, 4k, 4k+2, 4k+3) |
| CubeShape.CubeIndicesBound | visual/shapes.js:96-109 | every index is below 24 |
| CubeShape.CubeWellFormed | visual/shapes.js:47-128 | 24 vertices, 36 index entries, mesh well formed |
| CubeShape.CubeFace | visual/shapes.js:112-125 | face k's six indices are its table row, all in [4k, 4k+3], and its four vertices carry `faceNormals[k]` |
| CubeShape.TableOnFace | visual/shapes.js:54-94 | corner j of face k in the table has dot product s with `faceNormals[k]` |
| CubeShape.CubeVertexOnFace | visual/shapes.js:52-121 | every vertex of face k in the mesh lies on that face's plane: dot(vertex, `faceNormals[k]`) == size/2 |
| CubeShape.CubeOfSizeTwoFront | visual/shapes.js:52-59 | `createCube(2)` starts with the front face (-1,-1,1), (1,-1,1), (1,1,1), (-1,1,1) |
| Transforms.MultiplyMatrices | utils/helpers.js:75-85 | the triple loop returns the row-major product: entry (row, col) is row `row` of a dotted with column `col` of b |
| Transforms.ProductAt | utils/helpers.js:80 | entry `row * 4 + col` of the product is the sum over i of `a[row*4+i] * b[i*4+col]` |
| Transforms.PartialSumComplete | utils/helpers.js:79-81 | the four accumulated terms of the inner loop add up to that entry |
| Transforms.TransformProduct | utils/helpers.js:75-85 | transforming a point by a product applies the left matrix first |
| Transforms.ProductAssociative | utils/helpers.js:75-85 | `multiplyMatrices` is associative over exact reals |
| Transforms.MakeTranslation | utils/helpers.js:87-89 | the translation is the last row (tx, ty, tz, 1) over an identity 3x3 block |
| Transforms.TranslationMovesPoints | utils/helpers.js:87-89 | a translation moves every point with w = 1 by (tx, ty, tz) |
| Transforms.TranslationByZero | utils/helpers.js:87-89 | `makeTranslation(0, 0, 0)` is the identity matrix |
| Transforms.ProductIdentity | utils/helpers.js:75-89 | `makeTranslation(0, 0, 0)` is a left and a right identity of `multiplyMatrices` |
| Transforms.TranslationsCompose | utils/helpers.js:75-89 | the product of two translations is the translation by the sum of the offsets, in either order |
| Transforms.MakePerspective | utils/helpers.js:32-36 | entries 0, 5, 10, 11, 14 are f/aspect, f, (far+near)/(near−far), −1, 2·far·near/(near−far); all others, including 15, are 0 |
| Transforms.PerspectiveDepthRange | utils/helpers.js:32-36 | w' = −z for every point with w = 1; every point of the near plane (z = −near, w = 1) gets depth −near and every point of the far plane (z = −far) gets depth far, that is −1 and +1 after the divide by w |
| Transforms.LookAtBasis | utils/helpers.js:38-41 | the basis vector y = cross(z, x) is orthogonal to x and to z |
| Transforms.MakeLookAt | utils/helpers.js:38-44 | entry (row, c) of the upper 3x3 block is component `row` of basis vector c, column 3 is (0, 0, 0, 1), and the last row is (−dot(x, eye), −dot(y, eye), −dot(z, eye), 1) |
| Transforms.LookAtEyeToOrigin | utils/helpers.js:38-44 | the view matrix takes the eye to the origin (0, 0, 0, 1), whatever `normalize` returns |
| Transforms.ViewMatrixTakesEyeToOrigin | utils/helpers.js:43 | the matrix assembled from any basis and the eye takes the eye to the origin |
| Transforms.MakeRotationX | utils/helpers.js:63-65 | the fourth row and the fourth column are (0, 0, 0, 1) |
| Transforms.MakeRotationY | utils/helpers.js:67-69 | the fourth row and the fourth column are (0, 0, 0, 1) |
| Transforms.MakeRotationZ | utils/helpers.js:71-73 | the fourth row and the fourth column are (0, 0, 0, 1) |
| Transforms.RotationsFixTheirAxes | utils/helpers.js:63-73 | each rotation leaves the points of its own axis unchanged |
| Transforms.MakeRotationXOrthogonal | utils/helpers.js:63-65 | when cos² + sin² = 1, the matrix times its transpose is the identity |
| Transforms.MakeRotationYOrthogonal | utils/helpers.js:67-69 | when cos² + sin² = 1, the matrix times its transpose is the identity |
| Transforms.MakeRotationZOrthogonal | utils/helpers.js:71-73 | when cos² + sin² = 1, the matrix times its transpose is the identity |
| HexColor.DigitValue | main.js:178 | a hexadecimal digit has a value below 16 |
| HexColor.ParseHex | main.js:178 | `parseInt(s, 16)` of k hexadecimal digits is below 16^k |
| HexColor.ShiftRight | main.js:180-181 | `n >> k` on a non-negative value never exceeds n |
| HexColor.LowByte | main.js:180-182 | `n & 255` is a byte, at most n |
| HexColor.HexToRGB | main.js:177-184 | `hexToRGB` of `#RRGGBB` returns three channels, each in [0, 1] |
| HexColor.ParseSix | main.js:178 | six digits parse to 65536·RR + 256·GG + BB, where RR, GG and BB are the byte values of the digit pairs |
| HexColor.ShiftRightBytes | main.js:180-181 | `n >> 8` is n / 256 and `n >> 16` is n / 65536 |
| HexColor.BytesRecombine | main.js:178-182 | for 0 <= n < 2^24 the three masked bytes recombine to n |
| HexColor.ByteExtraction | main.js:180-182 | masking the shifts of 65536a + 256b + c gives back a, b and c |
| HexColor.HexToRGBChannels | main.js:177-183 | for `#RRGGBB`, r = RR/255, g = GG/255, b = BB/255 |
| HexColor.HexToRGBInRange | main.js:180-182 | every channel lies in [0, 1] |
| HexColor.HexToRGBExtremes | main.js:177-184 | `#000000` gives (0, 0, 0) and `#ffffff` and `#FFFFFF` give (1, 1, 1) |
| IndexUpload.ToUint16 | main.js:79 | the 16-bit conversion yields a value below 2^16 |
| IndexUpload.SmallMeshSurvives | main.js:79 | a well-formed mesh of at most 2^16 vertices keeps every index through the conversion |
| IndexUpload.GridCountBound | utils/controlDisplay.js:4-5 | with both counts at most 100 a grid has at most 101·101 vertices |
| IndexUpload.SliderMeshesSurviveUpload | utils/controlDisplay.js:1-39 | with every count inside its slider range, all seven generators emit indices that survive `new Uint16Array` unchanged |

## Left out

- The values of `Math.sin`, `Math.cos`, `Math.tan`, `Math.sqrt` and `Math.PI`, and IEEE-754 rounding. All arithmetic is over exact reals, so results such as associativity hold for the model but only approximately for the running code.
- Unit-length and on-surface facts: they are stated only under an explicit sin² + cos² = 1 assumption (`JsMath.Pythagorean`, or the same equation for one angle).
- `normalize` (utils/helpers.js:46-49): it needs a square root, and a zero-length input gives NaN. `makeLookAt` takes it as a function parameter.
- Counts of zero. The generators divide by their counts, so the model requires each count to be at least 1. The sliders start at 3 (1 for the cylinder's height segments), so this demands less than the callers guarantee.
- Transforms.MakePerspective: requires `Math.tan(fov / 2) != 0`, `aspect != 0` and `near != far`; at those inputs JavaScript divides by zero and fills entries with Infinity or NaN, which exact reals cannot represent.
- A hyperboloid with `c == 0`, where `y * y / (c * c)` divides by zero: it is a precondition (the slider starts at 0.1).
- The surface equation of the hyperboloid: it goes through `Math.sqrt`, which is uninterpreted.
- HexColor.HexToRGB: only strings of a `#` followed by six hexadecimal digits. Other lengths and malformed input, where `parseInt` returns NaN, are not modelled.
- HexColor.ShiftRight: its own contract states only that the shift does not grow the value; that `n >> 8` and `n >> 16` are n / 256 and n / 65536 is proved in `HexColor.ShiftRightBytes`. It models `>>` for non-negative values only. A parsed six-digit colour never reaches the sign bit.
- Triangle winding (front or back facing) is not checked, because it depends on the trigonometric values. What is proved is that the cylinder's bottom fan lists each top triangle's corners in swapped order.
- JavaScript arrays grown by `push` are modelled as sequences that the loops reassign. `multiplyMatrices` keeps a Dafny array.
- WebGL and DOM code, which the model leaves out because it is I/O: shader and program creation and `bufferData` (utils/helpers.js:1-30); `uploadMesh` apart from its index conversion; `draw`, `initWebGL`, event and resize handlers; the colour picker; and every part of utils/controlDisplay.js except its slider bounds.
- The per-frame rotation angles (main.js:97-103), which accumulate floating-point values.
