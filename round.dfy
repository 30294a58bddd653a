/** The four grid-stitched generators of visual/shapes.js: `createSphere`,
    `createEllipsoid`, `createHyperboloid` and `createToroid`. Each runs the
    nested vertex loops (`FillGrid`) with its own loop body, given here as a
    function from (row, column) to the vertex pushed, and then the shared
    index loops (`StitchGrid`). */
module RoundShapes {
  import opened JsMath
  import opened Vectors
  import opened MeshCore
  import opened GridStitch

  // ---------------------------------------------------------------------------
  // createSphere

  /** The loop body of `createSphere` for (lat, lon): polar angle
      `lat * PI / latBands`, azimuth `lon * 2 * PI / longBands`, unit
      direction (x, y, z), position radius * (x, y, z), normal (x, y, z). */
  function SphereVertex(math: MathLib, radius: real, latBands: nat, longBands: nat, lat: nat, lon: nat): Vertex
    requires latBands >= 1 && longBands >= 1
  {
    var theta := HalfTurn(math, latBands, lat);
    var phi := Turn(math, longBands, lon);
    var x := math.cos(phi) * math.sin(theta);
    var y := math.cos(theta);
    var z := math.sin(phi) * math.sin(theta);
    Vertex(Vec3(radius * x, radius * y, radius * z), Vec3(x, y, z))
  }

  function SpherePoints(math: MathLib, radius: real, latBands: nat, longBands: nat): (nat, nat) -> Vertex
    requires latBands >= 1 && longBands >= 1
  {
    (lat: nat, lon: nat) => SphereVertex(math, radius, latBands, longBands, lat, lon)
  }

  function SphereMesh(math: MathLib, radius: real, latBands: nat, longBands: nat): Mesh
    requires latBands >= 1 && longBands >= 1
  {
    GridMesh(SpherePoints(math, radius, latBands, longBands), latBands, longBands)
  }

  /** `createSphere(radius, latBands, longBands)`. */
  method CreateSphere(math: MathLib, radius: real, latBands: nat, longBands: nat) returns (m: Mesh)
    requires latBands >= 1 && longBands >= 1
    ensures m == SphereMesh(math, radius, latBands, longBands)
  {
    m := BuildGrid(SpherePoints(math, radius, latBands, longBands), latBands, longBands);
  }

  /** Every sphere position is the radius times its normal. */
  lemma SpherePositionIsScaledNormal(math: MathLib, radius: real, latBands: nat, longBands: nat, lat: nat, lon: nat)
    requires latBands >= 1 && longBands >= 1
    requires lat <= latBands && lon <= longBands
    ensures var m, k := SphereMesh(math, radius, latBands, longBands), VertexIndex(longBands, lat, lon);
      3 * k + 3 <= |m.positions| && 3 * k + 3 <= |m.normals|
      && PositionAt(m, k) == Scale(radius, NormalAt(m, k))
  {
    GridMeshVertex(SpherePoints(math, radius, latBands, longBands), latBands, longBands, lat, lon);
    SphereVertexScaled(math, radius, latBands, longBands, lat, lon);
  }

  /** Under sin^2 + cos^2 = 1 every sphere normal is a unit vector, so every
      position lies at distance |radius| from the origin. */
  lemma SphereOnSurface(math: MathLib, radius: real, latBands: nat, longBands: nat, lat: nat, lon: nat)
    requires latBands >= 1 && longBands >= 1 && Pythagorean(math)
    requires lat <= latBands && lon <= longBands
    ensures var m, k := SphereMesh(math, radius, latBands, longBands), VertexIndex(longBands, lat, lon);
      3 * k + 3 <= |m.positions| && 3 * k + 3 <= |m.normals|
      && Dot(NormalAt(m, k), NormalAt(m, k)) == 1.0
      && Dot(PositionAt(m, k), PositionAt(m, k)) == radius * radius
  {
    GridMeshVertex(SpherePoints(math, radius, latBands, longBands), latBands, longBands, lat, lon);
    SphereVertexOnSurface(math, radius, latBands, longBands, lat, lon);
  }

  /** When sin 0 = 0 and cos 0 = 1, the whole first row of the sphere is the
      north pole: position (0, radius, 0) and normal (0, 1, 0), whatever the
      longitude. */
  lemma SpherePole(math: MathLib, radius: real, latBands: nat, longBands: nat, lon: nat)
    requires latBands >= 1 && longBands >= 1 && lon <= longBands
    requires math.sin(0.0) == 0.0 && math.cos(0.0) == 1.0
    ensures var m := SphereMesh(math, radius, latBands, longBands);
      3 * lon + 3 <= |m.positions| && 3 * lon + 3 <= |m.normals|
      && PositionAt(m, lon) == Vec3(0.0, radius, 0.0) && NormalAt(m, lon) == Vec3(0.0, 1.0, 0.0)
  {
    var at := SpherePoints(math, radius, latBands, longBands);
    GridMeshVertex(at, latBands, longBands, 0, lon);
    assert VertexIndex(longBands, 0, lon) == lon;
    assert HalfTurn(math, latBands, 0) == 0.0;
    assert at(0, lon) == SphereVertex(math, radius, latBands, longBands, 0, lon);
  }

  /** The loop body's position is the radius times its normal. */
  lemma SphereVertexScaled(math: MathLib, radius: real, latBands: nat, longBands: nat, lat: nat, lon: nat)
    requires latBands >= 1 && longBands >= 1
    ensures var v := SphereVertex(math, radius, latBands, longBands, lat, lon);
      v.position == Scale(radius, v.normal)
  {
  }

  /** The loop body's normal is a unit vector and its position has length |radius|. */
  lemma SphereVertexOnSurface(math: MathLib, radius: real, latBands: nat, longBands: nat, lat: nat, lon: nat)
    requires latBands >= 1 && longBands >= 1 && Pythagorean(math)
    ensures var v := SphereVertex(math, radius, latBands, longBands, lat, lon);
      Dot(v.normal, v.normal) == 1.0 && Dot(v.position, v.position) == radius * radius
  {
    var v := SphereVertex(math, radius, latBands, longBands, lat, lon);
    UnitSpherical(math, HalfTurn(math, latBands, lat), Turn(math, longBands, lon));
    SphereVertexScaled(math, radius, latBands, longBands, lat, lon);
    ScaledLength(radius, v.normal);
  }

  // ---------------------------------------------------------------------------
  // createEllipsoid

  /** The loop body of `createEllipsoid`: the sphere's unit direction, with
      the position scaled by rx, ry, rz axis by axis. */
  function EllipsoidVertex(math: MathLib, rx: real, ry: real, rz: real, latBands: nat, longBands: nat, lat: nat, lon: nat): Vertex
    requires latBands >= 1 && longBands >= 1
  {
    var theta := HalfTurn(math, latBands, lat);
    var phi := Turn(math, longBands, lon);
    var x := math.cos(phi) * math.sin(theta);
    var y := math.cos(theta);
    var z := math.sin(phi) * math.sin(theta);
    Vertex(Vec3(rx * x, ry * y, rz * z), Vec3(x, y, z))
  }

  function EllipsoidPoints(math: MathLib, rx: real, ry: real, rz: real, latBands: nat, longBands: nat): (nat, nat) -> Vertex
    requires latBands >= 1 && longBands >= 1
  {
    (lat: nat, lon: nat) => EllipsoidVertex(math, rx, ry, rz, latBands, longBands, lat, lon)
  }

  function EllipsoidMesh(math: MathLib, rx: real, ry: real, rz: real, latBands: nat, longBands: nat): Mesh
    requires latBands >= 1 && longBands >= 1
  {
    GridMesh(EllipsoidPoints(math, rx, ry, rz, latBands, longBands), latBands, longBands)
  }

  /** `createEllipsoid(rx, ry, rz, latBands, longBands)`. */
  method CreateEllipsoid(math: MathLib, rx: real, ry: real, rz: real, latBands: nat, longBands: nat) returns (m: Mesh)
    requires latBands >= 1 && longBands >= 1
    ensures m == EllipsoidMesh(math, rx, ry, rz, latBands, longBands)
  {
    m := BuildGrid(EllipsoidPoints(math, rx, ry, rz, latBands, longBands), latBands, longBands);
  }

  /** Every ellipsoid position is its normal scaled axis by axis. */
  lemma EllipsoidPositionScalesNormal(math: MathLib, rx: real, ry: real, rz: real, latBands: nat, longBands: nat, lat: nat, lon: nat)
    requires latBands >= 1 && longBands >= 1
    requires lat <= latBands && lon <= longBands
    ensures var m, k := EllipsoidMesh(math, rx, ry, rz, latBands, longBands), VertexIndex(longBands, lat, lon);
      3 * k + 3 <= |m.positions| && 3 * k + 3 <= |m.normals|
      && PositionAt(m, k) == AxisScale(rx, ry, rz, NormalAt(m, k))
  {
    GridMeshVertex(EllipsoidPoints(math, rx, ry, rz, latBands, longBands), latBands, longBands, lat, lon);
    EllipsoidVertexScales(math, rx, ry, rz, latBands, longBands, lat, lon);
  }

  /** The loop body's position is its normal scaled axis by axis. */
  lemma EllipsoidVertexScales(math: MathLib, rx: real, ry: real, rz: real, latBands: nat, longBands: nat, lat: nat, lon: nat)
    requires latBands >= 1 && longBands >= 1
    ensures var v := EllipsoidVertex(math, rx, ry, rz, latBands, longBands, lat, lon);
      v.position == AxisScale(rx, ry, rz, v.normal)
  {
  }

  /** `v` scaled by rx, ry and rz along the three axes. */
  function AxisScale(rx: real, ry: real, rz: real, v: Vec3): Vec3 {
    Vec3(rx * v.x, ry * v.y, rz * v.z)
  }

  /** Under sin^2 + cos^2 = 1 and non-zero radii every position satisfies
      (x/rx)^2 + (y/ry)^2 + (z/rz)^2 = 1. */
  lemma EllipsoidOnSurface(math: MathLib, rx: real, ry: real, rz: real, latBands: nat, longBands: nat, lat: nat, lon: nat)
    requires latBands >= 1 && longBands >= 1 && Pythagorean(math)
    requires rx != 0.0 && ry != 0.0 && rz != 0.0
    requires lat <= latBands && lon <= longBands
    ensures var m, k := EllipsoidMesh(math, rx, ry, rz, latBands, longBands), VertexIndex(longBands, lat, lon);
      3 * k + 3 <= |m.positions|
      && var p := PositionAt(m, k);
      (p.x / rx) * (p.x / rx) + (p.y / ry) * (p.y / ry) + (p.z / rz) * (p.z / rz) == 1.0
  {
    GridMeshVertex(EllipsoidPoints(math, rx, ry, rz, latBands, longBands), latBands, longBands, lat, lon);
    EllipsoidVertexOnSurface(math, rx, ry, rz, latBands, longBands, lat, lon);
  }

  lemma EllipsoidVertexOnSurface(math: MathLib, rx: real, ry: real, rz: real, latBands: nat, longBands: nat, lat: nat, lon: nat)
    requires latBands >= 1 && longBands >= 1 && Pythagorean(math)
    requires rx != 0.0 && ry != 0.0 && rz != 0.0
    ensures var p := EllipsoidVertex(math, rx, ry, rz, latBands, longBands, lat, lon).position;
      (p.x / rx) * (p.x / rx) + (p.y / ry) * (p.y / ry) + (p.z / rz) * (p.z / rz) == 1.0
  {
    var v := EllipsoidVertex(math, rx, ry, rz, latBands, longBands, lat, lon);
    var n, p := v.normal, v.position;
    assert p.x / rx == n.x && p.y / ry == n.y && p.z / rz == n.z;
    UnitSpherical(math, HalfTurn(math, latBands, lat), Turn(math, longBands, lon));
  }

  /** An ellipsoid with three equal radii is the sphere of that radius. */
  lemma EllipsoidWithEqualRadiiIsSphere(math: MathLib, radius: real, latBands: nat, longBands: nat)
    requires latBands >= 1 && longBands >= 1
    ensures EllipsoidMesh(math, radius, radius, radius, latBands, longBands) == SphereMesh(math, radius, latBands, longBands)
  {
    GridMeshPointwise(EllipsoidPoints(math, radius, radius, radius, latBands, longBands),
                      SpherePoints(math, radius, latBands, longBands), latBands, longBands);
  }

  // ---------------------------------------------------------------------------
  // createHyperboloid

  /** The loop body of `createHyperboloid` for row i and column j, with
      `stacks = segments`: height `height * (i / stacks - 0.5)`, radius scale
      `sqrt(1 + y^2 / c^2)`, position (a s cos t, y, b s sin t) and normal
      (x, 0, z). */
  function HyperboloidVertex(math: MathLib, a: real, b: real, c: real, height: real, segments: nat, i: nat, j: nat): Vertex
    requires segments >= 1 && c != 0.0
  {
    var y := height * (i as real / segments as real - 0.5);
    var xzScale := math.sqrt(1.0 + (y * y) / (c * c));
    var theta := Turn(math, segments, j);
    var x := a * xzScale * math.cos(theta);
    var z := b * xzScale * math.sin(theta);
    Vertex(Vec3(x, y, z), Vec3(x, 0.0, z))
  }

  function HyperboloidPoints(math: MathLib, a: real, b: real, c: real, height: real, segments: nat): (nat, nat) -> Vertex
    requires segments >= 1 && c != 0.0
  {
    (i: nat, j: nat) => HyperboloidVertex(math, a, b, c, height, segments, i, j)
  }

  function HyperboloidMesh(math: MathLib, a: real, b: real, c: real, height: real, segments: nat): Mesh
    requires segments >= 1 && c != 0.0
  {
    GridMesh(HyperboloidPoints(math, a, b, c, height, segments), segments, segments)
  }

  /** `createHyperboloid(a, b, c, height, segments)`. */
  method CreateHyperboloid(math: MathLib, a: real, b: real, c: real, height: real, segments: nat) returns (m: Mesh)
    requires segments >= 1 && c != 0.0
    ensures m == HyperboloidMesh(math, a, b, c, height, segments)
  {
    var stacks := segments;
    m := BuildGrid(HyperboloidPoints(math, a, b, c, height, segments), stacks, segments);
  }

  /** Every hyperboloid normal is its position with y replaced by 0. */
  lemma HyperboloidNormalIsRadial(math: MathLib, a: real, b: real, c: real, height: real, segments: nat, i: nat, j: nat)
    requires segments >= 1 && c != 0.0
    requires i <= segments && j <= segments
    ensures var m, k := HyperboloidMesh(math, a, b, c, height, segments), VertexIndex(segments, i, j);
      3 * k + 3 <= |m.positions| && 3 * k + 3 <= |m.normals|
      && NormalAt(m, k) == Vec3(PositionAt(m, k).x, 0.0, PositionAt(m, k).z)
  {
    GridMeshVertex(HyperboloidPoints(math, a, b, c, height, segments), segments, segments, i, j);
  }

  /** The rows run from y = -height/2 (row 0) to y = height/2 (row
      `segments`): the surface is centred on the origin. */
  lemma HyperboloidEnds(math: MathLib, a: real, b: real, c: real, height: real, segments: nat, j: nat)
    requires segments >= 1 && c != 0.0
    requires j <= segments
    ensures var m, top := HyperboloidMesh(math, a, b, c, height, segments), VertexIndex(segments, segments, j);
      3 * j + 3 <= |m.positions| && 3 * top + 3 <= |m.positions|
      && PositionAt(m, j).y == -height / 2.0 && PositionAt(m, top).y == height / 2.0
  {
    var at := HyperboloidPoints(math, a, b, c, height, segments);
    GridMeshVertex(at, segments, segments, 0, j);
    assert VertexIndex(segments, 0, j) == j;
    HyperboloidRowHeights(math, a, b, c, height, segments, 0, j);
    assert at(0, j) == HyperboloidVertex(math, a, b, c, height, segments, 0, j);
    GridMeshVertex(at, segments, segments, segments, j);
    HyperboloidRowHeights(math, a, b, c, height, segments, segments, j);
    assert at(segments, j) == HyperboloidVertex(math, a, b, c, height, segments, segments, j);
  }

  lemma HyperboloidRowHeights(math: MathLib, a: real, b: real, c: real, height: real, segments: nat, i: nat, j: nat)
    requires segments >= 1 && c != 0.0
    ensures var p := HyperboloidVertex(math, a, b, c, height, segments, i, j).position;
      (i == 0 ==> p.y == -height / 2.0) && (i == segments ==> p.y == height / 2.0)
  {
    if i == segments {
      assert i as real / segments as real == 1.0;
    }
  }

  // ---------------------------------------------------------------------------
  // createToroid

  /** The loop body of `createToroid` for ring step i and tube step j: ring
      angle theta, tube angle phi, position ((R + r cos phi) cos theta,
      r sin phi, (R + r cos phi) sin theta) and normal (cos phi cos theta,
      sin phi, cos phi sin theta). */
  function ToroidVertex(math: MathLib, majorRadius: real, minorRadius: real, majorSegments: nat, minorSegments: nat, i: nat, j: nat): Vertex
    requires majorSegments >= 1 && minorSegments >= 1
  {
    var theta := Turn(math, majorSegments, i);
    var phi := Turn(math, minorSegments, j);
    var x := (majorRadius + minorRadius * math.cos(phi)) * math.cos(theta);
    var y := minorRadius * math.sin(phi);
    var z := (majorRadius + minorRadius * math.cos(phi)) * math.sin(theta);
    Vertex(Vec3(x, y, z), Vec3(math.cos(phi) * math.cos(theta), math.sin(phi), math.cos(phi) * math.sin(theta)))
  }

  function ToroidPoints(math: MathLib, majorRadius: real, minorRadius: real, majorSegments: nat, minorSegments: nat): (nat, nat) -> Vertex
    requires majorSegments >= 1 && minorSegments >= 1
  {
    (i: nat, j: nat) => ToroidVertex(math, majorRadius, minorRadius, majorSegments, minorSegments, i, j)
  }

  function ToroidMesh(math: MathLib, majorRadius: real, minorRadius: real, majorSegments: nat, minorSegments: nat): Mesh
    requires majorSegments >= 1 && minorSegments >= 1
  {
    GridMesh(ToroidPoints(math, majorRadius, minorRadius, majorSegments, minorSegments), majorSegments, minorSegments)
  }

  /** `createToroid(majorRadius, minorRadius, majorSegments, minorSegments)`. */
  method CreateToroid(math: MathLib, majorRadius: real, minorRadius: real, majorSegments: nat, minorSegments: nat) returns (m: Mesh)
    requires majorSegments >= 1 && minorSegments >= 1
    ensures m == ToroidMesh(math, majorRadius, minorRadius, majorSegments, minorSegments)
  {
    m := BuildGrid(ToroidPoints(math, majorRadius, minorRadius, majorSegments, minorSegments), majorSegments, minorSegments);
  }

  /** Every toroid position is the centre of its tube ring,
      (R cos theta, 0, R sin theta), plus the minor radius times its normal. */
  lemma ToroidPositionOnTube(math: MathLib, majorRadius: real, minorRadius: real, majorSegments: nat, minorSegments: nat, i: nat, j: nat)
    requires majorSegments >= 1 && minorSegments >= 1
    requires i <= majorSegments && j <= minorSegments
    ensures var m, k := ToroidMesh(math, majorRadius, minorRadius, majorSegments, minorSegments), VertexIndex(minorSegments, i, j);
      3 * k + 3 <= |m.positions| && 3 * k + 3 <= |m.normals|
      && PositionAt(m, k) == OnTube(TubeCentre(math, majorRadius, Turn(math, majorSegments, i)), minorRadius, NormalAt(m, k))
  {
    GridMeshVertex(ToroidPoints(math, majorRadius, minorRadius, majorSegments, minorSegments), majorSegments, minorSegments, i, j);
    ToroidVertexOnTube(math, majorRadius, minorRadius, majorSegments, minorSegments, i, j);
  }

  /** The loop body's position is the tube centre plus the minor radius times its normal. */
  lemma ToroidVertexOnTube(math: MathLib, majorRadius: real, minorRadius: real, majorSegments: nat, minorSegments: nat, i: nat, j: nat)
    requires majorSegments >= 1 && minorSegments >= 1
    ensures var v := ToroidVertex(math, majorRadius, minorRadius, majorSegments, minorSegments, i, j);
      v.position == OnTube(TubeCentre(math, majorRadius, Turn(math, majorSegments, i)), minorRadius, v.normal)
  {
    var ct, st := math.cos(Turn(math, majorSegments, i)), math.sin(Turn(math, majorSegments, i));
    var cp := math.cos(Turn(math, minorSegments, j));
    assert (majorRadius + minorRadius * cp) * ct == majorRadius * ct + minorRadius * (cp * ct);
    assert (majorRadius + minorRadius * cp) * st == majorRadius * st + minorRadius * (cp * st);
  }

  /** The centre of the tube's cross-section at angle theta around the ring. */
  function TubeCentre(math: MathLib, majorRadius: real, theta: real): Vec3 {
    Vec3(majorRadius * math.cos(theta), 0.0, majorRadius * math.sin(theta))
  }

  /** The point at distance r from `centre` in direction `n`. */
  function OnTube(centre: Vec3, r: real, n: Vec3): Vec3 {
    Vec3(centre.x + r * n.x, centre.y + r * n.y, centre.z + r * n.z)
  }

  /** Under sin^2 + cos^2 = 1 every toroid normal is a unit vector. */
  lemma ToroidNormalsUnit(math: MathLib, majorRadius: real, minorRadius: real, majorSegments: nat, minorSegments: nat, i: nat, j: nat)
    requires majorSegments >= 1 && minorSegments >= 1 && Pythagorean(math)
    requires i <= majorSegments && j <= minorSegments
    ensures var m, k := ToroidMesh(math, majorRadius, minorRadius, majorSegments, minorSegments), VertexIndex(minorSegments, i, j);
      3 * k + 3 <= |m.normals| && Dot(NormalAt(m, k), NormalAt(m, k)) == 1.0
  {
    GridMeshVertex(ToroidPoints(math, majorRadius, minorRadius, majorSegments, minorSegments), majorSegments, minorSegments, i, j);
    UnitTube(math, Turn(math, majorSegments, i), Turn(math, minorSegments, j));
  }

  // ---------------------------------------------------------------------------
  // Shared facts

  /** The grid structure of all four shapes: (M + 1)(N + 1) vertices,
      2MN triangles, every index naming a vertex. */
  lemma RoundShapesWellFormed(math: MathLib, r1: real, r2: real, r3: real, c: real, h: real, M: nat, N: nat)
    requires M >= 1 && N >= 1 && c != 0.0
    ensures var sphere := SphereMesh(math, r1, M, N);
      WellFormed(sphere) && VertexCount(sphere) == (M + 1) * (N + 1) && |sphere.indices| == 6 * (M * N)
    ensures var ellipsoid := EllipsoidMesh(math, r1, r2, r3, M, N);
      WellFormed(ellipsoid) && VertexCount(ellipsoid) == (M + 1) * (N + 1) && |ellipsoid.indices| == 6 * (M * N)
    ensures var hyperboloid := HyperboloidMesh(math, r1, r2, c, h, M);
      WellFormed(hyperboloid) && VertexCount(hyperboloid) == (M + 1) * (M + 1) && |hyperboloid.indices| == 6 * (M * M)
    ensures var toroid := ToroidMesh(math, r1, r2, M, N);
      WellFormed(toroid) && VertexCount(toroid) == (M + 1) * (N + 1) && |toroid.indices| == 6 * (M * N)
  {
    GridMeshShape(SpherePoints(math, r1, M, N), M, N);
    GridMeshShape(EllipsoidPoints(math, r1, r2, r3, M, N), M, N);
    GridMeshShape(HyperboloidPoints(math, r1, r2, c, h, M), M, M);
    GridMeshShape(ToroidPoints(math, r1, r2, M, N), M, N);
  }

  /** (cos phi sin theta, cos theta, sin phi sin theta) is a unit vector. */
  lemma UnitSpherical(math: MathLib, theta: real, phi: real)
    requires Pythagorean(math)
    ensures var n := Vec3(math.cos(phi) * math.sin(theta), math.cos(theta), math.sin(phi) * math.sin(theta));
      Dot(n, n) == 1.0
  {
    var st, ct, sp, cp := math.sin(theta), math.cos(theta), math.sin(phi), math.cos(phi);
    assert sp * sp + cp * cp == 1.0;
    assert st * st + ct * ct == 1.0;
    calc {
      (cp * st) * (cp * st) + ct * ct + (sp * st) * (sp * st);
      (cp * cp + sp * sp) * (st * st) + ct * ct;
      st * st + ct * ct;
    }
  }

  /** (cos phi cos theta, sin phi, cos phi sin theta) is a unit vector. */
  lemma UnitTube(math: MathLib, theta: real, phi: real)
    requires Pythagorean(math)
    ensures var n := Vec3(math.cos(phi) * math.cos(theta), math.sin(phi), math.cos(phi) * math.sin(theta));
      Dot(n, n) == 1.0
  {
    var st, ct, sp, cp := math.sin(theta), math.cos(theta), math.sin(phi), math.cos(phi);
    assert sp * sp + cp * cp == 1.0;
    assert st * st + ct * ct == 1.0;
    calc {
      (cp * ct) * (cp * ct) + sp * sp + (cp * st) * (cp * st);
      (cp * cp) * (ct * ct + st * st) + sp * sp;
      cp * cp + sp * sp;
    }
  }

  /** |k v|^2 = k^2 |v|^2. */
  lemma ScaledLength(k: real, v: Vec3)
    ensures Dot(Scale(k, v), Scale(k, v)) == k * k * Dot(v, v)
  {
    calc {
      Dot(Scale(k, v), Scale(k, v));
      (k * v.x) * (k * v.x) + (k * v.y) * (k * v.y) + (k * v.z) * (k * v.z);
      k * k * (v.x * v.x + v.y * v.y + v.z * v.z);
    }
  }
}
