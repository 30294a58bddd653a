/** `createCylinder` of visual/shapes.js: a side grid of heightSegments + 1
    rings, then a top and a bottom cap, each a centre and a ring stitched as
    a fan. */
module CylinderShape {
  import opened JsMath
  import opened Vectors
  import opened MeshCore
  import opened GridStitch

  /** Side vertex (y, i): ring y at height `(y / heightSegments) * height - height / 2`,
      angle `(i / radialSegments) * 2 PI`, normal pointing straight out. */
  function SideVertex(math: MathLib, radius: real, height: real, radialSegments: nat, heightSegments: nat, y: nat, i: nat): Vertex
    requires radialSegments >= 1 && heightSegments >= 1
  {
    var v := y as real / heightSegments as real;
    var py := v * height - height / 2.0;
    var u := i as real / radialSegments as real;
    var theta := u * 2.0 * math.PI;
    var sinTheta := math.sin(theta);
    var cosTheta := math.cos(theta);
    Vertex(Vec3(cosTheta * radius, py, sinTheta * radius), Vec3(cosTheta, 0.0, sinTheta))
  }

  /** Ring vertex i of a cap at height `level` with normal (0, up, 0). */
  function CapVertex(math: MathLib, radius: real, radialSegments: nat, level: real, up: real, i: nat): Vertex
    requires radialSegments >= 1
  {
    var theta := (i as real / radialSegments as real) * 2.0 * math.PI;
    Vertex(Vec3(math.cos(theta) * radius, level, math.sin(theta) * radius), Vec3(0.0, up, 0.0))
  }

  function SidePoints(math: MathLib, radius: real, height: real, radialSegments: nat, heightSegments: nat): (nat, nat) -> Vertex
    requires radialSegments >= 1 && heightSegments >= 1
  {
    (y: nat, i: nat) => SideVertex(math, radius, height, radialSegments, heightSegments, y, i)
  }

  function TopRing(math: MathLib, radius: real, height: real, radialSegments: nat): (nat, nat) -> Vertex
    requires radialSegments >= 1
  {
    (row: nat, i: nat) => CapVertex(math, radius, radialSegments, height / 2.0, 1.0, i)
  }

  function BottomRing(math: MathLib, radius: real, height: real, radialSegments: nat): (nat, nat) -> Vertex
    requires radialSegments >= 1
  {
    (row: nat, i: nat) => CapVertex(math, radius, radialSegments, -height / 2.0, -1.0, i)
  }

  function TopCenterVertex(height: real): Vertex {
    Vertex(Vec3(0.0, height / 2.0, 0.0), Vec3(0.0, 1.0, 0.0))
  }

  function BottomCenterVertex(height: real): Vertex {
    Vertex(Vec3(0.0, -height / 2.0, 0.0), Vec3(0.0, -1.0, 0.0))
  }

  /** `topCenterIndex`: the side grid's vertices come first. */
  function TopCenter(radialSegments: nat, heightSegments: nat): nat {
    (heightSegments + 1) * (radialSegments + 1)
  }

  /** `bottomCenterIndex`: after the top centre and its ring. */
  function BottomCenter(radialSegments: nat, heightSegments: nat): nat {
    TopCenter(radialSegments, heightSegments) + radialSegments + 2
  }

  /** Top triangle i: centre, ring vertex i, ring vertex i + 1. */
  function TopFan(t: nat): nat -> Triangle {
    (i: nat) => Triangle(t, t + i + 1, t + i + 2)
  }

  /** Bottom triangle i: centre, ring vertex i + 1, ring vertex i. */
  function BottomFan(b: nat): nat -> Triangle {
    (i: nat) => Triangle(b, b + i + 2, b + i + 1)
  }

  /** The position (or normal) buffer: the side grid, the top cap, the bottom cap. */
  function CylinderBuffer(math: MathLib, radius: real, height: real, radialSegments: nat, heightSegments: nat, a: Attribute): seq<real>
    requires radialSegments >= 1 && heightSegments >= 1
  {
    GridFlat(SidePoints(math, radius, height, radialSegments, heightSegments), a, heightSegments + 1, radialSegments + 1)
      + FanFlat(TopCenterVertex(height), TopRing(math, radius, height, radialSegments), a, radialSegments + 1)
      + FanFlat(BottomCenterVertex(height), BottomRing(math, radius, height, radialSegments), a, radialSegments + 1)
  }

  function CylinderIndices(radialSegments: nat, heightSegments: nat): seq<nat> {
    GridIndices(heightSegments, radialSegments)
      + TriangleList(TopFan(TopCenter(radialSegments, heightSegments)), radialSegments)
      + TriangleList(BottomFan(BottomCenter(radialSegments, heightSegments)), radialSegments)
  }

  function CylinderMesh(math: MathLib, radius: real, height: real, radialSegments: nat, heightSegments: nat): Mesh
    requires radialSegments >= 1 && heightSegments >= 1
  {
    Mesh(CylinderBuffer(math, radius, height, radialSegments, heightSegments, Position),
         CylinderBuffer(math, radius, height, radialSegments, heightSegments, Normal),
         CylinderIndices(radialSegments, heightSegments))
  }

  /** `createCylinder(radius, height, radialSegments, heightSegments)`. */
  method CreateCylinder(math: MathLib, radius: real, height: real, radialSegments: nat, heightSegments: nat) returns (m: Mesh)
    requires radialSegments >= 1 && heightSegments >= 1
    ensures m == CylinderMesh(math, radius, height, radialSegments, heightSegments)
  {
    var positions, normals := FillGrid(SidePoints(math, radius, height, radialSegments, heightSegments), heightSegments + 1, radialSegments + 1);
    var indices := StitchGrid(heightSegments, radialSegments);
    ThirdOf(positions, TopCenter(radialSegments, heightSegments));
    var topCenterIndex := |positions| / 3;
    m := AddCaps(math, radius, height, radialSegments, positions, normals, indices, topCenterIndex);
    CylinderIndicesFrom(radialSegments, heightSegments, topCenterIndex);
  }

  /** The index buffer assembled from the grid and two fans at `t` is the
      cylinder's once `t` is the side grid's vertex count. */
  lemma CylinderIndicesFrom(radialSegments: nat, heightSegments: nat, t: nat)
    requires t == TopCenter(radialSegments, heightSegments)
    ensures GridIndices(heightSegments, radialSegments)
      + TriangleList(TopFan(t), radialSegments)
      + TriangleList(BottomFan(t + radialSegments + 2), radialSegments)
      == CylinderIndices(radialSegments, heightSegments)
  {
    assert BottomCenter(radialSegments, heightSegments) == t + radialSegments + 2;
  }

  /** The two cap loops of `createCylinder`, run on buffers that already hold
      `topCenterIndex` vertices. */
  method AddCaps(math: MathLib, radius: real, height: real, radialSegments: nat,
                 positions: seq<real>, normals: seq<real>, indices: seq<nat>, topCenterIndex: nat) returns (m: Mesh)
    requires radialSegments >= 1 && |positions| == 3 * topCenterIndex
    ensures m.positions == positions
      + FanFlat(TopCenterVertex(height), TopRing(math, radius, height, radialSegments), Position, radialSegments + 1)
      + FanFlat(BottomCenterVertex(height), BottomRing(math, radius, height, radialSegments), Position, radialSegments + 1)
    ensures m.normals == normals
      + FanFlat(TopCenterVertex(height), TopRing(math, radius, height, radialSegments), Normal, radialSegments + 1)
      + FanFlat(BottomCenterVertex(height), BottomRing(math, radius, height, radialSegments), Normal, radialSegments + 1)
    ensures m.indices == indices
      + TriangleList(TopFan(topCenterIndex), radialSegments)
      + TriangleList(BottomFan(topCenterIndex + radialSegments + 2), radialSegments)
  {
    var positions', normals' := FillFan(positions, normals, TopCenterVertex(height), TopRing(math, radius, height, radialSegments), radialSegments + 1);
    var indices' := StitchTop(indices, radialSegments, topCenterIndex);
    ThirdOf(positions', topCenterIndex + radialSegments + 2);
    var bottomCenterIndex := |positions'| / 3;
    positions', normals' := FillFan(positions', normals', BottomCenterVertex(height), BottomRing(math, radius, height, radialSegments), radialSegments + 1);
    indices' := StitchBottom(indices', radialSegments, bottomCenterIndex);
    m := Mesh(positions', normals', indices');
  }

  /** The top cap's index loop. */
  method StitchTop(indices: seq<nat>, radialSegments: nat, topCenterIndex: nat) returns (indices': seq<nat>)
    ensures indices' == indices + TriangleList(TopFan(topCenterIndex), radialSegments)
  {
    indices' := indices;
    for i: nat := 0 to radialSegments
      invariant indices' == indices + TriangleList(TopFan(topCenterIndex), i)
    {
      indices' := indices' + [topCenterIndex, topCenterIndex + i + 1, topCenterIndex + i + 2];
    }
  }

  /** The bottom cap's index loop. */
  method StitchBottom(indices: seq<nat>, radialSegments: nat, bottomCenterIndex: nat) returns (indices': seq<nat>)
    ensures indices' == indices + TriangleList(BottomFan(bottomCenterIndex), radialSegments)
  {
    indices' := indices;
    for i: nat := 0 to radialSegments
      invariant indices' == indices + TriangleList(BottomFan(bottomCenterIndex), i)
    {
      indices' := indices' + [bottomCenterIndex, bottomCenterIndex + i + 2, bottomCenterIndex + i + 1];
    }
  }

  // ---------------------------------------------------------------------------
  // Counts and bounds

  /** Every index the three stitch loops emit is below the vertex count
      (h + 1)(r + 1) + 2(r + 2). */
  lemma CylinderIndicesBound(radialSegments: nat, heightSegments: nat)
    ensures var s, n := CylinderIndices(radialSegments, heightSegments), TopCenter(radialSegments, heightSegments) + 2 * (radialSegments + 2);
      forall k :: 0 <= k < |s| ==> s[k] < n
  {
    var t, b := TopCenter(radialSegments, heightSegments), BottomCenter(radialSegments, heightSegments);
    var n := t + 2 * (radialSegments + 2);
    var grid := GridIndices(heightSegments, radialSegments);
    GridIndicesBound(heightSegments, radialSegments);
    forall i | 0 <= i < radialSegments
      ensures Within(TopFan(t)(i), 0, n) && Within(BottomFan(b)(i), 0, n)
    {
    }
    TriangleListWithin(TopFan(t), radialSegments, 0, n);
    TriangleListWithin(BottomFan(b), radialSegments, 0, n);
    AppendBelow(grid, TriangleList(TopFan(t), radialSegments), n);
    AppendBelow(grid + TriangleList(TopFan(t), radialSegments), TriangleList(BottomFan(b), radialSegments), n);
  }

  /** (h + 1)(r + 1) side vertices and two caps of r + 2, 2hr + 2r triangles,
      every index naming a vertex. */
  lemma CylinderWellFormed(math: MathLib, radius: real, height: real, radialSegments: nat, heightSegments: nat)
    requires radialSegments >= 1 && heightSegments >= 1
    ensures var m := CylinderMesh(math, radius, height, radialSegments, heightSegments);
      && WellFormed(m)
      && VertexCount(m) == (heightSegments + 1) * (radialSegments + 1) + 2 * (radialSegments + 2)
      && |m.indices| == 3 * (2 * (heightSegments * radialSegments) + 2 * radialSegments)
  {
    var m := CylinderMesh(math, radius, height, radialSegments, heightSegments);
    CylinderIndicesBound(radialSegments, heightSegments);
    WellFormedOf(m, TopCenter(radialSegments, heightSegments) + 2 * (radialSegments + 2),
      2 * (heightSegments * radialSegments) + 2 * radialSegments);
  }

  // ---------------------------------------------------------------------------
  // Caps

  /** Reads the top centre and top ring vertex i out of the whole buffer. */
  lemma TopCapAt(math: MathLib, radius: real, height: real, radialSegments: nat, heightSegments: nat, a: Attribute, i: nat)
    requires radialSegments >= 1 && heightSegments >= 1 && i <= radialSegments
    ensures var s, t := CylinderBuffer(math, radius, height, radialSegments, heightSegments, a), TopCenter(radialSegments, heightSegments);
      && 3 * (t + 1 + i) + 3 <= |s|
      && VecAt(s, t) == Attr(TopCenterVertex(height), a)
      && VecAt(s, t + 1 + i) == Attr(CapVertex(math, radius, radialSegments, height / 2.0, 1.0, i), a)
  {
    var grid := GridFlat(SidePoints(math, radius, height, radialSegments, heightSegments), a, heightSegments + 1, radialSegments + 1);
    var bottom := FanFlat(BottomCenterVertex(height), BottomRing(math, radius, height, radialSegments), a, radialSegments + 1);
    var t := TopCenter(radialSegments, heightSegments);
    FanCenterIn(grid, TopCenterVertex(height), TopRing(math, radius, height, radialSegments), a, radialSegments + 1, bottom, t);
    FanRingIn(grid, TopCenterVertex(height), TopRing(math, radius, height, radialSegments), a, radialSegments + 1, bottom, t, i);
  }

  /** Reads the bottom centre and bottom ring vertex i out of the whole buffer. */
  lemma BottomCapAt(math: MathLib, radius: real, height: real, radialSegments: nat, heightSegments: nat, a: Attribute, i: nat)
    requires radialSegments >= 1 && heightSegments >= 1 && i <= radialSegments
    ensures var s, b := CylinderBuffer(math, radius, height, radialSegments, heightSegments, a), BottomCenter(radialSegments, heightSegments);
      && 3 * (b + 1 + i) + 3 <= |s|
      && VecAt(s, b) == Attr(BottomCenterVertex(height), a)
      && VecAt(s, b + 1 + i) == Attr(CapVertex(math, radius, radialSegments, -height / 2.0, -1.0, i), a)
  {
    var grid := GridFlat(SidePoints(math, radius, height, radialSegments, heightSegments), a, heightSegments + 1, radialSegments + 1);
    var top := FanFlat(TopCenterVertex(height), TopRing(math, radius, height, radialSegments), a, radialSegments + 1);
    FanAtEnd(grid + top, BottomCenterVertex(height), BottomRing(math, radius, height, radialSegments), a, radialSegments + 1,
      BottomCenter(radialSegments, heightSegments), i);
  }

  /** The top centre is vertex (h + 1)(r + 1) at (0, height / 2, 0) facing up;
      the bottom centre is r + 2 vertices later at (0, -height / 2, 0) facing down. */
  lemma CylinderCenters(math: MathLib, radius: real, height: real, radialSegments: nat, heightSegments: nat)
    requires radialSegments >= 1 && heightSegments >= 1
    ensures var m, t, b := CylinderMesh(math, radius, height, radialSegments, heightSegments),
                           TopCenter(radialSegments, heightSegments), BottomCenter(radialSegments, heightSegments);
      && t == (heightSegments + 1) * (radialSegments + 1) && b == t + radialSegments + 2
      && 3 * b + 3 <= |m.positions| == |m.normals|
      && PositionAt(m, t) == Vec3(0.0, height / 2.0, 0.0) && NormalAt(m, t) == Vec3(0.0, 1.0, 0.0)
      && PositionAt(m, b) == Vec3(0.0, -height / 2.0, 0.0) && NormalAt(m, b) == Vec3(0.0, -1.0, 0.0)
  {
    TopCapAt(math, radius, height, radialSegments, heightSegments, Position, 0);
    TopCapAt(math, radius, height, radialSegments, heightSegments, Normal, 0);
    BottomCapAt(math, radius, height, radialSegments, heightSegments, Position, 0);
    BottomCapAt(math, radius, height, radialSegments, heightSegments, Normal, 0);
  }

  /** Top ring vertex i lies at y = height / 2 and faces up. */
  lemma CylinderTopRing(math: MathLib, radius: real, height: real, radialSegments: nat, heightSegments: nat, i: nat)
    requires radialSegments >= 1 && heightSegments >= 1 && i <= radialSegments
    ensures var m, t := CylinderMesh(math, radius, height, radialSegments, heightSegments), TopCenter(radialSegments, heightSegments);
      && 3 * (t + 1 + i) + 3 <= |m.positions| && 3 * (t + 1 + i) + 3 <= |m.normals|
      && PositionAt(m, t + 1 + i).y == height / 2.0 && NormalAt(m, t + 1 + i) == Vec3(0.0, 1.0, 0.0)
  {
    TopCapAt(math, radius, height, radialSegments, heightSegments, Position, i);
    TopCapAt(math, radius, height, radialSegments, heightSegments, Normal, i);
  }

  /** Bottom ring vertex i lies at y = -height / 2 and faces down. */
  lemma CylinderBottomRing(math: MathLib, radius: real, height: real, radialSegments: nat, heightSegments: nat, i: nat)
    requires radialSegments >= 1 && heightSegments >= 1 && i <= radialSegments
    ensures var m, b := CylinderMesh(math, radius, height, radialSegments, heightSegments), BottomCenter(radialSegments, heightSegments);
      && 3 * (b + 1 + i) + 3 <= |m.positions| && 3 * (b + 1 + i) + 3 <= |m.normals|
      && PositionAt(m, b + 1 + i).y == -height / 2.0 && NormalAt(m, b + 1 + i) == Vec3(0.0, -1.0, 0.0)
  {
    BottomCapAt(math, radius, height, radialSegments, heightSegments, Position, i);
    BottomCapAt(math, radius, height, radialSegments, heightSegments, Normal, i);
  }

  /** Top triangle i is (t, t + i + 1, t + i + 2); bottom triangle i is the
      same triangle moved r + 2 vertices on to the bottom cap, with its last
      two corners swapped so that it faces down. */
  lemma CylinderCapTriangles(radialSegments: nat, heightSegments: nat, i: nat)
    requires i < radialSegments
    ensures var s, t, o := CylinderIndices(radialSegments, heightSegments), TopCenter(radialSegments, heightSegments),
                           6 * (heightSegments * radialSegments);
      && o + 3 * (radialSegments + i) + 3 <= |s|
      && s[o + 3 * i] == t && s[o + 3 * i + 1] == t + i + 1 && s[o + 3 * i + 2] == t + i + 2
      && s[o + 3 * (radialSegments + i)] == s[o + 3 * i] + radialSegments + 2
      && s[o + 3 * (radialSegments + i) + 1] == s[o + 3 * i + 2] + radialSegments + 2
      && s[o + 3 * (radialSegments + i) + 2] == s[o + 3 * i + 1] + radialSegments + 2
  {
    var t, b := TopCenter(radialSegments, heightSegments), BottomCenter(radialSegments, heightSegments);
    var grid := GridIndices(heightSegments, radialSegments);
    var top := TriangleList(TopFan(t), radialSegments);
    var bottom := TriangleList(BottomFan(b), radialSegments);
    TriangleListAt(TopFan(t), radialSegments, i);
    TriangleListAt(BottomFan(b), radialSegments, i);
    var o := |grid|;
    assert (grid + top + bottom)[o + 3 * i] == top[3 * i];
    assert (grid + top + bottom)[o + 3 * i + 1] == top[3 * i + 1];
    assert (grid + top + bottom)[o + 3 * i + 2] == top[3 * i + 2];
    assert (grid + top + bottom)[o + 3 * (radialSegments + i)] == bottom[3 * i];
    assert (grid + top + bottom)[o + 3 * (radialSegments + i) + 1] == bottom[3 * i + 1];
    assert (grid + top + bottom)[o + 3 * (radialSegments + i) + 2] == bottom[3 * i + 2];
  }

  // ---------------------------------------------------------------------------
  // Side

  /** The side vertex as computed: normal horizontal, position the normal
      scaled by the radius, height linear in the ring number. */
  lemma SideVertexShape(math: MathLib, radius: real, height: real, radialSegments: nat, heightSegments: nat, y: nat, i: nat)
    requires radialSegments >= 1 && heightSegments >= 1
    ensures var v := SideVertex(math, radius, height, radialSegments, heightSegments, y, i);
      && v.normal.y == 0.0
      && Vec3(v.position.x, 0.0, v.position.z) == Scale(radius, v.normal)
      && v.position.y == (y as real / heightSegments as real) * height - height / 2.0
  {
  }

  /** Ring 0 of the side is at y = -height / 2 where bottom ring vertex i
      is, and ring heightSegments at y = height / 2 where top ring vertex i is. */
  lemma SideVertexEnds(math: MathLib, radius: real, height: real, radialSegments: nat, heightSegments: nat, i: nat)
    requires radialSegments >= 1 && heightSegments >= 1
    ensures SideVertex(math, radius, height, radialSegments, heightSegments, 0, i).position
         == CapVertex(math, radius, radialSegments, -height / 2.0, -1.0, i).position
    ensures SideVertex(math, radius, height, radialSegments, heightSegments, heightSegments, i).position
         == CapVertex(math, radius, radialSegments, height / 2.0, 1.0, i).position
  {
    assert heightSegments as real / heightSegments as real == 1.0;
  }

  /** Reads side vertex (y, i) out of the whole buffer. */
  lemma SideAt(math: MathLib, radius: real, height: real, radialSegments: nat, heightSegments: nat, a: Attribute, y: nat, i: nat)
    requires radialSegments >= 1 && heightSegments >= 1 && y <= heightSegments && i <= radialSegments
    ensures var s, k := CylinderBuffer(math, radius, height, radialSegments, heightSegments, a), VertexIndex(radialSegments, y, i);
      && 3 * k + 3 <= |s|
      && VecAt(s, k) == Attr(SideVertex(math, radius, height, radialSegments, heightSegments, y, i), a)
  {
    GridAtIn(SidePoints(math, radius, height, radialSegments, heightSegments), a, heightSegments + 1, radialSegments + 1,
      FanFlat(TopCenterVertex(height), TopRing(math, radius, height, radialSegments), a, radialSegments + 1),
      FanFlat(BottomCenterVertex(height), BottomRing(math, radius, height, radialSegments), a, radialSegments + 1), y, i);
  }

  /** Every side normal is horizontal and every side position is its normal
      scaled by the radius (x and z); ring y sits at height
      `(y / heightSegments) * height - height / 2`. */
  lemma CylinderSideVertex(math: MathLib, radius: real, height: real, radialSegments: nat, heightSegments: nat, y: nat, i: nat)
    requires radialSegments >= 1 && heightSegments >= 1 && y <= heightSegments && i <= radialSegments
    ensures var m, k := CylinderMesh(math, radius, height, radialSegments, heightSegments), VertexIndex(radialSegments, y, i);
      && 3 * k + 3 <= |m.positions| == |m.normals|
      && NormalAt(m, k).y == 0.0
      && Vec3(PositionAt(m, k).x, 0.0, PositionAt(m, k).z) == Scale(radius, NormalAt(m, k))
      && PositionAt(m, k).y == (y as real / heightSegments as real) * height - height / 2.0
  {
    SideAt(math, radius, height, radialSegments, heightSegments, Position, y, i);
    SideAt(math, radius, height, radialSegments, heightSegments, Normal, y, i);
    SideVertexShape(math, radius, height, radialSegments, heightSegments, y, i);
  }

  /** The side's first ring closes up with the bottom cap: side vertex
      (0, i) is where bottom ring vertex i is. */
  lemma CylinderSideMeetsBottom(math: MathLib, radius: real, height: real, radialSegments: nat, heightSegments: nat, i: nat)
    requires radialSegments >= 1 && heightSegments >= 1 && i <= radialSegments
    ensures var m, b := CylinderMesh(math, radius, height, radialSegments, heightSegments), BottomCenter(radialSegments, heightSegments);
      && 3 * (b + 1 + i) + 3 <= |m.positions|
      && PositionAt(m, i) == PositionAt(m, b + 1 + i)
  {
    var s := CylinderBuffer(math, radius, height, radialSegments, heightSegments, Position);
    SideAt(math, radius, height, radialSegments, heightSegments, Position, 0, i);
    assert VertexIndex(radialSegments, 0, i) == i;
    BottomCapAt(math, radius, height, radialSegments, heightSegments, Position, i);
    SideVertexEnds(math, radius, height, radialSegments, heightSegments, i);
    assert VecAt(s, i) == VecAt(s, BottomCenter(radialSegments, heightSegments) + 1 + i);
  }

  /** The side's last ring closes up with the top cap: side vertex
      (heightSegments, i) is where top ring vertex i is. */
  lemma CylinderSideMeetsTop(math: MathLib, radius: real, height: real, radialSegments: nat, heightSegments: nat, i: nat)
    requires radialSegments >= 1 && heightSegments >= 1 && i <= radialSegments
    ensures var m, t := CylinderMesh(math, radius, height, radialSegments, heightSegments), TopCenter(radialSegments, heightSegments);
      && 3 * (t + 1 + i) + 3 <= |m.positions|
      && PositionAt(m, VertexIndex(radialSegments, heightSegments, i)) == PositionAt(m, t + 1 + i)
  {
    SideAt(math, radius, height, radialSegments, heightSegments, Position, heightSegments, i);
    SideVertexEnds(math, radius, height, radialSegments, heightSegments, i);
    TopCapAt(math, radius, height, radialSegments, heightSegments, Position, i);
  }
}
