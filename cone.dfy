/** `createCone` of visual/shapes.js: an apex, a side ring, a bottom centre
    and a bottom ring, stitched by two triangle fans. */
module ConeShape {
  import opened JsMath
  import opened Vectors
  import opened MeshCore
  import opened GridStitch

  /** Side ring vertex i: on the base circle, normal `(cos a, 0.5, sin a)`. */
  function SideVertex(math: MathLib, radius: real, segments: nat, i: nat): Vertex
    requires segments >= 1
  {
    var angle := Turn(math, segments, i);
    var x := math.cos(angle);
    var z := math.sin(angle);
    Vertex(Vec3(radius * x, 0.0, radius * z), Vec3(x, 0.5, z))
  }

  /** Bottom ring vertex i: the same point as side vertex i, facing down. */
  function CapVertex(math: MathLib, radius: real, segments: nat, i: nat): Vertex
    requires segments >= 1
  {
    var angle := Turn(math, segments, i);
    var x := math.cos(angle);
    var z := math.sin(angle);
    Vertex(Vec3(radius * x, 0.0, radius * z), Vec3(0.0, -1.0, 0.0))
  }

  function SideRing(math: MathLib, radius: real, segments: nat): (nat, nat) -> Vertex
    requires segments >= 1
  {
    (row: nat, i: nat) => SideVertex(math, radius, segments, i)
  }

  function CapRing(math: MathLib, radius: real, segments: nat): (nat, nat) -> Vertex
    requires segments >= 1
  {
    (row: nat, i: nat) => CapVertex(math, radius, segments, i)
  }

  /** Side triangle for loop index i (1 .. segments): apex, ring vertex i and
      the next ring vertex, wrapping to 1 after the last. */
  function SideTriangle(segments: nat, i: nat): Triangle {
    Triangle(0, i, if i + 1 > segments then 1 else i + 1)
  }

  function SideFan(segments: nat): nat -> Triangle {
    (k: nat) => SideTriangle(segments, k + 1)
  }

  /** Bottom triangle for loop index i (0 .. segments - 1), around the centre c. */
  function CapTriangle(segments: nat, c: nat, i: nat): Triangle
    requires segments >= 1
  {
    Triangle(c, c + i + 1, c + ((i + 1) % segments) + 1)
  }

  function CapFan(segments: nat, c: nat): nat -> Triangle
    requires segments >= 1
  {
    (i: nat) => CapTriangle(segments, c, i)
  }

  /** The index of the bottom centre: one apex and segments + 1 ring vertices come first. */
  function BottomCenter(segments: nat): nat {
    segments + 2
  }

  function Apex(height: real): Vertex {
    Vertex(Vec3(0.0, height, 0.0), Vec3(0.0, 1.0, 0.0))
  }

  function BottomCenterVertex(): Vertex {
    Vertex(Vec3(0.0, 0.0, 0.0), Vec3(0.0, -1.0, 0.0))
  }

  /** The position (or normal) buffer: apex and side ring, then bottom centre and bottom ring. */
  function ConeBuffer(math: MathLib, radius: real, height: real, segments: nat, a: Attribute): seq<real>
    requires segments >= 1
  {
    FanFlat(Apex(height), SideRing(math, radius, segments), a, segments + 1)
      + FanFlat(BottomCenterVertex(), CapRing(math, radius, segments), a, segments + 1)
  }

  /** The index buffer: the side fan, then the bottom fan. */
  function ConeIndices(segments: nat): seq<nat>
    requires segments >= 1
  {
    TriangleList(SideFan(segments), segments) + TriangleList(CapFan(segments, BottomCenter(segments)), segments)
  }

  function ConeMesh(math: MathLib, radius: real, height: real, segments: nat): Mesh
    requires segments >= 1
  {
    Mesh(ConeBuffer(math, radius, height, segments, Position),
         ConeBuffer(math, radius, height, segments, Normal),
         ConeIndices(segments))
  }

  /** `createCone(radius, height, segments)`. */
  method CreateCone(math: MathLib, radius: real, height: real, segments: nat) returns (m: Mesh)
    requires segments >= 1
    ensures m == ConeMesh(math, radius, height, segments)
  {
    var positions, normals := FillFan([], [], Apex(height), SideRing(math, radius, segments), segments + 1);
    assert positions == FanFlat(Apex(height), SideRing(math, radius, segments), Position, segments + 1);
    assert normals == FanFlat(Apex(height), SideRing(math, radius, segments), Normal, segments + 1);
    var indices := StitchSide(segments);
    ThirdOf(positions, BottomCenter(segments));
    m := AddBottom(math, radius, segments, positions, normals, indices, |positions| / 3);
    assert m.positions == ConeBuffer(math, radius, height, segments, Position);
    assert m.normals == ConeBuffer(math, radius, height, segments, Normal);
  }

  /** The bottom half of `createCone`, run on buffers that already hold
      `bottomCenterIndex` vertices. */
  method AddBottom(math: MathLib, radius: real, segments: nat,
                   positions: seq<real>, normals: seq<real>, indices: seq<nat>, bottomCenterIndex: nat) returns (m: Mesh)
    requires segments >= 1
    ensures m.positions == positions + FanFlat(BottomCenterVertex(), CapRing(math, radius, segments), Position, segments + 1)
    ensures m.normals == normals + FanFlat(BottomCenterVertex(), CapRing(math, radius, segments), Normal, segments + 1)
    ensures m.indices == indices + TriangleList(CapFan(segments, bottomCenterIndex), segments)
  {
    var positions', normals' := FillFan(positions, normals, BottomCenterVertex(), CapRing(math, radius, segments), segments + 1);
    var indices' := StitchCap(indices, segments, bottomCenterIndex);
    m := Mesh(positions', normals', indices');
  }

  /** The side loop of `createCone`: one triangle from the apex per ring edge. */
  method StitchSide(segments: nat) returns (indices: seq<nat>)
    ensures indices == TriangleList(SideFan(segments), segments)
  {
    indices := [];
    for i: nat := 1 to segments + 1
      invariant indices == TriangleList(SideFan(segments), i - 1)
    {
      indices := indices + [0, i, if i + 1 > segments then 1 else i + 1];
    }
  }

  /** The bottom loop of `createCone`: one triangle from the centre per ring edge. */
  method StitchCap(indices: seq<nat>, segments: nat, center: nat) returns (indices': seq<nat>)
    requires segments >= 1
    ensures indices' == indices + TriangleList(CapFan(segments, center), segments)
  {
    indices' := indices;
    for i: nat := 0 to segments
      invariant indices' == indices + TriangleList(CapFan(segments, center), i)
    {
      var a := center;
      var b := center + i + 1;
      var c := center + ((i + 1) % segments) + 1;
      indices' := indices' + [a, b, c];
    }
  }

  /** 2 segments + 4 vertices, 2 segments triangles, every index in bounds. */
  lemma ConeWellFormed(math: MathLib, radius: real, height: real, segments: nat)
    requires segments >= 1
    ensures var m := ConeMesh(math, radius, height, segments);
      WellFormed(m) && VertexCount(m) == 2 * segments + 4 && |m.indices| == 6 * segments
  {
    ConeIndicesBound(segments);
    WellFormedOf(ConeMesh(math, radius, height, segments), 2 * segments + 4, 2 * segments);
  }

  /** Every index either loop emits is below 2 segments + 4. */
  lemma ConeIndicesBound(segments: nat)
    requires segments >= 1
    ensures var s := ConeIndices(segments);
      forall k :: 0 <= k < |s| ==> s[k] < 2 * segments + 4
  {
    var n := 2 * segments + 4;
    var c := BottomCenter(segments);
    forall k | 0 <= k < segments
      ensures Within(SideFan(segments)(k), 0, n)
    {
    }
    TriangleListWithin(SideFan(segments), segments, 0, n);
    forall i | 0 <= i < segments
      ensures Within(CapFan(segments, c)(i), 0, n)
    {
    }
    TriangleListWithin(CapFan(segments, c), segments, 0, n);
    AppendBelow(TriangleList(SideFan(segments), segments), TriangleList(CapFan(segments, c), segments), n);
  }

  /** Side triangle i (1 <= i <= segments) is (0, i, i + 1), except the last,
      which closes the fan on ring vertex 1. */
  lemma ConeSideTriangle(math: MathLib, radius: real, height: real, segments: nat, i: nat)
    requires 1 <= i <= segments
    ensures var m := ConeMesh(math, radius, height, segments);
      3 * i <= |m.indices|
      && m.indices[3 * (i - 1)] == 0
      && m.indices[3 * (i - 1) + 1] == i
      && m.indices[3 * (i - 1) + 2] == (if i == segments then 1 else i + 1)
  {
    TriangleListAt(SideFan(segments), segments, i - 1);
  }

  /** Bottom triangle i (0 <= i < segments) is (c, c + i + 1, c + ((i + 1) mod segments) + 1)
      around the centre c = segments + 2. */
  lemma ConeCapTriangle(math: MathLib, radius: real, height: real, segments: nat, i: nat)
    requires segments >= 1 && i < segments
    ensures var m, c := ConeMesh(math, radius, height, segments), BottomCenter(segments);
      c == segments + 2
      && 3 * (segments + i) + 3 <= |m.indices|
      && m.indices[3 * (segments + i)] == c
      && m.indices[3 * (segments + i) + 1] == c + i + 1
      && m.indices[3 * (segments + i) + 2] == c + ((i + 1) % segments) + 1
  {
    var c := BottomCenter(segments);
    var sides := TriangleList(SideFan(segments), segments);
    var caps := TriangleList(CapFan(segments, c), segments);
    TriangleListAt(CapFan(segments, c), segments, i);
    assert (sides + caps)[3 * (segments + i)] == caps[3 * i];
    assert (sides + caps)[3 * (segments + i) + 1] == caps[3 * i + 1];
    assert (sides + caps)[3 * (segments + i) + 2] == caps[3 * i + 2];
  }

  /** Neither fan uses the last vertex of its ring, which repeats the first. */
  lemma ConeUnusedSeamVertices(math: MathLib, radius: real, height: real, segments: nat)
    requires segments >= 1
    ensures var m := ConeMesh(math, radius, height, segments);
      !References(m, segments + 1) && !References(m, BottomCenter(segments) + segments + 1)
  {
    var c := BottomCenter(segments);
    SideFanAvoids(segments, segments + 1);
    SideFanAvoids(segments, c + segments + 1);
    CapFanAvoids(segments, segments + 1);
    CapFanAvoids(segments, c + segments + 1);
  }

  /** The side fan uses neither seam vertex. */
  lemma SideFanAvoids(segments: nat, v: nat)
    requires segments >= 1 && (v == segments + 1 || v == BottomCenter(segments) + segments + 1)
    ensures v !in TriangleList(SideFan(segments), segments)
  {
    forall k | 0 <= k < segments
      ensures !Touches(SideFan(segments)(k), v)
    {
    }
    TriangleListAvoids(SideFan(segments), segments, v);
  }

  /** The bottom fan uses neither seam vertex. */
  lemma CapFanAvoids(segments: nat, v: nat)
    requires segments >= 1 && (v == segments + 1 || v == BottomCenter(segments) + segments + 1)
    ensures v !in TriangleList(CapFan(segments, BottomCenter(segments)), segments)
  {
    var c := BottomCenter(segments);
    forall i | 0 <= i < segments
      ensures !Touches(CapFan(segments, c)(i), v)
    {
    }
    TriangleListAvoids(CapFan(segments, c), segments, v);
  }

  /** Reads the bottom centre and bottom ring vertex i out of the whole buffer. */
  lemma BottomAt(math: MathLib, radius: real, height: real, segments: nat, a: Attribute, i: nat)
    requires segments >= 1 && i <= segments
    ensures var s, c := ConeBuffer(math, radius, height, segments, a), BottomCenter(segments);
      && 3 * (c + 1 + i) + 3 <= |s|
      && VecAt(s, c) == Attr(BottomCenterVertex(), a)
      && VecAt(s, c + 1 + i) == Attr(CapVertex(math, radius, segments, i), a)
  {
    FanAtEnd(FanFlat(Apex(height), SideRing(math, radius, segments), a, segments + 1),
      BottomCenterVertex(), CapRing(math, radius, segments), a, segments + 1, BottomCenter(segments), i);
  }

  /** Reads the apex and side ring vertex i out of the whole buffer. */
  lemma TopAt(math: MathLib, radius: real, height: real, segments: nat, a: Attribute, i: nat)
    requires segments >= 1 && i <= segments
    ensures var s := ConeBuffer(math, radius, height, segments, a);
      && 3 * (1 + i) + 3 <= |s|
      && VecAt(s, 0) == Attr(Apex(height), a)
      && VecAt(s, 1 + i) == Attr(SideVertex(math, radius, segments, i), a)
  {
    FanAtStart(Apex(height), SideRing(math, radius, segments), a, segments + 1,
      FanFlat(BottomCenterVertex(), CapRing(math, radius, segments), a, segments + 1), i);
  }

  /** The apex: vertex 0 at (0, height, 0) facing up; and the bottom centre:
      vertex segments + 2 at the origin facing down. */
  lemma ConeCenters(math: MathLib, radius: real, height: real, segments: nat)
    requires segments >= 1
    ensures var m, c := ConeMesh(math, radius, height, segments), BottomCenter(segments);
      && |m.normals| == |m.positions| == 3 * (2 * segments + 4)
      && PositionAt(m, 0) == Vec3(0.0, height, 0.0) && NormalAt(m, 0) == Vec3(0.0, 1.0, 0.0)
      && PositionAt(m, c) == ZERO && NormalAt(m, c) == Vec3(0.0, -1.0, 0.0)
  {
    TopAt(math, radius, height, segments, Position, 0);
    TopAt(math, radius, height, segments, Normal, 0);
    BottomAt(math, radius, height, segments, Position, 0);
    BottomAt(math, radius, height, segments, Normal, 0);
  }

  /** Side ring vertex i (vertex 1 + i) lies in the base plane, its position
      is the radius times the horizontal part of its normal, and the normal
      leans up with y = 0.5. */
  lemma ConeSideVertex(math: MathLib, radius: real, height: real, segments: nat, i: nat)
    requires segments >= 1 && i <= segments
    ensures var m := ConeMesh(math, radius, height, segments);
      && 3 * (2 + i) <= |m.positions| == |m.normals|
      && NormalAt(m, 1 + i).y == 0.5
      && PositionAt(m, 1 + i) == Vec3(Scale(radius, NormalAt(m, 1 + i)).x, 0.0, Scale(radius, NormalAt(m, 1 + i)).z)
  {
    TopAt(math, radius, height, segments, Position, i);
    TopAt(math, radius, height, segments, Normal, i);
  }

  /** Bottom ring vertex i (vertex segments + 3 + i) repeats the position of
      side ring vertex i and faces straight down. */
  lemma ConeCapVertex(math: MathLib, radius: real, height: real, segments: nat, i: nat)
    requires segments >= 1 && i <= segments
    ensures var m, k := ConeMesh(math, radius, height, segments), BottomCenter(segments) + 1 + i;
      && 3 * k + 3 <= |m.positions| == |m.normals|
      && PositionAt(m, k) == PositionAt(m, 1 + i)
      && NormalAt(m, k) == Vec3(0.0, -1.0, 0.0)
  {
    TopAt(math, radius, height, segments, Position, i);
    BottomAt(math, radius, height, segments, Position, i);
    BottomAt(math, radius, height, segments, Normal, i);
  }
}
