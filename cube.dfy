/** `createCube` of visual/shapes.js: six faces of four vertices each, every
    face carrying its own normal, so the 8 corners appear three times each. */
module CubeShape {
  import opened Vectors
  import opened MeshCore

  /** The `vertices` table for half-extent s: four corners per face, in the
      order front, back, top, bottom, right, left. */
  function CubeVertices(s: real): (vs: seq<Vec3>)
    ensures |vs| == 24
  {
    [ Vec3(-s, -s, s), Vec3(s, -s, s), Vec3(s, s, s), Vec3(-s, s, s),
      Vec3(-s, -s, -s), Vec3(s, -s, -s), Vec3(s, s, -s), Vec3(-s, s, -s),
      Vec3(-s, s, -s), Vec3(s, s, -s), Vec3(s, s, s), Vec3(-s, s, s),
      Vec3(-s, -s, -s), Vec3(s, -s, -s), Vec3(s, -s, s), Vec3(-s, -s, s),
      Vec3(s, -s, -s), Vec3(s, -s, s), Vec3(s, s, s), Vec3(s, s, -s),
      Vec3(-s, -s, -s), Vec3(-s, -s, s), Vec3(-s, s, s), Vec3(-s, s, -s) ]
  }

  /** The `faceNormals` table. */
  const FACE_NORMALS: seq<Vec3> := [
    Vec3(0.0, 0.0, 1.0), Vec3(0.0, 0.0, -1.0),
    Vec3(0.0, 1.0, 0.0), Vec3(0.0, -1.0, 0.0),
    Vec3(1.0, 0.0, 0.0), Vec3(-1.0, 0.0, 0.0)]

  /** The `faceIndices` table. */
  const FACE_INDICES: seq<seq<nat>> := [
    [0, 1, 2, 0, 2, 3],
    [4, 5, 6, 4, 6, 7],
    [8, 9, 10, 8, 10, 11],
    [12, 13, 14, 12, 14, 15],
    [16, 17, 18, 16, 18, 19],
    [20, 21, 22, 20, 22, 23]]

  /** `push(...v)` for each vector of `vs` in turn. */
  function Flatten(vs: seq<Vec3>): (s: seq<real>)
    ensures |s| == 3 * |vs|
  {
    if |vs| == 0 then [] else Flatten(vs[..|vs| - 1]) + Flat(vs[|vs| - 1])
  }

  /** `push(...row)` for each row of `rows` in turn. */
  function Join(rows: seq<seq<nat>>): seq<nat> {
    if |rows| == 0 then [] else Join(rows[..|rows| - 1]) + rows[|rows| - 1]
  }

  /** One normal per vertex: face k's normal for each of its four vertices. */
  function PerVertex(faceNormals: seq<Vec3>): (ns: seq<Vec3>)
    ensures |ns| == 4 * |faceNormals|
  {
    seq(4 * |faceNormals|, n requires 0 <= n < 4 * |faceNormals| => faceNormals[n / 4])
  }

  /** The normal buffer's vectors. */
  function CubeNormals(): (ns: seq<Vec3>)
    ensures |ns| == 24
  {
    PerVertex(FACE_NORMALS)
  }

  function CubeMesh(size: real): Mesh {
    Mesh(Flatten(CubeVertices(size / 2.0)), Flatten(CubeNormals()), Join(FACE_INDICES))
  }

  /** `createCube(size)`. */
  method CreateCube(size: real) returns (m: Mesh)
    ensures m == CubeMesh(size)
  {
    var positions, normals, indices := PushFaces(CubeVertices(size / 2.0), FACE_NORMALS, FACE_INDICES);
    m := Mesh(positions, normals, indices);
  }

  /** The loop of `createCube` over the six faces of the three tables. */
  method PushFaces(vertices: seq<Vec3>, faceNormals: seq<Vec3>, faceIndices: seq<seq<nat>>)
    returns (positions: seq<real>, normals: seq<real>, indices: seq<nat>)
    requires |vertices| == 24 && |faceNormals| == 6 && |faceIndices| == 6
    ensures positions == Flatten(vertices)
    ensures normals == Flatten(PerVertex(faceNormals))
    ensures indices == Join(faceIndices)
  {
    positions, normals, indices := [], [], [];
    for i := 0 to 6
      invariant positions == Flatten(vertices[..4 * i])
      invariant normals == Flatten(PerVertex(faceNormals)[..4 * i])
      invariant indices == Join(faceIndices[..i])
    {
      var normal := faceNormals[i];
      var faceVertices := vertices[i * 4 .. (i + 1) * 4];
      var indicesForFace := faceIndices[i];
      positions, normals := PushFace(positions, normals, faceVertices, normal);
      FaceSlices(vertices, faceNormals, i);
      assert faceIndices[..i + 1][..i] == faceIndices[..i];
      indices := indices + indicesForFace;
    }
    WholeTables(vertices, faceNormals, faceIndices);
  }

  /** After the sixth face every table has been read to its end. */
  lemma WholeTables(vertices: seq<Vec3>, faceNormals: seq<Vec3>, faceIndices: seq<seq<nat>>)
    requires |vertices| == 24 && |faceNormals| == 6 && |faceIndices| == 6
    ensures vertices[..4 * 6] == vertices
    ensures PerVertex(faceNormals)[..4 * 6] == PerVertex(faceNormals)
    ensures faceIndices[..6] == faceIndices
  {
  }

  /** The `forEach` over a face's vertices: each vertex, each time with the face normal. */
  method PushFace(positions: seq<real>, normals: seq<real>, faceVertices: seq<Vec3>, normal: Vec3)
    returns (positions': seq<real>, normals': seq<real>)
    ensures positions' == positions + Flatten(faceVertices)
    ensures normals' == normals + Flatten(seq(|faceVertices|, _ => normal))
  {
    positions', normals' := positions, normals;
    for j := 0 to |faceVertices|
      invariant positions' == positions + Flatten(faceVertices[..j])
      invariant normals' == normals + Flatten(seq(j, _ => normal))
    {
      var vertex := faceVertices[j];
      FlattenSnoc(faceVertices, j);
      assert seq(j + 1, _ => normal) == seq(j, _ => normal) + [normal];
      positions' := positions' + [vertex.x, vertex.y, vertex.z];
      normals' := normals' + [normal.x, normal.y, normal.z];
    }
    assert faceVertices[..|faceVertices|] == faceVertices;
  }

  /** One more pushed vector extends the flattened prefix by its coordinates. */
  lemma FlattenSnoc(vs: seq<Vec3>, n: nat)
    requires n < |vs|
    ensures Flatten(vs[..n + 1]) == Flatten(vs[..n]) + Flat(vs[n])
  {
    assert vs[..n + 1][..n] == vs[..n];
  }

  /** Flattening distributes over concatenation. */
  lemma {:induction false} FlattenAppend(a: seq<Vec3>, b: seq<Vec3>)
    ensures Flatten(a + b) == Flatten(a) + Flatten(b)
  {
    if |b| > 0 {
      var init := b[..|b| - 1];
      assert (a + b)[..|a + b| - 1] == a + init;
      FlattenAppend(a, init);
    } else {
      assert a + b == a;
    }
  }

  /** Pushing face i after faces 0 .. i - 1 gives faces 0 .. i. */
  lemma FaceSlices(vertices: seq<Vec3>, faceNormals: seq<Vec3>, i: nat)
    requires |vertices| == 4 * |faceNormals| && i < |faceNormals|
    ensures Flatten(vertices[..4 * i]) + Flatten(vertices[i * 4 .. (i + 1) * 4]) == Flatten(vertices[..4 * (i + 1)])
    ensures Flatten(PerVertex(faceNormals)[..4 * i]) + Flatten(seq(4, _ => faceNormals[i]))
         == Flatten(PerVertex(faceNormals)[..4 * (i + 1)])
  {
    assert vertices[..4 * (i + 1)] == vertices[..4 * i] + vertices[i * 4 .. (i + 1) * 4];
    FlattenAppend(vertices[..4 * i], vertices[i * 4 .. (i + 1) * 4]);
    var ns := PerVertex(faceNormals);
    forall n | 4 * i <= n < 4 * (i + 1)
      ensures ns[n] == faceNormals[i]
    {
      assert n / 4 == i;
    }
    assert ns[..4 * (i + 1)] == ns[..4 * i] + seq(4, _ => faceNormals[i]);
    FlattenAppend(ns[..4 * i], seq(4, _ => faceNormals[i]));
  }

  /** Vertex k of a flattened buffer is the k-th vector. */
  lemma {:induction false} FlattenAt(vs: seq<Vec3>, k: nat)
    requires k < |vs|
    ensures 3 * k + 3 <= |Flatten(vs)| && VecAt(Flatten(vs), k) == vs[k]
  {
    var init := vs[..|vs| - 1];
    VecAtAppend(Flatten(init), Flat(vs[|vs| - 1]), k);
    if k < |vs| - 1 {
      FlattenAt(init, k);
    }
  }

  /** Rows of six entries each: row k of the join sits at entries 6k .. 6k + 5. */
  lemma {:induction false} JoinAt(rows: seq<seq<nat>>, k: nat)
    requires forall r :: 0 <= r < |rows| ==> |rows[r]| == 6
    requires k < |rows|
    ensures |Join(rows)| == 6 * |rows|
    ensures Join(rows)[6 * k .. 6 * k + 6] == rows[k]
  {
    var init := rows[..|rows| - 1];
    JoinLength(init);
    if k < |rows| - 1 {
      JoinAt(init, k);
      assert Join(rows)[6 * k .. 6 * k + 6] == Join(init)[6 * k .. 6 * k + 6];
    } else {
      assert Join(rows)[6 * k .. 6 * k + 6] == rows[|rows| - 1];
    }
  }

  lemma {:induction false} JoinLength(rows: seq<seq<nat>>)
    requires forall r :: 0 <= r < |rows| ==> |rows[r]| == 6
    ensures |Join(rows)| == 6 * |rows|
  {
    if |rows| > 0 {
      JoinLength(rows[..|rows| - 1]);
    }
  }

  /** Face k's index row is (4k, 4k + 1, 4k + 2, 4k, 4k + 2, 4k + 3): two
      triangles over the face's own four vertices. */
  lemma FaceIndicesRow(k: nat)
    requires k < 6
    ensures FACE_INDICES[k] == [4 * k, 4 * k + 1, 4 * k + 2, 4 * k, 4 * k + 2, 4 * k + 3]
  {
  }

  /** 24 vertices, 12 triangles, every index below 24. */
  lemma CubeWellFormed(size: real)
    ensures var m := CubeMesh(size);
      WellFormed(m) && VertexCount(m) == 24 && |m.indices| == 36
  {
    JoinLength(FACE_INDICES);
    CubeIndicesBound();
    WellFormedOf(CubeMesh(size), 24, 12);
  }

  /** Every entry of the joined index table is below 24. */
  lemma CubeIndicesBound()
    ensures forall n :: 0 <= n < |Join(FACE_INDICES)| ==> Join(FACE_INDICES)[n] < 24
  {
    JoinLength(FACE_INDICES);
    forall n | 0 <= n < 36
      ensures Join(FACE_INDICES)[n] < 24
    {
      var k := n / 6;
      JoinAt(FACE_INDICES, k);
      FaceIndicesRow(k);
      assert Join(FACE_INDICES)[n] == FACE_INDICES[k][n - 6 * k];
    }
  }

  /** Face k: its six indices are the face's index row, all within
      [4k, 4k + 3], and its four vertices carry `faceNormals[k]`. */
  lemma CubeFace(size: real, k: nat, j: nat)
    requires k < 6 && j < 4
    ensures var m := CubeMesh(size);
      && 6 * k + 6 <= |m.indices|
      && m.indices[6 * k .. 6 * k + 6] == FACE_INDICES[k]
      && (forall n :: 6 * k <= n < 6 * k + 6 ==> 4 * k <= m.indices[n] <= 4 * k + 3)
      && 3 * (4 * k + j) + 3 <= |m.normals|
      && NormalAt(m, 4 * k + j) == FACE_NORMALS[k]
  {
    var m := CubeMesh(size);
    JoinAt(FACE_INDICES, k);
    FaceIndicesRow(k);
    forall n | 6 * k <= n < 6 * k + 6
      ensures 4 * k <= m.indices[n] <= 4 * k + 3
    {
      assert m.indices[n] == m.indices[6 * k .. 6 * k + 6][n - 6 * k];
    }
    FlattenAt(CubeNormals(), 4 * k + j);
    assert (4 * k + j) / 4 == k;
  }

  /** Corner j of face k in the table lies on the plane of that face:
      its dot product with the face normal is the half-extent. */
  lemma TableOnFace(s: real, k: nat, j: nat)
    requires k < 6 && j < 4
    ensures Dot(CubeVertices(s)[4 * k + j], FACE_NORMALS[k]) == s
  {
  }

  /** Every vertex of face k lies on the face's plane at distance size / 2
      along `faceNormals[k]`. */
  lemma CubeVertexOnFace(size: real, k: nat, j: nat)
    requires k < 6 && j < 4
    ensures var m := CubeMesh(size);
      3 * (4 * k + j) + 3 <= |m.positions| && Dot(PositionAt(m, 4 * k + j), FACE_NORMALS[k]) == size / 2.0
  {
    FlattenAt(CubeVertices(size / 2.0), 4 * k + j);
    TableOnFace(size / 2.0, k, j);
  }

  /** `createCube(2)`: the front face is the unit square at z = 1, corners
      in counter-clockwise order seen from +z. */
  lemma CubeOfSizeTwoFront()
    ensures var m := CubeMesh(2.0);
      && 12 <= |m.positions|
      && PositionAt(m, 0) == Vec3(-1.0, -1.0, 1.0)
      && PositionAt(m, 1) == Vec3(1.0, -1.0, 1.0)
      && PositionAt(m, 2) == Vec3(1.0, 1.0, 1.0)
      && PositionAt(m, 3) == Vec3(-1.0, 1.0, 1.0)
  {
    FlattenAt(CubeVertices(1.0), 0);
    FlattenAt(CubeVertices(1.0), 1);
    FlattenAt(CubeVertices(1.0), 2);
    FlattenAt(CubeVertices(1.0), 3);
  }
}
