/** The `{ positions, normals, indices }` layout shared by every generator in
    visual/shapes.js: flat coordinate buffers, three numbers per vertex, and a
    flat index buffer, three indices per triangle. */
module MeshCore {
  import opened Vectors

  /** One vertex as a generator emits it. */
  datatype Vertex = Vertex(position: Vec3, normal: Vec3)

  /** Which of a vertex's two vectors a buffer holds. */
  datatype Attribute = Position | Normal

  function Attr(v: Vertex, a: Attribute): Vec3 {
    match a
    case Position => v.position
    case Normal => v.normal
  }

  /** The object a generator returns. */
  datatype Mesh = Mesh(positions: seq<real>, normals: seq<real>, indices: seq<nat>)

  /** `push(x, y, z)` of one vector. */
  function Flat(v: Vec3): seq<real> {
    [v.x, v.y, v.z]
  }

  /** Entries 3k, 3k + 1 and 3k + 2 of a flat buffer, read as vertex k. */
  function VecAt(s: seq<real>, k: nat): Vec3
    requires 3 * k + 3 <= |s|
  {
    Vec3(s[3 * k], s[3 * k + 1], s[3 * k + 2])
  }

  /** Appending to a buffer keeps the vertices already there and shifts the new ones. */
  lemma VecAtAppend(s: seq<real>, t: seq<real>, k: nat)
    requires |s| % 3 == 0
    ensures 3 * k + 3 <= |s| ==> VecAt(s + t, k) == VecAt(s, k)
    ensures |s| <= 3 * k && 3 * k + 3 <= |s| + |t| ==> VecAt(s + t, k) == VecAt(t, k - |s| / 3)
  {
  }

  /** The number of vertices the position buffer describes (`positions.length / 3`). */
  function VertexCount(m: Mesh): nat {
    |m.positions| / 3
  }

  /** What the renderer needs of a mesh: whole vertices, one normal per
      position, whole triangles, and every index naming a vertex. */
  predicate WellFormed(m: Mesh) {
    && |m.positions| % 3 == 0
    && |m.normals| == |m.positions|
    && |m.indices| % 3 == 0
    && forall k :: 0 <= k < |m.indices| ==> m.indices[k] < VertexCount(m)
  }

  /** Vertex k of a prefix is vertex k of the whole buffer. */
  lemma VecAtPrefix(s: seq<real>, t: seq<real>, k: nat)
    requires 3 * k + 3 <= |s|
    ensures VecAt(s + t, k) == VecAt(s, k)
  {
  }

  /** A vertex inside a prefix of a buffer is the buffer's vertex. */
  lemma VecAtPrefixOf(p: seq<real>, s: seq<real>, k: nat)
    requires p <= s && 3 * k + 3 <= |p|
    ensures VecAt(s, k) == VecAt(p, k)
  {
  }

  /** Behind a prefix of j whole vertices, vertex k of the rest is vertex j + k. */
  lemma VecAtSuffix(s: seq<real>, t: seq<real>, j: nat, k: nat)
    requires |s| == 3 * j && 3 * k + 3 <= |t|
    ensures VecAt(s + t, j + k) == VecAt(t, k)
  {
  }

  /** `length / 3` of a buffer of n whole vertices is n. */
  lemma ThirdOf(s: seq<real>, n: nat)
    requires |s| == 3 * n
    ensures |s| / 3 == n
  {
  }

  /** A mesh of n vertices and t triangles whose indices are all below n is well formed. */
  lemma WellFormedOf(m: Mesh, n: nat, t: nat)
    requires |m.positions| == 3 * n && |m.normals| == |m.positions| && |m.indices| == 3 * t
    requires forall k :: 0 <= k < |m.indices| ==> m.indices[k] < n
    ensures WellFormed(m) && VertexCount(m) == n
  {
  }

  /** Position of vertex k. */
  function PositionAt(m: Mesh, k: nat): Vec3
    requires 3 * k + 3 <= |m.positions|
  {
    VecAt(m.positions, k)
  }

  /** Normal of vertex k. */
  function NormalAt(m: Mesh, k: nat): Vec3
    requires 3 * k + 3 <= |m.normals|
  {
    VecAt(m.normals, k)
  }

  /** Whether some triangle of the index buffer uses vertex v. */
  predicate References(m: Mesh, v: nat) {
    v in m.indices
  }

  // ---------------------------------------------------------------------------
  // Triangle lists

  /** One `indices.push(a, b, c)`. */
  datatype Triangle = Triangle(a: nat, b: nat, c: nat)

  function Corners(t: Triangle): seq<nat> {
    [t.a, t.b, t.c]
  }

  predicate Touches(t: Triangle, v: nat) {
    t.a == v || t.b == v || t.c == v
  }

  predicate Within(t: Triangle, lo: nat, hi: nat) {
    lo <= t.a < hi && lo <= t.b < hi && lo <= t.c < hi
  }

  /** The indices pushed by a loop that emits `tri(0)`, ..., `tri(n - 1)`. */
  function TriangleList(tri: nat -> Triangle, n: nat): (s: seq<nat>)
    ensures |s| == 3 * n
  {
    if n == 0 then [] else TriangleList(tri, n - 1) + Corners(tri(n - 1))
  }

  /** Triangle i of the list sits at entries 3i, 3i + 1, 3i + 2. */
  lemma {:induction false} TriangleListAt(tri: nat -> Triangle, n: nat, i: nat)
    requires i < n
    ensures TriangleList(tri, n)[3 * i] == tri(i).a
    ensures TriangleList(tri, n)[3 * i + 1] == tri(i).b
    ensures TriangleList(tri, n)[3 * i + 2] == tri(i).c
  {
    if i < n - 1 {
      TriangleListAt(tri, n - 1, i);
    }
  }

  /** When every triangle lies in [lo, hi), so does every index of the list. */
  lemma {:induction false} TriangleListWithin(tri: nat -> Triangle, n: nat, lo: nat, hi: nat)
    requires forall i :: 0 <= i < n ==> Within(tri(i), lo, hi)
    ensures forall k :: 0 <= k < |TriangleList(tri, n)| ==> lo <= TriangleList(tri, n)[k] < hi
  {
    if n > 0 {
      TriangleListWithin(tri, n - 1, lo, hi);
      assert Within(tri(n - 1), lo, hi);
    }
  }

  /** When no triangle uses v, v is not in the list. */
  lemma {:induction false} TriangleListAvoids(tri: nat -> Triangle, n: nat, v: nat)
    requires forall i :: 0 <= i < n ==> !Touches(tri(i), v)
    ensures v !in TriangleList(tri, n)
  {
    if n > 0 {
      TriangleListAvoids(tri, n - 1, v);
      assert !Touches(tri(n - 1), v);
    }
  }

  /** Two index buffers below a bound concatenate to one below it. */
  lemma AppendBelow(s: seq<nat>, t: seq<nat>, hi: nat)
    requires forall k :: 0 <= k < |s| ==> s[k] < hi
    requires forall k :: 0 <= k < |t| ==> t[k] < hi
    ensures forall k :: 0 <= k < |s + t| ==> (s + t)[k] < hi
  {
    forall k | 0 <= k < |s + t|
      ensures (s + t)[k] < hi
    {
      if k >= |s| {
        assert (s + t)[k] == t[k - |s|];
      }
    }
  }
}
