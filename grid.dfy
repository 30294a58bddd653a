/** The row-by-row vertex grid and the two-triangles-per-cell stitch that the
    sphere, ellipsoid, hyperboloid, toroid and cylinder side share. A grid with
    M steps one way and N the other has (M + 1) x (N + 1) vertices, because
    the seam vertex is repeated at each wrap. */
module GridStitch {
  import opened Vectors
  import opened MeshCore

  // ---------------------------------------------------------------------------
  // Vertices

  /** The buffer filled by the inner loop of row i after n steps. */
  function RowFlat(at: (nat, nat) -> Vertex, a: Attribute, i: nat, n: nat): (s: seq<real>)
    ensures |s| == 3 * n
  {
    if n == 0 then [] else RowFlat(at, a, i, n - 1) + Flat(Attr(at(i, n - 1), a))
  }

  /** The buffer filled by `rows` complete rows of `cols` vertices each. */
  function GridFlat(at: (nat, nat) -> Vertex, a: Attribute, rows: nat, cols: nat): (s: seq<real>)
    ensures |s| == 3 * (rows * cols)
  {
    if rows == 0 then [] else GridFlat(at, a, rows - 1, cols) + RowFlat(at, a, rows - 1, cols)
  }

  /** Vertex j of a row is the point the generator computes for (i, j). */
  lemma {:induction false} RowFlatAt(at: (nat, nat) -> Vertex, a: Attribute, i: nat, n: nat, j: nat)
    requires j < n
    ensures VecAt(RowFlat(at, a, i, n), j) == Attr(at(i, j), a)
  {
    VecAtAppend(RowFlat(at, a, i, n - 1), Flat(Attr(at(i, n - 1), a)), j);
    if j < n - 1 {
      RowFlatAt(at, a, i, n - 1, j);
    }
  }

  /** Vertex i * cols + j of the grid is the point computed for (i, j). */
  lemma GridFlatAt(at: (nat, nat) -> Vertex, a: Attribute, rows: nat, cols: nat, i: nat, j: nat)
    requires i < rows && j < cols
    ensures 3 * (i * cols + j) + 3 <= |GridFlat(at, a, rows, cols)|
    ensures VecAt(GridFlat(at, a, rows, cols), i * cols + j) == Attr(at(i, j), a)
  {
    var prev, row := GridFlat(at, a, i, cols), RowFlat(at, a, i, cols);
    GridFlatPrefix(at, a, rows, cols, i + 1);
    VecAtSuffix(prev, row, i * cols, j);
    RowFlatAt(at, a, i, cols, j);
    VecAtPrefixOf(prev + row, GridFlat(at, a, rows, cols), i * cols + j);
  }

  /** The first r rows of a grid buffer are a prefix of any taller grid's. */
  lemma {:induction false} GridFlatPrefix(at: (nat, nat) -> Vertex, a: Attribute, rows: nat, cols: nat, r: nat)
    requires r <= rows
    ensures GridFlat(at, a, r, cols) <= GridFlat(at, a, rows, cols)
  {
    if r < rows {
      GridFlatPrefix(at, a, rows - 1, cols, r);
    }
  }

  /** The inner vertex loop of a generator: for j = 0 .. n - 1, push the
      position and the normal the loop body computes for (i, j). */
  method FillRow(positions: seq<real>, normals: seq<real>, at: (nat, nat) -> Vertex, i: nat, n: nat)
    returns (positions': seq<real>, normals': seq<real>)
    ensures positions' == positions + RowFlat(at, Position, i, n)
    ensures normals' == normals + RowFlat(at, Normal, i, n)
  {
    positions', normals' := positions, normals;
    for j: nat := 0 to n
      invariant positions' == positions + RowFlat(at, Position, i, j)
      invariant normals' == normals + RowFlat(at, Normal, i, j)
    {
      var v := at(i, j);
      positions' := positions' + [v.position.x, v.position.y, v.position.z];
      normals' := normals' + [v.normal.x, v.normal.y, v.normal.z];
    }
  }

  /** The nested vertex loops of the grid shapes: rows 0 .. rows - 1, each
      filled by the inner loop, in row-major order. */
  method FillGrid(at: (nat, nat) -> Vertex, rows: nat, cols: nat) returns (positions: seq<real>, normals: seq<real>)
    ensures positions == GridFlat(at, Position, rows, cols)
    ensures normals == GridFlat(at, Normal, rows, cols)
  {
    positions, normals := [], [];
    for i: nat := 0 to rows
      invariant positions == GridFlat(at, Position, i, cols)
      invariant normals == GridFlat(at, Normal, i, cols)
    {
      positions, normals := FillRow(positions, normals, at, i, cols);
    }
  }

  /** A fan's vertex buffer: the centre, then a ring of n vertices computed
      by the loop body for i = 0 .. n - 1 (row 0 of `ring`). */
  function FanFlat(center: Vertex, ring: (nat, nat) -> Vertex, a: Attribute, n: nat): (s: seq<real>)
    ensures |s| == 3 * (n + 1)
  {
    Flat(Attr(center, a)) + RowFlat(ring, a, 0, n)
  }

  /** Vertex 0 of a fan buffer is its centre and vertex 1 + i is ring vertex i. */
  lemma FanFlatAt(center: Vertex, ring: (nat, nat) -> Vertex, a: Attribute, n: nat, k: nat)
    requires k <= n
    ensures VecAt(FanFlat(center, ring, a, n), k) == if k == 0 then Attr(center, a) else Attr(ring(0, k - 1), a)
  {
    VecAtAppend(Flat(Attr(center, a)), RowFlat(ring, a, 0, n), k);
    if k > 0 {
      RowFlatAt(ring, a, 0, n, k - 1);
    }
  }

  /** Grid vertex (i, j) keeps its place when more buffers follow the grid. */
  lemma GridAtIn(at: (nat, nat) -> Vertex, a: Attribute, rows: nat, cols: nat, p: seq<real>, q: seq<real>, i: nat, j: nat)
    requires i < rows && j < cols
    ensures var s := GridFlat(at, a, rows, cols) + p + q;
      3 * (i * cols + j) + 3 <= |s| && VecAt(s, i * cols + j) == Attr(at(i, j), a)
  {
    var grid := GridFlat(at, a, rows, cols);
    GridFlatAt(at, a, rows, cols, i, j);
    assert grid <= grid + p + q;
    VecAtPrefixOf(grid, grid + p + q, i * cols + j);
  }

  /** The centre of a fan stored behind j whole vertices is vertex j of the buffer. */
  lemma FanCenterIn(pre: seq<real>, center: Vertex, ring: (nat, nat) -> Vertex, a: Attribute, n: nat, post: seq<real>, j: nat)
    requires |pre| == 3 * j
    ensures var s := pre + FanFlat(center, ring, a, n) + post;
      3 * j + 3 <= |s| && VecAt(s, j) == Attr(center, a)
  {
    var fan := FanFlat(center, ring, a, n);
    VecAtPrefix(pre + fan, post, j);
    VecAtSuffix(pre, fan, j, 0);
    FanFlatAt(center, ring, a, n, 0);
  }

  /** Ring vertex i of a fan stored behind j whole vertices is vertex j + 1 + i. */
  lemma FanRingIn(pre: seq<real>, center: Vertex, ring: (nat, nat) -> Vertex, a: Attribute, n: nat, post: seq<real>, j: nat, i: nat)
    requires |pre| == 3 * j && i < n
    ensures var s := pre + FanFlat(center, ring, a, n) + post;
      3 * (j + 1 + i) + 3 <= |s| && VecAt(s, j + 1 + i) == Attr(ring(0, i), a)
  {
    var fan := FanFlat(center, ring, a, n);
    VecAtPrefix(pre + fan, post, j + 1 + i);
    VecAtSuffix(pre, fan, j, 1 + i);
    FanFlatAt(center, ring, a, n, 1 + i);
  }

  /** The same two facts for a fan that starts the buffer. */
  lemma FanAtStart(center: Vertex, ring: (nat, nat) -> Vertex, a: Attribute, n: nat, post: seq<real>, i: nat)
    requires i < n
    ensures var s := FanFlat(center, ring, a, n) + post;
      && 3 * (1 + i) + 3 <= |s|
      && VecAt(s, 0) == Attr(center, a)
      && VecAt(s, 1 + i) == Attr(ring(0, i), a)
  {
    var fan := FanFlat(center, ring, a, n);
    VecAtPrefix(fan, post, 0);
    VecAtPrefix(fan, post, 1 + i);
    FanFlatAt(center, ring, a, n, 0);
    FanFlatAt(center, ring, a, n, 1 + i);
  }

  /** The same two facts for a fan that ends the buffer. */
  lemma FanAtEnd(pre: seq<real>, center: Vertex, ring: (nat, nat) -> Vertex, a: Attribute, n: nat, j: nat, i: nat)
    requires |pre| == 3 * j && i < n
    ensures var s := pre + FanFlat(center, ring, a, n);
      && 3 * (j + 1 + i) + 3 <= |s|
      && VecAt(s, j) == Attr(center, a)
      && VecAt(s, j + 1 + i) == Attr(ring(0, i), a)
  {
    var fan := FanFlat(center, ring, a, n);
    VecAtSuffix(pre, fan, j, 0);
    VecAtSuffix(pre, fan, j, 1 + i);
    FanFlatAt(center, ring, a, n, 0);
    FanFlatAt(center, ring, a, n, 1 + i);
  }

  /** A cap of the cone or the cylinder: push the centre, then the ring. */
  method FillFan(positions: seq<real>, normals: seq<real>, center: Vertex, ring: (nat, nat) -> Vertex, n: nat)
    returns (positions': seq<real>, normals': seq<real>)
    ensures positions' == positions + FanFlat(center, ring, Position, n)
    ensures normals' == normals + FanFlat(center, ring, Normal, n)
  {
    positions' := positions + [center.position.x, center.position.y, center.position.z];
    normals' := normals + [center.normal.x, center.normal.y, center.normal.z];
    positions', normals' := FillRow(positions', normals', ring, 0, n);
  }

  lemma MulSucc(x: nat, z: nat)
    ensures (x + 1) * z == x * z + z
  {
  }

  lemma MulMonotone(x: nat, y: nat, z: nat)
    requires x <= y
    ensures x * z <= y * z
  {
  }

  // ---------------------------------------------------------------------------
  // Indices

  /** The six indices pushed for cell (i, j): `first = i * (N + 1) + j`,
      `second = first + N + 1`, then triangles (first, second, first + 1)
      and (second, second + 1, first + 1). */
  function Cell(N: nat, i: nat, j: nat): seq<nat> {
    var first := i * (N + 1) + j;
    var second := first + N + 1;
    [first, second, first + 1, second, second + 1, first + 1]
  }

  /** The indices pushed by the inner loop of row i after n cells. */
  function RowIndices(N: nat, i: nat, n: nat): (s: seq<nat>)
    ensures |s| == 6 * n
  {
    if n == 0 then [] else RowIndices(N, i, n - 1) + Cell(N, i, n - 1)
  }

  /** The indices pushed for M rows of N cells, in row-major order. */
  function GridIndices(M: nat, N: nat): (s: seq<nat>)
    ensures |s| == 6 * (M * N)
  {
    if M == 0 then [] else GridIndices(M - 1, N) + RowIndices(N, M - 1, N)
  }

  /** Cell j of row i sits at entries 6j .. 6j + 5 of the row. */
  lemma {:induction false} RowIndicesAt(N: nat, i: nat, n: nat, j: nat)
    requires j < n
    ensures RowIndices(N, i, n)[6 * j .. 6 * j + 6] == Cell(N, i, j)
  {
    var prev := RowIndices(N, i, n - 1);
    if j < n - 1 {
      RowIndicesAt(N, i, n - 1, j);
      assert RowIndices(N, i, n)[6 * j .. 6 * j + 6] == prev[6 * j .. 6 * j + 6];
    } else {
      assert RowIndices(N, i, n)[6 * j .. 6 * j + 6] == Cell(N, i, n - 1);
    }
  }

  /** Cells are visited in row-major order: cell (i, j) is at entries
      6(iN + j) .. 6(iN + j) + 5. */
  lemma GridIndicesCell(M: nat, N: nat, i: nat, j: nat)
    requires i < M && j < N
    ensures 6 * (i * N + j) + 6 <= |GridIndices(M, N)|
    ensures GridIndices(M, N)[6 * (i * N + j) .. 6 * (i * N + j) + 6] == Cell(N, i, j)
  {
    GridIndicesPrefix(M, N, i + 1);
    LastRowCell(i, N, j);
    SixInPrefix(GridIndices(i + 1, N), GridIndices(M, N), 6 * (i * N + j));
  }

  /** The first r rows of the stitch are a prefix of any longer stitch. */
  lemma {:induction false} GridIndicesPrefix(M: nat, N: nat, r: nat)
    requires r <= M
    ensures GridIndices(r, N) <= GridIndices(M, N)
  {
    if r < M {
      GridIndicesPrefix(M - 1, N, r);
    }
  }

  /** Cell j of the last row of i + 1 rows comes right after the first i rows. */
  lemma LastRowCell(i: nat, N: nat, j: nat)
    requires j < N
    ensures 6 * (i * N + j) + 6 <= |GridIndices(i + 1, N)|
    ensures GridIndices(i + 1, N)[6 * (i * N + j) .. 6 * (i * N + j) + 6] == Cell(N, i, j)
  {
    var prev, row := GridIndices(i, N), RowIndices(N, i, N);
    MulSucc(i, N);
    RowIndicesAt(N, i, N, j);
    SixInSuffix(prev, row, 6 * j);
    assert |prev| + 6 * j == 6 * (i * N + j);
  }

  /** Six entries inside a prefix of a sequence. */
  lemma SixInPrefix(p: seq<nat>, s: seq<nat>, k: nat)
    requires p <= s && k + 6 <= |p|
    ensures s[k .. k + 6] == p[k .. k + 6]
  {
  }

  /** Six entries inside the second part of a concatenation. */
  lemma SixInSuffix(s: seq<nat>, t: seq<nat>, k: nat)
    requires k + 6 <= |t|
    ensures (s + t)[|s| + k .. |s| + k + 6] == t[k .. k + 6]
  {
  }

  /** Every index of cell (i, j) with i < M, j < N names one of the
      (M + 1)(N + 1) grid vertices. */
  lemma CellBound(M: nat, N: nat, i: nat, j: nat)
    requires i < M && j < N
    ensures forall k :: 0 <= k < 6 ==> Cell(N, i, j)[k] < (M + 1) * (N + 1)
  {
    var first := i * (N + 1) + j;
    assert first + N + 2 <= (i + 1) * (N + 1) + N;
    assert (i + 1) * (N + 1) <= M * (N + 1) by {
      MulMonotone(i + 1, M, N + 1);
    }
  }

  /** Every index the stitch emits is below (M + 1)(N + 1). */
  lemma {:induction false} GridIndicesBound(M: nat, N: nat)
    ensures forall k :: 0 <= k < |GridIndices(M, N)| ==> GridIndices(M, N)[k] < (M + 1) * (N + 1)
  {
    if M > 0 {
      var prev, row, hi := GridIndices(M - 1, N), RowIndices(N, M - 1, N), (M + 1) * (N + 1);
      GridIndicesBound(M - 1, N);
      MulMonotone(M, M + 1, N + 1);
      assert forall k :: 0 <= k < |prev| ==> prev[k] < hi;
      RowIndicesBound(M, N, M - 1, N);
      AppendBelow(prev, row, hi);
    }
  }

  lemma {:induction false} RowIndicesBound(M: nat, N: nat, i: nat, n: nat)
    requires i < M && n <= N
    ensures forall k :: 0 <= k < |RowIndices(N, i, n)| ==> RowIndices(N, i, n)[k] < (M + 1) * (N + 1)
  {
    if n > 0 {
      RowIndicesBound(M, N, i, n - 1);
      CellBound(M, N, i, n - 1);
      var prev := RowIndices(N, i, n - 1);
      forall k | 0 <= k < |RowIndices(N, i, n)|
        ensures RowIndices(N, i, n)[k] < (M + 1) * (N + 1)
      {
        if k >= |prev| {
          assert RowIndices(N, i, n)[k] == Cell(N, i, n - 1)[k - |prev|];
        }
      }
    }
  }

  /** The two triangles of a cell share the diagonal (second, first + 1) and
      traverse it in opposite directions, so they have the same winding. */
  lemma CellDiagonal(N: nat, i: nat, j: nat)
    ensures var c := Cell(N, i, j);
      c[1] == c[3] && c[2] == c[5] && c[0] + N + 1 == c[1] && c[4] == c[1] + 1
  {
  }

  /** The index loops shared by the grid shapes (visual/shapes.js:220-227 and
      the copies at 153-161, 251-258, 287-294, 327-334). */
  method StitchGrid(M: nat, N: nat) returns (indices: seq<nat>)
    ensures indices == GridIndices(M, N)
  {
    indices := [];
    for i := 0 to M
      invariant indices == GridIndices(i, N)
    {
      for j := 0 to N
        invariant indices == GridIndices(i, N) + RowIndices(N, i, j)
      {
        var first := i * (N + 1) + j;
        var second := first + N + 1;
        indices := indices + [first, second, first + 1];
        indices := indices + [second, second + 1, first + 1];
      }
    }
  }

  // ---------------------------------------------------------------------------
  // The whole grid mesh

  /** The mesh of a grid shape whose vertex (i, j) is `at(i, j)`: M + 1 rows of
      N + 1 vertices, then M x N stitched cells. */
  function GridMesh(at: (nat, nat) -> Vertex, M: nat, N: nat): Mesh {
    Mesh(GridFlat(at, Position, M + 1, N + 1), GridFlat(at, Normal, M + 1, N + 1), GridIndices(M, N))
  }

  /** The vertex loop and then the index loop shared by the sphere,
      ellipsoid, hyperboloid and toroid generators. */
  method BuildGrid(at: (nat, nat) -> Vertex, M: nat, N: nat) returns (m: Mesh)
    ensures m == GridMesh(at, M, N)
  {
    var positions, normals := FillGrid(at, M + 1, N + 1);
    var indices := StitchGrid(M, N);
    m := Mesh(positions, normals, indices);
  }

  /** A grid mesh has (M + 1)(N + 1) vertices and 2MN triangles, and every
      index names one of its vertices. */
  lemma GridMeshShape(at: (nat, nat) -> Vertex, M: nat, N: nat)
    ensures |GridMesh(at, M, N).positions| == 3 * ((M + 1) * (N + 1))
    ensures |GridMesh(at, M, N).indices| == 6 * (M * N)
    ensures VertexCount(GridMesh(at, M, N)) == (M + 1) * (N + 1)
    ensures WellFormed(GridMesh(at, M, N))
  {
    GridIndicesBound(M, N);
    WellFormedOf(GridMesh(at, M, N), (M + 1) * (N + 1), 2 * (M * N));
  }

  /** Index of grid vertex (i, j) when rows hold N + 1 vertices. */
  function VertexIndex(N: nat, i: nat, j: nat): nat {
    i * (N + 1) + j
  }

  /** Vertex (i, j) of a grid mesh, the point the generator computes for row
      i and column j, is stored at index i(N + 1) + j. */
  lemma GridMeshVertex(at: (nat, nat) -> Vertex, M: nat, N: nat, i: nat, j: nat)
    requires i <= M && j <= N
    ensures var m, k := GridMesh(at, M, N), VertexIndex(N, i, j);
      3 * k + 3 <= |m.positions| && 3 * k + 3 <= |m.normals|
      && PositionAt(m, k) == at(i, j).position && NormalAt(m, k) == at(i, j).normal
  {
    GridFlatAt(at, Position, M + 1, N + 1, i, j);
    GridFlatAt(at, Normal, M + 1, N + 1, i, j);
  }

  /** Two point functions that agree everywhere give the same grid mesh. */
  lemma GridMeshPointwise(at: (nat, nat) -> Vertex, at': (nat, nat) -> Vertex, M: nat, N: nat)
    requires forall i: nat, j: nat :: at(i, j) == at'(i, j)
    ensures GridMesh(at, M, N) == GridMesh(at', M, N)
  {
    GridFlatPointwise(at, at', Position, M + 1, N + 1);
    GridFlatPointwise(at, at', Normal, M + 1, N + 1);
  }

  lemma {:induction false} GridFlatPointwise(at: (nat, nat) -> Vertex, at': (nat, nat) -> Vertex, a: Attribute, rows: nat, cols: nat)
    requires forall i: nat, j: nat :: at(i, j) == at'(i, j)
    ensures GridFlat(at, a, rows, cols) == GridFlat(at', a, rows, cols)
  {
    if rows > 0 {
      GridFlatPointwise(at, at', a, rows - 1, cols);
      RowFlatPointwise(at, at', a, rows - 1, cols);
    }
  }

  lemma {:induction false} RowFlatPointwise(at: (nat, nat) -> Vertex, at': (nat, nat) -> Vertex, a: Attribute, i: nat, n: nat)
    requires forall i: nat, j: nat :: at(i, j) == at'(i, j)
    ensures RowFlat(at, a, i, n) == RowFlat(at', a, i, n)
  {
    if n > 0 {
      RowFlatPointwise(at, at', a, i, n - 1);
    }
  }
}
