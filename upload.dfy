/** The index upload of main.js (`new Uint16Array(indices)`) under the
    slider ranges of utils/controlDisplay.js: every generator's indices
    survive the conversion to 16 bits unchanged. */
module IndexUpload {
  import opened JsMath
  import opened MeshCore
  import opened GridStitch
  import RoundShapes
  import ConeShape
  import CylinderShape
  import CubeShape

  /** The slider limits on the segment counts. */
  const COUNT_MIN: nat := 3
  const COUNT_MAX: nat := 100
  /** The cylinder's height segment slider starts lower. */
  const HEIGHT_SEGMENTS_MIN: nat := 1

  predicate InSlider(n: nat) {
    COUNT_MIN <= n <= COUNT_MAX
  }

  /** `Uint16Array` keeps an index modulo 2^16. */
  function ToUint16(k: nat): (r: nat)
    ensures r < 0x1_0000
  {
    k % 0x1_0000
  }

  /** Converting the index buffer to 16 bits changes no index. */
  predicate SurvivesUpload(m: Mesh) {
    forall k :: 0 <= k < |m.indices| ==> ToUint16(m.indices[k]) == m.indices[k]
  }

  /** A well-formed mesh of at most 2^16 vertices survives the upload. */
  lemma SmallMeshSurvives(m: Mesh)
    requires WellFormed(m) && VertexCount(m) <= 0x1_0000
    ensures SurvivesUpload(m)
  {
  }

  /** (M + 1)(N + 1) <= 101 * 101 when both counts are at most 100. */
  lemma GridCountBound(M: nat, N: nat)
    requires M <= COUNT_MAX && N <= COUNT_MAX
    ensures (M + 1) * (N + 1) <= 10201
  {
    MulMonotone(M + 1, 101, N + 1);
    MulMonotone(N + 1, 101, 101);
  }

  /** Every generator, with counts taken from the sliders, emits indices that
      fit the 16-bit index buffer; the largest mesh, the cylinder at 100 x 100
      segments, has 101 * 101 + 2 * 102 = 10405 vertices. */
  lemma SliderMeshesSurviveUpload(math: MathLib, r1: real, r2: real, r3: real, c: real, h: real, M: nat, N: nat, hs: nat)
    requires InSlider(M) && InSlider(N) && HEIGHT_SEGMENTS_MIN <= hs <= COUNT_MAX && c != 0.0
    ensures SurvivesUpload(RoundShapes.SphereMesh(math, r1, M, N))
    ensures SurvivesUpload(RoundShapes.EllipsoidMesh(math, r1, r2, r3, M, N))
    ensures SurvivesUpload(RoundShapes.HyperboloidMesh(math, r1, r2, c, h, M))
    ensures SurvivesUpload(RoundShapes.ToroidMesh(math, r1, r2, M, N))
    ensures SurvivesUpload(ConeShape.ConeMesh(math, r1, h, M))
    ensures SurvivesUpload(CylinderShape.CylinderMesh(math, r1, h, M, hs))
    ensures SurvivesUpload(CubeShape.CubeMesh(r1))
  {
    RoundShapes.RoundShapesWellFormed(math, r1, r2, r3, c, h, M, N);
    GridCountBound(M, N);
    GridCountBound(M, M);
    SmallMeshSurvives(RoundShapes.SphereMesh(math, r1, M, N));
    SmallMeshSurvives(RoundShapes.EllipsoidMesh(math, r1, r2, r3, M, N));
    SmallMeshSurvives(RoundShapes.HyperboloidMesh(math, r1, r2, c, h, M));
    SmallMeshSurvives(RoundShapes.ToroidMesh(math, r1, r2, M, N));
    ConeShape.ConeWellFormed(math, r1, h, M);
    SmallMeshSurvives(ConeShape.ConeMesh(math, r1, h, M));
    CylinderShape.CylinderWellFormed(math, r1, h, M, hs);
    GridCountBound(hs, M);
    SmallMeshSurvives(CylinderShape.CylinderMesh(math, r1, h, M, hs));
    CubeShape.CubeWellFormed(r1);
    SmallMeshSurvives(CubeShape.CubeMesh(r1));
  }
}
