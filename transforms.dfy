/** The 4x4 matrix part of the transform library (utils/helpers.js).
    A matrix is the 16-element array the source builds, read row-major:
    entry (row, col) is element `4 * row + col`. WebGL reads the same array
    column-major, so a point is transformed as a row vector times the
    matrix (`Transform` below). */
module Transforms {
  import opened JsMath
  import opened Vectors

  type Matrix4 = m: seq<real> | |m| == 16
    witness [0.0, 0.0, 0.0, 0.0, 0.0, 0.0, 0.0, 0.0, 0.0, 0.0, 0.0, 0.0, 0.0, 0.0, 0.0, 0.0]

  /** A homogeneous point `[x, y, z, w]`. */
  type Vec4 = p: seq<real> | |p| == 4 witness [0.0, 0.0, 0.0, 0.0]

  const IDENTITY: Matrix4 :=
    [1.0, 0.0, 0.0, 0.0, 0.0, 1.0, 0.0, 0.0, 0.0, 0.0, 1.0, 0.0, 0.0, 0.0, 0.0, 1.0]

  /** Entry (row, col) of `m`. */
  function At(m: Matrix4, row: nat, col: nat): real
    requires row < 4 && col < 4
  {
    m[4 * row + col]
  }

  /** Two matrices with the same entries are equal. */
  lemma MatrixExt(m1: Matrix4, m2: Matrix4)
    requires forall row, col :: row < 4 && col < 4 ==> At(m1, row, col) == At(m2, row, col)
    ensures m1 == m2
  {
    forall k | 0 <= k < 16
      ensures m1[k] == m2[k]
    {
      assert At(m1, k / 4, k % 4) == At(m2, k / 4, k % 4);
    }
  }

  /** Row `row` of `m`. */
  function Row(m: Matrix4, row: nat): Vec4
    requires row < 4
  {
    [m[4 * row], m[4 * row + 1], m[4 * row + 2], m[4 * row + 3]]
  }

  /** Column `col` of `m`. */
  function Column(m: Matrix4, col: nat): Vec4
    requires col < 4
  {
    [m[col], m[4 + col], m[8 + col], m[12 + col]]
  }

  function Dot4(p: Vec4, q: Vec4): real {
    p[0] * q[0] + p[1] * q[1] + p[2] * q[2] + p[3] * q[3]
  }

  /** The row vector `p` times `m`. */
  function Transform(p: Vec4, m: Matrix4): Vec4
  {
    [Dot4(p, Column(m, 0)), Dot4(p, Column(m, 1)), Dot4(p, Column(m, 2)), Dot4(p, Column(m, 3))]
  }

  /** `Transform` written out entry by entry. */
  lemma TransformExpanded(p: Vec4, m: Matrix4)
    ensures Transform(p, m) ==
      [p[0] * m[0] + p[1] * m[4] + p[2] * m[8] + p[3] * m[12],
       p[0] * m[1] + p[1] * m[5] + p[2] * m[9] + p[3] * m[13],
       p[0] * m[2] + p[1] * m[6] + p[2] * m[10] + p[3] * m[14],
       p[0] * m[3] + p[1] * m[7] + p[2] * m[11] + p[3] * m[15]]
  {
    assert Column(m, 0) == [m[0], m[4], m[8], m[12]];
    assert Column(m, 1) == [m[1], m[5], m[9], m[13]];
    assert Column(m, 2) == [m[2], m[6], m[10], m[14]];
    assert Column(m, 3) == [m[3], m[7], m[11], m[15]];
    var t := Transform(p, m);
    assert t == [Dot4(p, Column(m, 0)), Dot4(p, Column(m, 1)), Dot4(p, Column(m, 2)), Dot4(p, Column(m, 3))];
    assert t[0] == p[0] * m[0] + p[1] * m[4] + p[2] * m[8] + p[3] * m[12];
    assert t[1] == p[0] * m[1] + p[1] * m[5] + p[2] * m[9] + p[3] * m[13];
    assert t[2] == p[0] * m[2] + p[1] * m[6] + p[2] * m[10] + p[3] * m[14];
    assert t[3] == p[0] * m[3] + p[1] * m[7] + p[2] * m[11] + p[3] * m[15];
  }

  /** `m` times the column vector `q`. */
  function TransformColumn(m: Matrix4, q: Vec4): Vec4
  {
    [Dot4(Row(m, 0), q), Dot4(Row(m, 1), q), Dot4(Row(m, 2), q), Dot4(Row(m, 3), q)]
  }

  /** The transpose of `m`. */
  function Transpose(m: Matrix4): Matrix4
  {
    [m[0], m[4], m[8], m[12], m[1], m[5], m[9], m[13], m[2], m[6], m[10], m[14], m[3], m[7], m[11], m[15]]
  }

  lemma RowsConcat(m: Matrix4)
    ensures m == Row(m, 0) + Row(m, 1) + Row(m, 2) + Row(m, 3)
  {
    assert m == [m[0], m[1], m[2], m[3], m[4], m[5], m[6], m[7], m[8], m[9], m[10], m[11], m[12], m[13], m[14], m[15]];
  }

  /** Two matrices with the same rows are equal. */
  lemma RowsExt(m1: Matrix4, m2: Matrix4)
    requires Row(m1, 0) == Row(m2, 0) && Row(m1, 1) == Row(m2, 1)
    requires Row(m1, 2) == Row(m2, 2) && Row(m1, 3) == Row(m2, 3)
    ensures m1 == m2
  {
    RowsConcat(m1);
    RowsConcat(m2);
  }

  // ---------------------------------------------------------------------------
  // multiplyMatrices

  /** The row-major product: entry (row, col) is row `row` of `a` dotted with column `col` of `b`. */
  function Product(a: Matrix4, b: Matrix4): Matrix4
  {
    [Dot4(Row(a, 0), Column(b, 0)), Dot4(Row(a, 0), Column(b, 1)), Dot4(Row(a, 0), Column(b, 2)), Dot4(Row(a, 0), Column(b, 3)),
     Dot4(Row(a, 1), Column(b, 0)), Dot4(Row(a, 1), Column(b, 1)), Dot4(Row(a, 1), Column(b, 2)), Dot4(Row(a, 1), Column(b, 3)),
     Dot4(Row(a, 2), Column(b, 0)), Dot4(Row(a, 2), Column(b, 1)), Dot4(Row(a, 2), Column(b, 2)), Dot4(Row(a, 2), Column(b, 3)),
     Dot4(Row(a, 3), Column(b, 0)), Dot4(Row(a, 3), Column(b, 1)), Dot4(Row(a, 3), Column(b, 2)), Dot4(Row(a, 3), Column(b, 3))]
  }

  lemma ProductAt(a: Matrix4, b: Matrix4, row: nat, col: nat)
    requires row < 4 && col < 4
    ensures At(Product(a, b), row, col) == Dot4(Row(a, row), Column(b, col))
  {
    assert row == 0 || row == 1 || row == 2 || row == 3;
    assert col == 0 || col == 1 || col == 2 || col == 3;
  }

  /** The first `n` terms of the sum that `multiplyMatrices` accumulates into
      entry (row, col), added in increasing order. */
  function PartialSum(a: Matrix4, b: Matrix4, row: nat, col: nat, n: nat): real
    requires row < 4 && col < 4 && n <= 4
  {
    if n == 0 then 0.0
    else PartialSum(a, b, row, col, n - 1) + At(a, row, n - 1) * At(b, n - 1, col)
  }

  lemma PartialSumComplete(a: Matrix4, b: Matrix4, row: nat, col: nat)
    requires row < 4 && col < 4
    ensures PartialSum(a, b, row, col, 4) == Dot4(Row(a, row), Column(b, col))
  {
    assert PartialSum(a, b, row, col, 1) == At(a, row, 0) * At(b, 0, col);
    assert PartialSum(a, b, row, col, 2) == PartialSum(a, b, row, col, 1) + At(a, row, 1) * At(b, 1, col);
    assert PartialSum(a, b, row, col, 3) == PartialSum(a, b, row, col, 2) + At(a, row, 2) * At(b, 2, col);
  }

  /** `multiplyMatrices(a, b)`: a zero-filled 16-element array accumulates,
      in three nested loops, the row-major product of `a` and `b`; the
      arguments are values, so they are left unchanged. */
  method MultiplyMatrices(a: Matrix4, b: Matrix4) returns (r: Matrix4)
    ensures r == Product(a, b)
  {
    var result := new real[16](_ => 0.0);
    for row := 0 to 4
      invariant forall k :: 0 <= k < 4 * row ==> result[k] == Product(a, b)[k]
      invariant forall k :: 4 * row <= k < 16 ==> result[k] == 0.0
    {
      for col := 0 to 4
        invariant forall k :: 0 <= k < 4 * row + col ==> result[k] == Product(a, b)[k]
        invariant forall k :: 4 * row + col <= k < 16 ==> result[k] == 0.0
      {
        for i := 0 to 4
          invariant result[row * 4 + col] == PartialSum(a, b, row, col, i)
          invariant forall k :: 0 <= k < 4 * row + col ==> result[k] == Product(a, b)[k]
          invariant forall k :: 4 * row + col < k < 16 ==> result[k] == 0.0
        {
          result[row * 4 + col] := result[row * 4 + col] + a[row * 4 + i] * b[i * 4 + col];
        }
        PartialSumComplete(a, b, row, col);
        ProductAt(a, b, row, col);
      }
    }
    r := result[..];
  }

  /** Regrouping a sum of sixteen triple products: the scalar core of associativity. */
  lemma Regroup(p: Vec4, m: Matrix4, q: Vec4)
    ensures Dot4(Transform(p, m), q) == Dot4(p, TransformColumn(m, q))
  {
    Distribute(q[0], p[0] * m[0], p[1] * m[4], p[2] * m[8], p[3] * m[12]);
    Distribute(q[1], p[0] * m[1], p[1] * m[5], p[2] * m[9], p[3] * m[13]);
    Distribute(q[2], p[0] * m[2], p[1] * m[6], p[2] * m[10], p[3] * m[14]);
    Distribute(q[3], p[0] * m[3], p[1] * m[7], p[2] * m[11], p[3] * m[15]);
    Distribute(p[0], m[0] * q[0], m[1] * q[1], m[2] * q[2], m[3] * q[3]);
    Distribute(p[1], m[4] * q[0], m[5] * q[1], m[6] * q[2], m[7] * q[3]);
    Distribute(p[2], m[8] * q[0], m[9] * q[1], m[10] * q[2], m[11] * q[3]);
    Distribute(p[3], m[12] * q[0], m[13] * q[1], m[14] * q[2], m[15] * q[3]);
  }

  lemma Distribute(p: real, x0: real, x1: real, x2: real, x3: real)
    ensures p * (x0 + x1 + x2 + x3) == p * x0 + p * x1 + p * x2 + p * x3
    ensures (x0 + x1 + x2 + x3) * p == x0 * p + x1 * p + x2 * p + x3 * p
  {
  }

  lemma RowOfProduct(a: Matrix4, b: Matrix4, row: nat)
    requires row < 4
    ensures Row(Product(a, b), row) == Transform(Row(a, row), b)
  {
    assert row == 0 || row == 1 || row == 2 || row == 3;
  }

  lemma ColumnOfProduct(a: Matrix4, b: Matrix4, col: nat)
    requires col < 4
    ensures Column(Product(a, b), col) == TransformColumn(a, Column(b, col))
  {
    assert col == 0 || col == 1 || col == 2 || col == 3;
  }

  /** Transforming by a product applies the left operand first (row-vector convention). */
  lemma TransformProduct(p: Vec4, a: Matrix4, b: Matrix4)
    ensures Transform(p, Product(a, b)) == Transform(Transform(p, a), b)
  {
    forall col | 0 <= col < 4
      ensures Dot4(p, Column(Product(a, b), col)) == Dot4(Transform(p, a), Column(b, col))
    {
      ColumnOfProduct(a, b, col);
      Regroup(p, a, Column(b, col));
    }
  }

  /** `multiplyMatrices` is associative (over exact reals). */
  lemma ProductAssociative(a: Matrix4, b: Matrix4, c: Matrix4)
    ensures Product(Product(a, b), c) == Product(a, Product(b, c))
  {
    forall row, col | row < 4 && col < 4
      ensures At(Product(Product(a, b), c), row, col) == At(Product(a, Product(b, c)), row, col)
    {
      ProductAt(Product(a, b), c, row, col);
      ProductAt(a, Product(b, c), row, col);
      RowOfProduct(a, b, row);
      ColumnOfProduct(b, c, col);
      Regroup(Row(a, row), b, Column(c, col));
    }
    MatrixExt(Product(Product(a, b), c), Product(a, Product(b, c)));
  }

  // ---------------------------------------------------------------------------
  // makeTranslation

  /** `makeTranslation(tx, ty, tz)`: the translation sits in the last row. */
  function MakeTranslation(tx: real, ty: real, tz: real): (m: Matrix4)
    ensures Row(m, 3) == [tx, ty, tz, 1.0]
    ensures Row(m, 0) == [1.0, 0.0, 0.0, 0.0] && Row(m, 1) == [0.0, 1.0, 0.0, 0.0] && Row(m, 2) == [0.0, 0.0, 1.0, 0.0]
  {
    [1.0, 0.0, 0.0, 0.0, 0.0, 1.0, 0.0, 0.0, 0.0, 0.0, 1.0, 0.0, tx, ty, tz, 1.0]
  }

  /** A translation moves every point (w = 1) by its offset. */
  lemma TranslationMovesPoints(tx: real, ty: real, tz: real, p: Vec4)
    requires p[3] == 1.0
    ensures Transform(p, MakeTranslation(tx, ty, tz)) == [p[0] + tx, p[1] + ty, p[2] + tz, 1.0]
  {
    var m := MakeTranslation(tx, ty, tz);
    assert Dot4(p, Column(m, 0)) == p[0] + tx;
    assert Dot4(p, Column(m, 1)) == p[1] + ty;
    assert Dot4(p, Column(m, 2)) == p[2] + tz;
    assert Dot4(p, Column(m, 3)) == 1.0;
  }

  lemma TranslationByZero()
    ensures MakeTranslation(0.0, 0.0, 0.0) == IDENTITY
  {
  }

  /** Four-vectors with the same entries are equal. */
  lemma Vec4Ext(u: Vec4, v: Vec4)
    requires u[0] == v[0] && u[1] == v[1] && u[2] == v[2] && u[3] == v[3]
    ensures u == v
  {
    assert forall k | 0 <= k < 4 :: u[k] == v[k] by {
      forall k | 0 <= k < 4 ensures u[k] == v[k] {
        assert k == 0 || k == 1 || k == 2 || k == 3;
      }
    }
  }

  /** Multiplying by the identity on the right leaves a row vector unchanged. */
  lemma TransformIdentity(p: Vec4)
    ensures Transform(p, IDENTITY) == p
  {
    TransformExpanded(p, IDENTITY);
    Vec4Ext(Transform(p, IDENTITY), p);
  }

  /** The unit row vector e_row picks out row `row` of `m`. */
  lemma TransformUnit(m: Matrix4, row: nat)
    requires row < 4
    ensures Transform(Row(IDENTITY, row), m) == Row(m, row)
  {
    TransformExpanded(Row(IDENTITY, row), m);
    assert row == 0 || row == 1 || row == 2 || row == 3;
    Vec4Ext(Transform(Row(IDENTITY, row), m), Row(m, row));
  }

  /** The zero translation is a left and a right identity of `multiplyMatrices`. */
  lemma ProductIdentity(m: Matrix4)
    ensures Product(MakeTranslation(0.0, 0.0, 0.0), m) == m
    ensures Product(m, MakeTranslation(0.0, 0.0, 0.0)) == m
  {
    TranslationByZero();
    forall row | 0 <= row < 4
      ensures Row(Product(IDENTITY, m), row) == Row(m, row)
      ensures Row(Product(m, IDENTITY), row) == Row(m, row)
    {
      RowOfProduct(IDENTITY, m, row);
      TransformUnit(m, row);
      RowOfProduct(m, IDENTITY, row);
      TransformIdentity(Row(m, row));
    }
    RowsExt(Product(IDENTITY, m), m);
    RowsExt(Product(m, IDENTITY), m);
  }

  /** Translations compose by adding their offsets, so they commute. */
  lemma TranslationsCompose(a: Vec3, b: Vec3)
    ensures Product(MakeTranslation(a.x, a.y, a.z), MakeTranslation(b.x, b.y, b.z))
         == MakeTranslation(a.x + b.x, a.y + b.y, a.z + b.z)
    ensures Product(MakeTranslation(a.x, a.y, a.z), MakeTranslation(b.x, b.y, b.z))
         == Product(MakeTranslation(b.x, b.y, b.z), MakeTranslation(a.x, a.y, a.z))
  {
    var ta, tb := MakeTranslation(a.x, a.y, a.z), MakeTranslation(b.x, b.y, b.z);
    var tab := MakeTranslation(a.x + b.x, a.y + b.y, a.z + b.z);
    forall row | 0 <= row < 4
      ensures Row(Product(ta, tb), row) == Row(tab, row)
      ensures Row(Product(tb, ta), row) == Row(tab, row)
    {
      RowOfProduct(ta, tb, row);
      TransformExpanded(Row(ta, row), tb);
      RowOfProduct(tb, ta, row);
      TransformExpanded(Row(tb, row), ta);
      assert row == 0 || row == 1 || row == 2 || row == 3;
    }
    RowsExt(Product(ta, tb), tab);
    RowsExt(Product(tb, ta), tab);
  }

  // ---------------------------------------------------------------------------
  // makePerspective

  /** `makePerspective(fov, aspect, near, far)`, with `f = 1 / Math.tan(fov / 2)`. */
  function MakePerspective(math: MathLib, fov: real, aspect: real, near: real, far: real): (m: Matrix4)
    requires math.tan(fov / 2.0) != 0.0 && aspect != 0.0 && near != far
    ensures m[0] == (1.0 / math.tan(fov / 2.0)) / aspect && m[5] == 1.0 / math.tan(fov / 2.0)
    ensures m[10] == (far + near) / (near - far) && m[11] == -1.0
    ensures m[14] == 2.0 * far * near / (near - far)
    ensures forall k :: 0 <= k < 16 && k != 0 && k != 5 && k != 10 && k != 11 && k != 14 ==> m[k] == 0.0
  {
    var f := 1.0 / math.tan(fov / 2.0);
    var nf := 1.0 / (near - far);
    [f / aspect, 0.0, 0.0, 0.0, 0.0, f, 0.0, 0.0, 0.0, 0.0, (far + near) * nf, -1.0, 0.0, 0.0, 2.0 * far * near * nf, 0.0]
  }

  /** The projection's w is the distance in front of the eye, and depth maps
      the near plane to -1 and the far plane to +1 after the divide by w. */
  lemma PerspectiveDepthRange(math: MathLib, fov: real, aspect: real, near: real, far: real, p: Vec4)
    requires math.tan(fov / 2.0) != 0.0 && aspect != 0.0 && near != far
    ensures p[3] == 1.0 ==> Transform(p, MakePerspective(math, fov, aspect, near, far))[3] == -p[2]
    ensures p[2] == -near && p[3] == 1.0 ==>
      Transform(p, MakePerspective(math, fov, aspect, near, far))[2] == -near
    ensures p[2] == -far && p[3] == 1.0 ==>
      Transform(p, MakePerspective(math, fov, aspect, near, far))[2] == far
  {
    var m := MakePerspective(math, fov, aspect, near, far);
    var nf := 1.0 / (near - far);
    assert nf * (near - far) == 1.0;
    TransformExpanded(p, m);
    assert m[2] == 0.0 && m[6] == 0.0 && m[3] == 0.0 && m[7] == 0.0 && m[15] == 0.0;
    // Only z and w reach the depth entry: z' = z * m[10] + w * m[14].
    assert Transform(p, m)[2] == p[2] * ((far + near) * nf) + p[3] * (2.0 * far * near * nf);
    if p[2] == -near && p[3] == 1.0 {
      calc {
        Transform(p, m)[2];
        -near * ((far + near) * nf) + 2.0 * far * near * nf;
        near * nf * (far - near);
        -near * (nf * (near - far));
        -near;
      }
    }
    if p[2] == -far && p[3] == 1.0 {
      calc {
        Transform(p, m)[2];
        -far * ((far + near) * nf) + 2.0 * far * near * nf;
        far * (nf * (near - far));
        far;
      }
    }
  }

  // ---------------------------------------------------------------------------
  // makeLookAt

  /** The camera basis `(x, y, z)` of `makeLookAt`; `normalize` is a parameter. */
  function LookAtBasis(eye: Vec3, center: Vec3, up: Vec3, normalize: Vec3 -> Vec3): (basis: (Vec3, Vec3, Vec3))
    ensures Dot(basis.1, basis.0) == 0.0 && Dot(basis.1, basis.2) == 0.0
  {
    var z := normalize(Subtract(eye, center));
    var x := normalize(Cross(up, z));
    var y := Cross(z, x);
    (x, y, z)
  }

  /** `makeLookAt(eye, center, up)`: column c of the upper 3x3 block is basis
      vector c, column 3 is (0, 0, 0, 1) and the last row holds
      -dot(basis vector, eye). */
  function MakeLookAt(eye: Vec3, center: Vec3, up: Vec3, normalize: Vec3 -> Vec3): (m: Matrix4)
    ensures var (x, y, z) := LookAtBasis(eye, center, up, normalize);
      forall row :: 0 <= row < 3 ==>
        At(m, row, 0) == Component(x, row) && At(m, row, 1) == Component(y, row)
        && At(m, row, 2) == Component(z, row) && At(m, row, 3) == 0.0
    ensures var (x, y, z) := LookAtBasis(eye, center, up, normalize);
      At(m, 3, 0) == -Dot(x, eye) && At(m, 3, 1) == -Dot(y, eye)
      && At(m, 3, 2) == -Dot(z, eye) && At(m, 3, 3) == 1.0
  {
    var (x, y, z) := LookAtBasis(eye, center, up, normalize);
    ViewMatrix(x, y, z, eye)
  }

  /** The matrix `makeLookAt` assembles from the basis x, y, z and the eye. */
  function ViewMatrix(x: Vec3, y: Vec3, z: Vec3, eye: Vec3): Matrix4 {
    [x.x, y.x, z.x, 0.0, x.y, y.y, z.y, 0.0, x.z, y.z, z.z, 0.0, -Dot(x, eye), -Dot(y, eye), -Dot(z, eye), 1.0]
  }

  /** The last row of the view matrix cancels the eye's projection on a basis vector. */
  lemma EyeColumn(v: Vec3, eye: Vec3)
    ensures Dot4([eye.x, eye.y, eye.z, 1.0], [v.x, v.y, v.z, -Dot(v, eye)]) == 0.0
  {
  }

  /** The view matrix takes the eye to the origin, whatever `normalize` returns. */
  lemma LookAtEyeToOrigin(eye: Vec3, center: Vec3, up: Vec3, normalize: Vec3 -> Vec3)
    ensures var t := Transform([eye.x, eye.y, eye.z, 1.0], MakeLookAt(eye, center, up, normalize));
      t[0] == 0.0 && t[1] == 0.0 && t[2] == 0.0 && t[3] == 1.0
  {
    var (x, y, z) := LookAtBasis(eye, center, up, normalize);
    ViewMatrixTakesEyeToOrigin(x, y, z, eye);
  }

  /** Any basis: the last row cancels the eye's projection on each basis vector. */
  lemma ViewMatrixTakesEyeToOrigin(x: Vec3, y: Vec3, z: Vec3, eye: Vec3)
    ensures var t := Transform([eye.x, eye.y, eye.z, 1.0], ViewMatrix(x, y, z, eye));
      t[0] == 0.0 && t[1] == 0.0 && t[2] == 0.0 && t[3] == 1.0
  {
    ViewEntry(x, y, z, eye, 0);
    ViewEntry(x, y, z, eye, 1);
    ViewEntry(x, y, z, eye, 2);
    ViewLastEntry(x, y, z, eye);
  }

  /** The last column is (0, 0, 0, 1), so the point's w stays 1. */
  lemma ViewLastEntry(x: Vec3, y: Vec3, z: Vec3, eye: Vec3)
    ensures Transform([eye.x, eye.y, eye.z, 1.0], ViewMatrix(x, y, z, eye))[3] == 1.0
  {
    assert Column(ViewMatrix(x, y, z, eye), 3) == [0.0, 0.0, 0.0, 1.0];
    DotLastUnit([eye.x, eye.y, eye.z, 1.0]);
  }

  /** Against (0, 0, 0, 1) a dot product keeps only w. */
  lemma DotLastUnit(p: Vec4)
    ensures Dot4(p, [0.0, 0.0, 0.0, 1.0]) == p[3]
  {
  }

  /** Entry c < 3 of the transformed eye is its projection on basis vector c
      minus the same projection, zero. */
  lemma ViewEntry(x: Vec3, y: Vec3, z: Vec3, eye: Vec3, c: nat)
    requires c < 3
    ensures Transform([eye.x, eye.y, eye.z, 1.0], ViewMatrix(x, y, z, eye))[c] == 0.0
  {
    var v := if c == 0 then x else if c == 1 then y else z;
    assert Column(ViewMatrix(x, y, z, eye), c) == [v.x, v.y, v.z, -Dot(v, eye)];
    EyeColumn(v, eye);
  }

  // ---------------------------------------------------------------------------
  // makeRotationX / Y / Z

  /** `makeRotationX(angle)`: keeps the x axis and the homogeneous row and column. */
  function MakeRotationX(math: MathLib, angle: real): (m: Matrix4)
    ensures forall k :: 0 <= k < 4 ==>
      At(m, 3, k) == At(m, k, 3) == (if k == 3 then 1.0 else 0.0)
  {
    var c, s := math.cos(angle), math.sin(angle);
    [1.0, 0.0, 0.0, 0.0, 0.0, c, -s, 0.0, 0.0, s, c, 0.0, 0.0, 0.0, 0.0, 1.0]
  }

  /** `makeRotationY(angle)`: keeps the y axis and the homogeneous row and column. */
  function MakeRotationY(math: MathLib, angle: real): (m: Matrix4)
    ensures forall k :: 0 <= k < 4 ==>
      At(m, 3, k) == At(m, k, 3) == (if k == 3 then 1.0 else 0.0)
  {
    var c, s := math.cos(angle), math.sin(angle);
    [c, 0.0, s, 0.0, 0.0, 1.0, 0.0, 0.0, -s, 0.0, c, 0.0, 0.0, 0.0, 0.0, 1.0]
  }

  /** `makeRotationZ(angle)`: keeps the z axis and the homogeneous row and column. */
  function MakeRotationZ(math: MathLib, angle: real): (m: Matrix4)
    ensures forall k :: 0 <= k < 4 ==>
      At(m, 3, k) == At(m, k, 3) == (if k == 3 then 1.0 else 0.0)
  {
    var c, s := math.cos(angle), math.sin(angle);
    [c, -s, 0.0, 0.0, s, c, 0.0, 0.0, 0.0, 0.0, 1.0, 0.0, 0.0, 0.0, 0.0, 1.0]
  }

  /** Each rotation leaves the points of its own axis where they are. */
  lemma RotationsFixTheirAxes(math: MathLib, angle: real, t: real)
    ensures Transform([t, 0.0, 0.0, 1.0], MakeRotationX(math, angle)) == [t, 0.0, 0.0, 1.0]
    ensures Transform([0.0, t, 0.0, 1.0], MakeRotationY(math, angle)) == [0.0, t, 0.0, 1.0]
    ensures Transform([0.0, 0.0, t, 1.0], MakeRotationZ(math, angle)) == [0.0, 0.0, t, 1.0]
  {
    var px, py, pz := [t, 0.0, 0.0, 1.0], [0.0, t, 0.0, 1.0], [0.0, 0.0, t, 1.0];
    var rx, ry, rz := MakeRotationX(math, angle), MakeRotationY(math, angle), MakeRotationZ(math, angle);
    TransformExpanded(px, rx);
    TransformExpanded(py, ry);
    TransformExpanded(pz, rz);
    Vec4Ext(Transform(px, rx), px);
    Vec4Ext(Transform(py, ry), py);
    Vec4Ext(Transform(pz, rz), pz);
  }

  /** A matrix whose product with its transpose is the identity. */
  ghost predicate Orthogonal(m: Matrix4) {
    Product(m, Transpose(m)) == IDENTITY
  }

  /** Entry (row, col) of m times its transpose is row `row` of m dotted with row `col`. */
  lemma RowOfProductWithTranspose(m: Matrix4, row: nat)
    requires row < 4
    ensures Row(Product(m, Transpose(m)), row) ==
      [Dot4(Row(m, row), Row(m, 0)), Dot4(Row(m, row), Row(m, 1)),
       Dot4(Row(m, row), Row(m, 2)), Dot4(Row(m, row), Row(m, 3))]
  {
    RowOfProduct(m, Transpose(m), row);
  }

  /** A matrix whose rows are orthonormal is orthogonal. */
  lemma OrthonormalRows(m: Matrix4)
    requires forall i, j :: 0 <= i < 4 && 0 <= j < 4 ==> Dot4(Row(m, i), Row(m, j)) == if i == j then 1.0 else 0.0
    ensures Orthogonal(m)
  {
    RowOfProductWithTranspose(m, 0);
    RowOfProductWithTranspose(m, 1);
    RowOfProductWithTranspose(m, 2);
    RowOfProductWithTranspose(m, 3);
    RowsExt(Product(m, Transpose(m)), IDENTITY);
  }

  /** Under cos^2 + sin^2 = 1, `MakeRotationX(angle)` times its transpose is the identity. */
  lemma MakeRotationXOrthogonal(math: MathLib, angle: real)
    requires math.cos(angle) * math.cos(angle) + math.sin(angle) * math.sin(angle) == 1.0
    ensures Orthogonal(MakeRotationX(math, angle))
  {
    var m := MakeRotationX(math, angle);
    var c, s := math.cos(angle), math.sin(angle);
    assert Row(m, 0) == [1.0, 0.0, 0.0, 0.0];
    assert Row(m, 1) == [0.0, c, -s, 0.0];
    assert Row(m, 2) == [0.0, s, c, 0.0];
    assert Row(m, 3) == [0.0, 0.0, 0.0, 1.0];
    forall i, j | 0 <= i < 4 && 0 <= j < 4
      ensures Dot4(Row(m, i), Row(m, j)) == if i == j then 1.0 else 0.0
    {
      assert i == 0 || i == 1 || i == 2 || i == 3;
      assert j == 0 || j == 1 || j == 2 || j == 3;
    }
    OrthonormalRows(m);
  }

  /** Under cos^2 + sin^2 = 1, `MakeRotationY(angle)` times its transpose is the identity. */
  lemma MakeRotationYOrthogonal(math: MathLib, angle: real)
    requires math.cos(angle) * math.cos(angle) + math.sin(angle) * math.sin(angle) == 1.0
    ensures Orthogonal(MakeRotationY(math, angle))
  {
    var m := MakeRotationY(math, angle);
    var c, s := math.cos(angle), math.sin(angle);
    assert Row(m, 0) == [c, 0.0, s, 0.0];
    assert Row(m, 1) == [0.0, 1.0, 0.0, 0.0];
    assert Row(m, 2) == [-s, 0.0, c, 0.0];
    assert Row(m, 3) == [0.0, 0.0, 0.0, 1.0];
    forall i, j | 0 <= i < 4 && 0 <= j < 4
      ensures Dot4(Row(m, i), Row(m, j)) == if i == j then 1.0 else 0.0
    {
      assert i == 0 || i == 1 || i == 2 || i == 3;
      assert j == 0 || j == 1 || j == 2 || j == 3;
    }
    OrthonormalRows(m);
  }

  /** Under cos^2 + sin^2 = 1, `MakeRotationZ(angle)` times its transpose is the identity. */
  lemma MakeRotationZOrthogonal(math: MathLib, angle: real)
    requires math.cos(angle) * math.cos(angle) + math.sin(angle) * math.sin(angle) == 1.0
    ensures Orthogonal(MakeRotationZ(math, angle))
  {
    var m := MakeRotationZ(math, angle);
    var c, s := math.cos(angle), math.sin(angle);
    assert Row(m, 0) == [c, -s, 0.0, 0.0];
    assert Row(m, 1) == [s, c, 0.0, 0.0];
    assert Row(m, 2) == [0.0, 0.0, 1.0, 0.0];
    assert Row(m, 3) == [0.0, 0.0, 0.0, 1.0];
    forall i, j | 0 <= i < 4 && 0 <= j < 4
      ensures Dot4(Row(m, i), Row(m, j)) == if i == j then 1.0 else 0.0
    {
      assert i == 0 || i == 1 || i == 2 || i == 3;
      assert j == 0 || j == 1 || j == 2 || j == 3;
    }
    OrthonormalRows(m);
  }
}
