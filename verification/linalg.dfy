/** The slice of `nalgebra_glm` the renderer relies on, over reals: 2-, 3-
    and 4-vectors, 3x3 and 4x4 matrices stored by rows (the order in which
    `Mat4::new` takes its arguments), and the 3x3 inverse that
    `try_inverse` computes. The elementary functions (`sin`, `cos`,
    `atan2`, `sqrt`) and the vector length behind `normalize` are not
    computed: they are fields of a `Trig` record that every caller passes in. */
module LinAlg {
  import opened Base

  datatype Vec2 = Vec2(x: real, y: real)

  datatype Vec3 = Vec3(x: real, y: real, z: real)

  datatype Vec4 = Vec4(x: real, y: real, z: real, w: real)

  const Zero3: Vec3 := Vec3(0.0, 0.0, 0.0)

  function Add(a: Vec3, b: Vec3): Vec3 {
    Vec3(a.x + b.x, a.y + b.y, a.z + b.z)
  }

  function Sub(a: Vec3, b: Vec3): Vec3 {
    Vec3(a.x - b.x, a.y - b.y, a.z - b.z)
  }

  function Neg(a: Vec3): Vec3 {
    Vec3(-a.x, -a.y, -a.z)
  }

  /** `v * k` for a vector and a scalar. */
  function Scale(v: Vec3, k: real): Vec3 {
    Vec3(v.x * k, v.y * k, v.z * k)
  }

  function Dot(a: Vec3, b: Vec3): real {
    a.x * b.x + a.y * b.y + a.z * b.z
  }

  function Cross(a: Vec3, b: Vec3): Vec3 {
    Vec3(a.y * b.z - a.z * b.y, a.z * b.x - a.x * b.z, a.x * b.y - a.y * b.x)
  }

  /** The elementary functions the renderer calls on `f32`, left
      uninterpreted. `invLen(v)` stands for `1 / |v|`, so that
      `normalize(v)` is `v * invLen(v)`; `sqrt` is used where the source
      takes a magnitude explicitly. */
  datatype Trig = Trig(
    sin: real -> real,
    cos: real -> real,
    atan2: (real, real) -> real,
    sqrt: real -> real,
    invLen: Vec3 -> real)

  /** `v.normalize()`: the same direction, scaled by the reciprocal length. */
  function Normalize(t: Trig, v: Vec3): Vec3 {
    Scale(v, t.invLen(v))
  }

  /** `v.magnitude()`. */
  function Magnitude(t: Trig, v: Vec3): real {
    t.sqrt(Dot(v, v))
  }

  /** A reciprocal length that behaves like one under positive scaling:
      stretching a vector by `k > 0` divides its reciprocal length by `k`. */
  ghost predicate HomogeneousLength(t: Trig) {
    forall v: Vec3, k: real {:trigger t.invLen(Scale(v, k))} ::
      k > 0.0 ==> t.invLen(Scale(v, k)) == t.invLen(v) / k
  }

  lemma HomogeneousAt(t: Trig, v: Vec3, k: real)
    requires HomogeneousLength(t) && k > 0.0
    ensures t.invLen(Scale(v, k)) == t.invLen(v) / k
  {
  }

  /** `sin^2 + cos^2 = 1` and `sqrt` is the non-negative square root. */
  ghost predicate Pythagorean(t: Trig) {
    && (forall a: real {:trigger t.sin(a)} {:trigger t.cos(a)} ::
          t.sin(a) * t.sin(a) + t.cos(a) * t.cos(a) == 1.0)
    && (forall x: real {:trigger t.sqrt(x)} ::
          x >= 0.0 ==> t.sqrt(x) >= 0.0 && t.sqrt(x) * t.sqrt(x) == x)
  }

  lemma AddSubCancel(a: Vec3, b: Vec3)
    ensures Sub(Add(a, b), a) == b
    ensures Add(Add(a, b), Neg(b)) == a
  {
  }

  lemma DotScale(u: Vec3, v: Vec3, k: real)
    ensures Dot(u, Scale(v, k)) == Dot(u, v) * k
  {
  }

  /** A vector is orthogonal to its cross product with any other. */
  lemma CrossOrthogonal(u: Vec3, v: Vec3)
    ensures Dot(u, Cross(u, v)) == 0.0
    ensures Dot(v, Cross(u, v)) == 0.0
  {
  }

  /** The scalar triple product is invariant under cyclic rotation. */
  lemma TripleCyclic(u: Vec3, v: Vec3, w: Vec3)
    ensures Dot(u, Cross(v, w)) == Dot(v, Cross(w, u))
    ensures Dot(u, Cross(v, w)) == Dot(w, Cross(u, v))
  {
    TripleExpand(u, v, w);
    TripleExpand(v, w, u);
    TripleExpand(w, u, v);
    CyclicPolynomial(u.x, u.y, u.z, v.x, v.y, v.z, w.x, w.y, w.z);
  }

  lemma TripleExpand(u: Vec3, v: Vec3, w: Vec3)
    ensures Dot(u, Cross(v, w)) == u.x * (v.y * w.z - v.z * w.y) + u.y * (v.z * w.x - v.x * w.z) + u.z * (v.x * w.y - v.y * w.x)
  {
  }

  lemma CyclicPolynomial(a: real, b: real, c: real, d: real, e: real, f: real, g: real, h: real, i: real)
    ensures a * (e * i - f * h) + b * (f * g - d * i) + c * (d * h - e * g)
         == d * (h * c - i * b) + e * (i * a - g * c) + f * (g * b - h * a)
    ensures a * (e * i - f * h) + b * (f * g - d * i) + c * (d * h - e * g)
         == g * (b * f - c * e) + h * (c * d - a * f) + i * (a * e - b * d)
  {
  }

  // ---------------------------------------------------------------- 3x3

  datatype Mat3 = Mat3(r0: Vec3, r1: Vec3, r2: Vec3)

  const Identity3: Mat3 := Mat3(Vec3(1.0, 0.0, 0.0), Vec3(0.0, 1.0, 0.0), Vec3(0.0, 0.0, 1.0))

  function Col0(m: Mat3): Vec3 { Vec3(m.r0.x, m.r1.x, m.r2.x) }
  function Col1(m: Mat3): Vec3 { Vec3(m.r0.y, m.r1.y, m.r2.y) }
  function Col2(m: Mat3): Vec3 { Vec3(m.r0.z, m.r1.z, m.r2.z) }

  function FromCols(a: Vec3, b: Vec3, c: Vec3): Mat3 {
    Mat3(Vec3(a.x, b.x, c.x), Vec3(a.y, b.y, c.y), Vec3(a.z, b.z, c.z))
  }

  function Transpose3(m: Mat3): (r: Mat3)
    ensures r.r0 == Col0(m) && r.r1 == Col1(m) && r.r2 == Col2(m)
  {
    FromCols(m.r0, m.r1, m.r2)
  }

  function MulVec3(m: Mat3, v: Vec3): Vec3 {
    Vec3(Dot(m.r0, v), Dot(m.r1, v), Dot(m.r2, v))
  }

  /** Row `v` of a product: `v` dotted with each column of `b`. */
  function RowTimes(v: Vec3, b: Mat3): Vec3 {
    Vec3(Dot(v, Col0(b)), Dot(v, Col1(b)), Dot(v, Col2(b)))
  }

  function Mul3(a: Mat3, b: Mat3): Mat3 {
    Mat3(RowTimes(a.r0, b), RowTimes(a.r1, b), RowTimes(a.r2, b))
  }

  /** The determinant, as the triple product of the rows. */
  function Det3(m: Mat3): real {
    Dot(m.r0, Cross(m.r1, m.r2))
  }

  /** `Mat3::try_inverse`: `None` exactly when the determinant is zero;
      otherwise the adjugate (whose columns are cross products of row
      pairs) divided by the determinant, which is a two-sided inverse in
      the sense that `m * inverse == identity`. */
  function TryInverse3(m: Mat3): (r: Option<Mat3>)
    ensures r.None? <==> Det3(m) == 0.0
    ensures r.Some? ==> Mul3(m, r.value) == Identity3
  {
    if Det3(m) == 0.0 then None
    else
      var k := 1.0 / Det3(m);
      var inv := FromCols(Scale(Cross(m.r1, m.r2), k), Scale(Cross(m.r2, m.r0), k), Scale(Cross(m.r0, m.r1), k));
      InverseIsRightInverse(m, k, inv);
      Some(inv)
  }

  lemma InverseIsRightInverse(m: Mat3, k: real, inv: Mat3)
    requires Det3(m) != 0.0 && k == 1.0 / Det3(m)
    requires inv == FromCols(Scale(Cross(m.r1, m.r2), k), Scale(Cross(m.r2, m.r0), k), Scale(Cross(m.r0, m.r1), k))
    ensures Mul3(m, inv) == Identity3
  {
    var c0, c1, c2 := Cross(m.r1, m.r2), Cross(m.r2, m.r0), Cross(m.r0, m.r1);
    assert Col0(inv) == Scale(c0, k) && Col1(inv) == Scale(c1, k) && Col2(inv) == Scale(c2, k);
    CrossOrthogonal(m.r1, m.r2);
    CrossOrthogonal(m.r2, m.r0);
    CrossOrthogonal(m.r0, m.r1);
    TripleCyclic(m.r0, m.r1, m.r2);
    DotScale(m.r0, c0, k); DotScale(m.r0, c1, k); DotScale(m.r0, c2, k);
    DotScale(m.r1, c0, k); DotScale(m.r1, c1, k); DotScale(m.r1, c2, k);
    DotScale(m.r2, c0, k); DotScale(m.r2, c1, k); DotScale(m.r2, c2, k);
    assert Det3(m) * k == 1.0;
  }

  // ---------------------------------------------------------------- 4x4

  datatype Mat4 = Mat4(r0: Vec4, r1: Vec4, r2: Vec4, r3: Vec4)

  function Dot4(a: Vec4, b: Vec4): real {
    a.x * b.x + a.y * b.y + a.z * b.z + a.w * b.w
  }

  function MulVec4(m: Mat4, v: Vec4): Vec4 {
    Vec4(Dot4(m.r0, v), Dot4(m.r1, v), Dot4(m.r2, v), Dot4(m.r3, v))
  }

  function Transpose4(m: Mat4): Mat4 {
    Mat4(Vec4(m.r0.x, m.r1.x, m.r2.x, m.r3.x), Vec4(m.r0.y, m.r1.y, m.r2.y, m.r3.y),
         Vec4(m.r0.z, m.r1.z, m.r2.z, m.r3.z), Vec4(m.r0.w, m.r1.w, m.r2.w, m.r3.w))
  }

  function Mul4(a: Mat4, b: Mat4): Mat4 {
    var bt := Transpose4(b);
    Mat4(MulVec4(bt, a.r0), MulVec4(bt, a.r1), MulVec4(bt, a.r2), MulVec4(bt, a.r3))
  }

  lemma Distrib4(k: real, a: real, b: real, c: real, d: real)
    ensures (a + b + c + d) * k == a * k + b * k + c * k + d * k
    ensures k * (a + b + c + d) == k * a + k * b + k * c + k * d
  {
  }

  /** Sixteen terms summed by columns equal the same terms summed by rows. */
  lemma Transpose16(m: Mat4)
    ensures (m.r0.x + m.r1.x + m.r2.x + m.r3.x) + (m.r0.y + m.r1.y + m.r2.y + m.r3.y)
          + (m.r0.z + m.r1.z + m.r2.z + m.r3.z) + (m.r0.w + m.r1.w + m.r2.w + m.r3.w)
         == (m.r0.x + m.r0.y + m.r0.z + m.r0.w) + (m.r1.x + m.r1.y + m.r1.z + m.r1.w)
          + (m.r2.x + m.r2.y + m.r2.z + m.r2.w) + (m.r3.x + m.r3.y + m.r3.z + m.r3.w)
  {
  }

  lemma MulAssoc(a: real, b: real, c: real)
    ensures (b * a) * c == a * (b * c)
  {
  }

  /** `(b^T row) . v` expanded into its sixteen products. */
  lemma ColumnForm(row: Vec4, b: Mat4, v: Vec4)
    ensures Dot4(MulVec4(Transpose4(b), row), v)
         == (row.x * (b.r0.x * v.x) + row.y * (b.r1.x * v.x) + row.z * (b.r2.x * v.x) + row.w * (b.r3.x * v.x))
          + (row.x * (b.r0.y * v.y) + row.y * (b.r1.y * v.y) + row.z * (b.r2.y * v.y) + row.w * (b.r3.y * v.y))
          + (row.x * (b.r0.z * v.z) + row.y * (b.r1.z * v.z) + row.z * (b.r2.z * v.z) + row.w * (b.r3.z * v.z))
          + (row.x * (b.r0.w * v.w) + row.y * (b.r1.w * v.w) + row.z * (b.r2.w * v.w) + row.w * (b.r3.w * v.w))
  {
    Distrib4(v.x, b.r0.x * row.x, b.r1.x * row.y, b.r2.x * row.z, b.r3.x * row.w);
    Distrib4(v.y, b.r0.y * row.x, b.r1.y * row.y, b.r2.y * row.z, b.r3.y * row.w);
    Distrib4(v.z, b.r0.z * row.x, b.r1.z * row.y, b.r2.z * row.z, b.r3.z * row.w);
    Distrib4(v.w, b.r0.w * row.x, b.r1.w * row.y, b.r2.w * row.z, b.r3.w * row.w);
    MulAssoc(row.x, b.r0.x, v.x);
    MulAssoc(row.x, b.r0.y, v.y);
    MulAssoc(row.x, b.r0.z, v.z);
    MulAssoc(row.x, b.r0.w, v.w);
    MulAssoc(row.y, b.r1.x, v.x);
    MulAssoc(row.y, b.r1.y, v.y);
    MulAssoc(row.y, b.r1.z, v.z);
    MulAssoc(row.y, b.r1.w, v.w);
    MulAssoc(row.z, b.r2.x, v.x);
    MulAssoc(row.z, b.r2.y, v.y);
    MulAssoc(row.z, b.r2.z, v.z);
    MulAssoc(row.z, b.r2.w, v.w);
    MulAssoc(row.w, b.r3.x, v.x);
    MulAssoc(row.w, b.r3.y, v.y);
    MulAssoc(row.w, b.r3.z, v.z);
    MulAssoc(row.w, b.r3.w, v.w);
  }

  /** `row . (b v)` expanded into the same sixteen products. */
  lemma RowForm(row: Vec4, b: Mat4, v: Vec4)
    ensures Dot4(row, MulVec4(b, v))
         == (row.x * (b.r0.x * v.x) + row.x * (b.r0.y * v.y) + row.x * (b.r0.z * v.z) + row.x * (b.r0.w * v.w))
          + (row.y * (b.r1.x * v.x) + row.y * (b.r1.y * v.y) + row.y * (b.r1.z * v.z) + row.y * (b.r1.w * v.w))
          + (row.z * (b.r2.x * v.x) + row.z * (b.r2.y * v.y) + row.z * (b.r2.z * v.z) + row.z * (b.r2.w * v.w))
          + (row.w * (b.r3.x * v.x) + row.w * (b.r3.y * v.y) + row.w * (b.r3.z * v.z) + row.w * (b.r3.w * v.w))
  {
    Distrib4(row.x, b.r0.x * v.x, b.r0.y * v.y, b.r0.z * v.z, b.r0.w * v.w);
    Distrib4(row.y, b.r1.x * v.x, b.r1.y * v.y, b.r1.z * v.z, b.r1.w * v.w);
    Distrib4(row.z, b.r2.x * v.x, b.r2.y * v.y, b.r2.z * v.z, b.r2.w * v.w);
    Distrib4(row.w, b.r3.x * v.x, b.r3.y * v.y, b.r3.z * v.z, b.r3.w * v.w);
  }

  /** One row of a product applied to a vector: regrouping the sums. */
  lemma RowAssoc(row: Vec4, b: Mat4, v: Vec4)
    ensures Dot4(MulVec4(Transpose4(b), row), v) == Dot4(row, MulVec4(b, v))
  {
    ColumnForm(row, b, v);
    RowForm(row, b, v);
    Transpose16(Mat4(Vec4(row.x * (b.r0.x * v.x), row.x * (b.r0.y * v.y), row.x * (b.r0.z * v.z), row.x * (b.r0.w * v.w)),
                     Vec4(row.y * (b.r1.x * v.x), row.y * (b.r1.y * v.y), row.y * (b.r1.z * v.z), row.y * (b.r1.w * v.w)),
                     Vec4(row.z * (b.r2.x * v.x), row.z * (b.r2.y * v.y), row.z * (b.r2.z * v.z), row.z * (b.r2.w * v.w)),
                     Vec4(row.w * (b.r3.x * v.x), row.w * (b.r3.y * v.y), row.w * (b.r3.z * v.z), row.w * (b.r3.w * v.w))));
  }

  /** Applying a product applies its right factor first. */
  lemma MulVec4Assoc(a: Mat4, b: Mat4, v: Vec4)
    ensures MulVec4(Mul4(a, b), v) == MulVec4(a, MulVec4(b, v))
  {
    RowAssoc(a.r0, b, v);
    RowAssoc(a.r1, b, v);
    RowAssoc(a.r2, b, v);
    RowAssoc(a.r3, b, v);
  }

  /** `mat4_to_mat3`: the upper-left 3x3 block (the linear part of an
      affine transform). */
  function Upper3(m: Mat4): Mat3 {
    Mat3(Vec3(m.r0.x, m.r0.y, m.r0.z), Vec3(m.r1.x, m.r1.y, m.r1.z), Vec3(m.r2.x, m.r2.y, m.r2.z))
  }
}
