/** The 4x4 matrix kernel of hoshizora.js (the `M4` object).

    Matrices are 16 reals in column-major order: the element in row i and
    column j sits at index 4*j + i, so column j occupies [4j, 4j+4).
    Vectors are 4 reals (x, y, z, w) used as columns.  The rotations take
    the cosine and sine of their angle as the two reals (c, s) instead of
    the angle, which keeps their layout and signs exact over the reals. */
module M4 {
  import opened Numeric

  type Mat4 = m: seq<real> | |m| == 16
    witness [1.0, 0.0, 0.0, 0.0, 0.0, 1.0, 0.0, 0.0, 0.0, 0.0, 1.0, 0.0, 0.0, 0.0, 0.0, 1.0]

  type Vec4 = v: seq<real> | |v| == 4 witness [0.0, 0.0, 0.0, 1.0]

  /** The element in row i and column j. */
  function At(m: Mat4, i: int, j: int): real
    requires 0 <= i < 4 && 0 <= j < 4
  {
    m[4 * j + i]
  }

  /** Reference definition of the matrix product's entries: row i of l
      times column j of r, the sum over k of At(l, i, k) * At(r, k, j). */
  ghost function RowByColumn(l: Mat4, r: Mat4, i: int, j: int): real
    requires 0 <= i < 4 && 0 <= j < 4
  {
    At(l, i, 0) * At(r, 0, j) + At(l, i, 1) * At(r, 1, j)
    + At(l, i, 2) * At(r, 2, j) + At(l, i, 3) * At(r, 3, j)
  }

  /** Reference definition of the matrix-vector product's entries: row i
      of m times v. */
  ghost function RowByVector(m: Mat4, v: Vec4, i: int): real
    requires 0 <= i < 4
  {
    At(m, i, 0) * v[0] + At(m, i, 1) * v[1] + At(m, i, 2) * v[2] + At(m, i, 3) * v[3]
  }

  function Identity(): Mat4
  {
    [1.0, 0.0, 0.0, 0.0,
     0.0, 1.0, 0.0, 0.0,
     0.0, 0.0, 1.0, 0.0,
     0.0, 0.0, 0.0, 1.0]
  }

  /** rotZ, with c = cos(rad) and s = sin(rad). */
  function RotZ(c: real, s: real): Mat4
  {
    [c, s, 0.0, 0.0,
     -s, c, 0.0, 0.0,
     0.0, 0.0, 1.0, 0.0,
     0.0, 0.0, 0.0, 1.0]
  }

  /** Where rotZ sends the three unit axes. */
  lemma RotZAxes(c: real, s: real)
    ensures MulV4(RotZ(c, s), [1.0, 0.0, 0.0, 0.0]) == [c, s, 0.0, 0.0]
    ensures MulV4(RotZ(c, s), [0.0, 1.0, 0.0, 0.0]) == [-s, c, 0.0, 0.0]
    ensures MulV4(RotZ(c, s), [0.0, 0.0, 1.0, 0.0]) == [0.0, 0.0, 1.0, 0.0]
  {
  }

  /** rotY, with c = cos(rad) and s = sin(rad). */
  function RotY(c: real, s: real): Mat4
  {
    [c, 0.0, -s, 0.0,
     0.0, 1.0, 0.0, 0.0,
     s, 0.0, c, 0.0,
     0.0, 0.0, 0.0, 1.0]
  }

  /** Where rotY sends the three unit axes. */
  lemma RotYAxes(c: real, s: real)
    ensures MulV4(RotY(c, s), [1.0, 0.0, 0.0, 0.0]) == [c, 0.0, -s, 0.0]
    ensures MulV4(RotY(c, s), [0.0, 1.0, 0.0, 0.0]) == [0.0, 1.0, 0.0, 0.0]
    ensures MulV4(RotY(c, s), [0.0, 0.0, 1.0, 0.0]) == [s, 0.0, c, 0.0]
  {
  }

  /** rotX, with c = cos(rad) and s = sin(rad). */
  function RotX(c: real, s: real): Mat4
  {
    [1.0, 0.0, 0.0, 0.0,
     0.0, c, s, 0.0,
     0.0, -s, c, 0.0,
     0.0, 0.0, 0.0, 1.0]
  }

  /** Where rotX sends the three unit axes. */
  lemma RotXAxes(c: real, s: real)
    ensures MulV4(RotX(c, s), [1.0, 0.0, 0.0, 0.0]) == [1.0, 0.0, 0.0, 0.0]
    ensures MulV4(RotX(c, s), [0.0, 1.0, 0.0, 0.0]) == [0.0, c, s, 0.0]
    ensures MulV4(RotX(c, s), [0.0, 0.0, 1.0, 0.0]) == [0.0, -s, c, 0.0]
  {
  }

  /** rotX(c, s) * rotY(cy, sy) multiplied out: a turn about the y axis
      followed by a pitch about the x axis. */
  function PitchTurn(c: real, s: real, cy: real, sy: real): Mat4
  {
    [cy, s * sy, -(c * sy), 0.0,
     0.0, c, s, 0.0,
     sy, -(s * cy), c * cy, 0.0,
     0.0, 0.0, 0.0, 1.0]
  }

  lemma RotXTimesRotY(c: real, s: real, cy: real, sy: real)
    ensures MulM4(RotX(c, s), RotY(cy, sy)) == PitchTurn(c, s, cy, sy)
  {
    EqualEntries(MulM4(RotX(c, s), RotY(cy, sy)), PitchTurn(c, s, cy, sy));
  }

  /** Transforming by that matrix is turning, then pitching. */
  lemma PitchTurnApplies(c: real, s: real, cy: real, sy: real, v: Vec4)
    ensures MulV4(PitchTurn(c, s, cy, sy), v) == MulV4(RotX(c, s), MulV4(RotY(cy, sy), v))
  {
    RotXTimesRotY(c, s, cy, sy);
    MulV4OfProduct(RotX(c, s), RotY(cy, sy), v);
  }

  /** perspective(fovYDeg, screenW, screenH, nearZ, farZ).  `cot` stands for
      x |-> 1 / Math.tan(x); the aspect ratio is height over width, as in
      the source.  JavaScript would divide by zero into an infinity for a
      zero width or nearZ == farZ; the model excludes those. */
  function Perspective(cot: real -> real, fovYDeg: real, screenW: real, screenH: real,
                       nearZ: real, farZ: real): Mat4
    requires screenW != 0.0 && nearZ != farZ
  {
    var fovYRad := fovYDeg * Deg2Rad;
    var aspectRatio := screenH / screenW;
    var h := cot(fovYRad / 2.0);
    var w := h * aspectRatio;
    var zNearFar := nearZ - farZ;
    [w, 0.0, 0.0, 0.0,
     0.0, h, 0.0, 0.0,
     0.0, 0.0, (farZ + nearZ) / zNearFar, -1.0,
     0.0, 0.0, 2.0 * nearZ * farZ / zNearFar, 0.0]
  }

  function Translate(dx: real, dy: real, dz: real): Mat4
  {
    [1.0, 0.0, 0.0, 0.0,
     0.0, 1.0, 0.0, 0.0,
     0.0, 0.0, 1.0, 0.0,
     dx, dy, dz, 1.0]
  }

  /** scale(sx, sy, sz); an argument left undefined (None) takes sx. */
  function Scale(sx: real, sy: Option<real>, sz: Option<real>): Mat4
  {
    var y := if sy.None? then sx else sy.value;
    var z := if sz.None? then sx else sz.value;
    [sx, 0.0, 0.0, 0.0,
     0.0, y, 0.0, 0.0,
     0.0, 0.0, z, 0.0,
     0.0, 0.0, 0.0, 1.0]
  }

  function MulM4(l: Mat4, r: Mat4): Mat4
  {
    [l[0]*r[0] + l[4]*r[1] + l[8]*r[2] + l[12]*r[3],
     l[1]*r[0] + l[5]*r[1] + l[9]*r[2] + l[13]*r[3],
     l[2]*r[0] + l[6]*r[1] + l[10]*r[2] + l[14]*r[3],
     l[3]*r[0] + l[7]*r[1] + l[11]*r[2] + l[15]*r[3],

     l[0]*r[4] + l[4]*r[5] + l[8]*r[6] + l[12]*r[7],
     l[1]*r[4] + l[5]*r[5] + l[9]*r[6] + l[13]*r[7],
     l[2]*r[4] + l[6]*r[5] + l[10]*r[6] + l[14]*r[7],
     l[3]*r[4] + l[7]*r[5] + l[11]*r[6] + l[15]*r[7],

     l[0]*r[8] + l[4]*r[9] + l[8]*r[10] + l[12]*r[11],
     l[1]*r[8] + l[5]*r[9] + l[9]*r[10] + l[13]*r[11],
     l[2]*r[8] + l[6]*r[9] + l[10]*r[10] + l[14]*r[11],
     l[3]*r[8] + l[7]*r[9] + l[11]*r[10] + l[15]*r[11],

     l[0]*r[12] + l[4]*r[13] + l[8]*r[14] + l[12]*r[15],
     l[1]*r[12] + l[5]*r[13] + l[9]*r[14] + l[13]*r[15],
     l[2]*r[12] + l[6]*r[13] + l[10]*r[14] + l[14]*r[15],
     l[3]*r[12] + l[7]*r[13] + l[11]*r[14] + l[15]*r[15]]
  }

  function MulV4(l: Mat4, r: Vec4): Vec4
  {
    [l[0] * r[0] + l[4] * r[1] + l[8] * r[2] + l[12] * r[3],
     l[1] * r[0] + l[5] * r[1] + l[9] * r[2] + l[13] * r[3],
     l[2] * r[0] + l[6] * r[1] + l[10] * r[2] + l[14] * r[3],
     l[3] * r[0] + l[7] * r[1] + l[11] * r[2] + l[15] * r[3]]
  }

  // ---------------------------------------------------------------------
  // The product is the column-major row-by-column product

  lemma MulM4Column0(l: Mat4, r: Mat4)
    ensures At(MulM4(l, r), 0, 0) == RowByColumn(l, r, 0, 0)
    ensures At(MulM4(l, r), 1, 0) == RowByColumn(l, r, 1, 0)
    ensures At(MulM4(l, r), 2, 0) == RowByColumn(l, r, 2, 0)
    ensures At(MulM4(l, r), 3, 0) == RowByColumn(l, r, 3, 0)
  {
  }

  lemma MulM4Column1(l: Mat4, r: Mat4)
    ensures At(MulM4(l, r), 0, 1) == RowByColumn(l, r, 0, 1)
    ensures At(MulM4(l, r), 1, 1) == RowByColumn(l, r, 1, 1)
    ensures At(MulM4(l, r), 2, 1) == RowByColumn(l, r, 2, 1)
    ensures At(MulM4(l, r), 3, 1) == RowByColumn(l, r, 3, 1)
  {
  }

  lemma MulM4Column2(l: Mat4, r: Mat4)
    ensures At(MulM4(l, r), 0, 2) == RowByColumn(l, r, 0, 2)
    ensures At(MulM4(l, r), 1, 2) == RowByColumn(l, r, 1, 2)
    ensures At(MulM4(l, r), 2, 2) == RowByColumn(l, r, 2, 2)
    ensures At(MulM4(l, r), 3, 2) == RowByColumn(l, r, 3, 2)
  {
  }

  lemma MulM4Column3(l: Mat4, r: Mat4)
    ensures At(MulM4(l, r), 0, 3) == RowByColumn(l, r, 0, 3)
    ensures At(MulM4(l, r), 1, 3) == RowByColumn(l, r, 1, 3)
    ensures At(MulM4(l, r), 2, 3) == RowByColumn(l, r, 2, 3)
    ensures At(MulM4(l, r), 3, 3) == RowByColumn(l, r, 3, 3)
  {
  }

  /** mulM4(l, r) holds in row i and column j (index 4j+i) the sum over k
      of l[4k+i] * r[4j+k]. */
  lemma MulM4IsRowByColumn(l: Mat4, r: Mat4, i: int, j: int)
    requires 0 <= i < 4 && 0 <= j < 4
    ensures At(MulM4(l, r), i, j) == RowByColumn(l, r, i, j)
  {
    MulM4Column0(l, r);
    MulM4Column1(l, r);
    MulM4Column2(l, r);
    MulM4Column3(l, r);
    assert i == 0 || i == 1 || i == 2 || i == 3;
    assert j == 0 || j == 1 || j == 2 || j == 3;
  }

  /** mulV4(m, v) holds at index i the sum over k of m[4k+i] * v[k]. */
  lemma MulV4IsRowByVector(m: Mat4, v: Vec4, i: int)
    requires 0 <= i < 4
    ensures MulV4(m, v)[i] == RowByVector(m, v, i)
  {
    assert i == 0 || i == 1 || i == 2 || i == 3;
  }

  // ---------------------------------------------------------------------
  // Identity and composition

  lemma IdentityIsNeutral(m: Mat4)
    ensures MulM4(Identity(), m) == m
    ensures MulM4(m, Identity()) == m
  {
    assert m == [m[0], m[1], m[2], m[3], m[4], m[5], m[6], m[7],
                 m[8], m[9], m[10], m[11], m[12], m[13], m[14], m[15]];
  }

  lemma IdentityFixesVectors(v: Vec4)
    ensures MulV4(Identity(), v) == v
  {
    assert v == [v[0], v[1], v[2], v[3]];
  }

  /** Transforming by a product is transforming by r, then by l. */
  lemma MulV4OfProduct(l: Mat4, r: Mat4, v: Vec4)
    ensures MulV4(MulM4(l, r), v) == MulV4(l, MulV4(r, v))
  {
    var p, u := MulM4(l, r), MulV4(r, v);
    forall i | 0 <= i < 4
      ensures MulV4(p, v)[i] == MulV4(l, u)[i]
    {
      assert i == 0 || i == 1 || i == 2 || i == 3;
      ProductComponent0(l, r, v);
      ProductComponent1(l, r, v);
      ProductComponent2(l, r, v);
      ProductComponent3(l, r, v);
    }
  }

  // Component i of the two sides of MulV4OfProduct, each multiplied out
  // down to the entries of l, r and v, and then regrouped.

  lemma ProductExpanded0(l: Mat4, r: Mat4, v: Vec4)
    ensures MulV4(MulM4(l, r), v)[0] ==
      (l[0]*r[0] + l[4]*r[1] + l[8]*r[2] + l[12]*r[3]) * v[0]
    + (l[0]*r[4] + l[4]*r[5] + l[8]*r[6] + l[12]*r[7]) * v[1]
    + (l[0]*r[8] + l[4]*r[9] + l[8]*r[10] + l[12]*r[11]) * v[2]
    + (l[0]*r[12] + l[4]*r[13] + l[8]*r[14] + l[12]*r[15]) * v[3]
  {
  }

  lemma ComposedExpanded0(l: Mat4, r: Mat4, v: Vec4)
    ensures MulV4(l, MulV4(r, v))[0] ==
      l[0] * (r[0]*v[0] + r[4]*v[1] + r[8]*v[2] + r[12]*v[3])
    + l[4] * (r[1]*v[0] + r[5]*v[1] + r[9]*v[2] + r[13]*v[3])
    + l[8] * (r[2]*v[0] + r[6]*v[1] + r[10]*v[2] + r[14]*v[3])
    + l[12] * (r[3]*v[0] + r[7]*v[1] + r[11]*v[2] + r[15]*v[3])
  {
  }

  lemma ProductComponent0(l: Mat4, r: Mat4, v: Vec4)
    ensures MulV4(MulM4(l, r), v)[0] == MulV4(l, MulV4(r, v))[0]
  {
    ProductExpanded0(l, r, v);
    ComposedExpanded0(l, r, v);
    Reassociate(l[0], l[4], l[8], l[12],
                r[0], r[1], r[2], r[3], r[4], r[5], r[6], r[7],
                r[8], r[9], r[10], r[11], r[12], r[13], r[14], r[15],
                v[0], v[1], v[2], v[3]);
  }

  lemma ProductExpanded1(l: Mat4, r: Mat4, v: Vec4)
    ensures MulV4(MulM4(l, r), v)[1] ==
      (l[1]*r[0] + l[5]*r[1] + l[9]*r[2] + l[13]*r[3]) * v[0]
    + (l[1]*r[4] + l[5]*r[5] + l[9]*r[6] + l[13]*r[7]) * v[1]
    + (l[1]*r[8] + l[5]*r[9] + l[9]*r[10] + l[13]*r[11]) * v[2]
    + (l[1]*r[12] + l[5]*r[13] + l[9]*r[14] + l[13]*r[15]) * v[3]
  {
  }

  lemma ComposedExpanded1(l: Mat4, r: Mat4, v: Vec4)
    ensures MulV4(l, MulV4(r, v))[1] ==
      l[1] * (r[0]*v[0] + r[4]*v[1] + r[8]*v[2] + r[12]*v[3])
    + l[5] * (r[1]*v[0] + r[5]*v[1] + r[9]*v[2] + r[13]*v[3])
    + l[9] * (r[2]*v[0] + r[6]*v[1] + r[10]*v[2] + r[14]*v[3])
    + l[13] * (r[3]*v[0] + r[7]*v[1] + r[11]*v[2] + r[15]*v[3])
  {
  }

  lemma ProductComponent1(l: Mat4, r: Mat4, v: Vec4)
    ensures MulV4(MulM4(l, r), v)[1] == MulV4(l, MulV4(r, v))[1]
  {
    ProductExpanded1(l, r, v);
    ComposedExpanded1(l, r, v);
    Reassociate(l[1], l[5], l[9], l[13],
                r[0], r[1], r[2], r[3], r[4], r[5], r[6], r[7],
                r[8], r[9], r[10], r[11], r[12], r[13], r[14], r[15],
                v[0], v[1], v[2], v[3]);
  }

  lemma ProductExpanded2(l: Mat4, r: Mat4, v: Vec4)
    ensures MulV4(MulM4(l, r), v)[2] ==
      (l[2]*r[0] + l[6]*r[1] + l[10]*r[2] + l[14]*r[3]) * v[0]
    + (l[2]*r[4] + l[6]*r[5] + l[10]*r[6] + l[14]*r[7]) * v[1]
    + (l[2]*r[8] + l[6]*r[9] + l[10]*r[10] + l[14]*r[11]) * v[2]
    + (l[2]*r[12] + l[6]*r[13] + l[10]*r[14] + l[14]*r[15]) * v[3]
  {
  }

  lemma ComposedExpanded2(l: Mat4, r: Mat4, v: Vec4)
    ensures MulV4(l, MulV4(r, v))[2] ==
      l[2] * (r[0]*v[0] + r[4]*v[1] + r[8]*v[2] + r[12]*v[3])
    + l[6] * (r[1]*v[0] + r[5]*v[1] + r[9]*v[2] + r[13]*v[3])
    + l[10] * (r[2]*v[0] + r[6]*v[1] + r[10]*v[2] + r[14]*v[3])
    + l[14] * (r[3]*v[0] + r[7]*v[1] + r[11]*v[2] + r[15]*v[3])
  {
  }

  lemma ProductComponent2(l: Mat4, r: Mat4, v: Vec4)
    ensures MulV4(MulM4(l, r), v)[2] == MulV4(l, MulV4(r, v))[2]
  {
    ProductExpanded2(l, r, v);
    ComposedExpanded2(l, r, v);
    Reassociate(l[2], l[6], l[10], l[14],
                r[0], r[1], r[2], r[3], r[4], r[5], r[6], r[7],
                r[8], r[9], r[10], r[11], r[12], r[13], r[14], r[15],
                v[0], v[1], v[2], v[3]);
  }

  lemma ProductExpanded3(l: Mat4, r: Mat4, v: Vec4)
    ensures MulV4(MulM4(l, r), v)[3] ==
      (l[3]*r[0] + l[7]*r[1] + l[11]*r[2] + l[15]*r[3]) * v[0]
    + (l[3]*r[4] + l[7]*r[5] + l[11]*r[6] + l[15]*r[7]) * v[1]
    + (l[3]*r[8] + l[7]*r[9] + l[11]*r[10] + l[15]*r[11]) * v[2]
    + (l[3]*r[12] + l[7]*r[13] + l[11]*r[14] + l[15]*r[15]) * v[3]
  {
  }

  lemma ComposedExpanded3(l: Mat4, r: Mat4, v: Vec4)
    ensures MulV4(l, MulV4(r, v))[3] ==
      l[3] * (r[0]*v[0] + r[4]*v[1] + r[8]*v[2] + r[12]*v[3])
    + l[7] * (r[1]*v[0] + r[5]*v[1] + r[9]*v[2] + r[13]*v[3])
    + l[11] * (r[2]*v[0] + r[6]*v[1] + r[10]*v[2] + r[14]*v[3])
    + l[15] * (r[3]*v[0] + r[7]*v[1] + r[11]*v[2] + r[15]*v[3])
  {
  }

  lemma ProductComponent3(l: Mat4, r: Mat4, v: Vec4)
    ensures MulV4(MulM4(l, r), v)[3] == MulV4(l, MulV4(r, v))[3]
  {
    ProductExpanded3(l, r, v);
    ComposedExpanded3(l, r, v);
    Reassociate(l[3], l[7], l[11], l[15],
                r[0], r[1], r[2], r[3], r[4], r[5], r[6], r[7],
                r[8], r[9], r[10], r[11], r[12], r[13], r[14], r[15],
                v[0], v[1], v[2], v[3]);
  }

  /** One row of l times (r times v), regrouped as (row of l times r) times v. */
  lemma Reassociate(a0: real, a1: real, a2: real, a3: real,
                    r0: real, r1: real, r2: real, r3: real, r4: real, r5: real, r6: real, r7: real,
                    r8: real, r9: real, r10: real, r11: real, r12: real, r13: real, r14: real, r15: real,
                    v0: real, v1: real, v2: real, v3: real)
    ensures (a0*r0 + a1*r1 + a2*r2 + a3*r3) * v0 + (a0*r4 + a1*r5 + a2*r6 + a3*r7) * v1
          + (a0*r8 + a1*r9 + a2*r10 + a3*r11) * v2 + (a0*r12 + a1*r13 + a2*r14 + a3*r15) * v3
         == a0 * (r0*v0 + r4*v1 + r8*v2 + r12*v3) + a1 * (r1*v0 + r5*v1 + r9*v2 + r13*v3)
          + a2 * (r2*v0 + r6*v1 + r10*v2 + r14*v3) + a3 * (r3*v0 + r7*v1 + r11*v2 + r15*v3)
  {
  }

  // ---------------------------------------------------------------------
  // Translation, scaling and the rotations

  /** translate moves a point (w = 1) by (dx, dy, dz). */
  lemma TranslateMovesPoint(dx: real, dy: real, dz: real, x: real, y: real, z: real)
    ensures MulV4(Translate(dx, dy, dz), [x, y, z, 1.0]) == [x + dx, y + dy, z + dz, 1.0]
  {
  }

  /** translate leaves a direction (w = 0) alone. */
  lemma TranslateKeepsDirection(dx: real, dy: real, dz: real, x: real, y: real, z: real)
    ensures MulV4(Translate(dx, dy, dz), [x, y, z, 0.0]) == [x, y, z, 0.0]
  {
  }

  /** An omitted sy or sz takes the value of sx. */
  lemma ScaleDefaults(s: real)
    ensures Scale(s, None, None) == Scale(s, Some(s), Some(s))
    ensures MulV4(Scale(s, None, None), [1.0, 1.0, 1.0, 1.0]) == [s, s, s, 1.0]
  {
  }

  /** scale multiplies each coordinate by its own factor. */
  lemma ScaleStretchesPoint(sx: real, sy: real, sz: real, x: real, y: real, z: real, w: real)
    ensures MulV4(Scale(sx, Some(sy), Some(sz)), [x, y, z, w]) == [sx * x, sy * y, sz * z, w]
  {
    MulV4OfDisplays(sx, 0.0, 0.0, 0.0, 0.0, sy, 0.0, 0.0, 0.0, 0.0, sz, 0.0, 0.0, 0.0, 0.0, 1.0, x, y, z, w);
    EqualVectors(MulV4(Scale(sx, Some(sy), Some(sz)), [x, y, z, w]), [sx * x, sy * y, sz * z, w]);
  }

  /** Two matrices are equal once their sixteen entries are. */
  lemma EqualEntries(m: Mat4, n: Mat4)
    requires m[0] == n[0] && m[1] == n[1] && m[2] == n[2] && m[3] == n[3]
    requires m[4] == n[4] && m[5] == n[5] && m[6] == n[6] && m[7] == n[7]
    requires m[8] == n[8] && m[9] == n[9] && m[10] == n[10] && m[11] == n[11]
    requires m[12] == n[12] && m[13] == n[13] && m[14] == n[14] && m[15] == n[15]
    ensures m == n
  {
    forall i | 0 <= i < 16
      ensures m[i] == n[i]
    {
      assert i == 0 || i == 1 || i == 2 || i == 3 || i == 4 || i == 5 || i == 6 || i == 7
          || i == 8 || i == 9 || i == 10 || i == 11 || i == 12 || i == 13 || i == 14 || i == 15;
    }
  }

  /** Two vectors are equal once their four entries are. */
  lemma EqualVectors(u: Vec4, v: Vec4)
    requires u[0] == v[0] && u[1] == v[1] && u[2] == v[2] && u[3] == v[3]
    ensures u == v
  {
    forall i | 0 <= i < 4
      ensures u[i] == v[i]
    {
      assert i == 0 || i == 1 || i == 2 || i == 3;
    }
  }

  /** mulV4 of a matrix and a vector written out entry by entry. */
  lemma MulV4OfDisplays(a0: real, a1: real, a2: real, a3: real, a4: real, a5: real, a6: real, a7: real,
                        a8: real, a9: real, a10: real, a11: real, a12: real, a13: real, a14: real, a15: real,
                        v0: real, v1: real, v2: real, v3: real)
    ensures MulV4([a0, a1, a2, a3, a4, a5, a6, a7, a8, a9, a10, a11, a12, a13, a14, a15], [v0, v1, v2, v3])[0]
         == a0 * v0 + a4 * v1 + a8 * v2 + a12 * v3
    ensures MulV4([a0, a1, a2, a3, a4, a5, a6, a7, a8, a9, a10, a11, a12, a13, a14, a15], [v0, v1, v2, v3])[1]
         == a1 * v0 + a5 * v1 + a9 * v2 + a13 * v3
    ensures MulV4([a0, a1, a2, a3, a4, a5, a6, a7, a8, a9, a10, a11, a12, a13, a14, a15], [v0, v1, v2, v3])[2]
         == a2 * v0 + a6 * v1 + a10 * v2 + a14 * v3
    ensures MulV4([a0, a1, a2, a3, a4, a5, a6, a7, a8, a9, a10, a11, a12, a13, a14, a15], [v0, v1, v2, v3])[3]
         == a3 * v0 + a7 * v1 + a11 * v2 + a15 * v3
  {
  }

  /** Two rotations about the same axis compose by adding their angles:
      (c1, s1) and (c2, s2) give cos and sin of the sum. */
  lemma RotXCompose(c1: real, s1: real, c2: real, s2: real)
    ensures MulM4(RotX(c1, s1), RotX(c2, s2)) == RotX(c1 * c2 - s1 * s2, s1 * c2 + c1 * s2)
  {
    EqualEntries(MulM4(RotX(c1, s1), RotX(c2, s2)), RotX(c1 * c2 - s1 * s2, s1 * c2 + c1 * s2));
  }

  lemma RotYCompose(c1: real, s1: real, c2: real, s2: real)
    ensures MulM4(RotY(c1, s1), RotY(c2, s2)) == RotY(c1 * c2 - s1 * s2, s1 * c2 + c1 * s2)
  {
    EqualEntries(MulM4(RotY(c1, s1), RotY(c2, s2)), RotY(c1 * c2 - s1 * s2, s1 * c2 + c1 * s2));
  }

  lemma RotZCompose(c1: real, s1: real, c2: real, s2: real)
    ensures MulM4(RotZ(c1, s1), RotZ(c2, s2)) == RotZ(c1 * c2 - s1 * s2, s1 * c2 + c1 * s2)
  {
    EqualEntries(MulM4(RotZ(c1, s1), RotZ(c2, s2)), RotZ(c1 * c2 - s1 * s2, s1 * c2 + c1 * s2));
  }

  /** With c = cos(t) and s = sin(t), rotX(-t) undoes rotX(t). */
  lemma RotXInverse(c: real, s: real)
    requires c * c + s * s == 1.0
    ensures MulM4(RotX(c, -s), RotX(c, s)) == Identity()
  {
    var t := -s;
    RotXCompose(c, t, c, s);
    assert c * c - t * s == 1.0 && t * c + c * s == 0.0;
    EqualEntries(RotX(1.0, 0.0), Identity());
  }

  lemma RotYInverse(c: real, s: real)
    requires c * c + s * s == 1.0
    ensures MulM4(RotY(c, -s), RotY(c, s)) == Identity()
  {
    var t := -s;
    RotYCompose(c, t, c, s);
    assert c * c - t * s == 1.0 && t * c + c * s == 0.0;
    EqualEntries(RotY(1.0, 0.0), Identity());
  }

  lemma RotZInverse(c: real, s: real)
    requires c * c + s * s == 1.0
    ensures MulM4(RotZ(c, -s), RotZ(c, s)) == Identity()
  {
    var t := -s;
    RotZCompose(c, t, c, s);
    assert c * c - t * s == 1.0 && t * c + c * s == 0.0;
    EqualEntries(RotZ(1.0, 0.0), Identity());
  }

  // ---------------------------------------------------------------------
  // Perspective

  /** perspective sends the near plane z = -nearZ to clip depth -w and the
      far plane z = -farZ to clip depth +w, that is, to normalised depths -1
      and +1; x and y are scaled by the cotangent of half the field of view,
      x once more by the aspect ratio. */
  lemma PerspectiveDepthRange(cot: real -> real, fovYDeg: real, screenW: real, screenH: real,
                              nearZ: real, farZ: real, x: real, y: real)
    requires screenW != 0.0 && nearZ != farZ
    ensures var h := cot(fovYDeg * Deg2Rad / 2.0);
            var p := MulV4(Perspective(cot, fovYDeg, screenW, screenH, nearZ, farZ), [x, y, -nearZ, 1.0]);
            p[0] == h * (screenH / screenW) * x && p[1] == h * y && p[2] == -nearZ && p[3] == nearZ
    ensures var p := MulV4(Perspective(cot, fovYDeg, screenW, screenH, nearZ, farZ), [x, y, -farZ, 1.0]);
            p[2] == farZ && p[3] == farZ
  {
    var h := cot(fovYDeg * Deg2Rad / 2.0);
    var w := h * (screenH / screenW);
    var d := nearZ - farZ;
    var a, b := (farZ + nearZ) / d, 2.0 * nearZ * farZ / d;
    EqualEntries(Perspective(cot, fovYDeg, screenW, screenH, nearZ, farZ),
                 [w, 0.0, 0.0, 0.0, 0.0, h, 0.0, 0.0, 0.0, 0.0, a, -1.0, 0.0, 0.0, b, 0.0]);
    MulV4OfDisplays(w, 0.0, 0.0, 0.0, 0.0, h, 0.0, 0.0, 0.0, 0.0, a, -1.0, 0.0, 0.0, b, 0.0, x, y, -nearZ, 1.0);
    MulV4OfDisplays(w, 0.0, 0.0, 0.0, 0.0, h, 0.0, 0.0, 0.0, 0.0, a, -1.0, 0.0, 0.0, b, 0.0, x, y, -farZ, 1.0);
    NearDepth(nearZ, farZ, d);
    FarDepth(nearZ, farZ, d);
  }

  lemma NearDepth(n: real, f: real, d: real)
    requires d == n - f && d != 0.0
    ensures (f + n) / d * -n + 2.0 * n * f / d == -n
  {
    assert (f + n) / d * -n + 2.0 * n * f / d == (-(f + n) * n + 2.0 * n * f) / d;
    assert -(f + n) * n + 2.0 * n * f == -n * d;
  }

  lemma FarDepth(n: real, f: real, d: real)
    requires d == n - f && d != 0.0
    ensures (f + n) / d * -f + 2.0 * n * f / d == f
  {
    assert (f + n) / d * -f + 2.0 * n * f / d == (-(f + n) * f + 2.0 * n * f) / d;
    assert -(f + n) * f + 2.0 * n * f == f * d;
  }
}
