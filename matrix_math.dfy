/** The host-side matrix routines of Game/MatrixMath.h, over the reals.

    A matrix is stored as four axis vectors X, Y, Z and W (rows, `cl_float4`),
    and transforms row vectors: a point `p` goes to `p.x*X + p.y*Y + p.z*Z + W`.
    The routines that fill out-parameters from their inputs are functions here;
    the overloads that overwrite the caller's axes (a point transformed in place,
    a matrix multiplied in place, a rotation built up step by step) are methods
    of `Axes4` and `Axes3`, which hold the caller's axis variables.
    `cos` and `sin` are not modelled: they are parameters, and each lemma names
    the trigonometric facts it needs at the angles it uses. */
module MatrixMath {
  import opened Float3

  /** four axis vectors; `W` carries the translation */
  datatype Mat4 = Mat4(X: Vec4, Y: Vec4, Z: Vec4, W: Vec4) {
    /** the axis (row) `i` */
    function Row(i: nat): Vec4
      requires i < 4
    {
      if i == 0 then X else if i == 1 then Y else if i == 2 then Z else W
    }

    /** component `j` of axis `i`, `axis_i.s[j]` */
    function Entry(i: nat, j: nat): real
      requires i < 4 && j < 4
    {
      Row(i).Get(j)
    }

    /** the X, Y and Z axes each have a zero `w` component */
    predicate LinearAxes() {
      X.w == 0.0 && Y.w == 0.0 && Z.w == 0.0
    }

    /** an affine matrix: linear axes and `W.w == 1` */
    predicate Affine() {
      LinearAxes() && W.w == 1.0
    }

    /** the three-component axes the `float3` overloads work on */
    function Block(): Mat3 {
      Mat3(X.Xyz(), Y.Xyz(), Z.Xyz())
    }
  }

  /** three `float3` axes, for the overloads without a W axis */
  datatype Mat3 = Mat3(X: Vec3, Y: Vec3, Z: Vec3) {
    function Row(i: nat): Vec3
      requires i < 3
    {
      if i == 0 then X else if i == 1 then Y else Z
    }
  }

  function Add4(a: Vec4, b: Vec4): Vec4 { Vec4(a.x + b.x, a.y + b.y, a.z + b.z, a.w + b.w) }
  function Scale4(a: Vec4, k: real): Vec4 { Vec4(a.x * k, a.y * k, a.z * k, a.w * k) }
  function Neg3(a: Vec3): Vec3 { Vec3(-a.x, -a.y, -a.z) }

  /** one output axis of the product: the row `a` combined with the axes of `b` */
  function RowTimes(a: Vec4, b: Mat4): Vec4 {
    Vec4(a.x * b.X.x + a.y * b.Y.x + a.z * b.Z.x + a.w * b.W.x,
         a.x * b.X.y + a.y * b.Y.y + a.z * b.Z.y + a.w * b.W.y,
         a.x * b.X.z + a.y * b.Y.z + a.z * b.Z.z + a.w * b.W.z,
         a.x * b.X.w + a.y * b.Y.w + a.z * b.Z.w + a.w * b.W.w)
  }

  /** the 12-argument `TransformMatrixByMatrix`: out = A * B. Each output
      axis is the matching axis of A transformed, as a row, by B */
  function Mul(a: Mat4, b: Mat4): (r: Mat4)
    ensures forall i :: 0 <= i < 4 ==> r.Row(i) == RowTimes(a.Row(i), b)
  {
    Mat4(RowTimes(a.X, b), RowTimes(a.Y, b), RowTimes(a.Z, b), RowTimes(a.W, b))
  }

  /** `MatrixIdentity` */
  const Identity: Mat4 :=
    Mat4(Vec4(1.0, 0.0, 0.0, 0.0), Vec4(0.0, 1.0, 0.0, 0.0),
         Vec4(0.0, 0.0, 1.0, 0.0), Vec4(0.0, 0.0, 0.0, 1.0))

  /** `MatrixTranslation`: the identity axes with `t` in W */
  function Translation(t: Vec3): (r: Mat4)
    ensures r.Affine()
    ensures r.X == Identity.X && r.Y == Identity.Y && r.Z == Identity.Z
    ensures r.W.Xyz() == t
  {
    Mat4(Identity.X, Identity.Y, Identity.Z, Vec4(t.x, t.y, t.z, 1.0))
  }

  /** `MatrixScale`: a uniform scale on the diagonal (W.w stays 1) */
  function ScaleMatrix(k: real): (r: Mat4)
    ensures r.Affine()
    ensures forall i, j :: 0 <= i < 3 && 0 <= j < 4 ==> r.Entry(i, j) == if i == j then k else 0.0
  {
    Mat4(Vec4(k, 0.0, 0.0, 0.0), Vec4(0.0, k, 0.0, 0.0), Vec4(0.0, 0.0, k, 0.0), Identity.W)
  }

  /** `MatrixRotationX` (four-axis overload): the X axis and the origin stay fixed */
  function RotationX(rot: real, cos: real -> real, sin: real -> real): (r: Mat4)
    ensures r.X == Identity.X && r.W == Identity.W
  {
    Mat4(Vec4(1.0, 0.0, 0.0, 0.0),
         Vec4(0.0, cos(rot), -sin(rot), 0.0),
         Vec4(0.0, sin(rot), cos(rot), 0.0),
         Vec4(0.0, 0.0, 0.0, 1.0))
  }

  /** `MatrixRotationY` (four-axis overload): the Y axis and the origin stay fixed */
  function RotationY(rot: real, cos: real -> real, sin: real -> real): (r: Mat4)
    ensures r.Y == Identity.Y && r.W == Identity.W
  {
    Mat4(Vec4(cos(rot), 0.0, sin(rot), 0.0),
         Vec4(0.0, 1.0, 0.0, 0.0),
         Vec4(-sin(rot), 0.0, cos(rot), 0.0),
         Vec4(0.0, 0.0, 0.0, 1.0))
  }

  /** `MatrixRotationZ` (four-axis overload): the Z axis and the origin stay fixed */
  function RotationZ(rot: real, cos: real -> real, sin: real -> real): (r: Mat4)
    ensures r.Z == Identity.Z && r.W == Identity.W
  {
    Mat4(Vec4(cos(rot), -sin(rot), 0.0, 0.0),
         Vec4(sin(rot), cos(rot), 0.0, 0.0),
         Vec4(0.0, 0.0, 1.0, 0.0),
         Vec4(0.0, 0.0, 0.0, 1.0))
  }

  /** what `MatrixRotation` leaves in its axes: X, then Y, then Z rotation;
      an affine matrix */
  function Rotation(rx: real, ry: real, rz: real, cos: real -> real, sin: real -> real): (r: Mat4)
    ensures r.Affine()
  {
    RotationsAffine(rx, cos, sin);
    RotationsAffine(ry, cos, sin);
    RotationsAffine(rz, cos, sin);
    MulAffine(RotationX(rx, cos, sin), RotationY(ry, cos, sin));
    MulAffine(Mul(RotationX(rx, cos, sin), RotationY(ry, cos, sin)), RotationZ(rz, cos, sin));
    Mul(Mul(RotationX(rx, cos, sin), RotationY(ry, cos, sin)), RotationZ(rz, cos, sin))
  }

  /** what `MatrixUnrotation` leaves in its axes: -Z, then -Y, then -X
      rotation; an affine matrix */
  function Unrotation(rx: real, ry: real, rz: real, cos: real -> real, sin: real -> real): (r: Mat4)
    ensures r.Affine()
  {
    RotationsAffine(-rx, cos, sin);
    RotationsAffine(-ry, cos, sin);
    RotationsAffine(-rz, cos, sin);
    MulAffine(RotationZ(-rz, cos, sin), RotationY(-ry, cos, sin));
    MulAffine(Mul(RotationZ(-rz, cos, sin), RotationY(-ry, cos, sin)), RotationX(-rx, cos, sin));
    Mul(Mul(RotationZ(-rz, cos, sin), RotationY(-ry, cos, sin)), RotationX(-rx, cos, sin))
  }

  /** the facts about `cos` and `sin` at one angle that the rotation lemmas use */
  ghost predicate TrigAt(cos: real -> real, sin: real -> real, a: real) {
    cos(-a) == cos(a) && sin(-a) == -sin(a) && cos(a) * cos(a) + sin(a) * sin(a) == 1.0
  }

  /** `TransformVectorByMatrix`: x*X + y*Y + z*Z on three components; W is ignored */
  function TransformVector(v: Vec3, m: Mat4): (r: Vec3)
    ensures r == Add(Add(Scale(m.X.Xyz(), v.x), Scale(m.Y.Xyz(), v.y)), Scale(m.Z.Xyz(), v.z))
  {
    Vec3(Combine(v, m.X.x, m.Y.x, m.Z.x),
         Combine(v, m.X.y, m.Y.y, m.Z.y),
         Combine(v, m.X.z, m.Y.z, m.Z.z))
  }

  /** `TransformPointByMatrix`: the vector transform plus the W axis */
  function TransformPoint(p: Vec3, m: Mat4): (r: Vec3)
    ensures r == Add(TransformVector(p, m), m.W.Xyz())
  {
    Vec3(Combine(p, m.X.x, m.Y.x, m.Z.x) + 1.0 * m.W.x,
         Combine(p, m.X.y, m.Y.y, m.Z.y) + 1.0 * m.W.y,
         Combine(p, m.X.z, m.Y.z, m.Z.z) + 1.0 * m.W.z)
  }

  /** `TransformPointOrVectorByMatrix`: three `float3` axes, no translation */
  function TransformByAxes(v: Vec3, m: Mat3): (r: Vec3)
    ensures r == Add(Add(Scale(m.X, v.x), Scale(m.Y, v.y)), Scale(m.Z, v.z))
  {
    Vec3(Combine(v, m.X.x, m.Y.x, m.Z.x),
         Combine(v, m.X.y, m.Y.y, m.Z.y),
         Combine(v, m.X.z, m.Y.z, m.Z.z))
  }

  /** the 9-argument `float3` `TransformMatrixByMatrix`: out = A * B on 3x3;
      each axis of the product combines B's axes with the weights of A's axis */
  function Mul3(a: Mat3, b: Mat3): (r: Mat3)
    ensures forall i :: 0 <= i < 3 ==>
      r.Row(i) == Add(Add(Scale(b.X, a.Row(i).x), Scale(b.Y, a.Row(i).y)), Scale(b.Z, a.Row(i).z))
  {
    Mat3(TransformByAxes(a.X, b), TransformByAxes(a.Y, b), TransformByAxes(a.Z, b))
  }

  const Identity3: Mat3 := Identity.Block()

  // ---------------------------------------------------------------------------
  // The product

  /** `a.x*c.x + a.y*c.y + a.z*c.z + a.w*c.w` */
  function Dot4(a: Vec4, c: Vec4): real { a.x * c.x + a.y * c.y + a.z * c.z + a.w * c.w }

  /** component `j` of every axis of B */
  function Column(b: Mat4, j: nat): Vec4
    requires j < 4
  {
    if j == 0 then Vec4(b.X.x, b.Y.x, b.Z.x, b.W.x)
    else if j == 1 then Vec4(b.X.y, b.Y.y, b.Z.y, b.W.y)
    else if j == 2 then Vec4(b.X.z, b.Y.z, b.Z.z, b.W.z)
    else Vec4(b.X.w, b.Y.w, b.Z.w, b.W.w)
  }

  /** a combined row, component by component */
  lemma RowAsDots(v: Vec4, a: Mat4)
    ensures RowTimes(v, a)
         == Vec4(Dot4(v, Column(a, 0)), Dot4(v, Column(a, 1)), Dot4(v, Column(a, 2)), Dot4(v, Column(a, 3)))
  {}

  /** entry (i, j) of A * B is the sum over k of A(i, k) * B(k, j): axis `i` of A
      combined (`Dot4`) with the column whose components are B(0, j) .. B(3, j) */
  lemma {:induction false} MulEntry(a: Mat4, b: Mat4, i: nat, j: nat)
    requires i < 4 && j < 4
    ensures Mul(a, b).Entry(i, j) == Dot4(a.Row(i), Column(b, j))
    ensures Column(b, j) == Vec4(b.Entry(0, j), b.Entry(1, j), b.Entry(2, j), b.Entry(3, j))
  {
    var r := a.Row(i);
    assert Mul(a, b).Row(i) == RowTimes(r, b);
    RowAsDots(r, b);
  }

  /** the identity axes are neutral on both sides of the product */
  lemma MulIdentity(a: Mat4)
    ensures Mul(Identity, a) == a
    ensures Mul(a, Identity) == a
  {}

  /** column `j` of A * B combines each axis of A with column `j` of B */
  lemma ColumnOfMul(a: Mat4, b: Mat4, j: nat)
    requires j < 4
    ensures Column(Mul(a, b), j)
         == Vec4(Dot4(a.X, Column(b, j)), Dot4(a.Y, Column(b, j)), Dot4(a.Z, Column(b, j)), Dot4(a.W, Column(b, j)))
  {
    RowAsDots(a.X, b);
    RowAsDots(a.Y, b);
    RowAsDots(a.Z, b);
    RowAsDots(a.W, b);
  }

  /** the scalar identity behind associativity: the two double sums agree */
  lemma {:induction false} DotExchange(v: Vec4, a: Mat4, c: Vec4)
    ensures Dot4(Vec4(Dot4(v, Column(a, 0)), Dot4(v, Column(a, 1)), Dot4(v, Column(a, 2)), Dot4(v, Column(a, 3))), c)
         == Dot4(v, Vec4(Dot4(a.X, c), Dot4(a.Y, c), Dot4(a.Z, c), Dot4(a.W, c)))
  {
    var s0, s1 := Scale4(Column(a, 0), c.x), Scale4(Column(a, 1), c.y);
    var s2, s3 := Scale4(Column(a, 2), c.z), Scale4(Column(a, 3), c.w);
    DotScale(v, Column(a, 0), c.x);
    DotScale(v, Column(a, 1), c.y);
    DotScale(v, Column(a, 2), c.z);
    DotScale(v, Column(a, 3), c.w);
    DotAdd(v, s0, s1);
    DotAdd(v, Add4(s0, s1), s2);
    DotAdd(v, Add4(Add4(s0, s1), s2), s3);
    WeightedColumnsAt(a, c, 0);
    WeightedColumnsAt(a, c, 1);
    WeightedColumnsAt(a, c, 2);
    WeightedColumnsAt(a, c, 3);
    assert Add4(Add4(Add4(s0, s1), s2), s3) == WeightedColumns(a, c);
  }

  /** the columns of A weighted by the components of `c`, added up */
  function WeightedColumns(a: Mat4, c: Vec4): Vec4 {
    Add4(Add4(Add4(Scale4(Column(a, 0), c.x), Scale4(Column(a, 1), c.y)), Scale4(Column(a, 2), c.z)),
         Scale4(Column(a, 3), c.w))
  }

  /** component `i` of the weighted columns is axis `i` of A combined with `c` */
  lemma {:induction false} WeightedColumnsAt(a: Mat4, c: Vec4, i: nat)
    requires i < 4
    ensures WeightedColumns(a, c).Get(i) == Dot4(a.Row(i), c)
  {
    var r := a.Row(i);
    assert Column(a, 0).Get(i) == r.x && Column(a, 1).Get(i) == r.y;
    assert Column(a, 2).Get(i) == r.z && Column(a, 3).Get(i) == r.w;
  }

  /** `Dot4` is linear in its second argument */
  lemma DotScale(v: Vec4, u: Vec4, k: real)
    ensures Dot4(v, u) * k == Dot4(v, Scale4(u, k))
  {}

  lemma DotAdd(v: Vec4, u: Vec4, w: Vec4)
    ensures Dot4(v, u) + Dot4(v, w) == Dot4(v, Add4(u, w))
  {}

  /** combining a row with A and then with B is combining it with A * B */
  lemma {:induction false} RowTimesMul(v: Vec4, a: Mat4, b: Mat4)
    ensures RowTimes(RowTimes(v, a), b) == RowTimes(v, Mul(a, b))
  {
    var t := RowTimes(v, a);
    RowAsDots(v, a);
    RowAsDots(t, b);
    RowAsDots(v, Mul(a, b));
    forall j | 0 <= j < 4
      ensures Dot4(t, Column(b, j)) == Dot4(v, Column(Mul(a, b), j))
    {
      DotExchange(v, a, Column(b, j));
      ColumnOfMul(a, b, j);
    }
  }

  /** the product is associative */
  lemma {:induction false} MulAssociative(a: Mat4, b: Mat4, c: Mat4)
    ensures Mul(Mul(a, b), c) == Mul(a, Mul(b, c))
  {
    RowTimesMul(a.X, b, c);
    RowTimesMul(a.Y, b, c);
    RowTimesMul(a.Z, b, c);
    RowTimesMul(a.W, b, c);
  }

  /** the product of affine matrices is affine */
  lemma MulAffine(a: Mat4, b: Mat4)
    requires a.Affine() && b.Affine()
    ensures Mul(a, b).Affine()
  {}

  lemma RowBlock(r: Vec4, b: Mat4)
    requires r.w == 0.0
    ensures TransformByAxes(r.Xyz(), b.Block()) == RowTimes(r, b).Xyz()
  {
    assert r.w * b.W.x == 0.0 && r.w * b.W.y == 0.0 && r.w * b.W.z == 0.0;
  }

  /** with linear X, Y, Z axes in A, the 3x3 product is the upper-left block of the 4x4 one */
  lemma {:induction false} MulBlock(a: Mat4, b: Mat4)
    requires a.LinearAxes()
    ensures Mul3(a.Block(), b.Block()) == Mul(a, b).Block()
  {
    RowBlock(a.X, b);
    RowBlock(a.Y, b);
    RowBlock(a.Z, b);
  }

  /** the identity axes pick out the axes of `a`, and leave `v` unchanged */
  lemma AxesIdentity(v: Vec3, a: Mat3)
    ensures TransformByAxes(v, Identity3) == v
    ensures TransformByAxes(Identity3.X, a) == a.X
    ensures TransformByAxes(Identity3.Y, a) == a.Y
    ensures TransformByAxes(Identity3.Z, a) == a.Z
  {
    assert Identity3 == Mat3(Vec3(1.0, 0.0, 0.0), Vec3(0.0, 1.0, 0.0), Vec3(0.0, 0.0, 1.0));
  }

  lemma {:induction false} Mul3Identity(a: Mat3)
    ensures Mul3(Identity3, a) == a
    ensures Mul3(a, Identity3) == a
  {
    assert Mul3(Identity3, a) == a by {
      AxesIdentity(a.X, a);
    }
    assert Mul3(a, Identity3) == a by {
      AxesIdentity(a.X, a);
      AxesIdentity(a.Y, a);
      AxesIdentity(a.Z, a);
    }
  }

  // ---------------------------------------------------------------------------
  // Transforming points and vectors

  /** a point as a row with `w == 1`, a vector as a row with `w == 0` */
  function PointRow(p: Vec3): Vec4 { Vec4(p.x, p.y, p.z, 1.0) }
  function VectorRow(v: Vec3): Vec4 { Vec4(v.x, v.y, v.z, 0.0) }

  /** the point transform is the product of the point's row with the matrix */
  lemma PointAsRow(p: Vec3, m: Mat4)
    ensures TransformPoint(p, m) == RowTimes(PointRow(p), m).Xyz()
  {}

  /** the vector transform is the product of the vector's row with the matrix */
  lemma VectorAsRow(v: Vec3, m: Mat4)
    ensures TransformVector(v, m) == RowTimes(VectorRow(v), m).Xyz()
  {}

  /** the vector transform is linear */
  lemma {:induction false} TransformVectorLinear(a: Vec3, b: Vec3, k: real, m: Mat4)
    ensures TransformVector(Add(a, b), m) == Add(TransformVector(a, m), TransformVector(b, m))
    ensures TransformVector(Scale(a, k), m) == Scale(TransformVector(a, m), k)
  {
    CombineLinear(a, b, k, m.X.x, m.Y.x, m.Z.x);
    CombineLinear(a, b, k, m.X.y, m.Y.y, m.Z.y);
    CombineLinear(a, b, k, m.X.z, m.Y.z, m.Z.z);
  }

  /** the difference of two transformed points is the transformed difference */
  lemma {:induction false} TransformPointDifference(p: Vec3, q: Vec3, m: Mat4)
    ensures Sub(TransformPoint(p, m), TransformPoint(q, m)) == TransformVector(Sub(p, q), m)
  {
    CombineLinear(p, q, 1.0, m.X.x, m.Y.x, m.Z.x);
    CombineLinear(p, q, 1.0, m.X.y, m.Y.y, m.Z.y);
    CombineLinear(p, q, 1.0, m.X.z, m.Y.z, m.Z.z);
  }

  /** the identity axes leave points and vectors unchanged */
  lemma TransformIdentity(p: Vec3)
    ensures TransformPoint(p, Identity) == p
    ensures TransformVector(p, Identity) == p
    ensures TransformByAxes(p, Identity3) == p
  {}

  /** the `float3`-axes transform is the vector transform on the same three axes */
  lemma TransformByAxesIsVector(v: Vec3, m: Mat4)
    ensures TransformByAxes(v, m.Block()) == TransformVector(v, m)
  {}

  /** transforming a point by A * B is transforming it by A and then by B, for affine A */
  lemma {:induction false} TransformPointCompose(p: Vec3, a: Mat4, b: Mat4)
    requires a.Affine()
    ensures TransformPoint(p, Mul(a, b)) == TransformPoint(TransformPoint(p, a), b)
  {
    PointAsRow(p, Mul(a, b));
    RowTimesMul(PointRow(p), a, b);
    PointAsRow(p, a);
    assert RowTimes(PointRow(p), a) == PointRow(TransformPoint(p, a));
    PointAsRow(TransformPoint(p, a), b);
  }

  /** vectors compose the same way whenever A's X, Y and Z axes are linear */
  lemma {:induction false} TransformVectorCompose(v: Vec3, a: Mat4, b: Mat4)
    requires a.LinearAxes()
    ensures TransformVector(v, Mul(a, b)) == TransformVector(TransformVector(v, a), b)
  {
    VectorAsRow(v, Mul(a, b));
    RowTimesMul(VectorRow(v), a, b);
    VectorAsRow(v, a);
    assert RowTimes(VectorRow(v), a) == VectorRow(TransformVector(v, a));
    VectorAsRow(TransformVector(v, a), b);
  }

  /** a translation moves points by `t` and leaves vectors alone */
  lemma TranslationMoves(p: Vec3, t: Vec3)
    ensures TransformPoint(p, Translation(t)) == Add(p, t)
    ensures TransformVector(p, Translation(t)) == p
  {}

  /** translating by `t` and then by `-t` is the identity */
  lemma TranslationInverse(t: Vec3)
    ensures Mul(Translation(t), Translation(Neg3(t))) == Identity
    ensures Mul(Translation(Neg3(t)), Translation(t)) == Identity
  {}

  /** the scale matrix scales points and vectors */
  lemma ScaleMatrixScales(p: Vec3, k: real)
    ensures TransformPoint(p, ScaleMatrix(k)) == Scale(p, k)
    ensures TransformVector(p, ScaleMatrix(k)) == Scale(p, k)
  {}

  // ---------------------------------------------------------------------------
  // Rotations

  lemma RotationXInverse(a: real, cos: real -> real, sin: real -> real)
    requires TrigAt(cos, sin, a)
    ensures Mul(RotationX(a, cos, sin), RotationX(-a, cos, sin)) == Identity
  {}

  lemma RotationYInverse(a: real, cos: real -> real, sin: real -> real)
    requires TrigAt(cos, sin, a)
    ensures Mul(RotationY(a, cos, sin), RotationY(-a, cos, sin)) == Identity
  {}

  lemma RotationZInverse(a: real, cos: real -> real, sin: real -> real)
    requires TrigAt(cos, sin, a)
    ensures Mul(RotationZ(a, cos, sin), RotationZ(-a, cos, sin)) == Identity
  {}

  /** the elementary rotations are affine */
  lemma RotationsAffine(a: real, cos: real -> real, sin: real -> real)
    ensures RotationX(a, cos, sin).Affine()
    ensures RotationY(a, cos, sin).Affine()
    ensures RotationZ(a, cos, sin).Affine()
  {}

  /** `MatrixUnrotation` undoes `MatrixRotation` */
  lemma {:induction false} RotationUnrotation(rx: real, ry: real, rz: real, cos: real -> real, sin: real -> real)
    requires TrigAt(cos, sin, rx) && TrigAt(cos, sin, ry) && TrigAt(cos, sin, rz)
    ensures Mul(Rotation(rx, ry, rz, cos, sin), Unrotation(rx, ry, rz, cos, sin)) == Identity
  {
    var x, y, z := RotationX(rx, cos, sin), RotationY(ry, cos, sin), RotationZ(rz, cos, sin);
    var x', y', z' := RotationX(-rx, cos, sin), RotationY(-ry, cos, sin), RotationZ(-rz, cos, sin);
    RotationXInverse(rx, cos, sin);
    RotationYInverse(ry, cos, sin);
    RotationZInverse(rz, cos, sin);
    calc {
      Mul(Mul(Mul(x, y), z), Mul(Mul(z', y'), x'));
      { MulAssociative(Mul(x, y), z, Mul(Mul(z', y'), x')); }
      Mul(Mul(x, y), Mul(z, Mul(Mul(z', y'), x')));
      { MulAssociative(z', y', x'); MulAssociative(z, z', Mul(y', x')); }
      Mul(Mul(x, y), Mul(Mul(z, z'), Mul(y', x')));
      { MulIdentity(Mul(y', x')); }
      Mul(Mul(x, y), Mul(y', x'));
      { MulAssociative(x, y, Mul(y', x')); }
      Mul(x, Mul(y, Mul(y', x')));
      { MulAssociative(y, y', x'); MulIdentity(x'); }
      Mul(x, x');
      Identity;
    }
  }

  // ---------------------------------------------------------------------------
  // The overloads that overwrite their arguments

  /** the in-place `TransformPointByMatrix(point, ...)` */
  method TransformPointInPlace(p: Float3Ref, m: Mat4)
    modifies p
    ensures p.v == TransformPoint(old(p.v), m)
  {
    var transformed := TransformPoint(p.v, m);
    p.v := transformed;
  }

  /** the in-place `TransformVectorByMatrix(point, ...)` */
  method TransformVectorInPlace(p: Float3Ref, m: Mat4)
    modifies p
    ensures p.v == TransformVector(old(p.v), m)
  {
    var transformed := TransformVector(p.v, m);
    p.v := transformed;
  }

  /** the in-place `TransformPointOrVectorByMatrix(point, ...)` */
  method TransformByAxesInPlace(p: Float3Ref, m: Mat3)
    modifies p
    ensures p.v == TransformByAxes(old(p.v), m)
  {
    var transformed := TransformByAxes(p.v, m);
    p.v := transformed;
  }

  /** Four `cl_float4` axis variables of a caller, overwritten by the in-place
      product and by `MatrixRotation` / `MatrixUnrotation`. */
  class Axes4 {
    var x: Vec4
    var y: Vec4
    var z: Vec4
    var w: Vec4

    function Matrix(): Mat4
      reads this
    {
      Mat4(x, y, z, w)
    }

    constructor (m: Mat4)
      ensures Matrix() == m
    {
      x, y, z, w := m.X, m.Y, m.Z, m.W;
    }

    /** `MatrixIdentity`, `MatrixRotationX/Y/Z` and friends writing their out-parameters */
    method Set(m: Mat4)
      modifies this
      ensures Matrix() == m
    {
      x, y, z, w := m.X, m.Y, m.Z, m.W;
    }

    /** the 8-argument `TransformMatrixByMatrix`: the product goes into temporaries
        first, so the result is A * B although A is overwritten */
    method MulInPlace(b: Mat4)
      modifies this
      ensures Matrix() == Mul(old(Matrix()), b)
    {
      var tx := RowTimes(x, b);
      var ty := RowTimes(y, b);
      var tz := RowTimes(z, b);
      var tw := RowTimes(w, b);
      x := tx;
      y := ty;
      z := tz;
      w := tw;
    }

    /** `MatrixRotation`: the X rotation, then the Y and Z rotations applied in place */
    method MakeRotation(rx: real, ry: real, rz: real, cos: real -> real, sin: real -> real)
      modifies this
      ensures Matrix() == Rotation(rx, ry, rz, cos, sin)
    {
      Set(RotationX(rx, cos, sin));
      var temp := RotationY(ry, cos, sin);
      MulInPlace(temp);
      temp := RotationZ(rz, cos, sin);
      MulInPlace(temp);
    }

    /** `MatrixUnrotation`: the -Z rotation, then -Y and -X applied in place */
    method MakeUnrotation(rx: real, ry: real, rz: real, cos: real -> real, sin: real -> real)
      modifies this
      ensures Matrix() == Unrotation(rx, ry, rz, cos, sin)
    {
      Set(RotationZ(-rz, cos, sin));
      var temp := RotationY(-ry, cos, sin);
      MulInPlace(temp);
      temp := RotationX(-rx, cos, sin);
      MulInPlace(temp);
    }
  }

  /** Three `float3` axis variables of a caller, for the `float3` overloads. */
  class Axes3 {
    var x: Vec3
    var y: Vec3
    var z: Vec3

    function Matrix(): Mat3
      reads this
    {
      Mat3(x, y, z)
    }

    constructor (m: Mat3)
      ensures Matrix() == m
    {
      x, y, z := m.X, m.Y, m.Z;
    }

    method Set(m: Mat3)
      modifies this
      ensures Matrix() == m
    {
      x, y, z := m.X, m.Y, m.Z;
    }

    /** the 6-argument `TransformMatrixByMatrix`, through temporaries */
    method MulInPlace(b: Mat3)
      modifies this
      ensures Matrix() == Mul3(old(Matrix()), b)
    {
      var tx := TransformByAxes(x, b);
      var ty := TransformByAxes(y, b);
      var tz := TransformByAxes(z, b);
      x := tx;
      y := ty;
      z := tz;
    }

    /** the `float3` `MatrixRotation`: the upper-left block of the four-axis rotation */
    method MakeRotation(rx: real, ry: real, rz: real, cos: real -> real, sin: real -> real)
      modifies this
      ensures Matrix() == Rotation(rx, ry, rz, cos, sin).Block()
    {
      var rotX, rotY, rotZ := RotationX(rx, cos, sin), RotationY(ry, cos, sin), RotationZ(rz, cos, sin);
      Set(rotX.Block());
      MulInPlace(rotY.Block());
      MulInPlace(rotZ.Block());
      MulBlock(rotX, rotY);
      RotationsAffine(rx, cos, sin);
      RotationsAffine(ry, cos, sin);
      MulAffine(rotX, rotY);
      MulBlock(Mul(rotX, rotY), rotZ);
    }
  }
}
