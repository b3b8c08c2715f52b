/** The host-side three-component vector of Platform/float3.h, over the reals.

    `float3` is a value type: the arithmetic operators, `dot`, `cross` and
    `plane` are pure and become functions here. The compound assignments
    (`+=`, `-=`, `*=`, `/=`) change the receiver in place and are methods of
    `Float3Ref`, a cell holding one `float3`. `length` calls `sqrt`, which is
    not modelled: it is a parameter, and each lemma names what it needs of it. */
module Float3 {

  datatype Vec3 = Vec3(x: real, y: real, z: real) {
    /** `operator[]`: component `i` */
    function Get(i: nat): real
      requires i < 3
    {
      if i == 0 then x else if i == 1 then y else z
    }

    /** the same vector with component `i` replaced by `v` */
    function With(i: nat, v: real): (r: Vec3)
      requires i < 3
      ensures r.Get(i) == v
      ensures forall j :: 0 <= j < 3 && j != i ==> r.Get(j) == Get(j)
    {
      if i == 0 then Vec3(v, y, z) else if i == 1 then Vec3(x, v, z) else Vec3(x, y, v)
    }
  }

  /** `cl_float4`: four components, the last one `w` (`s[3]`) */
  datatype Vec4 = Vec4(x: real, y: real, z: real, w: real) {
    function Get(i: nat): real
      requires i < 4
    {
      if i == 0 then x else if i == 1 then y else if i == 2 then z else w
    }
    function Xyz(): Vec3 { Vec3(x, y, z) }
  }

  const Zero: Vec3 := Vec3(0.0, 0.0, 0.0)

  /** `operator+`: the zero vector is neutral on both sides */
  function Add(a: Vec3, b: Vec3): (r: Vec3)
    ensures b == Zero ==> r == a
    ensures a == Zero ==> r == b
  {
    Vec3(a.x + b.x, a.y + b.y, a.z + b.z)
  }

  /** `operator-`: adding `b` back gives `a` */
  function Sub(a: Vec3, b: Vec3): (r: Vec3)
    ensures Add(r, b) == a
  {
    Vec3(a.x - b.x, a.y - b.y, a.z - b.z)
  }

  /** the additive inverse, used to state properties of `cross`; float3.h
      itself has no unary minus */
  function Neg(a: Vec3): (r: Vec3)
    ensures Add(a, r) == Zero
  {
    Vec3(-a.x, -a.y, -a.z)
  }

  /** `operator*(float)`: scaling by a scalar; 1 keeps the vector */
  function Scale(a: Vec3, k: real): (r: Vec3)
    ensures k == 1.0 ==> r == a
  {
    Vec3(a.x * k, a.y * k, a.z * k)
  }

  /** `operator/(float)`: the divisor must not be zero (reals have no infinity);
      dividing and then scaling back by the divisor gives the vector again */
  function Div(a: Vec3, k: real): (r: Vec3)
    requires k != 0.0
    ensures Scale(r, k) == a
  {
    Vec3(a.x / k, a.y / k, a.z / k)
  }

  /** `dot`: zero against the zero vector */
  function Dot(a: Vec3, b: Vec3): (r: real)
    ensures a == Zero || b == Zero ==> r == 0.0
  {
    a.x * b.x + a.y * b.y + a.z * b.z
  }

  /** `v.x*p + v.y*q + v.z*r`: one component of a transform by three axes,
      `p`, `q` and `r` being that component of each axis */
  function Combine(v: Vec3, p: real, q: real, r: real): real { v.x * p + v.y * q + v.z * r }

  /** `Combine` is linear in the vector */
  lemma CombineLinear(a: Vec3, b: Vec3, k: real, p: real, q: real, r: real)
    ensures Combine(Add(a, b), p, q, r) == Combine(a, p, q, r) + Combine(b, p, q, r)
    ensures Combine(Sub(a, b), p, q, r) == Combine(a, p, q, r) - Combine(b, p, q, r)
    ensures Combine(Scale(a, k), p, q, r) == Combine(a, p, q, r) * k
  {}

  /** `lengthsq`: never negative */
  function LengthSq(v: Vec3): (r: real)
    ensures r >= 0.0
  {
    SquareFacts(v.x);
    SquareFacts(v.y);
    SquareFacts(v.z);
    Dot(v, v)
  }

  /** a square is never negative, and positive when its base is not zero */
  lemma SquareFacts(a: real)
    ensures a * a >= 0.0
    ensures a != 0.0 ==> a * a > 0.0
  {
    if a > 0.0 {
      MulPositive(a, a);
    } else if a < 0.0 {
      MulPositive(-a, -a);
      assert a * a == (-a) * (-a);
    }
  }

  /** a non-zero number has a non-zero square */
  lemma SquareNonZero(a: real)
    requires a != 0.0
    ensures a * a != 0.0
  {
    SquareFacts(a);
  }

  lemma MulPositive(a: real, b: real)
    requires a > 0.0 && b > 0.0
    ensures a * b > 0.0
  {}

  /** the square `x` of a non-zero `s` is positive, with the square written
      as a product of two equal factors `s` and `t` */
  lemma SquarePositive(s: real, t: real, x: real)
    requires s != 0.0 && t == s && x == s * t
    ensures x > 0.0
  {
    if s > 0.0 {
      MulPositive(s, t);
    } else {
      MulPositive(-s, -t);
      assert (-s) * (-t) == s * t;
    }
  }

  /** `length`: the square root of `lengthsq`, with `sqrt` supplied by the caller */
  function Length(v: Vec3, sqrt: real -> real): (r: real)
    ensures IsSqrt(sqrt) ==> r >= 0.0 && r * r == LengthSq(v)
  {
    sqrt(LengthSq(v))
  }

  /** `normalize`: `v / length(v)`; the length must not be zero */
  function Normalize(v: Vec3, sqrt: real -> real): (r: Vec3)
    requires Length(v, sqrt) != 0.0
    ensures Scale(r, Length(v, sqrt)) == v
    ensures forall i :: 0 <= i < 3 && v.Get(i) == 0.0 ==> r.Get(i) == 0.0
  {
    Div(v, Length(v, sqrt))
  }

  /** `cross`: the zero vector when the factors are equal */
  function Cross(a: Vec3, b: Vec3): (r: Vec3)
    ensures a == b ==> r == Zero
  {
    Vec3(a.y * b.z - b.y * a.z, a.z * b.x - b.z * a.x, a.x * b.y - b.x * a.y)
  }

  /** `plane`: the normal in x, y, z and its dot product with the point in w */
  function Plane(normal: Vec3, point: Vec3): (r: Vec4)
    ensures r.Xyz() == normal
    ensures r.w == Dot(normal, point)
  {
    Vec4(normal.x, normal.y, normal.z, Dot(normal, point))
  }

  /** the square-root axiom the lemmas about lengths use */
  ghost predicate IsSqrt(sqrt: real -> real) {
    forall a {:trigger sqrt(a)} :: a >= 0.0 ==> sqrt(a) >= 0.0 && sqrt(a) * sqrt(a) == a
  }

  lemma AddSubInverse(a: Vec3, b: Vec3)
    ensures Sub(Add(a, b), b) == a
    ensures Add(Sub(a, b), b) == a
    ensures Add(a, b) == Add(b, a)
  {}

  lemma DotSymmetric(a: Vec3, b: Vec3)
    ensures Dot(a, b) == Dot(b, a)
  {}

  lemma DotBilinear(a: Vec3, b: Vec3, c: Vec3, k: real)
    ensures Dot(Add(a, b), c) == Dot(a, c) + Dot(b, c)
    ensures Dot(c, Add(a, b)) == Dot(c, a) + Dot(c, b)
    ensures Dot(Scale(a, k), c) == k * Dot(a, c)
    ensures Dot(c, Scale(a, k)) == k * Dot(c, a)
  {}

  lemma CrossAntiSymmetric(a: Vec3, b: Vec3)
    ensures Cross(a, b) == Neg(Cross(b, a))
  {}

  /** the cross product is perpendicular to both factors */
  lemma CrossOrthogonal(a: Vec3, b: Vec3)
    ensures Dot(Cross(a, b), a) == 0.0
    ensures Dot(Cross(a, b), b) == 0.0
  {
    calc {
      Dot(Cross(a, b), a);
      (a.y * b.z - b.y * a.z) * a.x + (a.z * b.x - b.z * a.x) * a.y + (a.x * b.y - b.x * a.y) * a.z;
      0.0;
    }
    calc {
      Dot(Cross(a, b), b);
      (a.y * b.z - b.y * a.z) * b.x + (a.z * b.x - b.z * a.x) * b.y + (a.x * b.y - b.x * a.y) * b.z;
      0.0;
    }
  }

  /** scaling a vector scales its squared length by the square of the factor */
  lemma LengthSqScale(v: Vec3, k: real)
    ensures LengthSq(Scale(v, k)) == k * k * LengthSq(v)
  {}

  /** with a true square root, `normalize` returns a unit vector */
  lemma {:induction false} NormalizeIsUnit(v: Vec3, sqrt: real -> real)
    requires IsSqrt(sqrt)
    requires LengthSq(v) != 0.0
    ensures Length(v, sqrt) != 0.0
    ensures LengthSq(Normalize(v, sqrt)) == 1.0
  {
    var l := Length(v, sqrt);
    assert l * l == LengthSq(v);
    var n := Normalize(v, sqrt);
    assert Scale(n, l) == v;
    LengthSqScale(n, l);
    CancelFactor(LengthSq(v), LengthSq(n), LengthSq(Scale(n, l)));
  }

  /** `x == s * t` and `x == s` with `s` non-zero leave `t == 1` */
  lemma CancelFactor(s: real, t: real, x: real)
    requires s != 0.0
    requires x == s * t
    requires x == s
    ensures t == 1.0
  {
    assert s * (t - 1.0) == 0.0;
  }

  /** A `float3` variable: the receiver of the compound assignment operators. */
  class Float3Ref {
    var v: Vec3

    constructor (init: Vec3)
      ensures v == init
    {
      v := init;
    }

    /** `operator+=`: adds componentwise and returns a copy of the new value */
    method AddAssign(other: Vec3) returns (r: Vec3)
      modifies this
      ensures v == Add(old(v), other) && r == v
    {
      v := v.With(0, v.Get(0) + other.Get(0));
      v := v.With(1, v.Get(1) + other.Get(1));
      v := v.With(2, v.Get(2) + other.Get(2));
      r := v;
    }

    /** `operator-=` */
    method SubAssign(other: Vec3) returns (r: Vec3)
      modifies this
      ensures v == Sub(old(v), other) && r == v
    {
      v := v.With(0, v.Get(0) - other.Get(0));
      v := v.With(1, v.Get(1) - other.Get(1));
      v := v.With(2, v.Get(2) - other.Get(2));
      r := v;
    }

    /** `operator*=` */
    method ScaleAssign(k: real) returns (r: Vec3)
      modifies this
      ensures v == Scale(old(v), k) && r == v
    {
      v := v.With(0, v.Get(0) * k);
      v := v.With(1, v.Get(1) * k);
      v := v.With(2, v.Get(2) * k);
      r := v;
    }

    /** `operator/=`: the divisor must not be zero */
    method DivAssign(k: real) returns (r: Vec3)
      requires k != 0.0
      modifies this
      ensures v == Div(old(v), k) && r == v
    {
      v := v.With(0, v.Get(0) / k);
      v := v.With(1, v.Get(1) / k);
      v := v.With(2, v.Get(2) / k);
      r := v;
    }
  }
}
