/** The kernel-side math of KernelCode/KernelMath.h: the point and vector
    transforms written through out-parameters, and `reflect`. The axes are passed
    one by one as `cl_float4` values, as in the kernel. `refract` calls `sqrt`
    on a value that can be negative and is not part of this model. */
module KernelMath {
  import opened Float3
  import MatrixMath

  /** `TransformPointByMatrix`: x*X + y*Y + z*Z + W, on three components */
  function TransformPoint(p: Vec3, xAxis: Vec4, yAxis: Vec4, zAxis: Vec4, wAxis: Vec4): (r: Vec3)
    ensures r == Add(TransformVector(p, xAxis, yAxis, zAxis), wAxis.Xyz())
  {
    Vec3(Combine(p, xAxis.x, yAxis.x, zAxis.x) + 1.0 * wAxis.x,
         Combine(p, xAxis.y, yAxis.y, zAxis.y) + 1.0 * wAxis.y,
         Combine(p, xAxis.z, yAxis.z, zAxis.z) + 1.0 * wAxis.z)
  }

  /** `TransformVectorByMatrix`: x*X + y*Y + z*Z; there is no W axis parameter */
  function TransformVector(v: Vec3, xAxis: Vec4, yAxis: Vec4, zAxis: Vec4): (r: Vec3)
    ensures r == Add(Add(Scale(xAxis.Xyz(), v.x), Scale(yAxis.Xyz(), v.y)), Scale(zAxis.Xyz(), v.z))
  {
    Vec3(Combine(v, xAxis.x, yAxis.x, zAxis.x),
         Combine(v, xAxis.y, yAxis.y, zAxis.y),
         Combine(v, xAxis.z, yAxis.z, zAxis.z))
  }

  /** `reflect`: V - 2 * dot(V, N) * N; a vector along the surface, or a
      zero normal, leaves it unchanged */
  function Reflect(v: Vec3, n: Vec3): (r: Vec3)
    ensures Dot(v, n) == 0.0 ==> r == v
    ensures n == Zero ==> r == v
  {
    Sub(v, Scale(n, 2.0 * Dot(v, n)))
  }

  /** on the same axes the kernel transforms agree with the host ones */
  lemma SameAsHost(p: Vec3, xAxis: Vec4, yAxis: Vec4, zAxis: Vec4, wAxis: Vec4)
    ensures TransformPoint(p, xAxis, yAxis, zAxis, wAxis)
         == MatrixMath.TransformPoint(p, MatrixMath.Mat4(xAxis, yAxis, zAxis, wAxis))
    ensures TransformVector(p, xAxis, yAxis, zAxis)
         == MatrixMath.TransformVector(p, MatrixMath.Mat4(xAxis, yAxis, zAxis, wAxis))
  {}

  /** for any points p and q, T(p) - T(q) = Tv(p - q) */
  lemma {:induction false} PointDifference(p: Vec3, q: Vec3, xAxis: Vec4, yAxis: Vec4, zAxis: Vec4, wAxis: Vec4)
    ensures Sub(TransformPoint(p, xAxis, yAxis, zAxis, wAxis), TransformPoint(q, xAxis, yAxis, zAxis, wAxis))
         == TransformVector(Sub(p, q), xAxis, yAxis, zAxis)
  {
    CombineLinear(p, q, 1.0, xAxis.x, yAxis.x, zAxis.x);
    CombineLinear(p, q, 1.0, xAxis.y, yAxis.y, zAxis.y);
    CombineLinear(p, q, 1.0, xAxis.z, yAxis.z, zAxis.z);
  }

  /** dot(V - k*N, B) = dot(V, B) - k * dot(N, B) */
  lemma DotSubScale(v: Vec3, n: Vec3, b: Vec3, k: real)
    ensures Dot(Sub(v, Scale(n, k)), b) == Dot(v, b) - k * Dot(n, b)
  {}

  lemma HalfTurn(d: real, nn: real)
    requires nn == 1.0
    ensures d - 2.0 * d * nn == -d
  {}

  /** for a unit normal the reflected vector has the opposite component along N */
  lemma {:induction false} ReflectFlipsNormal(v: Vec3, n: Vec3)
    requires Dot(n, n) == 1.0
    ensures Dot(Reflect(v, n), n) == -Dot(v, n)
  {
    DotSubScale(v, n, n, 2.0 * Dot(v, n));
    HalfTurn(Dot(v, n), Dot(n, n));
  }

  lemma SquareBalance(vv: real, d: real, nn: real)
    requires nn == 1.0
    ensures vv - 2.0 * d * d - 2.0 * d * (d - 2.0 * d * nn) == vv
  {}

  /** for a unit normal, reflection keeps the squared length */
  lemma {:induction false} ReflectKeepsLength(v: Vec3, n: Vec3)
    requires Dot(n, n) == 1.0
    ensures LengthSq(Reflect(v, n)) == LengthSq(v)
  {
    var k := 2.0 * Dot(v, n);
    var r := Reflect(v, n);
    DotSubScale(v, n, r, k);
    DotSymmetric(v, r);
    DotSymmetric(n, r);
    DotSubScale(v, n, v, k);
    DotSubScale(v, n, n, k);
    DotSymmetric(n, v);
    SquareBalance(Dot(v, v), Dot(v, n), Dot(n, n));
  }

  lemma SubScaleTwice(v: Vec3, n: Vec3, k: real)
    ensures Sub(Sub(v, Scale(n, k)), Scale(n, -k)) == v
  {}

  /** for a unit normal, reflecting twice gives the vector back */
  lemma {:induction false} ReflectInvolution(v: Vec3, n: Vec3)
    requires Dot(n, n) == 1.0
    ensures Reflect(Reflect(v, n), n) == v
  {
    ReflectFlipsNormal(v, n);
    var d := Dot(v, n);
    assert 2.0 * Dot(Reflect(v, n), n) == -(2.0 * d);
    SubScaleTwice(v, n, 2.0 * d);
  }
}
