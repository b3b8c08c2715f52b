/** KernelCode/Shared/SharedMath.h: the copies of the point and vector
    transforms shared between kernel and host builds. */
module SharedMath {
  import opened Float3
  import KernelMath

  /** `TransformPointByMatrix` */
  function TransformPoint(p: Vec3, xAxis: Vec4, yAxis: Vec4, zAxis: Vec4, wAxis: Vec4): (r: Vec3)
    ensures r == Add(TransformVector(p, xAxis, yAxis, zAxis), wAxis.Xyz())
  {
    Vec3(Combine(p, xAxis.x, yAxis.x, zAxis.x) + 1.0 * wAxis.x,
         Combine(p, xAxis.y, yAxis.y, zAxis.y) + 1.0 * wAxis.y,
         Combine(p, xAxis.z, yAxis.z, zAxis.z) + 1.0 * wAxis.z)
  }

  /** `TransformVectorByMatrix`: no W axis, so the zero vector stays zero */
  function TransformVector(v: Vec3, xAxis: Vec4, yAxis: Vec4, zAxis: Vec4): (r: Vec3)
    ensures v == Zero ==> r == Zero
  {
    Vec3(Combine(v, xAxis.x, yAxis.x, zAxis.x),
         Combine(v, xAxis.y, yAxis.y, zAxis.y),
         Combine(v, xAxis.z, yAxis.z, zAxis.z))
  }

  /** the vector transform is additive */
  lemma {:induction false} VectorAdditive(a: Vec3, b: Vec3, xAxis: Vec4, yAxis: Vec4, zAxis: Vec4)
    ensures TransformVector(Add(a, b), xAxis, yAxis, zAxis)
         == Add(TransformVector(a, xAxis, yAxis, zAxis), TransformVector(b, xAxis, yAxis, zAxis))
  {
    CombineLinear(a, b, 1.0, xAxis.x, yAxis.x, zAxis.x);
    CombineLinear(a, b, 1.0, xAxis.y, yAxis.y, zAxis.y);
    CombineLinear(a, b, 1.0, xAxis.z, yAxis.z, zAxis.z);
  }

  /** the vector transform commutes with scaling */
  lemma {:induction false} VectorHomogeneous(a: Vec3, k: real, xAxis: Vec4, yAxis: Vec4, zAxis: Vec4)
    ensures TransformVector(Scale(a, k), xAxis, yAxis, zAxis)
         == Scale(TransformVector(a, xAxis, yAxis, zAxis), k)
  {
    CombineLinear(a, a, k, xAxis.x, yAxis.x, zAxis.x);
    CombineLinear(a, a, k, xAxis.y, yAxis.y, zAxis.y);
    CombineLinear(a, a, k, xAxis.z, yAxis.z, zAxis.z);
  }

  /** the identity axes with a zero W leave points and vectors unchanged */
  lemma IdentityAxes(p: Vec3)
    ensures TransformPoint(p, Vec4(1.0, 0.0, 0.0, 0.0), Vec4(0.0, 1.0, 0.0, 0.0),
                           Vec4(0.0, 0.0, 1.0, 0.0), Vec4(0.0, 0.0, 0.0, 1.0)) == p
    ensures TransformVector(p, Vec4(1.0, 0.0, 0.0, 0.0), Vec4(0.0, 1.0, 0.0, 0.0),
                            Vec4(0.0, 0.0, 1.0, 0.0)) == p
  {}

  /** these are the same functions as the kernel's own copies */
  lemma SameAsKernel(p: Vec3, xAxis: Vec4, yAxis: Vec4, zAxis: Vec4, wAxis: Vec4)
    ensures TransformPoint(p, xAxis, yAxis, zAxis, wAxis) == KernelMath.TransformPoint(p, xAxis, yAxis, zAxis, wAxis)
    ensures TransformVector(p, xAxis, yAxis, zAxis) == KernelMath.TransformVector(p, xAxis, yAxis, zAxis)
  {}
}
