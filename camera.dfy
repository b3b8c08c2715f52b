/** Game/CCamera.h: the camera singleton. Its yaw (`m_cameraAngleX`) and
    pitch (`m_cameraAngleY`) are its own fields; position and facing live in
    the camera of the shared data root, which every mutator reaches through
    the stale-marking `SSharedDataRoot::Camera()` and the two readers through
    `CameraConst()`.

    `cos`, `sin` and `sqrt` are not modelled. They are given to the
    constructor and kept as constants; the class invariant names what the
    proofs need of them: a true square root, `cos² + sin² = 1`, and a cosine
    that stays positive while the pitch is within the clamp of `PitchUp`. */
module GameCamera {
  import opened Float3
  import SharedDataRoot

  /** `tempUp` of `UpdateCameraFacing` */
  const WorldUp: Vec3 := Vec3(0.0, 1.0, 0.0)

  /** the bound `PitchUp` clamps the pitch to, in both directions */
  const PitchLimit: real := 1.5

  /** the clamp of `PitchUp`: the pitch limited to [-1.5, 1.5] */
  function ClampPitch(pitch: real): (r: real)
    ensures -PitchLimit <= r <= PitchLimit
    ensures -PitchLimit <= pitch <= PitchLimit <==> r == pitch
  {
    if pitch > PitchLimit then PitchLimit else if pitch < -PitchLimit then -PitchLimit else pitch
  }

  function Distance(a: real, b: real): real {
    if a < b then b - a else a - b
  }

  /** the clamped pitch is the angle of the allowed range nearest the requested one */
  lemma ClampIsNearest(pitch: real, q: real)
    requires -PitchLimit <= q <= PitchLimit
    ensures Distance(ClampPitch(pitch), pitch) <= Distance(q, pitch)
  {}

  /** the forward vector `UpdateCameraFacing` computes from yaw and pitch */
  function Forward(angleX: real, angleY: real, cos: real -> real, sin: real -> real): (r: Vec3)
    ensures r.y == sin(angleY)
    ensures Flat(r) == Scale(Vec3(cos(angleX), 0.0, sin(angleX)), cos(angleY))
  {
    Vec3(cos(angleX) * cos(angleY), sin(angleY), sin(angleX) * cos(angleY))
  }

  /** `fwd2D` before normalising: the forward vector with its height removed */
  function Flat(fwd: Vec3): (r: Vec3)
    ensures r.y == 0.0 && r.x == fwd.x && r.z == fwd.z
  {
    fwd.With(1, 0.0)
  }

  /** `normalize` in `UpdateCameraFacing` divides by the lengths of the two
      cross products; both must be non-zero */
  predicate FacingDefined(fwd: Vec3, sqrt: real -> real) {
    Length(Cross(fwd, WorldUp), sqrt) != 0.0
    && Length(Cross(Normalize(Cross(fwd, WorldUp), sqrt), fwd), sqrt) != 0.0
  }

  /** forward, left and up, as `UpdateCameraFacing` writes them */
  datatype Facing = Facing(fwd: Vec3, left: Vec3, up: Vec3)

  function FacingOf(angleX: real, angleY: real, cos: real -> real, sin: real -> real,
                    sqrt: real -> real): (r: Facing)
    requires FacingDefined(Forward(angleX, angleY, cos, sin), sqrt)
    ensures r.fwd == Forward(angleX, angleY, cos, sin)
  {
    var fwd := Forward(angleX, angleY, cos, sin);
    var left := Normalize(Cross(fwd, WorldUp), sqrt);
    Facing(fwd, left, Normalize(Cross(left, fwd), sqrt))
  }

  /** the facts about `cos` and `sin` the camera relies on */
  ghost predicate TrigAxioms(cos: real -> real, sin: real -> real) {
    (forall a {:trigger cos(a)} :: cos(a) * cos(a) + sin(a) * sin(a) == 1.0)
    && (forall a {:trigger cos(a)} :: -PitchLimit <= a <= PitchLimit ==> cos(a) > 0.0)
  }

  lemma ZeroFactor(k: real, x: real)
    requires k != 0.0 && k * x == 0.0
    ensures x == 0.0
  {}

  /** a true square root is zero only at zero */
  lemma SqrtNonZero(a: real, sqrt: real -> real)
    requires IsSqrt(sqrt) && a >= 0.0 && a != 0.0
    ensures sqrt(a) > 0.0
  {
    var s := sqrt(a);
    assert s >= 0.0 && s * s == a;
  }

  /** a vector with a non-zero height has a positive squared length */
  lemma LengthSqOfHeight(v: Vec3)
    requires v.y != 0.0
    ensures LengthSq(v) > 0.0
  {
    SquareFacts(v.x);
    SquareFacts(v.z);
    var h := v.y * v.y;
    SquarePositive(v.y, v.y, h);
    assert LengthSq(v) == v.x * v.x + h + v.z * v.z;
  }

  /** a vector whose length is non-zero has a non-zero squared length and a
      positive length */
  lemma {:induction false} LengthPositive(v: Vec3, sqrt: real -> real)
    requires IsSqrt(sqrt) && Length(v, sqrt) != 0.0
    ensures LengthSq(v) > 0.0 && Length(v, sqrt) > 0.0
  {
    var x := LengthSq(v);
    var s := sqrt(x);
    assert s == Length(v, sqrt);
    assert s * s == x;
    SquarePositive(s, s, x);
  }

  /** with the trigonometric axioms, the forward vector has unit length */
  lemma {:induction false} ForwardIsUnit(angleX: real, angleY: real, cos: real -> real, sin: real -> real)
    requires TrigAxioms(cos, sin)
    ensures LengthSq(Forward(angleX, angleY, cos, sin)) == 1.0
  {
    var cx, sx, cy, sy := cos(angleX), sin(angleX), cos(angleY), sin(angleY);
    assert cx * cx + sx * sx == 1.0;
    assert cy * cy + sy * sy == 1.0;
    calc {
      LengthSq(Forward(angleX, angleY, cos, sin));
      (cx * cy) * (cx * cy) + sy * sy + (sx * cy) * (sx * cy);
      (cx * cx + sx * sx) * (cy * cy) + sy * sy;
      1.0;
    }
  }

  lemma FactorSquares(cx: real, sx: real, cy: real)
    ensures (cx * cy) * (cx * cy) + (sx * cy) * (sx * cy) == (cx * cx + sx * sx) * (cy * cy)
  {}

  /** the first cross product has the squared length cos²(pitch) */
  lemma {:induction false} FirstCrossLengthSq(angleX: real, angleY: real, cos: real -> real, sin: real -> real)
    requires cos(angleX) * cos(angleX) + sin(angleX) * sin(angleX) == 1.0
    ensures LengthSq(Cross(Forward(angleX, angleY, cos, sin), WorldUp)) == cos(angleY) * cos(angleY)
  {
    var cx, sx, cy := cos(angleX), sin(angleX), cos(angleY);
    var fwd := Forward(angleX, angleY, cos, sin);
    assert Cross(fwd, WorldUp) == Vec3(-fwd.z, 0.0, fwd.x);
    FactorSquares(cx, sx, cy);
    assert fwd.x * fwd.x + fwd.z * fwd.z == (cx * cx + sx * sx) * (cy * cy);
  }

  /** `l` times the height of `left × fwd` is fwd.x² + fwd.z², when `left`
      scaled by `l` is the first cross product (-fwd.z, 0, fwd.x); so for a
      positive `l` that height is positive unless forward is vertical */
  lemma CrossHeightScaled(lx: real, lz: real, fx: real, fz: real, l: real)
    requires lx * l == -fz && lz * l == fx
    ensures l * (lz * fx - fz * lx) == fx * fx + fz * fz
    ensures l > 0.0 && fx * fx + fz * fz > 0.0 ==> lz * fx - fz * lx > 0.0
  {
    calc {
      l * (lz * fx - fz * lx);
      (lz * l) * fx - fz * (lx * l);
      fx * fx + fz * fz;
    }
    var h := lz * fx - fz * lx;
    if l > 0.0 && h <= 0.0 {
      assert l * h <= 0.0;
    }
  }

  /** within the pitch clamp, both normalisations of `UpdateCameraFacing`
      are defined, whatever the yaw */
  lemma {:induction false} FacingDefinedInPitchRange(angleX: real, angleY: real, cos: real -> real,
                                                     sin: real -> real, sqrt: real -> real)
    requires IsSqrt(sqrt) && TrigAxioms(cos, sin)
    requires -PitchLimit <= angleY <= PitchLimit
    ensures FacingDefined(Forward(angleX, angleY, cos, sin), sqrt)
  {
    var cy := cos(angleY);
    assert cos(angleX) * cos(angleX) + sin(angleX) * sin(angleX) == 1.0;
    assert cy > 0.0;
    var fwd := Forward(angleX, angleY, cos, sin);
    var raw := Cross(fwd, WorldUp);
    FirstCrossLengthSq(angleX, angleY, cos, sin);
    SquarePositive(cy, cy, LengthSq(raw));
    SqrtNonZero(LengthSq(raw), sqrt);
    var l := Length(raw, sqrt);
    var left := Normalize(raw, sqrt);
    assert Scale(left, l) == raw;
    CrossHeightScaled(left.x, left.z, fwd.x, fwd.z, l);
    var rawUp := Cross(left, fwd);
    assert l * rawUp.y == LengthSq(raw);
    LengthSqOfHeight(rawUp);
    SqrtNonZero(LengthSq(rawUp), sqrt);
  }

  /** left is perpendicular to forward, up to both; each is a unit vector
      and a positive multiple of the cross product it normalises */
  lemma {:induction false} FacingOrthonormal(angleX: real, angleY: real, cos: real -> real,
                                             sin: real -> real, sqrt: real -> real)
    requires IsSqrt(sqrt)
    requires FacingDefined(Forward(angleX, angleY, cos, sin), sqrt)
    ensures var f := FacingOf(angleX, angleY, cos, sin, sqrt);
      Dot(f.left, f.fwd) == 0.0 && Dot(f.up, f.left) == 0.0 && Dot(f.up, f.fwd) == 0.0
      && LengthSq(f.left) == 1.0 && LengthSq(f.up) == 1.0
      && Length(Cross(f.fwd, WorldUp), sqrt) > 0.0
      && Scale(f.left, Length(Cross(f.fwd, WorldUp), sqrt)) == Cross(f.fwd, WorldUp)
      && Length(Cross(f.left, f.fwd), sqrt) > 0.0
      && Scale(f.up, Length(Cross(f.left, f.fwd), sqrt)) == Cross(f.left, f.fwd)
  {
    var f := FacingOf(angleX, angleY, cos, sin, sqrt);
    var raw := Cross(f.fwd, WorldUp);
    var l := Length(raw, sqrt);
    LengthPositive(raw, sqrt);
    CrossOrthogonal(f.fwd, WorldUp);
    DotBilinear(f.left, raw, f.fwd, l);
    ZeroFactor(l, Dot(f.left, f.fwd));
    NormalizeIsUnit(raw, sqrt);
    var rawUp := Cross(f.left, f.fwd);
    var lu := Length(rawUp, sqrt);
    LengthPositive(rawUp, sqrt);
    CrossOrthogonal(f.left, f.fwd);
    DotBilinear(f.up, rawUp, f.left, lu);
    ZeroFactor(lu, Dot(f.up, f.left));
    DotBilinear(f.up, rawUp, f.fwd, lu);
    ZeroFactor(lu, Dot(f.up, f.fwd));
    NormalizeIsUnit(rawUp, sqrt);
  }

  /** left is horizontal: the first cross product has no height, and
      normalising keeps a zero component zero */
  lemma LeftIsHorizontal(angleX: real, angleY: real, cos: real -> real, sin: real -> real, sqrt: real -> real)
    requires FacingDefined(Forward(angleX, angleY, cos, sin), sqrt)
    ensures FacingOf(angleX, angleY, cos, sin, sqrt).left.y == 0.0
  {
    var raw := Cross(Forward(angleX, angleY, cos, sin), WorldUp);
    assert raw.Get(1) == 0.0;
  }

  /** the flattened forward vector is as long as the first cross product, so
      `Forward2D` is defined whenever the facing is */
  lemma FlatLength(fwd: Vec3, sqrt: real -> real)
    ensures Length(Flat(fwd), sqrt) == Length(Cross(fwd, WorldUp), sqrt)
  {
    assert LengthSq(Flat(fwd)) == LengthSq(Cross(fwd, WorldUp));
  }

  /** `fwd2D`: the forward vector flattened to the ground and normalised,
      defined whenever the facing is; it is horizontal */
  function Forward2DOf(fwd: Vec3, sqrt: real -> real): (r: Vec3)
    requires Length(Cross(fwd, WorldUp), sqrt) != 0.0
    ensures r.y == 0.0
    ensures Scale(r, Length(Flat(fwd), sqrt)) == Flat(fwd)
  {
    FlatLength(fwd, sqrt);
    Normalize(Flat(fwd), sqrt)
  }

  /** with a true square root, the flattened forward vector has unit length
      and is a positive multiple of the flattened forward vector */
  lemma {:induction false} Forward2DIsUnit(fwd: Vec3, sqrt: real -> real)
    requires IsSqrt(sqrt) && Length(Cross(fwd, WorldUp), sqrt) != 0.0
    ensures LengthSq(Forward2DOf(fwd, sqrt)) == 1.0 && Length(Flat(fwd), sqrt) > 0.0
  {
    FlatLength(fwd, sqrt);
    LengthPositive(Flat(fwd), sqrt);
    NormalizeIsUnit(Flat(fwd), sqrt);
  }

  /** the shared camera with a new facing, everything else as it was */
  function Faced(c: SharedDataRoot.Camera, f: Facing): (r: SharedDataRoot.Camera)
    ensures r.pos == c.pos
  {
    c.(fwd := f.fwd, left := f.left, up := f.up)
  }

  class Camera {
    /** the shared data root holding position and facing */
    const shared: SharedDataRoot.DataRoot
    const cos: real -> real
    const sin: real -> real
    const sqrt: real -> real
    /** `m_cameraAngleX`: yaw */
    var angleX: real
    /** `m_cameraAngleY`: pitch */
    var angleY: real
    /** `m_viewWidthHeightDistance`: width, height and distance of the view
        (a field of the shared camera in this revision of the header) */
    var viewWidthHeightDistance: Vec3

    /** everything `UpdateCameraFacing` needs */
    ghost predicate Ready()
      reads this, shared, shared.data
    {
      shared.Valid() && IsSqrt(sqrt) && TrigAxioms(cos, sin) && -PitchLimit <= angleY <= PitchLimit
    }

    /** the shared facing is the one the two angles give */
    ghost predicate Valid()
      reads this, shared, shared.data
    {
      Ready()
      && FacingDefined(Forward(angleX, angleY, cos, sin), sqrt)
      && shared.CameraConst() == Faced(shared.CameraConst(), FacingOf(angleX, angleY, cos, sin, sqrt))
    }

    /** the origin, yaw and pitch zero, a 6 by 1 view at distance 6, and the
        facing of those angles */
    constructor (root: SharedDataRoot.DataRoot, cos: real -> real, sin: real -> real, sqrt: real -> real)
      requires root.Valid() && IsSqrt(sqrt) && TrigAxioms(cos, sin)
      modifies root.data
      ensures Valid() && shared == root && root.data.stale
      ensures angleX == 0.0 && angleY == 0.0
      ensures viewWidthHeightDistance == Vec3(6.0, 1.0, 6.0)
      ensures root.CameraConst().pos == Zero
      ensures root.data.obj.world == old(root.data.obj.world) && root.data.handle == old(root.data.handle)
    {
      shared := root;
      this.cos := cos;
      this.sin := sin;
      this.sqrt := sqrt;
      new;
      root.SetCamera(SharedDataRoot.Camera(Zero, Vec3(0.0, 0.0, 1.0), Vec3(0.0, 1.0, 0.0), Vec3(-1.0, 0.0, 0.0)));
      viewWidthHeightDistance := Vec3(6.0, 1.0, 6.0);
      angleX := 0.0;
      angleY := 0.0;
      UpdateCameraFacing();
    }

    /** `UpdateCameraFacing`: forward from the angles, then left and up from
        the two normalised cross products; the position and the rest of the
        root are left alone */
    method UpdateCameraFacing()
      requires Ready()
      modifies shared.data
      ensures Valid() && shared.data.stale
      ensures FacingDefined(Forward(angleX, angleY, cos, sin), sqrt)
      ensures shared.data.obj == old(shared.data.obj).(camera := Faced(old(shared.data.obj.camera),
                                                                     FacingOf(angleX, angleY, cos, sin, sqrt)))
      ensures shared.data.handle == old(shared.data.handle)
      ensures angleX == old(angleX) && angleY == old(angleY)
      ensures viewWidthHeightDistance == old(viewWidthHeightDistance)
      ensures shared.CameraConst().pos == old(shared.CameraConst().pos)
    {
      var camera := shared.Camera();
      var fwd := camera.fwd;
      fwd := fwd.With(0, cos(angleX) * cos(angleY));
      fwd := fwd.With(1, sin(angleY));
      fwd := fwd.With(2, sin(angleX) * cos(angleY));
      assert fwd == Forward(angleX, angleY, cos, sin);
      FacingDefinedInPitchRange(angleX, angleY, cos, sin, sqrt);
      var left := Normalize(Cross(fwd, WorldUp), sqrt);
      var up := Normalize(Cross(left, fwd), sqrt);
      shared.SetCamera(camera.(fwd := fwd, left := left, up := up));
    }

    /** `SetPosition`: the position and nothing else */
    method SetPosition(pos: Vec3)
      requires Valid()
      modifies shared.data
      ensures Valid() && shared.data.stale
      ensures shared.data.obj == old(shared.data.obj).(camera := old(shared.data.obj.camera).(pos := pos))
      ensures shared.data.handle == old(shared.data.handle)
    {
      var camera := shared.Camera();
      shared.SetCamera(camera.(pos := pos));
    }

    /** `Forward`, read through `CameraConst`: the forward vector of the angles, of unit length */
    function GetForward(): (r: Vec3)
      requires Valid()
      reads this, shared, shared.data
      ensures r == Forward(angleX, angleY, cos, sin)
      ensures LengthSq(r) == 1.0
    {
      ForwardIsUnit(angleX, angleY, cos, sin);
      shared.CameraConst().fwd
    }

    /** `Forward2D`: the forward vector flattened to the ground and normalised;
        a horizontal unit vector */
    function Forward2D(): (r: Vec3)
      requires Valid()
      reads this, shared, shared.data
      ensures r == Forward2DOf(GetForward(), sqrt)
      ensures r.y == 0.0 && LengthSq(r) == 1.0
    {
      var fwd := shared.CameraConst().fwd;
      Forward2DIsUnit(fwd, sqrt);
      Forward2DOf(fwd, sqrt)
    }

    /** `Left`, through `CameraConst`: a unit vector perpendicular to forward */
    function GetLeft(): (r: Vec3)
      requires Valid()
      reads this, shared, shared.data
      ensures r == FacingOf(angleX, angleY, cos, sin, sqrt).left
      ensures Dot(r, GetForward()) == 0.0 && LengthSq(r) == 1.0 && r.y == 0.0
    {
      FacingOrthonormal(angleX, angleY, cos, sin, sqrt);
      LeftIsHorizontal(angleX, angleY, cos, sin, sqrt);
      shared.CameraConst().left
    }

    /** `MoveForward`: the position moves along forward by `amount`; the facing stays */
    method MoveForward(amount: real)
      requires Valid()
      modifies shared.data
      ensures Valid() && shared.data.stale
      ensures shared.data.obj == old(shared.data.obj).(camera := old(shared.data.obj.camera).(
                pos := Add(old(shared.data.obj.camera.pos), Scale(old(shared.data.obj.camera.fwd), amount))))
      ensures shared.data.handle == old(shared.data.handle)
    {
      var camera := shared.Camera();
      shared.SetCamera(camera.(pos := Add(camera.pos, Scale(camera.fwd, amount))));
    }

    /** `MoveForward2D`: the position moves along the flattened forward
        vector, so its height does not change */
    method MoveForward2D(amount: real)
      requires Valid()
      modifies shared.data
      ensures Valid() && shared.data.stale
      ensures shared.data.obj == old(shared.data.obj).(camera := old(shared.data.obj.camera).(
                pos := Add(old(shared.data.obj.camera.pos), Scale(old(Forward2D()), amount))))
      ensures shared.data.handle == old(shared.data.handle)
      ensures shared.CameraConst().pos.y == old(shared.CameraConst().pos.y)
    {
      var camera := shared.Camera();
      var fwd2D := camera.fwd;
      fwd2D := fwd2D.With(1, 0.0);
      FlatLength(camera.fwd, sqrt);
      fwd2D := Normalize(fwd2D, sqrt);
      shared.SetCamera(camera.(pos := Add(camera.pos, Scale(fwd2D, amount))));
    }

    /** `MoveLeft`: the position moves along left by `amount` */
    method MoveLeft(amount: real)
      requires Valid()
      modifies shared.data
      ensures Valid() && shared.data.stale
      ensures shared.data.obj == old(shared.data.obj).(camera := old(shared.data.obj.camera).(
                pos := Add(old(shared.data.obj.camera.pos), Scale(old(shared.data.obj.camera.left), amount))))
      ensures shared.data.handle == old(shared.data.handle)
    {
      var camera := shared.Camera();
      shared.SetCamera(camera.(pos := Add(camera.pos, Scale(camera.left, amount))));
    }

    /** `YawRight`: the yaw grows by `amount`, the pitch stays, the facing follows */
    method YawRight(amount: real)
      requires Valid()
      modifies this, shared.data
      ensures Valid() && shared.data.stale
      ensures angleX == old(angleX) + amount && angleY == old(angleY)
      ensures viewWidthHeightDistance == old(viewWidthHeightDistance)
      ensures shared.data.obj == old(shared.data.obj).(camera := Faced(old(shared.data.obj.camera),
                                                                     FacingOf(angleX, angleY, cos, sin, sqrt)))
      ensures shared.data.handle == old(shared.data.handle)
    {
      angleX := angleX + amount;
      UpdateCameraFacing();
    }

    /** `PitchUp`: the pitch grows by `amount` and is clamped to [-1.5, 1.5] */
    method PitchUp(amount: real)
      requires Valid()
      modifies this, shared.data
      ensures Valid() && shared.data.stale
      ensures angleY == ClampPitch(old(angleY) + amount) && angleX == old(angleX)
      ensures viewWidthHeightDistance == old(viewWidthHeightDistance)
      ensures shared.data.obj == old(shared.data.obj).(camera := Faced(old(shared.data.obj.camera),
                                                                     FacingOf(angleX, angleY, cos, sin, sqrt)))
      ensures shared.data.handle == old(shared.data.handle)
    {
      angleY := angleY + amount;
      if angleY > PitchLimit {
        angleY := PitchLimit;
      } else if angleY < -PitchLimit {
        angleY := -PitchLimit;
      }
      UpdateCameraFacing();
    }

    /** `SetYaw`: the yaw becomes `angle`, the pitch stays */
    method SetYaw(angle: real)
      requires Valid()
      modifies this, shared.data
      ensures Valid() && shared.data.stale
      ensures angleX == angle && angleY == old(angleY)
      ensures viewWidthHeightDistance == old(viewWidthHeightDistance)
      ensures shared.data.obj == old(shared.data.obj).(camera := Faced(old(shared.data.obj.camera),
                                                                     FacingOf(angleX, angleY, cos, sin, sqrt)))
      ensures shared.data.handle == old(shared.data.handle)
    {
      angleX := angle;
      UpdateCameraFacing();
    }
  }
}
