/** CCamera.h: the older camera singleton. It keeps its `SCamera` data, the
    view distance and width and the two angles in fields of its own, and
    computes its facing exactly as the newer camera of Game/CCamera.h does,
    so the facing functions and their lemmas are those of `GameCamera`. */
module LegacyCamera {
  import opened Float3
  import opened GameCamera
  import SharedDataRoot

  class Camera {
    /** `m_cameraData` */
    var cameraData: SharedDataRoot.Camera
    /** `m_viewDistance`: the constructor sets it to 6 and nothing writes it again */
    const viewDistance: real := 6.0
    /** `m_viewWidth`: likewise 6 for good */
    const viewWidth: real := 6.0
    /** `m_cameraAngleX`: yaw */
    var angleX: real
    /** `m_cameraAngleY`: pitch */
    var angleY: real
    const cos: real -> real
    const sin: real -> real
    const sqrt: real -> real

    ghost predicate Ready()
      reads this
    {
      IsSqrt(sqrt) && TrigAxioms(cos, sin) && -PitchLimit <= angleY <= PitchLimit
    }

    /** the facing in the camera data is the one the two angles give */
    ghost predicate Valid()
      reads this
    {
      Ready()
      && FacingDefined(Forward(angleX, angleY, cos, sin), sqrt)
      && cameraData == Faced(cameraData, FacingOf(angleX, angleY, cos, sin, sqrt))
    }

    /** six units behind the origin, yaw 1.57 and pitch 0, view distance and
        width 6, and the facing of those angles */
    constructor (cos: real -> real, sin: real -> real, sqrt: real -> real)
      requires IsSqrt(sqrt) && TrigAxioms(cos, sin)
      ensures Valid()
      ensures angleX == 1.57 && angleY == 0.0
      ensures viewDistance == 6.0 && viewWidth == 6.0
      ensures cameraData.pos == Vec3(0.0, 0.0, -6.0)
    {
      this.cos := cos;
      this.sin := sin;
      this.sqrt := sqrt;
      cameraData := SharedDataRoot.Camera(Vec3(0.0, 0.0, -6.0), Vec3(0.0, 0.0, 1.0), Vec3(0.0, 1.0, 0.0),
                                          Vec3(-1.0, 0.0, 0.0));
      angleX := 1.57;
      angleY := 0.0;
      new;
      UpdateCameraFacing();
    }

    /** `GetCameraData` */
    function GetCameraData(): (r: SharedDataRoot.Camera)
      requires Valid()
      reads this
      ensures r.fwd == Forward(angleX, angleY, cos, sin)
      ensures Dot(r.left, r.fwd) == 0.0 && Dot(r.up, r.left) == 0.0 && Dot(r.up, r.fwd) == 0.0
    {
      FacingOrthonormal(angleX, angleY, cos, sin, sqrt);
      cameraData
    }

    /** `ViewDistance`: the constructor's 6, whatever the camera has done */
    function ViewDistance(): (r: real)
      ensures r == 6.0
    {
      viewDistance
    }

    /** `ViewWidth`: the constructor's 6, whatever the camera has done */
    function ViewWidth(): (r: real)
      ensures r == 6.0
    {
      viewWidth
    }

    /** `UpdateCameraFacing`: the facing of the two angles; the position stays */
    method UpdateCameraFacing()
      requires Ready()
      modifies this
      ensures Valid()
      ensures cameraData == Faced(old(cameraData), FacingOf(angleX, angleY, cos, sin, sqrt))
      ensures angleX == old(angleX) && angleY == old(angleY)
    {
      var fwd := cameraData.fwd;
      fwd := fwd.With(0, cos(angleX) * cos(angleY));
      fwd := fwd.With(1, sin(angleY));
      fwd := fwd.With(2, sin(angleX) * cos(angleY));
      assert fwd == Forward(angleX, angleY, cos, sin);
      cameraData := cameraData.(fwd := fwd);
      FacingDefinedInPitchRange(angleX, angleY, cos, sin, sqrt);
      cameraData := cameraData.(left := Normalize(Cross(cameraData.fwd, WorldUp), sqrt));
      cameraData := cameraData.(up := Normalize(Cross(cameraData.left, cameraData.fwd), sqrt));
    }

    /** `MoveForward`: the position moves along forward; the facing stays */
    method MoveForward(amount: real)
      requires Valid()
      modifies this
      ensures Valid()
      ensures cameraData == old(cameraData).(pos := Add(old(cameraData.pos), Scale(old(cameraData.fwd), amount)))
      ensures angleX == old(angleX) && angleY == old(angleY)
    {
      cameraData := cameraData.(pos := Add(cameraData.pos, Scale(cameraData.fwd, amount)));
    }

    /** `MoveForward2D`: the position moves along the flattened forward vector
        and keeps its height */
    method MoveForward2D(amount: real)
      requires Valid()
      modifies this
      ensures Valid()
      ensures cameraData == old(cameraData).(pos := Add(old(cameraData.pos),
                                                       Scale(Forward2DOf(old(cameraData.fwd), sqrt), amount)))
      ensures cameraData.pos.y == old(cameraData.pos.y)
      ensures angleX == old(angleX) && angleY == old(angleY)
    {
      var fwd2D := cameraData.fwd;
      fwd2D := fwd2D.With(1, 0.0);
      FlatLength(cameraData.fwd, sqrt);
      fwd2D := Normalize(fwd2D, sqrt);
      cameraData := cameraData.(pos := Add(cameraData.pos, Scale(fwd2D, amount)));
    }

    /** `MoveLeft`: the position moves along left; the facing stays */
    method MoveLeft(amount: real)
      requires Valid()
      modifies this
      ensures Valid()
      ensures cameraData == old(cameraData).(pos := Add(old(cameraData.pos), Scale(old(cameraData.left), amount)))
      ensures angleX == old(angleX) && angleY == old(angleY)
    {
      cameraData := cameraData.(pos := Add(cameraData.pos, Scale(cameraData.left, amount)));
    }

    /** `YawRight`: the yaw grows by `amount`, the pitch stays, the facing follows */
    method YawRight(amount: real)
      requires Valid()
      modifies this
      ensures Valid()
      ensures angleX == old(angleX) + amount && angleY == old(angleY)
      ensures cameraData == Faced(old(cameraData), FacingOf(angleX, angleY, cos, sin, sqrt))
    {
      angleX := angleX + amount;
      UpdateCameraFacing();
    }

    /** `YawUp`: the pitch grows by `amount` and is clamped to [-1.5, 1.5] */
    method YawUp(amount: real)
      requires Valid()
      modifies this
      ensures Valid()
      ensures angleY == ClampPitch(old(angleY) + amount) && angleX == old(angleX)
      ensures cameraData == Faced(old(cameraData), FacingOf(angleX, angleY, cos, sin, sqrt))
    {
      angleY := angleY + amount;
      if angleY > PitchLimit {
        angleY := PitchLimit;
      } else if angleY < -PitchLimit {
        angleY := -PitchLimit;
      }
      UpdateCameraFacing();
    }
  }
}
