/** Game/CPlayer.cpp: the player's position, velocity and ground contact,
    driven each frame by the input toggles and the camera's facing, with the
    camera following the player's position.

    The input state (`CInput`'s statics) and the camera singleton
    (`CCamera::Get()`) are passed to the methods that use them. */
module Player {
  import opened Float3
  import Input
  import GameCamera

  /** `moveAmount`: walking speed */
  const MoveAmount: real := 5.0
  /** the vertical speed a jump sets */
  const JumpSpeed: real := 0.1
  /** the fall of the vertical speed per unit of elapsed time */
  const Gravity: real := 0.3

  /** the three fields `Update` changes */
  datatype PlayerState = PlayerState(position: Vec3, velocity: Vec3, onGround: bool)

  /** one walking direction over the frame */
  function Stride(direction: Vec3, elapsed: real): (r: Vec3)
    ensures r == Scale(direction, MoveAmount * elapsed)
  {
    Scale(Scale(direction, MoveAmount), elapsed)
  }

  /** `moveDelta`: forward, back, left and right in that order, forward and
      left adding their stride and back and right taking it away */
  function WalkDelta(forward: bool, back: bool, left: bool, right: bool,
                     forward2D: Vec3, leftward: Vec3, elapsed: real): (r: Vec3)
    ensures !forward && !back && !left && !right ==> r == Zero
    ensures !left && !right && forward != back ==>
      r == Scale(forward2D, (if forward then MoveAmount else -MoveAmount) * elapsed)
  {
    var d1 := if forward then Add(Zero, Stride(forward2D, elapsed)) else Zero;
    var d2 := if back then Sub(d1, Stride(forward2D, elapsed)) else d1;
    var d3 := if left then Add(d2, Stride(leftward, elapsed)) else d2;
    if right then Sub(d3, Stride(leftward, elapsed)) else d3
  }

  /** the velocity after the jump test: a jump starts only from the ground */
  function Jumped(s: PlayerState, jumpActivated: bool): (r: Vec3)
    ensures r.x == s.velocity.x && r.z == s.velocity.z
    ensures r.y == (if s.onGround && jumpActivated then JumpSpeed else s.velocity.y)
  {
    if s.onGround && jumpActivated then s.velocity.With(1, JumpSpeed) else s.velocity
  }

  /** one `Update` on the player's fields, given the walk displacement and
      whether Jump was activated this frame. The player is on the ground
      afterwards exactly when it ends at or below height zero; on the ground
      its vertical speed is zero, in the air it has fallen by gravity */
  function Step(s: PlayerState, walk: Vec3, jumpActivated: bool, elapsed: real): (r: PlayerState)
    ensures r.position == Add(Add(s.position, walk), Jumped(s, jumpActivated))
    ensures r.onGround <==> r.position.y <= 0.0
    ensures r.onGround ==> r.velocity.y == 0.0
    ensures !r.onGround ==> r.velocity.y == Jumped(s, jumpActivated).y - Gravity * elapsed
    ensures r.velocity.x == s.velocity.x && r.velocity.z == s.velocity.z
  {
    var position := Add(Add(s.position, walk), Jumped(s, jumpActivated));
    var velocity := Jumped(s, jumpActivated);
    if position.y > 0.0 then
      PlayerState(position, velocity.With(1, velocity.y - Gravity * elapsed), false)
    else
      PlayerState(position, velocity.With(1, 0.0), true)
  }

  /** holding forward and back together, or left and right together, adds no
      walk displacement along that pair */
  lemma OpposingKeysCancel(forward: bool, back: bool, left: bool, right: bool,
                           forward2D: Vec3, leftward: Vec3, elapsed: real)
    ensures WalkDelta(true, true, left, right, forward2D, leftward, elapsed)
         == WalkDelta(false, false, left, right, forward2D, leftward, elapsed)
    ensures WalkDelta(forward, back, true, true, forward2D, leftward, elapsed)
         == WalkDelta(forward, back, false, false, forward2D, leftward, elapsed)
  {}

  /** with horizontal walking directions, walking never changes the height */
  lemma WalkIsHorizontal(forward: bool, back: bool, left: bool, right: bool,
                         forward2D: Vec3, leftward: Vec3, elapsed: real)
    requires forward2D.y == 0.0 && leftward.y == 0.0
    ensures WalkDelta(forward, back, left, right, forward2D, leftward, elapsed).y == 0.0
  {}

  /** a player resting on the ground who walks horizontally and does not jump
      stays on the ground at the same height */
  lemma StaysOnGround(s: PlayerState, walk: Vec3, jumpActivated: bool, elapsed: real)
    requires s.onGround && s.velocity.y == 0.0 && s.position.y <= 0.0
    requires walk.y == 0.0 && !jumpActivated
    ensures Step(s, walk, jumpActivated, elapsed).onGround
    ensures Step(s, walk, jumpActivated, elapsed).position.y == s.position.y
  {}

  /** a jump lifts a grounded player off unless it stands more than the jump
      speed below height zero; a player in the air cannot jump */
  lemma JumpTakesOff(s: PlayerState, walk: Vec3, elapsed: real)
    ensures s.onGround && s.position.y + walk.y + JumpSpeed > 0.0 ==>
      !Step(s, walk, true, elapsed).onGround
      && Step(s, walk, true, elapsed).velocity.y == JumpSpeed - Gravity * elapsed
    ensures !s.onGround ==> Step(s, walk, true, elapsed) == Step(s, walk, false, elapsed)
  {}

  class Player {
    /** `m_position` */
    var position: Vec3
    /** `m_velocity` */
    var velocity: Vec3
    /** `m_onGround` */
    var onGround: bool

    function State(): PlayerState
      reads this
    {
      PlayerState(position, velocity, onGround)
    }

    /** at rest at the origin, not on the ground */
    constructor ()
      ensures State() == PlayerState(Zero, Zero, false)
    {
      onGround := false;
      position := Zero;
      velocity := Zero;
    }

    /** the first half of `Update`: the walk displacement from the toggles
        that are on, read from the camera without changing anything */
    method MoveDelta(elapsed: real, input: Input.InputState, camera: GameCamera.Camera) returns (moveDelta: Vec3)
      requires input.Valid() && camera.Valid()
      ensures moveDelta == WalkDelta(input.InputToggleOn(Input.WalkForward), input.InputToggleOn(Input.WalkBack),
                                     input.InputToggleOn(Input.WalkLeft), input.InputToggleOn(Input.WalkRight),
                                     camera.Forward2D(), camera.GetLeft(), elapsed)
      ensures moveDelta.y == 0.0
    {
      moveDelta := Zero;
      if input.InputToggleOn(Input.WalkForward) {
        moveDelta := Add(moveDelta, Stride(camera.Forward2D(), elapsed));
      }
      if input.InputToggleOn(Input.WalkBack) {
        moveDelta := Sub(moveDelta, Stride(camera.Forward2D(), elapsed));
      }
      if input.InputToggleOn(Input.WalkLeft) {
        moveDelta := Add(moveDelta, Stride(camera.GetLeft(), elapsed));
      }
      if input.InputToggleOn(Input.WalkRight) {
        moveDelta := Sub(moveDelta, Stride(camera.GetLeft(), elapsed));
      }
      WalkIsHorizontal(input.InputToggleOn(Input.WalkForward), input.InputToggleOn(Input.WalkBack),
                       input.InputToggleOn(Input.WalkLeft), input.InputToggleOn(Input.WalkRight),
                       camera.Forward2D(), camera.GetLeft(), elapsed);
    }

    /** the second half of `Update` on the player's own fields: walk, jump,
        move by the velocity, then land or fall */
    method Advance(moveDelta: Vec3, jumpActivated: bool, elapsed: real)
      modifies this
      ensures State() == Step(old(State()), moveDelta, jumpActivated, elapsed)
    {
      ghost var before := State();
      position := Add(position, moveDelta);

      if onGround && jumpActivated {
        velocity := velocity.With(1, JumpSpeed);
      }
      assert velocity == Jumped(before, jumpActivated);

      position := Add(position, velocity);

      if position.y > 0.0 {
        onGround := false;
        velocity := velocity.With(1, velocity.y - Gravity * elapsed);
      } else {
        onGround := true;
        velocity := velocity.With(1, 0.0);
      }
    }

    /** `Update`: walk, jump, move by the velocity, land or fall, and put the
        camera at the new position */
    method Update(elapsed: real, input: Input.InputState, camera: GameCamera.Camera)
      requires input.Valid() && camera.Valid()
      modifies this, camera.shared.data
      ensures camera.Valid() && camera.shared.data.stale
      ensures State() == old(Step(State(),
        WalkDelta(input.InputToggleOn(Input.WalkForward), input.InputToggleOn(Input.WalkBack),
                  input.InputToggleOn(Input.WalkLeft), input.InputToggleOn(Input.WalkRight),
                  camera.Forward2D(), camera.GetLeft(), elapsed),
        input.InputToggleActivated(Input.Jump), elapsed))
      ensures camera.shared.CameraConst().pos == position
      ensures camera.shared.data.obj == old(camera.shared.data.obj).(camera := old(camera.shared.data.obj.camera).(pos := position))
    {
      var moveDelta := MoveDelta(elapsed, input, camera);
      var jumpActivated := input.InputToggleActivated(Input.Jump);
      Advance(moveDelta, jumpActivated, elapsed);
      ghost var after := State();
      camera.SetPosition(position);
      assert State() == after;
    }

    /** `SetPosition`: the player is placed at (X, Y, Z) in the air, with its
        velocity kept, and the camera follows */
    method SetPosition(x: real, y: real, z: real, camera: GameCamera.Camera)
      requires camera.Valid()
      modifies this, camera.shared.data
      ensures camera.Valid() && camera.shared.data.stale
      ensures State() == PlayerState(Vec3(x, y, z), old(velocity), false)
      ensures camera.shared.CameraConst().pos == position
      ensures camera.shared.data.obj == old(camera.shared.data.obj).(camera := old(camera.shared.data.obj.camera).(pos := position))
    {
      onGround := false;
      position := position.With(0, x);
      position := position.With(1, y);
      position := position.With(2, z);
      camera.SetPosition(position);
    }

    /** `SetFacing`: the camera's yaw becomes `angle` and its facing follows;
        the camera's position, view and the shared world stay as they were */
    method SetFacing(angle: real, camera: GameCamera.Camera)
      requires camera.Valid()
      modifies camera, camera.shared.data
      ensures camera.Valid() && camera.shared.data.stale
      ensures camera.angleX == angle && camera.angleY == old(camera.angleY)
      ensures camera.viewWidthHeightDistance == old(camera.viewWidthHeightDistance)
      ensures camera.shared.data.obj == old(camera.shared.data.obj).(camera := GameCamera.Faced(old(camera.shared.data.obj.camera),
        GameCamera.FacingOf(camera.angleX, camera.angleY, camera.cos, camera.sin, camera.sqrt)))
      ensures camera.shared.data.handle == old(camera.shared.data.handle)
      ensures State() == old(State())
    {
      camera.SetYaw(angle);
    }
  }
}
