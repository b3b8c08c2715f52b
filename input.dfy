/** Game/CInput.h with the table of Game/InputToggleList.h: the state of the
    six input toggles this frame and last frame. The two `static` arrays of
    `CInput` are the two arrays of `InputState`; the calls of the game reach
    the one instance the program has. */
module Input {

  /** the toggles, in the order of Game/InputToggleList.h */
  const WalkForward: nat := 0
  const WalkLeft: nat := 1
  const WalkRight: nat := 2
  const WalkBack: nat := 3
  const Jump: nat := 4
  const Crouch: nat := 5
  const ToggleCount: nat := 6

  /** the `resetOnKeyUp` column of the table */
  const ResetOnKeyUp: seq<bool> := [true, true, true, true, false, true]

  /** a release that comes from the keyboard on a toggle that is not reset
      on key up leaves the toggle as it is */
  predicate Ignored(toggle: nat, enable: bool, fromInput: bool)
    requires toggle < ToggleCount
  {
    fromInput && !enable && !ResetOnKeyUp[toggle]
  }

  /** the `bool` stored into the `unsigned int` state */
  function StateValue(enable: bool): nat {
    if enable then 1 else 0
  }

  /** the toggle states after `SetInputToggle` */
  function Toggled(states: seq<nat>, toggle: nat, enable: bool, fromInput: bool): (r: seq<nat>)
    requires toggle < ToggleCount == |states|
    ensures |r| == |states|
    ensures forall i :: 0 <= i < |r| && i != toggle ==> r[i] == states[i]
  {
    if Ignored(toggle, enable, fromInput) then states else states[toggle := StateValue(enable)]
  }

  /** `InputToggleOn` on one state: on is any non-zero state, and a
      state stored from `enable` is on exactly when `enable` was true */
  function IsOn(state: nat): (r: bool)
    ensures r <==> state != 0
    ensures state == StateValue(true) ==> r
    ensures state == StateValue(false) ==> !r
  {
    state > 0
  }

  /** `InputToggleActivated` on one state and its value last frame: the
      toggle is on now and was off last frame */
  function IsActivated(state: nat, last: nat): (r: bool)
    ensures r <==> IsOn(state) && !IsOn(last)
  {
    state != 0 && last == 0
  }

  /** `InputToggleDeactivated`: the toggle is off now and was on last frame */
  function IsDeactivated(state: nat, last: nat): (r: bool)
    ensures r <==> !IsOn(state) && IsOn(last)
  {
    state == 0 && last != 0
  }

  /** only Jump ignores releases, and only releases that come from input */
  lemma IgnoredOnlyJumpRelease(toggle: nat, enable: bool, fromInput: bool)
    requires toggle < ToggleCount
    ensures Ignored(toggle, enable, fromInput) <==> fromInput && !enable && toggle == Jump
  {}

  /** when not ignored, the toggle is on afterwards exactly when `enable` was given */
  lemma ToggledOn(states: seq<nat>, toggle: nat, enable: bool, fromInput: bool)
    requires toggle < ToggleCount == |states|
    requires !Ignored(toggle, enable, fromInput)
    ensures IsOn(Toggled(states, toggle, enable, fromInput)[toggle]) <==> enable
  {}

  /** a toggle is never activated and deactivated in the same frame, and an
      activated toggle is on */
  lemma ActivatedDeactivatedExclusive(state: nat, last: nat)
    ensures !(IsActivated(state, last) && IsDeactivated(state, last))
    ensures IsActivated(state, last) ==> IsOn(state)
    ensures IsDeactivated(state, last) ==> !IsOn(state)
  {}

  class InputState {
    /** `m_toggleState` */
    const toggleState: array<nat>
    /** `m_toggleStateLastFrame` */
    const toggleStateLastFrame: array<nat>

    ghost predicate Valid()
      reads this
    {
      toggleState.Length == ToggleCount && toggleStateLastFrame.Length == ToggleCount
      && toggleState != toggleStateLastFrame
    }

    /** every toggle starts off, this frame and last */
    constructor ()
      ensures Valid() && fresh(toggleState) && fresh(toggleStateLastFrame)
      ensures forall i :: 0 <= i < ToggleCount ==> toggleState[i] == 0 && toggleStateLastFrame[i] == 0
    {
      var state := new nat[ToggleCount];
      var last := new nat[ToggleCount];
      var index := 0;
      while index < ToggleCount
        invariant 0 <= index <= ToggleCount
        invariant forall i :: 0 <= i < index ==> state[i] == 0 && last[i] == 0
      {
        state[index] := 0;
        last[index] := 0;
        index := index + 1;
      }
      toggleState := state;
      toggleStateLastFrame := last;
    }

    /** `SetInputToggle`: the toggle must be one of the six */
    method SetInputToggle(toggle: nat, enable: bool, fromInput: bool)
      requires Valid() && toggle < ToggleCount
      modifies toggleState
      ensures toggleState[..] == Toggled(old(toggleState[..]), toggle, enable, fromInput)
    {
      if fromInput && !enable {
        if !ResetOnKeyUp[toggle] {
          return;
        }
      }
      toggleState[toggle] := StateValue(enable);
    }

    /** `InputToggleOn`: the toggle's state this frame is non-zero */
    function InputToggleOn(toggle: nat): (r: bool)
      requires Valid() && toggle < ToggleCount
      reads this, toggleState
      ensures r <==> toggleState[toggle] != 0
    {
      IsOn(toggleState[toggle])
    }

    /** `InputToggleActivated`: on this frame and off last frame */
    function InputToggleActivated(toggle: nat): (r: bool)
      requires Valid() && toggle < ToggleCount
      reads this, toggleState, toggleStateLastFrame
      ensures r ==> InputToggleOn(toggle)
      ensures r <==> InputToggleOn(toggle) && toggleStateLastFrame[toggle] == 0
    {
      IsActivated(toggleState[toggle], toggleStateLastFrame[toggle])
    }

    /** `InputToggleDeactivated`: off this frame and on last frame */
    function InputToggleDeactivated(toggle: nat): (r: bool)
      requires Valid() && toggle < ToggleCount
      reads this, toggleState, toggleStateLastFrame
      ensures r ==> !InputToggleOn(toggle)
      ensures r <==> !InputToggleOn(toggle) && toggleStateLastFrame[toggle] != 0
    {
      IsDeactivated(toggleState[toggle], toggleStateLastFrame[toggle])
    }
  }
}
