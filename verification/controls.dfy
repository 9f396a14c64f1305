/** Keyboard and mouse input state of the tank: key events set or clear
    movement flags, a left-button drag steers pitch and yaw, and two vectors
    are derived from the flags after each change. Listener registration and
    the page geometry used to normalise the pointer are outside the model. */
module Controls {
  import opened Vectors

  datatype Option<T> = None | Some(value: T)

  /** The `moveState` record: every flag is a number. */
  datatype MoveState = MoveState(
    up: real, down: real, left: real, right: real, forward: real, back: real,
    pitchUp: real, pitchDown: real, yawLeft: real, yawRight: real,
    rollLeft: real, rollRight: real)

  const Still: MoveState :=
    MoveState(0.0, 0.0, 0.0, 0.0, 0.0, 0.0, 0.0, 0.0, 0.0, 0.0, 0.0, 0.0)

  datatype MouseStatus = MouseStatus(x: real, y: real)

  /** The flags that keys drive. */
  datatype KeyFlag = Forward | Back | Left | Right | Up | Down | RollLeft | RollRight

  /** Speed modifiers applied to both derived vectors. */
  const MovementSpeedMultiplier: real := 0.5
  const RotationSpeedMultiplier: real := 0.5

  /** The event codes bound to a flag. */
  const BoundCodes: set<string> :=
    {"ArrowUp", "KeyW", "ArrowDown", "KeyS", "ArrowLeft", "KeyA", "ArrowRight", "KeyD",
     "KeyR", "Space", "KeyF", "ShiftLeft", "KeyQ", "KeyE"}

  /** The flag an event code drives, if any: the case labels shared by the
      key-down and key-up switches, with arrow keys and letters as aliases. */
  function FlagOf(code: string): (r: Option<KeyFlag>)
    ensures r.None? <==> code !in BoundCodes
  {
    match code
    case "ArrowUp" | "KeyW" => Some(Forward)
    case "ArrowDown" | "KeyS" => Some(Back)
    case "ArrowLeft" | "KeyA" => Some(Left)
    case "ArrowRight" | "KeyD" => Some(Right)
    case "KeyR" | "Space" => Some(Up)
    case "KeyF" | "ShiftLeft" => Some(Down)
    case "KeyQ" => Some(RollLeft)
    case "KeyE" => Some(RollRight)
    case _ => None
  }

  function Get(ms: MoveState, f: KeyFlag): real
  {
    match f
    case Forward => ms.forward
    case Back => ms.back
    case Left => ms.left
    case Right => ms.right
    case Up => ms.up
    case Down => ms.down
    case RollLeft => ms.rollLeft
    case RollRight => ms.rollRight
  }

  /** The pitch and yaw flags, which only the mouse drives, agree. */
  predicate SameLook(a: MoveState, b: MoveState)
  {
    a.pitchUp == b.pitchUp && a.pitchDown == b.pitchDown &&
    a.yawLeft == b.yawLeft && a.yawRight == b.yawRight
  }

  function Set(ms: MoveState, f: KeyFlag, v: real): (r: MoveState)
    ensures Get(r, f) == v
    ensures forall g :: g != f ==> Get(r, g) == Get(ms, g)
    ensures SameLook(r, ms)
  {
    match f
    case Forward => ms.(forward := v)
    case Back => ms.(back := v)
    case Left => ms.(left := v)
    case Right => ms.(right := v)
    case Up => ms.(up := v)
    case Down => ms.(down := v)
    case RollLeft => ms.(rollLeft := v)
    case RollRight => ms.(rollRight := v)
  }

  /** The flags after a key-down of `code`: the key-down switch sets the
      code's flag to 1, and an unbound code falls through unchanged. */
  function Pressed(ms: MoveState, code: string): (r: MoveState)
    ensures SameLook(r, ms)
    ensures FlagOf(code).None? ==> r == ms
    ensures FlagOf(code).Some? ==>
      && Get(r, FlagOf(code).value) == 1.0
      && forall g :: g != FlagOf(code).value ==> Get(r, g) == Get(ms, g)
  {
    match FlagOf(code)
    case None => ms
    case Some(f) => Set(ms, f, 1.0)
  }

  /** The flags after a key-up of `code`: the key-up switch clears the
      code's flag, and an unbound code falls through unchanged. */
  function Released(ms: MoveState, code: string): (r: MoveState)
    ensures SameLook(r, ms)
    ensures FlagOf(code).None? ==> r == ms
    ensures FlagOf(code).Some? ==>
      && Get(r, FlagOf(code).value) == 0.0
      && forall g :: g != FlagOf(code).value ==> Get(r, g) == Get(ms, g)
  {
    match FlagOf(code)
    case None => ms
    case Some(f) => Set(ms, f, 0.0)
  }

  /** `updateMovementVector`: each component points toward the stronger key
      of its pair: right is +x, up is +y, back is +z (forward is -z). Equal
      keys cancel. */
  function MovementVector(ms: MoveState): (v: Vec3)
    ensures (v.x > 0.0 <==> ms.right > ms.left) && (v.x < 0.0 <==> ms.left > ms.right)
    ensures (v.y > 0.0 <==> ms.up > ms.down) && (v.y < 0.0 <==> ms.down > ms.up)
    ensures (v.z > 0.0 <==> ms.back > ms.forward) && (v.z < 0.0 <==> ms.forward > ms.back)
  {
    Vec3((-ms.left + ms.right) * MovementSpeedMultiplier,
         (-ms.down + ms.up) * MovementSpeedMultiplier,
         (-ms.forward + ms.back) * MovementSpeedMultiplier)
  }

  /** `updateRotationVector`: pitch up is +x, yaw left is +y, roll left is
      +z; opposite flags cancel. */
  function RotationVector(ms: MoveState): (v: Vec3)
    ensures (v.x > 0.0 <==> ms.pitchUp > ms.pitchDown) && (v.x < 0.0 <==> ms.pitchDown > ms.pitchUp)
    ensures (v.y > 0.0 <==> ms.yawLeft > ms.yawRight) && (v.y < 0.0 <==> ms.yawRight > ms.yawLeft)
    ensures (v.z > 0.0 <==> ms.rollLeft > ms.rollRight) && (v.z < 0.0 <==> ms.rollRight > ms.rollLeft)
  {
    Vec3((-ms.pitchDown + ms.pitchUp) * RotationSpeedMultiplier,
         (-ms.yawRight + ms.yawLeft) * RotationSpeedMultiplier,
         (-ms.rollRight + ms.rollLeft) * RotationSpeedMultiplier)
  }

  /** A pointer coordinate split into the flag for its negative side and the
      flag for its positive side. */
  datatype AxisSplit = AxisSplit(negative: real, positive: real)

  function Split(v: real): (s: AxisSplit)
    ensures s.negative >= 0.0 && s.positive >= 0.0
    ensures s.negative == 0.0 || s.positive == 0.0
    ensures s.positive - s.negative == v
  {
    AxisSplit(if v < 0.0 then -v else 0.0, if v > 0.0 then v else 0.0)
  }

  /** The flags after a drag to normalised pointer position (x, y): the key
      flags stay, and each look axis holds the coordinate split into its
      negative side (yaw left, pitch up) and positive side (yaw right, pitch
      down). */
  function Steered(ms: MoveState, x: real, y: real): (r: MoveState)
    ensures forall f :: Get(r, f) == Get(ms, f)
    ensures LookSplit(r)
    ensures r.yawRight - r.yawLeft == x && r.pitchDown - r.pitchUp == y
  {
    var h, v := Split(x), Split(y);
    ms.(yawLeft := h.negative, yawRight := h.positive,
        pitchDown := v.positive, pitchUp := v.negative)
  }

  /** The flags after the drag button is released: pitch and yaw are reset,
      so only roll remains in the rotation vector; the key flags stay. */
  function Unsteered(ms: MoveState): (r: MoveState)
    ensures forall f :: Get(r, f) == Get(ms, f)
    ensures r.pitchUp == 0.0 && r.pitchDown == 0.0 && r.yawLeft == 0.0 && r.yawRight == 0.0
    ensures RotationVector(r) == Vec3(0.0, 0.0, RotationVector(ms).z)
    ensures MovementVector(r) == MovementVector(ms)
  {
    ms.(pitchUp := 0.0, pitchDown := 0.0, yawLeft := 0.0, yawRight := 0.0)
  }

  /** Every key-driven flag is 0 or 1. */
  predicate KeyFlagsBinary(ms: MoveState)
  {
    && Bit(ms.forward) && Bit(ms.back) && Bit(ms.left) && Bit(ms.right)
    && Bit(ms.up) && Bit(ms.down) && Bit(ms.rollLeft) && Bit(ms.rollRight)
  }

  predicate Bit(v: real)
  {
    v == 0.0 || v == 1.0
  }

  /** Pitch and yaw flags as a drag leaves them: non-negative, at most one per axis. */
  ghost predicate LookSplit(ms: MoveState)
  {
    && ms.yawLeft >= 0.0 && ms.yawRight >= 0.0 && (ms.yawLeft == 0.0 || ms.yawRight == 0.0)
    && ms.pitchUp >= 0.0 && ms.pitchDown >= 0.0 && (ms.pitchUp == 0.0 || ms.pitchDown == 0.0)
  }

  /** What holds between events: the vectors reflect the flags, key flags are
      0 or 1, look flags come from a split, and no look flag is set unless a
      drag is in progress. */
  ghost predicate Consistent(ms: MoveState, dragging: bool, moveVector: Vec3, rotationVector: Vec3)
  {
    && moveVector == MovementVector(ms)
    && rotationVector == RotationVector(ms)
    && KeyFlagsBinary(ms)
    && LookSplit(ms)
    && (!dragging ==> ms.pitchUp == 0.0 && ms.pitchDown == 0.0 && ms.yawLeft == 0.0 && ms.yawRight == 0.0)
  }

  // ---------------------------------------------------------------------------
  // Lemmas

  /** Which flag each bound code drives: W or ArrowUp forward, S or
      ArrowDown back, A or ArrowLeft left, D or ArrowRight right, R or Space
      up, F or ShiftLeft down, Q roll left and E roll right. */
  lemma KeyBindings()
    ensures FlagOf("KeyW") == Some(Forward) && FlagOf("ArrowUp") == Some(Forward)
    ensures FlagOf("KeyS") == Some(Back) && FlagOf("ArrowDown") == Some(Back)
    ensures FlagOf("KeyA") == Some(Left) && FlagOf("ArrowLeft") == Some(Left)
    ensures FlagOf("KeyD") == Some(Right) && FlagOf("ArrowRight") == Some(Right)
    ensures FlagOf("KeyR") == Some(Up) && FlagOf("Space") == Some(Up)
    ensures FlagOf("KeyF") == Some(Down) && FlagOf("ShiftLeft") == Some(Down)
    ensures FlagOf("KeyQ") == Some(RollLeft) && FlagOf("KeyE") == Some(RollRight)
  {
  }

  /** The two keys of each pair share one flag: releasing either clears the
      flag that the other set, even while the other is still held. */
  lemma AliasesShareFlag(ms: MoveState, held: string, released: string)
    requires (held == "KeyW" && released == "ArrowUp") || (held == "ArrowUp" && released == "KeyW")
          || (held == "KeyS" && released == "ArrowDown") || (held == "ArrowDown" && released == "KeyS")
          || (held == "KeyA" && released == "ArrowLeft") || (held == "ArrowLeft" && released == "KeyA")
          || (held == "KeyD" && released == "ArrowRight") || (held == "ArrowRight" && released == "KeyD")
          || (held == "KeyR" && released == "Space") || (held == "Space" && released == "KeyR")
          || (held == "KeyF" && released == "ShiftLeft") || (held == "ShiftLeft" && released == "KeyF")
    ensures FlagOf(held).Some? && FlagOf(held) == FlagOf(released)
    ensures Get(Released(Pressed(ms, held), released), FlagOf(held).value) == 0.0
  {
  }

  /** With key flags 0 or 1, each component of the movement vector is -0.5, 0
      or 0.5, and it is 0.5 exactly when only the positive key of its pair is
      down (right, up, back) and -0.5 exactly when only the negative one is. */
  lemma MovementVectorSteps(ms: MoveState)
    requires KeyFlagsBinary(ms)
    ensures var v := MovementVector(ms);
      && v.x in {-0.5, 0.0, 0.5} && v.y in {-0.5, 0.0, 0.5} && v.z in {-0.5, 0.0, 0.5}
      && (v.x == 0.5 <==> ms.right == 1.0 && ms.left == 0.0)
      && (v.x == -0.5 <==> ms.left == 1.0 && ms.right == 0.0)
      && (v.y == 0.5 <==> ms.up == 1.0 && ms.down == 0.0)
      && (v.y == -0.5 <==> ms.down == 1.0 && ms.up == 0.0)
      && (v.z == 0.5 <==> ms.back == 1.0 && ms.forward == 0.0)
      && (v.z == -0.5 <==> ms.forward == 1.0 && ms.back == 0.0)
  {
  }

  /** With key flags 0 or 1 the roll component is -0.5, 0 or 0.5: 0.5 when
      only Q is down, -0.5 when only E is. */
  lemma RollSteps(ms: MoveState)
    requires KeyFlagsBinary(ms)
    ensures var z := RotationVector(ms).z;
      && z in {-0.5, 0.0, 0.5}
      && (z == 0.5 <==> ms.rollLeft == 1.0 && ms.rollRight == 0.0)
      && (z == -0.5 <==> ms.rollRight == 1.0 && ms.rollLeft == 0.0)
  {
  }

  /** A drag to (x, y) sets rotation x to -y/2 and rotation y to -x/2, and
      leaves roll and the movement vector as they were. */
  lemma SteeringRotation(ms: MoveState, x: real, y: real)
    ensures var r := RotationVector(Steered(ms, x, y));
      && r.x == -y * RotationSpeedMultiplier
      && r.y == -x * RotationSpeedMultiplier
      && r.z == RotationVector(ms).z
      && MovementVector(Steered(ms, x, y)) == MovementVector(ms)
  {
    var h, v := Split(x), Split(y);
    assert h.positive - h.negative == x && v.positive - v.negative == y;
  }

  /** Outside a drag the pitch and yaw components of the rotation vector are zero. */
  lemma NoLookWithoutDrag(ms: MoveState, moveVector: Vec3, rotationVector: Vec3)
    requires Consistent(ms, false, moveVector, rotationVector)
    ensures rotationVector.x == 0.0 && rotationVector.y == 0.0
  {
  }

  /** Key-driven flags in {0, 1} survive any press or release. */
  lemma KeysKeepFlagsBinary(ms: MoveState, code: string)
    requires KeyFlagsBinary(ms)
    ensures KeyFlagsBinary(Pressed(ms, code)) && KeyFlagsBinary(Released(ms, code))
  {
    match FlagOf(code)
    case None =>
    case Some(f) =>
      SetKeepsFlagsBinary(ms, f, 1.0);
      SetKeepsFlagsBinary(ms, f, 0.0);
  }

  lemma SetKeepsFlagsBinary(ms: MoveState, f: KeyFlag, v: real)
    requires KeyFlagsBinary(ms) && Bit(v)
    ensures KeyFlagsBinary(Set(ms, f, v))
  {
  }

  // ---------------------------------------------------------------------------
  // The controls object

  class TankControls {
    var moveState: MoveState
    var moveVector: Vec3
    var rotationVector: Vec3
    var keys: map<string, bool>
    var mouseDragOn: bool
    var mouseStatus: MouseStatus

    ghost predicate Valid()
      reads this
    {
      Consistent(moveState, mouseDragOn, moveVector, rotationVector)
    }

    constructor ()
      ensures Valid()
      ensures moveState == Still && keys == map[] && !mouseDragOn
      ensures mouseStatus == MouseStatus(0.0, 0.0)
      ensures moveVector == Zero && rotationVector == Zero
    {
      moveState := Still;
      moveVector := Zero;
      rotationVector := Zero;
      keys := map[];
      mouseDragOn := false;
      mouseStatus := MouseStatus(0.0, 0.0);
    }

    /** Recomputes the movement vector from the flags. */
    method UpdateMovementVector()
      modifies this
      ensures moveVector == MovementVector(moveState)
      ensures moveState == old(moveState) && rotationVector == old(rotationVector)
      ensures keys == old(keys) && mouseDragOn == old(mouseDragOn) && mouseStatus == old(mouseStatus)
    {
      moveVector := Vec3((-moveState.left + moveState.right) * MovementSpeedMultiplier,
                         (-moveState.down + moveState.up) * MovementSpeedMultiplier,
                         (-moveState.forward + moveState.back) * MovementSpeedMultiplier);
    }

    /** Recomputes the rotation vector from the flags. */
    method UpdateRotationVector()
      modifies this
      ensures rotationVector == RotationVector(moveState)
      ensures moveState == old(moveState) && moveVector == old(moveVector)
      ensures keys == old(keys) && mouseDragOn == old(mouseDragOn) && mouseStatus == old(mouseStatus)
    {
      rotationVector := Vec3((-moveState.pitchDown + moveState.pitchUp) * RotationSpeedMultiplier,
                             (-moveState.yawRight + moveState.yawLeft) * RotationSpeedMultiplier,
                             (-moveState.rollRight + moveState.rollLeft) * RotationSpeedMultiplier);
    }

    /** A key-down event. A repeated event changes nothing; otherwise the key
        is recorded as down and its flag, if it has one, is set. */
    method OnKeyDown(code: string, repeat: bool)
      requires Valid()
      modifies this
      ensures Valid()
      ensures repeat ==> moveState == old(moveState) && keys == old(keys)
                         && moveVector == old(moveVector) && rotationVector == old(rotationVector)
      ensures !repeat ==> moveState == Pressed(old(moveState), code) && keys == old(keys)[code := true]
      ensures mouseDragOn == old(mouseDragOn) && mouseStatus == old(mouseStatus)
    {
      if repeat {
        return;
      }
      keys := keys[code := true];
      moveState := Pressed(moveState, code);
      KeysKeepFlagsBinary(old(moveState), code);
      UpdateMovementVector();
      UpdateRotationVector();
    }

    /** A key-up event: the key is recorded as up and its flag, if it has one,
        is cleared. */
    method OnKeyUp(code: string)
      requires Valid()
      modifies this
      ensures Valid()
      ensures moveState == Released(old(moveState), code) && keys == old(keys)[code := false]
      ensures mouseDragOn == old(mouseDragOn) && mouseStatus == old(mouseStatus)
    {
      keys := keys[code := false];
      moveState := Released(moveState, code);
      KeysKeepFlagsBinary(old(moveState), code);
      UpdateMovementVector();
      UpdateRotationVector();
    }

    /** A button press: button 0 starts a drag; other buttons do nothing. */
    method OnMouseDown(button: int)
      requires Valid()
      modifies this
      ensures Valid()
      ensures mouseDragOn == (button == 0 || old(mouseDragOn))
      ensures moveState == old(moveState) && keys == old(keys) && mouseStatus == old(mouseStatus)
      ensures moveVector == old(moveVector) && rotationVector == old(rotationVector)
    {
      if button == 0 {
        mouseDragOn := true;
      }
    }

    /** A button release: button 0 ends the drag and clears pitch and yaw;
        other buttons do nothing. */
    method OnMouseUp(button: int)
      requires Valid()
      modifies this
      ensures Valid()
      ensures button == 0 ==> !mouseDragOn && moveState == Unsteered(old(moveState))
                              && rotationVector.x == 0.0 && rotationVector.y == 0.0
      ensures button != 0 ==> mouseDragOn == old(mouseDragOn) && moveState == old(moveState)
                              && rotationVector == old(rotationVector)
      ensures keys == old(keys) && mouseStatus == old(mouseStatus) && moveVector == old(moveVector)
    {
      if button == 0 {
        mouseDragOn := false;
        moveState := moveState.(pitchUp := 0.0, pitchDown := 0.0, yawLeft := 0.0, yawRight := 0.0);
        UpdateRotationVector();
      }
    }

    /** Pointer movement to the position (x, y), measured from the centre of
        the page body in half-widths and half-heights. Ignored unless a drag
        is in progress; during a drag the position is split into yaw and
        pitch flags. */
    method OnMouseMove(x: real, y: real)
      requires Valid()
      modifies this
      ensures Valid()
      ensures !old(mouseDragOn) ==> moveState == old(moveState) && mouseStatus == old(mouseStatus)
                                    && rotationVector == old(rotationVector)
      ensures old(mouseDragOn) ==> mouseStatus == MouseStatus(x, y) && moveState == Steered(old(moveState), x, y)
      ensures mouseDragOn == old(mouseDragOn) && keys == old(keys) && moveVector == old(moveVector)
    {
      if !mouseDragOn {
        return;
      }
      mouseStatus := MouseStatus(x, y);
      moveState := moveState.(yawLeft := if mouseStatus.x < 0.0 then -mouseStatus.x else 0.0,
                              yawRight := if mouseStatus.x > 0.0 then mouseStatus.x else 0.0,
                              pitchDown := if mouseStatus.y > 0.0 then mouseStatus.y else 0.0,
                              pitchUp := if mouseStatus.y < 0.0 then -mouseStatus.y else 0.0);
      assert moveState == Steered(old(moveState), x, y);
      UpdateRotationVector();
    }
  }
}
