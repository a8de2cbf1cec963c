/**
 * Cameras: the fly-through camera's scalar state machine.  Yaw, pitch and
 * field of view are reals; the position and the front, right and up
 * vectors are kept as symbolic vector terms, so that what each input
 * handler does to them is exact without modelling trigonometry,
 * normalisation or floating point.
 */
module Cameras {
  import opened Common

  /**
   * A vector as the term that computes it.  `Direction(yaw, pitch)` stands
   * for (cos yaw cos pitch, sin -pitch, sin yaw cos pitch), the angles being
   * in degrees; the other constructors are the glm operations of the same
   * names.
   */
  datatype Vec =
    | Given(x: real, y: real, z: real)
    | Direction(yaw: real, pitch: real)
    | Cross(a: Vec, b: Vec)
    | Normalize(a: Vec)
    | Plus(a: Vec, b: Vec)
    | Minus(a: Vec, b: Vec)
    | Scale(k: real, a: Vec)

  /** The keys the keyboard handler polls, in the order it polls them. */
  datatype Key = KeyW | KeyS | KeyA | KeyD | KeyUp | KeyDown

  const InitialYaw: real := -90.0
  const InitialPitch: real := 0.0
  const Sensitivity: real := 0.1
  const InitialFov: real := 45.0
  const PitchLimit: real := 89.0
  const MinFov: real := 1.0
  const MaxFov: real := 45.0

  /** std::clamp: the bound that `x` passes, or `x` itself. */
  function Clamp(x: real, lo: real, hi: real): (r: real)
    requires lo <= hi
    ensures lo <= r <= hi
    ensures lo <= x <= hi ==> r == x
    ensures x < lo ==> r == lo
    ensures hi < x ==> r == hi
  {
    if x < lo then lo else if hi < x then hi else x
  }

  /** The rank of a key in the keyboard handler's if/else-if chain. */
  function Priority(k: Key): nat {
    match k
    case KeyW => 0
    case KeyS => 1
    case KeyA => 2
    case KeyD => 3
    case KeyUp => 4
    case KeyDown => 5
  }

  /**
   * The one key the keyboard handler acts on: the first pressed key in the
   * order W, S, A, D, UP, DOWN, or none when none of them is pressed.
   */
  function Action(pressed: set<Key>): (k: Option<Key>)
    ensures k.None? <==> pressed == {}
    ensures k.Some? ==> k.value in pressed
    ensures k.Some? ==> forall h :: h in pressed ==> Priority(k.value) <= Priority(h)
  {
    if KeyW in pressed then Some(KeyW)
    else if KeyS in pressed then Some(KeyS)
    else if KeyA in pressed then Some(KeyA)
    else if KeyD in pressed then Some(KeyD)
    else if KeyUp in pressed then Some(KeyUp)
    else if KeyDown in pressed then Some(KeyDown)
    else
      NoKeyPressed(pressed);
      None
  }

  /** The six keys are the only ones: when none of them is pressed, nothing is. */
  lemma NoKeyPressed(pressed: set<Key>)
    requires KeyW !in pressed && KeyS !in pressed && KeyA !in pressed
    requires KeyD !in pressed && KeyUp !in pressed && KeyDown !in pressed
    ensures pressed == {}
  {
    forall h: Key ensures h !in pressed {
      match h
      case KeyW =>
      case KeyS =>
      case KeyA =>
      case KeyD =>
      case KeyUp =>
      case KeyDown =>
    }
  }

  /** Moving keys change the position only; turning keys change the pitch only. */
  predicate Moves(k: Option<Key>) {
    k == Some(KeyW) || k == Some(KeyS) || k == Some(KeyA) || k == Some(KeyD)
  }

  function FrontOf(yaw: real, pitch: real): Vec {
    Normalize(Direction(yaw, pitch))
  }

  function RightOf(yaw: real, pitch: real, worldUp: Vec): Vec {
    Normalize(Cross(FrontOf(yaw, pitch), worldUp))
  }

  function UpOf(yaw: real, pitch: real, worldUp: Vec): Vec {
    Normalize(Cross(RightOf(yaw, pitch, worldUp), FrontOf(yaw, pitch)))
  }

  class Camera {
    var pos: Vec
    var front: Vec
    var up: Vec
    var yaw: real
    var pitch: real
    var fov: real
    var right: Vec
    const worldUp: Vec
    var isFirstMouse: bool
    var lastPosX: real
    var lastPosY: real

    /**
     * The camera's invariant: pitch within [-89, 89], field of view within
     * [1, 45], and the three direction vectors those the angles and the
     * world-up vector give.
     */
    predicate Valid()
      reads this
    {
      && -PitchLimit <= pitch <= PitchLimit
      && MinFov <= fov <= MaxFov
      && front == FrontOf(yaw, pitch)
      && right == RightOf(yaw, pitch, worldUp)
      && up == UpOf(yaw, pitch, worldUp)
    }

    /** The given front and up vectors are replaced at once by those derived from the initial angles. */
    constructor (pos: Vec, front: Vec, up: Vec)
      ensures Valid()
      ensures this.pos == pos && worldUp == up
      ensures yaw == InitialYaw && pitch == InitialPitch && fov == InitialFov
      ensures isFirstMouse && lastPosX == 0.0 && lastPosY == 0.0
    {
      this.pos := pos;
      this.front := front;
      this.up := up;
      yaw := InitialYaw;
      pitch := InitialPitch;
      fov := InitialFov;
      worldUp := up;
      isFirstMouse := true;
      lastPosX := 0.0;
      lastPosY := 0.0;
      new;
      UpdateCameraVectors();
    }

    /** Front, right and up recomputed from yaw, pitch and the world-up vector. */
    method UpdateCameraVectors()
      modifies this`front, this`right, this`up
      ensures front == FrontOf(yaw, pitch)
      ensures right == RightOf(yaw, pitch, worldUp)
      ensures up == UpOf(yaw, pitch, worldUp)
    {
      front := Normalize(Direction(yaw, pitch));
      right := Normalize(Cross(front, worldUp));
      up := Normalize(Cross(right, front));
    }

    /**
     * One keyboard poll: at most one action, that of the first pressed key
     * in the order W, S, A, D, UP, DOWN.  W and S move along the front
     * vector, A and D along the right vector, by 2.5 units per second; UP
     * and DOWN turn the pitch by one degree, clamped.  Yaw and field of
     * view never change, and the poll always reports success.
     */
    method ProcessKeyboard(pressed: set<Key>, deltaTime: real) returns (handled: bool)
      requires Valid()
      modifies this`pos, this`pitch, this`front, this`right, this`up
      ensures Valid() && handled
      ensures yaw == old(yaw) && fov == old(fov)
      ensures Action(pressed) == Some(KeyW) ==> pos == Plus(old(pos), Scale(2.5 * deltaTime, old(front)))
      ensures Action(pressed) == Some(KeyS) ==> pos == Minus(old(pos), Scale(2.5 * deltaTime, old(front)))
      ensures Action(pressed) == Some(KeyA) ==> pos == Minus(old(pos), Scale(2.5 * deltaTime, old(right)))
      ensures Action(pressed) == Some(KeyD) ==> pos == Plus(old(pos), Scale(2.5 * deltaTime, old(right)))
      ensures !Moves(Action(pressed)) ==> pos == old(pos)
      ensures Action(pressed) == Some(KeyUp) ==> pitch == Clamp(old(pitch) - 1.0, -PitchLimit, PitchLimit)
      ensures Action(pressed) == Some(KeyDown) ==> pitch == Clamp(old(pitch) + 1.0, -PitchLimit, PitchLimit)
      ensures Action(pressed) != Some(KeyUp) && Action(pressed) != Some(KeyDown) ==>
        pitch == old(pitch) && front == old(front) && right == old(right) && up == old(up)
    {
      var cameraSpeed := 2.5 * deltaTime;
      if KeyW in pressed {
        pos := Plus(pos, Scale(cameraSpeed, front));
      } else if KeyS in pressed {
        pos := Minus(pos, Scale(cameraSpeed, front));
      } else if KeyA in pressed {
        pos := Minus(pos, Scale(cameraSpeed, right));
      } else if KeyD in pressed {
        pos := Plus(pos, Scale(cameraSpeed, right));
      } else if KeyUp in pressed {
        pitch := Clamp(pitch - 1.0, -PitchLimit, PitchLimit);
        UpdateCameraVectors();
      } else if KeyDown in pressed {
        pitch := Clamp(pitch + 1.0, -PitchLimit, PitchLimit);
        UpdateCameraVectors();
      }
      handled := true;
    }

    /** Scrolling narrows or widens the field of view, clamped to [1, 45]; the horizontal offset is ignored. */
    method ProcessScrollInput(xOffset: real, yOffset: real)
      requires Valid()
      modifies this`fov
      ensures Valid()
      ensures fov == Clamp(old(fov) - yOffset, MinFov, MaxFov)
    {
      fov := fov - yOffset;
      fov := Clamp(fov, MinFov, MaxFov);
    }

    /**
     * Mouse motion: the first sample only sets the baseline, so it turns
     * nothing; every sample turns yaw (unclamped) and pitch (clamped to
     * [-89, 89]) by a tenth of the cursor's movement since the last sample,
     * and becomes the last sample.
     */
    method ProcessMouseInput(xPos: real, yPos: real)
      requires Valid()
      modifies this`isFirstMouse, this`lastPosX, this`lastPosY, this`yaw, this`pitch, this`front, this`right, this`up
      ensures Valid()
      ensures !isFirstMouse && lastPosX == xPos && lastPosY == yPos
      ensures var baseX := if old(isFirstMouse) then xPos else old(lastPosX);
        yaw == old(yaw) + Sensitivity * (xPos - baseX)
      ensures var baseY := if old(isFirstMouse) then yPos else old(lastPosY);
        pitch == Clamp(old(pitch) + Sensitivity * (yPos - baseY), -PitchLimit, PitchLimit)
      ensures old(isFirstMouse) ==> yaw == old(yaw) && pitch == old(pitch)
    {
      if isFirstMouse {
        lastPosX := xPos;
        lastPosY := yPos;
        isFirstMouse := false;
      }
      var xOffset := Sensitivity * (xPos - lastPosX);
      var yOffset := Sensitivity * (yPos - lastPosY);
      lastPosX := xPos;
      lastPosY := yPos;
      yaw := yaw + xOffset;
      pitch := pitch + yOffset;
      pitch := Clamp(pitch, -PitchLimit, PitchLimit);
      UpdateCameraVectors();
    }
  }
}
