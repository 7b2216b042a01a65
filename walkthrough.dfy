/**
 * The mutable state `init()` closes over and the handlers that change it:
 * the keyboard, pointer and touch handlers, the teleport click, the
 * per-frame movement update, spawn placement and the two navmesh arrivals.
 * Each method is proved to leave the state the Locomotion and Input
 * functions prescribe and to write only the fields it names.
 */
module Walkthrough {
  import opened Geometry
  import opened Input
  import opened Locomotion

  class Session {
    /** Whether `player` has been created (setupPlayer has run). */
    var hasPlayer: bool
    var position: Vec3
    /** The reused horizontal `velocity` vector. */
    var velocity: Vec3
    var verticalVelocity: real
    var isOnGround: bool
    /** The current navmesh, absent until a model or the backup arrives. */
    var navmesh: Option<Surface>
    var keys: Keys
    var mouseEnabled: bool
    var euler: Euler
    /** The touch-stick state of setupMobileControls. */
    var leftTouchId: Option<int>
    var rightTouchId: Option<int>
    var leftStart: Screen
    var rightStart: Screen

    /** The pitch stays within [-PI/2, PI/2], and a grounded avatar is at rest. */
    ghost predicate Valid()
      reads this
    {
      PitchInRange(euler.x) && (isOnGround ==> verticalVelocity == 0.0)
    }

    function AvatarState(): Avatar
      reads this
    {
      Avatar(position, verticalVelocity, isOnGround)
    }

    function PadState(): Pad
      reads this
    {
      Pad(keys, euler, leftTouchId, rightTouchId, leftStart, rightStart)
    }

    /** The state before setupPlayer: no player, no navmesh, nothing held, euler (0, PI/2, 0). */
    constructor()
      ensures Valid()
      ensures !hasPlayer && navmesh.None? && keys == NoKeys && !mouseEnabled
      ensures euler == Euler(0.0, HalfPi)
      ensures verticalVelocity == 0.0 && !isOnGround && velocity == Zero
      ensures leftTouchId.None? && rightTouchId.None?
    {
      hasPlayer := false;
      position := Zero;
      velocity := Zero;
      verticalVelocity := 0.0;
      isOnGround := false;
      navmesh := None;
      keys := NoKeys;
      mouseEnabled := false;
      euler := Euler(0.0, HalfPi);
      leftTouchId := None;
      rightTouchId := None;
      leftStart := Screen(0.0, 0.0);
      rightStart := Screen(0.0, 0.0);
    }

    /** setupPlayer: the player mesh is created, standing at the origin. */
    method SetupPlayer()
      requires Valid()
      modifies this`hasPlayer, this`position
      ensures Valid()
      ensures hasPlayer && position == Vec3(0.0, 0.0, 0.0)
    {
      position := Vec3(0.0, 0.0, 0.0);
      hasPlayer := true;
    }

    /** onKeyDown: a movement key sets its flag; Space jumps, but only from the ground. */
    method OnKeyDown(code: KeyCode)
      requires Valid()
      modifies this`keys, this`verticalVelocity, this`isOnGround
      ensures Valid()
      ensures keys == SetFlag(old(keys), code, true)
      ensures code == Space ==> AvatarState() == Jump(old(AvatarState()))
      ensures code != Space ==> AvatarState() == old(AvatarState())
    {
      match code
      case KeyW => keys := keys.(forward := true);
      case KeyS => keys := keys.(backward := true);
      case KeyA => keys := keys.(left := true);
      case KeyD => keys := keys.(right := true);
      case ShiftLeft => keys := keys.(shift := true);
      case ShiftRight => keys := keys.(shift := true);
      case Space =>
        if isOnGround {
          verticalVelocity := JumpForce;
          isOnGround := false;
        }
      case _ =>
    }

    /** onKeyUp: a movement key clears its flag. */
    method OnKeyUp(code: KeyCode)
      requires Valid()
      modifies this`keys
      ensures Valid()
      ensures keys == SetFlag(old(keys), code, false)
    {
      match code
      case KeyW => keys := keys.(forward := false);
      case KeyS => keys := keys.(backward := false);
      case KeyA => keys := keys.(left := false);
      case KeyD => keys := keys.(right := false);
      case ShiftLeft => keys := keys.(shift := false);
      case ShiftRight => keys := keys.(shift := false);
      case _ =>
    }

    /** The canvas click: look control is enabled (the pointer-lock request itself is outside the model). */
    method OnCanvasClick()
      requires Valid()
      modifies this`mouseEnabled
      ensures Valid()
      ensures mouseEnabled
    {
      if !mouseEnabled {
        mouseEnabled := true;
      }
    }

    /** onPointerLockChange: look control is on exactly while the canvas holds the pointer lock. */
    method OnPointerLockChange(locked: bool)
      requires Valid()
      modifies this`mouseEnabled
      ensures Valid()
      ensures mouseEnabled == locked
    {
      mouseEnabled := locked;
    }

    /** onMouseMove: while look control is on, yaw and pitch follow the pointer at 0.002 per pixel. */
    method OnMouseMove(movementX: real, movementY: real)
      requires Valid()
      modifies this`euler
      ensures Valid()
      ensures old(mouseEnabled) ==> euler == Turn(old(euler), movementX, movementY, MouseSensitivity)
      ensures !old(mouseEnabled) ==> euler == old(euler)
    {
      if !mouseEnabled {
        return;
      }
      euler := euler.(y := euler.y - movementX * MouseSensitivity);
      euler := euler.(x := euler.x - movementY * MouseSensitivity);
      euler := euler.(x := ClampPitch(euler.x));
    }

    /** touchstart: each changed touch, in order, may claim the free stick on its half of the window. */
    method OnTouchStart(changedTouches: seq<Touch>, innerWidth: real)
      requires Valid()
      modifies this`leftTouchId, this`rightTouchId, this`leftStart, this`rightStart
      ensures Valid()
      ensures PadState() == TouchStart(old(PadState()), changedTouches, innerWidth)
    {
      var i := 0;
      while i < |changedTouches|
        invariant 0 <= i <= |changedTouches|
        invariant PadState() == TouchStart(old(PadState()), changedTouches[..i], innerWidth)
      {
        var touch := changedTouches[i];
        if touch.clientX < innerWidth / 2.0 && leftTouchId.None? {
          leftTouchId := Some(touch.identifier);
          leftStart := Screen(touch.clientX, touch.clientY);
        } else if touch.clientX >= innerWidth / 2.0 && rightTouchId.None? {
          rightTouchId := Some(touch.identifier);
          rightStart := Screen(touch.clientX, touch.clientY);
        }
        assert changedTouches[..i + 1][..i] == changedTouches[..i];
        i := i + 1;
      }
      assert changedTouches[..i] == changedTouches;
    }

    /**
     * touchmove: the left stick's touch sets the direction flags from its drag;
     * the right stick's touch turns the view at 0.005 per pixel.
     */
    method OnTouchMove(changedTouches: seq<Touch>)
      requires Valid()
      modifies this`keys, this`euler, this`rightStart
      ensures Valid()
      ensures PadState() == TouchMove(old(PadState()), changedTouches)
    {
      var i := 0;
      while i < |changedTouches|
        invariant 0 <= i <= |changedTouches|
        invariant PadState() == TouchMove(old(PadState()), changedTouches[..i])
      {
        var touch := changedTouches[i];
        if Some(touch.identifier) == leftTouchId {
          var deltaX := touch.clientX - leftStart.x;
          var deltaY := touch.clientY - leftStart.y;
          keys := keys.(forward := deltaY < -DeadZone);
          keys := keys.(backward := deltaY > DeadZone);
          keys := keys.(left := deltaX < -DeadZone);
          keys := keys.(right := deltaX > DeadZone);
        } else if Some(touch.identifier) == rightTouchId {
          var deltaX := touch.clientX - rightStart.x;
          var deltaY := touch.clientY - rightStart.y;
          euler := euler.(y := euler.y - deltaX * TouchSensitivity);
          euler := euler.(x := euler.x - deltaY * TouchSensitivity);
          euler := euler.(x := ClampPitch(euler.x));
          rightStart := Screen(touch.clientX, touch.clientY);
        }
        assert changedTouches[..i + 1][..i] == changedTouches[..i];
        i := i + 1;
      }
      assert changedTouches[..i] == changedTouches;
    }

    /** touchend: ending the left stick's touch frees it and releases the direction flags. */
    method OnTouchEnd(changedTouches: seq<Touch>)
      requires Valid()
      modifies this`leftTouchId, this`rightTouchId, this`keys
      ensures Valid()
      ensures PadState() == TouchEnd(old(PadState()), changedTouches)
    {
      var i := 0;
      while i < |changedTouches|
        invariant 0 <= i <= |changedTouches|
        invariant PadState() == TouchEnd(old(PadState()), changedTouches[..i])
      {
        var touch := changedTouches[i];
        if Some(touch.identifier) == leftTouchId {
          leftTouchId := None;
          keys := keys.(forward := false, backward := false, left := false, right := false);
        } else if Some(touch.identifier) == rightTouchId {
          rightTouchId := None;
        }
        assert changedTouches[..i + 1][..i] == changedTouches[..i];
        i := i + 1;
      }
      assert changedTouches[..i] == changedTouches;
    }

    /**
     * The teleport mousedown: `origin` and `direction` are the camera's
     * centre-of-view ray. A hit moves the player exactly onto it and stops
     * its vertical motion; isOnGround is not touched.
     */
    method OnMouseDown(origin: Vec3, direction: Vec3)
      requires Valid()
      requires hasPlayer
      modifies this`position, this`verticalVelocity
      ensures Valid()
      ensures AvatarState() == Teleport(old(AvatarState()), mouseEnabled, navmesh, origin, direction)
    {
      if !mouseEnabled || navmesh.None? {
        return;
      }
      var hit := navmesh.value(origin, direction);
      if hit.Some? {
        var targetPosition := hit.value;
        position := position.(x := targetPosition.x);
        position := position.(z := targetPosition.z);
        position := position.(y := targetPosition.y);
        verticalVelocity := 0.0;
      }
    }

    /** placePlayerOnNavmesh: land on the navmesh under the fallback, or stand at the fallback itself. */
    method PlacePlayerOnNavmesh(fallbackPosition: Vec3)
      requires Valid()
      requires hasPlayer
      modifies this`position, this`verticalVelocity, this`isOnGround
      ensures Valid()
      ensures AvatarState() == Place(old(AvatarState()), navmesh, fallbackPosition)
    {
      if navmesh.None? {
        position := fallbackPosition;
        return;
      }
      var hit := ProbeDown(navmesh.value, fallbackPosition.x, ProbeHeight, fallbackPosition.z);
      if hit.Some? {
        position := position.(x := hit.value.x);
        position := position.(z := hit.value.z);
        position := position.(y := hit.value.y);
        verticalVelocity := 0.0;
        isOnGround := true;
      } else {
        position := fallbackPosition;
      }
    }

    /** applyGravityAndVerticalMovement: gravity, integration, then grounding or recovery. */
    method ApplyGravityAndVerticalMovement()
      requires Valid()
      requires hasPlayer && navmesh.Some?
      modifies this`position, this`verticalVelocity, this`isOnGround
      ensures Valid()
      ensures AvatarState() == Fall(old(AvatarState()), navmesh.value)
    {
      verticalVelocity := verticalVelocity - Gravity;
      position := position.(y := position.y + verticalVelocity);
      var hit := ProbeDown(navmesh.value, position.x, position.y + ProbeHeight, position.z);
      if hit.Some? {
        var groundY := hit.value.y;
        if position.y <= groundY {
          position := position.(y := groundY);
          verticalVelocity := 0.0;
          isOnGround := true;
        } else {
          isOnGround := false;
        }
      } else {
        isOnGround := false;
        if position.y < FallLimit {
          PlacePlayerOnNavmesh(RecoverySpot);
        }
      }
    }

    /**
     * updatePlayerMovement: one frame. `facing` is the camera's flattened,
     * normalised world direction and `len` the length of the summed velocity,
     * the two values the source obtains from three.js.
     */
    method UpdatePlayerMovement(facing: Facing, len: real)
      requires Valid()
      requires len >= 0.0 && len * len == LengthSq(Accumulated(keys, facing, Speed(keys)))
      modifies this`velocity, this`position, this`verticalVelocity, this`isOnGround
      ensures Valid()
      ensures AvatarState() == Tick(old(AvatarState()), hasPlayer, navmesh, keys, facing, len)
      ensures hasPlayer && navmesh.Some? ==> velocity == Displacement(keys, facing, Speed(keys), len)
      ensures !hasPlayer || navmesh.None? ==> velocity == old(velocity)
    {
      if !hasPlayer || navmesh.None? {
        return;
      }
      var currentSpeed := Speed(keys);
      SumVelocity(facing, currentSpeed);
      NormaliseVelocity(facing, currentSpeed, len);
      StepIfWalkable();
      ApplyGravityAndVerticalMovement();
    }

    /** The first part of updatePlayerMovement: `velocity` is reset and the held flags are summed into it. */
    method SumVelocity(facing: Facing, currentSpeed: real)
      modifies this`velocity
      ensures velocity == Accumulated(keys, facing, currentSpeed)
    {
      velocity := Zero;
      var cameraDirection := Vec3(facing.x, 0.0, facing.z);
      var cameraRight := Vec3(-facing.z, 0.0, facing.x);
      if keys.forward { velocity := Add(velocity, Scale(cameraDirection, currentSpeed)); }
      if keys.backward { velocity := Add(velocity, Scale(cameraDirection, -currentSpeed)); }
      if keys.right { velocity := Add(velocity, Scale(cameraRight, currentSpeed)); }
      if keys.left { velocity := Add(velocity, Scale(cameraRight, -currentSpeed)); }
    }

    /** `velocity.normalize().multiplyScalar(currentSpeed)`, applied only to a non-zero velocity. */
    method NormaliseVelocity(facing: Facing, currentSpeed: real, len: real)
      requires velocity == Accumulated(keys, facing, currentSpeed)
      requires len >= 0.0 && len * len == LengthSq(velocity)
      modifies this`velocity
      ensures velocity == Displacement(keys, facing, currentSpeed, len)
    {
      if LengthSq(velocity) > 0.0 {
        velocity := Scale(Scale(velocity, 1.0 / len), currentSpeed);
      }
    }

    /** The horizontal step of updatePlayerMovement: kept if the new (x, z) is on the navmesh, undone otherwise. */
    method StepIfWalkable()
      requires Valid()
      requires navmesh.Some?
      modifies this`position
      ensures Valid()
      ensures AvatarState() == HorizontalStep(old(AvatarState()), navmesh.value, velocity)
    {
      var oldPosition := position;
      position := position.(x := position.x + velocity.x);
      position := position.(z := position.z + velocity.z);
      var isOnNavmesh := CheckIsOnNavmesh(navmesh.value, position.x, position.z);
      if !isOnNavmesh {
        position := position.(x := oldPosition.x);
        position := position.(z := oldPosition.z);
      }
    }

    /** The navmesh model's load callback: it becomes the navmesh, and an existing player is placed at (30, 10, 0). */
    method OnNavmeshLoaded(model: Surface)
      requires Valid()
      modifies this`navmesh, this`position, this`verticalVelocity, this`isOnGround
      ensures Valid()
      ensures navmesh == Some(model)
      ensures hasPlayer ==> AvatarState() == Place(old(AvatarState()), Some(model), NavmeshSpot)
      ensures !hasPlayer ==> AvatarState() == old(AvatarState())
    {
      navmesh := Some(model);
      if hasPlayer {
        PlacePlayerOnNavmesh(NavmeshSpot);
      }
    }

    /** createBackupNavmesh: the backup box becomes the navmesh and the player is placed at (0, 2, 0). */
    method CreateBackupNavmesh()
      requires Valid()
      requires hasPlayer
      modifies this`navmesh, this`position, this`verticalVelocity, this`isOnGround
      ensures Valid()
      ensures navmesh == Some(BackupBox())
      ensures AvatarState() == Place(old(AvatarState()), Some(BackupBox()), BackupSpot)
    {
      navmesh := Some(BackupBox());
      PlacePlayerOnNavmesh(BackupSpot);
    }
  }
}
