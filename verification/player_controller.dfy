/**
 * The player and its camera mode. The engine's first-person controller owns
 * the actual motion; this module models what the game decides on top of it
 * each frame: the movement speed from the keys held down, whether the player
 * counts as moving or running, and where it stands.
 *
 * The keys held down in a frame are a set of key names; a key outside the
 * set is not held.
 */
module PlayerController {

  datatype Vec3 = Vec3(x: real, y: real, z: real)

  /** The keys that move the player: forward, back, left, right. */
  const MovementKeys: set<string> := {"w", "s", "a", "d"}

  /** The keys that make the player run. */
  const ShiftKeys: set<string> := {"left shift", "right shift"}

  /** Where a player stands when it is created without a start position. */
  const DefaultStart: Vec3 := Vec3(0.0, 2.0, 0.0)

  const NormalSpeed: int := 5
  const RunSpeed: int := 8
  const JumpHeight: int := 3

  /** Whether the player is moving: one of w, s, a, d is held. */
  function IsMoving(held: set<string>): (b: bool)
    ensures b <==> MovementKeys * held != {}
  {
    var moving := "w" in held || "s" in held || "a" in held || "d" in held;
    assert moving ==> ("w" in MovementKeys * held || "s" in MovementKeys * held ||
                       "a" in MovementKeys * held || "d" in MovementKeys * held);
    moving
  }

  /** Whether the player is running: either shift key is held. */
  function IsRunning(held: set<string>): (b: bool)
    ensures b <==> ShiftKeys * held != {}
  {
    var running := "left shift" in held || "right shift" in held;
    assert running ==> ("left shift" in ShiftKeys * held || "right shift" in ShiftKeys * held);
    running
  }

  /** The speed a frame sets: the run speed exactly when the player is running. */
  function SpeedFor(held: set<string>): (speed: int)
    ensures speed == RunSpeed <==> IsRunning(held)
    ensures speed == NormalSpeed <==> !IsRunning(held)
  {
    if IsRunning(held) then RunSpeed else NormalSpeed
  }

  /** Holding more keys never slows the player down, and running is faster than walking. */
  lemma {:induction false} SpeedMonotone(held: set<string>, more: set<string>)
    requires held <= more
    ensures SpeedFor(held) <= SpeedFor(more)
    ensures IsMoving(held) ==> IsMoving(more)
  {
    assert ShiftKeys * held <= ShiftKeys * more;
    assert MovementKeys * held <= MovementKeys * more;
  }

  /**
   * Movement and running are decided by disjoint sets of keys: the shift keys
   * never make the player move, and the movement keys never make it run.
   */
  lemma {:induction false} MovingAndRunningIndependent(held: set<string>)
    ensures MovementKeys * ShiftKeys == {}
    ensures IsMoving(held) == IsMoving(held - ShiftKeys)
    ensures IsRunning(held) == IsRunning(held - MovementKeys)
  {
    assert MovementKeys * (held - ShiftKeys) == MovementKeys * held;
    assert ShiftKeys * (held - MovementKeys) == ShiftKeys * held;
  }

  /** The movement report of one frame. */
  datatype MovementInfo = MovementInfo(
    position: Vec3,
    isMoving: bool,
    isRunning: bool,
    speed: int,
    lookingDirection: Vec3)

  class Player {
    const startPosition: Vec3
    const normalSpeed: int
    const runSpeed: int
    const jumpHeight: int

    /** The controller's position. */
    var position: Vec3
    /** The controller's speed. */
    var speed: int

    /** A new player stands at its start position, DefaultStart when none is given, and walks. */
    constructor(start: Vec3 := DefaultStart)
      ensures startPosition == start && position == start
      ensures normalSpeed == NormalSpeed && runSpeed == RunSpeed && jumpHeight == JumpHeight
      ensures speed == NormalSpeed
    {
      startPosition := start;
      position := start;
      speed := NormalSpeed;
      normalSpeed := NormalSpeed;
      runSpeed := RunSpeed;
      jumpHeight := JumpHeight;
    }

    /** One frame: the speed follows the shift keys; the position is left to the engine. */
    method Update(held: set<string>)
      modifies this
      ensures speed == (if IsRunning(held) then runSpeed else normalSpeed)
      ensures runSpeed == RunSpeed && normalSpeed == NormalSpeed ==> speed == SpeedFor(held)
      ensures position == old(position)
    {
      if "left shift" in held || "right shift" in held {
        speed := runSpeed;
      } else {
        speed := normalSpeed;
      }
    }

    /** Where the controller stands. */
    function GetPosition(): (p: Vec3)
      reads this
      ensures p == position
    {
      position
    }

    /** Moving the player: the next position read is the one given. */
    method SetPosition(p: Vec3)
      modifies this
      ensures GetPosition() == p
      ensures speed == old(speed)
    {
      position := p;
    }

    /** Back to the start position. */
    method ResetPosition()
      modifies this
      ensures GetPosition() == startPosition
      ensures speed == old(speed)
    {
      SetPosition(startPosition);
    }

    /**
     * The report for the keys held in this frame; the direction the camera
     * looks comes from the engine.
     */
    function GetMovementInfo(held: set<string>, looking: Vec3): (info: MovementInfo)
      reads this
      ensures info.position == GetPosition() && info.speed == speed
      ensures info.isMoving <==> MovementKeys * held != {}
      ensures info.isRunning <==> ShiftKeys * held != {}
      ensures info.lookingDirection == looking
    {
      MovementInfo(GetPosition(), IsMoving(held), IsRunning(held), speed, looking)
    }
  }

  /** After a frame's update, the report says "running" exactly when it reports the run speed. */
  method UpdateThenReport(p: Player, held: set<string>, looking: Vec3) returns (info: MovementInfo)
    requires p.runSpeed == RunSpeed && p.normalSpeed == NormalSpeed
    modifies p
    ensures info.isRunning <==> info.speed == RunSpeed
    ensures info.speed == RunSpeed || info.speed == NormalSpeed
    ensures info.position == old(p.position)
  {
    p.Update(held);
    info := p.GetMovementInfo(held, looking);
  }

  const FirstPersonMode: string := "first_person"
  const FollowMode: string := "follow"

  class CameraController {
    var cameraMode: string

    /** The camera starts in first-person mode. */
    constructor()
      ensures cameraMode == FirstPersonMode
    {
      cameraMode := FirstPersonMode;
    }

    method SetFirstPersonMode()
      modifies this
      ensures cameraMode == FirstPersonMode
    {
      cameraMode := FirstPersonMode;
    }

    /** The player followed and the distance do not affect the mode. */
    method SetFollowMode(player: Player, distance: real)
      modifies this
      ensures cameraMode == FollowMode
    {
      cameraMode := FollowMode;
    }
  }
}
