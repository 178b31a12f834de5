/** The striker controller: the per-frame input handler that lets the local
    player drag the striker back and release it, the power formula for the
    release, and the reset to the spawn point. Input, camera and physics are
    collaborators: a frame's input arrives as a value, and vector length is a
    function the caller supplies. */
module Striker {
  import opened Board

  /** What one frame of input reports: the reset key and the primary mouse
      button going down or up this frame, the mouse point in world space,
      and whether that point lies on the striker's collider. */
  datatype FrameInput = FrameInput(
    resetKeyDown: bool,
    mouseDown: bool,
    mouseUp: bool,
    mouseWorld: Vec2,
    overStriker: bool)

  /** A released shot: the drag vector (start of the drag minus the release
      point), whose direction the impulse follows, and its power. */
  datatype Shot = Shot(drag: Vec2, power: real)

  /** Where the striker is and how it moves. */
  datatype Pose = Pose(position: Vec2, velocity: Vec2, angularVelocity: real)

  /** The drag state machine's variables. */
  datatype Aim = Aim(isDragging: bool, startDragPos: Vec2, currentDragPos: Vec2)

  /** Speed threshold below which the striker counts as at rest. */
  const RestSpeed: real := 0.1

  /** The vector's length is below `limit` (compared through squares, so no
      square root is needed). */
  predicate SlowerThan(v: Vec2, limit: real) {
    v.x * v.x + v.y * v.y < limit * limit
  }

  /** Mathf.Clamp: `min` below the range, `max` above it, the value inside. */
  function Clamp(value: real, min: real, max: real): (r: real)
    ensures min <= max ==> min <= r <= max
    ensures min <= value <= max ==> r == value
    ensures value < min ==> r == min
    ensures min <= max < value ==> r == max
  {
    if value < min then min else if value > max then max else value
  }

  /** The power of a release: the drag length clamped to the draw-back
      limit, as a fraction of that limit, times the maximum power. */
  function ShotPower(dragLength: real, drawBackLimit: real, maxPower: real): (power: real)
    requires drawBackLimit > 0.0
    ensures maxPower >= 0.0 ==> 0.0 <= power <= maxPower
    ensures dragLength >= drawBackLimit ==> power == maxPower
    ensures dragLength <= 0.0 ==> power == 0.0
  {
    Clamp(dragLength, 0.0, drawBackLimit) / drawBackLimit * maxPower
  }

  /** A longer drag never gives a weaker shot. */
  lemma ShotPowerMonotone(shorter: real, longer: real, drawBackLimit: real, maxPower: real)
    requires drawBackLimit > 0.0 && maxPower >= 0.0 && shorter <= longer
    ensures ShotPower(shorter, drawBackLimit, maxPower) <= ShotPower(longer, drawBackLimit, maxPower)
  {
    var a := Clamp(shorter, 0.0, drawBackLimit);
    var b := Clamp(longer, 0.0, drawBackLimit);
    assert a <= b;
    assert a / drawBackLimit <= b / drawBackLimit;
    assert (b / drawBackLimit - a / drawBackLimit) * maxPower >= 0.0;
  }

  /** The mouse goes down on the striker while it is at rest: a drag starts. */
  predicate Grabs(input: FrameInput, velocity: Vec2) {
    input.mouseDown && SlowerThan(velocity, RestSpeed) && input.overStriker
  }

  class StrikerController {
    /** The striker's network object is owned by this client. */
    const isMine: bool
    const maxPower: real
    const minPower: real
    const drawBackLimit: real
    /** The spawn point, recorded when the striker starts. */
    const initialStrikerPosition: Vec2

    /** The behaviour runs (the engine calls Update only while it does). */
    var enabled: bool
    /** The rigid body ignores forces. */
    var isKinematic: bool
    var position: Vec2
    var velocity: Vec2
    var angularVelocity: real
    var isDragging: bool
    var startDragPos: Vec2
    var currentDragPos: Vec2

    predicate Valid()
      reads this
    {
      drawBackLimit > 0.0
    }

    function CurrentPose(): Pose
      reads this
    {
      Pose(position, velocity, angularVelocity)
    }

    /** The pose a reset restores: the spawn point, at rest. */
    function Home(): Pose
      reads this
    {
      Pose(initialStrikerPosition, Zero, 0.0)
    }

    function CurrentAim(): Aim
      reads this
    {
      Aim(isDragging, startDragPos, currentDragPos)
    }

    /** A striker spawned at `spawn`, with the inspector's power settings.
        The spawn point is recorded here, at spawn, as the reset position;
        module StrikerStart states what recording it in Start does instead. */
    constructor (isMine: bool, spawn: Vec2, maxPower: real, minPower: real, drawBackLimit: real)
      requires drawBackLimit > 0.0
      ensures Valid()
      ensures this.isMine == isMine && initialStrikerPosition == spawn
      ensures this.maxPower == maxPower && this.minPower == minPower && this.drawBackLimit == drawBackLimit
      ensures CurrentPose() == Home()
      ensures !isDragging && enabled && !isKinematic
    {
      this.isMine := isMine;
      this.maxPower := maxPower;
      this.minPower := minPower;
      this.drawBackLimit := drawBackLimit;
      initialStrikerPosition := spawn;
      enabled := true;
      isKinematic := false;
      position := spawn;
      velocity := Zero;
      angularVelocity := 0.0;
      isDragging := false;
      startDragPos := Zero;
      currentDragPos := Zero;
    }

    /** Back to the spawn point, at rest; only the owner may move it. */
    method ResetStrikerPosition()
      modifies this`position, this`velocity, this`angularVelocity
      ensures CurrentPose() == if isMine then Home() else old(CurrentPose())
    {
      if isMine {
        position := initialStrikerPosition;
        velocity := Zero;
        angularVelocity := 0.0;
      }
    }

    /** One frame. `myTurn` is the game manager's IsMyTurn(); `magnitude` is
        the vector length the engine computes. Input is handled only for the
        owner on its turn: the reset key at rest resets, a press on the
        striker at rest starts a drag and stops the striker, a drag follows
        the mouse, and a release ends the drag and fires a shot whose power
        exceeds the minimum. */
    method Update(input: FrameInput, myTurn: bool, magnitude: Vec2 -> real) returns (shot: Option<Shot>)
      requires Valid()
      modifies this`position, this`velocity, this`angularVelocity
      modifies this`isDragging, this`startDragPos, this`currentDragPos
      // not the owner, or not its turn: nothing changes
      ensures !(isMine && myTurn) ==>
                shot == None && CurrentPose() == old(CurrentPose()) && CurrentAim() == old(CurrentAim())
      // the drag state machine
      ensures isMine && myTurn ==>
                isDragging == ((old(isDragging) || Grabs(input, old(velocity))) && !input.mouseUp)
      ensures isMine && myTurn ==>
                startDragPos == if Grabs(input, old(velocity)) then input.mouseWorld else old(startDragPos)
      ensures isMine && myTurn ==>
                currentDragPos == if old(isDragging) || Grabs(input, old(velocity)) then input.mouseWorld
                                  else old(currentDragPos)
      // the reset key and the start of a drag stop the striker
      ensures isMine && myTurn ==>
                position == if input.resetKeyDown && SlowerThan(old(velocity), RestSpeed) then initialStrikerPosition
                            else old(position)
      ensures isMine && myTurn ==>
                (velocity, angularVelocity) ==
                  if (input.resetKeyDown && SlowerThan(old(velocity), RestSpeed)) || Grabs(input, old(velocity))
                  then (Zero, 0.0) else (old(velocity), old(angularVelocity))
      // a shot needs a drag in progress and a release, and ends the drag
      ensures shot.Some? ==> isMine && myTurn && input.mouseUp && !isDragging
      ensures shot.Some? ==> old(isDragging) || Grabs(input, old(velocity))
      ensures shot.Some? ==> shot.value.drag == Sub(startDragPos, input.mouseWorld)
      ensures shot.Some? ==> shot.value.power == ShotPower(magnitude(shot.value.drag), drawBackLimit, maxPower)
      ensures shot.Some? ==> minPower < shot.value.power
      ensures shot.Some? && maxPower >= 0.0 ==> shot.value.power <= maxPower
      // a release during a drag fires exactly when the power exceeds the minimum
      ensures isMine && myTurn && input.mouseUp && (old(isDragging) || Grabs(input, old(velocity))) ==>
                (shot.Some? <==>
                   ShotPower(magnitude(Sub(startDragPos, input.mouseWorld)), drawBackLimit, maxPower) > minPower)
    {
      shot := None;
      if isMine && myTurn {
        if input.resetKeyDown && SlowerThan(velocity, RestSpeed) {
          ResetStrikerPosition();
        }
        if input.mouseDown && SlowerThan(velocity, RestSpeed) {
          if input.overStriker {
            isDragging := true;
            startDragPos := input.mouseWorld;
            velocity := Zero;
            angularVelocity := 0.0;
          }
        }
        if isDragging {
          currentDragPos := input.mouseWorld;
        }
        if input.mouseUp && isDragging {
          isDragging := false;
          var dragVector := Sub(startDragPos, currentDragPos);
          var power := ShotPower(magnitude(dragVector), drawBackLimit, maxPower);
          if power > minPower {
            // the impulse itself is applied by the physics engine
            shot := Some(Shot(dragVector, power));
          }
        }
      }
    }
  }
}
