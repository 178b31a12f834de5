/** The striker's start-up order. The striker records its reset position,
    and its rigid body, in Start. The game manager disables the behaviour
    right after spawning it, and the engine runs Start only on the frame
    after the behaviour is first enabled. SetPlayerTurn enables it and resets
    it in the same call, so that first reset runs before Start. This module
    follows the owner's striker through those engine events as written, next
    to the order in which the spawn point is recorded when the striker is
    spawned. */
module StrikerStart {
  import opened Board
  import opened Striker

  /** The owner's striker as the engine events see it: whether Start has
      run, the reset position it recorded (the zero vector until then), and
      the pose. */
  datatype Life = Life(started: bool, recorded: Vec2, pose: Pose)

  /** What happens to the striker between two of the manager's calls. */
  datatype Event =
    | Reset                 // ResetStrikerPosition on the owner
    | Start                 // the engine runs Start
    | Move(next: Pose)      // physics moves the striker

  /** As written: spawned and disabled at once, before Start ran. */
  function SpawnAsWritten(spawn: Vec2): Life {
    Life(false, Zero, Pose(spawn, Zero, 0.0))
  }

  /** ResetStrikerPosition on the owner: the position takes the recorded
      reset position; before Start the rigid body is still unset, so the call
      fails right after that and the velocities keep their values. */
  function ResetOwner(l: Life): Life {
    if l.started then l.(pose := Pose(l.recorded, Zero, 0.0))
    else l.(pose := l.pose.(position := l.recorded))
  }

  /** Start runs once: it records where the striker stands. */
  function StartOnce(l: Life): Life {
    if l.started then l else l.(started := true, recorded := l.pose.position)
  }

  function Step(l: Life, e: Event): Life {
    match e
    case Reset => ResetOwner(l)
    case Start => StartOnce(l)
    case Move(next) => l.(pose := next)
  }

  function Run(l: Life, events: seq<Event>): Life
    decreases |events|
  {
    if events == [] then l else Run(Step(l, events[0]), events[1..])
  }

  /** As written, the owner's first turn: SetPlayerTurn enables the striker
      and resets it at once, and Start runs on the next frame. */
  function FirstTurnAsWritten(spawn: Vec2): Life {
    Run(SpawnAsWritten(spawn), [Reset, Start])
  }

  /** Once Start has run, nothing changes the recorded reset position. */
  lemma {:induction false} RecordedIsKept(l: Life, events: seq<Event>)
    requires l.started
    ensures Run(l, events).started && Run(l, events).recorded == l.recorded
    decreases |events|
  {
    if events != [] {
      RecordedIsKept(Step(l, events[0]), events[1..]);
    }
  }

  /** As written, the first reset moves the striker to the zero vector,
      which Start then records as its reset position; from then on every
      reset sends the striker there, whatever its spawn point was. */
  lemma HomeDriftsToOrigin(spawn: Vec2, events: seq<Event>)
    ensures ResetOwner(SpawnAsWritten(spawn)).pose.position == Zero
    ensures FirstTurnAsWritten(spawn).recorded == Zero
    ensures ResetOwner(Run(FirstTurnAsWritten(spawn), events)).pose == Pose(Zero, Zero, 0.0)
    ensures spawn != Zero ==> ResetOwner(Run(FirstTurnAsWritten(spawn), events)).pose.position != spawn
  {
    assert FirstTurnAsWritten(spawn) == StartOnce(ResetOwner(SpawnAsWritten(spawn)));
    RecordedIsKept(FirstTurnAsWritten(spawn), events);
  }

  /** Corrected: the spawn point (and the rigid body) is taken when the
      striker is spawned, before the behaviour is disabled. This is the
      striker that StrikerController's constructor models. */
  function SpawnCorrected(spawn: Vec2): Life {
    Life(true, spawn, Pose(spawn, Zero, 0.0))
  }

  /** With the spawn point taken at spawn, every reset, whatever happened
      before it, puts the striker back on its spawn point at rest. */
  lemma SpawnPointKept(spawn: Vec2, events: seq<Event>)
    ensures Run(SpawnCorrected(spawn), events).recorded == spawn
    ensures ResetOwner(Run(SpawnCorrected(spawn), events)).pose == Pose(spawn, Zero, 0.0)
  {
    RecordedIsKept(SpawnCorrected(spawn), events);
  }
}
