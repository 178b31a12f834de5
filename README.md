# Carrom turn-and-scoring engine, modelled in Dafny

This project models the authoritative turn engine of a networked two-player
Carrom game. It covers three parts of the game:

- **GameManager** binds the room's first two actors to seat 1 and seat 2. It
  keeps whose turn it is, both scores, the queen and foul flags, and the set of
  live networked pieces. It handles the game's remote procedure calls
  (SetPlayerTurn, Pun_CoinPotted, Pun_StrikerPotted, UpdateScoresRPC,
  AdvanceTurnRPC) and checks whether every piece has settled.
- **PocketHandler** decides which call, if any, an object entering a pocket
  makes the master client broadcast.
- **StrikerController** runs the local player's drag-and-release input. It
  opens input only to the owner on their turn, computes the shot's power and
  resets the striker to its spawn point.

One client is the master. It alone changes the scores and decides the next
turn, and it broadcasts each change to all clients. The other clients apply
what they receive. A call sent to all clients also runs on the sender at once.
The model records such a call in the class's `outbox` and runs the handler
locally.

Modules:

- `Board` (board.dfy): the shared types, meaning tags, turns, calls and abstract
  vectors.
- `Rules` (rules.dfy): the rules as functions on values, plus the lemmas about
  them. These cover seat binding, turn mapping, scoring, shot order
  independence, the single-writer property, last-write-wins and round-trip
  replication.
- `Manager` (manager.dfy): the `GameManager` class. Its methods update the
  fields in place and are proved to follow `Rules`.
- `Pocket` (pocket.dfy): the pocket dispatch.
- `Striker` (striker.dfy): the `StrikerController` class and the power formula.
- `ShotCycle` (shot_cycle.dfy): the turn cycle across clients, as written and
  as corrected (see Findings).
- `StrikerStart` (striker_start.dfy): the order in which the striker records
  its reset position, as written and as corrected (see Findings).

The model follows the code, including where it departs from the usual Carrom rules:

- The scoring branches treat "no turn" like the other seat's turn. A white coin
  then costs seat 2 a point, a black coin costs seat 1 a point, and a pocketed
  striker costs seat 2 a point.
- Only the master raises the queen flag, and the flag is never broadcast.
  `Rules.QueenFlagStaysOnMaster` proves that replicas do not follow it.
- The settle check counts every rigid body that has a network view, not only
  game pieces.
- A pocketed striker is not destroyed. Every client resets its own striker.
- The code has no queen-cover rule, no extra-turn rule and no "ended" turn
  state, so the model has none of them either.

## Model

| member | source | states |
|---|---|---|
| `Rules.RoleBinding` | Assets/Scenes/GameManager.cs:103-112 | With distinct actors in the player list, the first actor holds seat 1 and the second holds seat 2. With one actor or none, seat 2 stays unset. An actor not among the first two holds no seat. The two seats never share an actor. |
| `Rules.SeatRoundTrip` | Assets/Scenes/GameManager.cs:191-207 | The turn SetPlayerTurn selects for an actor is the seat that actor is bound to, and that seat's actor is the same actor (a round trip on bound seats). |
| `Rules.TurnExclusive` | Assets/Scenes/GameManager.cs:230-235 | Given the same seats and a real turn, at most one actor's seat holds the turn. |
| `Rules.Alternation` | Assets/Scenes/GameManager.cs:332-340 | When both seats are bound to different actors, the next-turn choice always exists. It selects seat 2 after seat 1's turn and seat 1 otherwise, including from no turn, so it always gives the opposite seat. |
| `Rules.PotDelta` | Assets/Scenes/GameManager.cs:258-290 | A pocketed white or black coin moves exactly one score by exactly one point. The queen and other tags move none. A pocketed striker costs the shooting seat one point. A white coin changes seat 1's score exactly on seat 1's turn, and a black coin changes seat 2's score exactly on seat 2's turn. A point is gained exactly when the shooter pockets their own colour. |
| `Rules.ScoringRules` | Assets/Scenes/GameManager.cs:241-291 | The master's rule call by call. An unknown view id changes nothing. A known piece leaves play. White on seat 1's turn gives seat 1 one point, and on any other turn takes one from seat 2. Black on seat 2's turn gives seat 2 one point, and on any other turn takes one from seat 1. The queen raises the flag and leaves the scores alone. A striker pot marks the foul and costs the shooting seat one point. |
| `Rules.ShotScoresIsTotal` | Assets/Scenes/GameManager.cs:256-273 | The scores after a shot's pocket events equal the starting scores plus the sum of the events' changes. |
| `Rules.ShotOrderIndependent` | Assets/Scenes/GameManager.cs:256-273 | The scores a shot leaves do not depend on the order in which its pocket events arrive. |
| `Rules.MasterScoresFollowShot` | Assets/Scenes/GameManager.cs:241-292 | When the master handles a shot's Pun_CoinPotted and Pun_StrikerPotted calls one after another (distinct live coins), its scores are the starting scores folded with each call's pocket event, so they equal the starting scores plus the sum of the events' changes. The turn does not change. |
| `Rules.PocketOrderIndependent` | Assets/Scenes/GameManager.cs:241-292 | For the master's own handlers: the scores after a shot's pocket calls a then b equal the scores after b then a. |
| `Rules.TurnHandlersIdempotent` | Assets/Scenes/GameManager.cs:191-207 | Applying SetPlayerTurn or AdvanceTurnRPC twice with the same actor gives the same state as applying it once. The new turn does not depend on the previous one. |
| `Rules.UpdateScoresOverwrites` | Assets/Scenes/GameManager.cs:300-305 | UpdateScoresRPC sets both scores to its payload. Applying it twice is the same as applying it once, and a later call overrides an earlier one. |
| `Rules.ReplicaWritesNothing` | Assets/Scenes/GameManager.cs:252-292 | A client that is not the master broadcasts nothing. It changes scores only by taking an UpdateScoresRPC payload as received, and it never raises the queen flag. |
| `Rules.MasterBroadcastsScores` | Assets/Scenes/GameManager.cs:256-292 | Whenever the master's handler changes the scores, it broadcasts UpdateScoresRPC carrying the new scores. Anything it broadcasts carries those scores. |
| `Rules.ReplicaConverges` | Assets/Scenes/GameManager.cs:237-305 | Take a client that agrees with the master on turn, scores, foul flag and live pieces. After it applies, in order, everything the master broadcasts for any sequence of calls, it still agrees with the master. |
| `Rules.LastWriteWins` | Assets/Scenes/GameManager.cs:300-305 | After a stream whose last score broadcast is UpdateScoresRPC(p1, p2), a client that is not the master holds exactly those scores, whatever it held before. |
| `Rules.ReplayKeepsQueenFlag` | Assets/Scenes/GameManager.cs:269-273 | A client that is not the master never changes its queen flag, whatever stream it applies. |
| `Rules.QueenFlagStaysOnMaster` | Assets/Scenes/GameManager.cs:256-275 | When a live queen is pocketed, the master raises its flag, but a client that applies the master's broadcasts does not. |
| `Manager.GameManager.constructor` | Assets/Scenes/GameManager.cs:150-176 | A client enters the game with no seats bound, no turn, zero scores, both flags clear and the spawned pieces live. Its own striker is disabled and kinematic. |
| `Manager.GameManager.InitializePlayers` | Assets/Scenes/GameManager.cs:103-112 | The seats become the seat binding of the player list. A seat with no actor to take it keeps its value, and the turn invariant holds. |
| `Manager.GameManager.IsMyTurn` | Assets/Scenes/GameManager.cs:230-235 | It is false whenever there is no turn. When the seats are distinct, it is true exactly when the turn is the local actor's seat. |
| `Manager.GameManager.SetPlayerTurn` | Assets/Scenes/GameManager.cs:191-225 | The turn becomes the actor's seat, or no turn. The local striker is enabled and dynamic exactly when the local actor is the given actor, and is then reset to its spawn point. Otherwise it is disabled and kinematic. With distinct seats and a bound actor, IsMyTurn holds exactly for that actor's client. |
| `Manager.GameManager.StartGameSequence` | Assets/Scenes/GameManager.cs:179-187 | On the master, with seat 1 bound, it broadcasts SetPlayerTurn for seat 1's actor and the turn becomes seat 1's. The local striker is then enabled and dynamic exactly when this client is seat 1's actor, frozen otherwise, and reset to its spawn point when it is seat 1's. In every other case nothing changes, the striker included. |
| `Manager.GameManager.CoinPotted` | Assets/Scenes/GameManager.cs:239-276 | The new state and the broadcasts are those of `Rules.OnCoinPotted`, which `Rules.ScoringRules` spells out. |
| `Manager.GameManager.StrikerPotted` | Assets/Scenes/GameManager.cs:281-296 | Every client marks the foul. The master charges the shooting seat one point and broadcasts the scores. The local striker goes back to its spawn point if this client owns it. |
| `Manager.GameManager.UpdateScores` | Assets/Scenes/GameManager.cs:300-305 | Both scores take the broadcast values and nothing else changes. |
| `Manager.GameManager.AdvanceTurn` | Assets/Scenes/GameManager.cs:367-372 | It has SetPlayerTurn's effect on the turn and on the striker, then clears the foul flag. When the turn goes to this client and it has no striker, SetPlayerTurn fails, so the foul flag stays as it was. |
| `Manager.GameManager.EvaluateShotRoutine` | Assets/Scenes/GameManager.cs:315-344 | It runs once the settle check holds. On the master, it broadcasts AdvanceTurnRPC for the other seat's actor and applies it: the turn, the foul flag and the local striker (enabled, dynamic and reset exactly for that actor) change as AdvanceTurn says. With both seats bound to different actors, the turn alternates. It changes nothing on other clients, and nothing when the chosen seat is unset, the striker included. |
| `Manager.GameManager.AllPiecesStopped` | Assets/Scenes/GameManager.cs:348-363 | It is true exactly when no body that has a network view is faster than the stop threshold. Bodies without a view are ignored. |
| `Manager.OneClientHoldsTheTurn` | Assets/Scenes/GameManager.cs:230-235 | Two clients with the same seats and the same turn cannot both have their turn unless they are the same actor. |
| `Pocket.OnTriggerEnter2D` | Assets/Scenes/PocketHandler.cs:20-51 | A contact produces a call only on the master and only for an object with a network view. A coin produces Pun_CoinPotted with its own view id. A striker that is not a coin produces Pun_StrikerPotted. The coin check wins over the striker check, and any other object produces nothing. |
| `Pocket.PocketedCoinLeavesPlay` | Assets/Scenes/PocketHandler.cs:36-41 | A live coin entering a pocket on the master leaves play and is scored by its tag, and every client applying the broadcasts ends in agreement with the master. |
| `Pocket.PocketedStrikerIsAFoul` | Assets/Scenes/PocketHandler.cs:42-48 | A striker entering a pocket on the master marks the foul and costs the shooting seat one point, and replicas agree. |
| `Striker.Clamp` | Assets/Scenes/StrikerController.cs:79 | The result lies in [min, max] when min <= max. It is the value itself inside the range, min below it and max above it. |
| `Striker.ShotPower` | Assets/Scenes/StrikerController.cs:79 | With a positive draw-back limit and a non-negative maximum, the power lies in [0, maxPower]. A drag at or beyond the limit gives maxPower, and a drag of zero length gives 0. |
| `Striker.ShotPowerMonotone` | Assets/Scenes/StrikerController.cs:79 | A longer drag never gives a weaker shot. |
| `Striker.StrikerController.constructor` | Assets/Scenes/StrikerController.cs:19-29 | The spawn point becomes the reset position, and the striker starts there, at rest and not dragging. |
| `Striker.StrikerController.ResetStrikerPosition` | Assets/Scenes/StrikerController.cs:104-113 | On the owner, the striker goes to the spawn point with zero linear and angular velocity. On a non-owner nothing changes. |
| `Striker.StrikerController.Update` | Assets/Scenes/StrikerController.cs:31-101 | If the striker is not owned locally or it is not the local turn, nothing changes. A drag starts only on a press over the striker while it is slower than 0.1, and starting a drag stops the striker. A release during a drag always ends the drag. A shot fires only on such a release, exactly when the power exceeds minPower, and its power is at most maxPower. |
| `ShotCycle.NonMasterTurnNeverEnds` | Assets/Scenes/GameManager.cs:308-345 | As written, once the turn is held by a player who is not the master, no number of shots moves it. |
| `ShotCycle.StalledAfterFirstShot` | Assets/Scenes/StrikerController.cs:83-92 | In a room where actor 1 is master on seat 1 and actor 2 is on seat 2, the first shot passes the turn to seat 2 and it stays there. |
| `ShotCycle.TurnsAlternate` | Assets/Scenes/GameManager.cs:332-343 | When the master evaluates every shot, turns alternate from either seat: the starting seat holds the turn after an even number of shots and the other seat after an odd number. |
| `StrikerStart.HomeDriftsToOrigin` | Assets/Scenes/GameManager.cs:172-214 | As written, the owner's first reset runs before Start and moves the striker to the zero vector. Start then records that as the reset position, and every later reset sends the striker there, not to its spawn point. |
| `StrikerStart.SpawnPointKept` | Assets/Scenes/StrikerController.cs:104-113 | When the spawn point is recorded at spawn, every reset, after any sequence of moves, resets and Start, puts the striker on its spawn point at rest. |

## Left out

- The text built by `UpdateUI` and the "You are Player n" labels are display output.
- `SetupBoard` and the striker spawn are engine instantiation. The game manager's constructor takes the resulting live pieces and striker instead.
- The coroutines (`StartGameWithDelay`, the wait inside `EvaluateShotRoutineMultiplayer`) are scheduling. `EvaluateShotRoutine` models the code that runs after the wait, and `AllPiecesStopped` models the check the wait polls.
- `OnPlayerLeftRoom` only loads the lobby scene.
- `Awake` and the connection check before `InitializePlayers` are engine and transport plumbing. StrikerController's `Start` is modelled in `StrikerStart`. The `StrikerController` class records its spawn point when it is built, which is the corrected order.
- `StartShotEvaluationMultiplayer` only starts a coroutine on the client that calls it. Which client runs the routine is modelled in `ShotCycle`.
- Vector math (length, normalisation, screen-to-world conversion) and `AddForce` are left to the engine. The length is a function parameter of `Update`, the direction is reported as the drag vector, and the impulse itself is not simulated.
- Floating-point rounding is not modelled: speeds, power and thresholds are `real`.
- Striker.StrikerController.Update: the rule that the engine calls `Update` only while the behaviour is `enabled` is not part of the method, so the method does not gate on `enabled`.
- Master-client switching is not modelled beyond `isMaster` being a field the transport may set.
- When a C# handler dereferences a null reference (an unset seat, or a missing local striker), it aborts. The model stops at that point and makes no further change, so `AdvanceTurn` leaves the foul flag set in that case. UpdateUI, which the abort skips, is not modelled.
- The handlers in module `Rules` describe clients that have their own striker. They do not model the aborted AdvanceTurnRPC of a client without one, which keeps its foul flag. Only the `GameManager` class models that case.
- Rules.PocketOrderIndependent: stated for pocket calls that name distinct live coins. A repeated or unknown view id, which the handler ignores, is not covered.
- PUN's ownership rules for `PhotonNetwork.Destroy` are not modelled. The model removes a pocketed piece on every client, which is the net effect of the master's network destroy.
- Continuous replication of piece positions and velocities is done by the transport and is not modelled.

## Findings

| source | as written | input that shows it | evidently intended | confidence | as-written member | corrected member |
|---|---|---|---|---|---|---|
| Assets/Scenes/StrikerController.cs:91 | The after-shot routine starts only on the client that fired the shot, and only a master client sends AdvanceTurnRPC (GameManager.cs:323). So when the non-master player shoots, no client advances the turn. | Two-player room with actor 1 as master on seat 1 and actor 2 on seat 2. After seat 1's first shot the turn is seat 2's, and no later shot by actor 2 ever moves it. | The master evaluates every shot, whoever fired it, so turns alternate. | high; not executed | `ShotCycle.NonMasterTurnNeverEnds` | `ShotCycle.TurnsAlternate` |
| Assets/Scenes/StrikerController.cs:28 | The reset position and the rigid body are taken in Start. The manager disables the striker right after spawning it (GameManager.cs:172), so Start waits until the behaviour is first enabled and runs on the following frame. SetPlayerTurn enables the striker and resets it in the same call (GameManager.cs:212-214), so ResetStrikerPosition runs before Start. It moves the striker to the zero vector and then fails on the unset rigid body. Start then records the zero vector as the reset position. | The local player's first turn, with the striker spawned at any point other than the zero vector. | The spawn point is recorded when the striker is spawned, so every reset returns the striker to its own baseline. | medium (rests on the engine's documented Start order); not executed | `StrikerStart.HomeDriftsToOrigin` | `StrikerStart.SpawnPointKept` |
