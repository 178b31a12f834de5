/** The game manager of one client: seat binding, the turn, both scores,
    the queen and foul flags, the live networked pieces, and the local
    striker's enabled/kinematic switches. Its remote procedure call handlers
    update these fields in place and are proved to follow the functions of
    module Rules. A call sent to all clients runs on the sender at once; the
    model records it in `outbox` and runs the handler locally. */
module Manager {
  import opened Board
  import opened Rules
  import Striker

  /** A rigid body as the settle check sees it: whether it has a network
      view, and its speed. */
  datatype Body = Body(hasPhotonView: bool, speed: real)

  /** No body that has a network view moves faster than `threshold`. */
  predicate Settled(bodies: seq<Body>, threshold: real) {
    forall i :: 0 <= i < |bodies| && bodies[i].hasPhotonView ==> bodies[i].speed <= threshold
  }

  class GameManager {
    /** This client's actor number. */
    const localActor: int
    /** The striker this client spawned, if it spawned one. */
    const localStriker: Striker.StrikerController?
    /** Speed at or below which a piece counts as stopped. */
    const minPieceStopVelocity: real

    /** This client is the room's master client (the transport may change
        this at any time). */
    var isMaster: bool
    var player1: Option<int>
    var player2: Option<int>
    var currentPlayerTurn: PlayerTurn
    var player1Score: int
    var player2Score: int
    var queenPotted: bool
    var wasLastShotAFoul: bool
    /** Live networked pieces by view id, with their tags. */
    var pieces: map<int, Tag>
    /** Every call this client has sent to all clients, oldest first. */
    ghost var outbox: seq<Rpc>

    function Seating(): Seats
      reads this
    {
      Seats(player1, player2)
    }

    function State(): GameState
      reads this
    {
      GameState(currentPlayerTurn, Scores(player1Score, player2Score), queenPotted, wasLastShotAFoul, pieces)
    }

    /** The turn always names a bound seat. */
    ghost predicate Valid()
      reads this
    {
      (currentPlayerTurn == Player1 ==> player1.Some?) &&
      (currentPlayerTurn == Player2 ==> player2.Some?)
    }

    /** A client entering the game scene, after the board and its striker
        were spawned: no seats bound, no turn, no points, the striker frozen
        until a SetPlayerTurn call enables it. */
    constructor (actor: int, master: bool, striker: Striker.StrikerController?, board: map<int, Tag>)
      modifies striker
      ensures Valid()
      ensures localActor == actor && isMaster == master && localStriker == striker
      ensures minPieceStopVelocity == 0.1
      ensures Seating() == Unbound
      ensures State() == GameState(NoTurn, Scores(0, 0), false, false, board)
      ensures outbox == []
      ensures striker != null ==> !striker.enabled && striker.isKinematic
      ensures striker != null ==> striker.CurrentPose() == old(striker.CurrentPose())
      ensures striker != null ==> striker.CurrentAim() == old(striker.CurrentAim())
    {
      localActor := actor;
      localStriker := striker;
      minPieceStopVelocity := 0.1;
      isMaster := master;
      player1, player2 := None, None;
      currentPlayerTurn := NoTurn;
      player1Score, player2Score := 0, 0;
      queenPotted, wasLastShotAFoul := false, false;
      pieces := board;
      outbox := [];
      new;
      if striker != null {
        striker.enabled := false;
        striker.isKinematic := true;
      }
    }

    /** Seat 1 goes to the first actor of the player list, seat 2 to the
        second; a seat with no actor to take it keeps what it held. */
    method InitializePlayers(playerList: seq<int>)
      requires Valid()
      modifies this`player1, this`player2
      ensures Valid()
      ensures Seating() == BindSeats(playerList, old(Seating()))
    {
      if |playerList| >= 1 {
        player1 := Some(playerList[0]);
        if |playerList| >= 2 {
          player2 := Some(playerList[1]);
        }
      }
    }

    /** The local player holds the seat whose turn it is. */
    function IsMyTurn(): (mine: bool)
      reads this
      ensures mine ==> currentPlayerTurn != NoTurn
      ensures DistinctSeats(Seating()) ==>
                (mine <==> currentPlayerTurn != NoTurn && SeatOf(Seating(), localActor) == currentPlayerTurn)
    {
      (player1 == Some(localActor) && currentPlayerTurn == Player1) ||
      (player2 == Some(localActor) && currentPlayerTurn == Player2)
    }

    /** The turn goes to `actor`'s seat (NoTurn for an unbound actor); the
        local striker is enabled, made dynamic and reset exactly when the
        local player is `actor`, and otherwise disabled and frozen. */
    method SetPlayerTurn(actor: int)
      modifies this`currentPlayerTurn, localStriker
      ensures Valid()
      ensures State() == OnSetPlayerTurn(Seating(), old(State()), actor)
      ensures localStriker != null ==>
                localStriker.enabled == (localActor == actor) && localStriker.isKinematic == (localActor != actor)
      ensures localStriker != null ==>
                localStriker.CurrentPose() ==
                  if localActor == actor && localStriker.isMine then localStriker.Home()
                  else old(localStriker.CurrentPose())
      ensures localStriker != null ==> localStriker.CurrentAim() == old(localStriker.CurrentAim())
      // input is open to the local player exactly when the turn went to them
      ensures DistinctSeats(Seating()) && SeatOf(Seating(), actor) != NoTurn ==>
                (IsMyTurn() <==> localActor == actor)
    {
      if player1 == Some(actor) {
        currentPlayerTurn := Player1;
      } else if player2 == Some(actor) {
        currentPlayerTurn := Player2;
      } else {
        currentPlayerTurn := NoTurn;
      }
      if localActor == actor {
        // with no local striker SetPlayerTurn in GameManager.cs fails here, after the turn is set
        if localStriker != null {
          localStriker.enabled := true;
          localStriker.isKinematic := false;
          localStriker.ResetStrikerPosition();
        }
      } else if localStriker != null {
        localStriker.enabled := false;
        localStriker.isKinematic := true;
      }
    }

    /** The master hands the first turn to seat 1, on all clients. */
    method StartGameSequence()
      requires Valid()
      modifies this`currentPlayerTurn, this`outbox, localStriker
      ensures Valid()
      ensures isMaster && player1.Some? ==>
                outbox == old(outbox) + [SetPlayerTurnRpc(player1.value)] &&
                State() == OnSetPlayerTurn(Seating(), old(State()), player1.value) &&
                currentPlayerTurn == Player1
      ensures isMaster && player1.Some? && localStriker != null ==>
                localStriker.enabled == (localActor == player1.value) &&
                localStriker.isKinematic == (localActor != player1.value)
      ensures isMaster && player1.Some? && localStriker != null ==>
                localStriker.CurrentPose() ==
                  if localActor == player1.value && localStriker.isMine then localStriker.Home()
                  else old(localStriker.CurrentPose())
      ensures !(isMaster && player1.Some?) ==> outbox == old(outbox) && State() == old(State())
      ensures !(isMaster && player1.Some?) && localStriker != null ==>
                localStriker.enabled == old(localStriker.enabled) &&
                localStriker.isKinematic == old(localStriker.isKinematic) &&
                localStriker.CurrentPose() == old(localStriker.CurrentPose())
      ensures localStriker != null ==> localStriker.CurrentAim() == old(localStriker.CurrentAim())
    {
      if isMaster {
        // an unset seat 1 fails before anything is sent
        if player1.Some? {
          outbox := outbox + [SetPlayerTurnRpc(player1.value)];
          SetPlayerTurn(player1.value);
        }
      }
    }

    /** A coin reached a pocket: see Rules.OnCoinPotted. */
    method CoinPotted(viewId: int)
      modifies this`pieces, this`player1Score, this`player2Score, this`queenPotted, this`outbox
      ensures State() == OnCoinPotted(isMaster, old(State()), viewId).state
      ensures outbox == old(outbox) + OnCoinPotted(isMaster, old(State()), viewId).sent
    {
      if viewId !in pieces {
        return;
      }
      var tag := pieces[viewId];
      pieces := pieces - {viewId};
      if isMaster {
        if tag == WhiteCoin {
          if currentPlayerTurn == Player1 {
            player1Score := player1Score + 1;
          } else {
            player2Score := player2Score - 1;
          }
        } else if tag == BlackCoin {
          if currentPlayerTurn == Player2 {
            player2Score := player2Score + 1;
          } else {
            player1Score := player1Score - 1;
          }
        } else if tag == Queen {
          queenPotted := true;
        }
        outbox := outbox + [UpdateScoresRpc(player1Score, player2Score)];
        UpdateScores(player1Score, player2Score);
      }
    }

    /** The striker reached a pocket: see Rules.OnStrikerPotted; then this
        client's own striker goes back to its spawn point. */
    method StrikerPotted()
      modifies this`wasLastShotAFoul, this`player1Score, this`player2Score, this`outbox, localStriker
      ensures State() == OnStrikerPotted(isMaster, old(State())).state
      ensures outbox == old(outbox) + OnStrikerPotted(isMaster, old(State())).sent
      ensures localStriker != null ==>
                localStriker.CurrentPose() ==
                  if localStriker.isMine then localStriker.Home() else old(localStriker.CurrentPose())
      ensures localStriker != null ==>
                localStriker.CurrentAim() == old(localStriker.CurrentAim()) &&
                localStriker.enabled == old(localStriker.enabled) &&
                localStriker.isKinematic == old(localStriker.isKinematic)
    {
      wasLastShotAFoul := true;
      if isMaster {
        if currentPlayerTurn == Player1 {
          player1Score := player1Score - 1;
        } else {
          player2Score := player2Score - 1;
        }
        outbox := outbox + [UpdateScoresRpc(player1Score, player2Score)];
        UpdateScores(player1Score, player2Score);
      }
      // with no local striker Pun_StrikerPotted in GameManager.cs fails here, after every change above
      if localStriker != null {
        localStriker.ResetStrikerPosition();
      }
    }

    /** Both scores take the broadcast values. */
    method UpdateScores(p1: int, p2: int)
      modifies this`player1Score, this`player2Score
      ensures State() == OnUpdateScores(old(State()), p1, p2)
    {
      player1Score := p1;
      player2Score := p2;
    }

    /** SetPlayerTurn, then the foul flag is cleared for the next shot;
        when SetPlayerTurn fails for want of a local striker, the flag stays. */
    method AdvanceTurn(actor: int)
      modifies this`currentPlayerTurn, this`wasLastShotAFoul, localStriker
      ensures Valid()
      ensures State() ==
                if localActor == actor && localStriker == null then OnSetPlayerTurn(Seating(), old(State()), actor)
                else OnAdvanceTurn(Seating(), old(State()), actor)
      ensures localStriker != null ==>
                localStriker.enabled == (localActor == actor) && localStriker.isKinematic == (localActor != actor)
      ensures localStriker != null ==>
                localStriker.CurrentPose() ==
                  if localActor == actor && localStriker.isMine then localStriker.Home()
                  else old(localStriker.CurrentPose())
      ensures localStriker != null ==> localStriker.CurrentAim() == old(localStriker.CurrentAim())
    {
      SetPlayerTurn(actor);
      if localActor == actor && localStriker == null {
        // AdvanceTurnRPC in GameManager.cs fails inside SetPlayerTurn
        return;
      }
      wasLastShotAFoul := false;
    }

    /** Once the pieces have settled (the settle check holds of `bodies`),
        the master hands the turn to the other seat on all clients: seat 2
        after seat 1's turn, seat 1 otherwise. */
    method EvaluateShotRoutine(bodies: seq<Body>)
      requires Valid()
      requires Settled(bodies, minPieceStopVelocity)
      modifies this`currentPlayerTurn, this`wasLastShotAFoul, this`outbox, localStriker
      ensures Valid()
      ensures isMaster && NextActor(Seating(), old(currentPlayerTurn)).Some? ==>
                var next := NextActor(Seating(), old(currentPlayerTurn)).value;
                outbox == old(outbox) + [AdvanceTurnRpc(next)] &&
                State() == if localActor == next && localStriker == null then OnSetPlayerTurn(Seating(), old(State()), next)
                           else OnAdvanceTurn(Seating(), old(State()), next)
      ensures isMaster && NextActor(Seating(), old(currentPlayerTurn)).Some? && localStriker != null ==>
                var next := NextActor(Seating(), old(currentPlayerTurn)).value;
                localStriker.enabled == (localActor == next) && localStriker.isKinematic == (localActor != next) &&
                localStriker.CurrentPose() ==
                  if localActor == next && localStriker.isMine then localStriker.Home()
                  else old(localStriker.CurrentPose())
      ensures !(isMaster && NextActor(Seating(), old(currentPlayerTurn)).Some?) ==>
                outbox == old(outbox) && State() == old(State())
      ensures !(isMaster && NextActor(Seating(), old(currentPlayerTurn)).Some?) && localStriker != null ==>
                localStriker.enabled == old(localStriker.enabled) &&
                localStriker.isKinematic == old(localStriker.isKinematic) &&
                localStriker.CurrentPose() == old(localStriker.CurrentPose())
      // with both seats bound to different actors, the turn alternates
      ensures isMaster && player1.Some? && player2.Some? && player1 != player2 ==>
                currentPlayerTurn == (if old(currentPlayerTurn) == Player1 then Player2 else Player1)
      ensures localStriker != null ==> localStriker.CurrentAim() == old(localStriker.CurrentAim())
    {
      if isMaster {
        var next: Option<int>;
        if currentPlayerTurn == Player1 {
          next := player2;
        } else {
          next := player1;
        }
        // an unset seat fails before anything is sent
        if next.Some? {
          outbox := outbox + [AdvanceTurnRpc(next.value)];
          AdvanceTurn(next.value);
        }
      }
    }

    /** The settle check: no body that has a network view moves faster than
        the threshold; bodies without a view are ignored. */
    method AllPiecesStopped(bodies: seq<Body>) returns (stopped: bool)
      ensures stopped <==> Settled(bodies, minPieceStopVelocity)
    {
      var i := 0;
      while i < |bodies|
        invariant 0 <= i <= |bodies|
        invariant forall j :: 0 <= j < i && bodies[j].hasPhotonView ==> bodies[j].speed <= minPieceStopVelocity
      {
        if bodies[i].hasPhotonView && bodies[i].speed > minPieceStopVelocity {
          return false;
        }
        i := i + 1;
      }
      return true;
    }
  }

  /** Turn exclusivity between two clients of the same room: with the same
      seats and the same turn, only one local player can have its turn. */
  lemma OneClientHoldsTheTurn(a: GameManager, b: GameManager)
    requires a.Seating() == b.Seating() && a.currentPlayerTurn == b.currentPlayerTurn
    requires a.IsMyTurn() && b.IsMyTurn()
    ensures a.localActor == b.localActor
  {
  }
}
