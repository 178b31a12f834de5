/** The turn cycle across clients: the turn holder shoots, the pieces
    settle, and the after-shot routine decides the next turn. The routine is
    started on the client that fired the shot, and only a master sends the
    turn advance; this module states what that does over many shots, next to
    the cycle in which the master evaluates every shot. */
module ShotCycle {
  import opened Board
  import opened Rules

  /** As written: the turn advance the shot of the turn holder produces, when
      the routine runs on the shooter's own client and `master` is the
      master's actor number. */
  function AdvanceAsWritten(s: Seats, master: int, turn: PlayerTurn): Option<int> {
    if ActorAt(s, turn) == Some(master) then NextActor(s, turn) else None
  }

  /** As written: the turn after `n` shots, each fired by the turn holder. */
  function TurnAfterShotsAsWritten(s: Seats, master: int, turn: PlayerTurn, n: nat): PlayerTurn
    decreases n
  {
    if n == 0 then turn
    else
      var next := AdvanceAsWritten(s, master, turn);
      TurnAfterShotsAsWritten(s, master, if next.Some? then SeatOf(s, next.value) else turn, n - 1)
  }

  /** As written, once the turn is held by a player who is not the master,
      no number of shots ever moves it. */
  lemma {:induction false} NonMasterTurnNeverEnds(s: Seats, master: int, turn: PlayerTurn, n: nat)
    requires ActorAt(s, turn) != Some(master)
    ensures TurnAfterShotsAsWritten(s, master, turn, n) == turn
    decreases n
  {
    if n > 0 {
      NonMasterTurnNeverEnds(s, master, turn, n - 1);
    }
  }

  /** The room of two, actor 1 on seat 1 and master, actor 2 on seat 2: after
      seat 1's first shot the turn passes to seat 2 and stays there. */
  lemma StalledAfterFirstShot(n: nat)
    ensures TurnAfterShotsAsWritten(Seats(Some(1), Some(2)), 1, Player1, 1) == Player2
    ensures TurnAfterShotsAsWritten(Seats(Some(1), Some(2)), 1, Player1, n + 1) == Player2
  {
    NonMasterTurnNeverEnds(Seats(Some(1), Some(2)), 1, Player2, n);
  }

  /** Corrected: the master runs the after-shot routine for every shot,
      whoever fired it (the routine itself is GameManager.EvaluateShotRoutine). */
  function Advance(s: Seats, turn: PlayerTurn): Option<int> {
    NextActor(s, turn)
  }

  function TurnAfterShots(s: Seats, turn: PlayerTurn, n: nat): PlayerTurn
    decreases n
  {
    if n == 0 then turn
    else
      var next := Advance(s, turn);
      TurnAfterShots(s, if next.Some? then SeatOf(s, next.value) else turn, n - 1)
  }

  /** With both seats bound to different actors, turns alternate from seat 1:
      seat 1 holds the turn after an even number of shots, seat 2 after an odd
      number, so each player shoots every other time. */
  lemma {:induction false} TurnsAlternate(s: Seats, n: nat)
    requires s.player1.Some? && s.player2.Some? && s.player1 != s.player2
    ensures TurnAfterShots(s, Player1, n) == if n % 2 == 0 then Player1 else Player2
    ensures TurnAfterShots(s, Player2, n) == if n % 2 == 0 then Player2 else Player1
    decreases n
  {
    if n > 0 {
      Alternation(s, Player1);
      Alternation(s, Player2);
      TurnsAlternate(s, n - 1);
    }
  }
}
