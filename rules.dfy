/** The turn-and-scoring rules of the game manager, stated on values: seat
    binding, the turn a SetPlayerTurn call selects, the point each pocketed
    piece is worth, the next-turn choice, and what each remote procedure call
    does to the replicated game state of one client. The class in module
    Manager is proved to follow these functions; the lemmas here state what
    the rules promise across calls and across clients. */
module Rules {
  import opened Board

  /** The two seats of the room, each bound to an actor number or unset. */
  datatype Seats = Seats(player1: Option<int>, player2: Option<int>)

  const Unbound: Seats := Seats(None, None)

  datatype Scores = Scores(p1: int, p2: int)

  function Add(a: Scores, b: Scores): Scores {
    Scores(a.p1 + b.p1, a.p2 + b.p2)
  }

  /** The game state every client holds and the master replicates. */
  datatype GameState = GameState(
    turn: PlayerTurn,
    scores: Scores,
    queenPotted: bool,
    foul: bool,
    pieces: map<int, Tag>)

  /** A client's state after it handled one call, and the calls it broadcast
      while doing so (each of which it also ran on itself at once). */
  datatype Handled = Handled(state: GameState, sent: seq<Rpc>)

  // ---------------------------------------------------------------------
  // Seat binding and turn mapping

  /** InitializePlayers: the first actor of the room's player list takes
      seat 1, the second seat 2; a seat with no actor to take it keeps what
      it held. */
  function BindSeats(playerList: seq<int>, s: Seats): Seats {
    if |playerList| >= 1 then
      Seats(Some(playerList[0]), if |playerList| >= 2 then Some(playerList[1]) else s.player2)
    else s
  }

  /** The seat an actor holds, which is the turn SetPlayerTurn selects for
      that actor; seat 1 is tried first. */
  function SeatOf(s: Seats, actor: int): PlayerTurn {
    if s.player1 == Some(actor) then Player1
    else if s.player2 == Some(actor) then Player2
    else NoTurn
  }

  /** The actor bound to a turn's seat. */
  function ActorAt(s: Seats, t: PlayerTurn): Option<int> {
    match t
    case Player1 => s.player1
    case Player2 => s.player2
    case NoTurn => None
  }

  /** The two seats are not bound to the same actor (actor numbers are unique
      within a room). */
  predicate DistinctSeats(s: Seats) {
    s.player1.None? || s.player1 != s.player2
  }

  function Opposite(t: PlayerTurn): PlayerTurn {
    match t
    case Player1 => Player2
    case Player2 => Player1
    case NoTurn => NoTurn
  }

  /** The actor the master hands the turn to once the pieces have settled:
      seat 2's actor after seat 1's turn, seat 1's actor otherwise (NoTurn
      included). `None` is an unset seat: EvaluateShotRoutineMultiplayer in
      GameManager.cs reads its actor number, which aborts the routine. */
  function NextActor(s: Seats, turn: PlayerTurn): Option<int> {
    if turn == Player1 then s.player2 else s.player1
  }

  lemma RoleBinding(playerList: seq<int>, actor: int)
    requires forall i, j :: 0 <= i < j < |playerList| ==> playerList[i] != playerList[j]
    ensures |playerList| >= 1 ==> SeatOf(BindSeats(playerList, Unbound), playerList[0]) == Player1
    ensures |playerList| >= 2 ==> SeatOf(BindSeats(playerList, Unbound), playerList[1]) == Player2
    ensures |playerList| <= 1 ==> BindSeats(playerList, Unbound).player2 == None
    ensures DistinctSeats(BindSeats(playerList, Unbound))
    ensures actor !in playerList[..if |playerList| < 2 then |playerList| else 2] ==>
              SeatOf(BindSeats(playerList, Unbound), actor) == NoTurn
  {
  }

  /** SeatOf and ActorAt are inverse on bound seats. */
  lemma SeatRoundTrip(s: Seats, actor: int, t: PlayerTurn)
    requires DistinctSeats(s)
    ensures SeatOf(s, actor) != NoTurn ==> ActorAt(s, SeatOf(s, actor)) == Some(actor)
    ensures ActorAt(s, t) == Some(actor) ==> SeatOf(s, actor) == t
  {
  }

  /** Turn exclusivity: with the same seats and the same turn, at most one
      actor is the one whose seat holds the turn. */
  lemma TurnExclusive(s: Seats, turn: PlayerTurn, a: int, b: int)
    requires turn != NoTurn && SeatOf(s, a) == turn && SeatOf(s, b) == turn
    ensures a == b
  {
  }

  /** With both seats bound to different actors, the next-turn choice always
      exists and selects the opposite seat; from NoTurn it selects seat 1. */
  lemma Alternation(s: Seats, turn: PlayerTurn)
    requires s.player1.Some? && s.player2.Some? && s.player1 != s.player2
    ensures NextActor(s, turn).Some?
    ensures SeatOf(s, NextActor(s, turn).value) == if turn == Player1 then Player2 else Player1
    ensures turn != NoTurn ==> SeatOf(s, NextActor(s, turn).value) == Opposite(turn)
  {
  }

  // ---------------------------------------------------------------------
  // Scoring

  /** One pocket event of a shot: a coin with its tag, or the striker. */
  datatype Pot = PotCoin(tag: Tag) | PotStriker

  /** The shooter pockets a coin of their own colour: white on seat 1's
      turn, black on seat 2's. */
  predicate OwnCoin(p: Pot, turn: PlayerTurn) {
    (p == PotCoin(WhiteCoin) && turn == Player1) || (p == PotCoin(BlackCoin) && turn == Player2)
  }

  /** The change the master applies to the scores for one pocket event. */
  function PotDelta(p: Pot, turn: PlayerTurn): (d: Scores)
    ensures p.PotCoin? && (p.tag == Queen || p.tag == OtherTag) ==> d == Scores(0, 0)
    ensures p.PotCoin? && (p.tag == WhiteCoin || p.tag == BlackCoin) ==>
              (d.p1 == 0) != (d.p2 == 0) && -1 <= d.p1 <= 1 && -1 <= d.p2 <= 1
    ensures p == PotCoin(WhiteCoin) ==> (d.p1 != 0 <==> turn == Player1)
    ensures p == PotCoin(BlackCoin) ==> (d.p2 != 0 <==> turn == Player2)
    ensures p == PotStriker ==> d.p1 <= 0 && d.p2 <= 0 && d.p1 + d.p2 == -1
    ensures p == PotStriker ==> (d.p1 != 0 <==> turn == Player1)
    ensures d.p1 + d.p2 == 1 <==> OwnCoin(p, turn)
  {
    match p
    case PotCoin(WhiteCoin) => if turn == Player1 then Scores(1, 0) else Scores(0, -1)
    case PotCoin(BlackCoin) => if turn == Player2 then Scores(0, 1) else Scores(-1, 0)
    case PotCoin(_) => Scores(0, 0)
    case PotStriker => if turn == Player1 then Scores(-1, 0) else Scores(0, -1)
  }

  /** The scores after the master applied every pocket event of a shot, in
      the order they arrived. */
  function ShotScores(pots: seq<Pot>, turn: PlayerTurn, s: Scores): Scores
    decreases |pots|
  {
    if pots == [] then s else ShotScores(pots[1..], turn, Add(s, PotDelta(pots[0], turn)))
  }

  /** The sum of the changes of a shot's pocket events. */
  function TotalDelta(pots: seq<Pot>, turn: PlayerTurn): Scores
    decreases |pots|
  {
    if pots == [] then Scores(0, 0) else Add(PotDelta(pots[0], turn), TotalDelta(pots[1..], turn))
  }

  lemma {:induction false} ShotScoresIsTotal(pots: seq<Pot>, turn: PlayerTurn, s: Scores)
    ensures ShotScores(pots, turn, s) == Add(s, TotalDelta(pots, turn))
    decreases |pots|
  {
    if pots != [] {
      ShotScoresIsTotal(pots[1..], turn, Add(s, PotDelta(pots[0], turn)));
    }
  }

  lemma AddAssociative(x: Scores, y: Scores, z: Scores)
    ensures Add(x, Add(y, z)) == Add(Add(x, y), z)
  {
  }

  lemma TotalDeltaCons(a: seq<Pot>, b: seq<Pot>, turn: PlayerTurn)
    requires a != []
    ensures TotalDelta(a + b, turn) == Add(PotDelta(a[0], turn), TotalDelta(a[1..] + b, turn))
  {
    assert (a + b)[0] == a[0] && (a + b)[1..] == a[1..] + b;
  }

  lemma {:induction false} TotalDeltaAppend(a: seq<Pot>, b: seq<Pot>, turn: PlayerTurn)
    ensures TotalDelta(a + b, turn) == Add(TotalDelta(a, turn), TotalDelta(b, turn))
    decreases |a|
  {
    if a == [] {
      assert a + b == b;
    } else {
      TotalDeltaCons(a, b, turn);
      TotalDeltaAppend(a[1..], b, turn);
      AddAssociative(PotDelta(a[0], turn), TotalDelta(a[1..], turn), TotalDelta(b, turn));
    }
  }

  /** The scores a shot leaves do not depend on the order in which its
      pocket events arrive. */
  lemma {:induction false} ShotOrderIndependent(a: seq<Pot>, b: seq<Pot>, turn: PlayerTurn, s: Scores)
    ensures ShotScores(a + b, turn, s) == ShotScores(b + a, turn, s)
  {
    ShotScoresIsTotal(a + b, turn, s);
    ShotScoresIsTotal(b + a, turn, s);
    TotalDeltaAppend(a, b, turn);
    TotalDeltaAppend(b, a, turn);
  }

  // ---------------------------------------------------------------------
  // The handlers, one per remote procedure call

  function OnSetPlayerTurn(s: Seats, st: GameState, actor: int): GameState {
    st.(turn := SeatOf(s, actor))
  }

  /** A coin pocketed: an unknown view id changes nothing; otherwise the
      piece leaves play on every client, and the master alone scores it by
      its tag, raises the queen flag for the queen, and broadcasts the
      scores. */
  function OnCoinPotted(master: bool, st: GameState, viewId: int): Handled {
    if viewId !in st.pieces then Handled(st, [])
    else
      var tag := st.pieces[viewId];
      var removed := st.(pieces := st.pieces - {viewId});
      if !master then Handled(removed, [])
      else
        var sc := Add(st.scores, PotDelta(PotCoin(tag), st.turn));
        Handled(removed.(scores := sc, queenPotted := st.queenPotted || tag == Queen),
                [UpdateScoresRpc(sc.p1, sc.p2)])
  }

  /** The striker pocketed: every client marks the foul; the master alone
      charges the penalty and broadcasts the scores. */
  function OnStrikerPotted(master: bool, st: GameState): Handled {
    var fouled := st.(foul := true);
    if !master then Handled(fouled, [])
    else
      var sc := Add(st.scores, PotDelta(PotStriker, st.turn));
      Handled(fouled.(scores := sc), [UpdateScoresRpc(sc.p1, sc.p2)])
  }

  function OnUpdateScores(st: GameState, p1: int, p2: int): GameState {
    st.(scores := Scores(p1, p2))
  }

  function OnAdvanceTurn(s: Seats, st: GameState, actor: int): GameState {
    OnSetPlayerTurn(s, st, actor).(foul := false)
  }

  /** What one client does with one call it receives. */
  function Receive(s: Seats, master: bool, st: GameState, rpc: Rpc): Handled {
    match rpc
    case SetPlayerTurnRpc(a) => Handled(OnSetPlayerTurn(s, st, a), [])
    case CoinPottedRpc(id) => OnCoinPotted(master, st, id)
    case StrikerPottedRpc => OnStrikerPotted(master, st)
    case UpdateScoresRpc(p1, p2) => Handled(OnUpdateScores(st, p1, p2), [])
    case AdvanceTurnRpc(a) => Handled(OnAdvanceTurn(s, st, a), [])
  }

  /** The master's scoring rule, call by call. */
  lemma ScoringRules(s: Seats, st: GameState, viewId: int)
    ensures var h := OnCoinPotted(true, st, viewId);
            viewId in st.pieces ==>
              h.state.pieces == st.pieces - {viewId} &&
              (st.pieces[viewId] == WhiteCoin && st.turn == Player1 ==> h.state.scores == Scores(st.scores.p1 + 1, st.scores.p2)) &&
              (st.pieces[viewId] == WhiteCoin && st.turn != Player1 ==> h.state.scores == Scores(st.scores.p1, st.scores.p2 - 1)) &&
              (st.pieces[viewId] == BlackCoin && st.turn == Player2 ==> h.state.scores == Scores(st.scores.p1, st.scores.p2 + 1)) &&
              (st.pieces[viewId] == BlackCoin && st.turn != Player2 ==> h.state.scores == Scores(st.scores.p1 - 1, st.scores.p2)) &&
              (st.pieces[viewId] == Queen ==> h.state.queenPotted && h.state.scores == st.scores)
    ensures viewId !in st.pieces ==> OnCoinPotted(true, st, viewId) == Handled(st, [])
    ensures var h := OnStrikerPotted(true, st);
            h.state.foul &&
            h.state.scores == (if st.turn == Player1 then Scores(st.scores.p1 - 1, st.scores.p2)
                               else Scores(st.scores.p1, st.scores.p2 - 1))
  {
  }

  /** Applying SetPlayerTurn, or AdvanceTurn, twice with the same actor is
      applying it once: the new turn depends only on the seats and the
      actor, never on the turn before. */
  lemma TurnHandlersIdempotent(s: Seats, st: GameState, actor: int)
    ensures OnSetPlayerTurn(s, OnSetPlayerTurn(s, st, actor), actor) == OnSetPlayerTurn(s, st, actor)
    ensures OnAdvanceTurn(s, OnAdvanceTurn(s, st, actor), actor) == OnAdvanceTurn(s, st, actor)
    ensures OnSetPlayerTurn(s, st, actor).turn == OnSetPlayerTurn(s, st.(turn := NoTurn), actor).turn
  {
  }

  /** UpdateScores overwrites both scores: applying it twice is applying it
      once, and a later one overrides an earlier one. */
  lemma UpdateScoresOverwrites(st: GameState, p1: int, p2: int, q1: int, q2: int)
    ensures OnUpdateScores(OnUpdateScores(st, p1, p2), p1, p2) == OnUpdateScores(st, p1, p2)
    ensures OnUpdateScores(OnUpdateScores(st, q1, q2), p1, p2) == OnUpdateScores(st, p1, p2)
    ensures OnUpdateScores(st, p1, p2).scores == Scores(p1, p2)
  {
  }

  /** Single writer: a client that is not the master broadcasts nothing,
      changes the scores only by taking an UpdateScores payload verbatim,
      and never raises the queen flag. */
  lemma ReplicaWritesNothing(s: Seats, st: GameState, rpc: Rpc)
    ensures Receive(s, false, st, rpc).sent == []
    ensures !rpc.UpdateScoresRpc? ==> Receive(s, false, st, rpc).state.scores == st.scores
    ensures rpc.UpdateScoresRpc? ==> Receive(s, false, st, rpc).state.scores == Scores(rpc.p1, rpc.p2)
    ensures Receive(s, false, st, rpc).state.queenPotted == st.queenPotted
  {
  }

  /** Every score change the master makes is broadcast with the new scores. */
  lemma MasterBroadcastsScores(s: Seats, st: GameState, rpc: Rpc)
    requires !rpc.UpdateScoresRpc?
    ensures var h := Receive(s, true, st, rpc);
            h.state.scores != st.scores ==> h.sent == [UpdateScoresRpc(h.state.scores.p1, h.state.scores.p2)]
    ensures var h := Receive(s, true, st, rpc);
            forall m | m in h.sent :: m == UpdateScoresRpc(h.state.scores.p1, h.state.scores.p2)
  {
  }

  // ---------------------------------------------------------------------
  // Replication

  /** The master originates `rpc` (every call is sent to all clients and run
      on the sender at once): its new state, and the stream the other
      clients receive, which is the call followed by what its handler sent. */
  function Originate(s: Seats, st: GameState, rpc: Rpc): Handled {
    var h := Receive(s, true, st, rpc);
    Handled(h.state, [rpc] + h.sent)
  }

  function OriginateAll(s: Seats, st: GameState, rpcs: seq<Rpc>): Handled
    decreases |rpcs|
  {
    if rpcs == [] then Handled(st, [])
    else
      var h := Originate(s, st, rpcs[0]);
      var rest := OriginateAll(s, h.state, rpcs[1..]);
      Handled(rest.state, h.sent + rest.sent)
  }

  /** A client that is not the master applies a stream of calls in order. */
  function Replay(s: Seats, st: GameState, stream: seq<Rpc>): GameState
    decreases |stream|
  {
    if stream == [] then st else Replay(s, Receive(s, false, st, stream[0]).state, stream[1..])
  }

  /** Two clients agree on everything that is replicated: turn, scores,
      foul flag and live pieces (the queen flag is the master's alone). */
  predicate Agree(a: GameState, b: GameState) {
    a.turn == b.turn && a.scores == b.scores && a.foul == b.foul && a.pieces == b.pieces
  }

  lemma {:induction false} ReplayAppend(s: Seats, st: GameState, x: seq<Rpc>, y: seq<Rpc>)
    ensures Replay(s, st, x + y) == Replay(s, Replay(s, st, x), y)
    decreases |x|
  {
    if x == [] {
      assert x + y == y;
    } else {
      assert (x + y)[0] == x[0];
      assert (x + y)[1..] == x[1..] + y;
      ReplayAppend(s, Receive(s, false, st, x[0]).state, x[1..], y);
    }
  }

  lemma ReplicaFollowsOne(s: Seats, m: GameState, r: GameState, rpc: Rpc)
    requires Agree(m, r)
    ensures Agree(Originate(s, m, rpc).state, Replay(s, r, Originate(s, m, rpc).sent))
  {
    var h := Receive(s, true, m, rpc);
    var r1 := Receive(s, false, r, rpc).state;
    assert Replay(s, r, [rpc] + h.sent) == Replay(s, r1, h.sent) by {
      assert ([rpc] + h.sent)[0] == rpc;
      assert ([rpc] + h.sent)[1..] == h.sent;
    }
    if h.sent != [] {
      assert h.sent == [UpdateScoresRpc(h.state.scores.p1, h.state.scores.p2)];
      assert Replay(s, r1, h.sent) == OnUpdateScores(r1, h.state.scores.p1, h.state.scores.p2);
    }
  }

  /** Round-trip replication: a client that agrees with the master and
      applies, in order, everything the master broadcasts while originating
      any sequence of calls, agrees with the master afterwards. */
  lemma {:induction false} ReplicaConverges(s: Seats, m: GameState, r: GameState, rpcs: seq<Rpc>)
    requires Agree(m, r)
    ensures Agree(OriginateAll(s, m, rpcs).state, Replay(s, r, OriginateAll(s, m, rpcs).sent))
    decreases |rpcs|
  {
    if rpcs != [] {
      var h := Originate(s, m, rpcs[0]);
      ReplicaFollowsOne(s, m, r, rpcs[0]);
      var r1 := Replay(s, r, h.sent);
      ReplicaConverges(s, h.state, r1, rpcs[1..]);
      ReplayAppend(s, r, h.sent, OriginateAll(s, h.state, rpcs[1..]).sent);
    }
  }

  /** Last write wins: after a stream whose last score-carrying call is
      UpdateScores(p1, p2), a client that is not the master holds exactly
      those scores, whatever it held before. */
  lemma {:induction false} LastWriteWins(s: Seats, st: GameState, stream: seq<Rpc>, i: nat)
    requires i < |stream| && stream[i].UpdateScoresRpc?
    requires forall j :: i < j < |stream| ==> !stream[j].UpdateScoresRpc?
    ensures Replay(s, st, stream).scores == Scores(stream[i].p1, stream[i].p2)
    decreases |stream|
  {
    var st1 := Receive(s, false, st, stream[0]).state;
    if i == 0 {
      NoUpdateKeepsScores(s, st1, stream[1..]);
    } else {
      LastWriteWins(s, st1, stream[1..], i - 1);
    }
  }

  lemma {:induction false} NoUpdateKeepsScores(s: Seats, st: GameState, stream: seq<Rpc>)
    requires forall j :: 0 <= j < |stream| ==> !stream[j].UpdateScoresRpc?
    ensures Replay(s, st, stream).scores == st.scores
    decreases |stream|
  {
    if stream != [] {
      NoUpdateKeepsScores(s, Receive(s, false, st, stream[0]).state, stream[1..]);
    }
  }

  /** A client that is not the master never changes its queen flag,
      whatever stream it applies. */
  lemma {:induction false} ReplayKeepsQueenFlag(s: Seats, st: GameState, stream: seq<Rpc>)
    ensures Replay(s, st, stream).queenPotted == st.queenPotted
    decreases |stream|
  {
    if stream != [] {
      ReplicaWritesNothing(s, st, stream[0]);
      ReplayKeepsQueenFlag(s, Receive(s, false, st, stream[0]).state, stream[1..]);
    }
  }

  /** The queen flag is not replicated: when the master originates the pot
      of a live queen it raises its flag, and a client applying everything
      the master broadcasts does not. */
  lemma QueenFlagStaysOnMaster(s: Seats, st: GameState, viewId: int)
    requires viewId in st.pieces && st.pieces[viewId] == Queen && !st.queenPotted
    ensures Originate(s, st, CoinPottedRpc(viewId)).state.queenPotted
    ensures !Replay(s, st, Originate(s, st, CoinPottedRpc(viewId)).sent).queenPotted
  {
    ReplayKeepsQueenFlag(s, st, Originate(s, st, CoinPottedRpc(viewId)).sent);
  }

  // ---------------------------------------------------------------------
  // A shot's pocket calls, as the master handles them

  /** A pocket call: the striker, or a coin by its view id. */
  predicate PocketCall(rpc: Rpc) {
    rpc.CoinPottedRpc? || rpc.StrikerPottedRpc?
  }

  /** The pocket calls of one shot: each names the striker or a live coin,
      and no coin is named twice. */
  predicate PocketShot(rpcs: seq<Rpc>, pieces: map<int, Tag>) {
    (forall i :: 0 <= i < |rpcs| ==> PocketCall(rpcs[i])) &&
    (forall i :: 0 <= i < |rpcs| && rpcs[i].CoinPottedRpc? ==> rpcs[i].viewId in pieces) &&
    (forall i, j ::
       0 <= i < |rpcs| && 0 <= j < |rpcs| && i != j && rpcs[i].CoinPottedRpc? && rpcs[j].CoinPottedRpc? ==>
         rpcs[i].viewId != rpcs[j].viewId)
  }

  /** The pocket event a pocket call reports, with the coin's tag read from
      the live pieces (an id that is not live reads as an unscored tag). */
  function PotOf(rpc: Rpc, pieces: map<int, Tag>): Pot {
    if rpc.CoinPottedRpc? then PotCoin(if rpc.viewId in pieces then pieces[rpc.viewId] else OtherTag)
    else PotStriker
  }

  function PotsOf(rpcs: seq<Rpc>, pieces: map<int, Tag>): seq<Pot> {
    seq(|rpcs|, i requires 0 <= i < |rpcs| => PotOf(rpcs[i], pieces))
  }

  /** The master handling a shot's pocket calls one after another (each
      also run on itself at once) ends with the scores of ShotScores over the
      shot's pocket events, and keeps the turn. */
  lemma {:induction false} MasterScoresFollowShot(s: Seats, st: GameState, rpcs: seq<Rpc>)
    requires PocketShot(rpcs, st.pieces)
    ensures OriginateAll(s, st, rpcs).state.scores == ShotScores(PotsOf(rpcs, st.pieces), st.turn, st.scores)
    ensures OriginateAll(s, st, rpcs).state.turn == st.turn
    decreases |rpcs|
  {
    if rpcs != [] {
      var h := Originate(s, st, rpcs[0]);
      var p := PotsOf(rpcs, st.pieces);
      var rest := rpcs[1..];
      assert h.state.turn == st.turn;
      assert h.state.scores == Add(st.scores, PotDelta(p[0], st.turn));
      assert PocketShot(rest, h.state.pieces) && PotsOf(rest, h.state.pieces) == p[1..] by {
        forall i | 0 <= i < |rest| && rest[i].CoinPottedRpc?
          ensures rest[i].viewId in h.state.pieces && h.state.pieces[rest[i].viewId] == st.pieces[rest[i].viewId]
        {
          assert rest[i] == rpcs[i + 1];
        }
      }
      MasterScoresFollowShot(s, h.state, rest);
    }
  }

  lemma PocketShotSwap(a: seq<Rpc>, b: seq<Rpc>, pieces: map<int, Tag>)
    requires PocketShot(a + b, pieces)
    ensures PocketShot(b + a, pieces)
  {
    var ab, ba := a + b, b + a;
    forall i | 0 <= i < |ba|
      ensures ba[i] == ab[if i < |b| then |a| + i else i - |b|]
    {
    }
  }

  /** The scores a shot leaves on the master do not depend on the order in
      which its pocket calls arrive. */
  lemma PocketOrderIndependent(s: Seats, st: GameState, a: seq<Rpc>, b: seq<Rpc>)
    requires PocketShot(a + b, st.pieces)
    ensures OriginateAll(s, st, a + b).state.scores == OriginateAll(s, st, b + a).state.scores
  {
    PocketShotSwap(a, b, st.pieces);
    MasterScoresFollowShot(s, st, a + b);
    MasterScoresFollowShot(s, st, b + a);
    assert PotsOf(a + b, st.pieces) == PotsOf(a, st.pieces) + PotsOf(b, st.pieces);
    assert PotsOf(b + a, st.pieces) == PotsOf(b, st.pieces) + PotsOf(a, st.pieces);
    ShotOrderIndependent(PotsOf(a, st.pieces), PotsOf(b, st.pieces), st.turn, st.scores);
  }
}
