/** Values shared by the game manager, the pocket handler and the striker:
    networked piece tags, the turn enumeration, the remote procedure calls
    the clients exchange, and abstract world geometry. */
module Board {

  datatype Option<+T> = None | Some(value: T)

  /** A world-space vector (position, velocity, mouse point). Geometry is
      kept abstract: no rounding, no normalisation. */
  datatype Vec2 = Vec2(x: real, y: real)

  const Zero: Vec2 := Vec2(0.0, 0.0)

  function Sub(a: Vec2, b: Vec2): Vec2 {
    Vec2(a.x - b.x, a.y - b.y)
  }

  /** The tag carried by a networked piece; every tag other than the three
      the scoring rule reads is `OtherTag`. */
  datatype Tag = WhiteCoin | BlackCoin | Queen | OtherTag

  /** Whose turn it is; `NoTurn` is the value before the game starts and after
      an actor number that is bound to neither seat. */
  datatype PlayerTurn = NoTurn | Player1 | Player2

  /** The remote procedure calls of the turn engine, with their payloads. */
  datatype Rpc =
    | SetPlayerTurnRpc(actor: int)
    | CoinPottedRpc(viewId: int)
    | StrikerPottedRpc
    | UpdateScoresRpc(p1: int, p2: int)
    | AdvanceTurnRpc(actor: int)
}
