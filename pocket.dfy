/** The pocket trigger: which call, if any, an object entering a pocket
    makes the master send to all clients. */
module Pocket {
  import opened Board
  import opened Rules

  /** What the trigger can see of the object that entered it: its network
      view id (none for an object without a view), and whether it carries
      the coin component and the striker component. */
  datatype Contact = Contact(photonView: Option<int>, hasCoinProperties: bool, hasStrikerController: bool)

  /** Only the master reports pockets, only for networked objects; a coin is
      reported by its own view id, a striker that is not a coin as a foul,
      anything else not at all. */
  function OnTriggerEnter2D(other: Contact, isMaster: bool): (sent: Option<Rpc>)
    ensures sent.Some? ==> isMaster && other.photonView.Some?
    ensures sent.Some? ==> sent.value == CoinPottedRpc(other.photonView.value) || sent.value == StrikerPottedRpc
    ensures sent.Some? && sent.value.CoinPottedRpc? ==> other.hasCoinProperties
    ensures sent == Some(StrikerPottedRpc) ==> other.hasStrikerController && !other.hasCoinProperties
    ensures isMaster && other.photonView.Some? && (other.hasCoinProperties || other.hasStrikerController) ==> sent.Some?
  {
    if other.photonView.Some? then
      if isMaster then
        if other.hasCoinProperties then Some(CoinPottedRpc(other.photonView.value))
        else if other.hasStrikerController then Some(StrikerPottedRpc)
        else None
      else None
    else None
  }

  /** A live coin that the master sees entering a pocket leaves play on the
      master, its point is scored by the coin's tag, and every other client
      that applies what the master broadcasts drops the same coin and ends
      with the master's scores. */
  lemma PocketedCoinLeavesPlay(s: Seats, st: GameState, other: Contact)
    requires other.photonView.Some? && other.hasCoinProperties
    requires other.photonView.value in st.pieces
    ensures OnTriggerEnter2D(other, true).Some?
    ensures var h := Originate(s, st, OnTriggerEnter2D(other, true).value);
            h.state.pieces == st.pieces - {other.photonView.value} &&
            h.state.scores == Add(st.scores, PotDelta(PotCoin(st.pieces[other.photonView.value]), st.turn)) &&
            Agree(h.state, Replay(s, st, h.sent))
  {
    ReplicaFollowsOne(s, st, st, CoinPottedRpc(other.photonView.value));
  }

  /** A striker that is not a coin, entering a pocket on the master, costs
      the shooting seat one point and marks the foul on every client. */
  lemma PocketedStrikerIsAFoul(s: Seats, st: GameState, other: Contact)
    requires other.photonView.Some? && other.hasStrikerController && !other.hasCoinProperties
    ensures OnTriggerEnter2D(other, true) == Some(StrikerPottedRpc)
    ensures var h := Originate(s, st, StrikerPottedRpc);
            h.state.foul && h.state.scores == Add(st.scores, PotDelta(PotStriker, st.turn)) &&
            Agree(h.state, Replay(s, st, h.sent))
  {
    ReplicaFollowsOne(s, st, st, StrikerPottedRpc);
  }
}
