/**
 * The types shared by the turn engine and its participants: seat numbers,
 * the outcome of a move, the events broadcast to seats, and the operations a
 * concrete game supplies (the `Game` trait of tbmp_core).
 */
module GameContract {

  datatype Option<+T> = None | Some(value: T)

  /** A seat number. The source declares it as `u8`. */
  type PlayerID = x: int | 0 <= x < 256

  /** What `apply_move` reports: the game goes on, is drawn, or is won by a seat. */
  datatype MoveResult = Continue | Draw | Win(winner: PlayerID)

  /**
   * An event sent from the engine to one seat. `GameStart` carries a full copy
   * of the game state (there is no per-seat redaction) and the receiving seat's
   * number; `GameEnd(None)` is a draw.
   */
  datatype GameEvent<G, M> =
    | GameStart(state: G, seat: PlayerID)
    | MoveHappened(qmove: M)
    | YourTurn
    | ValidMove
    | InvalidMove
    | OpponentQuit
    | GameEnd(winner: Option<PlayerID>)

  /**
   * The operations of the `Game` trait for a game whose state has type G and
   * whose moves have type M. Each is a pure function of the state it is given:
   * `applyMove` returns the new state instead of mutating it in place.
   */
  datatype Game<!G, !M> = Game(
    validateMove: (G, M) -> bool,
    applyMove: (G, M) -> (G, MoveResult),
    defaultBoard: G,
    playerCount: G -> PlayerID,
    turnOf: G -> PlayerID)
}
