/**
 * The behaviour of the engine thread of `new_game` as functions on values:
 * the channels of every seat are one `SeatChannels` value, and the startup
 * sequence, one turn of the dispatch loop and the loop as a whole are
 * functions from the engine's state before to its state after.
 */
module Dispatch {
  import opened GameContract

  /** Why the engine thread stopped early. */
  datatype Failure =
    | SendError(seat: nat)    // a `send(..)?` to a seat whose event receiver is gone
    | RecvError(seat: nat)    // a `recv()?` on a seat whose move senders are all gone
    | UnwrapPanic(seat: nat)  // a `send(..).unwrap()` of the startup sequence failed
    | IndexPanic(index: nat)  // `anti_cores[index]` with index past the last seat

  /** Created: before the startup sequence. Running: inside the loop. */
  datatype Status = Created | Running | Finished | Failed(failure: Failure)

  /**
   * The channel pair of every seat, seat i at index i: the events sent on its
   * event channel, whether its event receiver is dropped, the moves queued on
   * its move channel, and whether its move senders are all dropped.
   */
  datatype SeatChannels<G, M> = SeatChannels(
    events: seq<seq<GameEvent<G, M>>>,
    receiverDropped: seq<bool>,
    moves: seq<seq<M>>,
    sendersDropped: seq<bool>)
  {
    predicate WellFormed() {
      |receiverDropped| == |events| && |moves| == |events| && |sendersDropped| == |events|
    }
  }

  /** Seat `seat` exists and its event receiver is still there: a send to it succeeds. */
  predicate Live(dropped: seq<bool>, seat: nat) {
    seat < |dropped| && !dropped[seat]
  }

  /** The engine thread's state: the game, the channels it holds, where it is. */
  datatype State<G, M> = State(game: G, chans: SeatChannels<G, M>, status: Status)

  /** The fresh channels `new_game` makes: `count` seats, all empty and connected. */
  function FreshChannels<G, M>(count: nat): (ch: SeatChannels<G, M>)
    ensures ch.WellFormed() && |ch.events| == count
    ensures forall j :: 0 <= j < count ==> ch.events[j] == [] && ch.moves[j] == [] && Live(ch.receiverDropped, j) && !ch.sendersDropped[j]
  {
    SeatChannels(seq(count, _ => []), seq(count, _ => false), seq(count, _ => []), seq(count, _ => false))
  }

  /** The three per-seat `for` loops of the engine and what each one sends. */
  datatype Announcement<G, M> =
    | Starting(state: G)               // GameStart(clone of the game, i)
    | Moved(qmove: M)                  // MoveHappened(move)
    | Ending(winner: Option<PlayerID>) // GameEnd(winner)

  function EventFor<G, M>(a: Announcement<G, M>, seat: PlayerID): GameEvent<G, M> {
    match a
    case Starting(g) => GameStart(g, seat)
    case Moved(m) => MoveHappened(m)
    case Ending(w) => GameEnd(w)
  }

  /** `anti_cores[seat].event_channel.send(e)`: out of range panics, a dropped receiver fails. */
  function Send<G, M>(ch: SeatChannels<G, M>, seat: nat, e: GameEvent<G, M>): (r: (SeatChannels<G, M>, Option<Failure>))
    requires ch.WellFormed()
    ensures r.0.WellFormed() && |r.0.events| == |ch.events|
    ensures r.0 == ch.(events := r.0.events)
  {
    if seat >= |ch.events| then (ch, Some(IndexPanic(seat)))
    else if ch.receiverDropped[seat] then (ch, Some(SendError(seat)))
    else (ch.(events := ch.events[seat := ch.events[seat] + [e]]), None)
  }

  /**
   * The loop `for i in i..count { anti_cores[i].event_channel.send(..)?; }`:
   * seats in ascending order, stopping at the first send that fails.
   */
  function BroadcastFrom<G, M>(ch: SeatChannels<G, M>, a: Announcement<G, M>, i: nat, count: PlayerID)
    : (r: (SeatChannels<G, M>, Option<Failure>))
    requires ch.WellFormed()
    ensures r.0.WellFormed() && |r.0.events| == |ch.events|
    ensures r.0 == ch.(events := r.0.events)
    decreases count - i
  {
    if i >= count then (ch, None)
    else
      var (ch1, f) := Send(ch, i, EventFor(a, i));
      if f.Some? then (ch1, f) else BroadcastFrom(ch1, a, i + 1, count)
  }

  /**
   * An independent reference for where a broadcast over seats i..count stops:
   * the first seat from i on that is out of range or has no receiver, or
   * `count` when there is none.
   */
  function FirstUnreachable(dropped: seq<bool>, i: nat, count: nat): (k: nat)
    requires i <= count
    ensures i <= k <= count
    ensures forall j :: i <= j < k ==> Live(dropped, j)
    ensures k < count ==> !Live(dropped, k)
    ensures i <= |dropped| ==> k <= |dropped|
    decreases count - i
  {
    if i == count || i >= |dropped| || dropped[i] then i
    else FirstUnreachable(dropped, i + 1, count)
  }

  /** The failure of a send to seat `seat` that cannot be delivered: a panic past the last seat, else a send error. */
  function Undeliverable(seats: nat, seat: nat): Failure {
    if seat < seats then SendError(seat) else IndexPanic(seat)
  }

  /** What a broadcast that stops at seat k reports. */
  function BroadcastFailure(k: nat, count: nat, seats: nat): Option<Failure> {
    if k == count then None else Some(Undeliverable(seats, k))
  }

  /**
   * Exact effect of a broadcast: seats i..k-1 each get their event once,
   * every other seat is untouched, and the failure is that of seat k.
   * Events already appended before a failure stay.
   */
  lemma {:induction false} BroadcastFromExact<G, M>(ch: SeatChannels<G, M>, a: Announcement<G, M>, i: nat, count: PlayerID)
    requires ch.WellFormed() && i <= count
    ensures var r := BroadcastFrom(ch, a, i, count);
            var k := FirstUnreachable(ch.receiverDropped, i, count);
            && r.0.receiverDropped == ch.receiverDropped
            && r.0.moves == ch.moves
            && r.0.sendersDropped == ch.sendersDropped
            && |r.0.events| == |ch.events|
            && (forall j :: i <= j < k ==>
                  Live(ch.receiverDropped, j) && r.0.events[j] == ch.events[j] + [EventFor(a, j)])
            && (forall j :: 0 <= j < |ch.events| && !(i <= j < k) ==> r.0.events[j] == ch.events[j])
            && r.1 == BroadcastFailure(k, count, |ch.events|)
    decreases count - i
  {
    if i < count && i < |ch.events| && !ch.receiverDropped[i] {
      var (ch1, f) := Send(ch, i, EventFor(a, i));
      assert f == None && ch1.receiverDropped == ch.receiverDropped;
      assert ch1.events == ch.events[i := ch.events[i] + [EventFor(a, i)]];
      assert BroadcastFrom(ch, a, i, count) == BroadcastFrom(ch1, a, i + 1, count);
      BroadcastFromExact(ch1, a, i + 1, count);
    } else {
      assert FirstUnreachable(ch.receiverDropped, i, count) == i;
    }
  }

  /** When the first `count` seats are all live, a broadcast over them stops only at `count`. */
  lemma {:induction false} FirstUnreachableAllLive(dropped: seq<bool>, i: nat, count: nat)
    requires i <= count
    requires forall j :: i <= j < count ==> Live(dropped, j)
    ensures FirstUnreachable(dropped, i, count) == count
    decreases count - i
  {
    if i < count {
      assert Live(dropped, i);
      FirstUnreachableAllLive(dropped, i + 1, count);
    }
  }

  /** A broadcast to all of the first `count` seats, when each of them is open. */
  lemma BroadcastToAll<G, M>(ch: SeatChannels<G, M>, a: Announcement<G, M>, count: PlayerID)
    requires ch.WellFormed() && count <= |ch.events|
    requires forall j :: 0 <= j < count ==> Live(ch.receiverDropped, j)
    ensures var r := BroadcastFrom(ch, a, 0, count);
            && r.1 == None
            && r.0 == ch.(events := r.0.events)
            && |r.0.events| == |ch.events|
            && (forall j :: 0 <= j < count ==> r.0.events[j] == ch.events[j] + [EventFor(a, j)])
            && (forall j :: count <= j < |ch.events| ==> r.0.events[j] == ch.events[j])
  {
    BroadcastFromExact(ch, a, 0, count);
    FirstUnreachableAllLive(ch.receiverDropped, 0, count);
  }

  /** A broadcast that succeeds reached every one of the `count` seats. */
  lemma BroadcastSucceededReachedAll<G, M>(ch: SeatChannels<G, M>, a: Announcement<G, M>, count: PlayerID)
    requires ch.WellFormed()
    requires BroadcastFrom(ch, a, 0, count).1 == None
    ensures count <= |ch.events|
    ensures forall j :: 0 <= j < count ==> Live(ch.receiverDropped, j)
  {
    BroadcastFromExact(ch, a, 0, count);
    if count > 0 {
      assert Live(ch.receiverDropped, count - 1);
    }
  }

  /** `.unwrap()` on a failed startup send panics; an out-of-range index panics anyway. */
  function AsPanic(f: Failure): Failure {
    if f.SendError? then UnwrapPanic(f.seat) else f
  }

  /**
   * The startup sequence: `GameStart(copy of the game, i)` to every seat i in
   * ascending order, then `YourTurn` to the seat `turn_of()` names.
   */
  function Startup<G, M>(rules: Game<G, M>, s: State<G, M>): (r: State<G, M>)
    requires s.chans.WellFormed() && s.status == Created
    ensures r.chans.WellFormed() && r.game == s.game
    ensures r.status == Running || r.status.Failed?
    ensures r.status.Failed? ==> r.status.failure.UnwrapPanic? || r.status.failure.IndexPanic?
  {
    var g := s.game;
    BroadcastFromExact(s.chans, Starting(g), 0, rules.playerCount(g));
    var (ch1, f1) := BroadcastFrom(s.chans, Starting(g), 0, rules.playerCount(g));
    if f1.Some? then State(g, ch1, Failed(AsPanic(f1.value)))
    else
      var (ch2, f2) := Send(ch1, rules.turnOf(g), YourTurn);
      State(g, ch2, if f2.Some? then Failed(AsPanic(f2.value)) else Running)
  }

  /**
   * A startup where every seat addressed can hear it: each seat of the count
   * gets `GameStart(copy of the board, its number)`, only the seat on turn
   * gets one `YourTurn` after it, and the loop starts. A seat past the count
   * hears nothing, or only `YourTurn` if it is the one on turn.
   */
  lemma StartupAnnounces<G, M>(rules: Game<G, M>, s: State<G, M>)
    requires s.chans.WellFormed() && s.status == Created
    requires forall j :: 0 <= j < rules.playerCount(s.game) ==> Live(s.chans.receiverDropped, j)
    requires Live(s.chans.receiverDropped, rules.turnOf(s.game))
    ensures var r := Startup(rules, s);
            var n := rules.playerCount(s.game);
            && n <= |s.chans.events|
            && r.status == Running
            && r.chans == s.chans.(events := r.chans.events)
            && |r.chans.events| == |s.chans.events|
            && forall j :: 0 <= j < |s.chans.events| ==>
                 r.chans.events[j] == s.chans.events[j]
                                      + (if j < n then [GameStart(s.game, j)] else [])
                                      + (if j == rules.turnOf(s.game) then [YourTurn] else [])
  {
    var n := rules.playerCount(s.game);
    if n > 0 {
      assert Live(s.chans.receiverDropped, n - 1);
    }
    BroadcastToAll(s.chans, Starting(s.game), n);
  }

  /**
   * A startup whose `GameStart` loop meets a seat that cannot hear it: the
   * `.unwrap()` panics at the first such seat, the seats before it keep their
   * `GameStart`, and no seat gets `YourTurn`.
   */
  lemma StartupToClosedSeat<G, M>(rules: Game<G, M>, s: State<G, M>, j: nat)
    requires s.chans.WellFormed() && s.status == Created
    requires j < rules.playerCount(s.game) && !Live(s.chans.receiverDropped, j)
    ensures var r := Startup(rules, s);
            var k := FirstUnreachable(s.chans.receiverDropped, 0, rules.playerCount(s.game));
            && k <= j && k <= |s.chans.events|
            && r.game == s.game
            && r.status == Failed(AsPanic(Undeliverable(|s.chans.events|, k)))
            && r.chans == s.chans.(events := r.chans.events)
            && (forall i :: 0 <= i < k ==> r.chans.events[i] == s.chans.events[i] + [GameStart(s.game, i)])
            && (forall i :: k <= i < |s.chans.events| ==> r.chans.events[i] == s.chans.events[i])
  {
    BroadcastFromExact(s.chans, Starting(s.game), 0, rules.playerCount(s.game));
  }

  /**
   * A startup whose `GameStart` loop reaches every seat but whose `YourTurn`
   * cannot be delivered to the seat on turn: the `.unwrap()` panics, and
   * every seat keeps its `GameStart` and nothing more.
   */
  lemma StartupTurnSeatClosed<G, M>(rules: Game<G, M>, s: State<G, M>)
    requires s.chans.WellFormed() && s.status == Created
    requires forall i :: 0 <= i < rules.playerCount(s.game) ==> Live(s.chans.receiverDropped, i)
    requires !Live(s.chans.receiverDropped, rules.turnOf(s.game))
    ensures var r := Startup(rules, s);
            var n := rules.playerCount(s.game);
            && n <= |s.chans.events|
            && r.game == s.game
            && r.status == Failed(AsPanic(Undeliverable(|s.chans.events|, rules.turnOf(s.game))))
            && r.chans == s.chans.(events := r.chans.events)
            && (forall i :: 0 <= i < n ==> r.chans.events[i] == s.chans.events[i] + [GameStart(s.game, i)])
            && (forall i :: n <= i < |s.chans.events| ==> r.chans.events[i] == s.chans.events[i])
  {
    var n := rules.playerCount(s.game);
    if n > 0 {
      assert Live(s.chans.receiverDropped, n - 1);
    }
    BroadcastToAll(s.chans, Starting(s.game), n);
  }

  /** The engine is parked in `recv()` on the on-turn seat's empty, connected move channel. */
  predicate Waiting<G, M>(rules: Game<G, M>, s: State<G, M>)
    requires s.chans.WellFormed()
  {
    var t := rules.turnOf(s.game);
    t < |s.chans.moves| && |s.chans.moves[t]| == 0 && !s.chans.sendersDropped[t]
  }

  /** The move channels after the on-turn seat's next move has been taken, if there is one. */
  function AfterRecv<M>(moves: seq<seq<M>>, t: nat): seq<seq<M>> {
    if t < |moves| && |moves[t]| > 0 then moves[t := moves[t][1..]] else moves
  }

  /**
   * One turn of the dispatch loop: receive a move from the seat on turn,
   * validate it, and either reject it or broadcast it, apply it and announce
   * the next turn or the end of the game.
   */
  function Step<G, M>(rules: Game<G, M>, s: State<G, M>): (r: State<G, M>)
    requires s.chans.WellFormed() && s.status == Running
    ensures r.chans.WellFormed() && |r.chans.events| == |s.chans.events|
    ensures r.chans.receiverDropped == s.chans.receiverDropped
    ensures r.chans.sendersDropped == s.chans.sendersDropped
    ensures r.chans.moves == AfterRecv(s.chans.moves, rules.turnOf(s.game))
    ensures Waiting(rules, s) ==> r == s
    ensures var t := rules.turnOf(s.game);
            t >= |s.chans.moves| ==> r == s.(status := Failed(IndexPanic(t)))
    ensures var t := rules.turnOf(s.game);
            t < |s.chans.moves| && s.chans.moves[t] == [] && s.chans.sendersDropped[t] ==>
              r == s.(status := Failed(RecvError(t)))
    ensures r.status != Created
  {
    var g := s.game;
    var ch := s.chans;
    var t := rules.turnOf(g);
    if t >= |ch.moves| then State(g, ch, Failed(IndexPanic(t)))
    else if |ch.moves[t]| == 0 then
      if ch.sendersDropped[t] then State(g, ch, Failed(RecvError(t))) else s
    else
      var m := ch.moves[t][0];
      var ch1 := ch.(moves := ch.moves[t := ch.moves[t][1..]]);
      if rules.validateMove(g, m) then Accept(rules, g, ch1, m) else Reject(rules, g, ch1)
  }

  /**
   * A valid move: `MoveHappened` to every seat in ascending order, then
   * `apply_move`, then the announcements its result calls for.
   */
  function Accept<G, M>(rules: Game<G, M>, g: G, ch: SeatChannels<G, M>, m: M): (r: State<G, M>)
    requires ch.WellFormed()
    ensures r.chans.WellFormed() && |r.chans.events| == |ch.events|
    ensures r.chans == ch.(events := r.chans.events)
    ensures r.status != Created
  {
    var current := rules.turnOf(g);
    var (ch2, f2) := BroadcastFrom(ch, Moved(m), 0, rules.playerCount(g));
    if f2.Some? then State(g, ch2, Failed(f2.value))
    else Conclude(rules, current, rules.applyMove(g, m), ch2)
  }

  /**
   * After `apply_move` returned `applied`: on `Continue`, `ValidMove` to the
   * seat that was on turn before the move (`current`) and `YourTurn` to the
   * seat on turn now; on `Draw` or `Win`, `GameEnd` to every seat of the new
   * state's count, and the loop is over.
   */
  function Conclude<G, M>(rules: Game<G, M>, current: PlayerID, applied: (G, MoveResult), ch: SeatChannels<G, M>)
    : (r: State<G, M>)
    requires ch.WellFormed()
    ensures r.chans.WellFormed() && |r.chans.events| == |ch.events|
    ensures r.chans == ch.(events := r.chans.events)
    ensures r.game == applied.0 && r.status != Created
  {
    var (g', result) := applied;
    match result
    case Continue => Proceed(rules, current, g', ch)
    case Draw => Finish(rules, g', None, ch)
    case Win(p) => Finish(rules, g', Some(p), ch)
  }

  /** The game goes on: `ValidMove` to the mover `current`, then `YourTurn` to the seat on turn in `g`. */
  function Proceed<G, M>(rules: Game<G, M>, current: PlayerID, g: G, ch: SeatChannels<G, M>): (r: State<G, M>)
    requires ch.WellFormed()
    ensures r.chans.WellFormed() && |r.chans.events| == |ch.events|
    ensures r.chans == ch.(events := r.chans.events)
    ensures r.game == g && (r.status == Running || r.status.Failed?)
  {
    var (ch1, f1) := Send(ch, current, ValidMove);
    if f1.Some? then State(g, ch1, Failed(f1.value))
    else
      var (ch2, f2) := Send(ch1, rules.turnOf(g), YourTurn);
      State(g, ch2, if f2.Some? then Failed(f2.value) else Running)
  }

  /** The game is over: `GameEnd(winner)` to every seat of the count in `g`, and the loop ends. */
  function Finish<G, M>(rules: Game<G, M>, g: G, winner: Option<PlayerID>, ch: SeatChannels<G, M>): (r: State<G, M>)
    requires ch.WellFormed()
    ensures r.chans.WellFormed() && |r.chans.events| == |ch.events|
    ensures r.chans == ch.(events := r.chans.events)
    ensures r.game == g && (r.status == Finished || r.status.Failed?)
  {
    var (ch1, f1) := BroadcastFrom(ch, Ending(winner), 0, rules.playerCount(g));
    State(g, ch1, if f1.Some? then Failed(f1.value) else Finished)
  }

  /** An invalid move: `InvalidMove` to the seat on turn, and nothing else. */
  function Reject<G, M>(rules: Game<G, M>, g: G, ch: SeatChannels<G, M>): (r: State<G, M>)
    requires ch.WellFormed()
    ensures r.chans.WellFormed() && |r.chans.events| == |ch.events|
    ensures r.chans == ch.(events := r.chans.events)
    ensures r.game == g && r.status != Created
  {
    var (ch2, f2) := Send(ch, rules.turnOf(g), InvalidMove);
    State(g, ch2, if f2.Some? then Failed(f2.value) else Running)
  }

  /** The move the on-turn seat has at the head of its queue. */
  ghost predicate NextMoveIs<G, M>(rules: Game<G, M>, s: State<G, M>, m: M)
    requires s.chans.WellFormed()
  {
    var t := rules.turnOf(s.game);
    t < |s.chans.moves| && |s.chans.moves[t]| > 0 && s.chans.moves[t][0] == m
  }

  /**
   * A rejected move: exactly one `InvalidMove`, to the seat on turn; the game
   * is not touched, so the same seat stays on turn; no other seat hears of it.
   */
  lemma RejectedMove<G, M>(rules: Game<G, M>, s: State<G, M>, m: M)
    requires s.chans.WellFormed() && s.status == Running
    requires NextMoveIs(rules, s, m) && !rules.validateMove(s.game, m)
    ensures var r := Step(rules, s);
            var t := rules.turnOf(s.game);
            && r.game == s.game
            && rules.turnOf(r.game) == t
            && r.chans.events == (if Live(s.chans.receiverDropped, t) then s.chans.events[t := s.chans.events[t] + [InvalidMove]]
                                  else s.chans.events)
            && r.status == (if Live(s.chans.receiverDropped, t) then Running else Failed(SendError(t)))
  {
  }

  /** Every seat's event channel is open. */
  predicate AllOpen<G, M>(ch: SeatChannels<G, M>) {
    forall j :: 0 <= j < |ch.events| ==> Live(ch.receiverDropped, j)
  }

  /**
   * An accepted move the game continues after: every seat hears
   * `MoveHappened(m)` once, then the seat that moved (the one on turn before
   * `apply_move`) gets `ValidMove`, then the seat on turn after the move gets
   * `YourTurn`.
   */
  lemma AcceptedMoveContinues<G, M>(rules: Game<G, M>, s: State<G, M>, m: M)
    requires s.chans.WellFormed() && s.status == Running && AllOpen(s.chans)
    requires NextMoveIs(rules, s, m) && rules.validateMove(s.game, m)
    requires rules.playerCount(s.game) == |s.chans.events|
    requires rules.applyMove(s.game, m).1 == Continue
    requires rules.turnOf(rules.applyMove(s.game, m).0) < |s.chans.events|
    ensures var r := Step(rules, s);
            var g' := rules.applyMove(s.game, m).0;
            && r.status == Running
            && r.game == g'
            && forall j :: 0 <= j < |s.chans.events| ==>
                 r.chans.events[j] == s.chans.events[j] + [MoveHappened(m)]
                                      + (if j == rules.turnOf(s.game) then [ValidMove] else [])
                                      + (if j == rules.turnOf(g') then [YourTurn] else [])
  {
    var t := rules.turnOf(s.game);
    var ch1 := s.chans.(moves := s.chans.moves[t := s.chans.moves[t][1..]]);
    BroadcastToAll(ch1, Moved(m), rules.playerCount(s.game));
    var ch2 := BroadcastFrom(ch1, Moved(m), 0, rules.playerCount(s.game)).0;
    var g' := rules.applyMove(s.game, m).0;
    assert Live(ch2.receiverDropped, t);
    assert Live(ch2.receiverDropped, rules.turnOf(g'));
  }

  /**
   * An accepted move that ends the game, when every seat addressed can hear
   * it: the seats of the count before the move hear `MoveHappened(m)`, the
   * seats of the count after the move then hear `GameEnd(w)`, once each, and
   * nothing else; the loop is over. A seat past the count after the move
   * never hears of the end.
   */
  lemma AcceptedMoveEnds<G, M>(rules: Game<G, M>, s: State<G, M>, m: M)
    requires s.chans.WellFormed() && s.status == Running
    requires NextMoveIs(rules, s, m) && rules.validateMove(s.game, m)
    requires rules.applyMove(s.game, m).1 != Continue
    requires forall i :: 0 <= i < rules.playerCount(s.game) ==> Live(s.chans.receiverDropped, i)
    requires forall i :: 0 <= i < rules.playerCount(rules.applyMove(s.game, m).0) ==> Live(s.chans.receiverDropped, i)
    ensures var r := Step(rules, s);
            var (g', result) := rules.applyMove(s.game, m);
            var w := if result.Win? then Some(result.winner) else None;
            var n := rules.playerCount(s.game);
            var n' := rules.playerCount(g');
            && n <= |s.chans.events| && n' <= |s.chans.events|
            && r.status == Finished
            && r.game == g'
            && forall i :: 0 <= i < |s.chans.events| ==>
                 r.chans.events[i] == s.chans.events[i]
                                      + (if i < n then [MoveHappened(m)] else [])
                                      + (if i < n' then [GameEnd(w)] else [])
  {
    var t := rules.turnOf(s.game);
    var n := rules.playerCount(s.game);
    var ch1 := s.chans.(moves := s.chans.moves[t := s.chans.moves[t][1..]]);
    if n > 0 {
      assert Live(s.chans.receiverDropped, n - 1);
    }
    BroadcastToAll(ch1, Moved(m), n);
    var ch2 := BroadcastFrom(ch1, Moved(m), 0, n).0;
    var (g', result) := rules.applyMove(s.game, m);
    var w := if result.Win? then Some(result.winner) else None;
    var n' := rules.playerCount(g');
    if n' > 0 {
      assert Live(s.chans.receiverDropped, n' - 1);
    }
    BroadcastToAll(ch2, Ending(w), n');
  }

  /**
   * An accepted move that some seat can no longer hear: the `MoveHappened`
   * broadcast stops at the first such seat with an error, the seats before it
   * keep the event they were sent, and `apply_move` never runs.
   */
  lemma AcceptedMoveToClosedSeat<G, M>(rules: Game<G, M>, s: State<G, M>, m: M, j: nat)
    requires s.chans.WellFormed() && s.status == Running
    requires NextMoveIs(rules, s, m) && rules.validateMove(s.game, m)
    requires j < rules.playerCount(s.game) && !Live(s.chans.receiverDropped, j)
    ensures var r := Step(rules, s);
            var k := FirstUnreachable(s.chans.receiverDropped, 0, rules.playerCount(s.game));
            && k <= j && k <= |s.chans.events|
            && r.game == s.game
            && r.status == Failed(Undeliverable(|s.chans.events|, k))
            && (forall i :: 0 <= i < k ==> r.chans.events[i] == s.chans.events[i] + [MoveHappened(m)])
            && (forall i :: k <= i < |s.chans.events| ==> r.chans.events[i] == s.chans.events[i])
  {
    var t := rules.turnOf(s.game);
    var n := rules.playerCount(s.game);
    var ch1 := s.chans.(moves := s.chans.moves[t := s.chans.moves[t][1..]]);
    BroadcastFromExact(ch1, Moved(m), 0, n);
  }

  /**
   * An accepted move the game continues after, once `MoveHappened` reached
   * every seat: `ValidMove` goes to the mover if it can hear it, and only
   * then `YourTurn` to the new seat on turn if that one can; the first send
   * that cannot be delivered ends the loop with its error.
   */
  lemma ContinueSendFailures<G, M>(rules: Game<G, M>, s: State<G, M>, m: M)
    requires s.chans.WellFormed() && s.status == Running
    requires NextMoveIs(rules, s, m) && rules.validateMove(s.game, m)
    requires forall i :: 0 <= i < rules.playerCount(s.game) ==> Live(s.chans.receiverDropped, i)
    requires rules.applyMove(s.game, m).1 == Continue
    ensures var r := Step(rules, s);
            var dropped := s.chans.receiverDropped;
            var t := rules.turnOf(s.game);
            var t' := rules.turnOf(rules.applyMove(s.game, m).0);
            var n := rules.playerCount(s.game);
            && n <= |s.chans.events|
            && r.game == rules.applyMove(s.game, m).0
            && r.status == (if !Live(dropped, t) then Failed(Undeliverable(|s.chans.events|, t))
                            else if !Live(dropped, t') then Failed(Undeliverable(|s.chans.events|, t'))
                            else Running)
            && forall i :: 0 <= i < |s.chans.events| ==>
                 r.chans.events[i] == s.chans.events[i]
                                      + (if i < n then [MoveHappened(m)] else [])
                                      + (if i == t && Live(dropped, t) then [ValidMove] else [])
                                      + (if i == t' && Live(dropped, t) && Live(dropped, t') then [YourTurn] else [])
  {
    var t := rules.turnOf(s.game);
    var n := rules.playerCount(s.game);
    var ch1 := s.chans.(moves := s.chans.moves[t := s.chans.moves[t][1..]]);
    if n > 0 {
      assert Live(s.chans.receiverDropped, n - 1);
    }
    BroadcastToAll(ch1, Moved(m), n);
  }

  /**
   * An accepted move that ends the game, once `MoveHappened` reached every
   * seat, when some seat of the new count cannot hear `GameEnd`: the loop
   * ends with the error of the first such seat, the seats before it keep
   * their `GameEnd`, and the board is the one `apply_move` produced.
   */
  lemma EndToClosedSeat<G, M>(rules: Game<G, M>, s: State<G, M>, m: M, j: nat)
    requires s.chans.WellFormed() && s.status == Running
    requires NextMoveIs(rules, s, m) && rules.validateMove(s.game, m)
    requires forall i :: 0 <= i < rules.playerCount(s.game) ==> Live(s.chans.receiverDropped, i)
    requires rules.applyMove(s.game, m).1 != Continue
    requires j < rules.playerCount(rules.applyMove(s.game, m).0) && !Live(s.chans.receiverDropped, j)
    ensures var r := Step(rules, s);
            var (g', result) := rules.applyMove(s.game, m);
            var w := if result.Win? then Some(result.winner) else None;
            var n := rules.playerCount(s.game);
            var k := FirstUnreachable(s.chans.receiverDropped, 0, rules.playerCount(g'));
            && n <= |s.chans.events| && k <= j && k <= |s.chans.events|
            && r.game == g'
            && r.status == Failed(Undeliverable(|s.chans.events|, k))
            && forall i :: 0 <= i < |s.chans.events| ==>
                 r.chans.events[i] == s.chans.events[i]
                                      + (if i < n then [MoveHappened(m)] else [])
                                      + (if i < k then [GameEnd(w)] else [])
  {
    var t := rules.turnOf(s.game);
    var n := rules.playerCount(s.game);
    var ch1 := s.chans.(moves := s.chans.moves[t := s.chans.moves[t][1..]]);
    if n > 0 {
      assert Live(s.chans.receiverDropped, n - 1);
    }
    BroadcastToAll(ch1, Moved(m), n);
    var ch2 := BroadcastFrom(ch1, Moved(m), 0, n).0;
    var (g', result) := rules.applyMove(s.game, m);
    var w := if result.Win? then Some(result.winner) else None;
    BroadcastFromExact(ch2, Ending(w), 0, rules.playerCount(g'));
  }

  /** The number of moves queued on all move channels together. */
  function Pending<M>(moves: seq<seq<M>>): nat {
    if |moves| == 0 then 0 else |moves[0]| + Pending(moves[1..])
  }

  /** Taking one move off a non-empty queue leaves one move fewer pending. */
  lemma {:induction false} PendingAfterRecv<M>(moves: seq<seq<M>>, t: nat)
    requires t < |moves| && |moves[t]| > 0
    ensures Pending(AfterRecv(moves, t)) == Pending(moves) - 1
  {
    var after := moves[t := moves[t][1..]];
    if t == 0 {
      assert after[1..] == moves[1..];
    } else {
      PendingAfterRecv(moves[1..], t - 1);
      assert after[1..] == moves[1..][t - 1 := moves[t][1..]];
    }
  }

  /**
   * The dispatch loop, run until the game ends, the engine fails, or the
   * engine would block in `recv()` on the seat on turn. Every turn that does
   * not end the loop consumes one queued move, so the queued moves bound it.
   */
  function Run<G, M>(rules: Game<G, M>, s: State<G, M>): (r: State<G, M>)
    requires s.chans.WellFormed()
    ensures r.chans.WellFormed() && |r.chans.events| == |s.chans.events|
    ensures r.status == Running ==> Waiting(rules, r)
    ensures s.status != Running ==> r == s
    ensures s.status != Created ==> r.status != Created
    decreases Pending(s.chans.moves)
  {
    if s.status != Running || Waiting(rules, s) then s
    else
      var s' := Step(rules, s);
      if s'.status != Running then s'
      else
        PendingAfterRecv(s.chans.moves, rules.turnOf(s.game));
        Run(rules, s')
  }

  /** The whole engine thread: the startup sequence, then the dispatch loop. */
  function MainThread<G, M>(rules: Game<G, M>, s: State<G, M>): (r: State<G, M>)
    requires s.chans.WellFormed() && s.status == Created
    ensures r.chans.WellFormed() && r.status != Created
    ensures r.status == Running ==> Waiting(rules, r)
  {
    Run(rules, Startup(rules, s))
  }

  /** None of the events is `OpponentQuit`. */
  predicate NoOpponentQuit<G, M>(es: seq<GameEvent<G, M>>) {
    forall k :: 0 <= k < |es| ==> !es[k].OpponentQuit?
  }

  /**
   * Between two states of the channels, every seat's event history only grew
   * at its end, and what was added holds no `OpponentQuit`.
   */
  ghost predicate OnlyAppends<G, M>(before: SeatChannels<G, M>, after: SeatChannels<G, M>) {
    && |after.events| == |before.events|
    && forall j :: 0 <= j < |before.events| ==>
         && before.events[j] <= after.events[j]
         && NoOpponentQuit(after.events[j][|before.events[j]|..])
  }

  lemma OnlyAppendsTransitive<G, M>(a: SeatChannels<G, M>, b: SeatChannels<G, M>, c: SeatChannels<G, M>)
    requires OnlyAppends(a, b) && OnlyAppends(b, c)
    ensures OnlyAppends(a, c)
  {
    forall j | 0 <= j < |a.events|
      ensures NoOpponentQuit(c.events[j][|a.events[j]|..])
    {
      var x, y, z := a.events[j], b.events[j], c.events[j];
      assert z[|x|..] == y[|x|..] + z[|y|..];
    }
  }

  /** A broadcast only appends, and never `OpponentQuit`. */
  lemma BroadcastOnlyAppends<G, M>(ch: SeatChannels<G, M>, a: Announcement<G, M>, count: PlayerID)
    requires ch.WellFormed()
    ensures OnlyAppends(ch, BroadcastFrom(ch, a, 0, count).0)
  {
    BroadcastFromExact(ch, a, 0, count);
    var after := BroadcastFrom(ch, a, 0, count).0;
    forall j | 0 <= j < |ch.events|
      ensures NoOpponentQuit(after.events[j][|ch.events[j]|..])
    {
      var k := FirstUnreachable(ch.receiverDropped, 0, count);
      if j < k {
        assert after.events[j][|ch.events[j]|..] == [EventFor(a, j)];
      } else {
        assert after.events[j][|ch.events[j]|..] == [];
      }
    }
  }

  /** One send of an event other than `OpponentQuit` only appends. */
  lemma SendOnlyAppends<G, M>(ch: SeatChannels<G, M>, seat: nat, e: GameEvent<G, M>)
    requires ch.WellFormed() && !e.OpponentQuit?
    ensures OnlyAppends(ch, Send(ch, seat, e).0)
  {
    var after := Send(ch, seat, e).0;
    forall j | 0 <= j < |ch.events|
      ensures NoOpponentQuit(after.events[j][|ch.events[j]|..])
    {
      if j == seat && Live(ch.receiverDropped, seat) {
        assert after.events[j][|ch.events[j]|..] == [e];
      } else {
        assert after.events[j][|ch.events[j]|..] == [];
      }
    }
  }

  /** Startup only appends to the event histories; it never sends `OpponentQuit`. */
  lemma StartupOnlyAppends<G, M>(rules: Game<G, M>, s: State<G, M>)
    requires s.chans.WellFormed() && s.status == Created
    ensures OnlyAppends(s.chans, Startup(rules, s).chans)
  {
    var g := s.game;
    var ch1 := BroadcastFrom(s.chans, Starting(g), 0, rules.playerCount(g)).0;
    BroadcastOnlyAppends(s.chans, Starting(g), rules.playerCount(g));
    SendOnlyAppends(ch1, rules.turnOf(g), YourTurn);
    OnlyAppendsTransitive(s.chans, ch1, Send(ch1, rules.turnOf(g), YourTurn).0);
  }

  /** One turn only appends to the event histories; it never sends `OpponentQuit`. */
  lemma StepOnlyAppends<G, M>(rules: Game<G, M>, s: State<G, M>)
    requires s.chans.WellFormed() && s.status == Running
    ensures OnlyAppends(s.chans, Step(rules, s).chans)
  {
    var g := s.game;
    var ch := s.chans;
    var t := rules.turnOf(g);
    assert OnlyAppends(ch, ch);
    if t < |ch.moves| && |ch.moves[t]| > 0 {
      var m := ch.moves[t][0];
      var ch1 := ch.(moves := ch.moves[t := ch.moves[t][1..]]);
      assert OnlyAppends(ch, ch1);
      if rules.validateMove(g, m) {
        var (ch2, f2) := BroadcastFrom(ch1, Moved(m), 0, rules.playerCount(g));
        BroadcastOnlyAppends(ch1, Moved(m), rules.playerCount(g));
        OnlyAppendsTransitive(ch, ch1, ch2);
        if f2.None? {
          var (g', result) := rules.applyMove(g, m);
          match result
          case Continue =>
            var (ch3, f3) := Send(ch2, t, ValidMove);
            SendOnlyAppends(ch2, t, ValidMove);
            OnlyAppendsTransitive(ch, ch2, ch3);
            SendOnlyAppends(ch3, rules.turnOf(g'), YourTurn);
            OnlyAppendsTransitive(ch, ch3, Send(ch3, rules.turnOf(g'), YourTurn).0);
          case Draw =>
            BroadcastOnlyAppends(ch2, Ending(None), rules.playerCount(g'));
            OnlyAppendsTransitive(ch, ch2, BroadcastFrom(ch2, Ending(None), 0, rules.playerCount(g')).0);
          case Win(p) =>
            BroadcastOnlyAppends(ch2, Ending(Some(p)), rules.playerCount(g'));
            OnlyAppendsTransitive(ch, ch2, BroadcastFrom(ch2, Ending(Some(p)), 0, rules.playerCount(g')).0);
        }
      } else {
        SendOnlyAppends(ch1, t, InvalidMove);
        OnlyAppendsTransitive(ch, ch1, Send(ch1, t, InvalidMove).0);
      }
    }
  }

  /** The loop as a whole only appends to the event histories and never sends `OpponentQuit`. */
  lemma {:induction false} RunOnlyAppends<G, M>(rules: Game<G, M>, s: State<G, M>)
    requires s.chans.WellFormed()
    ensures OnlyAppends(s.chans, Run(rules, s).chans)
    decreases Pending(s.chans.moves)
  {
    assert OnlyAppends(s.chans, s.chans);
    if s.status == Running && !Waiting(rules, s) {
      var s' := Step(rules, s);
      StepOnlyAppends(rules, s);
      if s'.status == Running {
        PendingAfterRecv(s.chans.moves, rules.turnOf(s.game));
        RunOnlyAppends(rules, s');
        OnlyAppendsTransitive(s.chans, s'.chans, Run(rules, s').chans);
      }
    }
  }
}
