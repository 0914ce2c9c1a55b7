/**
 * The engine as the source builds it: `new_game` makes one move channel and
 * one event channel per seat, hands the participant halves (`AgentCore`) to
 * the caller and keeps the engine halves (`AntiCore`); the engine then runs
 * the startup sequence and the dispatch loop, mutating its game state in
 * place and sending on the shared channel objects. Every method is proved
 * to do exactly what the matching function of `Dispatch` says.
 */
module TurnEngine {
  import opened GameContract
  import opened Channels
  import Dispatch

  /** The participant's half of a seat's channel pair: it sends moves and receives events. */
  datatype AgentCore<G, M> = AgentCore(moveChannel: MoveChannel<M>, eventChannel: EventChannel<GameEvent<G, M>>)

  /** The engine's half of a seat's channel pair: it receives moves and sends events. */
  datatype AntiCore<G, M> = AntiCore(moveChannel: MoveChannel<M>, eventChannel: EventChannel<GameEvent<G, M>>)

  class Engine<G, M> {
    const rules: Game<G, M>
    /** Seat i's engine half is `antiCores[i]`. */
    const antiCores: seq<AntiCore<G, M>>
    /** The authoritative game state, mutated in place by `apply_move`. */
    var game: G
    var status: Dispatch.Status

    ghost const EventRepr: set<EventChannel<GameEvent<G, M>>>
    ghost const MoveRepr: set<MoveChannel<M>>

    /** Every seat has channels of its own. */
    ghost predicate Valid() {
      && EventRepr == (set i | 0 <= i < |antiCores| :: antiCores[i].eventChannel)
      && MoveRepr == (set i | 0 <= i < |antiCores| :: antiCores[i].moveChannel)
      && (forall i, j :: 0 <= i < j < |antiCores| ==> antiCores[i].eventChannel != antiCores[j].eventChannel)
      && (forall i, j :: 0 <= i < j < |antiCores| ==> antiCores[i].moveChannel != antiCores[j].moveChannel)
    }

    /** The channels of every seat, as one value. */
    ghost function Chans(): Dispatch.SeatChannels<G, M>
      reads EventRepr, MoveRepr
      requires Valid()
    {
      var n := |antiCores|;
      Dispatch.SeatChannels(
        seq(n, i requires 0 <= i < n reads EventRepr => antiCores[i].eventChannel.sent),
        seq(n, i requires 0 <= i < n reads EventRepr => antiCores[i].eventChannel.receiverDropped),
        seq(n, i requires 0 <= i < n reads MoveRepr => antiCores[i].moveChannel.queue),
        seq(n, i requires 0 <= i < n reads MoveRepr => antiCores[i].moveChannel.sendersDropped))
    }

    /** The whole state of the engine thread, as one value. */
    ghost function State(): Dispatch.State<G, M>
      reads this, EventRepr, MoveRepr
      requires Valid()
    {
      Dispatch.State(game, Chans(), status)
    }

    constructor (rules: Game<G, M>, antiCores: seq<AntiCore<G, M>>)
      requires forall i, j :: 0 <= i < j < |antiCores| ==> antiCores[i].eventChannel != antiCores[j].eventChannel
      requires forall i, j :: 0 <= i < j < |antiCores| ==> antiCores[i].moveChannel != antiCores[j].moveChannel
      ensures Valid() && this.rules == rules && this.antiCores == antiCores
      ensures game == rules.defaultBoard && status == Dispatch.Created
    {
      this.rules := rules;
      this.antiCores := antiCores;
      game := rules.defaultBoard;
      status := Dispatch.Created;
      EventRepr := set i | 0 <= i < |antiCores| :: antiCores[i].eventChannel;
      MoveRepr := set i | 0 <= i < |antiCores| :: antiCores[i].moveChannel;
    }

    /** `anti_cores[seat].event_channel.send(e)`. */
    method SendTo(seat: nat, e: GameEvent<G, M>) returns (f: Option<Dispatch.Failure>)
      requires Valid()
      modifies EventRepr
      ensures (Chans(), f) == Dispatch.Send(old(Chans()), seat, e)
    {
      if seat >= |antiCores| {
        return Some(Dispatch.IndexPanic(seat));
      }
      var ok := antiCores[seat].eventChannel.Send(e);
      f := if ok then None else Some(Dispatch.SendError(seat));
      ghost var before := old(Chans());
      assert ok ==> Chans().events == before.events[seat := before.events[seat] + [e]];
      assert !ok ==> Chans().events == before.events;
      assert Chans().receiverDropped == before.receiverDropped;
      assert Chans().moves == before.moves;
      assert Chans().sendersDropped == before.sendersDropped;
    }

    /** `for i in 0..count { anti_cores[i].event_channel.send(..)?; }`. */
    method Broadcast(a: Dispatch.Announcement<G, M>, count: PlayerID) returns (f: Option<Dispatch.Failure>)
      requires Valid()
      modifies EventRepr
      ensures (Chans(), f) == Dispatch.BroadcastFrom(old(Chans()), a, 0, count)
    {
      var i: nat := 0;
      while i < count
        invariant i <= count
        invariant Dispatch.BroadcastFrom(Chans(), a, i, count) == Dispatch.BroadcastFrom(old(Chans()), a, 0, count)
      {
        f := SendTo(i, Dispatch.EventFor(a, i));
        if f.Some? {
          return;
        }
        i := i + 1;
      }
      f := None;
    }

    /** `anti_cores[seat].move_channel.recv()`, which would block on an empty, connected channel. */
    method ReceiveFrom(seat: nat) returns (r: RecvResult<M>)
      requires Valid() && seat < |antiCores|
      modifies MoveRepr
      ensures var before := old(Chans());
              if |before.moves[seat]| > 0 then
                r == Received(before.moves[seat][0]) && Chans() == before.(moves := Dispatch.AfterRecv(before.moves, seat))
              else
                Chans() == before && r == if before.sendersDropped[seat] then Disconnected else Empty
    {
      r := antiCores[seat].moveChannel.Recv();
      ghost var before := old(Chans());
      if |before.moves[seat]| > 0 {
        assert Chans().moves == before.moves[seat := before.moves[seat][1..]];
      } else {
        assert Chans().moves == before.moves;
      }
    }

    /**
     * The startup sequence: `GameStart` with a copy of the game to every
     * seat, then `YourTurn` to the seat on turn. A failed send panics.
     */
    method Start()
      requires Valid() && status == Dispatch.Created
      modifies this, EventRepr
      ensures State() == Dispatch.Startup(rules, old(State()))
    {
      var f := Broadcast(Dispatch.Starting(game), rules.playerCount(game));
      if f.Some? {
        status := Dispatch.Failed(Dispatch.AsPanic(f.value));
        return;
      }
      f := SendTo(rules.turnOf(game), YourTurn);
      status := if f.Some? then Dispatch.Failed(Dispatch.AsPanic(f.value)) else Dispatch.Running;
    }

    /**
     * One turn of the dispatch loop. `blocked` says the seat on turn has no
     * move queued and a live sender, so the source would be parked in `recv()`;
     * nothing has changed then.
     */
    method Step() returns (blocked: bool)
      requires Valid() && status == Dispatch.Running
      modifies this, EventRepr, MoveRepr
      ensures State() == Dispatch.Step(rules, old(State()))
      ensures blocked == Dispatch.Waiting(rules, old(State()))
    {
      blocked := false;
      var t := rules.turnOf(game);
      if t >= |antiCores| {
        status := Dispatch.Failed(Dispatch.IndexPanic(t));
        return;
      }
      var received := ReceiveFrom(t);
      match received
      case Empty =>
        blocked := true;
      case Disconnected =>
        status := Dispatch.Failed(Dispatch.RecvError(t));
      case Received(qmove) =>
        if rules.validateMove(game, qmove) {
          AcceptMove(qmove);
        } else {
          RejectMove();
        }
    }

    /** The branch of the loop for a valid move. */
    method AcceptMove(qmove: M)
      requires Valid()
      modifies this, EventRepr
      ensures State() == Dispatch.Accept(rules, old(game), old(Chans()), qmove)
    {
      var currentPlayer := rules.turnOf(game);
      var f := Broadcast(Dispatch.Moved(qmove), rules.playerCount(game));
      if f.Some? {
        status := Dispatch.Failed(f.value);
        return;
      }
      var (next, result) := rules.applyMove(game, qmove);
      game := next;
      Conclude(currentPlayer, result);
    }

    /** What follows `apply_move`, whose result was `result` and whose new state is `game`. */
    method Conclude(currentPlayer: PlayerID, result: MoveResult)
      requires Valid()
      modifies this, EventRepr
      ensures State() == Dispatch.Conclude(rules, currentPlayer, (old(game), result), old(Chans()))
    {
      match result
      case Continue => Proceed(currentPlayer);
      case Draw => Finish(None);
      case Win(side) => Finish(Some(side));
    }

    /** The game goes on: `ValidMove` to the mover, then `YourTurn` to the seat now on turn. */
    method Proceed(currentPlayer: PlayerID)
      requires Valid()
      modifies this, EventRepr
      ensures State() == Dispatch.Proceed(rules, currentPlayer, old(game), old(Chans()))
    {
      var f := SendTo(currentPlayer, ValidMove);
      if f.Some? {
        status := Dispatch.Failed(f.value);
        return;
      }
      f := SendTo(rules.turnOf(game), YourTurn);
      status := if f.Some? then Dispatch.Failed(f.value) else Dispatch.Running;
    }

    /** The game is over: `GameEnd(winner)` to every seat, and the loop ends. */
    method Finish(winner: Option<PlayerID>)
      requires Valid()
      modifies this, EventRepr
      ensures State() == Dispatch.Finish(rules, old(game), winner, old(Chans()))
    {
      var f := Broadcast(Dispatch.Ending(winner), rules.playerCount(game));
      status := if f.Some? then Dispatch.Failed(f.value) else Dispatch.Finished;
    }

    /** The branch of the loop for an invalid move. */
    method RejectMove()
      requires Valid()
      modifies this, EventRepr
      ensures State() == Dispatch.Reject(rules, old(game), old(Chans()))
    {
      var f := SendTo(rules.turnOf(game), InvalidMove);
      status := if f.Some? then Dispatch.Failed(f.value) else Dispatch.Running;
    }

    /**
     * The dispatch loop: turns until the game ends, the engine fails, or the
     * seat on turn has nothing queued (where the source blocks).
     */
    method Run()
      requires Valid()
      modifies this, EventRepr, MoveRepr
      ensures State() == Dispatch.Run(rules, old(State()))
    {
      var blocked := false;
      while status == Dispatch.Running && !blocked
        invariant blocked ==> status == Dispatch.Running && Dispatch.Waiting(rules, State())
        invariant Dispatch.Run(rules, State()) == Dispatch.Run(rules, old(State()))
        decreases if status == Dispatch.Running && !blocked then 1 else 0, Dispatch.Pending(Chans().moves)
      {
        ghost var before := State();
        blocked := Step();
        if status == Dispatch.Running && !blocked {
          Dispatch.PendingAfterRecv(before.chans.moves, rules.turnOf(before.game));
        }
      }
    }
    /** The engine thread: the startup sequence, then the dispatch loop. */
    method MainThread()
      requires Valid() && status == Dispatch.Created
      modifies this, EventRepr, MoveRepr
      ensures State() == Dispatch.MainThread(rules, old(State()))
    {
      Start();
      Run();
    }
  }

  /**
   * `new_game`: one fresh move channel and one fresh event channel per seat
   * of the default board; seat i's participant half and engine half are the
   * two ends of the same two channels.
   */
  method NewGame<G, M>(rules: Game<G, M>) returns (cores: seq<AgentCore<G, M>>, engine: Engine<G, M>)
    ensures |cores| == rules.playerCount(rules.defaultBoard)
    ensures engine.Valid() && engine.rules == rules && |engine.antiCores| == |cores|
    ensures forall i :: 0 <= i < |cores| ==>
              && cores[i].moveChannel == engine.antiCores[i].moveChannel
              && cores[i].eventChannel == engine.antiCores[i].eventChannel
    ensures fresh(engine) && fresh(engine.EventRepr) && fresh(engine.MoveRepr)
    ensures engine.State() == Dispatch.State(rules.defaultBoard, Dispatch.FreshChannels(|cores|), Dispatch.Created)
  {
    var game := rules.defaultBoard;
    var count := rules.playerCount(game);
    var channels := OpenChannels<G, M>(count);
    cores := [];
    var antiCores: seq<AntiCore<G, M>> := [];
    var i := 0;
    while i < count
      invariant i <= count && |cores| == i && |antiCores| == i
      invariant forall k :: 0 <= k < i ==>
                  && cores[k] == AgentCore(channels[k].0, channels[k].1)
                  && antiCores[k] == AntiCore(channels[k].0, channels[k].1)
    {
      cores := cores + [AgentCore(channels[i].0, channels[i].1)];
      antiCores := antiCores + [AntiCore(channels[i].0, channels[i].1)];
      i := i + 1;
    }
    engine := new Engine(rules, antiCores);
    assert engine.Chans() == Dispatch.FreshChannels(count);
  }

  /** The first fold of `new_game`: `count` fresh, distinct move and event channels, oldest seat first. */
  method OpenChannels<G, M>(count: nat) returns (channels: seq<(MoveChannel<M>, EventChannel<GameEvent<G, M>>)>)
    ensures |channels| == count
    ensures forall k :: 0 <= k < count ==> fresh(channels[k].0) && fresh(channels[k].1)
    ensures forall k :: 0 <= k < count ==>
              channels[k].0.queue == [] && !channels[k].0.sendersDropped
              && channels[k].1.sent == [] && !channels[k].1.receiverDropped
    ensures forall k, l :: 0 <= k < l < count ==> channels[k].0 != channels[l].0 && channels[k].1 != channels[l].1
  {
    channels := [];
    while |channels| < count
      invariant |channels| <= count
      invariant forall k :: 0 <= k < |channels| ==> fresh(channels[k].0) && fresh(channels[k].1)
      invariant forall k :: 0 <= k < |channels| ==>
                  channels[k].0.queue == [] && !channels[k].0.sendersDropped
                  && channels[k].1.sent == [] && !channels[k].1.receiverDropped
      invariant forall k, l :: 0 <= k < l < |channels| ==> channels[k].0 != channels[l].0 && channels[k].1 != channels[l].1
    {
      var moveChannel := new MoveChannel<M>();
      var eventChannel := new EventChannel<GameEvent<G, M>>();
      channels := channels + [(moveChannel, eventChannel)];
    }
  }
}
