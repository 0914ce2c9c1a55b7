/**
 * The turn protocol as one seat perceives it through its events, and the
 * proof that the engine keeps every seat on it: exactly the seat the game
 * says is on turn is on turn, every seat hears `GameStart` first and exactly
 * once, and once the game has ended every seat has heard `GameEnd` exactly
 * once, as its last event.
 */
module Protocol {
  import opened GameContract
  import opened Dispatch

  /** Where a seat is, judged only by the events it has received. */
  datatype Phase = AwaitingStart | AwaitingTurn | OnTurn | Ended | Violated

  /** How one event moves seat `seat` along; anything out of order is a violation. */
  function Next<G, M>(p: Phase, seat: nat, e: GameEvent<G, M>): Phase {
    match e
    case GameStart(_, i) => if p == AwaitingStart && i == seat then AwaitingTurn else Violated
    case MoveHappened(_) => if p == AwaitingTurn || p == OnTurn then p else Violated
    case YourTurn => if p == AwaitingTurn then OnTurn else Violated
    case ValidMove => if p == OnTurn then AwaitingTurn else Violated
    case InvalidMove => if p == OnTurn then OnTurn else Violated
    case OpponentQuit => Violated
    case GameEnd(_) => if p == AwaitingTurn || p == OnTurn then Ended else Violated
  }

  /** The phase seat `seat` is in after receiving `log`. */
  function PhaseOf<G, M>(seat: nat, log: seq<GameEvent<G, M>>): Phase {
    if |log| == 0 then AwaitingStart else Next(PhaseOf(seat, log[..|log| - 1]), seat, log[|log| - 1])
  }

  lemma PhaseOfAppend<G, M>(seat: nat, log: seq<GameEvent<G, M>>, e: GameEvent<G, M>)
    ensures PhaseOf(seat, log + [e]) == Next(PhaseOf(seat, log), seat, e)
  {
    assert (log + [e])[..|log|] == log;
  }

  /** Being in the game: `GameStart` for this seat came first and only once, and no `GameEnd` has come. */
  lemma {:induction false} PlayingLog<G, M>(seat: nat, log: seq<GameEvent<G, M>>)
    requires PhaseOf(seat, log) == AwaitingTurn || PhaseOf(seat, log) == OnTurn
    ensures |log| > 0 && log[0].GameStart? && log[0].seat == seat
    ensures forall k :: 1 <= k < |log| ==> !log[k].GameStart? && !log[k].GameEnd? && !log[k].OpponentQuit?
  {
    var prefix := log[..|log| - 1];
    var e := log[|log| - 1];
    if PhaseOf(seat, prefix) != AwaitingStart {
      PlayingLog(seat, prefix);
      assert log == prefix + [e];
    }
  }

  /** Having ended: the seat was in the game, and its last event, and only that one, is `GameEnd`. */
  lemma EndedLog<G, M>(seat: nat, log: seq<GameEvent<G, M>>)
    requires PhaseOf(seat, log) == Ended
    ensures |log| > 1 && log[0].GameStart? && log[0].seat == seat && log[|log| - 1].GameEnd?
    ensures forall k :: 0 <= k < |log| - 1 ==> !log[k].GameEnd?
  {
    var prefix := log[..|log| - 1];
    PlayingLog(seat, prefix);
    assert log == prefix + [log[|log| - 1]];
  }

  /**
   * The games the properties below are about: the seat count never changes
   * and `turn_of()` always names one of the seats.
   */
  ghost predicate WellBehaved<G(!new), M>(rules: Game<G, M>, seats: nat) {
    forall g :: rules.playerCount(g) == seats && rules.turnOf(g) < seats
  }

  /**
   * The per-seat protocol, for every seat: nothing before startup; while the
   * loop runs, the seat `turn_of()` names is on turn and every other seat is
   * waiting; once the game is finished, every seat has seen its end; once
   * the engine has failed, no seat has seen an event out of order.
   */
  ghost predicate Disciplined<G, M>(rules: Game<G, M>, s: State<G, M>) {
    && s.chans.WellFormed()
    && match s.status
       case Created => forall j :: 0 <= j < |s.chans.events| ==> s.chans.events[j] == []
       case Running => forall j :: 0 <= j < |s.chans.events| ==>
                         PhaseOf(j, s.chans.events[j]) == if j == rules.turnOf(s.game) then OnTurn else AwaitingTurn
       case Finished => forall j :: 0 <= j < |s.chans.events| ==> PhaseOf(j, s.chans.events[j]) == Ended
       case Failed(_) => forall j :: 0 <= j < |s.chans.events| ==> PhaseOf(j, s.chans.events[j]) != Violated
  }

  /** While the loop runs, at most one seat is on turn, and it is the one `turn_of()` names. */
  lemma OneSeatOnTurn<G, M>(rules: Game<G, M>, s: State<G, M>, i: nat, j: nat)
    requires Disciplined(rules, s) && s.status == Running
    requires i < |s.chans.events| && j < |s.chans.events|
    requires PhaseOf(i, s.chans.events[i]) == OnTurn && PhaseOf(j, s.chans.events[j]) == OnTurn
    ensures i == j == rules.turnOf(s.game)
  {
  }

  /** Startup puts every seat on the protocol, and a failed startup leaves no seat out of order. */
  lemma StartupDisciplined<G(!new), M>(rules: Game<G, M>, s: State<G, M>)
    requires Disciplined(rules, s) && s.status == Created
    requires WellBehaved(rules, |s.chans.events|)
    ensures Disciplined(rules, Startup(rules, s))
  {
    var r := Startup(rules, s);
    var n := |s.chans.events|;
    var t := rules.turnOf(s.game);
    assert rules.playerCount(s.game) == n && t < n;
    if j :| 0 <= j < n && !Live(s.chans.receiverDropped, j) {
      StartupToClosedSeat(rules, s, j);
      var k := FirstUnreachable(s.chans.receiverDropped, 0, n);
      forall i | 0 <= i < n
        ensures PhaseOf(i, r.chans.events[i]) != Violated
      {
        if i < k {
          PhaseOfAppend(i, s.chans.events[i], GameStart(s.game, i));
        }
      }
    } else {
      StartupAnnounces(rules, s);
      forall j | 0 <= j < n
        ensures PhaseOf(j, r.chans.events[j]) == if j == t then OnTurn else AwaitingTurn
      {
        var start: seq<GameEvent<G, M>> := [GameStart(s.game, j)];
        assert start == s.chans.events[j] + start;
        PhaseOfAppend(j, s.chans.events[j], GameStart(s.game, j));
        if j == t {
          PhaseOfAppend(j, start, YourTurn);
        } else {
          assert r.chans.events[j] == start;
        }
      }
    }
  }

  /** An accepted move the game continues after keeps every seat on the protocol. */
  lemma ContinueDisciplined<G(!new), M>(rules: Game<G, M>, s: State<G, M>, m: M)
    requires Disciplined(rules, s) && s.status == Running && AllOpen(s.chans)
    requires WellBehaved(rules, |s.chans.events|)
    requires NextMoveIs(rules, s, m) && rules.validateMove(s.game, m)
    requires rules.applyMove(s.game, m).1 == Continue
    ensures Disciplined(rules, Step(rules, s))
  {
    var r := Step(rules, s);
    var n := |s.chans.events|;
    var t := rules.turnOf(s.game);
    var g' := rules.applyMove(s.game, m).0;
    assert rules.playerCount(s.game) == n && rules.turnOf(g') < n;
    AcceptedMoveContinues(rules, s, m);
    forall j | 0 <= j < n
      ensures PhaseOf(j, r.chans.events[j]) == if j == rules.turnOf(g') then OnTurn else AwaitingTurn
    {
      ContinuePhase(j, s.chans.events[j], m, j == t, j == rules.turnOf(g'));
    }
  }

  /**
   * One seat's view of a move the game continues after: from on turn (the
   * mover) or waiting, `MoveHappened`, then `ValidMove` for the mover, then
   * `YourTurn` for the seat on turn next, leaves exactly that seat on turn.
   */
  lemma ContinuePhase<G, M>(j: nat, log: seq<GameEvent<G, M>>, m: M, mover: bool, next: bool)
    requires PhaseOf(j, log) == if mover then OnTurn else AwaitingTurn
    ensures var told := log + [MoveHappened(m)] + (if mover then [ValidMove] else []);
            PhaseOf(j, told + (if next then [YourTurn] else [])) == if next then OnTurn else AwaitingTurn
  {
    var moved := log + [MoveHappened(m)];
    PhaseOfAppend(j, log, MoveHappened(m));
    var told := moved + (if mover then [ValidMove] else []);
    if mover {
      PhaseOfAppend(j, moved, ValidMove);
    } else {
      assert told == moved;
    }
    if next {
      PhaseOfAppend(j, told, YourTurn);
    } else {
      assert told + [] == told;
    }
  }

  /** An accepted move that ends the game takes every seat to its end. */
  lemma EndDisciplined<G(!new), M>(rules: Game<G, M>, s: State<G, M>, m: M)
    requires Disciplined(rules, s) && s.status == Running && AllOpen(s.chans)
    requires WellBehaved(rules, |s.chans.events|)
    requires NextMoveIs(rules, s, m) && rules.validateMove(s.game, m)
    requires rules.applyMove(s.game, m).1 != Continue
    ensures Disciplined(rules, Step(rules, s))
  {
    var r := Step(rules, s);
    var n := |s.chans.events|;
    var (g', result) := rules.applyMove(s.game, m);
    assert rules.playerCount(s.game) == n && rules.playerCount(g') == n;
    AcceptedMoveEnds(rules, s, m);
    var w := if result.Win? then Some(result.winner) else None;
    forall j | 0 <= j < n
      ensures PhaseOf(j, r.chans.events[j]) == Ended
    {
      var log := s.chans.events[j];
      PhaseOfAppend(j, log, MoveHappened(m));
      PhaseOfAppend(j, log + [MoveHappened(m)], GameEnd(w));
      assert r.chans.events[j] == log + [MoveHappened(m)] + [GameEnd(w)];
    }
  }

  /** One turn keeps every seat on the protocol, and a failed turn leaves no seat out of order. */
  lemma StepDisciplined<G(!new), M>(rules: Game<G, M>, s: State<G, M>)
    requires Disciplined(rules, s) && s.status == Running
    requires WellBehaved(rules, |s.chans.events|)
    ensures Disciplined(rules, Step(rules, s))
  {
    var r := Step(rules, s);
    var n := |s.chans.events|;
    var g := s.game;
    var t := rules.turnOf(g);
    assert rules.playerCount(g) == n && t < n;
    if |s.chans.moves[t]| > 0 {
      var m := s.chans.moves[t][0];
      if !rules.validateMove(g, m) {
        RejectedMove(rules, s, m);
        PhaseOfAppend(t, s.chans.events[t], InvalidMove);
      } else if j :| 0 <= j < n && !Live(s.chans.receiverDropped, j) {
        AcceptedMoveToClosedSeat(rules, s, m, j);
        var k := FirstUnreachable(s.chans.receiverDropped, 0, n);
        forall i | 0 <= i < n
          ensures PhaseOf(i, r.chans.events[i]) != Violated
        {
          if i < k {
            PhaseOfAppend(i, s.chans.events[i], MoveHappened(m));
          }
        }
      } else {
        assert AllOpen(s.chans);
        if rules.applyMove(g, m).1 == Continue {
          ContinueDisciplined(rules, s, m);
        } else {
          EndDisciplined(rules, s, m);
        }
      }
    }
  }

  /** The loop keeps every seat on the protocol. */
  lemma {:induction false} RunDisciplined<G(!new), M>(rules: Game<G, M>, s: State<G, M>)
    requires Disciplined(rules, s)
    requires WellBehaved(rules, |s.chans.events|)
    ensures Disciplined(rules, Run(rules, s))
    decreases Pending(s.chans.moves)
  {
    if s.status == Running && !Waiting(rules, s) {
      var s' := Step(rules, s);
      StepDisciplined(rules, s);
      if s'.status == Running {
        PendingAfterRecv(s.chans.moves, rules.turnOf(s.game));
        RunDisciplined(rules, s');
      }
    }
  }

  /**
   * The engine thread as a whole, started before any event was sent, with
   * whatever moves the participants have already queued: wherever it stops,
   * every seat is on the protocol; if it stops on a failure, no seat has
   * heard an event out of order.
   */
  lemma MainThreadDisciplined<G(!new), M>(rules: Game<G, M>, s: State<G, M>)
    requires s.chans.WellFormed() && s.status == Created
    requires forall j :: 0 <= j < |s.chans.events| ==> s.chans.events[j] == []
    requires WellBehaved(rules, |s.chans.events|)
    ensures Disciplined(rules, MainThread(rules, s))
  {
    StartupDisciplined(rules, s);
    RunDisciplined(rules, Startup(rules, s));
  }

  /**
   * A finished game, as every seat saw it: `GameStart` for that seat first,
   * and `GameEnd` last and only once.
   */
  lemma FinishedGameEndsOnce<G, M>(rules: Game<G, M>, s: State<G, M>, j: nat)
    requires Disciplined(rules, s) && s.status == Finished
    requires j < |s.chans.events|
    ensures var log := s.chans.events[j];
            && |log| > 1
            && log[0].GameStart? && log[0].seat == j
            && log[|log| - 1].GameEnd?
            && forall k :: 0 <= k < |log| - 1 ==> !log[k].GameEnd?
  {
    EndedLog(j, s.chans.events[j]);
  }
}
