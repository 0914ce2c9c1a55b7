# tbmp turn engine, modelled in Dafny

tbmp ("turn-based multiplayer") runs one game between several seats. `new_game`
builds two unbounded FIFO channels per seat:

- a move channel, on which the participant sends moves;
- an event channel, on which the engine sends `GameEvent`s.

`new_game` returns the participant halves (`AgentCore`) and moves the engine
halves (`AntiCore`) into an engine thread. That thread:

1. Sends `GameStart` (a copy of the board, and the seat number) to every seat, then `YourTurn` to the seat on turn.
2. Loops. Each turn it receives one move from the seat `turn_of()` names and validates it.
   - A rejected move gets `InvalidMove` back.
   - An accepted move is broadcast as `MoveHappened` and then applied. Then either:
     - the mover gets `ValidMove` and the new on-turn seat gets `YourTurn`; or
     - every seat gets `GameEnd` and the loop stops.

The concrete game stays abstract. It is a value of `GameContract.Game`, which holds the
five operations of the `Game` trait as functions.

The model has two layers:

- **`Dispatch`** (dispatch.dfy) states the engine thread as functions on values.
  - The channels of all seats form one `SeatChannels` value.
  - The startup sequence, one turn, the loop and the whole thread are functions from state to state.
  - Lemmas state what each of them sends to whom, in which cases the engine fails, and that event histories only grow.
- **`TurnEngine`** (engine.dfy) is the imperative engine, with `Channels` (channels.dfy) as the objects shared by the two ends of a seat.
  - `NewGame` allocates the channel objects and splits them into cores and anti-cores.
  - Class `Engine` holds the game state, which it updates in place, and sends on the shared channel objects.
  - Every method of `Engine` is proved to change the state exactly as the matching `Dispatch` function says.
- **`Protocol`** (protocol.dfy) describes each seat's view of its own event history as an automaton. It proves that the engine keeps every seat on that protocol:
  - exactly the seat `turn_of()` names is on turn;
  - `GameStart` comes first and only once;
  - a finished game ends with exactly one `GameEnd` per seat;
  - when startup or a turn fails part-way, no seat has heard an event out of order.

Failures follow the source:

- At startup a send uses `.unwrap()`: a failure panics (`UnwrapPanic`).
- In the loop a send uses `?`: a failure ends the thread with an error (`SendError`).
- A receive on a disconnected, empty move channel is `RecvError`.
- Indexing past the last seat panics (`IndexPanic`).

A failed engine stops where it failed. Every event appended before the failure stays.

`GameStart` carries a clone of the whole board (tbmp_core/src/lib.rs:80). The `Game`
trait has no per-seat view of the board.

## Model

| member | source | states |
|---|---|---|
| Channels.MoveChannel.constructor | tbmp_core/src/lib.rs:54 | a fresh move channel is empty and connected |
| Channels.MoveChannel.Send | tbmp_core/src/lib.rs:7 | a participant's send, possible only while it still holds a sender, appends the move at the back of the queue |
| Channels.MoveChannel.DropSenders | tbmp_core/src/lib.rs:7 | dropping the participant's sender disconnects the channel and keeps the queued moves |
| Channels.MoveChannel.Recv | tbmp_core/src/lib.rs:92-94 | a receive takes the oldest queued move, even after disconnection; on an empty queue it would block while connected and fails once disconnected |
| Channels.EventChannel.constructor | tbmp_core/src/lib.rs:55 | a fresh event channel has no events and a live receiver |
| Channels.EventChannel.Send | tbmp_core/src/lib.rs:78-81 | a send appends the event and succeeds exactly when the receiver is still there, otherwise nothing changes |
| Channels.EventChannel.DropReceiver | tbmp_core/src/lib.rs:8 | dropping the participant's receiver makes later sends fail and keeps the history |
| Dispatch.FreshChannels | tbmp_core/src/lib.rs:52-58 | `count` seats, every queue and history empty, every channel connected |
| Dispatch.Send | tbmp_core/src/lib.rs:124-133 | one send changes only the event histories and keeps the number of seats |
| Dispatch.BroadcastFrom | tbmp_core/src/lib.rs:98-103 | a per-seat send loop changes only the event histories |
| Dispatch.FirstUnreachable | tbmp_core/src/lib.rs:98-103 | the seat a send loop stops at: every earlier seat is live, it is not, and it is never past the last seat when the loop starts within range |
| Dispatch.BroadcastFromExact | tbmp_core/src/lib.rs:98-103 | a send loop appends its event exactly once to each seat before the first unreachable one, in seat order, and to no other seat; it reports that seat's failure (index panic or send error) and keeps what was sent before it |
| Dispatch.FirstUnreachableAllLive | tbmp_core/src/lib.rs:98-103 | when all seats of the loop are live, the loop runs to the end |
| Dispatch.BroadcastToAll | tbmp_core/src/lib.rs:98-103 | with every target seat live, the send loop succeeds and each target gets its event exactly once |
| Dispatch.BroadcastSucceededReachedAll | tbmp_core/src/lib.rs:98-103 | a send loop that succeeded ran over existing, live seats only |
| Dispatch.Startup | tbmp_core/src/lib.rs:77-87 | startup leaves the board alone and either starts the loop or panics, with an `.unwrap()` panic or an index panic |
| Dispatch.StartupToClosedSeat | tbmp_core/src/lib.rs:77-82 | when some seat cannot hear `GameStart`, startup panics at the first such seat; the seats before it keep their `GameStart`, later seats get nothing, and no seat gets `YourTurn` |
| Dispatch.StartupTurnSeatClosed | tbmp_core/src/lib.rs:84-87 | when every seat got `GameStart` but the seat on turn cannot hear `YourTurn`, startup panics at that seat and every seat holds only its `GameStart` |
| Dispatch.StartupAnnounces | tbmp_core/src/lib.rs:77-87 | when every seat of the count and the seat on turn can hear it, seat i of the count gets `GameStart(copy of the board, i)`, only the on-turn seat gets one `YourTurn` after it, seats past the count get no `GameStart`, and the loop starts |
| Dispatch.Step | tbmp_core/src/lib.rs:91-136 | one turn takes at most the head move of the on-turn seat's queue and touches no other move queue and no connection flag; while that queue is empty and connected nothing happens; once it is empty and disconnected the loop ends with a receive error and nothing else changes; a `turn_of()` past the last seat panics and nothing else changes |
| Dispatch.Accept | tbmp_core/src/lib.rs:96-104 | the accepted-move branch changes only the event histories and leaves the loop running, finished or failed |
| Dispatch.Conclude | tbmp_core/src/lib.rs:104-129 | after `apply_move` the board is the applied one and only event histories change |
| Dispatch.Proceed | tbmp_core/src/lib.rs:124-129 | the `Continue` sends change only event histories and leave the loop running or failed |
| Dispatch.Finish | tbmp_core/src/lib.rs:106-121 | the `GameEnd` loop changes only event histories and leaves the loop finished or failed |
| Dispatch.Reject | tbmp_core/src/lib.rs:130-134 | the rejected-move branch leaves the board untouched and changes only the event histories |
| Dispatch.RejectedMove | tbmp_core/src/lib.rs:130-134 | a rejected move appends exactly one `InvalidMove`, to the on-turn seat only; the board and the on-turn seat are unchanged; a dropped receiver there is a send error |
| Dispatch.AcceptedMoveContinues | tbmp_core/src/lib.rs:97-129 | an accepted move that continues gives every seat `MoveHappened` once, then `ValidMove` to the seat on turn before the move, then `YourTurn` to the seat on turn after it |
| Dispatch.AcceptedMoveEnds | tbmp_core/src/lib.rs:104-121 | when every seat addressed can hear it, a drawn or won game gives each seat of the pre-move count `MoveHappened`, then each seat of the post-move count `GameEnd(winner)`, and nothing else, and finishes the loop; a seat past the post-move count never gets `GameEnd` |
| Dispatch.AcceptedMoveToClosedSeat | tbmp_core/src/lib.rs:98-104 | when a seat can no longer hear the broadcast, the engine fails at the first such seat, seats before it keep `MoveHappened`, later seats hear nothing, and the board is not mutated |
| Dispatch.ContinueSendFailures | tbmp_core/src/lib.rs:124-129 | after an accepted move that continues and reached every seat: `ValidMove` to the mover only if it can hear it, then `YourTurn` to the new on-turn seat only if both can; the first undeliverable send ends the loop with its error (send error, or index panic past the last seat) |
| Dispatch.EndToClosedSeat | tbmp_core/src/lib.rs:106-121 | when a seat of the post-move count cannot hear `GameEnd`, the loop ends with the error of the first such seat; seats before it keep `MoveHappened` then `GameEnd`, the rest only `MoveHappened`; the board is the applied one |
| Dispatch.PendingAfterRecv | tbmp_core/src/lib.rs:92-94 | each receive consumes exactly one queued move |
| Dispatch.Run | tbmp_core/src/lib.rs:91-136 | the loop stops only where the on-turn seat's queue is empty and connected, or after the game finished or failed; a finished or failed engine does nothing more |
| Dispatch.MainThread | tbmp_core/src/lib.rs:74-136 | the thread runs startup then the loop, and ends finished, failed or parked in a receive |
| Dispatch.OnlyAppendsTransitive | tbmp_core/src/lib.rs:17-26 | growing a history in two stages is growing it |
| Dispatch.BroadcastOnlyAppends | tbmp_core/src/lib.rs:98-103 | a send loop only appends to histories and never `OpponentQuit` |
| Dispatch.SendOnlyAppends | tbmp_core/src/lib.rs:124-133 | one send only appends to histories |
| Dispatch.StartupOnlyAppends | tbmp_core/src/lib.rs:77-87 | startup only appends to histories and never sends `OpponentQuit` |
| Dispatch.StepOnlyAppends | tbmp_core/src/lib.rs:91-136 | a turn only appends to histories and never sends `OpponentQuit` |
| Dispatch.RunOnlyAppends | tbmp_core/src/lib.rs:91-136 | the whole loop only appends to histories and never sends `OpponentQuit` |
| Protocol.PhaseOfAppend | tbmp_core/src/lib.rs:17-26 | a seat's phase after one more event is one automaton step from its phase before |
| Protocol.PlayingLog | tbmp_core/src/lib.rs:17-26 | a seat in the game heard its own `GameStart` first and no later `GameStart`, `GameEnd` or `OpponentQuit` |
| Protocol.EndedLog | tbmp_core/src/lib.rs:17-26 | a seat whose game ended heard its own `GameStart` first and `GameEnd` last and only once |
| Protocol.OneSeatOnTurn | tbmp_core/src/lib.rs:91-94 | while the loop runs at most one seat is on turn, and it is `turn_of()` |
| Protocol.StartupDisciplined | tbmp_core/src/lib.rs:77-87 | after a successful startup the seat on turn is on turn and every other seat is waiting; after a failed startup no seat has heard an event out of order |
| Protocol.ContinuePhase | tbmp_core/src/lib.rs:124-129 | for one seat, `MoveHappened`, `ValidMove` to the mover and `YourTurn` to the next seat leave exactly the next seat on turn |
| Protocol.ContinueDisciplined | tbmp_core/src/lib.rs:124-129 | after an accepted move the game continues from, the new `turn_of()` seat is on turn and every other seat is waiting, the mover included unless it moves again |
| Protocol.EndDisciplined | tbmp_core/src/lib.rs:106-121 | after a move that draws or wins, every seat's game has ended |
| Protocol.StepDisciplined | tbmp_core/src/lib.rs:91-136 | every turn keeps exactly the `turn_of()` seat on turn and every other seat waiting, or ends every seat's game; a turn that fails part-way leaves no seat with an event out of order |
| Protocol.RunDisciplined | tbmp_core/src/lib.rs:91-136 | the whole loop keeps every seat on the protocol, and if it fails no seat has heard an event out of order |
| Protocol.MainThreadDisciplined | tbmp_core/src/lib.rs:74-136 | starting from silent seats and any queued moves, the thread keeps every seat on the protocol wherever it stops, and a failed thread leaves no seat with an event out of order |
| Protocol.FinishedGameEndsOnce | tbmp_core/src/lib.rs:106-121 | in a finished game every seat heard its `GameStart` first and `GameEnd` last and exactly once |
| TurnEngine.Engine.constructor | tbmp_core/src/lib.rs:60-72 | the engine starts on the default board with every seat's own channel pair, before startup |
| TurnEngine.Engine.SendTo | tbmp_core/src/lib.rs:124-133 | a send on a seat's event channel changes the shared channels exactly as `Dispatch.Send` |
| TurnEngine.Engine.Broadcast | tbmp_core/src/lib.rs:98-103 | the per-seat send loop changes the shared channels exactly as `Dispatch.BroadcastFrom` |
| TurnEngine.Engine.ReceiveFrom | tbmp_core/src/lib.rs:92-94 | the receive takes the seat's head move from the shared channel or reports an empty or disconnected channel |
| TurnEngine.Engine.Start | tbmp_core/src/lib.rs:77-87 | the startup sequence changes the engine exactly as `Dispatch.Startup` |
| TurnEngine.Engine.Step | tbmp_core/src/lib.rs:91-136 | one turn changes the engine exactly as `Dispatch.Step`, and reports when it would block |
| TurnEngine.Engine.AcceptMove | tbmp_core/src/lib.rs:96-104 | the accepted-move branch, mutating the board in place, as `Dispatch.Accept` |
| TurnEngine.Engine.Conclude | tbmp_core/src/lib.rs:104-129 | what follows `apply_move`, as `Dispatch.Conclude` |
| TurnEngine.Engine.Proceed | tbmp_core/src/lib.rs:124-129 | the `Continue` sends, as `Dispatch.Proceed` |
| TurnEngine.Engine.Finish | tbmp_core/src/lib.rs:106-121 | the `GameEnd` loop, as `Dispatch.Finish` |
| TurnEngine.Engine.RejectMove | tbmp_core/src/lib.rs:130-134 | the rejected-move branch, as `Dispatch.Reject` |
| TurnEngine.Engine.Run | tbmp_core/src/lib.rs:91-136 | the loop, as `Dispatch.Run` |
| TurnEngine.Engine.MainThread | tbmp_core/src/lib.rs:74-136 | the engine thread, as `Dispatch.MainThread` |
| TurnEngine.OpenChannels | tbmp_core/src/lib.rs:52-58 | `count` new move and event channels, all empty and connected, no two seats sharing one |
| TurnEngine.NewGame | tbmp_core/src/lib.rs:49-72 | exactly `player_count()` participant halves; seat i's participant half and engine half share the same two fresh channels; the engine starts on the default board with fresh channels |

## Left out

- Thread spawning and the error printing of the spawned thread (tbmp_core/src/lib.rs:141-148). The model runs the engine thread as a sequential method. A panic or error of that thread appears as a `Failed` status.
- Concurrency between participants and the engine. Moves a participant sends while the loop runs are not interleaved with its steps.
  - `Run` consumes only the moves queued when it starts.
  - Where the source would block in `recv()` on an empty, connected queue, `Run` stops and reports the engine as waiting.
- Dropping the engine halves when the engine thread ends is not modelled. In the source this disconnects the participants' event receivers.
- Channels.MoveChannel.Send never fails. In the source, a participant's move send fails once the engine half is dropped.
- Serialization of events and moves (serde). It has no behaviour visible in the core.
- remote_channel/src/lib.rs and tbmp_remote_agent/src/lib.rs are not part of this model. They are network transport around the channels.
- The `Game` trait becomes a value of function fields:
  - `validate_move`'s `Result<(), ()>` becomes a `bool`;
  - `apply_move(&mut self)` becomes a function that returns the new board, which `Engine` stores back into its field;
  - `Clone` is value semantics.
- Concrete game rules are not modelled: `Game` stays abstract.
- `PlayerID` is the range of `u8`. The `as usize` casts of the source cannot change a value in that range, so they need no modelling.
- Protocol.StartupDisciplined, Protocol.ContinueDisciplined, Protocol.EndDisciplined, Protocol.StepDisciplined, Protocol.RunDisciplined, Protocol.MainThreadDisciplined: proved only for games whose `player_count()` always equals the number of seats and whose `turn_of()` always names a seat. For other games, the engine's index panics are modelled in `Dispatch` but the protocol is not claimed.
- Dispatch.AcceptedMoveContinues: stated only when every seat's receiver is live and the counts fit the seats. Together, the lemmas below cover every case of startup and of one turn:
  - Dispatch.StartupAnnounces, Dispatch.StartupToClosedSeat and Dispatch.StartupTurnSeatClosed for startup;
  - Dispatch.AcceptedMoveToClosedSeat for a `MoveHappened` broadcast that fails;
  - Dispatch.ContinueSendFailures for a move the game continues from;
  - Dispatch.AcceptedMoveEnds and Dispatch.EndToClosedSeat for a move that ends the game;
  - Dispatch.RejectedMove for a rejected move;
  - the contract of Dispatch.Step for a failed receive or an index panic.
