/**
 * The two kinds of unbounded FIFO channel a seat uses. Each channel is one
 * object shared by its two ends, so the participant's end and the engine's end
 * of a seat see the same queue.
 */
module Channels {

  /** What a receive on a move channel gives. */
  datatype RecvResult<M> =
    | Received(qmove: M)
    | Empty          // nothing queued and a sender is alive: `recv` would block
    | Disconnected   // nothing queued and every sender is gone: `recv` fails

  /** A seat's move channel: the participant sends, the engine receives. */
  class MoveChannel<M> {
    /** Moves sent and not yet received, oldest first. */
    var queue: seq<M>
    /** True once every clone of the sending end has been dropped. */
    var sendersDropped: bool

    constructor ()
      ensures queue == [] && !sendersDropped
    {
      queue := [];
      sendersDropped := false;
    }

    /** The participant sends a move; there is a sender to send with only until `DropSenders`. */
    method Send(m: M)
      requires !sendersDropped
      modifies this
      ensures queue == old(queue) + [m]
      ensures sendersDropped == old(sendersDropped)
    {
      queue := queue + [m];
    }

    /** The participant drops every sending end. */
    method DropSenders()
      modifies this
      ensures sendersDropped
      ensures queue == old(queue)
    {
      sendersDropped := true;
    }

    /**
     * The engine receives. Queued moves are delivered first, even after the
     * senders are gone; only an empty queue with no sender left is an error.
     */
    method Recv() returns (r: RecvResult<M>)
      modifies this
      ensures sendersDropped == old(sendersDropped)
      ensures old(queue) != [] ==> r == Received(old(queue)[0]) && queue == old(queue)[1..]
      ensures old(queue) == [] ==> queue == old(queue)
      ensures old(queue) == [] ==> r == if sendersDropped then Disconnected else Empty
    {
      if |queue| > 0 {
        r := Received(queue[0]);
        queue := queue[1..];
      } else if sendersDropped {
        r := Disconnected;
      } else {
        r := Empty;
      }
    }
  }

  /**
   * A seat's event channel: the engine sends, the participant receives.
   * `sent` is the whole history of events the engine has put on it, which is
   * exactly what the participant reads, in that order.
   */
  class EventChannel<E> {
    var sent: seq<E>
    /** True once every clone of the receiving end has been dropped. */
    var receiverDropped: bool

    constructor ()
      ensures sent == [] && !receiverDropped
    {
      sent := [];
      receiverDropped := false;
    }

    /** The engine sends an event; this fails once the receiver is gone. */
    method Send(e: E) returns (ok: bool)
      modifies this
      ensures ok == !old(receiverDropped)
      ensures receiverDropped == old(receiverDropped)
      ensures sent == if ok then old(sent) + [e] else old(sent)
    {
      ok := !receiverDropped;
      if ok {
        sent := sent + [e];
      }
    }

    /** The participant drops every receiving end. */
    method DropReceiver()
      modifies this
      ensures receiverDropped
      ensures sent == old(sent)
    {
      receiverDropped := true;
    }
  }
}
