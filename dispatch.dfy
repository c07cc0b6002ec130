/**
 * The event dispatcher: advisory messages forwarded, best effort, over an
 * unbounded channel to the task that saves them to the output file.
 */
module Dispatch {
  import opened Types

  /** What `UnboundedSender::send` reports. */
  datatype SendResult = Sent | SendError(unsent: string)

  /**
   * An unbounded channel seen as one sequential queue: `queue` holds the
   * messages the receiver has not taken yet, oldest first, and
   * `receiverOpen` is false once the receiving end has been closed.
   */
  class Channel {
    var queue: seq<string>
    var receiverOpen: bool

    /** `mpsc::unbounded_channel()`: an empty channel with an open receiver. */
    constructor ()
      ensures queue == [] && receiverOpen
    {
      queue := [];
      receiverOpen := true;
    }

    /** `rx.close()`: no new message is accepted; those already queued stay receivable. */
    method CloseReceiver()
      modifies this
      ensures !receiverOpen
      ensures queue == old(queue)
    {
      receiverOpen := false;
    }

    /** `tx.send(msg)`: enqueues `msg` unchanged while the receiver is open, and hands it back otherwise. */
    method Send(msg: string) returns (r: SendResult)
      modifies this
      ensures receiverOpen == old(receiverOpen)
      ensures old(receiverOpen) ==> r == Sent && queue == old(queue) + [msg]
      ensures !old(receiverOpen) ==> r == SendError(msg) && queue == old(queue)
    {
      if receiverOpen {
        queue := queue + [msg];
        r := Sent;
      } else {
        r := SendError(msg);
      }
    }

    /** The receiver taking the oldest queued message, or `None` when nothing is queued. */
    method TryRecv() returns (m: Option<string>)
      modifies this
      ensures receiverOpen == old(receiverOpen)
      ensures old(queue) == [] ==> m == None && queue == []
      ensures old(queue) != [] ==> m == Some(old(queue)[0]) && queue == old(queue)[1..]
    {
      if queue == [] {
        m := None;
      } else {
        m := Some(queue[0]);
        queue := queue[1..];
      }
    }
  }

  /**
   * `try_send_message_to_file`: when `saveOutput` is set, sends `msg` to the
   * file handler; a send refused by a closed receiver is only logged, so the
   * caller never sees a failure.
   */
  method TrySendMessageToFile(msg: string, tx: Channel, saveOutput: bool)
    modifies tx
    ensures tx.receiverOpen == old(tx.receiverOpen)
    ensures tx.queue == if saveOutput && old(tx.receiverOpen) then old(tx.queue) + [msg] else old(tx.queue)
  {
    if saveOutput {
      var result := tx.Send(msg);
      match result
      case Sent =>
      case SendError(_) =>
    }
  }

  /** With output saving on and an open receiver, the receiver gets the message unmodified. */
  method SendWhenSaving(msg: string) returns (received: Option<string>)
    ensures received == Some(msg)
  {
    var ch := new Channel();
    TrySendMessageToFile(msg, ch, true);
    received := ch.TryRecv();
  }

  /** With output saving off, nothing reaches the receiver. */
  method SendWhenNotSaving(msg: string) returns (received: Option<string>)
    ensures received == None
  {
    var ch := new Channel();
    TrySendMessageToFile(msg, ch, false);
    received := ch.TryRecv();
  }

  /** With the receiver closed, the send is swallowed: the call returns normally and nothing is queued. */
  method SendWithClosedReceiver(msg: string) returns (received: Option<string>)
    ensures received == None
  {
    var ch := new Channel();
    ch.CloseReceiver();
    TrySendMessageToFile(msg, ch, true);
    received := ch.TryRecv();
  }
}
