/**
 * The federation queue (`ferri-main/src/federation/request_queue.rs`), with the requests it
 * carries (`InboxRequest` of `federation/inbox.rs`, `OutboxRequest` of `federation/outbox.rs`).
 * A queue is a bounded FIFO of capacity 1024 between its senders and the one worker that
 * drains it; this module holds the channel, and the worker loop is in `Worker`.
 */
module Queue {
  import Ap = ApTypes
  import Db = DbTypes

  /** The bound `RequestQueue::new` gives the channel. */
  const CAPACITY := 1024

  /**
   * `InboxRequest`, without the database connection and outbound handle the source passes
   * along: every request runs against the worker's one store and outbound queue.
   */
  datatype InboxRequest =
    | Delete(delete: Ap.BasicActivity, user: Db.User)
    | Follow(follow: Ap.FollowActivity, followed: Db.User)
    | Create(create: Ap.CreateActivity, author: Db.User)
    | Like(like: Ap.BasicActivity, liker: Db.User)
    | Boost(boost: Ap.BoostActivity, target: Db.User)

  /** `OutboxRequest`; the `String` is the key id to sign with. */
  datatype OutboxRequest =
    | Accept(accept: Ap.AcceptActivity, keyId: string, person: Ap.Person)
    | Status(post: Db.Post, statusKeyId: string)
    | FollowUser(follower: Db.User, followedUser: Db.User)

  datatype QueueMessage = Heartbeat | Inbound(inbound: InboxRequest) | Outbound(outbound: OutboxRequest)

  /** What a send does: the message is queued, the sender would have to wait, or it panics. */
  datatype SendResult = Sent | Full | ReceiverGone

  /**
   * The channel between the queue's handles and its worker: the messages waiting, in order;
   * whether every sender has been dropped; whether the worker (the receiver) has ended.
   */
  class Channel {
    var buffer: seq<QueueMessage>
    var sendersGone: bool
    var receiverGone: bool
    /** Every message ever queued, and every message ever taken, in order. */
    ghost var sent: seq<QueueMessage>
    ghost var taken: seq<QueueMessage>

    /** At most `CAPACITY` messages wait, and they are what was queued and not yet taken, in order. */
    ghost predicate Valid()
      reads this
    {
      |buffer| <= CAPACITY && sent == taken + buffer
    }

    /** `RequestQueue::new`: an empty channel with both ends alive. */
    constructor ()
      ensures Valid() && buffer == [] && sent == [] && !sendersGone && !receiverGone
    {
      buffer := [];
      sent := [];
      taken := [];
      sendersGone := false;
      receiverGone := false;
    }

    /**
     * `QueueHandle::send`: the message joins the back of the queue. With the receiver gone the
     * `unwrap` panics; with the queue full the sender would wait for room.
     */
    method Send(msg: QueueMessage) returns (r: SendResult)
      requires Valid()
      modifies this
      ensures Valid()
      ensures r == (if receiverGone then ReceiverGone else if |old(buffer)| == CAPACITY then Full else Sent)
      ensures buffer == (if r == Sent then old(buffer) + [msg] else old(buffer))
      ensures sent == (if r == Sent then old(sent) + [msg] else old(sent)) && taken == old(taken)
      ensures sendersGone == old(sendersGone) && receiverGone == old(receiverGone)
    {
      if receiverGone {
        return ReceiverGone;
      }
      if |buffer| == CAPACITY {
        return Full;
      }
      buffer := buffer + [msg];
      sent := sent + [msg];
      return Sent;
    }

    /** The worker takes the message at the front. */
    method Take() returns (msg: QueueMessage)
      requires Valid() && |buffer| > 0
      modifies this
      ensures Valid()
      ensures msg == old(buffer)[0] && buffer == old(buffer)[1..]
      ensures taken == old(taken) + [msg] && sent == old(sent)
      ensures sendersGone == old(sendersGone) && receiverGone == old(receiverGone)
    {
      msg := buffer[0];
      buffer := buffer[1..];
      taken := taken + [msg];
    }

    /** The worker task ends: later sends panic. */
    method DropReceiver()
      modifies this
      ensures receiverGone && buffer == old(buffer) && sendersGone == old(sendersGone)
      ensures sent == old(sent) && taken == old(taken)
    {
      receiverGone := true;
    }

    /** Every handle has been dropped: once drained, the worker's `recv` yields `None`. */
    method DropSenders()
      modifies this
      ensures sendersGone && buffer == old(buffer) && receiverGone == old(receiverGone)
      ensures sent == old(sent) && taken == old(taken)
    {
      sendersGone := true;
    }
  }
}
