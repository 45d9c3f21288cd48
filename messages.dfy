/**
 * The messages the sync loop hands to the dispatcher (src/connection.rs,
 * `ClientMessage`), and the channel that carries them from the network
 * runtime to the Weechat thread.
 *
 * Event payloads are decoded by the protocol library; the core only forwards
 * them, so they are kept as opaque records.
 */
module Messages {
  import opened Wrappers

  type RoomId = string

  datatype StateEvent = StateEvent(eventType: string, stateKey: string, content: string)
  datatype TimelineEvent = TimelineEvent(eventId: string, content: string)
  datatype MembersResponse = MembersResponse(members: seq<string>)
  datatype LoginResponse = LoginResponse(userId: string, accessToken: string, deviceId: string)
  datatype Room = Room(roomId: RoomId)

  /** `ClientMessage`: every variant that concerns a room names it. */
  datatype ClientMessage =
    | LoginMessage(response: LoginResponse)
    | SyncState(roomId: RoomId, state: StateEvent)
    | SyncEvent(roomId: RoomId, event: TimelineEvent)
    | Members(roomId: RoomId, members: MembersResponse)
    | RestoredRoom(room: Room)

  /** What travels on the channel: a message, or an error text the sync loop
      reports before it stops. */
  type Outgoing = Result<ClientMessage, string>

  /** `async_channel(1000)`; the bound only throttles the sender and is not modelled. */
  const CHANNEL_CAPACITY: nat := 1000

  /** One `recv` as the receiver sees it: a message, the error that all
      senders are gone and nothing is left, or nothing yet (the receiver
      would suspend until something is sent). */
  datatype Recv = Received(item: Outgoing) | Disconnected | Pending

  /**
   * The channel: a FIFO queue and whether every sender has been dropped.
   * `sent` and `delivered` record everything ever sent and received; Valid()
   * says nothing is lost or reordered in between.
   */
  class Channel {
    var queue: seq<Outgoing>
    var disconnected: bool
    ghost var sent: seq<Outgoing>
    ghost var delivered: seq<Outgoing>

    ghost predicate Valid()
      reads this
    {
      sent == delivered + queue
    }

    constructor ()
      ensures Valid()
      ensures queue == [] && !disconnected && sent == [] && delivered == []
    {
      queue, disconnected := [], false;
      sent, delivered := [], [];
    }

    /** `Sender::send`; only a sender that has not been dropped can send. */
    method Send(m: Outgoing)
      requires Valid() && !disconnected
      modifies this
      ensures Valid() && !disconnected
      ensures queue == old(queue) + [m]
      ensures sent == old(sent) + [m] && delivered == old(delivered)
    {
      queue := queue + [m];
      sent := sent + [m];
    }

    /** Dropping the last sender. */
    method DropSender()
      requires Valid()
      modifies this
      ensures Valid() && disconnected
      ensures queue == old(queue) && sent == old(sent) && delivered == old(delivered)
    {
      disconnected := true;
    }

    /** `Receiver::recv`: the oldest message first; an error only once the
        queue is empty and no sender is left. */
    method Recv() returns (r: Recv)
      requires Valid()
      modifies this
      ensures Valid() && disconnected == old(disconnected) && sent == old(sent)
      ensures old(queue) != [] ==>
        r == Received(old(queue)[0]) && queue == old(queue)[1..] && delivered == old(delivered) + [r.item]
      ensures old(queue) == [] ==>
        r == (if disconnected then Disconnected else Pending) && queue == [] && delivered == old(delivered)
    {
      if queue != [] {
        r := Received(queue[0]);
        delivered := delivered + [queue[0]];
        queue := queue[1..];
      } else if disconnected {
        r := Disconnected;
      } else {
        r := Pending;
      }
    }
  }
}
