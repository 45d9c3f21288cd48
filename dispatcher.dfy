/**
 * The response receiver (src/connection.rs, `response_receiver`): the loop on
 * the Weechat thread that takes each message off the channel and hands it to
 * the one server handler its variant calls for.
 *
 * The server is external; it is modelled by the log of handler calls it
 * receives, printed errors included.
 */
module Dispatcher {
  import opened Wrappers
  import opened Messages

  /** One call into the server. */
  datatype HandlerCall =
    | LoginReceived(response: LoginResponse)
    | JoinedTimelineEvent(roomId: RoomId, event: TimelineEvent)
    | JoinedStateEvent(roomId: RoomId, state: StateEvent)
    | RoomRestored(room: Room)
    | MembersReceived(roomId: RoomId, members: MembersResponse)
    | ErrorPrinted(text: string)

  /** What is printed when the channel has no sender left (`RecvError`'s `{:?}`). */
  const RECV_ERROR_TEXT: string := "Error receiving message: RecvError"

  function SyncErrorText(e: string): string
  {
    "Ruma error " + e
  }

  /** The server's handling of one channel item: the handler for the
      message's variant, with the message's room; an error item is printed. */
  function HandlerFor(item: Outgoing): HandlerCall
  {
    match item
    case Err(e) => ErrorPrinted(SyncErrorText(e))
    case Ok(LoginMessage(r)) => LoginReceived(r)
    case Ok(SyncEvent(r, e)) => JoinedTimelineEvent(r, e)
    case Ok(SyncState(r, e)) => JoinedStateEvent(r, e)
    case Ok(RestoredRoom(room)) => RoomRestored(room)
    case Ok(Members(r, m)) => MembersReceived(r, m)
  }

  /** The message a handler call was made for, if it was one. */
  function MessageOf(call: HandlerCall): Option<ClientMessage>
  {
    match call
    case LoginReceived(r) => Some(LoginMessage(r))
    case JoinedTimelineEvent(r, e) => Some(SyncEvent(r, e))
    case JoinedStateEvent(r, e) => Some(SyncState(r, e))
    case RoomRestored(room) => Some(RestoredRoom(room))
    case MembersReceived(r, m) => Some(Members(r, m))
    case ErrorPrinted(_) => None
  }

  /** Every message reaches the server unchanged, through the handler of its
      own variant and with its own room; every error item is printed. */
  lemma HandlerForIsFaithful(item: Outgoing)
    ensures item.Ok? ==> MessageOf(HandlerFor(item)) == Some(item.value)
    ensures item.Err? ==> HandlerFor(item) == ErrorPrinted(SyncErrorText(item.error))
  {
  }

  /** The handler calls for some items, one per item, in order. */
  function Dispatch(items: seq<Outgoing>): (log: seq<HandlerCall>)
    ensures |log| == |items|
  {
    if items == [] then []
    else Dispatch(items[..|items| - 1]) + [HandlerFor(items[|items| - 1])]
  }

  /** The i-th handler call is the one for the i-th item. */
  lemma {:induction false} DispatchPointwise(items: seq<Outgoing>)
    ensures forall i :: 0 <= i < |items| ==> Dispatch(items)[i] == HandlerFor(items[i])
  {
    if items != [] {
      var prefix := items[..|items| - 1];
      DispatchPointwise(prefix);
      assert forall i :: 0 <= i < |prefix| ==> items[i] == prefix[i];
    }
  }

  /** Everything one run of the receiver does with what is queued: handle
      every item, then, if no sender is left, print the receive error. */
  function ReceiverLog(queue: seq<Outgoing>, disconnected: bool): seq<HandlerCall>
  {
    Dispatch(queue) + (if disconnected then [ErrorPrinted(RECV_ERROR_TEXT)] else [])
  }

  /** The messages among some items, in order. */
  function OkMessages(items: seq<Outgoing>): seq<ClientMessage>
  {
    if items == [] then []
    else OkMessages(items[..|items| - 1]) + (if items[|items| - 1].Ok? then [items[|items| - 1].value] else [])
  }

  /** The messages the server was handed, in order. */
  function Handled(log: seq<HandlerCall>): seq<ClientMessage>
  {
    if log == [] then []
    else
      var last := MessageOf(log[|log| - 1]);
      Handled(log[..|log| - 1]) + (if last.Some? then [last.value] else [])
  }

  /** The server is handed exactly the messages that were received, in
      receive order: none lost, none added, none reordered. */
  lemma {:induction false} HandledInReceiveOrder(items: seq<Outgoing>)
    ensures Handled(Dispatch(items)) == OkMessages(items)
  {
    if items != [] {
      var prefix := items[..|items| - 1];
      HandledInReceiveOrder(prefix);
      var log := Dispatch(items);
      assert log[..|log| - 1] == Dispatch(prefix);
      HandlerForIsFaithful(items[|items| - 1]);
    }
  }

  /** Handling one more item adds its handler call at the end. */
  lemma DispatchSnoc(items: seq<Outgoing>, item: Outgoing)
    ensures Dispatch(items + [item]) == Dispatch(items) + [HandlerFor(item)]
  {
    assert (items + [item])[..|items|] == items;
  }

  /** Handling distributes over concatenation. */
  lemma {:induction false} DispatchAppend(a: seq<Outgoing>, b: seq<Outgoing>)
    ensures Dispatch(a + b) == Dispatch(a) + Dispatch(b)
  {
    var l, r := Dispatch(a + b), Dispatch(a) + Dispatch(b);
    DispatchPointwise(a + b);
    DispatchPointwise(a);
    DispatchPointwise(b);
    assert |l| == |r|;
    forall i | 0 <= i < |l| ensures l[i] == r[i] {
      if i < |a| { assert (a + b)[i] == a[i]; } else { assert (a + b)[i] == b[i - |a|]; }
    }
  }

  /** An error item is printed and the loop carries on with the next item. */
  lemma InnerErrorContinues(e: string, rest: seq<Outgoing>, disconnected: bool)
    ensures ReceiverLog([Err(e)] + rest, disconnected) == [ErrorPrinted(SyncErrorText(e))] + ReceiverLog(rest, disconnected)
  {
    DispatchAppend([Err(e)], rest);
  }

  /** The receive error is printed at most once, as the last thing the
      receiver does, and only when no sender is left. */
  lemma RecvErrorPrintedOnceAtEnd(queue: seq<Outgoing>, disconnected: bool)
    ensures var log := ReceiverLog(queue, disconnected);
      && (forall i :: 0 <= i < |queue| ==> log[i] != ErrorPrinted(RECV_ERROR_TEXT))
      && (disconnected <==> |log| == |queue| + 1)
      && (disconnected ==> log[|queue|] == ErrorPrinted(RECV_ERROR_TEXT))
  {
    var log := ReceiverLog(queue, disconnected);
    DispatchPointwise(queue);
    forall i | 0 <= i < |queue| ensures log[i] != ErrorPrinted(RECV_ERROR_TEXT) {
      if queue[i].Err? {
        assert SyncErrorText(queue[i].error)[0] == 'R';
      }
    }
  }

  /** The server: the handlers the receiver calls, each recorded in the log. */
  class Server {
    var log: seq<HandlerCall>

    constructor ()
      ensures log == []
    {
      log := [];
    }

    method ReceiveLogin(r: LoginResponse)
      modifies this
      ensures log == old(log) + [LoginReceived(r)]
    {
      log := log + [LoginReceived(r)];
    }

    method ReceiveJoinedTimelineEvent(roomId: RoomId, e: TimelineEvent)
      modifies this
      ensures log == old(log) + [JoinedTimelineEvent(roomId, e)]
    {
      log := log + [JoinedTimelineEvent(roomId, e)];
    }

    method ReceiveJoinedStateEvent(roomId: RoomId, e: StateEvent)
      modifies this
      ensures log == old(log) + [JoinedStateEvent(roomId, e)]
    {
      log := log + [JoinedStateEvent(roomId, e)];
    }

    method RestoreRoom(room: Room)
      modifies this
      ensures log == old(log) + [RoomRestored(room)]
    {
      log := log + [RoomRestored(room)];
    }

    method ReceiveMembers(roomId: RoomId, m: MembersResponse)
      modifies this
      ensures log == old(log) + [MembersReceived(roomId, m)]
    {
      log := log + [MembersReceived(roomId, m)];
    }

    method PrintError(text: string)
      modifies this
      ensures log == old(log) + [ErrorPrinted(text)]
    {
      log := log + [ErrorPrinted(text)];
    }
  }

  /** The body of the receive loop for one received item. */
  method Handle(server: Server, item: Outgoing)
    modifies server
    ensures server.log == old(server.log) + [HandlerFor(item)]
  {
    match item
    case Ok(message) =>
      match message {
        case LoginMessage(r) => server.ReceiveLogin(r);
        case SyncEvent(r, e) => server.ReceiveJoinedTimelineEvent(r, e);
        case SyncState(r, e) => server.ReceiveJoinedStateEvent(r, e);
        case RestoredRoom(room) => server.RestoreRoom(room);
        case Members(room, e) => server.ReceiveMembers(room, e);
      }
    case Err(e) => server.PrintError(SyncErrorText(e));
  }

  /**
   * `response_receiver`: receive and handle items until the channel is
   * empty. If no sender is left the receive error is printed and the loop
   * ends (`stopped`); otherwise the loop is suspended in `recv`, and a later
   * call continues it, since it keeps no state of its own between items.
   */
  method ResponseReceiver(rx: Channel, server: Server) returns (stopped: bool)
    requires rx.Valid()
    modifies rx, server
    ensures rx.Valid() && rx.queue == [] && rx.disconnected == old(rx.disconnected) && rx.sent == old(rx.sent)
    ensures rx.delivered == old(rx.delivered) + old(rx.queue)
    ensures server.log == old(server.log) + ReceiverLog(old(rx.queue), rx.disconnected)
    ensures stopped == rx.disconnected
  {
    ghost var received: seq<Outgoing> := [];
    while true
      invariant rx.Valid() && rx.disconnected == old(rx.disconnected) && rx.sent == old(rx.sent)
      invariant old(rx.queue) == received + rx.queue
      invariant rx.delivered == old(rx.delivered) + received
      invariant server.log == old(server.log) + Dispatch(received)
      decreases |rx.queue|
    {
      var ret := rx.Recv();
      match ret
      case Disconnected =>
        server.PrintError(RECV_ERROR_TEXT);
        assert received == old(rx.queue);
        return true;
      case Pending =>
        assert received == old(rx.queue);
        return false;
      case Received(item) =>
        Handle(server, item);
        DispatchSnoc(received, item);
        received := received + [item];
    }
  }
}
