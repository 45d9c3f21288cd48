/**
 * The sync loop and the response receiver together: what the server is
 * handed for what the loop sends, when the receiver drains the channel the
 * loop filled (src/connection.rs, `Connection::new` wires the two ends).
 */
module Session {
  import opened Wrappers
  import opened Messages
  import opened DeviceStore
  import opened SyncLoop
  import opened SyncLoopProperties
  import opened Dispatcher

  /** A bootstrap that fails reaches the user as exactly one printed error,
      followed by the receive error once the loop has dropped its sender;
      the server is never told of a login. */
  lemma FailedBootstrapPrintsOneError(loggedIn: bool, fs: FileSystem, path: Path, username: string, password: string,
                                      serverName: string, login: LoginRequest -> Result<LoginResponse, LoginError>, polls: seq<Poll>)
    requires !BootstrapAt(loggedIn, fs, path, username, password, serverName, login).streaming
    ensures var boot := BootstrapAt(loggedIn, fs, path, username, password, serverName, login);
      var log := ReceiverLog(LoopOutput(boot, polls), true);
      && |Emitted(boot.effects)| == 1
      && log == [ErrorPrinted(SyncErrorText(Emitted(boot.effects)[0].error)), ErrorPrinted(RECV_ERROR_TEXT)]
      && Handled(log) == []
  {
    BootstrapSendsOneMessage(loggedIn, fs, path, username, password, serverName, login);
    var boot := BootstrapAt(loggedIn, fs, path, username, password, serverName, login);
    assert LoopOutput(boot, polls) == Emitted(boot.effects);
    OneErrorThenDisconnect(Emitted(boot.effects));
  }

  /** The receiver, given one error item and no sender: the error is printed,
      then the receive error, and no message reaches the server. */
  lemma OneErrorThenDisconnect(out: seq<Outgoing>)
    requires |out| == 1 && out[0].Err?
    ensures var log := ReceiverLog(out, true);
      && log == [ErrorPrinted(SyncErrorText(out[0].error)), ErrorPrinted(RECV_ERROR_TEXT)]
      && Handled(log) == []
  {
    var log := ReceiverLog(out, true);
    assert log[..1] == Dispatch(out);
    assert log[..1][..0] == [];
    assert Handled(log[..1]) == [];
  }

  /** After a successful login the server is handed the login first, and then
      exactly the room messages of the polls, in the order they were sent. */
  lemma LoginHandledFirst(fs: FileSystem, path: Path, username: string, password: string,
                          serverName: string, login: LoginRequest -> Result<LoginResponse, LoginError>, polls: seq<Poll>,
                          deviceId: Option<string>, response: LoginResponse)
    requires LoadFrom(fs, path) == Ok(deviceId)
    requires login(LoginRequestFor(username, password, deviceId)) == Ok(response)
    requires BootstrapAt(false, fs, path, username, password, serverName, login).streaming
    ensures var out := LoopOutput(BootstrapAt(false, fs, path, username, password, serverName, login), polls);
      var log := ReceiverLog(out, false);
      && log[0] == LoginReceived(response)
      && Handled(log) == OkMessages(out)
      && out == [Ok(LoginMessage(response))] + PollMessages(polls)
  {
    var boot := BootstrapAt(false, fs, path, username, password, serverName, login);
    BootstrapEmitsOnce(false, fs, path, username, password, serverName, login);
    var out := LoopOutput(boot, polls);
    assert Emitted(boot.effects) == [Ok(LoginMessage(response))];
    var log := ReceiverLog(out, false);
    assert log == Dispatch(out);
    HandledInReceiveOrder(out);
    DispatchPointwise(out);
  }
}
