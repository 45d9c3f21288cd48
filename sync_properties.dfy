/**
 * What the sync loop promises: the outcomes of the login bootstrap, the
 * persistence of the device id across restarts, and the order and content
 * of the messages a sync response is flattened into.
 */
module SyncLoopProperties {
  import opened Wrappers
  import opened Messages
  import opened DeviceStore
  import opened SyncLoop

  // ---------------------------------------------------------------------
  // Bootstrap.
  // ---------------------------------------------------------------------

  /** A bootstrap that does not go on to stream has sent exactly one error
      and no login message; one that does has sent, if anything, exactly the
      login message. */
  lemma BootstrapSendsOneMessage(loggedIn: bool, fs: FileSystem, path: Path, username: string, password: string,
                                 serverName: string, login: LoginRequest -> Result<LoginResponse, LoginError>)
    ensures var boot := BootstrapAt(loggedIn, fs, path, username, password, serverName, login);
      var sent := Emitted(boot.effects);
      && (!boot.streaming ==> |sent| == 1 && sent[0].Err?)
      && (boot.streaming && !loggedIn ==> |sent| == 1 && sent[0].Ok? && sent[0].value.LoginMessage?)
      && (loggedIn ==> sent == [] && boot.streaming && boot.fs == fs)
  {
    BootstrapEmitsOnce(loggedIn, fs, path, username, password, serverName, login);
  }

  /** A device id that cannot be read ends the loop before any login is attempted. */
  lemma LoadFailureSkipsLogin(fs: FileSystem, path: Path, username: string, password: string,
                              serverName: string, login: LoginRequest -> Result<LoginResponse, LoginError>)
    requires LoadFrom(fs, path).Err?
    ensures var boot := BootstrapAt(false, fs, path, username, password, serverName, login);
      && !boot.streaming && boot.fs == fs
      && Emitted(boot.effects) == [Err(ReadErrorText(serverName, LoadFrom(fs, path).error))]
      && forall k :: 0 <= k < |boot.effects| ==> !boot.effects[k].CallLogin? && !boot.effects[k].WriteDeviceId?
  {
    var boot := BootstrapAt(false, fs, path, username, password, serverName, login);
    EmittedAfterSilentSteps(boot.effects[..1], boot.effects[1].message);
    assert boot.effects[..1] + [boot.effects[1]] == boot.effects;
  }

  /** Login is attempted once, with the user's credentials, the client's
      display name and the device id just loaded, if there is one. */
  lemma LoginGetsLoadedDeviceId(fs: FileSystem, path: Path, username: string, password: string,
                                serverName: string, login: LoginRequest -> Result<LoginResponse, LoginError>, k: nat)
    requires var boot := BootstrapAt(false, fs, path, username, password, serverName, login);
      k < |boot.effects| && boot.effects[k].CallLogin?
    ensures var boot := BootstrapAt(false, fs, path, username, password, serverName, login);
      var loaded := LoadFrom(fs, path);
      && k == 1 && boot.effects[0] == ReadDeviceId(path)
      && loaded.Ok?
      && boot.effects[k].request == LoginRequestFor(username, password, loaded.value)
  {
  }

  /** The success path in full: load, log in, save, then announce the login. */
  lemma SuccessfulBootstrapSteps(fs: FileSystem, path: Path, username: string, password: string,
                                 serverName: string, login: LoginRequest -> Result<LoginResponse, LoginError>,
                                 deviceId: Option<string>, response: LoginResponse)
    requires LoadFrom(fs, path) == Ok(deviceId)
    requires login(LoginRequestFor(username, password, deviceId)) == Ok(response)
    requires path !in fs.writeFaults
    ensures var boot := BootstrapAt(false, fs, path, username, password, serverName, login);
      && boot.effects == [ReadDeviceId(path), CallLogin(LoginRequestFor(username, password, deviceId)),
                          WriteDeviceId(path, response.deviceId), Emit(Ok(LoginMessage(response)))]
      && boot.streaming
      && boot.fs == fs.(files := fs.files[path := response.deviceId])
  {
  }

  /** A rejected login ends the loop with one error; nothing is written. */
  lemma LoginFailureStops(fs: FileSystem, path: Path, username: string, password: string,
                          serverName: string, login: LoginRequest -> Result<LoginResponse, LoginError>)
    requires LoadFrom(fs, path).Ok?
    requires login(LoginRequestFor(username, password, LoadFrom(fs, path).value)).Err?
    ensures var boot := BootstrapAt(false, fs, path, username, password, serverName, login);
      var e := login(LoginRequestFor(username, password, LoadFrom(fs, path).value)).error;
      && !boot.streaming && boot.fs == fs
      && Emitted(boot.effects) == [Err(LoginErrorText(e))]
      && forall k :: 0 <= k < |boot.effects| ==> !boot.effects[k].WriteDeviceId?
  {
    var boot := BootstrapAt(false, fs, path, username, password, serverName, login);
    EmittedAfterSilentSteps(boot.effects[..2], boot.effects[2].message);
    assert boot.effects[..2] + [boot.effects[2]] == boot.effects;
  }

  /** A device id that cannot be written after a successful login ends the
      loop with one error and no login message. */
  lemma SaveFailureStops(fs: FileSystem, path: Path, username: string, password: string,
                         serverName: string, login: LoginRequest -> Result<LoginResponse, LoginError>)
    requires LoadFrom(fs, path).Ok?
    requires login(LoginRequestFor(username, password, LoadFrom(fs, path).value)).Ok?
    requires path in fs.writeFaults
    ensures var boot := BootstrapAt(false, fs, path, username, password, serverName, login);
      && !boot.streaming && boot.fs == fs
      && Emitted(boot.effects) == [Err(WriteErrorText(serverName, fs.writeFaults[path]))]
  {
    var boot := BootstrapAt(false, fs, path, username, password, serverName, login);
    EmittedAfterSilentSteps(boot.effects[..3], boot.effects[3].message);
    assert boot.effects[..3] + [boot.effects[3]] == boot.effects;
  }

  /** The login message is the last step, right after the device id the
      server returned was written successfully. */
  lemma LoginMessageFollowsSave(loggedIn: bool, fs: FileSystem, path: Path, username: string, password: string,
                                serverName: string, login: LoginRequest -> Result<LoginResponse, LoginError>, k: nat)
    requires var boot := BootstrapAt(loggedIn, fs, path, username, password, serverName, login);
      k < |boot.effects| && boot.effects[k].Emit? && boot.effects[k].message.Ok?
    ensures var boot := BootstrapAt(loggedIn, fs, path, username, password, serverName, login);
      var m := boot.effects[k].message.value;
      && m.LoginMessage? && boot.streaming && k == |boot.effects| - 1
      && boot.effects[k - 1] == WriteDeviceId(path, m.response.deviceId)
      && WriteFile(fs, path, m.response.deviceId) == WriteOutcome(Ok(()), boot.fs)
  {
  }

  /** After a successful first login the device id the server issued can be
      loaded back. */
  lemma BootstrapPersistsDeviceId(fs: FileSystem, path: Path, username: string, password: string,
                                  serverName: string, login: LoginRequest -> Result<LoginResponse, LoginError>,
                                  deviceId: Option<string>, response: LoginResponse)
    requires LoadFrom(fs, path) == Ok(deviceId)
    requires login(LoginRequestFor(username, password, deviceId)) == Ok(response)
    requires BootstrapAt(false, fs, path, username, password, serverName, login).streaming
    requires path !in fs.readFaults
    ensures var boot := BootstrapAt(false, fs, path, username, password, serverName, login);
      LoadFrom(boot.fs, path) == if response.deviceId == "" then Ok(None) else Ok(Some(response.deviceId))
  {
  }

  /** On a restart after a successful login (with no client session left),
      login is attempted with the device id the server issued the first time. */
  lemma RestartReusesDeviceId(fs: FileSystem, path: Path, username: string, password: string, serverName: string,
                              login: LoginRequest -> Result<LoginResponse, LoginError>,
                              relogin: LoginRequest -> Result<LoginResponse, LoginError>,
                              deviceId: Option<string>, response: LoginResponse)
    requires LoadFrom(fs, path) == Ok(deviceId)
    requires login(LoginRequestFor(username, password, deviceId)) == Ok(response)
    requires BootstrapAt(false, fs, path, username, password, serverName, login).streaming
    requires path !in fs.readFaults
    requires response.deviceId != ""
    ensures var first := BootstrapAt(false, fs, path, username, password, serverName, login);
      var second := BootstrapAt(false, first.fs, path, username, password, serverName, relogin);
      second.effects[1] == CallLogin(LoginRequestFor(username, password, Some(response.deviceId)))
  {
    BootstrapPersistsDeviceId(fs, path, username, password, serverName, login, deviceId, response);
  }

  // ---------------------------------------------------------------------
  // Flattening.
  // ---------------------------------------------------------------------

  /** Flattening distributes over concatenation of the room list. */
  lemma {:induction false} FlattenAppend(a: seq<(RoomId, JoinedRoom)>, b: seq<(RoomId, JoinedRoom)>)
    ensures Flatten(a + b) == Flatten(a) + Flatten(b)
    decreases |b|
  {
    if b == [] {
      assert a + b == a;
    } else {
      var b' := b[..|b| - 1];
      var last := b[|b| - 1];
      assert (a + b)[..|a + b| - 1] == a + b';
      assert (a + b)[|a + b| - 1] == last;
      calc {
        Flatten(a + b);
        Flatten(a + b') + RoomBlock(last.0, last.1);
        { FlattenAppend(a, b'); }
        Flatten(a) + Flatten(b') + RoomBlock(last.0, last.1);
        Flatten(a) + Flatten(b);
      }
    }
  }

  /** A room's block: its state events, then its timeline events, each in
      order and each naming the room. */
  lemma RoomBlockShape(roomId: RoomId, room: JoinedRoom)
    ensures var block := RoomBlock(roomId, room);
      && |block| == |room.state| + |room.timeline|
      && (forall i :: 0 <= i < |room.state| ==> block[i] == Ok(SyncState(roomId, room.state[i])))
      && (forall i :: |room.state| <= i < |block| ==> block[i] == Ok(SyncEvent(roomId, room.timeline[i - |room.state|])))
  {
    StateMessagesPointwise(roomId, room.state);
    TimelineMessagesPointwise(roomId, room.timeline);
  }

  /** Each room's messages form one contiguous block, between those of the
      rooms before it and those of the rooms after it. */
  lemma {:induction false} RoomBlockInPlace(rooms: seq<(RoomId, JoinedRoom)>, k: nat)
    requires k < |rooms|
    ensures Flatten(rooms) == Flatten(rooms[..k]) + RoomBlock(rooms[k].0, rooms[k].1) + Flatten(rooms[k + 1..])
  {
    var front, rest := rooms[..k + 1], rooms[k + 1..];
    assert front[..|front| - 1] == rooms[..k];
    assert front[|front| - 1] == rooms[k];
    assert Flatten(front) == Flatten(rooms[..k]) + RoomBlock(rooms[k].0, rooms[k].1);
    assert front + rest == rooms;
    FlattenAppend(front, rest);
  }

  function EventCount(rooms: seq<(RoomId, JoinedRoom)>): nat
  {
    if rooms == [] then 0
    else EventCount(rooms[..|rooms| - 1]) + |rooms[|rooms| - 1].1.state| + |rooms[|rooms| - 1].1.timeline|
  }

  /** One message per state or timeline event of the response, no more. */
  lemma {:induction false} FlattenLength(rooms: seq<(RoomId, JoinedRoom)>)
    ensures |Flatten(rooms)| == EventCount(rooms)
  {
    if rooms != [] {
      FlattenLength(rooms[..|rooms| - 1]);
    }
  }

  /** Flattening produces only state and timeline messages, each naming one
      of the response's joined rooms. */
  lemma {:induction false} FlattenNamesJoinedRooms(rooms: seq<(RoomId, JoinedRoom)>)
    ensures forall m :: m in Flatten(rooms) ==>
      m.Ok? && (m.value.SyncState? || m.value.SyncEvent?) && m.value.roomId in RoomIds(rooms)
  {
    if rooms != [] {
      var prefix := rooms[..|rooms| - 1];
      FlattenNamesJoinedRooms(prefix);
      assert RoomIds(prefix) <= RoomIds(rooms) by {
        forall r | r in RoomIds(prefix) ensures r in RoomIds(rooms) {
          var k :| 0 <= k < |prefix| && prefix[k].0 == r;
          assert rooms[k].0 == r;
        }
      }
      var last := rooms[|rooms| - 1];
      assert last.0 in RoomIds(rooms);
      RoomBlockShape(last.0, last.1);
      forall m | m in RoomBlock(last.0, last.1)
        ensures m.Ok? && (m.value.SyncState? || m.value.SyncEvent?) && m.value.roomId == last.0
      {
        var i :| 0 <= i < |RoomBlock(last.0, last.1)| && RoomBlock(last.0, last.1)[i] == m;
      }
    }
  }

  /** The messages of a run of polls are all state and timeline messages. */
  lemma {:induction false} PollMessagesAreSyncMessages(polls: seq<Poll>)
    ensures forall m :: m in PollMessages(polls) ==> m.Ok? && (m.value.SyncState? || m.value.SyncEvent?)
  {
    if polls != [] {
      PollMessagesAreSyncMessages(polls[..|polls| - 1]);
      FlattenNamesJoinedRooms(polls[|polls| - 1].response.join);
    }
  }

  /** A member fetch is started for a room exactly when the room is in the
      response, the client knows it as joined, and its members are not synced. */
  lemma {:induction false} MembersToFetchExactly(rooms: seq<(RoomId, JoinedRoom)>, membersSynced: map<RoomId, bool>, r: RoomId)
    ensures r in MembersToFetch(rooms, membersSynced) <==> r in RoomIds(rooms) && r in membersSynced && !membersSynced[r]
  {
    if rooms != [] {
      var prefix := rooms[..|rooms| - 1];
      MembersToFetchExactly(prefix, membersSynced, r);
      if r in RoomIds(rooms) {
        var k :| 0 <= k < |rooms| && rooms[k].0 == r;
        if k < |prefix| { assert prefix[k].0 == r; }
      }
      if r in RoomIds(prefix) {
        var k :| 0 <= k < |prefix| && prefix[k].0 == r;
        assert rooms[k].0 == r;
      }
    }
  }

  /** A `Members` message only comes from a fetch that was started and
      succeeded, and carries that fetch's own result for that fetch's room. */
  lemma {:induction false} MembersOnlyFromSuccessfulFetch(fetches: seq<RoomId>, results: seq<Result<MembersResponse, string>>)
    requires |results| == |fetches|
    ensures forall m :: m in SpawnedMessages(fetches, results) ==>
      exists i :: 0 <= i < |fetches| && results[i].Ok? && m == Ok(Members(fetches[i], results[i].value))
  {
    if fetches != [] {
      var n := |fetches| - 1;
      MembersOnlyFromSuccessfulFetch(fetches[..n], results[..n]);
      forall m | m in SpawnedMessages(fetches, results)
        ensures exists i :: 0 <= i < |fetches| && results[i].Ok? && m == Ok(Members(fetches[i], results[i].value))
      {
        if m in SpawnedMessages(fetches[..n], results[..n]) {
          var i :| 0 <= i < n && results[..n][i].Ok? && m == Ok(Members(fetches[..n][i], results[..n][i].value));
          assert results[..n][i] == results[i] && fetches[..n][i] == fetches[i];
        } else {
          assert m in MembersFetched(fetches[n], results[n]);
        }
      }
    }
  }

  /** Over a run of polls: every `Members` message is the successful result
      of one started fetch, for a room some poll listed as joined with
      unsynced members. */
  lemma {:induction false} MembersOnlyForUnsyncedRooms(polls: seq<Poll>, results: seq<Result<MembersResponse, string>>, m: Outgoing)
    requires |results| == |PollFetches(polls)|
    requires m in SpawnedMessages(PollFetches(polls), results)
    ensures m.Ok? && m.value.Members?
    ensures exists i :: 0 <= i < |results| && results[i] == Ok(m.value.members) && PollFetches(polls)[i] == m.value.roomId
    ensures exists k :: (0 <= k < |polls| && m.value.roomId in RoomIds(polls[k].response.join)
                         && m.value.roomId in polls[k].membersSynced && !polls[k].membersSynced[m.value.roomId])
  {
    var fetches := PollFetches(polls);
    MembersOnlyFromSuccessfulFetch(fetches, results);
    var i :| 0 <= i < |fetches| && results[i].Ok? && m == Ok(Members(fetches[i], results[i].value));
    FetchedInSomePoll(polls, fetches[i]);
  }

  lemma {:induction false} FetchedInSomePoll(polls: seq<Poll>, r: RoomId)
    requires r in PollFetches(polls)
    ensures exists k :: (0 <= k < |polls| && r in RoomIds(polls[k].response.join)
                         && r in polls[k].membersSynced && !polls[k].membersSynced[r])
  {
    var n := |polls|;
    var last := polls[n - 1];
    if r in MembersToFetch(last.response.join, last.membersSynced) {
      MembersToFetchExactly(last.response.join, last.membersSynced, r);
    } else {
      FetchedInSomePoll(polls[..n - 1], r);
      var k :| 0 <= k < n - 1 && r in RoomIds(polls[..n - 1][k].response.join)
        && r in polls[..n - 1][k].membersSynced && !polls[..n - 1][k].membersSynced[r];
      assert polls[..n - 1][k] == polls[k];
    }
  }

  // ---------------------------------------------------------------------
  // The whole loop.
  // ---------------------------------------------------------------------

  /** Streaming starts only after the login message: whenever the loop sends
      a room message after logging in itself, its first message is the login
      message, and it is the only login message. */
  lemma StreamingOnlyAfterLogin(loggedIn: bool, fs: FileSystem, path: Path, username: string, password: string,
                                serverName: string, login: LoginRequest -> Result<LoginResponse, LoginError>,
                                polls: seq<Poll>, k: nat)
    requires !loggedIn
    requires var out := LoopOutput(BootstrapAt(loggedIn, fs, path, username, password, serverName, login), polls);
      k < |out| && out[k].Ok? && (out[k].value.SyncState? || out[k].value.SyncEvent?)
    ensures var out := LoopOutput(BootstrapAt(loggedIn, fs, path, username, password, serverName, login), polls);
      && 0 < k && out[0].Ok? && out[0].value.LoginMessage?
      && forall j :: 0 < j < |out| ==> out[j].Ok? && !out[j].value.LoginMessage?
  {
    var boot := BootstrapAt(loggedIn, fs, path, username, password, serverName, login);
    BootstrapSendsOneMessage(loggedIn, fs, path, username, password, serverName, login);
    LoginLeadsOutput(boot, polls, k);
  }

  /** The output of a loop whose bootstrap sent exactly one message, a login
      message when it goes on streaming and an error otherwise. */
  lemma LoginLeadsOutput(boot: Bootstrap, polls: seq<Poll>, k: nat)
    requires |Emitted(boot.effects)| == 1
    requires boot.streaming ==> Emitted(boot.effects)[0].Ok? && Emitted(boot.effects)[0].value.LoginMessage?
    requires !boot.streaming ==> Emitted(boot.effects)[0].Err?
    requires var out := LoopOutput(boot, polls);
      k < |out| && out[k].Ok? && (out[k].value.SyncState? || out[k].value.SyncEvent?)
    ensures var out := LoopOutput(boot, polls);
      && boot.streaming && 0 < k && out[0].Ok? && out[0].value.LoginMessage?
      && forall j :: 0 < j < |out| ==> out[j].Ok? && !out[j].value.LoginMessage?
  {
    PollMessagesAreSyncMessages(polls);
    var out := LoopOutput(boot, polls);
    assert out[0] == Emitted(boot.effects)[0];
    assert boot.streaming;
    forall j | 0 < j < |out| ensures out[j].Ok? && !out[j].value.LoginMessage? {
      assert out[j] == PollMessages(polls)[j - 1];
      assert out[j] in PollMessages(polls);
    }
  }
}
