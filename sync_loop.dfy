/**
 * The sync loop (src/connection.rs, `sync_loop`): the login bootstrap, the
 * sync settings, and the flattening of each sync response into channel
 * messages.
 *
 * The protocol client is an oracle: whether it is logged in, what `login`
 * answers to a request, the id the filter upload returns, the stored sync token, and the
 * finite run of responses `sync_with_callback` delivers, each with the
 * client's view of which joined rooms have their members synced.
 */
module SyncLoop {
  import opened Wrappers
  import opened Messages
  import opened DeviceStore

  /** `DEFAULT_SYNC_TIMEOUT`, in seconds. */
  const DEFAULT_SYNC_TIMEOUT_SECS: nat := 30

  /** The device display name given to `login`. */
  const CLIENT_DISPLAY_NAME: string := "Weechat-Matrix-rs"

  /** `sync_filter()`, uploaded under the name "sync" by `get_or_upload_filter`
      (an oracle of `RunSyncLoop`): lazy-loaded members without redundant ones,
      at most 10 state events. */
  datatype FilterDefinition = FilterDefinition(lazyLoadMembers: bool, includeRedundantMembers: bool, stateLimit: Option<nat>)
  const SYNC_FILTER_NAME: string := "sync"
  const SYNC_FILTER: FilterDefinition := FilterDefinition(true, false, Some(10))

  datatype LoginRequest = LoginRequest(user: string, password: string, deviceId: Option<string>, displayName: Option<string>)

  /** A rejected login, as its `{:?}` rendering. */
  datatype LoginError = LoginError(debug: string)

  /** What the bootstrap does, in order. */
  datatype Effect =
    | ReadDeviceId(path: Path)
    | CallLogin(request: LoginRequest)
    | WriteDeviceId(path: Path, deviceId: string)
    | Emit(message: Outgoing)

  /** The bootstrap's effects, the disk afterwards, and whether the loop goes
      on to stream. */
  datatype Bootstrap = Bootstrap(effects: seq<Effect>, fs: FileSystem, streaming: bool)

  function ReadErrorText(serverName: string, e: IoError): string
  {
    "Error while reading the device id for server " + serverName + ": " + e.debug
  }

  function WriteErrorText(serverName: string, e: IoError): string
  {
    "Error while writing the device id for server " + serverName + ": " + e.debug
  }

  function LoginErrorText(e: LoginError): string
  {
    "Failed to log in: " + e.debug
  }

  /** The messages among some effects, in order. */
  function Emitted(effects: seq<Effect>): seq<Outgoing>
  {
    if effects == [] then []
    else
      var last := effects[|effects| - 1];
      Emitted(effects[..|effects| - 1]) + (if last.Emit? then [last.message] else [])
  }

  /** The arguments of `client.login`. */
  function LoginRequestFor(username: string, password: string, deviceId: Option<string>): LoginRequest
  {
    LoginRequest(username, password, deviceId, Some(CLIENT_DISPLAY_NAME))
  }

  /** The bootstrap block of `sync_loop` with the device id kept in the file
      at `path`: when the client is not logged in, load the device id, log in
      with it, save the device id the server returns, then announce the
      login; any failure sends one error and ends the loop. */
  function BootstrapAt(loggedIn: bool, fs: FileSystem, path: Path, username: string, password: string,
                       serverName: string, login: LoginRequest -> Result<LoginResponse, LoginError>): Bootstrap
  {
    if loggedIn then Bootstrap([], fs, true)
    else
      match LoadFrom(fs, path)
      case Err(e) =>
        Bootstrap([ReadDeviceId(path), Emit(Err(ReadErrorText(serverName, e)))], fs, false)
      case Ok(deviceId) =>
        var request := LoginRequestFor(username, password, deviceId);
        match login(request)
        case Err(e) =>
          Bootstrap([ReadDeviceId(path), CallLogin(request), Emit(Err(LoginErrorText(e)))], fs, false)
        case Ok(response) =>
          var saved := WriteFile(fs, path, response.deviceId);
          var done := [ReadDeviceId(path), CallLogin(request), WriteDeviceId(path, response.deviceId)];
          match saved.result
          case Err(e) => Bootstrap(done + [Emit(Err(WriteErrorText(serverName, e)))], saved.fs, false)
          case Ok(_) => Bootstrap(done + [Emit(Ok(LoginMessage(response)))], saved.fs, true)
  }

  /** The bootstrap block of `sync_loop` as written: `load_device_id` and
      `save_device_id` both use the file they derive from the server's
      directory and the user name. */
  function BootstrapSpec(loggedIn: bool, fs: FileSystem, username: string, password: string, serverName: string,
                         serverPath: Path, login: LoginRequest -> Result<LoginResponse, LoginError>): Bootstrap
  {
    BootstrapAt(loggedIn, fs, WrittenDeviceIdPath(serverPath, username), username, password, serverName, login)
  }

  // ---------------------------------------------------------------------
  // Sync settings.
  // ---------------------------------------------------------------------

  /** `SyncSettings`: all unset when new. */
  datatype SyncSettings = SyncSettings(timeoutSecs: Option<nat>, filterId: Option<string>, token: Option<string>)

  /** `SyncSettings::new().timeout(..).filter(..)`, plus `.token(t)` when the
      client has a stored token. */
  function MakeSyncSettings(filterId: string, syncToken: Option<string>): (s: SyncSettings)
    ensures s.token == syncToken
    ensures s.timeoutSecs == Some(DEFAULT_SYNC_TIMEOUT_SECS) && s.filterId == Some(filterId)
  {
    var base := SyncSettings(None, None, None).(timeoutSecs := Some(DEFAULT_SYNC_TIMEOUT_SECS)).(filterId := Some(filterId));
    match syncToken
    case Some(t) => base.(token := Some(t))
    case None => base
  }

  // ---------------------------------------------------------------------
  // Flattening a sync response.
  // ---------------------------------------------------------------------

  datatype JoinedRoom = JoinedRoom(state: seq<StateEvent>, timeline: seq<TimelineEvent>)

  /** `response.rooms.join`, in the order the map is iterated. */
  datatype SyncResponse = SyncResponse(join: seq<(RoomId, JoinedRoom)>)

  /** One response, and for each room the client knows as joined whether its
      members are synced (`get_joined_room` and `are_members_synced`). */
  datatype Poll = Poll(response: SyncResponse, membersSynced: map<RoomId, bool>)

  /** One `SyncState` per state event, in order. */
  function StateMessages(roomId: RoomId, events: seq<StateEvent>): (r: seq<Outgoing>)
    ensures |r| == |events|
  {
    if events == [] then []
    else StateMessages(roomId, events[..|events| - 1]) + [Ok(SyncState(roomId, events[|events| - 1]))]
  }

  /** The i-th message is the `SyncState` of the i-th event. */
  lemma {:induction false} StateMessagesPointwise(roomId: RoomId, events: seq<StateEvent>)
    ensures forall i :: 0 <= i < |events| ==> StateMessages(roomId, events)[i] == Ok(SyncState(roomId, events[i]))
  {
    if events != [] {
      var prefix := events[..|events| - 1];
      StateMessagesPointwise(roomId, prefix);
      assert forall i :: 0 <= i < |prefix| ==> events[i] == prefix[i];
    }
  }

  /** One `SyncEvent` per timeline event, in order. */
  function TimelineMessages(roomId: RoomId, events: seq<TimelineEvent>): (r: seq<Outgoing>)
    ensures |r| == |events|
  {
    if events == [] then []
    else TimelineMessages(roomId, events[..|events| - 1]) + [Ok(SyncEvent(roomId, events[|events| - 1]))]
  }

  /** The i-th message is the `SyncEvent` of the i-th event. */
  lemma {:induction false} TimelineMessagesPointwise(roomId: RoomId, events: seq<TimelineEvent>)
    ensures forall i :: 0 <= i < |events| ==> TimelineMessages(roomId, events)[i] == Ok(SyncEvent(roomId, events[i]))
  {
    if events != [] {
      var prefix := events[..|events| - 1];
      TimelineMessagesPointwise(roomId, prefix);
      assert forall i :: 0 <= i < |prefix| ==> events[i] == prefix[i];
    }
  }

  /** The messages for one joined room: its state events, then its timeline events. */
  function RoomBlock(roomId: RoomId, room: JoinedRoom): seq<Outgoing>
  {
    StateMessages(roomId, room.state) + TimelineMessages(roomId, room.timeline)
  }

  /** The messages for all joined rooms, room after room. */
  function Flatten(rooms: seq<(RoomId, JoinedRoom)>): seq<Outgoing>
  {
    if rooms == [] then []
    else Flatten(rooms[..|rooms| - 1]) + RoomBlock(rooms[|rooms| - 1].0, rooms[|rooms| - 1].1)
  }

  /** The rooms whose member list is fetched: those the client knows as joined
      and whose members are not synced, in order. */
  function MembersToFetch(rooms: seq<(RoomId, JoinedRoom)>, membersSynced: map<RoomId, bool>): seq<RoomId>
  {
    if rooms == [] then []
    else
      var id := rooms[|rooms| - 1].0;
      MembersToFetch(rooms[..|rooms| - 1], membersSynced) + (if id in membersSynced && !membersSynced[id] then [id] else [])
  }

  function RoomIds(rooms: seq<(RoomId, JoinedRoom)>): set<RoomId>
  {
    set k | 0 <= k < |rooms| :: rooms[k].0
  }

  /** What one spawned member fetch sends: the members, only if the fetch succeeded. */
  function MembersFetched(roomId: RoomId, fetched: Result<MembersResponse, string>): seq<Outgoing>
  {
    match fetched
    case Ok(members) => [Ok(Members(roomId, members))]
    case Err(_) => []
  }

  /** What all the spawned fetches send, each after its own fetch, whose
      result is the one at the same position in `results` (their
      interleaving with the main loop is not modelled). */
  function SpawnedMessages(fetches: seq<RoomId>, results: seq<Result<MembersResponse, string>>): seq<Outgoing>
    requires |results| == |fetches|
  {
    if fetches == [] then []
    else
      var n := |fetches| - 1;
      SpawnedMessages(fetches[..n], results[..n]) + MembersFetched(fetches[n], results[n])
  }

  /** The messages of a run of polls, poll after poll. */
  function PollMessages(polls: seq<Poll>): seq<Outgoing>
  {
    if polls == [] then []
    else PollMessages(polls[..|polls| - 1]) + Flatten(polls[|polls| - 1].response.join)
  }

  /** The member fetches a run of polls starts, in order. */
  function PollFetches(polls: seq<Poll>): seq<RoomId>
  {
    if polls == [] then []
    else
      var last := polls[|polls| - 1];
      PollFetches(polls[..|polls| - 1]) + MembersToFetch(last.response.join, last.membersSynced)
  }

  /** Everything the main loop sends: the bootstrap's message, then the
      polls' messages if it goes on to stream. */
  function LoopOutput(boot: Bootstrap, polls: seq<Poll>): seq<Outgoing>
  {
    Emitted(boot.effects) + (if boot.streaming then PollMessages(polls) else [])
  }

  /** The two inner loops of the per-room closure: the room's state events,
      then its timeline events. */
  method SendRoomBlock(channel: Channel, roomId: RoomId, room: JoinedRoom)
    requires channel.Valid() && !channel.disconnected
    modifies channel
    ensures channel.Valid() && !channel.disconnected && channel.delivered == old(channel.delivered)
    ensures channel.queue == old(channel.queue) + RoomBlock(roomId, room)
  {
    var j := 0;
    while j < |room.state|
      invariant 0 <= j <= |room.state|
      invariant channel.Valid() && !channel.disconnected && channel.delivered == old(channel.delivered)
      invariant channel.queue == old(channel.queue) + StateMessages(roomId, room.state[..j])
    {
      channel.Send(Ok(SyncState(roomId, room.state[j])));
      assert room.state[..j + 1][..j] == room.state[..j];
      j := j + 1;
    }
    assert room.state[..j] == room.state;
    ghost var middle := channel.queue;
    var k := 0;
    while k < |room.timeline|
      invariant 0 <= k <= |room.timeline|
      invariant channel.Valid() && !channel.disconnected && channel.delivered == old(channel.delivered)
      invariant channel.queue == middle + TimelineMessages(roomId, room.timeline[..k])
    {
      channel.Send(Ok(SyncEvent(roomId, room.timeline[k])));
      assert room.timeline[..k + 1][..k] == room.timeline[..k];
      k := k + 1;
    }
    assert room.timeline[..k] == room.timeline;
  }

  /** The per-room closure of `sync_with_callback`: sends every state event
      and then every timeline event of each joined room, and starts a member
      fetch for each room that needs one (returned, in order). */
  method FlattenResponse(channel: Channel, response: SyncResponse, membersSynced: map<RoomId, bool>)
    returns (fetches: seq<RoomId>)
    requires channel.Valid() && !channel.disconnected
    modifies channel
    ensures channel.Valid() && !channel.disconnected && channel.delivered == old(channel.delivered)
    ensures channel.queue == old(channel.queue) + Flatten(response.join)
    ensures fetches == MembersToFetch(response.join, membersSynced)
  {
    var rooms := response.join;
    fetches := [];
    var i := 0;
    while i < |rooms|
      invariant 0 <= i <= |rooms|
      invariant channel.Valid() && !channel.disconnected && channel.delivered == old(channel.delivered)
      invariant channel.queue == old(channel.queue) + Flatten(rooms[..i])
      invariant fetches == MembersToFetch(rooms[..i], membersSynced)
    {
      var (roomId, room) := rooms[i];
      SendRoomBlock(channel, roomId, room);
      if roomId in membersSynced && !membersSynced[roomId] {
        fetches := fetches + [roomId];
      }
      ghost var done := rooms[..i + 1];
      assert done[..|done| - 1] == rooms[..i] && done[|done| - 1] == rooms[i];
      assert Flatten(done) == Flatten(rooms[..i]) + RoomBlock(roomId, room);
      i := i + 1;
    }
    assert rooms[..i] == rooms;
  }

  /** Steps that send nothing, followed by one send, emit just that message. */
  lemma {:induction false} EmittedAfterSilentSteps(steps: seq<Effect>, m: Outgoing)
    requires forall k :: 0 <= k < |steps| ==> !steps[k].Emit?
    ensures Emitted(steps) == [] && Emitted(steps + [Emit(m)]) == [m]
  {
    if steps != [] {
      EmittedAfterSilentSteps(steps[..|steps| - 1], m);
    }
    assert (steps + [Emit(m)])[..|steps|] == steps;
  }

  /** The messages of a bootstrap: none when the client is already logged
      in, otherwise exactly one, sent as the last step. */
  lemma {:induction false} BootstrapEmitsOnce(loggedIn: bool, fs: FileSystem, path: Path, username: string, password: string,
                                               serverName: string, login: LoginRequest -> Result<LoginResponse, LoginError>)
    ensures var boot := BootstrapAt(loggedIn, fs, path, username, password, serverName, login);
      if loggedIn then boot.effects == [] && Emitted(boot.effects) == []
      else
        && boot.effects != [] && boot.effects[|boot.effects| - 1].Emit?
        && Emitted(boot.effects) == [boot.effects[|boot.effects| - 1].message]
        && forall k :: 0 <= k < |boot.effects| - 1 ==> !boot.effects[k].Emit?
  {
    var boot := BootstrapAt(loggedIn, fs, path, username, password, serverName, login);
    if !loggedIn {
      var steps: seq<Effect>, m: Outgoing;
      match LoadFrom(fs, path) {
        case Err(e) =>
          steps, m := [ReadDeviceId(path)], Err(ReadErrorText(serverName, e));
        case Ok(deviceId) =>
          var request := LoginRequestFor(username, password, deviceId);
          match login(request) {
            case Err(e) =>
              steps, m := [ReadDeviceId(path), CallLogin(request)], Err(LoginErrorText(e));
            case Ok(response) =>
              var saved := WriteFile(fs, path, response.deviceId);
              steps := [ReadDeviceId(path), CallLogin(request), WriteDeviceId(path, response.deviceId)];
              m := if saved.result.Err? then Err(WriteErrorText(serverName, saved.result.error)) else Ok(LoginMessage(response));
          }
      }
      assert boot.effects == steps + [Emit(m)];
      EmittedAfterSilentSteps(steps, m);
      assert boot.effects[|boot.effects| - 1] == Emit(m);
    }
  }

  /** The `if !client.logged_in()` block of `sync_loop`, which returns from
      the loop, dropping its sender, on each failure. */
  method RunBootstrap(channel: Channel, loggedIn: bool, fs: FileSystem, username: string, password: string,
                      serverName: string, serverPath: Path, login: LoginRequest -> Result<LoginResponse, LoginError>)
    returns (boot: Bootstrap)
    requires channel.Valid() && !channel.disconnected
    modifies channel
    ensures channel.Valid() && channel.delivered == old(channel.delivered)
    ensures boot == BootstrapSpec(loggedIn, fs, username, password, serverName, serverPath, login)
    ensures channel.queue == old(channel.queue) + Emitted(boot.effects)
    ensures channel.disconnected == !boot.streaming
  {
    var path := WrittenDeviceIdPath(serverPath, username);
    BootstrapEmitsOnce(loggedIn, fs, path, username, password, serverName, login);
    if loggedIn {
      return Bootstrap([], fs, true);
    }
    var loaded := LoadDeviceId(fs, username, serverPath);
    if loaded.Err? {
      var m := Err(ReadErrorText(serverName, loaded.error));
      channel.Send(m);
      channel.DropSender();
      return Bootstrap([ReadDeviceId(path), Emit(m)], fs, false);
    }
    var request := LoginRequestFor(username, password, loaded.value);
    var ret := login(request);
    if ret.Err? {
      var m := Err(LoginErrorText(ret.error));
      channel.Send(m);
      channel.DropSender();
      return Bootstrap([ReadDeviceId(path), CallLogin(request), Emit(m)], fs, false);
    }
    var response := ret.value;
    var saved := SaveDeviceId(fs, username, serverPath, response.deviceId);
    var done := [ReadDeviceId(path), CallLogin(request), WriteDeviceId(path, response.deviceId)];
    if saved.result.Err? {
      var m := Err(WriteErrorText(serverName, saved.result.error));
      channel.Send(m);
      channel.DropSender();
      return Bootstrap(done + [Emit(m)], saved.fs, false);
    }
    var m := Ok(LoginMessage(response));
    channel.Send(m);
    return Bootstrap(done + [Emit(m)], saved.fs, true);
  }

  /** `sync_with_callback` over a run of polls: one flattening per poll. */
  method Stream(channel: Channel, polls: seq<Poll>) returns (fetches: seq<RoomId>)
    requires channel.Valid() && !channel.disconnected
    modifies channel
    ensures channel.Valid() && !channel.disconnected && channel.delivered == old(channel.delivered)
    ensures channel.queue == old(channel.queue) + PollMessages(polls)
    ensures fetches == PollFetches(polls)
  {
    fetches := [];
    var i := 0;
    while i < |polls|
      invariant 0 <= i <= |polls|
      invariant channel.Valid() && !channel.disconnected && channel.delivered == old(channel.delivered)
      invariant channel.queue == old(channel.queue) + PollMessages(polls[..i])
      invariant fetches == PollFetches(polls[..i])
    {
      var started := FlattenResponse(channel, polls[i].response, polls[i].membersSynced);
      fetches := fetches + started;
      ghost var done := polls[..i + 1];
      assert done[..|done| - 1] == polls[..i] && done[|done| - 1] == polls[i];
      assert PollMessages(done) == PollMessages(polls[..i]) + Flatten(polls[i].response.join);
      assert PollFetches(done) == PollFetches(polls[..i]) + MembersToFetch(polls[i].response.join, polls[i].membersSynced);
      AppendAssoc(old(channel.queue), PollMessages(polls[..i]), Flatten(polls[i].response.join));
      i := i + 1;
    }
    assert polls[..i] == polls;
  }

  /** The part of `sync_loop` after a successful bootstrap: the filter and
      settings, then `sync_with_callback` over the polls. */
  method SyncPhase(channel: Channel, uploadFilter: (string, FilterDefinition) -> string, syncToken: Option<string>,
                   polls: seq<Poll>)
    returns (settings: SyncSettings, fetches: seq<RoomId>)
    requires channel.Valid() && !channel.disconnected
    modifies channel
    ensures channel.Valid() && !channel.disconnected && channel.delivered == old(channel.delivered)
    ensures channel.queue == old(channel.queue) + PollMessages(polls)
    ensures settings == MakeSyncSettings(uploadFilter(SYNC_FILTER_NAME, SYNC_FILTER), syncToken)
    ensures fetches == PollFetches(polls)
  {
    var filterId := uploadFilter(SYNC_FILTER_NAME, SYNC_FILTER);
    settings := MakeSyncSettings(filterId, syncToken);
    fetches := Stream(channel, polls);
  }

  /** Concatenation is associative. */
  lemma AppendAssoc<T>(a: seq<T>, b: seq<T>, c: seq<T>)
    ensures a + b + c == a + (b + c)
  {
  }

  /**
   * `sync_loop`: the bootstrap, then, if it succeeded, the sync settings and
   * one flattening per poll. Returns what the bootstrap did (its effects, the
   * disk afterwards and whether it went on), the settings used for syncing
   * (none if it never got there) and the member fetches started.
   */
  method RunSyncLoop(channel: Channel, loggedIn: bool, fs: FileSystem, username: string, password: string,
                     serverName: string, serverPath: Path, login: LoginRequest -> Result<LoginResponse, LoginError>,
                     uploadFilter: (string, FilterDefinition) -> string, syncToken: Option<string>, polls: seq<Poll>)
    returns (boot: Bootstrap, settings: Option<SyncSettings>, fetches: seq<RoomId>)
    requires channel.Valid() && !channel.disconnected
    modifies channel
    ensures boot == BootstrapSpec(loggedIn, fs, username, password, serverName, serverPath, login)
    ensures channel.Valid() && channel.delivered == old(channel.delivered)
    ensures channel.queue == old(channel.queue) + LoopOutput(boot, polls)
    ensures channel.disconnected == !boot.streaming
    ensures settings == (if boot.streaming then Some(MakeSyncSettings(uploadFilter(SYNC_FILTER_NAME, SYNC_FILTER), syncToken)) else None)
    ensures fetches == (if boot.streaming then PollFetches(polls) else [])
  {
    ghost var before := channel.queue;
    boot := RunBootstrap(channel, loggedIn, fs, username, password, serverName, serverPath, login);
    settings, fetches := None, [];
    if !boot.streaming {
      assert LoopOutput(boot, polls) == Emitted(boot.effects);
      return;
    }
    var used;
    used, fetches := SyncPhase(channel, uploadFilter, syncToken, polls);
    settings := Some(used);
    AppendAssoc(before, Emitted(boot.effects), PollMessages(polls));
  }
}
