# Connection core of weechat-matrix-rs, modelled in Dafny

This project models the connection and synchronisation core of the Matrix
client plugin for Weechat, as found in `src/connection.rs`. The core covers:

- persisting the per-user device id on disk (`save_device_id` and `load_device_id`);
- building the interactive-auth payload for privileged requests (`InteractiveAuthInfo::as_auth_data`);
- the login bootstrap of `sync_loop`: load the device id, log in with it, save the
  id the server returns, then announce the login on the channel;
- the sync settings, and the flattening of each sync response into one channel
  message per state or timeline event, plus the decision to fetch a room's members;
- the channel between the network runtime and the Weechat thread;
- `response_receiver`, which hands each message to the server handler for its variant;
- the small argument mappings of `send_message`, `delete_devices` and `send_typing_notice`.

The protocol client, the disk and the server are oracles. The client's answers
are parameters: whether it is logged in, what `login` answers, the id the filter upload returns,
the stored sync token, a finite run of sync responses, and the result of each
member fetch. The disk is a map from paths to contents, with injected read and
write faults. The server is the log of handler calls it receives.

Files and modules:

- `wrappers.dfy` (`Wrappers`): Rust's `Option` and `Result`.
- `device_store.dfy` (`DeviceStore`): paths, the disk, and loading and saving the device id.
- `auth.dfy` (`Auth`): the password auth payload and what a server reads out of it.
- `requests.dfy` (`Requests`): the transaction-id, typing and delete-devices mappings.
- `messages.dfy` (`Messages`): `ClientMessage` and the `Channel` class (a FIFO queue).
- `sync_loop.dfy` (`SyncLoop`): the bootstrap, the sync settings and the flattening,
  as specification functions and as the imperative methods proved against them.
- `sync_properties.dfy` (`SyncLoopProperties`): lemmas about the sync loop.
- `dispatcher.dfy` (`Dispatcher`): the `Server` handler log and the receive loop.
- `session.dfy` (`Session`): lemmas that join the two ends of the channel.

An `Err` item does not end the receiver: the code (src/connection.rs:332) prints
"Ruma error ..." and goes on to the next item (`Dispatcher.InnerErrorContinues`).
The receiver stops only on a receive error. That happens when the queue is empty
and every sender has been dropped, which the sync loop does when it returns early
after a failure.

The bootstrap is stated twice. `SyncLoop.BootstrapAt` is the bootstrap with the
device id kept in a given file. `SyncLoop.BootstrapSpec` is `BootstrapAt` at
`DeviceStore.WrittenDeviceIdPath`, the file that `load_device_id` and
`save_device_id` derive from the server's directory and the user name.
`RunBootstrap` and `RunSyncLoop` are proved against `BootstrapSpec`. The lemmas in
`SyncLoopProperties` and `Session` hold for every device-id file, so in
particular for that one.

## Model

| member | source | states |
|---|---|---|
| `DeviceStore.WrittenDeviceIdPath` | src/connection.rs:259-260 | the device-id file as both functions derive it (also lines 268-269): `push(user_name)` onto the server's directory, then `set_extension("device_id")`, which cuts the name at its last '.' as `file_stem` does |
| `DeviceStore.LoadFrom` | src/connection.rs:271-287 | reading a device-id file: a read error other than NotFound is returned; NotFound and an empty file give `Ok(None)`; otherwise the contents |
| `DeviceStore.LoadDeviceId` | src/connection.rs:264-288 | reads the file derived as written (`WrittenDeviceIdPath`), with four outcomes stated in terms of the disk: a NotFound read or an empty file give `Ok(None)`; any other read error is returned as it is; a non-empty file gives `Ok(Some(contents))` |
| `DeviceStore.SaveDeviceId` | src/connection.rs:254-262 | writes the file derived as written; a write fault on that file is returned and leaves the disk unchanged; otherwise that file, and only that file, now holds the device id |
| `DeviceStore.SaveThenLoad` | src/connection.rs:254-288 | save and load derive the same path: after a successful save, a load with no read fault returns the saved id (`Ok(None)` if the id is empty) |
| `DeviceStore.SaveLeavesOtherUsers` | src/connection.rs:254-271 | saving one user's device id does not change what is loaded for another user of the same server, whenever the two names derive different files |
| `DeviceStore.DeviceIdPathInjective` | src/connection.rs:259-260 | the intended path `<server_path>/<user>.device_id` is different for every (server path, user) pair |
| `DeviceStore.LastDot` | src/connection.rs:260 | an index it returns is inside the name and holds a '.' |
| `DeviceStore.LastDotIsLast` | src/connection.rs:260 | the dot `LastDot` finds is the last one, the one `set_extension` cuts at: no dot follows it, and it finds none only in a name without a dot |
| `DeviceStore.WrittenPathAgreesForPlainNames` | src/connection.rs:259-260 | for a non-empty user name other than "." with no '.' after its first character, `push` followed by `set_extension` gives the intended path |
| `DeviceStore.WrittenPathDropsLastExtension` | src/connection.rs:259-260 | as written, `<stem>.<a>` and `<stem>.<b>` both map to `<stem>.device_id` |
| `DeviceStore.DottedNamesShareDeviceIdFile` | src/connection.rs:259-260 | "john.smith" and "john.doe" share one device-id file as written, and get different files under the intended path |
| `DeviceStore.TrailingDotSharesDeviceIdFile` | src/connection.rs:259-260 | "john." and "john" share one device-id file as written, and get different files under the intended path |
| `DeviceStore.DottedUsersShareDeviceId` | src/connection.rs:254-288 | as written, on an empty disk, "john.doe" has no device id until "john.smith" saves one, and then loads "john.smith"'s id as its own |
| `DeviceStore.IntendedPathKeepsUsersApart` | src/connection.rs:254-288 | with the intended path, saving one user's device id never changes what is loaded for any other user of the same server |
| `Auth.AsAuthData` | src/connection.rs:65-84 | kind `m.login.password`; exactly the keys identifier, password and user; the identifier is an `m.id.user` for the user and the top-level user is the same user; the password is the user's; the session is passed through |
| `Auth.CredentialsOfAuthData` | src/connection.rs:65-84 | a server reading the payload recovers exactly the user, password and session it was built from |
| `Auth.AuthDataOfCredentials` | src/connection.rs:65-84 | conversely, any request from which credentials can be read is the payload built from them |
| `Requests.SendMessageRequest` | src/connection.rs:167-186 | the request always carries a transaction id: the caller's when given, otherwise the freshly generated one; room and content are passed through |
| `Requests.TypingNotice` | src/connection.rs:242-247 | `true` becomes `Typing::Yes` with the 4-second timeout; `false` becomes `Typing::No` |
| `Requests.RetriedSendIsIdentical` | src/connection.rs:167-186 | a retry with the same explicit transaction id is the same request, whatever id would have been generated |
| `Requests.DeleteDevicesAuth` | src/connection.rs:194-200 | an auth payload is sent exactly when credentials are supplied, and a server reads those credentials back out of it |
| `Messages.Channel.Send` | src/connection.rs:370-375 | appends to the end of the queue and to the record of everything sent; nothing is lost or reordered (`Valid`) |
| `Messages.Channel.Recv` | src/connection.rs:298 | returns the oldest queued message. A receive error comes only when the queue is empty and no sender is left. Otherwise the receiver waits |
| `Messages.Channel.DropSender` | src/connection.rs:376 | marks the channel as having no sender left; the queue is unchanged |
| `SyncLoop.BootstrapAt` | src/connection.rs:364-417 | the bootstrap with the device id in a given file: nothing when logged in; otherwise read the id, then log in with it, then write the returned id, then send the login message, stopping after the read, the login or the write with one error message |
| `SyncLoop.BootstrapSpec` | src/connection.rs:364-417 | `BootstrapAt` at the file `WrittenDeviceIdPath` derives from the server's directory and the user name |
| `SyncLoop.BootstrapEmitsOnce` | src/connection.rs:364-417 | a client that is already logged in skips the bootstrap and sends nothing; otherwise exactly one message is sent, and it is sent as the last step |
| `SyncLoop.RunBootstrap` | src/connection.rs:364-417 | implements the bootstrap specification: it returns the same effects in the same order and the same disk, and appends exactly the bootstrap's message to the channel; the sender is dropped exactly on failure |
| `SyncLoop.MakeSyncSettings` | src/connection.rs:434-443 | timeout of 30 seconds and the uploaded filter, with the stored sync token exactly when there is one |
| `SyncLoop.StateMessages` | src/connection.rs:452-459 | one message per state event |
| `SyncLoop.StateMessagesPointwise` | src/connection.rs:452-459 | the i-th message is `SyncState(room, e)` for the i-th state event |
| `SyncLoop.TimelineMessages` | src/connection.rs:460-467 | one message per timeline event |
| `SyncLoop.TimelineMessagesPointwise` | src/connection.rs:460-467 | the i-th message is `SyncEvent(room, e)` for the i-th timeline event |
| `SyncLoop.RoomBlock` | src/connection.rs:451-467 | one room's messages: its state messages, then its timeline messages |
| `SyncLoop.Flatten` | src/connection.rs:451-467 | a response's messages: the rooms' blocks, in the order the joined rooms are iterated |
| `SyncLoop.MembersToFetch` | src/connection.rs:469-470 | the rooms of a response, in order, that the client knows as joined and whose members are not synced |
| `SyncLoop.MembersFetched` | src/connection.rs:475-486 | a spawned fetch sends one `Members` message with its room and members when it succeeds, and nothing when it fails |
| `SyncLoop.SpawnedMessages` | src/connection.rs:475-486 | the messages of a run of started fetches, each with its own result |
| `SyncLoop.SendRoomBlock` | src/connection.rs:452-467 | the two inner loops append exactly the room's block to the channel |
| `SyncLoop.FlattenResponse` | src/connection.rs:450-489 | the callback appends exactly the flattening of the response to the channel, and starts member fetches for exactly the rooms selected by `MembersToFetch` |
| `SyncLoop.Stream` | src/connection.rs:449-493 | each delivered response is flattened in turn |
| `SyncLoop.SyncPhase` | src/connection.rs:428-493 | after the bootstrap: the settings carry the id the filter upload returns for the filter "sync", the 30-second timeout and the stored token; every poll's messages are appended in order, and exactly the fetches `PollFetches` selects are started |
| `SyncLoop.RunSyncLoop` | src/connection.rs:356-494 | returns the bootstrap `BootstrapSpec` describes. The channel receives the bootstrap's message, then, only if the bootstrap succeeded, the messages of every poll. The sender is dropped exactly when the bootstrap failed. Sync settings, built from the uploaded filter's id, and member fetches exist only after a successful bootstrap |
| `SyncLoopProperties.BootstrapSendsOneMessage` | src/connection.rs:364-417 | a failed bootstrap has sent exactly one `Err` and no login message; a successful one has sent exactly one `LoginMessage`; a logged-in client sends nothing and leaves the disk alone |
| `SyncLoopProperties.LoadFailureSkipsLogin` | src/connection.rs:365-379 | an unreadable device id sends one `Err` with the read error, and login is never attempted and nothing is written |
| `SyncLoopProperties.LoginGetsLoadedDeviceId` | src/connection.rs:365-390 | login is attempted only after the device id is read. It receives the username, the password, the client name and the loaded device id, if there is one |
| `SyncLoopProperties.SuccessfulBootstrapSteps` | src/connection.rs:364-410 | with a loaded device id, an accepted login and no write fault, the bootstrap reads the id, logs in with it, writes the returned id and sends the login message, in that order, and goes on streaming with the id on disk |
| `SyncLoopProperties.LoginFailureStops` | src/connection.rs:411-416 | a rejected login sends one `Err`, writes nothing, and ends the loop |
| `SyncLoopProperties.SaveFailureStops` | src/connection.rs:393-405 | a failed write after a successful login sends one `Err`, no `LoginMessage`, and ends the loop |
| `SyncLoopProperties.LoginMessageFollowsSave` | src/connection.rs:392-410 | a `LoginMessage` is the last step and directly follows a successful write of the device id the server returned |
| `SyncLoopProperties.BootstrapPersistsDeviceId` | src/connection.rs:392-405 | after a successful login, the device id the server issued loads back from disk |
| `SyncLoopProperties.RestartReusesDeviceId` | src/connection.rs:365-390 | on a later start that is not logged in, login is called with the device id issued the first time |
| `SyncLoopProperties.FlattenAppend` | src/connection.rs:451-467 | flattening distributes over concatenation of the joined-room list |
| `SyncLoopProperties.RoomBlockShape` | src/connection.rs:452-467 | a room's block: all state events, then all timeline events, each in original order and each carrying the room's id |
| `SyncLoopProperties.RoomBlockInPlace` | src/connection.rs:451-467 | each room's messages form one contiguous block, after the blocks of the rooms before it |
| `SyncLoopProperties.FlattenLength` | src/connection.rs:451-467 | the number of messages is the total number of state and timeline events |
| `SyncLoopProperties.FlattenNamesJoinedRooms` | src/connection.rs:451-467 | flattening produces only `SyncState`/`SyncEvent` messages, each naming a joined room of the response |
| `SyncLoopProperties.PollMessagesAreSyncMessages` | src/connection.rs:449-493 | streaming sends only state and timeline messages |
| `SyncLoopProperties.MembersToFetchExactly` | src/connection.rs:469-470 | a fetch is started for a room exactly when the room is in the response, the client knows it as joined, and its members are not synced |
| `SyncLoopProperties.MembersOnlyFromSuccessfulFetch` | src/connection.rs:475-486 | given one result per started fetch, a `Members` message comes only from a fetch whose result is `Ok`, and it carries that fetch's room and members |
| `SyncLoopProperties.MembersOnlyForUnsyncedRooms` | src/connection.rs:469-486 | over a run of polls, with one result per started fetch, every `Members` message is the successful result of a fetch for its room, and some poll listed that room as joined with unsynced members |
| `SyncLoopProperties.FetchedInSomePoll` | src/connection.rs:469-487 | every started fetch comes from a poll in which the room was joined and its members were not synced |
| `SyncLoopProperties.StreamingOnlyAfterLogin` | src/connection.rs:392-429 | if a client that logs in itself sends any room message, its first message is the `LoginMessage`, and no other login message follows |
| `SyncLoopProperties.LoginLeadsOutput` | src/connection.rs:392-493 | for any bootstrap that sent one message (a login message if it streams, an error otherwise), a room message in the output means it streamed, the login message came first, and no other login message follows |
| `Dispatcher.HandlerForIsFaithful` | src/connection.rs:316-332 | each message is handed, unchanged, to the handler for its own variant with its own room; each `Err` item is printed |
| `Dispatcher.HandlerFor` | src/connection.rs:316-332 | the server call for one item: each message variant to its own handler with its own room and payload, and an `Err` item printed as a "Ruma error" |
| `Dispatcher.ReceiverLog` | src/connection.rs:297-314 | what the receiver does with a drained queue: one handler call per item, in order, then the receive error once when no sender is left |
| `Dispatcher.Dispatch` | src/connection.rs:297-334 | exactly one handler call per received item |
| `Dispatcher.DispatchPointwise` | src/connection.rs:297-334 | the i-th handler call is the one for the i-th received item |
| `Dispatcher.DispatchSnoc` | src/connection.rs:297-334 | handling one more item adds its handler call at the end |
| `Dispatcher.HandledInReceiveOrder` | src/connection.rs:297-334 | the server receives exactly the received messages, in receive order: none lost, added or reordered |
| `Dispatcher.DispatchAppend` | src/connection.rs:297-334 | handling distributes over concatenation of the received items |
| `Dispatcher.InnerErrorContinues` | src/connection.rs:332 | an `Err` item is printed and the loop goes on to the next item |
| `Dispatcher.RecvErrorPrintedOnceAtEnd` | src/connection.rs:305-314 | the receive error is printed at most once, as the last action, and only when no sender is left |
| `Dispatcher.Handle` | src/connection.rs:316-333 | one item causes exactly one call on the server, the one `HandlerFor` names |
| `Dispatcher.ResponseReceiver` | src/connection.rs:293-335 | drains the channel in order, handling every item. It then prints the receive error and stops only if no sender is left |
| `Session.FailedBootstrapPrintsOneError` | src/connection.rs:364-417 | a failed bootstrap reaches the user as one printed error and then the receive error; the server never receives a login |
| `Session.OneErrorThenDisconnect` | src/connection.rs:297-333 | a receiver given one `Err` item and no sender prints the error, then the receive error, and hands nothing to the server |
| `Session.LoginHandledFirst` | src/connection.rs:392-467 | after a successful login, the server receives the login first, then the polls' messages in send order; the `Members` messages of the spawned fetches are not part of `LoopOutput` |

## Findings

| source | as written | input that shows it | evidently intended | confidence | as-written member | corrected member |
|---|---|---|---|---|---|---|
| src/connection.rs:259-260, 268-269 | the path is built with `push(user_name)` and then `set_extension("device_id")`, which replaces everything from the last '.' of the user name on | user names "john.smith" and "john.doe" on one server both map to `john.device_id`, so the second user logs in with the first user's device id; "john." and "john" share a file the same way | one file per user, `<user_name>.device_id` | medium; not executed | `DeviceStore.DottedUsersShareDeviceId` | `DeviceStore.IntendedPathKeepsUsersApart` |

`DeviceStore.WrittenDeviceIdPath` is the path derivation as written, and
`LoadDeviceId`, `SaveDeviceId` and the bootstrap use it, as the code does.
`DeviceStore.DeviceIdPath` is the intended derivation: it gives every user its own
file (`DeviceIdPathInjective`, `IntendedPathKeepsUsersApart`). The two agree for
every non-empty user name other than "." with no '.' after its first character
(`WrittenPathAgreesForPlainNames`).

## Left out

- Runtime plumbing is not modelled: creating the tokio runtime, `Connection::spawn`, and the `expect` on a join error (src/connection.rs:113-122, 136). This is concurrency machinery.
- `Connection::new` is not modelled as code. The two ends of the channel are joined only by the lemmas in `Session`, which run the receiver after the loop. The class invariant `Channel.Valid` gives FIFO delivery for any interleaving of sends and receives.
- The channel's capacity of 1000 is recorded as the constant `CHANNEL_CAPACITY`, but the bound and its back-pressure are not modelled. Back-pressure only delays the sender.
- The concurrent member fetches are modelled only by which fetches start (`MembersToFetch`) and what each sends (`SpawnedMessages`). How their messages interleave with later poll messages is not modelled, because it depends on scheduling.
- The `matrix_sdk` calls are oracles passed in as parameters: `logged_in`, `login`, `get_or_upload_filter`, `sync_token`, `sync_with_callback`, `get_joined_room`/`are_members_synced` and `room_members`. The `unwrap` panic on filter upload (src/connection.rs:432) is not modelled.
- `sync_with_callback` never returns. The model gives it a finite run of polls, and the loop is still running when the run ends.
- `room_messages`, `devices` and the network parts of `send_message`, `delete_devices` and `send_typing_notice` only forward to the SDK, so only their argument mappings are modelled.
- `sync_filter` (src/connection.rs:337-351) is recorded as the constant `SYNC_FILTER` (lazy loading on, redundant members off, a state limit of 10). `SyncPhase` hands it, with the name "sync", to the filter-upload oracle, whose answer becomes the settings' filter id. What the filter changes in the server's responses is not modelled.
- The weak-pointer upgrade and `RefCell` borrow in the receiver, and the panic when the server is gone (src/connection.rs:300-303), are not modelled. They are ownership plumbing.
- The commented-out restored-room code (src/connection.rs:419-426) and the unused `first_login` are not modelled. `RestoredRoom` is still dispatched if received, though nothing sends it.
- src/commands/keys.rs is not part of this model. It parses arguments and fire-and-forgets key import and export, whose implementations are not shown.
- `DeviceStore.Push`: a path is a list of components. A user name containing a separator, an absolute name, and "." are not normalised as `PathBuf` does.
- `DeviceStore.SaveDeviceId`: a failed write leaves the disk unchanged. A partial write is not modelled.
- Error texts are modelled with the `{:?}` rendering of I/O and login errors as an opaque string carried by the error.
- `Requests.SendMessageRequest`: `Uuid::new_v4` randomness is a parameter. `Requests.RetriedSendIsIdentical` shows that a retry with the same explicit id sends the same request; deduplication by the server is not modelled.
- `Dispatcher.ResponseReceiver`: when the queue is empty and a sender remains, the method returns instead of suspending in `recv`. Calling it again continues the loop, because the loop keeps no state between items.
