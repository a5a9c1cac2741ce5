# Planning poker client session, modelled in Dafny

This project models the client-side session of the planning poker web client:
the state the browser keeps about who the user is, which room they are in,
the card they chose and the last room snapshot the server pushed, and how
that state changes on each user command and on each event the real-time hub
pushes. Two implementations of the same session are modelled side by side:

- `RoomService` (src/app/services/room-service.ts), the service the room page uses;
- `App` (src/app/app.ts), an earlier version of the same logic inside the root component.

Each source file has two modules:

- a pure transition system (`ServiceSpec`, `AppSpec`): a datatype holding the
  whole session state, one function per command and per inbound event, runs of
  inputs (`Step`, `Run`), and the lemmas that state what the code promises;
- a class (`Service.RoomService`, `AppComponent.App`) with the source's fields,
  whose methods update them step by step as the TypeScript does. Each method's
  postcondition gives its whole new state as the matching transition applied to
  the old state, `Model() == Spec.X(old(Model()), ...)`.

`Common` holds what both share: JavaScript truthiness of `string | undefined | null`
(`Truthy`), the persisted store and its three keys, the get-or-create user id,
the snapshot and participant records, and the connection's handler table (a count
of registered handlers per event name). `Hub` lists the remote invocations. The
model records them in a ghost `log`, and records the `alert` messages in a ghost
`alerts`.

How the environment enters the model:

- Every awaited remote invocation becomes an input: `Outcome` (`Ok`/`Err`) for
  invocations that return nothing, `Reply<string>` (`Returned(id)`/`Threw`) for
  `CreateAndJoin`. A thrown invocation ends the TypeScript method at the `await`,
  so only the changes made before it remain.
- `connection.start()` is an `Outcome` input. `crypto.randomUUID()` is a non-empty
  `freshId` input. `localStorage` is a `map<string, string>` field.
- `RoomService`'s constructor is modelled for an `initConnection` that completes:
  every command then finds the `ready` gate open, and no command has a
  precondition for it. The case where `initConnection` throws is listed under
  "Left out".
- When the transport delivers an event, it calls every registered copy of the
  handler, one after another. A reconnect is an input carrying one `Settlement`
  per registered `reconnected` callback: how that callback's `JoinRoom` and its
  repeated `ChooseCard` settle.

Properties proved:

- The service keeps an invariant over every run of commands and events
  (`ServiceSpec.RunKeepsConsistent`):
  - each of the six push events has exactly one handler;
  - the user id is set and equals the persisted `pp_userId`;
  - an active room is the persisted `pp_lastRoomId`.
- The `reconnecting` and `reconnected` callbacks are never unregistered. Every
  successful rejoin adds one more of each. A reconnect runs every registered
  `reconnected` callback, and each sends its own `JoinRoom`. So after one
  successful rejoin, the next reconnect rejoins twice, and with a card recorded
  it chooses that card twice (`ServiceSpec.SecondReconnectRejoinsTwice`,
  `ServiceSpec.RejoinScenario`). The same holds for `App`
  (`AppSpec.SecondReconnectRejoinsTwice`).
- `App` never unregisters. ngOnInit registers once on a new connection, and every
  successful rejoin adds one handler under every name. So one `kicked` push shows
  its message once per registration so far (`AppSpec.SessionHandlers`,
  `AppSpec.KickedInSession`).

Where the code differs from the behaviour a reader might expect, the model follows the code:

- `leaveRoom` clears nothing when `LeaveRoom` fails.
- `roomDeleted` keeps the persisted keys, so a later reconnect still rejoins the deleted room.
- `RoomService.createRoom` does not check for an empty name.
- Leaving does not clear the chosen card.
- `App`'s rejoin-on-load sets the room id but not the display name.
- A room command is skipped for an empty room id as well as a missing one (`if (!this.roomId())`).
- A stored empty `pp_userId` is replaced by a fresh id.

## Model

| member | source | states |
|---|---|---|
| `Common.GetOrCreateUserId` | src/app/services/room-service.ts:44-50 | a stored non-empty `pp_userId` is used and the store is unchanged; otherwise the fresh id is stored under `pp_userId` and used; no other key changes |
| `Common.UserIdIsStable` | src/app/services/room-service.ts:45-50 | getting the id a second time returns the same id and leaves the store as the first call left it |
| `ServiceSpec.UnregisterAllAt` | src/app/services/room-service.ts:53-60 | after unregistering, the six push events have no handler and the two lifecycle callbacks are untouched |
| `ServiceSpec.RegisterHandlersCounts` | src/app/services/room-service.ts:62-95 | one registration leaves exactly one handler per push event and adds one reconnecting and one reconnected callback |
| `ServiceSpec.RegistrationIsIdempotent` | src/app/services/room-service.ts:62-95 | after any number n >= 1 of registrations each push event has exactly one handler, while the lifecycle callbacks have grown by n |
| `ServiceSpec.RegisterTimesAt` | src/app/services/room-service.ts:62-95 | the same count for one name, by induction on the number of registrations |
| `ServiceSpec.InitIsConsistent` | src/app/services/room-service.ts:27-51 | initialisation establishes the session invariant; `connected` is whether start succeeded; the user id is the got-or-created one; no room, card, snapshot or call |
| `ServiceSpec.StepKeepsConsistent` | src/app/services/room-service.ts:62-174 | every command and event keeps the session invariant; only a successful rejoin adds a reconnected callback |
| `ServiceSpec.RunKeepsConsistent` | src/app/services/room-service.ts:62-174 | from a consistent state any run keeps the invariant (one handler per push event, user id persisted, active room persisted) and gains one reconnected callback per successful rejoin |
| `ServiceSpec.UserIdNeverChanges` | src/app/services/room-service.ts:98-174 | no run of commands or events changes the user id or the persisted `pp_userId` |
| `ServiceSpec.NoRoomCommandIsNoOp` | src/app/services/room-service.ts:126-174 | without an active room, leave, setStory, chooseCard, reveal, reset and kickUser send nothing and change nothing |
| `ServiceSpec.NoRoomCommandsAreInert` | src/app/services/room-service.ts:126-174 | without an active room, any run of those commands leaves the whole state, log included, unchanged |
| `ServiceSpec.CreateRoomEffects` | src/app/services/room-service.ts:100-113 | the name is set and `CreateAndJoin` sent in every case; the returned id becomes the room and both keys are persisted only when the call returns; every other stored key and every other field is unchanged |
| `ServiceSpec.JoinRoomEffects` | src/app/services/room-service.ts:115-124 | the display name changes even on failure; room id and both persisted keys change only on success; every other stored key is unchanged |
| `ServiceSpec.LeaveRoomEffects` | src/app/services/room-service.ts:126-137 | on success the snapshot and room are cleared and both session keys removed, with card, name, user id and `pp_userId` kept; on failure only the call is logged |
| `ServiceSpec.ChooseCardEffects` | src/app/services/room-service.ts:146-152 | `ChooseCard` is sent for the active room; the card is recorded only on success; nothing else changes |
| `ServiceSpec.ResetEffects` | src/app/services/room-service.ts:161-167 | `ResetRound` is sent; the recorded card is cleared only on success; nothing else changes |
| `ServiceSpec.SendOnlyCommands` | src/app/services/room-service.ts:139-174 | with an active room, setStory, reveal and kickUser send their one call and change nothing else |
| `ServiceSpec.SnapshotReplacedWhole` | src/app/services/room-service.ts:79-82 | a pushed snapshot replaces the old one whole; a push of A then B equals a push of B alone |
| `ServiceSpec.LastSnapshotWins` | src/app/services/room-service.ts:79-82 | after any run, a final snapshot push leaves exactly that snapshot |
| `ServiceSpec.RoomDeletedFilter` | src/app/services/room-service.ts:84-90 | a matching id clears snapshot and room and shows the alert, keeping the persisted keys; any other id changes nothing |
| `ServiceSpec.KickedIsLeave` | src/app/services/room-service.ts:92-95 | kicked shows the message then behaves exactly like leaveRoom; with no room it changes nothing but the messages |
| `ServiceSpec.ReconnectingSetsFlag` | src/app/services/room-service.ts:65 | the reconnecting callback only sets `isReconnecting` |
| `ServiceSpec.ReconnectReplay` | src/app/services/room-service.ts:66-78 | `JoinRoom` is sent with the persisted room and name; only on success are handlers registered again and the recorded card re-sent (if a card and a room are set); the flag is cleared either way; the session is otherwise unchanged |
| `ServiceSpec.DeliveredKeepsConsistent` | src/app/services/room-service.ts:66-78 | a reconnect run through all its callbacks keeps the invariant and adds one reconnected callback per successful rejoin |
| `ServiceSpec.ReconnectSendsPerCallback` | src/app/services/room-service.ts:66-78 | a reconnect sends, per callback in turn, its `JoinRoom` and, after a successful one, the recorded card; room, name, card, user id, store and snapshot are unchanged; the flag ends cleared |
| `ServiceSpec.AllRejoin` | src/app/services/room-service.ts:66-78 | when every callback rejoins, each sends the same invocations, the reconnected callbacks grow by their number and the invariant is kept |
| `ServiceSpec.RejoinsOnly` | src/app/services/room-service.ts:66-78 | with no card recorded and every callback rejoining, the log gains exactly one `JoinRoom` per callback |
| `ServiceSpec.RejoinScenario` | src/app/services/room-service.ts:66-78 | with R1/Alice persisted and card 8 recorded and k callbacks registered, a reconnect in which each rejoins sends the pair `JoinRoom(R1, Alice, uid)`, `ChooseCard(R1, 8)` k times, keeps one handler per push event and doubles the reconnected callbacks to 2k |
| `ServiceSpec.TwoReconnects` | src/app/services/room-service.ts:66-78 | from one reconnected callback and no card, two reconnects in which every callback rejoins send one and then two `JoinRoom`s, leaving two and then four callbacks |
| `ServiceSpec.SecondRejoins` | src/app/services/room-service.ts:66-78 | the second reconnect of that pair: two callbacks, two identical `JoinRoom`s |
| `ServiceSpec.SecondReconnectRejoinsTwice` | src/app/services/room-service.ts:27-78 | right after initialisation one reconnected callback is registered; the first reconnect sends one `JoinRoom`, the second runs two callbacks and sends two more |
| `ServiceSpec.EndToEndScenario` | src/app/services/room-service.ts:100-167 | create (server returns XYZ), choose 13, reset, push: room XYZ and name Alice are set and persisted, card 13 is recorded, then cleared, and the pushed unrevealed snapshot is shown |
| `ServiceSpec.SelectedCardFollowsChoice` | src/app/services/room-service.ts:146-182 | after a successful chooseCard exactly the chosen card is selected; after a successful reset none is |
| `ServiceSpec.CurrentUserIsPersistedIdentity` | src/app/services/room-service.ts:184-187 | in a consistent state a participant is the current user exactly when it carries the persisted `pp_userId` |
| `Service.RoomService.constructor` | src/app/services/room-service.ts:23-51 | the new service is in the initial state and satisfies the invariant |
| `Service.RoomService.IdentifyUser` | src/app/services/room-service.ts:44-50 | only the user id and the store change, to the got-or-created id and the store it leaves |
| `Service.RoomService.UnregisterAllHandlers` | src/app/services/room-service.ts:53-60 | only the handler table changes, to the table with the six push events removed |
| `Service.RoomService.RegisterHandlers` | src/app/services/room-service.ts:62-96 | only the handler table changes, to the re-registered table |
| `Service.RoomService.CreateRoom` | src/app/services/room-service.ts:100-113 | the new state is the createRoom transition of the old one; the invariant is kept |
| `Service.RoomService.JoinRoom` | src/app/services/room-service.ts:115-124 | the new state is the joinRoom transition of the old one; the invariant is kept |
| `Service.RoomService.LeaveRoom` | src/app/services/room-service.ts:126-137 | the new state is the leaveRoom transition of the old one; the invariant is kept |
| `Service.RoomService.SetStory` | src/app/services/room-service.ts:139-144 | the new state is the setStory transition of the old one; the invariant is kept |
| `Service.RoomService.ChooseCard` | src/app/services/room-service.ts:146-152 | the new state is the chooseCard transition of the old one; the invariant is kept |
| `Service.RoomService.Reveal` | src/app/services/room-service.ts:154-159 | the new state is the reveal transition of the old one; the invariant is kept |
| `Service.RoomService.Reset` | src/app/services/room-service.ts:161-167 | the new state is the reset transition of the old one; the invariant is kept |
| `Service.RoomService.KickUser` | src/app/services/room-service.ts:169-174 | the new state is the kickUser transition of the old one; the invariant is kept |
| `Service.RoomService.OnSnapshot` | src/app/services/room-service.ts:79-82 | only the snapshot changes, to the pushed one; the invariant is kept |
| `Service.RoomService.OnRoomDeleted` | src/app/services/room-service.ts:84-90 | the new state is the roomDeleted transition of the old one; the invariant is kept |
| `Service.RoomService.OnKicked` | src/app/services/room-service.ts:92-95 | the new state is the kicked transition (message, then leaveRoom) of the old one; the invariant is kept |
| `Service.RoomService.OnReconnecting` | src/app/services/room-service.ts:65 | only the reconnecting flag changes, to true; the invariant is kept |
| `Service.RoomService.OnReconnected` | src/app/services/room-service.ts:66-78 | the new state is one reconnected callback's transition of the old one; the invariant is kept |
| `Service.RoomService.OnRejoined` | src/app/services/room-service.ts:69-76 | the new state is the handlers registered again and, if a card is recorded, the chooseCard transition for it; the invariant is kept |
| `Service.RoomService.IsCardSelected` | src/app/services/room-service.ts:178-182 | false without a snapshot or user id, else whether the recorded card is the given one; true only for the recorded card |
| `Service.RoomService.IsCurrentUser` | src/app/services/room-service.ts:184-187 | the participant's user id is this client's, which is the persisted `pp_userId` |
| `AppSpec.RegisterHandlersAt` | src/app/app.ts:80-115 | one registration adds exactly one handler under every name |
| `AppSpec.NgOnInitRegisters` | src/app/app.ts:45-53 | ngOnInit registers on a new connection: afterwards every name has exactly one handler |
| `AppSpec.DeliveredRegisters` | src/app/app.ts:82-91 | a reconnect adds one handler under every name per callback whose rejoin succeeded |
| `AppSpec.StepRegistrations` | src/app/app.ts:80-114 | only a reconnect changes the handler table, by its number of successful rejoins |
| `AppSpec.RunAccumulatesHandlers` | src/app/app.ts:80-114 | over any run, every name gains one handler per successful rejoin; nothing is ever removed |
| `AppSpec.SessionHandlers` | src/app/app.ts:45-114 | after ngOnInit and any run, every name has one handler plus one per successful rejoin so far |
| `AppSpec.NoIdentityWithoutBrowserOrConnection` | src/app/app.ts:45-77 | on the server, or when start fails, only the handlers (those of the new connection) and `connected` after a start change: no user id, no store write, no rejoin |
| `AppSpec.RejoinOnLoad` | src/app/app.ts:58-73 | in a browser after a successful start the user id is got or created; `JoinRoom` is sent iff both last room and name are stored; the room id is taken only if that succeeds; the name is untouched |
| `AppSpec.CreateRoomEffects` | src/app/app.ts:117-122 | nothing without a display name; otherwise `CreateAndJoin` is sent and only when it returns are the room id and both keys set; every other stored key, `pp_userId` included, is unchanged |
| `AppSpec.JoinRoomEffects` | src/app/app.ts:124-129 | nothing unless both name and room id are non-empty; otherwise `JoinRoom` is sent and both keys are persisted only on success; every other stored key is unchanged |
| `AppSpec.LeaveRoomEffects` | src/app/app.ts:131-139 | nothing with an empty room id; on success the snapshot is cleared, the room id becomes '' and both keys are removed; on failure only the call is logged; every other stored key is unchanged |
| `AppSpec.ChooseCardAndResetEffects` | src/app/app.ts:146-161 | both are gated on a non-empty room id and change the recorded card only after their call succeeds |
| `AppSpec.SendOnlyCommands` | src/app/app.ts:141-155 | setStory and reveal are gated on a non-empty room id and only send their call |
| `AppSpec.SnapshotReplacedWhole` | src/app/app.ts:97-100 | a pushed snapshot replaces the old one whole |
| `AppSpec.KickAndDeleteAreLocal` | src/app/app.ts:101-114 | kicked clears snapshot and room id with no call and keeps the persisted keys; roomDeleted clears them only on a matching id |
| `AppSpec.KickedShownPerHandler` | src/app/app.ts:110-114 | a kicked push delivered to k handler copies shows the message k times, clears the room when k > 0, and sends, stores and registers nothing |
| `AppSpec.KickedInSession` | src/app/app.ts:45-114 | in a session, one kicked push shows its message once per registration so far: once for ngOnInit and once per successful rejoin |
| `AppSpec.ReconnectingSetsFlag` | src/app/app.ts:81 | the reconnecting callback only sets `isReconnecting` |
| `AppSpec.ReconnectOverwritesSession` | src/app/app.ts:82-96 | after a successful rejoin the in-memory room and name are the persisted ones, every name has one more handler and the card is re-sent to the persisted room; a failed rejoin only logs the call; the flag is cleared either way |
| `AppSpec.RejoinedEffects` | src/app/app.ts:87-94 | the continuation of a successful rejoin sets room and name, registers every handler once more and re-sends a recorded card to that room only; card, user id, store and snapshot stay |
| `AppSpec.ReconnectedSends` | src/app/app.ts:82-96 | one callback run sends its rejoin (and the card after success), takes the persisted room and name only on success, and clears the flag |
| `AppSpec.ReconnectSendsPerCallback` | src/app/app.ts:82-96 | a reconnect sends, per callback in turn, its `JoinRoom` and, after a successful one, the recorded card; user id, store, snapshot and card are unchanged; the flag ends cleared |
| `AppSpec.ReconnectSetsForm` | src/app/app.ts:82-89 | after a reconnect the form holds the persisted room and name once any rejoin succeeded, and is unchanged if none did |
| `AppSpec.AllRejoin` | src/app/app.ts:82-96 | when every callback rejoins, each sends the same invocations and every name gains one handler per callback |
| `AppSpec.RejoinsOnly` | src/app/app.ts:82-96 | with no card recorded and every callback rejoining, the log gains exactly one `JoinRoom` per callback |
| `AppSpec.TwoReconnects` | src/app/app.ts:82-96 | from one reconnected callback, one handler under the given name and no card, two reconnects in which every callback rejoins send one and then two `JoinRoom`s, leaving two and then four handlers |
| `AppSpec.SecondRejoins` | src/app/app.ts:82-96 | the second reconnect of that pair: two callbacks, two identical `JoinRoom`s |
| `AppSpec.SecondReconnectRejoinsTwice` | src/app/app.ts:45-96 | right after ngOnInit in a browser one reconnected callback is registered; the first reconnect sends one `JoinRoom`, the second runs two callbacks and sends two more |
| `AppSpec.StepKeepsUserId` | src/app/app.ts:80-161 | no command or event after ngOnInit changes the user id or the persisted `pp_userId` |
| `AppSpec.UserIdNeverChanges` | src/app/app.ts:80-161 | no run of commands or events changes the user id or the persisted `pp_userId` |
| `AppSpec.SessionKeepsIdentity` | src/app/app.ts:45-161 | in a browser session with a started connection, the got-or-created id is in force and persisted as `pp_userId` after any run |
| `AppSpec.SelectedCardFollowsChoice` | src/app/app.ts:146-170 | after a successful chooseCard exactly the chosen card is selected; after a successful reset none is |
| `AppSpec.NothingSelectedWithoutSnapshotOrUser` | src/app/app.ts:167-170 | with no snapshot or no user id no card is selected |
| `AppComponent.App.constructor` | src/app/app.ts:30-42 | the new component has empty form fields, no identity, no snapshot and no handlers |
| `AppComponent.App.NgOnInit` | src/app/app.ts:45-78 | the new state is the ngOnInit transition of the old one, with the handler table of a new connection |
| `AppComponent.App.IdentifyUser` | src/app/app.ts:59-64 | the new state is the get-or-create step: the user id in force and the store it leaves |
| `AppComponent.App.RestoreSession` | src/app/app.ts:66-73 | the new state is the rejoin-on-load step: `JoinRoom` only when both keys are stored, the room id only once it succeeded |
| `AppComponent.App.RegisterHandlers` | src/app/app.ts:80-115 | only the handler table changes, gaining one handler under every name |
| `AppComponent.App.CreateRoom` | src/app/app.ts:117-122 | the new state is the createRoom transition of the old one |
| `AppComponent.App.JoinRoom` | src/app/app.ts:124-129 | the new state is the joinRoom transition of the old one |
| `AppComponent.App.LeaveRoom` | src/app/app.ts:131-139 | the new state is the leaveRoom transition of the old one |
| `AppComponent.App.SetStory` | src/app/app.ts:141-144 | the new state is the setStory transition of the old one |
| `AppComponent.App.ChooseCard` | src/app/app.ts:146-150 | the new state is the chooseCard transition of the old one |
| `AppComponent.App.Reveal` | src/app/app.ts:152-155 | the new state is the reveal transition of the old one |
| `AppComponent.App.Reset` | src/app/app.ts:157-161 | the new state is the reset transition of the old one |
| `AppComponent.App.OnSnapshot` | src/app/app.ts:97-100 | only the snapshot changes, to the pushed one |
| `AppComponent.App.OnRoomDeleted` | src/app/app.ts:101-109 | the new state is the roomDeleted transition of the old one |
| `AppComponent.App.OnKicked` | src/app/app.ts:110-114 | the new state is the kicked transition of the old one |
| `AppComponent.App.OnReconnecting` | src/app/app.ts:81 | only the reconnecting flag changes, to true |
| `AppComponent.App.OnReconnected` | src/app/app.ts:82-96 | the new state is one reconnected callback's transition of the old one |
| `AppComponent.App.OnRejoined` | src/app/app.ts:87-94 | the new state takes the persisted room and name, registers every handler once more and runs chooseCard for a recorded card |
| `AppComponent.App.IsCardSelected` | src/app/app.ts:167-170 | false without a snapshot or user id, else whether the recorded card is the given one |
| `AppComponent.App.IsCurrentUser` | src/app/app.ts:172-174 | the participant carries this client's user id; with no user id (server context) nobody is current |

## Left out

- The SignalR transport is not modelled: WebSockets, the connection builder, the reconnect back-off and the internals of `start()`. Only the outcome of each call enters the model, as an input.
- `Service.RoomService.constructor`: only an `initConnection` that completes is modelled (src/app/services/room-service.ts:24-51). It reads `localStorage` and calls `crypto.randomUUID()` without a browser check (lines 45-48). If either throws, for example under server rendering or with storage blocked, `ready` rejects. Every command then rejects at `await this.ready` and sends nothing (lines 101, 116, 127, 140, 147, 155, 162, 170). That failure path is not modelled.
- A reconnect runs the callbacks one after another, each to its end. In the transport, every callback sends its `JoinRoom` before any continuation runs. So the model gets the calls each callback sends right, but not how the calls of different callbacks interleave in the log.
- A reconnect input is taken to carry one settlement per registered `reconnected` callback. `Step` does not check that length; the scenario lemmas require it.
- When the transport delivers a push, it calls every registered copy of the handler. The service keeps one handler per push event, so there one push is one handler run. In `App` this is modelled copy by copy for `kicked` and `reconnected`. The snapshot, `roomDeleted` and `reconnecting` pushes are one handler run. Their further copies change nothing, except a `roomDeleted` with an empty id while the form's room id is empty, which would show its alert once per copy.
- Asynchrony is not modelled: the `ready` promise racing the commands, commands running at the same time, and the un-awaited re-sent `chooseCard` settling after the `finally` that clears `isReconnecting`. Each command and event is one sequential step.
- A rejected invocation makes the command's promise reject for its caller. The model's commands take the settlement as an input and report nothing back.
- Angular signals, `NgZone.run`, dependency injection, templates and CSS are not modelled. The form's two-way bindings on `App.roomId` and `App.displayName` are modelled as the template writing those public fields (`EditDisplayName`/`EditRoomId` in `AppSpec.Step`).
- `console` output is left out. `alert` is recorded only as a ghost list of messages.
- The `cards` list and the hub URL are UI constants, so they are left out.
- On the server, `App`'s commands would fail on the missing `localStorage`. They are not modelled for that context; only `ngOnInit`'s browser check is.
- `AppComponent.App.TrackByConnection` returns the participant's connection id. It is view glue, so it has no contract.
- src/app/models/participant.ts is not part of this model. Participant's fields follow the interface in src/app/app.ts:7-12.
- Routing, the home and room components and the component test are left out. The room component forwards its commands to the service, but it also reads `pp_displayName` itself and leaves for the home page when it is absent (src/app/components/room/room.ts:23-28). The home component does not use the service: it reads `pp_lastRoomId` (src/app/components/home/home.ts:19-22).
- Writes to the store from outside the service or the app component are not inputs of the model. The home component writes `pp_displayName` straight into `localStorage` (src/app/components/home/home.ts:27). Such a write decides the name a later reconnect sends, since the reconnected callback reads `pp_displayName` from the store. The model's store changes only through the modelled commands and events.
