/** `RoomService` (src/app/services/room-service.ts) as an object whose methods
    update its fields step by step, as the TypeScript does. Every method states
    its whole new state through `Model()` and the matching transition of
    `ServiceSpec`, and keeps the session invariant `Valid()`. */
module Service {
  import opened Common
  import Hub
  import Spec = ServiceSpec

  class RoomService {
    var connected: bool
    var isReconnecting: bool
    var snapshot: Option<Snapshot>
    var roomId: Option<string>
    var displayName: Option<string>
    var userId: Option<string>
    var chosenCard: Option<string>
    /** The browser's `localStorage`. */
    var store: map<string, string>
    /** The connection's handler table. */
    var handlers: Registry
    /** Remote invocations sent so far. */
    ghost var log: seq<Hub.Call>
    /** Messages shown with `alert`. */
    ghost var alerts: seq<string>

    ghost function Model(): Spec.ServiceState
      reads this
    {
      Spec.ServiceState(connected, isReconnecting, snapshot, roomId, displayName, userId,
                        chosenCard, store, handlers, log, alerts)
    }

    ghost predicate Valid()
      reads this
    {
      Spec.Consistent(Model())
    }

    /** The constructor runs initConnection to completion on a new connection, so
        every command below finds the `ready` gate open. `start` is how
        `connection.start()` settled; `freshId` is what `crypto.randomUUID()` returns. */
    constructor (initialStore: map<string, string>, freshId: string, start: Outcome)
      requires freshId != ""
      ensures Model() == Spec.Init(initialStore, freshId, start)
      ensures Valid()
    {
      connected, isReconnecting := false, false;
      snapshot, roomId, displayName, userId, chosenCard := None, None, None, None, None;
      store := initialStore;
      handlers := map[];
      log, alerts := [], [];
      new;
      RegisterHandlers();
      connected := start.Ok?;
      IdentifyUser(freshId);
      Spec.InitIsConsistent(initialStore, freshId, start);
    }

    /** The get-or-create step of initConnection. */
    method IdentifyUser(freshId: string)
      requires freshId != ""
      modifies this
      ensures var id := GetOrCreateUserId(old(store), freshId);
              Model() == old(Model()).(userId := Some(id.userId), store := id.store)
    {
      var uid := Lookup(store, UserIdKey);
      if !Truthy(uid) {
        uid := Some(freshId);
        store := store[UserIdKey := freshId];
      }
      userId := uid;
    }

    method UnregisterAllHandlers()
      modifies this
      ensures Model() == old(Model()).(handlers := Spec.UnregisterAll(old(handlers)))
    {
      handlers := Off(handlers, Presence);
      handlers := Off(handlers, State);
      handlers := Off(handlers, VoteProgress);
      handlers := Off(handlers, Revealed);
      handlers := Off(handlers, RoomDeleted);
      handlers := Off(handlers, Kicked);
    }

    method RegisterHandlers()
      modifies this
      ensures Model() == old(Model()).(handlers := Spec.RegisterHandlers(old(handlers)))
    {
      UnregisterAllHandlers();
      handlers := On(handlers, Reconnecting);
      handlers := On(handlers, Reconnected);
      handlers := On(handlers, Presence);
      handlers := On(handlers, State);
      handlers := On(handlers, VoteProgress);
      handlers := On(handlers, Revealed);
      handlers := On(handlers, RoomDeleted);
      handlers := On(handlers, Kicked);
    }

    // === Hub methods ===

    method CreateRoom(name: string, reply: Reply<string>)
      requires Valid()
      modifies this
      ensures Model() == Spec.CreateRoom(old(Model()), name, reply)
      ensures Valid()
    {
      ghost var before := Model();
      displayName := Some(name);
      log := log + [Hub.CreateAndJoin(name, userId)];
      if reply.Returned? {
        roomId := Some(reply.value);
        store := store[LastRoomKey := reply.value];
        store := store[DisplayNameKey := name];
      }
      Spec.CreateKeepsConsistent(before, name, reply);
    }

    method JoinRoom(room: string, name: string, outcome: Outcome)
      requires Valid()
      modifies this
      ensures Model() == Spec.JoinRoom(old(Model()), room, name, outcome)
      ensures Valid()
    {
      ghost var before := Model();
      displayName := Some(name);
      log := log + [Hub.JoinRoom(Some(room), Some(name), userId)];
      if outcome.Ok? {
        roomId := Some(room);
        store := store[LastRoomKey := room];
        store := store[DisplayNameKey := name];
      }
      Spec.JoinKeepsConsistent(before, room, name, outcome);
    }

    method LeaveRoom(outcome: Outcome)
      requires Valid()
      modifies this
      ensures Model() == Spec.LeaveRoom(old(Model()), outcome)
      ensures Valid()
    {
      ghost var before := Model();
      if Truthy(roomId) {
        log := log + [Hub.LeaveRoom(roomId.value)];
        if outcome.Ok? {
          snapshot := None;
          roomId := None;
          store := store - {LastRoomKey};
          store := store - {DisplayNameKey};
          assert store == before.store - {LastRoomKey, DisplayNameKey};
        }
      }
      Spec.LeaveKeepsConsistent(before, outcome);
    }

    method SetStory(title: string)
      requires Valid()
      modifies this
      ensures Model() == Spec.SetStory(old(Model()), title)
      ensures Valid()
    {
      if Truthy(roomId) {
        log := log + [Hub.SetStory(roomId.value, title)];
      }
    }

    method ChooseCard(card: string, outcome: Outcome)
      requires Valid()
      modifies this
      ensures Model() == Spec.ChooseCard(old(Model()), card, outcome)
      ensures Valid()
    {
      if Truthy(roomId) {
        log := log + [Hub.ChooseCard(roomId.value, card)];
        if outcome.Ok? {
          chosenCard := Some(card);
        }
      }
    }

    method Reveal()
      requires Valid()
      modifies this
      ensures Model() == Spec.Reveal(old(Model()))
      ensures Valid()
    {
      if Truthy(roomId) {
        log := log + [Hub.Reveal(roomId.value)];
      }
    }

    method Reset(outcome: Outcome)
      requires Valid()
      modifies this
      ensures Model() == Spec.Reset(old(Model()), outcome)
      ensures Valid()
    {
      if Truthy(roomId) {
        log := log + [Hub.ResetRound(roomId.value)];
        if outcome.Ok? {
          chosenCard := None;
        }
      }
    }

    method KickUser(target: string)
      requires Valid()
      modifies this
      ensures Model() == Spec.KickUser(old(Model()), target)
      ensures Valid()
    {
      if Truthy(roomId) {
        log := log + [Hub.KickUser(roomId.value, target, userId)];
      }
    }

    // === Push handlers ===

    /** The presence, state, voteProgress and revealed handlers. */
    method OnSnapshot(channel: SnapshotChannel, snap: Snapshot)
      requires Valid()
      modifies this
      ensures Model() == Spec.SnapshotPushed(old(Model()), snap)
      ensures Valid()
    {
      snapshot := Some(snap);
    }

    method OnRoomDeleted(id: string)
      requires Valid()
      modifies this
      ensures Model() == Spec.RoomDeletedPushed(old(Model()), id)
      ensures Valid()
    {
      if roomId == Some(id) {
        snapshot := None;
        roomId := None;
        alerts := alerts + [RoomDeletedAlert];
      }
    }

    /** `leave` is how the `LeaveRoom` invocation of the leaveRoom path settles. */
    method OnKicked(message: string, leave: Outcome)
      requires Valid()
      modifies this
      ensures Model() == Spec.KickedPushed(old(Model()), message, leave)
      ensures Valid()
    {
      alerts := alerts + [message];
      LeaveRoom(leave);
    }

    method OnReconnecting()
      requires Valid()
      modifies this
      ensures Model() == Spec.ReconnectingFired(old(Model()))
      ensures Valid()
    {
      isReconnecting := true;
    }

    /** One run of the reconnected callback: `join` is how the rejoin settles and
        `vote` how the re-asserted `ChooseCard` settles, when it is sent. */
    method OnReconnected(join: Outcome, vote: Outcome)
      requires Valid()
      modifies this
      ensures Model() == Spec.ReconnectedFired(old(Model()), join, vote)
      ensures Valid()
    {
      ghost var before := Model();
      var lastRoom := Lookup(store, LastRoomKey);
      var lastName := Lookup(store, DisplayNameKey);
      log := log + [Hub.JoinRoom(lastRoom, lastName, userId)];
      if join.Ok? {
        OnRejoined(vote);
      }
      isReconnecting := false;
      Spec.ReconnectedKeepsConsistent(before, join, vote);
    }

    /** The continuation the reconnected callback runs once `JoinRoom` has succeeded. */
    method OnRejoined(vote: Outcome)
      requires Valid()
      modifies this
      ensures Model() == Spec.Rejoined(old(Model()), vote)
      ensures Valid()
    {
      RegisterHandlers();
      Spec.ReregisterKeepsConsistent(old(Model()));
      if Truthy(chosenCard) {
        ChooseCard(chosenCard.value, vote);
      }
    }

    // === Helpers ===

    function IsCardSelected(card: string): (selected: bool)
      reads this
      ensures selected == CardSelected(snapshot, userId, chosenCard, card)
      ensures selected ==> chosenCard == Some(card)
    {
      if snapshot.None? || !Truthy(userId) then false else chosenCard == Some(card)
    }

    function IsCurrentUser(p: Participant): (current: bool)
      requires Valid()
      reads this
      ensures current == Common.IsCurrentUser(userId, p)
      ensures current <==> Lookup(store, UserIdKey) == Some(p.userId)
    {
      Spec.CurrentUserIsPersistedIdentity(Model(), p);
      userId == Some(p.userId)
    }
  }
}
