/** The `App` component (src/app/app.ts) as an object whose methods update its
    fields step by step. Every method states its whole new state through
    `Model()` and the matching transition of `AppSpec`. */
module AppComponent {
  import opened Common
  import Hub
  import Spec = AppSpec

  class App {
    /** Whether the component runs in a browser (`isPlatformBrowser`). */
    const browser: bool
    var connected: bool
    var isReconnecting: bool
    var snapshot: Option<Snapshot>
    /** Bound to the form; the template writes it directly. */
    var roomId: Option<string>
    /** Bound to the form; the template writes it directly. */
    var displayName: Option<string>
    var userId: Option<string>
    var chosenCard: Option<string>
    /** The browser's `localStorage`. */
    var store: map<string, string>
    /** The connection's handler table. */
    var handlers: Registry
    /** Remote invocations sent so far. */
    ghost var log: seq<Hub.Call>
    /** Messages shown with `alert`. */
    ghost var alerts: seq<string>

    ghost function Model(): Spec.AppState
      reads this
    {
      Spec.AppState(browser, connected, isReconnecting, snapshot, roomId, displayName, userId,
                    chosenCard, store, handlers, log, alerts)
    }

    constructor (browser: bool, initialStore: map<string, string>)
      ensures Model() == Spec.Initial(browser, initialStore)
    {
      this.browser := browser;
      connected, isReconnecting := false, false;
      snapshot, userId, chosenCard := None, None, None;
      roomId, displayName := Some(""), Some("");
      store := initialStore;
      handlers := map[];
      log, alerts := [], [];
    }

    /** `start` is how `connection.start()` settles, `freshId` what
        `crypto.randomUUID()` returns, `rejoin` how the rejoin-on-load settles. */
    method NgOnInit(start: Outcome, freshId: string, rejoin: Outcome)
      requires freshId != ""
      modifies this
      ensures Model() == Spec.NgOnInit(old(Model()), start, freshId, rejoin)
    {
      handlers := map[];
      RegisterHandlers();
      if start.Ok? {
        connected := true;
        if browser {
          IdentifyUser(freshId);
          RestoreSession(rejoin);
        }
      }
    }

    /** The get-or-create step of ngOnInit. */
    method IdentifyUser(freshId: string)
      requires freshId != ""
      modifies this
      ensures Model() == Spec.Identify(old(Model()), freshId)
    {
      var uid := Lookup(store, UserIdKey);
      if !Truthy(uid) {
        uid := Some(freshId);
        store := store[UserIdKey := freshId];
      }
      userId := uid;
    }

    /** The rejoin-on-load step of ngOnInit. */
    method RestoreSession(rejoin: Outcome)
      modifies this
      ensures Model() == Spec.RestoreSession(old(Model()), rejoin)
    {
      var lastRoom := Lookup(store, LastRoomKey);
      var lastName := Lookup(store, DisplayNameKey);
      if Truthy(lastRoom) && Truthy(lastName) {
        log := log + [Hub.JoinRoom(lastRoom, lastName, userId)];
        if rejoin.Ok? {
          roomId := lastRoom;
        }
      }
    }

    method RegisterHandlers()
      modifies this
      ensures Model() == old(Model()).(handlers := Spec.RegisterHandlers(old(handlers)))
    {
      handlers := On(handlers, Reconnecting);
      handlers := On(handlers, Reconnected);
      handlers := On(handlers, Presence);
      handlers := On(handlers, State);
      handlers := On(handlers, VoteProgress);
      handlers := On(handlers, Revealed);
      handlers := On(handlers, RoomDeleted);
      handlers := On(handlers, Kicked);
    }

    // === Commands ===

    method CreateRoom(reply: Reply<string>)
      modifies this
      ensures Model() == Spec.CreateRoom(old(Model()), reply)
    {
      if Truthy(displayName) {
        log := log + [Hub.CreateAndJoin(displayName.value, userId)];
        if reply.Returned? {
          roomId := Some(reply.value);
          store := store[LastRoomKey := reply.value];
          store := store[DisplayNameKey := displayName.value];
        }
      }
    }

    method JoinRoom(outcome: Outcome)
      modifies this
      ensures Model() == Spec.JoinRoom(old(Model()), outcome)
    {
      if Truthy(displayName) && Truthy(roomId) {
        log := log + [Hub.JoinRoom(roomId, displayName, userId)];
        if outcome.Ok? {
          store := store[LastRoomKey := roomId.value];
          store := store[DisplayNameKey := displayName.value];
        }
      }
    }

    method LeaveRoom(outcome: Outcome)
      modifies this
      ensures Model() == Spec.LeaveRoom(old(Model()), outcome)
    {
      if Truthy(roomId) {
        log := log + [Hub.LeaveRoom(roomId.value)];
        if outcome.Ok? {
          snapshot := None;
          roomId := Some("");
          store := store - {LastRoomKey};
          store := store - {DisplayNameKey};
          assert store == old(store) - {LastRoomKey, DisplayNameKey};
        }
      }
    }

    method SetStory(title: string)
      modifies this
      ensures Model() == Spec.SetStory(old(Model()), title)
    {
      if Truthy(roomId) {
        log := log + [Hub.SetStory(roomId.value, title)];
      }
    }

    method ChooseCard(card: string, outcome: Outcome)
      modifies this
      ensures Model() == Spec.ChooseCard(old(Model()), card, outcome)
    {
      if Truthy(roomId) {
        log := log + [Hub.ChooseCard(roomId.value, card)];
        if outcome.Ok? {
          chosenCard := Some(card);
        }
      }
    }

    method Reveal()
      modifies this
      ensures Model() == Spec.Reveal(old(Model()))
    {
      if Truthy(roomId) {
        log := log + [Hub.Reveal(roomId.value)];
      }
    }

    method Reset(outcome: Outcome)
      modifies this
      ensures Model() == Spec.Reset(old(Model()), outcome)
    {
      if Truthy(roomId) {
        log := log + [Hub.ResetRound(roomId.value)];
        if outcome.Ok? {
          chosenCard := None;
        }
      }
    }

    // === Handlers, each one registered copy at a time ===

    /** The presence, state, voteProgress and revealed handlers. */
    method OnSnapshot(snap: Snapshot)
      modifies this
      ensures Model() == Spec.SnapshotPushed(old(Model()), snap)
    {
      snapshot := Some(snap);
    }

    method OnRoomDeleted(id: string)
      modifies this
      ensures Model() == Spec.RoomDeletedPushed(old(Model()), id)
    {
      if roomId == Some(id) {
        alerts := alerts + [RoomDeletedAlert];
        snapshot := None;
        roomId := Some("");
      }
    }

    method OnKicked(message: string)
      modifies this
      ensures Model() == Spec.KickedPushed(old(Model()), message)
    {
      alerts := alerts + [message];
      snapshot := None;
      roomId := Some("");
    }

    method OnReconnecting()
      modifies this
      ensures Model() == Spec.ReconnectingFired(old(Model()))
    {
      isReconnecting := true;
    }

    /** `join` is how the rejoin settles, `vote` how the re-asserted `ChooseCard` settles. */
    method OnReconnected(join: Outcome, vote: Outcome)
      modifies this
      ensures Model() == Spec.ReconnectedFired(old(Model()), join, vote)
    {
      var lastRoom := Lookup(store, LastRoomKey);
      var lastName := Lookup(store, DisplayNameKey);
      log := log + [Hub.JoinRoom(lastRoom, lastName, userId)];
      if join.Ok? {
        OnRejoined(lastRoom, lastName, vote);
      }
      isReconnecting := false;
    }

    /** The continuation the reconnected callback runs once `JoinRoom` has succeeded. */
    method OnRejoined(room: Option<string>, name: Option<string>, vote: Outcome)
      modifies this
      ensures Model() == Spec.Rejoined(old(Model()), room, name, vote)
    {
      roomId := room;
      displayName := name;
      RegisterHandlers();
      if Truthy(chosenCard) {
        ChooseCard(chosenCard.value, vote);
      }
    }

    // === Queries ===

    /** The key the participant list is tracked by. */
    function TrackByConnection(index: int, item: Participant): string {
      item.connectionId
    }

    function IsCardSelected(card: string): (selected: bool)
      reads this
      ensures selected == CardSelected(snapshot, userId, chosenCard, card)
      ensures selected ==> chosenCard == Some(card)
    {
      if snapshot.None? || !Truthy(userId) then false else chosenCard == Some(card)
    }

    function IsCurrentUser(p: Participant): (current: bool)
      reads this
      ensures current == Common.IsCurrentUser(userId, p)
      ensures userId.None? ==> !current
    {
      userId == Some(p.userId)
    }
  }
}
