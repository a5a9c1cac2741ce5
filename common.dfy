/** Values shared by the room service and the app component: JavaScript's
    optional strings, the settlement of an awaited remote invocation, the room
    snapshot the server pushes, the browser's key/value store with the client
    identity kept in it, and the transport's table of registered handlers. */
module Common {

  datatype Option<T> = None | Some(value: T)

  /** How an awaited invocation that returns nothing settled: it resolved or it threw. */
  datatype Outcome = Ok | Err

  /** How an awaited invocation that returns a value settled. */
  datatype Reply<T> = Returned(value: T) | Threw

  /** How one run of a reconnected callback settles: its `JoinRoom`, and the
      `ChooseCard` it sends again once that has succeeded. */
  datatype Settlement = Settlement(join: Outcome, vote: Outcome)

  /** How many callback runs rejoined successfully. */
  function Successes(settle: seq<Settlement>): nat {
    if settle == [] then 0 else (if settle[0].join.Ok? then 1 else 0) + Successes(settle[1..])
  }

  /** `xs` repeated `k` times. */
  function Copies<T>(xs: seq<T>, k: nat): seq<T> {
    if k == 0 then [] else xs + Copies(xs, k - 1)
  }

  lemma CopiesOfOne<T>(x: T)
    ensures Copies([x], 1) == [x]
    ensures Copies([x], 2) == [x, x]
  {
    assert Copies([x], 1) == [x] + Copies([x], 0);
    assert Copies([x], 2) == [x] + Copies([x], 1);
  }

  /** One member of a room (src/app/app.ts:7-12). */
  datatype Participant = Participant(connectionId: string, displayName: string, vote: Option<string>, userId: string)

  /** The server's whole view of a room (src/app/models/snapshot.ts:3-8). */
  datatype Snapshot = Snapshot(roomId: string, storyTitle: Option<string>, revealed: bool, participants: seq<Participant>)

  /** The message both roomDeleted handlers show. */
  const RoomDeletedAlert: string := "Room deleted"

  /** A `string | undefined | null` used as a condition: undefined, null and '' are all false. */
  predicate Truthy(v: Option<string>) {
    v.Some? && v.value != ""
  }

  // ---------------------------------------------------------------------------
  // The browser's persisted key/value store

  const UserIdKey: string := "pp_userId"
  const LastRoomKey: string := "pp_lastRoomId"
  const DisplayNameKey: string := "pp_displayName"

  /** `localStorage.getItem(key)`: the stored string, or null when the key is absent. */
  function Lookup(store: map<string, string>, key: string): (r: Option<string>)
    ensures r.Some? <==> key in store
    ensures r.Some? ==> r.value == store[key]
  {
    if key in store then Some(store[key]) else None
  }

  /** The user id in force and the store after the get-or-create step. */
  datatype Identity = Identity(userId: string, store: map<string, string>)

  /** Get-or-create of the persistent user id: a stored, non-empty id is used and
      the store is left as it is; otherwise the fresh id (a `crypto.randomUUID()`,
      never empty) is stored under `pp_userId` and used. */
  function GetOrCreateUserId(store: map<string, string>, freshId: string): (r: Identity)
    requires freshId != ""
    ensures Truthy(Some(r.userId)) && Lookup(r.store, UserIdKey) == Some(r.userId)
    ensures Truthy(Lookup(store, UserIdKey)) ==> r.userId == store[UserIdKey] && r.store == store
    ensures !Truthy(Lookup(store, UserIdKey)) ==> r.userId == freshId
    ensures forall k :: k != UserIdKey ==> Lookup(r.store, k) == Lookup(store, k)
  {
    var stored := Lookup(store, UserIdKey);
    if Truthy(stored) then Identity(stored.value, store)
    else Identity(freshId, store[UserIdKey := freshId])
  }

  /** Asking twice gives the same id and leaves the store as the first call left
      it, whatever fresh id the second call is offered. */
  lemma UserIdIsStable(store: map<string, string>, fresh1: string, fresh2: string)
    requires fresh1 != "" && fresh2 != ""
    ensures var first := GetOrCreateUserId(store, fresh1);
            GetOrCreateUserId(first.store, fresh2) == first
  {
  }

  // ---------------------------------------------------------------------------
  // Queries the views ask

  /** isCardSelected: false without a snapshot or without a user id; otherwise
      whether `card` is the card this client recorded. */
  function CardSelected(snapshot: Option<Snapshot>, userId: Option<string>, chosenCard: Option<string>, card: string): bool {
    if snapshot.None? || !Truthy(userId) then false else chosenCard == Some(card)
  }

  /** isCurrentUser: the participant carries this client's user id. */
  function IsCurrentUser(userId: Option<string>, p: Participant): bool {
    userId == Some(p.userId)
  }

  // ---------------------------------------------------------------------------
  // The connection's handler table

  /** The names a handler can be registered under: the six server push events
      (`connection.on`) and the two lifecycle callbacks (`onreconnecting`,
      `onreconnected`). */
  datatype Channel =
    | Presence | State | VoteProgress | Revealed | RoomDeleted | Kicked
    | Reconnecting | Reconnected

  /** The push events that `connection.off` can clear. */
  predicate IsPushEvent(c: Channel) {
    !c.Reconnecting? && !c.Reconnected?
  }

  /** The push events whose payload is a whole snapshot. */
  type SnapshotChannel = c: Channel | c.Presence? || c.State? || c.VoteProgress? || c.Revealed?
    witness Presence

  /** How many handlers are registered under each name. */
  type Registry = map<Channel, nat>

  function Handlers(h: Registry, c: Channel): nat {
    if c in h then h[c] else 0
  }

  /** Register one more handler under `c`. */
  function On(h: Registry, c: Channel): Registry {
    h[c := Handlers(h, c) + 1]
  }

  /** Remove every handler registered under `c`. */
  function Off(h: Registry, c: Channel): Registry {
    h - {c}
  }
}
