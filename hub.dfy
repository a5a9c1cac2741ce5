/** The remote operations the client invokes on the real-time hub, with the
    arguments it passes. A log of these values records what was sent. */
module Hub {
  import opened Common

  datatype Call =
    | CreateAndJoin(name: string, userId: Option<string>)
      // the reconnect path passes whatever the store holds, possibly null
    | JoinRoom(room: Option<string>, displayName: Option<string>, userId: Option<string>)
    | LeaveRoom(roomId: string)
    | SetStory(roomId: string, title: string)
    | ChooseCard(roomId: string, card: string)
    | Reveal(roomId: string)
    | ResetRound(roomId: string)
    | KickUser(roomId: string, targetUserId: string, requesterUserId: Option<string>)
}
