/** What the server tells a client that catches up. */
module Snapshots {
  import opened Protocol
  import opened Engine
  import opened Rooms
  import opened SessionModel

  function CurrentGameOf(state: GameState): CurrentGame {
    CurrentGame(state.gameId, state.status, state.board, state.currentTurn, |state.moveHistory|, state.createdAt,
                state.result)
  }

  function BuildSnapshot(roomId: RoomId, room: Option<Room>, session: Option<Session>): RoomSnapshot {
    RoomSnapshot(
      roomId,
      room.Some? && IsFull(room.value),
      if room.Some? && room.value.playerX.Some? then Some(InfoOf(room.value.playerX.value)) else None,
      if room.Some? && room.value.playerO.Some? then Some(InfoOf(room.value.playerO.value)) else None,
      if room.Some? then room.value.readySymbols else {},
      if session.Some? && session.value.game.Some? then Some(CurrentGameOf(session.value.game.value)) else None,
      if session.Some? then session.value.completed else [])
  }

  /** The answer to a request for everything from `fromSeq` on. */
  function SyncReply(s: Session, snapshot: RoomSnapshot, fromSeq: int, p: PlayerId): Event {
    var replay := ReplayEvents(s, fromSeq, p);
    if replay.Some? && replay.value != [] then StateSyncReplay(s.seqNo, fromSeq, replay.value)
    else StateSyncSnapshot(s.seqNo, snapshot)
  }

  /** The answer to a reconnect: the acknowledgement, then what the client says it missed. */
  function ReconnectReplies(
    s: Session, snapshot: RoomSnapshot, lastReceived: int, p: PlayerId, symbol: Symbol
  ): seq<Event>
  {
    [ReconnectAck(s.seqNo, p, symbol, snapshot)] +
    if lastReceived < s.seqNo then [SyncReply(s, snapshot, lastReceived + 1, p)] else []
  }
}
