/** Rooms: two player slots, the readiness set, and the store that owns the records. */
module Rooms {
  import opened Protocol

  datatype Slot = Slot(playerId: PlayerId, symbol: Symbol, connected: bool, lastSeenAt: int)

  datatype Room = Room(
    playerX: Option<Slot>, playerO: Option<Slot>, readySymbols: set<Symbol>, createdAt: int, lastActivityAt: int)

  predicate SeatsPlayer(slot: Option<Slot>, playerId: PlayerId) {
    slot.Some? && slot.value.playerId == playerId
  }

  function PlayerCount(room: Room): nat {
    (if room.playerX.Some? then 1 else 0) + (if room.playerO.Some? then 1 else 0)
  }

  predicate IsFull(room: Room) {
    room.playerX.Some? && room.playerO.Some?
  }

  function SlotOf(room: Room, playerId: PlayerId): Option<Slot> {
    if SeatsPlayer(room.playerX, playerId) then room.playerX
    else if SeatsPlayer(room.playerO, playerId) then room.playerO
    else None
  }

  function SymbolOf(room: Room, playerId: PlayerId): Option<Symbol> {
    if SeatsPlayer(room.playerX, playerId) then Some(X)
    else if SeatsPlayer(room.playerO, playerId) then Some(O)
    else None
  }

  function OpponentSlot(room: Room, playerId: PlayerId): Option<Slot> {
    if SeatsPlayer(room.playerX, playerId) then room.playerO
    else if SeatsPlayer(room.playerO, playerId) then room.playerX
    else None
  }

  function NewRoom(now: int): Room {
    Room(None, None, {}, now, now)
  }

  predicate RoomExpired(room: Room, now: int) {
    now - room.lastActivityAt > ROOM_TTL_MS
  }

  /** The symbol a joining player would get: the first free one. */
  function FreeSymbol(room: Room): Option<Symbol> {
    if room.playerX.None? then Some(X) else if room.playerO.None? then Some(O) else None
  }

  function Seat(room: Room, playerId: PlayerId, now: int): Room {
    match FreeSymbol(room)
    case None => room
    case Some(X) => room.(playerX := Some(Slot(playerId, X, true, now)), lastActivityAt := now)
    case Some(O) => room.(playerO := Some(Slot(playerId, O, true, now)), lastActivityAt := now)
  }

  function Unseat(room: Room, playerId: PlayerId, now: int): Room {
    (if SeatsPlayer(room.playerX, playerId) then
       room.(playerX := None, readySymbols := room.readySymbols - {X})
     else if SeatsPlayer(room.playerO, playerId) then
       room.(playerO := None, readySymbols := room.readySymbols - {O})
     else room).(lastActivityAt := now)
  }

  function Marked(room: Room, symbol: Symbol): Room {
    room.(readySymbols := room.readySymbols + {symbol})
  }

  function Unready(room: Room): Room {
    room.(readySymbols := {})
  }

  predicate BothReady(room: Room) {
    X in room.readySymbols && O in room.readySymbols
  }

  function WithConnected(room: Room, playerId: PlayerId, connected: bool, now: int): Room {
    if SeatsPlayer(room.playerX, playerId) then
      room.(playerX := Some(room.playerX.value.(connected := connected, lastSeenAt := now)), lastActivityAt := now)
    else if SeatsPlayer(room.playerO, playerId) then
      room.(playerO := Some(room.playerO.value.(connected := connected, lastSeenAt := now)), lastActivityAt := now)
    else room
  }

  function InfoOf(slot: Slot): PlayerInfo {
    PlayerInfo(slot.playerId, slot.symbol, slot.connected, slot.lastSeenAt)
  }

  // ---------- who sits where ----------

  predicate Sits(room: Room, symbol: Symbol, p: PlayerId) {
    match symbol
    case X => room.playerX.Some? && room.playerX.value.playerId == p
    case O => room.playerO.Some? && room.playerO.value.playerId == p
  }

  predicate IsSeated(room: Room, p: PlayerId) {
    Sits(room, X, p) || Sits(room, O, p)
  }

  /** The other symbol. */
  function Other(symbol: Symbol): Symbol {
    match symbol case X => O case O => X
  }

  function SlotAt(room: Room, symbol: Symbol): Option<Slot> {
    match symbol case X => room.playerX case O => room.playerO
  }

  // ---------- the store ----------

  type RoomMap = map<RoomId, Room>

  /** Looking a room up drops it if it has expired. */
  function RoomsSeen(rooms: RoomMap, roomId: RoomId, now: int): RoomMap {
    if roomId in rooms && RoomExpired(rooms[roomId], now) then rooms - {roomId} else rooms
  }

  function RoomsPurged(rooms: RoomMap, now: int): RoomMap {
    map r | r in rooms && !RoomExpired(rooms[r], now) :: rooms[r]
  }

  class RoomStore {
    var rooms: RoomMap

    constructor ()
      ensures rooms == map[]
    {
      rooms := map[];
    }

    /** The room id is generated, never seen before. */
    method CreateRoom(roomId: RoomId, now: int)
      requires roomId !in rooms
      modifies this`rooms
      ensures rooms == old(rooms)[roomId := NewRoom(now)]
    {
      rooms := rooms[roomId := Room(None, None, {}, now, now)];
    }

    method GetRoom(roomId: RoomId, now: int) returns (room: Option<Room>)
      modifies this`rooms
      ensures rooms == RoomsSeen(old(rooms), roomId, now)
      ensures room == if roomId in rooms then Some(rooms[roomId]) else None
    {
      if roomId !in rooms {
        return None;
      }
      if now - rooms[roomId].lastActivityAt > ROOM_TTL_MS {
        rooms := rooms - {roomId};
        return None;
      }
      return Some(rooms[roomId]);
    }

    method Touch(roomId: RoomId, now: int)
      modifies this`rooms
      ensures rooms == if roomId in old(rooms) then old(rooms)[roomId := old(rooms)[roomId].(lastActivityAt := now)]
                       else old(rooms)
    {
      if roomId in rooms {
        rooms := rooms[roomId := rooms[roomId].(lastActivityAt := now)];
      }
    }

    method AddPlayer(roomId: RoomId, playerId: PlayerId, now: int) returns (symbol: Option<Symbol>)
      requires roomId in rooms
      modifies this`rooms
      ensures rooms == old(rooms)[roomId := Seat(old(rooms)[roomId], playerId, now)]
      ensures symbol == FreeSymbol(old(rooms)[roomId])
    {
      var room := rooms[roomId];
      if room.playerX.None? {
        rooms := rooms[roomId := room.(playerX := Some(Slot(playerId, X, true, now)), lastActivityAt := now)];
        return Some(X);
      }
      if room.playerO.None? {
        rooms := rooms[roomId := room.(playerO := Some(Slot(playerId, O, true, now)), lastActivityAt := now)];
        return Some(O);
      }
      return None;
    }

    method RemovePlayer(roomId: RoomId, playerId: PlayerId, now: int)
      requires roomId in rooms
      modifies this`rooms
      ensures rooms == old(rooms)[roomId := Unseat(old(rooms)[roomId], playerId, now)]
    {
      var room := rooms[roomId];
      if room.playerX.Some? && room.playerX.value.playerId == playerId {
        room := room.(playerX := None, readySymbols := room.readySymbols - {X});
      } else if room.playerO.Some? && room.playerO.value.playerId == playerId {
        room := room.(playerO := None, readySymbols := room.readySymbols - {O});
      }
      rooms := rooms[roomId := room.(lastActivityAt := now)];
    }

    method SetConnected(roomId: RoomId, playerId: PlayerId, connected: bool, now: int)
      requires roomId in rooms
      modifies this`rooms
      ensures rooms == old(rooms)[roomId := WithConnected(old(rooms)[roomId], playerId, connected, now)]
    {
      var room := rooms[roomId];
      if SeatsPlayer(room.playerX, playerId) {
        var slot := room.playerX.value.(connected := connected, lastSeenAt := now);
        rooms := rooms[roomId := room.(playerX := Some(slot), lastActivityAt := now)];
      } else if SeatsPlayer(room.playerO, playerId) {
        var slot := room.playerO.value.(connected := connected, lastSeenAt := now);
        rooms := rooms[roomId := room.(playerO := Some(slot), lastActivityAt := now)];
      }
    }

    method MarkReady(roomId: RoomId, symbol: Symbol)
      requires roomId in rooms
      modifies this`rooms
      ensures rooms == old(rooms)[roomId := Marked(old(rooms)[roomId], symbol)]
    {
      rooms := rooms[roomId := rooms[roomId].(readySymbols := rooms[roomId].readySymbols + {symbol})];
    }

    method ResetReady(roomId: RoomId)
      requires roomId in rooms
      modifies this`rooms
      ensures rooms == old(rooms)[roomId := Unready(old(rooms)[roomId])]
    {
      rooms := rooms[roomId := rooms[roomId].(readySymbols := {})];
    }

    method PurgeExpired(now: int)
      modifies this`rooms
      ensures rooms == RoomsPurged(old(rooms), now)
    {
      var ids := rooms.Keys;
      while ids != {}
        invariant ids <= rooms.Keys <= old(rooms).Keys
        invariant forall r | r in rooms :: rooms[r] == old(rooms)[r]
        invariant forall r | r in old(rooms) && r !in ids :: r in rooms <==> !RoomExpired(old(rooms)[r], now)
        decreases |ids|
      {
        var id :| id in ids;
        ids := ids - {id};
        if now - rooms[id].lastActivityAt > ROOM_TTL_MS {
          rooms := rooms - {id};
        }
      }
    }
  }
}
