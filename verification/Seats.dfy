/**
 A running game is always the game of the two players who sit in its room, whatever mix of joining,
 leaving, readiness, disconnects, timers, rematches and expiry led there.
 */
module Seats {
  import opened Protocol
  import opened Engine
  import opened EngineLaws
  import opened Rooms
  import opened History
  import opened SessionModel
  import opened SessionRuns
  import opened SessionStores
  import opened Handlers

  /** Each slot carries its own symbol, and nobody sits on both. */
  predicate SlotsSound(room: Room) {
    && (room.playerX.Some? ==> room.playerX.value.symbol == X)
    && (room.playerO.Some? ==> room.playerO.value.symbol == O)
    && (IsFull(room) ==> room.playerX.value.playerId != room.playerO.value.playerId)
  }

  /** Both slots are taken, by exactly the two different players of the game. */
  predicate SeatsPlayersOf(room: Room, game: GameState) {
    && IsFull(room)
    && room.playerX.value.playerId == game.playerX
    && room.playerO.value.playerId == game.playerO
    && game.playerX != game.playerO
  }

  /** The same players on the same slots. */
  predicate SameSeats(room: Room, other: Room) {
    && room.playerX.Some? == other.playerX.Some?
    && room.playerO.Some? == other.playerO.Some?
    && (room.playerX.Some? ==> other.playerX.value.playerId == room.playerX.value.playerId
                               && other.playerX.value.symbol == room.playerX.value.symbol)
    && (room.playerO.Some? ==> other.playerO.value.playerId == room.playerO.value.playerId
                               && other.playerO.value.symbol == room.playerO.value.symbol)
  }

  ghost predicate Seated(rooms: RoomMap, games: map<RoomId, Session>) {
    forall r | r in rooms ::
      && SlotsSound(rooms[r])
      && (r in games && IsActive(games[r]) ==> SeatsPlayersOf(rooms[r], games[r].game.value))
  }

  ghost predicate SeatedServer(server: Server) {
    Seated(server.rooms, server.games)
  }

  /** Games are started with the room that is in the store. */
  predicate UsesRoom(rooms: RoomMap, r: RoomId, op: Op) {
    op.Starting? || op.Accepting? ==> r in rooms && SameSeats(rooms[r], op.room)
  }

  /** A game keeps its players, and what was not running is not revived; a new game is the room's. */
  lemma NextGamePlayers(s: Session, op: Op)
    requires NextGame(s, op).Some? && NextGame(s, op).value.status == Active
    ensures Starts(s, op) ==> IsFull(op.room)
                              && NextGame(s, op).value.playerX == op.room.playerX.value.playerId
                              && NextGame(s, op).value.playerO == op.room.playerO.value.playerId
    ensures !Starts(s, op) ==> IsActive(s)
                               && NextGame(s, op).value.playerX == s.game.value.playerX
                               && NextGame(s, op).value.playerO == s.game.value.playerO
  {
    hide ApplyMove;
    hide PlaceMark;
    hide Agreed;
    if op.Moving? && Reaches(s, op.target) {
      var state := s.game.value;
      var command := MoveCommand(op.playerId, op.position.row, op.position.col, op.commandId, op.now);
      MoveShape(state, command);
      if ApplyMove(state, command).Accepted? {
        PlaceShape(state, state.currentTurn, Pos(command.row, command.col), command.timestamp);
      }
    }
  }

  lemma DriveKeepsSeats(server: Server, r: RoomId, op: Op)
    requires SeatedServer(server) && UsesRoom(server.rooms, r, op)
    ensures SeatedServer(Drive(server, r, op))
  {
    hide Step;
    hide NextGame;
    if r in server.games {
      var s := server.games[r];
      StepGame(WorldOf(server, r), op);
      if r in server.rooms && IsActive(Drive(server, r, op).games[r]) {
        NextGamePlayers(s, op);
      }
    }
  }

  /** Ending operations leave no running game behind. */
  lemma EndsRunning(server: Server, r: RoomId, op: Op)
    requires op.Forfeiting? || (op.FiringReconnect? && r in server.games && IsReconnectTimer(server.games[r], op.id))
    ensures Idle(Drive(server, r, op), r)
  {
    hide Step;
    hide Conclude;
    if r in server.games {
      StepGame(WorldOf(server, r), op);
    }
  }

  /** No game is running in the room. */
  predicate Idle(server: Server, r: RoomId) {
    r in server.games ==> !IsActive(server.games[r])
  }

  lemma NumberingKeepsIdle(server: Server, r: RoomId)
    requires Idle(server, r)
    ensures Idle(Drive(server, r, Allocating), r)
  {
    hide Step;
    if r in server.games {
      StepGame(WorldOf(server, r), Allocating);
    }
  }

  lemma SameSeatsKeep(server: Server, r: RoomId, room: Room)
    requires SeatedServer(server) && r in server.rooms && SameSeats(server.rooms[r], room)
    ensures SeatedServer(SetRoomTo(server, r, room))
  {
  }

  lemma EmptyingKeeps(server: Server, r: RoomId, player: PlayerId, now: int)
    requires SeatedServer(server) && r in server.rooms && Idle(server, r)
    ensures SeatedServer(SetRoomTo(server, r, Unseat(server.rooms[r], player, now)))
  {
  }

  lemma FillingKeeps(server: Server, r: RoomId, player: PlayerId, now: int)
    requires SeatedServer(server) && r in server.rooms && SlotOf(server.rooms[r], player).None?
    ensures SeatedServer(SetRoomTo(server, r, Seat(server.rooms[r], player, now)))
  {
  }

  lemma HostingKeeps(server: Server, r: RoomId)
    requires SeatedServer(server)
    ensures SeatedServer(WithSession(server, r)) && WithSession(server, r).rooms == server.rooms
  {
  }

  lemma FewerRooms(server: Server, rooms: RoomMap)
    requires SeatedServer(server) && (forall r | r in rooms :: r in server.rooms && rooms[r] == server.rooms[r])
    ensures SeatedServer(server.(rooms := rooms))
  {
  }

  lemma DriveKeepsRooms(server: Server, r: RoomId, op: Op)
    ensures Drive(server, r, op).rooms == server.rooms && Drive(server, r, op).logins == server.logins
    ensures Drive(server, r, op).cache == server.cache
    ensures Drive(server, r, op).games.Keys == server.games.Keys
  {
    hide Step;
  }

  // ---------- handler by handler ----------

  lemma JoinKeepsSeats(server: Server, token: SessionToken, id: CommandId, player: PlayerId, r: RoomId, now: int)
    requires SeatedServer(server) && r in server.rooms
    ensures SeatedServer(Join(server, token, id, player, r, now).server)
  {
    hide Seated;
    hide Drive;
    hide WithSession;
    hide SnapshotOf;
    hide SlotOf;
    hide PlayerCount;
    hide Seat;
    DriveKeepsSeats(server, r, Allocating);
    if SlotOf(server.rooms[r], player).None? && PlayerCount(server.rooms[r]) < 2 {
      RoomForOne(server.rooms[r]);
      FillingKeeps(server, r, player, now);
      var seated := SetRoomTo(server, r, Seat(server.rooms[r], player, now)).(
        logins := WithRoom(server.logins, token, Some(r)));
      HostingKeeps(seated, r);
      DriveKeepsSeats(WithSession(seated, r), r, Allocating);
      var numbered := Drive(WithSession(seated, r), r, Allocating);
      var joined := RoomJoined(SeqOr(numbered, r, 1), r, player, FreeSymbol(server.rooms[r]).value,
                               SnapshotOf(numbered, r));
      DriveKeepsSeats(Answering(numbered, id, joined, now).server, r, Allocating);
    }
  }

  lemma RoomForOne(room: Room)
    requires PlayerCount(room) < 2
    ensures FreeSymbol(room).Some?
  {
  }

  lemma LeaveKeepsSeats(server: Server, token: SessionToken, id: CommandId, player: PlayerId, r: RoomId, now: int)
    requires SeatedServer(server) && r in server.rooms
    ensures SeatedServer(Leave(server, token, id, player, r, now).server)
  {
    hide Seated;
    hide Drive;
    hide Unseat;
    hide Idle;
    var forfeited := Drive(server, r, Forfeiting(player, now));
    var numbered := Drive(forfeited, r, Allocating);
    var answered := Answering(numbered, id, RoomLeft(SeqOr(numbered, r, 1)), now).server;
    var announced := Drive(answered, r, Allocating);
    DriveKeepsSeats(server, r, Forfeiting(player, now));
    DriveKeepsSeats(forfeited, r, Allocating);
    DriveKeepsSeats(answered, r, Allocating);
    EndsRunning(server, r, Forfeiting(player, now));
    NumberingKeepsIdle(forfeited, r);
    IdleIsGames(numbered, answered, r);
    NumberingKeepsIdle(answered, r);
    DriveKeepsRooms(server, r, Forfeiting(player, now));
    DriveKeepsRooms(forfeited, r, Allocating);
    DriveKeepsRooms(answered, r, Allocating);
    EmptyingKeeps(announced, r, player, now);
  }

  lemma IdleIsGames(a: Server, b: Server, r: RoomId)
    requires Idle(a, r) && a.games == b.games
    ensures Idle(b, r)
  {
  }

  lemma ReadyKeepsSeats(server: Server, id: CommandId, player: PlayerId, r: RoomId, newGame: GameId, now: int)
    requires SeatedServer(server) && r in server.rooms
    ensures SeatedServer(Ready(server, id, player, r, newGame, now).server)
  {
    hide Seated;
    hide Drive;
    hide WithSession;
    var room := server.rooms[r];
    HostingKeeps(server, r);
    if SymbolOf(room, player).Some? {
      var marked := Marked(room, SymbolOf(room, player).value);
      SameSeatsKeep(WithSession(server, r), r, marked);
      var hosted := SetRoomTo(WithSession(server, r), r, marked);
      DriveKeepsSeats(hosted, r, Allocating);
      DriveKeepsRooms(hosted, r, Allocating);
      var numbered := Drive(hosted, r, Allocating);
      DriveKeepsSeats(numbered, r, Allocating);
      DriveKeepsRooms(numbered, r, Allocating);
      var announced := Drive(numbered, r, Allocating);
      SameSeatsKeep(announced, r, Unready(marked));
      DriveKeepsSeats(SetRoomTo(announced, r, Unready(marked)), r, Starting(Unready(marked), newGame, now));
    }
  }

  lemma RematchKeepsSeats(
    server: Server, id: CommandId, player: PlayerId, r: RoomId, target: GameId, newGame: GameId, now: int
  )
    requires SeatedServer(server) && r in server.rooms
    ensures SeatedServer(Ask(server, id, player, r, target, now).server)
    ensures SeatedServer(Take(server, id, player, r, target, newGame, now).server)
    ensures SeatedServer(Refuse(server, id, player, r, target, now).server)
  {
    hide Seated;
    hide Drive;
    var room := server.rooms[r];
    DriveKeepsSeats(server, r, Requesting(room, player, target, now));
    DriveKeepsSeats(server, r, Accepting(room, player, target, newGame, now));
    DriveKeepsRooms(server, r, Accepting(room, player, target, newGame, now));
    SameSeatsKeep(Drive(server, r, Accepting(room, player, target, newGame, now)), r, Unready(room));
    DriveKeepsSeats(server, r, Declining(room, player, target));
  }

  lemma ReturnKeepsSeats(
    server: Server, token: SessionToken, id: CommandId, player: PlayerId, r: RoomId, lastReceived: int, now: int
  )
    requires SeatedServer(server) && r in server.rooms
    ensures SeatedServer(Return(server, token, id, player, r, lastReceived, now).server)
  {
    hide Seated;
    hide Drive;
    hide CatchUp;
    var room := WithConnected(server.rooms[r], player, true, now);
    SameSeatsKeep(server, r, room);
    var back := SetRoomTo(server, r, room).(logins := WithRoom(server.logins, token, Some(r)));
    DriveKeepsSeats(back, r, Clearing(player));
    var cleared := Drive(back, r, Clearing(player));
    DriveKeepsSeats(cleared, r, Reconnecting(room, player));
    DriveKeepsSeats(Drive(cleared, r, Reconnecting(room, player)), r, Allocating);
  }

  lemma PerformKeepsSeats(server: Server, token: SessionToken, id: CommandId, command: Command, now: int)
    requires SeatedServer(server) && token in server.logins && command.roomId in server.rooms
    ensures SeatedServer(Perform(server, token, id, command, now).server)
  {
    hide Seated;
    hide Drive;
    hide Join;
    hide Leave;
    hide Ready;
    hide Ask;
    hide Take;
    hide Refuse;
    hide Return;
    var player := server.logins[token].playerId;
    match command
    case JoinRoom(r) => JoinKeepsSeats(server, token, id, player, r, now);
    case LeaveRoom(r) => LeaveKeepsSeats(server, token, id, player, r, now);
    case PlayerReady(r, newGame) => ReadyKeepsSeats(server, id, player, r, newGame, now);
    case MakeMove(r, target, position) => DriveKeepsSeats(server, r, Moving(player, target, position, id, now));
    case AskRematch(r, target) => RematchKeepsSeats(server, id, player, r, target, target, now);
    case TakeRematch(r, target, newGame) => RematchKeepsSeats(server, id, player, r, target, newGame, now);
    case RefuseRematch(r, target) => RematchKeepsSeats(server, id, player, r, target, target, now);
    case Rejoin(r, lastReceived) => ReturnKeepsSeats(server, token, id, player, r, lastReceived, now);
    case SyncRequest(_, _) =>
  }

  lemma GateKeepsSeats(server: Server, token: SessionToken, id: CommandId, command: Command, now: int)
    requires SeatedServer(server)
    ensures SeatedServer(Gate(server, token, id, command, now).server)
  {
    hide Seated;
    hide Perform;
    var ready := server.(logins := LoginsSeen(server.logins, token, now), cache := CacheSeen(server.cache, id, now),
                         rooms := RoomsSeen(server.rooms, command.roomId, now));
    FewerRooms(server, ready.rooms);
    if token in ready.logins && command.roomId in ready.rooms {
      PerformKeepsSeats(ready, token, id, command, now);
    }
  }

  lemma DisconnectKeepsSeats(server: Server, token: SessionToken, now: int)
    requires SeatedServer(server)
    ensures SeatedServer(Disconnect(server, token, now))
  {
    hide Seated;
    hide Drive;
    var seen := server.(logins := LoginsSeen(server.logins, token, now));
    if token in seen.logins && seen.logins[token].roomId.Some? {
      var r := seen.logins[token].roomId.value;
      var player := seen.logins[token].playerId;
      FewerRooms(seen, RoomsSeen(seen.rooms, r, now));
      var found := seen.(rooms := RoomsSeen(seen.rooms, r, now));
      if r in found.rooms {
        var room := WithConnected(found.rooms[r], player, false, now);
        SameSeatsKeep(found, r, room);
        DriveKeepsSeats(SetRoomTo(found, r, room), r, Opening(room, player, now));
      }
    }
  }

  lemma ElapseKeepsSeats(server: Server, r: RoomId, timer: nat, now: int)
    requires SeatedServer(server)
    ensures SeatedServer(Elapse(server, r, timer, now))
  {
    hide Seated;
    hide Drive;
    hide Unseat;
    hide Idle;
    if r in server.games && IsReconnectTimer(server.games[r], timer) {
      var player := server.games[r].timers[timer].playerId;
      var op := FiringReconnect(timer, now);
      FewerRooms(server, RoomsSeen(server.rooms, r, now));
      var seen := server.(rooms := RoomsSeen(server.rooms, r, now));
      DriveKeepsSeats(seen, r, op);
      EndsRunning(seen, r, op);
      var fired := Drive(seen, r, op);
      FewerRooms(fired, RoomsSeen(fired.rooms, r, now));
      var found := fired.(rooms := RoomsSeen(fired.rooms, r, now));
      IdleIsGames(fired, found, r);
      if r in found.rooms {
        EmptyingKeeps(found, r, player, now);
      }
    }
  }

  lemma AuthenticateKeepsSeats(
    server: Server, id: CommandId, guest: Option<SessionToken>, newToken: SessionToken, newPlayer: PlayerId, now: int
  )
    requires SeatedServer(server)
    ensures SeatedServer(Authenticate(server, id, guest, newToken, newPlayer, now).server)
  {
    forall r ensures SeatedServer(server.(rooms := RoomsSeen(server.rooms, r, now))) {
      FewerRooms(server, RoomsSeen(server.rooms, r, now));
    }
    hide Seated;
  }

  lemma ServeKeepsSeats(server: Server, input: Input, now: int)
    requires SeatedServer(server) && FreshInput(server, input)
    ensures SeatedServer(Serve(server, input, now).server)
  {
    hide Drive;
    hide Gate;
    hide Authenticate;
    hide Disconnect;
    hide Elapse;
    match input
    case RoomCreation(r) => CreatingKeepsSeats(server, r, now);
    case Request(token, id, command) => GateKeepsSeats(server, token, id, command, now);
    case Authentication(id, guest, t, p) => AuthenticateKeepsSeats(server, id, guest, t, p, now);
    case Disconnection(token) => DisconnectKeepsSeats(server, token, now);
    case WindowElapses(r, timer) => ElapseKeepsSeats(server, r, timer, now);
    case ProposalElapses(r, timer, detached) =>
      var op := FiringRematch(if r in server.rooms then server.rooms[r] else detached, timer);
      FewerRooms(server, RoomsSeen(server.rooms, r, now));
      DriveKeepsSeats(server, r, op);
      DriveKeepsSeats(server.(rooms := RoomsSeen(server.rooms, r, now)), r, op);
    case Maintenance => FewerRooms(server, RoomsPurged(server.rooms, now));
  }

  lemma CreatingKeepsSeats(server: Server, r: RoomId, now: int)
    requires SeatedServer(server) && r !in server.games
    ensures SeatedServer(SetRoomTo(server, r, NewRoom(now)))
  {
  }

  /** In every reachable server, the players of a running game are those on the slots of its room. */
  lemma {:induction false} SeatsMatchRunningGame(history: Store, used: set<GameId>, inputs: seq<Timed>)
    requires FreshInputs(NewServer(history, used), inputs)
    ensures var server := ServeAll(NewServer(history, used), inputs);
            forall r | r in server.rooms && r in server.games && IsActive(server.games[r]) ::
              SeatsPlayersOf(server.rooms[r], server.games[r].game.value)
    ensures SeatedServer(ServeAll(NewServer(history, used), inputs))
  {
    hide FreshInput;
    hide Serve;
    if inputs != [] {
      var server := NewServer(history, used);
      var n := |inputs| - 1;
      FreshInputsPrefix(server, inputs);
      SeatsMatchRunningGame(history, used, inputs[..n]);
      ServeKeepsSeats(ServeAll(server, inputs[..n]), inputs[n].input, inputs[n].now);
    }
  }

  // ---------- readiness ----------

  /** Only those who sit are ready, and never both. */
  ghost predicate ReadySound(rooms: RoomMap) {
    forall r | r in rooms :: ReadyFits(rooms[r])
  }

  predicate ReadyFits(room: Room) {
    && (X in room.readySymbols ==> room.playerX.Some?)
    && (O in room.readySymbols ==> room.playerO.Some?)
    && !(X in room.readySymbols && O in room.readySymbols)
  }

  lemma DrivesKeepRooms()
    ensures forall s, q, op :: Drive(s, q, op).rooms == s.rooms && Drive(s, q, op).logins == s.logins
  {
    forall s, q, op ensures Drive(s, q, op).rooms == s.rooms && Drive(s, q, op).logins == s.logins {
      DriveKeepsRooms(s, q, op);
    }
  }

  lemma EntranceKeepsReady(
    server: Server, token: SessionToken, id: CommandId, player: PlayerId, r: RoomId, now: int
  )
    requires ReadySound(server.rooms) && r in server.rooms
    ensures ReadySound(Join(server, token, id, player, r, now).server.rooms)
    ensures ReadySound(Leave(server, token, id, player, r, now).server.rooms)
  {
    hide Drive;
    hide SnapshotOf;
    hide WasForfeited;
    hide OpponentSlot;
    DrivesKeepRooms();
  }

  lemma ReadyKeepsReady(server: Server, id: CommandId, player: PlayerId, r: RoomId, newGame: GameId, now: int)
    requires ReadySound(server.rooms) && r in server.rooms
    ensures ReadySound(Ready(server, id, player, r, newGame, now).server.rooms)
  {
    hide Prepare;
    hide WithSession;
    HostingKeepsRooms(server, r);
    if PlayerCount(server.rooms[r]) == 2 && SymbolOf(server.rooms[r], player).Some? {
      PrepareKeepsReady(WithSession(server, r), id, r, SymbolOf(server.rooms[r], player).value, newGame, now);
    }
  }

  lemma HostingKeepsRooms(server: Server, r: RoomId)
    ensures WithSession(server, r).rooms == server.rooms
  {
  }

  lemma PrepareKeepsReady(server: Server, id: CommandId, r: RoomId, symbol: Symbol, newGame: GameId, now: int)
    requires ReadySound(server.rooms) && r in server.rooms && IsFull(server.rooms[r])
    ensures ReadySound(Prepare(server, id, r, symbol, newGame, now).server.rooms)
  {
    hide Drive;
    DrivesKeepRooms();
  }

  lemma RestKeepsReady(server: Server, token: SessionToken, id: CommandId, command: Command, now: int)
    requires ReadySound(server.rooms) && token in server.logins && command.roomId in server.rooms
    requires !command.JoinRoom? && !command.LeaveRoom? && !command.PlayerReady?
    ensures ReadySound(Perform(server, token, id, command, now).server.rooms)
  {
    hide Drive;
    hide CatchUp;
    hide HandleMove;
    hide MayRequest;
    hide MayAccept;
    hide Agreed;
    hide SnapshotOf;
    DrivesKeepRooms();
  }

  lemma GateKeepsReady(server: Server, token: SessionToken, id: CommandId, command: Command, now: int)
    requires ReadySound(server.rooms)
    ensures ReadySound(Gate(server, token, id, command, now).server.rooms)
  {
    hide Join;
    hide Leave;
    hide Ready;
    hide Move;
    hide Ask;
    hide Take;
    hide Refuse;
    hide Return;
    hide Sync;
    var ready := server.(logins := LoginsSeen(server.logins, token, now), cache := CacheSeen(server.cache, id, now),
                         rooms := RoomsSeen(server.rooms, command.roomId, now));
    assert ReadySound(ready.rooms);
    if token in ready.logins && command.roomId in ready.rooms {
      var player := ready.logins[token].playerId;
      match command
      case JoinRoom(r) => EntranceKeepsReady(ready, token, id, player, r, now);
      case LeaveRoom(r) => EntranceKeepsReady(ready, token, id, player, r, now);
      case PlayerReady(r, newGame) => ReadyKeepsReady(ready, id, player, r, newGame, now);
      case _ => RestKeepsReady(ready, token, id, command, now);
    }
  }

  lemma ServeKeepsReady(server: Server, input: Input, now: int)
    requires ReadySound(server.rooms)
    ensures ReadySound(Serve(server, input, now).server.rooms)
  {
    hide Gate;
    hide Drive;
    DrivesKeepRooms();
    match input
    case Request(token, id, command) => GateKeepsReady(server, token, id, command, now);
    case _ =>
  }

  lemma {:induction false} RunKeepsReady(history: Store, used: set<GameId>, inputs: seq<Timed>)
    ensures ReadySound(ServeAll(NewServer(history, used), inputs).rooms)
  {
    hide Serve;
    if inputs != [] {
      var n := |inputs| - 1;
      RunKeepsReady(history, used, inputs[..n]);
      ServeKeepsReady(ServeAll(NewServer(history, used), inputs[..n]), inputs[n].input, inputs[n].now);
    }
  }
}
