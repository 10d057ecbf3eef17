/**
 The command handlers on the shared stores.  Every handler does to the stores, and delivers, what
 the handler model says, so the laws of every reachable server hold of them.
 */
module CommandHandlers {
  import opened Protocol
  import opened Rooms
  import opened History
  import opened SessionModel
  import opened SessionRuns
  import opened GameSessions
  import opened SessionStores
  import opened Snapshots
  import opened Transport
  import opened Handlers
  import opened Driving

  class ServerContext {
    const sessions: SessionStore
    const rooms: RoomStore
    const historyRepository: HistoryRepository
    var gameSessions: map<RoomId, GameSession>
    ghost var used: set<GameId>
    ghost var wire: seq<Post>

    /** Every room has a session object of its own, and all of them save to the one repository. */
    ghost predicate Valid()
      reads this, sessions, gameSessions.Values
    {
      && OneLoginEach(sessions.sessions)
      && (forall r | r in gameSessions ::
            && gameSessions[r].Valid()
            && gameSessions[r].roomId == r
            && gameSessions[r].history == historyRepository)
      && (forall r, q | r in gameSessions && q in gameSessions && r != q :: gameSessions[r] != gameSessions[q])
    }

    ghost function Games(): map<RoomId, Session>
      reads this, gameSessions.Values
    {
      map r | r in gameSessions :: gameSessions[r].View()
    }

    ghost function View(): Server
      reads this, sessions, rooms, historyRepository, gameSessions.Values
    {
      Server(sessions.sessions, sessions.dedupCache, rooms.rooms, Games(), historyRepository.history, used, wire)
    }

    constructor (history: HistoryRepository, ghost used: set<GameId>)
      ensures Valid() && View() == NewServer(history.history, used)
      ensures historyRepository == history && fresh(sessions) && fresh(rooms)
    {
      sessions := new SessionStore();
      rooms := new RoomStore();
      historyRepository := history;
      gameSessions := map[];
      this.used, wire := used, [];
    }

    // ---------- one session at work ----------

    lemma HasSession(r: RoomId)
      requires Valid() && r in gameSessions
      ensures gameSessions[r].Valid() && gameSessions[r].history == historyRepository && gameSessions[r].roomId == r
      ensures forall q | q in gameSessions && q != r :: gameSessions[q] != gameSessions[r]
      ensures r in View().games && View().games[r] == gameSessions[r].View()
      ensures View().history == historyRepository.history && View().used == used && View().rooms == rooms.rooms
    {
    }

    lemma Shows()
      ensures View().logins == sessions.sessions && View().cache == sessions.dedupCache
      ensures View().rooms == rooms.rooms && View().games.Keys == gameSessions.Keys
      ensures View().history == historyRepository.history && View().used == used && View().wire == wire
    {
    }

    /** When one session worked, the server differs in that session and the history only. */
    twostate lemma OneSessionWorked(r: RoomId)
      requires old(Valid()) && r in old(gameSessions) && gameSessions == old(gameSessions)
      requires unchanged(sessions) && unchanged(rooms)
      requires forall q | q in gameSessions && q != r :: unchanged(gameSessions[q])
      requires gameSessions[r].Valid()
      requires old(View()).rooms == rooms.rooms && r in old(View()).games
      requires wire == Posted(old(View()), r, gameSessions[r].View())
      ensures Valid()
      ensures View() == WithWorld(old(View()), r, gameSessions[r].View(), historyRepository.history).(used := used)
    {
      assert Games() == old(Games())[r := gameSessions[r].View()];
    }

    method AllocateSequence(r: RoomId) returns (number: nat)
      requires Valid() && r in gameSessions
      modifies this`wire, gameSessions[r]
      ensures Valid() && View() == Drive(old(View()), r, Allocating)
      ensures r in View().games && number == View().games[r].seqNo
    {
      hide Drive;
      hide View;
      hide Valid;
      HasSession(r);
      ghost var before := View();
      DriveAllocating(View(), r);
      number := gameSessions[r].NextSeq();
      wire := Posted(before, r, gameSessions[r].View());
      OneSessionWorked(r);
    }

    /** The number for an event when there may be no session. */
    method AllocateOr(r: RoomId, default: int) returns (number: int)
      requires Valid()
      modifies this`wire, if r in gameSessions then {gameSessions[r]} else {}
      ensures Valid() && View() == Drive(old(View()), r, Allocating)
      ensures number == SeqOr(View(), r, default)
    {
      hide Step;
      hide View;
      hide Valid;
      Shows();
      if r in gameSessions {
        number := AllocateSequence(r);
      } else {
        number := default;
      }
    }

    method ForfeitGame(r: RoomId, player: PlayerId, now: int)
      requires Valid() && r in gameSessions
      modifies this`wire, gameSessions[r], historyRepository
      ensures Valid() && View() == Drive(old(View()), r, Forfeiting(player, now))
    {
      hide Drive;
      hide View;
      hide Valid;
      hide HandleForfeit;
      HasSession(r);
      ghost var before := View();
      DriveForfeiting(View(), r, player, now);
      gameSessions[r].Forfeit(player, now);
      wire := Posted(before, r, gameSessions[r].View());
      OneSessionWorked(r);
    }

    method StartGame(r: RoomId, room: Room, gameId: GameId, now: int)
      requires Valid() && r in gameSessions
      modifies this`wire, gameSessions[r], this`used
      ensures Valid() && View() == Drive(old(View()), r, Starting(room, gameId, now))
    {
      hide Drive;
      hide View;
      hide Valid;
      hide Begin;
      HasSession(r);
      ghost var before := View();
      DriveStarting(View(), r, room, gameId, now);
      var state := gameSessions[r].gameState;
      var firstTurn := if state.Some? && state.value.firstTurn == X then O else X;
      gameSessions[r].Start(room, if state.Some? then firstTurn else X, gameId, now);
      used := used + {gameId};
      wire := Posted(before, r, gameSessions[r].View());
      OneSessionWorked(r);
    }

    method MakeMove(
      r: RoomId, player: PlayerId, target: GameId, position: RawPosition, id: CommandId, now: int
    ) returns (response: Option<Event>)
      requires Valid() && r in gameSessions
      modifies this`wire, gameSessions[r], historyRepository
      ensures Valid() && r in old(View()).games
      ensures View() == Drive(old(View()), r, Moving(player, target, position, id, now))
      ensures response ==
              HandleMove(old(View()).games[r], old(View()).history, player, target, position, id, now).response
    {
      hide Drive;
      hide View;
      hide Valid;
      hide HandleMove;
      HasSession(r);
      ghost var before := View();
      DriveMoving(View(), r, player, target, position, id, now);
      response := gameSessions[r].HandleMoveCommand(player, target, position, id, now);
      wire := Posted(before, r, gameSessions[r].View());
      OneSessionWorked(r);
    }

    method RequestRematch(r: RoomId, room: Room, player: PlayerId, target: GameId, now: int) returns (done: bool)
      requires Valid() && r in gameSessions
      modifies this`wire, gameSessions[r]
      ensures Valid() && r in old(View()).games
      ensures View() == Drive(old(View()), r, Requesting(room, player, target, now))
      ensures done == MayRequest(old(View()).games[r], room, player, target)
    {
      hide Drive;
      hide View;
      hide Valid;
      hide SessionModel.RequestRematch;
      hide MayRequest;
      HasSession(r);
      ghost var before := View();
      DriveRematch(View(), r, room, player, target, target, now);
      done := gameSessions[r].HandleRematchRequest(room, player, target, now);
      wire := Posted(before, r, gameSessions[r].View());
      OneSessionWorked(r);
    }

    method AcceptRematch(
      r: RoomId, room: Room, player: PlayerId, target: GameId, newGame: GameId, now: int
    ) returns (done: bool, readyReset: bool)
      requires Valid() && r in gameSessions
      modifies this`wire, gameSessions[r], this`used
      ensures Valid() && r in old(View()).games
      ensures View() == Drive(old(View()), r, Accepting(room, player, target, newGame, now))
      ensures done == MayAccept(old(View()).games[r], room, player, target)
      ensures readyReset == Agreed(old(View()).games[r], room, player, target)
    {
      hide Drive;
      hide View;
      hide Valid;
      hide SessionModel.AcceptRematch;
      hide MayAccept;
      hide Agreed;
      HasSession(r);
      ghost var before := View();
      DriveRematch(View(), r, room, player, target, newGame, now);
      done, readyReset := gameSessions[r].HandleRematchAccept(room, player, target, newGame, now);
      used := used + {newGame};
      wire := Posted(before, r, gameSessions[r].View());
      OneSessionWorked(r);
    }

    method DeclineRematch(r: RoomId, room: Room, player: PlayerId, target: GameId) returns (done: bool)
      requires Valid() && r in gameSessions
      modifies this`wire, gameSessions[r]
      ensures Valid() && r in old(View()).games
      ensures View() == Drive(old(View()), r, Declining(room, player, target))
      ensures done == (old(View()).games[r].rematch.Some? && SymbolOf(room, player).Some?)
    {
      hide Drive;
      hide View;
      hide Valid;
      hide SessionModel.DeclineRematch;
      HasSession(r);
      ghost var before := View();
      DriveRematch(View(), r, room, player, target, target, 0);
      done := gameSessions[r].HandleRematchDecline(room, player, target);
      wire := Posted(before, r, gameSessions[r].View());
      OneSessionWorked(r);
    }

    method ClearWindow(r: RoomId, player: PlayerId)
      requires Valid() && r in gameSessions
      modifies this`wire, gameSessions[r]
      ensures Valid() && View() == Drive(old(View()), r, Clearing(player))
    {
      hide Drive;
      hide View;
      hide Valid;
      HasSession(r);
      ghost var before := View();
      DriveWindows(View(), r, NewRoom(0), player, 0);
      gameSessions[r].ClearReconnectWindow(player);
      wire := Posted(before, r, gameSessions[r].View());
      OneSessionWorked(r);
    }

    method OpenWindow(r: RoomId, room: Room, player: PlayerId, now: int)
      requires Valid() && r in gameSessions
      modifies this`wire, gameSessions[r]
      ensures Valid() && View() == Drive(old(View()), r, Opening(room, player, now))
    {
      hide Drive;
      hide View;
      hide Valid;
      HasSession(r);
      ghost var before := View();
      DriveWindows(View(), r, room, player, now);
      gameSessions[r].StartReconnectWindow(room, player, now);
      wire := Posted(before, r, gameSessions[r].View());
      OneSessionWorked(r);
    }

    method NotifyReconnected(r: RoomId, room: Room, player: PlayerId)
      requires Valid() && r in gameSessions
      modifies this`wire, gameSessions[r]
      ensures Valid() && View() == Drive(old(View()), r, Op.Reconnecting(room, player))
    {
      hide Drive;
      hide View;
      hide Valid;
      HasSession(r);
      ghost var before := View();
      DriveWindows(View(), r, room, player, 0);
      gameSessions[r].NotifyOpponentReconnected(room, player);
      wire := Posted(before, r, gameSessions[r].View());
      OneSessionWorked(r);
    }

    /** A reconnect window runs out: the session ends its game and names the player who is gone. */
    method FireWindow(r: RoomId, timer: nat, now: int) returns (leaver: PlayerId)
      requires Valid() && r in gameSessions && IsReconnectTimer(gameSessions[r].View(), timer)
      modifies this`wire, gameSessions[r], historyRepository
      ensures Valid() && View() == Drive(old(View()), r, FiringReconnect(timer, now))
      ensures leaver == old(gameSessions[r].timers)[timer].playerId
    {
      hide Drive;
      hide View;
      hide Valid;
      hide FireReconnect;
      HasSession(r);
      ghost var before := View();
      DriveFiring(View(), r, NewRoom(0), timer, now);
      leaver := gameSessions[r].ReconnectWindowExpired(timer, now);
      wire := Posted(before, r, gameSessions[r].View());
      OneSessionWorked(r);
    }

    method FireProposal(r: RoomId, room: Room, timer: nat)
      requires Valid() && r in gameSessions && IsRematchTimer(gameSessions[r].View(), timer)
      modifies this`wire, gameSessions[r]
      ensures Valid() && View() == Drive(old(View()), r, FiringRematch(room, timer))
    {
      hide Drive;
      hide View;
      hide Valid;
      hide FireRematch;
      HasSession(r);
      ghost var before := View();
      DriveFiring(View(), r, room, timer, 0);
      gameSessions[r].ExpireRematch(room, timer);
      wire := Posted(before, r, gameSessions[r].View());
      OneSessionWorked(r);
    }

    // ---------- the stores ----------

    /** When only the stores worked, the server differs in what they hold. */
    twostate lemma StoresWorked()
      requires old(Valid()) && unchanged(this) && unchanged(historyRepository) && OneLoginEach(sessions.sessions)
      requires forall q | q in gameSessions :: unchanged(gameSessions[q])
      ensures Valid()
      ensures View() == old(View()).(logins := sessions.sessions, cache := sessions.dedupCache, rooms := rooms.rooms)
    {
    }

    method GetSession(token: SessionToken, now: int) returns (login: Option<Login>)
      requires Valid()
      modifies sessions
      ensures Valid() && View() == old(View()).(logins := LoginsSeen(old(View()).logins, token, now))
      ensures login == if token in View().logins then Some(View().logins[token]) else None
    {
      login := sessions.GetSession(token, now);
      StoresWorked();
    }

    method GetCachedResult(id: CommandId, now: int) returns (result: Option<Stored>)
      requires Valid()
      modifies sessions
      ensures Valid() && View() == old(View()).(cache := CacheSeen(old(View()).cache, id, now))
      ensures result == if id in View().cache then Some(View().cache[id].result) else None
    {
      result := sessions.GetCachedResult(id, now);
      StoresWorked();
    }

    method RecordCommand(id: CommandId, result: Stored, now: int)
      requires Valid()
      modifies sessions
      ensures Valid() && View() == Remembering(old(View()), id, result, now)
    {
      sessions.RecordCommand(id, result, now);
      StoresWorked();
    }

    method SetRoom(token: SessionToken, room: Option<RoomId>)
      requires Valid()
      modifies sessions
      ensures Valid() && View() == old(View()).(logins := WithRoom(old(View()).logins, token, room))
    {
      sessions.SetRoom(token, room);
      StoresWorked();
    }

    method GetRoom(r: RoomId, now: int) returns (room: Option<Room>)
      requires Valid()
      modifies rooms
      ensures Valid() && View() == old(View()).(rooms := RoomsSeen(old(View()).rooms, r, now))
      ensures room == RoomIn(View(), r)
    {
      room := rooms.GetRoom(r, now);
      StoresWorked();
    }

    /** The session of a room, created on demand. */
    method EnsureSession(r: RoomId)
      requires Valid()
      modifies this`gameSessions
      ensures Valid() && View() == WithSession(old(View()), r) && r in gameSessions
      ensures if r in old(gameSessions) then gameSessions == old(gameSessions)
              else fresh(gameSessions[r]) && gameSessions == old(gameSessions)[r := gameSessions[r]]
    {
      if r !in gameSessions {
        var session := new GameSession(r, historyRepository);
        gameSessions := gameSessions[r := session];
        assert Games() == old(Games())[r := session.View()];
      }
    }

    method BuildRoomSnapshot(r: RoomId) returns (snapshot: RoomSnapshot)
      requires Valid()
      ensures snapshot == SnapshotOf(View(), r)
    {
      var game: Option<CurrentGame> := None;
      var completed := [];
      if r in gameSessions {
        var session := gameSessions[r];
        completed := session.completedGames;
        if session.gameState.Some? {
          var state := session.gameState.value;
          game := Some(CurrentGame(state.gameId, state.status, state.board, state.currentTurn, |state.moveHistory|,
                                   state.createdAt, state.result));
        }
      }
      if r !in rooms.rooms {
        return RoomSnapshot(r, false, None, None, {}, game, completed);
      }
      var room := rooms.rooms[r];
      var x := if room.playerX.Some? then Some(InfoOf(room.playerX.value)) else None;
      var o := if room.playerO.Some? then Some(InfoOf(room.playerO.value)) else None;
      return RoomSnapshot(r, IsFull(room), x, o, room.readySymbols, game, completed);
    }

    /** When only the room store worked. */
    twostate lemma RoomsWorked()
      requires old(Valid()) && unchanged(this) && unchanged(historyRepository) && unchanged(sessions)
      requires forall q | q in gameSessions :: unchanged(gameSessions[q])
      ensures Valid() && View() == old(View()).(rooms := rooms.rooms) && old(View()).rooms == old(rooms.rooms)
    {
      StoresWorked();
    }

    // ---------- the handlers ----------

    method HandleJoinRoom(token: SessionToken, id: CommandId, player: PlayerId, r: RoomId, now: int)
      returns (deliveries: seq<Delivery>)
      requires Valid() && r in rooms.rooms
      modifies this`wire, this`gameSessions, sessions, rooms, gameSessions.Values
      ensures Valid() && r in old(View()).rooms
      ensures Handled(View(), deliveries) == Join(old(View()), token, id, player, r, now)
      ensures fresh(gameSessions.Values - old(gameSessions.Values))
    {
      hide Drive;
      hide View;
      hide Valid;
      hide WithSession;
      hide SnapshotOf;
      Shows();
      var room := rooms.rooms[r];
      var slot := SlotOf(room, player);
      if slot.Some? {
        var snapshot := BuildRoomSnapshot(r);
        var number := AllocateOr(r, 1);
        var event := RoomJoined(number, r, player, slot.value.symbol, snapshot);
        RecordCommand(id, Reply(event), now);
        return [ToAsker(Reply(event))];
      }
      if PlayerCount(room) >= 2 {
        return [ToAsker(Reply(Error(RoomFull)))];
      }
      deliveries := EnterRoom(token, id, player, r, now);
    }

    /** Seat the player on the free slot, tell the player and whoever sits on the other one. */
    method EnterRoom(token: SessionToken, id: CommandId, player: PlayerId, r: RoomId, now: int)
      returns (deliveries: seq<Delivery>)
      requires Valid() && r in rooms.rooms && FreeSymbol(rooms.rooms[r]).Some?
      modifies this`wire, this`gameSessions, sessions, rooms, gameSessions.Values
      ensures Valid() && r in old(View()).rooms && FreeSymbol(old(View()).rooms[r]).Some?
      ensures Handled(View(), deliveries) == Enter(old(View()), token, id, player, r, now)
      ensures fresh(gameSessions.Values - old(gameSessions.Values))
    {
      hide Drive;
      hide View;
      hide Valid;
      hide WithSession;
      hide SnapshotOf;
      Shows();
      var symbol := TakeSeat(token, player, r, now);
      Shows();
      var after := rooms.rooms[r];
      EnsureSession(r);
      deliveries := AnnounceJoin(id, player, r, symbol, after, now);
    }

    method TakeSeat(token: SessionToken, player: PlayerId, r: RoomId, now: int) returns (symbol: Symbol)
      requires Valid() && r in rooms.rooms && FreeSymbol(rooms.rooms[r]).Some?
      modifies sessions, rooms
      ensures Valid() && r in old(View()).rooms && Some(symbol) == FreeSymbol(old(View()).rooms[r])
      ensures View() == SetRoomTo(old(View()), r, Seat(old(View()).rooms[r], player, now)).(
                          logins := WithRoom(old(View()).logins, token, Some(r)))
    {
      hide View;
      hide Valid;
      Shows();
      var free := rooms.AddPlayer(r, player, now);
      rooms.Touch(r, now);
      RoomsWorked();
      SetRoom(token, Some(r));
      symbol := free.value;
    }

    method AnnounceJoin(id: CommandId, player: PlayerId, r: RoomId, symbol: Symbol, room: Room, now: int)
      returns (deliveries: seq<Delivery>)
      requires Valid() && r in gameSessions && r in rooms.rooms && room == rooms.rooms[r]
      requires (if symbol == X then room.playerX else room.playerO).Some?
      modifies this`wire, gameSessions[r], sessions
      ensures Valid()
      ensures Handled(View(), deliveries) == Welcome(old(View()), id, player, r, symbol, room, now)
    {
      hide Drive;
      hide View;
      hide Valid;
      hide SnapshotOf;
      var number := AllocateSequence(r);
      var snapshot := BuildRoomSnapshot(r);
      var joined := RoomJoined(number, r, player, symbol, snapshot);
      RecordCommand(id, Reply(joined), now);
      deliveries := [ToAsker(Reply(joined))];
      var countAfter := PlayerCount(room);
      if countAfter > 1 {
        var other := if symbol == X then room.playerO else room.playerX;
        var next := AllocateSequence(r);
        deliveries := deliveries +
          [ToConnectionsOf(other.value.playerId, PlayerJoined(next, player, symbol, countAfter))];
      }
    }

    method HandleLeaveRoom(token: SessionToken, id: CommandId, player: PlayerId, r: RoomId, now: int)
      returns (deliveries: seq<Delivery>)
      requires Valid() && r in rooms.rooms
      modifies this`wire, sessions, rooms, historyRepository, gameSessions.Values
      ensures Valid() && r in old(View()).rooms
      ensures Handled(View(), deliveries) == Leave(old(View()), token, id, player, r, now)
    {
      hide Drive;
      hide View;
      hide Valid;
      Shows();
      var room := rooms.rooms[r];
      var slot := SlotOf(room, player);
      if slot.None? {
        return [ToAsker(Reply(Error(NotInRoom)))];
      }
      ForfeitIfRunning(r, player, now);
      deliveries := DepartFrom(token, id, player, r, slot.value.symbol, now);
    }

    method DepartFrom(token: SessionToken, id: CommandId, player: PlayerId, r: RoomId, symbol: Symbol, now: int)
      returns (deliveries: seq<Delivery>)
      requires Valid() && r in rooms.rooms
      modifies this`wire, sessions, rooms, if r in gameSessions then {gameSessions[r]} else {}
      ensures Valid()
      ensures Handled(View(), deliveries) ==
              Depart(old(View()), token, id, player, r, old(rooms.rooms)[r], symbol, now)
    {
      hide Drive;
      hide View;
      hide Valid;
      hide WasForfeited;
      hide Unseat;
      var room := rooms.rooms[r];
      var number := AllocateOr(r, 1);
      var left := RoomLeft(number);
      deliveries := [ToAsker(Reply(left))];
      var forfeited := EndedByForfeit(r);
      RecordCommand(id, Reply(left), now);
      var next := AllocateOr(r, number + 1);
      var event := PlayerLeft(next, player, symbol, if forfeited then ByForfeit else Voluntary);
      var opponent := OpponentSlot(room, player);
      if opponent.Some? {
        deliveries := deliveries + [ToConnectionsOf(opponent.value.playerId, event)];
      }
      Shows();
      EmptySeat(token, player, r, now);
    }

    /** Forfeit the game that is running in the room, if one is. */
    method ForfeitIfRunning(r: RoomId, player: PlayerId, now: int)
      requires Valid()
      modifies this`wire, historyRepository, if r in gameSessions then {gameSessions[r]} else {}
      ensures Valid() && View() == Drive(old(View()), r, Forfeiting(player, now))
    {
      hide View;
      hide Valid;
      hide Conclude;
      Shows();
      if r in gameSessions {
        HasSession(r);
        if gameSessions[r].gameState.Some? && gameSessions[r].gameState.value.status == Active {
          ForfeitGame(r, player, now);
        } else {
          DriveForfeiting(View(), r, player, now);
        }
      }
    }

    method EndedByForfeit(r: RoomId) returns (forfeited: bool)
      requires Valid()
      ensures forfeited == WasForfeited(Handlers.SessionIn(View(), r))
    {
      if r !in gameSessions || gameSessions[r].gameState.None? {
        return false;
      }
      var state := gameSessions[r].gameState.value;
      return state.status == Finished && state.result.Some? && state.result.value.reason == PlayerForfeited;
    }

    method EmptySeat(token: SessionToken, player: PlayerId, r: RoomId, now: int)
      requires Valid() && r in rooms.rooms
      modifies sessions, rooms
      ensures Valid() && r in old(View()).rooms
      ensures View() == SetRoomTo(old(View()), r, Unseat(old(View()).rooms[r], player, now)).(
                          logins := WithRoom(old(View()).logins, token, None))
    {
      hide View;
      hide Valid;
      Shows();
      rooms.RemovePlayer(r, player, now);
      RoomsWorked();
      SetRoom(token, None);
    }

    method HandlePlayerReady(id: CommandId, player: PlayerId, r: RoomId, newGame: GameId, now: int)
      returns (deliveries: seq<Delivery>)
      requires Valid() && r in rooms.rooms
      modifies this, sessions, rooms, gameSessions.Values
      ensures Valid() && r in old(View()).rooms
      ensures Handled(View(), deliveries) == Ready(old(View()), id, player, r, newGame, now)
      ensures fresh(gameSessions.Values - old(gameSessions.Values))
    {
      hide Drive;
      hide View;
      hide Valid;
      hide WithSession;
      Shows();
      var room := rooms.rooms[r];
      if PlayerCount(room) < 2 {
        return [ToAsker(Reply(Error(NotInRoom)))];
      }
      if SymbolOf(room, player).None? {
        return [ToAsker(Reply(Error(NotInRoom)))];
      }
      var symbol := SymbolOf(room, player).value;
      EnsureSession(r);
      if symbol in room.readySymbols {
        HasSession(r);
        var ack := PlayerReadyAck(gameSessions[r].sessionSeq, room.readySymbols);
        RecordCommand(id, Reply(ack), now);
        return [ToAsker(Reply(ack))];
      }
      deliveries := BecomeReady(id, r, symbol, newGame, now);
    }

    method BecomeReady(id: CommandId, r: RoomId, symbol: Symbol, newGame: GameId, now: int)
      returns (deliveries: seq<Delivery>)
      requires Valid() && r in gameSessions && r in rooms.rooms && IsFull(rooms.rooms[r])
      modifies this`wire, this`used, sessions, rooms, gameSessions[r]
      ensures Valid() && r in old(View()).rooms && IsFull(old(View()).rooms[r])
      ensures Handled(View(), deliveries) == Prepare(old(View()), id, r, symbol, newGame, now)
    {
      hide Drive;
      hide View;
      hide Valid;
      Shows();
      var room := rooms.rooms[r];
      rooms.MarkReady(r, symbol);
      RoomsWorked();
      var marked := rooms.rooms[r];
      var number := AllocateSequence(r);
      var ack := PlayerReadyAck(number, marked.readySymbols);
      deliveries := [ToAsker(Reply(ack))];
      var other := if symbol == X then room.playerO else room.playerX;
      var next := AllocateSequence(r);
      deliveries := deliveries +
        [ToConnectionsOf(other.value.playerId, OpponentReady(next, symbol, marked.readySymbols))];
      if BothReady(marked) {
        Shows();
        StartFromReady(r, newGame, now);
      }
      RecordCommand(id, Reply(ack), now);
    }

    method StartFromReady(r: RoomId, newGame: GameId, now: int)
      requires Valid() && r in gameSessions && r in rooms.rooms
      modifies this`wire, this`used, rooms, gameSessions[r]
      ensures Valid() && r in old(View()).rooms
      ensures var room := Unready(old(View()).rooms[r]);
              View() == Drive(SetRoomTo(old(View()), r, room), r, Starting(room, newGame, now))
    {
      hide Drive;
      hide View;
      hide Valid;
      Shows();
      rooms.ResetReady(r);
      RoomsWorked();
      StartGame(r, rooms.rooms[r], newGame, now);
    }

    method HandleMakeMove(
      id: CommandId, player: PlayerId, r: RoomId, target: GameId, position: RawPosition, now: int
    ) returns (deliveries: seq<Delivery>)
      requires Valid()
      modifies this`wire, sessions, historyRepository, gameSessions.Values
      ensures Valid() && Handled(View(), deliveries) == Move(old(View()), id, player, r, target, position, now)
    {
      hide Drive;
      hide View;
      hide Valid;
      hide HandleMove;
      Shows();
      if r !in gameSessions {
        return [ToAsker(Reply(Error(NoActiveGame)))];
      }
      var response := MakeMove(r, player, target, position, id, now);
      if response.Some? {
        RecordCommand(id, Reply(response.value), now);
      }
      return [];
    }

    method HandleRequestRematch(id: CommandId, player: PlayerId, r: RoomId, target: GameId, now: int)
      returns (deliveries: seq<Delivery>)
      requires Valid() && r in rooms.rooms
      modifies this`wire, sessions, gameSessions.Values
      ensures Valid() && r in old(View()).rooms
      ensures Handled(View(), deliveries) == Ask(old(View()), id, player, r, target, now)
    {
      hide Drive;
      hide View;
      hide Valid;
      hide MayRequest;
      Shows();
      if r !in gameSessions {
        return [ToAsker(Reply(Error(NoActiveGame)))];
      }
      HasSession(r);
      if gameSessions[r].rematch.Some? {
        return [ToAsker(Reply(Error(RematchPending)))];
      }
      var done := RequestRematch(r, rooms.rooms[r], player, target, now);
      if done {
        RecordCommand(id, Processed, now);
      }
      return [];
    }

    method HandleAcceptRematch(
      id: CommandId, player: PlayerId, r: RoomId, target: GameId, newGame: GameId, now: int
    ) returns (deliveries: seq<Delivery>)
      requires Valid() && r in rooms.rooms
      modifies this`wire, this`used, sessions, rooms, gameSessions.Values
      ensures Valid() && r in old(View()).rooms
      ensures Handled(View(), deliveries) == Take(old(View()), id, player, r, target, newGame, now)
    {
      hide Drive;
      hide View;
      hide Valid;
      hide MayAccept;
      hide Agreed;
      Shows();
      if r !in gameSessions {
        return [ToAsker(Reply(Error(NoActiveGame)))];
      }
      HasSession(r);
      if gameSessions[r].rematch.None? {
        return [ToAsker(Reply(Error(RematchNotRequested)))];
      }
      var done, readyReset := AcceptRematch(r, rooms.rooms[r], player, target, newGame, now);
      label Accepted:
      if readyReset {
        rooms.ResetReady(r);
        RoomsWorked@Accepted();
      }
      if done {
        RecordCommand(id, Processed, now);
      }
      return [];
    }

    method HandleDeclineRematch(id: CommandId, player: PlayerId, r: RoomId, target: GameId, now: int)
      returns (deliveries: seq<Delivery>)
      requires Valid() && r in rooms.rooms
      modifies this`wire, sessions, gameSessions.Values
      ensures Valid() && r in old(View()).rooms
      ensures Handled(View(), deliveries) == Refuse(old(View()), id, player, r, target, now)
    {
      hide Drive;
      hide View;
      hide Valid;
      Shows();
      if r !in gameSessions {
        return [ToAsker(Reply(Error(RematchNotRequested)))];
      }
      HasSession(r);
      if gameSessions[r].rematch.None? {
        return [ToAsker(Reply(Error(RematchNotRequested)))];
      }
      var done := DeclineRematch(r, rooms.rooms[r], player, target);
      if done {
        RecordCommand(id, Processed, now);
      }
      return [];
    }

    method HandleReconnect(
      token: SessionToken, id: CommandId, player: PlayerId, r: RoomId, lastReceived: int, now: int
    ) returns (deliveries: seq<Delivery>)
      requires Valid() && r in rooms.rooms
      modifies this`wire, sessions, rooms, gameSessions.Values
      ensures Valid() && r in old(View()).rooms
      ensures Handled(View(), deliveries) == Return(old(View()), token, id, player, r, lastReceived, now)
    {
      hide Drive;
      hide View;
      hide Valid;
      hide Returned;
      hide CatchUp;
      Shows();
      var slot := SlotOf(rooms.rooms[r], player);
      if slot.None? {
        return [ToAsker(Reply(Error(ReconnectInvalid)))];
      }
      WelcomeBack(token, player, r, now);
      var replies := AnswerReconnect(r, lastReceived, player, slot.value.symbol);
      RecordCommand(id, Reply(replies[0]), now);
      deliveries := [ToAsker(Reply(replies[0]))];
      if |replies| > 1 {
        deliveries := deliveries + [ToAsker(Reply(replies[1]))];
      }
    }

    /** Mark the player present, stop the window, tell the opponent and take a number. */
    method WelcomeBack(token: SessionToken, player: PlayerId, r: RoomId, now: int)
      requires Valid() && r in rooms.rooms
      modifies this`wire, sessions, rooms, if r in gameSessions then {gameSessions[r]} else {}
      ensures Valid() && r in old(View()).rooms && View() == Returned(old(View()), token, player, r, now)
    {
      hide View;
      hide Valid;
      hide Step;
      hide WithConnected;
      Shows();
      rooms.SetConnected(r, player, true, now);
      RoomsWorked();
      SetRoom(token, Some(r));
      Shows();
      var room := rooms.rooms[r];
      if r in gameSessions {
        ClearWindow(r, player);
        NotifyReconnected(r, room, player);
        var _ := AllocateSequence(r);
      }
    }

    /** The acknowledgement, and what the client missed if it claims to be behind. */
    method AnswerReconnect(r: RoomId, lastReceived: int, player: PlayerId, symbol: Symbol) returns (replies: seq<Event>)
      requires Valid()
      ensures 1 <= |replies| <= 2 && replies == CatchUp(View(), r, lastReceived, player, symbol)
    {
      hide SessionModel.ReplayEvents;
      hide BuildSnapshot;
      var snapshot := BuildRoomSnapshot(r);
      var number := if r in gameSessions then gameSessions[r].sessionSeq else 1;
      replies := [ReconnectAck(number, player, symbol, snapshot)];
      if lastReceived < number {
        var replay := Some([]);
        if r in gameSessions {
          replay := gameSessions[r].GetReplayEvents(lastReceived + 1, player);
        }
        if replay.Some? && replay.value != [] {
          replies := replies + [StateSyncReplay(number, lastReceived + 1, replay.value)];
        } else {
          replies := replies + [StateSyncSnapshot(number, snapshot)];
        }
      }
    }

    method HandleSyncRequest(id: CommandId, player: PlayerId, r: RoomId, fromSeq: int, now: int)
      returns (deliveries: seq<Delivery>)
      requires Valid() && r in rooms.rooms
      modifies sessions
      ensures Valid() && r in old(View()).rooms
      ensures Handled(View(), deliveries) == Sync(old(View()), id, player, r, fromSeq, now)
    {
      hide View;
      hide Valid;
      hide SessionModel.ReplayEvents;
      hide SnapshotOf;
      Shows();
      if SlotOf(rooms.rooms[r], player).None? {
        return [ToAsker(Reply(Error(NotInRoom)))];
      }
      var replay := Some([]);
      var number := 0;
      if r in gameSessions {
        HasSession(r);
        number := gameSessions[r].sessionSeq;
        replay := gameSessions[r].GetReplayEvents(fromSeq, player);
      }
      var sync;
      if replay.Some? && replay.value != [] {
        sync := StateSyncReplay(number, fromSeq, replay.value);
      } else {
        var snapshot := BuildRoomSnapshot(r);
        sync := StateSyncSnapshot(number, snapshot);
      }
      RecordCommand(id, Reply(sync), now);
      return [ToAsker(Reply(sync))];
    }

    /** What all handlers begin with: who asks, whether the command is a retry, and where it goes. */
    method HandleCommand(token: SessionToken, id: CommandId, command: Command, now: int)
      returns (deliveries: seq<Delivery>)
      requires Valid()
      modifies this, sessions, rooms, historyRepository, gameSessions.Values
      ensures Valid() && Handled(View(), deliveries) == Serve(old(View()), Request(token, id, command), now)
      ensures fresh(gameSessions.Values - old(gameSessions.Values))
    {
      hide View;
      hide Valid;
      hide Perform;
      var login := GetSession(token, now);
      if login.None? {
        return [ToAsker(Reply(Error(NotAuthenticated)))];
      }
      var cached := GetCachedResult(id, now);
      if cached.Some? {
        return if command.IsRematch() then [] else [ToAsker(cached.value)];
      }
      if command.JoinRoom? && login.value.roomId.Some? && login.value.roomId.value != command.roomId {
        return [ToAsker(Reply(Error(AlreadyInRoom)))];
      }
      var room := GetRoom(command.roomId, now);
      if room.None? {
        return [ToAsker(Reply(Error(RoomNotFound)))];
      }
      Shows();
      deliveries := Dispatch(token, id, login.value.playerId, command, now);
    }

    method Dispatch(token: SessionToken, id: CommandId, player: PlayerId, command: Command, now: int)
      returns (deliveries: seq<Delivery>)
      requires Valid() && token in sessions.sessions && sessions.sessions[token].playerId == player
      requires command.roomId in rooms.rooms
      modifies this, sessions, rooms, historyRepository, gameSessions.Values
      ensures Valid() && token in old(View()).logins && command.roomId in old(View()).rooms
      ensures Handled(View(), deliveries) == Perform(old(View()), token, id, command, now)
      ensures fresh(gameSessions.Values - old(gameSessions.Values))
    {
      hide View;
      hide Valid;
      hide Join;
      hide Leave;
      hide Ready;
      hide Move;
      hide Ask;
      hide Take;
      hide Refuse;
      hide Return;
      hide Sync;
      Shows();
      match command
      case JoinRoom(r) => deliveries := HandleJoinRoom(token, id, player, r, now);
      case LeaveRoom(r) => deliveries := HandleLeaveRoom(token, id, player, r, now);
      case PlayerReady(r, newGame) => deliveries := HandlePlayerReady(id, player, r, newGame, now);
      case MakeMove(r, target, position) => deliveries := HandleMakeMove(id, player, r, target, position, now);
      case AskRematch(r, target) => deliveries := HandleRequestRematch(id, player, r, target, now);
      case TakeRematch(r, target, newGame) => deliveries := HandleAcceptRematch(id, player, r, target, newGame, now);
      case RefuseRematch(r, target) => deliveries := HandleDeclineRematch(id, player, r, target, now);
      case Rejoin(r, lastReceived) => deliveries := HandleReconnect(token, id, player, r, lastReceived, now);
      case SyncRequest(r, fromSeq) => deliveries := HandleSyncRequest(id, player, r, fromSeq, now);
    }

    /** `newToken` and `newPlayer` are generated; they are used if no guest token is given. */
    method HandleAuth(
      id: CommandId, guest: Option<SessionToken>, newToken: SessionToken, newPlayer: PlayerId, now: int
    ) returns (deliveries: seq<Delivery>)
      requires Valid() && FreshInput(View(), Authentication(id, guest, newToken, newPlayer))
      modifies sessions, rooms
      ensures Valid()
      ensures Handled(View(), deliveries) == Serve(old(View()), Authentication(id, guest, newToken, newPlayer), now)
    {
      hide View;
      hide Valid;
      hide Greet;
      Shows();
      HasLogins();
      var cached := GetCachedResult(id, now);
      if cached.Some? {
        return [ToAsker(cached.value)];
      }
      label Known:
      Shows();
      var token := newToken;
      if guest.Some? {
        token := guest.value;
        var login := GetSession(token, now);
        if login.None? {
          return [ToAsker(Reply(Error(AuthFailed)))];
        }
      } else {
        var _ := sessions.CreateSession(newToken, newPlayer, now);
        StoresWorked@Known();
      }
      Shows();
      label Found:
      HasLogins();
      sessions.Touch(token, now);
      StoresWorked@Found();
      Shows();
      deliveries := GreetPlayer(id, token, now);
    }

    lemma HasLogins()
      requires Valid()
      ensures OneLoginEach(sessions.sessions)
    {
    }

    method GreetPlayer(id: CommandId, token: SessionToken, now: int) returns (deliveries: seq<Delivery>)
      requires Valid() && token in sessions.sessions
      modifies sessions, rooms
      ensures Valid() && token in old(View()).logins
      ensures Handled(View(), deliveries) == Greet(old(View()), id, token, now)
    {
      hide View;
      hide Valid;
      Shows();
      var login := sessions.sessions[token];
      var existing: Option<ExistingRoom> := None;
      if login.roomId.Some? {
        var r := login.roomId.value;
        var room := GetRoom(r, now);
        Shows();
        if room.Some? && SymbolOf(room.value, login.playerId).Some? {
          var status := Waiting;
          if r in gameSessions {
            HasSession(r);
            if gameSessions[r].gameState.Some? {
              status := gameSessions[r].gameState.value.status;
            }
          }
          existing := Some(ExistingRoom(r, SymbolOf(room.value, login.playerId).value, status));
        } else {
          SetRoom(token, None);
        }
      }
      var ack := AuthAck(token, login.playerId, existing);
      RecordCommand(id, Reply(ack), now);
      return [ToAsker(Reply(ack))];
    }

    /** Called by the transport when a player's last connection closes. */
    method HandleDisconnect(token: SessionToken, now: int)
      requires Valid()
      modifies this`wire, sessions, rooms, gameSessions.Values
      ensures Valid() && View() == Serve(old(View()), Disconnection(token), now).server
    {
      hide View;
      hide Valid;
      hide Drive;
      var login := GetSession(token, now);
      if login.None? || login.value.roomId.None? {
        return;
      }
      var r := login.value.roomId.value;
      var room := GetRoom(r, now);
      if room.None? {
        return;
      }
      Shows();
      label Gone:
      rooms.SetConnected(r, login.value.playerId, false, now);
      RoomsWorked@Gone();
      Shows();
      if r in gameSessions {
        HasSession(r);
        if gameSessions[r].gameState.Some? && gameSessions[r].gameState.value.status == Active {
          OpenWindow(r, rooms.rooms[r], login.value.playerId, now);
        }
      }
    }

    /** The runtime fires a pending reconnect timer. */
    method OnWindowElapsed(r: RoomId, timer: nat, now: int)
      requires Valid() && r in gameSessions && IsReconnectTimer(gameSessions[r].View(), timer)
      modifies this`wire, sessions, rooms, historyRepository, gameSessions[r]
      ensures Valid() && View() == Serve(old(View()), WindowElapses(r, timer), now).server
    {
      hide View;
      hide Valid;
      hide Drive;
      Shows();
      HasSession(r);
      var _ := GetRoom(r, now);
      Shows();
      var leaver := FireWindow(r, timer, now);
      OnPlayerLeft(r, leaver, now);
    }

    /** Free the slot of a player whose window ran out, and the room reference of the player's login. */
    method OnPlayerLeft(r: RoomId, player: PlayerId, now: int)
      requires Valid()
      modifies sessions, rooms
      ensures Valid() && View() == FreeSlot(old(View()), r, player, now)
    {
      hide View;
      hide Valid;
      Shows();
      HasLogins();
      var room := GetRoom(r, now);
      Shows();
      label Looked:
      if room.Some? {
        rooms.RemovePlayer(r, player, now);
        RoomsWorked@Looked();
      }
      var token := sessions.GetTokenByPlayerId(player);
      if token.Some? {
        ForgettingOne(sessions.sessions, token.value, player);
        SetRoom(token.value, None);
      } else {
        ForgettingNone(sessions.sessions, player);
      }
    }

    /** The runtime fires a pending rematch timer; `detached` is the record of a room the store dropped. */
    method OnProposalElapsed(r: RoomId, timer: nat, detached: Room, now: int)
      requires Valid() && r in gameSessions && IsRematchTimer(gameSessions[r].View(), timer)
      modifies this`wire, rooms, gameSessions[r]
      ensures Valid() && View() == Serve(old(View()), ProposalElapses(r, timer, detached), now).server
    {
      hide View;
      hide Valid;
      hide Drive;
      Shows();
      HasSession(r);
      var room := if r in rooms.rooms then rooms.rooms[r] else detached;
      if gameSessions[r].rematch.Some? && PlayerCount(room) > 0 {
        var _ := GetRoom(r, now);
      }
      FireProposal(r, room, timer);
    }

    method CreateRoom(r: RoomId, now: int)
      requires Valid() && FreshInput(View(), RoomCreation(r))
      modifies rooms
      ensures Valid() && View() == Serve(old(View()), RoomCreation(r), now).server
    {
      hide View;
      hide Valid;
      Shows();
      rooms.CreateRoom(r, now);
      RoomsWorked();
    }

    method PurgeExpired(now: int)
      requires Valid()
      modifies sessions, rooms
      ensures Valid() && View() == Serve(old(View()), Maintenance, now).server
    {
      hide View;
      hide Valid;
      Shows();
      HasLogins();
      sessions.PurgeExpired(now);
      rooms.PurgeExpired(now);
      StoresWorked();
    }
  }
}
