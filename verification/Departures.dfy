/**
 How a running game ends when a player goes.  Leaving forfeits it to the opponent, always.  A
 reconnect window that runs out abandons it, and the opponent of the one who went wins exactly if
 that player still sits in the room.
 */
module Departures {
  import opened Protocol
  import opened Engine
  import opened Rooms
  import opened History
  import opened SessionModel
  import opened SessionRuns
  import opened SessionHistory
  import opened SessionStores
  import opened Handlers
  import opened ServerLaws
  import opened Seats
  import opened ReachableServers
  import opened Driving

  lemma LawfulHistory(w: World, r: RoomId)
    requires LawfulSession(w, r)
    ensures HistoryAgrees(w) && IdsKnown(w) && GameSound(w.session)
  {
    hide HistoryAgrees;
    hide IdsKnown;
    hide GameSound;
  }

  lemma EndingRecords(server: Server, r: RoomId, op: Op, ended: GameState)
    requires LawfulServer(server) && r in server.games && IsActive(server.games[r])
    requires !op.Starting? && !op.Accepting? && NextGame(server.games[r], op) == Some(ended) && ended.result.Some?
    ensures var after := Drive(server, r, op).games[r];
            after.game == Some(ended) && after.completed == [RecordOf(ended)] + server.games[r].completed
  {
    hide Step;
    hide NextGame;
    hide RecordOf;
    hide StoreSound;
    hide GamesApart;
    hide SessionSound;
    hide LawfulSession;
    var w := WorldOf(server, r);
    assert LawfulSession(w, r);
    LawfulHistory(w, r);
    StepGame(w, op);
    StepKeepsHistory(w, op);
  }

  lemma SeatedForfeit(room: Room, game: GameState, player: PlayerId, now: int)
    requires SlotsSound(room) && SeatsPlayersOf(room, game) && SymbolOf(room, player).Some?
    ensures var symbol := SymbolOf(room, player).value;
            && SlotOf(room, player).Some? && SlotOf(room, player).value.symbol == symbol
            && OpponentSlot(room, player).Some?
            && OpponentSlot(room, player).value.playerId ==
               (if symbol == X then game.playerO else game.playerX)
            && ForfeitGame(game, player, now).result ==
               Some(GameResult(Forfeit, Some(Opponent(symbol)), None, PlayerForfeited, now))
            && SlotOf(Unseat(room, player, now), player).None?
  {
  }

  lemma LeaveForfeits(server: Server, token: SessionToken, id: CommandId, player: PlayerId, r: RoomId, now: int)
    requires LawfulServer(server) && SeatedServer(server) && r in server.rooms
    requires r in server.games && IsActive(server.games[r]) && SymbolOf(server.rooms[r], player).Some?
    requires token in server.logins
    ensures var game := server.games[r].game.value;
            var symbol := SymbolOf(server.rooms[r], player).value;
            var left := Leave(server, token, id, player, r, now);
            && r in left.server.games && r in left.server.rooms && token in left.server.logins
            && left.server.games[r].game == Some(ForfeitGame(game, player, now))
            && left.server.games[r].completed ==
               [RecordOf(ForfeitGame(game, player, now))] + server.games[r].completed
            && left.server.rooms[r] == Unseat(server.rooms[r], player, now)
            && left.server.logins[token].roomId.None?
            && |left.deliveries| == 2
            && left.deliveries[1] ==
               ToConnectionsOf(if symbol == X then game.playerO else game.playerX,
                               PlayerLeft(left.server.games[r].seqNo, player, symbol, ByForfeit))
  {
    hide Drive;
    hide Lawful;
    hide RecordOf;
    hide SlotOf;
    hide OpponentSlot;
    hide Unseat;
    var op := Forfeiting(player, now);
    var game := server.games[r].game.value;
    var ended := ForfeitGame(game, player, now);
    SeatedForfeit(server.rooms[r], game, player, now);
    DriveKeepsRooms(server, r, op);
    EndingRecords(server, r, op, ended);
    var forfeited := Drive(server, r, op);
    NumberingChangesNothing(forfeited, r);
    var numbered := Drive(forfeited, r, Allocating);
    var answered := Answering(numbered, id, RoomLeft(SeqOr(numbered, r, 1)), now).server;
    NumberingChangesNothing(answered, r);
  }

  /**
   In every reachable server, LEAVE_ROOM by a seated player of a running game ends the game as a
   forfeit that the opponent wins, on the board as it stood; the game gets its record, the seat is
   freed, and the opponent is told.
   */
  lemma {:induction false} LeavingForfeits(
    history: Store, used: set<GameId>, inputs: seq<Timed>, token: SessionToken, id: CommandId, r: RoomId, now: int
  )
    requires forall room :: StoreSound(GamesOf(history, room), used)
    requires FreshInputs(NewServer(history, used), inputs)
    requires var server := ServeAll(NewServer(history, used), inputs);
             && Admitted(server, token, id, r, now) && r in server.games && IsActive(server.games[r])
             && SymbolOf(server.rooms[r], server.logins[token].playerId).Some?
    ensures var server := ServeAll(NewServer(history, used), inputs);
            var player := server.logins[token].playerId;
            var symbol := SymbolOf(server.rooms[r], player).value;
            var game := server.games[r].game.value;
            var left := Serve(server, Request(token, id, LeaveRoom(r)), now);
            var after := left.server;
            && r in after.games && after.games[r].game.Some? && r in after.rooms && token in after.logins
            && after.games[r].game.value.status == Finished
            && after.games[r].game.value.result ==
               Some(GameResult(Forfeit, Some(Opponent(symbol)), None, PlayerForfeited, now))
            && after.games[r].game.value.board == game.board
            && after.games[r].completed == [RecordOf(ForfeitGame(game, player, now))] + server.games[r].completed
            && SlotOf(after.rooms[r], player).None? && after.logins[token].roomId.None?
            && |left.deliveries| == 2
            && left.deliveries[1] ==
               ToConnectionsOf(if symbol == X then game.playerO else game.playerX,
                               PlayerLeft(after.games[r].seqNo, player, symbol, ByForfeit))
  {
    hide Serve;
    hide Leave;
    hide StoreSound;
    hide RecordOf;
    hide SlotOf;
    hide Unseat;
    hide Lawful;
    hide FreshInputs;
    hide CacheSeen;
    RunIsLawful(history, used, inputs);
    SeatsMatchRunningGame(history, used, inputs);
    var server := ServeAll(NewServer(history, used), inputs);
    var player := server.logins[token].playerId;
    AdmittedIsPerformed(server, token, id, LeaveRoom(r), now);
    var ready := server.(cache := CacheSeen(server.cache, id, now));
    LeaveForfeits(ready, token, id, player, r, now);
    SeatedForfeit(server.rooms[r], server.games[r].game.value, player, now);
  }

  lemma SeatedAbandon(room: Room, game: GameState, player: PlayerId, now: int)
    requires SeatsPlayersOf(room, game)
    ensures AbandonGame(game, player, now).result ==
            Some(GameResult(Abandoned,
                            if SymbolOf(room, player).Some? then Some(Opponent(SymbolOf(room, player).value)) else None,
                            None, PlayerAbandoned, now))
  {
  }

  /**
   A reconnect window that runs out during a game abandons it.  The player whose window it was need
   not sit in the room any more, because leaving does not close the window; the game then has no
   winner, and it has one, the opponent, exactly if the player does sit there.
   */
  lemma {:induction false} WindowAbandons(
    history: Store, used: set<GameId>, inputs: seq<Timed>, r: RoomId, timer: nat, now: int
  )
    requires forall room :: StoreSound(GamesOf(history, room), used)
    requires FreshInputs(NewServer(history, used), inputs)
    requires var server := ServeAll(NewServer(history, used), inputs);
             && r in server.rooms && r in server.games && IsActive(server.games[r])
             && IsReconnectTimer(server.games[r], timer)
    ensures var server := ServeAll(NewServer(history, used), inputs);
            var player := server.games[r].timers[timer].playerId;
            var seat := SymbolOf(server.rooms[r], player);
            var after := Serve(server, WindowElapses(r, timer), now).server;
            && r in after.games && after.games[r].game.Some?
            && after.games[r].game.value.status == Finished
            && after.games[r].game.value.gameId == server.games[r].game.value.gameId
            && after.games[r].game.value.result ==
               Some(GameResult(Abandoned, if seat.Some? then Some(Opponent(seat.value)) else None, None,
                               PlayerAbandoned, now))
            && after.games[r].completed ==
               [RecordOf(AbandonGame(server.games[r].game.value, player, now))] + server.games[r].completed
            && (r in after.rooms ==> SymbolOf(after.rooms[r], player).None?)
  {
    hide StoreSound;
    hide RecordOf;
    hide Lawful;
    hide FreshInputs;
    hide Drive;
    RunIsLawful(history, used, inputs);
    SeatsMatchRunningGame(history, used, inputs);
    var server := ServeAll(NewServer(history, used), inputs);
    hide ServeAll;
    var player := server.games[r].timers[timer].playerId;
    var op := FiringReconnect(timer, now);
    var seen := server.(rooms := RoomsSeen(server.rooms, r, now));
    EndingRecords(seen, r, op, AbandonGame(server.games[r].game.value, player, now));
    DriveKeepsRooms(seen, r, op);
    SeatedAbandon(server.rooms[r], server.games[r].game.value, player, now);
  }
}
