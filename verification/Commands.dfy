/**
 What each command does to a reachable server, said outright: rooms, readiness, logins, games,
 timers and answers after it, from what they were before it.
 */
module Commands {
  import opened Protocol
  import opened Engine
  import opened Rooms
  import opened History
  import opened SessionModel
  import opened SessionRuns
  import opened SessionLaws
  import opened SessionHistory
  import opened SessionStores
  import opened Snapshots
  import opened Handlers
  import opened ServerLaws
  import opened Seats
  import opened ReachableServers
  import opened Driving
  import opened Messages

  // ---------- common ground ----------

  function GameIn(server: Server, r: RoomId): Option<GameState> {
    if r in server.games then server.games[r].game else None
  }

  /** The room's session, or the one that is created for it when it is first needed. */
  function SessionAt(server: Server, r: RoomId): Session {
    if r in server.games then server.games[r]
    else
      var records := if r in server.history then server.history[r] else [];
      Session(r, None, 0, None, records, [], map[], map[], 0, [], [])
  }

  predicate IsFullyTaken(room: Room) {
    room.playerX.Some? && room.playerO.Some?
  }

  function WithSlot(room: Room, symbol: Symbol, slot: Option<Slot>): Room {
    match symbol
    case X => room.(playerX := slot)
    case O => room.(playerO := slot)
  }

  /** The player of this login sits on this seat. */
  predicate SitsBy(server: Server, token: SessionToken, r: RoomId, symbol: Symbol) {
    token in server.logins && r in server.rooms && Sits(server.rooms[r], symbol, server.logins[token].playerId)
  }

  /** In a reachable server slots carry their symbols, nobody sits twice, and sessions obey their laws. */
  lemma ReachableFacts(server: Server, r: RoomId)
    requires Reachable(server)
    ensures r in server.rooms ==> SlotsSound(server.rooms[r]) && ReadyFits(server.rooms[r])
    ensures r in server.games ==> LawfulSession(WorldOf(server, r), r)
    ensures r in server.games ==> server.games[r].roomId == r && TimersMatch(server.games[r])
                                  && ProposalOpen(server.games[r]) && GameSound(server.games[r])
    ensures r in server.games && r in server.rooms && IsActive(server.games[r]) ==>
              SeatsPlayersOf(server.rooms[r], server.games[r].game.value)
  {
    hide Reachable;
    hide StoreSound;
    hide TimersMatch;
    hide ProposalOpen;
    hide GameSound;
    hide GamesApart;
    ReachableIsSound(server);
    if r in server.games {
      assert LawfulSession(WorldOf(server, r), r);
    }
  }

  /** A running game is not in the records yet. */
  lemma RunningIsUnrecorded(server: Server, r: RoomId)
    requires Reachable(server) && r in server.games && IsActive(server.games[r])
    ensures forall i | 0 <= i < |server.games[r].completed| ::
              server.games[r].completed[i].gameId != server.games[r].game.value.gameId
  {
    hide Reachable;
    hide NoRepeats;
    hide ExactRecords;
    hide IdsKnown;
    hide PlayedOnce;
    hide AcksStand;
    hide GameSound;
    ReachableFacts(server, r);
    var w := WorldOf(server, r);
    assert SessionSound(w) by {
      hide SessionSound;
    }
  }

  // ---------- readiness ----------

  /** The game that two ready players start: X begins the first one, and then the other symbol each time. */
  function FirstGame(before: Server, r: RoomId, room: Room, newGame: GameId, now: int): GameState
    requires IsFullyTaken(room)
  {
    var last := GameIn(before, r);
    var firstTurn := if last.Some? then Other(last.value.firstTurn) else X;
    GameState(newGame, r, room.playerX.value.playerId, room.playerO.value.playerId, EMPTY_BOARD, firstTurn, Active,
              None, [], firstTurn, now, None, None)
  }

  lemma StartingBegins(server: Server, r: RoomId, room: Room, newGame: GameId, now: int)
    requires r in server.games && server.games[r].roomId == r && IsFullyTaken(room)
    ensures var after := Drive(server, r, Starting(room, newGame, now));
            && r in after.games && after.games[r].game == Some(FirstGame(server, r, room, newGame, now))
            && after == server.(games := server.games[r := after.games[r]], used := after.used, wire := after.wire)
  {
    hide Drive;
    hide Begin;
    hide Posted;
    DriveStarting(server, r, room, newGame, now);
    StartTells(server.games[r], room, NextFirstTurn(server.games[r]), newGame, now);
  }

  /** What getting ready is answered with, whether or not a game starts. */
  function ReadyNews(room: Room, symbol: Symbol, n: nat): seq<Delivery>
    requires IsFullyTaken(room)
  {
    var grown := room.readySymbols + {symbol};
    [ToAsker(Reply(PlayerReadyAck(n + 1, grown))),
     ToConnectionsOf(SlotAt(room, Other(symbol)).value.playerId, OpponentReady(n + 2, symbol, grown))]
  }

  lemma PrepareWaits(server: Server, id: CommandId, r: RoomId, symbol: Symbol, newGame: GameId, now: int)
    requires r in server.rooms && IsFullyTaken(server.rooms[r]) && r in server.games
    requires symbol !in server.rooms[r].readySymbols && Other(symbol) !in server.rooms[r].readySymbols
    ensures var room, n := server.rooms[r], server.games[r].seqNo;
            var prepared := Prepare(server, id, r, symbol, newGame, now);
            && prepared.deliveries == ReadyNews(room, symbol, n)
            && prepared.server.(cache := server.cache) ==
               server.(rooms := server.rooms[r := room.(readySymbols := room.readySymbols + {symbol})],
                       games := server.games[r := server.games[r].(seqNo := n + 2)])
  {
    hide Drive;
    NumberTwice(SetRoomTo(server, r, Marked(server.rooms[r], symbol)), r);
  }

  lemma PrepareStarts(server: Server, id: CommandId, r: RoomId, symbol: Symbol, newGame: GameId, now: int)
    requires r in server.rooms && IsFullyTaken(server.rooms[r]) && r in server.games && server.games[r].roomId == r
    requires symbol !in server.rooms[r].readySymbols && Other(symbol) in server.rooms[r].readySymbols
    ensures var room, n := server.rooms[r], server.games[r].seqNo;
            var prepared := Prepare(server, id, r, symbol, newGame, now);
            var after := prepared.server;
            && prepared.deliveries == ReadyNews(room, symbol, n)
            && r in after.games && after.games[r].game == Some(FirstGame(server, r, room, newGame, now))
            && after.(cache := server.cache, used := server.used, wire := server.wire) ==
               server.(rooms := server.rooms[r := room.(readySymbols := {})],
                       games := server.games[r := after.games[r]])
  {
    hide Drive;
    var room := server.rooms[r];
    var marked := Marked(room, symbol);
    NumberTwice(SetRoomTo(server, r, marked), r);
    var announced := Drive(Drive(SetRoomTo(server, r, marked), r, Allocating), r, Allocating);
    StartingBegins(SetRoomTo(announced, r, Unready(marked)), r, Unready(marked), newGame, now);
    assert server.rooms[r := marked][r := Unready(marked)] == server.rooms[r := Unready(marked)];
  }

  lemma NumberTwice(server: Server, r: RoomId)
    requires r in server.games
    ensures var s, once := server.games[r], Drive(server, r, Allocating);
            && r in once.games && once.games[r].seqNo == s.seqNo + 1
            && Drive(once, r, Allocating) == server.(games := server.games[r := s.(seqNo := s.seqNo + 2)])
  {
    hide Drive;
    NumberingChangesNothing(server, r);
    var once := Drive(server, r, Allocating);
    NumberingChangesNothing(once, r);
    assert server.games[r := once.games[r]][r := Allocate(once.games[r])] == server.games[r := Allocate(once.games[r])];
  }

  lemma HostingIs(server: Server, r: RoomId)
    ensures WithSession(server, r) == server.(games := server.games[r := SessionAt(server, r)])
  {
  }

  lemma ReadyPrepares(
    server: Server, token: SessionToken, id: CommandId, r: RoomId, symbol: Symbol, newGame: GameId, now: int
  )
    requires Reachable(server) && Admitted(server, token, id, r, now) && SitsBy(server, token, r, symbol)
    requires IsFullyTaken(server.rooms[r]) && symbol !in server.rooms[r].readySymbols
    ensures var swept := CacheSeen(server.cache, id, now);
            Serve(server, Request(token, id, PlayerReady(r, newGame)), now) ==
            Prepare(server.(cache := swept, games := server.games[r := SessionAt(server, r)]), id, r, symbol, newGame,
                    now)
  {
    hide Reachable;
    hide Prepare;
    hide LawfulSession;
    hide Serve;
    hide CacheSeen;
    hide WithSession;
    hide TimersMatch;
    hide GameSound;
    ReachableFacts(server, r);
    AdmittedIsPerformed(server, token, id, PlayerReady(r, newGame), now);
    LookupsAre(server.rooms[r], symbol, server.logins[token].playerId);
    HostingIs(server.(cache := CacheSeen(server.cache, id, now)), r);
  }

  /**
   PLAYER_READY by a seated player of a full room who was not ready yet: if the other one is ready,
   readiness starts over and the next game begins; otherwise this player is ready too, and that is all.
   */
  lemma ReadyStartsIff(
    server: Server, token: SessionToken, id: CommandId, r: RoomId, symbol: Symbol, newGame: GameId, now: int
  )
    requires Reachable(server) && Admitted(server, token, id, r, now) && SitsBy(server, token, r, symbol)
    requires IsFullyTaken(server.rooms[r]) && symbol !in server.rooms[r].readySymbols
    ensures var room, s := server.rooms[r], SessionAt(server, r);
            var done := Serve(server, Request(token, id, PlayerReady(r, newGame)), now);
            var after := done.server;
            && done.deliveries == ReadyNews(room, symbol, s.seqNo)
            && r in after.games
            && if Other(symbol) in room.readySymbols then
                 && after.games[r].game == Some(FirstGame(server, r, room, newGame, now))
                 && after.(cache := server.cache, used := server.used, wire := server.wire) ==
                    server.(rooms := server.rooms[r := room.(readySymbols := {})],
                            games := server.games[r := after.games[r]])
               else
                 after.(cache := server.cache) ==
                 server.(rooms := server.rooms[r := room.(readySymbols := room.readySymbols + {symbol})],
                         games := server.games[r := s.(seqNo := s.seqNo + 2)])
  {
    hide Reachable;
    hide Prepare;
    hide Serve;
    hide CacheSeen;
    hide ReadyNews;
    hide LawfulSession;
    hide TimersMatch;
    hide GameSound;
    ReachableFacts(server, r);
    ReadyPrepares(server, token, id, r, symbol, newGame, now);
    var hosted := server.(cache := CacheSeen(server.cache, id, now),
                          games := server.games[r := SessionAt(server, r)]);
    if Other(symbol) in server.rooms[r].readySymbols {
      PrepareStarts(hosted, id, r, symbol, newGame, now);
    } else {
      PrepareWaits(hosted, id, r, symbol, newGame, now);
    }
  }

  // ---------- entering ----------

  /** What a snapshot of a room shows: players, readiness, the game at hand, the records. */
  function Picture(server: Server, r: RoomId): RoomSnapshot
    requires r in server.rooms
  {
    var room, game := server.rooms[r], GameIn(server, r);
    RoomSnapshot(
      r, room.playerX.Some? && room.playerO.Some?, Portrait(room.playerX), Portrait(room.playerO), room.readySymbols,
      if game.None? then None
      else Some(CurrentGame(game.value.gameId, game.value.status, game.value.board, game.value.currentTurn,
                            |game.value.moveHistory|, game.value.createdAt, game.value.result)),
      if r in server.games then server.games[r].completed else [])
  }

  function Portrait(slot: Option<Slot>): Option<PlayerInfo> {
    if slot.None? then None
    else Some(PlayerInfo(slot.value.playerId, slot.value.symbol, slot.value.connected, slot.value.lastSeenAt))
  }

  lemma PictureIs(server: Server, r: RoomId)
    requires r in server.rooms
    ensures SnapshotOf(server, r) == Picture(server, r)
  {
  }

  lemma WelcomeIs(
    server: Server, id: CommandId, player: PlayerId, r: RoomId, symbol: Symbol, room: Room, now: int
  )
    requires r in server.games && r in server.rooms
    ensures var s, other := server.games[r], SlotAt(room, Other(symbol));
            var done := Welcome(server, id, player, r, symbol, room, now);
            && done.server.(cache := server.cache) ==
               server.(games := server.games[r := s.(seqNo := s.seqNo + if other.Some? then 2 else 1)])
            && r in done.server.rooms
            && done.deliveries ==
               [ToAsker(Reply(RoomJoined(s.seqNo + 1, r, player, symbol, Picture(done.server, r))))] +
               if other.Some?
               then [ToConnectionsOf(other.value.playerId, PlayerJoined(s.seqNo + 2, player, symbol, 2))] else []
  {
    hide Drive;
    hide SnapshotOf;
    NumberTwice(server, r);
    NumberingChangesNothing(server, r);
    var numbered := Drive(server, r, Allocating);
    var joined := RoomJoined(numbered.games[r].seqNo, r, player, symbol, SnapshotOf(numbered, r));
    NumberingChangesNothing(Answering(numbered, id, joined, now).server, r);
    PictureIs(numbered, r);
  }

  lemma EnterIs(
    server: Server, token: SessionToken, id: CommandId, player: PlayerId, r: RoomId, symbol: Symbol, now: int
  )
    requires token in server.logins && r in server.rooms && FreeSymbol(server.rooms[r]) == Some(symbol)
    ensures var room, s := server.rooms[r], SessionAt(server, r);
            var other := SlotAt(room, Other(symbol));
            var done := Enter(server, token, id, player, r, now);
            && r in done.server.rooms
            && done.server.(cache := server.cache) ==
               server.(logins := server.logins[token := server.logins[token].(roomId := Some(r))],
                       rooms := server.rooms[r := WithSlot(room, symbol, Some(Slot(player, symbol, true, now))).(
                                                    lastActivityAt := now)],
                       games := server.games[r := s.(seqNo := s.seqNo + if other.Some? then 2 else 1)])
            && done.deliveries ==
               [ToAsker(Reply(RoomJoined(s.seqNo + 1, r, player, symbol, Picture(done.server, r))))] +
               if other.Some?
               then [ToConnectionsOf(other.value.playerId, PlayerJoined(s.seqNo + 2, player, symbol, 2))] else []
  {
    hide Welcome;
    hide WithSession;
    hide Picture;
    hide Seat;
    hide SlotAt;
    hide WithSlot;
    hide SessionAt;
    var room := Seat(server.rooms[r], player, now);
    var seated := SetRoomTo(server, r, room).(logins := WithRoom(server.logins, token, Some(r)));
    SeatingIs(server.rooms[r], player, symbol, now);
    HostingIs(seated, r);
    SameSession(seated, server, r);
    var s := SessionAt(server, r);
    WelcomeIs(WithSession(seated, r), id, player, r, symbol, room, now);
    assert forall n: nat :: server.games[r := s][r := s.(seqNo := n)] == server.games[r := s.(seqNo := n)];
  }

  lemma SeatingIs(room: Room, player: PlayerId, symbol: Symbol, now: int)
    requires FreeSymbol(room) == Some(symbol)
    ensures Seat(room, player, now) ==
            WithSlot(room, symbol, Some(Slot(player, symbol, true, now))).(lastActivityAt := now)
    ensures SlotAt(Seat(room, player, now), Other(symbol)) == SlotAt(room, Other(symbol))
  {
  }

  /** JOIN_ROOM by somebody new to a room with a free seat: the first free one, X before O, and both are told. */
  lemma JoinSeats(server: Server, token: SessionToken, id: CommandId, r: RoomId, symbol: Symbol, now: int)
    requires Reachable(server) && Admitted(server, token, id, r, now)
    requires server.logins[token].roomId == None || server.logins[token].roomId == Some(r)
    requires !IsSeated(server.rooms[r], server.logins[token].playerId) && !IsFullyTaken(server.rooms[r])
    requires symbol == if server.rooms[r].playerX.None? then X else O
    ensures var player, room, s := server.logins[token].playerId, server.rooms[r], SessionAt(server, r);
            var other := SlotAt(room, Other(symbol));
            var done := Serve(server, Request(token, id, JoinRoom(r)), now);
            var after := done.server;
            && r in after.rooms
            && after.(cache := server.cache) ==
               server.(logins := server.logins[token := server.logins[token].(roomId := Some(r))],
                       rooms := server.rooms[r := WithSlot(room, symbol, Some(Slot(player, symbol, true, now))).(
                                                    lastActivityAt := now)],
                       games := server.games[r := s.(seqNo := s.seqNo + if other.Some? then 2 else 1)])
            && done.deliveries ==
               [ToAsker(Reply(RoomJoined(s.seqNo + 1, r, player, symbol, Picture(after, r))))] +
               if other.Some?
               then [ToConnectionsOf(other.value.playerId, PlayerJoined(s.seqNo + 2, player, symbol, 2))] else []
  {
    hide Reachable;
    hide Serve;
    hide Enter;
    hide SlotAt;
    hide WithSlot;
    hide SessionAt;
    hide Picture;
    hide CacheSeen;
    AdmittedIsPerformed(server, token, id, JoinRoom(r), now);
    var ready := server.(cache := CacheSeen(server.cache, id, now));
    var player := server.logins[token].playerId;
    NoLookups(server.rooms[r], player);
    EnterIs(ready, token, id, player, r, symbol, now);
    SameSession(ready, server, r);
  }

  lemma SameSession(a: Server, b: Server, r: RoomId)
    requires a.games == b.games && a.history == b.history
    ensures SessionAt(a, r) == SessionAt(b, r)
  {
  }

  /** JOIN_ROOM by somebody who sits there already: told so again, and nothing but a number is used up. */
  lemma JoinAgain(server: Server, token: SessionToken, id: CommandId, r: RoomId, symbol: Symbol, now: int)
    requires Reachable(server) && Admitted(server, token, id, r, now) && SitsBy(server, token, r, symbol)
    requires server.logins[token].roomId == None || server.logins[token].roomId == Some(r)
    ensures var player, s := server.logins[token].playerId, SessionAt(server, r);
            var done := Serve(server, Request(token, id, JoinRoom(r)), now);
            && done.server.(cache := server.cache) ==
               (if r in server.games then server.(games := server.games[r := s.(seqNo := s.seqNo + 1)]) else server)
            && done.deliveries == [ToAsker(Reply(RoomJoined(s.seqNo + 1, r, player, symbol, Picture(server, r))))]
  {
    hide Reachable;
    hide Serve;
    hide LawfulSession;
    hide Drive;
    hide SnapshotOf;
    hide CacheSeen;
    ReachableFacts(server, r);
    AdmittedIsPerformed(server, token, id, JoinRoom(r), now);
    LookupsAre(server.rooms[r], symbol, server.logins[token].playerId);
    var ready := server.(cache := CacheSeen(server.cache, id, now));
    PictureIs(ready, r);
    if r in server.games {
      NumberingChangesNothing(ready, r);
    } else {
      NobodyDriven(ready, r, Allocating);
    }
  }

  lemma NobodyDriven(server: Server, r: RoomId, op: Op)
    requires r !in server.games
    ensures Drive(server, r, op) == server
  {
  }

  // ---------- leaving ----------

  /** The room without the player on this seat, who is not ready any more. */
  function Vacated(room: Room, symbol: Symbol, now: int): Room {
    WithSlot(room, symbol, None).(readySymbols := room.readySymbols - {symbol}, lastActivityAt := now)
  }

  /** The opponent is told of a forfeit if the last game ended by one, even by an earlier one. */
  function DepartureReason(game: Option<GameState>): LeaveReason {
    if game.Some? && game.value.status == Finished && game.value.result.Some?
       && game.value.result.value.reason == PlayerForfeited
    then ByForfeit else Voluntary
  }

  lemma DepartIs(
    server: Server, token: SessionToken, id: CommandId, player: PlayerId, r: RoomId, symbol: Symbol, now: int
  )
    requires token in server.logins && r in server.rooms && Sits(server.rooms[r], symbol, player)
    requires SlotsSound(server.rooms[r])
    ensures var room, n := server.rooms[r], if r in server.games then server.games[r].seqNo else 0;
            var other := SlotAt(room, Other(symbol));
            var done := Depart(server, token, id, player, r, room, symbol, now);
            && done.server.(cache := server.cache) ==
               server.(logins := server.logins[token := server.logins[token].(roomId := None)],
                       rooms := server.rooms[r := Vacated(room, symbol, now)],
                       games := if r in server.games then server.games[r := server.games[r].(seqNo := n + 2)]
                                else server.games)
            && done.deliveries ==
               [ToAsker(Reply(RoomLeft(n + 1)))] +
               if other.Some?
               then [ToConnectionsOf(other.value.playerId,
                                     PlayerLeft(n + 2, player, symbol, DepartureReason(GameIn(server, r))))]
               else []
  {
    hide Drive;
    LookupsAre(server.rooms[r], symbol, player);
    if r in server.games {
      NumberTwice(server, r);
      NumberingChangesNothing(server, r);
      var numbered := Drive(server, r, Allocating);
      NumberingChangesNothing(Answering(numbered, id, RoomLeft(numbered.games[r].seqNo), now).server, r);
    } else {
      NobodyDriven(server, r, Allocating);
      NobodyDriven(Answering(server, id, RoomLeft(1), now).server, r, Allocating);
    }
  }

  /**
   LEAVE_ROOM by a seated player with no game running: the seat is free and its player not ready,
   the other keeps both; numbers apart, the session stays as it is.
   */
  lemma LeaveFreesSeat(server: Server, token: SessionToken, id: CommandId, r: RoomId, symbol: Symbol, now: int)
    requires Reachable(server) && Admitted(server, token, id, r, now) && SitsBy(server, token, r, symbol)
    requires GameIn(server, r).Some? ==> GameIn(server, r).value.status != Active
    ensures var player, room := server.logins[token].playerId, server.rooms[r];
            var n := if r in server.games then server.games[r].seqNo else 0;
            var other := SlotAt(room, Other(symbol));
            var done := Serve(server, Request(token, id, LeaveRoom(r)), now);
            && done.server.(cache := server.cache) ==
               server.(logins := server.logins[token := server.logins[token].(roomId := None)],
                       rooms := server.rooms[r := Vacated(room, symbol, now)],
                       games := if r in server.games then server.games[r := server.games[r].(seqNo := n + 2)]
                                else server.games)
            && done.deliveries ==
               [ToAsker(Reply(RoomLeft(n + 1)))] +
               if other.Some?
               then [ToConnectionsOf(other.value.playerId,
                                     PlayerLeft(n + 2, player, symbol, DepartureReason(GameIn(server, r))))]
               else []
  {
    hide Reachable;
    hide Serve;
    hide Drive;
    hide Depart;
    hide LawfulSession;
    hide SlotAt;
    hide Vacated;
    hide CacheSeen;
    ReachableFacts(server, r);
    AdmittedIsPerformed(server, token, id, LeaveRoom(r), now);
    var ready := server.(cache := CacheSeen(server.cache, id, now));
    var player := server.logins[token].playerId;
    LookupsAre(server.rooms[r], symbol, player);
    NothingToForfeit(ready, r, player, now);
    DepartIs(ready, token, id, player, r, symbol, now);
  }

  lemma NothingToForfeit(server: Server, r: RoomId, player: PlayerId, now: int)
    requires r in server.games ==> !IsActive(server.games[r])
    ensures Drive(server, r, Forfeiting(player, now)) == server
  {
    if r in server.games {
      hide HandleForfeit;
      DriveForfeiting(server, r, player, now);
      NothingForfeited(server.games[r], server.history, player, now);
      assert server.games[r := server.games[r]] == server.games;
      assert server.wire + [] == server.wire;
    }
  }

  lemma NothingForfeited(s: Session, store: Store, player: PlayerId, now: int)
    requires !IsActive(s)
    ensures HandleForfeit(s, store, player, now) == Saving(s, store)
  {
  }

  /**
   During a game the game ends first, as a forfeit to the other player, with its record and its
   announcement; seat, readiness and login go as without one.
   */
  lemma LeaveForfeitsFirst(server: Server, token: SessionToken, id: CommandId, r: RoomId, symbol: Symbol, now: int)
    requires Reachable(server) && Admitted(server, token, id, r, now) && SitsBy(server, token, r, symbol)
    requires GameIn(server, r).Some? && GameIn(server, r).value.status == Active
    ensures var player, room, s := server.logins[token].playerId, server.rooms[r], server.games[r];
            var game := s.game.value;
            var other := SlotAt(room, Other(symbol));
            var result := GameResult(Forfeit, Some(Other(symbol)), None, PlayerForfeited, now);
            var done := Serve(server, Request(token, id, LeaveRoom(r)), now);
            var after := done.server;
            && r in after.games && other.Some?
            && after.games[r].game == Some(game.(status := Finished, result := Some(result), endedAt := Some(now)))
            && after.games[r].completed == [Chronicle(game, result)] + s.completed
            && after.games[r].sent == s.sent + [Finale(s.seqNo + 1, game, result, player)]
            && after.(cache := server.cache, history := server.history, wire := server.wire) ==
               server.(logins := server.logins[token := server.logins[token].(roomId := None)],
                       rooms := server.rooms[r := Vacated(room, symbol, now)],
                       games := server.games[r := after.games[r]])
            && done.deliveries ==
               [ToAsker(Reply(RoomLeft(s.seqNo + 2))),
                ToConnectionsOf(other.value.playerId, PlayerLeft(s.seqNo + 3, player, symbol, ByForfeit))]
  {
    hide Reachable;
    hide Serve;
    hide Drive;
    hide Depart;
    hide LawfulSession;
    hide HandleForfeit;
    hide Posted;
    hide Vacated;
    hide TimersMatch;
    hide GameSound;
    hide ProposalOpen;
    hide ReadyFits;
    hide Finale;
    hide Chronicle;
    hide CacheSeen;
    ReachableFacts(server, r);
    AdmittedIsPerformed(server, token, id, LeaveRoom(r), now);
    var ready := server.(cache := CacheSeen(server.cache, id, now));
    var player := server.logins[token].playerId;
    LookupsAre(server.rooms[r], symbol, player);
    DriveForfeiting(ready, r, player, now);
    ForfeitTells(server.games[r], server.history, player, now);
    var forfeited := Drive(ready, r, Forfeiting(player, now));
    DepartIs(forfeited, token, id, player, r, symbol, now);
    RunningIsUnrecorded(server, r);
    assert server.games[r := forfeited.games[r]][r := forfeited.games[r].(seqNo := forfeited.games[r].seqNo + 2)] ==
           server.games[r := forfeited.games[r].(seqNo := forfeited.games[r].seqNo + 2)];
  }

  // ---------- going and coming back ----------

  /** The room with the player on this seat marked, and nothing else changed. */
  function MarkedPresent(room: Room, symbol: Symbol, connected: bool, now: int): Room
    requires SlotAt(room, symbol).Some?
  {
    var slot := SlotAt(room, symbol).value;
    WithSlot(room, symbol, Some(slot.(connected := connected, lastSeenAt := now))).(lastActivityAt := now)
  }

  lemma MarkingIs(room: Room, symbol: Symbol, p: PlayerId, connected: bool, now: int)
    requires Sits(room, symbol, p) && SlotsSound(room)
    ensures WithConnected(room, p, connected, now) == MarkedPresent(room, symbol, connected, now)
    ensures SitsOnlyOn(MarkedPresent(room, symbol, connected, now), symbol, p)
    ensures SlotAt(MarkedPresent(room, symbol, connected, now), Other(symbol)) == SlotAt(room, Other(symbol))
  {
  }

  /** Exactly one window of this player is pending, under this id. */
  ghost predicate OneWindow(s: Session, p: PlayerId, timer: nat) {
    forall id :: id in s.timers && s.timers[id].ReconnectTimer? && s.timers[id].playerId == p <==> id == timer
  }

  ghost predicate NoWindow(s: Session, p: PlayerId) {
    forall id :: id in s.timers && s.timers[id].ReconnectTimer? ==> s.timers[id].playerId != p
  }

  /** The session when a window opens: exactly one of that player, and the other one told if connected. */
  ghost predicate Alerted(s: Session, t: Session, player: PlayerId, symbol: Symbol, other: Option<Slot>, now: int) {
    && t.game == s.game && t.completed == s.completed && t.rematch == s.rematch
    && OneWindow(t, player, s.nextTimer) && s.nextTimer !in s.timers
    && t.reconnectTimers == s.reconnectTimers[player := s.nextTimer]
    && t.sent == s.sent +
       if other.Some? && other.value.connected
       then [Entry(OpponentDisconnected(s.seqNo + 1, symbol, now + 300_000), ToPlayer, other.value.playerId)] else []
  }

  lemma GoneAlerts(s: Session, room: Room, symbol: Symbol, p: PlayerId, now: int)
    requires TimersMatch(s) && SitsOnlyOn(room, symbol, p)
    ensures Alerted(s, OpenWindow(s, room, p, now), p, symbol, SlotAt(room, Other(symbol)), now)
  {
    hide OpenWindow;
    GoneTells(s, room, symbol, p, now);
  }

  lemma DisconnectIs(server: Server, token: SessionToken, r: RoomId, symbol: Symbol, now: int)
    requires SitsBy(server, token, r, symbol) && SlotsSound(server.rooms[r])
    requires now - server.logins[token].createdAt <= 604_800_000 && server.logins[token].roomId == Some(r)
    requires now - server.rooms[r].lastActivityAt <= 86_400_000
    ensures var absent := MarkedPresent(server.rooms[r], symbol, false, now);
            var marked := server.(rooms := server.rooms[r := absent]);
            Disconnect(server, token, now) ==
            if r in server.games && server.games[r].game.Some? && server.games[r].game.value.status == Active
            then Drive(marked, r, Opening(absent, server.logins[token].playerId, now)) else marked
  {
    hide Drive;
    hide MarkedPresent;
    MarkingIs(server.rooms[r], symbol, server.logins[token].playerId, false, now);
  }

  /**
   The connection of a seated player closes: the slot stays taken, marked absent.  During a game one
   window of that player is then pending, a new one, and the other player is told if connected; at
   any other time, that is all.
   */
  lemma DisconnectOpensIff(server: Server, token: SessionToken, r: RoomId, symbol: Symbol, now: int)
    requires Reachable(server) && SitsBy(server, token, r, symbol)
    requires now - server.logins[token].createdAt <= 604_800_000 && server.logins[token].roomId == Some(r)
    requires now - server.rooms[r].lastActivityAt <= 86_400_000
    ensures var player, room := server.logins[token].playerId, server.rooms[r];
            var done := Serve(server, Disconnection(token), now);
            var after := done.server;
            var marked := server.(rooms := server.rooms[r := MarkedPresent(room, symbol, false, now)]);
            && done.deliveries == []
            && if GameIn(server, r).Some? && GameIn(server, r).value.status == Active then
                 && r in after.games
                 && after.(wire := server.wire) == marked.(games := server.games[r := after.games[r]])
                 && Alerted(server.games[r], after.games[r], player, symbol, SlotAt(room, Other(symbol)), now)
               else after == marked
  {
    hide Reachable;
    hide Disconnect;
    hide Drive;
    hide LawfulSession;
    hide OpenWindow;
    hide Alerted;
    hide MarkedPresent;
    hide Posted;
    hide TimersMatch;
    ReachableFacts(server, r);
    var player, room := server.logins[token].playerId, server.rooms[r];
    DisconnectIs(server, token, r, symbol, now);
    MarkingIs(room, symbol, player, false, now);
    var absent := MarkedPresent(room, symbol, false, now);
    var marked := server.(rooms := server.rooms[r := absent]);
    if r in server.games && IsActive(server.games[r]) {
      DriveWindows(marked, r, absent, player, now);
      GoneAlerts(server.games[r], absent, symbol, player, now);
    }
  }

  /** A connection of a login that names no room, or none that is there, changes nothing. */
  lemma DisconnectOfNobody(server: Server, token: SessionToken, now: int)
    requires token in server.logins && now - server.logins[token].createdAt <= 604_800_000
    requires server.logins[token].roomId.None? || server.logins[token].roomId.value !in server.rooms
    ensures Serve(server, Disconnection(token), now) == Handled(server, [])
  {
  }

  /** One of a login or of a room that has run out only drops that. */
  lemma DisconnectTooLate(server: Server, token: SessionToken, now: int)
    requires token in server.logins
    ensures var after, login := Serve(server, Disconnection(token), now).server, server.logins[token];
            if now - login.createdAt > 604_800_000 then after == server.(logins := server.logins - {token})
            else if login.roomId.Some? && login.roomId.value in server.rooms
                    && now - server.rooms[login.roomId.value].lastActivityAt > 86_400_000 then
              after == server.(rooms := server.rooms - {login.roomId.value})
            else after.logins == server.logins && after.rooms.Keys == server.rooms.Keys
  {
    hide Drive;
    DrivesKeepRooms();
  }

  /** The session when a player is back: no window of that player, the other one told if connected. */
  predicate Welcomed(s: Session, t: Session, player: PlayerId, symbol: Symbol, other: Option<Slot>) {
    && t.game == s.game && t.completed == s.completed && t.rematch == s.rematch
    && t.reconnectTimers == s.reconnectTimers - {player}
    && t.timers == (if player in s.reconnectTimers then s.timers - {s.reconnectTimers[player]} else s.timers)
    && if other.Some? && other.value.connected then
         && t.seqNo == s.seqNo + 2
         && t.sent == s.sent + [Entry(OpponentReconnected(s.seqNo + 1, symbol), ToPlayer, other.value.playerId)]
       else t.seqNo == s.seqNo + 1 && t.sent == s.sent
  }

  lemma BackIs(s: Session, room: Room, symbol: Symbol, p: PlayerId)
    requires SitsOnlyOn(room, symbol, p)
    ensures Welcomed(s, Allocate(NotifyReconnected(ClearWindow(s, p), room, p)), p, symbol, SlotAt(room, Other(symbol)))
  {
    hide Trim;
  }

  lemma ReturnedIs(server: Server, token: SessionToken, player: PlayerId, r: RoomId, symbol: Symbol, now: int)
    requires token in server.logins && r in server.rooms && r in server.games
    requires Sits(server.rooms[r], symbol, player) && SlotsSound(server.rooms[r])
    ensures var room := server.rooms[r];
            var back := Returned(server, token, player, r, now);
            && r in back.games
            && back.(wire := server.wire) ==
               server.(logins := server.logins[token := server.logins[token].(roomId := Some(r))],
                       rooms := server.rooms[r := MarkedPresent(room, symbol, true, now)],
                       games := server.games[r := back.games[r]])
            && Welcomed(server.games[r], back.games[r], player, symbol, SlotAt(room, Other(symbol)))
  {
    hide Drive;
    hide Posted;
    hide ClearWindow;
    hide NotifyReconnected;
    hide Welcomed;
    hide MarkedPresent;
    var room := MarkedPresent(server.rooms[r], symbol, true, now);
    MarkingIs(server.rooms[r], symbol, player, true, now);
    BackIs(server.games[r], room, symbol, player);
    var present := SetRoomTo(server, r, room).(logins := WithRoom(server.logins, token, Some(r)));
    DriveWindows(present, r, room, player, now);
    var cleared := Drive(present, r, Clearing(player));
    DriveWindows(cleared, r, room, player, now);
    var told := Drive(cleared, r, Op.Reconnecting(room, player));
    NumberingChangesNothing(told, r);
  }

  /** Coming back: marked present, in the login's room again, no window left, and the other player told. */
  lemma ReturnMarks(
    server: Server, token: SessionToken, id: CommandId, r: RoomId, symbol: Symbol, lastReceived: int, now: int
  )
    requires Reachable(server) && Admitted(server, token, id, r, now) && SitsBy(server, token, r, symbol)
    requires r in server.games
    ensures var player, room := server.logins[token].playerId, server.rooms[r];
            var done := Serve(server, Request(token, id, Rejoin(r, lastReceived)), now);
            var after := done.server;
            && r in after.games && r in after.rooms
            && after.(cache := server.cache, wire := server.wire) ==
               server.(logins := server.logins[token := server.logins[token].(roomId := Some(r))],
                       rooms := server.rooms[r := MarkedPresent(room, symbol, true, now)],
                       games := server.games[r := after.games[r]])
            && Welcomed(server.games[r], after.games[r], player, symbol, SlotAt(room, Other(symbol)))
            && NoWindow(after.games[r], player)
            && done.deliveries ==
               [ToAsker(Reply(ReconnectAck(after.games[r].seqNo, player, symbol, Picture(after, r))))] +
               if lastReceived < after.games[r].seqNo
               then [ToAsker(Reply(ToldFrom(after, r, lastReceived + 1, player)))] else []
  {
    hide Reachable;
    hide Serve;
    hide LawfulSession;
    hide Returned;
    hide Welcomed;
    hide SnapshotOf;
    hide SyncReply;
    hide CacheSeen;
    hide MarkedPresent;
    hide ToldFrom;
    hide Picture;
    hide GameSound;
    hide ProposalOpen;
    hide ReadyFits;
    ReachableFacts(server, r);
    var player := server.logins[token].playerId;
    AdmittedIsPerformed(server, token, id, Rejoin(r, lastReceived), now);
    var ready := server.(cache := CacheSeen(server.cache, id, now));
    LookupsAre(server.rooms[r], symbol, player);
    ReturnedIs(ready, token, player, r, symbol, now);
    var back := Returned(ready, token, player, r, now);
    PictureIs(back, r);
    SyncReplyIs(back, r, lastReceived + 1, player);
    var after := Serve(server, Request(token, id, Rejoin(r, lastReceived)), now).server;
    SameTold(back, after, r, lastReceived + 1, player);
    WelcomedHasNone(server.games[r], back.games[r], player, symbol, SlotAt(server.rooms[r], Other(symbol)));
  }

  lemma WelcomedHasNone(s: Session, t: Session, player: PlayerId, symbol: Symbol, other: Option<Slot>)
    requires TimersMatch(s) && Welcomed(s, t, player, symbol, other)
    ensures NoWindow(t, player)
  {
  }

  /** The same in a room that has had no session yet. */
  lemma ReturnToQuietRoom(
    server: Server, token: SessionToken, id: CommandId, r: RoomId, symbol: Symbol, lastReceived: int, now: int
  )
    requires Reachable(server) && Admitted(server, token, id, r, now) && SitsBy(server, token, r, symbol)
    requires r !in server.games
    ensures var player, room := server.logins[token].playerId, server.rooms[r];
            var done := Serve(server, Request(token, id, Rejoin(r, lastReceived)), now);
            var after := done.server;
            && r in after.rooms
            && after.(cache := server.cache) ==
               server.(logins := server.logins[token := server.logins[token].(roomId := Some(r))],
                       rooms := server.rooms[r := MarkedPresent(room, symbol, true, now)])
            && done.deliveries ==
               [ToAsker(Reply(ReconnectAck(1, player, symbol, Picture(after, r))))] +
               if lastReceived < 1 then [ToAsker(Reply(StateSyncSnapshot(1, Picture(after, r))))] else []
  {
    hide Reachable;
    hide Serve;
    hide Drive;
    hide SnapshotOf;
    hide CacheSeen;
    hide MarkedPresent;
    ReachableFacts(server, r);
    var player := server.logins[token].playerId;
    AdmittedIsPerformed(server, token, id, Rejoin(r, lastReceived), now);
    LookupsAre(server.rooms[r], symbol, player);
    MarkingIs(server.rooms[r], symbol, player, true, now);
    var room := MarkedPresent(server.rooms[r], symbol, true, now);
    var ready := server.(cache := CacheSeen(server.cache, id, now));
    var present := SetRoomTo(ready, r, room).(logins := WithRoom(ready.logins, token, Some(r)));
    NobodyDriven(present, r, Clearing(player));
    NobodyDriven(present, r, Op.Reconnecting(room, player));
    NobodyDriven(present, r, Allocating);
    PictureIs(present, r);
  }

  // ---------- windows and proposals that run out ----------

  /** Nobody has this login's room any more. */
  ghost predicate RoomDropped(before: Logins, after: Logins, player: PlayerId) {
    && after.Keys == before.Keys
    && forall t | t in before ::
         after[t] == if before[t].playerId == player then before[t].(roomId := None) else before[t]
  }

  lemma ElapseIs(server: Server, r: RoomId, timer: nat, now: int)
    requires r in server.games && timer in server.games[r].timers && server.games[r].timers[timer].ReconnectTimer?
    ensures var s := server.games[r];
            var player := s.timers[timer].playerId;
            var fired := FireReconnect(s, server.history, timer, now).session;
            var after := Elapse(server, r, timer, now);
            && r in after.games && after.games[r] == fired
            && after.(wire := server.wire, history := server.history, logins := server.logins) ==
               server.(games := server.games[r := fired],
                       rooms := if r !in server.rooms then server.rooms
                                else if now - server.rooms[r].lastActivityAt > 86_400_000 then server.rooms - {r}
                                else server.rooms[r := Unseat(server.rooms[r], player, now)])
            && RoomDropped(server.logins, after.logins, player)
  {
    hide Drive;
    hide FireReconnect;
    hide Posted;
    hide Unseat;
    var seen := server.(rooms := RoomsSeen(server.rooms, r, now));
    var room := if r in seen.rooms then seen.rooms[r] else NewRoom(0);
    DriveFiring(seen, r, room, timer, now);
  }

  lemma UnseatIs(room: Room, symbol: Symbol, p: PlayerId, now: int)
    requires SlotsSound(room)
    ensures Sits(room, symbol, p) ==> Unseat(room, p, now) == Vacated(room, symbol, now)
    ensures !IsSeated(room, p) ==> Unseat(room, p, now) == room.(lastActivityAt := now)
  {
  }

  /**
   A reconnect window runs out.  The seat of its player, if there still is one, is free, its player
   not ready and in no room any more, while the other keeps both; the window is forgotten, and the
   departure is announced.  A running game is over, abandoned.
   */
  lemma WindowFreesSeat(server: Server, r: RoomId, symbol: Symbol, timer: nat, now: int)
    requires Reachable(server) && r in server.games && r in server.rooms
    requires timer in server.games[r].timers && server.games[r].timers[timer].ReconnectTimer?
    requires now - server.rooms[r].lastActivityAt <= 86_400_000
    ensures var s, room, pending := server.games[r], server.rooms[r], server.games[r].timers[timer];
            var player := pending.playerId;
            var done := Serve(server, WindowElapses(r, timer), now);
            var after := done.server;
            && done.deliveries == [] && r in after.games && r in after.rooms
            && RoomDropped(server.logins, after.logins, player)
            && (Sits(room, symbol, player) ==> after.rooms[r] == Vacated(room, symbol, now))
            && (!IsSeated(room, player) ==> after.rooms[r] == room.(lastActivityAt := now))
            && after.(wire := server.wire, history := server.history, logins := server.logins) ==
               server.(games := server.games[r := after.games[r]], rooms := server.rooms[r := after.rooms[r]])
            && after.games[r].timers == s.timers - {timer}
            && after.games[r].reconnectTimers == s.reconnectTimers - {player}
            && NoWindow(after.games[r], player)
            && if s.game.Some? && s.game.value.status == Active then
                 var result := GameResult(Abandoned, Remaining(s.game.value, player), None, PlayerAbandoned, now);
                 && after.games[r].game ==
                    Some(s.game.value.(status := Finished, result := Some(result), endedAt := Some(now)))
                 && after.games[r].completed == [Chronicle(s.game.value, result)] + s.completed
                 && after.games[r].sent ==
                    s.sent + ([Finale(s.seqNo + 1, s.game.value, result, player)] + Farewell(s.seqNo + 2, pending))
               else
                 && after.games[r].game == s.game && after.games[r].completed == s.completed
                 && after.games[r].sent == s.sent + Farewell(s.seqNo + 1, pending)
  {
    hide Reachable;
    hide Elapse;
    hide LawfulSession;
    hide FireReconnect;
    hide Unseat;
    hide Vacated;
    hide Finale;
    hide Farewell;
    hide Chronicle;
    hide Remaining;
    hide RoomDropped;
    ReachableFacts(server, r);
    var s := server.games[r];
    ElapseIs(server, r, timer, now);
    UnseatIs(server.rooms[r], symbol, s.timers[timer].playerId, now);
    if IsActive(s) {
      WindowTells(s, server.history, timer, now);
      RunningIsUnrecorded(server, r);
    } else {
      IdleWindowTells(s, server.history, timer, now);
    }
  }

  /**
   A proposal runs out: it is gone with its timer, and whoever sits in the room is told; no game
   changes.  The timer has held on to the room as it was, should the store have dropped it.
   */
  lemma ProposalLapses(server: Server, r: RoomId, timer: nat, detached: Room, now: int)
    requires Reachable(server) && r in server.games
    requires timer in server.games[r].timers && server.games[r].timers[timer].RematchTimer?
    ensures var s, room := server.games[r], if r in server.rooms then server.rooms[r] else detached;
            var told := room.playerX.Some? || room.playerO.Some?;
            var done := Serve(server, ProposalElapses(r, timer, detached), now);
            var after := done.server;
            && done.deliveries == [] && r in after.games && s.rematch.Some?
            && after.(wire := server.wire) ==
               server.(games := server.games[r := after.games[r]],
                       rooms := if told && r in server.rooms && now - room.lastActivityAt > 86_400_000
                                then server.rooms - {r} else server.rooms)
            && after.games[r].rematch.None? && after.games[r].timers == s.timers - {timer}
            && after.games[r].game == s.game
            && |after.games[r].sent| == |s.sent| + (if told then 1 else 0)
            && (told ==>
                  && after.games[r].sent[..|s.sent|] == s.sent
                  && after.games[r].sent[|s.sent|].event == RematchExpired(s.seqNo + 1, s.timers[timer].gameId)
                  && after.games[r].sent[|s.sent|].target == Broadcast)
  {
    hide Reachable;
    hide LawfulSession;
    hide FireRematch;
    hide Drive;
    hide Posted;
    hide GameSound;
    hide ReadyFits;
    ReachableFacts(server, r);
    var s, room := server.games[r], if r in server.rooms then server.rooms[r] else detached;
    var seen := if PlayerCount(room) > 0 then server.(rooms := RoomsSeen(server.rooms, r, now)) else server;
    DriveFiring(seen, r, room, timer, now);
    ExpiringIs(s, room, timer);
  }

  /** A timer that is not pending does nothing. */
  lemma NoTimerNothing(server: Server, r: RoomId, timer: nat, detached: Room, now: int)
    requires r !in server.games || timer !in server.games[r].timers
    ensures Serve(server, WindowElapses(r, timer), now) == Handled(server, [])
    ensures Serve(server, ProposalElapses(r, timer, detached), now) == Handled(server, [])
  {
  }

  /** What a player is told who has nothing from this number on: a replay if there is one, or the room. */
  function ToldFrom(server: Server, r: RoomId, fromSeq: int, player: PlayerId): Event
    requires r in server.rooms
  {
    var number := if r in server.games then server.games[r].seqNo else 0;
    var replay := if r in server.games then ReplayEvents(server.games[r], fromSeq, player) else None;
    if replay.Some? && replay.value != [] then StateSyncReplay(number, fromSeq, replay.value)
    else StateSyncSnapshot(number, Picture(server, r))
  }

  lemma SyncReplyIs(server: Server, r: RoomId, fromSeq: int, player: PlayerId)
    requires r in server.rooms && r in server.games
    ensures SyncReply(server.games[r], SnapshotOf(server, r), fromSeq, player) == ToldFrom(server, r, fromSeq, player)
  {
    hide ReplayEvents;
    PictureIs(server, r);
  }

  /** SYNC_REQUEST by a seated player: one answer, a replay or the picture of the room, and nothing changes. */
  lemma SyncAnswers(
    server: Server, token: SessionToken, id: CommandId, r: RoomId, symbol: Symbol, fromSeq: int, now: int
  )
    requires Reachable(server) && Admitted(server, token, id, r, now) && SitsBy(server, token, r, symbol)
    ensures var player := server.logins[token].playerId;
            var done := Serve(server, Request(token, id, SyncRequest(r, fromSeq)), now);
            && done.deliveries == [ToAsker(Reply(ToldFrom(server, r, fromSeq, player)))]
            && done.server.(cache := server.cache) == server
  {
    hide Reachable;
    hide Serve;
    hide LawfulSession;
    hide ReplayEvents;
    hide Picture;
    hide SnapshotOf;
    hide CacheSeen;
    ReachableFacts(server, r);
    AdmittedIsPerformed(server, token, id, SyncRequest(r, fromSeq), now);
    LookupsAre(server.rooms[r], symbol, server.logins[token].playerId);
    PictureIs(server, r);
    var ready := server.(cache := CacheSeen(server.cache, id, now));
    PictureIs(ready, r);
    SameTold(ready, server, r, fromSeq, server.logins[token].playerId);
  }

  lemma SameTold(a: Server, b: Server, r: RoomId, fromSeq: int, player: PlayerId)
    requires r in a.rooms && r in b.rooms && a.rooms[r] == b.rooms[r] && a.games == b.games
    ensures Picture(a, r) == Picture(b, r) && ToldFrom(a, r, fromSeq, player) == ToldFrom(b, r, fromSeq, player)
  {
    hide ReplayEvents;
  }

  // ---------- rematches ----------

  lemma SeatedOnce(room: Room, symbol: Symbol, p: PlayerId)
    requires SlotsSound(room) && Sits(room, symbol, p)
    ensures SitsOnlyOn(room, symbol, p)
  {
  }

  /** A session that stays as it is leaves the server as it is. */
  lemma StayingIs(server: Server, r: RoomId)
    requires r in server.games
    ensures WithWorld(server, r, server.games[r], server.history) == server
  {
    assert server.games[r := server.games[r]] == server.games;
    assert server.wire + [] == server.wire;
  }

  /** Whether the room's session would accept that a rematch of this game is talked about. */
  predicate OverIn(server: Server, r: RoomId, target: GameId) {
    r in server.games && GameOver(server.games[r], target)
  }

  /** REQUEST_REMATCH with nothing proposed: a proposal of this symbol exactly if the named game is over. */
  lemma AskProposesIff(
    server: Server, token: SessionToken, id: CommandId, r: RoomId, symbol: Symbol, target: GameId, now: int
  )
    requires Reachable(server) && Admitted(server, token, id, r, now) && SitsBy(server, token, r, symbol)
    requires r in server.games && server.games[r].rematch.None?
    ensures var s := server.games[r];
            var done := Serve(server, Request(token, id, AskRematch(r, target)), now);
            var after := done.server;
            && done.deliveries == []
            && if OverIn(server, r, target) then
                 && r in after.games && after.games[r].game == s.game
                 && after.(cache := server.cache, wire := server.wire) ==
                    server.(games := server.games[r := after.games[r]])
                 && after.games[r].rematch == Some(Proposal(symbol, now, now + 60_000, {symbol}, s.nextTimer))
                 && after.games[r].timers == s.timers[s.nextTimer := RematchTimer(target)]
                 && after.games[r].sent ==
                    s.sent + [Entry(RematchRequested(s.seqNo + 1, target, symbol, now + 60_000), Broadcast,
                                    server.logins[token].playerId)]
               else after.(cache := server.cache) == server
  {
    hide Reachable;
    hide Serve;
    hide Drive;
    hide LawfulSession;
    hide RequestRematch;
    hide MayRequest;
    hide TimersMatch;
    hide GameSound;
    hide ReadyFits;
    hide Posted;
    hide CacheSeen;
    ReachableFacts(server, r);
    var player, room := server.logins[token].playerId, server.rooms[r];
    AdmittedIsPerformed(server, token, id, AskRematch(r, target), now);
    var ready := server.(cache := CacheSeen(server.cache, id, now));
    SeatedOnce(room, symbol, player);
    DriveRematch(ready, r, room, player, target, target, now);
    RequestingIs(server.games[r], room, symbol, player, target, now);
    if !OverIn(server, r, target) {
      StayingIs(ready, r);
    }
  }

  /**
   ACCEPT_REMATCH of the game that is over.  By the one who proposed it, it changes nothing.  By the
   other one, the proposal and its timer are gone and readiness starts over; with both seats taken
   the next game is running, with the other first turn.
   */
  lemma TakeStartsIff(
    server: Server, token: SessionToken, id: CommandId, r: RoomId, symbol: Symbol, target: GameId, newGame: GameId,
    now: int
  )
    requires Reachable(server) && Admitted(server, token, id, r, now) && SitsBy(server, token, r, symbol)
    requires OverIn(server, r, target) && server.games[r].rematch.Some?
    ensures var s, room := server.games[r], server.rooms[r];
            var done := Serve(server, Request(token, id, TakeRematch(r, target, newGame)), now);
            var after := done.server;
            && done.deliveries == []
            && if s.rematch.value.requestedBy == symbol then
                 after.(cache := server.cache, used := server.used) == server
               else
                 && r in after.games
                 && after.(cache := server.cache, used := server.used, wire := server.wire) ==
                    server.(games := server.games[r := after.games[r]],
                            rooms := server.rooms[r := room.(readySymbols := {})])
                 && after.games[r].rematch.None? && after.games[r].timers == s.timers - {s.rematch.value.timer}
                 && after.games[r].game ==
                    if IsFullyTaken(room) then Some(FirstGame(server, r, room, newGame, now)) else s.game
  {
    hide Reachable;
    hide Serve;
    hide Drive;
    hide LawfulSession;
    hide AcceptRematch;
    hide Posted;
    hide CacheSeen;
    ReachableFacts(server, r);
    var player, room := server.logins[token].playerId, server.rooms[r];
    AdmittedIsPerformed(server, token, id, TakeRematch(r, target, newGame), now);
    var ready := server.(cache := CacheSeen(server.cache, id, now));
    SeatedOnce(room, symbol, player);
    LookupsAre(room, symbol, player);
    DriveRematch(ready, r, room, player, target, newGame, now);
    AcceptingIs(server.games[r], room, symbol, player, target, newGame, now);
    StayingIs(ready, r);
    TwoAgree(server.games[r], room, symbol, player, target);
  }

  lemma TwoAgree(s: Session, room: Room, symbol: Symbol, p: PlayerId, target: GameId)
    requires ProposalOpen(s) && SitsOnlyOn(room, symbol, p) && GameOver(s, target) && s.rematch.Some?
    ensures Agreed(s, room, p, target) <==> s.rematch.value.requestedBy != symbol
  {
    assert {s.rematch.value.requestedBy} + {s.rematch.value.requestedBy} == {s.rematch.value.requestedBy};
  }

  /** ACCEPT_REMATCH of another game than the one that is over changes nothing. */
  lemma TakeInVain(
    server: Server, token: SessionToken, id: CommandId, r: RoomId, target: GameId, newGame: GameId, now: int
  )
    requires Reachable(server) && Admitted(server, token, id, r, now)
    requires r in server.games && server.games[r].rematch.Some?
    requires !OverIn(server, r, target) || !IsSeated(server.rooms[r], server.logins[token].playerId)
    ensures var done := Serve(server, Request(token, id, TakeRematch(r, target, newGame)), now);
            done.deliveries == [] && done.server.(cache := server.cache, used := server.used) == server
  {
    hide Reachable;
    hide Serve;
    hide Drive;
    hide AcceptRematch;
    hide Posted;
    hide CacheSeen;
    var player, room := server.logins[token].playerId, server.rooms[r];
    AdmittedIsPerformed(server, token, id, TakeRematch(r, target, newGame), now);
    var ready := server.(cache := CacheSeen(server.cache, id, now));
    DriveRematch(ready, r, room, player, target, newGame, now);
    AcceptingInVain(server.games[r], room, player, target, newGame, now);
    StayingIs(ready, r);
  }

  /** DECLINE_REMATCH, by either player, of whatever game: the proposal and its timer are gone, and both are told. */
  lemma RefuseDrops(
    server: Server, token: SessionToken, id: CommandId, r: RoomId, symbol: Symbol, target: GameId, now: int
  )
    requires Reachable(server) && Admitted(server, token, id, r, now) && SitsBy(server, token, r, symbol)
    requires r in server.games && server.games[r].rematch.Some?
    ensures var s := server.games[r];
            var done := Serve(server, Request(token, id, RefuseRematch(r, target)), now);
            var after := done.server;
            && done.deliveries == [] && r in after.games
            && after.(cache := server.cache, wire := server.wire) == server.(games := server.games[r := after.games[r]])
            && after.games[r].rematch.None? && after.games[r].timers == s.timers - {s.rematch.value.timer}
            && after.games[r].game == s.game && after.games[r].buffer == s.buffer
            && after.games[r].sent ==
               s.sent + [Entry(RematchDeclined(s.seqNo + 1, target, symbol), Broadcast, server.logins[token].playerId)]
  {
    hide Reachable;
    hide Serve;
    hide Drive;
    hide LawfulSession;
    hide DeclineRematch;
    hide Posted;
    hide CacheSeen;
    ReachableFacts(server, r);
    var player, room := server.logins[token].playerId, server.rooms[r];
    AdmittedIsPerformed(server, token, id, RefuseRematch(r, target), now);
    var ready := server.(cache := CacheSeen(server.cache, id, now));
    SeatedOnce(room, symbol, player);
    DriveRematch(ready, r, room, player, target, target, now);
    DecliningIs(server.games[r], room, symbol, player, target);
  }

  // ---------- refusals ----------

  /** Why a command is refused once login, id and room are found in order. */
  function RefusedBy(room: Room, session: Option<Session>, player: PlayerId, command: Command): Option<ErrorCode> {
    var seated, full := IsSeated(room, player), IsFullyTaken(room);
    match command
    case JoinRoom(_) => if !seated && full then Some(RoomFull) else None
    case LeaveRoom(_) => if seated then None else Some(NotInRoom)
    case PlayerReady(_, _) => if seated && full then None else Some(NotInRoom)
    case MakeMove(_, _, _) => if session.None? then Some(NoActiveGame) else None
    case AskRematch(_, _) =>
      if session.None? then Some(NoActiveGame)
      else if session.value.rematch.Some? then Some(RematchPending) else None
    case TakeRematch(_, _, _) =>
      if session.None? then Some(NoActiveGame)
      else if session.value.rematch.None? then Some(RematchNotRequested) else None
    case RefuseRematch(_, _) =>
      if session.None? || session.value.rematch.None? then Some(RematchNotRequested) else None
    case Rejoin(_, _) => if seated then None else Some(ReconnectInvalid)
    case SyncRequest(_, _) => if seated then None else Some(NotInRoom)
  }

  /** Whether the connection that asked is answered with an error. */
  predicate AnswersError(deliveries: seq<Delivery>) {
    exists i | 0 <= i < |deliveries| ::
      deliveries[i].ToAsker? && deliveries[i].stored.Reply? && deliveries[i].stored.event.Error?
  }

  lemma NoErrors(deliveries: seq<Delivery>)
    requires |deliveries| <= 2 && (|deliveries| >= 1 ==> IsAnswer(deliveries[0]))
    requires |deliveries| == 2 ==> IsAnswer(deliveries[1])
    ensures !AnswersError(deliveries)
  {
  }

  predicate IsAnswer(delivery: Delivery) {
    delivery.ToAsker? ==> delivery.stored.Reply? && !delivery.stored.event.Error?
  }

  lemma EntranceRefused(server: Server, token: SessionToken, id: CommandId, command: Command, now: int)
    requires token in server.logins && command.roomId in server.rooms && (command.JoinRoom? || command.LeaveRoom?)
    ensures RefusalHolds(server, token, id, command, now)
  {
    hide Drive;
    hide SnapshotOf;
    hide WasForfeited;
    hide AnswersError;
    var done := Perform(server, token, id, command, now);
    if |done.deliveries| <= 2 && done.deliveries != [] && IsAnswer(done.deliveries[0]) {
      NoErrors(done.deliveries);
    }
  }

  lemma ReadyRefused(server: Server, token: SessionToken, id: CommandId, command: Command, now: int)
    requires token in server.logins && command.roomId in server.rooms && command.PlayerReady?
    ensures RefusalHolds(server, token, id, command, now)
  {
    hide Drive;
    hide WithSession;
    hide AnswersError;
    HostingIs(server, command.roomId);
    var done := Perform(server, token, id, command, now);
    if |done.deliveries| <= 2 && done.deliveries != [] && IsAnswer(done.deliveries[0]) {
      NoErrors(done.deliveries);
    }
  }

  lemma SessionRefused(server: Server, token: SessionToken, id: CommandId, command: Command, now: int)
    requires token in server.logins && command.roomId in server.rooms && (command.IsRematch() || command.MakeMove?)
    ensures RefusalHolds(server, token, id, command, now)
  {
    hide Drive;
    hide HandleMove;
    hide MayRequest;
    hide MayAccept;
    hide Agreed;
  }

  lemma CatchUpRefused(server: Server, token: SessionToken, id: CommandId, command: Command, now: int)
    requires token in server.logins && command.roomId in server.rooms && (command.Rejoin? || command.SyncRequest?)
    ensures RefusalHolds(server, token, id, command, now)
  {
    hide Drive;
    hide SnapshotOf;
    hide ReplayEvents;
    hide AnswersError;
    var done := Perform(server, token, id, command, now);
    if |done.deliveries| <= 2 && done.deliveries != [] && IsAnswer(done.deliveries[0]) {
      NoErrors(done.deliveries);
    }
  }

  /** A refused command changes nothing and is answered with the error; one that is not is answered with none. */
  predicate RefusalHolds(server: Server, token: SessionToken, id: CommandId, command: Command, now: int)
    requires token in server.logins && command.roomId in server.rooms
  {
    var session := if command.roomId in server.games then Some(server.games[command.roomId]) else None;
    var refusal := RefusedBy(server.rooms[command.roomId], session, server.logins[token].playerId, command);
    var done := Perform(server, token, id, command, now);
    if refusal.Some? then done == Handled(server, [ToAsker(Reply(Error(refusal.value)))])
    else !AnswersError(done.deliveries)
  }

  lemma PerformRefuses(server: Server, token: SessionToken, id: CommandId, command: Command, now: int)
    requires token in server.logins && command.roomId in server.rooms
    ensures RefusalHolds(server, token, id, command, now)
  {
    hide RefusalHolds;
    match command
    case JoinRoom(_) => EntranceRefused(server, token, id, command, now);
    case LeaveRoom(_) => EntranceRefused(server, token, id, command, now);
    case PlayerReady(_, _) => ReadyRefused(server, token, id, command, now);
    case Rejoin(_, _) => CatchUpRefused(server, token, id, command, now);
    case SyncRequest(_, _) => CatchUpRefused(server, token, id, command, now);
    case _ => SessionRefused(server, token, id, command, now);
  }

  /**
   The whole table of refusals.  For a command that is new: the checks in their order, and the one
   error each of them gives, with nothing changed but what had run out; and if none of them applies,
   the asker gets no error.
   */
  lemma RefusalTable(server: Server, token: SessionToken, id: CommandId, command: Command, now: int)
    requires id in server.cache ==> now - server.cache[id].cachedAt > 300_000
    ensures var r := command.roomId;
            var done := Serve(server, Request(token, id, command), now);
            var after := done.server;
            var refusal :=
              if token !in server.logins || now - server.logins[token].createdAt > 604_800_000 then
                Some(NotAuthenticated)
              else if command.JoinRoom? && server.logins[token].roomId.Some?
                      && server.logins[token].roomId.value != r then
                Some(AlreadyInRoom)
              else if r !in server.rooms || now - server.rooms[r].lastActivityAt > 86_400_000 then Some(RoomNotFound)
              else
                RefusedBy(server.rooms[r], if r in server.games then Some(server.games[r]) else None,
                          server.logins[token].playerId, command);
            if refusal.Some? then
              && done.deliveries == [ToAsker(Reply(Error(refusal.value)))]
              && after == server.(logins := after.logins, cache := after.cache, rooms := after.rooms)
              && (after.cache == server.cache || after.cache == server.cache - {id})
              && (after.logins == server.logins
                  || (refusal == Some(NotAuthenticated) && after.logins == server.logins - {token}))
              && (after.rooms == server.rooms || (refusal == Some(RoomNotFound) && after.rooms == server.rooms - {r}))
            else !AnswersError(done.deliveries)
  {
    hide Perform;
    hide RefusedBy;
    hide AnswersError;
    var swept := server.(cache := CacheSeen(server.cache, id, now));
    if token in server.logins && command.roomId in server.rooms {
      PerformRefuses(swept, token, id, command, now);
      if Admitted(server, token, id, command.roomId, now)
         && !(command.JoinRoom? && ElsewhereThan(server.logins[token], command.roomId)) {
        AdmittedIsPerformed(server, token, id, command, now);
      }
    }
  }

  // ---------- logins, rooms, maintenance ----------

  /** AUTH without a token: a new login, in no room. */
  lemma NewcomerIsLoggedIn(
    server: Server, id: CommandId, newToken: SessionToken, newPlayer: PlayerId, now: int
  )
    requires id in server.cache ==> now - server.cache[id].cachedAt > 300_000
    ensures var done := Serve(server, Authentication(id, None, newToken, newPlayer), now);
            var answer := AuthAck(newToken, newPlayer, None);
            && done.deliveries == [ToAsker(Reply(answer))]
            && done.server.(cache := server.cache) ==
               server.(logins := server.logins[newToken := Login(newPlayer, now, now, None)])
            && id in done.server.cache && done.server.cache[id] == Cached(Reply(answer), now)
  {
  }

  /** AUTH with a token that no living login has: an error, which is not remembered. */
  lemma StrangerIsRefused(
    server: Server, id: CommandId, token: SessionToken, newToken: SessionToken, newPlayer: PlayerId, now: int
  )
    requires id in server.cache ==> now - server.cache[id].cachedAt > 300_000
    requires token in server.logins ==> now - server.logins[token].createdAt > 604_800_000
    ensures var done := Serve(server, Authentication(id, Some(token), newToken, newPlayer), now);
            && done.deliveries == [ToAsker(Reply(Error(AuthFailed)))]
            && id !in done.server.cache && token !in done.server.logins
            && done.server.(cache := server.cache, logins := server.logins) == server
            && done.server.logins == server.logins - {token}
  {
  }

  /** What AUTH tells a player who sits in a room. */
  function Standing(server: Server, r: RoomId, symbol: Symbol): ExistingRoom {
    ExistingRoom(r, symbol, if GameIn(server, r).Some? then GameIn(server, r).value.status else Waiting)
  }

  /** AUTH with the token of a login: the room it is in, with symbol and status, if the player still sits there. */
  lemma KnownIsGreeted(
    server: Server, id: CommandId, token: SessionToken, newToken: SessionToken, newPlayer: PlayerId, r: RoomId,
    symbol: Symbol, now: int
  )
    requires Reachable(server) && SitsBy(server, token, r, symbol) && server.logins[token].roomId == Some(r)
    requires id in server.cache ==> now - server.cache[id].cachedAt > 300_000
    requires now - server.logins[token].createdAt <= 604_800_000
    requires now - server.rooms[r].lastActivityAt <= 86_400_000
    ensures var done := Serve(server, Authentication(id, Some(token), newToken, newPlayer), now);
            var login := server.logins[token];
            var answer := AuthAck(token, login.playerId, Some(Standing(server, r, symbol)));
            && done.deliveries == [ToAsker(Reply(answer))]
            && done.server.(cache := server.cache) ==
               server.(logins := server.logins[token := login.(lastSeenAt := now)])
            && id in done.server.cache && done.server.cache[id] == Cached(Reply(answer), now)
  {
    hide Reachable;
    hide LawfulSession;
    ReachableFacts(server, r);
    LookupsAre(server.rooms[r], symbol, server.logins[token].playerId);
  }

  /** The player of this login sits in no room that is there. */
  predicate Homeless(server: Server, token: SessionToken, now: int)
    requires token in server.logins
  {
    var login := server.logins[token];
    login.roomId.Some? ==>
      var r := login.roomId.value;
      || r !in server.rooms || now - server.rooms[r].lastActivityAt > 86_400_000
      || !IsSeated(server.rooms[r], login.playerId)
  }

  lemma GreetingHomeless(server: Server, id: CommandId, token: SessionToken, now: int)
    requires token in server.logins && Homeless(server, token, now)
    ensures var done := Greet(server, id, token, now);
            var login := server.logins[token];
            var answer := Reply(AuthAck(token, login.playerId, None));
            && done.deliveries == [ToAsker(answer)]
            && done.server.(rooms := server.rooms) ==
               server.(logins := server.logins[token := login.(roomId := None)],
                       cache := server.cache[id := Cached(answer, now)])
  {
    hide SymbolOf;
    hide IsSeated;
    var login := server.logins[token];
    if login.roomId.None? {
      assert server.logins[token := login.(roomId := None)] == server.logins;
    } else if login.roomId.value in server.rooms && !IsSeated(server.rooms[login.roomId.value], login.playerId) {
      NoLookups(server.rooms[login.roomId.value], login.playerId);
    }
  }

  /** A room that is gone, or where the player does not sit any more, is forgotten. */
  lemma HomelessIsGreeted(
    server: Server, id: CommandId, token: SessionToken, newToken: SessionToken, newPlayer: PlayerId, now: int
  )
    requires id in server.cache ==> now - server.cache[id].cachedAt > 300_000
    requires token in server.logins && now - server.logins[token].createdAt <= 604_800_000
    requires Homeless(server, token, now)
    ensures var done := Serve(server, Authentication(id, Some(token), newToken, newPlayer), now);
            var login := server.logins[token];
            var answer := AuthAck(token, login.playerId, None);
            && done.deliveries == [ToAsker(Reply(answer))]
            && done.server.(cache := server.cache, rooms := server.rooms) ==
               server.(logins := server.logins[token := login.(lastSeenAt := now, roomId := None)])
            && id in done.server.cache && done.server.cache[id] == Cached(Reply(answer), now)
  {
    hide Greet;
    var touched := server.logins[token := server.logins[token].(lastSeenAt := now)];
    GreetingHomeless(server.(cache := CacheSeen(server.cache, id, now), logins := touched), id, token, now);
  }

  /** PLAYER_READY by a player who is ready already is acknowledged with the readiness as it is. */
  lemma ReadyAgain(
    server: Server, token: SessionToken, id: CommandId, r: RoomId, symbol: Symbol, newGame: GameId, now: int
  )
    requires Reachable(server) && Admitted(server, token, id, r, now) && SitsBy(server, token, r, symbol)
    requires IsFullyTaken(server.rooms[r]) && symbol in server.rooms[r].readySymbols
    ensures var room, s := server.rooms[r], SessionAt(server, r);
            var done := Serve(server, Request(token, id, PlayerReady(r, newGame)), now);
            && room.readySymbols == {symbol}
            && done.deliveries == [ToAsker(Reply(PlayerReadyAck(s.seqNo, {symbol})))]
            && done.server.(cache := server.cache) == server.(games := server.games[r := s])
  {
    hide Reachable;
    hide Prepare;
    hide LawfulSession;
    hide Serve;
    hide CacheSeen;
    hide WithSession;
    ReachableFacts(server, r);
    AdmittedIsPerformed(server, token, id, PlayerReady(r, newGame), now);
    var ready := server.(cache := CacheSeen(server.cache, id, now));
    LookupsAre(server.rooms[r], symbol, server.logins[token].playerId);
    HostingIs(ready, r);
    OnlyOneReady(server.rooms[r], symbol);
  }

  lemma OnlyOneReady(room: Room, symbol: Symbol)
    requires ReadyFits(room) && symbol in room.readySymbols
    ensures room.readySymbols == {symbol}
  {
    forall other: Symbol | other in room.readySymbols ensures other == symbol {
      assert other == X || other == O;
    }
  }

  /** A new room is empty. */
  lemma CreatedRoomIsEmpty(server: Server, r: RoomId, now: int)
    ensures Serve(server, RoomCreation(r), now) ==
            Handled(server.(rooms := server.rooms[r := Room(None, None, {}, now, now)]), [])
  {
  }

  /** Maintenance drops what has run out, and nothing else. */
  lemma MaintenanceDrops(server: Server, now: int)
    ensures var done := Serve(server, Maintenance, now);
            var after := done.server;
            && done.deliveries == []
            && after == server.(logins := after.logins, cache := after.cache, rooms := after.rooms)
            && (forall t :: t in after.logins <==>
                  t in server.logins && now - server.logins[t].createdAt <= 604_800_000)
            && (forall t | t in after.logins :: after.logins[t] == server.logins[t])
            && (forall id :: id in after.cache <==> id in server.cache && now - server.cache[id].cachedAt <= 300_000)
            && (forall id | id in after.cache :: after.cache[id] == server.cache[id])
            && (forall r :: r in after.rooms <==>
                  r in server.rooms && now - server.rooms[r].lastActivityAt <= 86_400_000)
            && (forall r | r in after.rooms :: after.rooms[r] == server.rooms[r])
  {
  }
}
