/**
 A move on a reachable server, from the gate in the client to what each player is sent: which moves
 are acknowledged, what they do, who hears of them, and when the client lets its player move.
 */
module Moves {
  import opened Protocol
  import opened Engine
  import opened EngineLaws
  import opened GameStore
  import opened WsClient
  import opened OptimisticEngine
  import opened Rooms
  import opened SessionModel
  import opened SessionRuns
  import opened SessionLaws
  import opened SessionStores
  import opened Convergence
  import opened LiveDelivery
  import opened Transport
  import opened Handlers
  import opened ServerLaws
  import opened Seats
  import opened ReachableServers
  import opened Driving
  import opened Messages
  import opened Commands

  /** The game that is running in the room. */
  predicate Runs(server: Server, r: RoomId, g: GameState) {
    r in server.games && server.games[r].game == Some(g) && g.status == Active
  }

  predicate EmptyCell(g: GameState, at: RawPosition) {
    0 <= at.row <= 2 && 0 <= at.col <= 2 && g.board[at.row * 3 + at.col] == Empty
  }

  /** The one on the seat is the one the engine knows by that symbol. */
  lemma SeatIsRole(room: Room, g: GameState, symbol: Symbol, p: PlayerId)
    requires SeatsPlayersOf(room, g) && Sits(room, symbol, p)
    ensures ResolveSymbol(g, p) == Some(symbol)
    ensures Sits(room, Other(symbol), if symbol == X then g.playerO else g.playerX)
  {
  }

  /** What the engine makes of a seated player's move: accepted or refused, and why. */
  lemma VerdictIs(g: GameState, symbol: Symbol, command: MoveCommand)
    requires g.status == Active && ResolveSymbol(g, command.playerId) == Some(symbol)
    ensures var at := RawPosition(command.row, command.col);
            var verdict := ApplyMove(g, command);
            if symbol == g.currentTurn && EmptyCell(g, at) then
              && verdict.Accepted?
              && verdict.newState.board == g.board[at.row * 3 + at.col := Mark(symbol)]
              && verdict.newState.moveHistory ==
                 g.moveHistory + [MoveRecord(|g.moveHistory| + 1, symbol, Pos(at.row, at.col), command.timestamp)]
            else
              && verdict.Rejected?
              && verdict.reason == if symbol != g.currentTurn then NotYourTurn
                                   else if 0 <= at.row <= 2 && 0 <= at.col <= 2 then CellOccupied else OutOfBounds
  {
    hide PlaceMark;
    MoveShape(g, command);
    if ApplyMove(g, command).Accepted? {
      PlaceShape(g, g.currentTurn, Pos(command.row, command.col), command.timestamp);
    }
  }

  lemma MoveDrives(
    server: Server, token: SessionToken, id: CommandId, r: RoomId, target: GameId, at: RawPosition, now: int
  )
    requires Admitted(server, token, id, r, now) && r in server.games
    ensures var s := server.games[r];
            var moved := HandleMove(s, server.history, server.logins[token].playerId, target, at, id, now);
            var done := Serve(server, Request(token, id, MakeMove(r, target, at)), now);
            var after := done.server;
            && done.deliveries == [] && r in after.games && after.games[r] == moved.session
            && after.(cache := server.cache) ==
               server.(games := server.games[r := moved.session], history := moved.store,
                       wire := Posted(server, r, moved.session))
            && (if moved.response.Some? then
                  id in after.cache && after.cache[id] == Cached(Reply(moved.response.value), now)
                else id !in after.cache)
  {
    hide Serve;
    hide HandleMove;
    hide Posts;
    hide NewlySent;
    hide Drive;
    AdmittedIsPerformed(server, token, id, MakeMove(r, target, at), now);
    var ready := server.(cache := CacheSeen(server.cache, id, now));
    DriveMoving(ready, r, server.logins[token].playerId, target, at, id, now);
  }

  /** The acknowledgement for the mover and the broadcast for the others. */
  function AckFor(s: Session, g: GameState, at: RawPosition, id: CommandId, board: Board, over: bool): Event {
    MoveAck(s.seqNo + 1, g.gameId, at, g.currentTurn, |g.moveHistory| + 1, board,
            if over then None else Some(Other(g.currentTurn)), id)
  }

  function CastFor(s: Session, g: GameState, at: RawPosition, mover: PlayerId, board: Board, over: bool): Event {
    MoveBroadcast(s.seqNo + 2, g.gameId, at, g.currentTurn, mover, |g.moveHistory| + 1, board,
                  if over then None else Some(Other(g.currentTurn)))
  }

  /**
   MAKE_MOVE by a seated player whose turn it is, on an empty cell of the running game: the cell is
   marked, the move recorded and acknowledged, and the others told; and if that ends the game, all
   are told the result.
   */
  lemma MoveIsPlayed(
    server: Server, token: SessionToken, id: CommandId, r: RoomId, g: GameState, at: RawPosition, now: int
  )
    requires Reachable(server) && Admitted(server, token, id, r, now) && Runs(server, r, g)
    requires SitsBy(server, token, r, g.currentTurn) && EmptyCell(g, at)
    ensures var s, player, i := server.games[r], server.logins[token].playerId, at.row * 3 + at.col;
            var done := Serve(server, Request(token, id, MakeMove(r, g.gameId, at)), now);
            var after := done.server;
            && r in after.games && after.games[r].game.Some? && done.deliveries == []
            && var next := after.games[r].game.value;
               var over := next.status == Finished;
               var ack, cast := AckFor(s, g, at, id, next.board, over), CastFor(s, g, at, player, next.board, over);
               && next.board == g.board[i := Mark(g.currentTurn)]
               && next.moveHistory ==
                  g.moveHistory + [MoveRecord(|g.moveHistory| + 1, g.currentTurn, Pos(at.row, at.col), now)]
               && id in after.cache && after.cache[id] == Cached(Reply(ack), now)
               && (over ==> next.result.Some?)
               && after.games[r].sent ==
                  s.sent + ([Entry(ack, ToPlayer, player), Entry(cast, ToOthers, player)] +
                            if over then [Finale(s.seqNo + 3, next, next.result.value, player)] else [])
  {
    hide Reachable;
    hide Serve;
    hide HandleMove;
    hide ApplyMove;
    hide LawfulSession;
    hide Posted;
    hide Finale;
    hide Chronicled;
    hide GameSound;
    ReachableFacts(server, r);
    var s, player := server.games[r], server.logins[token].playerId;
    SeatIsRole(server.rooms[r], g, g.currentTurn, player);
    VerdictIs(g, g.currentTurn, MoveCommand(player, at.row, at.col, id, now));
    MoveDrives(server, token, id, r, g.gameId, at, now);
    if ApplyMove(g, MoveCommand(player, at.row, at.col, id, now)).newState.status == Finished {
      LastMoveTells(s, server.history, player, g.gameId, at, id, now);
    } else {
      MoveTells(s, server.history, player, g.gameId, at, id, now);
    }
  }

  /** Any other move of a seated player in the running game is refused, to that player alone, and changes no game. */
  lemma MoveIsRefused(
    server: Server, token: SessionToken, id: CommandId, r: RoomId, symbol: Symbol, g: GameState, at: RawPosition,
    now: int
  )
    requires Reachable(server) && Admitted(server, token, id, r, now) && Runs(server, r, g)
    requires SitsBy(server, token, r, symbol) && (symbol != g.currentTurn || !EmptyCell(g, at))
    ensures var s, player := server.games[r], server.logins[token].playerId;
            var done := Serve(server, Request(token, id, MakeMove(r, g.gameId, at)), now);
            var after := done.server;
            var reason := if symbol != g.currentTurn then NotYourTurn
                          else if 0 <= at.row <= 2 && 0 <= at.col <= 2 then CellOccupied else OutOfBounds;
            var refusal := MoveRejected(s.seqNo + 1, g.gameId, at, reason, g.board, g.currentTurn, id);
            && r in after.games && after.games[r].game == s.game && after.history == server.history
            && done.deliveries == []
            && id in after.cache && after.cache[id] == Cached(Reply(refusal), now)
            && after.games[r].sent == s.sent + [Entry(refusal, ToPlayer, player)]
  {
    hide Reachable;
    hide Serve;
    hide HandleMove;
    hide ApplyMove;
    hide LawfulSession;
    hide Posted;
    ReachableFacts(server, r);
    var s, player := server.games[r], server.logins[token].playerId;
    SeatIsRole(server.rooms[r], g, symbol, player);
    VerdictIs(g, symbol, MoveCommand(player, at.row, at.col, id, now));
    MoveDrives(server, token, id, r, g.gameId, at, now);
    RefusalTells(s, server.history, player, g.gameId, at, id, now);
  }

  /** A move that names no running game is answered with an error, not remembered, and changes no game. */
  lemma MoveMisses(
    server: Server, token: SessionToken, id: CommandId, r: RoomId, target: GameId, at: RawPosition, now: int
  )
    requires Admitted(server, token, id, r, now) && r in server.games
    requires var game := server.games[r].game;
             game.None? || game.value.gameId != target || game.value.status != Active
    ensures var s := server.games[r];
            var done := Serve(server, Request(token, id, MakeMove(r, target, at)), now);
            var after := done.server;
            var code := if s.game.Some? && s.game.value.gameId != target then WrongGameId else NoActiveGame;
            && done.deliveries == [] && id !in after.cache && r in after.games
            && after.games[r] ==
               s.(sent := s.sent + [Entry(Error(code), ToPlayer, server.logins[token].playerId)])
            && after.history == server.history
  {
    hide Serve;
    hide HandleMove;
    hide Posted;
    MoveDrives(server, token, id, r, target, at, now);
    MissTells(server.games[r], server.history, server.logins[token].playerId, target, at, id, now);
  }

  // ---------- who hears of it ----------

  /** What reaches a player of an acknowledgement, a broadcast, and maybe a result. */
  lemma HeardOfMove(mover: PlayerId, p: PlayerId, ack: Event, cast: Event, rest: seq<Entry>)
    requires |rest| <= 1 && (rest != [] ==> rest[0].target == Broadcast)
    ensures Heard([Entry(ack, ToPlayer, mover), Entry(cast, ToOthers, mover)] + rest, p) ==
            [if p == mover then ack else cast] + if rest == [] then [] else [rest[0].event]
  {
    hide Heard;
    var first, second := Entry(ack, ToPlayer, mover), Entry(cast, ToOthers, mover);
    HeardAppend([first, second], rest, p);
    assert [first, second] == [first] + [second];
    HeardAppend([first], [second], p);
    HeardOne(first, p);
    HeardOne(second, p);
    if rest == [] {
      assert [first, second] + rest == [first, second];
    } else {
      assert rest == [rest[0]];
      HeardOne(rest[0], p);
    }
  }

  /**
   On the wire, of an accepted move: a connected mover is sent the acknowledgement and no broadcast,
   a connected opponent the broadcast and no acknowledgement, and each the result if the game is over.
   */
  lemma MoveIsHeard(
    server: Server, token: SessionToken, id: CommandId, r: RoomId, g: GameState, at: RawPosition, now: int,
    seat: Symbol, p: PlayerId
  )
    requires Reachable(server) && Admitted(server, token, id, r, now) && Runs(server, r, g)
    requires SitsBy(server, token, r, g.currentTurn) && EmptyCell(g, at)
    requires Sits(server.rooms[r], seat, p) && SlotAt(server.rooms[r], seat).value.connected
    ensures var s, mover := server.games[r], server.logins[token].playerId;
            var after := Serve(server, Request(token, id, MakeMove(r, g.gameId, at)), now).server;
            && r in after.games && after.games[r].game.Some?
            && var next := after.games[r].game.value;
               var over := next.status == Finished;
               && (over ==> next.result.Some?)
               && Carried(after.wire, r, p) ==
                  Carried(server.wire, r, p) +
                  ([if seat == g.currentTurn then AckFor(s, g, at, id, next.board, over)
                    else CastFor(s, g, at, mover, next.board, over)] +
                   if over then [Finale(s.seqNo + 3, next, next.result.value, mover).event] else [])
  {
    hide Reachable;
    hide Serve;
    hide HandleMove;
    hide LawfulSession;
    hide Finale;
    hide AckFor;
    hide CastFor;
    hide Heard;
    hide Carried;
    hide Posts;
    hide GameSound;
    hide TimersMatch;
    ReachableFacts(server, r);
    var s, mover := server.games[r], server.logins[token].playerId;
    MoveIsPlayed(server, token, id, r, g, at, now);
    MoveDrives(server, token, id, r, g.gameId, at, now);
    var after := Serve(server, Request(token, id, MakeMove(r, g.gameId, at)), now).server;
    var next := after.games[r].game.value;
    var over := next.status == Finished;
    var ack, cast := AckFor(s, g, at, id, next.board, over), CastFor(s, g, at, mover, next.board, over);
    var rest := if over then [Finale(s.seqNo + 3, next, next.result.value, mover)] else [];
    var said := [Entry(ack, ToPlayer, mover), Entry(cast, ToOthers, mover)] + rest;
    FinaleIsForAll(s.seqNo + 3, next, mover);
    SaidIsNew(s, after.games[r], said);
    assert after.wire == server.wire + Posts(r, Some(server.rooms[r]), said);
    CarriedAppend(server.wire, Posts(r, Some(server.rooms[r]), said), r, p);
    PresentHearsAll(r, server.rooms[r], said, p);
    HeardOfMove(mover, p, ack, cast, rest);
  }

  lemma FinaleIsForAll(number: int, g: GameState, p: PlayerId)
    ensures g.result.Some? ==> Finale(number, g, g.result.value, p).target == Broadcast
  {
  }

  lemma SaidIsNew(s: Session, t: Session, said: seq<Entry>)
    requires t.sent == s.sent + said
    ensures NewlySent(s, t) == said
  {
  }

  // ---------- the client's gate ----------

  /** The server acknowledges this player's move on a cell of the room's game. */
  predicate Acknowledges(server: Server, token: SessionToken, id: CommandId, r: RoomId, at: RawPosition, now: int) {
    && GameIn(server, r).Some?
    && var command := MakeMove(r, GameIn(server, r).value.gameId, at);
       var after := Serve(server, Request(token, id, command), now).server;
       id in after.cache && after.cache[id].result.Reply? && after.cache[id].result.event.MoveAck?
  }

  /** Exactly the moves of the player on turn on empty cells of a running game are acknowledged. */
  lemma AcknowledgedIff(
    server: Server, token: SessionToken, id: CommandId, r: RoomId, symbol: Symbol, at: RawPosition, now: int
  )
    requires Reachable(server) && Admitted(server, token, id, r, now) && SitsBy(server, token, r, symbol)
    ensures Acknowledges(server, token, id, r, at, now) <==>
            && GameIn(server, r).Some? && GameIn(server, r).value.status == Active
            && GameIn(server, r).value.currentTurn == symbol && EmptyCell(GameIn(server, r).value, at)
  {
    hide Reachable;
    hide Serve;
    hide SitsBy;
    hide CastFor;
    hide Finale;
    if GameIn(server, r).Some? {
      var g := GameIn(server, r).value;
      if g.status != Active {
        MoveMisses(server, token, id, r, g.gameId, at, now);
      } else if symbol == g.currentTurn && EmptyCell(g, at) {
        MoveIsPlayed(server, token, id, r, g, at, now);
      } else {
        MoveIsRefused(server, token, id, r, symbol, g, at, now);
      }
    }
  }

  /** A running game has a cell left. */
  lemma RunningHasRoom(g: GameState) returns (at: RawPosition)
    requires WellPlayed(g) && g.status == Active
    ensures EmptyCell(g, at)
  {
    hide NoLines;
    hide Alternates;
    hide Counted;
    hide BoardOf;
    var i :| 0 <= i < 9 && g.board[i] == Empty;
    at := RawPosition(i / 3, i % 3);
  }

  lemma RunningIsSound(server: Server, r: RoomId)
    requires Reachable(server) && GameIn(server, r).Some?
    ensures WellPlayed(GameIn(server, r).value)
  {
    hide Reachable;
    hide LawfulSession;
    hide WellPlayed;
    ReachableFacts(server, r);
  }

  /**
   A client that shows the session's state lets its player move if and only if it is signed in,
   nothing is in flight, the opponent is not shown as gone, and the server would acknowledge some
   move of that player.  Of the moves it then lets through exactly those on cells it shows as empty
   are acknowledged.
   */
  lemma CanMoveIff(
    server: Server, token: SessionToken, id: CommandId, r: RoomId, symbol: Symbol, now: int, client: ClientState,
    move: RawPosition
  )
    requires Reachable(server) && Admitted(server, token, id, r, now) && SitsBy(server, token, r, symbol)
    requires client.confirmed == if r in server.games then SessionView(server.games[r]) else NO_GAME
    requires client.mySymbol == Some(symbol)
    ensures CanMove(client) <==>
            && client.wsState == Authenticated && client.pendingMove.None?
            && !client.opponentConnection.Disconnected?
            && exists at :: Acknowledges(server, token, id, r, at, now)
    ensures CanMove(client) ==>
              (Acknowledges(server, token, id, r, move, now) <==>
               0 <= move.row <= 2 && 0 <= move.col <= 2 && client.confirmed.board[move.row * 3 + move.col] == Empty)
  {
    hide Reachable;
    hide Acknowledges;
    hide LawfulSession;
    hide Admitted;
    hide SitsBy;
    hide TimersMatch;
    hide WellPlayed;
    hide GameSound;
    forall at
      ensures Acknowledges(server, token, id, r, at, now) <==>
              && GameIn(server, r).Some? && GameIn(server, r).value.status == Active
              && GameIn(server, r).value.currentTurn == symbol && EmptyCell(GameIn(server, r).value, at)
    {
      AcknowledgedIff(server, token, id, r, symbol, at, now);
    }
    if CanMove(client) {
      RunningIsSound(server, r);
      var at := RunningHasRoom(GameIn(server, r).value);
      assert Acknowledges(server, token, id, r, at, now);
    }
  }

  lemma AckShows(w: ClientWorld, ack: Event)
    requires ack.MoveAck?
    ensures var v := Frame(w, ack).store;
            DisplayBoard(v) == ack.board && v.confirmed.board == ack.board && v.pendingMove.None?
  {
    var tracked := Track(w, ack);
    var mySymbol := tracked.store.mySymbol.GetOr(X);
    var action := MoveAcked(ack.board, ack.nextTurn);
    assert Handle(tracked, ack, mySymbol) == Do(tracked, action);
    assert Dispatch(tracked, ack, mySymbol) == Do(Do(tracked, action), SeqAdvanced(ack.sessionSeq));
  }

  /**
   A move that such a client lets through on a cell it shows as empty is acknowledged, and it is on
   display all along: at once, by the local check; and still, once the acknowledgement is in, which
   then settles it.
   */
  lemma ShownMoveStays(
    server: Server, token: SessionToken, id: CommandId, r: RoomId, symbol: Symbol, now: int, client: ClientWorld,
    at: RawPosition
  )
    requires Reachable(server) && Admitted(server, token, id, r, now) && SitsBy(server, token, r, symbol)
    requires r in server.games && client.store.confirmed == SessionView(server.games[r])
    requires client.store.mySymbol == Some(symbol) && CanMove(client.store)
    requires 0 <= at.row <= 2 && 0 <= at.col <= 2 && client.store.confirmed.board[at.row * 3 + at.col] == Empty
    ensures Acknowledges(server, token, id, r, at, now)
    ensures var command := MakeMove(r, GameIn(server, r).value.gameId, at);
            var answer := Serve(server, Request(token, id, command), now).server.cache[id].result.event;
            var board := client.store.confirmed.board[at.row * 3 + at.col := Mark(symbol)];
            var shown := Do(client, MoveOptimistic(id, at.row, at.col, board));
            var settled := Frame(shown, answer).store;
            && PrevalidateOn(client.store.confirmed, symbol, at.row, at.col) == Valid(board)
            && DisplayBoard(shown.store) == board && !CanMove(shown.store)
            && DisplayBoard(settled) == board && settled.confirmed.board == board && settled.pendingMove.None?
  {
    hide Reachable;
    hide Serve;
    hide Frame;
    hide SitsBy;
    hide Finale;
    hide Reduce;
    AcknowledgedIff(server, token, id, r, symbol, at, now);
    var g := GameIn(server, r).value;
    MoveIsPlayed(server, token, id, r, g, at, now);
    var board: Board := g.board[at.row * 3 + at.col := Mark(symbol)];
    MoveIsShownAtOnce(client.store, id, at.row, at.col, board);
    var shown := Do(client, MoveOptimistic(id, at.row, at.col, board));
    var command := MakeMove(r, g.gameId, at);
    AckShows(shown, Serve(server, Request(token, id, command), now).server.cache[id].result.event);
  }
}
