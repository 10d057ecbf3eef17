/**
 Retried commands.  While its answer is remembered a retry is answered alike and changes nothing;
 and even after the answer was forgotten, a move that was acknowledged once is never played again.
 */
module Dedup {
  import opened Protocol
  import opened Engine
  import opened EngineLaws
  import opened Rooms
  import opened History
  import opened SessionModel
  import opened SessionRuns
  import opened SessionHistory
  import opened SessionStores
  import opened Snapshots
  import opened Handlers
  import opened ServerLaws
  import opened Seats
  import opened ReachableServers

  // ---------- what is remembered stays remembered ----------

  /** Only the entry of `id` may differ. */
  ghost predicate OthersKept(before: Cache, after: Cache, id: CommandId) {
    forall other | other != id ::
      (other in after <==> other in before) && (other in before ==> after[other] == before[other])
  }

  /** Sessions do not touch the cache. */
  lemma DrivesKeepCache()
    ensures forall s, r, op :: Drive(s, r, op).cache == s.cache
  {
    forall s, r, op ensures Drive(s, r, op).cache == s.cache {
      DriveKeepsRooms(s, r, op);
    }
  }

  lemma EntranceRemembersOne(
    server: Server, token: SessionToken, id: CommandId, player: PlayerId, r: RoomId, now: int
  )
    requires r in server.rooms
    ensures OthersKept(server.cache, Join(server, token, id, player, r, now).server.cache, id)
  {
    hide Drive;
    hide SnapshotOf;
    hide SlotOf;
    DrivesKeepCache();
  }

  lemma ExitRemembersOne(server: Server, token: SessionToken, id: CommandId, player: PlayerId, r: RoomId, now: int)
    requires r in server.rooms
    ensures OthersKept(server.cache, Leave(server, token, id, player, r, now).server.cache, id)
  {
    hide Drive;
    hide SlotOf;
    hide WasForfeited;
    hide Unseat;
    DrivesKeepCache();
  }

  lemma ReadyRemembersOne(server: Server, id: CommandId, player: PlayerId, r: RoomId, newGame: GameId, now: int)
    requires r in server.rooms
    ensures OthersKept(server.cache, Ready(server, id, player, r, newGame, now).server.cache, id)
  {
    hide WithSession;
    hide Prepare;
    HostingKeepsCache(server, r);
    if PlayerCount(server.rooms[r]) == 2 && SymbolOf(server.rooms[r], player).Some? {
      PrepareRemembersOne(WithSession(server, r), id, r, SymbolOf(server.rooms[r], player).value, newGame, now);
    }
  }

  lemma HostingKeepsCache(server: Server, r: RoomId)
    ensures WithSession(server, r).cache == server.cache && WithSession(server, r).rooms == server.rooms
  {
  }

  lemma PrepareRemembersOne(server: Server, id: CommandId, r: RoomId, symbol: Symbol, newGame: GameId, now: int)
    requires r in server.rooms && IsFull(server.rooms[r])
    ensures OthersKept(server.cache, Prepare(server, id, r, symbol, newGame, now).server.cache, id)
  {
    hide Drive;
    DrivesKeepCache();
  }

  lemma MoveRemembersOne(
    server: Server, id: CommandId, player: PlayerId, r: RoomId, target: GameId, position: RawPosition, now: int
  )
    ensures OthersKept(server.cache, Move(server, id, player, r, target, position, now).server.cache, id)
  {
    hide Drive;
    hide HandleMove;
    DrivesKeepCache();
  }

  lemma RematchRemembersOne(
    server: Server, id: CommandId, player: PlayerId, r: RoomId, target: GameId, newGame: GameId, now: int
  )
    requires r in server.rooms
    ensures OthersKept(server.cache, Ask(server, id, player, r, target, now).server.cache, id)
    ensures OthersKept(server.cache, Take(server, id, player, r, target, newGame, now).server.cache, id)
    ensures OthersKept(server.cache, Refuse(server, id, player, r, target, now).server.cache, id)
  {
    hide Drive;
    hide MayRequest;
    hide MayAccept;
    hide Agreed;
    DrivesKeepCache();
  }

  lemma ReturnRemembersOne(
    server: Server, token: SessionToken, id: CommandId, player: PlayerId, r: RoomId, lastReceived: int, now: int
  )
    requires r in server.rooms
    ensures OthersKept(server.cache, Return(server, token, id, player, r, lastReceived, now).server.cache, id)
  {
    hide Drive;
    hide CatchUp;
    DrivesKeepCache();
  }

  lemma PerformRemembersOne(server: Server, token: SessionToken, id: CommandId, command: Command, now: int)
    requires token in server.logins && command.roomId in server.rooms
    ensures OthersKept(server.cache, Perform(server, token, id, command, now).server.cache, id)
  {
    hide OthersKept;
    hide Join;
    hide Leave;
    hide Ready;
    hide Move;
    hide Ask;
    hide Take;
    hide Refuse;
    hide Return;
    var player := server.logins[token].playerId;
    match command
    case JoinRoom(r) => EntranceRemembersOne(server, token, id, player, r, now);
    case LeaveRoom(r) => ExitRemembersOne(server, token, id, player, r, now);
    case PlayerReady(r, newGame) => ReadyRemembersOne(server, id, player, r, newGame, now);
    case MakeMove(r, target, position) => MoveRemembersOne(server, id, player, r, target, position, now);
    case AskRematch(r, target) => RematchRemembersOne(server, id, player, r, target, target, now);
    case TakeRematch(r, target, newGame) => RematchRemembersOne(server, id, player, r, target, newGame, now);
    case RefuseRematch(r, target) => RematchRemembersOne(server, id, player, r, target, target, now);
    case Rejoin(r, lastReceived) => ReturnRemembersOne(server, token, id, player, r, lastReceived, now);
    case SyncRequest(r, fromSeq) => SyncRemembersOne(server, id, player, r, fromSeq, now);
  }

  lemma SyncRemembersOne(server: Server, id: CommandId, player: PlayerId, r: RoomId, fromSeq: int, now: int)
    requires r in server.rooms
    ensures OthersKept(server.cache, Sync(server, id, player, r, fromSeq, now).server.cache, id)
  {
    hide SyncReply;
    hide SnapshotOf;
  }

  /** Keeping what has not run out. */
  predicate KeepsEntry(before: Cache, after: Cache, id: CommandId) {
    id in before ==> id in after && after[id] == before[id]
  }

  lemma GateKeepsEntry(
    server: Server, token: SessionToken, other: CommandId, command: Command, now: int, id: CommandId
  )
    requires id in server.cache && !Stale(server.cache[id], now)
    ensures KeepsEntry(server.cache, Gate(server, token, other, command, now).server.cache, id)
  {
    hide Perform;
    var ready := server.(logins := LoginsSeen(server.logins, token, now),
                         cache := CacheSeen(server.cache, other, now),
                         rooms := RoomsSeen(server.rooms, command.roomId, now));
    if token in ready.logins && command.roomId in ready.rooms {
      PerformRemembersOne(ready, token, other, command, now);
    }
  }

  lemma GreetRemembersOne(server: Server, id: CommandId, token: SessionToken, now: int)
    requires token in server.logins
    ensures OthersKept(server.cache, Greet(server, id, token, now).server.cache, id)
  {
    hide RoomsSeen;
    hide SymbolOf;
  }

  lemma AuthenticateKeepsEntry(
    server: Server, other: CommandId, guest: Option<SessionToken>, newToken: SessionToken, newPlayer: PlayerId,
    now: int, id: CommandId
  )
    requires id in server.cache && !Stale(server.cache[id], now)
    ensures KeepsEntry(server.cache, Authenticate(server, other, guest, newToken, newPlayer, now).server.cache, id)
  {
    hide Greet;
    hide LoginsSeen;
    var swept := server.(cache := CacheSeen(server.cache, other, now));
    var logins := if guest.Some? then LoginsSeen(swept.logins, guest.value, now)
                  else swept.logins[newToken := Login(newPlayer, now, now, None)];
    var token := guest.GetOr(newToken);
    if token in logins {
      GreetRemembersOne(swept.(logins := Touched(logins, token, now)), other, token, now);
    }
  }

  lemma DisconnectKeepsCache(server: Server, token: SessionToken, now: int)
    ensures Disconnect(server, token, now).cache == server.cache
  {
    hide Drive;
    DrivesKeepCache();
  }

  lemma TimersKeepCache(server: Server, r: RoomId, timer: nat, detached: Room, now: int)
    ensures Elapse(server, r, timer, now).cache == server.cache
    ensures Lapse(server, r, timer, detached, now).cache == server.cache
  {
    hide Drive;
    DrivesKeepCache();
  }

  /** An entry that has not run out survives everything. */
  lemma ServeKeepsEntry(server: Server, input: Input, now: int, id: CommandId)
    requires id in server.cache && !Stale(server.cache[id], now)
    ensures KeepsEntry(server.cache, Serve(server, input, now).server.cache, id)
  {
    hide Gate;
    hide Authenticate;
    hide Disconnect;
    hide Elapse;
    hide Lapse;
    match input
    case Request(token, other, command) => GateKeepsEntry(server, token, other, command, now, id);
    case Authentication(other, guest, t, p) => AuthenticateKeepsEntry(server, other, guest, t, p, now, id);
    case Disconnection(token) => DisconnectKeepsCache(server, token, now);
    case WindowElapses(r, timer) => TimersKeepCache(server, r, timer, NewRoom(0), now);
    case ProposalElapses(r, timer, detached) => TimersKeepCache(server, r, timer, detached, now);
    case _ =>
  }

  lemma {:induction false} EntryLasts(server: Server, inputs: seq<Timed>, id: CommandId)
    requires id in server.cache
    requires forall i | 0 <= i < |inputs| :: !Stale(server.cache[id], inputs[i].now)
    ensures id in ServeAll(server, inputs).cache && ServeAll(server, inputs).cache[id] == server.cache[id]
  {
    hide Serve;
    if inputs != [] {
      var n := |inputs| - 1;
      EntryLasts(server, inputs[..n], id);
      ServeKeepsEntry(ServeAll(server, inputs[..n]), inputs[n].input, inputs[n].now, id);
    }
  }

  /** A retry whose answer is remembered changes nothing and gets that answer; rematch commands get none. */
  lemma RetryIsReplayed(server: Server, token: SessionToken, id: CommandId, command: Command, now: int)
    requires token in server.logins && !LoginExpired(server.logins[token], now)
    requires id in server.cache && !Stale(server.cache[id], now)
    ensures var again := Serve(server, Request(token, id, command), now);
            && again.server == server
            && again.deliveries == if command.IsRematch() then [] else [ToAsker(server.cache[id].result)]
  {
    hide Perform;
  }

  // ---------- what is remembered is what was answered ----------

  /** A session sent `event` to `player` between two states. */
  ghost predicate SentTo(before: Session, after: Session, player: PlayerId, event: Event) {
    exists i | |before.sent| <= i < |after.sent| :: after.sent[i] == Entry(event, ToPlayer, player)
  }

  /** The kind of event that answers a command of `player`; rematch commands and moves are answered by the session. */
  predicate Fits(command: Command, player: PlayerId, event: Event) {
    match command
    case JoinRoom(r) => event.RoomJoined? && event.roomId == r && event.playerId == player
    case LeaveRoom(_) => event.RoomLeft?
    case PlayerReady(_, _) => event.PlayerReadyAck?
    case Rejoin(_, _) => event.ReconnectAck? && event.playerId == player
    case SyncRequest(_, fromSeq) =>
      event.StateSyncSnapshot? || (event.StateSyncReplay? && event.fromSeq == fromSeq && event.events != [])
    case _ => false
  }

  /** What the cache then holds for `id`: the answer that went out, or for a move what the session sent. */
  ghost predicate AnswerRemembered(
    before: Server, after: Handled, token: SessionToken, id: CommandId, command: Command, now: int
  )
    requires token in before.logins
  {
    id in after.server.cache ==>
      var entry := after.server.cache[id];
      && entry.cachedAt == now
      && if command.IsRematch() then entry.result == Processed
         else if command.MakeMove? then
           && command.roomId in before.games && command.roomId in after.server.games
           && entry.result.Reply? && (entry.result.event.MoveAck? || entry.result.event.MoveRejected?)
           && entry.result.event.correlationId == id
           && SentTo(before.games[command.roomId], after.server.games[command.roomId],
                     before.logins[token].playerId, entry.result.event)
         else
           && |after.deliveries| > 0 && after.deliveries[0] == ToAsker(entry.result)
           && entry.result.Reply? && Fits(command, before.logins[token].playerId, entry.result.event)
  }

  lemma MoveAnswerRemembered(
    server: Server, token: SessionToken, id: CommandId, command: Command, now: int
  )
    requires token in server.logins && command.roomId in server.rooms && id !in server.cache && command.MakeMove?
    ensures AnswerRemembered(server, Perform(server, token, id, command, now), token, id, command, now)
  {
    hide ApplyMove;
    hide Announce;
    hide Step;
    hide News;
    var player, r := server.logins[token].playerId, command.roomId;
    if r in server.games {
      var w := WorldOf(server, r);
      var op := Moving(player, command.target, command.position, id, now);
      StepAnnounces(w, op);
      DriveKeepsRooms(server, r, op);
      var response := HandleMove(w.session, w.store, player, command.target, command.position, id, now).response;
      if response.Some? {
        ResponseIsNews(w, op);
        AnnouncedSent(w.session, Step(w, op).session, News(w, op), Unbuffered(w.session, op));
      }
    }
  }

  /** The response to a move is the first thing the session sends, to the mover. */
  lemma ResponseIsNews(w: World, op: Op)
    requires op.Moving?
    requires HandleMove(w.session, w.store, op.playerId, op.target, op.position, op.commandId, op.now).response.Some?
    ensures var event := HandleMove(w.session, w.store, op.playerId, op.target, op.position, op.commandId,
                                    op.now).response.value;
            && (event.MoveAck? || event.MoveRejected?) && event.correlationId == op.commandId
            && News(w, op) != [] && News(w, op)[0] == Entry(event, ToPlayer, op.playerId)
  {
    hide ApplyMove;
    hide Announce;
    if Reaches(w.session, op.target) {
      var state := w.session.game.value;
      var command := MoveCommand(op.playerId, op.position.row, op.position.col, op.commandId, op.now);
      MoveShape(state, command);
      if ApplyMove(state, command).Accepted? {
        PlaceShape(state, state.currentTurn, Pos(command.row, command.col), command.timestamp);
      }
    }
  }

  lemma AnnouncedSent(s: Session, t: Session, news: seq<Entry>, extra: seq<Entry>)
    requires Announced(s, t, news, extra) && news != [] && news[0].target == ToPlayer
    ensures SentTo(s, t, news[0].anchor, news[0].event)
  {
    assert t.sent == s.sent + news + extra;
    assert t.sent[|s.sent|] == news[0];
  }

  lemma EntranceAnswerRemembered(server: Server, token: SessionToken, id: CommandId, command: Command, now: int)
    requires token in server.logins && command.roomId in server.rooms && id !in server.cache
    requires command.JoinRoom? || command.LeaveRoom?
    ensures AnswerRemembered(server, Perform(server, token, id, command, now), token, id, command, now)
  {
    hide Drive;
    hide SnapshotOf;
    hide SlotOf;
    hide WasForfeited;
    hide SentTo;
    DrivesKeepCache();
  }

  lemma ReadyAnswerRemembered(server: Server, token: SessionToken, id: CommandId, command: Command, now: int)
    requires token in server.logins && command.roomId in server.rooms && id !in server.cache && command.PlayerReady?
    ensures AnswerRemembered(server, Perform(server, token, id, command, now), token, id, command, now)
  {
    hide Drive;
    hide WithSession;
    hide SentTo;
    DrivesKeepCache();
    HostingKeepsCache(server, command.roomId);
  }

  lemma RematchAnswerRemembered(server: Server, token: SessionToken, id: CommandId, command: Command, now: int)
    requires token in server.logins && command.roomId in server.rooms && id !in server.cache && command.IsRematch()
    ensures AnswerRemembered(server, Perform(server, token, id, command, now), token, id, command, now)
  {
    hide Drive;
    hide MayRequest;
    hide MayAccept;
    hide Agreed;
    hide SentTo;
    DrivesKeepCache();
  }

  lemma CatchUpAnswerRemembered(server: Server, token: SessionToken, id: CommandId, command: Command, now: int)
    requires token in server.logins && command.roomId in server.rooms && id !in server.cache
    requires command.Rejoin? || command.SyncRequest?
    ensures AnswerRemembered(server, Perform(server, token, id, command, now), token, id, command, now)
  {
    hide Drive;
    hide ReplayEvents;
    hide SnapshotOf;
    hide SentTo;
    DrivesKeepCache();
  }

  /**
   When a command takes effect, said about the state before: whether the player sits there, whether
   a seat is free, what the session is at.
   */
  predicate TakesEffect(server: Server, token: SessionToken, command: Command)
    requires token in server.logins && command.roomId in server.rooms
  {
    var login := server.logins[token];
    var room := server.rooms[command.roomId];
    var session := if command.roomId in server.games then Some(server.games[command.roomId]) else None;
    match command
    case JoinRoom(r) =>
      && (login.roomId.None? || login.roomId.value == r)
      && (IsSeated(room, login.playerId) || room.playerX.None? || room.playerO.None?)
    case PlayerReady(_, _) => IsSeated(room, login.playerId) && room.playerX.Some? && room.playerO.Some?
    case MakeMove(_, target, _) => session.Some? && AtGame(session.value, target, Active)
    case AskRematch(_, target) =>
      && session.Some? && AtGame(session.value, target, Finished) && session.value.rematch.None?
      && IsSeated(room, login.playerId)
    case TakeRematch(_, target, _) =>
      && session.Some? && AtGame(session.value, target, Finished) && session.value.rematch.Some?
      && IsSeated(room, login.playerId)
    case RefuseRematch(_, _) => session.Some? && session.value.rematch.Some? && IsSeated(room, login.playerId)
    case _ => IsSeated(room, login.playerId)
  }

  predicate AtGame(s: Session, target: GameId, status: GameStatus) {
    s.game.Some? && s.game.value.gameId == target && s.game.value.status == status
  }

  lemma EntranceRemembersIff(server: Server, token: SessionToken, id: CommandId, command: Command, now: int)
    requires token in server.logins && command.roomId in server.rooms && id !in server.cache
    requires command.JoinRoom? || command.LeaveRoom?
    requires command.JoinRoom? ==> !ElsewhereThan(server.logins[token], command.roomId)
    ensures id in Perform(server, token, id, command, now).server.cache <==> TakesEffect(server, token, command)
  {
    hide Drive;
    hide SnapshotOf;
    hide WasForfeited;
    DrivesKeepCache();
  }

  lemma ReadyRemembersIff(server: Server, token: SessionToken, id: CommandId, command: Command, now: int)
    requires token in server.logins && command.roomId in server.rooms && id !in server.cache && command.PlayerReady?
    ensures id in Perform(server, token, id, command, now).server.cache <==> TakesEffect(server, token, command)
  {
    hide Drive;
    hide WithSession;
    DrivesKeepCache();
    HostingKeepsCache(server, command.roomId);
  }

  lemma SessionRemembersIff(server: Server, token: SessionToken, id: CommandId, command: Command, now: int)
    requires token in server.logins && command.roomId in server.rooms && id !in server.cache
    requires command.IsRematch() || command.MakeMove?
    ensures id in Perform(server, token, id, command, now).server.cache <==> TakesEffect(server, token, command)
  {
    hide Drive;
    hide ApplyMove;
    hide Agreed;
    DrivesKeepCache();
  }

  lemma CatchUpRemembersIff(server: Server, token: SessionToken, id: CommandId, command: Command, now: int)
    requires token in server.logins && command.roomId in server.rooms && id !in server.cache
    requires command.Rejoin? || command.SyncRequest?
    ensures id in Perform(server, token, id, command, now).server.cache <==> TakesEffect(server, token, command)
  {
    hide Drive;
    hide CatchUp;
    hide SyncReply;
    hide SnapshotOf;
    DrivesKeepCache();
  }

  /** A command of a login that the server knows, new to it, for a room that is there. */
  lemma PerformRemembersIff(server: Server, token: SessionToken, id: CommandId, command: Command, now: int)
    requires token in server.logins && command.roomId in server.rooms && id !in server.cache
    requires command.JoinRoom? ==> !ElsewhereThan(server.logins[token], command.roomId)
    ensures var after := Perform(server, token, id, command, now);
            && (id in after.server.cache <==> TakesEffect(server, token, command))
            && AnswerRemembered(server, after, token, id, command, now)
  {
    hide Perform;
    hide TakesEffect;
    hide AnswerRemembered;
    match command
    case JoinRoom(_) =>
      EntranceRemembersIff(server, token, id, command, now);
      EntranceAnswerRemembered(server, token, id, command, now);
    case LeaveRoom(_) =>
      EntranceRemembersIff(server, token, id, command, now);
      EntranceAnswerRemembered(server, token, id, command, now);
    case PlayerReady(_, _) =>
      ReadyRemembersIff(server, token, id, command, now);
      ReadyAnswerRemembered(server, token, id, command, now);
    case MakeMove(_, _, _) =>
      SessionRemembersIff(server, token, id, command, now);
      MoveAnswerRemembered(server, token, id, command, now);
    case Rejoin(_, _) =>
      CatchUpRemembersIff(server, token, id, command, now);
      CatchUpAnswerRemembered(server, token, id, command, now);
    case SyncRequest(_, _) =>
      CatchUpRemembersIff(server, token, id, command, now);
      CatchUpAnswerRemembered(server, token, id, command, now);
    case _ =>
      SessionRemembersIff(server, token, id, command, now);
      RematchAnswerRemembered(server, token, id, command, now);
  }

  /**
   The first time a command is processed, its answer is remembered, under its id and with its time,
   if and only if it takes effect.
   */
  lemma {:induction false} FirstAnswerIsRemembered(
    server: Server, token: SessionToken, id: CommandId, command: Command, now: int
  )
    requires Admitted(server, token, id, command.roomId, now)
    ensures var after := Serve(server, Request(token, id, command), now);
            && (id in after.server.cache <==> TakesEffect(server, token, command))
            && AnswerRemembered(server, after, token, id, command, now)
  {
    hide Perform;
    hide SentTo;
    hide Fits;
    if command.JoinRoom? && ElsewhereThan(server.logins[token], command.roomId) {
      var swept := CacheSeen(server.cache, id, now);
      assert id !in swept;
    } else {
      AdmittedIsPerformed(server, token, id, command, now);
      hide Serve;
      PerformRemembersIff(server.(cache := CacheSeen(server.cache, id, now)), token, id, command, now);
    }
  }

  /**
   A command that takes effect is processed at time `t`.  Whatever happens then, in any order and to
   any room, a retry no later than five minutes after `t` changes nothing, and is answered with what
   the first processing answered.
   */
  lemma {:induction false} RetryGetsSameAnswer(
    server: Server, token: SessionToken, id: CommandId, command: Command, t: int, between: seq<Timed>,
    retrying: SessionToken, retry: int
  )
    requires Admitted(server, token, id, command.roomId, t) && TakesEffect(server, token, command)
    requires forall i | 0 <= i < |between| :: between[i].now <= retry
    requires retry - t <= 300_000
    requires var later := ServeAll(Serve(server, Request(token, id, command), t).server, between);
             retrying in later.logins && retry - later.logins[retrying].createdAt <= 604_800_000
    ensures var first := Serve(server, Request(token, id, command), t);
            var later := ServeAll(first.server, between);
            var again := Serve(later, Request(retrying, id, command), retry);
            && id in first.server.cache
            && again.server == later
            && again.deliveries == (if command.IsRematch() then [] else [ToAsker(first.server.cache[id].result)])
            && AnswerRemembered(server, first, token, id, command, t)
  {
    hide Serve;
    hide TakesEffect;
    var first := Serve(server, Request(token, id, command), t);
    FirstAnswerIsRemembered(server, token, id, command, t);
    EntryLasts(first.server, between, id);
    RetryIsReplayed(ServeAll(first.server, between), retrying, id, command, retry);
  }

  // ---------- at most once ----------

  /** A move changes no game but that of its room, and that one as its session says. */
  lemma MoveTouchesOneGame(server: Server, token: SessionToken, id: CommandId, command: Command, now: int, q: RoomId)
    requires command.MakeMove? && q in server.games && q != command.roomId
    ensures var after := Serve(server, Request(token, id, command), now).server;
            q in after.games && after.games[q] == server.games[q]
  {
    hide Step;
    hide HandleMove;
  }

  lemma MoveIsHandled(server: Server, token: SessionToken, id: CommandId, command: Command, now: int)
    requires command.MakeMove? && command.roomId in server.games
    ensures var s, r := server.games[command.roomId], command.roomId;
            var after := Serve(server, Request(token, id, command), now).server;
            && r in after.games
            && (after.games[r] == s
                || (token in server.logins
                    && after.games[r] == HandleMove(s, server.history, server.logins[token].playerId, command.target,
                                                    command.position, id, now).session))
  {
    hide HandleMove;
  }

  /**
   In every reachable server: once a move on a cell of a game was acknowledged, no command on that
   cell of that game, by anybody, under whatever id, in whatever room and however late, changes
   any game; and no two acknowledged moves of a room name the same cell of the same game.
   */
  lemma {:induction false} PlayedAtMostOnce(
    history: Store, used: set<GameId>, inputs: seq<Timed>, r: RoomId, i: nat, q: RoomId, x: RoomId,
    token: SessionToken, id: CommandId, now: int
  )
    requires forall room :: StoreSound(GamesOf(history, room), used)
    requires FreshInputs(NewServer(history, used), inputs)
    requires var server := ServeAll(NewServer(history, used), inputs);
             && r in server.games && i < |server.games[r].sent| && server.games[r].sent[i].event.MoveAck?
             && x in server.games
    ensures var server := ServeAll(NewServer(history, used), inputs);
            var ack := server.games[r].sent[i].event;
            var after := Serve(server, Request(token, id, MakeMove(q, ack.gameId, ack.position)), now).server;
            && PlayedOnce(server.games[r].sent)
            && x in after.games && after.games[x].game == server.games[x].game
  {
    hide Serve;
    hide StoreSound;
    hide HandleMove;
    hide LawfulSession;
    RunIsLawful(history, used, inputs);
    var server := ServeAll(NewServer(history, used), inputs);
    var ack := server.games[r].sent[i].event;
    var command := MakeMove(q, ack.gameId, ack.position);
    LawfulAcks(WorldOf(server, r), r);
    if x != q {
      MoveTouchesOneGame(server, token, id, command, now, x);
    } else {
      MoveIsHandled(server, token, id, command, now);
      var player := if token in server.logins then server.logins[token].playerId else PlayerId("");
      assert NamesGame(server.games[r], ack.gameId);
      ResentMove(server.games[x], server.history, ack, player, id, now);
    }
  }

  lemma LawfulAcks(w: World, r: RoomId)
    requires LawfulSession(w, r)
    ensures PlayedOnce(w.session.sent) && AcksStand(w.session)
  {
    hide PlayedOnce;
    hide AcksStand;
  }
}
