/**
 Every session of a running server obeys every law of sessions, whatever the other rooms do; and a
 running game is always the game of the two players who sit in its room.
 */
module ServerLaws {
  import opened Protocol
  import opened EngineLaws
  import opened Rooms
  import opened History
  import opened SessionModel
  import opened SessionRuns
  import opened SessionLaws
  import opened SessionHistory
  import opened ReplayBuffer
  import opened Convergence
  import opened LiveDelivery
  import opened SessionStores
  import opened Handlers

  // ---------- the laws of sessions, lifted ----------

  /** All that was proved of every run of one session. */
  ghost predicate LawfulSession(w: World, r: RoomId) {
    && w.session.roomId == r
    && SessionSound(w)
    && Buffered(w.session)
    && Converged(w.session)
    && TimersMatch(w.session)
    && Alternating(w.session)
    && Followed(w.session)
    && ProposalOpen(w.session)
  }

  /** No game of one room is named by the game, or by an acknowledged move, of another. */
  ghost predicate GamesApart(games: map<RoomId, Session>) {
    forall r, q | r in games && q in games && r != q && games[q].game.Some? ::
      !NamesGame(games[r], games[q].game.value.gameId)
  }

  ghost predicate NamesGame(s: Session, gameId: GameId) {
    || (s.game.Some? && s.game.value.gameId == gameId)
    || exists i | 0 <= i < |s.sent| && s.sent[i].event.MoveAck? :: s.sent[i].event.gameId == gameId
  }

  ghost predicate Lawful(games: map<RoomId, Session>, history: Store, used: set<GameId>) {
    && (forall r | r in games :: LawfulSession(World(games[r], history, used), r))
    && (forall r :: StoreSound(GamesOf(history, r), used))
    && GamesApart(games)
  }

  ghost predicate LawfulServer(server: Server) {
    Lawful(server.games, server.history, server.used)
  }

  lemma StepKeepsLawful(w: World, op: Op, r: RoomId)
    requires LawfulSession(w, r) && Fresh(w, op)
    ensures LawfulSession(Step(w, op), r)
  {
    hide Step;
    hide Fresh;
    hide Buffered;
    hide Converged;
    hide TimersMatch;
    hide Alternating;
    hide Followed;
    hide ProposalOpen;
    hide PlayedOnce;
    hide AcksStand;
    hide IdsKnown;
    hide HistoryAgrees;
    hide GameSound;
    StepKeepsSound(w, op);
    StepKeepsBuffered(w, op);
    StepConverges(w, op);
    StepKeepsTimers(w, op);
    StepKeepsAlternating(w, op);
    StepKeepsFollowed(w, op);
    StepKeepsProposal(w, op);
    StepKeepsRoomId(w, op);
  }

  lemma StepKeepsRoomId(w: World, op: Op)
    ensures Step(w, op).session.roomId == w.session.roomId
  {
    hide Step;
    hide News;
    hide Unbuffered;
    hide Announce;
    StepAnnounces(w, op);
  }

  /** A session writes under its own room only. */
  lemma StepStoresLocally(w: World, op: Op, q: RoomId)
    requires GameSound(w.session) && q != w.session.roomId
    ensures GamesOf(Step(w, op).store, q) == GamesOf(w.store, q)
  {
    hide Step;
    hide Ends;
    hide NextGame;
    hide RecordOf;
    StepRecords(w, op);
  }

  /** Other rooms' records and more ids in use do not matter to a session. */
  lemma LawfulElsewhere(w: World, r: RoomId, store: Store, used: set<GameId>)
    requires LawfulSession(w, r) && GamesOf(store, r) == GamesOf(w.store, r) && w.used <= used
    ensures LawfulSession(World(w.session, store, used), r)
  {
    hide Buffered;
    hide Converged;
    hide TimersMatch;
    hide Alternating;
    hide Followed;
    hide ProposalOpen;
    hide PlayedOnce;
    hide AcksStand;
    hide GameSound;
    hide ExactRecords;
    hide NoRepeats;
    hide Recorded;
  }

  lemma StartsLawful(r: RoomId, store: Store, used: set<GameId>)
    requires StoreSound(GamesOf(store, r), used)
    ensures LawfulSession(World(NewSession(r, store), store, used), r)
  {
    var w := World(NewSession(r, store), store, used);
    RunIsSound(w, []);
    RunConverges(w, []);
    hide Converged;
    hide SessionSound;
    assert Followed(w.session);
  }

  lemma NamedIsUsed(w: World, gameId: GameId)
    requires IdsKnown(w) && NamesGame(w.session, gameId)
    ensures gameId in w.used
  {
  }

  /** A session names no game it did not name before, except one it starts. */
  lemma StepNames(w: World, op: Op, gameId: GameId)
    requires NamesGame(Step(w, op).session, gameId)
    ensures NamesGame(w.session, gameId) || (Starts(w.session, op) && gameId == op.gameId)
  {
    hide Step;
    hide News;
    hide NextGame;
    hide Starts;
    hide SkipsNumber;
    hide Unbuffered;
    hide AcceptedMove;
    var s, t := w.session, Step(w, op).session;
    var news, extra := News(w, op), Unbuffered(s, op);
    StepAnnounces(w, op);
    StepGame(w, op);
    NewsAcks(w, op);
    AckedIsRunning(s, op);
    assert t.sent == s.sent + (news + extra);
    if Starts(s, op) {
      StartUsesFreshId(s, op);
    } else if s.game.Some? {
      BoardOnlyByMoves(s, op);
    } else {
      NoGameNoMove(s, op);
    }
    if !(t.game.Some? && t.game.value.gameId == gameId) {
      var i :| 0 <= i < |t.sent| && t.sent[i].event.MoveAck? && t.sent[i].event.gameId == gameId;
    }
  }

  lemma StepGameId(w: World, op: Op)
    ensures var s, t := w.session, Step(w, op).session;
            t.game.Some? ==>
              || (Starts(s, op) && t.game.value.gameId == op.gameId)
              || (s.game.Some? && t.game.value.gameId == s.game.value.gameId)
  {
    hide Step;
    hide NextGame;
    hide Starts;
    StepGame(w, op);
    if Starts(w.session, op) {
      StartUsesFreshId(w.session, op);
    } else if w.session.game.Some? {
      BoardOnlyByMoves(w.session, op);
    } else {
      NoGameNoMove(w.session, op);
    }
  }

  lemma {:induction false} DriveKeepsApart(server: Server, r: RoomId, op: Op)
    requires LawfulServer(server)
    requires (op.Starting? || op.Accepting?) ==> op.gameId !in server.used
    ensures GamesApart(Drive(server, r, op).games)
  {
    hide Step;
    hide LawfulSession;
    hide StoreSound;
    hide NamesGame;
    hide Starts;
    if r in server.games {
      var w := WorldOf(server, r);
      var after := Drive(server, r, op).games;
      forall a, b | a in after && b in after && a != b && after[b].game.Some?
        ensures !NamesGame(after[a], after[b].game.value.gameId)
      {
        var wa, wb := WorldOf(server, a), WorldOf(server, b);
        LawfulParts(wa, a);
        LawfulParts(wb, b);
        StartNeedsId(w.session, op);
        if NamesGame(after[a], after[b].game.value.gameId) {
          if a == r {
            StepNames(w, op, after[b].game.value.gameId);
            RunningIsUsed(wb);
          } else if b == r {
            StepGameId(w, op);
            NamedIsUsed(wa, after[b].game.value.gameId);
          }
        }
      }
    }
  }

  lemma StartNeedsId(s: Session, op: Op)
    ensures Starts(s, op) ==> op.Starting? || op.Accepting?
  {
  }

  lemma RunningIsUsed(w: World)
    requires IdsKnown(w) && w.session.game.Some?
    ensures w.session.game.value.gameId in w.used
  {
  }

  /** Driving one session keeps all of them, and the store, in order. */
  lemma {:induction false} DriveKeepsLawful(server: Server, r: RoomId, op: Op)
    requires LawfulServer(server)
    requires (op.Starting? || op.Accepting?) ==> op.gameId !in server.used
    ensures LawfulServer(Drive(server, r, op))
    ensures server.used <= Drive(server, r, op).used
    ensures !(op.Starting? || op.Accepting?) ==> Drive(server, r, op).used == server.used
  {
    hide Step;
    hide LawfulSession;
    hide StoreSound;
    hide GamesOf;
    hide GamesApart;
    if r in server.games {
      var w := WorldOf(server, r);
      var v := Step(w, op);
      assert LawfulSession(w, r);
      LawfulParts(w, r);
      StepKeepsLawful(w, op, r);
      StepKeepsIds(w, op);
      StepUsed(w, op);
      DriveKeepsApart(server, r, op);
      LawfulStore(v, r);
      forall q | q != r
        ensures GamesOf(v.store, q) == GamesOf(server.history, q) && StoreSound(GamesOf(v.store, q), v.used)
        ensures q in server.games ==> LawfulSession(World(server.games[q], v.store, v.used), q)
      {
        StepStoresLocally(w, op, q);
        StoreSoundGrows(GamesOf(server.history, q), server.used, v.used);
        if q in server.games {
          LawfulElsewhere(World(server.games[q], server.history, server.used), q, v.store, v.used);
        }
      }
    }
  }

  lemma LawfulParts(w: World, r: RoomId)
    requires LawfulSession(w, r)
    ensures w.session.roomId == r && IdsKnown(w) && GameSound(w.session)
  {
    hide IdsKnown;
    hide GameSound;
  }

  lemma LawfulStore(w: World, r: RoomId)
    requires LawfulSession(w, r)
    ensures StoreSound(GamesOf(w.store, r), w.used)
  {
    hide NoRepeats;
    hide ExactRecords;
  }

  lemma StoreSoundGrows(games: seq<CompletedGame>, used: set<GameId>, more: set<GameId>)
    requires StoreSound(games, used) && used <= more
    ensures StoreSound(games, more)
  {
  }

  lemma HostingKeepsLawful(server: Server, r: RoomId)
    requires LawfulServer(server)
    ensures LawfulServer(WithSession(server, r))
  {
    hide LawfulSession;
    hide StoreSound;
    if r !in server.games {
      StartsLawful(r, server.history, server.used);
    }
  }

  lemma JoinKeepsLawful(
    server: Server, token: SessionToken, id: CommandId, player: PlayerId, r: RoomId, now: int
  )
    requires LawfulServer(server) && r in server.rooms
    ensures LawfulServer(Join(server, token, id, player, r, now).server)
  {
    hide Lawful;
    hide Drive;
    hide WithSession;
    hide SnapshotOf;
    DriveKeepsLawful(server, r, Allocating);
    var seated := SetRoomTo(server, r, Seat(server.rooms[r], player, now)).(
      logins := WithRoom(server.logins, token, Some(r)));
    HostingKeepsLawful(seated, r);
    DriveKeepsLawful(WithSession(seated, r), r, Allocating);
    if SlotOf(server.rooms[r], player).None? && PlayerCount(server.rooms[r]) < 2 {
      var numbered := Drive(WithSession(seated, r), r, Allocating);
      var joined := RoomJoined(SeqOr(numbered, r, 1), r, player, FreeSymbol(server.rooms[r]).value,
                               SnapshotOf(numbered, r));
      DriveKeepsLawful(Answering(numbered, id, joined, now).server, r, Allocating);
    }
  }

  lemma LeaveKeepsLawful(
    server: Server, token: SessionToken, id: CommandId, player: PlayerId, r: RoomId, now: int
  )
    requires LawfulServer(server) && r in server.rooms
    ensures LawfulServer(Leave(server, token, id, player, r, now).server)
  {
    hide Lawful;
    hide Drive;
    var forfeited := Drive(server, r, Forfeiting(player, now));
    var numbered := Drive(forfeited, r, Allocating);
    DriveKeepsLawful(server, r, Forfeiting(player, now));
    DriveKeepsLawful(forfeited, r, Allocating);
    DriveKeepsLawful(Answering(numbered, id, RoomLeft(SeqOr(numbered, r, 1)), now).server, r, Allocating);
  }

  lemma ReadyKeepsLawful(server: Server, id: CommandId, player: PlayerId, r: RoomId, newGame: GameId, now: int)
    requires LawfulServer(server) && r in server.rooms && newGame !in server.used
    ensures LawfulServer(Ready(server, id, player, r, newGame, now).server)
  {
    hide Lawful;
    hide Drive;
    hide WithSession;
    var room := server.rooms[r];
    HostingKeepsLawful(server, r);
    if SymbolOf(room, player).Some? {
      var marked := Marked(room, SymbolOf(room, player).value);
      var hosted := SetRoomTo(WithSession(server, r), r, marked);
      HostingUses(server, r);
      DriveKeepsLawful(hosted, r, Allocating);
      var numbered := Drive(hosted, r, Allocating);
      DriveKeepsLawful(numbered, r, Allocating);
      var announced := Drive(numbered, r, Allocating);
      DriveKeepsLawful(SetRoomTo(announced, r, Unready(marked)), r, Starting(Unready(marked), newGame, now));
    }
  }

  lemma HostingUses(server: Server, r: RoomId)
    ensures WithSession(server, r).used == server.used && WithSession(server, r).rooms == server.rooms
  {
  }

  lemma RematchKeepsLawful(
    server: Server, id: CommandId, player: PlayerId, r: RoomId, target: GameId, newGame: GameId, now: int
  )
    requires LawfulServer(server) && r in server.rooms
    ensures LawfulServer(Ask(server, id, player, r, target, now).server)
    ensures newGame !in server.used ==> LawfulServer(Take(server, id, player, r, target, newGame, now).server)
    ensures LawfulServer(Refuse(server, id, player, r, target, now).server)
  {
    hide Lawful;
    hide Drive;
    DriveKeepsLawful(server, r, Requesting(server.rooms[r], player, target, now));
    if newGame !in server.used {
      DriveKeepsLawful(server, r, Accepting(server.rooms[r], player, target, newGame, now));
    }
    DriveKeepsLawful(server, r, Declining(server.rooms[r], player, target));
  }

  lemma ReturnKeepsLawful(
    server: Server, token: SessionToken, id: CommandId, player: PlayerId, r: RoomId, lastReceived: int, now: int
  )
    requires LawfulServer(server) && r in server.rooms
    ensures LawfulServer(Returned(server, token, player, r, now))
    ensures LawfulServer(Return(server, token, id, player, r, lastReceived, now).server)
  {
    hide Lawful;
    hide Drive;
    hide CatchUp;
    var room := WithConnected(server.rooms[r], player, true, now);
    var back := SetRoomTo(server, r, room).(logins := WithRoom(server.logins, token, Some(r)));
    DriveKeepsLawful(back, r, Clearing(player));
    var cleared := Drive(back, r, Clearing(player));
    DriveKeepsLawful(cleared, r, Reconnecting(room, player));
    DriveKeepsLawful(Drive(cleared, r, Reconnecting(room, player)), r, Allocating);
  }

  lemma PerformKeepsLawful(server: Server, token: SessionToken, id: CommandId, command: Command, now: int)
    requires LawfulServer(server) && FreshInput(server, Request(token, id, command))
    requires token in server.logins && command.roomId in server.rooms
    ensures LawfulServer(Perform(server, token, id, command, now).server)
  {
    hide Lawful;
    hide Drive;
    hide Join;
    hide Leave;
    hide Ready;
    hide Ask;
    hide Take;
    hide Refuse;
    hide Return;
    var player := server.logins[token].playerId;
    match command
    case JoinRoom(r) => JoinKeepsLawful(server, token, id, player, r, now);
    case LeaveRoom(r) => LeaveKeepsLawful(server, token, id, player, r, now);
    case PlayerReady(r, newGame) => ReadyKeepsLawful(server, id, player, r, newGame, now);
    case MakeMove(r, target, position) => DriveKeepsLawful(server, r, Moving(player, target, position, id, now));
    case AskRematch(r, target) => RematchKeepsLawful(server, id, player, r, target, target, now);
    case TakeRematch(r, target, newGame) => RematchKeepsLawful(server, id, player, r, target, newGame, now);
    case RefuseRematch(r, target) => RematchKeepsLawful(server, id, player, r, target, target, now);
    case Rejoin(r, lastReceived) => ReturnKeepsLawful(server, token, id, player, r, lastReceived, now);
    case SyncRequest(_, _) =>
  }

  lemma GateKeepsLawful(server: Server, token: SessionToken, id: CommandId, command: Command, now: int)
    requires LawfulServer(server) && FreshInput(server, Request(token, id, command))
    ensures LawfulServer(Gate(server, token, id, command, now).server)
  {
    hide Lawful;
    hide Perform;
    var ready := server.(logins := LoginsSeen(server.logins, token, now), cache := CacheSeen(server.cache, id, now),
                         rooms := RoomsSeen(server.rooms, command.roomId, now));
    if token in ready.logins && command.roomId in ready.rooms {
      PerformKeepsLawful(ready, token, id, command, now);
    }
  }

  lemma DisconnectKeepsLawful(server: Server, token: SessionToken, now: int)
    requires LawfulServer(server)
    ensures LawfulServer(Disconnect(server, token, now))
  {
    hide Lawful;
    hide Drive;
    var seen := server.(logins := LoginsSeen(server.logins, token, now));
    if token in seen.logins && seen.logins[token].roomId.Some? {
      var r := seen.logins[token].roomId.value;
      var player := seen.logins[token].playerId;
      var found := seen.(rooms := RoomsSeen(seen.rooms, r, now));
      if r in found.rooms {
        var room := WithConnected(found.rooms[r], player, false, now);
        DriveKeepsLawful(SetRoomTo(found, r, room), r, Opening(room, player, now));
      }
    }
  }

  lemma TimersKeepLawful(server: Server, r: RoomId, timer: nat, detached: Room, now: int)
    requires LawfulServer(server)
    ensures LawfulServer(Elapse(server, r, timer, now)) && LawfulServer(Lapse(server, r, timer, detached, now))
  {
    hide Lawful;
    hide Drive;
    var seen := server.(rooms := RoomsSeen(server.rooms, r, now));
    DriveKeepsLawful(seen, r, FiringReconnect(timer, now));
    var op := FiringRematch(if r in server.rooms then server.rooms[r] else detached, timer);
    DriveKeepsLawful(server, r, op);
    DriveKeepsLawful(seen, r, op);
  }

  lemma ServeKeepsLawful(server: Server, input: Input, now: int)
    requires LawfulServer(server) && FreshInput(server, input)
    ensures LawfulServer(Serve(server, input, now).server)
  {
    hide Lawful;
    hide Drive;
    hide Gate;
    hide Disconnect;
    hide Elapse;
    hide Lapse;
    match input
    case Request(token, id, command) => GateKeepsLawful(server, token, id, command, now);
    case Disconnection(token) => DisconnectKeepsLawful(server, token, now);
    case WindowElapses(r, timer) => TimersKeepLawful(server, r, timer, NewRoom(0), now);
    case ProposalElapses(r, timer, detached) => TimersKeepLawful(server, r, timer, detached, now);
    case _ =>
  }

  lemma {:induction false} RunIsLawful(history: Store, used: set<GameId>, inputs: seq<Timed>)
    requires forall r :: StoreSound(GamesOf(history, r), used)
    requires FreshInputs(NewServer(history, used), inputs)
    ensures LawfulServer(ServeAll(NewServer(history, used), inputs))
  {
    hide FreshInput;
    hide Serve;
    hide StoreSound;
    if inputs != [] {
      var server := NewServer(history, used);
      var n := |inputs| - 1;
      FreshInputsPrefix(server, inputs);
      RunIsLawful(history, used, inputs[..n]);
      ServeKeepsLawful(ServeAll(server, inputs[..n]), inputs[n].input, inputs[n].now);
    }
  }

  /**
   What that means for the session of any room of any reachable server: its records are the
   store's, exact and without repetition; its games were begun by X and O in turn; its pending
   timers are the ones it knows of; and a replay is all of a player's events from a number on, or
   none of them.
   */
  lemma {:induction false} EveryRoomIsLawful(
    history: Store, used: set<GameId>, inputs: seq<Timed>, r: RoomId, fromSeq: int, p: PlayerId
  )
    requires forall room :: StoreSound(GamesOf(history, room), used)
    requires FreshInputs(NewServer(history, used), inputs)
    requires r in ServeAll(NewServer(history, used), inputs).games
    ensures var server := ServeAll(NewServer(history, used), inputs);
            var s := server.games[r];
            && s.completed == GamesOf(server.history, r) && NoRepeats(s.completed) && ExactRecords(s.completed)
            && (forall k | 0 <= k < |FirstTurns(s.sent)| :: FirstTurns(s.sent)[k] == if k % 2 == 0 then X else O)
            && TimersMatch(s)
            && (s.game.Some? ==> WellPlayed(s.game.value))
            && var replay := ReplayEvents(s, fromSeq, p);
               (replay.Some? && replay.value != []) ==> replay.value == Scoped(s.log, fromSeq, p)
  {
    hide ServeAll;
    hide FreshInputs;
    hide StoreSound;
    hide PlayedOnce;
    hide AcksStand;
    hide IdsKnown;
    hide Converged;
    hide Followed;
    hide ProposalOpen;
    hide Buffered;
    hide TimersMatch;
    hide FirstTurns;
    hide WellPlayed;
    hide GamesApart;
    hide NoRepeats;
    hide ExactRecords;
    hide ReplayEvents;
    RunIsLawful(history, used, inputs);
    var server := ServeAll(NewServer(history, used), inputs);
    assert LawfulSession(WorldOf(server, r), r);
    ReplayExact(server.games[r], fromSeq, p);
  }
}
