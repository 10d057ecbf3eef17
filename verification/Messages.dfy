/**
 What a session says, message by message, spelled out: to whom, with which number and contents.
 Together with `SessionLaws` (rematches) this covers everything a session sends.
 */
module Messages {
  import opened Protocol
  import opened Engine
  import opened EngineLaws
  import opened Rooms
  import opened History
  import opened SessionModel
  import opened SessionRuns
  import opened SessionLaws
  import opened Transport

  // ---------- the end of a game ----------

  /** The winner when `p` gives up: the other player, or nobody if `p` plays no part in the game. */
  function Remaining(g: GameState, p: PlayerId): Option<Symbol> {
    if p == g.playerX then Some(O) else if p == g.playerO then Some(X) else None
  }

  /** The time from the first move to the end; a time of 0 counts as missing. */
  function PlayingTime(firstMoveAt: Option<int>, endedAt: int): int {
    if firstMoveAt.None? || firstMoveAt.value == 0 || endedAt == 0 then 0 else endedAt - firstMoveAt.value
  }

  function Finale(number: int, g: GameState, result: GameResult, p: PlayerId): Entry {
    Entry(GameFinished(number, g.gameId, result, g.board, g.moveHistory,
                       GameStats(|g.moveHistory|, PlayingTime(g.firstMoveAt, result.endedAt), g.firstMoveAt)),
          Broadcast, p)
  }

  /** The entry of the records for a game with this result. */
  function Chronicle(g: GameState, result: GameResult): CompletedGame {
    CompletedGame(g.gameId, result.outcome, result.winner, |g.moveHistory|, g.createdAt, result.endedAt, g.board,
                  result, g.moveHistory)
  }

  /** A game that is not in the records yet goes to their front; a known one changes nothing. */
  predicate Chronicled(before: seq<CompletedGame>, after: seq<CompletedGame>, g: GameState, result: GameResult) {
    if exists i | 0 <= i < |before| :: before[i].gameId == g.gameId then after == before
    else after == [Chronicle(g, result)] + before
  }

  /** A forfeit: result, game, message and record; nothing without a running game. */
  lemma ForfeitTells(s: Session, store: Store, p: PlayerId, now: int)
    ensures var saving := HandleForfeit(s, store, p, now);
            var t := saving.session;
            if s.game.Some? && s.game.value.status == Active then
              var g := s.game.value;
              var result := GameResult(Forfeit, Remaining(g, p), None, PlayerForfeited, now);
              && t.game == Some(g.(status := Finished, result := Some(result), endedAt := Some(now)))
              && t.sent == s.sent + [Finale(s.seqNo + 1, g, result, p)] && t.seqNo == s.seqNo + 1
              && Chronicled(s.completed, t.completed, g, result)
            else t == s && saving.store == store
  {
    hide Trim;
    hide Saved;
  }

  /** What is said of a player whose window ran out; nothing if the window was opened for nobody's seat. */
  function Farewell(number: int, timer: Timer): seq<Entry>
    requires timer.ReconnectTimer?
  {
    if timer.symbol.None? then []
    else [Entry(PlayerLeft(number, timer.playerId, timer.symbol.value, DisconnectTimeout), Broadcast, timer.playerId)]
  }

  /** A window that runs out during a game: the game is abandoned, and the departure is announced. */
  lemma WindowTells(s: Session, store: Store, id: nat, now: int)
    requires id in s.timers && s.timers[id].ReconnectTimer? && s.game.Some? && s.game.value.status == Active
    ensures var t := FireReconnect(s, store, id, now).session;
            var g, p := s.game.value, s.timers[id].playerId;
            var result := GameResult(Abandoned, Remaining(g, p), None, PlayerAbandoned, now);
            && t.timers == s.timers - {id} && t.reconnectTimers == s.reconnectTimers - {p}
            && t.game == Some(g.(status := Finished, result := Some(result), endedAt := Some(now)))
            && t.sent == s.sent + ([Finale(s.seqNo + 1, g, result, p)] + Farewell(s.seqNo + 2, s.timers[id]))
            && Chronicled(s.completed, t.completed, g, result)
  {
    hide Trim;
    hide Saved;
    hide StatsOf;
    hide Farewell;
    hide LeftNews;
    var g, p := s.game.value, s.timers[id].playerId;
    StatsAre(AbandonGame(g, p, now));
    FarewellIs(s.seqNo + 2, s.timers[id]);
  }

  lemma FarewellIs(number: nat, timer: Timer)
    requires timer.ReconnectTimer?
    ensures LeftNews(number, timer) == Farewell(number, timer)
  {
  }

  /** Outside a game only the departure is announced. */
  lemma IdleWindowTells(s: Session, store: Store, id: nat, now: int)
    requires id in s.timers && s.timers[id].ReconnectTimer? && (s.game.None? || s.game.value.status != Active)
    ensures var saving := FireReconnect(s, store, id, now);
            var t, p := saving.session, s.timers[id].playerId;
            && t.timers == s.timers - {id} && t.reconnectTimers == s.reconnectTimers - {p}
            && t.game == s.game && t.completed == s.completed && saving.store == store
            && t.sent == s.sent + Farewell(s.seqNo + 1, s.timers[id])
  {
    hide Trim;
  }

  // ---------- moves ----------

  /** A move that reaches no running game is answered with an error and changes nothing. */
  lemma MissTells(s: Session, store: Store, p: PlayerId, gameId: GameId, at: RawPosition, id: CommandId, now: int)
    requires s.game.None? || s.game.value.gameId != gameId || s.game.value.status != Active
    ensures var code := if s.game.Some? && s.game.value.gameId != gameId then WrongGameId else NoActiveGame;
            HandleMove(s, store, p, gameId, at, id, now) ==
            MoveOutcome(s.(sent := s.sent + [Entry(Error(code), ToPlayer, p)]), store, None)
  {
    hide ApplyMove;
  }

  /** One that the engine refuses is answered with its reason, the board and the turn, to the mover alone. */
  lemma RefusalTells(s: Session, store: Store, p: PlayerId, gameId: GameId, at: RawPosition, id: CommandId, now: int)
    requires s.game.Some? && s.game.value.gameId == gameId && s.game.value.status == Active
    requires ApplyMove(s.game.value, MoveCommand(p, at.row, at.col, id, now)).Rejected?
    ensures var g := s.game.value;
            var moved := HandleMove(s, store, p, gameId, at, id, now);
            var reason := ApplyMove(g, MoveCommand(p, at.row, at.col, id, now)).reason;
            var refusal := MoveRejected(s.seqNo + 1, gameId, at, reason, g.board, g.currentTurn, id);
            && moved.session.game == s.game && moved.response == Some(refusal) && moved.store == store
            && moved.session.sent == s.sent + [Entry(refusal, ToPlayer, p)] && moved.session.seqNo == s.seqNo + 1
  {
    hide ApplyMove;
    hide Trim;
  }

  /** What the engine's acceptance of a move comes to, for the messages. */
  lemma AcceptanceIs(g: GameState, command: MoveCommand)
    requires WellPlayed(g) && ApplyMove(g, command).Accepted?
    ensures var next, made := ApplyMove(g, command).newState, ApplyMove(g, command).events[0];
            && next.gameId == g.gameId && made.MoveMade? && made.symbol == g.currentTurn
            && made.sequenceInGame == |g.moveHistory| + 1 && made.board == next.board
            && (made.nextTurn == if next.status == Finished then None else Some(Other(g.currentTurn)))
            && (next.status == Finished <==> next.result.Some?)
            && (next.status == Finished ==> next.endedAt == Some(next.result.value.endedAt))
  {
    hide ApplyMove;
    hide PlaceMark;
    hide WellPlayed;
    MoveKeepsWellPlayed(g, command);
    MoveEvents(g, command);
    MoveShape(g, command);
    PlaceShape(g, g.currentTurn, Pos(command.row, command.col), command.timestamp);
    ResultWhenOver(ApplyMove(g, command).newState);
  }

  /** One that it accepts, and the game goes on: the mover gets the acknowledgement, the others the broadcast. */
  lemma MoveTells(s: Session, store: Store, p: PlayerId, gameId: GameId, at: RawPosition, id: CommandId, now: int)
    requires GameSound(s) && s.game.Some? && s.game.value.gameId == gameId && s.game.value.status == Active
    requires var moved := ApplyMove(s.game.value, MoveCommand(p, at.row, at.col, id, now));
             moved.Accepted? && moved.newState.status != Finished
    ensures var g := s.game.value;
            var next := ApplyMove(g, MoveCommand(p, at.row, at.col, id, now)).newState;
            var moved := HandleMove(s, store, p, gameId, at, id, now);
            var n, turn := |g.moveHistory| + 1, Some(Other(g.currentTurn));
            var ack := MoveAck(s.seqNo + 1, gameId, at, g.currentTurn, n, next.board, turn, id);
            var cast := MoveBroadcast(s.seqNo + 2, gameId, at, g.currentTurn, p, n, next.board, turn);
            && moved.session.game == Some(next) && moved.response == Some(ack) && moved.store == store
            && moved.session.sent == s.sent + [Entry(ack, ToPlayer, p), Entry(cast, ToOthers, p)]
            && moved.session.completed == s.completed
  {
    hide ApplyMove;
    hide WellPlayed;
    hide Trim;
    hide Remember;
    AcceptanceIs(s.game.value, MoveCommand(p, at.row, at.col, id, now));
  }

  /** One that ends the game: then everybody is told the result, and the records get their entry. */
  lemma LastMoveTells(s: Session, store: Store, p: PlayerId, gameId: GameId, at: RawPosition, id: CommandId, now: int)
    requires GameSound(s) && s.game.Some? && s.game.value.gameId == gameId && s.game.value.status == Active
    requires var moved := ApplyMove(s.game.value, MoveCommand(p, at.row, at.col, id, now));
             moved.Accepted? && moved.newState.status == Finished
    ensures var g := s.game.value;
            var next := ApplyMove(g, MoveCommand(p, at.row, at.col, id, now)).newState;
            var moved := HandleMove(s, store, p, gameId, at, id, now);
            var t, n := moved.session, |g.moveHistory| + 1;
            var ack := MoveAck(s.seqNo + 1, gameId, at, g.currentTurn, n, next.board, None, id);
            var cast := MoveBroadcast(s.seqNo + 2, gameId, at, g.currentTurn, p, n, next.board, None);
            && t.game == Some(next) && next.result.Some? && moved.response == Some(ack)
            && t.sent == s.sent + [Entry(ack, ToPlayer, p), Entry(cast, ToOthers, p),
                                   Finale(s.seqNo + 3, next, next.result.value, p)]
            && Chronicled(s.completed, t.completed, next, next.result.value)
  {
    hide ApplyMove;
    hide WellPlayed;
    hide Trim;
    hide Remember;
    hide Chronicled;
    hide StatsOf;
    AcceptanceIs(s.game.value, MoveCommand(p, at.row, at.col, id, now));
    var next := ApplyMove(s.game.value, MoveCommand(p, at.row, at.col, id, now)).newState;
    StatsAre(next);
    RememberTells(s, store, next);
  }

  lemma ResultWhenOver(g: GameState)
    requires WellPlayed(g)
    ensures if g.status == Finished then g.result.Some? && g.endedAt == Some(g.result.value.endedAt)
            else g.result.None? && g.endedAt.None?
  {
  }

  lemma RememberTells(s: Session, store: Store, g: GameState)
    requires g.result.Some?
    ensures var t := Remember(s, store, g).session;
            && t == s.(game := Some(g), completed := t.completed)
            && Chronicled(s.completed, t.completed, g, g.result.value)
  {
  }

  lemma StatsAre(g: GameState)
    requires g.result.Some? && g.endedAt == Some(g.result.value.endedAt)
    ensures StatsOf(g) ==
            GameStats(|g.moveHistory|, PlayingTime(g.firstMoveAt, g.result.value.endedAt), g.firstMoveAt)
  {
  }

  // ---------- starting, going, coming back ----------

  /** A start forgets numbers and buffer, and announces the game as number 1 to everybody. */
  lemma StartTells(s: Session, room: Room, firstTurn: Symbol, gameId: GameId, now: int)
    requires room.playerX.Some? && room.playerO.Some?
    ensures var x, o := room.playerX.value, room.playerO.value;
            var start := Entry(GameStarted(1, gameId, EMPTY_BOARD, firstTurn,
                                           PlayerInfo(x.playerId, x.symbol, x.connected, x.lastSeenAt),
                                           PlayerInfo(o.playerId, o.symbol, o.connected, o.lastSeenAt), now),
                               Broadcast, x.playerId);
            Begin(s, room, firstTurn, gameId, now) ==
            s.(game := Some(NextOnSeats(s, room, gameId, firstTurn, now)), seqNo := 1, buffer := [start],
               log := [start], sent := s.sent + [start])
  {
  }

  /**
   A window opens for a seated player: an older one of the same player is replaced, and the other
   player, if connected, is told until when to wait.
   */
  lemma GoneTells(s: Session, room: Room, symbol: Symbol, p: PlayerId, now: int)
    requires SitsOnlyOn(room, symbol, p)
    ensures var t, other := OpenWindow(s, room, p, now), SlotAt(room, Other(symbol));
            var rest := if p in s.reconnectTimers then s.timers - {s.reconnectTimers[p]} else s.timers;
            && t.timers == rest[s.nextTimer := ReconnectTimer(p, Some(symbol))]
            && t.reconnectTimers == s.reconnectTimers[p := s.nextTimer]
            && t.game == s.game && t.rematch == s.rematch && t.completed == s.completed
            && t.sent == s.sent +
               if other.Some? && other.value.connected
               then [Entry(OpponentDisconnected(s.seqNo + 1, symbol, now + 300_000), ToPlayer, other.value.playerId)]
               else []
  {
    hide Trim;
  }

  /** A seated player is back: the other one, if connected, is told. */
  lemma BackTells(s: Session, room: Room, symbol: Symbol, p: PlayerId)
    requires SitsOnlyOn(room, symbol, p)
    ensures var t, other := NotifyReconnected(s, room, p), SlotAt(room, Other(symbol));
            && t.game == s.game && SameTimers(s, t) && t.completed == s.completed
            && t.sent == s.sent +
               if other.Some? && other.value.connected
               then [Entry(OpponentReconnected(s.seqNo + 1, symbol), ToPlayer, other.value.playerId)] else []
  {
    hide Trim;
  }

  // ---------- who hears it ----------

  /**
   What a session sends for one player reaches that player; what it sends to everybody, or to the
   others, reaches those who are connected in the room.
   */
  lemma WhoHears(room: Room, entry: Entry, p: PlayerId)
    ensures p in Recipients(Some(room), entry) <==>
            if entry.target == ToPlayer then p == entry.anchor
            else
              && (|| (Sits(room, X, p) && SlotAt(room, X).value.connected)
                  || (Sits(room, O, p) && SlotAt(room, O).value.connected))
              && (entry.target == ToOthers ==> p != entry.anchor)
  {
  }
}
