/**
 What one GameSession does, as functions on its state.  The runtime's pending timers are part of
 the state, so that a timer firing is one more step.  `log` holds every buffered event since the
 last reset of the sequence, `sent` everything ever handed to the transport; the program keeps
 neither, they record what happened.
 */
module SessionModel {
  import opened Protocol
  import opened Engine
  import opened Rooms
  import opened History

  datatype Target = ToPlayer | Broadcast | ToOthers

  datatype Entry = Entry(event: Event, target: Target, anchor: PlayerId)

  datatype Proposal = Proposal(
    requestedBy: Symbol, requestedAt: int, expiresAt: int, acceptedBy: set<Symbol>, timer: nat)

  datatype Timer =
    | ReconnectTimer(playerId: PlayerId, symbol: Option<Symbol>)
    | RematchTimer(gameId: GameId)

  datatype Session = Session(
    roomId: RoomId,
    game: Option<GameState>,
    seqNo: nat,
    rematch: Option<Proposal>,
    completed: seq<CompletedGame>,
    buffer: seq<Entry>,
    reconnectTimers: map<PlayerId, nat>,
    timers: map<nat, Timer>,
    nextTimer: nat,
    log: seq<Entry>,
    sent: seq<Entry>)

  function NewSession(roomId: RoomId, store: Store): Session {
    Session(roomId, None, 0, None, GamesOf(store, roomId), [], map[], map[], 0, [], [])
  }

  predicate IsActive(s: Session) {
    s.game.Some? && s.game.value.status == Active
  }

  // ---------- numbering and emitting ----------

  function Trim(buffer: seq<Entry>): seq<Entry> {
    if |buffer| > EVENT_BUFFER_SIZE then buffer[|buffer| - EVENT_BUFFER_SIZE..] else buffer
  }

  function Allocate(s: Session): Session {
    s.(seqNo := s.seqNo + 1)
  }

  /** Number and emit some entries, in order. */
  function Announce(s: Session, news: seq<Entry>): Session {
    if news == [] then s
    else s.(seqNo := s.seqNo + |news|, buffer := Trim(s.buffer + news), log := s.log + news, sent := s.sent + news)
  }

  /** Emitting in two goes is emitting at once: trimming early loses nothing. */
  lemma {:induction false} AnnounceTwice(s: Session, a: seq<Entry>, b: seq<Entry>)
    ensures Announce(Announce(s, a), b) == Announce(s, a + b)
  {
    if a == [] {
      assert a + b == b;
    } else if b == [] {
      assert a + b == a;
    } else {
      assert s.buffer + (a + b) == s.buffer + a + b;
      assert Trim(Trim(s.buffer + a) + b) == Trim(s.buffer + a + b);
      assert s.log + a + b == s.log + (a + b);
      assert s.sent + a + b == s.sent + (a + b);
    }
  }

  /** Errors carry no number and are not buffered. */
  function SendError(s: Session, playerId: PlayerId, code: ErrorCode): Session {
    s.(sent := s.sent + [Entry(Error(code), ToPlayer, playerId)])
  }

  // ---------- starting, moving, ending ----------

  function Reset(s: Session): Session {
    s.(seqNo := 0, buffer := [], log := [])
  }

  function FirstState(s: Session, room: Room, firstTurn: Symbol, gameId: GameId, now: int): GameState
    requires IsFull(room)
  {
    StartGame(StartCommand(gameId, s.roomId, room.playerX.value.playerId, room.playerO.value.playerId, firstTurn, now))
  }

  function StartNews(s: Session, room: Room, firstTurn: Symbol, gameId: GameId, now: int): seq<Entry>
    requires IsFull(room)
  {
    var x, o := room.playerX.value, room.playerO.value;
    [Entry(GameStarted(1, gameId, EMPTY_BOARD, firstTurn, InfoOf(x), InfoOf(o), now), Broadcast, x.playerId)]
  }

  function Begin(s: Session, room: Room, firstTurn: Symbol, gameId: GameId, now: int): Session {
    if !IsFull(room) then s
    else Announce(Reset(s).(game := Some(FirstState(s, room, firstTurn, gameId, now))),
                  StartNews(s, room, firstTurn, gameId, now))
  }

  function StatsOf(state: GameState): GameStats {
    // A timestamp of 0 counts as missing.
    var timed := state.endedAt.GetOr(0) != 0 && state.firstMoveAt.GetOr(0) != 0;
    GameStats(|state.moveHistory|,
              if timed then state.endedAt.value - state.firstMoveAt.value else 0, state.firstMoveAt)
  }

  function RecordOf(state: GameState): CompletedGame
    requires state.result.Some?
  {
    var result := state.result.value;
    CompletedGame(state.gameId, result.outcome, result.winner, |state.moveHistory|, state.createdAt, result.endedAt,
                  state.board, result, state.moveHistory)
  }

  function EndNews(number: nat, state: GameState, anchor: PlayerId): seq<Entry>
    requires state.result.Some?
  {
    [Entry(GameFinished(number, state.gameId, state.result.value, state.board, state.moveHistory, StatsOf(state)),
           Broadcast, anchor)]
  }

  datatype Saving = Saving(session: Session, store: Store)

  /** The game is over in `ended`: remember it, unless its id is known already. */
  function Remember(s: Session, store: Store, ended: GameState): Saving
    requires ended.result.Some?
  {
    var over := s.(game := Some(ended));
    if Recorded(s.completed, ended.gameId) then Saving(over, store)
    else Saving(over.(completed := [RecordOf(ended)] + s.completed), Saved(store, s.roomId, RecordOf(ended)))
  }

  /** End the running game in `ended`, on the initiative of `anchor`. */
  function Conclude(s: Session, store: Store, ended: GameState, anchor: PlayerId): Saving
    requires ended.result.Some?
  {
    var saving := Remember(s, store, ended);
    Saving(Announce(saving.session, EndNews(s.seqNo + 1, ended, anchor)), saving.store)
  }

  function HandleForfeit(s: Session, store: Store, playerId: PlayerId, now: int): Saving {
    if !IsActive(s) then Saving(s, store)
    else Conclude(s, store, ForfeitGame(s.game.value, playerId, now), playerId)
  }

  function HandleAbandon(s: Session, store: Store, playerId: PlayerId, now: int): Saving {
    if !IsActive(s) then Saving(s, store)
    else Conclude(s, store, AbandonGame(s.game.value, playerId, now), playerId)
  }

  datatype MoveOutcome = MoveOutcome(session: Session, store: Store, response: Option<Event>)

  /** A move reaches the engine only if it names the game that is running. */
  predicate Reaches(s: Session, gameId: GameId) {
    IsActive(s) && s.game.value.gameId == gameId
  }

  function MissCode(s: Session, gameId: GameId): ErrorCode {
    if s.game.Some? && s.game.value.gameId != gameId then WrongGameId else NoActiveGame
  }

  function HandleMove(
    s: Session, store: Store, playerId: PlayerId, gameId: GameId, position: RawPosition, id: CommandId, now: int
  ): MoveOutcome
  {
    if !Reaches(s, gameId) then
      MoveOutcome(SendError(s, playerId, MissCode(s, gameId)), store, None)
    else
      var state := s.game.value;
      match ApplyMove(state, MoveCommand(playerId, position.row, position.col, id, now))
      case Rejected(_, reason) =>
        var refusal := MoveRejected(s.seqNo + 1, gameId, position, reason, state.board, state.currentTurn, id);
        MoveOutcome(Announce(s, [Entry(refusal, ToPlayer, playerId)]), store, Some(refusal))
      case Accepted(next, events) =>
        var saving := if next.result.Some? then Remember(s, store, next) else Saving(s.(game := Some(next)), store);
        MoveOutcome(Announce(saving.session, MoveNews(s, playerId, position, id, next, events[0])), saving.store,
                    Some(AckOf(s.seqNo + 1, gameId, position, id, events[0])))
  }

  function AckOf(number: nat, gameId: GameId, position: RawPosition, id: CommandId, made: EngineEvent): Event
    requires made.MoveMade?
  {
    MoveAck(number, gameId, position, made.symbol, made.sequenceInGame, made.board, made.nextTurn, id)
  }

  /** The mover gets the ack, everybody else the broadcast, all of them the end of the game. */
  function MoveNews(
    s: Session, mover: PlayerId, position: RawPosition, id: CommandId, next: GameState, made: EngineEvent
  ): seq<Entry>
    requires made.MoveMade?
  {
    [Entry(AckOf(s.seqNo + 1, next.gameId, position, id, made), ToPlayer, mover),
     Entry(MoveBroadcast(s.seqNo + 2, next.gameId, position, made.symbol, mover, made.sequenceInGame,
                         made.board, made.nextTurn), ToOthers, mover)] +
    if next.result.Some? then EndNews(s.seqNo + 3, next, mover) else []
  }

  // ---------- rematch ----------

  predicate CanProposeFor(s: Session, gameId: GameId) {
    s.game.Some? && s.game.value.status == Finished && s.game.value.gameId == gameId
  }

  predicate MayRequest(s: Session, room: Room, playerId: PlayerId, gameId: GameId) {
    CanProposeFor(s, gameId) && s.rematch.None? && SymbolOf(room, playerId).Some?
  }

  function RequestRematch(s: Session, room: Room, playerId: PlayerId, gameId: GameId, now: int): Session {
    if !MayRequest(s, room, playerId, gameId) then s
    else
      var symbol := SymbolOf(room, playerId).value;
      var expiresAt := now + REMATCH_TIMEOUT_MS;
      var proposed := s.(
        rematch := Some(Proposal(symbol, now, expiresAt, {symbol}, s.nextTimer)),
        timers := s.timers[s.nextTimer := RematchTimer(gameId)],
        nextTimer := s.nextTimer + 1);
      Announce(proposed, [Entry(RematchRequested(s.seqNo + 1, gameId, symbol, expiresAt), Broadcast, playerId)])
  }

  predicate MayAccept(s: Session, room: Room, playerId: PlayerId, gameId: GameId) {
    CanProposeFor(s, gameId) && s.rematch.Some? && SymbolOf(room, playerId).Some?
  }

  /** Whether this acceptance is the second of two. */
  predicate Agreed(s: Session, room: Room, playerId: PlayerId, gameId: GameId) {
    MayAccept(s, room, playerId, gameId) &&
    |s.rematch.value.acceptedBy + {SymbolOf(room, playerId).value}| == 2
  }

  function DropProposal(s: Session): Session {
    if s.rematch.None? then s else s.(timers := s.timers - {s.rematch.value.timer}, rematch := None)
  }

  function AcceptRematch(
    s: Session, room: Room, playerId: PlayerId, gameId: GameId, newGameId: GameId, now: int
  ): Session
  {
    if !MayAccept(s, room, playerId, gameId) then s
    else if Agreed(s, room, playerId, gameId) then
      var rematch := CreateRematch(s.game.value, newGameId, now);
      Begin(DropProposal(s), room.(readySymbols := {}), rematch.firstTurn, newGameId, now)
    else
      s.(rematch := Some(s.rematch.value.(
        acceptedBy := s.rematch.value.acceptedBy + {SymbolOf(room, playerId).value})))
  }

  /** A decline is numbered and sent, but not emitted: it is never buffered. */
  function DeclineRematch(s: Session, room: Room, playerId: PlayerId, gameId: GameId): Session {
    if s.rematch.None? || SymbolOf(room, playerId).None? then s
    else
      var declined := RematchDeclined(s.seqNo + 1, gameId, SymbolOf(room, playerId).value);
      Allocate(DropProposal(s)).(sent := s.sent + [Entry(declined, Broadcast, playerId)])
  }

  /** The rematch timer `id` fires. */
  function FireRematch(s: Session, room: Room, id: nat): Session
    requires id in s.timers && s.timers[id].RematchTimer?
  {
    var fired := s.(timers := s.timers - {id});
    if s.rematch.None? then fired
    else
      var expired := fired.(rematch := None);
      var anyPlayer := if room.playerX.Some? then room.playerX else room.playerO;
      if anyPlayer.None? then expired
      else Announce(expired, [Entry(RematchExpired(s.seqNo + 1, s.timers[id].gameId), Broadcast,
                                    anyPlayer.value.playerId)])
  }

  // ---------- reconnect windows ----------

  function ClearWindow(s: Session, playerId: PlayerId): Session {
    if playerId !in s.reconnectTimers then s
    else s.(timers := s.timers - {s.reconnectTimers[playerId]}, reconnectTimers := s.reconnectTimers - {playerId})
  }

  /** An event for the other seat, if somebody is connected there. */
  function OpponentNews(room: Room, playerId: PlayerId, event: Event): seq<Entry> {
    var opponent := OpponentSlot(room, playerId);
    if SymbolOf(room, playerId).Some? && opponent.Some? && opponent.value.connected
    then [Entry(event, ToPlayer, opponent.value.playerId)] else []
  }

  function GoneNews(s: Session, room: Room, playerId: PlayerId, now: int): seq<Entry> {
    OpponentNews(room, playerId,
                 OpponentDisconnected(s.seqNo + 1, SymbolOf(room, playerId).GetOr(X), now + RECONNECT_WINDOW_MS))
  }

  function OpenWindow(s: Session, room: Room, playerId: PlayerId, now: int): Session {
    var cleared := ClearWindow(s, playerId);
    Announce(
      cleared.(timers := cleared.timers[s.nextTimer := ReconnectTimer(playerId, SymbolOf(room, playerId))],
               reconnectTimers := cleared.reconnectTimers[playerId := s.nextTimer],
               nextTimer := s.nextTimer + 1),
      GoneNews(s, room, playerId, now))
  }

  function BackNews(s: Session, room: Room, playerId: PlayerId): seq<Entry> {
    OpponentNews(room, playerId, OpponentReconnected(s.seqNo + 1, SymbolOf(room, playerId).GetOr(X)))
  }

  function NotifyReconnected(s: Session, room: Room, playerId: PlayerId): Session {
    Announce(s, BackNews(s, room, playerId))
  }

  function LeftNews(number: nat, timer: Timer): seq<Entry>
    requires timer.ReconnectTimer?
  {
    if timer.symbol.None? then []
    else [Entry(PlayerLeft(number, timer.playerId, timer.symbol.value, DisconnectTimeout), Broadcast, timer.playerId)]
  }

  function FireNews(s: Session, timer: Timer, now: int): seq<Entry>
    requires timer.ReconnectTimer?
  {
    if IsActive(s) then
      EndNews(s.seqNo + 1, AbandonGame(s.game.value, timer.playerId, now), timer.playerId) +
      LeftNews(s.seqNo + 2, timer)
    else
      LeftNews(s.seqNo + 1, timer)
  }

  /** The reconnect timer `id` fires: abandon a running game, announce the departure, forget the window. */
  function FireReconnect(s: Session, store: Store, id: nat, now: int): Saving
    requires id in s.timers && s.timers[id].ReconnectTimer?
  {
    var timer := s.timers[id];
    var fired := s.(timers := s.timers - {id});
    var saving := if IsActive(s) then Remember(fired, store, AbandonGame(s.game.value, timer.playerId, now))
                  else Saving(fired, store);
    Saving(Announce(saving.session, FireNews(s, timer, now)).(
             reconnectTimers := s.reconnectTimers - {timer.playerId}), saving.store)
  }

  function Destroy(s: Session): Session {
    var cleared := s.(
      timers := map id | id in s.timers && id !in s.reconnectTimers.Values :: s.timers[id],
      reconnectTimers := map[]);
    DropProposal(cleared)
  }

  // ---------- replay ----------

  predicate VisibleTo(entry: Entry, playerId: PlayerId) {
    match entry.target
    case Broadcast => true
    case ToPlayer => entry.anchor == playerId
    case ToOthers => entry.anchor != playerId
  }

  predicate Relevant(entry: Entry, fromSeq: int, playerId: PlayerId) {
    entry.event.HasSeq() && entry.event.sessionSeq >= fromSeq && VisibleTo(entry, playerId)
  }

  /** The events of `entries` numbered from `fromSeq` on that `playerId` may see, in order. */
  function Scoped(entries: seq<Entry>, fromSeq: int, playerId: PlayerId): seq<Event> {
    if entries == [] then []
    else
      var last := entries[|entries| - 1];
      Scoped(entries[..|entries| - 1], fromSeq, playerId) +
      if Relevant(last, fromSeq, playerId) then [last.event] else []
  }

  /** None: fall back to a snapshot. */
  function ReplayEvents(s: Session, fromSeq: int, playerId: PlayerId): Option<seq<Event>> {
    if fromSeq > s.seqNo then Some([])
    else
      var relevant := Scoped(s.buffer, fromSeq, playerId);
      if relevant == [] then Some([])
      else if relevant[0].HasSeq() && relevant[0].sessionSeq > fromSeq then None
      else Some(relevant)
  }
}
