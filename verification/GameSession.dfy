/**
 The stateful owner of a match.  Every method does to the object what the session model says;
 the laws proved about the model therefore hold of it.  Pending timers of the runtime are kept in
 `timers`; `log` and `sent` are ghost.
 */
module GameSessions {
  import opened Protocol
  import opened Engine
  import opened EngineLaws
  import opened Rooms
  import opened History
  import opened SessionModel
  import opened SessionLaws

  /** Emitting one event that is numbered already. */
  function Emitted(s: Session, entry: Entry): Session {
    s.(buffer := Trim(s.buffer + [entry]), log := s.log + [entry], sent := s.sent + [entry])
  }

  /** The two answers to an accepted move. */
  function MoveAnswers(
    number: nat, mover: PlayerId, position: RawPosition, id: CommandId, gameId: GameId, made: EngineEvent
  ): seq<Entry>
    requires made.MoveMade?
  {
    [Entry(AckOf(number + 1, gameId, position, id, made), ToPlayer, mover),
     Entry(MoveBroadcast(number + 2, gameId, position, made.symbol, mover, made.sequenceInGame,
                         made.board, made.nextTurn), ToOthers, mover)]
  }

  class GameSession {
    const roomId: RoomId
    const history: HistoryRepository
    var gameState: Option<GameState>
    var sessionSeq: nat
    var rematch: Option<Proposal>
    var completedGames: seq<CompletedGame>
    var replayBuffer: seq<Entry>
    var reconnectTimers: map<PlayerId, nat>
    var timers: map<nat, Timer>
    var nextTimer: nat
    ghost var log: seq<Entry>
    ghost var sent: seq<Entry>

    ghost function View(): Session
      reads this
    {
      Session(roomId, gameState, sessionSeq, rematch, completedGames, replayBuffer, reconnectTimers, timers,
              nextTimer, log, sent)
    }

    /** A running game has no result yet. */
    ghost predicate Valid()
      reads this
    {
      IsActive(View()) ==> gameState.value.result.None?
    }

    constructor (roomId: RoomId, history: HistoryRepository)
      ensures Valid()
      ensures this.history == history && View() == NewSession(roomId, history.history)
    {
      var games := history.LoadCompletedGames(roomId);
      this.roomId, this.history := roomId, history;
      gameState, sessionSeq, rematch := None, 0, None;
      completedGames := games;
      replayBuffer, reconnectTimers, timers, nextTimer := [], map[], map[], 0;
      log, sent := [], [];
    }

    method NextSeq() returns (number: nat)
      modifies this`sessionSeq
      ensures View() == Allocate(old(View())) && number == sessionSeq
    {
      sessionSeq := sessionSeq + 1;
      number := sessionSeq;
    }

    method ResetSeq()
      modifies this`sessionSeq, this`replayBuffer, this`log
      ensures View() == Reset(old(View()))
    {
      sessionSeq := 0;
      replayBuffer := [];
      log := [];
    }

    method Emit(target: Target, playerId: PlayerId, event: Event)
      modifies this`replayBuffer, this`log, this`sent
      ensures View() == if event.Error? then old(View()).(sent := old(sent) + [Entry(event, target, playerId)])
                        else Emitted(old(View()), Entry(event, target, playerId))
    {
      var entry := Entry(event, target, playerId);
      if !event.Error? {
        replayBuffer := replayBuffer + [entry];
        if |replayBuffer| > EVENT_BUFFER_SIZE {
          replayBuffer := replayBuffer[|replayBuffer| - EVENT_BUFFER_SIZE..];
        }
        log := log + [entry];
      }
      sent := sent + [entry];
    }

    method ReportError(playerId: PlayerId, code: ErrorCode)
      modifies this`replayBuffer, this`log, this`sent
      ensures View() == SendError(old(View()), playerId, code)
    {
      Emit(ToPlayer, playerId, Error(code));
    }

    method Start(room: Room, firstTurn: Symbol, gameId: GameId, now: int)
      requires Valid()
      modifies this
      ensures Valid()
      ensures View() == Begin(old(View()), room, firstTurn, gameId, now)
    {
      if room.playerX.None? || room.playerO.None? {
        return;
      }
      ResetSeq();
      var x, o := room.playerX.value, room.playerO.value;
      var state := StartGame(StartCommand(gameId, roomId, x.playerId, o.playerId, firstTurn, now));
      gameState := Some(state);
      var number := NextSeq();
      var event := GameStarted(number, gameId, state.board, firstTurn, InfoOf(x), InfoOf(o), now);
      Emit(Broadcast, x.playerId, event);
    }

    method HandleMoveCommand(playerId: PlayerId, gameId: GameId, position: RawPosition, id: CommandId, now: int)
      returns (response: Option<Event>)
      requires Valid()
      modifies this, history
      ensures Valid()
      ensures MoveOutcome(View(), history.history, response) ==
              HandleMove(old(View()), old(history.history), playerId, gameId, position, id, now)
    {
      if gameState.None? {
        ReportError(playerId, NoActiveGame);
        return None;
      }
      var state := gameState.value;
      if state.gameId != gameId {
        ReportError(playerId, WrongGameId);
        return None;
      }
      if state.status != Active {
        ReportError(playerId, NoActiveGame);
        return None;
      }
      response := MoveInRunningGame(playerId, position, id, now);
    }

    method MoveInRunningGame(playerId: PlayerId, position: RawPosition, id: CommandId, now: int)
      returns (response: Option<Event>)
      requires gameState.Some? && gameState.value.status == Active
      requires Valid()
      modifies this, history
      ensures Valid()
      ensures MoveOutcome(View(), history.history, response) ==
              HandleMove(old(View()), old(history.history), playerId, old(gameState).value.gameId, position, id, now)
    {
      hide ApplyMove;
      hide Trim;
      var state := gameState.value;
      var command := MoveCommand(playerId, position.row, position.col, id, now);
      var result := ApplyMove(state, command);
      if result.Rejected? {
        var number := NextSeq();
        var refusal := MoveRejected(number, state.gameId, position, result.reason, state.board, state.currentTurn, id);
        Emit(ToPlayer, playerId, refusal);
        return Some(refusal);
      }
      MoveEvents(state, command);
      MoveShape(state, command);
      hide PlaceMark;
      PlaceShape(state, state.currentTurn, Pos(position.row, position.col), now);
      response := AcceptMove(playerId, position, id, result.newState, result.events);
    }

    /** Install the new state and tell everybody. */
    method AcceptMove(
      playerId: PlayerId, position: RawPosition, id: CommandId, next: GameState, events: seq<EngineEvent>
    ) returns (response: Option<Event>)
      requires gameState.Some? && next.gameId == gameState.value.gameId && ReportsMove(events)
      requires |events| == (if next.result.Some? then 2 else 1) && (next.status == Active ==> next.result.None?)
      requires next.result.Some? ==>
                 events[1] == Ended(next.gameId, next.result.value, next.board, next.moveHistory)
      modifies this, history
      ensures Valid()
      ensures var s := old(View());
              var saving := if next.result.Some? then Remember(s, old(history.history), next)
                            else Saving(s.(game := Some(next)), old(history.history));
              && View() == Announce(saving.session, MoveNews(s, playerId, position, id, next, events[0]))
              && history.history == saving.store
              && response == Some(AckOf(s.seqNo + 1, next.gameId, position, id, events[0]))
    {
      hide Trim;
      hide Announce;
      hide Remember;
      hide EndNews;
      ghost var s := View();
      gameState := Some(next);
      var ack := AnswerMove(playerId, position, id, next.gameId, events[0]);
      ghost var both := MoveAnswers(s.seqNo, playerId, position, id, next.gameId, events[0]);
      if |events| == 2 {
        AnnounceNumbers(s.(game := Some(next)), both);
        EmitGameFinished(events[1].result, events[1].finalBoard, events[1].moveHistory, playerId);
        RememberThenAnnounce(s, old(history.history), next, both, EndNews(s.seqNo + 3, next, playerId));
      }
      assert MoveNews(s, playerId, position, id, next, events[0]) ==
             both + if next.result.Some? then EndNews(s.seqNo + 3, next, playerId) else [];
      assert both + [] == both;
      return Some(ack);
    }

    /** The mover is sent the acknowledgement, everybody else the broadcast. */
    method AnswerMove(playerId: PlayerId, position: RawPosition, id: CommandId, gameId: GameId, made: EngineEvent)
      returns (ack: Event)
      requires made.MoveMade?
      modifies this`sessionSeq, this`replayBuffer, this`log, this`sent
      ensures ack == AckOf(old(sessionSeq) + 1, gameId, position, id, made)
      ensures View() == Announce(old(View()), MoveAnswers(old(sessionSeq), playerId, position, id, gameId, made))
    {
      hide Trim;
      ghost var s := View();
      var ackSeq := NextSeq();
      ack := MoveAck(ackSeq, gameId, position, made.symbol, made.sequenceInGame, made.board, made.nextTurn, id);
      Emit(ToPlayer, playerId, ack);
      NumberedIsAnnounced(s, Entry(ack, ToPlayer, playerId));
      ghost var half := View();
      var number := NextSeq();
      var broadcast := MoveBroadcast(number, gameId, position, made.symbol, playerId, made.sequenceInGame,
                                     made.board, made.nextTurn);
      Emit(ToOthers, playerId, broadcast);
      NumberedIsAnnounced(half, Entry(broadcast, ToOthers, playerId));
      AnnounceTwice(s, [Entry(ack, ToPlayer, playerId)], [Entry(broadcast, ToOthers, playerId)]);
      assert [Entry(ack, ToPlayer, playerId)] + [Entry(broadcast, ToOthers, playerId)] ==
             MoveAnswers(s.seqNo, playerId, position, id, gameId, made);
    }

    method EmitGameFinished(result: GameResult, finalBoard: Board, moveHistory: seq<MoveRecord>, fromPlayer: PlayerId)
      requires gameState.Some? && gameState.value.result == Some(result)
      requires gameState.value.board == finalBoard && gameState.value.moveHistory == moveHistory
      modifies this`completedGames, this`sessionSeq, this`replayBuffer, this`log, this`sent, history
      ensures Saving(View(), history.history) ==
              Conclude(old(View()), old(history.history), old(gameState).value, fromPlayer)
    {
      hide Trim;
      var state := gameState.value;
      var timed := state.endedAt.GetOr(0) != 0 && state.firstMoveAt.GetOr(0) != 0;
      var stats := GameStats(|moveHistory|, if timed then state.endedAt.value - state.firstMoveAt.value else 0,
                             state.firstMoveAt);
      var number := NextSeq();
      var event := GameFinished(number, state.gameId, result, finalBoard, moveHistory, stats);
      var completed := CompletedGame(state.gameId, result.outcome, result.winner, |moveHistory|, state.createdAt,
                                     result.endedAt, finalBoard, result, moveHistory);
      var known := KnowsGame(completed.gameId);
      if !known {
        completedGames := [completed] + completedGames;
        history.SaveCompletedGame(roomId, completed);
      }
      Emit(Broadcast, fromPlayer, event);
    }

    method KnowsGame(gameId: GameId) returns (known: bool)
      ensures known <==> Recorded(completedGames, gameId)
    {
      for i := 0 to |completedGames|
        invariant forall j | 0 <= j < i :: completedGames[j].gameId != gameId
      {
        if completedGames[i].gameId == gameId {
          return true;
        }
      }
      return false;
    }

    method Forfeit(playerId: PlayerId, now: int)
      requires Valid()
      modifies this, history
      ensures Valid()
      ensures Saving(View(), history.history) == HandleForfeit(old(View()), old(history.history), playerId, now)
    {
      if gameState.None? || gameState.value.status != Active {
        return;
      }
      hide Announce;
      hide Remember;
      ghost var before := View();
      var ended := ForfeitGame(gameState.value, playerId, now);
      gameState := Some(ended);
      EmitGameFinished(ended.result.value, ended.board, ended.moveHistory, playerId);
      ConcludeIgnoresGame(before, old(history.history), ended, playerId);
    }

    method Abandon(playerId: PlayerId, now: int)
      requires Valid()
      modifies this, history
      ensures Valid()
      ensures Saving(View(), history.history) == HandleAbandon(old(View()), old(history.history), playerId, now)
    {
      if gameState.None? || gameState.value.status != Active {
        return;
      }
      hide Announce;
      hide Remember;
      ghost var before := View();
      var ended := AbandonGame(gameState.value, playerId, now);
      gameState := Some(ended);
      EmitGameFinished(ended.result.value, ended.board, ended.moveHistory, playerId);
      ConcludeIgnoresGame(before, old(history.history), ended, playerId);
    }

    method SetTimer(timer: Timer) returns (id: nat)
      modifies this`timers, this`nextTimer
      ensures id == old(nextTimer) && nextTimer == id + 1 && timers == old(timers)[id := timer]
    {
      id := nextTimer;
      timers := timers[id := timer];
      nextTimer := nextTimer + 1;
    }

    method ClearTimer(id: nat)
      modifies this`timers
      ensures timers == old(timers) - {id}
    {
      timers := timers - {id};
    }

    method HandleRematchRequest(room: Room, playerId: PlayerId, gameId: GameId, now: int) returns (done: bool)
      requires Valid()
      modifies this
      ensures Valid()
      ensures View() == RequestRematch(old(View()), room, playerId, gameId, now)
      ensures done == MayRequest(old(View()), room, playerId, gameId)
    {
      hide Trim;
      if gameState.None? || gameState.value.status != Finished || gameState.value.gameId != gameId {
        return false;
      }
      if rematch.Some? || SymbolOf(room, playerId).None? {
        return false;
      }
      var symbol := SymbolOf(room, playerId).value;
      var expiresAt := now + REMATCH_TIMEOUT_MS;
      var timer := SetTimer(RematchTimer(gameId));
      rematch := Some(Proposal(symbol, now, expiresAt, {symbol}, timer));
      var number := NextSeq();
      Emit(Broadcast, playerId, RematchRequested(number, gameId, symbol, expiresAt));
      return true;
    }

    /** `readyReset` tells the caller to empty the room's readiness set. */
    method HandleRematchAccept(room: Room, playerId: PlayerId, gameId: GameId, newGameId: GameId, now: int)
      returns (done: bool, readyReset: bool)
      requires Valid()
      modifies this
      ensures Valid()
      ensures View() == AcceptRematch(old(View()), room, playerId, gameId, newGameId, now)
      ensures done == MayAccept(old(View()), room, playerId, gameId)
      ensures readyReset == Agreed(old(View()), room, playerId, gameId)
    {
      hide Begin;
      if gameState.None? || gameState.value.status != Finished || gameState.value.gameId != gameId {
        return false, false;
      }
      if rematch.None? || SymbolOf(room, playerId).None? {
        return false, false;
      }
      var symbol := SymbolOf(room, playerId).value;
      var accepted := rematch.value.acceptedBy + {symbol};
      if |accepted| == 2 {
        var state := gameState.value;
        ClearTimer(rematch.value.timer);
        rematch := None;
        var firstTurn := CreateRematch(state, newGameId, now).firstTurn;
        Start(room.(readySymbols := {}), firstTurn, newGameId, now);
        return true, true;
      }
      rematch := Some(rematch.value.(acceptedBy := accepted));
      return true, false;
    }

    method HandleRematchDecline(room: Room, playerId: PlayerId, gameId: GameId) returns (done: bool)
      requires Valid()
      modifies this
      ensures Valid()
      ensures View() == DeclineRematch(old(View()), room, playerId, gameId)
      ensures done == (old(rematch).Some? && SymbolOf(room, playerId).Some?)
    {
      if rematch.None? || SymbolOf(room, playerId).None? {
        return false;
      }
      ClearTimer(rematch.value.timer);
      rematch := None;
      var number := NextSeq();
      // Sent without being emitted, so it never reaches the replay buffer.
      sent := sent + [Entry(RematchDeclined(number, gameId, SymbolOf(room, playerId).value), Broadcast, playerId)];
      return true;
    }

    /** The runtime fires the rematch timer `id`. */
    method ExpireRematch(room: Room, id: nat)
      requires id in timers && timers[id].RematchTimer?
      requires Valid()
      modifies this
      ensures Valid()
      ensures View() == FireRematch(old(View()), room, id)
    {
      hide Trim;
      var gameId := timers[id].gameId;
      timers := timers - {id};
      if rematch.None? {
        return;
      }
      rematch := None;
      var anyPlayer := if room.playerX.Some? then room.playerX else room.playerO;
      if anyPlayer.None? {
        return;
      }
      var number := NextSeq();
      Emit(Broadcast, anyPlayer.value.playerId, RematchExpired(number, gameId));
    }

    method ClearReconnectWindow(playerId: PlayerId)
      requires Valid()
      modifies this`timers, this`reconnectTimers
      ensures Valid()
      ensures View() == ClearWindow(old(View()), playerId)
    {
      if playerId in reconnectTimers {
        ClearTimer(reconnectTimers[playerId]);
        reconnectTimers := reconnectTimers - {playerId};
      }
    }

    method StartReconnectWindow(room: Room, playerId: PlayerId, now: int)
      requires Valid()
      modifies this
      ensures Valid()
      ensures View() == OpenWindow(old(View()), room, playerId, now)
    {
      hide Trim;
      ClearReconnectWindow(playerId);
      var symbol := SymbolOf(room, playerId);
      var opponent := OpponentSlot(room, playerId);
      var deadline := now + RECONNECT_WINDOW_MS;
      if symbol.Some? && opponent.Some? && opponent.value.connected {
        var number := NextSeq();
        Emit(ToPlayer, opponent.value.playerId, OpponentDisconnected(number, symbol.value, deadline));
      }
      var timer := SetTimer(ReconnectTimer(playerId, symbol));
      reconnectTimers := reconnectTimers[playerId := timer];
    }

    method NotifyOpponentReconnected(room: Room, playerId: PlayerId)
      requires Valid()
      modifies this
      ensures Valid()
      ensures View() == NotifyReconnected(old(View()), room, playerId)
    {
      hide Trim;
      var symbol := SymbolOf(room, playerId);
      var opponent := OpponentSlot(room, playerId);
      if symbol.Some? && opponent.Some? && opponent.value.connected {
        var number := NextSeq();
        Emit(ToPlayer, opponent.value.playerId, OpponentReconnected(number, symbol.value));
      }
    }

    /** The runtime fires the reconnect timer `id`; the caller then frees the slot of `leaver`. */
    method ReconnectWindowExpired(id: nat, now: int) returns (leaver: PlayerId)
      requires id in timers && timers[id].ReconnectTimer?
      requires Valid()
      modifies this, history
      ensures Valid()
      ensures Saving(View(), history.history) == FireReconnect(old(View()), old(history.history), id, now)
      ensures leaver == old(timers)[id].playerId
    {
      hide Trim;
      hide EndNews;
      hide Remember;
      var timer := timers[id];
      ghost var s := View();
      timers := timers - {id};
      ghost var fired := View();
      Abandon(timer.playerId, now);
      ghost var abandoned := View();
      if timer.symbol.Some? {
        var number := NextSeq();
        var event := PlayerLeft(number, timer.playerId, timer.symbol.value, DisconnectTimeout);
        Emit(Broadcast, timer.playerId, event);
        NumberedIsAnnounced(abandoned, Entry(event, Broadcast, timer.playerId));
      }
      assert View() == Announce(abandoned, LeftNews(abandoned.seqNo + 1, timer));
      FiredInTwoSteps(s, fired, old(history.history), timer, now);
      reconnectTimers := reconnectTimers - {timer.playerId};
      return timer.playerId;
    }

    /** The entries of the buffer a player is entitled to, from a number on. */
    method FilterBuffer(fromSeq: int, playerId: PlayerId) returns (relevant: seq<Event>)
      ensures relevant == Scoped(replayBuffer, fromSeq, playerId)
    {
      relevant := [];
      for i := 0 to |replayBuffer|
        invariant relevant == Scoped(replayBuffer[..i], fromSeq, playerId)
      {
        var entry := replayBuffer[i];
        assert replayBuffer[..i + 1][..i] == replayBuffer[..i];
        if entry.event.HasSeq() && entry.event.sessionSeq >= fromSeq && VisibleTo(entry, playerId) {
          relevant := relevant + [entry.event];
        }
      }
      assert replayBuffer[..|replayBuffer|] == replayBuffer;
    }

    method GetReplayEvents(fromSeq: int, playerId: PlayerId) returns (events: Option<seq<Event>>)
      ensures events == ReplayEvents(View(), fromSeq, playerId)
    {
      if fromSeq > sessionSeq {
        return Some([]);
      }
      var relevant := FilterBuffer(fromSeq, playerId);
      if relevant == [] {
        return Some([]);
      }
      if relevant[0].HasSeq() && relevant[0].sessionSeq > fromSeq {
        return None;
      }
      return Some(relevant);
    }

    method Teardown()
      requires Valid()
      modifies this
      ensures Valid()
      ensures View() == Destroy(old(View())) && reconnectTimers == map[] && rematch.None?
      ensures old(TimersMatch(View())) ==> timers == map[]
    {
      ghost var s := View();
      if TimersMatch(s) {
        DestroyTimers(s);
      }
      timers := map id | id in timers && id !in reconnectTimers.Values :: timers[id];
      reconnectTimers := map[];
      if rematch.Some? {
        ClearTimer(rematch.value.timer);
        rematch := None;
      }
    }
  }

  /** Taking a number and emitting is announcing one entry. */
  lemma NumberedIsAnnounced(s: Session, entry: Entry)
    ensures Emitted(Allocate(s), entry) == Announce(s, [entry])
  {
  }

  lemma AnnounceNumbers(s: Session, news: seq<Entry>)
    ensures Announce(s, news).seqNo == s.seqNo + |news|
  {
  }

  /** `Conclude` installs the final state itself, so it may be installed before. */
  lemma ConcludeIgnoresGame(s: Session, store: Store, ended: GameState, anchor: PlayerId)
    requires ended.result.Some?
    ensures Conclude(s.(game := Some(ended)), store, ended, anchor) == Conclude(s, store, ended, anchor)
  {
    hide Announce;
  }

  /** Emitting before or after remembering a finished game makes no difference. */
  lemma RememberThenAnnounce(s: Session, store: Store, next: GameState, a: seq<Entry>, b: seq<Entry>)
    requires next.result.Some?
    ensures var late := Remember(Announce(s.(game := Some(next)), a), store, next);
            var early := Remember(s, store, next);
            late.store == early.store && Announce(late.session, b) == Announce(early.session, a + b)
  {
    hide Trim;
    hide RecordOf;
    var early := Remember(s, store, next).session;
    AnnounceTwice(early, a, b);
  }

  /** Abandoning first and announcing the departure afterwards is firing the timer. */
  lemma FiredInTwoSteps(s: Session, fired: Session, store: Store, timer: Timer, now: int)
    requires timer.ReconnectTimer? && fired == s.(timers := fired.timers)
    ensures var ended := HandleAbandon(fired, store, timer.playerId, now);
            var saving := if IsActive(s) then Remember(fired, store, AbandonGame(s.game.value, timer.playerId, now))
                          else Saving(fired, store);
            && Announce(ended.session, LeftNews(ended.session.seqNo + 1, timer)) ==
               Announce(saving.session, FireNews(s, timer, now))
            && ended.store == saving.store && ended.session.reconnectTimers == s.reconnectTimers
  {
    hide Trim;
    hide RecordOf;
    hide StatsOf;
    if IsActive(s) {
      var ended := AbandonGame(s.game.value, timer.playerId, now);
      var saving := Remember(fired, store, ended);
      AnnounceTwice(saving.session, EndNews(s.seqNo + 1, ended, timer.playerId), LeftNews(s.seqNo + 2, timer));
    }
  }
}
