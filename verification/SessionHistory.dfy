/**
 A cell of a game is played at most once in a session's life, whatever is sent again; and every
 finished game leaves exactly one record, in the session's list and in the store alike.
 */
module SessionHistory {
  import opened Protocol
  import opened Engine
  import opened EngineLaws
  import opened History
  import opened SessionModel
  import opened SessionRuns

  // ---------- at most once ----------

  /** No two acknowledged moves name the same cell of the same game. */
  ghost predicate PlayedOnce(sent: seq<Entry>) {
    forall i, j | 0 <= i < j < |sent| && sent[i].event.MoveAck? && sent[j].event.MoveAck? ::
      sent[i].event.gameId != sent[j].event.gameId || sent[i].event.position != sent[j].event.position
  }

  predicate CellTaken(state: GameState, position: RawPosition) {
    IsValidPosition(position.row, position.col) &&
    state.board[PositionToIndex(position.row, position.col)] != Empty
  }

  /** The acknowledged moves of the game at hand stand on its board. */
  ghost predicate AcksStand(s: Session) {
    forall i | 0 <= i < |s.sent| && s.sent[i].event.MoveAck? && s.game.Some? ::
      s.sent[i].event.gameId == s.game.value.gameId ==> CellTaken(s.game.value, s.sent[i].event.position)
  }

  /** Every game id that occurs was handed out. */
  ghost predicate IdsKnown(w: World) {
    var s := w.session;
    && (s.game.Some? ==> s.game.value.gameId in w.used)
    && (forall i | 0 <= i < |s.sent| && s.sent[i].event.MoveAck? :: s.sent[i].event.gameId in w.used)
    && (forall i | 0 <= i < |s.completed| :: s.completed[i].gameId in w.used)
  }

  /** Whether an operation is a move the engine accepts. */
  predicate AcceptedMove(s: Session, op: Op) {
    && op.Moving? && Reaches(s, op.target)
    && var command := MoveCommand(op.playerId, op.position.row, op.position.col, op.commandId, op.now);
       ApplyMove(s.game.value, command).Accepted?
  }

  /** A MOVE_ACK goes out for accepted moves only, first, naming the game and the cell. */
  lemma NewsAcks(w: World, op: Op)
    ensures var news := News(w, op);
            && (forall i | 0 <= i < |news| && news[i].event.MoveAck? :: i == 0)
            && ((news != [] && news[0].event.MoveAck?) <==> AcceptedMove(w.session, op))
            && (AcceptedMove(w.session, op) ==>
                  news[0].event.gameId == op.target && news[0].event.position == op.position)
    ensures forall i | 0 <= i < |Unbuffered(w.session, op)| :: !Unbuffered(w.session, op)[i].event.MoveAck?
  {
    hide ApplyMove;
    hide PlaceMark;
    hide StatsOf;
    if AcceptedMove(w.session, op) {
      var state := w.session.game.value;
      var command := MoveCommand(op.playerId, op.position.row, op.position.col, op.commandId, op.now);
      MoveShape(state, command);
      PlaceShape(state, state.currentTurn, Pos(command.row, command.col), command.timestamp);
    }
  }

  /** What happens to the board: only an accepted move marks a cell, and it was empty before. */
  lemma BoardOnlyByMoves(s: Session, op: Op)
    requires s.game.Some? && !Starts(s, op)
    ensures NextGame(s, op).Some? && NextGame(s, op).value.gameId == s.game.value.gameId
    ensures !AcceptedMove(s, op) ==> NextGame(s, op).value.board == s.game.value.board
    ensures AcceptedMove(s, op) ==>
              && IsValidPosition(op.position.row, op.position.col)
              && !CellTaken(s.game.value, op.position)
              && NextGame(s, op).value.board ==
                 ApplyMark(s.game.value.board, Pos(op.position.row, op.position.col), s.game.value.currentTurn)
  {
    hide ApplyMove;
    hide PlaceMark;
    hide Agreed;
    if op.Moving? && Reaches(s, op.target) {
      var state := s.game.value;
      var command := MoveCommand(op.playerId, op.position.row, op.position.col, op.commandId, op.now);
      MoveShape(state, command);
      if ApplyMove(state, command).Accepted? {
        PlaceShape(state, state.currentTurn, Pos(command.row, command.col), command.timestamp);
      }
    }
  }

  lemma StartUsesFreshId(s: Session, op: Op)
    requires Starts(s, op)
    ensures op.Starting? || op.Accepting?
    ensures NextGame(s, op).Some? && NextGame(s, op).value.gameId == op.gameId && !AcceptedMove(s, op)
  {
  }

  lemma StepKeepsAcks(w: World, op: Op)
    requires PlayedOnce(w.session.sent) && AcksStand(w.session) && IdsKnown(w) && Fresh(w, op)
    ensures PlayedOnce(Step(w, op).session.sent) && AcksStand(Step(w, op).session)
  {
    hide Step;
    hide News;
    hide NextGame;
    hide Starts;
    hide SkipsNumber;
    hide Unbuffered;
    hide AcceptedMove;
    var s, t := w.session, Step(w, op).session;
    var news, extra := News(w, op), Unbuffered(s, op);
    StepAnnounces(w, op);
    StepGame(w, op);
    NewsAcks(w, op);
    assert t.sent == s.sent + (news + extra);
    if Starts(s, op) {
      StartUsesFreshId(s, op);
    } else if s.game.Some? {
      BoardOnlyByMoves(s, op);
      AckedIsRunning(s, op);
    } else {
      NoGameNoMove(s, op);
    }
  }

  lemma NoGameNoMove(s: Session, op: Op)
    requires s.game.None? && !Starts(s, op)
    ensures NextGame(s, op).None? && !AcceptedMove(s, op)
  {
  }

  // ---------- records ----------

  predicate NoRepeats(games: seq<CompletedGame>) {
    forall i, j | 0 <= i < j < |games| :: games[i].gameId != games[j].gameId
  }

  /** A record whose board is the replay of its moves and whose count is their number. */
  predicate ExactRecord(game: CompletedGame) {
    && game.finalBoard == BoardOf(game.moveHistory)
    && game.moveCount == |game.moveHistory|
    && game.result.outcome == game.outcome && game.result.winner == game.winner
  }

  predicate ExactRecords(games: seq<CompletedGame>) {
    forall i | 0 <= i < |games| :: ExactRecord(games[i])
  }

  /** The session's list is the store's, without repetitions; a running game is not in it yet. */
  ghost predicate HistoryAgrees(w: World) {
    var s := w.session;
    && s.completed == GamesOf(w.store, s.roomId)
    && NoRepeats(s.completed)
    && ExactRecords(s.completed)
    && (IsActive(s) ==> !Recorded(s.completed, s.game.value.gameId))
  }

  /** Whether an operation ends the running game. */
  predicate Ends(s: Session, op: Op) {
    IsActive(s) && !Starts(s, op) && NextGame(s, op).Some? && NextGame(s, op).value.result.Some?
  }

  /** Ending the running game is the only thing that touches the records. */
  lemma StepRecords(w: World, op: Op)
    requires GameSound(w.session)
    ensures RecordsFollow(w, op)
  {
    hide Step;
    hide RecordsFollow;
    match op
    case Moving(_, _, _, _, _) => MoveRecords(w, op);
    case Forfeiting(_, _) => GivingUpRecords(w, op);
    case FiringReconnect(_, _) => GivingUpRecords(w, op);
    case _ => RestRecords(w, op);
  }

  /** The records after an operation: those of remembering the game it ended, or those before. */
  ghost predicate RecordsFollow(w: World, op: Op) {
    var s, v := w.session, Step(w, op);
    if Ends(s, op) then
      var saving := Remember(s, w.store, NextGame(s, op).value);
      v.session.completed == saving.session.completed && v.store == saving.store
    else v.session.completed == s.completed && v.store == w.store
  }

  lemma MoveRecords(w: World, op: Op)
    requires GameSound(w.session) && op.Moving?
    ensures RecordsFollow(w, op)
  {
    hide ApplyMove;
    hide PlaceMark;
    hide Trim;
    hide WellPlayed;
    hide RecordOf;
    hide EndNews;
    var s := w.session;
    if IsActive(s) {
      RunningHasNoResult(s.game.value);
    }
    if Reaches(s, op.target) {
      MoveShape(s.game.value,
                MoveCommand(op.playerId, op.position.row, op.position.col, op.commandId, op.now));
    }
  }

  lemma GivingUpRecords(w: World, op: Op)
    requires GameSound(w.session) && (op.Forfeiting? || op.FiringReconnect?)
    ensures RecordsFollow(w, op)
  {
    hide Trim;
    hide WellPlayed;
    hide RecordOf;
    hide EndNews;
    hide FireNews;
    if IsActive(w.session) {
      RunningHasNoResult(w.session.game.value);
    }
  }

  lemma RestRecords(w: World, op: Op)
    requires GameSound(w.session) && !op.Moving? && !op.Forfeiting? && !op.FiringReconnect?
    ensures RecordsFollow(w, op)
  {
    hide Announce;
    hide WellPlayed;
    hide RecordOf;
    hide Remember;
    AllAnnouncementsKeepRecords();
    if IsActive(w.session) {
      RunningHasNoResult(w.session.game.value);
    }
  }

  lemma AllAnnouncementsKeepRecords()
    ensures forall s, news :: Announce(s, news).completed == s.completed
  {
  }

  lemma RunningHasNoResult(state: GameState)
    requires WellPlayed(state) && state.status == Active
    ensures state.result.None?
  {
  }

  lemma RememberAgrees(w: World, ended: GameState)
    requires HistoryAgrees(w) && WellPlayed(ended) && ended.result.Some?
    requires !Recorded(w.session.completed, ended.gameId)
    ensures var saving := Remember(w.session, w.store, ended);
            && saving.session.completed == [RecordOf(ended)] + w.session.completed
            && saving.session.completed == GamesOf(saving.store, w.session.roomId)
            && NoRepeats(saving.session.completed) && ExactRecords(saving.session.completed)
  {
    hide WellPlayed;
    hide RecordOf;
    hide NoRepeats;
    hide ExactRecords;
    hide IsActive;
    RecordIsExact(ended);
    OneMoreRecord(RecordOf(ended), w.session.completed);
  }

  lemma OneMoreRecord(game: CompletedGame, games: seq<CompletedGame>)
    requires ExactRecord(game) && !Recorded(games, game.gameId) && NoRepeats(games) && ExactRecords(games)
    ensures NoRepeats([game] + games) && ExactRecords([game] + games)
  {
    hide ExactRecord;
  }

  lemma RecordIsExact(ended: GameState)
    requires WellPlayed(ended) && ended.result.Some?
    ensures ExactRecord(RecordOf(ended)) && RecordOf(ended).gameId == ended.gameId
  {
  }

  lemma ResultMeansFinished(state: GameState)
    requires WellPlayed(state) && state.result.Some?
    ensures state.status == Finished
  {
  }

  lemma {:induction false} StepKeepsHistory(w: World, op: Op)
    requires HistoryAgrees(w) && IdsKnown(w) && GameSound(w.session) && Fresh(w, op)
    ensures HistoryAgrees(Step(w, op))
    ensures Ends(w.session, op) ==>
              Step(w, op).session.completed == [RecordOf(NextGame(w.session, op).value)] + w.session.completed
  {
    hide Step;
    hide News;
    hide NextGame;
    hide Starts;
    hide WellPlayed;
    hide RecordOf;
    hide Announce;
    hide ExactRecord;
    var s := w.session;
    StepAnnounces(w, op);
    StepGame(w, op);
    StepRecords(w, op);
    StepKeepsGameSound(w, op);
    if Starts(s, op) {
      StartUsesFreshId(s, op);
    } else if s.game.Some? {
      BoardOnlyByMoves(s, op);
      if Ends(s, op) {
        ResultMeansFinished(NextGame(s, op).value);
        RememberAgrees(w, NextGame(s, op).value);
      } else if IsActive(Step(w, op).session) {
        ActiveBefore(s, op);
      }
    } else {
      NoGameNoMove(s, op);
    }
  }

  /** No operation revives a finished game. */
  lemma ActiveBefore(s: Session, op: Op)
    requires s.game.Some? && !Starts(s, op) && NextGame(s, op).Some? && NextGame(s, op).value.status == Active
    ensures IsActive(s)
  {
    hide ApplyMove;
  }

  lemma StepKeepsIds(w: World, op: Op)
    requires IdsKnown(w) && GameSound(w.session)
    ensures IdsKnown(Step(w, op)) && w.used <= Step(w, op).used
  {
    hide Step;
    hide News;
    hide NextGame;
    hide Starts;
    hide SkipsNumber;
    hide Unbuffered;
    hide AcceptedMove;
    hide WellPlayed;
    hide RecordOf;
    var s, t := w.session, Step(w, op).session;
    var news, extra := News(w, op), Unbuffered(s, op);
    StepAnnounces(w, op);
    StepGame(w, op);
    StepRecords(w, op);
    StepUsed(w, op);
    NewsAcks(w, op);
    assert t.sent == s.sent + (news + extra);
    if Starts(s, op) {
      StartUsesFreshId(s, op);
    } else if s.game.Some? {
      BoardOnlyByMoves(s, op);
      AckedIsRunning(s, op);
    } else {
      NoGameNoMove(s, op);
    }
    if Ends(s, op) {
      RecordKeepsId(NextGame(s, op).value);
    }
  }

  lemma RecordKeepsId(state: GameState)
    requires state.result.Some?
    ensures RecordOf(state).gameId == state.gameId
  {
  }

  lemma AckedIsRunning(s: Session, op: Op)
    ensures AcceptedMove(s, op) ==> s.game.Some? && op.target == s.game.value.gameId
  {
    hide ApplyMove;
  }

  lemma StepUsed(w: World, op: Op)
    ensures Step(w, op).used == w.used + if op.Starting? || op.Accepting? then {op.gameId} else {}
  {
    hide HandleMove;
    hide HandleForfeit;
    hide FireReconnect;
  }

  // ---------- over runs ----------

  ghost predicate SessionSound(w: World) {
    PlayedOnce(w.session.sent) && AcksStand(w.session) && IdsKnown(w) && HistoryAgrees(w) && GameSound(w.session)
  }

  lemma StepKeepsSound(w: World, op: Op)
    requires SessionSound(w) && Fresh(w, op)
    ensures SessionSound(Step(w, op))
  {
    hide Step;
    hide Fresh;
    StepKeepsAcks(w, op);
    StepKeepsIds(w, op);
    StepKeepsHistory(w, op);
    StepKeepsGameSound(w, op);
  }

  /** A store that was written by this program: no repetitions, exact records, known ids. */
  ghost predicate StoreSound(games: seq<CompletedGame>, used: set<GameId>) {
    && NoRepeats(games)
    && ExactRecords(games)
    && forall i | 0 <= i < |games| :: games[i].gameId in used
  }

  lemma {:induction false} RunIsSound(w: World, ops: seq<Op>)
    requires Created(w) && StoreSound(w.session.completed, w.used) && AllFresh(w, ops)
    ensures SessionSound(Run(w, ops))
  {
    hide Step;
    hide AllFresh;
    hide Fresh;
    if ops != [] {
      FreshPrefix(w, ops);
      RunIsSound(w, ops[..|ops| - 1]);
      StepKeepsSound(Run(w, ops[..|ops| - 1]), ops[|ops| - 1]);
    }
  }

  /**
   At most once: whatever is played, sent again or started anew, no two moves acknowledged in a
   session's life name the same cell of the same game; and a move that was acknowledged once,
   sent again by anybody at any later time, leaves the game as it is and is not acknowledged.
   */
  lemma {:induction false} AtMostOnce(
    w: World, ops: seq<Op>, i: nat, sender: PlayerId, id: CommandId, now: int
  )
    requires Created(w) && StoreSound(w.session.completed, w.used) && AllFresh(w, ops)
    requires i < |Run(w, ops).session.sent| && Run(w, ops).session.sent[i].event.MoveAck?
    ensures PlayedOnce(Run(w, ops).session.sent)
    ensures var s := Run(w, ops).session;
            var ack := s.sent[i].event;
            var again := HandleMove(s, Run(w, ops).store, sender, ack.gameId, ack.position, id, now);
            && again.session.game == s.game && again.store == Run(w, ops).store
            && (again.response.None? || again.response.value.MoveRejected?)
  {
    hide Run;
    hide HandleMove;
    hide IdsKnown;
    hide GameSound;
    hide HistoryAgrees;
    hide AllFresh;
    hide StoreSound;
    RunIsSound(w, ops);
    var s := Run(w, ops).session;
    ResentMove(s, Run(w, ops).store, s.sent[i].event, sender, id, now);
  }

  lemma ResentMove(s: Session, store: Store, ack: Event, sender: PlayerId, id: CommandId, now: int)
    requires ack.MoveAck?
    requires s.game.Some? && s.game.value.gameId == ack.gameId ==> CellTaken(s.game.value, ack.position)
    ensures var again := HandleMove(s, store, sender, ack.gameId, ack.position, id, now);
            && again.session.game == s.game && again.store == store
            && (again.response.None? || again.response.value.MoveRejected?)
  {
    hide ApplyMove;
    hide Trim;
    if Reaches(s, ack.gameId) {
      MoveShape(s.game.value, MoveCommand(sender, ack.position.row, ack.position.col, id, now));
    }
  }

  /**
   History agreement: the list of a session is the store's list for its room, newest first,
   without repetitions, every board the replay of its moves; and the operation that ends a game
   adds exactly that game's record in front.
   */
  lemma {:induction false} HistoryAgreement(w: World, ops: seq<Op>, op: Op)
    requires Created(w) && StoreSound(w.session.completed, w.used) && AllFresh(w, ops) && Fresh(Run(w, ops), op)
    ensures var v := Run(w, ops);
            && v.session.completed == GamesOf(v.store, v.session.roomId)
            && NoRepeats(v.session.completed) && ExactRecords(v.session.completed)
            && Step(v, op).session.completed ==
               (if Ends(v.session, op) then [RecordOf(NextGame(v.session, op).value)] else []) + v.session.completed
  {
    hide Run;
    hide Step;
    hide Ends;
    hide NextGame;
    hide Remember;
    hide RecordOf;
    hide PlayedOnce;
    hide AcksStand;
    hide IdsKnown;
    hide GameSound;
    hide NoRepeats;
    hide ExactRecords;
    hide AllFresh;
    hide StoreSound;
    hide Fresh;
    RunIsSound(w, ops);
    var v := Run(w, ops);
    StepKeepsHistory(v, op);
    StepRecords(v, op);
    assert [] + v.session.completed == v.session.completed;
  }
}
