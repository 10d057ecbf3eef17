/**
 What every run of the engine keeps: the board is the replay of the move history,
 turns alternate, and the recorded outcome says exactly what the board shows.
 */
module EngineLaws {
  import opened Protocol
  import opened Engine

  /** What can be done to a running game.  The session layer ends only ACTIVE games. */
  datatype Action =
    | Play(command: MoveCommand)
    | Surrender(playerId: PlayerId, timestamp: int)
    | Desert(playerId: PlayerId, timestamp: int)

  function Act(state: GameState, action: Action): GameState {
    match action
    case Play(command) => ApplyMove(state, command).newState
    case Surrender(p, t) => if state.status == Active then ForfeitGame(state, p, t) else state
    case Desert(p, t) => if state.status == Active then AbandonGame(state, p, t) else state
  }

  function RunGame(start: StartCommand, actions: seq<Action>): GameState {
    if actions == [] then StartGame(start)
    else Act(RunGame(start, actions[..|actions| - 1]), actions[|actions| - 1])
  }

  function TurnAt(first: Symbol, i: nat): Symbol {
    if i % 2 == 0 then first else Opponent(first)
  }

  predicate NoLines(board: Board) {
    !HasLine(board, X) && !HasLine(board, O)
  }

  // ---------- the invariant ----------

  ghost predicate Alternates(s: GameState) {
    forall i | 0 <= i < |s.moveHistory| ::
      && s.moveHistory[i].sequenceInGame == i + 1
      && s.moveHistory[i].symbol == TurnAt(s.firstTurn, i)
  }

  ghost predicate Counted(s: GameState) {
    var n := |s.moveHistory|;
    && n <= 9
    && multiset(s.board)[Mark(s.firstTurn)] == (n + 1) / 2
    && multiset(s.board)[Mark(Opponent(s.firstTurn))] == n / 2
    && multiset(s.board)[Empty] == 9 - n
  }

  ghost predicate OutcomeHolds(s: GameState, result: GameResult) {
    var n := |s.moveHistory|;
    match result.outcome
    case Win =>
      && result.winner.Some? && result.winningLine.Some? && result.reason == ThreeInARow
      && n > 0 && s.moveHistory[n - 1].symbol == result.winner.value
      && HasLine(s.board, result.winner.value)
      && result.winningLine == WinLine(s.board, result.winner.value)
      && !HasLine(s.board, Opponent(result.winner.value))
      && s.currentTurn == result.winner.value
    case Draw =>
      && result.winner.None? && result.winningLine.None? && result.reason == EndReason.BoardFull
      && n > 0 && s.currentTurn == s.moveHistory[n - 1].symbol
      && IsBoardFull(s.board) && NoLines(s.board)
    case Forfeit =>
      && result.winningLine.None? && result.reason == PlayerForfeited && StillOpen(s)
    case Abandoned =>
      && result.winningLine.None? && result.reason == PlayerAbandoned && StillOpen(s)
  }

  /** The board and the turn of a game in which another move could be made. */
  ghost predicate StillOpen(s: GameState) {
    && NoLines(s.board)
    && !IsBoardFull(s.board)
    && s.currentTurn == TurnAt(s.firstTurn, |s.moveHistory|)
  }

  ghost predicate StatusHolds(s: GameState) {
    match s.status
    case Waiting => false
    case Active => s.result.None? && s.endedAt.None? && StillOpen(s)
    case Finished =>
      && s.result.Some?
      && s.endedAt == Some(s.result.value.endedAt)
      && OutcomeHolds(s, s.result.value)
  }

  ghost predicate WellPlayed(s: GameState) {
    && s.board == BoardOf(s.moveHistory)
    && Alternates(s)
    && Counted(s)
    && s.firstMoveAt == (if s.moveHistory == [] then None else Some(s.moveHistory[0].appliedAt))
    && StatusHolds(s)
  }

  // ---------- the lines ----------

  /** A row, a column or a diagonal: three cells in a line, in order. */
  predicate IsLine(line: WinningLine) {
    match line.kind
    case Row => line.a.row == line.b.row == line.c.row && line.a.col == 0 && line.b.col == 1 && line.c.col == 2
    case Col => line.a.col == line.b.col == line.c.col && line.a.row == 0 && line.b.row == 1 && line.c.row == 2
    case Diagonal =>
      && line.a.row == 0 && line.b == Pos(1, 1) && line.c.row == 2
      && line.a.col != 1 && line.c.col == 2 - line.a.col
  }

  /** The table lists every line of the board, and nothing else. */
  lemma TableIsComplete(line: WinningLine)
    ensures IsLine(line) <==> line in ALL_WINNING_LINES
  {
    if IsLine(line) {
      match line.kind
      case Row => assert line == ALL_WINNING_LINES[line.a.row];
      case Col => assert line == ALL_WINNING_LINES[3 + line.a.col];
      case Diagonal => assert line == ALL_WINNING_LINES[if line.a.col == 0 then 6 else 7];
    }
  }

  /** Cells `i`, `j` and `k` of the flat board carry this symbol. */
  predicate Three(board: Board, symbol: Symbol, i: nat, j: nat, k: nat)
    requires i < 9 && j < 9 && k < 9
  {
    board[i] == board[j] == board[k] == Mark(symbol)
  }

  /** A symbol has a line exactly if it fills a row, a column or a diagonal of the flat board. */
  lemma HasLineIff(board: Board, symbol: Symbol)
    ensures HasLine(board, symbol) <==>
            || Three(board, symbol, 0, 1, 2) || Three(board, symbol, 3, 4, 5) || Three(board, symbol, 6, 7, 8)
            || Three(board, symbol, 0, 3, 6) || Three(board, symbol, 1, 4, 7) || Three(board, symbol, 2, 5, 8)
            || Three(board, symbol, 0, 4, 8) || Three(board, symbol, 2, 4, 6)
  {
    hide Complete;
    hide Three;
    TableCells(board, symbol);
    hide ALL_WINNING_LINES;
  }

  lemma TableCells(board: Board, symbol: Symbol)
    ensures |ALL_WINNING_LINES| == 8
    ensures Complete(board, symbol, ALL_WINNING_LINES[0]) == Three(board, symbol, 0, 1, 2)
    ensures Complete(board, symbol, ALL_WINNING_LINES[1]) == Three(board, symbol, 3, 4, 5)
    ensures Complete(board, symbol, ALL_WINNING_LINES[2]) == Three(board, symbol, 6, 7, 8)
    ensures Complete(board, symbol, ALL_WINNING_LINES[3]) == Three(board, symbol, 0, 3, 6)
    ensures Complete(board, symbol, ALL_WINNING_LINES[4]) == Three(board, symbol, 1, 4, 7)
    ensures Complete(board, symbol, ALL_WINNING_LINES[5]) == Three(board, symbol, 2, 5, 8)
    ensures Complete(board, symbol, ALL_WINNING_LINES[6]) == Three(board, symbol, 0, 4, 8)
    ensures Complete(board, symbol, ALL_WINNING_LINES[7]) == Three(board, symbol, 2, 4, 6)
  {
    hide Complete;
    hide Three;
    var lines := ALL_WINNING_LINES;
    LineCells(board, symbol, lines[0], 0, 1, 2);
    LineCells(board, symbol, lines[1], 3, 4, 5);
    LineCells(board, symbol, lines[2], 6, 7, 8);
    LineCells(board, symbol, lines[3], 0, 3, 6);
    LineCells(board, symbol, lines[4], 1, 4, 7);
    LineCells(board, symbol, lines[5], 2, 5, 8);
    LineCells(board, symbol, lines[6], 0, 4, 8);
    LineCells(board, symbol, lines[7], 2, 4, 6);
  }

  lemma LineCells(board: Board, symbol: Symbol, line: WinningLine, i: nat, j: nat, k: nat)
    requires i < 9 && j < 9 && k < 9
    requires line.a.row * 3 + line.a.col == i && line.b.row * 3 + line.b.col == j && line.c.row * 3 + line.c.col == k
    ensures Complete(board, symbol, line) == Three(board, symbol, i, j, k)
  {
  }

  // ---------- the invariant is kept ----------

  lemma {:induction false} FirstLineExists(board: Board, symbol: Symbol, k: nat)
    requires k < |ALL_WINNING_LINES| && Complete(board, symbol, ALL_WINNING_LINES[k])
    ensures exists j: nat | j <= k :: FirstAt(board, symbol, j)
  {
    if !FirstAt(board, symbol, k) {
      var j :| 0 <= j < k && Complete(board, symbol, ALL_WINNING_LINES[j]);
      FirstLineExists(board, symbol, j);
    }
  }

  lemma WinLineExact(board: Board, symbol: Symbol)
    ensures WinLine(board, symbol).Some? <==> HasLine(board, symbol)
  {
    if HasLine(board, symbol) {
      var k: nat :| k < |ALL_WINNING_LINES| && Complete(board, symbol, ALL_WINNING_LINES[k]);
      FirstLineExists(board, symbol, k);
    }
  }

  lemma MarkingKeepsOpponentLines(board: Board, pos: Pos, symbol: Symbol)
    requires !HasLine(board, Opponent(symbol))
    ensures !HasLine(ApplyMark(board, pos, symbol), Opponent(symbol))
  {
    forall k | 0 <= k < |ALL_WINNING_LINES|
      ensures !Complete(ApplyMark(board, pos, symbol), Opponent(symbol), ALL_WINNING_LINES[k])
    {
      assert !Complete(board, Opponent(symbol), ALL_WINNING_LINES[k]);
    }
  }

  lemma EmptyBoardIsCounted()
    ensures forall c :: multiset(EMPTY_BOARD)[c] == if c == Empty then 9 else 0
    ensures NoLines(EMPTY_BOARD)
  {
  }

  lemma FullHasNoEmpty(board: Board)
    ensures IsBoardFull(board) <==> multiset(board)[Empty] == 0
  {
    assert IsBoardFull(board) <==> Empty !in board;
  }

  lemma StartIsWellPlayed(start: StartCommand)
    ensures WellPlayed(StartGame(start))
  {
    EmptyBoardIsCounted();
  }

  /** Which moves are accepted, and that a refused one leaves the state alone. */
  lemma MoveShape(s: GameState, command: MoveCommand)
    ensures ApplyMove(s, command).Accepted? <==>
            && s.status == Active
            && ResolveSymbol(s, command.playerId) == Some(s.currentTurn)
            && IsValidPosition(command.row, command.col)
            && s.board[PositionToIndex(command.row, command.col)] == Empty
    ensures ApplyMove(s, command).Accepted? ==>
            ApplyMove(s, command) ==
            PlaceMark(s, s.currentTurn, Pos(command.row, command.col), command.timestamp)
    ensures ApplyMove(s, command).Rejected? ==> ApplyMove(s, command).newState == s
  {
    hide PlaceMark;
  }

  /** What an accepted move writes, whether or not it ends the game. */
  lemma PlaceShape(s: GameState, symbol: Symbol, pos: Pos, timestamp: int)
    requires s.status == Active
    ensures var r := PlaceMark(s, symbol, pos, timestamp);
            && r.newState.board == ApplyMark(s.board, pos, symbol)
            && r.newState.moveHistory == s.moveHistory + [MoveRecord(|s.moveHistory| + 1, symbol, pos, timestamp)]
            && r.newState.firstMoveAt == Some(s.firstMoveAt.GetOr(timestamp))
            && r.newState.firstTurn == s.firstTurn
            && r.newState.playerX == s.playerX && r.newState.playerO == s.playerO
            && r.newState.gameId == s.gameId && r.newState.roomId == s.roomId
            && r.newState.createdAt == s.createdAt
            && r.newState.currentTurn ==
               (if r.newState.status == Finished then symbol else Opponent(symbol))
            && (r.newState.status == s.status || r.newState.status == Finished)
            && (r.newState.status == Finished ==>
                  r.newState.result.Some? && r.newState.endedAt == Some(timestamp) && !EndedByPlayer(r.newState))
            && (r.newState.status != Finished ==>
                  r.newState.result == s.result && r.newState.endedAt == s.endedAt)
  {
    hide WinLine;
    hide IsBoardFull;
  }

  lemma MarkingCounts(board: Board, pos: Pos, symbol: Symbol)
    requires board[PositionToIndex(pos.row, pos.col)] == Empty
    ensures var marked := multiset(ApplyMark(board, pos, symbol));
            && marked[Mark(symbol)] == multiset(board)[Mark(symbol)] + 1
            && marked[Mark(Opponent(symbol))] == multiset(board)[Mark(Opponent(symbol))]
            && marked[Empty] + 1 == multiset(board)[Empty]
  {
  }

  lemma MoveKeepsHistory(s: GameState, symbol: Symbol, pos: Pos, timestamp: int)
    requires WellPlayed(s) && s.status == Active && symbol == s.currentTurn
    ensures var t := PlaceMark(s, symbol, pos, timestamp).newState;
            && t.board == BoardOf(t.moveHistory) && Alternates(t)
            && t.firstMoveAt == Some(t.moveHistory[0].appliedAt)
  {
    hide PlaceMark;
    hide HasLine;
    hide Counted;
    PlaceShape(s, symbol, pos, timestamp);
    var t := PlaceMark(s, symbol, pos, timestamp).newState;
    assert t.moveHistory[..|t.moveHistory| - 1] == s.moveHistory;
  }

  lemma MoveKeepsCounts(s: GameState, symbol: Symbol, pos: Pos, timestamp: int)
    requires WellPlayed(s) && s.status == Active && symbol == s.currentTurn
    requires s.board[PositionToIndex(pos.row, pos.col)] == Empty
    ensures Counted(PlaceMark(s, symbol, pos, timestamp).newState)
  {
    hide PlaceMark;
    hide BoardOf;
    PlaceShape(s, symbol, pos, timestamp);
    MarkingCounts(s.board, pos, symbol);
  }

  lemma MoveKeepsStatus(s: GameState, symbol: Symbol, pos: Pos, timestamp: int)
    requires WellPlayed(s) && s.status == Active && symbol == s.currentTurn
    ensures StatusHolds(PlaceMark(s, symbol, pos, timestamp).newState)
  {
    hide BoardOf;
    hide WinLine;
    hide HasLine;
    var board := ApplyMark(s.board, pos, symbol);
    WinLineExact(board, symbol);
    MarkingKeepsOpponentLines(s.board, pos, symbol);
  }

  lemma MoveKeepsWellPlayed(s: GameState, command: MoveCommand)
    requires WellPlayed(s)
    ensures WellPlayed(ApplyMove(s, command).newState)
  {
    hide PlaceMark;
    hide ApplyMove;
    MoveShape(s, command);
    if ApplyMove(s, command).Accepted? {
      var pos := Pos(command.row, command.col);
      MoveKeepsHistory(s, s.currentTurn, pos, command.timestamp);
      MoveKeepsCounts(s, s.currentTurn, pos, command.timestamp);
      MoveKeepsStatus(s, s.currentTurn, pos, command.timestamp);
      PlaceShape(s, s.currentTurn, pos, command.timestamp);
    }
  }

  lemma ActKeepsWellPlayed(s: GameState, action: Action)
    requires WellPlayed(s)
    ensures WellPlayed(Act(s, action))
  {
    hide ApplyMove;
    hide BoardOf;
    hide HasLine;
    hide WinLine;
    if action.Play? {
      MoveKeepsWellPlayed(s, action.command);
    }
  }

  lemma {:induction false} RunIsWellPlayed(start: StartCommand, actions: seq<Action>)
    ensures WellPlayed(RunGame(start, actions))
  {
    if actions == [] {
      StartIsWellPlayed(start);
    } else {
      RunIsWellPlayed(start, actions[..|actions| - 1]);
      ActKeepsWellPlayed(RunGame(start, actions[..|actions| - 1]), actions[|actions| - 1]);
    }
  }

  /** A rematch is a new game of the same players in the same room, begun by the other symbol. */
  lemma RematchSwapsFirstTurn(previous: GameState, newGameId: GameId, timestamp: int)
    ensures var next := CreateRematch(previous, newGameId, timestamp);
            && next == StartGame(StartCommand(newGameId, previous.roomId, previous.playerX, previous.playerO,
                                              if previous.firstTurn == X then O else X, timestamp))
            && next.firstTurn != previous.firstTurn
            && CreateRematch(next, previous.gameId, timestamp).firstTurn == previous.firstTurn
            && WellPlayed(next)
  {
    hide WellPlayed;
    StartIsWellPlayed(StartCommand(newGameId, previous.roomId, previous.playerX, previous.playerO,
                                   Opponent(previous.firstTurn), timestamp));
  }

  // ---------- outcome exactness ----------

  /** Three cells of one symbol are needed for a line. */
  lemma LineNeedsThreeMarks(board: Board, symbol: Symbol)
    requires HasLine(board, symbol)
    ensures multiset(board)[Mark(symbol)] >= 3
  {
    hide Complete;
    var k :| 0 <= k < |ALL_WINNING_LINES| && Complete(board, symbol, ALL_WINNING_LINES[k]);
    LineIsThreeCells(k);
    CompleteNeedsThree(board, symbol, ALL_WINNING_LINES[k]);
  }

  lemma CompleteNeedsThree(board: Board, symbol: Symbol, line: WinningLine)
    requires line.a != line.b && line.b != line.c && line.a != line.c && Complete(board, symbol, line)
    ensures multiset(board)[Mark(symbol)] >= 3
  {
    ThreeCells(board, Mark(symbol), PositionToIndex(line.a.row, line.a.col),
               PositionToIndex(line.b.row, line.b.col), PositionToIndex(line.c.row, line.c.col));
  }

  lemma LineIsThreeCells(k: nat)
    requires k < |ALL_WINNING_LINES|
    ensures var line := ALL_WINNING_LINES[k];
            line.a != line.b && line.b != line.c && line.a != line.c
  {
  }

  lemma ThreeCells(board: Board, c: Cell, i: nat, j: nat, k: nat)
    requires i < 9 && j < 9 && k < 9 && i != j && j != k && i != k
    requires board[i] == board[j] == board[k] == c
    ensures multiset(board)[c] >= 3
  {
    var other := if c == Empty then Mark(X) else Empty;
    var b1 := board[i := other];
    var b2 := b1[j := other];
    var b3 := b2[k := other];
    assert multiset(b3)[c] + 3 == multiset(board)[c];
  }

  /**
   In every reachable state: a running game shows no line and has room left; a line belongs to
   exactly the recorded winner and the reported line is the first complete one of the table; a
   win takes 5 to 9 moves; a draw is a full board of 9 moves without a line.
   */
  lemma {:induction false} OutcomeExactness(start: StartCommand, actions: seq<Action>)
    ensures var s := RunGame(start, actions);
            && (s.status == Active ==> NoLines(s.board) && !IsBoardFull(s.board) && s.result.None?)
            && (forall y :: HasLine(s.board, y) <==>
                  s.result.Some? && s.result.value.outcome == Win && s.result.value.winner == Some(y))
            && (s.result.Some? && s.result.value.outcome == Win ==>
                  && 5 <= |s.moveHistory| <= 9
                  && s.result.value.winner.Some? && s.result.value.winningLine.Some?
                  && s.result.value.winningLine == WinLine(s.board, s.result.value.winner.value))
            && (s.result.Some? && s.result.value.outcome == Draw <==> |s.moveHistory| == 9 && NoLines(s.board))
            && (IsBoardFull(s.board) <==> |s.moveHistory| == 9)
            && !(HasLine(s.board, X) && HasLine(s.board, O))
  {
    RunIsWellPlayed(start, actions);
    hide RunGame;
    hide BoardOf;
    hide HasLine;
    var s := RunGame(start, actions);
    FullHasNoEmpty(s.board);
    if s.status == Finished && s.result.value.outcome == Win {
      WinShowsItsLine(s);
    }
    forall y ensures HasLine(s.board, y) <==>
                     s.result.Some? && s.result.value.outcome == Win && s.result.value.winner == Some(y)
    {
      assert y == X || y == O;
    }
  }

  lemma WinShowsItsLine(s: GameState)
    requires WellPlayed(s) && s.status == Finished && s.result.value.outcome == Win
    ensures HasLine(s.board, s.result.value.winner.value) && |s.moveHistory| >= 5
  {
    LineNeedsThreeMarks(s.board, s.result.value.winner.value);
  }

  // ---------- replaying a history ----------

  function PlayerOf(s: GameState, symbol: Symbol): PlayerId {
    if symbol == X then s.playerX else s.playerO
  }

  /** The move of a history turned back into the command that makes it. */
  function CommandOf(s: GameState, record: MoveRecord, id: CommandId): MoveCommand {
    MoveCommand(PlayerOf(s, record.symbol), record.position.row, record.position.col, id, record.appliedAt)
  }

  function CommandsOf(s: GameState, id: CommandId): seq<MoveCommand> {
    seq(|s.moveHistory|, i requires 0 <= i < |s.moveHistory| => CommandOf(s, s.moveHistory[i], id))
  }

  predicate EndedByPlayer(s: GameState) {
    s.result.Some? && (s.result.value.outcome == Forfeit || s.result.value.outcome == Abandoned)
  }

  /** The state just before a player gave the game up. */
  function BeforeGivingUp(s: GameState): GameState {
    if EndedByPlayer(s) then s.(status := Active, result := None, endedAt := None) else s
  }

  /**
   Replaying the recorded moves of any reachable state from the start completes and gives back
   exactly that state; for a game given up, exactly the state before that.
   */
  lemma {:induction false} ReplayRoundTrip(start: StartCommand, actions: seq<Action>, id: CommandId)
    ensures var s := RunGame(start, actions);
            var replay := Replay(StartGame(start), CommandsOf(s, id));
            replay.Completed? && replay.finalState == BeforeGivingUp(s)
  {
    if actions == [] {
    } else {
      var before := RunGame(start, actions[..|actions| - 1]);
      ReplayRoundTrip(start, actions[..|actions| - 1], id);
      RunIsWellPlayed(start, actions[..|actions| - 1]);
      ReplayOneMore(start, before, actions[|actions| - 1], id);
    }
  }

  lemma ReplayOneMore(start: StartCommand, s: GameState, action: Action, id: CommandId)
    requires WellPlayed(s)
    requires Replay(StartGame(start), CommandsOf(s, id)).Completed?
    requires Replay(StartGame(start), CommandsOf(s, id)).finalState == BeforeGivingUp(s)
    ensures var t := Act(s, action);
            var replay := Replay(StartGame(start), CommandsOf(t, id));
            replay.Completed? && replay.finalState == BeforeGivingUp(t)
  {
    hide ApplyMove;
    if action.Play? {
      MoveShape(s, action.command);
    }
    if action.Play? && ApplyMove(s, action.command).Accepted? {
      ReplayAcceptedMove(start, s, action.command, id);
    } else {
      assert CommandsOf(Act(s, action), id) == CommandsOf(s, id);
    }
  }

  lemma ReplayAcceptedMove(start: StartCommand, s: GameState, command: MoveCommand, id: CommandId)
    requires ApplyMove(s, command).Accepted? && s.result.None?
    requires Replay(StartGame(start), CommandsOf(s, id)).Completed?
    requires Replay(StartGame(start), CommandsOf(s, id)).finalState == s
    ensures var t := ApplyMove(s, command).newState;
            var replay := Replay(StartGame(start), CommandsOf(t, id));
            replay.Completed? && replay.finalState == t == BeforeGivingUp(t)
  {
    hide ApplyMove;
    hide PlaceMark;
    MoveShape(s, command);
    var t := ApplyMove(s, command).newState;
    PlaceShape(s, s.currentTurn, Pos(command.row, command.col), command.timestamp);
    var n := |s.moveHistory|;
    var last := CommandOf(t, t.moveHistory[n], id);
    assert CommandsOf(t, id)[..n] == CommandsOf(s, id);
    assert CommandsOf(t, id)[n] == last;
    SameMove(s, command, last);
  }

  /** Only the mover's symbol, the cell and the time of a command matter. */
  lemma SameMove(s: GameState, a: MoveCommand, b: MoveCommand)
    requires ResolveSymbol(s, a.playerId) == ResolveSymbol(s, b.playerId)
    requires a.row == b.row && a.col == b.col && a.timestamp == b.timestamp
    ensures ApplyMove(s, a) == ApplyMove(s, b)
  {
    hide PlaceMark;
  }

  /** Shift the index at which a later replay stopped. */
  function After(first: ReplayResult, second: ReplayResult, n: nat): ReplayResult {
    match second
    case Completed(final, events) => Completed(final, first.events + events)
    case Stopped(final, events, at, reason) => Stopped(final, first.events + events, n + at, reason)
  }

  /** Replaying `a + b` is replaying `b` from where `a` ended, unless `a` already stopped. */
  lemma {:induction false} ReplayAppend(initial: GameState, a: seq<MoveCommand>, b: seq<MoveCommand>)
    ensures var first := Replay(initial, a);
            Replay(initial, a + b) ==
            if first.Stopped? then first else After(first, Replay(first.finalState, b), |a|)
    decreases |b|
  {
    hide ApplyMove;
    var first := Replay(initial, a);
    if b == [] {
      assert a + b == a;
    } else {
      var n := |b| - 1;
      assert (a + b)[..|a| + n] == a + b[..n];
      ReplayAppend(initial, a, b[..n]);
    }
  }

  function CountMoveMade(events: seq<EngineEvent>): nat {
    if events == [] then 0
    else CountMoveMade(events[..|events| - 1]) + if events[|events| - 1].MoveMade? then 1 else 0
  }

  predicate EndsLast(events: seq<EngineEvent>) {
    forall i | 0 <= i < |events| && events[i].Ended? :: i == |events| - 1
  }

  /** What a report of `count` applied moves says when they led from `initial` to `final`. */
  ghost predicate Reports(initial: GameState, final: GameState, events: seq<EngineEvent>, count: nat) {
    && CountMoveMade(events) == count == |final.moveHistory| - |initial.moveHistory|
    && EndsLast(events)
    && (final.status == Active || final.status == Finished)
    && (final.status == Finished <==> events != [] && events[|events| - 1].Ended?)
    && (final.status == Finished ==>
          final.result.Some? &&
          events[|events| - 1] == Ended(final.gameId, final.result.value, final.board, final.moveHistory))
  }

  /**
   A replay of a running game reports one MOVE_MADE per applied move; GAME_ENDED is reported
   exactly when the game is over, once, as the last event, with the final board and history.
   */
  lemma {:induction false} ReplayReports(initial: GameState, commands: seq<MoveCommand>)
    requires initial.status == Active
    ensures var r := Replay(initial, commands);
            Reports(initial, r.finalState, r.events, if r.Completed? then |commands| else r.failedAtIndex)
  {
    hide ApplyMove;
    hide Reports;
    if commands == [] {
      NothingReported(initial);
    } else {
      var n := |commands| - 1;
      ReplayReports(initial, commands[..n]);
      var before := Replay(initial, commands[..n]);
      if before.Completed? && ApplyMove(before.finalState, commands[n]).Accepted? {
        OneMoreReported(initial, before.finalState, before.events, n, commands[n]);
      }
    }
  }

  lemma OneMoreReported(
    initial: GameState, s: GameState, events: seq<EngineEvent>, count: nat, command: MoveCommand
  )
    requires Reports(initial, s, events, count) && ApplyMove(s, command).Accepted?
    ensures var r := ApplyMove(s, command);
            Reports(initial, r.newState, events + r.events, count + 1)
  {
    hide ApplyMove;
    hide CountMoveMade;
    MoveShape(s, command);
    MoveEvents(s, command);
    CountOneMove(events, ApplyMove(s, command).events);
  }

  lemma NothingReported(initial: GameState)
    requires initial.status == Active
    ensures Reports(initial, initial, [], 0)
  {
  }

  /** An accepted move is reported first; the end of the game, if it came, second. */
  lemma MoveEvents(s: GameState, command: MoveCommand)
    requires ApplyMove(s, command).Accepted?
    ensures var r := ApplyMove(s, command);
            var t := r.newState;
            && |t.moveHistory| == |s.moveHistory| + 1
            && (t.status == Active || t.status == Finished)
            && |r.events| == (if t.status == Finished then 2 else 1)
            && r.events[0] == MoveMade(t.gameId, s.currentTurn, Pos(command.row, command.col), |t.moveHistory|,
                                       t.board, if t.status == Finished then None else Some(t.currentTurn))
            && (t.status == Finished ==>
                  t.result.Some? &&
                  r.events[1] == Ended(t.gameId, t.result.value, t.board, t.moveHistory))
  {
    hide WinLine;
    hide IsBoardFull;
    MoveShape(s, command);
  }

  lemma CountOneMove(events: seq<EngineEvent>, more: seq<EngineEvent>)
    requires 1 <= |more| <= 2 && more[0].MoveMade? && (|more| == 2 ==> !more[1].MoveMade?)
    ensures CountMoveMade(events + more) == CountMoveMade(events) + 1
  {
    var all := events + more;
    assert all[..|events| + 1][..|events|] == events;
    if |more| == 2 {
      assert all[..|all| - 1] == all[..|events| + 1];
    } else {
      assert all == all[..|events| + 1];
    }
  }
}
