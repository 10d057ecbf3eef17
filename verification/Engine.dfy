/** The authoritative rules of the game: every transition returns a new state. */
module Engine {
  import opened Protocol

  datatype GameState = GameState(
    gameId: GameId,
    roomId: RoomId,
    playerX: PlayerId,
    playerO: PlayerId,
    board: Board,
    currentTurn: Symbol,
    status: GameStatus,
    result: Option<GameResult>,
    moveHistory: seq<MoveRecord>,
    firstTurn: Symbol,
    createdAt: int,
    firstMoveAt: Option<int>,
    endedAt: Option<int>)

  datatype StartCommand = StartCommand(
    gameId: GameId, roomId: RoomId, playerX: PlayerId, playerO: PlayerId, firstTurn: Symbol, timestamp: int)

  datatype MoveCommand = MoveCommand(playerId: PlayerId, row: int, col: int, commandId: CommandId, timestamp: int)

  datatype EngineEvent =
    | Started(gameId: GameId, roomId: RoomId, firstTurn: Symbol, board: Board)
    | MoveMade(gameId: GameId, symbol: Symbol, position: Pos, sequenceInGame: int, board: Board,
               nextTurn: Option<Symbol>)
    | Ended(gameId: GameId, result: GameResult, finalBoard: Board, moveHistory: seq<MoveRecord>)

  datatype MoveResult =
    | Accepted(newState: GameState, events: seq<EngineEvent>)
    | Rejected(newState: GameState, reason: RejectReason)

  const ALL_WINNING_LINES: seq<WinningLine> := [
    WinningLine(Row, Pos(0, 0), Pos(0, 1), Pos(0, 2)),
    WinningLine(Row, Pos(1, 0), Pos(1, 1), Pos(1, 2)),
    WinningLine(Row, Pos(2, 0), Pos(2, 1), Pos(2, 2)),
    WinningLine(Col, Pos(0, 0), Pos(1, 0), Pos(2, 0)),
    WinningLine(Col, Pos(0, 1), Pos(1, 1), Pos(2, 1)),
    WinningLine(Col, Pos(0, 2), Pos(1, 2), Pos(2, 2)),
    WinningLine(Diagonal, Pos(0, 0), Pos(1, 1), Pos(2, 2)),
    WinningLine(Diagonal, Pos(0, 2), Pos(1, 1), Pos(2, 0))]

  function ApplyMark(board: Board, pos: Pos, symbol: Symbol): Board {
    board[PositionToIndex(pos.row, pos.col) := Mark(symbol)]
  }

  predicate CellIs(board: Board, pos: Pos, symbol: Symbol) {
    board[PositionToIndex(pos.row, pos.col)] == Mark(symbol)
  }

  predicate Complete(board: Board, symbol: Symbol, line: WinningLine) {
    CellIs(board, line.a, symbol) && CellIs(board, line.b, symbol) && CellIs(board, line.c, symbol)
  }

  predicate HasLine(board: Board, symbol: Symbol) {
    exists k | 0 <= k < |ALL_WINNING_LINES| :: Complete(board, symbol, ALL_WINNING_LINES[k])
  }

  /** Entry `k` of the table is complete and no earlier one is. */
  predicate FirstAt(board: Board, symbol: Symbol, k: nat)
    requires k < |ALL_WINNING_LINES|
  {
    && Complete(board, symbol, ALL_WINNING_LINES[k])
    && forall j | 0 <= j < k :: !Complete(board, symbol, ALL_WINNING_LINES[j])
  }

  /** The earliest entry of the table that `symbol` has completed, if any. */
  function WinLine(board: Board, symbol: Symbol): Option<WinningLine> {
    if exists k: nat | k < |ALL_WINNING_LINES| :: FirstAt(board, symbol, k) then
      var k: nat :| k < |ALL_WINNING_LINES| && FirstAt(board, symbol, k);
      Some(ALL_WINNING_LINES[k])
    else
      None
  }

  method DetectWin(board: Board, symbol: Symbol) returns (found: Option<WinningLine>)
    ensures found == WinLine(board, symbol)
    ensures found.None? ==> !HasLine(board, symbol)
  {
    hide ALL_WINNING_LINES;
    for i := 0 to |ALL_WINNING_LINES|
      invariant forall j | 0 <= j < i :: !Complete(board, symbol, ALL_WINNING_LINES[j])
    {
      var line := ALL_WINNING_LINES[i];
      if CellIs(board, line.a, symbol) && CellIs(board, line.b, symbol) && CellIs(board, line.c, symbol) {
        assert FirstAt(board, symbol, i);
        return Some(line);
      }
    }
    return None;
  }

  predicate IsBoardFull(board: Board) {
    forall i | 0 <= i < 9 :: board[i] != Empty
  }

  function Opponent(symbol: Symbol): Symbol {
    if symbol == X then O else X
  }

  predicate IsValidPosition(row: int, col: int) {
    0 <= row <= 2 && 0 <= col <= 2
  }

  function ResolveSymbol(state: GameState, playerId: PlayerId): Option<Symbol> {
    if playerId == state.playerX then Some(X)
    else if playerId == state.playerO then Some(O)
    else None
  }

  function StartGame(cmd: StartCommand): GameState {
    GameState(cmd.gameId, cmd.roomId, cmd.playerX, cmd.playerO, EMPTY_BOARD, cmd.firstTurn, Active,
              None, [], cmd.firstTurn, cmd.timestamp, None, None)
  }

  function ApplyMove(state: GameState, cmd: MoveCommand): (r: MoveResult)
    ensures r.Accepted? ==> ReportsMove(r.events)
  {
    if state.status != Active then
      Rejected(state, GameNotActive)
    else
      match ResolveSymbol(state, cmd.playerId)
      case None => Rejected(state, GameNotActive)
      case Some(symbol) =>
        if symbol != state.currentTurn then
          Rejected(state, NotYourTurn)
        else if !IsValidPosition(cmd.row, cmd.col) then
          Rejected(state, OutOfBounds)
        else if state.board[PositionToIndex(cmd.row, cmd.col)] != Empty then
          Rejected(state, CellOccupied)
        else
          PlaceMark(state, symbol, Pos(cmd.row, cmd.col), cmd.timestamp)
  }

  /** One MOVE_MADE, possibly followed by one GAME_ENDED. */
  predicate ReportsMove(events: seq<EngineEvent>) {
    && 1 <= |events| <= 2
    && events[0].MoveMade?
    && (|events| == 2 ==> events[1].Ended?)
  }

  /** The accepting half of a move: the game goes on, is won, or is drawn. */
  function PlaceMark(state: GameState, symbol: Symbol, pos: Pos, timestamp: int): (r: MoveResult)
    ensures r.Accepted? && ReportsMove(r.events)
  {
    var board := ApplyMark(state.board, pos, symbol);
    var record := MoveRecord(|state.moveHistory| + 1, symbol, pos, timestamp);
    var played := state.(
      board := board,
      moveHistory := state.moveHistory + [record],
      firstMoveAt := Some(state.firstMoveAt.GetOr(timestamp)));
    var line := WinLine(board, symbol);
    if line.Some? then
      FinishMove(played, record, GameResult(Win, Some(symbol), line, ThreeInARow, timestamp))
    else if IsBoardFull(board) then
      FinishMove(played, record, GameResult(Draw, None, None, EndReason.BoardFull, timestamp))
    else
      var next := Opponent(symbol);
      Accepted(played.(currentTurn := next),
               [MoveMade(state.gameId, symbol, pos, record.sequenceInGame, board, Some(next))])
  }

  /** The turn does not advance when a move ends the game. */
  function FinishMove(played: GameState, record: MoveRecord, result: GameResult): MoveResult {
    Accepted(
      EndGame(played, result).(currentTurn := record.symbol),
      [MoveMade(played.gameId, record.symbol, record.position, record.sequenceInGame, played.board, None),
       Ended(played.gameId, result, played.board, played.moveHistory)])
  }

  function EndGame(state: GameState, result: GameResult): GameState {
    state.(status := Finished, result := Some(result), endedAt := Some(result.endedAt))
  }

  /** The opponent of a player of this game; nobody when the player is not seated in it. */
  function AwardedTo(state: GameState, playerId: PlayerId): Option<Symbol> {
    var symbol := ResolveSymbol(state, playerId);
    if symbol.Some? then Some(Opponent(symbol.value)) else None
  }

  function ForfeitGame(state: GameState, playerId: PlayerId, timestamp: int): GameState {
    EndGame(state, GameResult(Forfeit, AwardedTo(state, playerId), None, PlayerForfeited, timestamp))
  }

  function AbandonGame(state: GameState, playerId: PlayerId, timestamp: int): GameState {
    EndGame(state, GameResult(Abandoned, AwardedTo(state, playerId), None, PlayerAbandoned, timestamp))
  }

  function CreateRematch(previous: GameState, newGameId: GameId, timestamp: int): GameState {
    StartGame(StartCommand(newGameId, previous.roomId, previous.playerX, previous.playerO,
                           Opponent(previous.firstTurn), timestamp))
  }

  /** The board a move history leads to. */
  function BoardOf(history: seq<MoveRecord>): Board {
    if history == [] then EMPTY_BOARD
    else
      var last := history[|history| - 1];
      ApplyMark(BoardOf(history[..|history| - 1]), last.position, last.symbol)
  }

  method BoardFromHistory(history: seq<MoveRecord>) returns (board: Board)
    ensures board == BoardOf(history)
  {
    board := EMPTY_BOARD;
    for i := 0 to |history|
      invariant board == BoardOf(history[..i])
    {
      assert history[..i + 1][..i] == history[..i];
      board := ApplyMark(board, history[i].position, history[i].symbol);
    }
    assert history[..|history|] == history;
  }

  datatype ReplayResult =
    | Completed(finalState: GameState, events: seq<EngineEvent>)
    | Stopped(finalState: GameState, events: seq<EngineEvent>, failedAtIndex: nat, failureReason: RejectReason)

  /** Applying the commands one after the other, up to the first that is refused. */
  function Replay(initial: GameState, commands: seq<MoveCommand>): ReplayResult {
    if commands == [] then Completed(initial, [])
    else
      var last := |commands| - 1;
      var before := Replay(initial, commands[..last]);
      if before.Stopped? then before
      else
        match ApplyMove(before.finalState, commands[last])
        case Accepted(next, events) => Completed(next, before.events + events)
        case Rejected(_, reason) => Stopped(before.finalState, before.events, last, reason)
  }

  method ReplayMoves(initial: GameState, commands: seq<MoveCommand>) returns (result: ReplayResult)
    ensures result == Replay(initial, commands)
  {
    var state := initial;
    var allEvents: seq<EngineEvent> := [];
    for i := 0 to |commands|
      invariant Replay(initial, commands[..i]) == Completed(state, allEvents)
    {
      assert commands[..i + 1][..i] == commands[..i];
      var step := ApplyMove(state, commands[i]);
      if step.Rejected? {
        StopsForGood(initial, commands, i + 1);
        return Stopped(state, allEvents, i, step.reason);
      }
      state, allEvents := step.newState, allEvents + step.events;
    }
    assert commands[..|commands|] == commands;
    return Completed(state, allEvents);
  }

  /** Once a prefix is refused, the rest of the commands changes nothing. */
  lemma {:induction false} StopsForGood(initial: GameState, commands: seq<MoveCommand>, n: nat)
    requires n <= |commands| && Replay(initial, commands[..n]).Stopped?
    ensures Replay(initial, commands) == Replay(initial, commands[..n])
    decreases |commands| - n
  {
    if n == |commands| {
      assert commands[..n] == commands;
    } else {
      assert commands[..n + 1][..n] == commands[..n];
      StopsForGood(initial, commands, n + 1);
    }
  }
}
