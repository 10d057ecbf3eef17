/** The client's local check of a move, and why it predicts the server exactly. */
module OptimisticEngine {
  import opened Protocol
  import opened Engine
  import opened GameStore

  datatype Prevalidation = Valid(predictedBoard: Board) | Invalid(reason: RejectReason)

  function PrevalidateMove(
    confirmedBoard: Board, confirmedTurn: Symbol, gameActive: bool, mySymbol: Symbol, row: int, col: int
  ): Prevalidation
  {
    if !gameActive then Invalid(GameNotActive)
    else if confirmedTurn != mySymbol then Invalid(NotYourTurn)
    else if row < 0 || row > 2 || col < 0 || col > 2 then Invalid(OutOfBounds)
    else
      var index := PositionToIndex(row, col);
      if confirmedBoard[index] != Empty then Invalid(CellOccupied)
      else Valid(confirmedBoard[index := Mark(mySymbol)])
  }

  /** The check as the UI makes it, on the confirmed view. */
  function PrevalidateOn(view: GameView, mySymbol: Symbol, row: int, col: int): Prevalidation {
    PrevalidateMove(view.board, view.turn, view.status == Active, mySymbol, row, col)
  }

  /** The view a client has when it agrees with the server about the game. */
  function ServerView(state: GameState): GameView {
    GameView(state.board, state.currentTurn, state.status, Some(state.gameId), state.result)
  }

  /**
   For a seated player whose view agrees with the server, the local verdict is the server's: same
   acceptance, same board, same reason of refusal, for all integers.
   */
  lemma PredictionExact(state: GameState, command: MoveCommand)
    requires ResolveSymbol(state, command.playerId).Some?
    ensures var local := PrevalidateOn(ServerView(state), ResolveSymbol(state, command.playerId).value,
                                       command.row, command.col);
            var remote := ApplyMove(state, command);
            && (local.Valid? <==> remote.Accepted?)
            && (local.Valid? ==> local.predictedBoard == remote.newState.board)
            && (local.Invalid? ==> local.reason == remote.reason)
  {
    if ApplyMove(state, command).Accepted? {
      var symbol := ResolveSymbol(state, command.playerId).value;
      assert ApplyMove(state, command) ==
             PlaceMark(state, symbol, Pos(command.row, command.col), command.timestamp);
      PlacedBoard(state, symbol, Pos(command.row, command.col), command.timestamp);
    }
  }

  lemma PlacedBoard(state: GameState, symbol: Symbol, pos: Pos, timestamp: int)
    ensures PlaceMark(state, symbol, pos, timestamp).newState.board == ApplyMark(state.board, pos, symbol)
  {
  }

  /** The cells the overlay marks and the confirmed board does not. */
  method PendingCellIndices(confirmed: Board, optimistic: Option<Board>) returns (pending: set<int>)
    ensures forall i :: i in pending <==>
              optimistic.Some? && 0 <= i < 9 && confirmed[i] == Empty && optimistic.value[i] != Empty
  {
    pending := {};
    if optimistic.None? {
      return;
    }
    for i := 0 to 9
      invariant forall j :: j in pending <==> 0 <= j < i && confirmed[j] == Empty && optimistic.value[j] != Empty
    {
      if confirmed[i] == Empty && optimistic.value[i] != Empty {
        pending := pending + {i};
      }
    }
  }
}
