/** The client's state machine: a reducer over actions, with a one-move optimistic overlay. */
module GameStore {
  import opened Protocol

  /** What the client believes about the game; exactly the part the server is authoritative for. */
  datatype GameView = GameView(
    board: Board, turn: Symbol, status: GameStatus, gameId: Option<GameId>, result: Option<GameResult>)

  const NO_GAME := GameView(EMPTY_BOARD, X, Waiting, None, None)

  datatype PendingMove = PendingMove(commandId: CommandId, row: int, col: int)

  datatype RematchView =
    | NoRematch | RequestedByMe(expiresAt: int) | RequestedByThem(expiresAt: int) | Declined | Expired

  datatype OpponentConnection = Unknown | Disconnected(reconnectDeadlineAt: int) | Reconnected

  datatype WsState = Idle | Connecting | Connected | Authenticated | Reconnecting | Closed

  datatype ClientState = ClientState(
    sessionToken: Option<SessionToken>,
    playerId: Option<PlayerId>,
    mySymbol: Option<Symbol>,
    roomId: Option<RoomId>,
    readyPlayers: set<Symbol>,
    opponentConnection: OpponentConnection,
    confirmed: GameView,
    optimisticBoard: Option<Board>,
    pendingMove: Option<PendingMove>,
    wsState: WsState,
    rematch: RematchView,
    lastReceivedSeq: int)

  const INITIAL_STATE := ClientState(
    None, None, None, None, {}, Unknown, NO_GAME, None, None, Idle, NoRematch, 0)

  datatype Action =
    | WsStateChanged(wsState: WsState)
    | AuthAcked(sessionToken: SessionToken, playerId: PlayerId, existingRoom: Option<ExistingRoom>)
    | JoinedRoom(roomId: RoomId, symbol: Symbol, readyPlayers: set<Symbol>, view: GameView)
    | OtherJoined(symbol: Symbol)
    | OtherLeft(symbol: Symbol)
    | ReadyChanged(readyPlayers: set<Symbol>)
    | Started(gameId: GameId, board: Board, firstTurn: Symbol)
    | MoveOptimistic(commandId: CommandId, row: int, col: int, predictedBoard: Board)
    | MoveAcked(board: Board, nextTurn: Option<Symbol>)
    | MoveSeen(board: Board, nextTurn: Option<Symbol>)
    | MoveRefused(board: Board, currentTurn: Symbol)
    | FinishedGame(result: GameResult, finalBoard: Board)
    | RematchAsked(requestedBy: Symbol, expiresAt: int)
    | RematchRefused
    | RematchTimedOut
    | OpponentGone(reconnectDeadlineAt: int)
    | OpponentBack
    | Resynced(symbol: Symbol, view: GameView, readyPlayers: set<Symbol>, sessionSeq: int)
    | SeqAdvanced(sessionSeq: int)
    | LeftRoom

  function Reduce(state: ClientState, action: Action): ClientState {
    match action
    case WsStateChanged(ws) => state.(wsState := ws)
    case AuthAcked(token, player, room) =>
      state.(sessionToken := Some(token), playerId := Some(player),
             roomId := if room.Some? then Some(room.value.roomId) else state.roomId,
             mySymbol := if room.Some? then Some(room.value.symbol) else state.mySymbol)
    case JoinedRoom(room, symbol, ready, view) =>
      state.(roomId := Some(room), mySymbol := Some(symbol), readyPlayers := ready, confirmed := view,
             optimisticBoard := None, pendingMove := None, rematch := NoRematch)
    case OtherJoined(_) => state
    case OtherLeft(symbol) => state.(readyPlayers := state.readyPlayers - {symbol})
    case ReadyChanged(ready) => state.(readyPlayers := ready)
    case Started(gameId, board, firstTurn) =>
      state.(confirmed := GameView(board, firstTurn, Active, Some(gameId), None),
             optimisticBoard := None, pendingMove := None, rematch := NoRematch, lastReceivedSeq := 1)
    case MoveOptimistic(id, row, col, predicted) =>
      if state.pendingMove.Some? then state
      else state.(optimisticBoard := Some(predicted), pendingMove := Some(PendingMove(id, row, col)))
    case MoveAcked(board, nextTurn) =>
      state.(confirmed := state.confirmed.(board := board, turn := nextTurn.GetOr(state.confirmed.turn)),
             optimisticBoard := None, pendingMove := None)
    case MoveSeen(board, nextTurn) =>
      state.(confirmed := state.confirmed.(board := board, turn := nextTurn.GetOr(state.confirmed.turn)),
             optimisticBoard := if state.pendingMove.Some? then state.optimisticBoard else None)
    case MoveRefused(board, turn) =>
      state.(confirmed := state.confirmed.(board := board, turn := turn),
             optimisticBoard := None, pendingMove := None)
    case FinishedGame(result, finalBoard) =>
      state.(confirmed := state.confirmed.(board := finalBoard, status := Finished, result := Some(result)),
             optimisticBoard := None, pendingMove := None)
    case RematchAsked(who, expiresAt) =>
      state.(rematch := if Some(who) == state.mySymbol then RequestedByMe(expiresAt) else RequestedByThem(expiresAt))
    case RematchRefused => state.(rematch := Declined)
    case RematchTimedOut => state.(rematch := Expired)
    case OpponentGone(deadline) => state.(opponentConnection := Disconnected(deadline))
    case OpponentBack => state.(opponentConnection := Reconnected)
    case Resynced(symbol, view, ready, number) =>
      state.(mySymbol := Some(symbol), readyPlayers := ready, confirmed := view,
             optimisticBoard := None, pendingMove := None, lastReceivedSeq := number)
    case SeqAdvanced(number) => state.(lastReceivedSeq := number)
    case LeftRoom =>
      INITIAL_STATE.(sessionToken := state.sessionToken, playerId := state.playerId, wsState := state.wsState)
  }

  function DisplayBoard(state: ClientState): Board {
    state.optimisticBoard.GetOr(state.confirmed.board)
  }

  predicate CanMove(state: ClientState) {
    && state.confirmed.status == Active
    && Some(state.confirmed.turn) == state.mySymbol
    && state.pendingMove.None?
    && state.wsState == Authenticated
    && !state.opponentConnection.Disconnected?
  }

  // ---------- overlay discipline ----------

  function ReduceAll(state: ClientState, actions: seq<Action>): ClientState {
    if actions == [] then state
    else Reduce(ReduceAll(state, actions[..|actions| - 1]), actions[|actions| - 1])
  }

  predicate OverlayPaired(state: ClientState) {
    state.pendingMove.None? <==> state.optimisticBoard.None?
  }

  /** In every state the client can reach, the overlay exists exactly while a move is in flight. */
  lemma {:induction false} OverlayDiscipline(actions: seq<Action>)
    ensures var s := ReduceAll(INITIAL_STATE, actions);
            && OverlayPaired(s)
            && (s.pendingMove.None? ==> DisplayBoard(s) == s.confirmed.board)
            && (CanMove(s) ==> DisplayBoard(s) == s.confirmed.board)
  {
    if actions != [] {
      OverlayDiscipline(actions[..|actions| - 1]);
    }
  }

  /** The actions that settle the move in flight, whichever way it went. */
  predicate Settles(action: Action) {
    || action.MoveAcked? || action.MoveRefused? || action.FinishedGame? || action.Started?
    || action.JoinedRoom? || action.Resynced? || action.LeftRoom?
  }

  /**
   While nothing settles the move in flight, it stays the same move with the same overlay: a
   second optimistic move, however often it is tried, is ignored.
   */
  lemma {:induction false} PendingUntilSettled(state: ClientState, actions: seq<Action>)
    requires OverlayPaired(state) && state.pendingMove.Some?
    requires forall i | 0 <= i < |actions| :: !Settles(actions[i])
    ensures var s := ReduceAll(state, actions);
            && s.pendingMove == state.pendingMove
            && s.optimisticBoard == state.optimisticBoard
            && DisplayBoard(s) == state.optimisticBoard.value
  {
    if actions != [] {
      PendingUntilSettled(state, actions[..|actions| - 1]);
    }
  }

  /** Settling always clears the overlay, so the board shown is again the confirmed one. */
  lemma SettlingShowsConfirmed(state: ClientState, action: Action)
    requires Settles(action)
    ensures Reduce(state, action).pendingMove.None?
    ensures DisplayBoard(Reduce(state, action)) == Reduce(state, action).confirmed.board
  {
  }

  // ---------- moving, leaving ----------

  /** A move in the making is shown at once, as predicted, and then the player has to wait. */
  lemma MoveIsShownAtOnce(state: ClientState, id: CommandId, row: int, col: int, predicted: Board)
    requires state.pendingMove.None?
    ensures var s := Reduce(state, MoveOptimistic(id, row, col, predicted));
            && DisplayBoard(s) == predicted && s.confirmed == state.confirmed
            && s.pendingMove == Some(PendingMove(id, row, col)) && !CanMove(s)
            && forall again: CommandId, r, c, b :: Reduce(s, MoveOptimistic(again, r, c, b)) == s
  {
  }

  /** The other player's move is shown at once, unless one's own is in flight; then that stays on display. */
  lemma OthersMoveIsShown(state: ClientState, board: Board, nextTurn: Option<Symbol>)
    ensures var s := Reduce(state, MoveSeen(board, nextTurn));
            && s.confirmed.board == board && s.pendingMove == state.pendingMove
            && (state.pendingMove.None? ==> DisplayBoard(s) == board)
            && (state.pendingMove.Some? && OverlayPaired(state) ==> DisplayBoard(s) == DisplayBoard(state))
  {
  }

  /** Leaving the room keeps the login and the connection, and shows nothing of the room any more. */
  lemma LeavingForgets(state: ClientState)
    ensures var s := Reduce(state, LeftRoom);
            && s.sessionToken == state.sessionToken && s.playerId == state.playerId && s.wsState == state.wsState
            && s.roomId.None? && s.mySymbol.None? && s.readyPlayers == {} && s.opponentConnection == Unknown
            && s.rematch == NoRematch && s.lastReceivedSeq == 0
            && s.confirmed == GameView(EMPTY_BOARD, X, Waiting, None, None)
            && DisplayBoard(s) == EMPTY_BOARD && !CanMove(s)
  {
  }
}
