/**
 Values shared by the server and the client: identifiers, the board, results,
 move records and the server-to-client events.  Message ids, envelope timestamps and
 human-readable texts are not part of the model.
 */
module Protocol {

  datatype Option<+T> = None | Some(value: T) {
    function GetOr(default: T): T {
      if Some? then value else default
    }
  }

  // Branded strings: one wrapper per kind of identifier.
  datatype RoomId = RoomId(text: string)
  datatype GameId = GameId(text: string)
  datatype PlayerId = PlayerId(text: string)
  datatype CommandId = CommandId(text: string)
  datatype SessionToken = SessionToken(text: string)

  const COMMAND_DEDUP_TTL_MS := 300_000
  const RECONNECT_WINDOW_MS := 300_000
  const REMATCH_TIMEOUT_MS := 60_000
  const ROOM_TTL_MS := 86_400_000
  const SESSION_TTL_MS := 7 * 24 * 60 * 60 * 1_000
  const EVENT_BUFFER_SIZE: nat := 500

  datatype Symbol = X | O

  datatype Cell = Empty | Mark(symbol: Symbol)

  /** A row or column of the 3x3 board. */
  type Index = i: int | 0 <= i <= 2

  datatype Pos = Pos(row: Index, col: Index)

  /** Flat board: cell (row, col) lives at index row * 3 + col. */
  type Board = b: seq<Cell> | |b| == 9
    witness [Empty, Empty, Empty, Empty, Empty, Empty, Empty, Empty, Empty]

  const EMPTY_BOARD: Board := [Empty, Empty, Empty, Empty, Empty, Empty, Empty, Empty, Empty]

  function PositionToIndex(row: Index, col: Index): (i: nat)
    ensures i < 9
  {
    row * 3 + col
  }

  datatype LineKind = Row | Col | Diagonal

  datatype WinningLine = WinningLine(kind: LineKind, a: Pos, b: Pos, c: Pos)

  datatype GameStatus = Waiting | Active | Finished

  datatype Outcome = Win | Draw | Forfeit | Abandoned

  datatype EndReason = ThreeInARow | BoardFull | PlayerForfeited | PlayerAbandoned

  datatype GameResult = GameResult(
    outcome: Outcome,
    winner: Option<Symbol>,
    winningLine: Option<WinningLine>,
    reason: EndReason,
    endedAt: int)

  datatype MoveRecord = MoveRecord(sequenceInGame: int, symbol: Symbol, position: Pos, appliedAt: int)

  datatype RejectReason = NotYourTurn | CellOccupied | OutOfBounds | GameNotActive | GameIdMismatch

  /** A cell as submitted by a client: nothing is known about the two numbers. */
  datatype RawPosition = RawPosition(row: int, col: int)

  datatype PlayerInfo = PlayerInfo(playerId: PlayerId, symbol: Symbol, connected: bool, lastSeenAt: int)

  datatype GameStats = GameStats(moveCount: nat, durationMs: int, firstMoveAt: Option<int>)

  /** What the history store keeps about one finished game. */
  datatype CompletedGame = CompletedGame(
    gameId: GameId,
    outcome: Outcome,
    winner: Option<Symbol>,
    moveCount: nat,
    startedAt: int,
    endedAt: int,
    finalBoard: Board,
    result: GameResult,
    moveHistory: seq<MoveRecord>)

  datatype CurrentGame = CurrentGame(
    gameId: GameId,
    status: GameStatus,
    board: Board,
    currentTurn: Symbol,
    moveCount: nat,
    startedAt: int,
    result: Option<GameResult>)

  datatype RoomSnapshot = RoomSnapshot(
    roomId: RoomId,
    full: bool,
    playerX: Option<PlayerInfo>,
    playerO: Option<PlayerInfo>,
    readyPlayers: set<Symbol>,
    currentGame: Option<CurrentGame>,
    gameHistory: seq<CompletedGame>)

  datatype LeaveReason = Voluntary | DisconnectTimeout | ByForfeit

  datatype ErrorCode =
    | NotAuthenticated | AuthFailed | AlreadyInRoom | RoomNotFound | RoomFull | NotInRoom
    | NoActiveGame | WrongGameId | RematchPending | RematchNotRequested | ReconnectInvalid

  datatype ExistingRoom = ExistingRoom(roomId: RoomId, symbol: Symbol, gameStatus: GameStatus)

  /** Server-to-client events. All but the last two carry a session sequence number. */
  datatype Event =
    | RoomJoined(sessionSeq: int, roomId: RoomId, playerId: PlayerId, symbol: Symbol, roomState: RoomSnapshot)
    | PlayerJoined(sessionSeq: int, playerId: PlayerId, symbol: Symbol, connectedPlayerCount: nat)
    | RoomLeft(sessionSeq: int)
    | PlayerLeft(sessionSeq: int, playerId: PlayerId, symbol: Symbol, leaveReason: LeaveReason)
    | PlayerReadyAck(sessionSeq: int, readyPlayers: set<Symbol>)
    | OpponentReady(sessionSeq: int, symbol: Symbol, readyPlayers: set<Symbol>)
    | GameStarted(sessionSeq: int, gameId: GameId, board: Board, firstTurn: Symbol,
                  infoX: PlayerInfo, infoO: PlayerInfo, startedAt: int)
    | MoveAck(sessionSeq: int, gameId: GameId, position: RawPosition, symbol: Symbol,
              sequenceInGame: int, board: Board, nextTurn: Option<Symbol>, correlationId: CommandId)
    | MoveBroadcast(sessionSeq: int, gameId: GameId, position: RawPosition, symbol: Symbol, playerId: PlayerId,
                    sequenceInGame: int, board: Board, nextTurn: Option<Symbol>)
    | MoveRejected(sessionSeq: int, gameId: GameId, position: RawPosition, reason: RejectReason,
                   board: Board, currentTurn: Symbol, correlationId: CommandId)
    | GameFinished(sessionSeq: int, gameId: GameId, result: GameResult, finalBoard: Board,
                   moveHistory: seq<MoveRecord>, stats: GameStats)
    | RematchRequested(sessionSeq: int, gameId: GameId, requestedBy: Symbol, expiresAt: int)
    | RematchDeclined(sessionSeq: int, gameId: GameId, declinedBy: Symbol)
    | RematchExpired(sessionSeq: int, gameId: GameId)
    | OpponentDisconnected(sessionSeq: int, symbol: Symbol, reconnectDeadlineAt: int)
    | OpponentReconnected(sessionSeq: int, symbol: Symbol)
    | ReconnectAck(sessionSeq: int, playerId: PlayerId, symbol: Symbol, roomState: RoomSnapshot)
    | StateSyncReplay(sessionSeq: int, fromSeq: int, events: seq<Event>)
    | StateSyncSnapshot(sessionSeq: int, roomState: RoomSnapshot)
    | AuthAck(sessionToken: SessionToken, playerId: PlayerId, existingRoom: Option<ExistingRoom>)
    | Error(code: ErrorCode)
  {
    predicate HasSeq() {
      !AuthAck? && !Error?
    }
  }
}
