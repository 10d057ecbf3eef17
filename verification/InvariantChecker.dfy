/**
 The engine's own invariant checker, what an empty report means, and which runs of the
 engine it passes.
 */
module InvariantChecker {
  import opened Protocol
  import opened Engine
  import opened EngineLaws

  datatype InvariantName =
    | HistoryLengthMatchesBoard | SequenceInGameMonotone | TurnsAlternate | CurrentTurnCorrect
    | BoardDerivableFromHistory | WinHasWinningLine | NonWinHasNoWinner | TerminalForfeitHasWinner
    | WinHasWinner | DrawRequiresFullBoard | WinningLineCellsMatchWinner
    | FirstMoveAtNullWhenNoMoves | FirstMoveAtSetWhenMovesExist
    | EndedAtSetWhenFinished | EndedAtNullWhenNotFinished

  function MarkCount(cells: seq<Cell>): nat {
    |cells| - multiset(cells)[Empty]
  }

  /** A finished game that carries a result with the given outcome. */
  predicate Finishes(s: GameState, outcome: Outcome) {
    s.status == Finished && s.result.Some? && s.result.value.outcome == outcome
  }

  predicate LineMatches(s: GameState, result: GameResult) {
    result.winningLine.Some? && result.winner.Some? ==>
      Complete(s.board, result.winner.value, result.winningLine.value)
  }

  /** The condition under which the checker reports each name. */
  predicate Breaks(s: GameState, name: InvariantName) {
    match name
    case HistoryLengthMatchesBoard => MarkCount(s.board) != |s.moveHistory|
    case SequenceInGameMonotone =>
      exists i | 0 <= i < |s.moveHistory| :: s.moveHistory[i].sequenceInGame != i + 1
    case TurnsAlternate =>
      exists i | 0 <= i < |s.moveHistory| :: s.moveHistory[i].symbol != TurnAt(s.firstTurn, i)
    case CurrentTurnCorrect => s.status == Active && s.currentTurn != TurnAt(s.firstTurn, |s.moveHistory|)
    case BoardDerivableFromHistory => exists i | 0 <= i < 9 :: BoardOf(s.moveHistory)[i] != s.board[i]
    case WinHasWinningLine => Finishes(s, Win) && s.result.value.winningLine.None?
    case NonWinHasNoWinner => Finishes(s, Draw) && s.result.value.winner.Some?
    case TerminalForfeitHasWinner =>
      (Finishes(s, Forfeit) || Finishes(s, Abandoned)) && s.result.value.winner.None?
    case WinHasWinner => Finishes(s, Win) && s.result.value.winner.None?
    case DrawRequiresFullBoard => Finishes(s, Draw) && !IsBoardFull(s.board)
    case WinningLineCellsMatchWinner => Finishes(s, Win) && !LineMatches(s, s.result.value)
    case FirstMoveAtNullWhenNoMoves => s.moveHistory == [] && s.firstMoveAt.Some?
    case FirstMoveAtSetWhenMovesExist => s.moveHistory != [] && s.firstMoveAt.None?
    case EndedAtSetWhenFinished => s.status == Finished && s.endedAt.None?
    case EndedAtNullWhenNotFinished => s.status != Finished && s.endedAt.Some?
  }

  method CountMarks(board: Board) returns (count: nat)
    ensures count == MarkCount(board)
  {
    count := 0;
    for i := 0 to 9
      invariant count == MarkCount(board[..i])
    {
      assert board[..i + 1] == board[..i] + [board[i]];
      if board[i] != Empty {
        count := count + 1;
      }
    }
    assert board[..9] == board;
  }

  /** Checks 3 and 9 of the list: numbering and alternation, one pass over the history. */
  method CheckHistory(s: GameState) returns (violations: seq<InvariantName>)
    ensures forall n :: n in violations <==>
              (n == SequenceInGameMonotone || n == TurnsAlternate) && Breaks(s, n)
  {
    violations := [];
    for i := 0 to |s.moveHistory|
      invariant SequenceInGameMonotone in violations <==>
                exists j | 0 <= j < i :: s.moveHistory[j].sequenceInGame != j + 1
      invariant TurnsAlternate in violations <==>
                exists j | 0 <= j < i :: s.moveHistory[j].symbol != TurnAt(s.firstTurn, j)
      invariant forall n | n in violations :: n == SequenceInGameMonotone || n == TurnsAlternate
    {
      var record := s.moveHistory[i];
      if record.sequenceInGame != i + 1 {
        violations := violations + [SequenceInGameMonotone];
      }
      var expected := if i % 2 == 0 then s.firstTurn else Opponent(s.firstTurn);
      if record.symbol != expected {
        violations := violations + [TurnsAlternate];
      }
    }
  }

  method CheckBoard(s: GameState) returns (violations: seq<InvariantName>)
    ensures forall n :: n in violations <==> n == BoardDerivableFromHistory && Breaks(s, n)
  {
    violations := [];
    var derived := BoardFromHistory(s.moveHistory);
    for i := 0 to 9
      invariant BoardDerivableFromHistory in violations <==> exists j | 0 <= j < i :: derived[j] != s.board[j]
      invariant forall n | n in violations :: n == BoardDerivableFromHistory
    {
      if derived[i] != s.board[i] {
        violations := violations + [BoardDerivableFromHistory];
      }
    }
  }

  predicate AboutResult(n: InvariantName) {
    || n == WinHasWinningLine || n == NonWinHasNoWinner || n == TerminalForfeitHasWinner
    || n == WinHasWinner || n == DrawRequiresFullBoard || n == WinningLineCellsMatchWinner
  }

  method CheckResult(s: GameState) returns (violations: seq<InvariantName>)
    ensures forall n :: n in violations <==> AboutResult(n) && Breaks(s, n)
  {
    violations := [];
    if s.status == Finished && s.result.Some? {
      var result := s.result.value;
      if result.outcome == Win && result.winningLine.None? {
        violations := violations + [WinHasWinningLine];
      }
      if result.outcome == Draw && result.winner.Some? {
        violations := violations + [NonWinHasNoWinner];
      }
      if (result.outcome == Forfeit || result.outcome == Abandoned) && result.winner.None? {
        violations := violations + [TerminalForfeitHasWinner];
      }
      if result.outcome == Win && result.winner.None? {
        violations := violations + [WinHasWinner];
      }
      if result.outcome == Draw && !IsBoardFull(s.board) {
        violations := violations + [DrawRequiresFullBoard];
      }
      if result.outcome == Win && result.winningLine.Some? && result.winner.Some? {
        var line := result.winningLine.value;
        var positions := [line.a, line.b, line.c];
        var before := violations;
        for k := 0 to 3
          invariant violations == before ||
                    (WinningLineCellsMatchWinner in violations &&
                     forall n :: n in violations <==> n in before || n == WinningLineCellsMatchWinner)
          invariant violations == before <==>
                    forall j | 0 <= j < k :: CellIs(s.board, positions[j], result.winner.value)
        {
          if !CellIs(s.board, positions[k], result.winner.value) {
            violations := violations + [WinningLineCellsMatchWinner];
          }
        }
        assert positions[0] == line.a && positions[1] == line.b && positions[2] == line.c;
      }
    }
  }

  method CheckCounts(s: GameState) returns (violations: seq<InvariantName>)
    ensures forall n :: n in violations <==>
              (n == HistoryLengthMatchesBoard || n == CurrentTurnCorrect) && Breaks(s, n)
  {
    hide BoardOf;
    violations := [];
    var marks := CountMarks(s.board);
    if marks != |s.moveHistory| {
      violations := violations + [HistoryLengthMatchesBoard];
    }
    if s.status == Active {
      var expected := if |s.moveHistory| % 2 == 0 then s.firstTurn else Opponent(s.firstTurn);
      if s.currentTurn != expected {
        violations := violations + [CurrentTurnCorrect];
      }
    }
  }

  predicate AboutTimes(n: InvariantName) {
    || n == FirstMoveAtNullWhenNoMoves || n == FirstMoveAtSetWhenMovesExist
    || n == EndedAtSetWhenFinished || n == EndedAtNullWhenNotFinished
  }

  method CheckTimes(s: GameState) returns (violations: seq<InvariantName>)
    ensures forall n :: n in violations <==> AboutTimes(n) && Breaks(s, n)
  {
    hide BoardOf;
    violations := [];
    if |s.moveHistory| == 0 && s.firstMoveAt.Some? {
      violations := violations + [FirstMoveAtNullWhenNoMoves];
    }
    if |s.moveHistory| > 0 && s.firstMoveAt.None? {
      violations := violations + [FirstMoveAtSetWhenMovesExist];
    }
    if s.status == Finished && s.endedAt.None? {
      violations := violations + [EndedAtSetWhenFinished];
    }
    if s.status != Finished && s.endedAt.Some? {
      violations := violations + [EndedAtNullWhenNotFinished];
    }
  }

  /** The report names an invariant exactly when the state breaks it. */
  method VerifyInvariants(s: GameState) returns (violations: seq<InvariantName>)
    ensures forall n :: n in violations <==> Breaks(s, n)
    ensures violations == [] <==> Sound(s)
  {
    hide Breaks;
    hide Sound;
    var counts := CheckCounts(s);
    var history := CheckHistory(s);
    var board := CheckBoard(s);
    var result := CheckResult(s);
    var times := CheckTimes(s);
    violations := counts + history + board + result + times;
    EmptyReportMeansSound(s);
    assert violations != [] ==> violations[0] in violations;
  }

  // ---------- what an empty report means ----------

  predicate CellsDistinct(history: seq<MoveRecord>) {
    forall i, j | 0 <= i < j < |history| :: history[i].position != history[j].position
  }

  predicate ResultConsistent(s: GameState, result: GameResult) {
    match result.outcome
    case Win => result.winner.Some? && result.winningLine.Some? &&
                Complete(s.board, result.winner.value, result.winningLine.value)
    case Draw => result.winner.None? && IsBoardFull(s.board)
    case Forfeit => result.winner.Some?
    case Abandoned => result.winner.Some?
  }

  /** A declarative reading of the checks: the history explains the board, and so on. */
  predicate Sound(s: GameState) {
    && s.board == BoardOf(s.moveHistory)
    && CellsDistinct(s.moveHistory)
    && (forall i | 0 <= i < |s.moveHistory| ::
          s.moveHistory[i].sequenceInGame == i + 1 && s.moveHistory[i].symbol == TurnAt(s.firstTurn, i))
    && (s.status == Active ==> s.currentTurn == TurnAt(s.firstTurn, |s.moveHistory|))
    && (s.status == Finished && s.result.Some? ==> ResultConsistent(s, s.result.value))
    && (s.moveHistory == [] <==> s.firstMoveAt.None?)
    && (s.status == Finished <==> s.endedAt.Some?)
  }

  /** A cell of the replayed board is marked exactly when some move names it. */
  lemma {:induction false} MarkedCells(history: seq<MoveRecord>, pos: Pos)
    ensures BoardOf(history)[PositionToIndex(pos.row, pos.col)] != Empty <==>
            exists i | 0 <= i < |history| :: history[i].position == pos
  {
    if history != [] {
      var n := |history| - 1;
      MarkedCells(history[..n], pos);
      if exists i | 0 <= i < |history| :: history[i].position == pos {
        var i :| 0 <= i < |history| && history[i].position == pos;
        assert i < n ==> history[..n][i] == history[i];
      }
    }
  }

  /** Marks count moves exactly when no cell is played twice. */
  lemma {:induction false} DistinctCellsCount(history: seq<MoveRecord>)
    ensures MarkCount(BoardOf(history)) <= |history|
    ensures MarkCount(BoardOf(history)) == |history| <==> CellsDistinct(history)
  {
    hide MarkCount;
    hide CellsDistinct;
    if history == [] {
      NoMarksYet();
    } else {
      var n := |history| - 1;
      var last := history[n];
      DistinctCellsCount(history[..n]);
      MarkedCells(history[..n], last.position);
      MarkAnother(BoardOf(history[..n]), last.position, last.symbol);
      DistinctSoFar(history);
    }
  }

  lemma NoMarksYet()
    ensures MarkCount(BoardOf([])) == 0 && CellsDistinct([])
  {
  }

  lemma DistinctSoFar(history: seq<MoveRecord>)
    requires history != []
    ensures var n := |history| - 1;
            CellsDistinct(history) <==>
            CellsDistinct(history[..n]) && !exists i | 0 <= i < n :: history[..n][i].position == history[n].position
  {
    var n := |history| - 1;
    assert forall i | 0 <= i < n :: history[..n][i] == history[i];
  }

  lemma MarkAnother(board: Board, pos: Pos, symbol: Symbol)
    ensures MarkCount(ApplyMark(board, pos, symbol)) ==
            MarkCount(board) + if board[PositionToIndex(pos.row, pos.col)] == Empty then 1 else 0
  {
  }

  lemma EmptyReportMeansSound(s: GameState)
    ensures Sound(s) <==> forall n :: !Breaks(s, n)
  {
    if forall n :: !Breaks(s, n) {
      NothingBrokenIsSound(s);
    }
    if Sound(s) {
      forall n ensures !Breaks(s, n) {
        SoundBreaksNothing(s, n);
      }
    }
  }

  lemma SoundBreaksNothing(s: GameState, name: InvariantName)
    requires Sound(s)
    ensures !Breaks(s, name)
  {
    DistinctCellsCount(s.moveHistory);
    hide BoardOf;
  }

  lemma NothingBrokenIsSound(s: GameState)
    requires forall n :: !Breaks(s, n)
    ensures Sound(s)
  {
    hide BoardOf;
    hide Complete;
    hide IsBoardFull;
    hide MarkCount;
    DistinctCellsCount(s.moveHistory);
    NothingBrokenInHistory(s);
    assert !Breaks(s, HistoryLengthMatchesBoard) && !Breaks(s, CurrentTurnCorrect);
    assert !Breaks(s, WinHasWinner) && !Breaks(s, WinHasWinningLine) && !Breaks(s, WinningLineCellsMatchWinner);
    assert !Breaks(s, NonWinHasNoWinner) && !Breaks(s, DrawRequiresFullBoard);
    assert !Breaks(s, TerminalForfeitHasWinner);
    assert !Breaks(s, FirstMoveAtNullWhenNoMoves) && !Breaks(s, FirstMoveAtSetWhenMovesExist);
    assert !Breaks(s, EndedAtSetWhenFinished) && !Breaks(s, EndedAtNullWhenNotFinished);
  }

  lemma NothingBrokenInHistory(s: GameState)
    requires forall n :: !Breaks(s, n)
    ensures s.board == BoardOf(s.moveHistory)
    ensures forall i | 0 <= i < |s.moveHistory| ::
              s.moveHistory[i].sequenceInGame == i + 1 && s.moveHistory[i].symbol == TurnAt(s.firstTurn, i)
  {
    hide BoardOf;
    hide Complete;
    hide IsBoardFull;
    assert !Breaks(s, BoardDerivableFromHistory) && !Breaks(s, SequenceInGameMonotone) && !Breaks(s, TurnsAlternate);
  }

  // ---------- which runs pass ----------

  /** Some running game was given up by a player who is not seated in it. */
  ghost predicate GivenUpByStranger(start: StartCommand, actions: seq<Action>) {
    exists i: nat | i < |actions| :: StrangerAt(start, actions, i)
  }

  predicate Unawarded(s: GameState) {
    EndedByPlayer(s) && s.result.value.winner.None?
  }

  /** The only invariant a run can break is the one about the winner of a given-up game. */
  lemma {:induction false} WellPlayedBreaksOnlyOne(s: GameState, name: InvariantName)
    requires WellPlayed(s)
    ensures Breaks(s, name) <==> name == TerminalForfeitHasWinner && Unawarded(s)
  {
    hide BoardOf;
    hide HasLine;
    if Finishes(s, Win) {
      assert Complete(s.board, s.result.value.winner.value, s.result.value.winningLine.value);
    }
  }

  lemma PlayersStay(start: StartCommand, actions: seq<Action>)
    ensures RunGame(start, actions).playerX == start.playerX && RunGame(start, actions).playerO == start.playerO
  {
    if actions != [] {
      PlayersStay(start, actions[..|actions| - 1]);
      ActKeepsPlayers(RunGame(start, actions[..|actions| - 1]), actions[|actions| - 1]);
    }
  }

  lemma ActKeepsPlayers(s: GameState, action: Action)
    ensures Act(s, action).playerX == s.playerX && Act(s, action).playerO == s.playerO
    ensures s.status != Active ==> Act(s, action) == s
    ensures action.Play? && !EndedByPlayer(s) ==> !EndedByPlayer(Act(s, action))
  {
    hide ApplyMove;
    hide PlaceMark;
    if action.Play? {
      MoveShape(s, action.command);
      if ApplyMove(s, action.command).Accepted? {
        PlaceShape(s, s.currentTurn, Pos(action.command.row, action.command.col), action.command.timestamp);
      }
    }
  }

  lemma ActUnawarded(s: GameState, action: Action)
    requires WellPlayed(s)
    ensures Unawarded(Act(s, action)) <==>
            || Unawarded(s)
            || (s.status == Active && !action.Play? && ResolveSymbol(s, action.playerId).None?)
  {
    hide ApplyMove;
    hide BoardOf;
    ActKeepsPlayers(s, action);
  }

  lemma {:induction false} UnawardedIffStranger(start: StartCommand, actions: seq<Action>)
    ensures Unawarded(RunGame(start, actions)) <==> GivenUpByStranger(start, actions)
  {
    if actions != [] {
      var n := |actions| - 1;
      UnawardedIffStranger(start, actions[..n]);
      PlayersStay(start, actions[..n]);
      RunIsWellPlayed(start, actions[..n]);
      StrangerInPrefix(start, actions);
      hide Act;
      hide WellPlayed;
      ActUnawarded(RunGame(start, actions[..n]), actions[n]);
    }
  }

  ghost predicate StrangerAt(start: StartCommand, actions: seq<Action>, i: nat)
    requires i < |actions|
  {
    && RunGame(start, actions[..i]).status == Active
    && !actions[i].Play?
    && actions[i].playerId != start.playerX && actions[i].playerId != start.playerO
  }

  lemma StrangerInPrefix(start: StartCommand, actions: seq<Action>)
    requires actions != []
    ensures var n := |actions| - 1;
            GivenUpByStranger(start, actions) <==>
            GivenUpByStranger(start, actions[..n]) || StrangerAt(start, actions, n)
  {
    var n := |actions| - 1;
    hide RunGame;
    forall i | 0 <= i < n ensures StrangerAt(start, actions[..n], i) <==> StrangerAt(start, actions, i) {
      assert actions[..n][..i] == actions[..i];
    }
    if GivenUpByStranger(start, actions[..n]) {
      var i: nat :| i < n && StrangerAt(start, actions[..n], i);
      assert StrangerAt(start, actions, i);
    }
    if GivenUpByStranger(start, actions) {
      var i: nat :| i < |actions| && StrangerAt(start, actions, i);
      assert i < n ==> StrangerAt(start, actions[..n], i);
    }
  }

  /**
   Exactness of the checker on runs: the report on a reachable state is empty if and only if no
   running game was given up by somebody not seated in it.
   */
  lemma RunPassesIff(start: StartCommand, actions: seq<Action>)
    ensures Sound(RunGame(start, actions)) <==> !GivenUpByStranger(start, actions)
  {
    var s := RunGame(start, actions);
    hide RunGame;
    hide Breaks;
    hide Sound;
    RunIsWellPlayed(start, actions);
    UnawardedIffStranger(start, actions);
    EmptyReportMeansSound(s);
    forall name ensures Breaks(s, name) <==> name == TerminalForfeitHasWinner && Unawarded(s) {
      WellPlayedBreaksOnlyOne(s, name);
    }
    assert Unawarded(s) ==> Breaks(s, TerminalForfeitHasWinner);
  }
}
