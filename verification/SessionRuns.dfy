/** Every way a session can move, as one step function, and whole runs of it. */
module SessionRuns {
  import opened Protocol
  import opened Engine
  import opened EngineLaws
  import opened Rooms
  import opened History
  import opened SessionModel

  datatype Op =
    | Allocating
    | Starting(room: Room, gameId: GameId, now: int)
    | Moving(playerId: PlayerId, target: GameId, position: RawPosition, commandId: CommandId, now: int)
    | Forfeiting(playerId: PlayerId, now: int)
    | Requesting(room: Room, playerId: PlayerId, target: GameId, now: int)
    | Accepting(room: Room, playerId: PlayerId, target: GameId, gameId: GameId, now: int)
    | Declining(room: Room, playerId: PlayerId, target: GameId)
    | Opening(room: Room, playerId: PlayerId, now: int)
    | Clearing(playerId: PlayerId)
    | Reconnecting(room: Room, playerId: PlayerId)
    | FiringReconnect(id: nat, now: int)
    | FiringRematch(room: Room, id: nat)
    | Destroying

  /** A session with the history store it writes to and the game ids handed out so far. */
  datatype World = World(session: Session, store: Store, used: set<GameId>)

  /** The turn a game started from readiness begins with: X first, then the other symbol each time. */
  function NextFirstTurn(s: Session): Symbol {
    if s.game.None? then X else if s.game.value.firstTurn == X then O else X
  }

  predicate IsReconnectTimer(s: Session, id: nat) {
    id in s.timers && s.timers[id].ReconnectTimer?
  }

  predicate IsRematchTimer(s: Session, id: nat) {
    id in s.timers && s.timers[id].RematchTimer?
  }

  /** A timer that is not pending cannot fire. */
  function Step(w: World, op: Op): World {
    var s := w.session;
    match op
    case Allocating => w.(session := Allocate(s))
    case Starting(room, gameId, now) =>
      w.(session := Begin(s, room, NextFirstTurn(s), gameId, now), used := w.used + {gameId})
    case Moving(p, target, position, id, now) =>
      var moved := HandleMove(s, w.store, p, target, position, id, now);
      w.(session := moved.session, store := moved.store)
    case Forfeiting(p, now) => After(w, HandleForfeit(s, w.store, p, now))
    case Requesting(room, p, target, now) => w.(session := RequestRematch(s, room, p, target, now))
    case Accepting(room, p, target, gameId, now) =>
      w.(session := AcceptRematch(s, room, p, target, gameId, now), used := w.used + {gameId})
    case Declining(room, p, target) => w.(session := DeclineRematch(s, room, p, target))
    case Opening(room, p, now) => w.(session := OpenWindow(s, room, p, now))
    case Clearing(p) => w.(session := ClearWindow(s, p))
    case Reconnecting(room, p) => w.(session := NotifyReconnected(s, room, p))
    case FiringReconnect(id, now) => if IsReconnectTimer(s, id) then After(w, FireReconnect(s, w.store, id, now)) else w
    case FiringRematch(room, id) => if IsRematchTimer(s, id) then w.(session := FireRematch(s, room, id)) else w
    case Destroying => w.(session := Destroy(s))
  }

  function After(w: World, saving: Saving): World {
    w.(session := saving.session, store := saving.store)
  }

  /** Whether an operation starts a game, which resets numbering and log. */
  predicate Starts(s: Session, op: Op) {
    match op
    case Starting(room, _, _) => IsFull(room)
    case Accepting(room, p, target, _, _) => Agreed(s, room, p, target) && IsFull(room)
    case _ => false
  }

  /** The buffered events of an operation, in the order they are emitted. */
  function News(w: World, op: Op): seq<Entry> {
    var s := w.session;
    match op
    case Starting(room, gameId, now) =>
      if IsFull(room) then StartNews(s, room, NextFirstTurn(s), gameId, now) else []
    case Accepting(room, p, target, gameId, now) =>
      if Agreed(s, room, p, target) && IsFull(room)
      then StartNews(s, room, Opponent(s.game.value.firstTurn), gameId, now) else []
    case Moving(p, target, position, id, now) =>
      if !Reaches(s, target) then []
      else
        var state := s.game.value;
        (match ApplyMove(state, MoveCommand(p, position.row, position.col, id, now))
         case Rejected(_, reason) =>
           [Entry(MoveRejected(s.seqNo + 1, target, position, reason, state.board, state.currentTurn, id), ToPlayer, p)]
         case Accepted(next, events) => MoveNews(s, p, position, id, next, events[0]))
    case Forfeiting(p, now) =>
      if IsActive(s) then EndNews(s.seqNo + 1, ForfeitGame(s.game.value, p, now), p) else []
    case Requesting(room, p, target, now) =>
      if !MayRequest(s, room, p, target) then []
      else
        var asked := RematchRequested(s.seqNo + 1, target, SymbolOf(room, p).value, now + REMATCH_TIMEOUT_MS);
        [Entry(asked, Broadcast, p)]
    case FiringRematch(room, id) =>
      var any := if room.playerX.Some? then room.playerX else room.playerO;
      if IsRematchTimer(s, id) && s.rematch.Some? && any.Some?
      then [Entry(RematchExpired(s.seqNo + 1, s.timers[id].gameId), Broadcast, any.value.playerId)]
      else []
    case Opening(room, p, now) => GoneNews(s, room, p, now)
    case Reconnecting(room, p) => BackNews(s, room, p)
    case FiringReconnect(id, now) =>
      if IsReconnectTimer(s, id) then FireNews(s, s.timers[id], now) else []
    case _ => []
  }

  /** Numbers taken without emitting anything that is buffered. */
  predicate SkipsNumber(s: Session, op: Op) {
    || op.Allocating?
    || (op.Declining? && s.rematch.Some? && SymbolOf(op.room, op.playerId).Some?)
  }

  /** Entries handed to the transport but not buffered: errors and declines. */
  function Unbuffered(s: Session, op: Op): seq<Entry> {
    match op
    case Moving(p, target, _, _, _) =>
      if Reaches(s, target) then [] else [Entry(Error(MissCode(s, target)), ToPlayer, p)]
    case Declining(room, p, target) =>
      if s.rematch.Some? && SymbolOf(room, p).Some?
      then [Entry(RematchDeclined(s.seqNo + 1, target, SymbolOf(room, p).value), Broadcast, p)] else []
    case _ => []
  }

  /** Where the news of an operation are numbered from. */
  function Numbered(s: Session, op: Op): Session {
    if Starts(s, op) then Reset(s) else if SkipsNumber(s, op) then Allocate(s) else s
  }

  /** `t` is `s` after emitting `news` and sending `extra`, as far as emitting and sending go. */
  ghost predicate Announced(s: Session, t: Session, news: seq<Entry>, extra: seq<Entry>) {
    var u := Announce(s, news);
    t.seqNo == u.seqNo && t.buffer == u.buffer && t.log == u.log && t.sent == u.sent + extra && t.roomId == s.roomId
  }

  /** Each operation does to numbering, buffer, log and transport exactly what its news say. */
  lemma {:induction false} StepAnnounces(w: World, op: Op)
    ensures Announced(Numbered(w.session, op), Step(w, op).session, News(w, op), Unbuffered(w.session, op))
  {
    hide Trim;
    match op
    case Moving(_, _, _, _, _) => MoveAnnounces(w, op);
    case Starting(_, _, _) => RestAnnounces(w, op);
    case Accepting(_, _, _, _, _) => RestAnnounces(w, op);
    case Requesting(_, _, _, _) => ProposalAnnounces(w, op);
    case FiringRematch(_, _) => ProposalAnnounces(w, op);
    case Opening(_, _, _) => WindowAnnounces(w, op);
    case Clearing(_) => WindowAnnounces(w, op);
    case Reconnecting(_, _) => WindowAnnounces(w, op);
    case FiringReconnect(_, _) => FiringAnnounces(w, op);
    case Forfeiting(_, _) => ForfeitAnnounces(w, op);
    case _ => QuietAnnounces(w, op);
  }

  lemma MoveAnnounces(w: World, op: Op)
    requires op.Moving?
    ensures Announced(w.session, Step(w, op).session, News(w, op), Unbuffered(w.session, op))
  {
    hide Trim;
    hide ApplyMove;
  }

  lemma RestAnnounces(w: World, op: Op)
    requires op.Starting? || op.Accepting?
    ensures Announced(Numbered(w.session, op), Step(w, op).session, News(w, op), [])
  {
    hide Trim;
    assert Step(w, op).session.sent + [] == Step(w, op).session.sent;
  }

  lemma WindowAnnounces(w: World, op: Op)
    requires op.Opening? || op.Clearing? || op.Reconnecting?
    ensures Announced(w.session, Step(w, op).session, News(w, op), [])
  {
    hide Trim;
    hide GoneNews;
    hide BackNews;
    var t := Step(w, op).session;
    assert t.sent + [] == t.sent;
  }

  /** Remembering a game touches the game and the records only. */
  lemma RememberLeaves(s: Session, store: Store, ended: GameState)
    requires ended.result.Some?
    ensures var t := Remember(s, store, ended).session;
            t == s.(game := t.game, completed := t.completed)
  {
    hide RecordOf;
  }

  lemma FiringAnnounces(w: World, op: Op)
    requires op.FiringReconnect?
    ensures Announced(w.session, Step(w, op).session, News(w, op), [])
  {
    hide Trim;
    hide FireNews;
    hide Remember;
    var s := w.session;
    if IsReconnectTimer(s, op.id) && IsActive(s) {
      RememberLeaves(s.(timers := s.timers - {op.id}), w.store,
                     AbandonGame(s.game.value, s.timers[op.id].playerId, op.now));
    }
    var t := Step(w, op).session;
    assert t.sent + [] == t.sent;
  }

  lemma ForfeitAnnounces(w: World, op: Op)
    requires op.Forfeiting?
    ensures Announced(w.session, Step(w, op).session, News(w, op), [])
  {
    hide Trim;
    hide EndNews;
    hide Remember;
    var s := w.session;
    if IsActive(s) {
      RememberLeaves(s, w.store, ForfeitGame(s.game.value, op.playerId, op.now));
    }
    var t := Step(w, op).session;
    assert t.sent + [] == t.sent;
  }

  lemma QuietAnnounces(w: World, op: Op)
    requires op.Allocating? || op.Declining? || op.Destroying?
    ensures Announced(Numbered(w.session, op), Step(w, op).session, News(w, op), Unbuffered(w.session, op))
  {
    hide Trim;
    var t := Step(w, op).session;
    assert t.sent + [] == t.sent;
  }

  lemma ProposalAnnounces(w: World, op: Op)
    requires op.Requesting? || op.FiringRematch?
    ensures Announced(w.session, Step(w, op).session, News(w, op), [])
  {
    hide Trim;
    var t := Step(w, op).session;
    assert t.sent + [] == t.sent;
  }

  /** What an operation does to the game, in the engine's terms. */
  function NextGame(s: Session, op: Op): Option<GameState> {
    match op
    case Starting(room, gameId, now) =>
      if IsFull(room) then Some(FirstState(s, room, NextFirstTurn(s), gameId, now)) else s.game
    case Accepting(room, p, target, gameId, now) =>
      if Agreed(s, room, p, target) && IsFull(room)
      then Some(FirstState(s, room, Opponent(s.game.value.firstTurn), gameId, now)) else s.game
    case Moving(p, target, position, id, now) =>
      if Reaches(s, target)
      then Some(ApplyMove(s.game.value, MoveCommand(p, position.row, position.col, id, now)).newState) else s.game
    case Forfeiting(p, now) => if IsActive(s) then Some(ForfeitGame(s.game.value, p, now)) else s.game
    case FiringReconnect(id, now) =>
      if IsReconnectTimer(s, id) && IsActive(s)
      then Some(AbandonGame(s.game.value, s.timers[id].playerId, now)) else s.game
    case _ => s.game
  }

  lemma StepGame(w: World, op: Op)
    ensures Step(w, op).session.game == NextGame(w.session, op)
  {
    hide ApplyMove;
    hide Trim;
    hide StatsOf;
    if op.Moving? && Reaches(w.session, op.target) {
      MoveShape(w.session.game.value,
                MoveCommand(op.playerId, op.position.row, op.position.col, op.commandId, op.now));
    }
  }

  /** The session's games are well played, so the engine's laws apply to them. */
  ghost predicate GameSound(s: Session) {
    s.game.Some? ==> WellPlayed(s.game.value)
  }

  lemma {:induction false} StepKeepsGameSound(w: World, op: Op)
    requires GameSound(w.session)
    ensures GameSound(Step(w, op).session)
  {
    hide Step;
    hide WellPlayed;
    hide ApplyMove;
    var s := w.session;
    StepGame(w, op);
    match op
    case Moving(p, target, position, id, now) =>
      if Reaches(s, target) {
        MoveKeepsWellPlayed(s.game.value, MoveCommand(p, position.row, position.col, id, now));
      }
    case Forfeiting(p, now) =>
      if IsActive(s) {
        ActKeepsWellPlayed(s.game.value, Surrender(p, now));
      }
    case FiringReconnect(id, now) =>
      if IsReconnectTimer(s, id) && IsActive(s) {
        ActKeepsWellPlayed(s.game.value, Desert(s.timers[id].playerId, now));
      }
    case Starting(room, gameId, now) =>
      if IsFull(room) {
        StartIsWellPlayed(StartCommand(gameId, s.roomId, room.playerX.value.playerId, room.playerO.value.playerId,
                                       NextFirstTurn(s), now));
      }
    case Accepting(room, p, target, gameId, now) =>
      if Agreed(s, room, p, target) && IsFull(room) {
        StartIsWellPlayed(StartCommand(gameId, s.roomId, room.playerX.value.playerId, room.playerO.value.playerId,
                                       Opponent(s.game.value.firstTurn), now));
      }
    case _ =>
  }

  /** Generated game ids were never handed out before. */
  predicate Fresh(w: World, op: Op) {
    (op.Starting? || op.Accepting?) ==> op.gameId !in w.used
  }

  function Run(w: World, ops: seq<Op>): World {
    if ops == [] then w
    else Step(Run(w, ops[..|ops| - 1]), ops[|ops| - 1])
  }

  ghost predicate AllFresh(w: World, ops: seq<Op>) {
    forall i | 0 <= i < |ops| :: Fresh(Run(w, ops[..i]), ops[i])
  }

  lemma FreshPrefix(w: World, ops: seq<Op>)
    requires ops != [] && AllFresh(w, ops)
    ensures var n := |ops| - 1;
            AllFresh(w, ops[..n]) && Fresh(Run(w, ops[..n]), ops[n])
  {
    var n := |ops| - 1;
    forall i | 0 <= i < n ensures Fresh(Run(w, ops[..n][..i]), ops[..n][i]) {
      assert ops[..n][..i] == ops[..i];
    }
  }

  /** A session just created for a room, on a store that knows only used ids. */
  ghost predicate Created(w: World) {
    w.session == NewSession(w.session.roomId, w.store)
  }
}
