/**
 What every run of a session keeps: pending timers match the session's records of them, and games
 alternate who starts.
 */
module SessionLaws {
  import opened Protocol
  import opened Engine
  import opened EngineLaws
  import opened Rooms
  import opened History
  import opened SessionModel
  import opened SessionRuns

  // ---------- timers ----------

  /**
   The pending reconnect timers are exactly the entries of `reconnectTimers`, one per player, and
   a rematch timer is pending exactly when there is a proposal, and it is that proposal's.
   */
  ghost predicate TimersMatch(s: Session) {
    && (forall p | p in s.reconnectTimers ::
          s.reconnectTimers[p] in s.timers && s.timers[s.reconnectTimers[p]].ReconnectTimer?
          && s.timers[s.reconnectTimers[p]].playerId == p)
    && (forall id | id in s.timers && s.timers[id].ReconnectTimer? ::
          s.timers[id].playerId in s.reconnectTimers && s.reconnectTimers[s.timers[id].playerId] == id)
    && (s.rematch.Some? ==> s.rematch.value.timer in s.timers && s.timers[s.rematch.value.timer].RematchTimer?)
    && (forall id | id in s.timers && s.timers[id].RematchTimer? ::
          s.rematch.Some? && s.rematch.value.timer == id)
    && (forall id | id in s.timers :: id < s.nextTimer)
  }

  /** The timer part of a session. */
  predicate SameTimers(s: Session, t: Session) {
    && t.timers == s.timers && t.reconnectTimers == s.reconnectTimers
    && t.rematch == s.rematch && t.nextTimer == s.nextTimer
  }

  /** Emitting does not touch timers. */
  lemma AnnounceTimers(s: Session, news: seq<Entry>)
    ensures SameTimers(s, Announce(s, news))
  {
  }

  lemma MoveTimers(s: Session, store: Store, p: PlayerId, g: GameId, at: RawPosition, id: CommandId, now: int)
    ensures SameTimers(s, HandleMove(s, store, p, g, at, id, now).session)
  {
    hide ApplyMove;
    hide Announce;
    hide MoveNews;
    if Reaches(s, g) {
      var r := ApplyMove(s.game.value, MoveCommand(p, at.row, at.col, id, now));
      if r.Rejected? {
        AnnounceTimers(s, [Entry(MoveRejected(s.seqNo + 1, g, at, r.reason, s.game.value.board,
                                              s.game.value.currentTurn, id), ToPlayer, p)]);
      } else {
        var next := r.newState;
        var saving := if next.result.Some? then Remember(s, store, next) else Saving(s.(game := Some(next)), store);
        AnnounceTimers(saving.session, MoveNews(s, p, at, id, next, r.events[0]));
      }
    }
  }

  lemma QuietTimers(w: World, op: Op)
    requires op.Allocating? || op.Starting? || op.Forfeiting? || op.Reconnecting?
    ensures SameTimers(w.session, Step(w, op).session)
  {
    hide Trim;
    hide EndNews;
    hide Remember;
    var s := w.session;
    if op.Forfeiting? && IsActive(s) {
      RememberLeaves(s, w.store, ForfeitGame(s.game.value, op.playerId, op.now));
    }
  }

  lemma RequestTimers(s: Session, room: Room, p: PlayerId, g: GameId, now: int)
    requires TimersMatch(s)
    ensures TimersMatch(RequestRematch(s, room, p, g, now))
  {
    hide Trim;
  }

  lemma DropTimers(s: Session)
    requires TimersMatch(s)
    ensures TimersMatch(DropProposal(s))
  {
  }

  lemma BeginTimers(s: Session, room: Room, firstTurn: Symbol, gameId: GameId, now: int)
    ensures SameTimers(s, Begin(s, room, firstTurn, gameId, now))
  {
    hide Trim;
  }

  lemma AcceptTimers(s: Session, room: Room, p: PlayerId, g: GameId, h: GameId, now: int)
    requires TimersMatch(s)
    ensures TimersMatch(AcceptRematch(s, room, p, g, h, now))
  {
    hide Begin;
    hide DropProposal;
    DropTimers(s);
    if Agreed(s, room, p, g) {
      BeginTimers(DropProposal(s), room.(readySymbols := {}), CreateRematch(s.game.value, h, now).firstTurn, h, now);
    }
  }

  lemma DeclineTimers(s: Session, room: Room, p: PlayerId, g: GameId)
    requires TimersMatch(s)
    ensures TimersMatch(DeclineRematch(s, room, p, g))
  {
    hide DropProposal;
    DropTimers(s);
  }

  lemma ExpireTimers(s: Session, room: Room, id: nat)
    requires TimersMatch(s) && IsRematchTimer(s, id)
    ensures TimersMatch(FireRematch(s, room, id))
  {
    hide Trim;
  }

  lemma ClearTimers(s: Session, p: PlayerId)
    requires TimersMatch(s)
    ensures TimersMatch(ClearWindow(s, p)) && p !in ClearWindow(s, p).reconnectTimers
    ensures ClearWindow(s, p).nextTimer == s.nextTimer
    ensures forall id | IsReconnectTimer(s, id) && s.timers[id].playerId == p :: id !in ClearWindow(s, p).timers
  {
  }

  lemma OpenTimers(s: Session, room: Room, p: PlayerId, now: int)
    requires TimersMatch(s)
    ensures TimersMatch(OpenWindow(s, room, p, now))
    ensures OpenWindow(s, room, p, now).timers ==
            ClearWindow(s, p).timers[s.nextTimer := ReconnectTimer(p, SymbolOf(room, p))]
  {
    hide Announce;
    hide ClearWindow;
    hide GoneNews;
    ClearTimers(s, p);
    var cleared := ClearWindow(s, p);
    var window := cleared.(timers := cleared.timers[s.nextTimer := ReconnectTimer(p, SymbolOf(room, p))],
                           reconnectTimers := cleared.reconnectTimers[p := s.nextTimer],
                           nextTimer := s.nextTimer + 1);
    AnnounceTimers(window, GoneNews(s, room, p, now));
  }

  lemma FireTimers(s: Session, store: Store, id: nat, now: int)
    requires TimersMatch(s) && IsReconnectTimer(s, id)
    ensures TimersMatch(FireReconnect(s, store, id, now).session)
  {
    hide Announce;
    hide FireNews;
    hide RecordOf;
    var timer := s.timers[id];
    var fired := s.(timers := s.timers - {id});
    var saving := if IsActive(s) then Remember(fired, store, AbandonGame(s.game.value, timer.playerId, now))
                  else Saving(fired, store);
    AnnounceTimers(saving.session, FireNews(s, timer, now));
    assert SameTimers(fired, saving.session);
  }

  lemma DestroyTimers(s: Session)
    requires TimersMatch(s)
    ensures TimersMatch(Destroy(s)) && Destroy(s).timers == map[] && Destroy(s).rematch.None?
  {
    forall id | id in s.timers && s.timers[id].ReconnectTimer? ensures id in s.reconnectTimers.Values {
      assert s.timers[id].playerId in s.reconnectTimers;
    }
  }

  lemma {:induction false} StepKeepsTimers(w: World, op: Op)
    requires TimersMatch(w.session)
    ensures TimersMatch(Step(w, op).session)
  {
    var s := w.session;
    hide TimersMatch;
    hide HandleMove;
    hide OpenWindow;
    hide FireReconnect;
    hide ClearWindow;
    hide Destroy;
    hide RequestRematch;
    hide AcceptRematch;
    hide DeclineRematch;
    hide FireRematch;
    match op
    case Moving(p, g, at, id, now) =>
      MoveTimers(s, w.store, p, g, at, id, now);
      SameTimersMatch(s, Step(w, op).session);
    case Requesting(room, p, g, now) => RequestTimers(s, room, p, g, now);
    case Opening(room, p, now) => OpenTimers(s, room, p, now);
    case Clearing(p) => ClearTimers(s, p);
    case FiringReconnect(id, now) =>
      if IsReconnectTimer(s, id) {
        FireTimers(s, w.store, id, now);
      }
    case Destroying => DestroyTimers(s);
    case Accepting(room, p, g, h, now) => AcceptTimers(s, room, p, g, h, now);
    case Declining(room, p, g) => DeclineTimers(s, room, p, g);
    case FiringRematch(room, id) =>
      if IsRematchTimer(s, id) {
        ExpireTimers(s, room, id);
      }
    case _ =>
      QuietTimers(w, op);
      SameTimersMatch(s, Step(w, op).session);
  }

  lemma SameTimersMatch(s: Session, t: Session)
    requires TimersMatch(s) && SameTimers(s, t)
    ensures TimersMatch(t)
  {
  }

  lemma {:induction false} RunKeepsTimers(w: World, ops: seq<Op>)
    requires Created(w)
    ensures TimersMatch(Run(w, ops).session)
  {
    hide Step;
    if ops != [] {
      RunKeepsTimers(w, ops[..|ops| - 1]);
      StepKeepsTimers(Run(w, ops[..|ops| - 1]), ops[|ops| - 1]);
    }
  }

  /** A timer that was set once and is not pending any more. */
  predicate Gone(s: Session, id: nat) {
    id < s.nextTimer && id !in s.timers
  }

  /** Timers are set under new ids only. */
  ghost predicate AddsOnlyNew(s: Session, t: Session) {
    && s.nextTimer <= t.nextTimer
    && forall id | id in t.timers && id !in s.timers :: id >= s.nextTimer
  }

  lemma RequestAddsNew(s: Session, room: Room, p: PlayerId, g: GameId, now: int)
    ensures AddsOnlyNew(s, RequestRematch(s, room, p, g, now))
  {
    hide Trim;
  }

  lemma OpenAddsNew(s: Session, room: Room, p: PlayerId, now: int)
    ensures AddsOnlyNew(s, OpenWindow(s, room, p, now))
  {
    hide Trim;
    hide GoneNews;
  }

  lemma AnswersAddNone(s: Session, room: Room, p: PlayerId, g: GameId, h: GameId, id: nat, now: int)
    ensures AddsOnlyNew(s, AcceptRematch(s, room, p, g, h, now))
    ensures AddsOnlyNew(s, DeclineRematch(s, room, p, g))
    ensures IsRematchTimer(s, id) ==> AddsOnlyNew(s, FireRematch(s, room, id))
  {
    hide Begin;
    hide Trim;
    if Agreed(s, room, p, g) {
      BeginTimers(DropProposal(s), room.(readySymbols := {}), CreateRematch(s.game.value, h, now).firstTurn, h, now);
    }
  }

  lemma FiringAddsNone(s: Session, store: Store, id: nat, now: int)
    requires IsReconnectTimer(s, id)
    ensures AddsOnlyNew(s, FireReconnect(s, store, id, now).session)
  {
    hide Announce;
    hide FireNews;
    hide Remember;
    var fired := s.(timers := s.timers - {id});
    if IsActive(s) {
      var ended := AbandonGame(s.game.value, s.timers[id].playerId, now);
      RememberLeaves(fired, store, ended);
      AnnounceTimers(Remember(fired, store, ended).session, FireNews(s, s.timers[id], now));
    } else {
      AnnounceTimers(fired, FireNews(s, s.timers[id], now));
    }
  }

  lemma StepAddsOnlyNew(w: World, op: Op)
    ensures AddsOnlyNew(w.session, Step(w, op).session)
  {
    var s := w.session;
    hide AddsOnlyNew;
    hide SameTimers;
    hide HandleMove;
    hide OpenWindow;
    hide FireReconnect;
    hide ClearWindow;
    hide Destroy;
    hide RequestRematch;
    hide AcceptRematch;
    hide DeclineRematch;
    hide FireRematch;
    DroppingAddsNone(s);
    match op
    case Moving(p, g, at, id, now) =>
      MoveTimers(s, w.store, p, g, at, id, now);
      SameAddsNone(s, Step(w, op).session);
    case Requesting(room, p, g, now) => RequestAddsNew(s, room, p, g, now);
    case Opening(room, p, now) => OpenAddsNew(s, room, p, now);
    case Clearing(p) => ClearingAddsNone(s, p);
    case FiringReconnect(id, now) =>
      if IsReconnectTimer(s, id) {
        FiringAddsNone(s, w.store, id, now);
      }
    case Destroying =>
    case Accepting(room, p, g, h, now) => AnswersAddNone(s, room, p, g, h, 0, now);
    case Declining(room, p, g) => AnswersAddNone(s, room, p, g, g, 0, 0);
    case FiringRematch(room, id) => AnswersAddNone(s, room, PlayerId(""), GameId(""), GameId(""), id, 0);
    case _ =>
      QuietTimers(w, op);
      SameAddsNone(s, Step(w, op).session);
  }

  lemma SameAddsNone(s: Session, t: Session)
    requires SameTimers(s, t)
    ensures AddsOnlyNew(s, t)
  {
  }

  lemma ClearingAddsNone(s: Session, p: PlayerId)
    ensures AddsOnlyNew(s, ClearWindow(s, p))
  {
  }

  lemma DroppingAddsNone(s: Session)
    ensures AddsOnlyNew(s, s) && AddsOnlyNew(s, Destroy(s))
  {
  }

  /** A timer that is gone stays gone, in every continuation. */
  lemma {:induction false} GoneForGood(w: World, ops: seq<Op>, id: nat)
    requires Gone(w.session, id)
    ensures Gone(Run(w, ops).session, id)
  {
    hide Step;
    if ops != [] {
      GoneForGood(w, ops[..|ops| - 1], id);
      StepAddsOnlyNew(Run(w, ops[..|ops| - 1]), ops[|ops| - 1]);
    }
  }

  /** What clearing or re-opening a window of `p` does to the older timers of `p`. */
  lemma WindowsGo(s: Session, p: PlayerId, room: Room, now: int, id: nat)
    requires TimersMatch(s) && IsReconnectTimer(s, id) && s.timers[id].playerId == p
    ensures Gone(ClearWindow(s, p), id) && Gone(OpenWindow(s, room, p, now), id)
  {
    hide Announce;
    hide ClearWindow;
    hide GoneNews;
    ClearTimers(s, p);
    OpenTimers(s, room, p, now);
    OpenAddsNew(s, room, p, now);
    assert id < s.nextTimer by {
      assert id in s.timers;
    }
  }

  /** Firing a timer that is gone does nothing. */
  lemma GoneNeverFires(w: World, id: nat, now: int, room: Room)
    requires Gone(w.session, id)
    ensures Step(w, FiringReconnect(id, now)) == w && Step(w, FiringRematch(room, id)) == w
  {
  }

  /**
   Timer discipline over runs.  The pending timers are those the session knows of.  Once a window
   of a player was cleared or re-opened, none of that player's older timers is pending in any
   continuation, whatever happens then, and so firing one does nothing.  A destroyed session has
   no pending timer at all.
   */
  lemma {:induction false} TimerDiscipline(
    w: World, ops: seq<Op>, p: PlayerId, room: Room, now: int, more: seq<Op>, id: nat, later: int
  )
    requires Created(w)
    ensures var v := Run(w, ops);
            var s := v.session;
            var cleared, reopened := Run(Step(v, Clearing(p)), more), Run(Step(v, Opening(room, p, now)), more);
            && TimersMatch(s)
            && (IsReconnectTimer(s, id) && s.timers[id].playerId == p ==>
                  && id !in cleared.session.timers && Step(cleared, FiringReconnect(id, later)) == cleared
                  && id !in reopened.session.timers && Step(reopened, FiringReconnect(id, later)) == reopened)
            && Destroy(s).timers == map[] && Destroy(s).rematch.None?
  {
    hide Run;
    hide Step;
    hide ClearWindow;
    hide OpenWindow;
    hide Destroy;
    hide TimersMatch;
    var v := Run(w, ops);
    var s := v.session;
    RunKeepsTimers(w, ops);
    DestroyTimers(s);
    if IsReconnectTimer(s, id) && s.timers[id].playerId == p {
      WindowsGo(s, p, room, now, id);
      WindowSteps(v, p, room, now);
      GoneForGood(Step(v, Clearing(p)), more, id);
      GoneForGood(Step(v, Opening(room, p, now)), more, id);
      GoneNeverFires(Run(Step(v, Clearing(p)), more), id, later, room);
      GoneNeverFires(Run(Step(v, Opening(room, p, now)), more), id, later, room);
    }
  }

  lemma WindowSteps(w: World, p: PlayerId, room: Room, now: int)
    ensures Step(w, Clearing(p)).session == ClearWindow(w.session, p)
    ensures Step(w, Opening(room, p, now)).session == OpenWindow(w.session, room, p, now)
  {
    hide ClearWindow;
    hide OpenWindow;
  }

  // ---------- rematches ----------

  /** An open proposal has been accepted by the one who made it, and by nobody else. */
  predicate ProposalOpen(s: Session) {
    s.rematch.Some? ==> s.rematch.value.acceptedBy == {s.rematch.value.requestedBy}
  }

  predicate GameOver(s: Session, g: GameId) {
    s.game.Some? && s.game.value.status == Finished && s.game.value.gameId == g
  }

  /** The player sits on this seat and no other. */
  predicate SitsOnlyOn(room: Room, symbol: Symbol, p: PlayerId) {
    Sits(room, symbol, p) && !Sits(room, Other(symbol), p)
  }

  /** The game that starts next on the seats of a room. */
  function NextOnSeats(s: Session, room: Room, g: GameId, firstTurn: Symbol, now: int): GameState
    requires room.playerX.Some? && room.playerO.Some?
  {
    GameState(g, s.roomId, room.playerX.value.playerId, room.playerO.value.playerId, EMPTY_BOARD, firstTurn, Active,
              None, [], firstTurn, now, None, None)
  }

  /**
   Accepting a rematch: by the one who asked for it, nothing happens; by the other, the proposal and
   its timer go, and if both seats are taken the next game starts, with the other first turn.
   */
  lemma AcceptingIs(s: Session, room: Room, symbol: Symbol, p: PlayerId, g: GameId, h: GameId, now: int)
    requires ProposalOpen(s) && SitsOnlyOn(room, symbol, p) && GameOver(s, g) && s.rematch.Some?
    ensures var t := AcceptRematch(s, room, p, g, h, now);
            if s.rematch.value.requestedBy == symbol then t == s
            else
              && t.rematch.None? && t.timers == s.timers - {s.rematch.value.timer}
              && t.reconnectTimers == s.reconnectTimers
              && (room.playerX.Some? && room.playerO.Some? ==>
                    t.game == Some(NextOnSeats(s, room, h, Other(s.game.value.firstTurn), now)))
              && (room.playerX.None? || room.playerO.None? ==>
                    t.game == s.game && t.sent == s.sent && t.seqNo == s.seqNo)
  {
    hide Trim;
    assert {s.rematch.value.requestedBy} + {s.rematch.value.requestedBy} == {s.rematch.value.requestedBy};
  }

  /** It is ignored without a proposal, for another game, during a game, or from somebody not seated. */
  lemma AcceptingInVain(s: Session, room: Room, p: PlayerId, g: GameId, h: GameId, now: int)
    requires s.rematch.None? || !GameOver(s, g) || !IsSeated(room, p)
    ensures AcceptRematch(s, room, p, g, h, now) == s
  {
  }

  /** Asking for a rematch, by a seated player, of the game that is over, with nothing proposed yet. */
  lemma RequestingIs(s: Session, room: Room, symbol: Symbol, p: PlayerId, g: GameId, now: int)
    requires SitsOnlyOn(room, symbol, p)
    ensures var t := RequestRematch(s, room, p, g, now);
            if GameOver(s, g) && s.rematch.None? then
              && t.rematch == Some(Proposal(symbol, now, now + 60_000, {symbol}, s.nextTimer))
              && t.timers == s.timers[s.nextTimer := RematchTimer(g)]
              && t.game == s.game && t.reconnectTimers == s.reconnectTimers
              && t.sent == s.sent + [Entry(RematchRequested(s.seqNo + 1, g, symbol, now + 60_000), Broadcast, p)]
            else t == s
  {
    hide Trim;
  }

  lemma RequestingInVain(s: Session, room: Room, p: PlayerId, g: GameId, now: int)
    requires !IsSeated(room, p)
    ensures RequestRematch(s, room, p, g, now) == s
  {
  }

  /** Refusing one, by a seated player: proposal and timer go, and both are told, out of the buffer. */
  lemma DecliningIs(s: Session, room: Room, symbol: Symbol, p: PlayerId, g: GameId)
    requires SitsOnlyOn(room, symbol, p)
    ensures var t := DeclineRematch(s, room, p, g);
            if s.rematch.Some? then
              && t.rematch.None? && t.timers == s.timers - {s.rematch.value.timer} && t.game == s.game
              && t.seqNo == s.seqNo + 1 && t.buffer == s.buffer && t.log == s.log
              && t.sent == s.sent + [Entry(RematchDeclined(s.seqNo + 1, g, symbol), Broadcast, p)]
            else t == s
  {
  }

  /** Running out: the proposal goes, and whoever sits in the room is told. */
  lemma ExpiringIs(s: Session, room: Room, id: nat)
    requires IsRematchTimer(s, id) && s.rematch.Some?
    ensures var t := FireRematch(s, room, id);
            && t.rematch.None? && t.timers == s.timers - {id} && t.game == s.game
            && |t.sent| == |s.sent| + (if room.playerX.Some? || room.playerO.Some? then 1 else 0)
            && (room.playerX.Some? || room.playerO.Some? ==>
                  && t.sent[..|s.sent|] == s.sent
                  && t.sent[|s.sent|].event == RematchExpired(s.seqNo + 1, s.timers[id].gameId)
                  && t.sent[|s.sent|].target == Broadcast)
  {
    hide Trim;
  }

  lemma StepKeepsProposal(w: World, op: Op)
    requires ProposalOpen(w.session)
    ensures ProposalOpen(Step(w, op).session)
  {
    var s := w.session;
    hide HandleMove;
    hide OpenWindow;
    hide FireReconnect;
    hide ClearWindow;
    hide AcceptRematch;
    hide Trim;
    match op
    case Moving(p, g, at, id, now) => MoveTimers(s, w.store, p, g, at, id, now);
    case Opening(room, p, now) => OpeningKeepsRest(s, room, p, now);
    case Clearing(p) => ClearingKeepsRest(s, p);
    case FiringReconnect(id, now) =>
      if IsReconnectTimer(s, id) {
        FiringKeepsRematch(s, w.store, id, now);
      }
    case Accepting(room, p, g, h, now) => AcceptingKeepsProposal(s, room, p, g, h, now);
    case Requesting(_, _, _, _) =>
    case Declining(_, _, _) =>
    case FiringRematch(_, _) =>
    case Destroying =>
    case _ => QuietTimers(w, op);
  }

  lemma AcceptingKeepsProposal(s: Session, room: Room, p: PlayerId, g: GameId, h: GameId, now: int)
    requires ProposalOpen(s)
    ensures ProposalOpen(AcceptRematch(s, room, p, g, h, now))
  {
    hide Begin;
    if Agreed(s, room, p, g) {
      BeginTimers(DropProposal(s), room.(readySymbols := {}), CreateRematch(s.game.value, h, now).firstTurn, h, now);
    } else if MayAccept(s, room, p, g) {
      var asker, taker := s.rematch.value.requestedBy, SymbolOf(room, p).value;
      assert asker != taker ==> |{asker} + {taker}| == 2;
    }
  }

  lemma OpeningKeepsRest(s: Session, room: Room, p: PlayerId, now: int)
    ensures OpenWindow(s, room, p, now).rematch == s.rematch && OpenWindow(s, room, p, now).game == s.game
  {
    hide Trim;
  }

  lemma ClearingKeepsRest(s: Session, p: PlayerId)
    ensures ClearWindow(s, p).rematch == s.rematch && ClearWindow(s, p).game == s.game
    ensures ClearWindow(s, p).sent == s.sent
  {
  }

  lemma FiringKeepsRematch(s: Session, store: Store, id: nat, now: int)
    requires IsReconnectTimer(s, id)
    ensures FireReconnect(s, store, id, now).session.rematch == s.rematch
  {
    hide Trim;
    hide RecordOf;
    hide FireNews;
  }

  /**
   In every run of a session, a seated player's acceptance of a rematch of the game that is over
   starts the next game if and only if there is a proposal, the other symbol made it, and both
   seats are taken; and after that there is no proposal.
   */
  lemma {:induction false} RematchNeedsBoth(
    w: World, ops: seq<Op>, room: Room, symbol: Symbol, p: PlayerId, h: GameId, now: int
  )
    requires Created(w) && SitsOnlyOn(room, symbol, p)
    requires Run(w, ops).session.game.Some? && Run(w, ops).session.game.value.status == Finished
    ensures var s := Run(w, ops).session;
            var t := AcceptRematch(s, room, p, s.game.value.gameId, h, now);
            && (t.game != s.game ==>
                  s.rematch.Some? && s.rematch.value.requestedBy == Other(symbol)
                  && room.playerX.Some? && room.playerO.Some?)
            && (s.rematch.Some? && s.rematch.value.requestedBy == Other(symbol)
                && room.playerX.Some? && room.playerO.Some? ==>
                  && t.game == Some(NextOnSeats(s, room, h, Other(s.game.value.firstTurn), now))
                  && t.game.value.status != s.game.value.status && t.rematch.None?)
  {
    hide Run;
    hide AcceptRematch;
    RunKeepsProposal(w, ops);
    var s := Run(w, ops).session;
    if s.rematch.Some? {
      AcceptingIs(s, room, symbol, p, s.game.value.gameId, h, now);
    } else {
      AcceptingInVain(s, room, p, s.game.value.gameId, h, now);
    }
  }

  lemma {:induction false} RunKeepsProposal(w: World, ops: seq<Op>)
    requires Created(w)
    ensures ProposalOpen(Run(w, ops).session)
  {
    hide Step;
    if ops != [] {
      RunKeepsProposal(w, ops[..|ops| - 1]);
      StepKeepsProposal(Run(w, ops[..|ops| - 1]), ops[|ops| - 1]);
    }
  }

  // ---------- who starts ----------

  /** The first turns of the games announced, in order. */
  function FirstTurns(sent: seq<Entry>): seq<Symbol> {
    if sent == [] then []
    else
      var last := sent[|sent| - 1].event;
      FirstTurns(sent[..|sent| - 1]) + if last.GameStarted? then [last.firstTurn] else []
  }

  /** X, O, X, O, ... and the game at hand is the last one announced. */
  ghost predicate Alternating(s: Session) {
    var turns := FirstTurns(s.sent);
    && (forall i | 0 <= i < |turns| :: turns[i] == TurnAt(X, i))
    && (turns == [] <==> s.game.None?)
    && (s.game.Some? ==> turns[|turns| - 1] == s.game.value.firstTurn)
  }

  lemma {:induction false} FirstTurnsAppend(a: seq<Entry>, b: seq<Entry>)
    ensures FirstTurns(a + b) == FirstTurns(a) + FirstTurns(b)
    decreases |b|
  {
    if b == [] {
      assert a + b == a;
    } else {
      assert (a + b)[..|a| + |b| - 1] == a + b[..|b| - 1];
      FirstTurnsAppend(a, b[..|b| - 1]);
    }
  }

  lemma {:induction false} NoStartNoTurns(entries: seq<Entry>)
    requires forall i | 0 <= i < |entries| :: !entries[i].event.GameStarted?
    ensures FirstTurns(entries) == []
  {
    if entries != [] {
      NoStartNoTurns(entries[..|entries| - 1]);
    }
  }

  lemma OneStartOneTurn(entry: Entry)
    requires entry.event.GameStarted?
    ensures FirstTurns([entry]) == [entry.event.firstTurn]
  {
    assert [entry][..0] == [];
  }

  /** Only starting a game announces one, and then with that game's first turn. */
  lemma NewsStart(w: World, op: Op)
    ensures var s, news := w.session, News(w, op);
            if Starts(s, op) then
              && |news| == 1 && news[0].event.GameStarted?
              && NextGame(s, op).Some? && news[0].event.firstTurn == NextGame(s, op).value.firstTurn
              && news[0].event.firstTurn == (if s.game.None? then X else Opponent(s.game.value.firstTurn))
            else
              && (forall i | 0 <= i < |news| :: !news[i].event.GameStarted?)
              && NextGame(s, op).Some? == s.game.Some?
              && (s.game.Some? ==> NextGame(s, op).value.firstTurn == s.game.value.firstTurn)
    ensures forall i | 0 <= i < |Unbuffered(w.session, op)| :: !Unbuffered(w.session, op)[i].event.GameStarted?
  {
    hide ApplyMove;
    hide StatsOf;
    hide WinLine;
    if op.Moving? && Reaches(w.session, op.target) {
      var state := w.session.game.value;
      var command := MoveCommand(op.playerId, op.position.row, op.position.col, op.commandId, op.now);
      MoveShape(state, command);
      if ApplyMove(state, command).Accepted? {
        PlaceShape(state, state.currentTurn, Pos(command.row, command.col), command.timestamp);
      }
    }
  }

  lemma StepKeepsAlternating(w: World, op: Op)
    requires Alternating(w.session)
    ensures Alternating(Step(w, op).session)
  {
    hide Step;
    hide News;
    hide NextGame;
    hide Starts;
    hide SkipsNumber;
    hide Unbuffered;
    hide FirstTurns;
    var s, t := w.session, Step(w, op).session;
    var news, extra := News(w, op), Unbuffered(s, op);
    StepAnnounces(w, op);
    StepGame(w, op);
    NewsStart(w, op);
    assert t.sent == s.sent + news + extra;
    FirstTurnsAppend(s.sent + news, extra);
    FirstTurnsAppend(s.sent, news);
    NoStartNoTurns(extra);
    if Starts(s, op) {
      assert news == [news[0]];
      OneStartOneTurn(news[0]);
    } else {
      NoStartNoTurns(news);
    }
  }

  /**
   Over a session's whole life, in any mix of games started from readiness and from rematches,
   the k-th game announced (counting from 0) begins with X if k is even and with O if k is odd.
   */
  lemma {:induction false} FirstTurnsAlternate(w: World, ops: seq<Op>)
    requires Created(w)
    ensures var s := Run(w, ops).session;
            && Alternating(s)
            && forall k | 0 <= k < |FirstTurns(s.sent)| :: FirstTurns(s.sent)[k] == if k % 2 == 0 then X else O
  {
    hide Step;
    if ops != [] {
      FirstTurnsAlternate(w, ops[..|ops| - 1]);
      StepKeepsAlternating(Run(w, ops[..|ops| - 1]), ops[|ops| - 1]);
    }
  }

  // ---------- what can be replayed ----------

  /** Of what was sent: everything from the last start on but errors and declines. */
  function Replayable(sent: seq<Entry>): seq<Entry> {
    if sent == [] then []
    else
      var last := sent[|sent| - 1];
      if last.event.GameStarted? then [last]
      else if last.event.Error? || last.event.RematchDeclined? then Replayable(sent[..|sent| - 1])
      else Replayable(sent[..|sent| - 1]) + [last]
  }

  predicate IsFleeting(entry: Entry) {
    entry.event.Error? || entry.event.RematchDeclined?
  }

  lemma {:induction false} ReplayableNews(sent: seq<Entry>, news: seq<Entry>)
    requires forall i | 0 <= i < |news| :: !news[i].event.GameStarted? && !IsFleeting(news[i])
    ensures Replayable(sent + news) == Replayable(sent) + news
  {
    if news == [] {
      assert sent + news == sent;
    } else {
      var n := |news| - 1;
      ReplayableNews(sent, news[..n]);
      assert (sent + news)[..|sent + news| - 1] == sent + news[..n];
      assert news == news[..n] + [news[n]];
    }
  }

  lemma {:induction false} ReplayableExtra(sent: seq<Entry>, extra: seq<Entry>)
    requires forall i | 0 <= i < |extra| :: IsFleeting(extra[i])
    ensures Replayable(sent + extra) == Replayable(sent)
  {
    if extra == [] {
      assert sent + extra == sent;
    } else {
      var n := |extra| - 1;
      ReplayableExtra(sent, extra[..n]);
      assert (sent + extra)[..|sent + extra| - 1] == sent + extra[..n];
    }
  }

  lemma ReplayableStart(sent: seq<Entry>, start: Entry)
    requires start.event.GameStarted?
    ensures Replayable(sent + [start]) == [start]
  {
  }

  lemma NewsLast(w: World, op: Op)
    ensures forall i | 0 <= i < |News(w, op)| :: !IsFleeting(News(w, op)[i])
    ensures forall i | 0 <= i < |Unbuffered(w.session, op)| :: IsFleeting(Unbuffered(w.session, op)[i])
  {
    hide ApplyMove;
    hide StatsOf;
    hide Agreed;
  }

  lemma StepKeepsLog(w: World, op: Op)
    requires w.session.log == Replayable(w.session.sent)
    ensures Step(w, op).session.log == Replayable(Step(w, op).session.sent)
  {
    hide Step;
    hide News;
    hide NextGame;
    hide Starts;
    hide SkipsNumber;
    hide Unbuffered;
    hide Replayable;
    hide IsFleeting;
    var s, t := w.session, Step(w, op).session;
    var news, extra := News(w, op), Unbuffered(s, op);
    StepAnnounces(w, op);
    NewsStart(w, op);
    NewsLast(w, op);
    assert t.sent == s.sent + news + extra;
    ReplayableExtra(s.sent + news, extra);
    if Starts(s, op) {
      assert news == [news[0]];
      ReplayableStart(s.sent, news[0]);
    } else {
      ReplayableNews(s.sent, news);
    }
  }

  /**
   In every run, what a replay is cut from is everything the session sent since the last start, in
   the order it was sent, but errors and declined rematches.
   */
  lemma {:induction false} LogIsWhatWasSent(w: World, ops: seq<Op>)
    requires Created(w)
    ensures Run(w, ops).session.log == Replayable(Run(w, ops).session.sent)
  {
    hide Step;
    if ops != [] {
      LogIsWhatWasSent(w, ops[..|ops| - 1]);
      StepKeepsLog(Run(w, ops[..|ops| - 1]), ops[|ops| - 1]);
    }
  }
}
