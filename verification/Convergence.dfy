/**
 Both players' clients converge to the server.  `ViewStep` is what one event does to the part of
 the client state the server is authoritative for; the laws say that folding a player's own
 events, in any run of a session, gives the server's state.
 */
module Convergence {
  import opened Protocol
  import opened Engine
  import opened EngineLaws
  import opened GameStore
  import opened WsClient
  import opened OptimisticEngine
  import opened SessionModel
  import opened SessionRuns
  import opened ReplayBuffer

  // ---------- what events do to the view ----------

  function ViewStep(view: GameView, event: Event): GameView
    decreases event, 0
  {
    match event
    case RoomJoined(_, _, _, _, rs) => ViewOf(rs)
    case GameStarted(_, gameId, board, firstTurn, _, _, _) => GameView(board, firstTurn, Active, Some(gameId), None)
    case MoveAck(_, _, _, _, _, board, nextTurn, _) => view.(board := board, turn := nextTurn.GetOr(view.turn))
    case MoveBroadcast(_, _, _, _, _, _, board, nextTurn) => view.(board := board, turn := nextTurn.GetOr(view.turn))
    case MoveRejected(_, _, _, _, board, turn, _) => view.(board := board, turn := turn)
    case GameFinished(_, _, result, board, _, _) => view.(board := board, status := Finished, result := Some(result))
    case ReconnectAck(_, _, _, rs) => ViewOf(rs)
    case StateSyncReplay(_, _, events) => ViewSteps(view, events)
    case StateSyncSnapshot(_, rs) => ViewOf(rs)
    case _ => view
  }

  function ViewSteps(view: GameView, events: seq<Event>): GameView
    decreases events, 1
  {
    if events == [] then view
    else ViewStep(ViewSteps(view, events[..|events| - 1]), events[|events| - 1])
  }

  lemma {:induction false} DispatchShows(w: ClientWorld, event: Event, mySymbol: Symbol)
    ensures Dispatch(w, event, mySymbol).store.confirmed == ViewStep(w.store.confirmed, event)
    decreases event, 0
  {
    hide Reduce;
    if event.StateSyncReplay? {
      DispatchAllShows(w, event.events, mySymbol);
      assert Handle(w, event, mySymbol) == DispatchAll(w, event.events, mySymbol);
      assert ViewStep(w.store.confirmed, event) == ViewSteps(w.store.confirmed, event.events);
    } else {
      HandleShows(w, event, mySymbol);
    }
    if event.HasSeq() {
      CountingShowsNothing(Handle(w, event, mySymbol), event.sessionSeq);
    }
  }

  lemma CountingShowsNothing(w: ClientWorld, number: int)
    ensures Do(w, SeqAdvanced(number)).store.confirmed == w.store.confirmed
  {
  }

  lemma HandleShows(w: ClientWorld, event: Event, mySymbol: Symbol)
    requires !event.StateSyncReplay?
    ensures Handle(w, event, mySymbol).store.confirmed == ViewStep(w.store.confirmed, event)
  {
    hide DispatchAll;
    hide Dispatch;
    hide ViewSteps;
  }

  lemma {:induction false} DispatchAllShows(w: ClientWorld, events: seq<Event>, mySymbol: Symbol)
    ensures DispatchAll(w, events, mySymbol).store.confirmed == ViewSteps(w.store.confirmed, events)
    decreases events, 1
  {
    if events != [] {
      var n := |events| - 1;
      DispatchAllShows(w, events[..n], mySymbol);
      DispatchShows(DispatchAll(w, events[..n], mySymbol), events[n], mySymbol);
    }
  }

  lemma FrameShows(w: ClientWorld, event: Event)
    ensures Frame(w, event).store.confirmed == ViewStep(w.store.confirmed, event)
  {
    var tracked := if event.AuthAck? then Do(w, WsStateChanged(Authenticated)) else Track(w, event);
    DispatchShows(tracked, event, tracked.store.mySymbol.GetOr(X));
    hide Dispatch;
    hide Handle;
  }

  lemma {:induction false} FramesShow(w: ClientWorld, frames: seq<Event>)
    ensures Frames(w, frames).store.confirmed == ViewSteps(w.store.confirmed, frames)
  {
    hide Frame;
    if frames != [] {
      FramesShow(w, frames[..|frames| - 1]);
      FrameShows(Frames(w, frames[..|frames| - 1]), frames[|frames| - 1]);
    }
  }

  lemma {:induction false} ViewStepsAppend(view: GameView, a: seq<Event>, b: seq<Event>)
    ensures ViewSteps(view, a + b) == ViewSteps(ViewSteps(view, a), b)
    decreases |b|
  {
    hide ViewStep;
    if b == [] {
      assert a + b == a;
    } else {
      var n := |b| - 1;
      assert (a + b)[..|a| + n] == a + b[..n];
      ViewStepsAppend(view, a, b[..n]);
    }
  }

  // ---------- convergence ----------

  function SessionView(s: Session): GameView {
    if s.game.None? then NO_GAME else ServerView(s.game.value)
  }

  /** What the view of `p` is after all events of the log that `p` may see. */
  function ViewAfter(view: GameView, log: seq<Entry>, p: PlayerId): GameView {
    ViewSteps(view, Scoped(log, 1, p))
  }

  /**
   Wherever a client started from, its own events of the log lead it to the server's state; until
   the first game they change nothing.
   */
  ghost predicate Converged(s: Session) {
    forall view, p :: ViewAfter(view, s.log, p) == if s.game.None? then view else ServerView(s.game.value)
  }

  lemma ViewAfterAppend(view: GameView, log: seq<Entry>, news: seq<Entry>, p: PlayerId)
    ensures ViewAfter(view, log + news, p) == ViewAfter(ViewAfter(view, log, p), news, p)
  {
    ScopedAppend(log, news, 1, p);
    ViewStepsAppend(view, Scoped(log, 1, p), Scoped(news, 1, p));
  }

  /** One entry, seen or not. */
  lemma ViewAfterOne(view: GameView, entry: Entry, p: PlayerId)
    requires entry.event.HasSeq() && entry.event.sessionSeq >= 1
    ensures ViewAfter(view, [entry], p) == if VisibleTo(entry, p) then ViewStep(view, entry.event) else view
  {
    hide ViewStep;
    hide VisibleTo;
    var events := Scoped([entry], 1, p);
    var one := [entry];
    assert one[..|one| - 1] == [] && one[|one| - 1] == entry;
    assert Scoped(one, 1, p) == Scoped([], 1, p) + if Relevant(entry, 1, p) then [entry.event] else [];
    assert events == if VisibleTo(entry, p) then [entry.event] else [];
    if VisibleTo(entry, p) {
      assert events[..|events| - 1] == [];
      assert ViewSteps(view, events) == ViewStep(ViewSteps(view, []), entry.event);
    }
  }

  lemma ViewAfterCons(view: GameView, entry: Entry, rest: seq<Entry>, p: PlayerId)
    requires entry.event.HasSeq() && entry.event.sessionSeq >= 1
    ensures ViewAfter(view, [entry] + rest, p) ==
            ViewAfter(if VisibleTo(entry, p) then ViewStep(view, entry.event) else view, rest, p)
  {
    hide ViewStep;
    hide ViewAfter;
    ViewAfterAppend(view, [entry], rest, p);
    ViewAfterOne(view, entry, p);
  }

  lemma ViewAfterNone(view: GameView, p: PlayerId)
    ensures ViewAfter(view, [], p) == view
  {
  }

  lemma EndIsShown(number: nat, before: GameView, ended: GameState, anchor: PlayerId, p: PlayerId)
    requires number >= 1 && ended.result.Some? && ended.status == Finished
    requires before.turn == ended.currentTurn && before.gameId == Some(ended.gameId)
    ensures ViewAfter(before, EndNews(number, ended, anchor), p) == ServerView(ended)
  {
    hide ViewAfter;
    hide StatsOf;
    ViewAfterOne(before, EndNews(number, ended, anchor)[0], p);
  }

  /** The mover sees the ack, the opponent the broadcast; both end where the server is. */
  lemma MoveIsShown(
    s: Session, p: PlayerId, mover: PlayerId, position: RawPosition, id: CommandId, command: MoveCommand
  )
    requires s.game.Some? && s.game.value.result.None? && ApplyMove(s.game.value, command).Accepted?
    ensures var r := ApplyMove(s.game.value, command);
            ViewAfter(ServerView(s.game.value), MoveNews(s, mover, position, id, r.newState, r.events[0]), p) ==
            ServerView(r.newState)
  {
    hide ApplyMove;
    hide PlaceMark;
    hide ViewAfter;
    hide StatsOf;
    hide EndNews;
    var state := s.game.value;
    var r := ApplyMove(state, command);
    MoveShape(state, command);
    PlaceShape(state, state.currentTurn, Pos(command.row, command.col), command.timestamp);
    MoveEvents(state, command);
    var news := MoveNews(s, mover, position, id, r.newState, r.events[0]);
    var view := ServerView(state);
    var tail := if r.newState.result.Some? then EndNews(s.seqNo + 3, r.newState, mover) else [];
    assert news == [news[0]] + ([news[1]] + tail);
    ViewAfterCons(view, news[0], [news[1]] + tail, p);
    var acked := if VisibleTo(news[0], p) then ViewStep(view, news[0].event) else view;
    ViewAfterCons(acked, news[1], tail, p);
    var moved := if VisibleTo(news[1], p) then ViewStep(acked, news[1].event) else acked;
    assert moved == view.(board := r.newState.board, turn := r.newState.currentTurn);
    if r.newState.result.Some? {
      EndIsShown(s.seqNo + 3, moved, r.newState, mover, p);
    } else {
      ViewAfterNone(moved, p);
    }
  }

  /** News about anything but the game itself leave every view alone. */
  lemma NeutralNews(view: GameView, news: seq<Entry>, p: PlayerId)
    requires |news| <= 1
    requires news != [] ==> news[0].event.HasSeq() && news[0].event.sessionSeq >= 1
    requires news != [] ==> ViewStep(view, news[0].event) == view
    ensures ViewAfter(view, news, p) == view
  {
    hide ViewAfter;
    if news == [] {
      ViewAfterNone(view, p);
    } else {
      assert news == [news[0]];
      ViewAfterOne(view, news[0], p);
    }
  }

  /** The news of an operation carry exactly its effect on the game, to every player. */
  lemma {:induction false} NewsCarry(w: World, op: Op, view: GameView, p: PlayerId)
    requires GameSound(w.session)
    requires !Starts(w.session, op) && w.session.game.Some? ==> view == ServerView(w.session.game.value)
    ensures ViewAfter(view, News(w, op), p) ==
            if NextGame(w.session, op).Some? then ServerView(NextGame(w.session, op).value) else view
  {
    hide ViewAfter;
    hide ApplyMove;
    hide StatsOf;
    hide WellPlayed;
    var s := w.session;
    match op
    case Moving(_, _, _, _, _) => MoveCarries(w, op, view, p);
    case Starting(_, _, _) => StartCarries(w, op, view, p);
    case Accepting(_, _, _, _, _) => StartCarries(w, op, view, p);
    case Forfeiting(player, now) =>
      if IsActive(s) {
        EndIsShown(s.seqNo + 1, view, ForfeitGame(s.game.value, player, now), player, p);
      } else {
        ViewAfterNone(view, p);
      }
    case FiringReconnect(id, now) => FiringCarries(w, op, view, p);
    case _ => NeutralNews(view, News(w, op), p);
  }

  lemma StartCarries(w: World, op: Op, view: GameView, p: PlayerId)
    requires op.Starting? || op.Accepting?
    requires !Starts(w.session, op) && w.session.game.Some? ==> view == ServerView(w.session.game.value)
    ensures ViewAfter(view, News(w, op), p) ==
            if NextGame(w.session, op).Some? then ServerView(NextGame(w.session, op).value) else view
  {
    hide ViewAfter;
    hide Agreed;
    var news := News(w, op);
    if news == [] {
      ViewAfterNone(view, p);
    } else {
      assert news == [news[0]];
      ViewAfterOne(view, news[0], p);
    }
  }

  lemma MoveCarries(w: World, op: Op, view: GameView, p: PlayerId)
    requires GameSound(w.session) && op.Moving?
    requires w.session.game.Some? ==> view == ServerView(w.session.game.value)
    ensures ViewAfter(view, News(w, op), p) ==
            if NextGame(w.session, op).Some? then ServerView(NextGame(w.session, op).value) else view
  {
    hide ViewAfter;
    hide ApplyMove;
    hide MoveNews;
    var s := w.session;
    if Reaches(s, op.target) {
      var command := MoveCommand(op.playerId, op.position.row, op.position.col, op.commandId, op.now);
      MoveShape(s.game.value, command);
      if ApplyMove(s.game.value, command).Accepted? {
        MoveIsShown(s, p, op.playerId, op.position, op.commandId, command);
      } else {
        NeutralNews(view, News(w, op), p);
      }
    } else {
      ViewAfterNone(view, p);
    }
  }

  lemma FiringCarries(w: World, op: Op, view: GameView, p: PlayerId)
    requires op.FiringReconnect?
    requires w.session.game.Some? ==> view == ServerView(w.session.game.value)
    ensures ViewAfter(view, News(w, op), p) ==
            if NextGame(w.session, op).Some? then ServerView(NextGame(w.session, op).value) else view
  {
    hide ViewAfter;
    hide EndNews;
    var s := w.session;
    if !IsReconnectTimer(s, op.id) {
      ViewAfterNone(view, p);
    } else {
      var timer := s.timers[op.id];
      if IsActive(s) {
        var ended := AbandonGame(s.game.value, timer.playerId, op.now);
        EndIsShown(s.seqNo + 1, view, ended, timer.playerId, p);
        ViewAfterAppend(view, EndNews(s.seqNo + 1, ended, timer.playerId), LeftNews(s.seqNo + 2, timer), p);
        NeutralNews(ServerView(ended), LeftNews(s.seqNo + 2, timer), p);
      } else {
        NeutralNews(view, LeftNews(s.seqNo + 1, timer), p);
      }
    }
  }

  lemma StepConverges(w: World, op: Op)
    requires Converged(w.session) && GameSound(w.session)
    ensures Converged(Step(w, op).session)
  {
    hide Step;
    hide News;
    hide NextGame;
    hide Starts;
    hide SkipsNumber;
    hide ViewAfter;
    hide Scoped;
    hide WellPlayed;
    StepAnnounces(w, op);
    StepGame(w, op);
    StartHasGame(w.session, op);
    var s, t := w.session, Step(w, op).session;
    forall view, p ensures ViewAfter(view, t.log, p) == if t.game.None? then view else ServerView(t.game.value) {
      var base := Numbered(s, op);
      ViewAfterAppend(view, base.log, News(w, op), p);
      ViewAfterNone(view, p);
      NewsCarry(w, op, ViewAfter(view, base.log, p), p);
      assert t.log == base.log + News(w, op);
    }
  }

  lemma StartHasGame(s: Session, op: Op)
    ensures Starts(s, op) ==> NextGame(s, op).Some?
    ensures s.game.Some? ==> NextGame(s, op).Some?
  {
    hide ApplyMove;
  }

  lemma {:induction false} RunConverges(w: World, ops: seq<Op>)
    requires Created(w)
    ensures Converged(Run(w, ops).session) && GameSound(Run(w, ops).session)
  {
    hide Step;
    if ops == [] {
      forall view, p ensures ViewAfter(view, [], p) == view {
        ViewAfterNone(view, p);
      }
    } else {
      RunConverges(w, ops[..|ops| - 1]);
      StepConverges(Run(w, ops[..|ops| - 1]), ops[|ops| - 1]);
      StepKeepsGameSound(Run(w, ops[..|ops| - 1]), ops[|ops| - 1]);
    }
  }

  /**
   Convergence.  In every run of a session, once a game was started: whatever state a client was
   in, after it handled the frames of the log addressed to it, acks for its own moves and
   broadcasts for the others', it shows the server's board, turn, status, game id and result.
   */
  lemma {:induction false} ClientConverges(w: World, ops: seq<Op>, client: ClientWorld, p: PlayerId)
    requires Created(w) && Run(w, ops).session.game.Some?
    ensures var s := Run(w, ops).session;
            Frames(client, Scoped(s.log, 1, p)).store.confirmed == ServerView(s.game.value)
  {
    RunConverges(w, ops);
    var s := Run(w, ops).session;
    FramesShow(client, Scoped(s.log, 1, p));
    assert ViewAfter(client.store.confirmed, s.log, p) == ServerView(s.game.value);
  }
}
