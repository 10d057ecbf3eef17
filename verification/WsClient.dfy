/**
 From frames to state: sequence tracking of the transport, the mapping of events to store
 actions, and the two ways a STATE_SYNC is installed.
 */
module WsClient {
  import opened Protocol
  import opened GameStore

  /** Everything a frame can change: the store, the transport's counter and room, the gap requests. */
  datatype ClientWorld = ClientWorld(
    store: ClientState,
    lastSeq: int,
    room: Option<RoomId>,
    syncRequests: seq<int>)

  function Do(w: ClientWorld, action: Action): ClientWorld {
    w.(store := Reduce(w.store, action))
  }

  /** The game part of a room snapshot as the client installs it. */
  function ViewOf(snapshot: RoomSnapshot): GameView {
    match snapshot.currentGame
    case None => NO_GAME
    case Some(g) => GameView(g.board, g.currentTurn, g.status, Some(g.gameId), g.result)
  }

  /**
   `mySymbol` is the symbol in the state the handler was called with; it is handed down unchanged
   to replayed events.
   */
  function Dispatch(w: ClientWorld, event: Event, mySymbol: Symbol): ClientWorld
    decreases event, 1
  {
    var handled := Handle(w, event, mySymbol);
    if event.HasSeq() then Do(handled, SeqAdvanced(event.sessionSeq)) else handled
  }

  function Handle(w: ClientWorld, event: Event, mySymbol: Symbol): ClientWorld
    decreases event, 0
  {
    match event
    case AuthAck(token, player, existing) =>
      Do(w, AuthAcked(token, player, existing)).(
        room := if existing.Some? then Some(existing.value.roomId) else w.room)
    case RoomJoined(_, room, _, symbol, rs) =>
      Do(w.(room := Some(room)), JoinedRoom(room, symbol, rs.readyPlayers, ViewOf(rs)))
    case PlayerJoined(_, _, symbol, _) => Do(w, OtherJoined(symbol))
    case RoomLeft(_) => w
    case PlayerLeft(_, _, symbol, _) => Do(w, OtherLeft(symbol))
    case PlayerReadyAck(_, ready) => Do(w, ReadyChanged(ready))
    case OpponentReady(_, _, ready) => Do(w, ReadyChanged(ready))
    case GameStarted(_, gameId, board, firstTurn, _, _, _) =>
      Do(w.(lastSeq := 0), Started(gameId, board, firstTurn))
    case MoveAck(_, _, _, _, _, board, nextTurn, _) => Do(w, MoveAcked(board, nextTurn))
    case MoveBroadcast(_, _, _, _, _, _, board, nextTurn) => Do(w, MoveSeen(board, nextTurn))
    case MoveRejected(_, _, _, _, board, turn, _) => Do(w, MoveRefused(board, turn))
    case GameFinished(_, _, result, finalBoard, _, _) => Do(w, FinishedGame(result, finalBoard))
    case RematchRequested(_, _, who, expiresAt) => Do(w, RematchAsked(who, expiresAt))
    case RematchDeclined(_, _, _) => Do(w, RematchRefused)
    case RematchExpired(_, _) => Do(w, RematchTimedOut)
    case OpponentDisconnected(_, _, deadline) => Do(w, OpponentGone(deadline))
    case OpponentReconnected(_, _) => Do(w, OpponentBack)
    case ReconnectAck(number, _, symbol, rs) => Do(w, Resynced(symbol, ViewOf(rs), rs.readyPlayers, number))
    case StateSyncReplay(_, _, events) => DispatchAll(w, events, mySymbol)
    case StateSyncSnapshot(number, rs) => Do(w, Resynced(mySymbol, ViewOf(rs), rs.readyPlayers, number))
    case Error(_) => w
  }

  function DispatchAll(w: ClientWorld, events: seq<Event>, mySymbol: Symbol): ClientWorld
    decreases events, 2
  {
    if events == [] then w
    else Dispatch(DispatchAll(w, events[..|events| - 1], mySymbol), events[|events| - 1], mySymbol)
  }

  predicate IsSync(event: Event) {
    event.StateSyncReplay? || event.StateSyncSnapshot?
  }

  predicate IsGap(w: ClientWorld, event: Event) {
    event.HasSeq() && !IsSync(event) && !event.GameStarted? && event.sessionSeq > w.lastSeq + 1
  }

  predicate CanRequest(w: ClientWorld) {
    w.store.roomId.Some? && w.store.sessionToken.Some?
  }

  /** Sequence tracking before the event is handed on. */
  function Track(w: ClientWorld, event: Event): ClientWorld {
    if !event.HasSeq() then w
    else if event.GameStarted? || IsSync(event) then w.(lastSeq := event.sessionSeq)
    else if event.sessionSeq > w.lastSeq + 1 then
      (if CanRequest(w) then w.(syncRequests := w.syncRequests + [w.lastSeq + 1]) else w)
    else if event.sessionSeq == w.lastSeq + 1 then w.(lastSeq := event.sessionSeq)
    else w
  }

  function Frame(w: ClientWorld, event: Event): ClientWorld {
    var tracked := if event.AuthAck? then Do(w, WsStateChanged(Authenticated)) else Track(w, event);
    var handled := Dispatch(tracked, event, tracked.store.mySymbol.GetOr(X));
    if IsSync(event) then handled.(lastSeq := event.sessionSeq) else handled
  }

  class WsClient {
    var store: ClientState
    var lastSeq: int
    var room: Option<RoomId>
    var syncRequests: seq<int>

    ghost function World(): ClientWorld
      reads this
    {
      ClientWorld(store, lastSeq, room, syncRequests)
    }

    constructor ()
      ensures World() == ClientWorld(INITIAL_STATE, 0, None, [])
    {
      store, lastSeq, room, syncRequests := INITIAL_STATE, 0, None, [];
    }

    method ResetSequence()
      modifies this`lastSeq
      ensures lastSeq == 0
    {
      lastSeq := 0;
    }

    method Apply(action: Action)
      modifies this`store
      ensures store == Reduce(old(store), action)
    {
      store := Reduce(store, action);
    }

    method OnSequenceGap(fromSeq: int)
      modifies this`syncRequests
      ensures syncRequests == old(syncRequests) + if CanRequest(old(World())) then [fromSeq] else []
    {
      if store.roomId.None? || store.sessionToken.None? {
        return;
      }
      syncRequests := syncRequests + [fromSeq];
    }

    /** The event-to-action mapping, one action at a time. */
    method DispatchEvent(event: Event, mySymbol: Symbol)
      modifies this
      ensures World() == Dispatch(old(World()), event, mySymbol)
      decreases event, 1
    {
      hide Reduce;
      match event {
        case AuthAck(token, player, existing) =>
          Apply(AuthAcked(token, player, existing));
          if existing.Some? {
            room := Some(existing.value.roomId);
          }
        case RoomJoined(_, joined, _, symbol, rs) =>
          room := Some(joined);
          Apply(JoinedRoom(joined, symbol, rs.readyPlayers, ViewOf(rs)));
        case PlayerJoined(_, _, symbol, _) => Apply(OtherJoined(symbol));
        case RoomLeft(_) =>
        case PlayerLeft(_, _, symbol, _) => Apply(OtherLeft(symbol));
        case PlayerReadyAck(_, ready) => Apply(ReadyChanged(ready));
        case OpponentReady(_, _, ready) => Apply(ReadyChanged(ready));
        case GameStarted(_, gameId, board, firstTurn, _, _, _) =>
          ResetSequence();
          Apply(Started(gameId, board, firstTurn));
        case MoveAck(_, _, _, _, _, board, nextTurn, _) => Apply(MoveAcked(board, nextTurn));
        case MoveBroadcast(_, _, _, _, _, _, board, nextTurn) => Apply(MoveSeen(board, nextTurn));
        case MoveRejected(_, _, _, _, board, turn, _) => Apply(MoveRefused(board, turn));
        case GameFinished(_, _, result, finalBoard, _, _) => Apply(FinishedGame(result, finalBoard));
        case RematchRequested(_, _, who, expiresAt) => Apply(RematchAsked(who, expiresAt));
        case RematchDeclined(_, _, _) => Apply(RematchRefused);
        case RematchExpired(_, _) => Apply(RematchTimedOut);
        case OpponentDisconnected(_, _, deadline) => Apply(OpponentGone(deadline));
        case OpponentReconnected(_, _) => Apply(OpponentBack);
        case ReconnectAck(number, _, symbol, rs) =>
          Apply(Resynced(symbol, ViewOf(rs), rs.readyPlayers, number));
        case StateSyncReplay(_, _, events) => DispatchReplay(events, mySymbol);
        case StateSyncSnapshot(number, rs) =>
          Apply(Resynced(mySymbol, ViewOf(rs), rs.readyPlayers, number));
        case Error(_) =>
      }
      if event.HasSeq() {
        Apply(SeqAdvanced(event.sessionSeq));
      }
    }

    method DispatchReplay(events: seq<Event>, mySymbol: Symbol)
      modifies this
      ensures World() == DispatchAll(old(World()), events, mySymbol)
      decreases events, 2
    {
      for i := 0 to |events|
        invariant World() == DispatchAll(old(World()), events[..i], mySymbol)
      {
        assert events[..i + 1][..i] == events[..i];
        DispatchEvent(events[i], mySymbol);
      }
      assert events[..|events|] == events;
    }

    method HandleFrame(event: Event)
      modifies this
      ensures World() == Frame(old(World()), event)
      ensures IsSync(event) ==> lastSeq == store.lastReceivedSeq == event.sessionSeq
      ensures IsGap(old(World()), event) ==> lastSeq == old(lastSeq)
    {
      if event.AuthAck? {
        Apply(WsStateChanged(Authenticated));
      }
      if event.HasSeq() {
        var number := event.sessionSeq;
        if event.GameStarted? || IsSync(event) {
          lastSeq := number;
        } else if number > lastSeq + 1 {
          OnSequenceGap(lastSeq + 1);
        } else if number == lastSeq + 1 {
          lastSeq := number;
        }
      }
      assert World() == if event.AuthAck? then Do(old(World()), WsStateChanged(Authenticated))
                        else Track(old(World()), event);
      DispatchEvent(event, store.mySymbol.GetOr(X));
      FrameTracks(old(World()), event);
      if IsSync(event) {
        lastSeq := event.sessionSeq;
      }
    }
  }

  lemma StartResetsCounter(w: ClientWorld, event: Event, mySymbol: Symbol)
    requires event.GameStarted?
    ensures var v := Dispatch(w, event, mySymbol);
            && v.lastSeq == 0 && v.syncRequests == w.syncRequests && v.store.lastReceivedSeq == event.sessionSeq
            && v.store.roomId == w.store.roomId && v.store.sessionToken == w.store.sessionToken
  {
    assert Handle(w, event, mySymbol) == Do(w.(lastSeq := 0), Started(event.gameId, event.board, event.firstTurn));
  }

  /** Only a GAME_STARTED, alone or inside a replay, moves the transport's counter. */
  lemma HandleKeepsCounters(w: ClientWorld, event: Event, mySymbol: Symbol)
    requires !event.StateSyncReplay? && !event.GameStarted?
    ensures Handle(w, event, mySymbol).lastSeq == w.lastSeq
    ensures Handle(w, event, mySymbol).syncRequests == w.syncRequests
  {
  }

  // ---------- what a frame changes besides the game ----------

  /** What is shown of the other player's presence after an event. */
  function PresenceAfter(before: OpponentConnection, event: Event): OpponentConnection {
    match event
    case OpponentDisconnected(_, _, deadline) => Disconnected(deadline)
    case OpponentReconnected(_, _) => Reconnected
    case _ => before
  }

  /** What is shown of a rematch: whose proposal it is depends on the client's own symbol. */
  function RematchAfter(before: RematchView, mySymbol: Option<Symbol>, event: Event): RematchView {
    match event
    case RoomJoined(_, _, _, _, _) => NoRematch
    case GameStarted(_, _, _, _, _, _, _) => NoRematch
    case RematchRequested(_, _, who, expiresAt) =>
      if mySymbol == Some(who) then RequestedByMe(expiresAt) else RequestedByThem(expiresAt)
    case RematchDeclined(_, _, _) => Declined
    case RematchExpired(_, _) => Expired
    case _ => before
  }

  /** Who the client is in its room; a snapshot confirms what it was, and X by default. */
  function SymbolAfter(before: Option<Symbol>, event: Event): Option<Symbol> {
    match event
    case AuthAck(_, _, Some(room)) => Some(room.symbol)
    case RoomJoined(_, _, _, symbol, _) => Some(symbol)
    case ReconnectAck(_, _, symbol, _) => Some(symbol)
    case StateSyncSnapshot(_, _) => Some(before.GetOr(X))
    case _ => before
  }

  function ReadyAfter(before: set<Symbol>, event: Event): set<Symbol> {
    match event
    case RoomJoined(_, _, _, _, snapshot) => snapshot.readyPlayers
    case ReconnectAck(_, _, _, snapshot) => snapshot.readyPlayers
    case StateSyncSnapshot(_, snapshot) => snapshot.readyPlayers
    case PlayerReadyAck(_, ready) => ready
    case OpponentReady(_, _, ready) => ready
    case PlayerLeft(_, _, symbol, _) => before - {symbol}
    case _ => before
  }

  function RoomAfter(before: Option<RoomId>, event: Event): Option<RoomId> {
    match event
    case AuthAck(_, _, Some(room)) => Some(room.roomId)
    case RoomJoined(_, room, _, _, _) => Some(room)
    case _ => before
  }

  lemma HandleTellsPresence(w: ClientWorld, event: Event, mySymbol: Symbol)
    requires !event.StateSyncReplay?
    ensures Handle(w, event, mySymbol).store.opponentConnection == PresenceAfter(w.store.opponentConnection, event)
  {
    hide Dispatch;
    hide DispatchAll;
  }

  lemma HandleTellsRematch(w: ClientWorld, event: Event, mySymbol: Symbol)
    requires !event.StateSyncReplay?
    ensures Handle(w, event, mySymbol).store.rematch == RematchAfter(w.store.rematch, w.store.mySymbol, event)
  {
    hide Dispatch;
    hide DispatchAll;
  }

  lemma HandleTellsSymbol(w: ClientWorld, event: Event)
    requires !event.StateSyncReplay?
    ensures Handle(w, event, w.store.mySymbol.GetOr(X)).store.mySymbol == SymbolAfter(w.store.mySymbol, event)
  {
    hide Dispatch;
    hide DispatchAll;
  }

  lemma HandleTellsReady(w: ClientWorld, event: Event, mySymbol: Symbol)
    requires !event.StateSyncReplay?
    ensures Handle(w, event, mySymbol).store.readyPlayers == ReadyAfter(w.store.readyPlayers, event)
  {
    hide Dispatch;
    hide DispatchAll;
  }

  lemma HandleTellsRoom(w: ClientWorld, event: Event, mySymbol: Symbol)
    requires !event.StateSyncReplay?
    ensures var v := Handle(w, event, mySymbol);
            v.store.roomId == RoomAfter(w.store.roomId, event) && v.room == RoomAfter(w.room, event)
  {
    hide Dispatch;
    hide DispatchAll;
  }

  lemma HandleTellsLogin(w: ClientWorld, event: Event, mySymbol: Symbol)
    requires !event.StateSyncReplay?
    ensures var v := Handle(w, event, mySymbol);
            && v.store.wsState == w.store.wsState
            && v.store.playerId == (if event.AuthAck? then Some(event.playerId) else w.store.playerId)
            && v.store.sessionToken == (if event.AuthAck? then Some(event.sessionToken) else w.store.sessionToken)
  {
    hide Dispatch;
    hide DispatchAll;
  }

  /**
   Besides the game, a frame changes what its event speaks of, and nothing else: the other player's
   presence, the rematch, the client's symbol, readiness, room and login.
   */
  lemma FrameTells(w: ClientWorld, event: Event)
    requires !event.StateSyncReplay?
    ensures var before, after := w.store, Frame(w, event).store;
            && after.opponentConnection == PresenceAfter(before.opponentConnection, event)
            && after.rematch == RematchAfter(before.rematch, before.mySymbol, event)
            && after.mySymbol == SymbolAfter(before.mySymbol, event)
            && after.readyPlayers == ReadyAfter(before.readyPlayers, event)
            && after.roomId == RoomAfter(before.roomId, event) && Frame(w, event).room == RoomAfter(w.room, event)
            && after.wsState == (if event.AuthAck? then Authenticated else before.wsState)
            && after.playerId == (if event.AuthAck? then Some(event.playerId) else before.playerId)
            && after.sessionToken == (if event.AuthAck? then Some(event.sessionToken) else before.sessionToken)
  {
    hide Handle;
    hide PresenceAfter;
    hide RematchAfter;
    hide SymbolAfter;
    hide ReadyAfter;
    hide RoomAfter;
    var tracked := if event.AuthAck? then Do(w, WsStateChanged(Authenticated)) else Track(w, event);
    var mySymbol := tracked.store.mySymbol.GetOr(X);
    HandleTellsPresence(tracked, event, mySymbol);
    HandleTellsRematch(tracked, event, mySymbol);
    HandleTellsSymbol(tracked, event);
    HandleTellsReady(tracked, event, mySymbol);
    HandleTellsRoom(tracked, event, mySymbol);
    HandleTellsLogin(tracked, event, mySymbol);
  }

  // ---------- sequence safety over all frames ----------

  function Frames(w: ClientWorld, frames: seq<Event>): ClientWorld {
    if frames == [] then w
    else Frame(Frames(w, frames[..|frames| - 1]), frames[|frames| - 1])
  }

  /** Where counting restarted: a STATE_SYNC sets the head, a GAME_STARTED restarts at zero. */
  function SyncBase(frames: seq<Event>): int {
    if frames == [] then 0
    else
      var last := frames[|frames| - 1];
      if IsSync(last) then last.sessionSeq
      else if last.GameStarted? then 0
      else SyncBase(frames[..|frames| - 1])
  }

  /** The numbers received since then. */
  function ReceivedSince(frames: seq<Event>): set<int> {
    if frames == [] then {}
    else
      var last := frames[|frames| - 1];
      if IsSync(last) || last.GameStarted? then {}
      else ReceivedSince(frames[..|frames| - 1]) + if last.HasSeq() then {last.sessionSeq} else {}
  }

  lemma FrameTracks(w: ClientWorld, event: Event)
    ensures var v := Frame(w, event);
            && (IsSync(event) ==> v.lastSeq == event.sessionSeq == v.store.lastReceivedSeq)
            && (event.GameStarted? ==> v.lastSeq == 0 && v.store.lastReceivedSeq == event.sessionSeq)
            && (!IsSync(event) && !event.GameStarted? ==>
                  v.lastSeq == (if event.HasSeq() && event.sessionSeq == w.lastSeq + 1
                                then event.sessionSeq else w.lastSeq))
            && (!event.StateSyncReplay? ==>
                  v.syncRequests ==
                  w.syncRequests + (if IsGap(w, event) && CanRequest(w) then [w.lastSeq + 1] else []))
  {
    var tracked := if event.AuthAck? then Do(w, WsStateChanged(Authenticated)) else Track(w, event);
    var mySymbol := tracked.store.mySymbol.GetOr(X);
    if event.GameStarted? {
      StartResetsCounter(tracked, event, mySymbol);
    } else if !event.StateSyncReplay? {
      HandleKeepsCounters(tracked, event, mySymbol);
    }
  }

  /** The counter never overstates: every number up to it, since the last synchronisation, arrived. */
  lemma {:induction false} NeverOverstated(w: ClientWorld, frames: seq<Event>)
    requires w.lastSeq == 0
    ensures forall n :: SyncBase(frames) < n <= Frames(w, frames).lastSeq ==> n in ReceivedSince(frames)
  {
    if frames != [] {
      NeverOverstated(w, frames[..|frames| - 1]);
      FrameTracks(Frames(w, frames[..|frames| - 1]), frames[|frames| - 1]);
    }
  }

  /**
   A frame that skips a number leaves the counter alone, and a client that is signed in and in a
   room asks from the next number on.
   */
  lemma GapAsksFromNext(w: ClientWorld, event: Event)
    requires !event.AuthAck? && !event.Error? && !event.StateSyncReplay? && !event.StateSyncSnapshot?
    requires !event.GameStarted? && event.sessionSeq > w.lastSeq + 1
    ensures Frame(w, event).lastSeq == w.lastSeq
    ensures Frame(w, event).syncRequests ==
            w.syncRequests + if w.store.roomId.Some? && w.store.sessionToken.Some? then [w.lastSeq + 1] else []
  {
    FrameTracks(w, event);
  }

  /** After any STATE_SYNC, even one that replays a GAME_STARTED, transport and store agree on its number. */
  lemma SyncAligns(w: ClientWorld, event: Event)
    requires IsSync(event)
    ensures Frame(w, event).lastSeq == event.sessionSeq
    ensures Frame(w, event).store.lastReceivedSeq == event.sessionSeq
  {
    FrameTracks(w, event);
  }

  /**
   A live GAME_STARTED numbered 1 leaves the transport at 0 while the store has 1; so the very
   next event, though in order, is taken for a gap and everything from 1 on is asked for again.
   */
  lemma StartIsCountedTwice(w: ClientWorld, started: Event, next: Event)
    requires started.GameStarted? && started.sessionSeq == 1
    requires next.HasSeq() && next.sessionSeq == 2 && !IsSync(next) && !next.GameStarted?
    ensures Frame(w, started).lastSeq == 0 && Frame(w, started).store.lastReceivedSeq == 1
    ensures IsGap(Frame(w, started), next)
    ensures Frame(Frame(w, started), next).lastSeq == 0
    ensures CanRequest(w) ==> Frame(Frame(w, started), next).syncRequests == w.syncRequests + [1]
  {
    FrameTracks(w, started);
    FrameTracks(Frame(w, started), next);
    StartResetsCounter(Track(w, started), started, w.store.mySymbol.GetOr(X));
  }

  // ---------- when nothing is missing ----------

  /** The number of the newest numbered frame, `n` before the first. */
  function Newest(n: int, frames: seq<Event>): int {
    if frames == [] then n
    else
      var last := frames[|frames| - 1];
      if last.HasSeq() then last.sessionSeq else Newest(n, frames[..|frames| - 1])
  }

  /** A GAME_STARTED has number 1, a STATE_SYNC its own, any other numbered frame the next one. */
  predicate Follows(newest: int, event: Event) {
    event.HasSeq() && !IsSync(event) ==> event.sessionSeq == if event.GameStarted? then 1 else newest + 1
  }

  /** No number is missing. */
  predicate InOrder(n: int, frames: seq<Event>) {
    frames == [] ||
    (InOrder(n, frames[..|frames| - 1]) && Follows(Newest(n, frames[..|frames| - 1]), frames[|frames| - 1]))
  }

  /** A game has started since the last STATE_SYNC. */
  predicate StartedSinceSync(frames: seq<Event>) {
    frames != [] &&
    var last := frames[|frames| - 1];
    !IsSync(last) && (last.GameStarted? || StartedSinceSync(frames[..|frames| - 1]))
  }

  /** The counter over frames in order: it follows them until a game starts, then stays at 0 until a STATE_SYNC. */
  lemma {:induction false} InOrderCounter(w: ClientWorld, frames: seq<Event>)
    requires InOrder(w.lastSeq, frames)
    ensures Frames(w, frames).lastSeq == if StartedSinceSync(frames) then 0 else Newest(w.lastSeq, frames)
    ensures StartedSinceSync(frames) ==> Newest(w.lastSeq, frames) >= 1
  {
    hide Frame;
    if frames != [] {
      InOrderCounter(w, frames[..|frames| - 1]);
      FrameTracks(Frames(w, frames[..|frames| - 1]), frames[|frames| - 1]);
    }
  }

  /**
   Exactly when a frame in order is taken for a gap, over all frames in order: if and only if a
   game has started since the last STATE_SYNC; and then everything from 1 on is asked for again.
   */
  lemma {:induction false} InOrderGapIff(w: ClientWorld, frames: seq<Event>, next: Event)
    requires InOrder(w.lastSeq, frames) && Follows(Newest(w.lastSeq, frames), next)
    requires next.HasSeq() && !IsSync(next) && !next.GameStarted?
    ensures var v := Frames(w, frames);
            && (IsGap(v, next) <==> StartedSinceSync(frames))
            && (StartedSinceSync(frames) && CanRequest(v) ==>
                  Frame(v, next).syncRequests == v.syncRequests + [1] && Frame(v, next).lastSeq == 0)
  {
    hide Frame;
    InOrderCounter(w, frames);
    FrameTracks(Frames(w, frames), next);
  }
}
