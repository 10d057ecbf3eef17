/**
 Catching up: a replay of missed events, a snapshot, and a reconnect acknowledgement followed by
 a replay on top of it all lead to the server's state.
 */
module Recovery {
  import opened Protocol
  import opened GameStore
  import opened WsClient
  import opened Rooms
  import opened SessionModel
  import opened SessionRuns
  import opened Snapshots
  import opened ReplayBuffer
  import opened Convergence

  // ---------- events only overwrite ----------

  /** Which fields of the view an event, or a list of them, sets. */
  datatype Fields = Fields(board: bool, turn: bool, status: bool, gameId: bool, result: bool)

  const NO_FIELDS := Fields(false, false, false, false, false)

  const ALL_FIELDS := Fields(true, true, true, true, true)

  function Either(a: Fields, b: Fields): Fields {
    Fields(a.board || b.board, a.turn || b.turn, a.status || b.status, a.gameId || b.gameId, a.result || b.result)
  }

  predicate Covers(a: Fields, b: Fields) {
    && (b.board ==> a.board) && (b.turn ==> a.turn) && (b.status ==> a.status)
    && (b.gameId ==> a.gameId) && (b.result ==> a.result)
  }

  function Sets(event: Event): Fields
    decreases event, 0
  {
    match event
    case RoomJoined(_, _, _, _, _) => ALL_FIELDS
    case GameStarted(_, _, _, _, _, _, _) => ALL_FIELDS
    case MoveAck(_, _, _, _, _, _, nextTurn, _) => NO_FIELDS.(board := true, turn := nextTurn.Some?)
    case MoveBroadcast(_, _, _, _, _, _, _, nextTurn) => NO_FIELDS.(board := true, turn := nextTurn.Some?)
    case MoveRejected(_, _, _, _, _, _, _) => NO_FIELDS.(board := true, turn := true)
    case GameFinished(_, _, _, _, _, _) => NO_FIELDS.(board := true, status := true, result := true)
    case ReconnectAck(_, _, _, _) => ALL_FIELDS
    case StateSyncReplay(_, _, events) => SetBy(events)
    case StateSyncSnapshot(_, _) => ALL_FIELDS
    case _ => NO_FIELDS
  }

  function SetBy(events: seq<Event>): Fields
    decreases events, 1
  {
    if events == [] then NO_FIELDS else Either(SetBy(events[..|events| - 1]), Sets(events[|events| - 1]))
  }

  /** The views agree in the given fields. */
  predicate AgreeIn(fields: Fields, a: GameView, b: GameView) {
    && (fields.board ==> a.board == b.board) && (fields.turn ==> a.turn == b.turn)
    && (fields.status ==> a.status == b.status) && (fields.gameId ==> a.gameId == b.gameId)
    && (fields.result ==> a.result == b.result)
  }

  /** The views agree in all other fields. */
  predicate AgreeOutside(fields: Fields, a: GameView, b: GameView) {
    && (fields.board || a.board == b.board) && (fields.turn || a.turn == b.turn)
    && (fields.status || a.status == b.status) && (fields.gameId || a.gameId == b.gameId)
    && (fields.result || a.result == b.result)
  }

  /** An event sets its fields to values of its own, and leaves the others as they are. */
  lemma {:induction false} StepOverwrites(a: GameView, b: GameView, event: Event)
    ensures AgreeIn(Sets(event), ViewStep(a, event), ViewStep(b, event))
    ensures AgreeOutside(Sets(event), a, ViewStep(a, event))
    decreases event, 0
  {
    if event.StateSyncReplay? {
      StepsOverwrite(a, b, event.events);
      assert ViewStep(a, event) == ViewSteps(a, event.events);
      assert ViewStep(b, event) == ViewSteps(b, event.events);
    }
  }

  lemma {:induction false} StepsOverwrite(a: GameView, b: GameView, events: seq<Event>)
    ensures AgreeIn(SetBy(events), ViewSteps(a, events), ViewSteps(b, events))
    ensures AgreeOutside(SetBy(events), a, ViewSteps(a, events))
    decreases events, 1
  {
    if events != [] {
      var n := |events| - 1;
      StepsOverwrite(a, b, events[..n]);
      StepOverwrites(ViewSteps(a, events[..n]), ViewSteps(b, events[..n]), events[n]);
      StepOverwrites(ViewSteps(b, events[..n]), ViewSteps(a, events[..n]), events[n]);
    }
  }

  /** A list sets what each of its events sets. */
  lemma {:induction false} ListCovers(events: seq<Event>, i: nat)
    requires i < |events|
    ensures Covers(SetBy(events), Sets(events[i]))
  {
    hide Sets;
    var n := |events| - 1;
    if i < n {
      ListCovers(events[..n], i);
      assert events[..n][i] == events[i];
    }
  }

  /** Every event of `extra` is one of `events`, or sets nothing at all. */
  ghost predicate DrawnFrom(extra: seq<Event>, events: seq<Event>) {
    forall i | 0 <= i < |extra| :: extra[i] in events || Sets(extra[i]) == NO_FIELDS
  }

  lemma {:induction false} DrawnIsCovered(extra: seq<Event>, events: seq<Event>)
    requires DrawnFrom(extra, events)
    ensures Covers(SetBy(events), SetBy(extra))
  {
    hide Sets;
    if extra != [] {
      var n := |extra| - 1;
      DrawnIsCovered(extra[..n], events);
      if extra[n] in events {
        var i :| 0 <= i < |events| && events[i] == extra[n];
        ListCovers(events, i);
      }
    }
  }

  /**
   Events that overtook the others do not matter: having applied some of the events of a list
   already, in any order and any number of times, and then all of the list, shows the same as
   having applied the list alone.
   */
  lemma OvertakingIsHarmless(view: GameView, extra: seq<Event>, events: seq<Event>)
    requires DrawnFrom(extra, events)
    ensures ViewSteps(ViewSteps(view, extra), events) == ViewSteps(view, events)
  {
    hide ViewSteps;
    hide SetBy;
    DrawnIsCovered(extra, events);
    StepsOverwrite(view, view, extra);
    StepsOverwrite(ViewSteps(view, extra), view, events);
    StepsOverwrite(view, view, events);
  }

  /** Replaying any tail of the events that lead to a view on top of that view changes nothing. */
  lemma ReplayOnTop(final: GameView, older: seq<Event>, tail: seq<Event>)
    requires ViewSteps(final, older + tail) == final
    ensures ViewSteps(final, tail) == final
  {
    hide ViewSteps;
    hide SetBy;
    ViewStepsAppend(final, older, tail);
    StepsOverwrite(ViewSteps(final, older), final, tail);
    StepsOverwrite(final, final, tail);
  }

  // ---------- splitting the log ----------

  /** `k` divides the log into the entries before number `fromSeq` and the rest. */
  ghost predicate SplitsAt(log: seq<Entry>, k: nat, fromSeq: int) {
    && k <= |log|
    && (forall i | 0 <= i < k :: log[i].event.HasSeq() && log[i].event.sessionSeq < fromSeq)
    && (forall i | k <= i < |log| :: log[i].event.HasSeq() && log[i].event.sessionSeq >= fromSeq)
  }

  lemma {:induction false} SplitExists(log: seq<Entry>, upTo: nat, fromSeq: int) returns (k: nat)
    requires Ordered(log, upTo)
    ensures SplitsAt(log, k, fromSeq)
  {
    k := 0;
    while k < |log| && log[k].event.sessionSeq < fromSeq
      invariant k <= |log|
      invariant forall i | 0 <= i < k :: log[i].event.sessionSeq < fromSeq
    {
      k := k + 1;
    }
  }

  lemma {:induction false} ScopedFromLater(entries: seq<Entry>, a: int, b: int, p: PlayerId)
    requires forall i | 0 <= i < |entries| ::
               entries[i].event.HasSeq() && entries[i].event.sessionSeq >= a && entries[i].event.sessionSeq >= b
    ensures Scoped(entries, a, p) == Scoped(entries, b, p)
  {
    if entries != [] {
      ScopedFromLater(entries[..|entries| - 1], a, b, p);
    }
  }

  /** A player's events are those before `fromSeq` followed by those from `fromSeq` on. */
  lemma ScopedSplits(s: Session, k: nat, fromSeq: int, p: PlayerId)
    requires Ordered(s.log, s.seqNo) && SplitsAt(s.log, k, fromSeq)
    ensures Scoped(s.log, 1, p) == Scoped(s.log[..k], 1, p) + Scoped(s.log, fromSeq, p)
  {
    hide Scoped;
    assert s.log == s.log[..k] + s.log[k..];
    ScopedAppend(s.log[..k], s.log[k..], 1, p);
    ScopedAppend(s.log[..k], s.log[k..], fromSeq, p);
    ScopedIsEmpty(s.log[..k], fromSeq, p);
    ScopedFromLater(s.log[k..], 1, fromSeq, p);
  }

  // ---------- the three ways ----------

  lemma SnapshotShows(roomId: RoomId, room: Option<Room>, s: Session)
    ensures ViewOf(BuildSnapshot(roomId, room, Some(s))) == SessionView(s)
  {
  }

  /** The log leads every view to the server's. */
  lemma LogLeads(s: Session, view: GameView, p: PlayerId)
    requires Converged(s) && (s.game.None? ==> view == NO_GAME)
    ensures ViewSteps(view, Scoped(s.log, 1, p)) == SessionView(s)
  {
    hide ViewAfter;
    assert ViewAfter(view, s.log, p) == SessionView(s);
    assert ViewAfter(view, s.log, p) == ViewSteps(view, Scoped(s.log, 1, p)) by {
      ViewAfterIs(view, s.log, p);
    }
  }

  lemma ViewAfterIs(view: GameView, log: seq<Entry>, p: PlayerId)
    ensures ViewAfter(view, log, p) == ViewSteps(view, Scoped(log, 1, p))
  {
  }

  /** A client that applied its events below `fromSeq`, whatever it started from, catches up by replay. */
  lemma ReplayCatchesUp(s: Session, start: GameView, k: nat, fromSeq: int, p: PlayerId)
    requires Converged(s) && Buffered(s) && (s.game.None? ==> start == NO_GAME)
    requires SplitsAt(s.log, k, fromSeq)
    ensures ViewSteps(ViewAfter(start, s.log[..k], p), Scoped(s.log, fromSeq, p)) == SessionView(s)
  {
    hide Scoped;
    hide ViewSteps;
    hide Converged;
    ScopedSplits(s, k, fromSeq, p);
    ViewStepsAppend(start, Scoped(s.log[..k], 1, p), Scoped(s.log, fromSeq, p));
    LogLeads(s, start, p);
  }

  /** On top of the server's view, replaying any tail of the log keeps that view. */
  lemma ReplayKeeps(s: Session, fromSeq: int, p: PlayerId)
    requires Converged(s) && Buffered(s)
    ensures ViewSteps(SessionView(s), Scoped(s.log, fromSeq, p)) == SessionView(s)
  {
    hide Scoped;
    hide ViewSteps;
    hide Converged;
    var k := SplitExists(s.log, s.seqNo, fromSeq);
    ScopedSplits(s, k, fromSeq, p);
    LogLeads(s, SessionView(s), p);
    ReplayOnTop(SessionView(s), Scoped(s.log[..k], 1, p), Scoped(s.log, fromSeq, p));
  }

  /**
   A client that asks from `fromSeq` on has applied its events below that number, from whatever it
   started with, and maybe some of the later ones: the frame that skipped a number is handed on, too.
   */
  ghost predicate RightBelow(
    s: Session, view: GameView, fromSeq: int, p: PlayerId, start: GameView, k: nat, extra: seq<Event>
  ) {
    && SplitsAt(s.log, k, fromSeq)
    && (s.game.None? ==> start == NO_GAME)
    && DrawnFrom(extra, Scoped(s.log, fromSeq, p))
    && view == ViewSteps(ViewAfter(start, s.log[..k], p), extra)
  }

  /** Such a client catches up by replay, whatever overtook it. */
  lemma RightBelowCatchesUp(
    s: Session, view: GameView, fromSeq: int, p: PlayerId, start: GameView, k: nat, extra: seq<Event>
  )
    requires Converged(s) && Buffered(s) && RightBelow(s, view, fromSeq, p, start, k, extra)
    ensures ViewSteps(view, Scoped(s.log, fromSeq, p)) == SessionView(s)
  {
    hide Scoped;
    hide ViewSteps;
    hide ViewAfter;
    hide Converged;
    hide DrawnFrom;
    OvertakingIsHarmless(ViewAfter(start, s.log[..k], p), extra, Scoped(s.log, fromSeq, p));
    ReplayCatchesUp(s, start, k, fromSeq, p);
  }

  /**
   What a SYNC_REQUEST is answered with brings the client that asked up to date.  Only a replay
   needs it to have applied its events below `fromSeq`; a snapshot needs nothing.
   */
  lemma SyncReplyRecovers(
    s: Session, roomId: RoomId, room: Option<Room>, client: ClientWorld, start: GameView, k: nat, extra: seq<Event>,
    fromSeq: int, p: PlayerId
  )
    requires Converged(s) && Buffered(s)
    requires Anchored(s, fromSeq, p) ==> RightBelow(s, client.store.confirmed, fromSeq, p, start, k, extra)
    ensures var reply := SyncReply(s, BuildSnapshot(roomId, room, Some(s)), fromSeq, p);
            var after := Frame(client, reply);
            && (reply.StateSyncReplay? <==> Anchored(s, fromSeq, p))
            && after.store.confirmed == SessionView(s)
            && after.lastSeq == after.store.lastReceivedSeq == s.seqNo
  {
    hide Frame;
    hide RightBelow;
    hide Anchored;
    hide Converged;
    hide Buffered;
    hide Scoped;
    hide BuildSnapshot;
    var reply := SyncReply(s, BuildSnapshot(roomId, room, Some(s)), fromSeq, p);
    FrameShows(client, reply);
    FrameTracks(client, reply);
    ReplayExact(s, fromSeq, p);
    if Anchored(s, fromSeq, p) {
      RightBelowCatchesUp(s, client.store.confirmed, fromSeq, p, start, k, extra);
    }
    SnapshotShows(roomId, room, s);
  }

  /**
   What a RECONNECT is answered with brings every client up to date, whatever it showed before
   and whatever number it claims to have received last.
   */
  lemma ReconnectRecovers(
    s: Session, roomId: RoomId, room: Option<Room>, client: ClientWorld, lastReceived: int, p: PlayerId, symbol: Symbol
  )
    requires Converged(s) && Buffered(s)
    ensures var replies := ReconnectReplies(s, BuildSnapshot(roomId, room, Some(s)), lastReceived, p, symbol);
            Frames(client, replies).store.confirmed == SessionView(s)
  {
    hide Frame;
    hide Converged;
    hide Buffered;
    hide Scoped;
    hide BuildSnapshot;
    var snapshot := BuildSnapshot(roomId, room, Some(s));
    var replies := ReconnectReplies(s, snapshot, lastReceived, p, symbol);
    SnapshotShows(roomId, room, s);
    FramesShow(client, replies);
    assert replies[..1] == [replies[0]] && replies[0] == ReconnectAck(s.seqNo, p, symbol, snapshot);
    assert replies[..1][..0] == [];
    assert ViewSteps(client.store.confirmed, replies[..1]) == SessionView(s);
    if lastReceived < s.seqNo {
      ReplayExact(s, lastReceived + 1, p);
      ReplayKeeps(s, lastReceived + 1, p);
      assert ViewSteps(client.store.confirmed, replies) == ViewStep(SessionView(s), replies[1]);
    } else {
      assert replies == replies[..1];
    }
  }

  /**
   In every reachable state of a session: for a client that applied its events up to what it says
   it received, and maybe some of the later ones, replay, snapshot and reconnect-then-replay all
   end in the same view, the server's.
   */
  lemma RecoveryPathsAgree(
    w: World, ops: seq<Op>, roomId: RoomId, room: Option<Room>, client: ClientWorld, start: GameView, k: nat,
    extra: seq<Event>, lastReceived: int, p: PlayerId, symbol: Symbol
  )
    requires Created(w)
    requires var s := Run(w, ops).session;
             Anchored(s, lastReceived + 1, p) ==>
               RightBelow(s, client.store.confirmed, lastReceived + 1, p, start, k, extra)
    ensures var s := Run(w, ops).session;
            var snapshot := BuildSnapshot(roomId, room, Some(s));
            && Frame(client, SyncReply(s, snapshot, lastReceived + 1, p)).store.confirmed == SessionView(s)
            && Frame(client, StateSyncSnapshot(s.seqNo, snapshot)).store.confirmed == SessionView(s)
            && Frames(client, ReconnectReplies(s, snapshot, lastReceived, p, symbol)).store.confirmed == SessionView(s)
  {
    hide Run;
    hide Frame;
    hide Converged;
    hide Buffered;
    hide RightBelow;
    hide Anchored;
    hide ReconnectReplies;
    hide SyncReply;
    hide BuildSnapshot;
    var s := Run(w, ops).session;
    CreatedIsBuffered(w);
    RunConverges(w, ops);
    RunIsBuffered(w, ops);
    SyncReplyRecovers(s, roomId, room, client, start, k, extra, lastReceived + 1, p);
    ReconnectRecovers(s, roomId, room, client, lastReceived, p, symbol);
    FrameShows(client, StateSyncSnapshot(s.seqNo, BuildSnapshot(roomId, room, Some(s))));
    SnapshotShows(roomId, room, s);
  }

  lemma CreatedIsBuffered(w: World)
    requires Created(w)
    ensures Buffered(w.session)
  {
  }
}
