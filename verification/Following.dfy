/**
 Clients of a running server: following live, and catching up by RECONNECT and SYNC_REQUEST, show
 the server's state in every reachable server.
 */
module Following {
  import opened Protocol
  import opened Engine
  import opened EngineLaws
  import opened GameStore
  import opened WsClient
  import opened OptimisticEngine
  import opened Rooms
  import opened History
  import opened SessionModel
  import opened SessionRuns
  import opened SessionHistory
  import opened SessionLaws
  import opened ReplayBuffer
  import opened Convergence
  import opened Recovery
  import opened LiveDelivery
  import opened SessionStores
  import opened Snapshots
  import opened Transport
  import opened Handlers
  import opened ServerLaws
  import opened Seats
  import opened ReachableServers
  import opened Driving

  // ---------- what was sent stays sent ----------

  /** No session is lost, and what it sent before is a prefix of what it has sent now. */
  ghost predicate Grew(before: map<RoomId, Session>, after: map<RoomId, Session>) {
    forall r | r in before :: r in after && before[r].sent <= after[r].sent
  }

  lemma GrewTwice()
    ensures forall a, b, c :: Grew(a, b) && Grew(b, c) ==> Grew(a, c)
  {
  }

  lemma DriveGrows(server: Server, r: RoomId, op: Op)
    ensures Grew(server.games, Drive(server, r, op).games)
  {
    hide Step;
    hide News;
    hide Unbuffered;
    if r in server.games {
      StepAnnounces(WorldOf(server, r), op);
    }
  }

  lemma AllGrow()
    ensures forall s: Server, r, op :: Grew(s.games, Drive(s, r, op).games)
    ensures forall s: Server, r :: Grew(s.games, WithSession(s, r).games)
    ensures forall a :: Grew(a, a)
    ensures forall a, b, c :: Grew(a, b) && Grew(b, c) ==> Grew(a, c)
  {
    hide Drive;
    forall s: Server, r, op ensures Grew(s.games, Drive(s, r, op).games) {
      DriveGrows(s, r, op);
    }
    GrewTwice();
  }

  lemma EntranceGrows(server: Server, token: SessionToken, id: CommandId, player: PlayerId, r: RoomId, now: int)
    requires r in server.rooms
    ensures Grew(server.games, Join(server, token, id, player, r, now).server.games)
    ensures Grew(server.games, Leave(server, token, id, player, r, now).server.games)
  {
    hide Drive;
    hide WithSession;
    hide Grew;
    hide SnapshotOf;
    hide SlotOf;
    hide WasForfeited;
    AllGrow();
  }

  lemma ReadyGrows(server: Server, id: CommandId, player: PlayerId, r: RoomId, newGame: GameId, now: int)
    requires r in server.rooms
    ensures Grew(server.games, Ready(server, id, player, r, newGame, now).server.games)
  {
    hide Drive;
    hide WithSession;
    hide Grew;
    AllGrow();
  }

  lemma RestGrows(server: Server, token: SessionToken, id: CommandId, command: Command, now: int)
    requires token in server.logins && command.roomId in server.rooms
    requires !command.JoinRoom? && !command.LeaveRoom? && !command.PlayerReady?
    ensures Grew(server.games, Perform(server, token, id, command, now).server.games)
  {
    hide Drive;
    hide Grew;
    hide CatchUp;
    hide SyncReply;
    hide SnapshotOf;
    hide HandleMove;
    hide MayRequest;
    hide MayAccept;
    hide Agreed;
    AllGrow();
  }

  lemma ServeGrows(server: Server, input: Input, now: int)
    ensures Grew(server.games, Serve(server, input, now).server.games)
  {
    hide Drive;
    hide Grew;
    hide Perform;
    AllGrow();
    match input
    case Request(token, id, command) =>
      var ready := server.(logins := LoginsSeen(server.logins, token, now), cache := CacheSeen(server.cache, id, now),
                           rooms := RoomsSeen(server.rooms, command.roomId, now));
      if token in ready.logins && command.roomId in ready.rooms {
        PerformGrows(ready, token, id, command, now);
      }
    case _ =>
  }

  lemma PerformGrows(server: Server, token: SessionToken, id: CommandId, command: Command, now: int)
    requires token in server.logins && command.roomId in server.rooms
    ensures Grew(server.games, Perform(server, token, id, command, now).server.games)
  {
    hide Drive;
    hide Grew;
    hide Join;
    hide Leave;
    hide Ready;
    match command
    case JoinRoom(r) => EntranceGrows(server, token, id, server.logins[token].playerId, r, now);
    case LeaveRoom(r) => EntranceGrows(server, token, id, server.logins[token].playerId, r, now);
    case PlayerReady(r, newGame) => ReadyGrows(server, id, server.logins[token].playerId, r, newGame, now);
    case _ => RestGrows(server, token, id, command, now);
  }

  lemma {:induction false} RunGrows(server: Server, inputs: seq<Timed>)
    ensures Grew(server.games, ServeAll(server, inputs).games)
  {
    hide Serve;
    if inputs != [] {
      var n := |inputs| - 1;
      RunGrows(server, inputs[..n]);
      ServeGrows(ServeAll(server, inputs[..n]), inputs[n].input, inputs[n].now);
    }
  }

  lemma FreshStart(server: Server, a: seq<Timed>, b: seq<Timed>)
    requires FreshInputs(server, a + b)
    ensures FreshInputs(server, a)
  {
    hide ServeAll;
    hide FreshInput;
    forall i | 0 <= i < |a| ensures FreshInput(ServeAll(server, a[..i]), a[i].input) {
      assert (a + b)[..i] == a[..i] && (a + b)[i] == a[i];
    }
  }

  // ---------- live ----------

  lemma LawfulFollowed(w: World, r: RoomId)
    requires LawfulSession(w, r)
    ensures Followed(w.session) && Converged(w.session) && Buffered(w.session) && GameSound(w.session)
    ensures TimersMatch(w.session)
  {
    hide Followed;
    hide Converged;
    hide Buffered;
    hide GameSound;
    hide TimersMatch;
  }

  /**
   In every run of the server: a client that shows the state of a room's session at some moment,
   and from then on handles what the session sends to its player, shows the session's state at
   every later moment: whatever happens in between, in this room and in the others.
   */
  lemma LiveClientFollows(
    history: Store, used: set<GameId>, inputs: seq<Timed>, more: seq<Timed>, r: RoomId, p: PlayerId,
    client: ClientWorld
  )
    requires forall room :: StoreSound(GamesOf(history, room), used)
    requires FreshInputs(NewServer(history, used), inputs + more)
    requires r in ServeAll(NewServer(history, used), inputs).games
    requires client.store.confirmed == SessionView(ServeAll(NewServer(history, used), inputs).games[r])
    ensures var before := ServeAll(NewServer(history, used), inputs);
            var after := ServeAll(NewServer(history, used), inputs + more);
            && r in after.games && before.games[r].sent <= after.games[r].sent
            && Frames(client, Heard(after.games[r].sent[|before.games[r].sent|..], p)).store.confirmed ==
               SessionView(after.games[r])
  {
    hide ServeAll;
    hide FreshInputs;
    hide StoreSound;
    hide LawfulSession;
    hide SessionView;
    hide Frames;
    hide Heard;
    hide Followed;
    var server := NewServer(history, used);
    var before, after := ServeAll(server, inputs), ServeAll(server, inputs + more);
    FreshStart(server, inputs, more);
    RunIsLawful(history, used, inputs);
    RunIsLawful(history, used, inputs + more);
    ServeAllAppend(server, inputs, more);
    RunGrows(before, more);
    LawfulFollowed(WorldOf(before, r), r);
    LawfulFollowed(WorldOf(after, r), r);
    CatchingUpLive(before.games[r], after.games[r], p);
    FramesShow(client, Heard(after.games[r].sent[|before.games[r].sent|..], p));
  }

  // ---------- over the wire ----------

  function SentBy(games: map<RoomId, Session>, r: RoomId): seq<Entry> {
    if r in games then games[r].sent else []
  }

  /** What went out to `p` for room `r` between two moments is what its session said meanwhile that concerns `p`. */
  ghost predicate Carries(
    games: map<RoomId, Session>, wire: seq<Post>, games': map<RoomId, Session>, wire': seq<Post>, r: RoomId, p: PlayerId
  ) {
    && SentBy(games, r) <= SentBy(games', r) && wire <= wire'
    && Carried(wire'[|wire|..], r, p) == Heard(SentBy(games', r)[|SentBy(games, r)|..], p)
  }

  predicate PresentAt(rooms: RoomMap, r: RoomId, p: PlayerId) {
    r in rooms && Present(rooms[r], p)
  }

  lemma CarriesTwice(
    games: map<RoomId, Session>, wire: seq<Post>, games': map<RoomId, Session>, wire': seq<Post>,
    games'': map<RoomId, Session>, wire'': seq<Post>, r: RoomId, p: PlayerId
  )
    requires Carries(games, wire, games', wire', r, p) && Carries(games', wire', games'', wire'', r, p)
    ensures Carries(games, wire, games'', wire'', r, p)
  {
    hide Carried;
    hide Heard;
    hide SentBy;
    var sent, sent', sent'' := SentBy(games, r), SentBy(games', r), SentBy(games'', r);
    assert wire''[|wire|..] == wire'[|wire|..] + wire''[|wire'|..];
    assert sent''[|sent|..] == sent'[|sent|..] + sent''[|sent'|..];
    CarriedAppend(wire'[|wire|..], wire''[|wire'|..], r, p);
    HeardAppend(sent'[|sent|..], sent''[|sent'|..], p);
  }

  lemma DriveCarries(server: Server, q: RoomId, op: Op, r: RoomId, p: PlayerId)
    requires q == r ==> op.Allocating? || PresentAt(server.rooms, r, p)
    ensures var after := Drive(server, q, op);
            Carries(server.games, server.wire, after.games, after.wire, r, p)
  {
    hide Step;
    hide News;
    hide Unbuffered;
    hide Recipients;
    hide Posts;
    hide Carried;
    hide Heard;
    NothingCarried(r, RoomIn(server, r), p);
    if q in server.games {
      var w := WorldOf(server, q);
      StepAnnounces(w, op);
      var s, t := w.session, Step(w, op).session;
      var said := NewlySent(s, t);
      assert t.sent == s.sent + said;
      assert Drive(server, q, op).wire[|server.wire|..] == Posts(q, RoomIn(server, q), said);
      if q != r {
        OthersCarryNothing(q, RoomIn(server, q), said, r, p);
        assert SentBy(server.games, r)[|SentBy(server.games, r)|..] == [];
      } else {
        assert SentBy(Drive(server, q, op).games, r)[|SentBy(server.games, r)|..] == said;
        if op.Allocating? {
          AllocatingIsSilent(w);
        } else {
          PresentHearsAll(r, server.rooms[r], said, p);
        }
      }
    } else {
      assert server.wire[|server.wire|..] == [];
      assert SentBy(server.games, r)[|SentBy(server.games, r)|..] == [];
    }
  }

  lemma AllocatingIsSilent(w: World)
    ensures Step(w, Allocating).session.sent == w.session.sent
  {
  }

  lemma NothingCarried(r: RoomId, room: Option<Room>, p: PlayerId)
    ensures Posts(r, room, []) == [] && Carried([], r, p) == [] && Heard([], p) == []
  {
  }

  lemma HostingCarries(server: Server, q: RoomId, r: RoomId, p: PlayerId)
    ensures var after := WithSession(server, q);
            Carries(server.games, server.wire, after.games, after.wire, r, p)
  {
    NothingCarried(r, None, p);
    var after := WithSession(server, q);
    assert SentBy(after.games, r) == SentBy(server.games, r);
    assert SentBy(server.games, r)[|SentBy(server.games, r)|..] == [];
    assert server.wire[|server.wire|..] == [];
  }

  lemma CarriesNothing(games: map<RoomId, Session>, wire: seq<Post>, r: RoomId, p: PlayerId)
    ensures Carries(games, wire, games, wire, r, p)
  {
    NothingCarried(r, None, p);
    assert SentBy(games, r)[|SentBy(games, r)|..] == [];
    assert wire[|wire|..] == [];
  }

  lemma CarryRules(r: RoomId, p: PlayerId)
    ensures forall s: Server, q, op: Op :: (q == r ==> op.Allocating? || PresentAt(s.rooms, r, p)) ==>
              Carries(s.games, s.wire, Drive(s, q, op).games, Drive(s, q, op).wire, r, p)
    ensures forall s: Server, q, op :: Drive(s, q, op).rooms == s.rooms
    ensures forall s: Server, q ::
              Carries(s.games, s.wire, WithSession(s, q).games, WithSession(s, q).wire, r, p)
              && WithSession(s, q).rooms == s.rooms
    ensures forall g, w :: Carries(g, w, g, w, r, p)
    ensures forall g, w, g', w', g'', w'' :: Carries(g, w, g', w', r, p) && Carries(g', w', g'', w'', r, p) ==>
              Carries(g, w, g'', w'', r, p)
  {
    hide Drive;
    hide Carries;
    forall s: Server, q, op ensures Drive(s, q, op).rooms == s.rooms {
      DriveKeepsRooms(s, q, op);
    }
    forall s: Server, q, op: Op | q == r ==> op.Allocating? || PresentAt(s.rooms, r, p)
      ensures Carries(s.games, s.wire, Drive(s, q, op).games, Drive(s, q, op).wire, r, p)
    {
      DriveCarries(s, q, op, r, p);
    }
    forall s: Server, q
      ensures Carries(s.games, s.wire, WithSession(s, q).games, WithSession(s, q).wire, r, p)
    {
      HostingCarries(s, q, r, p);
    }
    forall g, w ensures Carries(g, w, g, w, r, p) {
      CarriesNothing(g, w, r, p);
    }
    forall g, w, g', w', g'', w'' | Carries(g, w, g', w', r, p) && Carries(g', w', g'', w'', r, p)
      ensures Carries(g, w, g'', w'', r, p)
    {
      CarriesTwice(g, w, g', w', g'', w'', r, p);
    }
  }

  lemma EntranceCarries(
    server: Server, token: SessionToken, id: CommandId, player: PlayerId, q: RoomId, now: int, r: RoomId, p: PlayerId
  )
    requires q in server.rooms && PresentAt(server.rooms, r, p)
    ensures var after := Join(server, token, id, player, q, now).server;
            Carries(server.games, server.wire, after.games, after.wire, r, p)
    ensures var after := Leave(server, token, id, player, q, now).server;
            Carries(server.games, server.wire, after.games, after.wire, r, p)
  {
    hide Drive;
    hide WithSession;
    hide Carries;
    hide PresentAt;
    hide SnapshotOf;
    hide SlotOf;
    hide WasForfeited;
    CarryRules(r, p);
  }

  lemma ReadyCarries(
    server: Server, id: CommandId, player: PlayerId, q: RoomId, newGame: GameId, now: int, r: RoomId, p: PlayerId
  )
    requires q in server.rooms && PresentAt(server.rooms, r, p)
    ensures var after := Ready(server, id, player, q, newGame, now).server;
            Carries(server.games, server.wire, after.games, after.wire, r, p)
  {
    hide Drive;
    hide WithSession;
    hide Carries;
    CarryRules(r, p);
  }

  lemma RestCarries(
    server: Server, token: SessionToken, id: CommandId, command: Command, now: int, r: RoomId, p: PlayerId
  )
    requires token in server.logins && command.roomId in server.rooms && PresentAt(server.rooms, r, p)
    requires !command.JoinRoom? && !command.LeaveRoom? && !command.PlayerReady?
    ensures var after := Perform(server, token, id, command, now).server;
            Carries(server.games, server.wire, after.games, after.wire, r, p)
  {
    hide Drive;
    hide Carries;
    hide CatchUp;
    hide SyncReply;
    hide SnapshotOf;
    hide HandleMove;
    hide MayRequest;
    hide MayAccept;
    hide Agreed;
    CarryRules(r, p);
  }

  lemma PerformCarries(
    server: Server, token: SessionToken, id: CommandId, command: Command, now: int, r: RoomId, p: PlayerId
  )
    requires token in server.logins && command.roomId in server.rooms && PresentAt(server.rooms, r, p)
    ensures var after := Perform(server, token, id, command, now).server;
            Carries(server.games, server.wire, after.games, after.wire, r, p)
  {
    hide Drive;
    hide Carries;
    hide PresentAt;
    hide Join;
    hide Leave;
    hide Ready;
    match command
    case JoinRoom(q) => EntranceCarries(server, token, id, server.logins[token].playerId, q, now, r, p);
    case LeaveRoom(q) => EntranceCarries(server, token, id, server.logins[token].playerId, q, now, r, p);
    case PlayerReady(q, newGame) => ReadyCarries(server, id, server.logins[token].playerId, q, newGame, now, r, p);
    case _ => RestCarries(server, token, id, command, now, r, p);
  }

  lemma GateCarries(
    server: Server, token: SessionToken, id: CommandId, command: Command, now: int, r: RoomId, p: PlayerId
  )
    requires PresentAt(server.rooms, r, p)
    requires PresentAt(Gate(server, token, id, command, now).server.rooms, r, p)
    ensures var after := Gate(server, token, id, command, now).server;
            Carries(server.games, server.wire, after.games, after.wire, r, p)
  {
    hide Carries;
    hide Perform;
    CarriesNothing(server.games, server.wire, r, p);
    var ready := server.(logins := LoginsSeen(server.logins, token, now), cache := CacheSeen(server.cache, id, now),
                         rooms := RoomsSeen(server.rooms, command.roomId, now));
    if token in ready.logins && command.roomId in ready.rooms {
      PerformCarries(ready, token, id, command, now, r, p);
    }
  }

  lemma DisconnectCarries(server: Server, token: SessionToken, now: int, r: RoomId, p: PlayerId)
    requires PresentAt(server.rooms, r, p) && PresentAt(Disconnect(server, token, now).rooms, r, p)
    ensures var after := Disconnect(server, token, now);
            Carries(server.games, server.wire, after.games, after.wire, r, p)
  {
    hide Drive;
    hide Carries;
    CarryRules(r, p);
  }

  lemma TimersCarry(server: Server, q: RoomId, timer: nat, detached: Room, now: int, r: RoomId, p: PlayerId)
    requires PresentAt(server.rooms, r, p)
    ensures var after := Elapse(server, q, timer, now);
            PresentAt(after.rooms, r, p) ==> Carries(server.games, server.wire, after.games, after.wire, r, p)
    ensures var after := Lapse(server, q, timer, detached, now);
            PresentAt(after.rooms, r, p) ==> Carries(server.games, server.wire, after.games, after.wire, r, p)
  {
    hide Drive;
    hide Carries;
    hide Unseat;
    CarryRules(r, p);
  }

  lemma ServeCarries(server: Server, input: Input, now: int, r: RoomId, p: PlayerId)
    requires PresentAt(server.rooms, r, p) && PresentAt(Serve(server, input, now).server.rooms, r, p)
    ensures var after := Serve(server, input, now).server;
            Carries(server.games, server.wire, after.games, after.wire, r, p)
  {
    hide Carries;
    hide PresentAt;
    hide Gate;
    hide Disconnect;
    hide Elapse;
    hide Lapse;
    hide RoomsPurged;
    CarriesNothing(server.games, server.wire, r, p);
    match input
    case Request(token, id, command) => GateCarries(server, token, id, command, now, r, p);
    case Disconnection(token) => DisconnectCarries(server, token, now, r, p);
    case WindowElapses(q, timer) => TimersCarry(server, q, timer, NewRoom(0), now, r, p);
    case ProposalElapses(q, timer, detached) => TimersCarry(server, q, timer, detached, now, r, p);
    case _ =>
  }

  /** The player sits in the room, connected, before and after each of the inputs. */
  ghost predicate PresentThroughout(server: Server, inputs: seq<Timed>, r: RoomId, p: PlayerId) {
    forall i | 0 <= i <= |inputs| :: PresentAt(ServeAll(server, inputs[..i]).rooms, r, p)
  }

  lemma {:induction false} RunCarries(server: Server, inputs: seq<Timed>, r: RoomId, p: PlayerId)
    requires PresentThroughout(server, inputs, r, p)
    ensures var after := ServeAll(server, inputs);
            Carries(server.games, server.wire, after.games, after.wire, r, p)
  {
    hide Serve;
    hide Carries;
    hide PresentAt;
    CarriesNothing(server.games, server.wire, r, p);
    if inputs != [] {
      var n := |inputs| - 1;
      assert inputs[..|inputs|] == inputs;
      forall i | 0 <= i <= n ensures PresentAt(ServeAll(server, inputs[..n][..i]).rooms, r, p) {
        assert inputs[..n][..i] == inputs[..i];
      }
      RunCarries(server, inputs[..n], r, p);
      var before := ServeAll(server, inputs[..n]);
      ServeCarries(before, inputs[n].input, inputs[n].now, r, p);
      var after := ServeAll(server, inputs);
      CarriesTwice(server.games, server.wire, before.games, before.wire, after.games, after.wire, r, p);
    }
  }

  /**
   In every run of the server, over the wire: a client that shows the state of a room's session at
   some moment, and whose player then stays in the room, connected, shows the session's state at
   every later moment after handling exactly what the send function sent to that player since;
   whatever happens in between, in this room and in the others.
   */
  lemma {:induction false} PresentClientFollows(
    history: Store, used: set<GameId>, inputs: seq<Timed>, more: seq<Timed>, r: RoomId, p: PlayerId,
    client: ClientWorld
  )
    requires forall room :: StoreSound(GamesOf(history, room), used)
    requires FreshInputs(NewServer(history, used), inputs + more)
    requires r in ServeAll(NewServer(history, used), inputs).games
    requires PresentThroughout(ServeAll(NewServer(history, used), inputs), more, r, p)
    requires client.store.confirmed == SessionView(ServeAll(NewServer(history, used), inputs).games[r])
    ensures var before := ServeAll(NewServer(history, used), inputs);
            var after := ServeAll(NewServer(history, used), inputs + more);
            && r in after.games && before.wire <= after.wire
            && Frames(client, Carried(after.wire[|before.wire|..], r, p)).store.confirmed == SessionView(after.games[r])
  {
    hide ServeAll;
    hide FreshInputs;
    hide StoreSound;
    hide PresentThroughout;
    hide SessionView;
    hide Frames;
    hide Heard;
    hide Carried;
    var before := ServeAll(NewServer(history, used), inputs);
    ServeAllAppend(NewServer(history, used), inputs, more);
    RunCarries(before, more, r, p);
    LiveClientFollows(history, used, inputs, more, r, p, client);
  }

  /**
   Whatever a session does while a player is present in its room, the transport is asked to send
   that player exactly what takes a view from the state before to the state after.
   */
  lemma {:induction false} PresentPlayerIsServed(server: Server, r: RoomId, op: Op, p: PlayerId)
    requires LawfulServer(server) && r in server.games && PresentAt(server.rooms, r, p)
    ensures var after := Drive(server, r, op);
            && server.wire <= after.wire
            && ViewSteps(SessionView(server.games[r]), Carried(after.wire[|server.wire|..], r, p)) ==
               SessionView(after.games[r])
  {
    hide Step;
    hide Heard;
    hide Carried;
    hide ViewSteps;
    hide SessionView;
    hide LawfulSession;
    hide StoreSound;
    hide GamesApart;
    hide PresentAt;
    hide Posts;
    var w := WorldOf(server, r);
    assert LawfulSession(w, r);
    LawfulFollowed(w, r);
    StepIsFollowed(w, op, p);
    DriveCarries(server, r, op, r, p);
  }

  // ---------- catching up ----------

  /** The events that deliveries carry to the asking connection. */
  function Answers(deliveries: seq<Delivery>): seq<Event> {
    if deliveries == [] then []
    else
      var last := deliveries[|deliveries| - 1];
      Answers(deliveries[..|deliveries| - 1]) +
      if last.ToAsker? && last.stored.Reply? then [last.stored.event] else []
  }

  lemma {:induction false} AnswersOf(events: seq<Event>, deliveries: seq<Delivery>)
    requires |deliveries| == |events|
    requires forall i | 0 <= i < |events| :: deliveries[i] == ToAsker(Reply(events[i]))
    ensures Answers(deliveries) == events
  {
    if events != [] {
      var n := |events| - 1;
      AnswersOf(events[..n], deliveries[..n]);
      assert events == events[..n] + [events[n]];
    }
  }

  /** What a room shows: its session's game, or none. */
  function RoomView(server: Server, r: RoomId): GameView {
    if r in server.games then SessionView(server.games[r]) else NO_GAME
  }

  lemma SnapshotShowsRoom(server: Server, r: RoomId)
    ensures ViewOf(SnapshotOf(server, r)) == RoomView(server, r)
  {
  }

  lemma NumberingShowsSame(server: Server, r: RoomId)
    ensures RoomView(Drive(server, r, Allocating), r) == RoomView(server, r)
  {
    hide Drive;
    if r in server.games {
      NumberingChangesNothing(server, r);
    } else {
      DriveKeepsRooms(server, r, Allocating);
    }
  }

  /** A successful JOIN_ROOM, first or repeated, answers with the state of the room's session. */
  lemma JoinShowsState(
    server: Server, token: SessionToken, id: CommandId, player: PlayerId, r: RoomId, now: int, client: ClientWorld
  )
    requires r in server.rooms
    requires SlotOf(server.rooms[r], player).Some? || FreeSymbol(server.rooms[r]).Some?
    ensures var joined := Join(server, token, id, player, r, now);
            && |joined.deliveries| >= 1 && joined.deliveries[0].ToAsker? && joined.deliveries[0].stored.Reply?
            && Frame(client, joined.deliveries[0].stored.event).store.confirmed == RoomView(joined.server, r)
  {
    hide Drive;
    hide WithSession;
    hide SnapshotOf;
    hide RoomView;
    hide Frame;
    var joined := Join(server, token, id, player, r, now);
    SnapshotShowsRoom(server, r);
    NumberingShowsSame(server, r);
    FrameShows(client, joined.deliveries[0].stored.event);
    if SlotOf(server.rooms[r], player).Some? {
      SameGamesSameView(Drive(server, r, Allocating), joined.server, r);
    } else {
      var symbol := FreeSymbol(server.rooms[r]).value;
      var room := Seat(server.rooms[r], player, now);
      var seated := SetRoomTo(server, r, room).(logins := WithRoom(server.logins, token, Some(r)));
      WelcomeShowsState(WithSession(seated, r), id, player, r, symbol, room, now);
    }
  }

  lemma WelcomeShowsState(
    server: Server, id: CommandId, player: PlayerId, r: RoomId, symbol: Symbol, room: Room, now: int
  )
    ensures var done := Welcome(server, id, player, r, symbol, room, now);
            && |done.deliveries| >= 1 && done.deliveries[0].ToAsker? && done.deliveries[0].stored.Reply?
            && done.deliveries[0].stored.event.RoomJoined?
            && ViewOf(done.deliveries[0].stored.event.roomState) == RoomView(done.server, r)
  {
    hide Drive;
    hide SnapshotOf;
    hide RoomView;
    var numbered := Drive(server, r, Allocating);
    var joined := RoomJoined(SeqOr(numbered, r, 1), r, player, symbol, SnapshotOf(numbered, r));
    var answered := Answering(numbered, id, joined, now).server;
    SnapshotShowsRoom(numbered, r);
    SameGamesSameView(numbered, answered, r);
    NumberingShowsSame(answered, r);
  }

  lemma SameGamesSameView(a: Server, b: Server, r: RoomId)
    requires a.games == b.games
    ensures RoomView(a, r) == RoomView(b, r)
  {
  }

  lemma ReturnReplies(
    server: Server, token: SessionToken, id: CommandId, player: PlayerId, r: RoomId, lastReceived: int, now: int
  )
    requires r in server.rooms && r in server.games && SlotOf(server.rooms[r], player).Some?
    ensures var back := Returned(server, token, player, r, now);
            var done := Return(server, token, id, player, r, lastReceived, now);
            && r in back.games && done.server.games == back.games && done.server.rooms == back.rooms
            && Answers(done.deliveries) ==
               ReconnectReplies(back.games[r], BuildSnapshot(r, RoomIn(back, r), Some(back.games[r])), lastReceived,
                                player, SlotOf(server.rooms[r], player).value.symbol)
  {
    hide Drive;
    hide Answers;
    hide BuildSnapshot;
    hide ReconnectReplies;
    hide SlotOf;
    forall s: Server, op ensures Drive(s, r, op).games.Keys == s.games.Keys {
      DriveKeepsRooms(s, r, op);
    }
    var back := Returned(server, token, player, r, now);
    var replies := CatchUp(back, r, lastReceived, player, SlotOf(server.rooms[r], player).value.symbol);
    AnswersOf(replies, Return(server, token, id, player, r, lastReceived, now).deliveries);
  }

  lemma ReturnClearsWindow(server: Server, token: SessionToken, player: PlayerId, r: RoomId, now: int)
    requires LawfulServer(server) && r in server.rooms && r in server.games
    requires SlotOf(server.rooms[r], player).Some?
    ensures var back := Returned(server, token, player, r, now);
            && r in back.games && player !in back.games[r].reconnectTimers
            && r in back.rooms && Present(back.rooms[r], player)
            && (forall timer :: IsReconnectTimer(back.games[r], timer) ==>
                  back.games[r].timers[timer].playerId != player)
  {
    hide Announce;
    hide ClearWindow;
    hide LawfulSession;
    hide StoreSound;
    hide GamesApart;
    hide TimersMatch;
    var w := WorldOf(server, r);
    assert LawfulSession(w, r);
    LawfulFollowed(w, r);
    ClearTimers(w.session, player);
    var room := WithConnected(server.rooms[r], player, true, now);
    var cleared := ClearWindow(w.session, player);
    AnnounceTimers(cleared, BackNews(cleared, room, player));
    AllTimersOfOthers(cleared, player);
  }

  lemma AllTimersOfOthers(s: Session, player: PlayerId)
    requires TimersMatch(s) && player !in s.reconnectTimers
    ensures forall timer :: IsReconnectTimer(s, timer) ==> s.timers[timer].playerId != player
  {
  }

  /**
   In every reachable server, RECONNECT by a seated player: the answers take every client, whatever
   it showed and whatever number it claims, to the session's state; the player counts as present
   from then on, and no window of the player is left that could end a game.
   */
  lemma ReconnectCatchesUp(
    history: Store, used: set<GameId>, inputs: seq<Timed>, token: SessionToken, id: CommandId, r: RoomId,
    lastReceived: int, now: int, client: ClientWorld
  )
    requires forall room :: StoreSound(GamesOf(history, room), used)
    requires FreshInputs(NewServer(history, used), inputs)
    requires var server := ServeAll(NewServer(history, used), inputs);
             && Admitted(server, token, id, r, now) && r in server.games
             && SlotOf(server.rooms[r], server.logins[token].playerId).Some?
    ensures var server := ServeAll(NewServer(history, used), inputs);
            var player := server.logins[token].playerId;
            var done := Serve(server, Request(token, id, Rejoin(r, lastReceived)), now);
            && r in done.server.games && r in done.server.rooms
            && Frames(client, Answers(done.deliveries)).store.confirmed == SessionView(done.server.games[r])
            && Present(done.server.rooms[r], player)
            && (forall timer :: IsReconnectTimer(done.server.games[r], timer) ==>
                  done.server.games[r].timers[timer].playerId != player)
  {
    hide Serve;
    hide StoreSound;
    hide FreshInputs;
    hide LawfulSession;
    hide Returned;
    hide Return;
    hide Answers;
    hide SessionView;
    hide SlotOf;
    hide CacheSeen;
    hide BuildSnapshot;
    hide Converged;
    hide Buffered;
    RunIsLawful(history, used, inputs);
    var server := ServeAll(NewServer(history, used), inputs);
    hide ServeAll;
    var player := server.logins[token].playerId;
    AdmittedIsPerformed(server, token, id, Rejoin(r, lastReceived), now);
    var ready := server.(cache := CacheSeen(server.cache, id, now));
    ReturnReplies(ready, token, id, player, r, lastReceived, now);
    ReturnClearsWindow(ready, token, player, r, now);
    ReturnKeepsLawful(ready, token, id, player, r, lastReceived, now);
    var back := Returned(ready, token, player, r, now);
    LawfulFollowed(WorldOf(back, r), r);
    ReconnectRecovers(back.games[r], r, RoomIn(back, r), client, lastReceived, player,
                      SlotOf(server.rooms[r], player).value.symbol);
  }

  /**
   In every reachable server, SYNC_REQUEST by a seated player: the one answer takes the client to
   the session's state, and both of its sequence marks to the session's number.  If the answer is
   a replay, the client must have applied its events below the number it asks from, and may have
   applied any of the later ones.
   */
  lemma {:induction false} SyncCatchesUp(
    history: Store, used: set<GameId>, inputs: seq<Timed>, token: SessionToken, id: CommandId, r: RoomId,
    fromSeq: int, now: int, client: ClientWorld, start: GameView, k: nat, extra: seq<Event>
  )
    requires forall room :: StoreSound(GamesOf(history, room), used)
    requires FreshInputs(NewServer(history, used), inputs)
    requires var server := ServeAll(NewServer(history, used), inputs);
             && Admitted(server, token, id, r, now) && r in server.games
             && SlotOf(server.rooms[r], server.logins[token].playerId).Some?
             && (Anchored(server.games[r], fromSeq, server.logins[token].playerId) ==>
                   RightBelow(server.games[r], client.store.confirmed, fromSeq, server.logins[token].playerId, start, k,
                           extra))
    ensures var server := ServeAll(NewServer(history, used), inputs);
            var done := Serve(server, Request(token, id, SyncRequest(r, fromSeq)), now);
            var s := server.games[r];
            && done.server.games == server.games
            && |done.deliveries| == 1 && done.deliveries[0].ToAsker? && done.deliveries[0].stored.Reply?
            && var after := Frame(client, done.deliveries[0].stored.event);
               after.store.confirmed == SessionView(s) && after.lastSeq == after.store.lastReceivedSeq == s.seqNo
  {
    hide Serve;
    hide StoreSound;
    hide FreshInputs;
    hide LawfulSession;
    hide SessionView;
    hide SlotOf;
    hide CacheSeen;
    hide BuildSnapshot;
    hide Converged;
    hide Buffered;
    hide RightBelow;
    hide Anchored;
    hide Frame;
    hide SyncReply;
    RunIsLawful(history, used, inputs);
    var server := ServeAll(NewServer(history, used), inputs);
    hide ServeAll;
    var player := server.logins[token].playerId;
    AdmittedIsPerformed(server, token, id, SyncRequest(r, fromSeq), now);
    LawfulFollowed(WorldOf(server, r), r);
    SyncReplyRecovers(server.games[r], r, RoomIn(server, r), client, start, k, extra, fromSeq, player);
  }

  /** Frames that count for nothing but themselves leave the transport's requests as they say. */
  lemma GapIsAsked(client: ClientWorld, skipping: Event)
    requires IsGap(client, skipping) && CanRequest(client)
    ensures Frame(client, skipping).syncRequests == client.syncRequests + [client.lastSeq + 1]
    ensures Frame(client, skipping).lastSeq == client.lastSeq
  {
    hide Frame;
    GapAsksFromNext(client, skipping);
  }

  /**
   A gap closes.  In every reachable server, for a client that was right below the next number it
   expected: a frame that skips a number makes it ask from that number on; the frame, and whatever
   arrives behind it, is applied all the same; and the answer to that very request then takes the
   client to the session's state and number.
   */
  lemma {:induction false} GapIsClosed(
    history: Store, used: set<GameId>, inputs: seq<Timed>, token: SessionToken, id: CommandId, r: RoomId,
    now: int, client: ClientWorld, start: GameView, k: nat, arriving: seq<Event>
  )
    requires forall room :: StoreSound(GamesOf(history, room), used)
    requires FreshInputs(NewServer(history, used), inputs)
    requires var server := ServeAll(NewServer(history, used), inputs);
             && Admitted(server, token, id, r, now) && r in server.games
             && SlotOf(server.rooms[r], server.logins[token].playerId).Some?
    requires arriving != [] && IsGap(client, arriving[0]) && CanRequest(client)
    requires var s := ServeAll(NewServer(history, used), inputs).games[r];
             var player := ServeAll(NewServer(history, used), inputs).logins[token].playerId;
             var next := client.lastSeq + 1;
             Anchored(s, next, player) ==>
               && SplitsAt(s.log, k, next) && (s.game.None? ==> start == NO_GAME)
               && client.store.confirmed == ViewAfter(start, s.log[..k], player)
               && DrawnFrom(arriving, Scoped(s.log, next, player))
    ensures var server := ServeAll(NewServer(history, used), inputs);
            var s := server.games[r];
            var asked := Frame(client, arriving[0]);
            var done := Serve(server, Request(token, id, SyncRequest(r, client.lastSeq + 1)), now);
            && asked.syncRequests == client.syncRequests + [client.lastSeq + 1] && asked.lastSeq == client.lastSeq
            && |done.deliveries| == 1 && done.deliveries[0].ToAsker? && done.deliveries[0].stored.Reply?
            && var after := Frame(Frames(client, arriving), done.deliveries[0].stored.event);
               after.store.confirmed == SessionView(s) && after.lastSeq == after.store.lastReceivedSeq == s.seqNo
  {
    hide Serve;
    hide ServeAll;
    hide StoreSound;
    hide FreshInputs;
    hide SessionView;
    hide SlotOf;
    hide Admitted;
    hide Anchored;
    hide SplitsAt;
    hide Scoped;
    hide ViewAfter;
    hide DrawnFrom;
    hide Frame;
    hide Frames;
    hide IsGap;
    hide CanRequest;
    GapIsAsked(client, arriving[0]);
    FramesShow(client, arriving);
    SyncCatchesUp(history, used, inputs, token, id, r, client.lastSeq + 1, now, Frames(client, arriving), start, k,
                  arriving);
  }

  // ---------- optimistic moves ----------

  /** The answer to a move that reaches the engine says what the engine said. */
  lemma AnswerSaysVerdict(
    s: Session, store: Store, player: PlayerId, position: RawPosition, id: CommandId, now: int
  )
    requires IsActive(s)
    ensures var state := s.game.value;
            var verdict := ApplyMove(state, MoveCommand(player, position.row, position.col, id, now));
            var moved := HandleMove(s, store, player, state.gameId, position, id, now);
            && moved.response.Some? && moved.session.game == Some(verdict.newState)
            && (verdict.Accepted? ==>
                  moved.response.value.MoveAck? && moved.response.value.board == verdict.newState.board)
            && (verdict.Rejected? ==>
                  moved.response.value.MoveRejected? && moved.response.value.reason == verdict.reason
                  && moved.response.value.board == state.board)
  {
    hide ApplyMove;
    hide Trim;
    hide Saved;
    hide RecordOf;
    hide EndNews;
    var command := MoveCommand(player, position.row, position.col, id, now);
    MoveShape(s.game.value, command);
    if ApplyMove(s.game.value, command).Accepted? {
      MoveEvents(s.game.value, command);
    }
  }

  lemma SeatIsSymbol(room: Room, game: GameState, player: PlayerId)
    requires SeatsPlayersOf(room, game)
    ensures SymbolOf(room, player) == ResolveSymbol(game, player)
  {
  }

  /**
   Optimism is justified: in every reachable server, for a seated player whose client shows the
   session's state and may move, the client's own check of a cell says exactly what the server will
   answer, and the board it predicts is the board that the acknowledgement carries and the server
   then has; so the acknowledgement leaves the displayed board as it was predicted.
   */
  lemma {:induction false} OptimisticMoveIsConfirmed(
    history: Store, used: set<GameId>, inputs: seq<Timed>, token: SessionToken, id: CommandId, r: RoomId,
    row: int, col: int, now: int, client: ClientWorld
  )
    requires forall room :: StoreSound(GamesOf(history, room), used)
    requires FreshInputs(NewServer(history, used), inputs)
    requires var server := ServeAll(NewServer(history, used), inputs);
             && Admitted(server, token, id, r, now) && r in server.games
             && client.store.confirmed == SessionView(server.games[r]) && CanMove(client.store)
             && client.store.mySymbol == SymbolOf(server.rooms[r], server.logins[token].playerId)
    ensures var server := ServeAll(NewServer(history, used), inputs);
            && IsActive(server.games[r])
            && var local := PrevalidateOn(client.store.confirmed, client.store.mySymbol.value, row, col);
               var command := MakeMove(r, server.games[r].game.value.gameId, RawPosition(row, col));
               var after := Serve(server, Request(token, id, command), now).server;
               && r in after.games && after.games[r].game.Some?
               && id in after.cache && after.cache[id].result.Reply?
               && var answer := after.cache[id].result.event;
                  && (local.Valid? ==>
                        && answer.MoveAck?
                        && answer.board == local.predictedBoard == after.games[r].game.value.board
                        && DisplayBoard(Frame(client, answer).store) == local.predictedBoard)
                  && (local.Invalid? ==>
                        && answer.MoveRejected? && answer.reason == local.reason
                        && after.games[r].game == server.games[r].game
                        && DisplayBoard(Frame(client, answer).store) == client.store.confirmed.board)
  {
    hide Serve;
    hide StoreSound;
    hide FreshInputs;
    hide Lawful;
    hide CacheSeen;
    hide HandleMove;
    hide ApplyMove;
    hide PrevalidateOn;
    hide Drive;
    hide Frame;
    SeatsMatchRunningGame(history, used, inputs);
    var server := ServeAll(NewServer(history, used), inputs);
    hide ServeAll;
    var s := server.games[r];
    var player := server.logins[token].playerId;
    var state := s.game.value;
    var position := RawPosition(row, col);
    AdmittedIsPerformed(server, token, id, MakeMove(r, state.gameId, position), now);
    SeatIsSymbol(server.rooms[r], state, player);
    PredictionExact(state, MoveCommand(player, row, col, id, now));
    MoveShape(state, MoveCommand(player, row, col, id, now));
    AnswerSaysVerdict(s, server.history, player, position, id, now);
    var answer := HandleMove(s, server.history, player, state.gameId, position, id, now).response.value;
    AnswerSettles(client, answer);
    var ready := server.(cache := CacheSeen(server.cache, id, now));
    MovedSession(ready, r, player, state.gameId, position, id, now);
  }

  lemma MovedSession(
    server: Server, r: RoomId, player: PlayerId, target: GameId, position: RawPosition, id: CommandId, now: int
  )
    requires r in server.games
    ensures var moved := Drive(server, r, Moving(player, target, position, id, now));
            && r in moved.games
            && moved.games[r] == HandleMove(server.games[r], server.history, player, target, position, id, now).session
  {
    hide HandleMove;
  }

  /** An acknowledgement or a rejection settles the overlay on the board it carries. */
  lemma AnswerSettles(client: ClientWorld, answer: Event)
    requires answer.MoveAck? || answer.MoveRejected?
    ensures DisplayBoard(Frame(client, answer).store) == answer.board
  {
    var tracked := Track(client, answer);
    var mySymbol := tracked.store.mySymbol.GetOr(X);
    var action := if answer.MoveAck? then MoveAcked(answer.board, answer.nextTurn)
                  else MoveRefused(answer.board, answer.currentTurn);
    assert Handle(tracked, answer, mySymbol) == Do(tracked, action);
    assert Dispatch(tracked, answer, mySymbol) == Do(Do(tracked, action), SeqAdvanced(answer.sessionSeq));
  }
}
