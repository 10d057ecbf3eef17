/** Runs that show what the code does not promise: concrete inputs, from a server that has just started. */
module Witnesses {
  import opened Protocol
  import opened Engine
  import opened EngineLaws
  import opened Rooms
  import opened History
  import opened SessionModel
  import opened SessionRuns
  import opened SessionLaws
  import opened SessionHistory
  import opened ReplayBuffer
  import opened SessionStores
  import opened Transport
  import opened Handlers
  import opened Departures
  import opened ReachableServers
  import opened Driving

  // ---------- names ----------

  function Tag(n: nat): string {
    seq(n, i => '#')
  }

  function Player(n: nat): PlayerId {
    PlayerId(Tag(n))
  }

  function Token(n: nat): SessionToken {
    SessionToken(Tag(n))
  }

  function Game(n: nat): GameId {
    GameId(Tag(n))
  }

  function Cmd(n: nat): CommandId {
    CommandId(Tag(n))
  }

  const HOME := RoomId("home")

  lemma TagsDiffer()
    ensures forall m: nat, n: nat :: Tag(m) == Tag(n) ==> m == n
  {
    assert forall n: nat :: |Tag(n)| == n;
  }

  // ---------- scenes ----------

  /** The part of the one session that the play is about. */
  datatype Core = Core(game: Option<GameState>, timers: map<nat, Timer>, windows: map<PlayerId, nat>, nextTimer: nat)

  function CoreOf(server: Server): Core {
    if HOME !in server.games then Core(None, map[], map[], 0)
    else
      var s := server.games[HOME];
      Core(s.game, s.timers, s.reconnectTimers, s.nextTimer)
  }

  /** At time 0, with commands numbered from `n` on still unused. */
  ghost predicate Scene(server: Server, logins: Logins, room: Room, n: nat, used: set<GameId>, core: Core) {
    && server.logins == logins
    && server.rooms == map[HOME := room] && room.lastActivityAt == 0
    && (forall k: nat | k >= n :: Cmd(k) !in server.cache)
    && server.used == used
    && CoreOf(server) == core
  }

  function NewLogin(k: nat): Login {
    Login(Player(k), 0, 0, None)
  }

  lemma CreationScene()
    ensures var server := NewServer(map[], {});
            Scene(Serve(server, RoomCreation(HOME), 0).server, map[], NewRoom(0), 0, {}, Core(None, map[], map[], 0))
  {
  }

  lemma LoginScene(server: Server, logins: Logins, room: Room, n: nat, used: set<GameId>, core: Core, k: nat)
    requires Scene(server, logins, room, n, used, core) && Token(k) !in logins
    ensures Scene(Serve(server, Authentication(Cmd(n), None, Token(k), Player(k)), 0).server,
                  logins[Token(k) := NewLogin(k)], room, n + 1, used, core)
  {
    TagsDiffer();
    hide Tag;
  }

  predicate LoggedIn(logins: Logins, k: nat) {
    Token(k) in logins && logins[Token(k)].playerId == Player(k) && logins[Token(k)].createdAt == 0
  }

  lemma Unchanged(server: Server, n: nat)
    requires Cmd(n) !in server.cache
    ensures server.(cache := CacheSeen(server.cache, Cmd(n), 0)) == server
  {
  }

  lemma NumberingScene(
    server: Server, logins: Logins, room: Room, n: nat, used: set<GameId>, core: Core
  )
    requires Scene(server, logins, room, n, used, core)
    ensures Scene(Drive(server, HOME, Allocating), logins, room, n, used, core)
    ensures HOME in server.games ==> HOME in Drive(server, HOME, Allocating).games
  {
    hide Drive;
    if HOME in server.games {
      NumberingChangesNothing(server, HOME);
    } else {
      NoSession(server, Allocating);
    }
  }

  lemma NoSession(server: Server, op: Op)
    requires HOME !in server.games
    ensures Drive(server, HOME, op) == server
  {
    hide Step;
  }

  lemma AnswerScene(
    server: Server, logins: Logins, room: Room, n: nat, used: set<GameId>, core: Core, event: Event
  )
    requires Scene(server, logins, room, n, used, core)
    ensures Scene(Answering(server, Cmd(n), event, 0).server, logins, room, n + 1, used, core)
  {
    TagsDiffer();
    hide Tag;
  }

  lemma HostingScene(server: Server, logins: Logins, room: Room, n: nat, used: set<GameId>, core: Core)
    requires Scene(server, logins, room, n, used, core)
    ensures Scene(WithSession(server, HOME), logins, room, n, used, core) && HOME in WithSession(server, HOME).games
  {
  }

  lemma WelcomeScene(
    server: Server, logins: Logins, room: Room, n: nat, used: set<GameId>, core: Core, player: PlayerId, symbol: Symbol
  )
    requires Scene(server, logins, room, n, used, core) && HOME in server.games
    ensures var after := Welcome(server, Cmd(n), player, HOME, symbol, room, 0).server;
            Scene(after, logins, room, n + 1, used, core) && HOME in after.games
  {
    hide Drive;
    hide SnapshotOf;
    hide Scene;
    hide Tag;
    NumberingScene(server, logins, room, n, used, core);
    var numbered := Drive(server, HOME, Allocating);
    var joined := RoomJoined(SeqOr(numbered, HOME, 1), HOME, player, symbol, SnapshotOf(numbered, HOME));
    AnswerScene(numbered, logins, room, n, used, core, joined);
    NumberingScene(Answering(numbered, Cmd(n), joined, 0).server, logins, room, n + 1, used, core);
  }

  lemma JoinScene(server: Server, logins: Logins, room: Room, n: nat, used: set<GameId>, core: Core, k: nat)
    requires Scene(server, logins, room, n, used, core) && LoggedIn(logins, k) && logins[Token(k)].roomId.None?
    requires SlotOf(room, Player(k)).None? && FreeSymbol(room).Some?
    ensures var after := Serve(server, Request(Token(k), Cmd(n), JoinRoom(HOME)), 0).server;
            && Scene(after, WithRoom(logins, Token(k), Some(HOME)), Seat(room, Player(k), 0), n + 1, used, core)
            && HOME in after.games
  {
    hide Serve;
    hide Welcome;
    hide WithSession;
    hide CoreOf;
    hide Tag;
    AdmittedIsPerformed(server, Token(k), Cmd(n), JoinRoom(HOME), 0);
    Unchanged(server, n);
    var taken := Seat(room, Player(k), 0);
    var moved := WithRoom(logins, Token(k), Some(HOME));
    var seated := SetRoomTo(server, HOME, taken).(logins := moved);
    SameSession(server, seated);
    assert seated.rooms == map[HOME := taken];
    HostingScene(seated, moved, taken, n, used, core);
    WelcomeScene(WithSession(seated, HOME), moved, taken, n, used, core, Player(k), FreeSymbol(room).value);
  }

  lemma RoomScene(server: Server, logins: Logins, room: Room, n: nat, used: set<GameId>, core: Core, other: Room)
    requires Scene(server, logins, room, n, used, core) && other.lastActivityAt == 0
    ensures Scene(SetRoomTo(server, HOME, other), logins, other, n, used, core)
  {
    assert server.rooms[HOME := other] == map[HOME := other];
  }

  lemma StartScene(server: Server, logins: Logins, room: Room, n: nat, used: set<GameId>, core: Core, g: GameId)
    requires Scene(server, logins, room, n, used, core) && HOME in server.games && IsFull(room)
    ensures var after := Drive(server, HOME, Starting(room, g, 0));
            var next := CoreOf(after);
            && Scene(after, logins, room, n, used + {g}, next) && HOME in after.games
            && next == core.(game := next.game) && Runs(next, g, room)
  {
    hide Step;
    hide NextGame;
    var w := WorldOf(server, HOME);
    var op := Starting(room, g, 0);
    StepGame(w, op);
    StartsGame(w.session, room, g);
    QuietTimers(w, op);
    StepUsed(w, op);
  }

  /** A game `g` of the players on the two slots is running. */
  predicate Runs(core: Core, g: GameId, room: Room) {
    && core.game.Some? && core.game.value.status == Active && core.game.value.gameId == g
    && IsFull(room)
    && core.game.value.playerX == room.playerX.value.playerId
    && core.game.value.playerO == room.playerO.value.playerId
  }

  lemma StartsGame(s: Session, room: Room, g: GameId)
    requires IsFull(room)
    ensures NextGame(s, Starting(room, g, 0)) == Some(FirstState(s, room, NextFirstTurn(s), g, 0))
  {
  }

  lemma ReadyScene(
    server: Server, logins: Logins, room: Room, n: nat, used: set<GameId>, core: Core, k: nat, g: GameId
  )
    requires Scene(server, logins, room, n, used, core) && LoggedIn(logins, k) && HOME in server.games && IsFull(room)
    requires SymbolOf(room, Player(k)).Some? && SymbolOf(room, Player(k)).value !in room.readySymbols
    ensures var after := Serve(server, Request(Token(k), Cmd(n), PlayerReady(HOME, g)), 0).server;
            var marked := Marked(room, SymbolOf(room, Player(k)).value);
            && HOME in after.games
            && if BothReady(marked) then
                 var next := CoreOf(after);
                 && Scene(after, logins, Unready(marked), n + 1, used + {g}, next)
                 && next == core.(game := next.game) && Runs(next, g, room)
               else Scene(after, logins, marked, n + 1, used, core)
  {
    hide Serve;
    hide Prepare;
    hide CoreOf;
    hide Tag;
    AdmittedIsPerformed(server, Token(k), Cmd(n), PlayerReady(HOME, g), 0);
    Unchanged(server, n);
    PrepareScene(server, logins, room, n, used, core, SymbolOf(room, Player(k)).value, g);
  }

  lemma PrepareScene(
    server: Server, logins: Logins, room: Room, n: nat, used: set<GameId>, core: Core, symbol: Symbol, g: GameId
  )
    requires Scene(server, logins, room, n, used, core) && HOME in server.games && IsFull(room)
    ensures server.rooms[HOME] == room
    ensures var after := Prepare(server, Cmd(n), HOME, symbol, g, 0).server;
            var marked := Marked(room, symbol);
            && HOME in after.games
            && if BothReady(marked) then
                 var next := CoreOf(after);
                 && Scene(after, logins, Unready(marked), n + 1, used + {g}, next)
                 && next == core.(game := next.game) && Runs(next, g, room)
               else Scene(after, logins, marked, n + 1, used, core)
  {
    hide Drive;
    hide CoreOf;
    hide Tag;
    assert server.rooms[HOME] == room;
    var marked := Marked(room, symbol);
    RoomScene(server, logins, room, n, used, core, marked);
    var noted := SetRoomTo(server, HOME, marked);
    NumberingScene(noted, logins, marked, n, used, core);
    var numbered := Drive(noted, HOME, Allocating);
    NumberingScene(numbered, logins, marked, n, used, core);
    var announced := Drive(numbered, HOME, Allocating);
    var ack := PlayerReadyAck(SeqOr(numbered, HOME, 0), marked.readySymbols);
    if BothReady(marked) {
      RoomScene(announced, logins, marked, n, used, core, Unready(marked));
      var cleared := SetRoomTo(announced, HOME, Unready(marked));
      StartScene(cleared, logins, Unready(marked), n, used, core, g);
      var started := Drive(cleared, HOME, Starting(Unready(marked), g, 0));
      AnswerScene(started, logins, Unready(marked), n, used + {g}, CoreOf(started), ack);
    } else {
      AnswerScene(announced, logins, marked, n, used, core, ack);
    }
  }

  /** The window of player `k` is the timer 0. */
  predicate Waits(server: Server, k: nat) {
    && HOME in server.games && IsReconnectTimer(server.games[HOME], 0)
    && server.games[HOME].timers[0].playerId == Player(k)
  }

  lemma GoneScene(
    server: Server, logins: Logins, room: Room, n: nat, used: set<GameId>, core: Core, k: nat, g: GameId
  )
    requires Scene(server, logins, room, n, used, core) && HOME in server.games && Runs(core, g, room)
    requires LoggedIn(logins, k) && logins[Token(k)].roomId == Some(HOME)
    requires core.timers == map[] && core.windows == map[] && core.nextTimer == 0
    ensures var after := Serve(server, Disconnection(Token(k)), 0).server;
            var next := CoreOf(after);
            && Scene(after, logins, WithConnected(room, Player(k), false, 0), n, used, next)
            && Waits(after, k) && next.game == core.game
  {
    hide Drive;
    hide Tag;
    var away := WithConnected(room, Player(k), false, 0);
    RoomScene(server, logins, room, n, used, core, away);
    OpeningScene(SetRoomTo(server, HOME, away), logins, away, n, used, core, k);
    assert server ==
           server.(logins := LoginsSeen(server.logins, Token(k), 0), rooms := RoomsSeen(server.rooms, HOME, 0));
  }

  lemma OpeningScene(server: Server, logins: Logins, room: Room, n: nat, used: set<GameId>, core: Core, k: nat)
    requires Scene(server, logins, room, n, used, core) && HOME in server.games
    requires core.timers == map[] && core.windows == map[] && core.nextTimer == 0
    ensures var after := Drive(server, HOME, Opening(room, Player(k), 0));
            Scene(after, logins, room, n, used, CoreOf(after)) && Waits(after, k) && CoreOf(after).game == core.game
  {
    hide Trim;
    hide GoneNews;
    hide Posted;
    hide Tag;
  }

  lemma ForfeitScene(
    server: Server, logins: Logins, room: Room, n: nat, used: set<GameId>, core: Core, k: nat
  )
    requires Scene(server, logins, room, n, used, core) && Waits(server, k)
    ensures var after := Drive(server, HOME, Forfeiting(Player(k), 0));
            Scene(after, logins, room, n, used, CoreOf(after)) && Waits(after, k)
  {
    hide Step;
    hide Tag;
    var w := WorldOf(server, HOME);
    QuietTimers(w, Forfeiting(Player(k), 0));
    StepUsed(w, Forfeiting(Player(k), 0));
  }

  lemma WaitsIsCore(a: Server, b: Server, k: nat)
    requires Waits(a, k) && HOME in b.games && CoreOf(a).timers == CoreOf(b).timers
    ensures Waits(b, k)
  {
  }

  lemma LeftScene(server: Server, logins: Logins, room: Room, n: nat, used: set<GameId>, core: Core, k: nat)
    requires Scene(server, logins, room, n, used, core) && Waits(server, k) && LoggedIn(logins, k)
    requires SlotOf(room, Player(k)).Some?
    ensures var after := Serve(server, Request(Token(k), Cmd(n), LeaveRoom(HOME)), 0).server;
            && Scene(after, WithRoom(logins, Token(k), None), Unseat(room, Player(k), 0), n + 1, used, CoreOf(after))
            && Waits(after, k)
  {
    hide Serve;
    hide Drive;
    hide WasForfeited;
    hide Tag;
    AdmittedIsPerformed(server, Token(k), Cmd(n), LeaveRoom(HOME), 0);
    Unchanged(server, n);
    var forfeited := Drive(server, HOME, Forfeiting(Player(k), 0));
    ForfeitScene(server, logins, room, n, used, core, k);
    DepartScene(forfeited, logins, room, n, used, CoreOf(forfeited), k, SlotOf(room, Player(k)).value.symbol);
  }

  lemma DepartScene(
    server: Server, logins: Logins, room: Room, n: nat, used: set<GameId>, core: Core, k: nat, symbol: Symbol
  )
    requires Scene(server, logins, room, n, used, core) && Waits(server, k)
    ensures var after := Depart(server, Token(k), Cmd(n), Player(k), HOME, room, symbol, 0).server;
            && Scene(after, WithRoom(logins, Token(k), None), Unseat(room, Player(k), 0), n + 1, used, CoreOf(after))
            && Waits(after, k)
  {
    hide Drive;
    hide WasForfeited;
    hide Tag;
    NumberingScene(server, logins, room, n, used, core);
    var numbered := Drive(server, HOME, Allocating);
    AnswerScene(numbered, logins, room, n, used, core, RoomLeft(SeqOr(numbered, HOME, 1)));
    var answered := Answering(numbered, Cmd(n), RoomLeft(SeqOr(numbered, HOME, 1)), 0).server;
    NumberingScene(answered, logins, room, n + 1, used, core);
    var announced := Drive(answered, HOME, Allocating);
    WaitsIsCore(server, announced, k);
    RoomScene(announced, logins, room, n + 1, used, core, Unseat(room, Player(k), 0));
  }

  lemma SameSession(a: Server, b: Server)
    requires a.games == b.games
    ensures CoreOf(a) == CoreOf(b)
  {
  }

  // ---------- the play ----------

  function Then(server: Server, x: Timed): Server {
    Serve(server, x.input, x.now).server
  }

  /** From `server`, with ids that are fresh each time, the inputs lead to `after`. */
  ghost predicate Goes(server: Server, inputs: seq<Timed>, after: Server) {
    FreshInputs(server, inputs) && ServeAll(server, inputs) == after
  }

  lemma GoesNowhere(server: Server)
    ensures Goes(server, [], server)
  {
  }

  lemma GoesOn(server: Server, inputs: seq<Timed>, mid: Server, x: Timed)
    requires Goes(server, inputs, mid) && FreshInput(mid, x.input)
    ensures Goes(server, inputs + [x], Then(mid, x))
  {
    hide Serve;
    hide FreshInput;
    var all := inputs + [x];
    assert all[..|inputs|] == inputs;
    forall i | 0 <= i < |all| ensures FreshInput(ServeAll(server, all[..i]), all[i].input) {
      if i < |inputs| {
        assert all[..i] == inputs[..i] && all[i] == inputs[i];
      }
    }
  }

  function At(input: Input): Timed {
    Timed(input, 0)
  }

  function LogIn(k: nat, n: nat): Timed {
    At(Authentication(Cmd(n), None, Token(k), Player(k)))
  }

  function Asks(k: nat, n: nat, command: Command): Timed {
    At(Request(Token(k), Cmd(n), command))
  }

  function Sitting(k: nat, symbol: Symbol, connected: bool): Option<Slot> {
    Some(Slot(Player(k), symbol, connected, 0))
  }

  function Home(x: Option<Slot>, o: Option<Slot>, ready: set<Symbol>): Room {
    Room(x, o, ready, 0, 0)
  }

  const NO_CORE := Core(None, map[], map[], 0)

  /** Three players log in, the first two join. */
  function Gathering(): seq<Timed> {
    [At(RoomCreation(HOME)), LogIn(1, 0), LogIn(2, 1), LogIn(3, 2), Asks(1, 3, JoinRoom(HOME)),
     Asks(2, 4, JoinRoom(HOME))]
  }

  /** They start a game; the first loses the connection, and leaves. */
  function FirstGame(): seq<Timed> {
    [Asks(1, 5, PlayerReady(HOME, Game(1))), Asks(2, 6, PlayerReady(HOME, Game(2))), At(Disconnection(Token(1))),
     Asks(1, 7, LeaveRoom(HOME))]
  }

  /** The third player takes the seat and starts a game with the second. */
  function SecondGame(): seq<Timed> {
    [Asks(3, 8, JoinRoom(HOME)), Asks(3, 9, PlayerReady(HOME, Game(3))), Asks(2, 10, PlayerReady(HOME, Game(4)))]
  }

  /** And then the reconnect window of the first player runs out. */
  function LateTimer(): seq<Timed> {
    Gathering() + FirstGame() + SecondGame() + [Timed(WindowElapses(HOME, 0), RECONNECT_WINDOW_MS)]
  }

  function LoginsAt(a: Option<RoomId>, b: Option<RoomId>, c: Option<RoomId>): Logins {
    map[Token(1) := Login(Player(1), 0, 0, a), Token(2) := Login(Player(2), 0, 0, b),
        Token(3) := Login(Player(3), 0, 0, c)]
  }

  lemma LoginsKnown(a: Option<RoomId>, b: Option<RoomId>, c: Option<RoomId>)
    ensures var logins := LoginsAt(a, b, c);
            && LoggedIn(logins, 1) && LoggedIn(logins, 2) && LoggedIn(logins, 3)
            && logins[Token(1)].roomId == a && logins[Token(2)].roomId == b && logins[Token(3)].roomId == c
    ensures forall r :: WithRoom(LoginsAt(a, b, c), Token(1), r) == LoginsAt(r, b, c)
    ensures forall r :: WithRoom(LoginsAt(a, b, c), Token(2), r) == LoginsAt(a, r, c)
    ensures forall r :: WithRoom(LoginsAt(a, b, c), Token(3), r) == LoginsAt(a, b, r)
  {
    TagsDiffer();
    hide Tag;
  }

  lemma LoginsGrow()
    ensures Token(2) !in map[Token(1) := NewLogin(1)]
    ensures Token(3) !in map[Token(1) := NewLogin(1), Token(2) := NewLogin(2)]
    ensures map[Token(1) := NewLogin(1), Token(2) := NewLogin(2), Token(3) := NewLogin(3)] ==
            LoginsAt(None, None, None)
    ensures forall t :: !HasToken(map[], t, Player(1))
    ensures forall t :: !HasToken(map[Token(1) := NewLogin(1)], t, Player(2))
    ensures forall t :: !HasToken(map[Token(1) := NewLogin(1), Token(2) := NewLogin(2)], t, Player(3))
  {
    TagsDiffer();
    hide Tag;
  }

  lemma Gathered() returns (after: Server)
    ensures Goes(NewServer(map[], {}), Gathering(), after)
    ensures Scene(after, LoginsAt(Some(HOME), Some(HOME), None),
                  Home(Sitting(1, X, true), Sitting(2, O, true), {}), 5, {}, NO_CORE)
    ensures HOME in after.games
  {
    hide Serve;
    hide ServeAll;
    hide Goes;
    hide Tag;
    hide LoginsAt;
    var start := NewServer(map[], {});
    TagsDiffer();
    LoginsGrow();
    CreationScene();
    GoesNowhere(start);
    var inputs: seq<Timed> := [];
    GoesOn(start, inputs, start, At(RoomCreation(HOME)));
    inputs := inputs + [At(RoomCreation(HOME))];
    var s1 := Then(start, At(RoomCreation(HOME)));
    var empty := NewRoom(0);
    LoginScene(s1, map[], empty, 0, {}, NO_CORE, 1);
    GoesOn(start, inputs, s1, LogIn(1, 0));
    inputs := inputs + [LogIn(1, 0)];
    var s2 := Then(s1, LogIn(1, 0));
    LoginScene(s2, map[Token(1) := NewLogin(1)], empty, 1, {}, NO_CORE, 2);
    GoesOn(start, inputs, s2, LogIn(2, 1));
    inputs := inputs + [LogIn(2, 1)];
    var s3 := Then(s2, LogIn(2, 1));
    LoginScene(s3, map[Token(1) := NewLogin(1), Token(2) := NewLogin(2)], empty, 2, {}, NO_CORE, 3);
    GoesOn(start, inputs, s3, LogIn(3, 2));
    inputs := inputs + [LogIn(3, 2)];
    var s4 := Then(s3, LogIn(3, 2));
    LoginsKnown(None, None, None);
    JoinScene(s4, LoginsAt(None, None, None), empty, 3, {}, NO_CORE, 1);
    GoesOn(start, inputs, s4, Asks(1, 3, JoinRoom(HOME)));
    inputs := inputs + [Asks(1, 3, JoinRoom(HOME))];
    var s5 := Then(s4, Asks(1, 3, JoinRoom(HOME)));
    LoginsKnown(Some(HOME), None, None);
    JoinScene(s5, LoginsAt(Some(HOME), None, None), Home(Sitting(1, X, true), None, {}), 4, {}, NO_CORE, 2);
    GoesOn(start, inputs, s5, Asks(2, 4, JoinRoom(HOME)));
    inputs := inputs + [Asks(2, 4, JoinRoom(HOME))];
    after := Then(s5, Asks(2, 4, JoinRoom(HOME)));
    assert inputs == Gathering();
  }

  lemma GoesThrough(server: Server, a: seq<Timed>, mid: Server, b: seq<Timed>, after: Server)
    requires Goes(server, a, mid) && Goes(mid, b, after)
    ensures Goes(server, a + b, after)
  {
    hide Serve;
    hide ServeAll;
    hide FreshInput;
    ServeAllAppend(server, a, b);
    forall i | 0 <= i < |a + b| ensures FreshInput(ServeAll(server, (a + b)[..i]), (a + b)[i].input) {
      if i < |a| {
        assert (a + b)[..i] == a[..i];
      } else {
        assert (a + b)[..i] == a + b[..i - |a|];
        ServeAllAppend(server, a, b[..i - |a|]);
      }
    }
  }

  /** Both get ready, with the commands `n` and `n + 1`, and their game runs. */
  lemma BothReadyUp(
    before: Server, logins: Logins, x: nat, o: nat, n: nat, used: set<GameId>, g: GameId, h: GameId
  ) returns (after: Server)
    requires Scene(before, logins, Home(Sitting(x, X, true), Sitting(o, O, true), {}), n, used, CoreOf(before))
    requires HOME in before.games && LoggedIn(logins, x) && LoggedIn(logins, o) && x != o && g !in used && h !in used
    ensures Goes(before, [Asks(x, n, PlayerReady(HOME, g)), Asks(o, n + 1, PlayerReady(HOME, h))], after)
    ensures Scene(after, logins, Home(Sitting(x, X, true), Sitting(o, O, true), {}), n + 2, used + {h}, CoreOf(after))
    ensures CoreOf(after) == CoreOf(before).(game := CoreOf(after).game) && HOME in after.games
    ensures Runs(CoreOf(after), h, Home(Sitting(x, X, true), Sitting(o, O, true), {}))
  {
    hide Serve;
    hide ServeAll;
    hide Goes;
    hide Tag;
    hide CoreOf;
    TagsDiffer();
    GoesNowhere(before);
    var full := Home(Sitting(x, X, true), Sitting(o, O, true), {});
    var x1, x2 := Asks(x, n, PlayerReady(HOME, g)), Asks(o, n + 1, PlayerReady(HOME, h));
    ReadyScene(before, logins, full, n, used, CoreOf(before), x, g);
    GoesOn(before, [], before, x1);
    assert [] + [x1] == [x1];
    var mid := Then(before, x1);
    assert Marked(full, X) == Home(Sitting(x, X, true), Sitting(o, O, true), {X});
    ReadyScene(mid, logins, Marked(full, X), n + 1, used, CoreOf(before), o, h);
    GoesOn(before, [x1], mid, x2);
    assert [x1] + [x2] == [x1, x2];
    after := Then(mid, x2);
    assert Unready(Marked(Marked(full, X), O)) == full;
  }

  /** The first player is gone, the second sits there; the window of the first is pending. */
  lemma FirstGamePlayed(before: Server) returns (after: Server)
    requires HOME in before.games
    requires Scene(before, LoginsAt(Some(HOME), Some(HOME), None),
                   Home(Sitting(1, X, true), Sitting(2, O, true), {}), 5, {}, NO_CORE)
    ensures Goes(before, FirstGame(), after)
    ensures Scene(after, LoginsAt(None, Some(HOME), None), Home(None, Sitting(2, O, true), {}), 8, {Game(2)},
                  CoreOf(after))
    ensures Waits(after, 1)
  {
    hide Serve;
    hide ServeAll;
    hide Goes;
    hide Tag;
    hide LoginsAt;
    hide CoreOf;
    LoginsKnown(Some(HOME), Some(HOME), None);
    var logins := LoginsAt(Some(HOME), Some(HOME), None);
    var full := Home(Sitting(1, X, true), Sitting(2, O, true), {});
    var s2 := BothReadyUp(before, logins, 1, 2, 5, {}, Game(1), Game(2));
    assert {} + {Game(2)} == {Game(2)};
    var inputs := [Asks(1, 5, PlayerReady(HOME, Game(1))), Asks(2, 6, PlayerReady(HOME, Game(2)))];
    var x3, x4 := At(Disconnection(Token(1))), Asks(1, 7, LeaveRoom(HOME));
    GoneScene(s2, logins, full, 7, {Game(2)}, CoreOf(s2), 1, Game(2));
    GoesOn(before, inputs, s2, x3);
    var s3 := Then(s2, x3);
    var away := Home(Sitting(1, X, false), Sitting(2, O, true), {});
    TagsDiffer();
    LeftScene(s3, logins, away, 7, {Game(2)}, CoreOf(s3), 1);
    GoesOn(before, inputs + [x3], s3, x4);
    assert inputs + [x3] + [x4] == FirstGame();
    after := Then(s3, x4);
    assert Unseat(away, Player(1), 0) == Home(None, Sitting(2, O, true), {});
  }

  lemma SecondGamePlayed(before: Server) returns (after: Server)
    requires Scene(before, LoginsAt(None, Some(HOME), None), Home(None, Sitting(2, O, true), {}), 8, {Game(2)},
                   CoreOf(before))
    requires Waits(before, 1)
    ensures Goes(before, SecondGame(), after)
    ensures after.rooms == map[HOME := Home(Sitting(3, X, true), Sitting(2, O, true), {})]
    ensures Waits(after, 1) && IsActive(after.games[HOME]) && after.games[HOME].game.value.gameId == Game(4)
  {
    hide Serve;
    hide ServeAll;
    hide Goes;
    hide Tag;
    hide LoginsAt;
    LoginsKnown(None, Some(HOME), None);
    LoginsKnown(None, Some(HOME), Some(HOME));
    TagsDiffer();
    var core := CoreOf(before);
    var x1 := Asks(3, 8, JoinRoom(HOME));
    GoesNowhere(before);
    JoinScene(before, LoginsAt(None, Some(HOME), None), Home(None, Sitting(2, O, true), {}), 8, {Game(2)}, core, 3);
    GoesOn(before, [], before, x1);
    var joined := Then(before, x1);
    var logins := LoginsAt(None, Some(HOME), Some(HOME));
    after := BothReadyUp(joined, logins, 3, 2, 9, {Game(2)}, Game(3), Game(4));
    var readies := [Asks(3, 9, PlayerReady(HOME, Game(3))), Asks(2, 10, PlayerReady(HOME, Game(4)))];
    GoesThrough(before, [] + [x1], joined, readies, after);
    assert [] + [x1] + readies == SecondGame();
    WaitsIsCore(before, after, 1);
  }

  lemma EndsWithoutWinner(inputs: seq<Timed>, before: Server)
    requires Goes(NewServer(map[], {}), inputs, before)
    requires before.rooms == map[HOME := Home(Sitting(3, X, true), Sitting(2, O, true), {})]
    requires Waits(before, 1) && IsActive(before.games[HOME])
    ensures var end := Then(before, Timed(WindowElapses(HOME, 0), RECONNECT_WINDOW_MS));
            && HOME in end.games && end.games[HOME].game.Some?
            && end.games[HOME].game.value.gameId == before.games[HOME].game.value.gameId
            && end.games[HOME].game.value.result ==
               Some(GameResult(Abandoned, None, None, PlayerAbandoned, RECONNECT_WINDOW_MS))
  {
    hide Serve;
    hide ServeAll;
    hide FreshInputs;
    hide Tag;
    TagsDiffer();
    NothingStored();
    WindowAbandons(map[], {}, inputs, HOME, 0, RECONNECT_WINDOW_MS);
  }

  lemma ClockGoesOn()
    ensures forall i, j | 0 <= i <= j < |LateTimer()| :: LateTimer()[i].now <= LateTimer()[j].now
  {
    var inputs := Gathering() + FirstGame() + SecondGame();
    assert forall i | 0 <= i < |inputs| :: inputs[i].now == 0;
  }

  lemma NothingStored()
    ensures forall room :: StoreSound(GamesOf(map[], room), {})
  {
  }

  /**
   The window of a player who left runs out during the game of two others: a run of the server, from
   its start, with fresh ids and a clock that does not go back, in which a game is abandoned and
   nobody wins.
   */
  lemma LateTimerLeavesNoWinner()
    ensures var start := NewServer(map[], {});
            var end := ServeAll(start, LateTimer());
            && FreshInputs(start, LateTimer())
            && (forall i, j | 0 <= i <= j < |LateTimer()| :: LateTimer()[i].now <= LateTimer()[j].now)
            && HOME in end.games && end.games[HOME].game.Some? && end.games[HOME].game.value.gameId == Game(4)
            && end.games[HOME].game.value.result ==
               Some(GameResult(Abandoned, None, None, PlayerAbandoned, RECONNECT_WINDOW_MS))
  {
    hide Serve;
    hide ServeAll;
    hide FreshInputs;
    hide Tag;
    hide Gathering;
    hide FirstGame;
    hide SecondGame;
    hide Scene;
    ClockGoesOn();
    var start := NewServer(map[], {});
    var gathered := Gathered();
    var left := FirstGamePlayed(gathered);
    var replaced := SecondGamePlayed(left);
    var inputs := Gathering() + FirstGame() + SecondGame();
    GoesThrough(start, Gathering(), gathered, FirstGame(), left);
    GoesThrough(start, Gathering() + FirstGame(), left, SecondGame(), replaced);
    var last := Timed(WindowElapses(HOME, 0), RECONNECT_WINDOW_MS);
    GoesOn(start, inputs, replaced, last);
    assert inputs + [last] == LateTimer();
    EndsWithoutWinner(inputs, replaced);
  }

  // ---------- a running game ----------

  /**
   The laws of reachable servers speak of something: one is reachable where a game runs between two
   seated, connected players, and where the next command of either is performed.
   */
  lemma PlayersMeet() returns (server: Server)
    ensures Reachable(server) && HOME in server.games && IsActive(server.games[HOME])
    ensures Admitted(server, Token(1), Cmd(7), HOME, 0) && Admitted(server, Token(2), Cmd(7), HOME, 0)
    ensures Sits(server.rooms[HOME], X, server.logins[Token(1)].playerId)
    ensures Sits(server.rooms[HOME], O, server.logins[Token(2)].playerId)
    ensures Present(server.rooms[HOME], Player(1)) && Present(server.rooms[HOME], Player(2))
  {
    hide Serve;
    hide ServeAll;
    hide FreshInputs;
    hide Tag;
    hide LoginsAt;
    var gathered := Gathered();
    var logins := LoginsAt(Some(HOME), Some(HOME), None);
    LoginsKnown(Some(HOME), Some(HOME), None);
    TagsDiffer();
    server := BothReadyUp(gathered, logins, 1, 2, 5, {}, Game(1), Game(2));
    var inputs := [Asks(1, 5, PlayerReady(HOME, Game(1))), Asks(2, 6, PlayerReady(HOME, Game(2)))];
    GoesThrough(NewServer(map[], {}), Gathering(), gathered, inputs, server);
    NothingStored();
    RunIsReachable(map[], {}, Gathering() + inputs);
  }

  // ---------- a refused replay ----------

  /** A game starts and `a` makes a move. */
  function OneMove(a: PlayerId, b: PlayerId, g: GameId, id: CommandId): seq<Op> {
    [Starting(Room(Some(Slot(a, X, true, 0)), Some(Slot(b, O, true, 0)), {}, 0, 0), g, 0),
     Moving(a, g, RawPosition(1, 1), id, 1)]
  }

  predicate IsEntry(entry: Entry, number: int, target: Target) {
    entry.event.HasSeq() && entry.event.sessionSeq == number && entry.target == target
  }

  /** The game of `a` and `b` was announced and nothing else. */
  predicate GameTold(s: Session, a: PlayerId, b: PlayerId, g: GameId) {
    && |s.log| == 1 && IsEntry(s.log[0], 1, Broadcast) && s.seqNo == 1
    && s.game.Some? && s.game.value.status == Active && s.game.value.gameId == g
    && s.game.value.playerX == a && s.game.value.playerO == b && s.game.value.currentTurn == X
    && s.game.value.board == EMPTY_BOARD
  }

  /** And then one move of `a`: an acknowledgement for `a`, a broadcast for the others. */
  predicate OnceMoved(s: Session, a: PlayerId) {
    && |s.log| == 3 && IsEntry(s.log[0], 1, Broadcast)
    && IsEntry(s.log[1], 2, ToPlayer) && s.log[1].anchor == a
    && IsEntry(s.log[2], 3, ToOthers) && s.log[2].anchor == a
  }

  /** The acknowledgement was for `a` alone, so `b`, asking from its number on, is refused, though nothing was lost. */
  lemma OpponentIsRefused(r: RoomId, a: PlayerId, b: PlayerId, g: GameId, id: CommandId)
    requires a != b
    ensures var w := World(NewSession(r, map[]), map[], {});
            var s := Run(w, OneMove(a, b, g, id)).session;
            && Created(w) && AllFresh(w, OneMove(a, b, g, id))
            && |s.log| == 3 && s.buffer == s.log
            && ReplayEvents(s, 2, b).None? && ReplayEvents(s, 2, a).Some?
  {
    hide Step;
    hide Run;
    hide ReplayEvents;
    hide Buffered;
    hide GameTold;
    hide OnceMoved;
    hide GameSound;
    var w := World(NewSession(r, map[]), map[], {});
    var ops := OneMove(a, b, g, id);
    var w1 := Step(w, ops[0]);
    TwoSteps(w, ops);
    assert Fresh(w, ops[0]) && Fresh(w1, ops[1]);
    StartingTold(w, a, b, g, id);
    CreatedLog(w);
    StepKeepsGameSound(w, ops[0]);
    MoveTold(w1, a, b, g, id);
    StepKeepsBuffered(w, ops[0]);
    StepKeepsBuffered(w1, ops[1]);
    RefusedAfterMove(Step(w1, ops[1]).session, a, b);
  }

  lemma RefusedAfterMove(s: Session, a: PlayerId, b: PlayerId)
    requires Buffered(s) && OnceMoved(s, a) && a != b
    ensures |s.log| == 3 && s.buffer == s.log
    ensures ReplayEvents(s, 2, b).None? && ReplayEvents(s, 2, a).Some?
  {
    hide ReplayEvents;
    hide Buffered;
    RefusedWithoutTrimming(s, 2, a);
    RefusedWithoutTrimming(s, 2, b);
    assert VisibleTo(s.log[1], a) && VisibleTo(s.log[2], b);
  }

  lemma TwoSteps(w: World, ops: seq<Op>)
    requires |ops| == 2
    ensures Run(w, ops[..0]) == w && Run(w, ops[..1]) == Step(w, ops[0])
    ensures Run(w, ops) == Step(Step(w, ops[0]), ops[1])
  {
    hide Step;
    assert ops[..1][..0] == ops[..0] && ops[..2] == ops;
  }

  lemma CreatedLog(w: World)
    requires Created(w)
    ensures Buffered(w.session) && GameSound(w.session)
  {
  }

  lemma StartingTold(w: World, a: PlayerId, b: PlayerId, g: GameId, id: CommandId)
    requires Created(w)
    ensures GameTold(Step(w, OneMove(a, b, g, id)[0]).session, a, b, g)
  {
    hide Trim;
  }

  /** One mark makes no line and fills no board. */
  lemma FirstMoveEndsNothing(state: GameState, command: MoveCommand)
    requires state.status == Active && state.board == EMPTY_BOARD && state.result.None?
    requires ResolveSymbol(state, command.playerId) == Some(X) && state.currentTurn == X
    requires command.row == command.col == 1
    ensures ApplyMove(state, command).Accepted? && ApplyMove(state, command).newState.result.None?
  {
    hide ApplyMove;
    MoveShape(state, command);
    var board := ApplyMark(state.board, Pos(1, 1), X);
    forall k | 0 <= k < |ALL_WINNING_LINES| ensures !Complete(board, X, ALL_WINNING_LINES[k]) {
      LineIsThreeCells(k);
    }
    WinLineExact(board, X);
    assert board[0] == Empty;
  }

  lemma MoveTold(w: World, a: PlayerId, b: PlayerId, g: GameId, id: CommandId)
    requires GameTold(w.session, a, b, g) && a != b && GameSound(w.session)
    ensures OnceMoved(Step(w, OneMove(a, b, g, id)[1]).session, a)
  {
    hide Step;
    hide ApplyMove;
    hide WellPlayed;
    hide Trim;
    var op := OneMove(a, b, g, id)[1];
    var state := w.session.game.value;
    RunningHasNoResult(state);
    FirstMoveEndsNothing(state, MoveCommand(a, 1, 1, id, 1));
    StepAnnounces(w, op);
  }
}
