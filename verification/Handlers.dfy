/**
 What the command handlers do to the shared stores, as functions.  Everything a handler does to a
 session is an operation of the session model, so what holds of every run of a session holds of
 every session of a running server.  One clock reading serves a whole handler.
 */
module Handlers {
  import opened Protocol
  import opened Rooms
  import opened History
  import opened SessionModel
  import opened SessionRuns
  import opened SessionStores
  import opened Snapshots
  import opened Transport

  /**
   The stores, the game ids handed out so far, and what the sessions had sent to whom; the program
   keeps neither of the last two.
   */
  datatype Server = Server(
    logins: Logins,
    cache: Cache,
    rooms: RoomMap,
    games: map<RoomId, Session>,
    history: Store,
    used: set<GameId>,
    wire: seq<Post>)

  /** Besides what sessions send themselves: an answer to the asking connection, or an event for a player. */
  datatype Delivery = ToAsker(stored: Stored) | ToConnectionsOf(playerId: PlayerId, event: Event)

  datatype Handled = Handled(server: Server, deliveries: seq<Delivery>)

  datatype Command =
    | JoinRoom(roomId: RoomId)
    | LeaveRoom(roomId: RoomId)
    | PlayerReady(roomId: RoomId, newGame: GameId)
    | MakeMove(roomId: RoomId, target: GameId, position: RawPosition)
    | AskRematch(roomId: RoomId, target: GameId)
    | TakeRematch(roomId: RoomId, target: GameId, newGame: GameId)
    | RefuseRematch(roomId: RoomId, target: GameId)
    | Rejoin(roomId: RoomId, lastReceived: int)
    | SyncRequest(roomId: RoomId, fromSeq: int)
  {
    /** Rematch commands answer a retry with silence. */
    predicate IsRematch() {
      AskRematch? || TakeRematch? || RefuseRematch?
    }
  }

  /** Everything that can happen to the server. */
  datatype Input =
    | RoomCreation(room: RoomId)
    | Authentication(id: CommandId, guest: Option<SessionToken>, newToken: SessionToken, newPlayer: PlayerId)
    | Request(token: SessionToken, id: CommandId, command: Command)
    | Disconnection(token: SessionToken)
    | WindowElapses(room: RoomId, timer: nat)
    | ProposalElapses(room: RoomId, timer: nat, detached: Room)
    | Maintenance

  // ---------- helpers ----------

  function WorldOf(server: Server, r: RoomId): World
    requires r in server.games
  {
    World(server.games[r], server.history, server.used)
  }

  /** Let the session of a room do something, if there is one; what it sends goes out at once. */
  function Drive(server: Server, r: RoomId, op: Op): Server {
    if r !in server.games then server
    else
      var w := Step(WorldOf(server, r), op);
      server.(games := server.games[r := w.session], history := w.store, used := w.used,
              wire := Posted(server, r, w.session))
  }

  /** The wire after the session of a room went on to `session`: the send function asks the store for the room. */
  function Posted(server: Server, r: RoomId, session: Session): seq<Post>
    requires r in server.games
  {
    server.wire + Posts(r, RoomIn(server, r), NewlySent(server.games[r], session))
  }

  function WithSession(server: Server, r: RoomId): Server {
    if r in server.games then server else server.(games := server.games[r := NewSession(r, server.history)])
  }

  function SeqOr(server: Server, r: RoomId, default: int): int {
    if r in server.games then server.games[r].seqNo else default
  }

  function RoomIn(server: Server, r: RoomId): Option<Room> {
    if r in server.rooms then Some(server.rooms[r]) else None
  }

  function SessionIn(server: Server, r: RoomId): Option<Session> {
    if r in server.games then Some(server.games[r]) else None
  }

  function SnapshotOf(server: Server, r: RoomId): RoomSnapshot {
    BuildSnapshot(r, RoomIn(server, r), SessionIn(server, r))
  }

  function Remembering(server: Server, id: CommandId, result: Stored, now: int): Server {
    server.(cache := Recording(server.cache, id, result, now))
  }

  function SetRoomTo(server: Server, r: RoomId, room: Room): Server {
    server.(rooms := server.rooms[r := room])
  }

  function Failing(server: Server, code: ErrorCode): Handled {
    Handled(server, [ToAsker(Reply(Error(code)))])
  }

  function Answering(server: Server, id: CommandId, event: Event, now: int): Handled {
    Handled(Remembering(server, id, Reply(event), now), [ToAsker(Reply(event))])
  }

  // ---------- the handlers ----------

  /** The login exists, the command is new and the room is there; otherwise the command goes no further. */
  function Gate(server: Server, token: SessionToken, id: CommandId, command: Command, now: int): Handled {
    var seen := server.(logins := LoginsSeen(server.logins, token, now));
    if token !in seen.logins then Failing(seen, NotAuthenticated)
    else
      var swept := seen.(cache := CacheSeen(seen.cache, id, now));
      if id in swept.cache then
        Handled(swept, if command.IsRematch() then [] else [ToAsker(swept.cache[id].result)])
      else if command.JoinRoom? && ElsewhereThan(swept.logins[token], command.roomId) then Failing(swept, AlreadyInRoom)
      else
        var ready := swept.(rooms := RoomsSeen(swept.rooms, command.roomId, now));
        if command.roomId !in ready.rooms then Failing(ready, RoomNotFound)
        else Perform(ready, token, id, command, now)
  }

  predicate ElsewhereThan(login: Login, r: RoomId) {
    login.roomId.Some? && login.roomId.value != r
  }

  function Perform(server: Server, token: SessionToken, id: CommandId, command: Command, now: int): Handled
    requires token in server.logins && command.roomId in server.rooms
  {
    var player := server.logins[token].playerId;
    match command
    case JoinRoom(r) => Join(server, token, id, player, r, now)
    case LeaveRoom(r) => Leave(server, token, id, player, r, now)
    case PlayerReady(r, newGame) => Ready(server, id, player, r, newGame, now)
    case MakeMove(r, target, position) => Move(server, id, player, r, target, position, now)
    case AskRematch(r, target) => Ask(server, id, player, r, target, now)
    case TakeRematch(r, target, newGame) => Take(server, id, player, r, target, newGame, now)
    case RefuseRematch(r, target) => Refuse(server, id, player, r, target, now)
    case Rejoin(r, lastReceived) => Return(server, token, id, player, r, lastReceived, now)
    case SyncRequest(r, fromSeq) => Sync(server, id, player, r, fromSeq, now)
  }

  function Join(server: Server, token: SessionToken, id: CommandId, player: PlayerId, r: RoomId, now: int): Handled
    requires r in server.rooms
  {
    var slot := SlotOf(server.rooms[r], player);
    if slot.Some? then
      var numbered := Drive(server, r, Allocating);
      var joined := RoomJoined(SeqOr(numbered, r, 1), r, player, slot.value.symbol, SnapshotOf(server, r));
      Answering(numbered, id, joined, now)
    else if PlayerCount(server.rooms[r]) >= 2 then Failing(server, RoomFull)
    else Enter(server, token, id, player, r, now)
  }

  function Enter(server: Server, token: SessionToken, id: CommandId, player: PlayerId, r: RoomId, now: int): Handled
    requires r in server.rooms && FreeSymbol(server.rooms[r]).Some?
  {
    var symbol := FreeSymbol(server.rooms[r]).value;
    var room := Seat(server.rooms[r], player, now);
    var seated := SetRoomTo(server, r, room).(logins := WithRoom(server.logins, token, Some(r)));
    Welcome(WithSession(seated, r), id, player, r, symbol, room, now)
  }

  function Welcome(
    server: Server, id: CommandId, player: PlayerId, r: RoomId, symbol: Symbol, room: Room, now: int
  ): Handled
  {
    var numbered := Drive(server, r, Allocating);
    var joined := RoomJoined(SeqOr(numbered, r, 1), r, player, symbol, SnapshotOf(numbered, r));
    var answer := Answering(numbered, id, joined, now);
    var other := if symbol == X then room.playerO else room.playerX;
    if other.None? then answer
    else
      var announced := Drive(answer.server, r, Allocating);
      Handled(announced, answer.deliveries + [
        ToConnectionsOf(other.value.playerId, PlayerJoined(SeqOr(announced, r, 1), player, symbol, 2))])
  }

  /** Whether the session's last game ended by a forfeit. */
  predicate WasForfeited(session: Option<Session>) {
    && session.Some? && session.value.game.Some? && session.value.game.value.status == Finished
    && session.value.game.value.result.Some? && session.value.game.value.result.value.reason == PlayerForfeited
  }

  /** A running game is forfeited before the player goes. */
  function Leave(server: Server, token: SessionToken, id: CommandId, player: PlayerId, r: RoomId, now: int): Handled
    requires r in server.rooms
  {
    var room := server.rooms[r];
    var slot := SlotOf(room, player);
    if slot.None? then Failing(server, NotInRoom)
    else
      Depart(Drive(server, r, Forfeiting(player, now)), token, id, player, r, room, slot.value.symbol, now)
  }

  function Depart(
    server: Server, token: SessionToken, id: CommandId, player: PlayerId, r: RoomId, room: Room, symbol: Symbol,
    now: int
  ): Handled
  {
    var numbered := Drive(server, r, Allocating);
    var number := SeqOr(numbered, r, 1);
    var answer := Answering(numbered, id, RoomLeft(number), now);
    var reason := if WasForfeited(SessionIn(numbered, r)) then ByForfeit else Voluntary;
    var announced := Drive(answer.server, r, Allocating);
    var left := PlayerLeft(SeqOr(announced, r, number + 1), player, symbol, reason);
    var opponent := OpponentSlot(room, player);
    Handled(SetRoomTo(announced, r, Unseat(room, player, now)).(logins := WithRoom(announced.logins, token, None)),
            answer.deliveries + if opponent.Some? then [ToConnectionsOf(opponent.value.playerId, left)] else [])
  }

  /** Not gated on the state of the game: a running game can be replaced. */
  function Ready(server: Server, id: CommandId, player: PlayerId, r: RoomId, newGame: GameId, now: int): Handled
    requires r in server.rooms
  {
    var room := server.rooms[r];
    if PlayerCount(room) < 2 || SymbolOf(room, player).None? then Failing(server, NotInRoom)
    else
      var symbol := SymbolOf(room, player).value;
      var hosted := WithSession(server, r);
      if symbol in room.readySymbols then
        Answering(hosted, id, PlayerReadyAck(SeqOr(hosted, r, 0), room.readySymbols), now)
      else
        Prepare(hosted, id, r, symbol, newGame, now)
  }

  /** A player gets ready; with both ready the next game starts. */
  function Prepare(server: Server, id: CommandId, r: RoomId, symbol: Symbol, newGame: GameId, now: int): Handled
    requires r in server.rooms && IsFull(server.rooms[r])
  {
    var room := server.rooms[r];
    var marked := Marked(room, symbol);
    var numbered := Drive(SetRoomTo(server, r, marked), r, Allocating);
    var ack := PlayerReadyAck(SeqOr(numbered, r, 0), marked.readySymbols);
    var announced := Drive(numbered, r, Allocating);
    var other := if symbol == X then room.playerO.value else room.playerX.value;
    var news := OpponentReady(SeqOr(announced, r, 0), symbol, marked.readySymbols);
    var started :=
      if BothReady(marked) then
        Drive(SetRoomTo(announced, r, Unready(marked)), r, Starting(Unready(marked), newGame, now))
      else announced;
    var answer := Answering(started, id, ack, now);
    Handled(answer.server, answer.deliveries + [ToConnectionsOf(other.playerId, news)])
  }

  /** The session sends acknowledgement, rejection or error itself; the first two are remembered. */
  function Move(
    server: Server, id: CommandId, player: PlayerId, r: RoomId, target: GameId, position: RawPosition, now: int
  ): Handled
  {
    if r !in server.games then Failing(server, NoActiveGame)
    else
      var response := HandleMove(server.games[r], server.history, player, target, position, id, now).response;
      var moved := Drive(server, r, Moving(player, target, position, id, now));
      Handled(if response.Some? then Remembering(moved, id, Reply(response.value), now) else moved, [])
  }

  function Ask(server: Server, id: CommandId, player: PlayerId, r: RoomId, target: GameId, now: int): Handled
    requires r in server.rooms
  {
    if r !in server.games then Failing(server, NoActiveGame)
    else if server.games[r].rematch.Some? then Failing(server, RematchPending)
    else
      var asked := Drive(server, r, Requesting(server.rooms[r], player, target, now));
      var done := MayRequest(server.games[r], server.rooms[r], player, target);
      Handled(if done then Remembering(asked, id, Processed, now) else asked, [])
  }

  function Take(
    server: Server, id: CommandId, player: PlayerId, r: RoomId, target: GameId, newGame: GameId, now: int
  ): Handled
    requires r in server.rooms
  {
    if r !in server.games then Failing(server, NoActiveGame)
    else if server.games[r].rematch.None? then Failing(server, RematchNotRequested)
    else
      var room := server.rooms[r];
      var taken := Drive(server, r, Accepting(room, player, target, newGame, now));
      var agreed := Agreed(server.games[r], room, player, target);
      var cleared := if agreed then SetRoomTo(taken, r, Unready(room)) else taken;
      var done := MayAccept(server.games[r], room, player, target);
      Handled(if done then Remembering(cleared, id, Processed, now) else cleared, [])
  }

  function Refuse(server: Server, id: CommandId, player: PlayerId, r: RoomId, target: GameId, now: int): Handled
    requires r in server.rooms
  {
    if r !in server.games || server.games[r].rematch.None? then Failing(server, RematchNotRequested)
    else
      var refused := Drive(server, r, Declining(server.rooms[r], player, target));
      Handled(if SymbolOf(server.rooms[r], player).Some? then Remembering(refused, id, Processed, now) else refused, [])
  }

  /** RECONNECT: mark the player present, stop the window, answer, and send what was missed. */
  function Return(
    server: Server, token: SessionToken, id: CommandId, player: PlayerId, r: RoomId, lastReceived: int, now: int
  ): Handled
    requires r in server.rooms
  {
    var slot := SlotOf(server.rooms[r], player);
    if slot.None? then Failing(server, ReconnectInvalid)
    else
      var numbered := Returned(server, token, player, r, now);
      var replies := CatchUp(numbered, r, lastReceived, player, slot.value.symbol);
      Handled(Remembering(numbered, id, Reply(replies[0]), now),
              seq(|replies|, i requires 0 <= i < |replies| => ToAsker(Reply(replies[i]))))
  }

  function Returned(server: Server, token: SessionToken, player: PlayerId, r: RoomId, now: int): Server
    requires r in server.rooms
  {
    var room := WithConnected(server.rooms[r], player, true, now);
    var back := SetRoomTo(server, r, room).(logins := WithRoom(server.logins, token, Some(r)));
    Drive(Drive(Drive(back, r, Clearing(player)), r, Reconnecting(room, player)), r, Allocating)
  }

  function CatchUp(
    server: Server, r: RoomId, lastReceived: int, player: PlayerId, symbol: Symbol
  ): (replies: seq<Event>)
    ensures |replies| > 0
  {
    var snapshot := SnapshotOf(server, r);
    if r in server.games then ReconnectReplies(server.games[r], snapshot, lastReceived, player, symbol)
    else [ReconnectAck(1, player, symbol, snapshot)] +
         if lastReceived < 1 then [StateSyncSnapshot(1, snapshot)] else []
  }

  function Sync(server: Server, id: CommandId, player: PlayerId, r: RoomId, fromSeq: int, now: int): Handled
    requires r in server.rooms
  {
    if SlotOf(server.rooms[r], player).None? then Failing(server, NotInRoom)
    else
      Answering(server, id,
                if r in server.games then SyncReply(server.games[r], SnapshotOf(server, r), fromSeq, player)
                else StateSyncSnapshot(0, SnapshotOf(server, r)), now)
  }

  // ---------- what needs no login, or is no command ----------

  function Authenticate(
    server: Server, id: CommandId, guest: Option<SessionToken>, newToken: SessionToken, newPlayer: PlayerId, now: int
  ): Handled
  {
    var swept := server.(cache := CacheSeen(server.cache, id, now));
    if id in swept.cache then Handled(swept, [ToAsker(swept.cache[id].result)])
    else
      var logins :=
        if guest.Some? then LoginsSeen(swept.logins, guest.value, now)
        else swept.logins[newToken := Login(newPlayer, now, now, None)];
      var token := guest.GetOr(newToken);
      if token !in logins then Failing(swept.(logins := logins), AuthFailed)
      else Greet(swept.(logins := Touched(logins, token, now)), id, token, now)
  }

  /** The acknowledgement names the room the player sits in; a room that is gone is forgotten. */
  function Greet(server: Server, id: CommandId, token: SessionToken, now: int): Handled
    requires token in server.logins
  {
    var login := server.logins[token];
    if login.roomId.None? then Answering(server, id, AuthAck(token, login.playerId, None), now)
    else
      var r := login.roomId.value;
      var seen := server.(rooms := RoomsSeen(server.rooms, r, now));
      if r !in seen.rooms || SymbolOf(seen.rooms[r], login.playerId).None? then
        Answering(seen.(logins := WithRoom(seen.logins, token, None)), id, AuthAck(token, login.playerId, None), now)
      else
        var status := if r in seen.games && seen.games[r].game.Some? then seen.games[r].game.value.status else Waiting;
        var room := ExistingRoom(r, SymbolOf(seen.rooms[r], login.playerId).value, status);
        Answering(seen, id, AuthAck(token, login.playerId, Some(room)), now)
  }

  function Disconnect(server: Server, token: SessionToken, now: int): Server {
    var seen := server.(logins := LoginsSeen(server.logins, token, now));
    if token !in seen.logins || seen.logins[token].roomId.None? then seen
    else
      var r := seen.logins[token].roomId.value;
      var player := seen.logins[token].playerId;
      var found := seen.(rooms := RoomsSeen(seen.rooms, r, now));
      if r !in found.rooms then found
      else
        var room := WithConnected(found.rooms[r], player, false, now);
        var gone := SetRoomTo(found, r, room);
        if r in gone.games && IsActive(gone.games[r]) then Drive(gone, r, Opening(room, player, now)) else gone
  }

  /** A reconnect window runs out: the session ends its game, then the slot and the login's room are freed. */
  function Elapse(server: Server, r: RoomId, timer: nat, now: int): Server {
    if r !in server.games || !IsReconnectTimer(server.games[r], timer) then server
    else
      var player := server.games[r].timers[timer].playerId;
      var seen := server.(rooms := RoomsSeen(server.rooms, r, now));
      FreeSlot(Drive(seen, r, FiringReconnect(timer, now)), r, player, now)
  }

  function FreeSlot(server: Server, r: RoomId, player: PlayerId, now: int): Server {
    var rooms := RoomsSeen(server.rooms, r, now);
    server.(rooms := if r in rooms then rooms[r := Unseat(rooms[r], player, now)] else rooms,
            logins := RoomForgotten(server.logins, player))
  }

  /** The rematch timer holds on to its room record; once the store dropped it, `detached` stands for it. */
  function Lapse(server: Server, r: RoomId, timer: nat, detached: Room, now: int): Server {
    if r !in server.games || !IsRematchTimer(server.games[r], timer) then server
    else
      var room := if r in server.rooms then server.rooms[r] else detached;
      // The room is looked up only if there is something to send.
      var speaks := server.games[r].rematch.Some? && PlayerCount(room) > 0;
      var seen := if speaks then server.(rooms := RoomsSeen(server.rooms, r, now)) else server;
      Drive(seen, r, FiringRematch(room, timer))
  }

  function Serve(server: Server, input: Input, now: int): Handled {
    match input
    case RoomCreation(r) => Handled(SetRoomTo(server, r, NewRoom(now)), [])
    case Authentication(id, guest, newToken, newPlayer) => Authenticate(server, id, guest, newToken, newPlayer, now)
    case Request(token, id, command) => Gate(server, token, id, command, now)
    case Disconnection(token) => Handled(Disconnect(server, token, now), [])
    case WindowElapses(r, timer) => Handled(Elapse(server, r, timer, now), [])
    case ProposalElapses(r, timer, detached) => Handled(Lapse(server, r, timer, detached, now), [])
    case Maintenance =>
      Handled(server.(logins := LoginsPurged(server.logins, now), cache := CachePurged(server.cache, now),
                      rooms := RoomsPurged(server.rooms, now)), [])
  }

  // ---------- runs ----------

  datatype Timed = Timed(input: Input, now: int)

  function ServeAll(server: Server, inputs: seq<Timed>): Server {
    if inputs == [] then server
    else
      var last := inputs[|inputs| - 1];
      Serve(ServeAll(server, inputs[..|inputs| - 1]), last.input, last.now).server
  }

  /** A server that has just started on a history store; `used` are the ids that occur in the store. */
  function NewServer(history: Store, used: set<GameId>): Server {
    Server(map[], map[], map[], map[], history, used, [])
  }

  /** Generated ids occur nowhere in the server. */
  ghost predicate FreshInput(server: Server, input: Input) {
    match input
    case RoomCreation(r) => r !in server.rooms && r !in server.games
    case Authentication(_, None, newToken, newPlayer) =>
      newToken !in server.logins && forall t :: !HasToken(server.logins, t, newPlayer)
    case Request(_, _, PlayerReady(_, newGame)) => newGame !in server.used
    case Request(_, _, TakeRematch(_, _, newGame)) => newGame !in server.used
    case _ => true
  }

  ghost predicate FreshInputs(server: Server, inputs: seq<Timed>) {
    forall i | 0 <= i < |inputs| :: FreshInput(ServeAll(server, inputs[..i]), inputs[i].input)
  }

  lemma FreshInputsPrefix(server: Server, inputs: seq<Timed>)
    requires inputs != [] && FreshInputs(server, inputs)
    ensures var n := |inputs| - 1;
            FreshInputs(server, inputs[..n]) && FreshInput(ServeAll(server, inputs[..n]), inputs[n].input)
  {
    var n := |inputs| - 1;
    forall i | 0 <= i < n ensures FreshInput(ServeAll(server, inputs[..n][..i]), inputs[..n][i].input) {
      assert inputs[..n][..i] == inputs[..i];
    }
  }

  lemma {:induction false} ServeAllAppend(server: Server, a: seq<Timed>, b: seq<Timed>)
    ensures ServeAll(server, a + b) == ServeAll(ServeAll(server, a), b)
    decreases |b|
  {
    hide Serve;
    if b == [] {
      assert a + b == a;
    } else {
      assert (a + b)[..|a| + |b| - 1] == a + b[..|b| - 1];
      ServeAllAppend(server, a, b[..|b| - 1]);
    }
  }
}
