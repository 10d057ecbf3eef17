/** What letting a session do something comes to, operation by operation. */
module Driving {
  import opened Protocol
  import opened Rooms
  import opened History
  import opened SessionModel
  import opened SessionRuns
  import opened Transport
  import opened Handlers

  /** The server with another session in a room, as `Drive` leaves it. */
  function WithWorld(server: Server, r: RoomId, session: Session, history: Store): Server
    requires r in server.games
  {
    server.(games := server.games[r := session], history := history, wire := Posted(server, r, session))
  }

  lemma DriveAllocating(server: Server, r: RoomId)
    requires r in server.games
    ensures Drive(server, r, Allocating) == WithWorld(server, r, Allocate(server.games[r]), server.history)
  {
  }

  lemma DriveForfeiting(server: Server, r: RoomId, p: PlayerId, now: int)
    requires r in server.games
    ensures var saving := HandleForfeit(server.games[r], server.history, p, now);
            Drive(server, r, Forfeiting(p, now)) == WithWorld(server, r, saving.session, saving.store)
  {
    hide HandleForfeit;
  }

  lemma DriveStarting(server: Server, r: RoomId, room: Room, gameId: GameId, now: int)
    requires r in server.games
    ensures Drive(server, r, Starting(room, gameId, now)) ==
            WithWorld(server, r, Begin(server.games[r], room, NextFirstTurn(server.games[r]), gameId, now),
                      server.history).(used := server.used + {gameId})
  {
    hide Begin;
  }

  lemma DriveMoving(
    server: Server, r: RoomId, p: PlayerId, target: GameId, position: RawPosition, id: CommandId, now: int
  )
    requires r in server.games
    ensures var moved := HandleMove(server.games[r], server.history, p, target, position, id, now);
            Drive(server, r, Moving(p, target, position, id, now)) == WithWorld(server, r, moved.session, moved.store)
  {
    hide HandleMove;
  }

  lemma DriveRematch(server: Server, r: RoomId, room: Room, p: PlayerId, target: GameId, gameId: GameId, now: int)
    requires r in server.games
    ensures var s := server.games[r];
            && Drive(server, r, Requesting(room, p, target, now)) ==
               WithWorld(server, r, RequestRematch(s, room, p, target, now), server.history)
            && Drive(server, r, Accepting(room, p, target, gameId, now)) ==
               WithWorld(server, r, AcceptRematch(s, room, p, target, gameId, now), server.history).(
                 used := server.used + {gameId})
            && Drive(server, r, Declining(room, p, target)) ==
               WithWorld(server, r, DeclineRematch(s, room, p, target), server.history)
  {
    hide RequestRematch;
    hide AcceptRematch;
    hide DeclineRematch;
  }

  lemma DriveWindows(server: Server, r: RoomId, room: Room, p: PlayerId, now: int)
    requires r in server.games
    ensures var s := server.games[r];
            && Drive(server, r, Clearing(p)) == WithWorld(server, r, ClearWindow(s, p), server.history)
            && Drive(server, r, Opening(room, p, now)) ==
               WithWorld(server, r, OpenWindow(s, room, p, now), server.history)
            && Drive(server, r, Op.Reconnecting(room, p)) ==
               WithWorld(server, r, NotifyReconnected(s, room, p), server.history)
  {
    hide ClearWindow;
    hide OpenWindow;
    hide NotifyReconnected;
  }

  lemma DriveFiring(server: Server, r: RoomId, room: Room, id: nat, now: int)
    requires r in server.games
    ensures var s := server.games[r];
            && (IsReconnectTimer(s, id) ==>
                  var saving := FireReconnect(s, server.history, id, now);
                  Drive(server, r, FiringReconnect(id, now)) == WithWorld(server, r, saving.session, saving.store))
            && (IsRematchTimer(s, id) ==>
                  Drive(server, r, FiringRematch(room, id)) ==
                  WithWorld(server, r, FireRematch(s, room, id), server.history))
            && (!IsRematchTimer(s, id) ==> Drive(server, r, FiringRematch(room, id)) == server)
  {
    hide FireReconnect;
    hide FireRematch;
  }

  lemma NumberingChangesNothing(server: Server, r: RoomId)
    requires r in server.games
    ensures Drive(server, r, Allocating) ==
            server.(games := server.games[r := Allocate(server.games[r])])
  {
    assert NewlySent(server.games[r], Allocate(server.games[r])) == [];
    assert server.wire + [] == server.wire;
  }
}
