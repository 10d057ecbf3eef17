/** Reachable servers, who sits where, and which commands get as far as their handler. */
module ReachableServers {
  import opened Protocol
  import opened Rooms
  import opened History
  import opened SessionHistory
  import opened SessionStores
  import opened Handlers
  import opened ServerLaws
  import opened Seats

  /** A server that has just started, on a sound history store. */
  ghost predicate JustStarted(server: Server) {
    exists history, used :: (forall room :: StoreSound(GamesOf(history, room), used))
                            && server == NewServer(history, used)
  }

  /** One thing happens, with ids that are fresh. */
  ghost predicate Next(before: Server, after: Server) {
    exists x: Timed :: FreshInput(before, x.input) && after == Serve(before, x.input, x.now).server
  }

  /** The servers one after the other, from a start on. */
  ghost predicate IsTrace(trace: seq<Server>) {
    && trace != [] && JustStarted(trace[0])
    && forall i, j | 0 <= i < j < |trace| && j == i + 1 :: Next(trace[i], trace[j])
  }

  ghost predicate Reachable(server: Server) {
    exists trace :: IsTrace(trace) && server == trace[|trace| - 1]
  }

  lemma {:induction false} TraceIsSound(trace: seq<Server>)
    requires IsTrace(trace)
    ensures var server := trace[|trace| - 1];
            LawfulServer(server) && SeatedServer(server) && ReadySound(server.rooms)
  {
    hide StoreSound;
    hide Serve;
    hide FreshInput;
    hide Lawful;
    hide Seated;
    hide ReadySound;
    var n := |trace| - 1;
    if n == 0 {
      var history, used :|
        (forall room :: StoreSound(GamesOf(history, room), used)) && trace[0] == NewServer(history, used);
      RunIsLawful(history, used, []);
      SeatsMatchRunningGame(history, used, []);
      RunKeepsReady(history, used, []);
    } else {
      TraceIsSound(trace[..n]);
      assert Next(trace[n - 1], trace[n]);
      var x: Timed :| FreshInput(trace[n - 1], x.input) && trace[n] == Serve(trace[n - 1], x.input, x.now).server;
      ServeKeepsLawful(trace[n - 1], x.input, x.now);
      ServeKeepsSeats(trace[n - 1], x.input, x.now);
      ServeKeepsReady(trace[n - 1], x.input, x.now);
    }
  }

  lemma ReachableIsSound(server: Server)
    requires Reachable(server)
    ensures LawfulServer(server) && SeatedServer(server) && ReadySound(server.rooms)
  {
    hide LawfulServer;
    hide SeatedServer;
    hide ReadySound;
    var trace :| IsTrace(trace) && server == trace[|trace| - 1];
    TraceIsSound(trace);
  }

  /** What a run with fresh ids leads to is reachable. */
  lemma {:induction false} RunIsReachable(history: Store, used: set<GameId>, inputs: seq<Timed>)
    requires forall room :: StoreSound(GamesOf(history, room), used)
    requires FreshInputs(NewServer(history, used), inputs)
    ensures Reachable(ServeAll(NewServer(history, used), inputs))
  {
    hide StoreSound;
    hide FreshInputs;
    hide FreshInput;
    hide Serve;
    var start := NewServer(history, used);
    if inputs == [] {
      assert IsTrace([start]);
    } else {
      var n := |inputs| - 1;
      FreshInputsPrefix(start, inputs);
      RunIsReachable(history, used, inputs[..n]);
      var before := ServeAll(start, inputs[..n]);
      var trace :| IsTrace(trace) && before == trace[|trace| - 1];
      var after := Serve(before, inputs[n].input, inputs[n].now).server;
      assert Next(before, after);
      assert IsTrace(trace + [after]);
    }
  }

  /** The lookups of the room store in these terms. */
  lemma LookupsAre(room: Room, symbol: Symbol, p: PlayerId)
    requires Sits(room, symbol, p) && SlotsSound(room)
    ensures SymbolOf(room, p) == Some(symbol)
    ensures SlotOf(room, p) == SlotAt(room, symbol) && SlotOf(room, p).value.symbol == symbol
    ensures OpponentSlot(room, p) == SlotAt(room, Other(symbol))
  {
  }

  lemma NoLookups(room: Room, p: PlayerId)
    requires !IsSeated(room, p)
    ensures SymbolOf(room, p).None? && SlotOf(room, p).None? && OpponentSlot(room, p).None?
  {
  }

  /** The command of this login is new, and its room is there. */
  predicate Admitted(server: Server, token: SessionToken, id: CommandId, r: RoomId, now: int) {
    && token in server.logins && now - server.logins[token].createdAt <= 604_800_000
    && (id in server.cache ==> now - server.cache[id].cachedAt > 300_000)
    && r in server.rooms && now - server.rooms[r].lastActivityAt <= 86_400_000
  }

  lemma AdmittedIsPerformed(server: Server, token: SessionToken, id: CommandId, command: Command, now: int)
    requires Admitted(server, token, id, command.roomId, now)
    requires command.JoinRoom? ==> !ElsewhereThan(server.logins[token], command.roomId)
    ensures Serve(server, Request(token, id, command), now) ==
            Perform(server.(cache := CacheSeen(server.cache, id, now)), token, id, command, now)
    ensures id !in CacheSeen(server.cache, id, now)
  {
    hide Perform;
    var ready := server.(cache := CacheSeen(server.cache, id, now));
    assert server.(logins := LoginsSeen(server.logins, token, now), cache := CacheSeen(server.cache, id, now),
                   rooms := RoomsSeen(server.rooms, command.roomId, now)) == ready;
  }
}
