/** Completed games per room, newest first; the in-memory part of the repository. */
module History {
  import opened Protocol

  type Store = map<RoomId, seq<CompletedGame>>

  predicate Recorded(games: seq<CompletedGame>, gameId: GameId) {
    exists i | 0 <= i < |games| :: games[i].gameId == gameId
  }

  function GamesOf(store: Store, roomId: RoomId): seq<CompletedGame> {
    if roomId in store then store[roomId] else []
  }

  function Saved(store: Store, roomId: RoomId, game: CompletedGame): Store {
    if Recorded(GamesOf(store, roomId), game.gameId) then store
    else store[roomId := [game] + GamesOf(store, roomId)]
  }

  class HistoryRepository {
    var history: Store

    constructor (history: Store)
      ensures this.history == history
    {
      this.history := history;
    }

    method LoadCompletedGames(roomId: RoomId) returns (games: seq<CompletedGame>)
      ensures games == GamesOf(history, roomId)
    {
      games := if roomId in history then history[roomId] else [];
    }

    method SaveCompletedGame(roomId: RoomId, game: CompletedGame)
      modifies this`history
      ensures history == Saved(old(history), roomId, game)
      ensures Recorded(GamesOf(history, roomId), game.gameId)
    {
      var games := if roomId in history then history[roomId] else [];
      for i := 0 to |games|
        invariant forall j | 0 <= j < i :: games[j].gameId != game.gameId
      {
        if games[i].gameId == game.gameId {
          return;
        }
      }
      history := history[roomId := [game] + games];
      assert GamesOf(history, roomId)[0] == game;
    }
  }
}
