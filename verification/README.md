# Online tic-tac-toe: server, client and their agreement, verified

The repository is a two-player game with an authoritative server and a client that shows moves
before they are confirmed.  This project models it in Dafny, layer by layer, and proves what the
layers promise each other.  `dafny verify dfyconfig.toml` checks everything.

| layer | files |
|---|---|
| values on the wire | `Protocol` |
| game engine, its laws, its own invariant checker | `Engine`, `EngineLaws`, `InvariantChecker` |
| one game session as functions on its state, and all of its runs | `SessionModel`, `SessionRuns` |
| laws of every run of a session | `ReplayBuffer`, `Convergence`, `Recovery`, `SessionLaws`, `SessionHistory`, `LiveDelivery` |
| the session object | `GameSession` |
| stores | `Rooms`, `SessionStore`, `History` |
| command handlers as functions on all stores | `Handlers`, `Snapshots`, `Transport`, `Driving` |
| what a session says, message by message | `Messages` |
| laws of every reachable server | `ServerLaws`, `Seats`, `Reachable`, `Commands`, `Moves`, `Departures`, `Dedup`, `Following` |
| concrete runs that show what the code does not promise | `Witnesses` |
| the handlers on the store objects | `CommandHandler` |
| client | `GameStore`, `WsClient`, `OptimisticEngine` |
| rate limiter | `RateLimiter` |

What changes in place in the program is a class here (`GameSession`, `ServerContext`, `SessionStore`,
`RoomStore`, `HistoryRepository`, `WsClient`, `FixedWindowLimiter`).  Each method is proved equal to
a function on the object's abstract value; the laws are proved about those functions, over whole
runs.  Everything a handler does to a session is one of the thirteen operations of the session
model, so whatever holds of every run of one session is lifted to every session of every reachable
server without proving it again.

Three records that the program does not keep make the statements possible: `log`, all buffered events
of a session since its numbering was last reset, `sent`, everything it ever handed to the transport, and
`wire`, what the send function then sent to whom, by the slots of the room at that moment.  Pending
timers are part of a session's state and firing one is an operation, so a timer may fire at any time.
Generated ids are inputs that occur nowhere yet, the clock is an input of every operation, and one
reading of it serves a whole operation.

The main results are `EngineLaws.OutcomeExactness`, `EngineLaws.ReplayRoundTrip`,
`InvariantChecker.RunPassesIff`, `ReplayBuffer.RunReplayExact`, `Convergence.ClientConverges`,
`Recovery.RecoveryPathsAgree`, `SessionLaws.TimerDiscipline`, `Seats.SeatsMatchRunningGame`,
`SessionLaws.RematchNeedsBoth`, `Departures.LeavingForfeits`, `Commands.ReadyStartsIff`, `Commands.DisconnectOpensIff`,
`Commands.RefusalTable`, `Dedup.RetryGetsSameAnswer`, `Dedup.PlayedAtMostOnce`, `Moves.MoveIsHeard`,
`Moves.CanMoveIff`, `Following.PresentClientFollows`, `Following.GapIsClosed`, `Following.ReconnectCatchesUp`,
`Following.OptimisticMoveIsConfirmed` and `RateLimiter.SlidingBound`.

The laws in `Messages`, `Commands` and `Moves` spell out what they promise: constants are written as numbers,
and conditions are said of seats, readiness, games and timers, not through the functions that the model
computes them with.

## Where the code and its words disagree

The model follows the code.

- A replay is refused, and a snapshot sent, not only after the buffer was trimmed
  (`src/server/app/gameSession.ts:490-502`): it happens exactly when the player may see a later event but
  not one with the asked number, which may be an event of the other player
  (`ReplayBuffer.RefusedWithoutTrimming`, and `Witnesses.OpponentIsRefused` for a run).
- An abandoned or forfeited game is said to be won by the other player
  (`src/server/game/engine.ts:468-491`).  Leaving a room does not close the leaver's reconnect window, so the
  window can end a later game of other players, without a winner (`Witnesses.LateTimerLeavesNoWinner`).
  The exact condition is that the player sits in the room (`Departures.WindowAbandons`), or, for the
  engine alone, in the game (`InvariantChecker.RunPassesIff`).
- A live GAME_STARTED sets the transport's counter to its number, and its dispatch sets it back to 0
  (`src/client/lib/wsClient.ts:245-246`, `src/client/hooks/useWebSocket.ts:169`), so the next event looks like a
  gap (`WsClient.StartIsCountedTwice`): until the next STATE_SYNC every event in order does, and no other
  event in order ever (`WsClient.InOrderGapIff`).  What holds is that the counter never overstates
  (`WsClient.NeverOverstated`).

## Model

| member | source | states |
|---|---|---|
| Engine.DetectWin | src/server/game/engine.ts:199-214 | the search reports the first complete line of the table in table order, and nothing exactly when no line of the symbol is complete |
| Engine.BoardFromHistory | src/server/game/engine.ts:236-247 | the loop over the history yields the board that marking the moves one after the other on an empty board yields |
| Engine.ReplayMoves | src/server/game/engine.ts:547-573 | the loop stops at the first rejected command with its index and reason and the state before it; otherwise it ends in the last state with all reports in order |
| Engine.StopsForGood | src/server/game/engine.ts:558-567 | a replay that stopped is not resumed: more commands behind the failing one change neither the state, the reports, the index nor the reason |
| EngineLaws.RunIsWellPlayed | src/server/game/engine.ts:256-512 | every run of moves (accepted or not), forfeits and abandons from a start keeps the whole engine invariant: the board is what the history draws, turns and numbers alternate and count, marks of both symbols match the history, status, result, lines and timestamps agree |
| EngineLaws.WinLineExact | src/server/game/engine.ts:199-214 | a winning line is reported exactly when one exists, and it is complete and no earlier line of the table is |
| EngineLaws.TableIsComplete | src/server/game/engine.ts:163-175 | the table lists exactly the rows, columns and diagonals of the board |
| EngineLaws.HasLineIff | src/server/game/engine.ts:199-214 | a symbol has a line exactly if it fills one of the eight triples of the flat board |
| EngineLaws.MoveShape | src/server/game/engine.ts:302-330 | a move is accepted exactly when the game is active, the sender is the player to move, the cell is on the board and it is empty; a refused move leaves the state alone |
| EngineLaws.PlaceShape | src/server/game/engine.ts:332-466 | what an accepted move writes in all three branches (win, draw, game goes on): one mark, one record with the next number, turn, timestamps, and everything it must not touch |
| EngineLaws.MoveEvents | src/server/game/engine.ts:343-465 | an accepted move reports itself first, and exactly if it ended the game a second report follows with the final board and history |
| EngineLaws.OutcomeExactness | src/server/game/engine.ts:343-439 | in every reachable state: active means no line and room left; a win means exactly the winner has a line, the first of the table, after 5 to 9 moves; a draw means 9 moves and no line; never do both symbols have lines |
| EngineLaws.LineNeedsThreeMarks | src/server/game/engine.ts:199-214 | a complete line takes three marks of its symbol, which is what bounds the length of a won game from below |
| EngineLaws.ReplayRoundTrip | src/server/game/engine.ts:547-573 | turning the history of any reachable state back into commands and replaying them completes and gives that state, or the state before the game was given up |
| EngineLaws.ReplayAppend | src/server/game/engine.ts:547-573 | replaying two lists in a row is replaying the second from where the first ended, with shifted failure index and joined reports |
| EngineLaws.ReplayReports | src/server/game/engine.ts:547-573 | one MOVE_MADE per applied move, and a GAME_ENDED exactly if the game is over, once, as the last report, with the final state |
| EngineLaws.SameMove | src/server/game/engine.ts:302-330 | of a command only the symbol of its sender, the cell and the time matter |
| EngineLaws.RematchSwapsFirstTurn | src/server/game/engine.ts:519-535 | a rematch is a fresh game of the same players and room, begun by the other symbol; two rematches give the first turn back |
| InvariantChecker.VerifyInvariants | src/server/game/engine.ts:600-731 | the checker names an invariant exactly when the state breaks it; its report is empty if and only if the declarative state predicate holds |
| InvariantChecker.CheckHistory | src/server/game/engine.ts:623-644 | the pass over the history reports wrong numbers and wrong alternation, each exactly when some move is wrong |
| InvariantChecker.CheckResult | src/server/game/engine.ts:669-712 | the result checks, including the loop over the winning line, report exactly the broken ones |
| InvariantChecker.CheckBoard | src/server/game/engine.ts:658-667 | the board is reported exactly when some cell differs from the replayed history |
| InvariantChecker.EmptyReportMeansSound | src/server/game/engine.ts:600-731 | the fifteen checks together are the declarative predicate: the history explains the board, no cell twice, numbers, turns, result, timestamps |
| InvariantChecker.DistinctCellsCount | src/server/game/engine.ts:614-621 | the number of marks equals the number of moves exactly when no move repeats a cell; this is what the count check really checks |
| InvariantChecker.WellPlayedBreaksOnlyOne | src/server/game/engine.ts:669-712 | the only check a reachable state can fail is the one that a given-up game has a winner |
| InvariantChecker.UnawardedIffStranger | src/server/game/engine.ts:476-499 | a given-up game lacks a winner exactly when somebody not seated in it gave it up |
| InvariantChecker.RunPassesIff | src/server/game/engine.ts:600-731 | a run ends in a state with an empty report if and only if no running game in it was given up by a player not seated in it |
| SessionModel.AnnounceTwice | src/server/app/gameSession.ts:517-533 | pushing and trimming in several goes leaves the same buffer as pushing all and trimming once |
| SessionRuns.StepAnnounces | src/server/app/gameSession.ts:114-533 | for each of the thirteen ways a session moves: numbers, buffer, log and transport change by exactly the listed events, numbered consecutively, after a reset exactly if a game starts |
| SessionRuns.StepGame | src/server/app/gameSession.ts:114-434 | for each of them: the game changes as the engine says and otherwise not at all |
| SessionRuns.StepKeepsGameSound | src/server/app/gameSession.ts:114-434 | every game a session holds is one the engine can reach |
| ReplayBuffer.RunReplayExact | src/server/app/gameSession.ts:474-533 | in every run the buffer is the last min(n, 500) events of the unbounded log with strictly increasing numbers; a replay is non-empty exactly when the event with the asked number is buffered and visible to the player, and is then every event of the log from that number on that the player may see, in order |
| ReplayBuffer.ReplayExact | src/server/app/gameSession.ts:474-505 | the same for one answer, with the exact condition of the fall-back to a snapshot |
| ReplayBuffer.StepKeepsBuffered | src/server/app/gameSession.ts:99-108 | trimming, resetting and skipping numbers keep the buffer a suffix of the log with increasing numbers |
| SessionLaws.LogIsWhatWasSent | src/server/app/gameSession.ts:99-108 | in every run, what a replay is cut from is everything the session sent since the last start, in order, but errors and declined rematches |
| ReplayBuffer.RefusedWithoutTrimming | src/server/app/gameSession.ts:486-502 | with a buffer that never lost anything, the fall-back to a snapshot happens exactly if the player may see an event with a later number, but none with the asked number: the comment there promises it only after trimming |
| Witnesses.OpponentIsRefused | src/server/app/gameSession.ts:486-502 | such a refusal in a reachable session: a game starts, one player moves, the other asks from the number of the acknowledgement on |
| Convergence.DispatchShows | src/client/hooks/useWebSocket.ts:94-318 | one event, replayed ones included, changes the authoritative part of the client as its view step says |
| Convergence.NewsCarry | src/server/app/gameSession.ts:114-447 | the events of one operation, filtered for either player, take a view from the game before to the game after |
| Convergence.ClientConverges | src/server/app/gameSession.ts:183-235 | in every run of a session, whatever state a client was in, after handling the events of the log addressed to it (acknowledgements for its own moves, broadcasts for the others) it shows the server's board, turn, status, game id and result |
| Convergence.RunConverges | src/server/app/gameSession.ts:114-447 | the invariant behind it, for every starting view and every player at once |
| Recovery.StepOverwrites | src/client/store/gameStore.ts:193-427 | each event has a fixed set of fields of the view that it sets to values of its own, and it leaves all others as they are |
| Recovery.OvertakingIsHarmless | src/client/hooks/useWebSocket.ts:182-206 | having applied some events of a list already, in any order and any number of times, changes nothing about what the whole list leads to |
| Recovery.ReplayOnTop | src/client/hooks/useWebSocket.ts:182-206 | replaying any tail of the events that led to a view on top of that view gives the view back |
| Recovery.SyncReplyRecovers | src/server/app/commandHandler.ts:553-570 | the answer to a SYNC_REQUEST brings the client to the server's view and both its sequence marks to the server's number: any client if it is a snapshot; if it is a replay, one that applied its events below the asked number, whatever later events overtook it |
| Recovery.ReconnectRecovers | src/server/app/commandHandler.ts:495-529 | acknowledgement plus replay or snapshot bring every client to the server's view, whatever it showed and whatever number it claims |
| Recovery.RecoveryPathsAgree | src/server/app/commandHandler.ts:502-529 | in every reachable session, also for a client that already applied later events: replay, snapshot, and reconnect followed by replay end in the same view, the server's |
| SessionLaws.TimerDiscipline | src/server/app/gameSession.ts:401-447 | in every run the pending reconnect timers are exactly the entries of the timer table, one per player; a rematch timer is pending exactly when there is a proposal; a window that was cleared or re-opened is not pending in any continuation, and firing its timer does nothing; a destroyed session has no timer left |
| SessionLaws.GoneForGood | src/server/app/gameSession.ts:312-447 | a timer that is not pending any more stays so in every continuation of a run |
| SessionLaws.StepKeepsTimers | src/server/app/gameSession.ts:312-447 | each operation keeps the table and the pending timers in step |
| SessionLaws.DestroyTimers | src/server/app/gameSession.ts:565-572 | tearing down leaves no pending timer and no proposal |
| SessionLaws.RematchNeedsBoth | src/server/app/gameSession.ts:342-366 | in every run, a seated player's acceptance starts the next game if and only if there is a proposal, the other symbol made it, and both seats are taken; then no proposal is left |
| SessionLaws.AcceptingIs | src/server/app/gameSession.ts:342-366 | acceptance by the proposer changes nothing at all; by the other player it drops proposal and timer and starts the next game with the other first turn |
| SessionLaws.RequestingIs | src/server/app/gameSession.ts:312-340 | a request makes a proposal of 60 seconds, its timer and its event exactly if the named game is over and nothing is proposed; otherwise it changes nothing |
| SessionLaws.DecliningIs | src/server/app/gameSession.ts:368-383 | a decline by either player drops proposal and timer, takes a number, and is sent but not buffered |
| SessionLaws.ExpiringIs | src/server/app/gameSession.ts:385-395 | a proposal that runs out is gone, and announced exactly if somebody sits in the room |
| SessionLaws.RunKeepsProposal | src/server/app/gameSession.ts:312-395 | in every run an open proposal was accepted by the one who made it and by nobody else |
| SessionLaws.FirstTurnsAlternate | src/server/app/gameSession.ts:356-363 | over a session's whole life, in any mix of games started from readiness and from rematches, first turns are X, O, X, O and so on |
| SessionLaws.NewsStart | src/server/app/commandHandler.ts:350-357 | only a start announces a game, with the first turn opposite to the game before and X without one |
| SessionHistory.BoardOnlyByMoves | src/server/app/gameSession.ts:159-260 | between two starts a board changes only by an accepted move, on a cell that was empty |
| SessionHistory.AtMostOnce | src/server/app/gameSession.ts:172-206 | over a session's life no two acknowledged moves name the same cell of the same game; a move acknowledged once, sent again by anybody at any time, changes nothing and is not acknowledged |
| SessionHistory.HistoryAgreement | src/server/app/gameSession.ts:286-300 | a session's list is the store's list for its room, newest first, no game twice, each board the replay of its moves and each count their number; the operation that ends a game adds exactly that game's record in front |
| SessionHistory.StepKeepsHistory | src/server/app/gameSession.ts:262-302 | each operation keeps list and store equal and adds a record exactly when it ends the running game |
| GameSessions.GameSession.constructor | src/server/app/gameSession.ts:90-97 | a new session has no game, no events and the room's stored records |
| GameSessions.GameSession.Emit | src/server/app/gameSession.ts:517-533 | an event that is no error is pushed and the buffer cut to 500; errors are only sent |
| GameSessions.GameSession.Start | src/server/app/gameSession.ts:114-153 | numbering and buffer restart and the game begins with GAME_STARTED as number 1, if both seats are taken; otherwise nothing |
| GameSessions.GameSession.HandleMoveCommand | src/server/app/gameSession.ts:159-236 | state, repository, emitted events and response are those of the session model, in all error, rejection, continuing and ending cases |
| GameSessions.GameSession.EmitGameFinished | src/server/app/gameSession.ts:262-310 | one GAME_FINISHED, and one record in list and repository unless the game is known |
| GameSessions.GameSession.Forfeit | src/server/app/gameSession.ts:238-248 | a running game ends as the model's forfeit; otherwise nothing |
| GameSessions.GameSession.Abandon | src/server/app/gameSession.ts:250-260 | a running game ends as the model's abandon; otherwise nothing |
| GameSessions.GameSession.HandleRematchRequest | src/server/app/gameSession.ts:312-340 | proposal, its timer and its event exist exactly if the model's conditions hold, and the method says so |
| GameSessions.GameSession.HandleRematchAccept | src/server/app/gameSession.ts:342-366 | the second accepting symbol drops proposal and timer and starts the next game; the first only counts |
| GameSessions.GameSession.HandleRematchDecline | src/server/app/gameSession.ts:368-383 | proposal and timer go; the decline takes a number and is sent but never buffered |
| GameSessions.GameSession.ExpireRematch | src/server/app/gameSession.ts:385-395 | the proposal goes and is announced if anybody sits in the room |
| GameSessions.GameSession.StartReconnectWindow | src/server/app/gameSession.ts:401-438 | an older window of the player is cleared, a connected opponent is told, one new timer is pending |
| GameSessions.GameSession.ReconnectWindowExpired | src/server/app/gameSession.ts:415-435 | a running game is abandoned, the departure announced, the window forgotten |
| GameSessions.GameSession.ClearReconnectWindow | src/server/app/gameSession.ts:441-447 | the player's pending window, if any, is gone |
| GameSessions.GameSession.GetReplayEvents | src/server/app/gameSession.ts:474-505 | filter, fall-back and result are those of the replay the laws speak about |
| GameSessions.GameSession.Teardown | src/server/app/gameSession.ts:565-572 | table and proposal are gone, and with timers in step, as every run keeps them, no timer is pending |
| History.HistoryRepository.SaveCompletedGame | src/server/app/historyRepository.ts:39-46 | a game whose id is stored already changes nothing; a new one goes in front of its room's list; it is stored afterwards |
| SessionStores.SessionStore.GetSession | src/server/app/sessionStore.ts:59-69 | an expired login is evicted and not returned |
| SessionStores.SessionStore.GetCachedResult | src/server/app/sessionStore.ts:96-106 | a remembered answer is returned until COMMAND_DEDUP_TTL_MS have passed, then evicted |
| SessionStores.SessionStore.RecordCommand | src/server/app/sessionStore.ts:87-93 | the answer is remembered with the time |
| SessionStores.SessionStore.PurgeExpired | src/server/app/sessionStore.ts:109-123 | the two deleting loops drop exactly the expired entries |
| SessionStores.SessionStore.GetTokenByPlayerId | src/server/app/sessionStore.ts:129-134 | a token of that player is found exactly if there is one |
| Rooms.RoomStore.AddPlayer | src/server/app/roomStore.ts:98-116 | the first free slot, X before O, is taken; a full room stays as it is |
| Rooms.RoomStore.RemovePlayer | src/server/app/roomStore.ts:118-127 | the player's slot and readiness go, the other player's stay |
| Rooms.RoomStore.GetRoom | src/server/app/roomStore.ts:78-90 | an expired room is dropped and not returned |
| Rooms.RoomStore.SetConnected | src/server/app/roomStore.ts:129-136 | only the player's own slot changes |
| Rooms.RoomStore.PurgeExpired | src/server/app/roomStore.ts:150-158 | the deleting loop drops exactly the expired rooms |
| ServerLaws.RunIsLawful | src/server/app/commandHandler.ts:118-596 | in every reachable server, whatever the other rooms do, every session obeys every law proved of single sessions, and no game id of one room occurs in another |
| ServerLaws.EveryRoomIsLawful | src/server/app/commandHandler.ts:118-596 | spelled out: records equal the repository's and are exact, first turns alternate, timers match, the game is one the engine reaches, and a replay is all of a player's events from a number on |
| ServerLaws.DriveKeepsApart | src/server/app/gameSession.ts:122-137 | fresh ids keep the games and acknowledged moves of different rooms apart |
| ServerLaws.DriveKeepsLawful | src/server/app/gameSession.ts:114-447 | one session at work disturbs no other session and no other room's records |
| Seats.SeatsMatchRunningGame | src/server/app/commandHandler.ts:264-295 | in every reachable server, if a room's game is active then both slots are taken by exactly its two different players: across join, leave, ready, disconnect, timers, rematch, expiry |
| Seats.DriveKeepsSeats | src/server/app/commandHandler.ts:350-357 | games are started with the players on the slots and never change players |
| Seats.LeaveKeepsSeats | src/server/app/commandHandler.ts:264-295 | a slot is emptied only after the game in the room has ended |
| Seats.ElapseKeepsSeats | src/server/app/commandHandler.ts:664-677 | the same for a slot freed by a timer |
| Seats.RunKeepsReady | src/server/app/roomStore.ts:118-148 | in every reachable server only seated players are ready, and never both: two ready players have started a game |
| ReachableServers.TraceIsSound | src/server/app/commandHandler.ts:118-596 | whatever happens one after the other, with fresh ids, leads from a start to servers whose sessions obey all session laws, whose running games are those of their seated players, and where at most one player is ready |
| ReachableServers.RunIsReachable | src/server/app/commandHandler.ts:118-596 | what a run of inputs leads to is reachable in that sense |
| Commands.ReadyStartsIff | src/server/app/commandHandler.ts:301-361 | in every reachable server, a player who gets ready starts the next game if and only if the other one is ready, and readiness then starts over; otherwise exactly this player becomes ready, and the session keeps its game |
| Commands.ReadyAgain | src/server/app/commandHandler.ts:329-334 | getting ready twice is acknowledged with the readiness as it is and changes nothing |
| Commands.JoinSeats | src/server/app/commandHandler.ts:201-241 | a newcomer takes the first free seat, X before O, is told the room as it then is, and the other player is told; nothing else changes |
| Commands.JoinAgain | src/server/app/commandHandler.ts:191-199 | a seated player who joins again keeps the seat and is told it |
| Commands.LeaveFreesSeat | src/server/app/commandHandler.ts:243-299 | leaving without a running game: seat, readiness and login go, those of the other player stay; the reason told is FORFEIT exactly if the last game ended by one |
| Commands.LeaveForfeitsFirst | src/server/app/commandHandler.ts:264-295 | leaving a running game: the whole new server, with the forfeit, its record and message, and both answers with their numbers |
| Commands.DisconnectOpensIff | src/server/app/commandHandler.ts:579-596 | a closed connection leaves the seat taken and marked absent; exactly during a game one new window of that player is pending and a connected opponent told; otherwise sessions, timers and wire stay as they were |
| Commands.ReturnMarks | src/server/app/commandHandler.ts:475-529 | coming back: present, in the room again, no window of the player left, the opponent told if connected, game and proposal untouched |
| Commands.ReturnToQuietRoom | src/server/app/commandHandler.ts:475-529 | the same where no session exists yet, with number 1 and a snapshot |
| Commands.WindowFreesSeat | src/server/app/gameSession.ts:415-435 | a window that ran out, in or outside a game: what becomes of the game, the records, the messages, the seat, readiness, the login and the timer |
| Commands.ProposalLapses | src/server/app/gameSession.ts:385-395 | a proposal that ran out is gone with its timer; who is told, and that no game changes, also when the room was dropped |
| Commands.AskProposesIff | src/server/app/commandHandler.ts:392-416 | a request proposes exactly if the named game is the one that is over |
| Commands.TakeStartsIff | src/server/app/commandHandler.ts:418-441 | in every reachable server the second player's acceptance starts the next game and clears readiness; the proposer's own changes nothing |
| Commands.TakeInVain | src/server/app/commandHandler.ts:418-441 | an acceptance for another game, or by somebody who does not sit there, changes nothing |
| Commands.RefuseDrops | src/server/app/commandHandler.ts:443-465 | a decline by either player ends the proposal, for both |
| Commands.SyncAnswers | src/server/app/commandHandler.ts:535-577 | one answer, a replay or the picture of the room with its number, and nothing changes |
| Commands.PictureIs | src/server/app/commandHandler.ts:83-116 | what a snapshot shows: players, readiness, the game at hand, the records |
| Commands.RefusalTable | src/server/app/commandHandler.ts:170-577 | for each of the nine commands: the checks in their order and the error each gives, with nothing changed but what had expired; and no error to the asker if none of them applies |
| Commands.NewcomerIsLoggedIn | src/server/app/commandHandler.ts:118-168 | AUTH without a token makes a login in no room, and its answer is remembered |
| Commands.StrangerIsRefused | src/server/app/commandHandler.ts:118-168 | AUTH with a token of no living login is refused, and the refusal not remembered |
| Commands.KnownIsGreeted | src/server/app/commandHandler.ts:143-168 | AUTH by a seated player names room, symbol and the status of its game |
| Commands.HomelessIsGreeted | src/server/app/commandHandler.ts:143-168 | a room that is gone, or where the player does not sit, is forgotten and not named |
| Commands.MaintenanceDrops | src/server/app/sessionStore.ts:109-123 | logins, answers and rooms go exactly if their time is up, and nothing else changes |
| Moves.MoveIsPlayed | src/server/app/commandHandler.ts:363-390 | in every reachable server, a move of the player on turn on an empty cell of the running game is marked, recorded, acknowledged under its id, broadcast, and followed by the result if it ends the game |
| Moves.MoveIsRefused | src/server/app/commandHandler.ts:363-390 | any other move of a seated player in the running game is refused with its reason, to that player alone |
| Moves.MoveMisses | src/server/app/commandHandler.ts:363-390 | a move that names no running game is answered with an error and not remembered |
| Moves.MoveIsHeard | src/server/app/commandHandler.ts:630-657 | on the wire, a connected mover gets the acknowledgement and not the broadcast, a connected opponent the broadcast and not the acknowledgement |
| Departures.LeavingForfeits | src/server/app/commandHandler.ts:264-295 | LEAVE_ROOM by a seated player of an active game always ends it as a forfeit won by the opponent, on the board as it stood, with its record, the seat freed, and PLAYER_LEFT with reason FORFEIT for the opponent |
| Departures.WindowAbandons | src/server/app/gameSession.ts:415-434 | a window that runs out abandons the active game; the winner is the opponent of the player if the player sits in the room, and nobody if not |
| Witnesses.LateTimerLeavesNoWinner | src/server/game/engine.ts:492-506 | a run of the whole server, fourteen commands and events from its start with fresh ids, after which an abandoned game has no winner: the claim that the other player always wins does not hold of the code |
| Witnesses.PlayersMeet | src/server/app/commandHandler.ts:118-361 | a reachable server where a game runs between two seated, connected players, and where the next command of either is performed: the laws of reachable servers speak of something |
| Dedup.EntryLasts | src/server/app/sessionStore.ts:87-106 | a remembered answer is neither dropped nor overwritten by anything that happens before its time is up |
| Dedup.RetryIsReplayed | src/server/app/commandHandler.ts:373-374 | a retry whose answer is remembered changes nothing at all and is answered with it; rematch commands are answered with silence |
| Dedup.FirstAnswerIsRemembered | src/server/app/commandHandler.ts:380-389 | a new command is remembered if and only if it takes effect, a condition on the state before (seats, free seats, the game and the proposal at hand); and what is remembered is what was answered: the event of that command, or for a move what the session sent to the mover |
| Dedup.RetryGetsSameAnswer | src/server/app/commandHandler.ts:373-389 | for every command that takes effect and any inputs in between: a retry within five minutes changes nothing and gets the same answer |
| Dedup.PlayedAtMostOnce | src/server/app/commandHandler.ts:373-389 | in every reachable server, a cell of a game that was acknowledged once is never played again, by anybody, under any command id, in any room, however late; no game changes |
| Following.LiveClientFollows | src/server/app/commandHandler.ts:624-657 | in every run of the server a client that was right once and handles what the session says that concerns its player stays right |
| Following.PresentClientFollows | src/server/app/commandHandler.ts:624-657 | the same over the wire: for a player who stays in the room, connected, exactly what the send function sent to that player keeps the client right, over whole runs of the server |
| Following.JoinShowsState | src/server/app/commandHandler.ts:170-241 | a successful JOIN_ROOM, first or repeated, answers with the state of the room's session, whatever the client showed |
| Following.PresentPlayerIsServed | src/server/app/commandHandler.ts:630-657 | what the transport is asked to send to a seated, connected player takes a view from the state before to the state after |
| Transport.SendFn | src/server/app/commandHandler.ts:630-657 | the walk over the two slots reaches the addressee, or the connected players, or those but the sender; nobody once the room is gone |
| LiveDelivery.PresentHearsAll | src/server/app/commandHandler.ts:630-657 | the send function reaches a seated, connected player with exactly the entries that a replay would hold for that player |
| LiveDelivery.AbsentHearsOwn | src/server/app/commandHandler.ts:630-657 | nobody else is sent anything but what is addressed to them |
| Messages.MoveTells | src/server/app/gameSession.ts:193-235 | a move after which the game goes on: acknowledgement for the mover, broadcast for the others, their numbers, symbol, count, board and next turn |
| Messages.LastMoveTells | src/server/app/gameSession.ts:193-310 | a move that ends the game: the same without a next turn, then the result for everybody, with its statistics, and the record |
| Messages.RefusalTells | src/server/app/gameSession.ts:172-191 | a refused move is told to the mover alone, with reason, board and turn |
| Messages.MissTells | src/server/app/gameSession.ts:159-171 | a move for another game, or for no running one, changes nothing and is answered with GAME_ID_MISMATCH or GAME_NOT_ACTIVE |
| Messages.ForfeitTells | src/server/app/gameSession.ts:238-310 | a forfeit: winner, result, final message with duration from the first move, and the record; nothing without a running game |
| Messages.WindowTells | src/server/app/gameSession.ts:415-435 | a window that runs out in a game: abandoned, told, recorded, departure announced, window forgotten |
| Messages.IdleWindowTells | src/server/app/gameSession.ts:415-435 | outside a game: only the departure is announced, and nothing else changes |
| Messages.StartTells | src/server/app/gameSession.ts:122-153 | a start: the new game, numbering from 1, buffer and log of just GAME_STARTED, with both players as they are in the room |
| Messages.GoneTells | src/server/app/gameSession.ts:401-438 | a window replaces an older one of the player; a connected opponent, and nobody else, is told the deadline five minutes ahead |
| Messages.BackTells | src/server/app/gameSession.ts:449-457 | a connected opponent, and nobody else, is told that the player is back; game and timers stay |
| Messages.WhoHears | src/server/app/commandHandler.ts:630-657 | who is sent an entry, said by seats and presence |
| Following.ReconnectCatchesUp | src/server/app/commandHandler.ts:475-529 | in every reachable server RECONNECT takes every client of a seated player to the session's state, marks the player present, and leaves no window of that player that could end a game |
| Following.SyncCatchesUp | src/server/app/commandHandler.ts:535-570 | in every reachable server the answer to SYNC_REQUEST takes the client to the session's state and number; only for a replay must it have applied its events below the asked number, and it may have applied later ones |
| Following.GapIsClosed | src/client/lib/wsClient.ts:241-261 | in every reachable server, a gap closes: the skipping frame makes the client ask from the number it expected and is applied all the same, with whatever arrives behind it; the answer to that very request takes the client to the session's state and number |
| Following.OptimisticMoveIsConfirmed | src/client/lib/optimisticEngine.ts:28-62 | in every reachable server, for a client that shows the session's state and may move, the local verdict is the server's answer, the predicted board is the acknowledged one, and the answer leaves the display on it |
| Moves.CanMoveIff | src/client/store/gameStore.ts:443-451 | in every reachable server, a client that shows the session's state lets its player move if and only if it is signed in, nothing is in flight, the opponent is not shown as gone, and the server would acknowledge some move of that player; and then exactly the moves on cells it shows as empty are acknowledged |
| Moves.AcknowledgedIff | src/server/app/commandHandler.ts:363-390 | exactly the moves of the player on turn on empty cells of a running game are acknowledged |
| Moves.ShownMoveStays | src/client/lib/optimisticEngine.ts:28-62 | a move that a client lets through on a cell it shows as empty is acknowledged, on display from the click on, and still after the acknowledgement, which settles it |
| CommandHandlers.ServerContext.HandleCommand | src/server/app/commandHandler.ts:170-577 | login, retry and room checks in this order, then the handler; stores and deliveries are those of the handler model |
| CommandHandlers.ServerContext.HandleJoinRoom | src/server/app/commandHandler.ts:170-241 | already seated, full, or seated on the free slot, with the events for both players |
| CommandHandlers.ServerContext.HandleLeaveRoom | src/server/app/commandHandler.ts:243-299 | forfeit, events with the right reason and numbers, seat and login freed |
| CommandHandlers.ServerContext.HandlePlayerReady | src/server/app/commandHandler.ts:301-361 | idempotent readiness; with both ready the next game starts |
| CommandHandlers.ServerContext.HandleMakeMove | src/server/app/commandHandler.ts:363-390 | the session's response, and only that, is remembered |
| CommandHandlers.ServerContext.HandleRequestRematch | src/server/app/commandHandler.ts:392-416 | refusals, and remembering exactly if the proposal was made |
| CommandHandlers.ServerContext.HandleAcceptRematch | src/server/app/commandHandler.ts:418-441 | refusals, the agreed rematch with cleared readiness, and remembering exactly if it counted |
| CommandHandlers.ServerContext.HandleDeclineRematch | src/server/app/commandHandler.ts:443-465 | refusals, and remembering exactly if there was something to decline |
| CommandHandlers.ServerContext.HandleReconnect | src/server/app/commandHandler.ts:475-533 | presence, window, opponent, number, acknowledgement and catch-up, in this order |
| CommandHandlers.ServerContext.HandleSyncRequest | src/server/app/commandHandler.ts:535-577 | replay or snapshot, remembered |
| CommandHandlers.ServerContext.HandleAuth | src/server/app/commandHandler.ts:118-168 | retry, unknown token, new login, and the room the player sits in |
| CommandHandlers.ServerContext.HandleDisconnect | src/server/app/commandHandler.ts:579-596 | the slot is marked absent; a window opens only during a game |
| CommandHandlers.ServerContext.OnPlayerLeft | src/server/app/commandHandler.ts:664-677 | slot and login of a player whose window ran out are freed |
| CommandHandlers.ServerContext.BuildRoomSnapshot | src/server/app/commandHandler.ts:83-116 | room, game and records as they are |
| CommandHandlers.ServerContext.OnWindowElapsed | src/server/app/gameSession.ts:415-435 | session, slot and login after a window ran out are those of the handler model |
| GameStore.OverlayDiscipline | src/client/store/gameStore.ts:292-346 | over all action sequences a pending move exists exactly while an overlay does, and without one the displayed board is the confirmed one |
| GameStore.PendingUntilSettled | src/client/store/gameStore.ts:292-305 | until an answer settles it the move in flight and its overlay stay as they are; a second one is ignored |
| GameStore.SettlingShowsConfirmed | src/client/store/gameStore.ts:307-360 | every answer that settles a move puts the display back on the confirmed board |
| GameStore.MoveIsShownAtOnce | src/client/store/gameStore.ts:292-305 | a move in the making is shown at once, and until it is settled the player has to wait and further ones are ignored |
| GameStore.OthersMoveIsShown | src/client/store/gameStore.ts:326-335 | the other player's move is shown at once, but not over one's own move in flight |
| GameStore.LeavingForgets | src/client/store/gameStore.ts:412-420 | leaving keeps login and connection and nothing of the room |
| WsClient.WsClient.HandleFrame | src/client/lib/wsClient.ts:219-262 | tracking, dispatch and the restored head after a STATE_SYNC, step by step, are the frame model's; a frame that skips a number never moves the counter |
| WsClient.WsClient.DispatchEvent | src/client/hooks/useWebSocket.ts:94-318 | the mapping of events to actions, with the loop over replayed events |
| WsClient.NeverOverstated | src/client/lib/wsClient.ts:241-261 | over all frames: every number up to the counter, since the last synchronisation, was received |
| WsClient.GapAsksFromNext | src/client/lib/wsClient.ts:248-251 | a frame that skips a number leaves the counter alone, and exactly if the client has a room and a login it asks from the next number on |
| WsClient.SyncAligns | src/client/lib/wsClient.ts:257-261 | after any STATE_SYNC, even one replaying a GAME_STARTED, transport and store are both at its number |
| WsClient.FrameTells | src/client/hooks/useWebSocket.ts:94-318 | what a frame changes besides the game: presence of the opponent, whose rematch proposal it is, symbol, readiness, room and login, each by its own events only |
| WsClient.StartIsCountedTwice | src/client/lib/wsClient.ts:245-246 | after a live GAME_STARTED the transport counts from 0 while the store has 1, so the next event in order is taken for a gap |
| WsClient.InOrderGapIff | src/client/lib/wsClient.ts:241-261 | over all frames in order, with no number missing: the next one is taken for a gap if and only if a game has started since the last STATE_SYNC, and then everything from 1 on is asked for again |
| OptimisticEngine.PredictionExact | src/client/lib/optimisticEngine.ts:28-62 | for a seated player and all integers: accepted locally exactly when the engine accepts, same board, same reason |
| OptimisticEngine.PendingCellIndices | src/client/lib/optimisticEngine.ts:76-88 | the loop collects exactly the cells that the overlay marks and the confirmed board does not |
| RateLimiter.FixedWindowLimiter.Check | src/server/http/rateLimiter.ts:62-81 | buckets and verdict after a call, with the pruning loop in between |
| RateLimiter.FixedWindowLimiter.Prune | src/server/http/rateLimiter.ts:53-59 | the deleting loop drops exactly the buckets whose window is over |
| RateLimiter.SlidingBound | src/server/http/rateLimiter.ts:62-81 | with a clock that does not run backwards, every half-open interval of the window's length holds at most 2 * max - 1 allowed calls of a key (and none if max is 0) |
| RateLimiter.BoundIsReached | src/server/http/rateLimiter.ts:62-81 | for every max of at least 1 and every window of at least 2 ms there is a run that reaches this bound, so no smaller one holds |
| RateLimiter.VerdictIgnoresPruning | src/server/http/rateLimiter.ts:53-65 | no answer differs from that of a limiter that never prunes |
| RateLimiter.ThresholdIrrelevant | src/server/http/rateLimiter.ts:49-65 | two limiters that differ in the pruning threshold answer alike |
| RateLimiter.RetryAfterIsEnough | src/server/http/rateLimiter.ts:75-78 | a denial names a wait of at least 1 and at most the window, and a call of that key right after it is allowed exactly if max is at least 1 |
| RateLimiter.RareCallsAreAllowed | src/server/http/rateLimiter.ts:62-81 | a key that called at most max times within the last window's length, this call included, is let through |

## Left out

- Sockets, heartbeat, back-off, connection ids and the registry of connections: the model knows players, and "the asking connection".
- Routers, origin policy, logging, metrics, PING and PONG, and the exception boundary around the handlers.
- JSON, the shape guards and versioning: the model starts from typed commands and events.
- Message ids, envelope timestamps, protocol version, display names and error texts: no branch depends on them.
- Disk reads and writes of the history repository: only its in-memory map is modelled, and a start from any duplicate-free content.
- Wire order between what a session sends itself and what a handler returns afterwards: the two are separate lists here.
- Answers re-sent to a retry: convergence is about what sessions emit; a re-sent acknowledgement carries an old board, and the client installs it.
- On the client, `phase`, latency, player names, the move list and the winning line: a snapshot does not restore the last two, and none of them belongs to the converging view.
- Rows, columns and sequence numbers are integers; a fraction, which the program rejects as out of bounds, has no counterpart.
- NO_INVALID_CELL_VALUE of the invariant checker: the type of cells rules it out.  Of each violation the name is kept, not the text.
- The readiness set has no order here; the program sends it in insertion order.
- The limiter's `max` is a natural number and its window positive, as its callers pass them.
- Rooms.RoomStore.AddPlayer: room records are values inside the store's map, addressed by room id, so two names for one record object are not modelled.  The record a rematch timer still holds after its room expired is an input of the firing.
- CommandHandlers.ServerContext.HandleAuth: which of several logins of one player is found first is not modelled; generated player ids make it one at most.
- CommandHandlers.ServerContext.HandleCommand: the checks every handler begins with are written once, in this method, and a handler receives the player they found.
- CommandHandlers.ServerContext.BuildRoomSnapshot: it reads the room that the same handler just looked up, instead of looking it up, and possibly expiring it, once more at the same time.
- Convergence.ClientConverges: needs a game to have started; before that the log of a session changes no view, which is part of `Convergence.Converged`.
- Recovery.SyncReplyRecovers: for a replay the client must have applied its events below the number it asks from, because a replay says nothing about them; a snapshot and RECONNECT need no premise.
- The hook reads the client state through a reference that React refreshes when it renders, so a request or a snapshot can be built from a slightly older state; here the state is always the current one.
- The RECONNECT that the hook sends by itself when a connection is authenticated: `Following.ReconnectCatchesUp` covers every RECONNECT, whoever sends it and whatever number it claims.
- `winningIndices` of the client: a set display of three cells.
- Shutdown, where every session is destroyed, is modelled for one session only.
