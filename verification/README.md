# Four Across, verified

A Dafny model of a networked "four in a line" game: the game engine, the lobby that runs a game, the server that seats players, the clients that keep a replica of the game, and the message channels between them. `dafny verify dfyconfig.toml` checks everything.

## How the project is organised

| files | what they hold |
|---|---|
| `Bytes`, `Grids`, `Rules`, `History`, `Rendering` | eight-bit arithmetic, boards as stacks of disks, a turn as a function, and what is true after any calls |
| `Boards`, `Games` | the classes `Board` and `FourAcross`: vectors, loops over wrapping `uint8_t` indices, exceptions as results |
| `Messages`, `Connections`, `Lobbies`, `Clients`, `Servers` | the network side as functions on values, one function per C++ handler |
| `ConnectionObjects`, `LobbyObjects`, `ClientObjects`, `ServerObjects` | the same handlers as methods that update fields, proved equal to those functions |
| `LobbyInvariants`, `ServerInvariants`, `Conservation`, `Lifetimes` | what the server keeps whatever clients send |
| `Queues` | where the server puts whoever arrives, and what those who wait are told |
| `Links`, `Rooms`, `Protocol`, `Theorems` | the whole system of server and clients: its steps, its invariant, and the results about every reachable state |
| `Gatherings`, `Progress` | a full lobby can begin a game, and a game can be finished |
| `Pulses`, `Heartbeats` | pings, pongs, and who is lost by the ping timer |
| `Endings`, `Departures` | how games end and what is announced; clients whose connections are gone |
| `Counting`, `Beginnings`, `Agreement` | ready counts, the starts of games and replica agreement when clients send anything at all: exactly what each depends on |
| `DeadSeats`, `DeadHolders`, `Discipline`, `LateMoves`, `LateReadies` | where the code does not do what one would hope: the inputs, and exactly when |
| `Scenarios`, `FullServers` | runs of the server, from the empty one, that reach those inputs |

A board is `Grids.Stacks`: one sequence of owners per column, bottom first. Empty cells are not stored, so gravity is part of the representation, and `Boards.Board.Valid` ties it to the two-dimensional vector and the heights.

A lobby value keeps every connection that was ever added to it (`conns`), because the C++ signal slots hold strong references and are never disconnected: dead connections still hear every signal, but write nothing to their sockets. Seats hold indices into that list. Signals are synchronous calls. A connection's signals to its lobby, and `lobbyAvailable` to the server, are the last actions of their handlers, so they are modelled as results that the caller passes on.

A run of the system (`Protocol.Run`) is any sequence of steps: a connection arrives, the server or a client reads the oldest message on a channel, reading fails, a ping timer or the queue timer expires, a user answers. Channels are first-in first-out. A connection that the ping timer gave up may still read what was pending, as in the code, unless that concerns somebody else (`Rooms.LateIsHarmless`). Users are those of the console client: asked once after connecting and once per game end whether they are ready, and asked for one move per prompt, which they answer with a column of the board. Everything else, including when anybody does anything, is arbitrary.

The central invariant (`Links.LinkOK`) describes what may be in flight between the server and one client. A link is joining, resting between games, playing, or ending a game that the client has not yet read about. `Links.Sync` is the replica a client will have after reading everything in flight. It is undefined if a replayed turn would fail, a prompt would come out of turn, or an announced winner would not be the replica's own.

Where code and documentation disagree, the code is followed:
- The comment at include/four-across/game/board.hpp:21-22 gives larger minimal dimensions than the constants that the constructor checks (5 columns, 4 rows).
- `FourAcross` compares the first player with its argument `numPlayers`, not with the corrected field.

## Findings

Some hopes that one may have of the code fail. Each is stated at an input that shows it, with a run of the server that gets there, and then exactly.

- **The ready count.** `onReady` counts every `ready` from an id that is seated, without looking at the flag of the connection. A second `ready` starts a game with a player who was never ready (`Discipline.SecondReadyStartsEarly`), and a `ready` read late from a timed-out connection counts for its successor in the seat (`Discipline.LateReadyCountsForSuccessor`). A `ready` with id 0 read from a waiting connection sets its flag and is counted by nobody (`Counting.ReadyWhileWaiting`). These are all the ways: `Counting.EventCounts` gives, for every event in every state, the exact condition under which all counts stay right, and `Counting.RunCounts` lifts it to runs.
- **Whose move it is.** A read that is pending when the ping timer gives up is still handled, and moves are looked up by id. So a late move is played for whoever has the seat now (`LateMoves.LateMovePlaysForSuccessor`). `LateMoves.MovesAreOwn` says exactly which moves are played for somebody else, whatever clients send; among console clients those are the accepted moves of dead connections (`LateMoves.OnlyTheDeadMoveForOthers`).
- **The turn token, and moves of earlier games.** Late moves break the single turn token, and so may a late `ready`: it can start a game while a player still has a move of an earlier game in flight, and that stale move is then played (`LateReadies.LateReadyRevivesStaleMove`). `LateReadies.TokenSurvivesLateRead` gives the exact condition for every late read in every reachable state, and `LateReadies.GamesBeginClean` says exactly when a game begins without stale moves.
- **Late reads in general.** A late read keeps a lobby and its clients in order if and only if it is harmless: it does not count an id ready that somebody has, and is no move during a game (`LateMoves.LateReadSurvives`). The runs of `Protocol` contain all harmless late reads and leave out exactly the others; this is what "harmful late reads" means below.
- **Seats of the dead.** A lobby that loses a player gives the seat to the head of the queue without asking whether that is alive. A run of nine arrivals, the death of the one who waits, and the loss of a player ends with a dead connection in a seat (`DeadSeats.DeadSeatHappens`). In every run a seat is dead if and only if its player was lost while the head of the queue was dead (`DeadSeats.DeadSeatsHaveOneCause`); it then stays dead and nobody else ever gets it (`DeadSeats.DeadSeatsStay`), because its loss was already handled.
- **Playing beside the dead.** With console clients and without harmful late reads, a lobby with a dead seat never plays again (`DeadSeats.DeadSeatsStopPlay`). Both assumptions are needed: a client that sends `ready` twice starts a game (`Discipline.SecondReadyStartsEarly`, whose second player need not be alive), and so do console clients when a late `ready` is counted for the dead (`DeadHolders.LateReadyPlaysBesideDead`). `Beginnings.EventBegins` says exactly which events begin a game, and `DeadHolders.OnlyLateReadiesPlayBesideDead` that in no reachable state a living player's `ready`, or one from the holder of the dead seat, begins a game beside it: only a late `ready` from a connection that has lost its seat does.
- **A game replaced.** A `ready` that is accepted during a game and brings the eight-bit count round to the number of players replaces the running game without telling anybody. Two players and 256 messages suffice (`Scenarios.GameReplacedHappens`). Nothing else that clients send can bring replicas and server apart (`Agreement.RunsInStep`).

## Model

| member | source | states |
|---|---|---|
| Boards.Board.Create | game/src/board.cpp:10-23 | construction fails exactly for sizes the constructor rejects, and otherwise gives an empty board |
| Boards.Board.IsFull | game/src/board.cpp:53-67 | the eight-bit loop visits every column: true exactly when all columns are full |
| Boards.Board.DropPieceInColumn | game/src/board.cpp:78-92 | out of range, full column or one more disk on that stack; only the last changes the board |
| Boards.Board.GetDiskOwnerAt | game/src/board.cpp:94-102 | the owner in the stack view, or an exception exactly when a coordinate is off the board |
| Boards.Board.GetRow | game/src/board.cpp:122-135 | a copy of the row, cell by cell |
| Boards.Board.ToText | game/src/board.cpp:137-165 | the loops over rows and columns produce the specified text |
| Rendering.TextDeterminesBoard | game/src/board.cpp:137-165 | two boards print alike if and only if they have the same dimensions and the same disks |
| Rendering.BoardByExample | game/src/board.cpp:137-165 | the literal text of a small board: top row first, bars, dashed lines, owners of two digits |
| Grids.DropCounts | game/src/board.cpp:90-91 | a drop adds one disk in total and one to its owner's count only |
| Grids.FullByCount | game/src/board.cpp:53-67 | a board is full exactly when it holds columns times rows disks |
| Grids.ScansDecide | game/src/game.cpp:118-151 | two opposite scans sharing a counter with early return at four reach four exactly when a window of four cells through the last disk has one owner |
| Grids.ScansDecideReversed | game/src/game.cpp:237-275 | the same when the first scan goes against the axis |
| Grids.LineAfterDrop | game/src/game.cpp:105-278 | a line that appears with a drop contains the new disk; all others were there before |
| Games.FourAcross.CheckColumn | game/src/game.cpp:110-151 | both vertical scans with wrap-around sentinels stay on the board and decide about the vertical windows |
| Games.FourAcross.CheckRow | game/src/game.cpp:153-191 | the same along the row, on the copied row |
| Games.FourAcross.CheckRisingDiagonal | game/src/game.cpp:193-233 | the same along the rising diagonal |
| Games.FourAcross.CheckFallingDiagonal | game/src/game.cpp:235-275 | the same along the falling diagonal |
| Games.FourAcross.ScanDownLeft | game/src/game.cpp:216-233 | a scan with two wrapping indices stops at the first foreign cell, at the border, or at four |
| Games.FourAcross.CheckForWinner | game/src/game.cpp:105-278 | never throws; names the last player exactly when some window through the last disk is complete |
| Games.FourAcross.TakeTurn | game/src/game.cpp:45-86 | equals the turn function in result and new state; every unsuccessful result leaves every field and vector untouched; badColumn comes from the drop only |
| Rules.NewGameIsSound | game/src/game.cpp:11-23 | every new game on a legal board satisfies the invariant, whatever the player arguments |
| Rules.NewGamesBegin | game/src/game.cpp:11-23 | a game exists exactly on 4 or more rows with more columns than rows; it has the players asked for but at least two, the first player asked for if it is one of those asked for and otherwise player 1, no disks, no turns and no winner |
| Rules.DropSettles | game/src/game.cpp:105-278 | on a board without lines, the windows through a dropped disk decide about lines anywhere |
| Rules.LocalCheckIsGlobal | game/src/game.cpp:45-86 | after any calls with any arguments, on any legal board, there is no winner exactly when no line exists anywhere; otherwise every line is the winner's and passes through the last move |
| Rules.PlayKeeps | game/src/game.cpp:45-86 | whatever calls are made, owners, heights and turn count stay consistent, and lines appear only with a winner who owns them all through the last move |
| Rules.TurnsCountDisks | game/src/game.cpp:66-70 | numTurns counts the disks, never wraps, and reaches the number of cells exactly when the board is full |
| History.HistoryExplains | game/src/game.cpp:66-70 | after any calls, the state is given by the first player and the accepted columns: cell (c, r) belongs to whoever made the r-th accepted move in column c |
| History.RejectedCallsLeaveNoTrace | game/src/game.cpp:45-86 | playing only the accepted columns gives the same game in every field |
| History.AnswersExplained | game/src/game.cpp:45-86 | after any calls on any new game, any call is answered by the first that applies: gameFinished if there is a line on the board, wrongPlayer if the caller is not the mover of the next accepted move, badColumn if the column is off the board, columnFull if it had as many accepted moves as there are rows, otherwise success |
| History.MoverAdvances | game/src/game.cpp:280-288 | the eight-bit rotation with its overflow to zero hands the turn to the mover of the next move, for 255 players too |
| History.MoverIsModulo | game/src/game.cpp:280-288 | move i is made by player ((first - 1 + i) mod numPlayers) + 1 |
| History.DisksAreBalanced | game/src/game.cpp:280-288 | no player ever has two disks more than another |
| Connections.LostAfterFourSilentIntervals | server/src/connection.cpp:299-350 | over any ticks and pongs, a connection is lost exactly once four consecutive intervals brought no pong |
| Connections.TickPingsOrLoses | server/src/connection.cpp:299-334 | a tick of a connection that is there either loses it without a word, or sends it exactly one ping |
| Connections.PingsForSurvivedIntervals | server/src/connection.cpp:299-350 | over any ticks and pongs, what the heartbeat sends is one ping at the start and one for every interval at whose end no four in a row had been silent |
| Connections.OnlyOwnMessagesSignal | server/src/connection.cpp:68-113 | a message raises a signal exactly if it is a ready or a move with the connection's own id, the latter with a column other than -1; it sets a flag exactly if it is a pong or an own ready; nothing else changes |
| Connections.IdIsForLife | server/src/connection.cpp:197-209 | the first id is told to the client and never replaced |
| ConnectionObjects.Connection.OnReadSocket | server/src/connection.cpp:68-113 | the fields and the raised signal after each kind of message, with the id and column checks |
| ConnectionObjects.Connection.PingOnTimer | server/src/connection.cpp:299-334 | the fields, the ping and the loss after a timer tick, equal to the tick function that Connections.TickPingsOrLoses and Connections.LostAfterFourSilentIntervals are about |
| ConnectionObjects.Connection.OnUpdate | server/src/connection.cpp:278-297 | who is told what about a turn |
| LobbyObjects.GameLobby.AddPlayer | server/src/gamelobby.cpp:36-59 | the connection gets the first free slot and its id and hears the signals, or nothing changes |
| LobbyObjects.GameLobby.FindPlayer | server/src/gamelobby.cpp:118-125 | the search by id finds the first slot whose connection has the id |
| LobbyObjects.GameLobby.GameStarted | server/src/gamelobby.cpp:90 | the signal reaches every subscriber, each of which sends the start of this game |
| LobbyObjects.GameLobby.OnReady | server/src/gamelobby.cpp:161-189 | counting in eight bits, and the start of a game when all are ready |
| LobbyObjects.GameLobby.OnTakeTurn | server/src/gamelobby.cpp:191-221 | the turn, the news, and then the end of the game or the next prompt |
| LobbyObjects.GameLobby.OnDisconnect | server/src/gamelobby.cpp:115-159 | the freed slot, the counters, the end of a running game, and whether a seat is offered |
| LobbyObjects.GameLobby.OnMessage | server/src/connection.cpp:68-113 | a member reads a message and the lobby handles the signal it raises, as one event |
| LobbyObjects.GameLobby.OnReadError | server/src/connection.cpp:114-127 | reading fails: the connection is lost and the lobby handles that |
| LobbyObjects.GameLobby.OnPingTimer | server/src/connection.cpp:299-334 | a ping timer expires: another ping, or a loss that the lobby handles |
| LobbyInvariants.AddPlayerKeeps | server/src/gamelobby.cpp:36-67 | the least free slot is taken by the newcomer; ids, slots and counters stay consistent |
| LobbyInvariants.OnlyFullLobbiesRefuse | server/src/gamelobby.cpp:247-250 | in a lobby in order, players can be added exactly when it is not full, so addPlayer never discards anybody silently |
| LobbyInvariants.FoundAtOwnSeat | server/src/gamelobby.cpp:118-125 | a search by id finds the slot id - 1 or nothing; a connected player is found in its own slot |
| LobbyInvariants.OnDisconnectKeeps | server/src/gamelobby.cpp:115-159 | exactly the slot of the lost connection is freed, the game is over, and the lobby offers a seat |
| LobbyInvariants.ReadMessageKeeps | server/src/gamelobby.cpp:161-221 | no message, from whomever, disturbs slots, ids, or the rule that a playing lobby is full and its game unfinished |
| LobbyInvariants.TurnKeepsPlay | server/src/gamelobby.cpp:201-214 | a lobby stops playing on exactly the move that ends the game on the board |
| LobbyInvariants.TurnIsAnswered | server/src/gamelobby.cpp:191-221 | the complete list of what each connected member is sent about a turn of a running game: its mover the result, the others a successful turn, then all of them the end of the game, or the next player the request to move |
| LobbyInvariants.ForeignMessagesDoNothing | server/src/connection.cpp:68-113 | a ready or a move with somebody else's id, a move to column -1, and messages that only servers send have no effect on a lobby |
| LobbyInvariants.UnseatedIdsDoNothing | server/src/gamelobby.cpp:115-174 | an id that no slot has is not counted ready and frees no slot |
| LobbyInvariants.RefusalsLeaveNoTrace | server/src/gamelobby.cpp:36-93 | a player who is turned away leaves no trace, and a lobby that is closed or playing starts no game |
| Queues.ArrivalIsPlaced | server/src/server.cpp:54-156 | from every state in order, a newcomer gets the least free seat of the first lobby that is not full, and no lobby is opened; if all are full and fewer than four, the first seat of a new lobby for two; if there are four, the end of the queue; it has been sent a ping, and then its id or its own place in the queue |
| Queues.QueueTimerTells | server/src/server.cpp:158-181 | the p-th connection of the queue, if alive, ends up in the place given by the number of living ones up to it, and is told that place exactly if fewer than ten wait or their number has changed by ten or more |
| Queues.QueueTimerCounts | server/src/server.cpp:158-181 | exactly the living remain in the queue, and their number is remembered |
| ServerObjects.Server.OnConnectionAccepted | server/src/server.cpp:54-112 | a newcomer goes to the first lobby with room, else a new lobby, else the end of the queue; the server's invariant is kept |
| ServerObjects.Server.OnLobbyEvent | server/src/server.cpp:142-150 | a loss is handled and the freed seat goes to the head of the queue; the server's invariant is kept |
| ServerObjects.Server.UpdateQueuePositions | server/src/server.cpp:158-181 | the dead are purged, the others told their positions under the size rule; the server's invariant is kept |
| ServerInvariants.SeatNewcomer | server/src/server.cpp:65-73 | a newcomer finds a free seat only when nobody waits |
| ServerInvariants.ServeKeeps | server/src/server.cpp:54-181 | every event keeps all lobbies in order, the queue empty unless all lobbies are open and full, and everybody in one place in order of arrival |
| Conservation.Conserved | server/src/server.cpp:65-150 | an event keeps exactly the connections it does not drop, and an arrival adds exactly the newcomer |
| Conservation.NobodyVanishes | server/src/server.cpp:65-181 | after any run, the connections held are exactly those accepted and not dropped |
| Conservation.DroppedAtMostOnce | server/src/gamelobby.cpp:115-139 | over any run, each connection is dropped at most once, by its lobby or by the queue |
| Lifetimes.DisconnectedAtMostOnce | server/src/connection.cpp:170-178 | over any run, each connection fires `disconnected` at most once, seated or waiting, by read errors and timer ticks together |
| Conservation.OnePlaceOnly | server/src/server.cpp:65-150 | nobody sits in two seats, or both sits and waits, or waits twice |
| Conservation.NobodyOvertakes | server/src/server.cpp:142-156 | whoever arrived before somebody who has a seat is not waiting any more |
| Conservation.NoIdleSeats | server/src/server.cpp:114-150 | while somebody waits, the lobby cap is reached and every seat is taken |
| ClientObjects.Client.HandleRead | client/src/client.cpp:107-200 | the replica, the id, the prompt and the answer after each message, a null game included |
| Clients.ReadingAsks | client/src/client.cpp:107-200 | what a user is asked after each message, and that a client crashes exactly at an illegal start and at a turn or a request to move without a game |
| Clients.ReadingPlays | client/src/client.cpp:275-312 | what each message does to the replica: a legal start replaces it, successful turns are replayed on it, nothing else touches it |
| Clients.PingsAreAnswered | client/src/client.cpp:107-140 | over any messages, a client that does not crash sends exactly one pong for every ping and nothing else, is connected exactly once it was told an id, and has the last id it was told |
| Clients.AnsweringCloses | client/src/client.cpp:67-74 | an asked user's answer appends exactly a ready with the client's id and closes the question; answering again does nothing |
| Links.DeliveryKeepsLink | client/src/client.cpp:107-200 | whatever a client reads next, the link stays in order and the turn stays where it is |
| Links.ReadingBetweenGames | server/src/connection.cpp:80-103 | between games the server reads only a first ready or a move left over from an aborted game |
| Links.ReadingDuringGame | server/src/connection.cpp:89-103 | during a game the server reads only a move of the current player, on the board, made with the current game in view |
| Rooms.ReadingKeepsRoom | server/src/gamelobby.cpp:161-221 | reading a player's next message keeps every link of the lobby and the ready count in order |
| Rooms.LossKeepsRoom | server/src/gamelobby.cpp:115-159 | so does losing a player, between games or during one |
| Protocol.NextKeeps | server/src/server.cpp:54-181 | every step of the system keeps the whole invariant |
| Theorems.ReplicaAgreement | client/src/client.cpp:275-312 | while a lobby plays, every replica becomes the server's game in every field once the messages in flight are read, each turn replaying successfully |
| Agreement.EventInStep | server/src/connection.cpp:231-297 | whatever clients send, an event keeps all clients in step with their lobbies if and only if it does not replace a running game |
| Agreement.RunsInStep | server/src/connection.cpp:231-297 | over a whole run with arbitrary messages, everybody is in step all the time if and only if no running game is ever replaced |
| Agreement.ReplicasAgree | client/src/client.cpp:275-312 | in such runs, a living player's client that handles all messages in flight has its id and the server's game |
| Agreement.EverythingIsSensible | client/src/client.cpp:107-200 | in such runs, whatever any client reads next it can follow, winners are its own replica's, and requests for a move come in turn |
| Theorems.ClientsCatchUp | client/src/client.cpp:107-200 | while a lobby plays, the client that handles all messages in flight, one by one, does not crash and then has the server's game |
| Theorems.TrustIsJustified | client/src/client.cpp:157-164 | no connected player's client replays a failing turn, dereferences a missing game, or is told a winner other than its own replica's |
| Departures.NoClientIsMisled | client/src/client.cpp:107-200 | the same of every client of a connection that is seated, waiting, or was given up by its lobby and still has messages to read |
| Theorems.OneTurnToken | server/src/gamelobby.cpp:201-214 | while a lobby plays, there is exactly one prompt, asked user or move in flight, and it is the current player's, in every run without harmful late reads |
| Theorems.QuestionsAreFresh | client/src/client.cpp:165-175 | a client that reads a prompt of a running game has the server's game and is the player to move |
| Theorems.MovesAreFresh | server/src/gamelobby.cpp:201-214 | a move of a seated player read during a game was made in that game by its current player, and fails only for a full column, in every run without harmful late reads |
| Theorems.StaleMovesGetErrors | server/src/gamelobby.cpp:193-197 | a move read between games is answered with an error to its sender and changes nothing else |
| Theorems.ReadyAccounting | server/src/gamelobby.cpp:161-189 | numReady counts the ready players, and a lobby plays exactly while every seat holds a ready player |
| Theorems.WinnersAreEarned | server/src/gamelobby.cpp:206-209 | a move ends the lobby's game exactly if it ends it on the board; without winner only on a full board without lines, otherwise with the mover, who has a line |
| Theorems.AbortedGamesHaveNoWinner | server/src/gamelobby.cpp:95-113 | while a lobby plays, its game has no winner and cells left, so a loss cuts it short |
| Endings.EndsAreAnnounced | server/src/gamelobby.cpp:95-113 | a game ends by a loss or by a move, never otherwise; every player still connected is sent the news of the move and then one gameEnd; its winner byte is zero if and only if a player was lost or the board is full without a line, and otherwise the mover, who owns all lines |
| Endings.OthersAnnounceNothing | server/src/connection.cpp:250-263 | no step that does not end a lobby's game sends its members a gameEnd |
| Theorems.SystemRunsServer | server/src/server.cpp:54-181 | the server's part of a run with clients is a run of the server, so the results about those apply |
| Progress.GameCanFinish | server/src/gamelobby.cpp:201-214 | play never deadlocks: from every state of a running game, reading messages and answering prompts can finish it, without anybody leaving |
| Gatherings.AskedUserIsCounted | client/src/consoleclient.cpp:12-40 | an asked user's answer carries exactly the id by which the server knows its connection, which the server will count; it was not counted before, and its lobby does not play |
| Gatherings.GameCanBegin | server/src/gamelobby.cpp:161-189 | from every state in which all seats of a lobby are held by living connections, reading messages and answering the question about being ready can make it play |
| Gatherings.GameCanBePlayed | server/src/gamelobby.cpp:161-221 | and from there the game can be played to its end: nobody arrives or leaves from the first answer to the last move |
| Pulses.EventsExplained | server/src/connection.cpp:299-350 | after any event, every connection was there before and was sent no ping, or was pinged by its own tick, or had a message delivered, or is new and was pinged first; a pong that is read is noticed and never forgotten |
| Heartbeats.PaidPingsAreHeard | server/src/connection.cpp:306-316 | in every run, once a client has read what was in flight when its connection was last pinged, and the server what that client had sent by then, the next tick finds the pong and starts counting afresh |
| Heartbeats.OnlyTheLateAreLost | server/src/connection.cpp:299-334 | in every run, the timer loses a connection only at the end of a fourth interval in a row in which that was not read |
| Heartbeats.ReadersAreNeverLost | server/src/connection.cpp:299-334 | in a run in which that is read between any two ticks of a connection's timer, the timer never loses it |
| Discipline.ReadyStaysCounted | server/src/gamelobby.cpp:161-174 | an accepted ready keeps the count right if and only if its id is seated by nobody, or by its sender who was not ready |
| Counting.EventCounts | server/src/gamelobby.cpp:115-189 | in every state in which all counts are right, an event keeps them so if and only if it is neither a ready read for another nor a loss whose successor is flagged ready |
| Counting.RunCounts | server/src/gamelobby.cpp:115-189 | over a run, all counts are right all the time if and only if no such event occurs |
| Counting.ReadyWhileWaiting | server/src/connection.cpp:80-88 | a waiting connection that reads a ready with id 0 is flagged, and makes the count wrong when it is seated |
| Beginnings.EventBegins | server/src/gamelobby.cpp:161-189 | a lobby begins to play if and only if a ready is read for a seated id in a full lobby and the count comes out at the number of players |
| Discipline.SecondReadyStartsEarly | server/src/gamelobby.cpp:174-187 | a second ready starts a game with a player who was never ready and may be dead |
| Discipline.LateReadyCountsForSuccessor | server/src/connection.cpp:80-88 | a ready read from a lost connection counts for whoever has its seat now |
| LateMoves.LateMovePlaysForSuccessor | server/src/connection.cpp:89-101 | a move read from a lost connection is played for whoever has its seat now |
| LateMoves.MovesAreOwn | server/src/gamelobby.cpp:191-221 | a move read changes the game if and only if it would be accepted from the reader's id, and is made for somebody else if and only if, moreover, the reader does not have the seat of its id; then the reader is dead |
| LateMoves.OnlyTheDeadMoveForOthers | server/src/gamelobby.cpp:191-221 | among console clients, a move is made for somebody else if and only if it is accepted from a dead connection |
| LateMoves.TokenSurvives | server/src/gamelobby.cpp:201-214 | after a move is read in a game that goes on, there is one claim to move, the current player's, if and only if the reader is connected |
| LateMoves.LateReadSurvives | server/src/connection.cpp:68-113 | a read from a lost connection keeps the lobby and its clients in order if and only if it is harmless |
| LateReadies.LateReadyRevivesStaleMove | server/src/gamelobby.cpp:161-189 | a late ready starts a game with two claims to move, in which a move of an earlier game is played |
| LateReadies.TokenSurvivesLateRead | server/src/connection.cpp:80-101 | in every reachable state, a read from a lost connection leaves the turn in order if and only if it is no move during a game that goes on, and starts no game while somebody has a claim left or the pick is dead |
| LateReadies.GamesBeginClean | server/src/gamelobby.cpp:161-214 | a game begins without moves in flight if and only if the ready came from a living connection or no seated player had one in flight |
| LateReadies.StaleMoveIsPlayed | server/src/gamelobby.cpp:191-214 | a move read right after the start changes the game if and only if its sender was picked and its column is on the board |
| DeadSeats.DeadSeatHappens | server/src/server.cpp:142-150 | a run of the system ends with a dead connection in a seat |
| DeadSeats.DeadSeatsChange | server/src/server.cpp:142-150 | after any event in any state, a seat is dead if and only if it was, or its player is lost while the head of the queue is dead |
| DeadSeats.DeadSeatsHaveOneCause | server/src/server.cpp:142-150 | in any run, a seat is dead if and only if that happened to it at some time |
| DeadSeats.DeadSeatsStay | server/src/gamelobby.cpp:115-159 | over any continuation, a dead seat stays dead and keeps its holder |
| DeadSeats.DeadSeatsStopPlay | server/src/gamelobby.cpp:161-189 | over any continuation with console clients and without harmful late reads, its lobby never plays |
| DeadHolders.LateReadyPlaysBesideDead | server/src/gamelobby.cpp:161-189 | with console clients, a late ready and one from the other player start a game beside a dead seat |
| DeadHolders.OnlyLateReadiesPlayBesideDead | server/src/gamelobby.cpp:161-189 | in every reachable state, a read begins a game beside a dead seat if and only if it is a ready that completes the count, and then its reader is dead and has lost its seat |
| DeadHolders.RunKeepsSilent | server/src/server.cpp:142-150 | in every run, the client behind a dead seat never learns its id and sends nothing but pongs |
| Scenarios.SecondReadyHappens | server/src/gamelobby.cpp:161-189 | a run of the server reaches a game with a player who was never ready |
| Scenarios.LateReadyHappens | server/src/connection.cpp:299-334 | a run in which a player times out, and whose late ready then counts for its successor |
| Scenarios.LateMoveHappens | server/src/connection.cpp:299-334 | a run in which the move of a player who timed out is played for its successor |
| Scenarios.StaleMoveHappens | server/src/gamelobby.cpp:161-214 | a run in which a late ready starts a game and a move is played that was sent before |
| Scenarios.GameReplacedHappens | server/src/gamelobby.cpp:161-189 | a run in which the count comes round in eight bits and replaces a running game |
| FullServers.ReadyWhileWaitingHappens | server/src/server.cpp:142-150 | a run in which a ready read from the queue makes a lobby's count wrong |
| FullServers.PlayBesideDeadHappens | server/src/server.cpp:142-150 | a run in which a lobby with a dead seat plays |

## Left out

- ServerObjects.Server: its lobbies and connections are values, so aliasing between the queue, the lobbies and the sockets is not captured there; as objects, lobbies and connections are modelled on their own.
- Theorems.ReadyAccounting: assumes console clients and no harmful late reads; Counting.EventCounts says exactly which events make a count wrong when clients send anything.
- Theorems.OneTurnToken: assumes console clients and no harmful late reads; LateReadies.TokenSurvivesLateRead says exactly which late reads break the token.
- Theorems.QuestionsAreFresh: assumes console clients and no harmful late reads; for arbitrary clients, Agreement.EverythingIsSensible says that requests for a move come in turn on the replica, but not that a rejected move's result does.
- Theorems.MovesAreFresh: assumes console clients and no harmful late reads; LateMoves.MovesAreOwn and LateReadies.GamesBeginClean say exactly which moves are somebody else's or of an earlier game.
- Theorems.ReplicaAgreement: is about runs with console clients and without harmful late reads, like ClientsCatchUp, TrustIsJustified and NoClientIsMisled; the results of Agreement hold whatever clients send.
- DeadSeats.DeadSeatsStopPlay: assumes console clients and no harmful late reads; Beginnings.EventBegins says exactly which events begin a game when clients send anything, and DeadHolders.OnlyLateReadiesPlayBesideDead that from a reachable state only a late ready does.
- Heartbeats.ReadersAreNeverLost: is about runs with console clients and without harmful late reads; a client that sends what it likes may leave pings unanswered, which Connections.LostAfterFourSilentIntervals covers.
- Sockets, buffers, write errors, real time, signal and shared-pointer machinery: replaced by message sequences, timer steps and calls.
- The byte layout of messages, and the conversion of result bytes to the enumeration: messages are a datatype.
- Read errors other than a closed connection: the handler ignores them and so does the model, by having no step for them.
- The random choice of the first player: any value in range.
- Console output, input parsing and the input thread: only when a user is asked and what may be answered is kept.
- The text of a whole game, `ColumnView`, `Column`, move construction and assignment, logging and argument parsing.
- `GameLobby::isEmpty`: it tests a vector that always has all its slots, and nobody calls it.
