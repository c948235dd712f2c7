// What is true in every reachable state of the whole system.
module Theorems {
  import opened Bytes
  import opened Grids
  import opened Rules
  import opened Messages
  import opened Connections
  import opened Clients
  import opened Lobbies
  import opened LobbyInvariants
  import opened Servers
  import opened Conservation
  import opened Links
  import opened Rooms
  import opened Protocol

  ghost predicate Reachable(sys: System) {
    exists steps :: sys == Run(steps)
  }

  lemma ReachableInOrder(sys: System)
    requires Reachable(sys)
    ensures SystemOK(sys)
  {
    var steps :| sys == Run(steps);
    RunKeeps(steps);
  }

  lemma RoomReached(sys: System, i: nat)
    requires Reachable(sys) && i < |sys.server.lobbies|
    ensures RoomOK(sys.server.lobbies[i], sys.clients)
  {
    ReachableInOrder(sys);
  }

  // Somebody sits in seat k of lobby i.
  predicate SeatTaken(sys: System, i: nat, k: nat) {
    i < |sys.server.lobbies| && k < |sys.server.lobbies[i].seats|
    && var l := sys.server.lobbies[i];
       l.seats[k].Some? && l.seats[k].value < |l.conns| && l.conns[l.seats[k].value].serial < |sys.clients|
  }

  function PlayerConn(sys: System, i: nat, k: nat): Conn
    requires SeatTaken(sys, i, k)
  {
    sys.server.lobbies[i].conns[sys.server.lobbies[i].seats[k].value]
  }

  function PlayerClient(sys: System, i: nat, k: nat): Client
    requires SeatTaken(sys, i, k)
  {
    sys.clients[PlayerConn(sys, i, k).serial]
  }

  // Seat k of a lobby that is playing.
  predicate SeatInGame(sys: System, i: nat, k: nat) {
    i < |sys.server.lobbies| && k < |sys.server.lobbies[i].seats| && sys.server.lobbies[i].isPlayingGame
  }

  // The player in seat k is connected.
  predicate SeatConnected(sys: System, i: nat, k: nat) {
    SeatTaken(sys, i, k) && PlayerConn(sys, i, k).connected
  }

  lemma SeatLinked(sys: System, i: nat, k: nat)
    requires Reachable(sys) && SeatConnected(sys, i, k)
    ensures var c := PlayerConn(sys, i, k);
            c.id == k + 1 && LinkOK(LinkOf(c, PlayerClient(sys, i, k)), c.id, sys.server.lobbies[i].game)
  {
    RoomReached(sys, i);
    assert SeatOK(sys.server.lobbies[i], sys.clients, k);
  }

  lemma SeatPlaying(sys: System, i: nat, k: nat)
    requires Reachable(sys) && SeatInGame(sys, i, k)
    ensures sys.server.lobbies[i].game.Some? && SeatConnected(sys, i, k)
    ensures var c := PlayerConn(sys, i, k);
            c.id == k + 1 && Playing(LinkOf(c, PlayerClient(sys, i, k)), c.id, sys.server.lobbies[i].game.value)
  {
    RoomReached(sys, i);
    EverybodyPlays(sys.server.lobbies[i], sys.clients);
    assert PlaysInSeat(sys.server.lobbies[i], sys.clients, k);
  }

  // While a lobby plays, every player's replica becomes the server's game in every field once
  // the messages in flight are read in order; every turn among them is replayed successfully.
  lemma ReplicaAgreement(sys: System, i: nat, k: nat)
    requires Reachable(sys) && SeatInGame(sys, i, k)
    ensures SeatConnected(sys, i, k)
    ensures Sync(PlayerClient(sys, i, k).game, PlayerConn(sys, i, k).id, PlayerConn(sys, i, k).out)
            == Some(sys.server.lobbies[i].game)
  {
    SeatPlaying(sys, i, k);
    SyncSift(PlayerClient(sys, i, k).game, PlayerConn(sys, i, k).id, PlayerConn(sys, i, k).out);
  }

  lemma {:induction false} ReadAllSyncs(k: Client, id: u8, ms: seq<Message>)
    requires k.playerId == id && k.mode != Crashed && Sync(k.game, id, ms).Some?
    ensures ReadAll(k, ms).mode != Crashed && ReadAll(k, ms).playerId == id
    ensures ReadAll(k, ms).game == Sync(k.game, id, ms).value
    decreases |ms|
  {
    if ms != [] {
      ReadAllSyncs(HandleRead(k, ms[0]), id, ms[1..]);
    }
  }

  // The same said of the client itself: once it has handled every message in flight, it has
  // not crashed and its game is the server's.
  lemma ClientsCatchUp(sys: System, i: nat, k: nat)
    requires Reachable(sys) && SeatInGame(sys, i, k)
    ensures SeatConnected(sys, i, k)
    ensures var client := ReadAll(PlayerClient(sys, i, k), PlayerConn(sys, i, k).out);
            client.mode != Crashed && client.playerId == k + 1 && client.game == sys.server.lobbies[i].game != None
  {
    SeatPlaying(sys, i, k);
    ReplicaAgreement(sys, i, k);
    ReadAllSyncs(PlayerClient(sys, i, k), PlayerConn(sys, i, k).id, PlayerConn(sys, i, k).out);
  }

  // Reading the message goes as its sender expects: the turns in it are good, and the winner
  // is the replica's own.
  predicate Follows(k: Client, m: Message) {
    HandleRead(k, m).mode != Crashed
    && (m.Update? ==> k.game.Some? && TakeTurn(k.game.value, m.id, m.column).1 == Success)
    && (m.ResultMessage? && m.result == Success ==>
          k.game.Some? && TakeTurn(k.game.value, k.playerId, m.column).1 == Success)
    && (m.GameEnd? ==> k.game.Some? && k.game.value.winner == m.winner)
  }

  // Whatever a connected player's client reads next, it can replay.
  lemma TrustIsJustified(sys: System, i: nat, k: nat)
    requires Reachable(sys) && SeatConnected(sys, i, k) && PlayerConn(sys, i, k).out != []
    ensures Follows(PlayerClient(sys, i, k), PlayerConn(sys, i, k).out[0])
  {
    SeatLinked(sys, i, k);
    LinkIsTrusted(PlayerConn(sys, i, k), PlayerClient(sys, i, k), sys.server.lobbies[i].game);
  }

  lemma LinkIsTrusted(c: Conn, k: Client, game: Option<Game>)
    requires LinkOK(LinkOf(c, k), c.id, game) && c.out != []
    ensures Follows(k, c.out[0])
  {
    var m, down := c.out[0], Sift(c.out);
    if !Noise(m) && !m.Connected? {
      assert down[0] == m;
      assert SyncOne(k.game, c.id, m).Some?;
    }
  }

  // ---------------------------------------------------------------- the turn

  function Questions(down: seq<Message>): nat {
    if down == [] then 0 else (if Question(down[0]) then 1 else 0) + Questions(down[1..])
  }

  function Moves(up: seq<Message>): nat {
    if up == [] then 0 else (if up[0].TurnMessage? then 1 else 0) + Moves(up[1..])
  }

  // A player's claims to move: questions in flight, a question put to the user, moves in flight.
  function TurnTokens(c: Conn, k: Client): nat {
    Questions(c.out) + (if k.mode == AskingMove then 1 else 0) + Moves(k.out)
  }

  lemma {:induction false} QuestionsSift(ms: seq<Message>)
    ensures Questions(Sift(ms)) == Questions(ms) && Moves(Sift(ms)) == Moves(ms)
  {
    if ms != [] {
      QuestionsSift(ms[1..]);
      if !Noise(ms[0]) {
        assert Sift(ms)[1..] == Sift(ms[1..]);
      }
    }
  }

  lemma {:induction false} QuestionsAfterNews(down: seq<Message>)
    ensures AllNews(down) ==> Questions(down) == 0
    ensures down != [] && AllNews(down[..|down| - 1]) && Question(down[|down| - 1]) ==> Questions(down) == 1
  {
    if down != [] {
      QuestionsAfterNews(down[1..]);
      if |down| > 1 {
        assert down[1..][..|down| - 2] == down[..|down| - 1][1..];
      }
    }
  }

  // While a lobby plays there is exactly one claim to move, and it is the current player's.
  lemma OneTurnToken(sys: System, i: nat, k: nat)
    requires Reachable(sys) && SeatInGame(sys, i, k)
    ensures SeatTaken(sys, i, k) && sys.server.lobbies[i].game.Some?
    ensures TurnTokens(PlayerConn(sys, i, k), PlayerClient(sys, i, k))
            == if sys.server.lobbies[i].game.value.currentPlayer == k + 1 then 1 else 0
  {
    SeatPlaying(sys, i, k);
    TokensOfPlayer(PlayerConn(sys, i, k), PlayerClient(sys, i, k), sys.server.lobbies[i].game.value);
  }

  lemma TokensOfPlayer(c: Conn, k: Client, g: Game)
    requires Playing(LinkOf(c, k), c.id, g)
    ensures TurnTokens(c, k) == if g.currentPlayer == c.id then 1 else 0
  {
    QuestionsSift(c.out);
    QuestionsSift(k.out);
    QuestionsAfterNews(Sift(c.out));
    assert Moves([]) == 0;
    if |Sift(k.out)| == 1 {
      assert Sift(k.out)[1..] == [];
    }
  }

  // A client of a running game that reads a question already has the server's game, and is
  // the player to move in it; its user is asked.
  lemma QuestionsAreFresh(sys: System, i: nat, k: nat)
    requires Reachable(sys) && SeatInGame(sys, i, k) && SeatTaken(sys, i, k)
    requires PlayerConn(sys, i, k).out != [] && Question(PlayerConn(sys, i, k).out[0])
    ensures PlayerClient(sys, i, k).game == sys.server.lobbies[i].game != None
    ensures sys.server.lobbies[i].game.value.currentPlayer == PlayerClient(sys, i, k).playerId == k + 1
    ensures HandleRead(PlayerClient(sys, i, k), PlayerConn(sys, i, k).out[0]).mode == AskingMove
  {
    SeatPlaying(sys, i, k);
    QuestionFindsGame(PlayerConn(sys, i, k), PlayerClient(sys, i, k), sys.server.lobbies[i].game.value);
  }

  lemma QuestionFindsGame(c: Conn, k: Client, g: Game)
    requires Playing(LinkOf(c, k), c.id, g) && c.out != [] && Question(c.out[0])
    ensures k.game == Some(g) && g.currentPlayer == k.playerId == c.id && HandleRead(k, c.out[0]).mode == AskingMove
  {
    assert LinkOf(c, k).down[0] == c.out[0];
    QuestionInLink(LinkOf(c, k), c.id, g);
  }

  lemma QuestionInLink(x: Link, id: u8, g: Game)
    requires Playing(x, id, g) && x.down != [] && Question(x.down[0])
    ensures x.client.game == Some(g) && g.currentPlayer == x.client.playerId == id
    ensures HandleRead(x.client, x.down[0]).mode == AskingMove
  {
    QuestionComesLast(x.down, x.client, id);
    QuestionSynced(x.client.game, id, x.down[0], g);
  }

  lemma QuestionSynced(replica: Option<Game>, id: u8, q: Message, g: Game)
    requires Question(q) && Sync(replica, id, [q]) == Some(Some(g))
    ensures replica == Some(g) && g.currentPlayer == id
    ensures q.TurnMessage? ==> q.id == id && q.column == MINUS_ONE
  {
    assert [q][1..] == [];
  }

  lemma QuestionComesLast(down: seq<Message>, k: Client, id: u8)
    requires down != [] && Question(down[0]) && (HoldsTurn(down, k, id) || Watches(down, k))
    ensures down == [down[0]] && HoldsTurn(down, k, id)
  {
    assert !News(down[0]);
  }

  // A move that the server reads during a game was made in this game by its current player,
  // who had seen everything; it is accepted unless its column is full.
  lemma MovesAreFresh(sys: System, i: nat, k: nat)
    requires Reachable(sys) && SeatInGame(sys, i, k) && SeatTaken(sys, i, k)
    requires PlayerClient(sys, i, k).out != [] && PlayerClient(sys, i, k).out[0].TurnMessage?
    ensures sys.server.lobbies[i].game.Some?
    ensures var m, c, g := PlayerClient(sys, i, k).out[0], PlayerConn(sys, i, k), sys.server.lobbies[i].game.value;
            && m.id == c.id == g.currentPlayer && OnRead(c, m).1 == TookTurn(m.column)
            && PlayerClient(sys, i, k).game == Some(g)
            && m.column < |g.stacks|
            && TakeTurn(g, m.id, m.column).1 == if |g.stacks[m.column]| < g.rows then Success else ColumnFull
  {
    SeatPlaying(sys, i, k);
    RunningGame(sys, i);
    MoveFitsGame(PlayerConn(sys, i, k), PlayerClient(sys, i, k), sys.server.lobbies[i].game.value);
  }

  lemma RunningGame(sys: System, i: nat)
    requires Reachable(sys) && i < |sys.server.lobbies| && sys.server.lobbies[i].isPlayingGame
    ensures sys.server.lobbies[i].game.Some?
    ensures InProgress(sys.server.lobbies[i].game.value, sys.server.lobbies[i].maxPlayers)
  {
    RoomReached(sys, i);
  }

  lemma MoveFitsGame(c: Conn, k: Client, g: Game)
    requires Playing(LinkOf(c, k), c.id, g) && k.out != [] && k.out[0].TurnMessage?
    requires Sound(g) && !Over(g)
    ensures var m := k.out[0];
            && m.id == c.id == g.currentPlayer && OnRead(c, m).1 == TookTurn(m.column) && k.game == Some(g)
            && m.column < |g.stacks|
            && TakeTurn(g, m.id, m.column).1 == if |g.stacks[m.column]| < g.rows then Success else ColumnFull
  {
    ReadingShortensLink(c, k);
    ReadingDuringGame(LinkOf(c, k), c.id, g);
  }

  // A move read between games gets an error and changes nothing else.
  lemma StaleMovesGetErrors(sys: System, i: nat, k: nat, column: u8, first: u8)
    requires Reachable(sys) && SeatConnected(sys, i, k) && !sys.server.lobbies[i].isPlayingGame && column != MINUS_ONE
    ensures var l, j, c := sys.server.lobbies[i], sys.server.lobbies[i].seats[k].value, PlayerConn(sys, i, k);
            ReadMessage(l, j, TurnMessage(c.id, column), first)
            == l.(conns := l.conns[j := Send(c, ResultMessage(Error, column))])
  {
    RoomReached(sys, i);
    StaleMoveInLobby(sys.server.lobbies[i], sys.server.lobbies[i].seats[k].value, column, first);
  }

  lemma StaleMoveInLobby(l: Lobby, j: nat, column: u8, first: u8)
    requires LobbyOK(l) && !l.isPlayingGame && j < |l.conns| && l.conns[j].connected && column != MINUS_ONE
    ensures ReadMessage(l, j, TurnMessage(l.conns[j].id, column), first)
            == l.(conns := l.conns[j := Send(l.conns[j], ResultMessage(Error, column))])
  {
    OnlyOneHears(l, j, column);
    MoveIsHandled(l, j, column, first);
  }

  // Only the connection itself is told about an unsuccessful move: whoever had its id before
  // is disconnected.
  lemma OnlyOneHears(l: Lobby, j: nat, column: u8)
    requires SeatsOK(l) && j < |l.conns| && l.conns[j].connected
    ensures SignalTurnResult(l.conns, l.conns[j].id, column, Error)
            == l.conns[j := Send(l.conns[j], ResultMessage(Error, column))]
  {
  }

  // ---------------------------------------------------------------- ready, and the end

  // numReady counts the ready players, and a lobby plays exactly while every seat is taken by
  // a ready player.
  lemma ReadyAccounting(sys: System, i: nat)
    requires Reachable(sys) && i < |sys.server.lobbies|
    ensures var l := sys.server.lobbies[i];
            && l.numReady == |ReadySeats(l)|
            && (l.isPlayingGame <==>
                  forall k | 0 <= k < |l.seats| :: SeatTaken(sys, i, k) && PlayerConn(sys, i, k).ready)
  {
    RoomReached(sys, i);
    ReadyInRoom(sys.server.lobbies[i], sys.clients);
    forall k | 0 <= k < |sys.server.lobbies[i].seats|
      ensures k in ReadySeats(sys.server.lobbies[i]) <==> SeatTaken(sys, i, k) && PlayerConn(sys, i, k).ready
    {
      assert SeatOK(sys.server.lobbies[i], sys.clients, k);
    }
  }

  lemma ReadyInRoom(l: Lobby, clients: ClientTable)
    requires RoomOK(l, clients)
    ensures l.numReady == |ReadySeats(l)|
    ensures l.isPlayingGame <==> forall k | 0 <= k < |l.seats| :: k in ReadySeats(l)
  {
    ReadyAtMostAll(l);
    FullMeansAllTaken(l);
    if forall k | 0 <= k < |l.seats| :: k in ReadySeats(l) {
      forall k | 0 <= k < |l.seats| ensures l.seats[k].Some? {
        assert k in ReadySeats(l);
      }
    }
  }

  // The winner announced by a move: that of the only lines on the board, or nobody because
  // the board is full without a line. The lobby ends the game on that very move.
  lemma WinnersAreEarned(l: Lobby, id: u8, column: u8)
    requires LobbyOK(l) && l.isPlayingGame
    ensures var g := TakeTurn(l.game.value, id, column).0;
            && (OnTakeTurn(l, id, column).isPlayingGame <==> !Over(g))
            && (Over(g) && g.winner == NO_WINNER ==> Full(g.stacks, g.rows) && !HasLine(g.stacks))
            && (g.winner != NO_WINNER ==> HasLine(g.stacks) && g.winner == id)
  {
    TurnKeepsPlay(l, id, column);
    TurnKeepsSettled(l.game.value, id, column);
  }

  // A game that ends because a player left has no winner.
  lemma AbortedGamesHaveNoWinner(sys: System, i: nat)
    requires Reachable(sys) && i < |sys.server.lobbies| && sys.server.lobbies[i].isPlayingGame
    ensures sys.server.lobbies[i].game.Some?
    ensures sys.server.lobbies[i].game.value.winner == NO_WINNER
    ensures sys.server.lobbies[i].game.value.numTurns < MIN_COLUMNS * MIN_ROWS
  {
    RoomReached(sys, i);
    var g := sys.server.lobbies[i].game.value;
    FullByCount(g.stacks, g.rows);
  }

  // ---------------------------------------------------------------- the server's part

  // The server's part of a run is a run of the server, so whatever holds of those holds here.
  lemma {:induction false} SystemRunsServer(steps: seq<Step>) returns (inputs: seq<Input>)
    ensures Run(steps).server == RunServer(inputs)
  {
    if steps == [] {
      inputs := [];
    } else {
      var before, last := steps[..|steps| - 1], steps[|steps| - 1];
      inputs := SystemRunsServer(before);
      StepIsInput(Run(before), last);
      var input := InputOf(Run(before), last);
      if input.Some? {
        OneMoreInput(inputs, input.value);
        inputs := inputs + [input.value];
      }
    }
  }

  lemma StepIsInput(sys: System, step: Step)
    ensures Next(sys, step).server ==
            if InputOf(sys, step).Some? then Serve(sys.server, InputOf(sys, step).value) else sys.server
  {
  }

  lemma OneMoreInput(inputs: seq<Input>, input: Input)
    ensures RunServer(inputs + [input]) == Serve(RunServer(inputs), input)
  {
    assert (inputs + [input])[..|inputs|] == inputs;
  }

  function InputOf(sys: System, step: Step): Option<Input> {
    match step
    case Arrives => Some(Arrival)
    case ServerReads(at, first) =>
      if CanServerRead(sys, at, first) then
        Some(Reads(at, sys.clients[ConnAt(sys.server, at).serial].out[0], first))
      else
        None
    case ReadFails(at) => Some(ReadError(at))
    case TimerFires(at) => Some(Timer(at))
    case QueueTimerFires => Some(QueueTimer)
    case ClientReads(at) =>
      if Present(sys, at) && ConnAt(sys.server, at).out != [] then Some(Input.Delivered(at)) else None
    case ClientReadies(_) => None
    case ClientMoves(_, _) => None
  }
}
