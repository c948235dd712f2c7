// A lobby together with the clients of its players, all of them console clients: what every
// event in the lobby keeps.
module Rooms {
  import opened Bytes
  import opened Rules
  import opened Messages
  import opened Connections
  import opened Clients
  import opened Lobbies
  import opened LobbyInvariants
  import opened Links

  type ClientTable = seq<Client>

  // Clients are indexed by the serial numbers of their connections.
  predicate SeatOK(l: Lobby, clients: ClientTable, i: nat)
    requires i < |l.seats|
  {
    l.seats[i].Some? ==>
      var j := l.seats[i].value;
      j < |l.conns| && l.conns[j].serial < |clients|
      && (if l.conns[j].connected then LinkOK(LinkOf(l.conns[j], clients[l.conns[j].serial]), l.conns[j].id, l.game)
          else !l.conns[j].ready)
  }

  function ReadySeats(l: Lobby): set<nat> {
    set i: nat | i < |l.seats| && l.seats[i].Some? && l.seats[i].value < |l.conns| && l.conns[l.seats[i].value].ready
  }

  // numReady counts the seats with a ready player, and a game is on exactly while every seat
  // has one.
  predicate ReadyCounted(l: Lobby) {
    l.numReady == |ReadySeats(l)| && (l.isPlayingGame <==> |ReadySeats(l)| == l.maxPlayers)
  }

  ghost predicate RoomOK(l: Lobby, clients: ClientTable) {
    LobbyOK(l) && ReadyCounted(l) && forall i | 0 <= i < |l.seats| :: SeatOK(l, clients, i)
  }

  // ---------------------------------------------------------------- connections and links

  lemma StartAtConn(c: Conn, k: Client, g: Game, numPlayers: u8)
    requires c.connected && c.ready && Resting(LinkOf(c, k), c.id) && !Over(g)
    requires NewGame(numPlayers, g.currentPlayer, Wrap(|g.stacks|), g.rows) == Some(g)
    ensures Playing(LinkOf(OnTurn(OnGameStart(c, numPlayers, g), g.currentPlayer), k), c.id, g)
  {
    var m := GameStart(numPlayers, Wrap(|g.stacks|), g.rows, g.currentPlayer);
    SendingExtendsLink(c, k, m);
    SendingExtendsLink(OnGameStart(c, numPlayers, g), k, TurnMessage(c.id, MINUS_ONE));
    StartKeepsLink(LinkOf(c, k), c.id, g, m);
    assert [m] + [] == [m];
  }

  lemma AcceptedAtConn(c: Conn, k: Client, g: Game, column: u8)
    requires c.connected && Informed(LinkOf(c, k), c.id, g)
    requires TakeTurn(g, g.currentPlayer, column).1 == Success
    ensures var after, told := TakeTurn(g, g.currentPlayer, column).0, OnUpdate(c, g.currentPlayer, column, Success);
            && (Over(after) ==> Ending(LinkOf(OnGameEnd(told, after.winner), k), c.id))
            && (!Over(after) ==> Playing(LinkOf(OnTurn(told, after.currentPlayer), k), c.id, after))
  {
    var after, told := TakeTurn(g, g.currentPlayer, column).0, OnUpdate(c, g.currentPlayer, column, Success);
    SendingExtendsLink(c, k, NewsFor(c.id, g.currentPlayer, column));
    if Over(after) {
      SendingExtendsLink(told.(ready := false), k, GameEnd(after.winner));
      FinalMoveKeepsLink(LinkOf(c, k), c.id, g, column);
    } else {
      SendingExtendsLink(told, k, TurnMessage(c.id, MINUS_ONE));
      AcceptedKeepsLink(LinkOf(c, k), c.id, g, column);
      var down := LinkOf(told, k).down;
      assert down + [] == down;
    }
  }

  lemma AbortAtConn(c: Conn, k: Client, g: Game)
    requires c.connected && Playing(LinkOf(c, k), c.id, g)
    ensures Ending(LinkOf(OnGameEnd(c, g.winner), k), c.id)
  {
    SendingExtendsLink(c.(ready := false), k, GameEnd(g.winner));
    AbortKeepsLink(LinkOf(c, k), c.id, g);
  }

  lemma RejectedAtConn(c: Conn, k: Client, g: Game, result: TurnResult, column: u8)
    requires c.connected && Informed(LinkOf(c, k), c.id, g) && c.id == g.currentPlayer && !Over(g)
    requires LinkOf(c, k).down == [] && result != Success && result != Error
    ensures Playing(LinkOf(OnUpdate(c, c.id, column, result), k), c.id, g)
  {
    SendingExtendsLink(c, k, ResultMessage(result, column));
    RejectedKeepsLink(LinkOf(c, k), c.id, g, result, column);
  }

  // ---------------------------------------------------------------- seats

  lemma ReadyAtMostAll(l: Lobby)
    requires SeatsOK(l)
    ensures |ReadySeats(l)| <= l.numPlayers <= l.maxPlayers
    ensures |ReadySeats(l)| == l.maxPlayers <==> IsFull(l) && forall i | 0 <= i < |l.seats| :: i in ReadySeats(l)
  {
    assert ReadySeats(l) <= Taken(l.seats);
    CardinalityLe(ReadySeats(l), Taken(l.seats));
    AtMostAllSeats(l.seats);
    FullMeansAllTaken(l);
    if |ReadySeats(l)| == l.maxPlayers {
      SubsetOfSameSize(ReadySeats(l), Taken(l.seats));
    }
    if IsFull(l) && forall i | 0 <= i < |l.seats| :: i in ReadySeats(l) {
      assert ReadySeats(l) == Taken(l.seats);
    }
  }

  // The player in seat i plays, with everything in order between server and client.
  ghost predicate PlaysInSeat(l: Lobby, clients: ClientTable, i: nat) {
    l.game.Some? && i < |l.seats| && l.seats[i].Some?
    && var j := l.seats[i].value;
       j < |l.conns| && l.conns[j].connected && l.conns[j].ready && l.conns[j].id == i + 1
       && l.conns[j].serial < |clients|
       && Playing(LinkOf(l.conns[j], clients[l.conns[j].serial]), l.conns[j].id, l.game.value)
  }

  // In a playing lobby every seat holds a connected, ready player.
  lemma EverybodyPlays(l: Lobby, clients: ClientTable)
    requires RoomOK(l, clients) && l.isPlayingGame
    ensures forall i | 0 <= i < |l.seats| :: PlaysInSeat(l, clients, i)
  {
    ReadyAtMostAll(l);
    forall i | 0 <= i < |l.seats| ensures PlaysInSeat(l, clients, i) {
      assert i in ReadySeats(l);
      assert SeatOK(l, clients, i);
    }
  }

  // ---------------------------------------------------------------- the server reads

  predicate DistinctSerials(l: Lobby) {
    forall j, j' | 0 <= j < |l.conns| && 0 <= j' < |l.conns| :: l.conns[j].serial == l.conns[j'].serial ==> j == j'
  }

  // A connected player whose client has something to read on its way.
  ghost predicate CanRead(l: Lobby, clients: ClientTable, j: nat) {
    RoomOK(l, clients) && DistinctSerials(l)
    && j < |l.conns| && l.conns[j].connected && l.conns[j].serial < |clients|
    && clients[l.conns[j].serial].out != []
  }

  function HeadOf(l: Lobby, clients: ClientTable, j: nat): Message
    requires j < |l.conns| && l.conns[j].serial < |clients| && clients[l.conns[j].serial].out != []
  {
    clients[l.conns[j].serial].out[0]
  }

  function AfterRead(l: Lobby, clients: ClientTable, j: nat): ClientTable
    requires j < |l.conns| && l.conns[j].serial < |clients| && clients[l.conns[j].serial].out != []
  {
    clients[l.conns[j].serial := TakeOff(clients[l.conns[j].serial])]
  }

  lemma OwnSeat(l: Lobby, clients: ClientTable, j: nat)
    requires RoomOK(l, clients) && j < |l.conns| && l.conns[j].connected
    ensures var i := l.conns[j].id - 1;
            && 0 <= i < |l.seats| && l.seats[i] == Some(j) && SeatOK(l, clients, i)
            && forall k | 0 <= k < |l.seats| && k != i :: l.seats[k] != Some(j)
  {
    var i := l.conns[j].id - 1;
    assert SeatOK(l, clients, i);
  }

  // One connection and its client change, and stay in order.
  lemma OneSeatChanges(l: Lobby, clients: ClientTable, j: nat, c: Conn, k: Client)
    requires RoomOK(l, clients) && DistinctSerials(l) && j < |l.conns| && l.conns[j].serial < |clients|
    requires c.serial == l.conns[j].serial && c.id == l.conns[j].id && c.ready == l.conns[j].ready
    requires c.connected == l.conns[j].connected
    requires c.connected && LinkOK(LinkOf(l.conns[j], clients[c.serial]), c.id, l.game) ==>
               LinkOK(LinkOf(c, k), c.id, l.game)
    ensures RoomOK(l.(conns := l.conns[j := c]), clients[c.serial := k])
  {
    var after, table := l.(conns := l.conns[j := c]), clients[c.serial := k];
    SeatingKeepsSeats(l, after);
    assert ReadySeats(after) == ReadySeats(l);
    forall i | 0 <= i < |after.seats| ensures SeatOK(after, table, i) {
      OneSeatKeepsSeat(l, clients, j, c, k, i);
    }
  }

  lemma OneSeatKeepsSeat(l: Lobby, clients: ClientTable, j: nat, c: Conn, k: Client, i: nat)
    requires DistinctSerials(l) && j < |l.conns| && l.conns[j].serial < |clients|
    requires i < |l.seats| && SeatOK(l, clients, i)
    requires c.serial == l.conns[j].serial && c.id == l.conns[j].id && c.ready == l.conns[j].ready
    requires c.connected == l.conns[j].connected
    requires c.connected && LinkOK(LinkOf(l.conns[j], clients[c.serial]), c.id, l.game) ==>
               LinkOK(LinkOf(c, k), c.id, l.game)
    ensures SeatOK(l.(conns := l.conns[j := c]), clients[c.serial := k], i)
  {
  }

  lemma ReadingNoiseKeepsRoom(l: Lobby, clients: ClientTable, j: nat, first: u8)
    requires CanRead(l, clients, j) && Noise(HeadOf(l, clients, j))
    ensures RoomOK(ReadMessage(l, j, HeadOf(l, clients, j), first), AfterRead(l, clients, j))
  {
    var c, k := l.conns[j], clients[l.conns[j].serial];
    ReadingShortensLink(c, k);
    OneSeatChanges(l, clients, j, OnRead(c, k.out[0]).0, TakeOff(k));
  }

  lemma MoveIsHandled(l: Lobby, j: nat, column: u8, first: u8)
    requires j < |l.conns| && column != MINUS_ONE && (l.isPlayingGame ==> l.game.Some?)
    ensures ReadMessage(l, j, TurnMessage(l.conns[j].id, column), first) == OnTakeTurn(l, l.conns[j].id, column)
  {
    assert l.conns[j := l.conns[j]] == l.conns;
  }

  lemma MinusOneIsIgnored(l: Lobby, j: nat, first: u8)
    requires j < |l.conns| && (l.isPlayingGame ==> l.game.Some?)
    ensures ReadMessage(l, j, TurnMessage(l.conns[j].id, MINUS_ONE), first) == l
  {
    assert l.conns[j := l.conns[j]] == l.conns;
    assert l.(conns := l.conns) == l;
  }

  // A stale move is answered with an error, or ignored if its column is -1 in eight bits.
  lemma StaleMoveKeepsRoom(l: Lobby, clients: ClientTable, j: nat, first: u8)
    requires CanRead(l, clients, j) && !l.isPlayingGame && IsMove(HeadOf(l, clients, j), l.conns[j].id)
    ensures RoomOK(ReadMessage(l, j, HeadOf(l, clients, j), first), AfterRead(l, clients, j))
  {
    var column := HeadOf(l, clients, j).column;
    StaleMoveIsTaken(l, clients, j);
    if column == MINUS_ONE {
      MinusOneIsIgnored(l, j, first);
    } else {
      MoveIsHandled(l, j, column, first);
      ErrorKeepsRoom(l, AfterRead(l, clients, j), l.conns[j].id, column);
    }
  }

  lemma StaleMoveIsTaken(l: Lobby, clients: ClientTable, j: nat)
    requires CanRead(l, clients, j) && !l.isPlayingGame && IsMove(HeadOf(l, clients, j), l.conns[j].id)
    ensures RoomOK(l, AfterRead(l, clients, j))
  {
    var c, k := l.conns[j], clients[l.conns[j].serial];
    OwnSeat(l, clients, j);
    ReadingShortensLink(c, k);
    ReadingBetweenGames(LinkOf(c, k), c.id);
    OneSeatChanges(l, clients, j, c, TakeOff(k));
    assert l.(conns := l.conns[j := c]) == l;
  }

  lemma ErrorKeepsRoom(l: Lobby, clients: ClientTable, id: u8, column: u8)
    requires RoomOK(l, clients)
    ensures RoomOK(l.(conns := SignalTurnResult(l.conns, id, column, Error)), clients)
  {
    var after := l.(conns := SignalTurnResult(l.conns, id, column, Error));
    SeatingKeepsSeats(l, after);
    assert ReadySeats(after) == ReadySeats(l);
    forall i | 0 <= i < |after.seats| ensures SeatOK(after, clients, i) {
      ErrorKeepsSeat(l, clients, i, id, column);
    }
  }

  lemma ErrorKeepsSeat(l: Lobby, clients: ClientTable, i: nat, id: u8, column: u8)
    requires i < |l.seats| && SeatOK(l, clients, i)
    ensures SeatOK(l.(conns := SignalTurnResult(l.conns, id, column, Error)), clients, i)
  {
    if l.seats[i].Some? && l.conns[l.seats[i].value].connected {
      var c := l.conns[l.seats[i].value];
      SendingExtendsLink(c, clients[c.serial], ResultMessage(Error, column));
    }
  }

  // A ready player is counted; nothing else changes yet.
  ghost predicate Counted(l: Lobby, clients: ClientTable) {
    SeatsOK(l) && PlayOK(l) && !l.isPlayingGame && l.numReady == |ReadySeats(l)|
    && forall i | 0 <= i < |l.seats| :: SeatOK(l, clients, i)
  }

  function CountReady(l: Lobby, j: nat): Lobby
    requires j < |l.conns|
  {
    l.(numReady := Wrap(l.numReady + 1), conns := l.conns[j := l.conns[j].(ready := true)])
  }

  lemma ReadyIsCounted(l: Lobby, clients: ClientTable, j: nat)
    requires CanRead(l, clients, j) && !l.isPlayingGame && HeadOf(l, clients, j) == Ready(l.conns[j].id)
    ensures Counted(CountReady(l, j), AfterRead(l, clients, j))
  {
    var after, table := CountReady(l, j), AfterRead(l, clients, j);
    SeatingKeepsSeats(l, after);
    ReadyFromResting(l, clients, j);
    ReadyIsAdded(l, clients, j);
    forall i | 0 <= i < |after.seats| ensures SeatOK(after, table, i) {
      ReadyKeepsSeat(l, clients, j, i);
    }
  }

  lemma ReadyKeepsSeat(l: Lobby, clients: ClientTable, j: nat, i: nat)
    requires j < |l.conns| && l.conns[j].connected && i < |l.seats| && SeatOK(l, clients, i) && DistinctSerials(l)
    requires l.conns[j].serial < |clients| && clients[l.conns[j].serial].out != [] && l.game.None?
    requires var c := CountReady(l, j).conns[j]; Resting(LinkOf(c, AfterRead(l, clients, j)[c.serial]), c.id)
    ensures SeatOK(CountReady(l, j), AfterRead(l, clients, j), i)
  {
  }

  lemma ReadyFromResting(l: Lobby, clients: ClientTable, j: nat)
    requires CanRead(l, clients, j) && !l.isPlayingGame && HeadOf(l, clients, j) == Ready(l.conns[j].id)
    ensures var c := CountReady(l, j).conns[j];
            !l.conns[j].ready && Resting(LinkOf(c, AfterRead(l, clients, j)[c.serial]), c.id)
  {
    var c, k := l.conns[j], clients[l.conns[j].serial];
    OwnSeat(l, clients, j);
    ReadingShortensLink(c, k);
    ReadingBetweenGames(LinkOf(c, k), c.id);
  }

  lemma ReadyIsAdded(l: Lobby, clients: ClientTable, j: nat)
    requires RoomOK(l, clients) && j < |l.conns| && l.conns[j].connected && !l.conns[j].ready
    ensures CountReady(l, j).numReady == |ReadySeats(CountReady(l, j))|
  {
    OwnSeat(l, clients, j);
    SeatingKeepsSeats(l, CountReady(l, j));
    ReadyAtMostAll(CountReady(l, j));
    OneMoreReady(l, j, l.conns[j].id - 1);
  }

  lemma OneMoreReady(l: Lobby, j: nat, i: nat)
    requires j < |l.conns| && !l.conns[j].ready && l.numReady == |ReadySeats(l)|
    requires i < |l.seats| && l.seats[i] == Some(j) && forall k | 0 <= k < |l.seats| && k != i :: l.seats[k] != Some(j)
    requires |ReadySeats(CountReady(l, j))| < 0x100
    ensures CountReady(l, j).numReady == |ReadySeats(CountReady(l, j))|
  {
    ReadySeatsGrow(l, j, i);
  }

  lemma ReadySeatsGrow(l: Lobby, j: nat, i: nat)
    requires j < |l.conns| && !l.conns[j].ready && i < |l.seats| && l.seats[i] == Some(j)
    requires forall k | 0 <= k < |l.seats| && k != i :: l.seats[k] != Some(j)
    ensures |ReadySeats(CountReady(l, j))| == |ReadySeats(l)| + 1
  {
    assert ReadySeats(CountReady(l, j)) == ReadySeats(l) + {i};
  }

  // The game starts exactly when the last seat's player is ready.
  lemma CountedStarts(l: Lobby, clients: ClientTable, first: u8)
    requires Counted(l, clients) && 1 <= first <= l.maxPlayers
    ensures RoomOK(StartIfReady(l, first), clients)
  {
    ReadyAtMostAll(l);
    if AllPlayersAreReady(l) && IsFull(l) {
      StartKeepsRoom(l, clients, first);
    }
  }

  lemma StartKeepsRoom(l: Lobby, clients: ClientTable, first: u8)
    requires Counted(l, clients) && 1 <= first <= l.maxPlayers && IsFull(l) && |ReadySeats(l)| == l.maxPlayers
    ensures RoomOK(StartGame(l.(game := Some(LobbyGame(l.maxPlayers, first)))), clients)
  {
    var after := StartGame(l.(game := Some(LobbyGame(l.maxPlayers, first))));
    LobbyGameStarts(l.maxPlayers, first);
    SeatingKeepsSeats(l, after);
    assert ReadySeats(after) == ReadySeats(l);
    ReadyAtMostAll(l);
    forall i | 0 <= i < |after.seats| ensures SeatOK(after, clients, i) {
      assert i in ReadySeats(l) && SeatOK(l, clients, i);
      StartKeepsSeat(l, clients, first, i);
    }
  }

  lemma StartKeepsSeat(l: Lobby, clients: ClientTable, first: u8, i: nat)
    requires l.maxPlayers >= 2 && l.numPlayers == l.maxPlayers && 1 <= first <= l.maxPlayers
    requires PlayOK(l) && !l.isPlayingGame
    requires i in ReadySeats(l) && SeatOK(l, clients, i)
    ensures SeatOK(StartGame(l.(game := Some(LobbyGame(l.maxPlayers, first)))), clients, i)
  {
    var c := l.conns[l.seats[i].value];
    LobbyGameStarts(l.maxPlayers, first);
    StartAtConn(c, clients[c.serial], LobbyGame(l.maxPlayers, first), l.numPlayers);
  }

  lemma ReadyKeepsRoom(l: Lobby, clients: ClientTable, j: nat, first: u8)
    requires CanRead(l, clients, j) && !l.isPlayingGame && HeadOf(l, clients, j) == Ready(l.conns[j].id)
    requires 1 <= first <= l.maxPlayers
    ensures RoomOK(ReadMessage(l, j, HeadOf(l, clients, j), first), AfterRead(l, clients, j))
  {
    ReadyIsCounted(l, clients, j);
    CountedStarts(CountReady(l, j), AfterRead(l, clients, j), first);
    ReadyIsFound(l, j);
    ReadyIsHandled(l, j, first);
  }

  lemma ReadyIsFound(l: Lobby, j: nat)
    requires SeatsOK(l) && j < |l.conns| && l.conns[j].connected
    ensures FindPlayer(l.(conns := l.conns[j := l.conns[j].(ready := true)]), l.conns[j].id, 0) < |l.seats|
  {
    var read := l.(conns := l.conns[j := l.conns[j].(ready := true)]);
    SeatingKeepsSeats(l, read);
    FoundAtOwnSeat(read, j);
  }

  lemma ReadyIsHandled(l: Lobby, j: nat, first: u8)
    requires j < |l.conns| && (l.isPlayingGame ==> l.game.Some?)
    requires FindPlayer(l.(conns := l.conns[j := l.conns[j].(ready := true)]), l.conns[j].id, 0) < |l.seats|
    ensures ReadMessage(l, j, Ready(l.conns[j].id), first) == StartIfReady(CountReady(l, j), first)
  {
  }

  // ---------------------------------------------------------------- moves of a running game

  // Who is informed once connection j's move has been read: everybody.
  lemma MoveInforms(l: Lobby, clients: ClientTable, j: nat)
    requires CanRead(l, clients, j) && l.isPlayingGame && !Noise(HeadOf(l, clients, j))
    ensures var g, m, c := l.game.value, HeadOf(l, clients, j), l.conns[j];
            && IsMove(m, c.id) && c.id == g.currentPlayer && m.column < |g.stacks| && m.column != MINUS_ONE
            && LinkOf(c, clients[c.serial]).down == []
    ensures forall i | 0 <= i < |l.seats| :: InformedInSeat(l, AfterRead(l, clients, j), i)
  {
    var c, k, g := l.conns[j], clients[l.conns[j].serial], l.game.value;
    OwnSeat(l, clients, j);
    EverybodyPlays(l, clients);
    assert PlaysInSeat(l, clients, c.id - 1);
    ReadingShortensLink(c, k);
    ReadingDuringGame(LinkOf(c, k), c.id, g);
    forall i | 0 <= i < |l.seats| ensures InformedInSeat(l, AfterRead(l, clients, j), i) {
      assert PlaysInSeat(l, clients, i);
      var d := l.conns[l.seats[i].value];
      MoverIsInformed(LinkOf(d, clients[d.serial]), d.id, g);
    }
  }

  ghost predicate InformedInSeat(l: Lobby, clients: ClientTable, i: nat) {
    l.game.Some? && i < |l.seats| && l.seats[i].Some?
    && var j := l.seats[i].value;
       j < |l.conns| && l.conns[j].connected && l.conns[j].ready && l.conns[j].id == i + 1
       && l.conns[j].serial < |clients|
       && Informed(LinkOf(l.conns[j], clients[l.conns[j].serial]), l.conns[j].id, l.game.value)
  }

  lemma AcceptedKeepsRoom(l: Lobby, clients: ClientTable, column: u8)
    requires LobbyOK(l) && l.isPlayingGame && ReadyCounted(l)
    requires forall i | 0 <= i < |l.seats| :: InformedInSeat(l, clients, i)
    requires TakeTurn(l.game.value, l.game.value.currentPlayer, column).1 == Success
    ensures RoomOK(OnTakeTurn(l, l.game.value.currentPlayer, column), clients)
  {
    var g := l.game.value;
    var after := OnTakeTurn(l, g.currentPlayer, column);
    OnTakeTurnKeeps(l, g.currentPlayer, column);
    if Over(TakeTurn(g, g.currentPlayer, column).0) {
      assert ReadySeats(after) == {};
    } else {
      assert ReadySeats(after) == ReadySeats(l);
    }
    forall i | 0 <= i < |after.seats| ensures SeatOK(after, clients, i) {
      assert InformedInSeat(l, clients, i);
      var c := l.conns[l.seats[i].value];
      AcceptedAtConn(c, clients[c.serial], g, column);
    }
  }

  lemma RejectedKeepsRoom(l: Lobby, clients: ClientTable, j: nat, column: u8)
    requires CanRead(l, clients, j) && l.isPlayingGame && HeadOf(l, clients, j) == TurnMessage(l.conns[j].id, column)
    requires TakeTurn(l.game.value, l.conns[j].id, column).1 != Success
    ensures RoomOK(OnTakeTurn(l, l.conns[j].id, column), AfterRead(l, clients, j))
  {
    var after := OnTakeTurn(l, l.conns[j].id, column);
    OnTakeTurnKeeps(l, l.conns[j].id, column);
    assert ReadySeats(after) == ReadySeats(l);
    forall i | 0 <= i < |after.seats| ensures SeatOK(after, AfterRead(l, clients, j), i) {
      RejectedKeepsSeat(l, clients, j, column, i);
    }
  }

  lemma RejectedKeepsSeat(l: Lobby, clients: ClientTable, j: nat, column: u8, i: nat)
    requires CanRead(l, clients, j) && l.isPlayingGame && HeadOf(l, clients, j) == TurnMessage(l.conns[j].id, column)
    requires TakeTurn(l.game.value, l.conns[j].id, column).1 != Success && i < |l.seats|
    ensures SeatOK(OnTakeTurn(l, l.conns[j].id, column), AfterRead(l, clients, j), i)
  {
    MoveInforms(l, clients, j);
    OwnSeat(l, clients, j);
    assert InformedInSeat(l, AfterRead(l, clients, j), i) && SeatOK(l, clients, i);
    RejectedInSeat(l, AfterRead(l, clients, j), i, l.conns[j].id, column);
  }

  lemma RejectedInSeat(l: Lobby, table: ClientTable, i: nat, id: u8, column: u8)
    requires InformedInSeat(l, table, i) && l.isPlayingGame && InProgress(l.game.value, l.maxPlayers)
    requires id == l.game.value.currentPlayer && TakeTurn(l.game.value, id, column).1 != Success
    requires var c := l.conns[l.seats[i].value];
             if c.id == id then LinkOf(c, table[c.serial]).down == []
             else Playing(LinkOf(c, table[c.serial]), c.id, l.game.value)
    ensures SeatOK(OnTakeTurn(l, id, column), table, i)
  {
    var g, c := l.game.value, l.conns[l.seats[i].value];
    if c.id == id {
      RejectedAtConn(c, table[c.serial], g, TakeTurn(g, id, column).1, column);
    }
  }

  lemma MoveKeepsRoom(l: Lobby, clients: ClientTable, j: nat, first: u8)
    requires CanRead(l, clients, j) && l.isPlayingGame && !Noise(HeadOf(l, clients, j))
    ensures RoomOK(ReadMessage(l, j, HeadOf(l, clients, j), first), AfterRead(l, clients, j))
  {
    MoveInforms(l, clients, j);
    var column := HeadOf(l, clients, j).column;
    HandledMoveKeepsRoom(l, clients, j, column);
    MoveIsHandled(l, j, column, first);
  }

  lemma HandledMoveKeepsRoom(l: Lobby, clients: ClientTable, j: nat, column: u8)
    requires CanRead(l, clients, j) && l.isPlayingGame && HeadOf(l, clients, j) == TurnMessage(l.conns[j].id, column)
    ensures RoomOK(OnTakeTurn(l, l.conns[j].id, column), AfterRead(l, clients, j))
  {
    MoveInforms(l, clients, j);
    if TakeTurn(l.game.value, l.conns[j].id, column).1 == Success {
      AcceptedKeepsRoom(l, AfterRead(l, clients, j), column);
    } else {
      RejectedKeepsRoom(l, clients, j, column);
    }
  }

  // Whatever the server reads next from a connected player.
  lemma ReadingKeepsRoom(l: Lobby, clients: ClientTable, j: nat, first: u8)
    requires CanRead(l, clients, j) && 1 <= first <= l.maxPlayers
    ensures RoomOK(ReadMessage(l, j, HeadOf(l, clients, j), first), AfterRead(l, clients, j))
  {
    var c, k := l.conns[j], clients[l.conns[j].serial];
    if Noise(HeadOf(l, clients, j)) {
      ReadingNoiseKeepsRoom(l, clients, j, first);
    } else if l.isPlayingGame {
      MoveKeepsRoom(l, clients, j, first);
    } else {
      OwnSeat(l, clients, j);
      ReadingShortensLink(c, k);
      ReadingBetweenGames(LinkOf(c, k), c.id);
      if HeadOf(l, clients, j) == Ready(c.id) {
        ReadyKeepsRoom(l, clients, j, first);
      } else {
        StaleMoveKeepsRoom(l, clients, j, first);
      }
    }
  }

  // ---------------------------------------------------------------- late reads

  // What connection j, given up, still reads concerns nobody else: no seated id is counted
  // ready, and no move is made in a running game.
  predicate LateIsHarmless(l: Lobby, j: nat, m: Message)
    requires j < |l.conns|
  {
    var c := l.conns[j];
    && (OnRead(c, m).1 == Readied ==> 1 <= c.id <= |l.seats| && l.seats[c.id - 1] == None)
    && (OnRead(c, m).1.TookTurn? ==> !l.isPlayingGame)
  }

  ghost predicate CanReadLate(l: Lobby, clients: ClientTable, j: nat) {
    RoomOK(l, clients) && DistinctSerials(l)
    && j < |l.conns| && !l.conns[j].connected && l.conns[j].serial < |clients|
    && clients[l.conns[j].serial].out != [] && LateIsHarmless(l, j, HeadOf(l, clients, j))
  }

  lemma LateReadKeepsRoom(l: Lobby, clients: ClientTable, j: nat, first: u8)
    requires CanReadLate(l, clients, j)
    ensures RoomOK(ReadMessage(l, j, HeadOf(l, clients, j), first), AfterRead(l, clients, j))
  {
    var c, m := l.conns[j], HeadOf(l, clients, j);
    if m.Ready? && m.id == c.id {
      LateReadyKeepsRoom(l, clients, j, first);
    } else if OnRead(c, m).1.TookTurn? {
      OneSeatChanges(l, clients, j, c, TakeOff(clients[c.serial]));
      assert l.(conns := l.conns[j := c]) == l;
      MoveIsHandled(l, j, m.column, first);
      ErrorKeepsRoom(l, AfterRead(l, clients, j), c.id, m.column);
    } else {
      OneSeatChanges(l, clients, j, OnRead(c, m).0, TakeOff(clients[c.serial]));
    }
  }

  // The ready flag of a connection without a seat does not matter.
  lemma LateReadyKeepsRoom(l: Lobby, clients: ClientTable, j: nat, first: u8)
    requires CanReadLate(l, clients, j) && HeadOf(l, clients, j) == Ready(l.conns[j].id)
    ensures RoomOK(ReadMessage(l, j, HeadOf(l, clients, j), first), AfterRead(l, clients, j))
  {
    var c := l.conns[j].(ready := true);
    var read := l.(conns := l.conns[j := c]);
    SeatingKeepsSeats(l, read);
    FoundAtOwnSeat(read, j);
    assert ReadMessage(l, j, Ready(c.id), first) == read;
    UnseatedChanges(l, clients, j, c, TakeOff(clients[c.serial]));
  }

  // A connection without a seat and its client change.
  lemma UnseatedChanges(l: Lobby, clients: ClientTable, j: nat, c: Conn, k: Client)
    requires RoomOK(l, clients) && DistinctSerials(l) && j < |l.conns| && l.conns[j].serial < |clients|
    requires l.seats[l.conns[j].id - 1] == None && !c.connected
    requires c.serial == l.conns[j].serial && c.id == l.conns[j].id && c.connected == l.conns[j].connected
    ensures RoomOK(l.(conns := l.conns[j := c]), clients[c.serial := k])
  {
    var after, table := l.(conns := l.conns[j := c]), clients[c.serial := k];
    SeatingKeepsSeats(l, after);
    assert forall i | 0 <= i < |l.seats| :: l.seats[i] != Some(j);
    assert ReadySeats(after) == ReadySeats(l);
    forall i | 0 <= i < |after.seats| ensures SeatOK(after, table, i) {
      assert SeatOK(l, clients, i);
    }
  }

  // ---------------------------------------------------------------- the client reads and answers

  lemma DeliveryKeepsRoom(l: Lobby, clients: ClientTable, j: nat)
    requires RoomOK(l, clients) && DistinctSerials(l) && j < |l.conns| && l.conns[j].serial < |clients|
    requires l.conns[j].out != []
    ensures var c := l.conns[j];
            RoomOK(l.(conns := l.conns[j := c.(out := c.out[1..])]),
                   clients[c.serial := HandleRead(clients[c.serial], c.out[0])])
  {
    var c, k := l.conns[j], clients[l.conns[j].serial];
    DeliveryShortensLink(c, k);
    if c.connected && LinkOK(LinkOf(c, k), c.id, l.game) && !Noise(c.out[0]) {
      DeliveryKeepsLink(LinkOf(c, k), c.id, l.game);
    }
    OneSeatChanges(l, clients, j, c.(out := c.out[1..]), HandleRead(k, c.out[0]));
  }

  lemma AnswerKeepsRoom(l: Lobby, clients: ClientTable, j: nat, column: u8)
    requires RoomOK(l, clients) && DistinctSerials(l) && j < |l.conns| && l.conns[j].serial < |clients|
    ensures var n := l.conns[j].serial;
            RoomOK(l, clients[n := ToggleReady(clients[n])]) && RoomOK(l, clients[n := SendTurn(clients[n], column)])
  {
    var c, k := l.conns[j], clients[l.conns[j].serial];
    AnsweringExtendsLink(c, k, column);
    if c.connected && LinkOK(LinkOf(c, k), c.id, l.game) {
      ReadyingKeepsLink(LinkOf(c, k), c.id, l.game);
      MovingKeepsLink(LinkOf(c, k), c.id, l.game, column);
    }
    assert l.(conns := l.conns[j := c]) == l;
    OneSeatChanges(l, clients, j, c, ToggleReady(k));
    OneSeatChanges(l, clients, j, c, SendTurn(k, column));
  }

  // A client of some other lobby, or of the queue, changes.
  lemma StrangerKeepsRoom(l: Lobby, clients: ClientTable, n: nat, k: Client)
    requires RoomOK(l, clients) && n < |clients|
    requires forall j | 0 <= j < |l.conns| :: l.conns[j].serial != n
    ensures RoomOK(l, clients[n := k])
  {
    var table := clients[n := k];
    forall i | 0 <= i < |l.seats| ensures SeatOK(l, table, i) {
      assert SeatOK(l, clients, i);
    }
  }

  lemma NewClientKeepsRoom(l: Lobby, clients: ClientTable, k: Client)
    requires RoomOK(l, clients)
    ensures RoomOK(l, clients + [k])
  {
    var table := clients + [k];
    forall i | 0 <= i < |l.seats| ensures SeatOK(l, table, i) {
      assert SeatOK(l, clients, i);
    }
  }

  // ---------------------------------------------------------------- joining, timers, losses

  // A connection nobody has seated yet, and its client.
  predicate Fresh(c: Conn, clients: ClientTable) {
    c.id == 0 && !c.ready && c.serial < |clients| && Sift(c.out) == []
    && clients[c.serial].mode == NotSeated && Sift(clients[c.serial].out) == []
  }

  lemma JoinKeepsRoom(l: Lobby, clients: ClientTable, c: Conn)
    requires RoomOK(l, clients) && !IsFull(l) && Fresh(c, clients)
    ensures RoomOK(AddPlayer(l, c), clients)
  {
    var after, k := AddPlayer(l, c), FirstFree(l.seats, 0);
    AddPlayerKeeps(l, c);
    assert ReadySeats(after) == ReadySeats(l);
    forall i | 0 <= i < |after.seats| ensures SeatOK(after, clients, i) {
      assert SeatOK(l, clients, i);
      if c.connected {
        SendingExtendsLink(c.(id := k + 1), clients[c.serial], Connected(k + 1));
      }
    }
  }

  lemma NewRoom(maxPlayers: u8, clients: ClientTable)
    requires maxPlayers >= 2
    ensures RoomOK(StartedLobby(maxPlayers), clients)
  {
    NewLobbyInOrder(maxPlayers);
    assert ReadySeats(StartedLobby(maxPlayers)) == {};
  }

  lemma PingKeepsRoom(l: Lobby, clients: ClientTable, j: nat)
    requires RoomOK(l, clients) && DistinctSerials(l) && j < |l.conns| && l.conns[j].serial < |clients|
    requires OnTimer(l.conns[j]).1 != Lost
    ensures RoomOK(l.(conns := l.conns[j := OnTimer(l.conns[j]).0]), clients)
  {
    var c, n := l.conns[j], l.conns[j].serial;
    SiftAppend(c.out, Ping);
    assert Sift(c.out) + [] == Sift(c.out);
    assert clients[n := clients[n]] == clients;
    OneSeatChanges(l, clients, j, OnTimer(c).0, clients[n]);
  }

  // Losing a player between games frees its seat; during a game it ends the game for all.
  lemma LossKeepsRoom(l: Lobby, clients: ClientTable, j: nat, outcome: (Conn, Event))
    requires RoomOK(l, clients) && j < |l.conns| && outcome.1 == Lost
    requires outcome == HandleDisconnect(l.conns[j]) || outcome == OnTimer(l.conns[j])
    ensures RoomOK(AfterEvent(l, j, outcome).0, clients)
  {
    LossKeeps(l, j, outcome);
    OwnSeat(l, clients, j);
    LossIsFound(l, j, outcome.0);
    LossIsHandled(l, j, outcome);
    LossRecounts(l, j, outcome);
    var after := AfterEvent(l, j, outcome).0;
    if l.isPlayingGame {
      EverybodyPlays(l, clients);
    }
    forall i | 0 <= i < |after.seats| ensures SeatOK(after, clients, i) {
      assert SeatOK(l, clients, i);
      if l.isPlayingGame {
        assert PlaysInSeat(l, clients, i);
        var c := l.conns[l.seats[i].value];
        AbortAtConn(c, clients[c.serial], l.game.value);
      }
    }
  }

  function AfterLossOf(l: Lobby, j: nat, c: Conn, i: nat): Lobby
    requires j < |l.conns| && i < |l.seats| && (l.isPlayingGame ==> l.game.Some?)
  {
    var left := l.(
      numReady := if l.conns[j].ready && l.numReady > 0 then Wrap(l.numReady - 1) else l.numReady,
      conns := l.conns[j := c],
      seats := l.seats[i := None],
      numPlayers := if l.numPlayers > 0 then Wrap(l.numPlayers - 1) else l.numPlayers);
    if l.isPlayingGame then OnGameOver(left) else left
  }

  lemma LossIsFound(l: Lobby, j: nat, c: Conn)
    requires SeatsOK(l) && j < |l.conns| && l.conns[j].connected && c.id == l.conns[j].id && !c.connected
    ensures FindPlayer(l.(conns := l.conns[j := c]), c.id, 0) == c.id - 1
    ensures l.seats[c.id - 1] == Some(j)
  {
    var after := l.(conns := l.conns[j := c]);
    assert SeatsOK(after);
    FoundAtOwnSeat(after, j);
  }

  lemma LossIsHandled(l: Lobby, j: nat, outcome: (Conn, Event))
    requires j < |l.conns| && outcome.1 == Lost && outcome.0.ready == l.conns[j].ready
    requires l.isPlayingGame ==> l.game.Some?
    requires FindPlayer(l.(conns := l.conns[j := outcome.0]), outcome.0.id, 0) == outcome.0.id - 1 < |l.seats|
    requires l.seats[outcome.0.id - 1] == Some(j)
    ensures AfterEvent(l, j, outcome).0 == AfterLossOf(l, j, outcome.0, outcome.0.id - 1)
  {
  }

  lemma LossRecounts(l: Lobby, j: nat, outcome: (Conn, Event))
    requires LobbyOK(l) && ReadyCounted(l) && j < |l.conns| && outcome.1 == Lost
    requires outcome == HandleDisconnect(l.conns[j]) || outcome == OnTimer(l.conns[j])
    ensures ReadyCounted(AfterLossOf(l, j, outcome.0, l.conns[j].id - 1))
  {
    var i := l.conns[j].id - 1;
    var after := AfterLossOf(l, j, outcome.0, i);
    ReadyAtMostAll(l);
    assert forall k | 0 <= k < |l.seats| && k != i :: l.seats[k] != Some(j);
    if l.isPlayingGame {
      assert ReadySeats(after) == {};
    } else {
      ReadySeatsShrink(l, j, outcome.0, i);
      SameReadySeats(after, l.(conns := l.conns[j := outcome.0], seats := l.seats[i := None]));
    }
  }

  lemma SameReadySeats(a: Lobby, b: Lobby)
    requires a.seats == b.seats && a.conns == b.conns
    ensures ReadySeats(a) == ReadySeats(b)
  {
  }

  lemma ReadySeatsShrink(l: Lobby, j: nat, c: Conn, i: nat)
    requires j < |l.conns| && c.ready == l.conns[j].ready && i < |l.seats| && l.seats[i] == Some(j)
    requires forall k | 0 <= k < |l.seats| && k != i :: l.seats[k] != Some(j)
    ensures var left := l.(conns := l.conns[j := c], seats := l.seats[i := None]);
            |ReadySeats(left)| == |ReadySeats(l)| - if c.ready then 1 else 0
  {
    var left := l.(conns := l.conns[j := c], seats := l.seats[i := None]);
    if c.ready {
      assert i in ReadySeats(l);
      assert ReadySeats(left) == ReadySeats(l) - {i};
    } else {
      assert ReadySeats(left) == ReadySeats(l);
    }
  }
}
