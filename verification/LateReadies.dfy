// Ready messages read from a connection that is not alive any more: what they do to the turn
// and to moves of earlier games.
module LateReadies {
  import opened Bytes
  import opened Grids
  import opened Rules
  import opened Messages
  import opened Connections
  import opened Clients
  import opened Lobbies
  import opened LobbyInvariants
  import opened Servers
  import opened Links
  import opened Rooms
  import opened Protocol
  import opened Theorems
  import opened Discipline
  import opened LateMoves
  import opened DeadSeats
  import opened DeadHolders
  import opened Beginnings

  // ---------------------------------------------------------------- the turn

  // If a game is on, there is one claim to move, and it is the current player's.
  predicate TurnInOrder(l: Lobby, clients: ClientTable) {
    l.isPlayingGame ==> OneClaim(l, clients)
  }

  // No seated player holds a question or has a move in flight.
  predicate NobodyClaims(l: Lobby, clients: ClientTable) {
    forall k | 0 <= k < |l.seats| :: SeatClaims(l, clients, k, 0)
  }

  predicate SeatClaims(l: Lobby, clients: ClientTable, k: nat, n: nat) {
    k < |l.seats| && l.seats[k].Some? && l.seats[k].value < |l.conns| && l.conns[l.seats[k].value].serial < |clients|
    && TurnTokens(l.conns[l.seats[k].value], clients[l.conns[l.seats[k].value].serial]) == n
  }

  // The player that the next game starts with is alive.
  predicate FirstIsAlive(l: Lobby, first: u8) {
    var k := LobbyGame(l.maxPlayers, first).currentPlayer - 1;
    0 <= k < |l.seats| && l.seats[k].Some? && l.seats[k].value < |l.conns| && l.conns[l.seats[k].value].connected
  }

  // What a late read must be like to leave the turn in order. A move must end the game, if one
  // is on. A Ready that completes the count must find nobody with a claim from an earlier game,
  // and the random pick must not fall on a dead player.
  predicate SparesTurn(l: Lobby, clients: ClientTable, j: nat, m: Message, first: u8)
    requires j < |l.conns| && (l.isPlayingGame ==> l.game.Some?)
  {
    && (ReadyCompletes(l, j, m) ==> NobodyClaims(l, clients) && FirstIsAlive(l, first))
    && (OnRead(l.conns[j], m).1.TookTurn? && l.isPlayingGame ==>
          Over(TakeTurn(l.game.value, l.conns[j].id, m.column).0))
  }

  lemma StartAtClaims(c: Conn, k: Client, numPlayers: u8, g: Game)
    ensures TurnTokens(OnTurn(OnGameStart(c, numPlayers, g), g.currentPlayer), k)
            == TurnTokens(c, k) + if c.connected && c.id == g.currentPlayer then 1 else 0
  {
    if c.connected {
      TokensAppend(c, k, GameStart(numPlayers, Wrap(|g.stacks|), g.rows, g.currentPlayer));
      TokensAppend(OnGameStart(c, numPlayers, g), k, TurnMessage(g.currentPlayer, MINUS_ONE));
    }
  }

  // Reading a Ready off a client changes no claims.
  lemma ReadyOffKeepsClaims(c: Conn, k: Client)
    requires k.out != [] && k.out[0].Ready?
    ensures TurnTokens(c, TakeOff(k)) == TurnTokens(c, k)
  {
  }

  // A late Ready is at the head of connection j's client and completes the count.
  ghost predicate StartsLate(l: Lobby, clients: ClientTable, j: nat) {
    RoomOK(l, clients) && DistinctSerials(l) && j < |l.conns| && !l.conns[j].connected
    && (forall k: nat | DeadIn(l, k) :: SilentHolder(l, clients, k))
    && l.conns[j].serial < |clients| && clients[l.conns[j].serial].out != []
    && ReadyCompletes(l, j, HeadOf(l, clients, j))
  }

  lemma SeatAtStart(l: Lobby, clients: ClientTable, j: nat, first: u8, k: nat)
    requires StartsLate(l, clients, j) && k < |l.seats|
    ensures var after, g := ReadMessage(l, j, HeadOf(l, clients, j), first), LobbyGame(l.maxPlayers, first);
            && after.game == Some(g) && |after.seats| == |l.seats| && 1 <= g.currentPlayer <= |l.seats|
            && l.seats[k].Some? && l.seats[k].value < |l.conns|
            && var c := l.conns[l.seats[k].value];
               && c.serial < |clients|
               && SeatClaims(after, AfterRead(l, clients, j), k,
                             TurnTokens(c, clients[c.serial])
                             + if c.connected && g.currentPlayer == k + 1 then 1 else 0)
  {
    var m, g := HeadOf(l, clients, j), LobbyGame(l.maxPlayers, first);
    assert m == Ready(l.conns[j].id);
    FullMeansAllTaken(l);
    LobbyGameStarts(l.maxPlayers, first);
    assert SeatOK(l, clients, k);
    var c := l.conns[l.seats[k].value];
    StartedMember(l, j, first, l.seats[k].value);
    StartAtClaims(c, clients[c.serial], l.numPlayers, g);
    StartAtClaims(c.(ready := true), clients[c.serial], l.numPlayers, g);
    ReadyOffKeepsClaims(c, clients[l.conns[j].serial]);
  }

  // What a member has been sent once the game has started.
  lemma StartedMember(l: Lobby, j: nat, first: u8, k: nat)
    requires LobbyOK(l) && j < |l.conns| && k < |l.conns| && ReadyCompletes(l, j, Ready(l.conns[j].id))
    ensures var after, g := ReadMessage(l, j, Ready(l.conns[j].id), first), LobbyGame(l.maxPlayers, first);
            && after.seats == l.seats && after.game == Some(g) && |after.conns| == |l.conns|
            && after.conns[k] == OnTurn(OnGameStart(WithReady(l, j).conns[k], l.numPlayers, g), g.currentPlayer)
  {
    ReadyIsRead(l, j, first);
  }

  lemma LateStartSparesTurn(l: Lobby, clients: ClientTable, j: nat, first: u8)
    requires StartsLate(l, clients, j)
    ensures OneClaim(ReadMessage(l, j, HeadOf(l, clients, j), first), AfterRead(l, clients, j))
            <==> NobodyClaims(l, clients) && FirstIsAlive(l, first)
  {
    var after, table := ReadMessage(l, j, HeadOf(l, clients, j), first), AfterRead(l, clients, j);
    var k0 := LobbyGame(l.maxPlayers, first).currentPlayer - 1;
    SeatAtStart(l, clients, j, first, 0);
    forall k | 0 <= k < |l.seats|
      ensures ClaimOfSeat(after, table, k) <==> SeatClaims(l, clients, k, 0) && (k == k0 ==> FirstIsAlive(l, first))
    {
      ClaimAtStart(l, clients, j, first, k);
    }
    assert OneClaim(after, table) ==> ClaimOfSeat(after, table, k0);
    assert NobodyClaims(l, clients) ==> SeatClaims(l, clients, k0, 0);
  }

  lemma ClaimAtStart(l: Lobby, clients: ClientTable, j: nat, first: u8, k: nat)
    requires StartsLate(l, clients, j) && k < |l.seats|
    ensures ClaimOfSeat(ReadMessage(l, j, HeadOf(l, clients, j), first), AfterRead(l, clients, j), k)
            <==> SeatClaims(l, clients, k, 0)
                 && (k == LobbyGame(l.maxPlayers, first).currentPlayer - 1 ==> FirstIsAlive(l, first))
  {
    SeatAtStart(l, clients, j, first, k);
    if DeadIn(l, k) {
      SilentHolderClaimsNothing(l, clients, k);
    }
  }

  lemma SilentHolderClaimsNothing(l: Lobby, clients: ClientTable, k: nat)
    requires DeadIn(l, k) && SilentHolder(l, clients, k)
    ensures SeatClaims(l, clients, k, 0)
  {
    var c := l.conns[l.seats[k].value];
    QuestionsSift(c.out);
    QuestionsSift(clients[c.serial].out);
  }

  // In every reachable state, a late read, harmless or not, leaves the turn in order if and
  // only if it spares the turn.
  lemma TokenSurvivesLateRead(sys: System, i: nat, j: nat, first: u8)
    requires Reachable(sys) && Present(sys, InLobby(i, j)) && !sys.server.lobbies[i].conns[j].connected
    requires sys.clients[sys.server.lobbies[i].conns[j].serial].out != []
    ensures var l, clients := sys.server.lobbies[i], sys.clients;
            && (l.isPlayingGame ==> l.game.Some?)
            && (TurnInOrder(ReadMessage(l, j, HeadOf(l, clients, j), first), AfterRead(l, clients, j))
                <==> SparesTurn(l, clients, j, HeadOf(l, clients, j), first))
  {
    var steps :| sys == Run(steps);
    RunKeeps(steps);
    RunKeepsSilent(steps);
    MembersDistinct(sys.server, i);
    LateReadInRoom(sys.server.lobbies[i], sys.clients, j, first);
  }

  lemma LateReadInRoom(l: Lobby, clients: ClientTable, j: nat, first: u8)
    requires RoomOK(l, clients) && DistinctSerials(l) && j < |l.conns| && !l.conns[j].connected
    requires forall k: nat | DeadIn(l, k) :: SilentHolder(l, clients, k)
    requires l.conns[j].serial < |clients| && clients[l.conns[j].serial].out != []
    ensures TurnInOrder(ReadMessage(l, j, HeadOf(l, clients, j), first), AfterRead(l, clients, j))
            <==> SparesTurn(l, clients, j, HeadOf(l, clients, j), first)
  {
    var c, m := l.conns[j], HeadOf(l, clients, j);
    if ReadyCompletes(l, j, m) {
      ReadBegins(l, j, m, first);
      LateStartSparesTurn(l, clients, j, first);
    } else if !l.isPlayingGame {
      ReadBegins(l, j, m, first);
    } else if OnRead(c, m).1.TookTurn? {
      LateMoveInGame(l, clients, j, m.column, first);
    } else if m.Ready? && m.id == c.id {
      LateReadyInGame(l, clients, j, first);
    } else {
      LateReadKeepsRoom(l, clients, j, first);
      RoomHasOneClaim(ReadMessage(l, j, m, first), AfterRead(l, clients, j));
    }
  }

  lemma LateMoveInGame(l: Lobby, clients: ClientTable, j: nat, column: u8, first: u8)
    requires RoomOK(l, clients) && DistinctSerials(l) && l.isPlayingGame && j < |l.conns| && !l.conns[j].connected
    requires l.conns[j].serial < |clients| && clients[l.conns[j].serial].out != [] && column != MINUS_ONE
    requires HeadOf(l, clients, j) == TurnMessage(l.conns[j].id, column)
    ensures TurnInOrder(ReadMessage(l, j, HeadOf(l, clients, j), first), AfterRead(l, clients, j))
            <==> Over(TakeTurn(l.game.value, l.conns[j].id, column).0)
  {
    MoveIsHandled(l, j, column, first);
    TurnKeepsPlay(l, l.conns[j].id, column);
    if !Over(TakeTurn(l.game.value, l.conns[j].id, column).0) {
      SuccessorKeepsClaim(l, clients, j, column);
    }
  }

  // During a game, all are ready already: another Ready changes the count and nothing else.
  lemma LateReadyInGame(l: Lobby, clients: ClientTable, j: nat, first: u8)
    requires RoomOK(l, clients) && DistinctSerials(l) && l.isPlayingGame && j < |l.conns| && !l.conns[j].connected
    requires l.conns[j].serial < |clients| && clients[l.conns[j].serial].out != []
    requires HeadOf(l, clients, j) == Ready(l.conns[j].id)
    ensures OneClaim(ReadMessage(l, j, HeadOf(l, clients, j), first), AfterRead(l, clients, j))
  {
    var after, table := ReadMessage(l, j, HeadOf(l, clients, j), first), AfterRead(l, clients, j);
    ReadyIsRead(l, j, first);
    RoomHasOneClaim(l, clients);
    WrapChanges(l.numReady);
    assert after.game == l.game && after.seats == l.seats && after.conns == WithReady(l, j).conns;
    forall k | 0 <= k < |after.seats| ensures ClaimOfSeat(after, table, k) {
      assert ClaimOfSeat(l, clients, k);
      ReadyOffKeepsClaims(l.conns[l.seats[k].value], clients[l.conns[j].serial]);
    }
  }

  // ---------------------------------------------------------------- stale moves

  // No seated player has a move in flight.
  predicate NoMoves(l: Lobby, clients: ClientTable) {
    forall k | 0 <= k < |l.seats| :: NoMoveFromSeat(l, clients, k)
  }

  predicate NoMoveFromSeat(l: Lobby, clients: ClientTable, k: nat) {
    k < |l.seats| && l.seats[k].Some? && l.seats[k].value < |l.conns| && l.conns[l.seats[k].value].serial < |clients|
    && Moves(clients[l.conns[l.seats[k].value].serial].out) == 0
  }

  // When a game begins, by whichever Ready, all moves that will be read in it are still to be
  // made in it, if and only if the Ready's reader is alive or no seated player has a move in
  // flight.
  lemma GamesBeginClean(l: Lobby, clients: ClientTable, j: nat, first: u8)
    requires RoomOK(l, clients) && DistinctSerials(l) && j < |l.conns| && 1 <= first <= l.maxPlayers
    requires l.conns[j].serial < |clients| && clients[l.conns[j].serial].out != []
    requires ReadyCompletes(l, j, HeadOf(l, clients, j))
    ensures NoMoves(ReadMessage(l, j, HeadOf(l, clients, j), first), AfterRead(l, clients, j))
            <==> l.conns[j].connected || NoMoves(l, clients)
  {
    var after, table := ReadMessage(l, j, HeadOf(l, clients, j), first), AfterRead(l, clients, j);
    assert HeadOf(l, clients, j) == Ready(l.conns[j].id);
    ReadBegins(l, j, HeadOf(l, clients, j), first);
    if l.conns[j].connected {
      ReadingKeepsRoom(l, clients, j, first);
      GamesStartWithoutMoves(l, clients, j, first);
    } else {
      forall k | 0 <= k < |l.seats| ensures NoMoveFromSeat(after, table, k) <==> NoMoveFromSeat(l, clients, k) {
        MovesSurviveStart(l, clients, j, first, k);
      }
      StartKeepsSeats(l, j, first);
    }
  }

  lemma StartKeepsSeats(l: Lobby, j: nat, first: u8)
    requires LobbyOK(l) && j < |l.conns|
    ensures ReadMessage(l, j, Ready(l.conns[j].id), first).seats == l.seats
  {
    ReadMessageKeeps(l, j, Ready(l.conns[j].id), first);
  }

  lemma MovesSurviveStart(l: Lobby, clients: ClientTable, j: nat, first: u8, k: nat)
    requires LobbyOK(l) && j < |l.conns| && l.conns[j].serial < |clients| && k < |l.seats|
    requires clients[l.conns[j].serial].out != [] && HeadOf(l, clients, j) == Ready(l.conns[j].id)
    ensures NoMoveFromSeat(ReadMessage(l, j, Ready(l.conns[j].id), first), AfterRead(l, clients, j), k)
            <==> NoMoveFromSeat(l, clients, k)
  {
    ReadMessageKeeps(l, j, Ready(l.conns[j].id), first);
  }

  // A player in order that was just told of the start cannot have moved.
  lemma GamesStartWithoutMoves(l: Lobby, clients: ClientTable, j: nat, first: u8)
    requires RoomOK(l, clients) && j < |l.conns| && l.conns[j].connected && 1 <= first <= l.maxPlayers
    requires l.conns[j].serial < |clients| && clients[l.conns[j].serial].out != []
    requires ReadyCompletes(l, j, HeadOf(l, clients, j))
    requires RoomOK(ReadMessage(l, j, HeadOf(l, clients, j), first), AfterRead(l, clients, j))
    ensures NoMoves(ReadMessage(l, j, HeadOf(l, clients, j), first), AfterRead(l, clients, j))
  {
    var after, table := ReadMessage(l, j, HeadOf(l, clients, j), first), AfterRead(l, clients, j);
    assert HeadOf(l, clients, j) == Ready(l.conns[j].id);
    ReadBegins(l, j, HeadOf(l, clients, j), first);
    EverybodyPlays(after, table);
    forall k | 0 <= k < |after.seats| ensures NoMoveFromSeat(after, table, k) {
      assert PlaysInSeat(after, table, k);
      StartedMember(l, j, first, after.seats[k].value);
      var c := after.conns[after.seats[k].value];
      StartIsInFlight(WithReady(l, j).conns[after.seats[k].value], l.numPlayers, after.game.value);
      AheadOfMoves(c, table[c.serial], after.game.value);
    }
  }

  lemma StartIsInFlight(c: Conn, numPlayers: u8, g: Game)
    requires c.connected
    ensures Sift(OnTurn(OnGameStart(c, numPlayers, g), g.currentPlayer).out) != []
  {
    var start := OnGameStart(c, numPlayers, g);
    SiftAppend(c.out, GameStart(numPlayers, Wrap(|g.stacks|), g.rows, g.currentPlayer));
    SiftAppend(start.out, TurnMessage(g.currentPlayer, MINUS_ONE));
  }

  lemma AheadOfMoves(c: Conn, k: Client, g: Game)
    requires Playing(LinkOf(c, k), c.id, g) && Sift(c.out) != []
    ensures Moves(k.out) == 0
  {
    QuestionsSift(k.out);
    assert Moves([]) == 0;
  }

  // A stale move does reach the new game: it is played exactly if the pick fell on its sender
  // and its column is on the board.
  lemma StaleMoveIsPlayed(l: Lobby, j: nat, m: Message, first: u8, k: nat, column: u8, pick: u8)
    requires LobbyOK(l) && j < |l.conns| && k < |l.conns| && column != MINUS_ONE && ReadyCompletes(l, j, m)
    ensures var after := ReadMessage(l, j, m, first);
            && LobbyOK(after) && |after.conns| == |l.conns| && after.conns[k].id == l.conns[k].id
            && (ReadMessage(after, k, TurnMessage(l.conns[k].id, column), pick).game != after.game
                <==> l.conns[k].id == LobbyGame(l.maxPlayers, first).currentPlayer && column < MIN_COLUMNS)
  {
    var after := ReadMessage(l, j, m, first);
    ReadMessageKeeps(l, j, m, first);
    ReadBegins(l, j, m, first);
    LobbyGameStarts(l.maxPlayers, first);
    AcceptedMovesShow(after, k, column, pick);
  }

  // A late Ready of the first player's predecessor is still to be read, and so is a move of
  // the second player in an earlier game. Reading the Ready starts a game with two claims, in
  // which the stale move is played.
  const LATE := Conn(0, 1, false, false, false, 4, [])
  const NEXT := Conn(1, 1, true, true, false, 0, [])
  const SLOW := Conn(2, 2, true, false, false, 0, [])
  const WITH_STALE := Lobby(true, false, None, 2, 1, 2, [Some(1), Some(2)], [LATE, NEXT, SLOW])

  function StaleClients(column: u8): ClientTable {
    [Client(1, true, None, Idle, [Ready(1)]), Client(1, true, None, Idle, []),
     Client(2, true, Some(LobbyGame(2, 2)), AskingReady, [TurnMessage(2, column)])]
  }

  lemma LateReadyRevivesStaleMove(column: u8, pick: u8)
    requires column < MIN_COLUMNS
    ensures RoomOK(WITH_STALE, StaleClients(column)) && DistinctSerials(WITH_STALE)
    ensures var after := ReadMessage(WITH_STALE, 0, Ready(1), 2);
            && LobbyOK(after) && after.isPlayingGame && |after.conns| == 3
            && !OneClaim(after, AfterRead(WITH_STALE, StaleClients(column), 0))
            && ReadMessage(after, 2, TurnMessage(2, column), pick).game != after.game
  {
    StaleInOrder(column);
    StaleMoveClaims(column);
    LateStartSparesTurn(WITH_STALE, StaleClients(column), 0, 2);
    ReadBegins(WITH_STALE, 0, Ready(1), 2);
    StaleMoveIsPlayed(WITH_STALE, 0, Ready(1), 2, 2, column, pick);
    PickTwo();
  }

  lemma PickTwo()
    ensures LobbyGame(2, 2).currentPlayer == 2
  {
    LobbyGameStarts(2, 2);
  }

  lemma StaleMoveClaims(column: u8)
    requires RoomOK(WITH_STALE, StaleClients(column)) && DistinctSerials(WITH_STALE)
    ensures StartsLate(WITH_STALE, StaleClients(column), 0) && !NobodyClaims(WITH_STALE, StaleClients(column))
  {
    assert Moves(StaleClients(column)[2].out) == 1;
    assert !SeatClaims(WITH_STALE, StaleClients(column), 1, 0);
  }

  lemma StaleInOrder(column: u8)
    ensures RoomOK(WITH_STALE, StaleClients(column)) && DistinctSerials(WITH_STALE)
  {
    assert Taken(WITH_STALE.seats) == {0, 1};
    assert ReadySeats(WITH_STALE) == {0};
    assert [TurnMessage(2, column)][1..] == [];
    assert SeatOK(WITH_STALE, StaleClients(column), 0) && SeatOK(WITH_STALE, StaleClients(column), 1);
  }
}
