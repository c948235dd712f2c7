// Moves read from a connection that is not alive any more: the ping timer may give up while a
// read is pending, which is handled all the same. For whom such a move is played, and what it
// does to the turn.
module LateMoves {
  import opened Bytes
  import opened Grids
  import opened Rules
  import opened Messages
  import opened Connections
  import opened Clients
  import opened Lobbies
  import opened LobbyInvariants
  import opened Links
  import opened Rooms
  import opened Theorems
  import opened Discipline

  // The connection whose turn it is.
  function ToMove(l: Lobby): Option<nat>
    requires LobbyOK(l) && l.isPlayingGame
  {
    l.seats[l.game.value.currentPlayer - 1]
  }

  // A move in this column would be accepted from the id of connection j.
  predicate Accepts(l: Lobby, j: nat, column: u8) {
    j < |l.conns| && l.isPlayingGame && l.game.Some?
    && TakeTurn(l.game.value, l.conns[j].id, column).1 == Success
  }

  // Reading the move from connection j changes the game, and it was not j's turn.
  ghost predicate MovesForAnother(l: Lobby, j: nat, column: u8, first: u8)
    requires LobbyOK(l) && j < |l.conns|
  {
    l.isPlayingGame && ToMove(l) != Some(j)
    && ReadMessage(l, j, TurnMessage(l.conns[j].id, column), first).game != l.game
  }

  // A move read from a connection changes the game exactly if it would be accepted from the
  // connection's id; and it is made for somebody else exactly if, moreover, somebody else has
  // the seat of that id. Then the connection is dead.
  lemma MovesAreOwn(l: Lobby, j: nat, column: u8, first: u8)
    requires LobbyOK(l) && j < |l.conns| && column != MINUS_ONE
    ensures ReadMessage(l, j, TurnMessage(l.conns[j].id, column), first).game != l.game <==> Accepts(l, j, column)
    ensures MovesForAnother(l, j, column, first) <==> Accepts(l, j, column) && l.seats[l.conns[j].id - 1] != Some(j)
    ensures MovesForAnother(l, j, column, first) ==> !l.conns[j].connected
  {
    AcceptedMovesShow(l, j, column, first);
    if Accepts(l, j, column) {
      MovesComeInTurn(l, j, column);
    }
  }

  lemma MovesComeInTurn(l: Lobby, j: nat, column: u8)
    requires LobbyOK(l) && j < |l.conns| && Accepts(l, j, column)
    ensures ToMove(l) == l.seats[l.conns[j].id - 1]
    ensures l.conns[j].connected ==> ToMove(l) == Some(j)
  {
  }

  lemma AcceptedMovesShow(l: Lobby, j: nat, column: u8, first: u8)
    requires LobbyOK(l) && j < |l.conns| && column != MINUS_ONE
    ensures ReadMessage(l, j, TurnMessage(l.conns[j].id, column), first).game != l.game <==> Accepts(l, j, column)
  {
    MoveIsHandled(l, j, column, first);
    OnlyAcceptedMovesShow(l, l.conns[j].id, column);
  }

  lemma OnlyAcceptedMovesShow(l: Lobby, id: u8, column: u8)
    requires LobbyOK(l)
    ensures OnTakeTurn(l, id, column).game != l.game
            <==> l.isPlayingGame && TakeTurn(l.game.value, id, column).1 == Success
  {
    if l.isPlayingGame {
      TotalIsSmall(l.game.value);
    }
  }

  // With console clients, the seat of a dead reader has gone to a successor while the lobby
  // plays: the dead, and only they, move for somebody else.
  lemma OnlyTheDeadMoveForOthers(l: Lobby, clients: ClientTable, j: nat, column: u8, first: u8)
    requires RoomOK(l, clients) && j < |l.conns| && column != MINUS_ONE
    ensures MovesForAnother(l, j, column, first) <==> Accepts(l, j, column) && !l.conns[j].connected
  {
    MovesAreOwn(l, j, column, first);
    if l.isPlayingGame {
      EverybodyPlays(l, clients);
      assert PlaysInSeat(l, clients, l.conns[j].id - 1);
    }
  }

  // The first player timed out, and a game began with its successor. A read was still pending
  // on the old connection: its move is played for the successor.
  lemma LateMovePlaysForSuccessor(gone: Conn, c: Conn, d: Conn, column: u8, first: u8)
    requires gone.id == 1 && c.id == 1 && d.id == 2 && !gone.connected && c.connected && d.connected
    requires column < MIN_COLUMNS
    ensures var l := Lobby(true, true, Some(LobbyGame(2, 1)), 2, 2, 2, [Some(1), Some(2)], [gone, c, d]);
            var after := ReadMessage(l, 0, TurnMessage(1, column), first);
            && LobbyOK(l) && ToMove(l) == Some(1) && MovesForAnother(l, 0, column, first)
            && after.game.Some? && after.game.value.numTurns == 1 && after.game.value.currentPlayer == 2
            && after.game.value.stacks[column] == [1]
  {
    var l := Lobby(true, true, Some(LobbyGame(2, 1)), 2, 2, 2, [Some(1), Some(2)], [gone, c, d]);
    assert Taken(l.seats) == {0, 1};
    OpeningMove(column);
    MovesAreOwn(l, 0, column, first);
    MoveIsHandled(l, 0, column, first);
  }

  lemma OpeningMove(column: u8)
    requires column < MIN_COLUMNS
    ensures InProgress(LobbyGame(2, 1), 2)
    ensures var (after, result) := TakeTurn(LobbyGame(2, 1), 1, column);
            && result == Success && !Over(after)
            && after.numTurns == 1 && after.currentPlayer == 2 && after.stacks[column] == [1]
  {
    var after := TakeTurn(LobbyGame(2, 1), 1, column).0;
    LobbyGameStarts(2, 1);
    TurnKeepsSettled(LobbyGame(2, 1), 1, column);
    OneDiskIsNoLine(after.stacks, column);
    assert |after.stacks[column]| != after.rows;
  }

  lemma OneDiskIsNoLine(s: Stacks, column: nat)
    requires column < |s| && |s[column]| == 1 && forall c | 0 <= c < |s| && c != column :: s[c] == []
    ensures !HasLine(s)
  {
    forall c, r, dc, dr | Axis(dc, dr) ensures !Four(s, c, r, dc, dr) {
      if c == column && r == 0 {
        assert Cell(s, c + dc, r + dr) == EMPTY_SLOT;
      } else {
        assert Cell(s, c, r) == EMPTY_SLOT;
      }
    }
  }

  // ---------------------------------------------------------------- the turn token

  // There is one claim to move, and it is the current player's.
  predicate OneClaim(l: Lobby, clients: ClientTable) {
    l.game.Some? && forall k | 0 <= k < |l.seats| :: ClaimOfSeat(l, clients, k)
  }

  predicate ClaimOfSeat(l: Lobby, clients: ClientTable, k: nat) {
    l.game.Some? && k < |l.seats| && l.seats[k].Some?
    && l.seats[k].value < |l.conns| && l.conns[l.seats[k].value].serial < |clients|
    && var c := l.conns[l.seats[k].value];
       TurnTokens(c, clients[c.serial]) == if l.game.value.currentPlayer == k + 1 then 1 else 0
  }

  lemma RoomHasOneClaim(l: Lobby, clients: ClientTable)
    requires RoomOK(l, clients) && l.isPlayingGame
    ensures OneClaim(l, clients)
  {
    EverybodyPlays(l, clients);
    forall k | 0 <= k < |l.seats| ensures ClaimOfSeat(l, clients, k) {
      assert PlaysInSeat(l, clients, k);
      var c := l.conns[l.seats[k].value];
      TokensOfPlayer(c, clients[c.serial], l.game.value);
    }
  }

  // The server reads a move, from whatever connection, during a game that goes on.
  ghost predicate ReadsMove(l: Lobby, clients: ClientTable, j: nat, column: u8) {
    RoomOK(l, clients) && DistinctSerials(l) && l.isPlayingGame && j < |l.conns| && column != MINUS_ONE
    && l.conns[j].serial < |clients| && clients[l.conns[j].serial].out != []
    && HeadOf(l, clients, j) == TurnMessage(l.conns[j].id, column)
    && !Over(TakeTurn(l.game.value, l.conns[j].id, column).0)
  }

  // The turn token survives a move exactly if its sender is still connected. If it is not, its
  // successor keeps a claim that is not its turn any more, or is asked once too often.
  lemma TokenSurvives(l: Lobby, clients: ClientTable, j: nat, column: u8, first: u8)
    requires ReadsMove(l, clients, j, column) && 1 <= first <= l.maxPlayers
    ensures OneClaim(ReadMessage(l, j, HeadOf(l, clients, j), first), AfterRead(l, clients, j))
            <==> l.conns[j].connected
  {
    MoveIsHandled(l, j, column, first);
    if l.conns[j].connected {
      TurnKeepsPlay(l, l.conns[j].id, column);
      ReadingKeepsRoom(l, clients, j, first);
      RoomHasOneClaim(OnTakeTurn(l, l.conns[j].id, column), AfterRead(l, clients, j));
    } else {
      SuccessorKeepsClaim(l, clients, j, column);
    }
  }

  lemma SuccessorKeepsClaim(l: Lobby, clients: ClientTable, j: nat, column: u8)
    requires ReadsMove(l, clients, j, column) && !l.conns[j].connected
    ensures !ClaimOfSeat(OnTakeTurn(l, l.conns[j].id, column), AfterRead(l, clients, j), l.conns[j].id - 1)
  {
    var id, g := l.conns[j].id, l.game.value;
    var c := SuccessorPlays(l, clients, j);
    var result := TakeTurn(g, id, column).1;
    TokensOfPlayer(c, clients[c.serial], g);
    assert AfterRead(l, clients, j)[c.serial] == clients[c.serial];
    MoverHearsResult(l, l.seats[id - 1].value, column);
    TokensAppend(c, clients[c.serial], ResultMessage(result, column));
    assert NextPlayer(id, g.numPlayers) != id;
  }

  // While a lobby plays, whoever has the seat of a dead connection's id is somebody else.
  lemma SuccessorPlays(l: Lobby, clients: ClientTable, j: nat) returns (c: Conn)
    requires RoomOK(l, clients) && DistinctSerials(l) && l.isPlayingGame && j < |l.conns| && !l.conns[j].connected
    ensures var seat := l.seats[l.conns[j].id - 1];
            && seat.Some? && seat.value < |l.conns| && l.conns[seat.value] == c
            && c.connected && c.id == l.conns[j].id && c.serial < |clients| && c.serial != l.conns[j].serial
            && Playing(LinkOf(c, clients[c.serial]), c.id, l.game.value)
  {
    EverybodyPlays(l, clients);
    assert PlaysInSeat(l, clients, l.conns[j].id - 1);
    c := l.conns[l.seats[l.conns[j].id - 1].value];
  }

  lemma MoverHearsResult(l: Lobby, j: nat, column: u8)
    requires LobbyOK(l) && l.isPlayingGame && j < |l.conns|
    requires !Over(TakeTurn(l.game.value, l.conns[j].id, column).0)
    ensures OnTakeTurn(l, l.conns[j].id, column).conns[j]
            == Send(l.conns[j], ResultMessage(TakeTurn(l.game.value, l.conns[j].id, column).1, column))
  {
  }

  lemma TokensAppend(c: Conn, k: Client, m: Message)
    requires c.connected
    ensures TurnTokens(Send(c, m), k) == TurnTokens(c, k) + if Question(m) then 1 else 0
  {
    QuestionsAppend(c.out, m);
  }

  lemma {:induction false} QuestionsAppend(ms: seq<Message>, m: Message)
    ensures Questions(ms + [m]) == Questions(ms) + if Question(m) then 1 else 0
  {
    if ms == [] {
      assert [m][1..] == [];
    } else {
      QuestionsAppend(ms[1..], m);
      assert (ms + [m])[1..] == ms[1..] + [m];
    }
  }

  // ---------------------------------------------------------------- all late reads

  // A late read keeps the lobby and its clients in order if and only if it is harmless: the
  // runs of module Protocol leave out exactly the others.
  lemma LateReadSurvives(l: Lobby, clients: ClientTable, j: nat, first: u8)
    requires RoomOK(l, clients) && DistinctSerials(l) && j < |l.conns| && !l.conns[j].connected
    requires l.conns[j].serial < |clients| && clients[l.conns[j].serial].out != []
    ensures RoomOK(ReadMessage(l, j, HeadOf(l, clients, j), first), AfterRead(l, clients, j))
            <==> LateIsHarmless(l, j, HeadOf(l, clients, j))
  {
    var m := HeadOf(l, clients, j);
    if LateIsHarmless(l, j, m) {
      LateReadKeepsRoom(l, clients, j, first);
    } else if m.Ready? {
      LateReadyBreaksRoom(l, clients, j, first);
    } else {
      LateMoveBreaksRoom(l, clients, j, m.column, first);
    }
  }

  lemma LateReadyBreaksRoom(l: Lobby, clients: ClientTable, j: nat, first: u8)
    requires RoomOK(l, clients) && j < |l.conns| && !l.conns[j].connected && l.seats[l.conns[j].id - 1].Some?
    requires l.conns[j].serial < |clients| && clients[l.conns[j].serial].out != []
    ensures !RoomOK(ReadMessage(l, j, Ready(l.conns[j].id), first), AfterRead(l, clients, j))
  {
    var i, after := l.conns[j].id - 1, ReadMessage(l, j, Ready(l.conns[j].id), first);
    if l.seats[i] == Some(j) {
      ReadyIsRead(l, j, first);
      assert after.seats[i] == Some(j) && after.conns[j].ready && !after.conns[j].connected;
      assert !SeatOK(after, AfterRead(l, clients, j), i);
    } else {
      ReadyStaysCounted(l, j, first);
    }
  }

  lemma LateMoveBreaksRoom(l: Lobby, clients: ClientTable, j: nat, column: u8, first: u8)
    requires RoomOK(l, clients) && DistinctSerials(l) && l.isPlayingGame && j < |l.conns| && !l.conns[j].connected
    requires l.conns[j].serial < |clients| && clients[l.conns[j].serial].out != [] && column != MINUS_ONE
    requires HeadOf(l, clients, j) == TurnMessage(l.conns[j].id, column)
    ensures !RoomOK(ReadMessage(l, j, HeadOf(l, clients, j), first), AfterRead(l, clients, j))
  {
    var id := l.conns[j].id;
    MoveIsHandled(l, j, column, first);
    TurnKeepsPlay(l, id, column);
    if Over(TakeTurn(l.game.value, id, column).0) {
      LastMoveBreaksSeat(l, clients, j, column);
    } else {
      SuccessorKeepsClaim(l, clients, j, column);
      if RoomOK(OnTakeTurn(l, id, column), AfterRead(l, clients, j)) {
        RoomHasOneClaim(OnTakeTurn(l, id, column), AfterRead(l, clients, j));
      }
    }
  }

  lemma LastMoveBreaksSeat(l: Lobby, clients: ClientTable, j: nat, column: u8)
    requires RoomOK(l, clients) && DistinctSerials(l) && l.isPlayingGame && j < |l.conns| && !l.conns[j].connected
    requires l.conns[j].serial < |clients| && clients[l.conns[j].serial].out != []
    requires Over(TakeTurn(l.game.value, l.conns[j].id, column).0)
    ensures !SeatOK(OnTakeTurn(l, l.conns[j].id, column), AfterRead(l, clients, j), l.conns[j].id - 1)
  {
    var id, g := l.conns[j].id, l.game.value;
    var c := SuccessorPlays(l, clients, j);
    var told := OnUpdate(c, id, column, Success);
    SendingExtendsLink(c, clients[c.serial], ResultMessage(Success, column));
    SendingExtendsLink(told.(ready := false), clients[c.serial], GameEnd(TakeTurn(g, id, column).0.winner));
    NoLongerInOrder(LinkOf(c, clients[c.serial]), id, g, ResultMessage(Success, column),
                    GameEnd(TakeTurn(g, id, column).0.winner));
  }

  // A link that holds the turn, told about a move that was not its own, and then of the end.
  lemma NoLongerInOrder(x: Link, id: u8, g: Game, news: Message, end: Message)
    requires Playing(x, id, g) && g.currentPlayer == id && News(news) && end.GameEnd?
    ensures !LinkOK(x.(ready := false, down := x.down + [news] + [end]), id, None)
  {
    var down := x.down + [news] + [end];
    assert down[..|down| - 1] == x.down + [news];
    if x.down != [] {
      assert (x.down + [news])[|x.down| - 1] == x.down[|x.down| - 1];
    }
    assert (x.down + [news])[..|x.down|] == x.down;
  }
}
