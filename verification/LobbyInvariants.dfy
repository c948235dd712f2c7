// What every lobby event keeps, whatever the clients send.
module LobbyInvariants {
  import opened Bytes
  import opened Grids
  import opened Rules
  import opened Messages
  import opened Connections
  import opened Lobbies

  // The connections differ at most in what was sent to them and in their ready flags.
  predicate SamePeople(a: seq<Conn>, b: seq<Conn>) {
    |a| == |b|
    && forall j | 0 <= j < |a| ::
         a[j].id == b[j].id && a[j].connected == b[j].connected && a[j].serial == b[j].serial
  }

  predicate SameSeating(a: Lobby, b: Lobby) {
    a.maxPlayers == b.maxPlayers && a.numPlayers == b.numPlayers && a.seats == b.seats && SamePeople(a.conns, b.conns)
  }

  lemma SeatingKeepsSeats(a: Lobby, b: Lobby)
    requires SeatsOK(a) && SameSeating(a, b)
    ensures SeatsOK(b)
  {
  }

  // In a lobby in order, a connected player is found in its own seat and nowhere else.
  lemma FoundAtOwnSeat(l: Lobby, j: nat)
    requires SeatsOK(l) && j < |l.conns|
    ensures var id := l.conns[j].id;
            FindPlayer(l, id, 0) == if l.seats[id - 1].Some? then id - 1 else |l.seats|
    ensures l.conns[j].connected ==> l.seats[FindPlayer(l, l.conns[j].id, 0)] == Some(j)
  {
    var id, k := l.conns[j].id, FindPlayer(l, l.conns[j].id, 0);
    if l.seats[id - 1].Some? {
      assert SeatHasId(l, id - 1, id);
    }
  }

  // Not full means that some seat is free, and the first free one is found.
  lemma FreeSeatExists(l: Lobby)
    requires SeatsOK(l) && !IsFull(l)
    ensures FirstFree(l.seats, 0) < |l.seats|
  {
    if FirstFree(l.seats, 0) == |l.seats| {
      AllTaken(l.seats);
    }
  }

  lemma {:induction false} AllTaken(seats: seq<Option<nat>>)
    requires forall i | 0 <= i < |seats| :: seats[i].Some?
    ensures |Taken(seats)| == |seats|
  {
    if seats != [] {
      var before, n := seats[..|seats| - 1], |seats| - 1;
      AllTaken(before);
      assert Taken(seats) == Taken(before) + {n};
    } else {
      assert Taken(seats) == {};
    }
  }

  lemma FullMeansAllTaken(l: Lobby)
    requires SeatsOK(l)
    ensures IsFull(l) <==> forall i | 0 <= i < |l.seats| :: l.seats[i].Some?
  {
    var full := seq(|l.seats|, _ => Some(0));
    AllTaken(full);
    assert Taken(l.seats) <= Taken(full);
    if IsFull(l) {
      SubsetOfSameSize(Taken(l.seats), Taken(full));
      forall i | 0 <= i < |l.seats| ensures l.seats[i].Some? {
        assert i in Taken(full);
      }
    } else {
      FreeSeatExists(l);
    }
  }

  lemma SubsetOfSameSize<T>(a: set<T>, b: set<T>)
    requires a <= b && |a| == |b|
    ensures a == b
  {
    assert |b - a| == |b| - |a|;
  }

  // Once a lobby is in order, addPlayer never discards anybody: it turns players away only
  // when all seats are taken.
  lemma OnlyFullLobbiesRefuse(l: Lobby)
    requires LobbyOK(l)
    ensures CanAddPlayers(l) <==> !IsFull(l)
  {
  }

  // A new player gets the least free seat.
  lemma AddPlayerKeeps(l: Lobby, c: Conn)
    requires LobbyOK(l) && !IsFull(l) && c.id == 0
    ensures var k := FirstFree(l.seats, 0);
            && k < |l.seats| && l.seats[k] == None
            && (forall i | 0 <= i < k :: l.seats[i].Some?)
            && AddPlayer(l, c).seats == l.seats[k := Some(|l.conns|)]
            && AddPlayer(l, c).conns == l.conns + [SetId(c, k + 1)]
    ensures LobbyOK(AddPlayer(l, c))
  {
    FreeSeatExists(l);
    SetIdAssigns(c, FirstFree(l.seats, 0) + 1);
    SeatTakenKeepsSeats(l, FirstFree(l.seats, 0), SetId(c, FirstFree(l.seats, 0) + 1));
  }

  lemma SeatTakenKeepsSeats(l: Lobby, k: nat, c: Conn)
    requires SeatsOK(l) && k < |l.seats| && l.seats[k].None? && c.id == k + 1
    ensures l.numPlayers + 1 <= l.maxPlayers
    ensures SeatsOK(l.(seats := l.seats[k := Some(|l.conns|)], conns := l.conns + [c], numPlayers := l.numPlayers + 1))
  {
    SeatChangeCounts(l.seats, k, Some(|l.conns|));
    AtMostAllSeats(l.seats[k := Some(|l.conns|)]);
    OccupantsKeepTheirSeats(l, k, c);
    ConnectionsKeepTheirSeats(l, k, c);
  }

  lemma OccupantsKeepTheirSeats(l: Lobby, k: nat, c: Conn)
    requires SeatsOK(l) && k < |l.seats| && l.seats[k].None? && c.id == k + 1
    ensures var seats, conns := l.seats[k := Some(|l.conns|)], l.conns + [c];
            forall i | 0 <= i < |seats| && seats[i].Some? ::
              seats[i].value < |conns| && conns[seats[i].value].id == i + 1
  {
  }

  lemma ConnectionsKeepTheirSeats(l: Lobby, k: nat, c: Conn)
    requires SeatsOK(l) && k < |l.seats| && l.seats[k].None? && c.id == k + 1
    ensures var seats, conns := l.seats[k := Some(|l.conns|)], l.conns + [c];
            && (forall j | 0 <= j < |conns| :: 1 <= conns[j].id <= l.maxPlayers)
            && (forall j | 0 <= j < |conns| && conns[j].connected :: seats[conns[j].id - 1] == Some(j))
  {
  }

  lemma SetIdAssigns(c: Conn, id: u8)
    requires c.id == 0
    ensures SetId(c, id).id == id && SetId(c, id).connected == c.connected && SetId(c, id).serial == c.serial
  {
  }

  lemma SeatChangeCounts(seats: seq<Option<nat>>, k: nat, occupant: Option<nat>)
    requires k < |seats| && (seats[k].None? <==> occupant.Some?)
    ensures |Taken(seats[k := occupant])| == |Taken(seats)| + if occupant.Some? then 1 else -1
  {
    if occupant.Some? {
      assert Taken(seats[k := occupant]) == Taken(seats) + {k};
    } else {
      assert Taken(seats[k := occupant]) == Taken(seats) - {k};
    }
  }

  lemma AtMostAllSeats(seats: seq<Option<nat>>)
    ensures |Taken(seats)| <= |seats|
  {
    var full := seq(|seats|, _ => Some(0));
    AllTaken(full);
    CardinalityLe(Taken(seats), Taken(full));
  }

  lemma NewLobbyInOrder(maxPlayers: u8)
    requires maxPlayers >= 2
    ensures LobbyOK(StartedLobby(maxPlayers)) && !IsFull(StartedLobby(maxPlayers))
  {
    assert Taken(StartedLobby(maxPlayers).seats) == {};
  }

  lemma LobbyGameStarts(maxPlayers: u8, first: u8)
    requires maxPlayers >= 2
    ensures InProgress(LobbyGame(maxPlayers, first), maxPlayers)
    ensures 1 <= first <= maxPlayers ==> LobbyGame(maxPlayers, first).currentPlayer == first
  {
    NewGameIsSound(maxPlayers, first, MIN_COLUMNS, MIN_ROWS);
  }

  lemma OnReadyKeeps(l: Lobby, id: u8, first: u8)
    requires LobbyOK(l)
    ensures LobbyOK(OnReady(l, id, first)) && SameSeating(l, OnReady(l, id, first))
  {
    LobbyGameStarts(l.maxPlayers, first);
    SeatingKeepsSeats(l, OnReady(l, id, first));
  }

  lemma OnTakeTurnKeeps(l: Lobby, id: u8, column: u8)
    requires LobbyOK(l)
    ensures LobbyOK(OnTakeTurn(l, id, column)) && SameSeating(l, OnTakeTurn(l, id, column))
  {
    TurnKeepsSeating(l, id, column);
    SeatingKeepsSeats(l, OnTakeTurn(l, id, column));
    TurnKeepsPlay(l, id, column);
  }

  lemma TurnKeepsSeating(l: Lobby, id: u8, column: u8)
    requires l.isPlayingGame ==> l.game.Some?
    ensures SameSeating(l, OnTakeTurn(l, id, column))
  {
  }

  // The lobby ends a game on exactly the move that wins it or fills the board.
  lemma TurnKeepsPlay(l: Lobby, id: u8, column: u8)
    requires PlayOK(l)
    ensures PlayOK(OnTakeTurn(l, id, column))
    ensures OnTakeTurn(l, id, column).isPlayingGame <==>
              l.isPlayingGame && !Over(TakeTurn(l.game.value, id, column).0)
  {
    if l.isPlayingGame {
      TurnInProgress(l.game.value, l.maxPlayers, id, column);
    }
  }

  lemma TurnInProgress(g: Game, players: u8, player: u8, column: u8)
    requires InProgress(g, players)
    ensures var after := TakeTurn(g, player, column).0;
            Over(after) || InProgress(after, players)
  {
    TurnKeepsSound(g, player, column);
    TurnKeepsSettled(g, player, column);
  }

  lemma ReadMessageKeeps(l: Lobby, j: nat, m: Message, first: u8)
    requires LobbyOK(l) && j < |l.conns|
    ensures LobbyOK(ReadMessage(l, j, m, first)) && SameSeating(l, ReadMessage(l, j, m, first))
  {
    var (c, event) := OnRead(l.conns[j], m);
    var read := l.(conns := l.conns[j := c]);
    SeatingKeepsSeats(l, read);
    SameSeatingIsTransitive(l, read, ReadMessage(l, j, m, first));
    match event
    case Readied => OnReadyKeeps(read, c.id, first);
    case TookTurn(column) => OnTakeTurnKeeps(read, c.id, column);
    case _ =>
  }

  lemma SameSeatingIsTransitive(a: Lobby, b: Lobby, c: Lobby)
    ensures SameSeating(a, b) && SameSeating(b, c) ==> SameSeating(a, c)
  {
  }

  // A lobby about to handle the loss of connection j: in order, except that the connection
  // still has its seat.
  ghost predicate Losing(l: Lobby, j: nat) {
    j < |l.conns| && !l.conns[j].connected && PlayOK(l)
    && SeatsOK(l) && l.seats[l.conns[j].id - 1] == Some(j)
  }

  // Disconnecting by id empties the seat of the connection that was lost and no other, and
  // leaves a lobby that can take a player.
  lemma OnDisconnectKeeps(l: Lobby, j: nat)
    requires Losing(l, j)
    ensures var (after, available) := OnDisconnect(l, l.conns[j].id);
            && LobbyOK(after) && available && !IsFull(after) && !after.isPlayingGame
            && after.maxPlayers == l.maxPlayers
            && after.seats == l.seats[l.conns[j].id - 1 := None]
            && SamePeople(l.conns, after.conns)
  {
    FoundAtOwnSeat(l, j);
    FreeingKeepsSeats(l, j);
    SeatingKeepsSeats(Freed(l, l.conns[j].id - 1), OnDisconnect(l, l.conns[j].id).0);
  }

  // Without the player in seat i.
  function Freed(l: Lobby, i: nat): Lobby
    requires i < |l.seats| && l.numPlayers > 0
  {
    l.(seats := l.seats[i := None], numPlayers := l.numPlayers - 1)
  }

  lemma FreeingKeepsSeats(l: Lobby, j: nat)
    requires Losing(l, j)
    ensures l.numPlayers > 0 && SeatsOK(Freed(l, l.conns[j].id - 1)) && !IsFull(Freed(l, l.conns[j].id - 1))
  {
    SeatChangeCounts(l.seats, l.conns[j].id - 1, None);
    AtMostAllSeats(l.seats);
  }

  lemma CardinalityLe<T>(a: set<T>, b: set<T>)
    requires a <= b
    ensures |a| <= |b|
  {
    assert |b - a| == |b| - |a|;
  }

  lemma LossOutcome(c: Conn, outcome: (Conn, Event))
    requires outcome == HandleDisconnect(c) || outcome == OnTimer(c)
    ensures outcome.0.id == c.id && outcome.0.serial == c.serial
    ensures outcome.0.connected == (c.connected && outcome.1 != Lost)
    ensures outcome.1 == Lost ==> c.connected
  {
  }

  lemma LostPlayerStillSeated(l: Lobby, j: nat, c: Conn)
    requires LobbyOK(l) && j < |l.conns| && l.conns[j].connected
    requires !c.connected && c.id == l.conns[j].id
    ensures Losing(l.(conns := l.conns[j := c]), j)
  {
    var lost := l.(conns := l.conns[j := c]);
    forall i | 0 <= i < |lost.conns| && lost.conns[i].connected ensures lost.seats[lost.conns[i].id - 1] == Some(i) {
      assert lost.conns[i] == l.conns[i];
    }
  }

  // A read error or a timer tick either loses a connected player, and frees its seat, or
  // changes nothing about the seating.
  lemma LossKeeps(l: Lobby, j: nat, outcome: (Conn, Event))
    requires LobbyOK(l) && j < |l.conns|
    requires outcome == HandleDisconnect(l.conns[j]) || outcome == OnTimer(l.conns[j])
    ensures var (after, available) := AfterEvent(l, j, outcome);
            && LobbyOK(after)
            && available == (outcome.1 == Lost)
            && (available ==> l.conns[j].connected && !IsFull(after)
                              && after.seats == l.seats[l.conns[j].id - 1 := None])
            && (!available ==> SameSeating(l, after))
            && |after.conns| == |l.conns| && after.maxPlayers == l.maxPlayers
            && forall k | 0 <= k < |l.conns| ::
                 after.conns[k].serial == l.conns[k].serial && after.conns[k].id == l.conns[k].id
                 && after.conns[k].connected == (l.conns[k].connected && !(available && k == j))
  {
    LossOutcome(l.conns[j], outcome);
    var after := l.(conns := l.conns[j := outcome.0]);
    if outcome.1 == Lost {
      LostPlayerStillSeated(l, j, outcome.0);
      OnDisconnectKeeps(after, j);
    } else {
      SeatingKeepsSeats(l, after);
    }
  }

  // ---------------------------------------------------------------- what is ignored

  // Whoever is turned away leaves no trace, and a closed lobby starts no game.
  lemma RefusalsLeaveNoTrace(l: Lobby, c: Conn)
    ensures !l.lobbyIsOpen || l.isPlayingGame || IsFull(l) ==> AddPlayer(l, c) == l
    ensures (!l.lobbyIsOpen || l.isPlayingGame) && l.game.Some? ==> StartGame(l) == l
  {
  }

  // An id that no seat has is not counted ready, and loses nobody a seat.
  lemma UnseatedIdsDoNothing(l: Lobby, id: u8, first: u8)
    requires l.isPlayingGame ==> l.game.Some?
    requires forall i | 0 <= i < |l.seats| :: !SeatHasId(l, i, id)
    ensures OnReady(l, id, first) == l && OnDisconnect(l, id) == (l, false)
  {
  }

  // A ready or a move with somebody else's id, a move to column -1, and every message that
  // only a server sends: none of them has any effect on the lobby.
  lemma ForeignMessagesDoNothing(l: Lobby, j: nat, m: Message, first: u8)
    requires j < |l.conns| && (l.isPlayingGame ==> l.game.Some?)
    requires m != Pong && m != Ready(l.conns[j].id)
    requires m.TurnMessage? ==> m.id != l.conns[j].id || m.column == 0xFF
    ensures ReadMessage(l, j, m, first) == l
  {
    assert l.conns[j := l.conns[j]] == l.conns;
    assert l.(conns := l.conns) == l;
  }

  // ---------------------------------------------------------------- what a turn is answered

  // What player `id` is told about a turn of `mover`, whatever its result.
  function ResultFor(id: u8, mover: u8, column: u8, result: TurnResult): seq<Message> {
    if id == mover then [ResultMessage(result, column)]
    else if result == Success then [Update(mover, column)]
    else []
  }

  // And then: the end of the game, or the request for the next move.
  function SequelFor(id: u8, g: Game, result: TurnResult): seq<Message> {
    if g.winner != 0 || Full(g.stacks, g.rows) then [GameEnd(g.winner)]
    else if result == Success && g.currentPlayer == id then [TurnMessage(id, 0xFF)]
    else []
  }

  // All that a turn of a running game makes the lobby send, to everybody who is connected: its
  // mover hears the result, the others hear of it if it succeeded, and the sequel follows.
  lemma TurnIsAnswered(l: Lobby, id: u8, column: u8, k: nat)
    requires LobbyOK(l) && l.isPlayingGame && k < |l.conns| && l.conns[k].connected
    ensures var (g, result), c := TakeTurn(l.game.value, id, column), l.conns[k];
            OnTakeTurn(l, id, column).conns[k].out
            == c.out + ResultFor(c.id, id, column, result) + SequelFor(c.id, g, result)
  {
    var c, result := l.conns[k], TakeTurn(l.game.value, id, column).1;
    assert c.out + [] == c.out;
    var told := c.out + ResultFor(c.id, id, column, result);
    assert told + [] == told;
  }
}
