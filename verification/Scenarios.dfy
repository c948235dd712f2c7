// Runs of the server, from the empty one, that reach the inputs shown elsewhere to go wrong.
module Scenarios {
  import opened Bytes
  import opened Grids
  import opened Rules
  import opened Messages
  import opened Connections
  import opened Lobbies
  import opened LobbyInvariants
  import opened Servers
  import opened Conservation
  import opened Rooms
  import opened Theorems
  import opened Agreement
  import opened Discipline
  import opened Beginnings
  import opened LateMoves
  import opened LateReadies

  // ---------------------------------------------------------------- single steps

  // After the inputs, there is one lobby and nobody waits.
  ghost predicate Reaches(inputs: seq<Input>, l: Lobby) {
    RunServer(inputs).lobbies == [l] && RunServer(inputs).queue == []
  }

  lemma Reads1(inputs: seq<Input>, l: Lobby, j: nat, m: Message, first: u8)
    requires Reaches(inputs, l) && j < |l.conns|
    ensures LobbyOK(l) && Reaches(inputs + [Reads(InLobby(0, j), m, first)], ReadMessage(l, j, m, first))
  {
    RunServerKeeps(inputs);
    OneMoreInput(inputs, Reads(InLobby(0, j), m, first));
  }

  lemma Ticks1(inputs: seq<Input>, l: Lobby, j: nat)
    requires Reaches(inputs, l) && j < |l.conns|
    ensures LobbyOK(l) && Reaches(inputs + [Timer(InLobby(0, j))], TimerFires(l, j).0)
  {
    RunServerKeeps(inputs);
    OneMoreInput(inputs, Timer(InLobby(0, j)));
  }

  lemma Arrives1(inputs: seq<Input>, l: Lobby) returns (c: Conn)
    requires Reaches(inputs, l) && !IsFull(l)
    ensures Reaches(inputs + [Arrival], AddPlayer(l, c)) && NewlyArrived(c)
  {
    RunServerKeeps(inputs);
    OneMoreInput(inputs, Arrival);
    c := OnAccept(NewConn(RunServer(inputs).accepted));
  }

  predicate NewlyArrived(c: Conn) {
    c.id == 0 && c.connected && !c.ready && !c.receivedPong && c.missedPongs == 0
  }

  // A player that has not sent anything.
  predicate Silent(c: Conn, id: u8) {
    c.id == id && c.connected && !c.ready && !c.receivedPong && c.missedPongs == 0
  }

  // ---------------------------------------------------------------- players come and go

  lemma FirstArrives() returns (a: Conn)
    ensures Silent(a, 1) && Reaches([Arrival], Lobby(true, false, None, 2, 0, 1, [Some(0), None], [a]))
  {
    var c := OnAccept(NewConn(0));
    a := SetId(c, 1);
    var l := StartedLobby(MIN_NUM_PLAYERS);
    assert [Arrival][..0] == [];
    assert l.seats == [None, None] && FirstFree(l.seats, 0) == 0;
    assert l.seats[0 := Some(0)] == [Some(0), None] && l.conns + [a] == [a];
    assert RunServer([Arrival]) == Serve(EMPTY_SERVER, Arrival);
  }

  lemma SecondArrives(inputs: seq<Input>, conns: seq<Conn>, holder: nat) returns (b: Conn)
    requires Reaches(inputs, Lobby(true, false, None, 2, 0, 1, [Some(holder), None], conns))
    ensures Silent(b, 2)
    ensures Reaches(inputs + [Arrival],
                    Lobby(true, false, None, 2, 0, 2, [Some(holder), Some(|conns|)], conns + [b]))
  {
    var l := Lobby(true, false, None, 2, 0, 1, [Some(holder), None], conns);
    var c := Arrives1(inputs, l);
    b := SetId(c, 2);
    assert FirstFree(l.seats, 0) == 1;
    assert l.seats[1 := Some(|conns|)] == [Some(holder), Some(|conns|)];
  }

  // Two players, neither ready.
  lemma BothArrive() returns (a: Conn, b: Conn)
    ensures Silent(a, 1) && Silent(b, 2)
    ensures Reaches([Arrival, Arrival], Lobby(true, false, None, 2, 0, 2, [Some(0), Some(1)], [a, b]))
  {
    a := FirstArrives();
    b := SecondArrives([Arrival], [a], 0);
    assert [Arrival] + [Arrival] == [Arrival, Arrival] && [a] + [b] == [a, b];
  }

  function TimerTick(j: nat): Input {
    Timer(InLobby(0, j))
  }

  // A ping timer expires four times.
  function TimesOut(inputs: seq<Input>, j: nat): seq<Input> {
    inputs + [TimerTick(j)] + [TimerTick(j)] + [TimerTick(j)] + [TimerTick(j)]
  }

  lemma OneMoreTick(inputs: seq<Input>, l: Lobby, j: nat, c: Conn) returns (after: Conn)
    requires j < |l.conns| && Reaches(inputs, l.(conns := l.conns[j := c]))
    requires c.connected && !c.receivedPong && c.missedPongs < 3
    ensures after == OnTimer(c).0 && after == SendPing(c.(missedPongs := c.missedPongs + 1))
    ensures Reaches(inputs + [TimerTick(j)], l.(conns := l.conns[j := after]))
  {
    Ticks1(inputs, l.(conns := l.conns[j := c]), j);
    after := TickPings(l, j, c);
  }

  lemma TickPings(l: Lobby, j: nat, c: Conn) returns (after: Conn)
    requires j < |l.conns| && (l.isPlayingGame ==> l.game.Some?)
    requires c.connected && !c.receivedPong && c.missedPongs < 3
    ensures after == OnTimer(c).0 && after == SendPing(c.(missedPongs := c.missedPongs + 1))
    ensures TimerFires(l.(conns := l.conns[j := c]), j).0 == l.(conns := l.conns[j := after])
  {
    after := OnTimer(c).0;
    assert l.conns[j := c][j := after] == l.conns[j := after];
  }

  // A member that stays silent is pinged three times, and then lost.
  lemma SilentIsLost(inputs: seq<Input>, l: Lobby, j: nat) returns (c: Conn)
    requires Reaches(inputs, l) && j < |l.conns|
    requires l.conns[j].connected && !l.conns[j].receivedPong && l.conns[j].missedPongs == 0
    ensures c.id == l.conns[j].id && c.connected && c.ready == l.conns[j].ready
    ensures !c.receivedPong && c.missedPongs == 3
    ensures LobbyOK(l.(conns := l.conns[j := c]))
    ensures Reaches(TimesOut(inputs, j), TimerFires(l.(conns := l.conns[j := c]), j).0)
  {
    c := SilentTicks(inputs, l, j);
    Ticks1(inputs + [TimerTick(j)] + [TimerTick(j)] + [TimerTick(j)], l.(conns := l.conns[j := c]), j);
  }

  lemma SilentTicks(inputs: seq<Input>, l: Lobby, j: nat) returns (c: Conn)
    requires Reaches(inputs, l) && j < |l.conns|
    requires l.conns[j].connected && !l.conns[j].receivedPong && l.conns[j].missedPongs == 0
    ensures c.id == l.conns[j].id && c.connected && c.ready == l.conns[j].ready
    ensures !c.receivedPong && c.missedPongs == 3
    ensures Reaches(inputs + [TimerTick(j)] + [TimerTick(j)] + [TimerTick(j)], l.(conns := l.conns[j := c]))
  {
    assert l.(conns := l.conns[j := l.conns[j]]) == l;
    var one := OneMoreTick(inputs, l, j, l.conns[j]);
    var two := OneMoreTick(inputs + [TimerTick(j)], l, j, one);
    c := OneMoreTick(inputs + [TimerTick(j)] + [TimerTick(j)], l, j, two);
  }

  // A silent player times out, alone in its lobby.
  lemma FirstTimesOut(a: Conn) returns (gone: Conn)
    requires Silent(a, 1) && Reaches([Arrival], Lobby(true, false, None, 2, 0, 1, [Some(0), None], [a]))
    ensures gone.id == 1 && !gone.connected && !gone.ready
    ensures Reaches(TimesOut([Arrival], 0), Lobby(true, false, None, 2, 0, 0, [None, None], [gone]))
  {
    var l := Lobby(true, false, None, 2, 0, 1, [Some(0), None], [a]);
    var c := SilentIsLost([Arrival], l, 0);
    gone := OnTimer(c).0;
    assert [a][0 := c] == [c];
    LastTick(l.(conns := [c]), c, gone);
  }

  lemma LastTick(l: Lobby, c: Conn, gone: Conn)
    requires l == Lobby(true, false, None, 2, 0, 1, [Some(0), None], [c])
    requires c.id == 1 && c.connected && !c.ready && !c.receivedPong && c.missedPongs == 3 && gone == OnTimer(c).0
    ensures TimerFires(l, 0).0 == Lobby(true, false, None, 2, 0, 0, [None, None], [gone])
  {
    var lost := l.(conns := [c][0 := gone]);
    assert SeatHasId(lost, 0, 1) && FindPlayer(lost, 1, 0) == 0;
    assert lost.seats[0 := None] == [None, None] && lost.conns == [gone];
  }

  const SUCCESSION: seq<Input> := TimesOut([Arrival], 0) + [Arrival]

  // Its seat and id go to the next one to arrive.
  lemma SuccessorArrives() returns (gone: Conn, c: Conn)
    ensures gone.id == 1 && !gone.connected && !gone.ready && Silent(c, 1)
    ensures Reaches(SUCCESSION, Lobby(true, false, None, 2, 0, 1, [Some(1), None], [gone, c]))
  {
    var a := FirstArrives();
    gone := FirstTimesOut(a);
    c := NextTakesSeat(TimesOut([Arrival], 0), gone);
  }

  lemma NextTakesSeat(inputs: seq<Input>, gone: Conn) returns (c: Conn)
    requires Reaches(inputs, Lobby(true, false, None, 2, 0, 0, [None, None], [gone]))
    ensures Silent(c, 1)
    ensures Reaches(inputs + [Arrival], Lobby(true, false, None, 2, 0, 1, [Some(1), None], [gone, c]))
  {
    var l := Lobby(true, false, None, 2, 0, 0, [None, None], [gone]);
    var k := Arrives1(inputs, l);
    c := SetId(k, 1);
    NextIsSeated(l, gone, k);
  }

  lemma NextIsSeated(l: Lobby, gone: Conn, k: Conn)
    requires l == Lobby(true, false, None, 2, 0, 0, [None, None], [gone])
    ensures AddPlayer(l, k) == Lobby(true, false, None, 2, 0, 1, [Some(1), None], [gone, SetId(k, 1)])
  {
    FirstSeatIsTaken(l, k);
    assert [gone] + [SetId(k, 1)] == [gone, SetId(k, 1)];
  }

  lemma FirstSeatIsTaken(l: Lobby, k: Conn)
    requires |l.seats| == 2 && l.seats[0] == None && CanAddPlayers(l)
    ensures AddPlayer(l, k) == l.(seats := [Some(|l.conns|), l.seats[1]], conns := l.conns + [SetId(k, 1)],
                                  numPlayers := Wrap(l.numPlayers + 1))
  {
    assert FirstFree(l.seats, 0) == 0;
    assert l.seats[0 := Some(|l.conns|)] == [Some(|l.conns|), l.seats[1]];
  }

  // ---------------------------------------------------------------- the failing inputs

  // A run after which a game is on with a player who was never ready.
  lemma SecondReadyHappens(first: u8) returns (l: Lobby)
    ensures var ready := Reads(InLobby(0, 0), Ready(1), first);
            Reaches([Arrival, Arrival] + [ready] + [ready], l)
    ensures l.isPlayingGame && |l.conns| == 2 && !l.conns[1].ready
  {
    var a, b := BothArrive();
    var two := Lobby(true, false, None, 2, 0, 2, [Some(0), Some(1)], [a, b]);
    Reads1([Arrival, Arrival], two, 0, Ready(1), first);
    var once := ReadMessage(two, 0, Ready(1), first);
    ReadMessageKeeps(two, 0, Ready(1), first);
    Reads1([Arrival, Arrival] + [Reads(InLobby(0, 0), Ready(1), first)], once, 0, Ready(1), first);
    l := ReadMessage(once, 0, Ready(1), first);
    ReadMessageKeeps(once, 0, Ready(1), first);
    SecondReadyStartsEarly(a, b, first);
  }

  // A run after which a ready is counted, and nobody is ready: the first player timed out, and
  // a read was pending.
  lemma LateReadyHappens(first: u8) returns (l: Lobby)
    ensures Reaches(SUCCESSION + [Reads(InLobby(0, 0), Ready(1), first)], l)
    ensures l.numReady == 1 && ReadySeats(l) == {}
  {
    var gone, c := SuccessorArrives();
    var two := Lobby(true, false, None, 2, 0, 1, [Some(1), None], [gone, c]);
    Reads1(SUCCESSION, two, 0, Ready(1), first);
    LateReadyCountsForSuccessor(gone, c, first);
    l := ReadMessage(two, 0, Ready(1), first);
  }

  // A player in a game.
  predicate Plays(c: Conn, id: u8) {
    c.id == id && c.connected && !c.receivedPong && c.missedPongs == 0
  }

  // Both players are ready, and a game begins.
  lemma GameBegins(inputs: seq<Input>, gone: Conn, c: Conn, d: Conn, pick: u8) returns (c': Conn, d': Conn)
    requires gone.id == 1 && !gone.connected && Silent(c, 1) && Silent(d, 2)
    requires Reaches(inputs, Lobby(true, false, None, 2, 0, 2, [Some(1), Some(2)], [gone, c, d]))
    ensures Plays(c', 1) && Plays(d', 2)
    ensures Reaches(inputs + [Reads(InLobby(0, 1), Ready(1), pick)] + [Reads(InLobby(0, 2), Ready(2), pick)],
                    Lobby(true, true, Some(LobbyGame(2, pick)), 2, 2, 2, [Some(1), Some(2)], [gone, c', d']))
  {
    var l := Lobby(true, false, None, 2, 0, 2, [Some(1), Some(2)], [gone, c, d]);
    Reads1(inputs, l, 1, Ready(1), pick);
    FirstIsReady(l, gone, c, d, pick);
    var one := l.(numReady := 1, conns := [gone, c.(ready := true), d]);
    Reads1(inputs + [Reads(InLobby(0, 1), Ready(1), pick)], one, 2, Ready(2), pick);
    c', d' := SecondIsReady(one, gone, c.(ready := true), d, pick);
  }

  lemma FirstIsReady(l: Lobby, gone: Conn, c: Conn, d: Conn, pick: u8)
    requires LobbyOK(l) && c.id == 1
    requires l == Lobby(true, false, None, 2, 0, 2, [Some(1), Some(2)], [gone, c, d])
    ensures ReadMessage(l, 1, Ready(1), pick) == l.(numReady := 1, conns := [gone, c.(ready := true), d])
  {
    ReadyIsRead(l, 1, pick);
    assert l.conns[1 := c.(ready := true)] == [gone, c.(ready := true), d];
  }

  lemma SecondIsReady(l: Lobby, gone: Conn, c: Conn, d: Conn, pick: u8) returns (c': Conn, d': Conn)
    requires LobbyOK(l) && !gone.connected && Plays(c, 1) && Plays(d, 2)
    requires l == Lobby(true, false, None, 2, 1, 2, [Some(1), Some(2)], [gone, c, d])
    ensures Plays(c', 1) && Plays(d', 2)
    ensures ReadMessage(l, 2, Ready(2), pick)
            == Lobby(true, true, Some(LobbyGame(2, pick)), 2, 2, 2, [Some(1), Some(2)], [gone, c', d'])
  {
    var g := LobbyGame(2, pick);
    ReadyIsRead(l, 2, pick);
    c' := OnTurn(OnGameStart(c, 2, g), g.currentPlayer);
    d' := OnTurn(OnGameStart(d.(ready := true), 2, g), g.currentPlayer);
    assert WithReady(l, 2).conns == [gone, c, d.(ready := true)];
    assert SignalTurn(SignalGameStart([gone, c, d.(ready := true)], 2, g), g.currentPlayer) == [gone, c', d'];
  }

  // Two players arrive after the first one was lost, and are ready.
  function Begun(pick: u8): seq<Input> {
    SUCCESSION + [Arrival] + [Reads(InLobby(0, 1), Ready(1), pick)] + [Reads(InLobby(0, 2), Ready(2), pick)]
  }

  lemma SuccessorPlaysOther(pick: u8) returns (gone: Conn, c: Conn, d: Conn)
    ensures gone.id == 1 && !gone.connected && Plays(c, 1) && Plays(d, 2)
    ensures Reaches(Begun(pick), Lobby(true, true, Some(LobbyGame(2, pick)), 2, 2, 2, [Some(1), Some(2)], [gone, c, d]))
  {
    gone, c := SuccessorArrives();
    d := SecondArrives(SUCCESSION, [gone, c], 1);
    assert [gone, c] + [d] == [gone, c, d];
    c, d := GameBegins(SUCCESSION + [Arrival], gone, c, d, pick);
  }

  // A run after which a move of a dead connection has been played for its successor.
  lemma LateMoveHappens(column: u8) returns (l: Lobby)
    requires column < MIN_COLUMNS
    ensures Reaches(Begun(1) + [Reads(InLobby(0, 0), TurnMessage(1, column), 1)], l)
    ensures l.game.Some? && l.game.value.numTurns == 1
  {
    var gone, c, d := SuccessorPlaysOther(1);
    var playing := Lobby(true, true, Some(LobbyGame(2, 1)), 2, 2, 2, [Some(1), Some(2)], [gone, c, d]);
    Reads1(Begun(1), playing, 0, TurnMessage(1, column), 1);
    LateMovePlaysForSuccessor(gone, c, d, column, 1);
    l := ReadMessage(playing, 0, TurnMessage(1, column), 1);
  }

  // ---------------------------------------------------------------- a stale move is played

  // The game of the run before is aborted, because the successor times out; somebody else
  // takes its place and is ready. The first player's Ready is still to be read.
  lemma SuccessorTimesOut() returns (gone: Conn, c: Conn, d: Conn, e: Conn)
    ensures !gone.connected && gone.id == 1 && d.id == 2 && d.connected && e.id == 1 && e.connected
    ensures Reaches(TimesOut(Begun(2), 1) + [Arrival],
                    Lobby(true, false, None, 2, 0, 2, [Some(3), Some(2)], [gone, c, d, e]))
  {
    gone, c, d := SuccessorPlaysOther(2);
    var playing := Lobby(true, true, Some(LobbyGame(2, 2)), 2, 2, 2, [Some(1), Some(2)], [gone, c, d]);
    var last := SilentIsLost(Begun(2), playing, 1);
    assert [gone, c, d][1 := last] == [gone, last, d];
    gone, c, d := GameAborts(playing.(conns := [gone, last, d]), gone, last, d);
    var alone := Lobby(true, false, None, 2, 0, 1, [None, Some(2)], [gone, c, d]);
    var k := Arrives1(TimesOut(Begun(2), 1), alone);
    e := SetId(k, 1);
    FirstSeatIsTaken(alone, k);
    assert [gone, c, d] + [e] == [gone, c, d, e];
  }

  lemma GameAborts(l: Lobby, gone: Conn, c: Conn, d: Conn) returns (gone': Conn, c': Conn, d': Conn)
    requires gone.id == 1 && !gone.connected && d.id == 2 && d.connected
    requires c.id == 1 && c.connected && !c.receivedPong && c.missedPongs == 3
    requires l == Lobby(true, true, Some(LobbyGame(2, 2)), 2, 2, 2, [Some(1), Some(2)], [gone, c, d])
    ensures gone'.id == 1 && !gone'.connected && d'.id == 2 && d'.connected
    ensures TimerFires(l, 1).0 == Lobby(true, false, None, 2, 0, 1, [None, Some(2)], [gone', c', d'])
  {
    var lost, winner := l.(conns := [gone, c, d][1 := OnTimer(c).0]), LobbyGame(2, 2).winner;
    assert SeatHasId(lost, 0, 1) && FindPlayer(lost, 1, 0) == 0;
    assert lost.seats[0 := None] == [None, Some(2)] && lost.conns == [gone, OnTimer(c).0, d];
    gone', c', d' := OnGameEnd(gone, winner), OnGameEnd(OnTimer(c).0, winner), OnGameEnd(d, winner);
    assert SignalGameEnd(lost.conns, winner) == [gone', c', d'];
  }

  // A run after which a move is played that was made in an earlier game: it was still to be
  // read when the first player's late Ready started the next one.
  lemma StaleMoveHappens(column: u8) returns (before: Lobby, after: Lobby)
    requires column < MIN_COLUMNS
    ensures var rematch := TimesOut(Begun(2), 1) + [Arrival] + [Reads(InLobby(0, 3), Ready(1), 2)]
                           + [Reads(InLobby(0, 0), Ready(1), 2)];
            Reaches(rematch, before) && Reaches(rematch + [Reads(InLobby(0, 2), TurnMessage(2, column), 2)], after)
    ensures before.isPlayingGame && after.game != before.game
  {
    var gone, c, d, e := SuccessorTimesOut();
    var inputs := TimesOut(Begun(2), 1) + [Arrival];
    var ready := NewcomerIsReady(inputs, gone, c, d, e);
    inputs := inputs + [Reads(InLobby(0, 3), Ready(1), 2)];
    Reads1(inputs, ready, 0, Ready(1), 2);
    before := ReadMessage(ready, 0, Ready(1), 2);
    LateReadyCompletes(ready, column);
    Reads1(inputs + [Reads(InLobby(0, 0), Ready(1), 2)], before, 2, TurnMessage(2, column), 2);
    after := ReadMessage(before, 2, TurnMessage(2, column), 2);
  }

  lemma NewcomerIsReady(inputs: seq<Input>, gone: Conn, c: Conn, d: Conn, e: Conn) returns (l: Lobby)
    requires gone.id == 1 && d.id == 2 && e.id == 1
    requires Reaches(inputs, Lobby(true, false, None, 2, 0, 2, [Some(3), Some(2)], [gone, c, d, e]))
    ensures LobbyOK(l) && Reaches(inputs + [Reads(InLobby(0, 3), Ready(1), 2)], l)
    ensures l == Lobby(true, false, None, 2, 1, 2, [Some(3), Some(2)], [gone, c, d, e.(ready := true)])
  {
    var two := Lobby(true, false, None, 2, 0, 2, [Some(3), Some(2)], [gone, c, d, e]);
    Reads1(inputs, two, 3, Ready(1), 2);
    NewcomerIsCounted(two, gone, c, d, e);
    l := ReadMessage(two, 3, Ready(1), 2);
  }

  lemma NewcomerIsCounted(l: Lobby, gone: Conn, c: Conn, d: Conn, e: Conn)
    requires LobbyOK(l) && e.id == 1
    requires l == Lobby(true, false, None, 2, 0, 2, [Some(3), Some(2)], [gone, c, d, e])
    ensures LobbyOK(ReadMessage(l, 3, Ready(1), 2))
    ensures ReadMessage(l, 3, Ready(1), 2) == l.(numReady := 1, conns := [gone, c, d, e.(ready := true)])
  {
    ReadyIsRead(l, 3, 2);
    ReadMessageKeeps(l, 3, Ready(1), 2);
    assert l.conns[3 := e.(ready := true)] == [gone, c, d, e.(ready := true)];
  }

  lemma LateReadyCompletes(l: Lobby, column: u8)
    requires LobbyOK(l) && !l.isPlayingGame && l.numReady == 1 && l.numPlayers == 2 == l.maxPlayers
    requires column < MIN_COLUMNS
    requires |l.conns| == 4 && l.conns[0].id == 1 && l.conns[2].id == 2 && l.seats == [Some(3), Some(2)]
    ensures var after := ReadMessage(l, 0, Ready(1), 2);
            && LobbyOK(after) && after.isPlayingGame && |after.conns| == 4
            && ReadMessage(after, 2, TurnMessage(2, column), 2).game != after.game
  {
    StaleMoveIsPlayed(l, 0, Ready(1), 2, 2, column, 2);
    ReadBegins(l, 0, Ready(1), 2);
    PickTwo();
  }

  // ---------------------------------------------------------------- a game is replaced

  // During a game, a Ready that does not complete the count changes the count and nothing else.
  lemma ReadyDuringGame(l: Lobby, j: nat, first: u8)
    requires LobbyOK(l) && l.isPlayingGame && j < |l.conns| && Wrap(l.numReady + 1) != l.numPlayers
    ensures ReadMessage(l, j, Ready(l.conns[j].id), first)
            == WithReady(l, j).(numReady := Wrap(l.numReady + 1))
  {
    FullMeansAllTaken(l);
    ReadyIsRead(l, j, first);
  }

  // The second connection said n times during a game that it is ready.
  predicate ReadyTooOften(l: Lobby, g: Game, n: nat) {
    l.isPlayingGame && l.game == Some(g) && l.numReady == Wrap(2 + n) && l.numPlayers == 2 == l.maxPlayers
    && |l.conns| == 3 && l.conns[1].id == 1 && l.conns[1].connected
  }

  function Again(): Input {
    Reads(InLobby(0, 1), Ready(1), 1)
  }

  function Readies(inputs: seq<Input>, n: nat): seq<Input> {
    if n == 0 then inputs else Readies(inputs, n - 1) + [Again()]
  }

  lemma ReadyAgain(inputs: seq<Input>, l: Lobby, g: Game, n: nat) returns (after: Lobby)
    requires Reaches(inputs, l) && ReadyTooOften(l, g, n) && n < 255
    ensures Reaches(inputs + [Again()], after) && ReadyTooOften(after, g, n + 1)
  {
    Reads1(inputs, l, 1, Ready(1), 1);
    after := CountsAgain(l, g, n);
  }

  lemma CountsAgain(l: Lobby, g: Game, n: nat) returns (after: Lobby)
    requires LobbyOK(l) && ReadyTooOften(l, g, n) && n < 255
    ensures after == ReadMessage(l, 1, Ready(1), 1) && ReadyTooOften(after, g, n + 1)
  {
    ReadyDuringGame(l, 1, 1);
    after := WithReady(l, 1).(numReady := Wrap(l.numReady + 1));
  }

  lemma {:induction false} ReadiesAreCounted(inputs: seq<Input>, l: Lobby, g: Game, n: nat) returns (after: Lobby)
    requires Reaches(inputs, l) && ReadyTooOften(l, g, 0) && n <= 255
    ensures Reaches(Readies(inputs, n), after) && ReadyTooOften(after, g, n)
  {
    if n == 0 {
      after := l;
    } else {
      var before := ReadiesAreCounted(inputs, l, g, n - 1);
      after := ReadyAgain(Readies(inputs, n - 1), before, g, n - 1);
    }
  }

  // A run in which a running game is replaced: a client says 256 times during a game that it is
  // ready, so that the count, in eight bits, comes round to the number of players.
  lemma GameReplacedHappens()
    ensures GameReplaced(RunServer(Readies(Begun(2), 255)), Again())
  {
    var gone, c, d := SuccessorPlaysOther(2);
    var playing := Lobby(true, true, Some(LobbyGame(2, 2)), 2, 2, 2, [Some(1), Some(2)], [gone, c, d]);
    var l := ReadiesAreCounted(Begun(2), playing, LobbyGame(2, 2), 255);
    Reads1(Readies(Begun(2), 255), l, 1, Ready(1), 1);
    LastReadyReplaces(l);
  }

  lemma LastReadyReplaces(l: Lobby)
    requires LobbyOK(l) && ReadyTooOften(l, LobbyGame(2, 2), 255)
    ensures Replaces(l, 1, Ready(1), 1)
  {
    PickTwo();
    LobbyGameStarts(2, 1);
    FullMeansAllTaken(l);
  }
}
