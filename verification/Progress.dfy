// Play never deadlocks: from every state of a running game there is a way to its end in which
// nobody leaves; messages are read, and users asked for a move make one.
module Progress {
  import opened Bytes
  import opened Grids
  import opened Rules
  import opened Messages
  import opened Connections
  import opened Clients
  import opened Lobbies
  import opened LobbyInvariants
  import opened Servers
  import opened Links
  import opened Rooms
  import opened Protocol

  // A step of playing on.
  predicate PlaysOn(step: Step) {
    step.ServerReads? || step.ClientReads? || step.ClientMoves?
  }

  // Lobby i plays game g, and connection j belongs to the player to move.
  ghost predicate ToMove(sys: System, i: nat, j: nat, g: Game) {
    i < |sys.server.lobbies|
    && var l := sys.server.lobbies[i];
       l.game == Some(g) && l.isPlayingGame && InProgress(g, l.maxPlayers) && l.maxPlayers >= 2
       && j < |l.conns| && l.conns[j].connected && l.conns[j].id == g.currentPlayer && l.conns[j].serial < |sys.clients|
       && Playing(LinkOf(l.conns[j], sys.clients[l.conns[j].serial]), g.currentPlayer, g)
  }

  lemma SomebodyToMove(sys: System, i: nat) returns (j: nat)
    requires SystemOK(sys) && i < |sys.server.lobbies| && sys.server.lobbies[i].isPlayingGame
    ensures ToMove(sys, i, j, sys.server.lobbies[i].game.value)
  {
    var l := sys.server.lobbies[i];
    assert RoomOK(l, sys.clients);
    EverybodyPlays(l, sys.clients);
    var seat := l.game.value.currentPlayer - 1;
    assert PlaysInSeat(l, sys.clients, seat);
    j := l.seats[seat].value;
  }

  // Staying in the game is enough to stay in order.
  lemma StillToMove(sys: System, i: nat, j: nat, g: Game)
    requires SystemOK(sys) && i < |sys.server.lobbies| && sys.server.lobbies[i].game == Some(g)
    requires j < |sys.server.lobbies[i].conns| && sys.server.lobbies[i].conns[j].connected
    requires sys.server.lobbies[i].conns[j].id == g.currentPlayer
    ensures ToMove(sys, i, j, g)
  {
    var l := sys.server.lobbies[i];
    assert RoomOK(l, sys.clients);
    EverybodyPlays(l, sys.clients);
    OwnSeat(l, sys.clients, j);
    assert PlaysInSeat(l, sys.clients, g.currentPlayer - 1);
  }

  // How far the turn is from being decided: 2 with a move to a full column on its way, 1 with
  // a question open, 0 with a move to a column with room on its way; and how many messages
  // must be read before that changes.
  function Stage(k: Client, g: Game): nat {
    var up := Sift(k.out);
    if up == [] then 1
    else if up[0].TurnMessage? && up[0].column < |g.stacks| && |g.stacks[up[0].column]| < g.rows then 0
    else 2
  }

  function Distance(c: Conn, k: Client, g: Game): nat {
    if Stage(k, g) == 1 then |c.out| + 1 else |k.out|
  }

  lemma FreeColumn(g: Game, players: u8) returns (column: u8)
    requires InProgress(g, players)
    ensures column < |g.stacks| && |g.stacks[column]| < g.rows
  {
    column :| column < |g.stacks| && |g.stacks[column]| != g.rows;
  }

  // The game is over for the lobby, or has one more turn.
  predicate Advanced(sys: System, i: nat, g: Game) {
    i < |sys.server.lobbies|
    && (sys.server.lobbies[i].game.None? || sys.server.lobbies[i].game.value.numTurns == g.numTurns + 1)
  }

  // The next step, when the question has been read: the user picks a column with room.
  lemma AskedMoves(sys: System, i: nat, j: nat, g: Game) returns (step: Step)
    requires SystemOK(sys) && ToMove(sys, i, j, g)
    requires var c := sys.server.lobbies[i].conns[j]; c.out == [] && Stage(sys.clients[c.serial], g) == 1
    ensures var after := Next(sys, step);
            && PlaysOn(step) && SystemOK(after) && ToMove(after, i, j, g)
            && Stage(after.clients[after.server.lobbies[i].conns[j].serial], g) == 0
  {
    var c := sys.server.lobbies[i].conns[j];
    var k := sys.clients[c.serial];
    var column := FreeColumn(g, sys.server.lobbies[i].maxPlayers);
    step := ClientMoves(c.serial, column);
    AnswerIsSent(c, k, g, column);
    NextKeeps(sys, step);
    StillToMove(Next(sys, step), i, j, g);
  }

  lemma AnswerIsSent(c: Conn, k: Client, g: Game, column: u8)
    requires Playing(LinkOf(c, k), g.currentPlayer, g) && c.out == [] && Stage(k, g) == 1
    requires column < |g.stacks| && |g.stacks[column]| < g.rows
    ensures Stage(SendTurn(k, column), g) == 0
  {
    SiftAppend(k.out, TurnMessage(k.playerId, column));
  }

  // While messages are in flight to the client, it reads one.
  lemma AskedReads(sys: System, i: nat, j: nat, g: Game) returns (step: Step)
    requires SystemOK(sys) && ToMove(sys, i, j, g)
    requires var c := sys.server.lobbies[i].conns[j]; c.out != [] && Stage(sys.clients[c.serial], g) == 1
    ensures var after, c := Next(sys, step), sys.server.lobbies[i].conns[j];
            && PlaysOn(step) && SystemOK(after) && ToMove(after, i, j, g)
            && after.server.lobbies[i].conns[j] == c.(out := c.out[1..])
            && Stage(after.clients[c.serial], g) == 1
  {
    step := ClientReads(InLobby(i, j));
    AskedReadsEffect(sys, i, j);
    ReadingKeepsSilence(sys.clients[sys.server.lobbies[i].conns[j].serial], sys.server.lobbies[i].conns[j].out[0]);
    NextKeeps(sys, step);
    StillToMove(Next(sys, step), i, j, g);
  }

  lemma AskedReadsEffect(sys: System, i: nat, j: nat)
    requires GamesPresent(sys.server) && Present(sys, InLobby(i, j)) && sys.server.lobbies[i].conns[j].out != []
    ensures var after, c := Next(sys, ClientReads(InLobby(i, j))), sys.server.lobbies[i].conns[j];
            && |after.server.lobbies| == |sys.server.lobbies|
            && after.server.lobbies[i].game == sys.server.lobbies[i].game
            && after.server.lobbies[i].conns == sys.server.lobbies[i].conns[j := c.(out := c.out[1..])]
            && after.clients == sys.clients[c.serial := HandleRead(sys.clients[c.serial], c.out[0])]
  {
  }

  lemma ServerReadsEffect(sys: System, i: nat, j: nat)
    requires GamesPresent(sys.server) && CanServerRead(sys, InLobby(i, j), 1)
    ensures var after, n := Next(sys, ServerReads(InLobby(i, j), 1)), sys.server.lobbies[i].conns[j].serial;
            && after.server.lobbies
               == sys.server.lobbies[i := ReadMessage(sys.server.lobbies[i], j, sys.clients[n].out[0], 1)]
            && after.clients == sys.clients[n := TakeOff(sys.clients[n])]
  {
  }

  lemma ReadingKeepsSilence(k: Client, m: Message)
    requires Sift(k.out) == []
    ensures Sift(HandleRead(k, m).out) == []
  {
    SiftAppend(k.out, Pong);
  }

  // While noise is ahead of the move, the server reads it.
  lemma ServerReadsNoise(sys: System, i: nat, j: nat, g: Game) returns (step: Step)
    requires SystemOK(sys) && ToMove(sys, i, j, g)
    requires var k := sys.clients[sys.server.lobbies[i].conns[j].serial]; Stage(k, g) != 1 && Noise(k.out[0])
    ensures var after, n := Next(sys, step), sys.server.lobbies[i].conns[j].serial;
            && PlaysOn(step) && SystemOK(after) && ToMove(after, i, j, g)
            && after.server.lobbies[i].conns[j].serial == n
            && Stage(after.clients[n], g) == Stage(sys.clients[n], g)
            && |after.clients[n].out| < |sys.clients[n].out|
  {
    var l := sys.server.lobbies[i];
    var k := sys.clients[l.conns[j].serial];
    step := ServerReads(InLobby(i, j), 1);
    ServerReadsEffect(sys, i, j);
    NoiseIsIgnored(l, j, k.out[0]);
    NextKeeps(sys, step);
    StillToMove(Next(sys, step), i, j, g);
  }

  lemma NoiseIsIgnored(l: Lobby, j: nat, m: Message)
    requires j < |l.conns| && (l.isPlayingGame ==> l.game.Some?) && Noise(m)
    ensures var after := ReadMessage(l, j, m, 1);
            after.game == l.game && SamePeople(after.conns, l.conns)
  {
  }

  // Then the server reads the move, which is accepted exactly when its column has room.
  lemma ServerReadsMove(sys: System, i: nat, j: nat, g: Game) returns (step: Step)
    requires SystemOK(sys) && ToMove(sys, i, j, g)
    requires var k := sys.clients[sys.server.lobbies[i].conns[j].serial]; Stage(k, g) != 1 && !Noise(k.out[0])
    ensures var after, n := Next(sys, step), sys.server.lobbies[i].conns[j].serial;
            && PlaysOn(step) && SystemOK(after)
            && (Stage(sys.clients[n], g) == 0 ==> Advanced(after, i, g))
            && (Stage(sys.clients[n], g) == 2 ==>
                  ToMove(after, i, j, g) && after.server.lobbies[i].conns[j].serial == n
                  && Stage(after.clients[n], g) == 1)
  {
    var l := sys.server.lobbies[i];
    var c := l.conns[j];
    var k := sys.clients[c.serial];
    step := ServerReads(InLobby(i, j), 1);
    ServerReadsEffect(sys, i, j);
    MoveIsRead(l, c, k, j, g);
    NextKeeps(sys, step);
    if Stage(k, g) == 2 {
      StillToMove(Next(sys, step), i, j, g);
    }
  }

  lemma MoveIsRead(l: Lobby, c: Conn, k: Client, j: nat, g: Game)
    requires l.game == Some(g) && l.isPlayingGame && InProgress(g, l.maxPlayers) && j < |l.conns| && c == l.conns[j]
    requires c.id == g.currentPlayer && Playing(LinkOf(c, k), c.id, g) && Stage(k, g) != 1 && !Noise(k.out[0])
    ensures var after := ReadMessage(l, j, k.out[0], 1);
            && (Stage(k, g) == 0 ==> after.game.None? || after.game.value.numTurns == g.numTurns + 1)
            && (Stage(k, g) == 2 ==> after.game == Some(g) && SamePeople(after.conns, l.conns))
            && Stage(TakeOff(k), g) == 1
  {
    ReadingShortensLink(c, k);
    ReadingDuringGame(LinkOf(c, k), c.id, g);
    MoveIsHandled(l, j, k.out[0].column, 1);
    MoveDecides(l, g, c.id, k.out[0].column);
  }

  lemma MoveDecides(l: Lobby, g: Game, id: u8, column: u8)
    requires l.game == Some(g) && l.isPlayingGame && InProgress(g, l.maxPlayers)
    requires id == g.currentPlayer && column < |g.stacks|
    ensures var after := OnTakeTurn(l, id, column);
            if |g.stacks[column]| < g.rows then
              after.game.None? || after.game.value.numTurns == g.numTurns + 1
            else
              after.game == Some(g) && SamePeople(after.conns, l.conns)
  {
    TotalIsSmall(g);
  }

  // From every state of a running game, some sequence of steps of playing on finishes it.
  lemma GameCanFinish(sys: System, i: nat) returns (steps: seq<Step>)
    requires SystemOK(sys) && i < |sys.server.lobbies| && sys.server.lobbies[i].isPlayingGame
    ensures Finished(Continue(sys, steps), i)
    ensures forall k | 0 <= k < |steps| :: PlaysOn(steps[k])
  {
    var j := SomebodyToMove(sys, i);
    steps := FinishFrom(sys, i, j, sys.server.lobbies[i].game.value);
  }

  predicate Finished(sys: System, i: nat) {
    i < |sys.server.lobbies| && !sys.server.lobbies[i].isPlayingGame
  }

  lemma FinishFrom(sys: System, i: nat, j: nat, g: Game) returns (steps: seq<Step>)
    requires SystemOK(sys) && ToMove(sys, i, j, g)
    ensures Finished(Continue(sys, steps), i)
    ensures forall k | 0 <= k < |steps| :: PlaysOn(steps[k])
    decreases MIN_COLUMNS * MIN_ROWS - g.numTurns,
              Stage(sys.clients[sys.server.lobbies[i].conns[j].serial], g),
              Distance(sys.server.lobbies[i].conns[j], sys.clients[sys.server.lobbies[i].conns[j].serial], g)
  {
    var step := OneStepOn(sys, i, j, g);
    var after, rest := Next(sys, step), [];
    if Advanced(after, i, g) {
      RunningGame(after, i);
      if after.server.lobbies[i].isPlayingGame {
        var j' := SomebodyToMove(after, i);
        rest := FinishFrom(after, i, j', after.server.lobbies[i].game.value);
      }
    } else {
      rest := FinishFrom(after, i, j, g);
    }
    steps := [step] + rest;
    assert steps[1..] == rest;
  }

  // The step that brings the turn closer to being decided.
  lemma OneStepOn(sys: System, i: nat, j: nat, g: Game) returns (step: Step)
    requires SystemOK(sys) && ToMove(sys, i, j, g)
    ensures var after := Next(sys, step);
            var c := sys.server.lobbies[i].conns[j];
            && SystemOK(after) && PlaysOn(step)
            && (Advanced(after, i, g)
                || (ToMove(after, i, j, g)
                    && var c' := after.server.lobbies[i].conns[j];
                       Closer(c', after.clients[c'.serial], c, sys.clients[c.serial], g)))
  {
    var c := sys.server.lobbies[i].conns[j];
    var k := sys.clients[c.serial];
    if Stage(k, g) == 1 && c.out == [] {
      step := AskedMoves(sys, i, j, g);
    } else if Stage(k, g) == 1 {
      step := AskedReads(sys, i, j, g);
    } else if Noise(k.out[0]) {
      step := ServerReadsNoise(sys, i, j, g);
    } else {
      step := ServerReadsMove(sys, i, j, g);
    }
  }

  predicate Closer(c: Conn, k: Client, before: Conn, kBefore: Client, g: Game) {
    Stage(k, g) < Stage(kBefore, g)
    || (Stage(k, g) == Stage(kBefore, g) && Distance(c, k, g) < Distance(before, kBefore, g))
  }

  lemma RunningGame(sys: System, i: nat)
    requires SystemOK(sys) && i < |sys.server.lobbies|
    ensures sys.server.lobbies[i].isPlayingGame <==> sys.server.lobbies[i].game.Some?
    ensures sys.server.lobbies[i].isPlayingGame ==> sys.server.lobbies[i].game.value.numTurns < MIN_COLUMNS * MIN_ROWS
  {
    var l := sys.server.lobbies[i];
    assert LobbyOK(l);
    if l.isPlayingGame {
      FullByCount(l.game.value.stacks, l.game.value.rows);
    }
  }
}
