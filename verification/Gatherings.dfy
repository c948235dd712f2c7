// Games can begin: wherever all seats of a lobby are held by living connections, reading messages
// and answering the question about being ready is enough to make it play.
module Gatherings {
  import opened Bytes
  import opened Rules
  import opened Messages
  import opened Connections
  import opened Clients
  import opened Lobbies
  import opened LobbyInvariants
  import opened Servers
  import opened Links
  import opened Rooms
  import opened Protocol
  import opened Progress

  // A step towards the start of a game. Nobody arrives, leaves or moves.
  predicate GetsReady(step: Step) {
    step.ServerReads? || step.ClientReads? || step.ClientReadies?
  }

  // Lobby i is full of living connections, and does not play yet.
  predicate Gathered(sys: System, i: nat) {
    i < |sys.server.lobbies|
    && var l := sys.server.lobbies[i];
       IsFull(l) && !l.isPlayingGame && SeatsAlive(l)
  }

  predicate SeatsAlive(l: Lobby) {
    forall k | 0 <= k < |l.seats| ::
      l.seats[k].Some? && l.seats[k].value < |l.conns| && l.conns[l.seats[k].value].connected
  }

  // The seats that are not ready, and their number.
  function Unready(l: Lobby): set<nat> {
    set k: nat | k < |l.seats| && k !in ReadySeats(l)
  }

  function Missing(l: Lobby): nat {
    |Unready(l)|
  }

  // Connection j of lobby i has a seat and is not ready.
  predicate Hesitates(sys: System, i: nat, j: nat) {
    Gathered(sys, i)
    && var l := sys.server.lobbies[i];
       j < |l.conns| && l.conns[j].connected && !l.conns[j].ready && l.conns[j].serial < |sys.clients|
  }

  lemma SomebodyHesitates(sys: System, i: nat) returns (j: nat)
    requires SystemOK(sys) && Gathered(sys, i)
    ensures Hesitates(sys, i, j)
  {
    var l := sys.server.lobbies[i];
    assert RoomOK(l, sys.clients);
    j := UnreadySeat(l, sys.clients);
    OwnSeat(l, sys.clients, j);
  }

  lemma UnreadySeat(l: Lobby, clients: ClientTable) returns (j: nat)
    requires RoomOK(l, clients) && IsFull(l) && !l.isPlayingGame && SeatsAlive(l)
    ensures j < |l.conns| && l.conns[j].connected && !l.conns[j].ready
  {
    ReadyAtMostAll(l);
    var k: nat :| k < |l.seats| && k !in ReadySeats(l);
    j := l.seats[k].value;
  }

  // Whoever hesitates still does, as long as nobody was seated or lost and its flag is the same.
  lemma StillHesitates(sys: System, after: System, i: nat, j: nat)
    requires SystemOK(after) && Hesitates(sys, i, j) && i < |after.server.lobbies|
    requires SameSeating(sys.server.lobbies[i], after.server.lobbies[i]) && !after.server.lobbies[i].isPlayingGame
    requires !after.server.lobbies[i].conns[j].ready
    ensures Hesitates(after, i, j)
  {
    assert RoomOK(after.server.lobbies[i], after.clients);
    OwnSeat(after.server.lobbies[i], after.clients, j);
  }

  // ---------------------------------------------------------------- one more is ready

  // How far somebody is from being counted: 2 while the client has something to read that leads
  // to the question, 1 while its user is asked, 0 with the answer on its way.
  function ReadyStage(c: Conn, k: Client): nat {
    if Sift(c.out) != [] then 2 else if k.mode == AskingReady then 1 else 0
  }

  function ReadyDistance(c: Conn, k: Client): nat {
    if ReadyStage(c, k) == 2 then |c.out| else |k.out|
  }

  predicate Nearer(c: Conn, k: Client, before: Conn, kBefore: Client) {
    ReadyStage(c, k) < ReadyStage(before, kBefore)
    || (ReadyStage(c, k) == ReadyStage(before, kBefore) && ReadyDistance(c, k) < ReadyDistance(before, kBefore))
  }

  function StageAt(sys: System, i: nat, j: nat): nat
    requires Present(sys, InLobby(i, j))
  {
    ReadyStage(sys.server.lobbies[i].conns[j], sys.clients[sys.server.lobbies[i].conns[j].serial])
  }

  function DistanceAt(sys: System, i: nat, j: nat): nat
    requires Present(sys, InLobby(i, j))
  {
    ReadyDistance(sys.server.lobbies[i].conns[j], sys.clients[sys.server.lobbies[i].conns[j].serial])
  }

  // Connection j of lobby i still hesitates, as do the others, but is nearer to being counted.
  predicate ComesNearer(sys: System, after: System, i: nat, j: nat)
    requires Hesitates(sys, i, j)
  {
    Hesitates(after, i, j) && Missing(after.server.lobbies[i]) == Missing(sys.server.lobbies[i])
    && (StageAt(after, i, j) < StageAt(sys, i, j)
        || (StageAt(after, i, j) == StageAt(sys, i, j) && DistanceAt(after, i, j) < DistanceAt(sys, i, j)))
  }

  // Lobby i plays, or needs one player less.
  predicate Gained(before: Lobby, after: Lobby) {
    after.isPlayingGame || (IsFull(after) && SeatsAlive(after) && Missing(after) < Missing(before))
  }

  lemma ClientCatchesUp(sys: System, i: nat, j: nat) returns (step: Step)
    requires SystemOK(sys) && Hesitates(sys, i, j)
    requires var c := sys.server.lobbies[i].conns[j]; ReadyStage(c, sys.clients[c.serial]) == 2
    ensures GetsReady(step) && SystemOK(Next(sys, step)) && ComesNearer(sys, Next(sys, step), i, j)
  {
    var l, c := sys.server.lobbies[i], sys.server.lobbies[i].conns[j];
    step := ClientReads(InLobby(i, j));
    DeliveryEffect(sys, i, j);
    DeliveryKeepsReadiness(l, j);
    DeliveryIsNearer(c, sys.clients[c.serial]);
    NextKeeps(sys, step);
    StillHesitates(sys, Next(sys, step), i, j);
  }

  function Delivered(l: Lobby, j: nat): Lobby
    requires j < |l.conns| && l.conns[j].out != []
  {
    l.(conns := l.conns[j := l.conns[j].(out := l.conns[j].out[1..])])
  }

  lemma DeliveryEffect(sys: System, i: nat, j: nat)
    requires GamesPresent(sys.server) && Present(sys, InLobby(i, j)) && sys.server.lobbies[i].conns[j].out != []
    ensures var after, c := Next(sys, ClientReads(InLobby(i, j))), sys.server.lobbies[i].conns[j];
            && i < |after.server.lobbies| && after.server.lobbies[i] == Delivered(sys.server.lobbies[i], j)
            && after.clients == sys.clients[c.serial := HandleRead(sys.clients[c.serial], c.out[0])]
  {
  }

  lemma DeliveryKeepsReadiness(l: Lobby, j: nat)
    requires j < |l.conns| && l.conns[j].out != []
    ensures SameSeating(l, Delivered(l, j)) && Missing(Delivered(l, j)) == Missing(l)
  {
    assert ReadySeats(Delivered(l, j)) == ReadySeats(l);
  }

  lemma DeliveryIsNearer(c: Conn, k: Client)
    requires ReadyStage(c, k) == 2
    ensures c.out != [] && Nearer(c.(out := c.out[1..]), HandleRead(k, c.out[0]), c, k)
  {
  }

  // An asked user says that it is ready.
  lemma UserAnswers(sys: System, i: nat, j: nat) returns (step: Step)
    requires SystemOK(sys) && Hesitates(sys, i, j)
    requires var c := sys.server.lobbies[i].conns[j]; ReadyStage(c, sys.clients[c.serial]) == 1
    ensures GetsReady(step) && SystemOK(Next(sys, step)) && ComesNearer(sys, Next(sys, step), i, j)
  {
    var c := sys.server.lobbies[i].conns[j];
    step := ClientReadies(c.serial);
    AnswerEffect(sys, c.serial);
    AnswerIsSent(c, sys.clients[c.serial]);
    NextKeeps(sys, step);
    StillHesitates(sys, Next(sys, step), i, j);
  }

  lemma AnswerEffect(sys: System, n: nat)
    requires n < |sys.clients|
    ensures Next(sys, ClientReadies(n)) == sys.(clients := sys.clients[n := ToggleReady(sys.clients[n])])
  {
  }

  lemma AnswerIsSent(c: Conn, k: Client)
    requires ReadyStage(c, k) == 1
    ensures ReadyStage(c, ToggleReady(k)) == 0
  {
  }

  // The server reads what comes from the client: something without consequences for now, or the
  // answer.
  lemma ServerCatchesUp(sys: System, i: nat, j: nat) returns (step: Step)
    requires SystemOK(sys) && Hesitates(sys, i, j)
    requires var c := sys.server.lobbies[i].conns[j]; ReadyStage(c, sys.clients[c.serial]) == 0
    ensures var after := Next(sys, step);
            && GetsReady(step) && SystemOK(after) && i < |after.server.lobbies|
            && (Gained(sys.server.lobbies[i], after.server.lobbies[i]) || ComesNearer(sys, after, i, j))
  {
    var l, c := sys.server.lobbies[i], sys.server.lobbies[i].conns[j];
    var k := sys.clients[c.serial];
    assert RoomOK(l, sys.clients);
    OwnSeat(l, sys.clients, j);
    AnswerIsOnItsWay(c, k);
    step := ServerReads(InLobby(i, j), 1);
    ServerReadsEffect(sys, i, j);
    NextKeeps(sys, step);
    if k.out[0] == Ready(c.id) {
      ReadyIsGained(l, sys.clients, j);
    } else {
      ReadingOtherwise(l, c, k, j);
      StillHesitates(sys, Next(sys, step), i, j);
    }
  }

  lemma AnswerIsOnItsWay(c: Conn, k: Client)
    requires LinkOK(LinkOf(c, k), c.id, None) && !c.ready && ReadyStage(c, k) == 0
    ensures k.out != [] && (Noise(k.out[0]) || k.out[0] == Ready(c.id) || IsMove(k.out[0], c.id))
  {
    if k.out != [] {
      ReadingShortensLink(c, k);
      if !Noise(k.out[0]) {
        ReadingBetweenGames(LinkOf(c, k), c.id);
      }
    }
  }

  lemma ReadyIsGained(l: Lobby, clients: ClientTable, j: nat)
    requires RoomOK(l, clients) && !l.isPlayingGame && IsFull(l) && SeatsAlive(l)
    requires j < |l.conns| && l.conns[j].connected && !l.conns[j].ready
    ensures Gained(l, ReadMessage(l, j, Ready(l.conns[j].id), 1))
  {
    ReadyIsFound(l, j);
    ReadyIsHandled(l, j, 1);
    OneLessUnready(l, clients, j);
  }

  lemma OneLessUnready(l: Lobby, clients: ClientTable, j: nat)
    requires RoomOK(l, clients) && IsFull(l) && SeatsAlive(l)
    requires j < |l.conns| && l.conns[j].connected && !l.conns[j].ready
    ensures var after := CountReady(l, j);
            IsFull(after) && SeatsAlive(after) && Missing(after) < Missing(l)
  {
    OwnSeat(l, clients, j);
    var after, i := CountReady(l, j), l.conns[j].id - 1;
    assert i in Unready(l) && i in ReadySeats(after);
    assert ReadySeats(l) <= ReadySeats(after);
    CardinalityLe(Unready(after), Unready(l) - {i});
  }

  lemma ReadingOtherwise(l: Lobby, c: Conn, k: Client, j: nat)
    requires LobbyOK(l) && !l.isPlayingGame && j < |l.conns| && l.conns[j] == c
    requires c.connected && !c.ready && k.out != []
    requires Noise(k.out[0]) || IsMove(k.out[0], c.id)
    requires ReadyStage(c, k) == 0
    ensures var after := ReadMessage(l, j, k.out[0], 1);
            && SameSeating(l, after) && !after.isPlayingGame && !after.conns[j].ready && Missing(after) == Missing(l)
            && Nearer(after.conns[j], TakeOff(k), c, k)
  {
    var m := k.out[0];
    assert ReadySeats(ReadMessage(l, j, m, 1)) == ReadySeats(l);
    if m.TurnMessage? && m.column != MINUS_ONE {
      MoveIsHandled(l, j, m.column, 1);
      SiftAppend(c.out, ResultMessage(Error, m.column));
    } else if m.TurnMessage? {
      MinusOneIsIgnored(l, j, 1);
    }
  }

  // ---------------------------------------------------------------- everybody is

  predicate Plays(sys: System, i: nat) {
    i < |sys.server.lobbies| && sys.server.lobbies[i].isPlayingGame
  }

  // The step that brings somebody closer to being counted ready.
  lemma OneStepCloser(sys: System, i: nat, j: nat) returns (step: Step)
    requires SystemOK(sys) && Hesitates(sys, i, j)
    ensures var after := Next(sys, step);
            && GetsReady(step) && SystemOK(after) && i < |after.server.lobbies|
            && (Gained(sys.server.lobbies[i], after.server.lobbies[i]) || ComesNearer(sys, after, i, j))
  {
    var c := sys.server.lobbies[i].conns[j];
    var k := sys.clients[c.serial];
    if ReadyStage(c, k) == 2 {
      step := ClientCatchesUp(sys, i, j);
    } else if ReadyStage(c, k) == 1 {
      step := UserAnswers(sys, i, j);
    } else {
      step := ServerCatchesUp(sys, i, j);
    }
  }

  // Less is missing, or j' = j is nearer to being counted.
  predicate Lower(after: System, j': nat, sys: System, i: nat, j: nat)
    requires Hesitates(after, i, j') && Hesitates(sys, i, j)
  {
    Missing(after.server.lobbies[i]) < Missing(sys.server.lobbies[i]) || (j' == j && ComesNearer(sys, after, i, j))
  }

  lemma OneStepLower(sys: System, i: nat, j: nat) returns (step: Step, j': nat)
    requires SystemOK(sys) && Hesitates(sys, i, j)
    ensures GetsReady(step) && SystemOK(Next(sys, step))
    ensures Plays(Next(sys, step), i)
            || (Hesitates(Next(sys, step), i, j') && Lower(Next(sys, step), j', sys, i, j))
  {
    step := OneStepCloser(sys, i, j);
    j' := j;
    if !Plays(Next(sys, step), i) {
      j' := WhoeverHesitates(sys, Next(sys, step), i, j);
    }
  }

  // These steps get lobby i to play.
  predicate LeadsToPlay(sys: System, i: nat, steps: seq<Step>) {
    Plays(Continue(sys, steps), i) && forall k | 0 <= k < |steps| :: GetsReady(steps[k])
  }

  lemma OneStepEarlier(sys: System, i: nat, step: Step, rest: seq<Step>)
    requires GetsReady(step) && LeadsToPlay(Next(sys, step), i, rest)
    ensures LeadsToPlay(sys, i, [step] + rest)
  {
    StepFirst(sys, step, rest);
  }

  lemma BeginFrom(sys: System, i: nat, j: nat) returns (steps: seq<Step>)
    requires SystemOK(sys) && Hesitates(sys, i, j)
    ensures LeadsToPlay(sys, i, steps)
    decreases Missing(sys.server.lobbies[i]), StageAt(sys, i, j), DistanceAt(sys, i, j)
  {
    var step, j' := OneStepLower(sys, i, j);
    var after, rest := Next(sys, step), [];
    if Plays(after, i) {
      assert LeadsToPlay(after, i, rest);
    } else {
      rest := BeginFrom(after, i, j');
    }
    OneStepEarlier(sys, i, step, rest);
    steps := [step] + rest;
  }

  lemma StepFirst(sys: System, step: Step, rest: seq<Step>)
    ensures Continue(sys, [step] + rest) == Continue(Next(sys, step), rest)
  {
    assert ([step] + rest)[1..] == rest;
  }

  lemma WhoeverHesitates(sys: System, after: System, i: nat, j: nat) returns (j': nat)
    requires Hesitates(sys, i, j) && SystemOK(after) && i < |after.server.lobbies| && !Plays(after, i)
    requires Gained(sys.server.lobbies[i], after.server.lobbies[i]) || ComesNearer(sys, after, i, j)
    ensures Hesitates(after, i, j')
    ensures Lower(after, j', sys, i, j)
  {
    if ComesNearer(sys, after, i, j) {
      j' := j;
    } else {
      j' := SomebodyHesitates(after, i);
    }
  }

  // From every state in which a lobby is full of living connections, some sequence of readings
  // and answers makes it play.
  lemma GameCanBegin(sys: System, i: nat) returns (steps: seq<Step>)
    requires SystemOK(sys) && Gathered(sys, i)
    ensures SystemOK(Continue(sys, steps)) && Plays(Continue(sys, steps), i)
    ensures forall k | 0 <= k < |steps| :: GetsReady(steps[k])
  {
    var j := SomebodyHesitates(sys, i);
    steps := BeginFrom(sys, i, j);
    ContinueKeeps(sys, steps);
  }

  lemma {:induction false} ContinueKeeps(sys: System, steps: seq<Step>)
    requires SystemOK(sys)
    ensures SystemOK(Continue(sys, steps))
    decreases |steps|
  {
    if steps != [] {
      NextKeeps(sys, steps[0]);
      ContinueKeeps(Next(sys, steps[0]), steps[1..]);
    }
  }

  // A user who is asked whether it is ready, and says so, sends exactly the id by which the server
  // knows it, and is not asked any more. It was not counted yet, and its lobby does not play.
  lemma AskedUserIsCounted(sys: System, i: nat, j: nat)
    requires SystemOK(sys) && Present(sys, InLobby(i, j)) && sys.server.lobbies[i].conns[j].connected
    requires sys.clients[sys.server.lobbies[i].conns[j].serial].mode == AskingReady
    ensures var c := sys.server.lobbies[i].conns[j];
            var k, after := sys.clients[c.serial], Next(sys, ClientReadies(c.serial));
            && after == sys.(clients := sys.clients[c.serial := k.(out := k.out + [Ready(c.id)], mode := Idle)])
            && !c.ready && !sys.server.lobbies[i].isPlayingGame
            && OnRead(c, Ready(c.id)) == (c.(ready := true), Readied)
  {
    var l, c := sys.server.lobbies[i], sys.server.lobbies[i].conns[j];
    assert RoomOK(l, sys.clients);
    OwnSeat(l, sys.clients, j);
    AskedMeansResting(LinkOf(c, sys.clients[c.serial]), c.id, l.game);
  }

  lemma AskedMeansResting(x: Link, id: u8, game: Option<Game>)
    requires LinkOK(x, id, game) && x.client.mode == AskingReady
    ensures game.None? && !x.ready && x.client.playerId == id
  {
  }

  // Put together: a full lobby can play a whole game, from the first answer to the last move.
  lemma GameCanBePlayed(sys: System, i: nat) returns (opening: seq<Step>, play: seq<Step>)
    requires SystemOK(sys) && Gathered(sys, i)
    ensures Plays(Continue(sys, opening), i) && Finished(Continue(sys, opening + play), i)
    ensures forall k | 0 <= k < |opening| :: GetsReady(opening[k])
    ensures forall k | 0 <= k < |play| :: PlaysOn(play[k])
  {
    opening := GameCanBegin(sys, i);
    play := GameCanFinish(Continue(sys, opening), i);
    ContinueOn(sys, opening, play);
  }

  lemma {:induction false} ContinueOn(sys: System, first: seq<Step>, later: seq<Step>)
    ensures Continue(sys, first + later) == Continue(Continue(sys, first), later)
    decreases |first|
  {
    if first == [] {
      assert first + later == later;
    } else {
      var step, rest := first[0], first[1..];
      assert first + later == [step] + (rest + later);
      StepFirst(sys, step, rest + later);
      ContinueOn(Next(sys, step), rest, later);
    }
  }
}
