// How games end: what the players are told, and what the winner byte means.
module Endings {
  import opened Bytes
  import opened Grids
  import opened Rules
  import opened Messages
  import opened Connections
  import opened Lobbies
  import opened LobbyInvariants
  import opened Servers
  import opened ServerInvariants
  import opened Lifetimes
  import opened Links
  import opened Rooms
  import opened Protocol
  import opened Theorems

  // The step makes lobby i stop playing.
  predicate Stops(sys: System, step: Step, i: nat) {
    i < |sys.server.lobbies| && sys.server.lobbies[i].isPlayingGame
    && i < |Next(sys, step).server.lobbies| && !Next(sys, step).server.lobbies[i].isPlayingGame
  }

  // The step is the loss of a player of lobby i.
  predicate PlayerLost(sys: System, step: Step, i: nat) {
    (step.ReadFails? || step.TimerFires?) && step.at.InLobby?
    && LosesMember(sys.server, InputOf(sys, step).value, i, step.at.j)
  }

  // In the step, the server reads a move from a player of lobby i.
  predicate MoveRead(sys: System, step: Step, i: nat) {
    step.ServerReads? && step.at.InLobby? && step.at.i == i && CanServerRead(sys, step.at, step.first)
    && sys.clients[ConnAt(sys.server, step.at).serial].out[0].TurnMessage?
  }

  function Mover(sys: System, step: Step, i: nat): u8
    requires MoveRead(sys, step, i)
  {
    ConnAt(sys.server, step.at).id
  }

  function Column(sys: System, step: Step, i: nat): u8
    requires MoveRead(sys, step, i)
  {
    sys.clients[ConnAt(sys.server, step.at).serial].out[0].column
  }

  // The game of lobby i after the move that the step reads, if any.
  function FinalGame(sys: System, step: Step, i: nat): Game
    requires i < |sys.server.lobbies| && sys.server.lobbies[i].game.Some?
  {
    var g := sys.server.lobbies[i].game.value;
    if MoveRead(sys, step, i) then TakeTurn(g, Mover(sys, step, i), Column(sys, step, i)).0 else g
  }

  // What player `id` is told about the move that the step reads, if any.
  function LastNews(sys: System, step: Step, i: nat, id: u8): seq<Message> {
    if MoveRead(sys, step, i) then [NewsFor(id, Mover(sys, step, i), Column(sys, step, i))] else []
  }

  // ---------------------------------------------------------------- one lobby

  // Member j, if it is still connected, was told the news and then the end of the game.
  predicate Told(before: Conn, after: Conn, news: seq<Message>, winner: u8) {
    after.connected ==> after.out == before.out + news + [GameEnd(winner)]
  }

  lemma EndByMove(l: Lobby, id: u8, column: u8, j: nat)
    requires LobbyOK(l) && l.isPlayingGame && !OnTakeTurn(l, id, column).isPlayingGame && j < |l.conns|
    ensures var g := TakeTurn(l.game.value, id, column).0;
            Told(l.conns[j], OnTakeTurn(l, id, column).conns[j], [NewsFor(l.conns[j].id, id, column)], g.winner)
  {
  }

  lemma EndByLoss(l: Lobby, j: nat, outcome: (Conn, Event), k: nat)
    requires LobbyOK(l) && l.isPlayingGame && j < |l.conns| && k < |l.conns| && outcome.1 == Lost
    requires outcome == HandleDisconnect(l.conns[j]) || outcome == OnTimer(l.conns[j])
    ensures Told(l.conns[k], AfterEvent(l, j, outcome).0.conns[k], [], l.game.value.winner)
    ensures l.game.value.winner == NO_WINNER
  {
    LossKeeps(l, j, outcome);
    var out := l.conns[k].out;
    assert out + [] == out;
  }

  // ---------------------------------------------------------------- which steps end games

  lemma QuietStepsPlayOn(sys: System, step: Step, i: nat)
    requires SystemOK(sys) && Stops(sys, step, i)
    ensures PlayerLost(sys, step, i)
            || (step.ServerReads? && step.at.InLobby? && step.at.i == i && CanServerRead(sys, step.at, step.first))
  {
    assert LobbyOK(sys.server.lobbies[i]);
    StepIsInput(sys, step);
    if (step.ReadFails? || step.TimerFires?) && step.at.InLobby? && Occupied(sys.server, step.at) {
      LossEffect(sys.server, step.at.i, step.at.j, LossAt(sys.server, InputOf(sys, step).value));
      LossKeeps(sys.server.lobbies[step.at.i], step.at.j, LossAt(sys.server, InputOf(sys, step).value));
    }
  }

  lemma OnlyMovesEnd(l: Lobby, clients: ClientTable, j: nat, first: u8)
    requires CanRead(l, clients, j) && l.isPlayingGame
    requires !ReadMessage(l, j, HeadOf(l, clients, j), first).isPlayingGame
    ensures HeadOf(l, clients, j).TurnMessage?
    ensures ReadMessage(l, j, HeadOf(l, clients, j), first)
            == OnTakeTurn(l, l.conns[j].id, HeadOf(l, clients, j).column)
  {
    if !Noise(HeadOf(l, clients, j)) {
      MoveInforms(l, clients, j);
      MoveIsHandled(l, j, HeadOf(l, clients, j).column, first);
    }
  }

  // What the winner byte means: nobody, if and only if a player left or the board is full
  // without a line; otherwise the player who just moved, to whom all lines belong.
  ghost predicate WinnerMeans(sys: System, step: Step, i: nat)
    requires i < |sys.server.lobbies| && sys.server.lobbies[i].game.Some?
  {
    var g := FinalGame(sys, step, i);
    && (g.winner == NO_WINNER <==> PlayerLost(sys, step, i) || (Full(g.stacks, g.rows) && !HasLine(g.stacks)))
    && (g.winner != NO_WINNER ==>
          MoveRead(sys, step, i) && g.winner == Mover(sys, step, i) && HasLine(g.stacks) && Settled(g))
  }

  // Everybody in the lobby is told the same end.
  predicate AllTold(sys: System, step: Step, i: nat)
    requires Stops(sys, step, i) && sys.server.lobbies[i].game.Some?
  {
    var conns, after := sys.server.lobbies[i].conns, Next(sys, step).server.lobbies[i].conns;
    |conns| <= |after|
    && forall j | 0 <= j < |conns| ::
         Told(conns[j], after[j], LastNews(sys, step, i, conns[j].id), FinalGame(sys, step, i).winner)
  }

  lemma MoveEndsGame(sys: System, step: Step, i: nat)
    requires SystemOK(sys) && Stops(sys, step, i) && !PlayerLost(sys, step, i)
    ensures MoveRead(sys, step, i) && sys.server.lobbies[i].game.Some?
    ensures AllTold(sys, step, i) && WinnerMeans(sys, step, i)
  {
    QuietStepsPlayOn(sys, step, i);
    var l, j := sys.server.lobbies[i], step.at.j;
    MembersDistinct(sys.server, i);
    assert RoomOK(l, sys.clients);
    OnlyMovesEnd(l, sys.clients, j, step.first);
    var id, column := Mover(sys, step, i), Column(sys, step, i);
    assert Next(sys, step).server.lobbies[i] == OnTakeTurn(l, id, column);
    forall k | 0 <= k < |l.conns|
      ensures Told(l.conns[k], OnTakeTurn(l, id, column).conns[k], LastNews(sys, step, i, l.conns[k].id),
                   FinalGame(sys, step, i).winner)
    {
      EndByMove(l, id, column, k);
    }
    WinnersAreEarned(l, id, column);
    TurnKeepsSettled(l.game.value, id, column);
  }

  lemma LossEndsGame(sys: System, step: Step, i: nat)
    requires SystemOK(sys) && Stops(sys, step, i) && PlayerLost(sys, step, i)
    ensures !MoveRead(sys, step, i) && sys.server.lobbies[i].game.Some?
    ensures AllTold(sys, step, i) && WinnerMeans(sys, step, i)
  {
    var s, j := sys.server, step.at.j;
    var outcome := LossAt(s, InputOf(sys, step).value);
    StepIsInput(sys, step);
    LossEffect(s, i, j, outcome);
    assert Next(sys, step).server.lobbies[i] == Reseated(s, i, j, outcome);
    AllToldOfLoss(s, i, j, outcome);
  }

  lemma AllToldOfLoss(s: Server, i: nat, j: nat, outcome: (Conn, Event))
    requires ServerOK(s) && Occupied(s, InLobby(i, j)) && s.lobbies[i].isPlayingGame && outcome.1 == Lost
    requires outcome == HandleDisconnect(s.lobbies[i].conns[j]) || outcome == OnTimer(s.lobbies[i].conns[j])
    ensures s.lobbies[i].game.value.winner == NO_WINNER
    ensures var conns, after := s.lobbies[i].conns, Reseated(s, i, j, outcome).conns;
            |conns| <= |after| && forall k | 0 <= k < |conns| :: Told(conns[k], after[k], [], NO_WINNER)
  {
    var l := s.lobbies[i];
    LossKeeps(l, j, outcome);
    var lost := AfterEvent(l, j, outcome).0;
    if s.queue != [] {
      JoiningAges(lost, s.queue[0]);
    }
    forall k | 0 <= k < |l.conns| ensures Told(l.conns[k], Reseated(s, i, j, outcome).conns[k], [], NO_WINNER) {
      EndByLoss(l, j, outcome, k);
      assert Reseated(s, i, j, outcome).conns[k] == lost.conns[k];
    }
  }

  // Whenever a game ends, because a player left or because of a move, everybody in the lobby
  // is told, after the news of the move, and the winner byte is right.
  lemma EndsAreAnnounced(sys: System, step: Step, i: nat)
    requires Reachable(sys) && Stops(sys, step, i)
    ensures PlayerLost(sys, step, i) <==> !MoveRead(sys, step, i)
    ensures sys.server.lobbies[i].game.Some?
    ensures AllTold(sys, step, i) && WinnerMeans(sys, step, i)
  {
    ReachableInOrder(sys);
    if PlayerLost(sys, step, i) {
      LossEndsGame(sys, step, i);
    } else {
      MoveEndsGame(sys, step, i);
    }
  }

  // ---------------------------------------------------------------- and nothing else announces one

  function GameEnds(ms: seq<Message>): nat {
    if ms == [] then 0 else (if ms[0].GameEnd? then 1 else 0) + GameEnds(ms[1..])
  }

  lemma {:induction false} GameEndsAppend(ms: seq<Message>, m: Message)
    ensures GameEnds(ms + [m]) == GameEnds(ms) + if m.GameEnd? then 1 else 0
  {
    if ms == [] {
      assert [m][1..] == [];
    } else {
      GameEndsAppend(ms[1..], m);
      assert (ms + [m])[1..] == ms[1..] + [m];
    }
  }

  predicate SameEnds(a: seq<Conn>, b: seq<Conn>) {
    |a| <= |b| && forall j | 0 <= j < |a| :: GameEnds(b[j].out) == GameEnds(a[j].out)
  }

  lemma SendAnnouncesNothing(c: Conn, m: Message)
    requires !m.GameEnd?
    ensures GameEnds(Send(c, m).out) == GameEnds(c.out)
  {
    GameEndsAppend(c.out, m);
  }

  lemma StartAnnouncesNothing(conns: seq<Conn>, numPlayers: u8, g: Game)
    ensures SameEnds(conns, SignalGameStart(conns, numPlayers, g))
  {
    forall j | 0 <= j < |conns| ensures GameEnds(OnGameStart(conns[j], numPlayers, g).out) == GameEnds(conns[j].out) {
      SendAnnouncesNothing(conns[j], GameStart(numPlayers, Wrap(|g.stacks|), g.rows, g.currentPlayer));
    }
  }

  lemma TurnAnnouncesNothing(conns: seq<Conn>, player: u8)
    ensures SameEnds(conns, SignalTurn(conns, player))
  {
    forall j | 0 <= j < |conns| ensures GameEnds(OnTurn(conns[j], player).out) == GameEnds(conns[j].out) {
      SendAnnouncesNothing(conns[j], TurnMessage(player, MINUS_ONE));
    }
  }

  lemma ResultAnnouncesNothing(conns: seq<Conn>, player: u8, column: u8, result: TurnResult)
    ensures SameEnds(conns, SignalTurnResult(conns, player, column, result))
  {
    forall j | 0 <= j < |conns|
      ensures GameEnds(OnUpdate(conns[j], player, column, result).out) == GameEnds(conns[j].out)
    {
      SendAnnouncesNothing(conns[j], Update(player, column));
      SendAnnouncesNothing(conns[j], ResultMessage(result, column));
    }
  }

  lemma ReadyAnnouncesNothing(l: Lobby, id: u8, first: u8)
    ensures SameEnds(l.conns, OnReady(l, id, first).conns)
  {
    var g := LobbyGame(l.maxPlayers, first);
    StartAnnouncesNothing(l.conns, l.numPlayers, g);
    TurnAnnouncesNothing(SignalGameStart(l.conns, l.numPlayers, g), g.currentPlayer);
  }

  lemma MoveAnnouncesNothing(l: Lobby, id: u8, column: u8)
    requires LobbyOK(l) && (l.isPlayingGame ==> OnTakeTurn(l, id, column).isPlayingGame)
    ensures SameEnds(l.conns, OnTakeTurn(l, id, column).conns)
  {
    if !l.isPlayingGame {
      ResultAnnouncesNothing(l.conns, id, column, Error);
    } else {
      var (g, result) := TakeTurn(l.game.value, id, column);
      ResultAnnouncesNothing(l.conns, id, column, result);
      TurnAnnouncesNothing(SignalTurnResult(l.conns, id, column, result), g.currentPlayer);
    }
  }

  lemma ReadingAnnouncesNothing(l: Lobby, j: nat, m: Message, first: u8)
    requires LobbyOK(l) && j < |l.conns| && (l.isPlayingGame ==> ReadMessage(l, j, m, first).isPlayingGame)
    ensures SameEnds(l.conns, ReadMessage(l, j, m, first).conns)
  {
    var (c, event) := OnRead(l.conns[j], m);
    var read := l.(conns := l.conns[j := c]);
    SeatingKeepsSeats(l, read);
    match event
    case Readied => ReadyAnnouncesNothing(read, c.id, first);
    case TookTurn(column) => MoveAnnouncesNothing(read, c.id, column);
    case _ =>
  }

  lemma LossAnnouncesNothing(l: Lobby, j: nat, outcome: (Conn, Event))
    requires LobbyOK(l) && j < |l.conns| && (outcome.1 == Lost ==> !l.isPlayingGame)
    requires outcome == HandleDisconnect(l.conns[j]) || outcome == OnTimer(l.conns[j])
    ensures SameEnds(l.conns, AfterEvent(l, j, outcome).0.conns)
  {
    SendAnnouncesNothing(l.conns[j], Ping);
  }

  // Member j of lobby i has as many announcements on the way as before.
  predicate NothingNew(s: Server, t: Server, i: nat, j: nat) {
    Occupied(s, InLobby(i, j)) && Occupied(t, InLobby(i, j))
    && GameEnds(t.lobbies[i].conns[j].out) == GameEnds(s.lobbies[i].conns[j].out)
  }

  lemma ArrivalAnnouncesNothing(s: Server, i: nat, j: nat)
    requires ServerOK(s) && Occupied(s, InLobby(i, j))
    ensures NothingNew(s, Serve(s, Arrival), i, j)
  {
    var c := OnAccept(NewConn(s.accepted));
    var k := FindAvailableLobby(s.lobbies, 0);
    if k < |s.lobbies| {
      JoiningAges(s.lobbies[k], c);
      assert AddPlayer(s.lobbies[k], c).conns[..|s.lobbies[k].conns|] == s.lobbies[k].conns;
    }
  }

  lemma LeavingAnnouncesNothing(s: Server, at: Place, outcome: (Conn, Event), i: nat, j: nat)
    requires ServerOK(s) && Occupied(s, InLobby(i, j)) && at.InLobby? && Occupied(s, at)
    requires outcome == HandleDisconnect(ConnAt(s, at)) || outcome == OnTimer(ConnAt(s, at))
    requires outcome.1 == Lost && at.i == i ==> !s.lobbies[i].isPlayingGame
    ensures NothingNew(s, ServeLoss(s, at, outcome), i, j)
  {
    LossEffect(s, at.i, at.j, outcome);
    if i == at.i {
      LossKeeps(s.lobbies[i], at.j, outcome);
      LossAnnouncesNothing(s.lobbies[i], at.j, outcome);
      var (after, available) := AfterEvent(s.lobbies[i], at.j, outcome);
      if available && s.queue != [] {
        JoiningAges(after, s.queue[0]);
        assert AddPlayer(after, s.queue[0]).conns[..|after.conns|] == after.conns;
      }
    }
  }

  lemma LossAnnouncesNothingElse(s: Server, input: Input, i: nat, j: nat)
    requires ServerOK(s) && Occupied(s, InLobby(i, j)) && (input.ReadError? || input.Timer?)
    requires input.at.InLobby? && LosesMember(s, input, i, input.at.j) ==> !s.lobbies[i].isPlayingGame
    ensures NothingNew(s, Serve(s, input), i, j)
  {
    if input.at.InLobby? && Occupied(s, input.at) {
      LeavingAnnouncesNothing(s, input.at, LossAt(s, input), i, j);
    }
  }

  // Apart from the ends of its game, nothing that happens announces an end to member j of
  // lobby i; only its own client takes announcements off the wire.
  lemma OthersAnnounceNothing(sys: System, step: Step, i: nat, j: nat)
    requires Reachable(sys) && Occupied(sys.server, InLobby(i, j))
    requires !Stops(sys, step, i) && step != ClientReads(InLobby(i, j))
    ensures NothingNew(sys.server, Next(sys, step).server, i, j)
  {
    ReachableInOrder(sys);
    StepIsInput(sys, step);
    if InputOf(sys, step).Some? {
      NextKeeps(sys, step);
      EventAnnouncesNothing(sys.server, InputOf(sys, step).value, i, j);
    }
  }

  lemma EventAnnouncesNothing(s: Server, input: Input, i: nat, j: nat)
    requires ServerOK(s) && Occupied(s, InLobby(i, j)) && input != Input.Delivered(InLobby(i, j))
    requires i < |Serve(s, input).lobbies| && s.lobbies[i].isPlayingGame ==> Serve(s, input).lobbies[i].isPlayingGame
    ensures NothingNew(s, Serve(s, input), i, j)
  {
    match input
    case Arrival => ArrivalAnnouncesNothing(s, i, j);
    case Reads(at, m, first) =>
      if Occupied(s, at) && at.InLobby? && at.i == i {
        ReadMessageKeeps(s.lobbies[i], at.j, m, first);
        ReadingAnnouncesNothing(s.lobbies[i], at.j, m, first);
      }
    case ReadError(at) => PlayingMeansNoLoss(s, input, i); LossAnnouncesNothingElse(s, input, i, j);
    case Timer(at) => PlayingMeansNoLoss(s, input, i); LossAnnouncesNothingElse(s, input, i, j);
    case QueueTimer =>
    case Delivered(at) =>
  }

  // A lobby that loses a player stops playing.
  lemma PlayingMeansNoLoss(s: Server, input: Input, i: nat)
    requires ServerOK(s) && i < |s.lobbies| && (input.ReadError? || input.Timer?)
    requires i < |Serve(s, input).lobbies| && s.lobbies[i].isPlayingGame ==> Serve(s, input).lobbies[i].isPlayingGame
    ensures input.at.InLobby? && LosesMember(s, input, i, input.at.j) ==> !s.lobbies[i].isPlayingGame
  {
    if input.at.InLobby? && LosesMember(s, input, i, input.at.j) {
      LossEffect(s, i, input.at.j, LossAt(s, input));
      ReseatedRests(s, i, input.at.j, LossAt(s, input));
    }
  }

  lemma ReseatedRests(s: Server, i: nat, j: nat, outcome: (Conn, Event))
    requires ServerOK(s) && Occupied(s, InLobby(i, j)) && outcome.1 == Lost
    requires outcome == HandleDisconnect(s.lobbies[i].conns[j]) || outcome == OnTimer(s.lobbies[i].conns[j])
    ensures !Reseated(s, i, j, outcome).isPlayingGame
  {
    LossKeeps(s.lobbies[i], j, outcome);
  }
}
