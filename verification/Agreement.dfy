// Replica agreement does not depend on what clients send: for arbitrary messages to the server,
// the replicas stay in step with the games in all runs, except when a Ready replaces a running
// game. That happens exactly under a guard that is given here.
module Agreement {
  import opened Bytes
  import opened Rules
  import opened Messages
  import opened Connections
  import opened Clients
  import opened Lobbies
  import opened LobbyInvariants
  import opened Servers
  import opened ServerInvariants
  import opened Conservation
  import opened Lifetimes
  import opened Theorems
  import opened Discipline

  // ---------------------------------------------------------------- clients that listen

  // What an event means for the clients as readers. What they send does not matter here: the
  // messages that the server reads are part of the input, and arbitrary.
  function Heard(s: Server, clients: seq<Client>, input: Input): seq<Client> {
    match input
    case Arrival => clients + [NEW_CLIENT]
    case Delivered(at) =>
      if Occupied(s, at) && ConnAt(s, at).out != [] && ConnAt(s, at).serial < |clients| then
        var c := ConnAt(s, at);
        clients[c.serial := HandleRead(clients[c.serial], c.out[0])]
      else
        clients
    case _ => clients
  }

  function Listeners(inputs: seq<Input>): seq<Client> {
    if inputs == [] then []
    else
      var before := inputs[..|inputs| - 1];
      Heard(RunServer(before), Listeners(before), inputs[|inputs| - 1])
  }

  // The client can follow the message, and is asked for moves only when its own replica says
  // that it is its turn.
  predicate Sensible(k: Client, m: Message) {
    Follows(k, m)
    && (m.TurnMessage? ==>
          && m.id == k.playerId && m.column == MINUS_ONE
          && k.game.Some? && k.game.value.currentPlayer == k.playerId && !Over(k.game.value))
  }

  // Every message in flight will be sensible when it is read.
  predicate Smooth(k: Client, ms: seq<Message>)
    decreases |ms|
  {
    ms != [] ==> Sensible(k, ms[0]) && Smooth(HandleRead(k, ms[0]), ms[1..])
  }

  lemma {:induction false} SmoothAppend(k: Client, ms: seq<Message>, m: Message)
    ensures Smooth(k, ms + [m]) <==> Smooth(k, ms) && Sensible(ReadAll(k, ms), m)
    ensures ReadAll(k, ms + [m]) == HandleRead(ReadAll(k, ms), m)
    decreases |ms|
  {
    if ms == [] {
      assert [m][1..] == [];
    } else {
      SmoothAppend(HandleRead(k, ms[0]), ms[1..], m);
      assert (ms + [m])[1..] == ms[1..] + [m];
    }
  }

  // The client once it has read everything that is in flight to it now.
  function Future(c: Conn, k: Client): Client {
    ReadAll(k, c.out)
  }

  // A member is in step: everything in flight is sensible; if the connection is alive, the
  // client will know its id, and have the game that the lobby plays, if any.
  predicate InStep(c: Conn, k: Client, game: Option<Game>) {
    Smooth(k, c.out)
    && (c.connected ==>
          && Future(c, k).mode != Crashed && Future(c, k).playerId == c.id
          && (game.Some? ==> Future(c, k).game == game))
  }

  predicate LobbyInStep(l: Lobby, clients: seq<Client>) {
    forall j | 0 <= j < |l.conns| ::
      l.conns[j].serial < |clients| && InStep(l.conns[j], clients[l.conns[j].serial], l.game)
  }

  predicate WaitsInStep(c: Conn, clients: seq<Client>) {
    c.serial < |clients| && Smooth(clients[c.serial], c.out) && Future(c, clients[c.serial]).mode != Crashed
  }

  predicate AllInStep(s: Server, clients: seq<Client>) {
    |clients| == s.accepted
    && (forall i | 0 <= i < |s.lobbies| :: LobbyInStep(s.lobbies[i], clients))
    && (forall q | 0 <= q < |s.queue| :: WaitsInStep(s.queue[q], clients))
  }

  // A Ready is accepted during a game, and its count happens to be that of the players: a new
  // game replaces the running one, and nobody alive is told.
  predicate Replaces(l: Lobby, j: nat, m: Message, first: u8)
    requires j < |l.conns|
  {
    var c := l.conns[j];
    l.isPlayingGame && OnRead(c, m).1 == Readied
    && 1 <= c.id <= |l.seats| && l.seats[c.id - 1].Some?
    && Wrap(l.numReady + 1) == l.numPlayers
    && l.game != Some(LobbyGame(l.maxPlayers, first))
    && SomebodyAlive(l)
  }

  predicate SomebodyAlive(l: Lobby) {
    exists j | 0 <= j < |l.conns| :: l.conns[j].connected
  }

  predicate GameReplaced(s: Server, input: Input) {
    input.Reads? && input.at.InLobby? && Occupied(s, input.at)
    && Replaces(s.lobbies[input.at.i], input.at.j, input.m, input.first)
  }

  // ---------------------------------------------------------------- one connection

  lemma SentInStep(c: Conn, k: Client, m: Message)
    requires c.connected
    ensures Smooth(k, Send(c, m).out) <==> Smooth(k, c.out) && Sensible(Future(c, k), m)
    ensures Future(Send(c, m), k) == HandleRead(Future(c, k), m)
  {
    SmoothAppend(k, c.out, m);
  }

  lemma PingInStep(c: Conn, k: Client, game: Option<Game>)
    requires InStep(c, k, game)
    ensures InStep(SendPing(c), k, game)
  {
    if c.connected {
      SentInStep(c.(receivedPong := false), k, Ping);
    }
  }

  lemma StartInStep(c: Conn, k: Client, maxPlayers: u8, first: u8)
    requires InStep(c, k, None) && maxPlayers >= 2
    ensures var g := LobbyGame(maxPlayers, first);
            InStep(OnTurn(OnGameStart(c, maxPlayers, g), g.currentPlayer), k, Some(g))
  {
    var g := LobbyGame(maxPlayers, first);
    LobbyGameStarts(maxPlayers, first);
    if c.connected {
      SentInStep(c, k, GameStart(maxPlayers, Wrap(|g.stacks|), g.rows, g.currentPlayer));
      SentInStep(OnGameStart(c, maxPlayers, g), k, TurnMessage(c.id, MINUS_ONE));
    }
  }

  lemma ResultInStep(c: Conn, k: Client, g: Game, id: u8, column: u8)
    requires InStep(c, k, Some(g)) && g.winner == NO_WINNER
    ensures var (after, result) := TakeTurn(g, id, column);
            InStep(OnUpdate(c, id, column, result), k, Some(after))
  {
    var result := TakeTurn(g, id, column).1;
    if c.connected {
      SentInStep(c, k, if c.id == id then ResultMessage(result, column) else Update(id, column));
    }
  }

  lemma TurnInStep(c: Conn, k: Client, g: Game)
    requires InStep(c, k, Some(g)) && !Over(g)
    ensures InStep(OnTurn(c, g.currentPlayer), k, Some(g))
  {
    if c.connected {
      SentInStep(c, k, TurnMessage(c.id, MINUS_ONE));
    }
  }

  lemma EndInStep(c: Conn, k: Client, g: Game)
    requires InStep(c, k, Some(g))
    ensures InStep(OnGameEnd(c, g.winner), k, None)
  {
    if c.connected {
      SentInStep(c.(ready := false), k, GameEnd(g.winner));
    }
  }

  lemma ErrorInStep(c: Conn, k: Client, id: u8, column: u8)
    requires InStep(c, k, None)
    ensures InStep(OnUpdate(c, id, column, Error), k, None)
  {
    if c.connected {
      SentInStep(c, k, ResultMessage(Error, column));
    }
  }

  // A connection that waited is told its id.
  lemma SeatedInStep(c: Conn, k: Client, id: u8)
    requires Smooth(k, c.out) && Future(c, k).mode != Crashed && c.id == 0 && id != 0
    ensures InStep(SetId(c, id), k, None)
  {
    if c.connected {
      SentInStep(c.(id := id), k, Connected(id));
    }
  }

  lemma NoticeInStep(c: Conn, k: Client, m: Message)
    requires Smooth(k, c.out) && Future(c, k).mode != Crashed && (m.Ping? || m.InQueue?)
    ensures Smooth(k, Send(c, m).out) && Future(Send(c, m), k).mode != Crashed
  {
    if c.connected {
      SentInStep(c, k, m);
    }
  }

  // ---------------------------------------------------------------- one lobby

  lemma MoveInStep(l: Lobby, clients: seq<Client>, id: u8, column: u8)
    requires PlayOK(l) && LobbyInStep(l, clients)
    ensures LobbyInStep(OnTakeTurn(l, id, column), clients)
  {
    forall j | 0 <= j < |l.conns|
      ensures var c := OnTakeTurn(l, id, column).conns[j];
              c.serial < |clients| && InStep(c, clients[c.serial], OnTakeTurn(l, id, column).game)
    {
      MemberAfterMove(l, clients, id, column, j);
    }
  }

  lemma MemberAfterMove(l: Lobby, clients: seq<Client>, id: u8, column: u8, j: nat)
    requires PlayOK(l) && LobbyInStep(l, clients) && j < |l.conns|
    ensures var c := OnTakeTurn(l, id, column).conns[j];
            c.serial < |clients| && InStep(c, clients[c.serial], OnTakeTurn(l, id, column).game)
  {
    var c, k := l.conns[j], clients[l.conns[j].serial];
    if !l.isPlayingGame {
      ErrorInStep(c, k, id, column);
    } else {
      var (g, result) := TakeTurn(l.game.value, id, column);
      ResultInStep(c, k, l.game.value, id, column);
      var told := OnUpdate(c, id, column, result);
      if Over(g) {
        EndInStep(told, k, g);
      } else {
        TurnInStep(told, k, g);
      }
    }
  }

  lemma ReadyInStep(l: Lobby, clients: seq<Client>, first: u8)
    requires PlayOK(l) && l.maxPlayers >= 2 && LobbyInStep(l, clients)
    ensures LobbyInStep(StartIfReady(l, first), clients) <==>
              !(l.isPlayingGame && AllPlayersAreReady(l) && l.game != Some(LobbyGame(l.maxPlayers, first))
                && SomebodyAlive(l))
  {
    var after := StartIfReady(l, first);
    if AllPlayersAreReady(l) && IsFull(l) && !l.isPlayingGame {
      forall j | 0 <= j < |l.conns|
        ensures after.conns[j].serial < |clients| && InStep(after.conns[j], clients[after.conns[j].serial], after.game)
      {
        StartInStep(l.conns[j], clients[l.conns[j].serial], l.maxPlayers, first);
      }
    } else if AllPlayersAreReady(l) && IsFull(l) {
      assert after.conns == l.conns && after.game == Some(LobbyGame(l.maxPlayers, first));
      if k :| 0 <= k < |l.conns| && l.conns[k].connected {
        assert InStep(l.conns[k], clients[l.conns[k].serial], l.game);
      }
    }
  }

  // Reading a message keeps the lobby in step if and only if it does not replace a game.
  lemma ReadingInStep(l: Lobby, clients: seq<Client>, j: nat, m: Message, first: u8)
    requires LobbyOK(l) && LobbyInStep(l, clients) && j < |l.conns|
    ensures LobbyInStep(ReadMessage(l, j, m, first), clients) <==> !Replaces(l, j, m, first)
  {
    var (c, event) := OnRead(l.conns[j], m);
    if event == Readied {
      assert m == Ready(l.conns[j].id);
      ReadyIsRead(l, j, first);
      AcceptedReadyInStep(l, clients, j, first, ReadMessage(l, j, m, first));
    } else {
      var read := l.(conns := l.conns[j := c]);
      assert LobbyInStep(read, clients);
      if event.TookTurn? {
        MoveInStep(read, clients, c.id, event.column);
      }
    }
  }

  lemma AcceptedReadyInStep(l: Lobby, clients: seq<Client>, j: nat, first: u8, after: Lobby)
    requires LobbyOK(l) && LobbyInStep(l, clients) && j < |l.conns|
    requires after == if l.seats[l.conns[j].id - 1] == None then WithReady(l, j)
                      else StartIfReady(WithReady(l, j).(numReady := Wrap(l.numReady + 1)), first)
    ensures LobbyInStep(after, clients) <==> !Replaces(l, j, Ready(l.conns[j].id), first)
  {
    if l.seats[l.conns[j].id - 1].Some? {
      CountedReadyInStep(l, clients, j, first);
    } else {
      FlagsKeepStep(l, WithReady(l, j), clients);
    }
  }

  lemma CountedReadyInStep(l: Lobby, clients: seq<Client>, j: nat, first: u8)
    requires LobbyOK(l) && LobbyInStep(l, clients) && j < |l.conns| && l.seats[l.conns[j].id - 1].Some?
    ensures LobbyInStep(StartIfReady(WithReady(l, j).(numReady := Wrap(l.numReady + 1)), first), clients)
            <==> !Replaces(l, j, Ready(l.conns[j].id), first)
  {
    var counted := WithReady(l, j).(numReady := Wrap(l.numReady + 1));
    FlagsKeepStep(l, counted, clients);
    CountedReplaces(l, j, first);
    ReadyInStep(counted, clients, first);
  }

  lemma CountedReplaces(l: Lobby, j: nat, first: u8)
    requires LobbyOK(l) && j < |l.conns| && l.seats[l.conns[j].id - 1].Some?
    ensures var counted := WithReady(l, j).(numReady := Wrap(l.numReady + 1));
            Replaces(l, j, Ready(l.conns[j].id), first) <==>
              counted.isPlayingGame && AllPlayersAreReady(counted)
              && counted.game != Some(LobbyGame(l.maxPlayers, first))
              && SomebodyAlive(counted)
  {
    SameAlive(l, WithReady(l, j).(numReady := Wrap(l.numReady + 1)));
  }

  // Neither the ready flags nor the counters matter.
  lemma FlagsKeepStep(a: Lobby, b: Lobby, clients: seq<Client>)
    requires LobbyInStep(a, clients) && a.game == b.game && SamePeople(a.conns, b.conns)
    requires forall j | 0 <= j < |a.conns| :: b.conns[j].out == a.conns[j].out
    ensures LobbyInStep(b, clients)
  {
    forall j | 0 <= j < |b.conns|
      ensures b.conns[j].serial < |clients| && InStep(b.conns[j], clients[b.conns[j].serial], b.game)
    {
      assert InStep(a.conns[j], clients[a.conns[j].serial], a.game);
    }
  }

  lemma SameAlive(a: Lobby, b: Lobby)
    requires SamePeople(a.conns, b.conns)
    ensures SomebodyAlive(a) <==> SomebodyAlive(b)
  {
    if j :| 0 <= j < |a.conns| && a.conns[j].connected {
      assert b.conns[j].connected;
    }
    if j :| 0 <= j < |b.conns| && b.conns[j].connected {
      assert a.conns[j].connected;
    }
  }

  lemma LossInStep(l: Lobby, clients: seq<Client>, j: nat, outcome: (Conn, Event))
    requires LobbyOK(l) && LobbyInStep(l, clients) && j < |l.conns|
    requires outcome == HandleDisconnect(l.conns[j]) || outcome == OnTimer(l.conns[j])
    ensures LobbyInStep(AfterEvent(l, j, outcome).0, clients)
  {
    var after := AfterEvent(l, j, outcome).0;
    LossKeeps(l, j, outcome);
    forall k | 0 <= k < |after.conns|
      ensures after.conns[k].serial < |clients| && InStep(after.conns[k], clients[after.conns[k].serial], after.game)
    {
      var c := if k == j then outcome.0 else l.conns[k];
      PingInStep(l.conns[j], clients[l.conns[j].serial], l.game);
      assert InStep(c, clients[c.serial], l.game);
      if l.isPlayingGame {
        EndInStep(c, clients[c.serial], l.game.value);
      }
    }
  }

  lemma JoiningInStep(l: Lobby, clients: seq<Client>, c: Conn)
    requires LobbyOK(l) && LobbyInStep(l, clients) && !IsFull(l) && c.id == 0 && WaitsInStep(c, clients)
    ensures LobbyInStep(AddPlayer(l, c), clients)
  {
    AddPlayerKeeps(l, c);
    SeatedInStep(c, clients[c.serial], FirstFree(l.seats, 0) + 1);
    SetIdAssigns(c, FirstFree(l.seats, 0) + 1);
  }

  // ---------------------------------------------------------------- every event

  lemma OneLobbyInStep(s: Server, t: Server, clients: seq<Client>, i: nat)
    requires AllInStep(s, clients) && i < |s.lobbies| == |t.lobbies| && t.lobbies == s.lobbies[i := t.lobbies[i]]
    requires t.accepted == s.accepted && forall q | 0 <= q < |t.queue| :: WaitsInStep(t.queue[q], clients)
    ensures AllInStep(t, clients) <==> LobbyInStep(t.lobbies[i], clients)
  {
    assert forall k | 0 <= k < |s.lobbies| && k != i :: t.lobbies[k] == s.lobbies[k];
  }

  // If everybody is in step, any event keeps everybody in step if and only if it does not
  // replace a running game.
  lemma EventInStep(s: Server, clients: seq<Client>, input: Input)
    requires ServerOK(s) && AllInStep(s, clients)
    ensures AllInStep(Serve(s, input), Heard(s, clients, input)) <==> !GameReplaced(s, input)
  {
    match input
    case Arrival => ArrivalInStep(s, clients);
    case QueueTimer => QueueTimerInStep(s, clients);
    case Reads(at, m, first) =>
      if Occupied(s, at) {
        match at
        case InLine(q) => assert forall p | 0 <= p < |s.queue| && p != q :: Serve(s, input).queue[p] == s.queue[p];
        case InLobby(i, j) =>
          ReadingInStep(s.lobbies[i], clients, j, m, first);
          OneLobbyInStep(s, Serve(s, input), clients, i);
      }
    case ReadError(at) => LossesInStep(s, clients, input);
    case Timer(at) => LossesInStep(s, clients, input);
    case Delivered(at) => DeliveryInStep(s, clients, at);
  }

  lemma ArrivalInStep(s: Server, clients: seq<Client>)
    requires ServerOK(s) && AllInStep(s, clients)
    ensures AllInStep(Serve(s, Arrival), clients + [NEW_CLIENT])
  {
    var c, table, t := OnAccept(NewConn(s.accepted)), clients + [NEW_CLIENT], Serve(s, Arrival);
    assert forall i | 0 <= i < |s.lobbies| :: LobbyInStep(s.lobbies[i], table);
    NoticeInStep(NewConn(s.accepted).(receivedPong := false), NEW_CLIENT, Ping);
    assert WaitsInStep(c, table);
    var k := FindAvailableLobby(s.lobbies, 0);
    if k < |s.lobbies| {
      JoiningInStep(s.lobbies[k], table, c);
    } else if |s.lobbies| < MAX_LOBBIES {
      NewLobbyInOrder(MIN_NUM_PLAYERS);
      JoiningInStep(StartedLobby(MIN_NUM_PLAYERS), table, c);
    } else {
      NoticeInStep(c, NEW_CLIENT, InQueue(|s.queue| + 1));
    }
  }

  lemma QueueTimerInStep(s: Server, clients: seq<Client>)
    requires ServerOK(s) && AllInStep(s, clients)
    ensures AllInStep(Serve(s, QueueTimer), clients)
  {
    var t, alive := Serve(s, QueueTimer), Alive(s.queue);
    AliveSublist(s.queue, Roster(s.lobbies), s.accepted);
    forall q | 0 <= q < |t.queue| ensures WaitsInStep(t.queue[q], clients) {
      assert alive[q] in s.queue && WaitsInStep(alive[q], clients);
      NoticeInStep(alive[q], clients[alive[q].serial], InQueue(q + 1));
    }
  }

  lemma LossesInStep(s: Server, clients: seq<Client>, input: Input)
    requires ServerOK(s) && AllInStep(s, clients) && (input.ReadError? || input.Timer?)
    ensures AllInStep(Serve(s, input), clients)
  {
    var at, t := input.at, Serve(s, input);
    if Occupied(s, at) {
      var outcome := LossAt(s, input);
      match at
      case InLine(q) => WaiterLossInStep(s, clients, q, outcome);
      case InLobby(i, j) =>
        LossKeeps(s.lobbies[i], j, outcome);
        LossEffect(s, i, j, outcome);
        LossInStep(s.lobbies[i], clients, j, outcome);
        var (after, available) := AfterEvent(s.lobbies[i], j, outcome);
        if available && s.queue != [] {
          JoiningInStep(after, clients, s.queue[0]);
        }
        OneLobbyInStep(s, t, clients, i);
    }
  }

  lemma WaiterLossInStep(s: Server, clients: seq<Client>, q: nat, outcome: (Conn, Event))
    requires ServerOK(s) && AllInStep(s, clients) && q < |s.queue|
    requires outcome == HandleDisconnect(s.queue[q]) || outcome == OnTimer(s.queue[q])
    ensures AllInStep(ServeLoss(s, InLine(q), outcome), clients)
  {
    var c := s.queue[q];
    NoticeInStep(c.(receivedPong := false), clients[c.serial], Ping);
  }

  lemma DeliveryInStep(s: Server, clients: seq<Client>, at: Place)
    requires ServerOK(s) && AllInStep(s, clients)
    ensures AllInStep(Serve(s, Input.Delivered(at)), Heard(s, clients, Input.Delivered(at)))
  {
    if Occupied(s, at) && ConnAt(s, at).out != [] {
      NamesAreUnique(s, at);
      var t, table := Serve(s, Input.Delivered(at)), Heard(s, clients, Input.Delivered(at));
      forall i | 0 <= i < |t.lobbies| ensures LobbyInStep(t.lobbies[i], table) {
        forall j | 0 <= j < |t.lobbies[i].conns|
          ensures var c := t.lobbies[i].conns[j];
                  c.serial < |table| && InStep(c, table[c.serial], t.lobbies[i].game)
        {
          assert Occupied(s, InLobby(i, j)) && LobbyInStep(s.lobbies[i], clients);
        }
      }
      forall q | 0 <= q < |t.queue| ensures WaitsInStep(t.queue[q], table) {
        assert WaitsInStep(s.queue[q], clients);
      }
    }
  }

  // ---------------------------------------------------------------- whole runs

  predicate AlwaysInStep(inputs: seq<Input>) {
    AllInStep(RunServer(inputs), Listeners(inputs)) && (inputs != [] ==> AlwaysInStep(inputs[..|inputs| - 1]))
  }

  predicate NeverReplaced(inputs: seq<Input>) {
    inputs != [] ==>
      var before := inputs[..|inputs| - 1];
      NeverReplaced(before) && !GameReplaced(RunServer(before), inputs[|inputs| - 1])
  }

  // Over a whole run, whatever the clients send, everybody is in step all the time if and only
  // if no running game is ever replaced.
  lemma {:induction false} RunsInStep(inputs: seq<Input>)
    ensures AlwaysInStep(inputs) <==> NeverReplaced(inputs)
  {
    if inputs != [] {
      var before := inputs[..|inputs| - 1];
      RunsInStep(before);
      RunServerKeeps(before);
      if AlwaysInStep(before) {
        EventInStep(RunServer(before), Listeners(before), inputs[|inputs| - 1]);
      }
    }
  }

  // In such runs, a player that is alive will have the server's game after reading everything
  // in flight to it.
  lemma ReplicasAgree(inputs: seq<Input>, i: nat, j: nat)
    requires NeverReplaced(inputs) && Occupied(RunServer(inputs), InLobby(i, j))
    requires RunServer(inputs).lobbies[i].isPlayingGame && RunServer(inputs).lobbies[i].conns[j].connected
    ensures var l, c := RunServer(inputs).lobbies[i], RunServer(inputs).lobbies[i].conns[j];
            && c.serial < |Listeners(inputs)|
            && ReadAll(Listeners(inputs)[c.serial], c.out).mode != Crashed
            && ReadAll(Listeners(inputs)[c.serial], c.out).playerId == c.id
            && ReadAll(Listeners(inputs)[c.serial], c.out).game == l.game != None
  {
    RunsInStep(inputs);
    RunServerKeeps(inputs);
    var l := RunServer(inputs).lobbies[i];
    assert LobbyInStep(l, Listeners(inputs)) && LobbyOK(l);
    assert InStep(l.conns[j], Listeners(inputs)[l.conns[j].serial], l.game);
  }

  // And whatever anybody reads next is sensible: every turn can be replayed, every winner is
  // the replica's own, and every request for a move comes in turn.
  lemma EverythingIsSensible(inputs: seq<Input>, at: Place)
    requires NeverReplaced(inputs) && Occupied(RunServer(inputs), at) && ConnAt(RunServer(inputs), at).out != []
    ensures var c := ConnAt(RunServer(inputs), at);
            c.serial < |Listeners(inputs)| && Sensible(Listeners(inputs)[c.serial], c.out[0])
  {
    RunsInStep(inputs);
    var s := RunServer(inputs);
    if at.InLobby? {
      assert LobbyInStep(s.lobbies[at.i], Listeners(inputs));
      assert Smooth(Listeners(inputs)[ConnAt(s, at).serial], ConnAt(s, at).out);
    } else {
      assert WaitsInStep(s.queue[at.q], Listeners(inputs));
    }
  }
}
