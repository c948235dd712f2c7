// The server together with all its clients, exchanging messages over first-in first-out
// channels: every run, and the invariant every step of a run keeps.
module Protocol {
  import opened Bytes
  import opened Rules
  import opened Messages
  import opened Connections
  import opened Clients
  import opened Lobbies
  import opened LobbyInvariants
  import opened Servers
  import opened ServerInvariants
  import opened Links
  import opened Rooms

  // Client n is the one behind connection n.
  datatype System = System(server: Server, clients: ClientTable)

  const INITIAL := System(EMPTY_SERVER, [])

  // One step of the system. The clients are console clients; when they answer, and what, is
  // up to their users. `first` is the server's random pick, should the read start a game.
  datatype Step =
    | Arrives
    | ServerReads(at: Place, first: u8)
    | ReadFails(at: Place)
    | TimerFires(at: Place)
    | QueueTimerFires
    | ClientReads(at: Place)
    | ClientReadies(n: nat)
    | ClientMoves(n: nat, column: u8)

  // Somebody is there, with a client.
  predicate Present(sys: System, at: Place) {
    Occupied(sys.server, at) && ConnAt(sys.server, at).serial < |sys.clients|
  }

  // A connection may still read after the ping timer gave it up. Such late reads are possible
  // here too, except for those that concern somebody else: see LateIsHarmless.
  predicate CanServerRead(sys: System, at: Place, first: u8) {
    Present(sys, at) && sys.clients[ConnAt(sys.server, at).serial].out != []
    && (at.InLobby? ==>
          && 1 <= first <= sys.server.lobbies[at.i].maxPlayers
          && (ConnAt(sys.server, at).connected || LateIsHarmless(sys.server.lobbies[at.i], at.j,
                                                                sys.clients[ConnAt(sys.server, at).serial].out[0])))
  }

  // Steps that are not possible in a state leave it unchanged.
  function Next(sys: System, step: Step): System {
    var s, clients := sys.server, sys.clients;
    match step
    case Arrives => System(Serve(s, Arrival), clients + [NEW_CLIENT])
    case ServerReads(at, first) =>
      if CanServerRead(sys, at, first) then
        var n := ConnAt(s, at).serial;
        System(Serve(s, Reads(at, clients[n].out[0], first)), clients[n := TakeOff(clients[n])])
      else
        sys
    case ReadFails(at) => sys.(server := Serve(s, ReadError(at)))
    case TimerFires(at) => sys.(server := Serve(s, Timer(at)))
    case QueueTimerFires => sys.(server := Serve(s, QueueTimer))
    case ClientReads(at) =>
      if Present(sys, at) && ConnAt(s, at).out != [] then
        var c := ConnAt(s, at);
        System(Serve(s, Input.Delivered(at)), clients[c.serial := HandleRead(clients[c.serial], c.out[0])])
      else
        sys
    case ClientReadies(n) => if n < |clients| then sys.(clients := clients[n := ToggleReady(clients[n])]) else sys
    case ClientMoves(n, column) =>
      if n < |clients| then sys.(clients := clients[n := SendTurn(clients[n], column)]) else sys
  }

  // ---------------------------------------------------------------- invariant

  ghost predicate RoomsOK(lobbies: seq<Lobby>, clients: ClientTable) {
    forall i | 0 <= i < |lobbies| :: RoomOK(lobbies[i], clients)
  }

  predicate AllFresh(queue: seq<Conn>, clients: ClientTable) {
    forall q | 0 <= q < |queue| :: Fresh(queue[q], clients)
  }

  ghost predicate SystemOK(sys: System) {
    ServerOK(sys.server) && |sys.clients| == sys.server.accepted
    && RoomsOK(sys.server.lobbies, sys.clients) && AllFresh(sys.server.queue, sys.clients)
  }

  lemma RoomReplaced(lobbies: seq<Lobby>, clients: ClientTable, i: nat, l: Lobby)
    requires RoomsOK(lobbies, clients) && i < |lobbies| && RoomOK(l, clients)
    ensures RoomsOK(lobbies[i := l], clients)
  {
  }

  lemma MembersDistinct(s: Server, i: nat)
    requires ServerOK(s) && i < |s.lobbies|
    ensures DistinctSerials(s.lobbies[i])
    ensures forall j | 0 <= j < |s.lobbies[i].conns| :: s.lobbies[i].conns[j].serial < s.accepted
  {
    var roster := Roster(s.lobbies);
    assert forall j | 0 <= j < |s.lobbies[i].conns| :: roster[i][j] == s.lobbies[i].conns[j].serial;
  }

  // Client n changes, lobby i changes with it, and n belongs to lobby i.
  lemma RoomAndClientReplaced(sys: System, i: nat, j: nat, l: Lobby, k: Client)
    requires SystemOK(sys) && Occupied(sys.server, InLobby(i, j))
    requires var n := sys.server.lobbies[i].conns[j].serial;
             n < |sys.clients| && RoomOK(l, sys.clients[n := k])
    ensures var n := sys.server.lobbies[i].conns[j].serial;
            RoomsOK(sys.server.lobbies[i := l], sys.clients[n := k]) && AllFresh(sys.server.queue, sys.clients[n := k])
  {
    var s, n := sys.server, sys.server.lobbies[i].conns[j].serial;
    var table, roster := sys.clients[n := k], Roster(s.lobbies);
    assert roster[i][j] == n;
    forall i' | 0 <= i' < |s.lobbies| && i' != i ensures RoomOK(s.lobbies[i'], table) {
      assert forall j' | 0 <= j' < |s.lobbies[i'].conns| :: roster[i'][j'] == s.lobbies[i'].conns[j'].serial;
      StrangerKeepsRoom(s.lobbies[i'], sys.clients, n, k);
    }
    forall q | 0 <= q < |s.queue| ensures Fresh(s.queue[q], table) {
      assert Serials(s.queue)[q] == s.queue[q].serial;
    }
  }

  // The connection at a place in the queue and its client change, and stay fresh.
  lemma WaitingReplaced(sys: System, q: nat, c: Conn, k: Client)
    requires SystemOK(sys) && q < |sys.server.queue|
    requires c.serial == sys.server.queue[q].serial && c.serial < |sys.clients| && Fresh(c, sys.clients[c.serial := k])
    ensures RoomsOK(sys.server.lobbies, sys.clients[c.serial := k])
    ensures AllFresh(sys.server.queue[q := c], sys.clients[c.serial := k])
  {
    var s, n, table := sys.server, c.serial, sys.clients[c.serial := k];
    var roster := Roster(s.lobbies);
    assert Serials(s.queue)[q] == n;
    forall i | 0 <= i < |s.lobbies| ensures RoomOK(s.lobbies[i], table) {
      assert forall j | 0 <= j < |s.lobbies[i].conns| :: roster[i][j] == s.lobbies[i].conns[j].serial;
      StrangerKeepsRoom(s.lobbies[i], sys.clients, n, k);
    }
    var queue := s.queue[q := c];
    forall q' | 0 <= q' < |queue| ensures Fresh(queue[q'], table) {
      assert Serials(s.queue)[q'] == s.queue[q'].serial;
    }
  }

  // ---------------------------------------------------------------- steps

  lemma ServerReadKeeps(sys: System, at: Place, first: u8)
    requires SystemOK(sys) && CanServerRead(sys, at, first)
    ensures SystemOK(Next(sys, ServerReads(at, first)))
  {
    ServeKeeps(sys.server, Reads(at, sys.clients[ConnAt(sys.server, at).serial].out[0], first));
    match at
    case InLine(q) => ReadingInQueueKeeps(sys, q);
    case InLobby(i, j) => ReadingInLobbyKeeps(sys, i, j, first);
  }

  lemma ReadingInQueueKeeps(sys: System, q: nat)
    requires SystemOK(sys) && Present(sys, InLine(q)) && sys.clients[sys.server.queue[q].serial].out != []
    ensures var c, k := sys.server.queue[q], sys.clients[sys.server.queue[q].serial];
            && RoomsOK(sys.server.lobbies, sys.clients[c.serial := TakeOff(k)])
            && AllFresh(sys.server.queue[q := OnRead(c, k.out[0]).0], sys.clients[c.serial := TakeOff(k)])
  {
    var c, k := sys.server.queue[q], sys.clients[sys.server.queue[q].serial];
    ReadingShortensLink(c, k);
    WaitingReplaced(sys, q, OnRead(c, k.out[0]).0, TakeOff(k));
  }

  lemma ReadingInLobbyKeeps(sys: System, i: nat, j: nat, first: u8)
    requires SystemOK(sys) && CanServerRead(sys, InLobby(i, j), first)
    ensures var l, n := sys.server.lobbies[i], sys.server.lobbies[i].conns[j].serial;
            var k := sys.clients[n];
            && (l.isPlayingGame ==> l.game.Some?)
            && RoomsOK(sys.server.lobbies[i := ReadMessage(l, j, k.out[0], first)], sys.clients[n := TakeOff(k)])
            && AllFresh(sys.server.queue, sys.clients[n := TakeOff(k)])
  {
    var l := sys.server.lobbies[i];
    var k := sys.clients[l.conns[j].serial];
    MembersDistinct(sys.server, i);
    if l.conns[j].connected {
      ReadingKeepsRoom(l, sys.clients, j, first);
    } else {
      LateReadKeepsRoom(l, sys.clients, j, first);
    }
    RoomAndClientReplaced(sys, i, j, ReadMessage(l, j, k.out[0], first), TakeOff(k));
  }

  lemma ClientReadKeeps(sys: System, at: Place)
    requires SystemOK(sys) && Present(sys, at) && ConnAt(sys.server, at).out != []
    ensures SystemOK(Next(sys, ClientReads(at)))
  {
    ServeKeeps(sys.server, Input.Delivered(at));
    match at
    case InLine(q) => DeliveryInQueueKeeps(sys, q);
    case InLobby(i, j) => DeliveryInLobbyKeeps(sys, i, j);
  }

  lemma DeliveryInQueueKeeps(sys: System, q: nat)
    requires SystemOK(sys) && Present(sys, InLine(q)) && sys.server.queue[q].out != []
    ensures var c := sys.server.queue[q];
            var k := HandleRead(sys.clients[c.serial], c.out[0]);
            && RoomsOK(sys.server.lobbies, sys.clients[c.serial := k])
            && AllFresh(sys.server.queue[q := c.(out := c.out[1..])], sys.clients[c.serial := k])
  {
    var c := sys.server.queue[q];
    DeliveryShortensLink(c, sys.clients[c.serial]);
    WaitingReplaced(sys, q, c.(out := c.out[1..]), HandleRead(sys.clients[c.serial], c.out[0]));
  }

  lemma DeliveryInLobbyKeeps(sys: System, i: nat, j: nat)
    requires SystemOK(sys) && Present(sys, InLobby(i, j)) && sys.server.lobbies[i].conns[j].out != []
    ensures var l, c := sys.server.lobbies[i], sys.server.lobbies[i].conns[j];
            var after := l.(conns := l.conns[j := c.(out := c.out[1..])]);
            var k := HandleRead(sys.clients[c.serial], c.out[0]);
            && RoomsOK(sys.server.lobbies[i := after], sys.clients[c.serial := k])
            && AllFresh(sys.server.queue, sys.clients[c.serial := k])
  {
    var l, c := sys.server.lobbies[i], sys.server.lobbies[i].conns[j];
    var after, k := l.(conns := l.conns[j := c.(out := c.out[1..])]), HandleRead(sys.clients[c.serial], c.out[0]);
    MembersDistinct(sys.server, i);
    DeliveryKeepsRoom(l, sys.clients, j);
    RoomAndClientReplaced(sys, i, j, after, k);
  }

  lemma AnswerKeeps(sys: System, n: nat, column: u8)
    requires SystemOK(sys) && n < |sys.clients|
    ensures SystemOK(Next(sys, ClientReadies(n))) && SystemOK(Next(sys, ClientMoves(n, column)))
  {
    var s := sys.server;
    var readied := sys.clients[n := ToggleReady(sys.clients[n])];
    var moved := sys.clients[n := SendTurn(sys.clients[n], column)];
    forall i | 0 <= i < |s.lobbies| ensures RoomOK(s.lobbies[i], readied) && RoomOK(s.lobbies[i], moved) {
      MembersDistinct(s, i);
      if j: nat :| j < |s.lobbies[i].conns| && s.lobbies[i].conns[j].serial == n {
        AnswerKeepsRoom(s.lobbies[i], sys.clients, j, column);
      } else {
        StrangerKeepsRoom(s.lobbies[i], sys.clients, n, ToggleReady(sys.clients[n]));
        StrangerKeepsRoom(s.lobbies[i], sys.clients, n, SendTurn(sys.clients[n], column));
      }
    }
  }

  lemma NoticeKeepsFresh(c: Conn, clients: ClientTable, position: nat)
    requires Fresh(c, clients)
    ensures Fresh(NotifyQueuePosition(c, position), clients)
  {
    SiftAppend(c.out, InQueue(position));
  }

  lemma ArrivalKeepsSystem(sys: System)
    requires SystemOK(sys)
    ensures SystemOK(Next(sys, Arrives))
  {
    ServeKeeps(sys.server, Arrival);
    ArrivalKeepsRooms(sys);
    NewcomerIsPlaced(sys.server, sys.clients + [NEW_CLIENT], OnAccept(NewConn(sys.server.accepted)));
  }

  // The newcomer's own client is new, and the other clients stay what they were.
  lemma ArrivalKeepsRooms(sys: System)
    requires SystemOK(sys)
    ensures var table := sys.clients + [NEW_CLIENT];
            && RoomsOK(sys.server.lobbies, table) && AllFresh(sys.server.queue, table)
            && Fresh(OnAccept(NewConn(sys.server.accepted)), table)
  {
    forall i | 0 <= i < |sys.server.lobbies| ensures RoomOK(sys.server.lobbies[i], sys.clients + [NEW_CLIENT]) {
      NewClientKeepsRoom(sys.server.lobbies[i], sys.clients, NEW_CLIENT);
    }
    assert Sift([Ping]) == [] by {
      assert [Ping][1..] == [];
    }
  }

  lemma NewcomerIsPlaced(s: Server, table: ClientTable, c: Conn)
    requires RoomsOK(s.lobbies, table) && AllFresh(s.queue, table) && Fresh(c, table)
    ensures RoomsOK(SeatOrQueue(s, c).lobbies, table) && AllFresh(SeatOrQueue(s, c).queue, table)
  {
    var k := FindAvailableLobby(s.lobbies, 0);
    if k < |s.lobbies| {
      JoinKeepsRoom(s.lobbies[k], table, c);
      RoomReplaced(s.lobbies, table, k, AddPlayer(s.lobbies[k], c));
    } else if |s.lobbies| < MAX_LOBBIES {
      NewRoom(MIN_NUM_PLAYERS, table);
      NewLobbyInOrder(MIN_NUM_PLAYERS);
      JoinKeepsRoom(StartedLobby(MIN_NUM_PLAYERS), table, c);
    } else {
      NoticeKeepsFresh(c, table, |s.queue| + 1);
    }
  }

  lemma LossKeepsSystem(sys: System, at: Place, outcome: (Conn, Event))
    requires SystemOK(sys) && Occupied(sys.server, at)
    requires outcome == HandleDisconnect(ConnAt(sys.server, at)) || outcome == OnTimer(ConnAt(sys.server, at))
    ensures SystemOK(sys.(server := ServeLoss(sys.server, at, outcome)))
  {
    var s := sys.server;
    LossKeepsServer(s, at, outcome);
    match at
    case InLine(q) =>
      var c := s.queue[q];
      SiftAppend(c.out, Ping);
      assert sys.clients[c.serial := sys.clients[c.serial]] == sys.clients;
      WaitingReplaced(sys, q, outcome.0, sys.clients[c.serial]);
    case InLobby(i, j) =>
      MembersDistinct(s, i);
      var l := s.lobbies[i];
      LossKeeps(l, j, outcome);
      var (after, available) := AfterEvent(l, j, outcome);
      if outcome.1 == Lost {
        LossKeepsRoom(l, sys.clients, j, outcome);
        RoomReplaced(s.lobbies, sys.clients, i, after);
        SeatingKeepsRooms(s.(lobbies := s.lobbies[i := after]), sys.clients, i);
      } else if l.conns[j].connected {
        PingKeepsRoom(l, sys.clients, j);
        RoomReplaced(s.lobbies, sys.clients, i, after);
      } else {
        assert l.(conns := l.conns[j := outcome.0]) == l;
      }
  }

  lemma SeatingKeepsRooms(s: Server, clients: ClientTable, i: nat)
    requires RoomsOK(s.lobbies, clients) && AllFresh(s.queue, clients) && i < |s.lobbies| && !IsFull(s.lobbies[i])
    ensures var after := OnLobbyAvailable(s, i);
            RoomsOK(after.lobbies, clients) && AllFresh(after.queue, clients)
  {
    if s.queue != [] {
      JoinKeepsRoom(s.lobbies[i], clients, s.queue[0]);
      RoomReplaced(s.lobbies, clients, i, AddPlayer(s.lobbies[i], s.queue[0]));
    }
  }

  lemma QueueTimerKeepsFresh(queue: seq<Conn>, clients: ClientTable)
    requires AllFresh(queue, clients)
    ensures AllFresh(Alive(queue), clients) && AllFresh(NotifyAll(Alive(queue)), clients)
  {
    AliveStaysFresh(queue, clients);
    forall q | 0 <= q < |Alive(queue)| ensures Fresh(NotifyAll(Alive(queue))[q], clients) {
      NoticeKeepsFresh(Alive(queue)[q], clients, q + 1);
    }
  }

  lemma {:induction false} AliveStaysFresh(queue: seq<Conn>, clients: ClientTable)
    requires AllFresh(queue, clients)
    ensures AllFresh(Alive(queue), clients)
  {
    if queue != [] {
      AliveStaysFresh(queue[..|queue| - 1], clients);
    }
  }

  lemma NextKeeps(sys: System, step: Step)
    requires SystemOK(sys)
    ensures SystemOK(Next(sys, step))
  {
    match step
    case Arrives => ArrivalKeepsSystem(sys);
    case ServerReads(at, first) =>
      if CanServerRead(sys, at, first) {
        ServerReadKeeps(sys, at, first);
      }
    case ReadFails(at) =>
      if Occupied(sys.server, at) {
        LossKeepsSystem(sys, at, HandleDisconnect(ConnAt(sys.server, at)));
      }
    case TimerFires(at) =>
      if Occupied(sys.server, at) {
        LossKeepsSystem(sys, at, OnTimer(ConnAt(sys.server, at)));
      }
    case QueueTimerFires =>
      ServeKeeps(sys.server, QueueTimer);
      QueueTimerKeepsFresh(sys.server.queue, sys.clients);
    case ClientReads(at) =>
      if Present(sys, at) && ConnAt(sys.server, at).out != [] {
        ClientReadKeeps(sys, at);
      }
    case ClientReadies(n) =>
      if n < |sys.clients| {
        AnswerKeeps(sys, n, 0);
      }
    case ClientMoves(n, column) =>
      if n < |sys.clients| {
        AnswerKeeps(sys, n, column);
      }
  }

  // ---------------------------------------------------------------- runs

  // Where a run of the system leads.
  function Run(steps: seq<Step>): System {
    if steps == [] then INITIAL else Next(Run(steps[..|steps| - 1]), steps[|steps| - 1])
  }

  // Where more steps lead from some state.
  function Continue(sys: System, steps: seq<Step>): System
    decreases |steps|
  {
    if steps == [] then sys else Continue(Next(sys, steps[0]), steps[1..])
  }

  lemma {:induction false} RunKeeps(steps: seq<Step>)
    ensures SystemOK(Run(steps))
  {
    if steps != [] {
      RunKeeps(steps[..|steps| - 1]);
      NextKeeps(Run(steps[..|steps| - 1]), steps[|steps| - 1]);
    }
  }
}
