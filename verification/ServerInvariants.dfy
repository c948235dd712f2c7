// What holds after every run of the server, whatever the clients send.
module ServerInvariants {
  import opened Bytes
  import opened Rules
  import opened Messages
  import opened Connections
  import opened Lobbies
  import opened LobbyInvariants
  import opened Servers

  ghost predicate ServerOK(s: Server) {
    LobbiesOK(s.lobbies) && QueueOK(s) && Ordered(Roster(s.lobbies), Serials(s.queue), s.accepted)
  }

  ghost predicate LobbiesOK(lobbies: seq<Lobby>) {
    |lobbies| <= MAX_LOBBIES && forall i | 0 <= i < |lobbies| :: LobbyOK(lobbies[i])
  }

  predicate AllFull(lobbies: seq<Lobby>) {
    forall i | 0 <= i < |lobbies| :: IsFull(lobbies[i])
  }

  // Somebody waits only while there are as many lobbies as allowed and all of them are full.
  predicate QueueOK(s: Server) {
    (forall q | 0 <= q < |s.queue| :: s.queue[q].id == 0)
    && (s.queue != [] ==> |s.lobbies| == MAX_LOBBIES && AllFull(s.lobbies))
  }

  function Serials(conns: seq<Conn>): (r: seq<nat>)
    ensures |r| == |conns|
  {
    seq(|conns|, j requires 0 <= j < |conns| => conns[j].serial)
  }

  function Roster(lobbies: seq<Lobby>): (r: seq<seq<nat>>)
    ensures |r| == |lobbies|
  {
    seq(|lobbies|, i requires 0 <= i < |lobbies| => Serials(lobbies[i].conns))
  }

  // No serial occurs twice; the queue is in order of arrival; everybody who was ever given a
  // seat arrived before everybody who is waiting.
  predicate Ordered(roster: seq<seq<nat>>, waiting: seq<nat>, accepted: nat) {
    (forall i, j | 0 <= i < |roster| && 0 <= j < |roster[i]| :: roster[i][j] < accepted)
    && (forall q | 0 <= q < |waiting| :: waiting[q] < accepted)
    && (forall i, j, i', j' |
          0 <= i < |roster| && 0 <= j < |roster[i]| && 0 <= i' < |roster| && 0 <= j' < |roster[i']| ::
          roster[i][j] == roster[i'][j'] ==> i == i' && j == j')
    && (forall q, q' | 0 <= q < q' < |waiting| :: waiting[q] < waiting[q'])
    && (forall i, j, q | 0 <= i < |roster| && 0 <= j < |roster[i]| && 0 <= q < |waiting| :: roster[i][j] < waiting[q])
  }

  // ---------------------------------------------------------------- parts

  lemma ReplaceLobby(lobbies: seq<Lobby>, i: nat, l: Lobby)
    requires LobbiesOK(lobbies) && i < |lobbies| && LobbyOK(l)
    ensures LobbiesOK(lobbies[i := l])
    ensures Roster(lobbies[i := l]) == Roster(lobbies)[i := Serials(l.conns)]
  {
  }

  lemma SamePeopleSameSerials(a: seq<Conn>, b: seq<Conn>)
    requires SamePeople(a, b)
    ensures Serials(a) == Serials(b)
  {
  }

  // Replacing a lobby by one with the same members and the same fullness.
  lemma SameSeatingKeepsServer(s: Server, i: nat, l: Lobby)
    requires ServerOK(s) && i < |s.lobbies| && LobbyOK(l)
    requires Serials(l.conns) == Serials(s.lobbies[i].conns) && (IsFull(s.lobbies[i]) ==> IsFull(l))
    ensures ServerOK(s.(lobbies := s.lobbies[i := l]))
  {
    ReplaceLobby(s.lobbies, i, l);
    assert Roster(s.lobbies)[i := Serials(l.conns)] == Roster(s.lobbies);
  }

  lemma JoinKeepsOrder(roster: seq<seq<nat>>, i: nat, waiting: seq<nat>, accepted: nat)
    requires Ordered(roster, waiting, accepted) && i < |roster| && waiting != []
    ensures Ordered(roster[i := roster[i] + [waiting[0]]], waiting[1..], accepted)
  {
  }

  lemma ArrivalKeepsOrder(roster: seq<seq<nat>>, waiting: seq<nat>, accepted: nat)
    requires Ordered(roster, waiting, accepted)
    ensures Ordered(roster, waiting + [accepted], accepted + 1)
  {
  }

  // ---------------------------------------------------------------- each event keeps the order

  lemma ArrivalKeeps(s: Server)
    requires ServerOK(s)
    ensures ServerOK(OnConnectionAccepted(s, NewConn(s.accepted)))
  {
    var c := OnAccept(NewConn(s.accepted));
    var k := FindAvailableLobby(s.lobbies, 0);
    if k < |s.lobbies| {
      SeatNewcomer(s, k, c);
    } else if |s.lobbies| < MAX_LOBBIES {
      OpenLobbyFor(s, c);
    } else {
      ArrivalKeepsOrder(Roster(s.lobbies), Serials(s.queue), s.accepted);
      assert Serials(s.queue + [NotifyQueuePosition(c, |s.queue| + 1)]) == Serials(s.queue) + [s.accepted];
    }
  }

  // A newcomer finds a free seat only when nobody is waiting.
  lemma SeatNewcomer(s: Server, k: nat, c: Conn)
    requires ServerOK(s) && k < |s.lobbies| && !IsFull(s.lobbies[k]) && c.id == 0 && c.serial == s.accepted
    ensures s.queue == []
    ensures ServerOK(s.(lobbies := s.lobbies[k := AddPlayer(s.lobbies[k], c)], accepted := s.accepted + 1))
  {
    ArrivalKeepsOrder(Roster(s.lobbies), [], s.accepted);
    JoinKeepsOrder(Roster(s.lobbies), k, [s.accepted], s.accepted + 1);
    AddedSerial(s.lobbies[k], c);
    ReplaceLobby(s.lobbies, k, AddPlayer(s.lobbies[k], c));
  }

  lemma OpenLobbyFor(s: Server, c: Conn)
    requires ServerOK(s) && |s.lobbies| < MAX_LOBBIES && c.id == 0 && c.serial == s.accepted
    ensures var l := AddPlayer(StartedLobby(MIN_NUM_PLAYERS), c);
            ServerOK(s.(lobbies := s.lobbies + [l], accepted := s.accepted + 1))
  {
    var l := AddPlayer(StartedLobby(MIN_NUM_PLAYERS), c);
    NewLobbyInOrder(MIN_NUM_PLAYERS);
    AddedSerial(StartedLobby(MIN_NUM_PLAYERS), c);
    assert Serials(StartedLobby(MIN_NUM_PLAYERS).conns) + [c.serial] == [c.serial];
    assert Roster(s.lobbies + [l]) == Roster(s.lobbies) + [[s.accepted]];
    OpeningKeepsOrder(Roster(s.lobbies), s.accepted);
  }

  lemma OpeningKeepsOrder(roster: seq<seq<nat>>, accepted: nat)
    requires Ordered(roster, [], accepted)
    ensures Ordered(roster + [[accepted]], [], accepted + 1)
  {
  }

  lemma AddedSerial(l: Lobby, c: Conn)
    requires LobbyOK(l) && !IsFull(l) && c.id == 0
    ensures LobbyOK(AddPlayer(l, c))
    ensures Serials(AddPlayer(l, c).conns) == Serials(l.conns) + [c.serial]
  {
    AddPlayerKeeps(l, c);
    SetIdAssigns(c, FirstFree(l.seats, 0) + 1);
  }

  // A lobby with a free seat, after a loss, gets the head of the queue.
  lemma SeatingFromQueueKeeps(s: Server, i: nat, l: Lobby)
    requires ServerOK(s) && i < |s.lobbies| && LobbyOK(l)
    requires Serials(l.conns) == Serials(s.lobbies[i].conns)
    requires s.queue != [] ==> l.numPlayers + 1 == l.maxPlayers
    ensures ServerOK(OnLobbyAvailable(s.(lobbies := s.lobbies[i := l]), i))
  {
    ReplaceLobby(s.lobbies, i, l);
    assert Roster(s.lobbies)[i := Serials(l.conns)] == Roster(s.lobbies);
    if s.queue != [] {
      AddedSerial(l, s.queue[0]);
      ReplaceLobby(s.lobbies, i, AddPlayer(l, s.queue[0]));
      JoinKeepsOrder(Roster(s.lobbies), i, Serials(s.queue), s.accepted);
      assert s.lobbies[i := l][i := AddPlayer(l, s.queue[0])] == s.lobbies[i := AddPlayer(l, s.queue[0])];
      assert Serials(s.queue[1..]) == Serials(s.queue)[1..];
    }
  }

  lemma LossKeepsServer(s: Server, at: Place, outcome: (Conn, Event))
    requires ServerOK(s) && Occupied(s, at)
    requires outcome == HandleDisconnect(ConnAt(s, at)) || outcome == OnTimer(ConnAt(s, at))
    ensures ServerOK(ServeLoss(s, at, outcome))
  {
    match at
    case InLine(q) => QueueEntryKeeps(s, q, outcome.0);
    case InLobby(i, j) =>
      var l := s.lobbies[i];
      LossKeeps(l, j, outcome);
      var (after, available) := AfterEvent(l, j, outcome);
      assert Serials(after.conns) == Serials(l.conns);
      if available {
        SeatChangeCounts(l.seats, l.conns[j].id - 1, None);
        SeatingFromQueueKeeps(s, i, after);
      } else {
        SameSeatingKeepsServer(s, i, after);
      }
  }

  lemma QueueEntryKeeps(s: Server, q: nat, c: Conn)
    requires ServerOK(s) && q < |s.queue| && c.id == 0 && c.serial == s.queue[q].serial
    ensures ServerOK(WithConn(s, InLine(q), c))
  {
    assert Serials(s.queue[q := c]) == Serials(s.queue);
  }

  lemma ReadKeepsServer(s: Server, at: Place, m: Message, first: u8)
    requires ServerOK(s) && Occupied(s, at)
    ensures ServerOK(ServeRead(s, at, m, first))
  {
    match at
    case InLine(q) => QueueEntryKeeps(s, q, OnRead(s.queue[q], m).0);
    case InLobby(i, j) =>
      ReadMessageKeeps(s.lobbies[i], j, m, first);
      SamePeopleSameSerials(s.lobbies[i].conns, ReadMessage(s.lobbies[i], j, m, first).conns);
      SameSeatingKeepsServer(s, i, ReadMessage(s.lobbies[i], j, m, first));
  }

  lemma DeliveryKeeps(s: Server, at: Place, out: seq<Message>)
    requires ServerOK(s) && Occupied(s, at)
    ensures ServerOK(WithConn(s, at, ConnAt(s, at).(out := out)))
  {
    var c := ConnAt(s, at).(out := out);
    match at
    case InLine(q) => QueueEntryKeeps(s, q, c);
    case InLobby(i, j) =>
      var l := s.lobbies[i].(conns := s.lobbies[i].conns[j := c]);
      SeatingKeepsSeats(s.lobbies[i], l);
      SamePeopleSameSerials(s.lobbies[i].conns, l.conns);
      SameSeatingKeepsServer(s, i, l);
  }

  lemma QueueTimerKeeps(s: Server)
    requires ServerOK(s)
    ensures ServerOK(UpdateQueuePositions(s))
  {
    AliveSublist(s.queue, Roster(s.lobbies), s.accepted);
    assert Serials(NotifyAll(Alive(s.queue))) == Serials(Alive(s.queue));
  }

  // Purging keeps the order of those who stay.
  lemma {:induction false} AliveSublist(queue: seq<Conn>, roster: seq<seq<nat>>, accepted: nat)
    requires Ordered(roster, Serials(queue), accepted)
    ensures Ordered(roster, Serials(Alive(queue)), accepted)
    ensures forall c :: c in Alive(queue) <==> c in queue && c.connected
    ensures queue == [] ==> Alive(queue) == []
  {
    if queue != [] {
      var before, last := queue[..|queue| - 1], queue[|queue| - 1];
      assert Serials(before) == Serials(queue)[..|before|];
      assert queue == before + [last];
      AliveSublist(before, roster, accepted);
      forall q | 0 <= q < |Alive(before)| ensures Serials(Alive(before))[q] < last.serial {
        var k :| 0 <= k < |before| && before[k] == Alive(before)[q];
        assert Serials(queue)[k] < Serials(queue)[|before|];
      }
      if last.connected {
        assert Serials(queue)[|before|] == last.serial;
        OneMoreWaits(roster, Serials(Alive(before)), last.serial, accepted);
        assert Serials(Alive(queue)) == Serials(Alive(before)) + [last.serial];
      } else {
        assert Alive(queue) == Alive(before);
      }
    }
  }

  lemma OneMoreWaits(roster: seq<seq<nat>>, waiting: seq<nat>, serial: nat, accepted: nat)
    requires Ordered(roster, waiting, accepted) && Ordered(roster, [serial], accepted)
    requires forall q | 0 <= q < |waiting| :: waiting[q] < serial
    ensures Ordered(roster, waiting + [serial], accepted)
  {
  }

  lemma ServeKeeps(s: Server, input: Input)
    requires ServerOK(s)
    ensures ServerOK(Serve(s, input))
  {
    match input
    case Arrival => ArrivalKeeps(s);
    case QueueTimer => QueueTimerKeeps(s);
    case Reads(at, m, first) =>
      if Occupied(s, at) {
        ReadKeepsServer(s, at, m, first);
      }
    case ReadError(at) =>
      if Occupied(s, at) {
        LossKeepsServer(s, at, HandleDisconnect(ConnAt(s, at)));
      }
    case Timer(at) =>
      if Occupied(s, at) {
        LossKeepsServer(s, at, OnTimer(ConnAt(s, at)));
      }
    case Delivered(at) =>
      if Occupied(s, at) && ConnAt(s, at).out != [] {
        DeliveryKeeps(s, at, ConnAt(s, at).out[1..]);
      }
  }
}
