// When the lobbies' ready counts are right, whatever the clients send: exactly which events
// make one wrong.
module Counting {
  import opened Bytes
  import opened Rules
  import opened Messages
  import opened Connections
  import opened Lobbies
  import opened LobbyInvariants
  import opened Servers
  import opened ServerInvariants
  import opened Conservation
  import opened Lifetimes
  import opened Rooms
  import opened Discipline

  // numReady is the number of seats with a ready player.
  predicate CountsRight(l: Lobby) {
    l.numReady == |ReadySeats(l)|
  }

  predicate AllCountRight(s: Server) {
    forall i | 0 <= i < |s.lobbies| :: CountsRight(s.lobbies[i])
  }

  // A Ready is accepted for an id whose seat is taken, though not by a reader that was not
  // ready: a second Ready, or one read from a connection that lost its seat.
  predicate ReadyForAnother(l: Lobby, j: nat, m: Message)
    requires j < |l.conns|
  {
    var c := l.conns[j];
    OnRead(c, m).1 == Readied && 1 <= c.id <= |l.seats|
    && l.seats[c.id - 1] != None && !(l.seats[c.id - 1] == Some(j) && !c.ready)
  }

  // The event is such a read.
  predicate MiscountedRead(s: Server, input: Input) {
    input.Reads? && input.at.InLobby? && Occupied(s, input.at)
    && ReadyForAnother(s.lobbies[input.at.i], input.at.j, input.m)
  }

  // A member is lost while the head of the queue has its ready flag set: a waiting connection
  // has id 0, so a Ready with id 0 sets the flag, and no lobby counts it.
  predicate MiscountedSuccession(s: Server, input: Input) {
    (input.ReadError? || input.Timer?) && input.at.InLobby? && LosesMember(s, input, input.at.i, input.at.j)
    && s.queue != [] && s.queue[0].ready
  }

  // ---------------------------------------------------------------- one lobby

  lemma ReadingCounts(l: Lobby, j: nat, m: Message, first: u8)
    requires LobbyOK(l) && CountsRight(l) && j < |l.conns|
    ensures CountsRight(ReadMessage(l, j, m, first)) <==> !ReadyForAnother(l, j, m)
  {
    var (c, event) := OnRead(l.conns[j], m);
    if event == Readied {
      assert m == Ready(l.conns[j].id);
      ReadyStaysCounted(l, j, first);
    } else {
      var read := l.(conns := l.conns[j := c]);
      assert ReadySeats(read) == ReadySeats(l);
      if event.TookTurn? {
        MovesKeepCount(read, c.id, event.column);
      }
    }
  }

  lemma MovesKeepCount(l: Lobby, id: u8, column: u8)
    requires CountsRight(l) && (l.isPlayingGame ==> l.game.Some?)
    ensures CountsRight(OnTakeTurn(l, id, column))
  {
    var after := OnTakeTurn(l, id, column);
    if l.isPlayingGame && Over(TakeTurn(l.game.value, id, column).0) {
      assert ReadySeats(after) == {};
    } else {
      assert ReadySeats(after) == ReadySeats(l);
    }
  }

  lemma JoiningCounts(l: Lobby, c: Conn)
    requires LobbyOK(l) && CountsRight(l) && !IsFull(l) && c.id == 0
    ensures CountsRight(AddPlayer(l, c)) <==> !c.ready
  {
    var k, after := FirstFree(l.seats, 0), AddPlayer(l, c);
    AddPlayerKeeps(l, c);
    assert after.conns[|l.conns|].ready == c.ready;
    if c.ready {
      assert ReadySeats(after) == ReadySeats(l) + {k};
    } else {
      assert ReadySeats(after) == ReadySeats(l);
    }
  }

  lemma LosingCounts(l: Lobby, j: nat, outcome: (Conn, Event))
    requires LobbyOK(l) && CountsRight(l) && j < |l.conns|
    requires outcome == HandleDisconnect(l.conns[j]) || outcome == OnTimer(l.conns[j])
    ensures CountsRight(AfterEvent(l, j, outcome).0)
  {
    if outcome.1 != Lost {
      assert ReadySeats(l.(conns := l.conns[j := outcome.0])) == ReadySeats(l);
    } else {
      LossIsFound(l, j, outcome.0);
      LossIsHandled(l, j, outcome);
      LossKeepsCount(l, j, outcome.0);
    }
  }

  lemma LossKeepsCount(l: Lobby, j: nat, c: Conn)
    requires LobbyOK(l) && CountsRight(l) && j < |l.conns| && c.ready == l.conns[j].ready
    requires l.seats[l.conns[j].id - 1] == Some(j)
    ensures CountsRight(AfterLossOf(l, j, c, l.conns[j].id - 1))
  {
    var i := l.conns[j].id - 1;
    var after := AfterLossOf(l, j, c, i);
    if l.isPlayingGame {
      assert ReadySeats(after) == {};
    } else {
      assert forall k | 0 <= k < |l.seats| && k != i :: l.seats[k] != Some(j);
      ReadySeatsShrink(l, j, c, i);
      SameReadySeats(after, l.(conns := l.conns[j := c], seats := l.seats[i := None]));
    }
  }

  lemma SuccessionCounts(s: Server, i: nat, j: nat, outcome: (Conn, Event))
    requires ServerOK(s) && Occupied(s, InLobby(i, j)) && CountsRight(s.lobbies[i])
    requires outcome == HandleDisconnect(s.lobbies[i].conns[j]) || outcome == OnTimer(s.lobbies[i].conns[j])
    ensures CountsRight(Reseated(s, i, j, outcome))
            <==> !(outcome.1 == Lost && s.queue != [] && s.queue[0].ready)
  {
    LossKeeps(s.lobbies[i], j, outcome);
    LosingCounts(s.lobbies[i], j, outcome);
    if outcome.1 == Lost && s.queue != [] {
      JoiningCounts(AfterEvent(s.lobbies[i], j, outcome).0, s.queue[0]);
    }
  }

  // ---------------------------------------------------------------- every event

  lemma OneLobbyCounts(s: Server, t: Server, i: nat)
    requires AllCountRight(s) && i < |s.lobbies| == |t.lobbies| && t.lobbies == s.lobbies[i := t.lobbies[i]]
    ensures AllCountRight(t) <==> CountsRight(t.lobbies[i])
  {
    assert forall k | 0 <= k < |s.lobbies| && k != i :: t.lobbies[k] == s.lobbies[k];
  }

  // In any state in which all lobbies count right, any event leaves them so if and only if it
  // is neither a miscounted read nor a miscounted succession.
  lemma EventCounts(s: Server, input: Input)
    requires ServerOK(s) && AllCountRight(s)
    ensures AllCountRight(Serve(s, input)) <==> !MiscountedRead(s, input) && !MiscountedSuccession(s, input)
  {
    match input
    case Arrival => ArrivalCounts(s);
    case QueueTimer =>
    case Reads(at, m, first) =>
      if Occupied(s, at) && at.InLobby? {
        ReadingCounts(s.lobbies[at.i], at.j, m, first);
        OneLobbyCounts(s, Serve(s, input), at.i);
      }
    case ReadError(at) => LossCounts(s, input);
    case Timer(at) => LossCounts(s, input);
    case Delivered(at) => DeliveryCounts(s, at);
  }

  lemma ArrivalCounts(s: Server)
    requires ServerOK(s) && AllCountRight(s)
    ensures AllCountRight(Serve(s, Arrival))
  {
    var c, k := OnAccept(NewConn(s.accepted)), FindAvailableLobby(s.lobbies, 0);
    if k < |s.lobbies| {
      JoiningCounts(s.lobbies[k], c);
      OneLobbyCounts(s, Serve(s, Arrival), k);
    } else if |s.lobbies| < MAX_LOBBIES {
      NewLobbyInOrder(MIN_NUM_PLAYERS);
      assert ReadySeats(StartedLobby(MIN_NUM_PLAYERS)) == {};
      JoiningCounts(StartedLobby(MIN_NUM_PLAYERS), c);
    }
  }

  lemma LossCounts(s: Server, input: Input)
    requires ServerOK(s) && AllCountRight(s) && (input.ReadError? || input.Timer?)
    ensures AllCountRight(Serve(s, input)) <==> !MiscountedSuccession(s, input)
  {
    var at := input.at;
    if at.InLobby? && Occupied(s, at) {
      LossEffect(s, at.i, at.j, LossAt(s, input));
      SuccessionCounts(s, at.i, at.j, LossAt(s, input));
      assert Serve(s, input) == ServeLoss(s, at, LossAt(s, input));
      OneLobbyCounts(s, Serve(s, input), at.i);
    }
  }

  lemma DeliveryCounts(s: Server, at: Place)
    requires GamesPresent(s) && AllCountRight(s)
    ensures AllCountRight(Serve(s, Input.Delivered(at)))
  {
    if Occupied(s, at) && at.InLobby? && ConnAt(s, at).out != [] {
      assert ReadySeats(Serve(s, Input.Delivered(at)).lobbies[at.i]) == ReadySeats(s.lobbies[at.i]);
      OneLobbyCounts(s, Serve(s, Input.Delivered(at)), at.i);
    }
  }

  // ---------------------------------------------------------------- whole runs

  // All lobbies count right at the end of the run, and did at every time before.
  predicate AlwaysCounted(inputs: seq<Input>) {
    AllCountRight(RunServer(inputs)) && (inputs != [] ==> AlwaysCounted(inputs[..|inputs| - 1]))
  }

  // No event of the run miscounts.
  predicate NeverMiscounted(inputs: seq<Input>) {
    inputs != [] ==>
      var s, last := RunServer(inputs[..|inputs| - 1]), inputs[|inputs| - 1];
      && NeverMiscounted(inputs[..|inputs| - 1])
      && !MiscountedRead(s, last) && !MiscountedSuccession(s, last)
  }

  // Over a whole run, the counts are right all the time if and only if no event miscounts.
  lemma {:induction false} RunCounts(inputs: seq<Input>)
    ensures AlwaysCounted(inputs) <==> NeverMiscounted(inputs)
  {
    if inputs != [] {
      var before := inputs[..|inputs| - 1];
      RunCounts(before);
      RunServerKeeps(before);
      if AlwaysCounted(before) {
        EventCounts(RunServer(before), inputs[|inputs| - 1]);
      }
    }
  }

  // A connection that waits is told that it is ready: seating it makes the count wrong.
  lemma ReadyWhileWaiting(l: Lobby, c: Conn)
    requires LobbyOK(l) && CountsRight(l) && !IsFull(l) && c.id == 0
    ensures OnRead(c, Ready(0)).0.ready && !CountsRight(AddPlayer(l, OnRead(c, Ready(0)).0))
  {
    JoiningCounts(l, OnRead(c, Ready(0)).0);
  }
}
