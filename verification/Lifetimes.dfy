// What an event can make of a connection: it keeps its name and its first id, it never comes
// back to life, and a dead one hears nothing.
module Lifetimes {
  import opened Bytes
  import opened Rules
  import opened Messages
  import opened Connections
  import opened Lobbies
  import opened LobbyInvariants
  import opened Servers
  import opened ServerInvariants
  import opened Conservation

  predicate Ages(a: Conn, b: Conn) {
    b.serial == a.serial && (a.id != 0 ==> b.id == a.id) && (b.connected ==> a.connected)
  }

  predicate HearsNothing(a: Conn, b: Conn) {
    !b.connected ==> b.out == a.out
  }

  predicate AllAge(a: seq<Conn>, b: seq<Conn>) {
    |a| <= |b| && forall j | 0 <= j < |a| :: Ages(a[j], b[j])
  }

  predicate DeadHearNothing(a: seq<Conn>, b: seq<Conn>) {
    |a| <= |b| && forall j | 0 <= j < |a| :: HearsNothing(a[j], b[j])
  }

  predicate MembersAge(s: Server, t: Server) {
    |s.lobbies| <= |t.lobbies|
    && forall i | 0 <= i < |s.lobbies| :: AllAge(s.lobbies[i].conns, t.lobbies[i].conns)
  }

  predicate DeadMembersHearNothing(s: Server, t: Server) {
    |s.lobbies| <= |t.lobbies|
    && forall i | 0 <= i < |s.lobbies| :: DeadHearNothing(s.lobbies[i].conns, t.lobbies[i].conns)
  }

  // ---------------------------------------------------------------- one lobby

  lemma ReadingAges(l: Lobby, j: nat, m: Message, first: u8)
    requires LobbyOK(l) && j < |l.conns|
    ensures var after := ReadMessage(l, j, m, first);
            AllAge(l.conns, after.conns) && DeadHearNothing(l.conns, after.conns) && |after.conns| == |l.conns|
  {
    ReadMessageKeeps(l, j, m, first);
    ReadingIsSilent(l, j, m, first);
  }

  lemma ReadingIsSilent(l: Lobby, j: nat, m: Message, first: u8)
    requires j < |l.conns| && (l.isPlayingGame ==> l.game.Some?)
    ensures DeadHearNothing(l.conns, ReadMessage(l, j, m, first).conns)
  {
    var (c, event) := OnRead(l.conns[j], m);
    var read := l.(conns := l.conns[j := c]);
    match event
    case Readied => ReadyIsSilent(read, c.id, first);
    case TookTurn(column) => TurnIsSilent(read, c.id, column);
    case _ =>
  }

  lemma ReadyIsSilent(l: Lobby, id: u8, first: u8)
    ensures DeadHearNothing(l.conns, OnReady(l, id, first).conns)
    ensures forall j | 0 <= j < |l.conns| :: l.conns[j].connected == OnReady(l, id, first).conns[j].connected
  {
  }

  lemma TurnIsSilent(l: Lobby, id: u8, column: u8)
    requires l.isPlayingGame ==> l.game.Some?
    ensures DeadHearNothing(l.conns, OnTakeTurn(l, id, column).conns)
  {
  }

  lemma LossAges(l: Lobby, j: nat, outcome: (Conn, Event))
    requires LobbyOK(l) && j < |l.conns|
    requires outcome == HandleDisconnect(l.conns[j]) || outcome == OnTimer(l.conns[j])
    ensures var after := AfterEvent(l, j, outcome).0;
            AllAge(l.conns, after.conns) && DeadHearNothing(l.conns, after.conns) && |after.conns| == |l.conns|
  {
    LossKeeps(l, j, outcome);
    LossIsSilent(l, j, outcome);
  }

  lemma LossIsSilent(l: Lobby, j: nat, outcome: (Conn, Event))
    requires j < |l.conns| && (l.isPlayingGame ==> l.game.Some?)
    requires outcome == HandleDisconnect(l.conns[j]) || outcome == OnTimer(l.conns[j])
    ensures DeadHearNothing(l.conns, AfterEvent(l, j, outcome).0.conns)
  {
  }

  lemma JoiningAges(l: Lobby, c: Conn)
    requires LobbyOK(l) && !IsFull(l) && c.id == 0
    ensures var after := AddPlayer(l, c);
            && |after.conns| == |l.conns| + 1
            && AllAge(l.conns, after.conns) && DeadHearNothing(l.conns, after.conns)
            && Ages(c, after.conns[|l.conns|]) && HearsNothing(c, after.conns[|l.conns|])
            && after.conns[|l.conns|].connected == c.connected
            && after.conns[..|l.conns|] == l.conns
  {
    AddPlayerKeeps(l, c);
  }

  // ---------------------------------------------------------------- the server

  // Whoever is a member now was one before, or was accepted just now, or waited longest.
  ghost predicate JoinedProperly(s: Server, input: Input, t: Server, i: nat, j: nat) {
    i < |t.lobbies| && j < |t.lobbies[i].conns|
    && var c := t.lobbies[i].conns[j];
       || (i < |s.lobbies| && j < |s.lobbies[i].conns|)
       || (input.Arrival? && c.serial == s.accepted && c.connected)
       || (s.queue != [] && Ages(s.queue[0], c) && HearsNothing(s.queue[0], c))
  }

  ghost predicate MembersProper(s: Server, input: Input, t: Server) {
    forall i: nat, j: nat | i < |t.lobbies| && j < |t.lobbies[i].conns| :: JoinedProperly(s, input, t, i, j)
  }

  // One lobby changes, and possibly gets a new member.
  lemma OneLobbyAges(s: Server, input: Input, t: Server, i: nat)
    requires i < |s.lobbies| == |t.lobbies| && t.lobbies == s.lobbies[i := t.lobbies[i]]
    requires AllAge(s.lobbies[i].conns, t.lobbies[i].conns)
    requires forall j: nat | |s.lobbies[i].conns| <= j < |t.lobbies[i].conns| :: JoinedProperly(s, input, t, i, j)
    ensures MembersAge(s, t) && MembersProper(s, input, t)
  {
    forall k | 0 <= k < |s.lobbies| && k != i ensures t.lobbies[k] == s.lobbies[k] {}
  }

  lemma OneLobbySilent(s: Server, t: Server, i: nat)
    requires i < |s.lobbies| == |t.lobbies| && t.lobbies == s.lobbies[i := t.lobbies[i]]
    requires DeadHearNothing(s.lobbies[i].conns, t.lobbies[i].conns)
    ensures DeadMembersHearNothing(s, t)
  {
    forall k | 0 <= k < |s.lobbies| && k != i ensures t.lobbies[k] == s.lobbies[k] {}
  }

  lemma MemberEvents(s: Server, input: Input)
    requires ServerOK(s)
    ensures var t := Serve(s, input);
            MembersAge(s, t) && (!input.Delivered? ==> DeadMembersHearNothing(s, t)) && MembersProper(s, input, t)
  {
    match input
    case Arrival => ArrivalEvents(s);
    case QueueTimer => UntouchedMembers(s, input, Serve(s, input));
    case Reads(at, m, first) =>
      if Occupied(s, at) && at.InLobby? {
        ReadingAges(s.lobbies[at.i], at.j, m, first);
        OneLobbyAges(s, input, Serve(s, input), at.i);
        OneLobbySilent(s, Serve(s, input), at.i);
      } else {
        UntouchedMembers(s, input, Serve(s, input));
      }
    case ReadError(at) =>
      if Occupied(s, at) && at.InLobby? {
        LossEvents(s, at.i, at.j, input, HandleDisconnect(ConnAt(s, at)));
      } else {
        UntouchedMembers(s, input, Serve(s, input));
      }
    case Timer(at) =>
      if Occupied(s, at) && at.InLobby? {
        LossEvents(s, at.i, at.j, input, OnTimer(ConnAt(s, at)));
      } else {
        UntouchedMembers(s, input, Serve(s, input));
      }
    case Delivered(at) =>
      if Occupied(s, at) && at.InLobby? && ConnAt(s, at).out != [] {
        OneLobbyAges(s, input, Serve(s, input), at.i);
      } else {
        UntouchedMembers(s, input, Serve(s, input));
      }
  }

  lemma UntouchedMembers(s: Server, input: Input, t: Server)
    requires s.lobbies == t.lobbies
    ensures MembersAge(s, t) && DeadMembersHearNothing(s, t) && MembersProper(s, input, t)
  {
  }

  lemma ArrivalEvents(s: Server)
    requires ServerOK(s)
    ensures var t := Serve(s, Arrival);
            MembersAge(s, t) && DeadMembersHearNothing(s, t) && MembersProper(s, Arrival, t)
  {
    var c, t := OnAccept(NewConn(s.accepted)), Serve(s, Arrival);
    var k := FindAvailableLobby(s.lobbies, 0);
    if k < |s.lobbies| {
      JoiningAges(s.lobbies[k], c);
      OneLobbyAges(s, Arrival, t, k);
      OneLobbySilent(s, t, k);
    } else if |s.lobbies| < MAX_LOBBIES {
      NewLobbyInOrder(MIN_NUM_PLAYERS);
      JoiningAges(StartedLobby(MIN_NUM_PLAYERS), c);
      LobbyOpened(s, t);
    } else {
      UntouchedMembers(s, Arrival, t);
    }
  }

  lemma LobbyOpened(s: Server, t: Server)
    requires |t.lobbies| == |s.lobbies| + 1 && s.lobbies == t.lobbies[..|s.lobbies|]
    requires |t.lobbies[|s.lobbies|].conns| == 1
    requires var c := t.lobbies[|s.lobbies|].conns[0]; c.serial == s.accepted && c.connected
    ensures MembersAge(s, t) && DeadMembersHearNothing(s, t) && MembersProper(s, Arrival, t)
  {
    forall k | 0 <= k < |s.lobbies| ensures t.lobbies[k] == s.lobbies[k] {}
  }

  lemma LossEvents(s: Server, i: nat, j: nat, input: Input, outcome: (Conn, Event))
    requires ServerOK(s) && Occupied(s, InLobby(i, j))
    requires outcome == HandleDisconnect(s.lobbies[i].conns[j]) || outcome == OnTimer(s.lobbies[i].conns[j])
    ensures var t := ServeLoss(s, InLobby(i, j), outcome);
            MembersAge(s, t) && DeadMembersHearNothing(s, t) && MembersProper(s, input, t)
  {
    var t := ServeLoss(s, InLobby(i, j), outcome);
    LossEffect(s, i, j, outcome);
    LossInLobbyEvents(s, i, j, outcome);
    OneLobbyAges(s, input, t, i);
    OneLobbySilent(s, t, i);
  }

  // The lobby once it handled the loss and a waiting connection, if any, took the seat.
  function Reseated(s: Server, i: nat, j: nat, outcome: (Conn, Event)): Lobby
    requires Occupied(s, InLobby(i, j)) && GamesPresent(s)
  {
    var (after, available) := AfterEvent(s.lobbies[i], j, outcome);
    if available && s.queue != [] then AddPlayer(after, s.queue[0]) else after
  }

  lemma LossEffect(s: Server, i: nat, j: nat, outcome: (Conn, Event))
    requires Occupied(s, InLobby(i, j)) && GamesPresent(s)
    ensures ServeLoss(s, InLobby(i, j), outcome).lobbies == s.lobbies[i := Reseated(s, i, j, outcome)]
  {
    var (after, available) := AfterEvent(s.lobbies[i], j, outcome);
    if available && s.queue != [] {
      assert s.lobbies[i := after][i := AddPlayer(after, s.queue[0])] == s.lobbies[i := AddPlayer(after, s.queue[0])];
    }
  }

  lemma LossInLobbyEvents(s: Server, i: nat, j: nat, outcome: (Conn, Event))
    requires ServerOK(s) && Occupied(s, InLobby(i, j))
    requires outcome == HandleDisconnect(s.lobbies[i].conns[j]) || outcome == OnTimer(s.lobbies[i].conns[j])
    ensures var members, after := s.lobbies[i].conns, Reseated(s, i, j, outcome).conns;
            && AllAge(members, after) && DeadHearNothing(members, after)
            && forall k | |members| <= k < |after| ::
                 s.queue != [] && Ages(s.queue[0], after[k]) && HearsNothing(s.queue[0], after[k])
  {
    var l := s.lobbies[i];
    LossKeeps(l, j, outcome);
    LossAges(l, j, outcome);
    var (after, available) := AfterEvent(l, j, outcome);
    if available && s.queue != [] {
      JoiningAges(after, s.queue[0]);
      AgesTransitively(l.conns, after.conns, AddPlayer(after, s.queue[0]).conns);
    }
  }

  lemma AgesTransitively(a: seq<Conn>, b: seq<Conn>, c: seq<Conn>)
    requires AllAge(a, b) && DeadHearNothing(a, b) && AllAge(b, c) && DeadHearNothing(b, c) && |a| == |b|
    requires forall j | 0 <= j < |b| :: c[j].connected == b[j].connected
    ensures AllAge(a, c) && DeadHearNothing(a, c)
  {
  }

  // ---------------------------------------------------------------- the queue

  ghost predicate WaitedBefore(s: Server, c: Conn) {
    exists p :: 0 <= p < |s.queue| && Ages(s.queue[p], c)
  }

  // Whoever waits now waited before, or was accepted just now.
  ghost predicate WaitsProperly(s: Server, input: Input, c: Conn) {
    WaitedBefore(s, c) || (input.Arrival? && c.serial == s.accepted && c.connected)
  }

  lemma WaitingEvents(s: Server, input: Input, q: nat)
    requires ServerOK(s) && q < |Serve(s, input).queue|
    ensures WaitsProperly(s, input, Serve(s, input).queue[q])
  {
    var t := Serve(s, input);
    match input
    case Arrival =>
      if q < |s.queue| {
        assert Ages(s.queue[q], t.queue[q]);
      }
    case QueueTimer => StayingWaited(s, q);
    case Reads(at, m, first) => assert Ages(s.queue[q], t.queue[q]);
    case ReadError(at) =>
      if Occupied(s, at) {
        LossLeavesQueue(s, at, HandleDisconnect(ConnAt(s, at)), q);
      } else {
        assert Ages(s.queue[q], t.queue[q]);
      }
    case Timer(at) =>
      if Occupied(s, at) {
        LossLeavesQueue(s, at, OnTimer(ConnAt(s, at)), q);
      } else {
        assert Ages(s.queue[q], t.queue[q]);
      }
    case Delivered(at) => assert Ages(s.queue[q], t.queue[q]);
  }

  lemma StayingWaited(s: Server, q: nat)
    requires ServerOK(s) && q < |UpdateQueuePositions(s).queue|
    ensures WaitedBefore(s, UpdateQueuePositions(s).queue[q])
  {
    AliveSublist(s.queue, Roster(s.lobbies), s.accepted);
    assert Alive(s.queue)[q] in s.queue;
    var p :| 0 <= p < |s.queue| && s.queue[p] == Alive(s.queue)[q];
    assert Ages(s.queue[p], UpdateQueuePositions(s).queue[q]);
  }

  lemma LossLeavesQueue(s: Server, at: Place, outcome: (Conn, Event), q: nat)
    requires GamesPresent(s) && Occupied(s, at)
    requires outcome == HandleDisconnect(ConnAt(s, at)) || outcome == OnTimer(ConnAt(s, at))
    requires q < |ServeLoss(s, at, outcome).queue|
    ensures WaitedBefore(s, ServeLoss(s, at, outcome).queue[q])
  {
    var t := ServeLoss(s, at, outcome);
    if |t.queue| < |s.queue| {
      assert Ages(s.queue[q + 1], t.queue[q]);
    } else {
      assert Ages(s.queue[q], t.queue[q]);
    }
  }

  // ---------------------------------------------------------------- the disconnected signal

  // Whose `disconnected` signal an event fires, whether anybody listens or not.
  function Disconnects(s: Server, input: Input): set<nat> {
    if (input.ReadError? || input.Timer?) && Occupied(s, input.at) && LossAt(s, input).1 == Lost then
      {LossAt(s, input).0.serial}
    else
      {}
  }

  // What a read error or a timer tick does to its connection.
  function LossAt(s: Server, input: Input): (Conn, Event)
    requires (input.ReadError? || input.Timer?) && Occupied(s, input.at)
  {
    if input.ReadError? then HandleDisconnect(ConnAt(s, input.at)) else OnTimer(ConnAt(s, input.at))
  }

  // Lobby i handles the loss of member j.
  predicate LosesMember(s: Server, input: Input, i: nat, j: nat) {
    Occupied(s, InLobby(i, j))
    && (input == ReadError(InLobby(i, j)) || input == Timer(InLobby(i, j)))
    && LossAt(s, input).1 == Lost
  }

  // Connection n was accepted, and is not alive anywhere.
  predicate Gone(s: Server, n: nat) {
    n < s.accepted
    && (forall i, j | 0 <= i < |s.lobbies| && 0 <= j < |s.lobbies[i].conns| ::
          s.lobbies[i].conns[j].serial == n ==> !s.lobbies[i].conns[j].connected)
    && (forall q | 0 <= q < |s.queue| :: s.queue[q].serial == n ==> !s.queue[q].connected)
  }

  lemma GoneStaysGone(s: Server, input: Input, n: nat)
    requires ServerOK(s) && Gone(s, n)
    ensures Gone(Serve(s, input), n)
  {
    var t := Serve(s, input);
    MemberEvents(s, input);
    AcceptedGrows(s, input);
    forall i, j | 0 <= i < |t.lobbies| && 0 <= j < |t.lobbies[i].conns| && t.lobbies[i].conns[j].serial == n
      ensures !t.lobbies[i].conns[j].connected
    {
      assert JoinedProperly(s, input, t, i, j);
    }
    forall q | 0 <= q < |t.queue| && t.queue[q].serial == n ensures !t.queue[q].connected {
      WaitingEvents(s, input, q);
    }
  }

  // Only a live connection signals, and it is gone for good.
  lemma SignalMeansGone(s: Server, input: Input, n: nat)
    requires ServerOK(s) && n in Disconnects(s, input)
    ensures !Gone(s, n) && Gone(Serve(s, input), n)
  {
    match input.at
    case InLine(q) => WaitingSignalMeansGone(s, input, q, n);
    case InLobby(i, j) => MemberSignalMeansGone(s, input, i, j, n);
  }

  lemma MemberSignalMeansGone(s: Server, input: Input, i: nat, j: nat, n: nat)
    requires ServerOK(s) && n in Disconnects(s, input) && input.at == InLobby(i, j)
    ensures !Gone(s, n) && Gone(Serve(s, input), n)
  {
    assert s.lobbies[i].conns[j].connected && s.lobbies[i].conns[j].serial == n;
    AcceptedGrows(s, input);
    NamesAreUnique(s, InLobby(i, j));
    LostIsDead(s, i, j, input);
    NobodyElseIsNamed(s, i, j, input);
    assert forall i', j' | 0 <= i' < |Serve(s, input).lobbies| && 0 <= j' < |Serve(s, input).lobbies[i'].conns| ::
             Occupied(Serve(s, input), InLobby(i', j'));
  }

  lemma WaitingSignalMeansGone(s: Server, input: Input, q: nat, n: nat)
    requires ServerOK(s) && n in Disconnects(s, input) && input.at == InLine(q)
    ensures !Gone(s, n) && Gone(Serve(s, input), n)
  {
    NamesAreUnique(s, InLine(q));
    assert s.queue[q].serial == n && s.queue[q].connected;
    assert Serve(s, input).lobbies == s.lobbies;
  }

  lemma NobodyElseIsNamed(s: Server, i: nat, j: nat, input: Input)
    requires ServerOK(s) && Occupied(s, InLobby(i, j)) && !input.Arrival?
    ensures var t, n := Serve(s, input), s.lobbies[i].conns[j].serial;
            && (forall i': nat, j': nat | Occupied(t, InLobby(i', j')) && t.lobbies[i'].conns[j'].serial == n ::
                  i' == i && j' == j)
            && (forall q | 0 <= q < |t.queue| :: t.queue[q].serial != n)
  {
    var t, n := Serve(s, input), s.lobbies[i].conns[j].serial;
    MemberEvents(s, input);
    NamesAreUnique(s, InLobby(i, j));
    forall i': nat, j': nat | Occupied(t, InLobby(i', j')) && t.lobbies[i'].conns[j'].serial == n
      ensures i' == i && j' == j
    {
      assert JoinedProperly(s, input, t, i', j');
      if Occupied(s, InLobby(i', j')) {
        assert Ages(s.lobbies[i'].conns[j'], t.lobbies[i'].conns[j']);
      }
    }
    forall q | 0 <= q < |t.queue| ensures t.queue[q].serial != n {
      WaitingEvents(s, input, q);
    }
  }

  lemma LostIsDead(s: Server, i: nat, j: nat, input: Input)
    requires ServerOK(s) && Occupied(s, InLobby(i, j))
    requires (input.ReadError? || input.Timer?) && input.at == InLobby(i, j) && Disconnects(s, input) != {}
    ensures var t := Serve(s, input);
            Occupied(t, InLobby(i, j)) && !t.lobbies[i].conns[j].connected
  {
    var outcome := LossAt(s, input);
    LossKeeps(s.lobbies[i], j, outcome);
    LossEffect(s, i, j, outcome);
    var after := AfterEvent(s.lobbies[i], j, outcome).0;
    if s.queue != [] {
      JoiningAges(after, s.queue[0]);
    }
  }

  // No other place holds the connection that is at this one.
  lemma NamesAreUnique(s: Server, at: Place)
    requires ServerOK(s) && Occupied(s, at)
    ensures forall i: nat, j: nat | Occupied(s, InLobby(i, j)) ::
              s.lobbies[i].conns[j].serial == ConnAt(s, at).serial ==> at == InLobby(i, j)
    ensures forall q: nat | q < |s.queue| && s.queue[q].serial == ConnAt(s, at).serial :: at == InLine(q)
    ensures ConnAt(s, at).serial < s.accepted
  {
    var roster, waiting := Roster(s.lobbies), Serials(s.queue);
    assert forall i: nat, j: nat | Occupied(s, InLobby(i, j)) :: roster[i][j] == s.lobbies[i].conns[j].serial;
    assert forall q: nat | q < |s.queue| :: waiting[q] == s.queue[q].serial;
  }

  // The connections that fired `disconnected` in the course of a run.
  function DisconnectedAlong(inputs: seq<Input>): set<nat> {
    if inputs == [] then {}
    else
      var before := inputs[..|inputs| - 1];
      DisconnectedAlong(before) + Disconnects(RunServer(before), inputs[|inputs| - 1])
  }

  lemma {:induction false} DisconnectedAreGone(inputs: seq<Input>, n: nat)
    requires n in DisconnectedAlong(inputs)
    ensures Gone(RunServer(inputs), n)
  {
    var before, last := inputs[..|inputs| - 1], inputs[|inputs| - 1];
    RunServerKeeps(before);
    if n in DisconnectedAlong(before) {
      DisconnectedAreGone(before, n);
      GoneStaysGone(RunServer(before), last, n);
    } else {
      SignalMeansGone(RunServer(before), last, n);
    }
  }

  // Read errors and timer ticks together make a connection fire `disconnected` at most once,
  // in a lobby or in the queue.
  lemma DisconnectedAtMostOnce(inputs: seq<Input>, input: Input, n: nat)
    requires n in DisconnectedAlong(inputs)
    ensures n !in Disconnects(RunServer(inputs), input)
  {
    RunServerKeeps(inputs);
    DisconnectedAreGone(inputs, n);
    if n in Disconnects(RunServer(inputs), input) {
      SignalMeansGone(RunServer(inputs), input, n);
    }
  }
}
