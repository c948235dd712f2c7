// The clients behind dead seats, and how a lobby with a dead seat can play after all: only by
// a Ready read from yet another connection that is dead.
module DeadHolders {
  import opened Bytes
  import opened Messages
  import opened Connections
  import opened Clients
  import opened Lobbies
  import opened LobbyInvariants
  import opened Servers
  import opened ServerInvariants
  import opened Lifetimes
  import opened Links
  import opened Rooms
  import opened Protocol
  import opened Theorems
  import opened Discipline
  import opened DeadSeats
  import opened Beginnings

  // ---------------------------------------------------------------- the holders of dead seats

  // Whoever holds a dead seat was dead before it got it, so its client never learned its id:
  // nothing but noise is in flight, in either direction.
  predicate SilentHolder(l: Lobby, clients: ClientTable, k: nat) {
    DeadIn(l, k) ==>
      var c := l.conns[l.seats[k].value];
      c.serial < |clients| && Sift(c.out) == [] && Quiet(clients[c.serial])
  }

  predicate Quiet(k: Client) {
    k.mode == NotSeated && Sift(k.out) == []
  }

  ghost predicate HoldersSilent(sys: System) {
    forall i: nat, k: nat | DeadSeat(sys.server, i, k) :: SilentHolder(sys.server.lobbies[i], sys.clients, k)
  }

  // Clients that are quiet stay quiet, but for reading what is not noise.
  predicate QuietStay(a: ClientTable, b: ClientTable) {
    |a| <= |b| && forall n | 0 <= n < |a| :: Quiet(a[n]) ==> Quiet(b[n])
  }

  lemma NoiseKeepsQuiet(k: Client, m: Message)
    requires Quiet(k) && Noise(m)
    ensures Quiet(HandleRead(k, m))
  {
    SiftAppend(k.out, Pong);
  }

  lemma ServerKeepsSilent(sys: System, input: Input, clients: ClientTable)
    requires SystemOK(sys) && HoldersSilent(sys) && !input.Delivered? && QuietStay(sys.clients, clients)
    ensures HoldersSilent(System(Serve(sys.server, input), clients))
  {
    var s, t := sys.server, Serve(sys.server, input);
    MemberEvents(s, input);
    forall i: nat, k: nat | DeadSeat(t, i, k) ensures SilentHolder(t.lobbies[i], clients, k) {
      DeadSeatsChange(s, input, i, k);
      if DeadSeat(s, i, k) {
        assert SilentHolder(s.lobbies[i], sys.clients, k);
        assert Occupied(s, InLobby(i, s.lobbies[i].seats[k].value));
      } else {
        NewHolderIsSilent(sys, input, clients, i, k);
      }
    }
  }

  // A seat that dies goes to the head of the queue, which nobody has told its id.
  lemma NewHolderIsSilent(sys: System, input: Input, clients: ClientTable, i: nat, k: nat)
    requires SystemOK(sys) && SeatDies(sys.server, input, i, k) && QuietStay(sys.clients, clients)
    ensures SilentHolder(Serve(sys.server, input).lobbies[i], clients, k)
  {
    var s, j, outcome := sys.server, input.at.j, LossAt(sys.server, input);
    LossIsServed(s, input, i, j);
    HeadGetsFreedSeat(s, i, j, outcome);
    assert Fresh(s.queue[0], sys.clients);
  }

  lemma LossIsServed(s: Server, input: Input, i: nat, j: nat)
    requires GamesPresent(s) && LosesMember(s, input, i, j)
    ensures Serve(s, input).lobbies == s.lobbies[i := Reseated(s, i, j, LossAt(s, input))]
  {
    LossEffect(s, i, j, LossAt(s, input));
  }

  lemma HeadGetsFreedSeat(s: Server, i: nat, j: nat, outcome: (Conn, Event))
    requires ServerOK(s) && Occupied(s, InLobby(i, j)) && outcome.1 == Lost && s.queue != []
    requires outcome == HandleDisconnect(s.lobbies[i].conns[j]) || outcome == OnTimer(s.lobbies[i].conns[j])
    ensures var l, k := Reseated(s, i, j, outcome), s.lobbies[i].conns[j].id - 1;
            && l.seats[k] == Some(|s.lobbies[i].conns|) && |l.conns| == |s.lobbies[i].conns| + 1
            && l.conns[|s.lobbies[i].conns|] == SetId(s.queue[0], k + 1)
  {
    LossKeeps(s.lobbies[i], j, outcome);
    FreedSeatIsFirst(s.lobbies[i], j, outcome);
    AddPlayerKeeps(AfterEvent(s.lobbies[i], j, outcome).0, s.queue[0]);
  }

  lemma DeliveryKeepsSilent(sys: System, at: Place)
    requires SystemOK(sys) && HoldersSilent(sys) && Present(sys, at) && ConnAt(sys.server, at).out != []
    ensures HoldersSilent(Next(sys, ClientReads(at)))
  {
    var s, after := sys.server, Next(sys, ClientReads(at));
    var t := after.server;
    NamesAreUnique(s, at);
    forall i: nat, k: nat | DeadSeat(t, i, k) ensures SilentHolder(t.lobbies[i], after.clients, k) {
      DeadSeatsChange(s, Input.Delivered(at), i, k);
      var j := s.lobbies[i].seats[k].value;
      assert SilentHolder(s.lobbies[i], sys.clients, k) && Occupied(s, InLobby(i, j));
      if at == InLobby(i, j) {
        NoiseKeepsQuiet(sys.clients[s.lobbies[i].conns[j].serial], s.lobbies[i].conns[j].out[0]);
      }
    }
  }

  lemma NextKeepsSilent(sys: System, step: Step)
    requires SystemOK(sys) && HoldersSilent(sys)
    ensures HoldersSilent(Next(sys, step))
  {
    StepIsInput(sys, step);
    if step.ClientReads? {
      if InputOf(sys, step).Some? {
        DeliveryKeepsSilent(sys, step.at);
      }
    } else {
      assert QuietStay(sys.clients, Next(sys, step).clients);
      if InputOf(sys, step).Some? {
        ServerKeepsSilent(sys, InputOf(sys, step).value, Next(sys, step).clients);
      }
    }
  }

  lemma {:induction false} RunKeepsSilent(steps: seq<Step>)
    ensures HoldersSilent(Run(steps))
  {
    if steps != [] {
      RunKeeps(steps[..|steps| - 1]);
      RunKeepsSilent(steps[..|steps| - 1]);
      NextKeepsSilent(Run(steps[..|steps| - 1]), steps[|steps| - 1]);
    }
  }

  // ---------------------------------------------------------------- playing beside a dead seat

  // Whatever the server reads in a lobby with a dead seat, whether the reader is alive or not:
  // a game begins exactly if it is a Ready that completes the count, and then the reader is
  // dead and has lost its seat to somebody else.
  lemma OnlyLateReadiesPlayBesideDead(sys: System, i: nat, k: nat, j: nat, first: u8)
    requires Reachable(sys) && DeadSeat(sys.server, i, k) && Present(sys, InLobby(i, j))
    requires sys.clients[sys.server.lobbies[i].conns[j].serial].out != []
    ensures var l, m := sys.server.lobbies[i], sys.clients[sys.server.lobbies[i].conns[j].serial].out[0];
            && !l.isPlayingGame && (ReadMessage(l, j, m, first).isPlayingGame <==> ReadyCompletes(l, j, m))
            && (ReadyCompletes(l, j, m) ==>
                  !l.conns[j].connected && l.seats[l.conns[j].id - 1].Some? && l.seats[l.conns[j].id - 1] != Some(j))
  {
    var steps :| sys == Run(steps);
    RunKeeps(steps);
    RunKeepsSilent(steps);
    var l := sys.server.lobbies[i];
    DeadRoomRests(l, sys.clients, k);
    ReadBegins(l, j, sys.clients[l.conns[j].serial].out[0], first);
    MembersDistinct(sys.server, i);
    if ReadyCompletes(l, j, sys.clients[l.conns[j].serial].out[0]) {
      CompletingReaderIsGone(l, sys.clients, k, j);
    }
  }

  lemma CompletingReaderIsGone(l: Lobby, clients: ClientTable, k: nat, j: nat)
    requires RoomOK(l, clients) && DistinctSerials(l) && DeadIn(l, k) && j < |l.conns| && l.conns[j].serial < |clients|
    requires forall seat: nat | DeadIn(l, seat) :: SilentHolder(l, clients, seat)
    requires clients[l.conns[j].serial].out != [] && ReadyCompletes(l, j, HeadOf(l, clients, j))
    ensures !l.conns[j].connected && l.seats[l.conns[j].id - 1] != Some(j)
  {
    var c, m := l.conns[j], HeadOf(l, clients, j);
    assert m == Ready(c.id);
    if c.connected {
      OneUnready(l, clients, k, c.id - 1);
      OwnSeat(l, clients, j);
      ReadyFromResting(l, clients, j);
    } else if l.seats[c.id - 1] == Some(j) {
      assert SilentHolder(l, clients, c.id - 1);
      ReadyIsNoNoise(clients[c.serial].out);
    }
  }

  lemma ReadyIsNoNoise(up: seq<Message>)
    requires up != [] && up[0].Ready?
    ensures Sift(up) != []
  {
  }

  // One Ready short of a game, and with a dead seat, everybody else is ready.
  lemma OneUnready(l: Lobby, clients: ClientTable, k: nat, i: nat)
    requires RoomOK(l, clients) && DeadIn(l, k) && IsFull(l) && Wrap(l.numReady + 1) == l.numPlayers
    requires i < |l.seats| && i != k
    ensures i in ReadySeats(l)
  {
    assert SeatOK(l, clients, k);
    ReadyAtMostAll(l);
    FullMeansAllTaken(l);
    if i !in ReadySeats(l) {
      assert ReadySeats(l) <= Taken(l.seats) - {i, k};
      CardinalityLe(ReadySeats(l), Taken(l.seats) - {i, k});
    }
  }

  // The player in the first seat timed out before its Ready was read, and its seat went to a
  // dead connection.
  const GONE := Conn(0, 1, false, false, false, 4, [])
  const DEAD := Conn(1, 1, false, false, false, 0, [])
  const OTHER := Conn(2, 2, true, false, false, 0, [])
  const BESIDE_DEAD := Lobby(true, false, None, 2, 0, 2, [Some(1), Some(2)], [GONE, DEAD, OTHER])
  const CONSOLES: ClientTable :=
    [Client(1, true, None, Idle, [Ready(1)]), NEW_CLIENT, Client(2, true, None, Idle, [Ready(2)])]

  // Reading the late Ready, and then that of the other player, starts a game beside the dead
  // seat, although all clients are console clients.
  lemma LateReadyPlaysBesideDead(first: u8)
    ensures RoomOK(BESIDE_DEAD, CONSOLES) && DistinctSerials(BESIDE_DEAD)
    ensures DeadIn(BESIDE_DEAD, 0) && SilentHolder(BESIDE_DEAD, CONSOLES, 0)
    ensures var once := ReadMessage(BESIDE_DEAD, 0, Ready(1), first);
            && LobbyOK(once) && |once.conns| == 3 && !once.isPlayingGame
            && ReadMessage(once, 2, Ready(2), first).isPlayingGame
            && DeadIn(ReadMessage(once, 2, Ready(2), first), 0)
  {
    BesideDeadInOrder();
    var once := ReadMessage(BESIDE_DEAD, 0, Ready(1), first);
    LateReadyIsCounted(first);
    ReadMessageKeeps(once, 2, Ready(2), first);
    ReadBegins(once, 2, Ready(2), first);
  }

  lemma LateReadyIsCounted(first: u8)
    requires LobbyOK(BESIDE_DEAD)
    ensures var once := ReadMessage(BESIDE_DEAD, 0, Ready(1), first);
            && LobbyOK(once)
            && once == BESIDE_DEAD.(numReady := 1, conns := [GONE.(ready := true), DEAD, OTHER])
  {
    ReadyIsRead(BESIDE_DEAD, 0, first);
    ReadMessageKeeps(BESIDE_DEAD, 0, Ready(1), first);
    assert BESIDE_DEAD.conns[0 := GONE.(ready := true)] == [GONE.(ready := true), DEAD, OTHER];
  }

  lemma BesideDeadInOrder()
    ensures RoomOK(BESIDE_DEAD, CONSOLES) && DistinctSerials(BESIDE_DEAD)
    ensures SilentHolder(BESIDE_DEAD, CONSOLES, 0)
  {
    assert Taken(BESIDE_DEAD.seats) == {0, 1};
    assert ReadySeats(BESIDE_DEAD) == {};
    assert [Ready(2)][1..] == [];
    assert Sift([Ready(2)]) == [Ready(2)];
    assert SeatOK(BESIDE_DEAD, CONSOLES, 0) && SeatOK(BESIDE_DEAD, CONSOLES, 1);
  }
}
