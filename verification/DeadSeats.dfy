// Seats held by connections that are no longer alive: exactly how they come about, that they
// are never freed, and that with console clients and without harmful late reads their lobby
// never plays again. DeadHolders shows how it can play otherwise.
module DeadSeats {
  import opened Bytes
  import opened Rules
  import opened Messages
  import opened Connections
  import opened Lobbies
  import opened LobbyInvariants
  import opened Servers
  import opened ServerInvariants
  import opened Conservation
  import opened Lifetimes
  import opened Rooms
  import opened Protocol
  import opened Theorems

  // Seat k is held by a connection that is not alive.
  predicate DeadIn(l: Lobby, k: nat) {
    k < |l.seats| && l.seats[k].Some? && l.seats[k].value < |l.conns| && !l.conns[l.seats[k].value].connected
  }

  predicate DeadSeat(s: Server, i: nat, k: nat) {
    i < |s.lobbies| && DeadIn(s.lobbies[i], k)
  }

  // The player in seat k is lost while the head of the queue is dead already: the queue is
  // asked for a successor before it is purged, and nobody looks whether that is alive.
  predicate SeatDies(s: Server, input: Input, i: nat, k: nat) {
    (input.ReadError? || input.Timer?) && input.at.InLobby? && LosesMember(s, input, i, input.at.j)
    && s.lobbies[i].conns[input.at.j].id == k + 1
    && s.queue != [] && !s.queue[0].connected
  }

  // ---------------------------------------------------------------- one lobby

  lemma SameSeatingSameDead(a: Lobby, b: Lobby, k: nat)
    requires SameSeating(a, b)
    ensures DeadIn(a, k) <==> DeadIn(b, k)
  {
  }

  lemma JoiningDead(l: Lobby, c: Conn, k: nat)
    requires LobbyOK(l) && !IsFull(l) && c.id == 0
    ensures DeadIn(AddPlayer(l, c), k) <==> DeadIn(l, k) || (k == FirstFree(l.seats, 0) && !c.connected)
    ensures DeadIn(l, k) ==> AddPlayer(l, c).seats[k] == l.seats[k]
  {
    AddPlayerKeeps(l, c);
    SetIdAssigns(c, FirstFree(l.seats, 0) + 1);
  }

  // A loss frees the seat of a player that was alive.
  lemma LossDead(l: Lobby, j: nat, outcome: (Conn, Event), k: nat)
    requires LobbyOK(l) && j < |l.conns|
    requires outcome == HandleDisconnect(l.conns[j]) || outcome == OnTimer(l.conns[j])
    ensures DeadIn(AfterEvent(l, j, outcome).0, k) <==> DeadIn(l, k)
    ensures DeadIn(l, k) ==> AfterEvent(l, j, outcome).0.seats[k] == l.seats[k]
  {
    LossKeeps(l, j, outcome);
  }

  // In a full lobby, the seat of the lost player is the one that the successor gets.
  lemma FreedSeatIsFirst(l: Lobby, j: nat, outcome: (Conn, Event))
    requires LobbyOK(l) && j < |l.conns| && IsFull(l) && outcome.1 == Lost
    requires outcome == HandleDisconnect(l.conns[j]) || outcome == OnTimer(l.conns[j])
    ensures FirstFree(AfterEvent(l, j, outcome).0.seats, 0) == l.conns[j].id - 1
  {
    LossKeeps(l, j, outcome);
    FullMeansAllTaken(l);
    var seats, freed := AfterEvent(l, j, outcome).0.seats, l.conns[j].id - 1;
    assert seats[freed].None? && forall m | 0 <= m < freed :: seats[m] == l.seats[m];
  }

  lemma SuccessionDead(s: Server, i: nat, j: nat, outcome: (Conn, Event), k: nat)
    requires ServerOK(s) && Occupied(s, InLobby(i, j))
    requires outcome == HandleDisconnect(s.lobbies[i].conns[j]) || outcome == OnTimer(s.lobbies[i].conns[j])
    ensures var l, after := s.lobbies[i], Reseated(s, i, j, outcome);
            && (DeadIn(after, k) <==>
                  DeadIn(l, k)
                  || (outcome.1 == Lost && l.conns[j].id == k + 1 && s.queue != [] && !s.queue[0].connected))
            && (DeadIn(l, k) ==> after.seats[k] == l.seats[k])
  {
    var l := s.lobbies[i];
    LossKeeps(l, j, outcome);
    LossDead(l, j, outcome, k);
    if outcome.1 == Lost && s.queue != [] {
      FreedSeatIsFirst(l, j, outcome);
      JoiningDead(AfterEvent(l, j, outcome).0, s.queue[0], k);
    }
  }

  // ---------------------------------------------------------------- one event

  // After any event in any state, a seat is dead exactly if it was dead before, or dies now.
  // A dead seat keeps its holder.
  lemma DeadSeatsChange(s: Server, input: Input, i: nat, k: nat)
    requires ServerOK(s)
    ensures DeadSeat(Serve(s, input), i, k) <==> DeadSeat(s, i, k) || SeatDies(s, input, i, k)
    ensures DeadSeat(s, i, k) ==> Serve(s, input).lobbies[i].seats[k] == s.lobbies[i].seats[k]
  {
    match input
    case Arrival => ArrivalDead(s, i, k);
    case QueueTimer =>
    case Reads(at, m, first) =>
      if Occupied(s, at) {
        DeadSeatsAfterRead(s, at, m, first, i, k);
      }
    case ReadError(at) => LossMakesDead(s, input, i, k);
    case Timer(at) => LossMakesDead(s, input, i, k);
    case Delivered(at) => DeliveryDead(s, at, i, k);
  }

  lemma LossMakesDead(s: Server, input: Input, i: nat, k: nat)
    requires ServerOK(s) && (input.ReadError? || input.Timer?)
    ensures DeadSeat(Serve(s, input), i, k) <==> DeadSeat(s, i, k) || SeatDies(s, input, i, k)
    ensures DeadSeat(s, i, k) ==> Serve(s, input).lobbies[i].seats[k] == s.lobbies[i].seats[k]
  {
    var at := input.at;
    if Occupied(s, at) && at.InLobby? {
      DeadSeatsAfterLoss(s, at.i, at.j, LossAt(s, input), i, k);
      assert Serve(s, input) == ServeLoss(s, at, LossAt(s, input));
    }
  }

  lemma DeliveryDead(s: Server, at: Place, i: nat, k: nat)
    requires GamesPresent(s)
    ensures DeadSeat(Serve(s, Input.Delivered(at)), i, k) <==> DeadSeat(s, i, k)
    ensures DeadSeat(s, i, k) ==> Serve(s, Input.Delivered(at)).lobbies[i].seats[k] == s.lobbies[i].seats[k]
  {
  }

  lemma DeadSeatsAfterRead(s: Server, at: Place, m: Message, first: u8, i: nat, k: nat)
    requires ServerOK(s) && Occupied(s, at)
    ensures var t := ServeRead(s, at, m, first);
            && (DeadSeat(t, i, k) <==> DeadSeat(s, i, k))
            && (DeadSeat(s, i, k) ==> t.lobbies[i].seats[k] == s.lobbies[i].seats[k])
  {
    if at.InLobby? {
      ReadMessageKeeps(s.lobbies[at.i], at.j, m, first);
      SameSeatingSameDead(s.lobbies[at.i], ReadMessage(s.lobbies[at.i], at.j, m, first), k);
    }
  }

  lemma DeadSeatsAfterLoss(s: Server, i': nat, j: nat, outcome: (Conn, Event), i: nat, k: nat)
    requires ServerOK(s) && Occupied(s, InLobby(i', j))
    requires outcome == HandleDisconnect(s.lobbies[i'].conns[j]) || outcome == OnTimer(s.lobbies[i'].conns[j])
    ensures var t := ServeLoss(s, InLobby(i', j), outcome);
            && (DeadSeat(t, i, k) <==>
                  DeadSeat(s, i, k)
                  || (i == i' && outcome.1 == Lost && s.lobbies[i].conns[j].id == k + 1
                      && s.queue != [] && !s.queue[0].connected))
            && (DeadSeat(s, i, k) ==> t.lobbies[i].seats[k] == s.lobbies[i].seats[k])
  {
    LossEffect(s, i', j, outcome);
    SuccessionDead(s, i', j, outcome, k);
  }

  // Newcomers are alive when they are seated.
  lemma ArrivalDead(s: Server, i: nat, k: nat)
    requires ServerOK(s)
    ensures DeadSeat(Serve(s, Arrival), i, k) <==> DeadSeat(s, i, k)
    ensures DeadSeat(s, i, k) ==> Serve(s, Arrival).lobbies[i].seats[k] == s.lobbies[i].seats[k]
  {
    var c := OnAccept(NewConn(s.accepted));
    var free := FindAvailableLobby(s.lobbies, 0);
    if free < |s.lobbies| {
      JoiningDead(s.lobbies[free], c, k);
    } else if |s.lobbies| < MAX_LOBBIES {
      NewLobbyInOrder(MIN_NUM_PLAYERS);
      JoiningDead(StartedLobby(MIN_NUM_PLAYERS), c, k);
    }
  }

  // ---------------------------------------------------------------- whole runs

  // Step t of the run makes the seat dead.
  predicate DiesAt(inputs: seq<Input>, t: int, i: nat, k: nat) {
    0 <= t < |inputs| && SeatDies(RunServer(inputs[..t]), inputs[t], i, k)
  }

  ghost predicate SeatDied(inputs: seq<Input>, i: nat, k: nat) {
    exists t :: DiesAt(inputs, t, i, k)
  }

  // In every run, a seat is held by a dead connection if and only if its player was lost, at
  // some time, while the head of the queue was dead.
  lemma {:induction false} DeadSeatsHaveOneCause(inputs: seq<Input>, i: nat, k: nat)
    ensures DeadSeat(RunServer(inputs), i, k) <==> SeatDied(inputs, i, k)
  {
    if inputs == [] {
      assert forall t :: !DiesAt(inputs, t, i, k);
    } else {
      var before, n := inputs[..|inputs| - 1], |inputs| - 1;
      DeadSeatsHaveOneCause(before, i, k);
      RunServerKeeps(before);
      DeadSeatsChange(RunServer(before), inputs[n], i, k);
      LastStepDies(inputs, i, k);
    }
  }

  lemma LastStepDies(inputs: seq<Input>, i: nat, k: nat)
    requires inputs != []
    ensures var before, n := inputs[..|inputs| - 1], |inputs| - 1;
            SeatDied(inputs, i, k) <==> SeatDied(before, i, k) || SeatDies(RunServer(before), inputs[n], i, k)
  {
    var before, n := inputs[..|inputs| - 1], |inputs| - 1;
    assert DiesAt(inputs, n, i, k) <==> SeatDies(RunServer(before), inputs[n], i, k);
    forall t ensures DiesAt(inputs, t, i, k) <==> DiesAt(before, t, i, k) || (t == n && DiesAt(inputs, n, i, k)) {
      DiesEarlier(inputs, t, i, k);
    }
  }

  lemma DiesEarlier(inputs: seq<Input>, t: int, i: nat, k: nat)
    requires inputs != []
    ensures DiesAt(inputs[..|inputs| - 1], t, i, k) <==> t < |inputs| - 1 && DiesAt(inputs, t, i, k)
  {
    if 0 <= t < |inputs| - 1 {
      assert inputs[..|inputs| - 1][..t] == inputs[..t];
    }
  }

  // Whatever happens afterwards, a dead seat stays dead, and nobody else ever gets it.
  lemma {:induction false} DeadSeatsStay(before: seq<Input>, later: seq<Input>, i: nat, k: nat)
    requires DeadSeat(RunServer(before), i, k)
    ensures DeadSeat(RunServer(before + later), i, k)
    ensures RunServer(before + later).lobbies[i].seats[k] == RunServer(before).lobbies[i].seats[k]
    decreases |later|
  {
    if later == [] {
      assert before + later == before;
    } else {
      var n := |later| - 1;
      DeadSeatsStay(before, later[..n], i, k);
      RunServerKeeps(before + later[..n]);
      DeadSeatsChange(RunServer(before + later[..n]), later[n], i, k);
      assert (before + later)[..|before + later| - 1] == before + later[..n];
    }
  }

  // ---------------------------------------------------------------- in runs with console clients

  lemma DeadRoomRests(l: Lobby, clients: ClientTable, k: nat)
    requires RoomOK(l, clients) && DeadIn(l, k)
    ensures !l.isPlayingGame
  {
    if l.isPlayingGame {
      PlayersAreAlive(l, clients, k);
    }
  }

  lemma PlayersAreAlive(l: Lobby, clients: ClientTable, k: nat)
    requires RoomOK(l, clients) && l.isPlayingGame && k < |l.seats|
    ensures !DeadIn(l, k)
  {
    EverybodyPlays(l, clients);
    assert PlaysInSeat(l, clients, k);
  }

  // With console clients, and unless a late read concerns somebody else, a lobby with a dead
  // seat never plays again.
  lemma {:induction false} DeadSeatsStopPlay(before: seq<Step>, later: seq<Step>, i: nat, k: nat)
    requires DeadSeat(Run(before).server, i, k)
    ensures DeadSeat(Run(before + later).server, i, k)
    ensures !Run(before + later).server.lobbies[i].isPlayingGame
    decreases |later|
  {
    if later == [] {
      assert before + later == before;
    } else {
      var n := |later| - 1;
      var sys := Run(before + later[..n]);
      DeadSeatsStopPlay(before, later[..n], i, k);
      RunKeeps(before + later[..n]);
      StepIsInput(sys, later[n]);
      if InputOf(sys, later[n]).Some? {
        DeadSeatsChange(sys.server, InputOf(sys, later[n]).value, i, k);
      }
      assert (before + later)[..|before + later| - 1] == before + later[..n];
    }
    RunKeeps(before + later);
    DeadRoomRests(Run(before + later).server.lobbies[i], Run(before + later).clients, k);
  }

  // ---------------------------------------------------------------- how it happens

  function Arrivals(n: nat): seq<Step> {
    seq(n, _ => Arrives)
  }

  // All lobbies are full and one more connection waits; it dies, and then a player leaves.
  function FatalSteps(): seq<Step> {
    Arrivals(MAX_LOBBIES * MIN_NUM_PLAYERS + 1) + [ReadFails(InLine(0)), ReadFails(InLobby(0, 0))]
  }

  // Seats are filled in order.
  predicate Filling(s: Server, n: nat) {
    s.queue == [] && |s.lobbies| == (n + 1) / 2
    && (forall i | 0 <= i < n / 2 :: IsFull(s.lobbies[i]))
    && (n % 2 == 1 ==> s.lobbies[n / 2].numPlayers == 1 && s.lobbies[n / 2].maxPlayers == 2)
    && (n > 0 ==> s.lobbies[0].conns != [] && FirstPlayer(s.lobbies[0].conns[0]))
    && (n > 0 ==> s.lobbies[0].numReady == 0 && s.lobbies[0].maxPlayers == 2 && !s.lobbies[0].isPlayingGame)
  }

  predicate FirstPlayer(c: Conn) {
    c.connected && c.id == 1 && !c.receivedPong && c.missedPongs == 0
  }

  lemma ArrivalsStep(n: nat)
    ensures Run(Arrivals(n + 1)).server == Serve(Run(Arrivals(n)).server, Arrival)
  {
    assert Arrivals(n + 1)[..n] == Arrivals(n);
  }

  lemma {:induction false} ArrivalsFill(n: nat)
    requires n <= MAX_LOBBIES * MIN_NUM_PLAYERS
    ensures Filling(Run(Arrivals(n)).server, n)
  {
    if n == 0 {
      assert Arrivals(0) == [];
    } else {
      var s := Run(Arrivals(n - 1)).server;
      ArrivalsFill(n - 1);
      RunKeeps(Arrivals(n - 1));
      OneMoreFills(s, n - 1);
      assert Run(Arrivals(n)).server == Serve(s, Arrival) by {
        ArrivalsStep(n - 1);
      }
    }
  }

  lemma OneMoreFills(s: Server, n: nat)
    requires ServerOK(s) && Filling(s, n) && n < MAX_LOBBIES * MIN_NUM_PLAYERS
    ensures Filling(Serve(s, Arrival), n + 1)
  {
    if n % 2 == 1 {
      SecondPlayerFills(s, n);
    } else {
      FirstPlayerOpens(s, n);
    }
  }

  lemma SecondPlayerFills(s: Server, n: nat)
    requires ServerOK(s) && Filling(s, n) && n % 2 == 1
    ensures Filling(Serve(s, Arrival), n + 1)
  {
    assert FindAvailableLobby(s.lobbies, 0) == n / 2;
    AddPlayerKeeps(s.lobbies[n / 2], OnAccept(NewConn(s.accepted)));
  }

  lemma FirstPlayerOpens(s: Server, n: nat)
    requires ServerOK(s) && Filling(s, n) && n % 2 == 0 && n < MAX_LOBBIES * MIN_NUM_PLAYERS
    ensures Filling(Serve(s, Arrival), n + 1)
  {
    assert FindAvailableLobby(s.lobbies, 0) == |s.lobbies|;
    NewLobbyInOrder(MIN_NUM_PLAYERS);
    AddPlayerKeeps(StartedLobby(MIN_NUM_PLAYERS), OnAccept(NewConn(s.accepted)));
  }

  // The first to wait dies; then the player in the first seat of the first lobby leaves.
  lemma FatalLosses(s: Server)
    requires ServerOK(s) && Filling(s, MAX_LOBBIES * MIN_NUM_PLAYERS)
    ensures DeadSeat(Serve(Serve(Serve(s, Arrival), ReadError(InLine(0))), ReadError(InLobby(0, 0))), 0, 0)
  {
    var waiting := Serve(s, Arrival);
    assert waiting.queue != [] && waiting.lobbies == s.lobbies;
    ServeKeeps(s, Arrival);
    var fatal := Serve(waiting, ReadError(InLine(0)));
    assert fatal.lobbies == s.lobbies && !fatal.queue[0].connected;
    ServeKeeps(waiting, ReadError(InLine(0)));
    DeadSeatsChange(fatal, ReadError(InLobby(0, 0)), 0, 0);
  }

  // A run of the system at whose end a connection that is not alive holds a seat.
  lemma DeadSeatHappens()
    ensures DeadSeat(Run(FatalSteps()).server, 0, 0)
  {
    var full, steps := MAX_LOBBIES * MIN_NUM_PLAYERS, FatalSteps();
    ArrivalsFill(full);
    ArrivalsStep(full);
    RunKeeps(Arrivals(full));
    FatalLosses(Run(Arrivals(full)).server);
    assert steps[..full + 2][..full + 1] == Arrivals(full + 1);
    assert Run(steps[..full + 2]) == Next(Run(Arrivals(full + 1)), ReadFails(InLine(0)));
    assert Run(steps) == Next(Run(steps[..full + 2]), ReadFails(InLobby(0, 0)));
  }
}
