// Runs of a server whose seats are all taken, that reach the inputs shown elsewhere to go wrong.
module FullServers {
  import opened Bytes
  import opened Rules
  import opened Messages
  import opened Connections
  import opened Lobbies
  import opened LobbyInvariants
  import opened Servers
  import opened ServerInvariants
  import opened Conservation
  import opened Lifetimes
  import opened Rooms
  import opened Protocol
  import opened Theorems
  import opened Discipline
  import opened Counting
  import opened DeadSeats
  import opened Beginnings
  import opened Scenarios

  // As many arrivals as there are seats.
  const FULL: nat := MAX_LOBBIES * MIN_NUM_PLAYERS

  function AllArrive(n: nat): seq<Input> {
    if n == 0 then [] else AllArrive(n - 1) + [Arrival]
  }

  lemma {:induction false} ArrivalsAgree(n: nat)
    ensures RunServer(AllArrive(n)) == Run(Arrivals(n)).server
  {
    if n == 0 {
      assert Arrivals(0) == [];
    } else {
      ArrivalsAgree(n - 1);
      var before := AllArrive(n - 1);
      assert RunServer(AllArrive(n)) == Serve(RunServer(before), Arrival) by {
        OneMoreInput(before, Arrival);
      }
      assert Run(Arrivals(n)).server == Serve(Run(Arrivals(n - 1)).server, Arrival) by {
        ArrivalsStep(n - 1);
      }
    }
  }

  // All seats are taken, and one more waits.
  lemma SomebodyWaits() returns (s: Server)
    ensures s == RunServer(AllArrive(FULL) + [Arrival]) && ServerOK(s) && AllCountRight(s)
    ensures |s.lobbies| == MAX_LOBBIES && |s.queue| == 1 && s.queue[0].id == 0 && s.queue[0].connected
    ensures WaitsForSeat(s.lobbies[0], 0)
  {
    var full := RunServer(AllArrive(FULL));
    ArrivalsAgree(FULL);
    ArrivalsFill(FULL);
    RunKeeps(Arrivals(FULL));
    RunServerKeeps(AllArrive(FULL));
    OneMoreInput(AllArrive(FULL), Arrival);
    s := Serve(full, Arrival);
    ServeKeeps(full, Arrival);
    RoomsCount(full, Run(Arrivals(FULL)).clients);
    assert s.lobbies == full.lobbies;
  }

  lemma RoomsCount(s: Server, clients: ClientTable)
    requires RoomsOK(s.lobbies, clients)
    ensures AllCountRight(s)
  {
  }

  // A full lobby in which nobody was ever ready, and whose first player missed n pongs.
  predicate WaitsForSeat(l: Lobby, n: nat) {
    FullUnready(l) && l.conns[0].connected && !l.conns[0].receivedPong && l.conns[0].missedPongs == n
  }

  predicate FullUnready(l: Lobby) {
    !l.isPlayingGame && l.numReady == 0 && l.maxPlayers == 2 && IsFull(l) && l.conns != [] && l.conns[0].id == 1
  }

  // A run after which a count is wrong although no lobby read anything.
  lemma ReadyWhileWaitingHappens(first: u8)
    ensures !AllCountRight(RunServer(AllArrive(FULL) + [Arrival] + [Reads(InLine(0), Ready(0), first)]
                                     + [ReadError(InLobby(0, 0))]))
  {
    var s := SomebodyWaits();
    var inputs := AllArrive(FULL) + [Arrival];
    OneMoreInput(inputs, Reads(InLine(0), Ready(0), first));
    OneMoreInput(inputs + [Reads(InLine(0), Ready(0), first)], ReadError(InLobby(0, 0)));
    var told := Serve(s, Reads(InLine(0), Ready(0), first));
    ServeKeeps(s, Reads(InLine(0), Ready(0), first));
    EventCounts(s, Reads(InLine(0), Ready(0), first));
    EventCounts(told, ReadError(InLobby(0, 0)));
  }

  lemma TickInFullServer(s: Server, n: nat)
    requires ServerOK(s) && s.lobbies != [] && WaitsForSeat(s.lobbies[0], n) && n < 3
    ensures var t := Serve(s, TimerTick(0));
            && ServerOK(t) && |t.lobbies| == |s.lobbies| && WaitsForSeat(t.lobbies[0], n + 1)
            && t.queue == s.queue
  {
    ServeKeeps(s, TimerTick(0));
    TickInLobby(s.lobbies[0], n);
  }

  lemma TickInLobby(l: Lobby, n: nat)
    requires LobbyOK(l) && WaitsForSeat(l, n) && n < 3
    ensures var (after, available) := AfterEvent(l, 0, OnTimer(l.conns[0]));
            WaitsForSeat(after, n + 1) && !available
  {
  }

  // The one who waits dies; then the first player times out.
  lemma DeadSuccessor() returns (s: Server)
    ensures s == RunServer(TimesOut(AllArrive(FULL) + [Arrival] + [ReadError(InLine(0))], 0))
    ensures ServerOK(s) && s.lobbies != [] && DeadSeat(s, 0, 0)
    ensures FullUnready(s.lobbies[0])
  {
    var waiting := SomebodyWaits();
    var inputs := AllArrive(FULL) + [Arrival];
    OneMoreInput(inputs, ReadError(InLine(0)));
    ServeKeeps(waiting, ReadError(InLine(0)));
    var dead := Serve(waiting, ReadError(InLine(0)));
    s := FirstIsReplaced(dead);
    TicksAreRun(inputs + [ReadError(InLine(0))]);
  }

  function FourTicks(s: Server): Server {
    Serve(Serve(Serve(Serve(s, TimerTick(0)), TimerTick(0)), TimerTick(0)), TimerTick(0))
  }

  lemma TicksAreRun(inputs: seq<Input>)
    ensures RunServer(TimesOut(inputs, 0)) == FourTicks(RunServer(inputs))
  {
    OneMoreInput(inputs, TimerTick(0));
    OneMoreInput(inputs + [TimerTick(0)], TimerTick(0));
    OneMoreInput(inputs + [TimerTick(0)] + [TimerTick(0)], TimerTick(0));
    OneMoreInput(inputs + [TimerTick(0)] + [TimerTick(0)] + [TimerTick(0)], TimerTick(0));
  }

  lemma FirstIsReplaced(dead: Server) returns (s: Server)
    requires ServerOK(dead) && dead.lobbies != [] && WaitsForSeat(dead.lobbies[0], 0)
    requires dead.queue != [] && !dead.queue[0].connected
    ensures s == FourTicks(dead)
    ensures ServerOK(s) && s.lobbies != [] && DeadSeat(s, 0, 0)
    ensures FullUnready(s.lobbies[0])
  {
    TickInFullServer(dead, 0);
    TickInFullServer(Serve(dead, TimerTick(0)), 1);
    TickInFullServer(Serve(Serve(dead, TimerTick(0)), TimerTick(0)), 2);
    s := LastTickInFullServer(Serve(Serve(Serve(dead, TimerTick(0)), TimerTick(0)), TimerTick(0)));
  }

  lemma LastTickInFullServer(s: Server) returns (t: Server)
    requires ServerOK(s) && s.lobbies != [] && WaitsForSeat(s.lobbies[0], 3)
    requires s.queue != [] && !s.queue[0].connected
    ensures t == Serve(s, TimerTick(0)) && ServerOK(t) && t.lobbies != [] && DeadSeat(t, 0, 0)
    ensures FullUnready(t.lobbies[0])
  {
    t := Serve(s, TimerTick(0));
    ServeKeeps(s, TimerTick(0));
    DeadSeatsChange(s, TimerTick(0), 0, 0);
    LossEffect(s, 0, 0, LossAt(s, TimerTick(0)));
    FirstSeatIsReassigned(s);
    assert t.lobbies[0] == Reseated(s, 0, 0, LossAt(s, TimerTick(0)));
  }

  lemma FirstSeatIsReassigned(s: Server)
    requires ServerOK(s) && s.lobbies != [] && WaitsForSeat(s.lobbies[0], 3) && s.queue != []
    ensures FullUnready(Reseated(s, 0, 0, OnTimer(s.lobbies[0].conns[0])))
  {
    var l, outcome := s.lobbies[0], OnTimer(s.lobbies[0].conns[0]);
    LossKeeps(l, 0, outcome);
    LossIsFound(l, 0, outcome.0);
    LossIsHandled(l, 0, outcome);
    AddPlayerKeeps(AfterEvent(l, 0, outcome).0, s.queue[0]);
  }

  // A run after which a lobby with a dead seat plays: two reads, of the late Ready of the
  // player who timed out, and of the other player's first Ready.
  lemma PlayBesideDeadHappens(first: u8) returns (j: nat)
    ensures var s := RunServer(TimesOut(AllArrive(FULL) + [Arrival] + [ReadError(InLine(0))], 0)
                               + [Reads(InLobby(0, 0), Ready(1), first)] + [Reads(InLobby(0, j), Ready(2), first)]);
            DeadSeat(s, 0, 0) && s.lobbies[0].isPlayingGame
  {
    var s := DeadSuccessor();
    var inputs := TimesOut(AllArrive(FULL) + [Arrival] + [ReadError(InLine(0))], 0);
    FullMeansAllTaken(s.lobbies[0]);
    j := s.lobbies[0].seats[1].value;
    OneMoreInput(inputs, Reads(InLobby(0, 0), Ready(1), first));
    OneMoreInput(inputs + [Reads(InLobby(0, 0), Ready(1), first)], Reads(InLobby(0, j), Ready(2), first));
    TwoReadsPlay(s, j, first);
  }

  lemma TwoReadsPlay(s: Server, j: nat, first: u8)
    requires ServerOK(s) && s.lobbies != [] && DeadSeat(s, 0, 0)
    requires var l := s.lobbies[0];
             FullUnready(l) && l.seats[1] == Some(j)
    ensures var t := Serve(Serve(s, Reads(InLobby(0, 0), Ready(1), first)), Reads(InLobby(0, j), Ready(2), first));
            DeadSeat(t, 0, 0) && t.lobbies[0].isPlayingGame
  {
    var t := Serve(s, Reads(InLobby(0, 0), Ready(1), first));
    FirstReadCounts(s, first);
    DeadSeatsChange(t, Reads(InLobby(0, j), Ready(2), first), 0, 0);
    assert t.lobbies[0].conns[j].id == 2;
    EventBegins(t, Reads(InLobby(0, j), Ready(2), first), 0);
  }

  lemma FirstReadCounts(s: Server, first: u8)
    requires ServerOK(s) && s.lobbies != [] && DeadSeat(s, 0, 0)
    requires FullUnready(s.lobbies[0])
    ensures var t := Serve(s, Reads(InLobby(0, 0), Ready(1), first));
            && ServerOK(t) && t.lobbies != [] && DeadSeat(t, 0, 0)
            && !t.lobbies[0].isPlayingGame && IsFull(t.lobbies[0]) && t.lobbies[0].maxPlayers == 2
            && t.lobbies[0].seats == s.lobbies[0].seats && t.lobbies[0].numReady == 1
  {
    ServeKeeps(s, Reads(InLobby(0, 0), Ready(1), first));
    DeadSeatsChange(s, Reads(InLobby(0, 0), Ready(1), first), 0, 0);
    ReadyIsRead(s.lobbies[0], 0, first);
  }
}
