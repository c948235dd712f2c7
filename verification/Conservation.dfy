// Runs of the server from the empty one: nobody is lost silently, nobody is in two places,
// nobody overtakes.
module Conservation {
  import opened Bytes
  import opened Rules
  import opened Messages
  import opened Connections
  import opened Lobbies
  import opened LobbyInvariants
  import opened Servers
  import opened ServerInvariants

  // Connection n sits in seat k.
  predicate SitsIn(l: Lobby, k: int, n: nat) {
    0 <= k < |l.seats| && l.seats[k].Some? && l.seats[k].value < |l.conns| && l.conns[l.seats[k].value].serial == n
  }

  ghost predicate Sits(l: Lobby, n: nat) {
    exists k :: SitsIn(l, k, n)
  }

  ghost predicate SeatedIn(s: Server, i: int, n: nat) {
    0 <= i < |s.lobbies| && Sits(s.lobbies[i], n)
  }

  ghost predicate Seated(s: Server, n: nat) {
    exists i :: SeatedIn(s, i, n)
  }

  // The server still knows the connection: in a seat or in the queue.
  ghost predicate Held(s: Server, n: nat) {
    Seated(s, n) || n in Serials(s.queue)
  }

  // The connections an input makes the server drop: one that its lobby loses, or all dead
  // ones in the queue.
  function Dropped(s: Server, input: Input): set<nat> {
    match input
    case ReadError(at) => if Occupied(s, at) then DroppedAt(s, at, HandleDisconnect(ConnAt(s, at))) else {}
    case Timer(at) => if Occupied(s, at) then DroppedAt(s, at, OnTimer(ConnAt(s, at))) else {}
    case QueueTimer => set c | c in s.queue && !c.connected :: c.serial
    case _ => {}
  }

  function DroppedAt(s: Server, at: Place, outcome: (Conn, Event)): set<nat> {
    if at.InLobby? && outcome.1 == Lost then {outcome.0.serial} else {}
  }

  // ---------------------------------------------------------------- one lobby

  lemma SameSeatingSameSitters(a: Lobby, b: Lobby, n: nat)
    requires SameSeating(a, b)
    ensures Sits(a, n) <==> Sits(b, n)
  {
    forall k ensures SitsIn(a, k, n) <==> SitsIn(b, k, n) {}
  }

  lemma NewcomerSits(l: Lobby, c: Conn, n: nat)
    requires LobbyOK(l) && !IsFull(l) && c.id == 0
    ensures Sits(AddPlayer(l, c), n) <==> Sits(l, n) || n == c.serial
  {
    AddPlayerKeeps(l, c);
    var free := FirstFree(l.seats, 0);
    SetIdAssigns(c, free + 1);
    forall k ensures SitsIn(AddPlayer(l, c), k, n) <==> SitsIn(l, k, n) || (k == free && n == c.serial) {}
    assert SitsIn(AddPlayer(l, c), free, c.serial);
  }

  lemma LostNoLongerSits(l: Lobby, j: nat, outcome: (Conn, Event), n: nat)
    requires LobbyOK(l) && j < |l.conns|
    requires outcome == HandleDisconnect(l.conns[j]) || outcome == OnTimer(l.conns[j])
    requires forall k, k' | 0 <= k < |l.conns| && 0 <= k' < |l.conns| ::
               l.conns[k].serial == l.conns[k'].serial ==> k == k'
    ensures var after := AfterEvent(l, j, outcome).0;
            Sits(after, n) <==> Sits(l, n) && !(outcome.1 == Lost && n == l.conns[j].serial)
  {
    LossKeeps(l, j, outcome);
    var after := AfterEvent(l, j, outcome).0;
    if outcome.1 == Lost {
      var own := l.conns[j].id - 1;
      forall k ensures SitsIn(after, k, n) <==> SitsIn(l, k, n) && k != own {}
      forall k ensures SitsIn(l, k, n) ==> (k == own <==> n == l.conns[j].serial) {}
    } else {
      SameSeatingSameSitters(l, after, n);
    }
  }

  // ---------------------------------------------------------------- the server

  lemma SameSeated(s: Server, i: nat, l: Lobby, n: nat)
    requires i < |s.lobbies| && (Sits(l, n) <==> Sits(s.lobbies[i], n))
    ensures Seated(s.(lobbies := s.lobbies[i := l]), n) <==> Seated(s, n)
  {
    var t := s.(lobbies := s.lobbies[i := l]);
    forall k ensures SeatedIn(t, k, n) <==> SeatedIn(s, k, n) {}
  }

  lemma JoinSeated(s: Server, i: nat, c: Conn, n: nat)
    requires LobbiesOK(s.lobbies) && i < |s.lobbies| && !IsFull(s.lobbies[i]) && c.id == 0
    ensures var t := s.(lobbies := s.lobbies[i := AddPlayer(s.lobbies[i], c)]);
            Seated(t, n) <==> Seated(s, n) || n == c.serial
  {
    var l := AddPlayer(s.lobbies[i], c);
    var t := s.(lobbies := s.lobbies[i := l]);
    NewcomerSits(s.lobbies[i], c, n);
    forall k ensures SeatedIn(t, k, n) <==> SeatedIn(s, k, n) || (k == i && n == c.serial) {}
    assert SeatedIn(t, i, n) <==> Sits(l, n);
  }

  lemma LossSeated(s: Server, i: nat, j: nat, outcome: (Conn, Event), n: nat)
    requires ServerOK(s) && Occupied(s, InLobby(i, j))
    requires outcome == HandleDisconnect(s.lobbies[i].conns[j]) || outcome == OnTimer(s.lobbies[i].conns[j])
    ensures var t := s.(lobbies := s.lobbies[i := AfterEvent(s.lobbies[i], j, outcome).0]);
            Seated(t, n) <==> Seated(s, n) && n !in DroppedAt(s, InLobby(i, j), outcome)
  {
    var l := s.lobbies[i];
    var t := s.(lobbies := s.lobbies[i := AfterEvent(l, j, outcome).0]);
    DistinctWithin(s, i);
    LostNoLongerSits(l, j, outcome, n);
    assert outcome.0.serial == l.conns[j].serial;
    forall k ensures SeatedIn(t, k, n) <==> SeatedIn(s, k, n) && n !in DroppedAt(s, InLobby(i, j), outcome) {
      if k != i && SeatedIn(s, k, n) {
        AtHome(s, i, j, k, n);
      }
    }
  }

  lemma DistinctWithin(s: Server, i: nat)
    requires ServerOK(s) && i < |s.lobbies|
    ensures forall k, k' | 0 <= k < |s.lobbies[i].conns| && 0 <= k' < |s.lobbies[i].conns| ::
              s.lobbies[i].conns[k].serial == s.lobbies[i].conns[k'].serial ==> k == k'
  {
    var roster := Roster(s.lobbies);
    assert forall k | 0 <= k < |s.lobbies[i].conns| :: roster[i][k] == s.lobbies[i].conns[k].serial;
  }

  // A member of one lobby sits in no other.
  lemma AtHome(s: Server, i: nat, j: nat, k: int, n: nat)
    requires ServerOK(s) && Occupied(s, InLobby(i, j)) && SeatedIn(s, k, n) && k != i
    ensures s.lobbies[i].conns[j].serial != n
  {
    var seat :| SitsIn(s.lobbies[k], seat, n);
    var j' := s.lobbies[k].seats[seat].value;
    assert Roster(s.lobbies)[k][j'] == n && Roster(s.lobbies)[i][j] == s.lobbies[i].conns[j].serial;
  }

  // Every event keeps exactly the connections it does not drop, and an arrival adds exactly
  // the newcomer.
  lemma Conserved(s: Server, input: Input, n: nat)
    requires ServerOK(s)
    ensures Held(Serve(s, input), n) <==>
            (Held(s, n) && n !in Dropped(s, input)) || (input.Arrival? && n == s.accepted)
  {
    match input
    case Arrival => ArrivalConserves(s, n);
    case QueueTimer => QueueTimerConserves(s, n);
    case Reads(at, m, first) =>
      if Occupied(s, at) {
        ReadConserves(s, at, m, first, n);
      }
    case ReadError(at) =>
      if Occupied(s, at) {
        LossConserves(s, at, HandleDisconnect(ConnAt(s, at)), n);
      }
    case Timer(at) =>
      if Occupied(s, at) {
        LossConserves(s, at, OnTimer(ConnAt(s, at)), n);
      }
    case Delivered(at) =>
      if Occupied(s, at) && ConnAt(s, at).out != [] {
        DeliveryConserves(s, at, n);
      }
  }

  lemma ArrivalConserves(s: Server, n: nat)
    requires ServerOK(s)
    ensures Held(Serve(s, Arrival), n) <==> Held(s, n) || n == s.accepted
  {
    var c := OnAccept(NewConn(s.accepted));
    var k := FindAvailableLobby(s.lobbies, 0);
    if k < |s.lobbies| {
      JoinSeated(s, k, c, n);
      SeatedIgnoresRest(s.(lobbies := s.lobbies[k := AddPlayer(s.lobbies[k], c)]), Serve(s, Arrival), n);
    } else if |s.lobbies| < MAX_LOBBIES {
      NewLobbyInOrder(MIN_NUM_PLAYERS);
      var larger := s.(lobbies := s.lobbies + [StartedLobby(MIN_NUM_PLAYERS)]);
      forall i ensures SeatedIn(larger, i, n) <==> SeatedIn(s, i, n) {}
      JoinSeated(larger, |s.lobbies|, c, n);
      SeatedIgnoresRest(larger.(lobbies := larger.lobbies[|s.lobbies| := AddPlayer(StartedLobby(MIN_NUM_PLAYERS), c)]),
                        Serve(s, Arrival), n);
    } else {
      SeatedIgnoresRest(s, Serve(s, Arrival), n);
      assert Serials(Serve(s, Arrival).queue) == Serials(s.queue) + [s.accepted];
    }
  }

  lemma SeatedIgnoresRest(s: Server, t: Server, n: nat)
    requires s.lobbies == t.lobbies
    ensures Seated(s, n) <==> Seated(t, n)
  {
    forall i ensures SeatedIn(s, i, n) <==> SeatedIn(t, i, n) {}
  }

  lemma QueueTimerConserves(s: Server, n: nat)
    requires ServerOK(s)
    ensures Held(Serve(s, QueueTimer), n) <==> Held(s, n) && n !in Dropped(s, QueueTimer)
  {
    SeatedIgnoresRest(s, Serve(s, QueueTimer), n);
    assert Serials(Serve(s, QueueTimer).queue) == Serials(Alive(s.queue));
    PurgeDropsDead(s.queue, Roster(s.lobbies), s.accepted, n);
    SerialsOf(s.queue, n);
    if Seated(s, n) && n in Serials(s.queue) {
      SeatedNotWaiting(s, n);
    }
  }

  lemma PurgeDropsDead(queue: seq<Conn>, roster: seq<seq<nat>>, accepted: nat, n: nat)
    requires Ordered(roster, Serials(queue), accepted)
    ensures n in Serials(Alive(queue)) <==> n in Serials(queue) && n !in set c | c in queue && !c.connected :: c.serial
  {
    AliveSublist(queue, roster, accepted);
    SerialsOf(queue, n);
    SerialsOf(Alive(queue), n);
    forall c, c' | c in queue && c' in queue && c.serial == c'.serial ensures c == c' {
      var q :| 0 <= q < |queue| && queue[q] == c;
      var q' :| 0 <= q' < |queue| && queue[q'] == c';
      assert Serials(queue)[q] == c.serial && Serials(queue)[q'] == c'.serial;
    }
  }

  lemma SerialsOf(conns: seq<Conn>, n: nat)
    ensures n in Serials(conns) <==> exists c :: c in conns && c.serial == n
  {
    if n in Serials(conns) {
      var q :| 0 <= q < |conns| && Serials(conns)[q] == n;
      assert conns[q] in conns;
    }
    if exists c :: c in conns && c.serial == n {
      var c :| c in conns && c.serial == n;
      var q :| 0 <= q < |conns| && conns[q] == c;
      assert Serials(conns)[q] == n;
    }
  }

  // Nobody is both seated and waiting.
  lemma SeatedNotWaiting(s: Server, n: nat)
    requires ServerOK(s) && Seated(s, n)
    ensures n !in Serials(s.queue)
  {
    var i :| SeatedIn(s, i, n);
    var seat :| SitsIn(s.lobbies[i], seat, n);
    assert Roster(s.lobbies)[i][s.lobbies[i].seats[seat].value] == n;
  }

  lemma ReadConserves(s: Server, at: Place, m: Message, first: u8, n: nat)
    requires ServerOK(s) && Occupied(s, at)
    ensures Held(ServeRead(s, at, m, first), n) <==> Held(s, n)
  {
    match at
    case InLine(q) => QueueEntryConserves(s, q, OnRead(s.queue[q], m).0, n);
    case InLobby(i, j) =>
      ReadMessageKeeps(s.lobbies[i], j, m, first);
      SameSeatingSameSitters(s.lobbies[i], ReadMessage(s.lobbies[i], j, m, first), n);
      SameSeated(s, i, ReadMessage(s.lobbies[i], j, m, first), n);
  }

  lemma QueueEntryConserves(s: Server, q: nat, c: Conn, n: nat)
    requires q < |s.queue| && c.serial == s.queue[q].serial
    ensures Held(WithConn(s, InLine(q), c), n) <==> Held(s, n)
  {
    SeatedIgnoresRest(s, WithConn(s, InLine(q), c), n);
    assert Serials(s.queue[q := c]) == Serials(s.queue);
  }

  lemma DeliveryConserves(s: Server, at: Place, n: nat)
    requires Occupied(s, at) && ConnAt(s, at).out != []
    ensures Held(WithConn(s, at, ConnAt(s, at).(out := ConnAt(s, at).out[1..])), n) <==> Held(s, n)
  {
    var c := ConnAt(s, at).(out := ConnAt(s, at).out[1..]);
    match at
    case InLine(q) => QueueEntryConserves(s, q, c, n);
    case InLobby(i, j) =>
      var l := s.lobbies[i].(conns := s.lobbies[i].conns[j := c]);
      SameSeatingSameSitters(s.lobbies[i], l, n);
      SameSeated(s, i, l, n);
  }

  lemma LossConserves(s: Server, at: Place, outcome: (Conn, Event), n: nat)
    requires ServerOK(s) && Occupied(s, at)
    requires outcome == HandleDisconnect(ConnAt(s, at)) || outcome == OnTimer(ConnAt(s, at))
    ensures Held(ServeLoss(s, at, outcome), n) <==> Held(s, n) && n !in DroppedAt(s, at, outcome)
  {
    match at
    case InLine(q) => QueueEntryConserves(s, q, outcome.0, n);
    case InLobby(i, j) =>
      LossKeeps(s.lobbies[i], j, outcome);
      LossSeated(s, i, j, outcome, n);
      MemberNotWaiting(s, i, j);
      var (after, available) := AfterEvent(s.lobbies[i], j, outcome);
      if available {
        ReplaceLobby(s.lobbies, i, after);
        SeatingConserves(s.(lobbies := s.lobbies[i := after]), i, n);
      }
  }

  // Moving the head of the queue to a seat.
  lemma SeatingConserves(s: Server, i: nat, n: nat)
    requires LobbiesOK(s.lobbies) && i < |s.lobbies| && !IsFull(s.lobbies[i])
    requires s.queue != [] ==> s.queue[0].id == 0
    ensures Held(OnLobbyAvailable(s, i), n) <==> Held(s, n)
  {
    if s.queue != [] {
      JoinSeated(s, i, s.queue[0], n);
      SeatedIgnoresRest(s.(lobbies := s.lobbies[i := AddPlayer(s.lobbies[i], s.queue[0])]), OnLobbyAvailable(s, i), n);
      assert Serials(s.queue) == [s.queue[0].serial] + Serials(s.queue[1..]);
    }
  }

  lemma MemberNotWaiting(s: Server, i: nat, j: nat)
    requires ServerOK(s) && Occupied(s, InLobby(i, j))
    ensures s.lobbies[i].conns[j].serial !in Serials(s.queue)
  {
    assert Roster(s.lobbies)[i][j] == s.lobbies[i].conns[j].serial;
  }

  // ---------------------------------------------------------------- whole runs

  function RunServer(inputs: seq<Input>): Server {
    if inputs == [] then EMPTY_SERVER else Serve(RunServer(inputs[..|inputs| - 1]), inputs[|inputs| - 1])
  }

  lemma {:induction false} RunServerKeeps(inputs: seq<Input>)
    ensures ServerOK(RunServer(inputs))
  {
    if inputs != [] {
      RunServerKeeps(inputs[..|inputs| - 1]);
      ServeKeeps(RunServer(inputs[..|inputs| - 1]), inputs[|inputs| - 1]);
    }
  }

  function DroppedAlong(inputs: seq<Input>): set<nat> {
    if inputs == [] then {}
    else
      var before := inputs[..|inputs| - 1];
      DroppedAlong(before) + Dropped(RunServer(before), inputs[|inputs| - 1])
  }

  lemma AcceptedGrows(s: Server, input: Input)
    requires ServerOK(s)
    ensures Serve(s, input).accepted == s.accepted + if input.Arrival? then 1 else 0
  {
  }

  lemma DroppedWasAccepted(s: Server, input: Input, n: nat)
    requires ServerOK(s) && n in Dropped(s, input)
    ensures n < s.accepted && !input.Arrival?
  {
    if input.QueueTimer? {
      SerialsOf(s.queue, n);
    } else {
      var i, j := input.at.i, input.at.j;
      assert Roster(s.lobbies)[i][j] == s.lobbies[i].conns[j].serial;
    }
  }

  // After any run, the connections the server holds are exactly those it accepted and has
  // not dropped since.
  lemma {:induction false} NobodyVanishes(inputs: seq<Input>, n: nat)
    ensures Held(RunServer(inputs), n) <==> n < RunServer(inputs).accepted && n !in DroppedAlong(inputs)
    ensures n in DroppedAlong(inputs) ==> n < RunServer(inputs).accepted
  {
    if inputs != [] {
      var before, last := inputs[..|inputs| - 1], inputs[|inputs| - 1];
      NobodyVanishes(before, n);
      RunServerKeeps(before);
      Conserved(RunServer(before), last, n);
      AcceptedGrows(RunServer(before), last);
      if n in Dropped(RunServer(before), last) {
        DroppedWasAccepted(RunServer(before), last, n);
      }
    } else {
      assert !Held(EMPTY_SERVER, n);
    }
  }

  // Nobody is in two seats, or in a seat and in the queue, or in the queue twice.
  lemma OnePlaceOnly(inputs: seq<Input>, n: nat, i: int, k: int, i': int, k': int)
    ensures var s := RunServer(inputs);
            && (SeatedIn(s, i, n) && SeatedIn(s, i', n) && SitsIn(s.lobbies[i], k, n) && SitsIn(s.lobbies[i'], k', n)
                ==> i == i' && k == k')
            && !(Seated(s, n) && n in Serials(s.queue))
            && forall q, q' | 0 <= q < q' < |s.queue| :: s.queue[q].serial != s.queue[q'].serial
  {
    var s := RunServer(inputs);
    RunServerKeeps(inputs);
    if Seated(s, n) {
      SeatedNotWaiting(s, n);
    }
    assert forall q | 0 <= q < |s.queue| :: Serials(s.queue)[q] == s.queue[q].serial;
    if SeatedIn(s, i, n) && SeatedIn(s, i', n) && SitsIn(s.lobbies[i], k, n) && SitsIn(s.lobbies[i'], k', n) {
      var j, j' := s.lobbies[i].seats[k].value, s.lobbies[i'].seats[k'].value;
      assert Roster(s.lobbies)[i][j] == n && Roster(s.lobbies)[i'][j'] == n;
      assert LobbyOK(s.lobbies[i]);
    }
  }

  // Whoever arrived earlier than somebody who has a seat is not waiting any more.
  lemma NobodyOvertakes(inputs: seq<Input>, m: nat, n: nat)
    requires m < n && Seated(RunServer(inputs), n)
    ensures m !in Serials(RunServer(inputs).queue)
  {
    var s := RunServer(inputs);
    RunServerKeeps(inputs);
    var i :| SeatedIn(s, i, n);
    var k :| SitsIn(s.lobbies[i], k, n);
    assert Roster(s.lobbies)[i][s.lobbies[i].seats[k].value] == n;
  }

  // While somebody waits there are as many lobbies as allowed, and every seat is taken.
  lemma NoIdleSeats(inputs: seq<Input>, i: int, k: int)
    requires RunServer(inputs).queue != []
    requires 0 <= i < |RunServer(inputs).lobbies| && 0 <= k < |RunServer(inputs).lobbies[i].seats|
    ensures |RunServer(inputs).lobbies| == MAX_LOBBIES
    ensures RunServer(inputs).lobbies[i].seats[k].Some?
  {
    var l := RunServer(inputs).lobbies[i];
    RunServerKeeps(inputs);
    assert LobbyOK(l);
    FullMeansAllTaken(l);
  }

  // A connection is dropped at most once: its loss is handled when its lobby still holds it,
  // and never again.
  lemma DroppedAtMostOnce(inputs: seq<Input>, input: Input, n: nat)
    requires n in DroppedAlong(inputs)
    ensures n !in Dropped(RunServer(inputs), input)
  {
    NobodyVanishes(inputs, n);
    RunServerKeeps(inputs);
    if n in Dropped(RunServer(inputs), input) {
      DroppedWasHeld(RunServer(inputs), input, n);
    }
  }

  lemma DroppedWasHeld(s: Server, input: Input, n: nat)
    requires ServerOK(s) && n in Dropped(s, input)
    ensures Held(s, n)
  {
    if input.QueueTimer? {
      SerialsOf(s.queue, n);
    } else {
      var i, j := input.at.i, input.at.j;
      assert LobbyOK(s.lobbies[i]);
      assert SitsIn(s.lobbies[i], s.lobbies[i].conns[j].id - 1, n);
      assert SeatedIn(s, i, n);
    }
  }
}
