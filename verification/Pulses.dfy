// Where pings and pongs are: what an event does to them at the server's end, whoever it is about.
module Pulses {
  import opened Bytes
  import opened Rules
  import opened Messages
  import opened Connections
  import opened Lobbies
  import opened LobbyInvariants
  import opened Servers
  import opened ServerInvariants
  import opened Lifetimes
  import opened Queues

  // b is a after an event that was neither its own tick nor a delivery: it may have been sent
  // something, but no ping, and a pong that it received is not forgotten.
  predicate Continues(a: Conn, b: Conn) {
    b.serial == a.serial && (b.connected ==> a.connected && b.missedPongs == a.missedPongs)
    && (a.receivedPong ==> b.receivedPong)
    && Appended(a.out, b.out)
  }

  predicate Appended(before: seq<Message>, after: seq<Message>) {
    |before| <= |after| && after[..|before|] == before && Ping !in after[|before|..]
  }

  predicate AllContinue(a: seq<Conn>, b: seq<Conn>) {
    |a| <= |b| && forall j | 0 <= j < |a| :: Continues(a[j], b[j])
  }

  lemma SendContinues(c: Conn, m: Message)
    requires m != Ping
    ensures Continues(c, Send(c, m))
  {
    assert (c.out + [m])[|c.out|..] == [m];
  }

  lemma ContinuesTransitively(a: Conn, b: Conn, c: Conn)
    requires Continues(a, b) && Continues(b, c)
    ensures Continues(a, c)
  {
    assert c.out[..|a.out|] == c.out[..|b.out|][..|a.out|];
    assert c.out[|a.out|..] == c.out[..|b.out|][|a.out|..] + c.out[|b.out|..];
  }

  lemma AllContinueTransitively(a: seq<Conn>, b: seq<Conn>, c: seq<Conn>)
    requires AllContinue(a, b) && AllContinue(b, c)
    ensures AllContinue(a, c)
  {
    forall j | 0 <= j < |a| ensures Continues(a[j], c[j]) {
      ContinuesTransitively(a[j], b[j], c[j]);
    }
  }

  // ---------------------------------------------------------------- signals

  lemma StartContinues(conns: seq<Conn>, numPlayers: u8, g: Game)
    ensures AllContinue(conns, SignalGameStart(conns, numPlayers, g))
  {
    forall j | 0 <= j < |conns| ensures Continues(conns[j], OnGameStart(conns[j], numPlayers, g)) {
      SendContinues(conns[j], GameStart(numPlayers, Wrap(|g.stacks|), g.rows, g.currentPlayer));
    }
  }

  lemma EndContinues(conns: seq<Conn>, winner: u8)
    ensures AllContinue(conns, SignalGameEnd(conns, winner))
  {
    forall j | 0 <= j < |conns| ensures Continues(conns[j], OnGameEnd(conns[j], winner)) {
      SendContinues(conns[j].(ready := false), GameEnd(winner));
    }
  }

  lemma PromptContinues(conns: seq<Conn>, player: u8)
    ensures AllContinue(conns, SignalTurn(conns, player))
  {
    forall j | 0 <= j < |conns| ensures Continues(conns[j], OnTurn(conns[j], player)) {
      SendContinues(conns[j], TurnMessage(player, MINUS_ONE));
    }
  }

  lemma NewsContinues(conns: seq<Conn>, player: u8, column: u8, result: TurnResult)
    ensures AllContinue(conns, SignalTurnResult(conns, player, column, result))
  {
    forall j | 0 <= j < |conns| ensures Continues(conns[j], OnUpdate(conns[j], player, column, result)) {
      SendContinues(conns[j], Update(player, column));
      SendContinues(conns[j], ResultMessage(result, column));
    }
  }

  // ---------------------------------------------------------------- one lobby

  lemma ReadyContinues(l: Lobby, id: u8, first: u8)
    ensures AllContinue(l.conns, OnReady(l, id, first).conns)
  {
    var g := LobbyGame(l.maxPlayers, first);
    var started := SignalGameStart(l.conns, l.numPlayers, g);
    StartContinues(l.conns, l.numPlayers, g);
    PromptContinues(started, g.currentPlayer);
    AllContinueTransitively(l.conns, started, SignalTurn(started, g.currentPlayer));
  }

  lemma TurnContinues(l: Lobby, id: u8, column: u8)
    requires l.isPlayingGame ==> l.game.Some?
    ensures AllContinue(l.conns, OnTakeTurn(l, id, column).conns)
  {
    if !l.isPlayingGame {
      NewsContinues(l.conns, id, column, Error);
    } else {
      var (g, result) := TakeTurn(l.game.value, id, column);
      var told := SignalTurnResult(l.conns, id, column, result);
      NewsContinues(l.conns, id, column, result);
      EndContinues(told, g.winner);
      PromptContinues(told, g.currentPlayer);
      AllContinueTransitively(l.conns, told, SignalGameEnd(told, g.winner));
      AllContinueTransitively(l.conns, told, SignalTurn(told, g.currentPlayer));
    }
  }

  lemma LeavingContinues(l: Lobby, id: u8)
    requires l.isPlayingGame ==> l.game.Some?
    ensures AllContinue(l.conns, OnDisconnect(l, id).0.conns)
  {
    if l.isPlayingGame {
      EndContinues(l.conns, l.game.value.winner);
    }
  }

  // Reading does not ping; reading a pong is noticed.
  lemma ReadingContinues(l: Lobby, j: nat, m: Message, first: u8)
    requires j < |l.conns| && (l.isPlayingGame ==> l.game.Some?)
    ensures AllContinue(l.conns, ReadMessage(l, j, m, first).conns)
    ensures m == Pong ==> ReadMessage(l, j, m, first).conns[j].receivedPong
    ensures |ReadMessage(l, j, m, first).conns| == |l.conns|
  {
    var (c, event) := OnRead(l.conns[j], m);
    var read := l.(conns := l.conns[j := c]);
    assert AllContinue(l.conns, read.conns);
    if event == Readied {
      ReadyContinues(read, c.id, first);
      AllContinueTransitively(l.conns, read.conns, OnReady(read, c.id, first).conns);
    } else if event.TookTurn? {
      TurnContinues(read, c.id, event.column);
      AllContinueTransitively(l.conns, read.conns, OnTakeTurn(read, c.id, event.column).conns);
    }
  }

  // A tick that does not lose its connection.
  predicate Pinged(a: Conn, b: Conn) {
    a.connected && b == OnTimer(a).0 && OnTimer(a).1 != Lost
  }

  lemma LossContinues(l: Lobby, j: nat, outcome: (Conn, Event), k: nat)
    requires j < |l.conns| && k < |l.conns| && (l.isPlayingGame ==> l.game.Some?)
    requires outcome == HandleDisconnect(l.conns[j]) || outcome == OnTimer(l.conns[j])
    ensures |AfterEvent(l, j, outcome).0.conns| == |l.conns|
    ensures var c := AfterEvent(l, j, outcome).0.conns[k];
            || (Continues(l.conns[k], c) && (k == j ==> !c.connected))
            || (k == j && outcome == OnTimer(l.conns[j]) && Pinged(l.conns[j], c))
  {
    var after := l.(conns := l.conns[j := outcome.0]);
    if outcome.1 == Lost {
      assert AllContinue(l.conns, after.conns) by { OutcomeOfLoss(l.conns[j], outcome); }
      LeavingContinues(after, outcome.0.id);
      AllContinueTransitively(l.conns, after.conns, OnDisconnect(after, outcome.0.id).0.conns);
    }
  }

  lemma OutcomeOfLoss(c: Conn, outcome: (Conn, Event))
    requires outcome == HandleDisconnect(c) || outcome == OnTimer(c)
    requires outcome.1 == Lost
    ensures Continues(c, outcome.0)
  {
  }

  lemma JoiningContinues(l: Lobby, c: Conn)
    ensures AllContinue(l.conns, AddPlayer(l, c).conns)
    ensures forall j | |l.conns| <= j < |AddPlayer(l, c).conns| :: Continues(c, AddPlayer(l, c).conns[j])
  {
    var id := Wrap(FirstFree(l.seats, 0) + 1);
    SendContinues(c.(id := id), Connected(id));
  }

  // ---------------------------------------------------------------- the server

  // The connection at this place became c, without being pinged and without a delivery. It heard
  // the pong if it read one, and did not survive if it was its own tick.
  predicate ComesFrom(s: Server, input: Input, at: Place, c: Conn) {
    Occupied(s, at) && Continues(ConnAt(s, at), c)
    && (input.Reads? && input.at == at && input.m == Pong ==> c.receivedPong)
    && (input.Timer? && input.at == at ==> !c.connected)
    && (input.Delivered? && input.at == at ==> ConnAt(s, at).out == [])
  }

  // What every connection that the server holds after an event was before: the same one, where
  // it took part in the event or not; or one that was just accepted, and pinged.
  ghost predicate Explained(s: Server, input: Input, c: Conn) {
    || (exists at :: ComesFrom(s, input, at, c))
    || (input.Timer? && Occupied(s, input.at) && Pinged(ConnAt(s, input.at), c))
    || (input.Delivered? && Occupied(s, input.at) && TakenOff(ConnAt(s, input.at), c))
    || (input.Arrival? && Newborn(s, c))
  }

  // A delivery: the oldest message is off the wire.
  predicate TakenOff(a: Conn, b: Conn) {
    a.out != [] && b == a.(out := a.out[1..])
  }

  lemma Unchanged(s: Server, input: Input, at: Place)
    requires Occupied(s, at) && (input.Reads? || input.Timer? || input.Delivered? ==> input.at != at)
    ensures Explained(s, input, ConnAt(s, at))
  {
    assert ComesFrom(s, input, at, ConnAt(s, at));
  }

  predicate Newborn(s: Server, c: Conn) {
    c.serial == s.accepted && c.missedPongs == 0 && c.out != [] && c.out[0] == Ping && Ping !in c.out[1..]
  }

  lemma ArrivalExplained(s: Server, t: Server, at: Place)
    requires Placed(s, t) && Occupied(t, at)
    ensures Explained(s, Arrival, ConnAt(t, at))
  {
    if k: nat :| FirstWithRoom(s.lobbies, k) {
      if at.InLobby? && at.i == k {
        TakenInExplained(s, InLobby(k, at.j), s.lobbies[k], t.lobbies[k]);
      } else {
        Unchanged(s, Arrival, at);
      }
    } else {
      NoRoom(s.lobbies);
      if at.InLobby? && at.i == |s.lobbies| {
        TakenInExplained(s, at, StartedLobby(2), t.lobbies[at.i]);
      } else if Occupied(s, at) {
        Unchanged(s, Arrival, at);
      }
    }
  }

  lemma NoRoom(lobbies: seq<Lobby>)
    requires forall k: nat :: !FirstWithRoom(lobbies, k)
    ensures AllFull(lobbies)
  {
    assert !FirstWithRoom(lobbies, FindAvailableLobby(lobbies, 0));
  }

  lemma TakenInExplained(s: Server, at: Place, l: Lobby, after: Lobby)
    requires at.InLobby? && at.j < |after.conns| && TookIn(l, after, s.accepted)
    requires at.j < |l.conns| ==> Occupied(s, at) && l == s.lobbies[at.i]
    ensures Explained(s, Arrival, after.conns[at.j])
  {
    if at.j < |l.conns| {
      assert after.conns[at.j] == after.conns[..|l.conns|][at.j];
      Unchanged(s, Arrival, at);
    }
  }

  lemma QueueTimerExplained(s: Server, at: Place)
    requires ServerOK(s) && Occupied(Serve(s, QueueTimer), at)
    ensures Explained(s, QueueTimer, ConnAt(Serve(s, QueueTimer), at))
  {
    if at.InLobby? {
      Unchanged(s, QueueTimer, at);
    } else {
      AliveSublist(s.queue, Roster(s.lobbies), s.accepted);
      var c := Alive(s.queue)[at.q];
      assert c in s.queue;
      var p: nat :| p < |s.queue| && s.queue[p] == c;
      SendContinues(c, InQueue(at.q + 1));
      assert ComesFrom(s, QueueTimer, InLine(p), ConnAt(Serve(s, QueueTimer), at));
    }
  }

  lemma ReadExplained(s: Server, input: Input, at: Place)
    requires ServerOK(s) && input.Reads? && Occupied(s, input.at) && Occupied(Serve(s, input), at)
    ensures Explained(s, input, ConnAt(Serve(s, input), at))
  {
    if input.at.InLobby? && at.InLobby? && at.i == input.at.i {
      ReadingContinues(s.lobbies[at.i], input.at.j, input.m, input.first);
    }
    assert ComesFrom(s, input, at, ConnAt(Serve(s, input), at));
  }

  lemma LossExplained(s: Server, input: Input, at: Place)
    requires ServerOK(s) && (input.ReadError? || input.Timer?) && Occupied(s, input.at)
    requires Occupied(Serve(s, input), at)
    ensures Explained(s, input, ConnAt(Serve(s, input), at))
  {
    if input.at.InLine? {
      WaitingLossExplained(s, input, at);
    } else if at.InLine? {
      QueueMovesUp(s, input, at.q);
    } else {
      LossEffect(s, input.at.i, input.at.j, LossAt(s, input));
      if at.i == input.at.i {
        MemberLossExplained(s, input, at.j);
      } else {
        Unchanged(s, input, at);
      }
    }
  }

  lemma WaitingLossExplained(s: Server, input: Input, at: Place)
    requires ServerOK(s) && (input.ReadError? || input.Timer?) && Occupied(s, input.at) && input.at.InLine?
    requires Occupied(Serve(s, input), at)
    ensures Explained(s, input, ConnAt(Serve(s, input), at))
  {
    if at == input.at {
      assert ComesFrom(s, input, at, LossAt(s, input).0) || Pinged(ConnAt(s, at), LossAt(s, input).0);
    } else {
      Unchanged(s, input, at);
    }
  }

  lemma QueueMovesUp(s: Server, input: Input, q: nat)
    requires ServerOK(s) && (input.ReadError? || input.Timer?) && Occupied(s, input.at) && input.at.InLobby?
    requires q < |Serve(s, input).queue|
    ensures Explained(s, input, Serve(s, input).queue[q])
  {
    if Serve(s, input).queue == s.queue {
      Unchanged(s, input, InLine(q));
    } else {
      assert Serve(s, input).queue == s.queue[1..];
      Unchanged(s, input, InLine(q + 1));
    }
  }

  lemma MemberLossExplained(s: Server, input: Input, j: nat)
    requires ServerOK(s) && (input.ReadError? || input.Timer?) && Occupied(s, input.at) && input.at.InLobby?
    requires j < |Reseated(s, input.at.i, input.at.j, LossAt(s, input)).conns|
    ensures Explained(s, input, Reseated(s, input.at.i, input.at.j, LossAt(s, input)).conns[j])
  {
    var i, l, outcome := input.at.i, s.lobbies[input.at.i], LossAt(s, input);
    LossKeeps(l, input.at.j, outcome);
    var (after, available) := AfterEvent(l, input.at.j, outcome);
    if available && s.queue != [] {
      SuccessorContinues(after, s.queue[0]);
    }
    if j < |l.conns| {
      LosingExplained(s, input, j);
      assert Reseated(s, i, input.at.j, outcome).conns[j] == after.conns[j];
    } else {
      assert ComesFrom(s, input, InLine(0), AddPlayer(after, s.queue[0]).conns[j]);
    }
  }

  lemma SuccessorContinues(l: Lobby, c: Conn)
    requires LobbyOK(l) && !IsFull(l) && c.id == 0
    ensures var conns := AddPlayer(l, c).conns;
            && |conns| == |l.conns| + 1 && Continues(c, conns[|l.conns|])
            && forall j | 0 <= j < |l.conns| :: conns[j] == l.conns[j]
  {
    JoiningAges(l, c);
    JoiningContinues(l, c);
    assert forall j | 0 <= j < |l.conns| :: AddPlayer(l, c).conns[j] == AddPlayer(l, c).conns[..|l.conns|][j];
  }

  lemma LosingExplained(s: Server, input: Input, j: nat)
    requires GamesPresent(s) && (input.ReadError? || input.Timer?) && Occupied(s, input.at) && input.at.InLobby?
    requires j < |s.lobbies[input.at.i].conns|
    requires j < |AfterEvent(s.lobbies[input.at.i], input.at.j, LossAt(s, input)).0.conns|
    ensures Explained(s, input, AfterEvent(s.lobbies[input.at.i], input.at.j, LossAt(s, input)).0.conns[j])
  {
    var i, l, outcome := input.at.i, s.lobbies[input.at.i], LossAt(s, input);
    LossContinues(l, input.at.j, outcome, j);
    var now := AfterEvent(l, input.at.j, outcome).0.conns[j];
    if Continues(l.conns[j], now) {
      assert ComesFrom(s, input, InLobby(i, j), now);
    }
  }

  lemma EventsExplained(s: Server, input: Input, at: Place)
    requires ServerOK(s) && Occupied(Serve(s, input), at)
    ensures Explained(s, input, ConnAt(Serve(s, input), at))
  {
    match input
    case Arrival =>
      ArrivalIsPlaced(s);
      ArrivalExplained(s, Serve(s, input), at);
    case QueueTimer => QueueTimerExplained(s, at);
    case Reads(from, _, _) =>
      if Occupied(s, from) {
        ReadExplained(s, input, at);
      } else {
        Unchanged(s, input, at);
      }
    case ReadError(from) =>
      if Occupied(s, from) {
        LossExplained(s, input, at);
      } else {
        Unchanged(s, input, at);
      }
    case Timer(from) =>
      if Occupied(s, from) {
        LossExplained(s, input, at);
      } else {
        Unchanged(s, input, at);
      }
    case Delivered(from) =>
      if at != from {
        Unchanged(s, input, at);
      } else if ConnAt(s, at).out == [] {
        assert ComesFrom(s, input, at, ConnAt(s, at));
      }
  }
}
