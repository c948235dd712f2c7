// Where the server puts whoever arrives, and what those who wait are told.
module Queues {
  import opened Bytes
  import opened Rules
  import opened Messages
  import opened Connections
  import opened Lobbies
  import opened LobbyInvariants
  import opened Servers
  import opened ServerInvariants

  // ---------------------------------------------------------------- arrivals

  // A lobby took a newcomer: it has the least free seat, and heard a ping and its id.
  ghost predicate TookIn(l: Lobby, after: Lobby, serial: nat) {
    exists seat: nat :: TookInAt(l, after, serial, seat)
  }

  predicate TookInAt(l: Lobby, after: Lobby, serial: nat, seat: nat) {
    && seat < |l.seats| && l.seats[seat].None?
    && (forall i | 0 <= i < seat :: l.seats[i].Some?)
    && after.seats == l.seats[seat := Some(|l.conns|)]
    && |after.conns| == |l.conns| + 1 && after.conns[..|l.conns|] == l.conns
    && var c := after.conns[|l.conns|];
       && c.serial == serial && c.connected && !c.ready && c.missedPongs == 0 && c.id == seat + 1
       && c.out == [Ping, Connected(c.id)]
  }

  lemma NewcomerIsTakenIn(l: Lobby, serial: nat)
    requires LobbyOK(l) && !IsFull(l)
    ensures TookIn(l, AddPlayer(l, OnAccept(NewConn(serial))), serial)
  {
    var c := OnAccept(NewConn(serial));
    AddPlayerKeeps(l, c);
    assert TookInAt(l, AddPlayer(l, c), serial, FirstFree(l.seats, 0));
  }

  // The first lobby with room.
  predicate FirstWithRoom(lobbies: seq<Lobby>, k: nat) {
    k < |lobbies| && !IsFull(lobbies[k]) && forall i | 0 <= i < k :: IsFull(lobbies[i])
  }

  // A newcomer waits behind everybody else. It heard a ping and then its own place.
  predicate Queued(queue: seq<Conn>, after: seq<Conn>, serial: nat) {
    && |after| == |queue| + 1 && after[..|queue|] == queue
    && var c := after[|queue|];
       c.serial == serial && c.connected && !c.ready && c.missedPongs == 0 && c.id == 0
       && c.out == [Ping, InQueue(|after|)]
  }

  // Somebody arrived. The first lobby with room takes it in, without another lobby being opened;
  // failing that, a new lobby for two does, as long as there are fewer than four lobbies;
  // failing that, it waits behind everybody else and is told its place, counted from one.
  ghost predicate Placed(s: Server, t: Server) {
    && (forall k: nat | FirstWithRoom(s.lobbies, k) ::
          && |t.lobbies| == |s.lobbies| && t.lobbies == s.lobbies[k := t.lobbies[k]]
          && TookIn(s.lobbies[k], t.lobbies[k], s.accepted) && t.queue == s.queue)
    && (AllFull(s.lobbies) && |s.lobbies| < 4 ==>
          |t.lobbies| == |s.lobbies| + 1 && t.lobbies[..|s.lobbies|] == s.lobbies && t.queue == s.queue
          && t.lobbies[|s.lobbies|].maxPlayers == 2
          && TookIn(StartedLobby(2), t.lobbies[|s.lobbies|], s.accepted))
    && (AllFull(s.lobbies) && |s.lobbies| >= 4 ==>
          t.lobbies == s.lobbies && Queued(s.queue, t.queue, s.accepted))
  }

  lemma ArrivalIsPlaced(s: Server)
    requires ServerOK(s)
    ensures var t := Serve(s, Arrival);
            Placed(s, t) && t.accepted == s.accepted + 1 && t.lastQueueSize == s.lastQueueSize
  {
    var k := FindAvailableLobby(s.lobbies, 0);
    if k < |s.lobbies| {
      NewcomerIsTakenIn(s.lobbies[k], s.accepted);
      assert forall i: nat | FirstWithRoom(s.lobbies, i) :: i == k;
    } else if |s.lobbies| < MAX_LOBBIES {
      NewLobbyInOrder(MIN_NUM_PLAYERS);
      NewcomerIsTakenIn(StartedLobby(MIN_NUM_PLAYERS), s.accepted);
    }
  }

  // ---------------------------------------------------------------- the queue timer

  // How many of the first p connections in the queue are alive.
  function LivingBefore(queue: seq<Conn>, p: nat): nat
    requires p <= |queue|
  {
    if p == 0 then 0 else LivingBefore(queue, p - 1) + if queue[p - 1].connected then 1 else 0
  }

  lemma {:induction false} LivingIsLocal(queue: seq<Conn>, longer: seq<Conn>, p: nat)
    requires p <= |queue| <= |longer| && longer[..|queue|] == queue
    ensures LivingBefore(longer, p) == LivingBefore(queue, p)
  {
    if p > 0 {
      LivingIsLocal(queue, longer, p - 1);
      assert longer[p - 1] == longer[..|queue|][p - 1];
    }
  }

  lemma {:induction false} LivingStay(queue: seq<Conn>, p: nat)
    requires p < |queue| && queue[p].connected
    ensures |Alive(queue)| == LivingBefore(queue, |queue|)
    ensures LivingBefore(queue, p) < |Alive(queue)| && Alive(queue)[LivingBefore(queue, p)] == queue[p]
  {
    var before, n := queue[..|queue| - 1], |queue| - 1;
    AliveCounted(before);
    LivingIsLocal(before, queue, n);
    if p < n {
      LivingStay(before, p);
      LivingIsLocal(before, queue, p);
    }
  }

  lemma {:induction false} AliveCounted(queue: seq<Conn>)
    ensures |Alive(queue)| == LivingBefore(queue, |queue|)
  {
    if queue != [] {
      AliveCounted(queue[..|queue| - 1]);
      LivingIsLocal(queue[..|queue| - 1], queue, |queue| - 1);
    }
  }

  // Places are announced while fewer than ten wait, or once the number of those who wait has
  // changed by ten or more since the last time.
  predicate Announces(living: nat, last: nat) {
    living < 10 || living >= last + 10 || last >= living + 10
  }

  // The queue timer removes exactly the dead and moves the others up in order. If places are
  // announced, the p-th connection hears how many of the living there are up to and including
  // itself; otherwise nobody hears anything. The number of the living is remembered.
  lemma QueueTimerTells(s: Server, p: nat)
    requires p < |s.queue| && s.queue[p].connected
    ensures var t, living, q := UpdateQueuePositions(s), LivingBefore(s.queue, |s.queue|), LivingBefore(s.queue, p);
            && q < |t.queue|
            && t.queue[q] == s.queue[p].(out := s.queue[p].out +
                                         if Announces(living, s.lastQueueSize) then [InQueue(q + 1)] else [])
  {
    LivingStay(s.queue, p);
    var out := s.queue[p].out;
    assert out + [] == out;
  }

  lemma QueueTimerCounts(s: Server)
    ensures var t, living := UpdateQueuePositions(s), LivingBefore(s.queue, |s.queue|);
            |t.queue| == living == t.lastQueueSize && t.lobbies == s.lobbies && t.accepted == s.accepted
  {
    AliveCounted(s.queue);
  }
}
