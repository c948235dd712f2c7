// Ready accounting outside the discipline of the console client: exactly when a Ready that a
// lobby accepts keeps the count right, and what goes wrong otherwise. Counting says the same of
// all events.
module Discipline {
  import opened Bytes
  import opened Messages
  import opened Connections
  import opened Lobbies
  import opened LobbyInvariants
  import opened Rooms

  // The lobby looks up the reader by id, and counts without looking at the ready flag. So the
  // count stays right exactly when nobody has the id any more, or the reader itself does and
  // was not ready. A second Ready breaks it, and so does one read late from a connection
  // whose seat somebody else has taken.
  lemma ReadyStaysCounted(l: Lobby, j: nat, first: u8)
    requires LobbyOK(l) && l.numReady == |ReadySeats(l)| && j < |l.conns|
    ensures var after, seat := ReadMessage(l, j, Ready(l.conns[j].id), first), l.seats[l.conns[j].id - 1];
            after.numReady == |ReadySeats(after)| <==> seat == None || (seat == Some(j) && !l.conns[j].ready)
  {
    CountsAfterReady(l, j, first);
    WrapChanges(l.numReady);
    if l.seats[l.conns[j].id - 1] == Some(j) && !l.conns[j].ready {
      SeatingKeepsSeats(l, WithReady(l, j));
      ReadyAtMostAll(WithReady(l, j));
    }
  }

  // What the Ready does to the count, and to the seats of ready players.
  lemma CountsAfterReady(l: Lobby, j: nat, first: u8)
    requires LobbyOK(l) && j < |l.conns|
    ensures var after, seat := ReadMessage(l, j, Ready(l.conns[j].id), first), l.seats[l.conns[j].id - 1];
            && after.numReady == (if seat == None then l.numReady else Wrap(l.numReady + 1))
            && ReadySeats(after) == ReadySeats(WithReady(l, j))
            && |ReadySeats(after)| == |ReadySeats(l)| + if seat == Some(j) && !l.conns[j].ready then 1 else 0
  {
    var read, i := WithReady(l, j), l.conns[j].id - 1;
    ReadyIsRead(l, j, first);
    assert forall k | 0 <= k < |l.seats| && k != i :: l.seats[k] != Some(j);
    ReadySeatsAfterRead(l, j, i);
    StartKeepsCount(read.(numReady := Wrap(read.numReady + 1)), first);
  }

  function WithReady(l: Lobby, j: nat): Lobby
    requires j < |l.conns|
  {
    l.(conns := l.conns[j := l.conns[j].(ready := true)])
  }

  lemma ReadyIsRead(l: Lobby, j: nat, first: u8)
    requires LobbyOK(l) && j < |l.conns|
    ensures var read := WithReady(l, j);
            ReadMessage(l, j, Ready(l.conns[j].id), first)
            == if l.seats[l.conns[j].id - 1] == None then read
               else StartIfReady(read.(numReady := Wrap(read.numReady + 1)), first)
  {
    SeatingKeepsSeats(l, WithReady(l, j));
    FoundAtOwnSeat(WithReady(l, j), j);
  }

  lemma WrapChanges(n: u8)
    ensures Wrap(n + 1) != n && (n < 0xFF ==> Wrap(n + 1) == n + 1)
  {
  }

  lemma ReadySeatsAfterRead(l: Lobby, j: nat, i: nat)
    requires j < |l.conns| && i < |l.seats|
    requires forall k | 0 <= k < |l.seats| && k != i :: l.seats[k] != Some(j)
    ensures |ReadySeats(WithReady(l, j))|
            == |ReadySeats(l)| + if l.seats[i] == Some(j) && !l.conns[j].ready then 1 else 0
  {
    var read := WithReady(l, j);
    if l.seats[i] == Some(j) && !l.conns[j].ready {
      assert ReadySeats(read) == ReadySeats(l) + {i};
    } else {
      assert ReadySeats(read) == ReadySeats(l);
    }
  }

  lemma StartKeepsCount(l: Lobby, first: u8)
    ensures StartIfReady(l, first).numReady == l.numReady && ReadySeats(StartIfReady(l, first)) == ReadySeats(l)
  {
  }

  // Two players, neither ready; the first one's Ready arrives twice: the game starts although
  // the second player never was ready, and may not even be alive.
  lemma SecondReadyStartsEarly(a: Conn, b: Conn, first: u8)
    requires a.id == 1 && b.id == 2 && a.connected && !a.ready && !b.ready
    ensures var l := Lobby(true, false, None, 2, 0, 2, [Some(0), Some(1)], [a, b]);
            var once := ReadMessage(l, 0, Ready(1), first);
            var twice := ReadMessage(once, 0, Ready(1), first);
            LobbyOK(l) && !once.isPlayingGame && twice.isPlayingGame && !twice.conns[1].ready
  {
    var l := Lobby(true, false, None, 2, 0, 2, [Some(0), Some(1)], [a, b]);
    assert Taken(l.seats) == {0, 1};
    assert SeatHasId(l, 0, 1);
    var read := l.(conns := l.conns[0 := a.(ready := true)]);
    assert SeatHasId(read, 0, 1) && FindPlayer(read, 1, 0) == 0;
    var once := ReadMessage(l, 0, Ready(1), first);
    assert once == read.(numReady := 1);
    assert once.conns[0 := once.conns[0].(ready := true)] == once.conns;
    assert SeatHasId(once, 0, 1) && FindPlayer(once, 1, 0) == 0;
  }

  // The first player timed out and somebody else got its seat and id. A read was still pending
  // on the old connection: its Ready counts for the newcomer, who is not ready.
  lemma LateReadyCountsForSuccessor(gone: Conn, c: Conn, first: u8)
    requires gone.id == 1 && c.id == 1 && !gone.connected && c.connected && !c.ready
    ensures var l := Lobby(true, false, None, 2, 0, 1, [Some(1), None], [gone, c]);
            var after := ReadMessage(l, 0, Ready(1), first);
            LobbyOK(l) && l.numReady == |ReadySeats(l)| && after.numReady == 1 && ReadySeats(after) == {}
  {
    var l := Lobby(true, false, None, 2, 0, 1, [Some(1), None], [gone, c]);
    assert Taken(l.seats) == {0};
    assert ReadySeats(l) == {};
    var read := l.(conns := l.conns[0 := gone.(ready := true)]);
    assert SeatHasId(read, 0, 1) && FindPlayer(read, 1, 0) == 0;
  }
}
