// A client whose connection is gone at the server's end still reads what was sent to it before.
// It is not misled either.
module Departures {
  import opened Bytes
  import opened Rules
  import opened Messages
  import opened Connections
  import opened Clients
  import opened Servers
  import opened Lifetimes
  import opened Links
  import opened Rooms
  import opened Protocol
  import opened Theorems

  // Nothing in flight to the client can mislead it: it is only told its id, or nothing, or
  // what its replica can follow.
  predicate Trusted(c: Conn, k: Client) {
    k.mode != Crashed
    && (|| Sift(c.out) == []
        || Sift(c.out) == [Connected(c.id)]
        || (k.playerId == c.id && Sync(k.game, c.id, c.out).Some?))
  }

  // The clients of all members that are gone can trust what is still in flight.
  ghost predicate DepartedOK(sys: System) {
    forall i: nat, j: nat | Occupied(sys.server, InLobby(i, j)) ::
      LeftInOrder(sys.server.lobbies[i].conns[j], sys.clients)
  }

  predicate LeftInOrder(c: Conn, clients: ClientTable) {
    !c.connected ==> c.serial < |clients| && Trusted(c, clients[c.serial])
  }

  // ---------------------------------------------------------------- one link

  lemma LinkGivesTrust(c: Conn, k: Client, game: Option<Game>)
    requires LinkOK(LinkOf(c, k), c.id, game)
    ensures Trusted(c, k)
  {
    SyncSift(k.game, c.id, c.out);
  }

  lemma DeliveryKeepsTrust(c: Conn, k: Client)
    requires Trusted(c, k) && c.out != []
    ensures Trusted(c.(out := c.out[1..]), HandleRead(k, c.out[0]))
  {
    var m, down := c.out[0], Sift(c.out);
    if down != [] && !Noise(m) {
      assert down[0] == m && down[1..] == Sift(c.out[1..]);
    }
  }

  // Whatever a trusting client reads next, it can follow.
  lemma TrustPays(c: Conn, k: Client)
    requires Trusted(c, k) && c.out != []
    ensures Follows(k, c.out[0])
  {
    var m, down := c.out[0], Sift(c.out);
    if down != [] && !Noise(m) {
      assert down[0] == m;
    }
  }

  // ---------------------------------------------------------------- everybody

  lemma MemberTrusts(sys: System, i: nat, j: nat)
    requires SystemOK(sys) && DepartedOK(sys) && Occupied(sys.server, InLobby(i, j))
    ensures var c := sys.server.lobbies[i].conns[j];
            c.id != 0 && c.serial < |sys.clients| && Trusted(c, sys.clients[c.serial])
  {
    var l := sys.server.lobbies[i];
    assert RoomOK(l, sys.clients);
    if l.conns[j].connected {
      OwnSeat(l, sys.clients, j);
      LinkGivesTrust(l.conns[j], sys.clients[l.conns[j].serial], l.game);
    } else {
      assert LeftInOrder(l.conns[j], sys.clients);
    }
  }

  lemma WaitingTrusts(sys: System, q: nat)
    requires SystemOK(sys) && q < |sys.server.queue|
    ensures var c := sys.server.queue[q];
            c.serial < |sys.clients| && Sift(c.out) == [] && Trusted(c, sys.clients[c.serial])
  {
    assert Fresh(sys.server.queue[q], sys.clients);
  }

  // Replicas and ids are the same, and nobody crashed.
  predicate SameReplicas(a: ClientTable, b: ClientTable) {
    |a| <= |b|
    && forall n | 0 <= n < |a| ::
         b[n].game == a[n].game && b[n].playerId == a[n].playerId && (b[n].mode == Crashed ==> a[n].mode == Crashed)
  }

  // ---------------------------------------------------------------- every step

  lemma ServerKeepsDeparted(sys: System, input: Input, clients: ClientTable)
    requires SystemOK(sys) && DepartedOK(sys) && !input.Delivered? && SameReplicas(sys.clients, clients)
    ensures DepartedOK(System(Serve(sys.server, input), clients))
  {
    var s, t := sys.server, Serve(sys.server, input);
    MemberEvents(s, input);
    forall i: nat, j: nat | Occupied(t, InLobby(i, j)) ensures LeftInOrder(t.lobbies[i].conns[j], clients) {
      assert JoinedProperly(s, input, t, i, j);
      var c := t.lobbies[i].conns[j];
      if Occupied(s, InLobby(i, j)) {
        MemberTrusts(sys, i, j);
        StillTrusts(s.lobbies[i].conns[j], c, sys.clients, clients);
      } else if !c.connected {
        WaitingTrusts(sys, 0);
      }
    }
  }

  lemma StillTrusts(a: Conn, b: Conn, clients: ClientTable, after: ClientTable)
    requires Ages(a, b) && HearsNothing(a, b) && a.id != 0 && SameReplicas(clients, after)
    requires a.serial < |clients| && Trusted(a, clients[a.serial])
    ensures LeftInOrder(b, after)
  {
  }

  lemma DeliveryKeepsDeparted(sys: System, at: Place)
    requires SystemOK(sys) && DepartedOK(sys) && Present(sys, at) && ConnAt(sys.server, at).out != []
    ensures DepartedOK(Next(sys, ClientReads(at)))
  {
    var s, after := sys.server, Next(sys, ClientReads(at));
    var t := after.server;
    forall i: nat, j: nat | Occupied(t, InLobby(i, j)) ensures LeftInOrder(t.lobbies[i].conns[j], after.clients) {
      DeliveryKeepsMember(sys, at, i, j);
    }
  }

  lemma DeliveryKeepsMember(sys: System, at: Place, i: nat, j: nat)
    requires SystemOK(sys) && DepartedOK(sys) && Present(sys, at) && ConnAt(sys.server, at).out != []
    requires Occupied(sys.server, InLobby(i, j))
    ensures var after := Next(sys, ClientReads(at));
            Occupied(after.server, InLobby(i, j)) && LeftInOrder(after.server.lobbies[i].conns[j], after.clients)
  {
    NamesAreUnique(sys.server, at);
    MemberTrusts(sys, i, j);
    if at == InLobby(i, j) {
      DeliveryKeepsTrust(sys.server.lobbies[i].conns[j], sys.clients[sys.server.lobbies[i].conns[j].serial]);
    }
  }

  lemma NextKeepsDeparted(sys: System, step: Step)
    requires SystemOK(sys) && DepartedOK(sys)
    ensures DepartedOK(Next(sys, step))
  {
    StepIsInput(sys, step);
    if step.ClientReads? {
      if InputOf(sys, step).Some? {
        DeliveryKeepsDeparted(sys, step.at);
      }
    } else {
      assert SameReplicas(sys.clients, Next(sys, step).clients);
      if InputOf(sys, step).Some? {
        ServerKeepsDeparted(sys, InputOf(sys, step).value, Next(sys, step).clients);
      }
    }
  }

  lemma {:induction false} RunKeepsDeparted(steps: seq<Step>)
    ensures DepartedOK(Run(steps))
  {
    if steps != [] {
      RunKeeps(steps[..|steps| - 1]);
      RunKeepsDeparted(steps[..|steps| - 1]);
      NextKeepsDeparted(Run(steps[..|steps| - 1]), steps[|steps| - 1]);
    }
  }

  // No client ever crashes, replays a failing turn or is told a winner that is not its own:
  // not while it plays, not while it waits, and not after the server gave it up.
  lemma NoClientIsMisled(sys: System, at: Place)
    requires Reachable(sys) && Occupied(sys.server, at) && ConnAt(sys.server, at).out != []
    ensures ConnAt(sys.server, at).serial < |sys.clients|
    ensures Follows(sys.clients[ConnAt(sys.server, at).serial], ConnAt(sys.server, at).out[0])
  {
    var steps :| sys == Run(steps);
    RunKeeps(steps);
    RunKeepsDeparted(steps);
    if at.InLobby? {
      MemberTrusts(sys, at.i, at.j);
    } else {
      WaitingTrusts(sys, at.q);
    }
    TrustPays(ConnAt(sys.server, at), sys.clients[ConnAt(sys.server, at).serial]);
  }
}
