// What the pings are for: a connection whose client and server keep reading is never lost by its
// timer.
module Heartbeats {
  import opened Messages
  import opened Connections
  import opened Clients
  import opened Servers
  import opened Lifetimes
  import opened Links
  import opened Rooms
  import opened Protocol
  import opened Theorems
  import opened Departures
  import opened Pulses

  // What has yet to be read before the last ping of a connection is answered: `down` messages by
  // its client, namely what was in flight when it was pinged and the ping itself; once those are
  // read, `up` messages by the server, namely what the client had sent by then. `late` counts
  // the intervals that ended in a row without everything being read.
  datatype Debt = Debt(down: nat, up: nat, late: nat)

  predicate Paid(d: Debt) {
    d.down == 0 && d.up == 0
  }

  // Connection n is at this place.
  predicate IsAt(sys: System, at: Place, n: nat) {
    Present(sys, at) && ConnAt(sys.server, at).serial == n
  }

  function DebtAfter(sys: System, step: Step, n: nat, d: Debt): Debt {
    match step
    case Arrives => if n == sys.server.accepted then Debt(1, 0, 0) else d
    case TimerFires(at) =>
      if IsAt(sys, at, n) then Debt(|ConnAt(sys.server, at).out| + 1, 0, if Paid(d) then 0 else d.late + 1) else d
    case ClientReads(at) =>
      if IsAt(sys, at, n) && ConnAt(sys.server, at).out != [] && d.down > 0 then
        d.(down := d.down - 1,
           up := if d.down == 1 then |HandleRead(sys.clients[n], ConnAt(sys.server, at).out[0]).out| else 0)
      else
        d
    case ServerReads(at, first) =>
      if IsAt(sys, at, n) && CanServerRead(sys, at, first) && d.up > 0 then d.(up := d.up - 1) else d
    case _ => d
  }

  function DebtAlong(steps: seq<Step>, n: nat): Debt {
    if steps == [] then Debt(0, 0, 0)
    else
      var before := steps[..|steps| - 1];
      DebtAfter(Run(before), steps[|steps| - 1], n, DebtAlong(before, n))
  }

  // ---------------------------------------------------------------- one connection

  // The last ping is among the messages still owed, or its answer is, or was heard.
  predicate Owes(c: Conn, k: Client, d: Debt) {
    && c.missedPongs <= d.late
    && d.down <= |c.out| && Ping !in c.out[d.down..]
    && (if d.down == 0 then d.up <= |k.out| && Pong !in k.out[d.up..] else d.up == 0)
    && (c.receivedPong || Ping in c.out || Pong in k.out)
  }

  lemma PaidIsHeard(c: Conn, k: Client, d: Debt)
    requires Owes(c, k, d) && Paid(d)
    ensures c.receivedPong
  {
    assert c.out[0..] == c.out && k.out[0..] == k.out;
  }

  lemma ContinuingOwes(a: Conn, b: Conn, k: Client, d: Debt)
    requires Owes(a, k, d) && Continues(a, b) && b.connected
    ensures Owes(b, k, d)
  {
    assert b.out == a.out + b.out[|a.out|..];
    assert b.out[d.down..] == a.out[d.down..] + b.out[|a.out|..];
  }

  lemma DeliveryOwes(c: Conn, k: Client, d: Debt)
    requires Owes(c, k, d) && c.out != [] && k.mode != Crashed
    ensures var k' := HandleRead(k, c.out[0]);
            var d' := if d.down == 0 then d else d.(down := d.down - 1, up := if d.down == 1 then |k'.out| else 0);
            Owes(c.(out := c.out[1..]), k', d')
  {
    var k' := HandleRead(k, c.out[0]);
    assert k'.out == k.out + if c.out[0] == Ping then [Pong] else [];
    if d.down == 0 {
      assert c.out[0..] == c.out && k'.out == k.out;
    } else {
      assert c.out[1..][d.down - 1..] == c.out[d.down..];
      assert k'.out[|k'.out|..] == [];
    }
    assert c.out == [c.out[0]] + c.out[1..];
  }

  lemma ReadingOwes(a: Conn, b: Conn, k: Client, d: Debt)
    requires Owes(a, k, d) && Continues(a, b) && b.connected && k.out != []
    requires k.out[0] == Pong ==> b.receivedPong
    ensures Owes(b, TakeOff(k), if d.up > 0 then d.(up := d.up - 1) else d)
  {
    ContinuingOwes(a, b, k, d);
    assert k.out == [k.out[0]] + k.out[1..];
    if d.down == 0 {
      if d.up > 0 {
        assert k.out[1..][d.up - 1..] == k.out[d.up..];
      } else {
        assert k.out[0..] == k.out && k.out[1..][0..] == k.out[1..];
      }
    }
  }

  lemma TickOwes(a: Conn, b: Conn, k: Client, d: Debt)
    requires Owes(a, k, d) && Pinged(a, b)
    ensures Owes(b, k, Debt(|a.out| + 1, 0, if Paid(d) then 0 else d.late + 1))
  {
    if Paid(d) {
      PaidIsHeard(a, k, d);
    }
    assert b.out == a.out + [Ping];
    assert b.out[|a.out| + 1..] == [];
  }

  lemma AnswerOwes(c: Conn, k: Client, k': Client, d: Debt)
    requires Owes(c, k, d)
    requires k'.out == k.out || exists m :: m != Pong && k'.out == k.out + [m]
    ensures Owes(c, k', d)
  {
    if k'.out != k.out {
      var m :| m != Pong && k'.out == k.out + [m];
      if d.down == 0 {
        assert k'.out[d.up..] == k.out[d.up..] + [m];
      }
    }
  }

  lemma NewbornOwes(s: Server, c: Conn)
    requires Newborn(s, c)
    ensures Owes(c, NEW_CLIENT, Debt(1, 0, 0))
  {
  }

  // ---------------------------------------------------------------- every step

  ghost predicate OwesAnywhere(sys: System, n: nat, d: Debt) {
    forall at | IsAt(sys, at, n) && ConnAt(sys.server, at).connected :: Owes(ConnAt(sys.server, at), sys.clients[n], d)
  }

  // In a state in order, a connection is in one place, and its client is alive while it is.
  lemma OnlyThere(sys: System, at: Place)
    requires SystemOK(sys) && Occupied(sys.server, at)
    ensures var n := ConnAt(sys.server, at).serial;
            IsAt(sys, at, n) && n < sys.server.accepted && forall at' | IsAt(sys, at', n) :: at' == at
  {
    NamesAreUnique(sys.server, at);
  }

  lemma LivingClient(sys: System, at: Place)
    requires SystemOK(sys) && Occupied(sys.server, at) && ConnAt(sys.server, at).connected
    ensures ConnAt(sys.server, at).serial < |sys.clients|
    ensures sys.clients[ConnAt(sys.server, at).serial].mode != Crashed
  {
    if at.InLobby? {
      var l := sys.server.lobbies[at.i];
      assert RoomOK(l, sys.clients);
      OwnSeat(l, sys.clients, at.j);
      LinkGivesTrust(l.conns[at.j], sys.clients[l.conns[at.j].serial], l.game);
    } else {
      WaitingTrusts(sys, at.q);
    }
  }

  // A connection n that is at a place after an event and came there from another.
  lemma CameOwing(sys: System, step: Step, n: nat, d: Debt, at: Place, c: Conn)
    requires SystemOK(sys) && OwesAnywhere(sys, n, d) && InputOf(sys, step).Some?
    requires ComesFrom(sys.server, InputOf(sys, step).value, at, c) && c.connected && c.serial == n
    ensures n < |Next(sys, step).clients|
    ensures Owes(c, Next(sys, step).clients[n], DebtAfter(sys, step, n, d))
  {
    OnlyThere(sys, at);
    var s, a, k := sys.server, ConnAt(sys.server, at), sys.clients[n];
    ContinuingOwes(a, c, k, d);
    if step.ServerReads? && step.at == at {
      ReadingOwes(a, c, k, d);
    } else if step.ServerReads? || step.ClientReads? {
      OnlyThere(sys, step.at);
    }
  }

  lemma NextOwes(sys: System, step: Step, n: nat, d: Debt)
    requires SystemOK(sys) && OwesAnywhere(sys, n, d)
    ensures OwesAnywhere(Next(sys, step), n, DebtAfter(sys, step, n, d))
  {
    StepIsInput(sys, step);
    forall at | IsAt(Next(sys, step), at, n) && ConnAt(Next(sys, step).server, at).connected
      ensures Owes(ConnAt(Next(sys, step).server, at), Next(sys, step).clients[n], DebtAfter(sys, step, n, d))
    {
      if InputOf(sys, step).Some? {
        EventOwes(sys, step, n, d, at);
      } else {
        AnsweringOwes(sys, step, n, d, at);
      }
    }
  }

  lemma AnsweringOwes(sys: System, step: Step, n: nat, d: Debt, at: Place)
    requires SystemOK(sys) && OwesAnywhere(sys, n, d) && InputOf(sys, step).None?
    requires IsAt(Next(sys, step), at, n) && ConnAt(Next(sys, step).server, at).connected
    ensures Owes(ConnAt(Next(sys, step).server, at), Next(sys, step).clients[n], DebtAfter(sys, step, n, d))
  {
    var c, k, k' := ConnAt(sys.server, at), sys.clients[n], Next(sys, step).clients[n];
    if step.ClientReadies? && step.n == n {
      assert k'.out == k.out || k'.out == k.out + [Ready(k.playerId)];
    } else if step.ClientMoves? && step.n == n {
      assert k'.out == k.out || k'.out == k.out + [TurnMessage(k.playerId, step.column)];
    }
    AnswerOwes(c, k, k', d);
  }

  lemma EventOwes(sys: System, step: Step, n: nat, d: Debt, at: Place)
    requires SystemOK(sys) && OwesAnywhere(sys, n, d) && InputOf(sys, step).Some?
    requires Next(sys, step).server == Serve(sys.server, InputOf(sys, step).value)
    requires IsAt(Next(sys, step), at, n) && ConnAt(Next(sys, step).server, at).connected
    ensures Owes(ConnAt(Next(sys, step).server, at), Next(sys, step).clients[n], DebtAfter(sys, step, n, d))
  {
    var s, input, c := sys.server, InputOf(sys, step).value, ConnAt(Next(sys, step).server, at);
    EventsExplained(s, input, at);
    if from :| ComesFrom(s, input, from, c) {
      CameOwing(sys, step, n, d, from, c);
    } else if input.Timer? {
      OnlyThere(sys, input.at);
      TickOwes(ConnAt(s, input.at), c, sys.clients[n], d);
    } else if input.Delivered? {
      OnlyThere(sys, input.at);
      LivingClient(sys, input.at);
      DeliveryOwes(ConnAt(s, input.at), sys.clients[n], d);
    } else {
      NewbornOwes(s, c);
    }
  }

  lemma {:induction false} RunOwes(steps: seq<Step>, n: nat)
    ensures OwesAnywhere(Run(steps), n, DebtAlong(steps, n))
  {
    if steps != [] {
      var before := steps[..|steps| - 1];
      RunKeeps(before);
      RunOwes(before, n);
      NextOwes(Run(before), steps[|steps| - 1], n, DebtAlong(before, n));
    }
  }

  // ---------------------------------------------------------------- laws

  // Once everything owed was read, the server has heard the pong: the next tick will not count
  // the interval as missed.
  lemma PaidPingsAreHeard(steps: seq<Step>, n: nat, at: Place)
    requires IsAt(Run(steps), at, n) && ConnAt(Run(steps).server, at).connected && Paid(DebtAlong(steps, n))
    ensures ConnAt(Run(steps).server, at).receivedPong
    ensures var (c, event) := OnTimer(ConnAt(Run(steps).server, at));
            event != Lost && c.connected && c.missedPongs == 0
  {
    RunOwes(steps, n);
    PaidIsHeard(ConnAt(Run(steps).server, at), Run(steps).clients[n], DebtAlong(steps, n));
  }

  // The timer of connection n fires after these steps and loses it.
  ghost predicate TickLoses(steps: seq<Step>, at: Place, n: nat) {
    IsAt(Run(steps), at, n) && n in Disconnects(Run(steps).server, Timer(at))
  }

  // The timer loses a connection only at the end of a fourth interval in a row in which not
  // everything owed was read.
  lemma OnlyTheLateAreLost(steps: seq<Step>, at: Place, n: nat)
    requires TickLoses(steps, at, n)
    ensures DebtAlong(steps, n).late >= 3 && !Paid(DebtAlong(steps, n))
  {
    RunOwes(steps, n);
    TickLosesIt(Run(steps), at, n);
    LosingOwes(ConnAt(Run(steps).server, at), Run(steps).clients[n], DebtAlong(steps, n));
  }

  lemma TickLosesIt(sys: System, at: Place, n: nat)
    requires IsAt(sys, at, n) && n in Disconnects(sys.server, Timer(at))
    ensures OnTimer(ConnAt(sys.server, at)).1 == Lost && ConnAt(sys.server, at).connected
  {
  }

  lemma LosingOwes(c: Conn, k: Client, d: Debt)
    requires Owes(c, k, d) && OnTimer(c).1 == Lost
    ensures d.late >= 3 && !Paid(d)
  {
    if Paid(d) {
      PaidIsHeard(c, k, d);
    }
  }

  // The last step of the run is a tick of connection n's timer.
  predicate EndsWithTick(steps: seq<Step>, n: nat) {
    steps != []
    && var last := steps[|steps| - 1];
       last.TimerFires? && IsAt(Run(steps[..|steps| - 1]), last.at, n)
  }

  predicate Ticked(steps: seq<Step>, n: nat) {
    steps != [] && (EndsWithTick(steps, n) || Ticked(steps[..|steps| - 1], n))
  }

  // Between any two ticks of connection n's timer, its client reads what is in flight, and the
  // server reads what that client sent.
  predicate KeepsReading(steps: seq<Step>, n: nat) {
    steps != [] ==>
      var before := steps[..|steps| - 1];
      KeepsReading(before, n) && (EndsWithTick(steps, n) && Ticked(before, n) ==> Paid(DebtAlong(before, n)))
  }

  lemma LateGrows(steps: seq<Step>, n: nat)
    requires steps != []
    ensures var before := DebtAlong(steps[..|steps| - 1], n);
            DebtAlong(steps, n).late <=
            if !EndsWithTick(steps, n) then before.late else if Paid(before) then 0 else before.late + 1
  {
  }

  lemma {:induction false} ReadersAreNeverLate(steps: seq<Step>, n: nat)
    requires KeepsReading(steps, n)
    ensures DebtAlong(steps, n).late <= if Ticked(steps, n) then 1 else 0
  {
    if steps != [] {
      LateGrows(steps, n);
      ReadersAreNeverLate(steps[..|steps| - 1], n);
    }
  }

  // In every run in which they keep reading, the next tick does not lose the connection either.
  lemma ReadersAreNeverLost(steps: seq<Step>, n: nat, at: Place)
    requires KeepsReading(steps, n)
    ensures !TickLoses(steps, at, n)
  {
    ReadersAreNeverLate(steps, n);
    if TickLoses(steps, at, n) {
      OnlyTheLateAreLost(steps, at, n);
    }
  }
}
