// connection.cpp: the server's end of one client connection.
module Connections {
  import opened Bytes
  import opened Rules
  import opened Messages

  const MAX_MISSED_PONGS: u8 := 3

  // The serial number names the connection object: connections are numbered as accepted.
  // `out` holds the messages written to the socket and not yet read by the client.
  datatype Conn = Conn(
    serial: nat,
    id: u8,
    connected: bool,
    ready: bool,
    receivedPong: bool,
    missedPongs: u8,
    out: seq<Message>
  )

  // The signals a connection raises towards its lobby.
  datatype Event = Nothing | Readied | TookTurn(column: u8) | Lost

  function NewConn(serial: nat): Conn {
    Conn(serial, 0, true, false, false, 0, [])
  }

  function Send(c: Conn, m: Message): Conn {
    if c.connected then c.(out := c.out + [m]) else c
  }

  // Only the first id sticks.
  function SetId(c: Conn, id: u8): Conn {
    if c.id == 0 then Send(c.(id := id), Connected(id)) else c
  }

  function NotifyQueuePosition(c: Conn, position: nat): Conn {
    Send(c, InQueue(position))
  }

  function OnGameStart(c: Conn, numPlayers: u8, g: Game): Conn {
    Send(c, GameStart(numPlayers, Wrap(|g.stacks|), g.rows, g.currentPlayer))
  }

  function OnGameEnd(c: Conn, winner: u8): Conn {
    Send(c.(ready := false), GameEnd(winner))
  }

  function OnTurn(c: Conn, player: u8): Conn {
    if player == c.id then Send(c, TurnMessage(player, MINUS_ONE)) else c
  }

  function OnUpdate(c: Conn, player: u8, column: u8, result: TurnResult): Conn {
    if player != c.id then
      if result == Success then Send(c, Update(player, column)) else c
    else
      Send(c, ResultMessage(result, column))
  }

  function SendPing(c: Conn): Conn {
    Send(c.(receivedPong := false), Ping)
  }

  // onAccept starts the pings.
  function OnAccept(c: Conn): Conn {
    SendPing(c)
  }

  // onReadSocket without an error.
  function OnRead(c: Conn, m: Message): (Conn, Event) {
    match m
    case Ready(id) => if id == c.id then (c.(ready := true), Readied) else (c, Nothing)
    case TurnMessage(id, column) => if id == c.id && column != MINUS_ONE then (c, TookTurn(column)) else (c, Nothing)
    case Pong => (c.(receivedPong := true), Nothing)
    case _ => (c, Nothing)
  }

  function HandleDisconnect(c: Conn): (Conn, Event) {
    if c.connected then (c.(connected := false), Lost) else (c, Nothing)
  }

  // pingOnTimer without an error.
  function OnTimer(c: Conn): (Conn, Event) {
    if !c.connected then
      (c, Nothing)
    else if c.receivedPong then
      (SendPing(c.(missedPongs := 0)), Nothing)
    else
      var missed := c.(missedPongs := Wrap(c.missedPongs + 1));
      if missed.missedPongs > MAX_MISSED_PONGS then HandleDisconnect(missed) else (SendPing(missed), Nothing)
  }

  // ---------------------------------------------------------------- ids and signals

  // The first id is the client's for good, and is told once.
  lemma IdIsForLife(c: Conn, id: u8, another: u8)
    requires c.id == 0 && c.connected && id != 0
    ensures SetId(c, id) == c.(id := id, out := c.out + [Connected(id)])
    ensures SetId(SetId(c, id), another) == SetId(c, id)
  {
  }

  // A message raises a signal exactly if it is a ready or a move that carries the connection's
  // own id, and it is no move to column -1. It sets a flag exactly if it is a pong or an own
  // ready. Nothing else changes.
  lemma OnlyOwnMessagesSignal(c: Conn, m: Message)
    ensures var (after, event) := OnRead(c, m);
            && (event == Readied <==> m == Ready(c.id))
            && (forall column :: event == TookTurn(column) <==> m == TurnMessage(c.id, column) && column != 0xFF)
            && event != Lost
            && after == c.(ready := c.ready || m == Ready(c.id), receivedPong := c.receivedPong || m == Pong)
  {
  }

  // ---------------------------------------------------------------- heartbeat

  datatype Beat = Tick | PongRead

  function Beats(c: Conn, beats: seq<Beat>): Conn {
    if beats == [] then c
    else
      var before := Beats(c, beats[..|beats| - 1]);
      if beats[|beats| - 1] == Tick then OnTimer(before).0 else OnRead(before, Pong).0
  }

  // For every interval that a tick has ended, whether a pong was read in it; and whether one
  // was read since the last tick.
  datatype Intervals = Intervals(ended: seq<bool>, heard: bool)

  function Listen(beats: seq<Beat>): Intervals {
    if beats == [] then Intervals([], false)
    else
      var before := Listen(beats[..|beats| - 1]);
      if beats[|beats| - 1] == Tick then Intervals(before.ended + [before.heard], false)
      else before.(heard := true)
  }

  // Four consecutive intervals without a pong, the first of them interval i.
  predicate SilentFrom(ended: seq<bool>, i: int) {
    0 <= i < |ended| - 3 && !ended[i] && !ended[i + 1] && !ended[i + 2] && !ended[i + 3]
  }

  ghost predicate FourSilent(ended: seq<bool>) {
    exists i :: SilentFrom(ended, i)
  }

  // The number of silent intervals at the end.
  function Trailing(ended: seq<bool>): nat {
    if ended == [] || ended[|ended| - 1] then 0 else 1 + Trailing(ended[..|ended| - 1])
  }

  // A connection is declared lost exactly when some four consecutive intervals were silent,
  // hence at the tick that ends the first such four.
  lemma {:induction false} LostAfterFourSilentIntervals(serial: nat, beats: seq<Beat>)
    ensures Beats(OnAccept(NewConn(serial)), beats).connected <==> !FourSilent(Listen(beats).ended)
  {
    HeartbeatState(OnAccept(NewConn(serial)), beats);
  }

  // The intervals that ended with the connection still there: each of them is followed by a ping.
  ghost function Survived(ended: seq<bool>): nat {
    if ended == [] then 0 else Survived(ended[..|ended| - 1]) + if FourSilent(ended) then 0 else 1
  }

  // A tick either loses the connection, without a word to it, or pings it once.
  lemma TickPingsOrLoses(c: Conn)
    requires c.connected
    ensures var (after, event) := OnTimer(c);
            && (event == Lost || event == Nothing)
            && after.connected == (event != Lost)
            && after.out == if event == Lost then c.out else c.out + [Ping]
    ensures OnTimer(c).1 == Lost <==> !c.receivedPong && Wrap(c.missedPongs + 1) > 3
  {
  }

  // Everything a connection is sent by its heartbeat: a ping when it is accepted, and one for
  // every tick that did not find it lost.
  lemma {:induction false} PingsForSurvivedIntervals(serial: nat, beats: seq<Beat>)
    ensures Beats(OnAccept(NewConn(serial)), beats).out == seq(1 + Survived(Listen(beats).ended), _ => Ping)
  {
    if beats != [] {
      PingsForSurvivedIntervals(serial, beats[..|beats| - 1]);
      LostAfterFourSilentIntervals(serial, beats);
      BeatPings(OnAccept(NewConn(serial)), beats);
      OneMoreInterval(beats);
    }
  }

  lemma BeatPings(c: Conn, beats: seq<Beat>)
    requires beats != []
    ensures var now, before := Beats(c, beats), Beats(c, beats[..|beats| - 1]);
            now.out == before.out + if beats[|beats| - 1] == Tick && now.connected then [Ping] else []
  {
  }

  lemma OneMoreInterval(beats: seq<Beat>)
    requires beats != []
    ensures var ended, before := Listen(beats).ended, Listen(beats[..|beats| - 1]).ended;
            Survived(ended) == Survived(before) + if beats[|beats| - 1] == Tick && !FourSilent(ended) then 1 else 0
  {
    var before := Listen(beats[..|beats| - 1]);
    assert (before.ended + [before.heard])[..|before.ended|] == before.ended;
  }

  // What the two heartbeat fields record about the intervals so far.
  ghost predicate Records(now: Conn, heard: Intervals) {
    (now.connected <==> !FourSilent(heard.ended))
    && (now.connected ==> now.receivedPong == heard.heard && now.missedPongs == Trailing(heard.ended) <= 3)
  }

  lemma {:induction false} HeartbeatState(c: Conn, beats: seq<Beat>)
    requires c.connected && !c.receivedPong && c.missedPongs == 0
    ensures Records(Beats(c, beats), Listen(beats))
  {
    if beats != [] {
      var before := beats[..|beats| - 1];
      HeartbeatState(c, before);
      if beats[|beats| - 1] == Tick {
        TickRecorded(Beats(c, before), Listen(before));
      }
    }
  }

  lemma TickRecorded(now: Conn, heard: Intervals)
    requires Records(now, heard)
    ensures Records(OnTimer(now).0, Intervals(heard.ended + [heard.heard], false))
  {
    SilenceGrows(heard.ended, heard.heard);
  }

  lemma SilenceGrows(ended: seq<bool>, heard: bool)
    ensures FourSilent(ended + [heard]) <==> FourSilent(ended) || (!heard && Trailing(ended) >= 3)
    ensures Trailing(ended + [heard]) == if heard then 0 else Trailing(ended) + 1
  {
    var longer, n := ended + [heard], |ended|;
    assert longer[..n] == ended;
    TrailingThree(ended);
    forall i ensures SilentFrom(longer, i) <==> SilentFrom(ended, i) || (i == n - 3 && SilentFrom(longer, n - 3)) {}
    assert SilentFrom(longer, n - 3) <==> !heard && Trailing(ended) >= 3;
  }

  lemma TrailingThree(ended: seq<bool>)
    ensures Trailing(ended) >= 3 <==>
            var n := |ended|; n >= 3 && !ended[n - 1] && !ended[n - 2] && !ended[n - 3]
  {
    var n := |ended|;
    if n >= 3 {
      assert ended[..n - 1][..n - 2] == ended[..n - 2];
      assert ended[..n - 2][..n - 3] == ended[..n - 3];
      assert Trailing(ended[..n - 2]) >= 1 <==> !ended[n - 3];
      assert Trailing(ended[..n - 1]) >= 2 <==> !ended[n - 2] && Trailing(ended[..n - 2]) >= 1;
    } else {
      assert Trailing(ended) <= n by { TrailingBound(ended); }
    }
  }

  lemma {:induction false} TrailingBound(ended: seq<bool>)
    ensures Trailing(ended) <= |ended|
  {
    if ended != [] {
      TrailingBound(ended[..|ended| - 1]);
    }
  }
}
