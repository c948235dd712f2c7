// server.cpp: seating accepted connections in lobbies or in the queue.
module Servers {
  import opened Bytes
  import opened Rules
  import opened Messages
  import opened Connections
  import opened Lobbies

  const MAX_LOBBIES: nat := 4

  // `accepted` counts the connections accepted so far and is the serial of the next one.
  datatype Server = Server(lobbies: seq<Lobby>, queue: seq<Conn>, lastQueueSize: nat, accepted: nat)

  const EMPTY_SERVER := Server([], [], 0, 0)

  // Where a connection is: among those ever added to lobby i, or in the queue.
  datatype Place = InLobby(i: nat, j: nat) | InLine(q: nat)

  predicate Occupied(s: Server, at: Place) {
    match at
    case InLobby(i, j) => i < |s.lobbies| && j < |s.lobbies[i].conns|
    case InLine(q) => q < |s.queue|
  }

  function ConnAt(s: Server, at: Place): Conn
    requires Occupied(s, at)
  {
    match at
    case InLobby(i, j) => s.lobbies[i].conns[j]
    case InLine(q) => s.queue[q]
  }

  function WithConn(s: Server, at: Place, c: Conn): Server
    requires Occupied(s, at)
  {
    match at
    case InLobby(i, j) => s.(lobbies := s.lobbies[i := s.lobbies[i].(conns := s.lobbies[i].conns[j := c])])
    case InLine(q) => s.(queue := s.queue[q := c])
  }

  // findAvailableLobby: the first lobby from i on that is not full, or the number of lobbies.
  function FindAvailableLobby(lobbies: seq<Lobby>, i: nat): (k: nat)
    requires i <= |lobbies|
    ensures i <= k <= |lobbies|
    ensures k < |lobbies| ==> !IsFull(lobbies[k])
    ensures forall m | i <= m < k :: IsFull(lobbies[m])
    decreases |lobbies| - i
  {
    if i == |lobbies| || !IsFull(lobbies[i]) then i else FindAvailableLobby(lobbies, i + 1)
  }

  function OnConnectionAccepted(s: Server, c: Conn): Server {
    SeatOrQueue(s.(accepted := s.accepted + 1), OnAccept(c))
  }

  function SeatOrQueue(s: Server, c: Conn): Server {
    var k := FindAvailableLobby(s.lobbies, 0);
    if k < |s.lobbies| then
      s.(lobbies := s.lobbies[k := AddPlayer(s.lobbies[k], c)])
    else if |s.lobbies| < MAX_LOBBIES then
      s.(lobbies := s.lobbies + [AddPlayer(StartedLobby(MIN_NUM_PLAYERS), c)])
    else
      s.(queue := s.queue + [NotifyQueuePosition(c, |s.queue| + 1)])
  }

  function OnLobbyAvailable(s: Server, i: nat): Server
    requires i < |s.lobbies|
  {
    if s.queue != [] then
      s.(lobbies := s.lobbies[i := AddPlayer(s.lobbies[i], s.queue[0])], queue := s.queue[1..])
    else
      s
  }

  // A lobby handled a loss, and possibly raised lobbyAvailable as its last action.
  function AfterLoss(s: Server, i: nat, outcome: (Lobby, bool)): Server
    requires i < |s.lobbies|
  {
    var handled := s.(lobbies := s.lobbies[i := outcome.0]);
    if outcome.1 then OnLobbyAvailable(handled, i) else handled
  }

  // playerQueue.remove_if(not alive)
  function Alive(queue: seq<Conn>): seq<Conn> {
    if queue == [] then []
    else Alive(queue[..|queue| - 1]) + if queue[|queue| - 1].connected then [queue[|queue| - 1]] else []
  }

  function NotifyAll(queue: seq<Conn>): (r: seq<Conn>)
    ensures |r| == |queue|
  {
    seq(|queue|, i requires 0 <= i < |queue| => NotifyQueuePosition(queue[i], i + 1))
  }

  function UpdateQueuePositions(s: Server): Server {
    var alive := Alive(s.queue);
    var size := |alive|;
    var delta := if size > s.lastQueueSize then size - s.lastQueueSize else s.lastQueueSize - size;
    s.(queue := if size > 0 && (size < 10 || delta >= 10) then NotifyAll(alive) else alive,
       lastQueueSize := size)
  }

  // ---------------------------------------------------------------- events

  // Everything that can happen to the server. Messages are arbitrary here, whoever sent them.
  // Delivered is the client taking the oldest message off the wire.
  datatype Input =
    | Arrival
    | Reads(at: Place, m: Message, first: u8)
    | ReadError(at: Place)
    | Timer(at: Place)
    | Delivered(at: Place)
    | QueueTimer

  predicate GamesPresent(s: Server) {
    forall i | 0 <= i < |s.lobbies| :: s.lobbies[i].isPlayingGame ==> s.lobbies[i].game.Some?
  }

  // Inputs for a place where no connection is have no effect. A lobby that plays without a game
  // would crash the server, so nothing happens after that; ServerInvariants excludes it.
  function Serve(s: Server, input: Input): Server {
    if !GamesPresent(s) then s else ServeInput(s, input)
  }

  function ServeInput(s: Server, input: Input): Server
    requires GamesPresent(s)
  {
    match input
    case Arrival => OnConnectionAccepted(s, NewConn(s.accepted))
    case QueueTimer => UpdateQueuePositions(s)
    case Reads(at, m, first) => if Occupied(s, at) then ServeRead(s, at, m, first) else s
    case ReadError(at) => if Occupied(s, at) then ServeLoss(s, at, HandleDisconnect(ConnAt(s, at))) else s
    case Timer(at) => if Occupied(s, at) then ServeLoss(s, at, OnTimer(ConnAt(s, at))) else s
    case Delivered(at) =>
      if Occupied(s, at) && ConnAt(s, at).out != [] then
        var c := ConnAt(s, at);
        WithConn(s, at, c.(out := c.out[1..]))
      else
        s
  }

  // Nobody listens to the signals of a connection in the queue.
  function ServeRead(s: Server, at: Place, m: Message, first: u8): Server
    requires GamesPresent(s) && Occupied(s, at)
  {
    match at
    case InLobby(i, j) => s.(lobbies := s.lobbies[i := ReadMessage(s.lobbies[i], j, m, first)])
    case InLine(q) => WithConn(s, at, OnRead(s.queue[q], m).0)
  }

  function ServeLoss(s: Server, at: Place, outcome: (Conn, Event)): Server
    requires GamesPresent(s) && Occupied(s, at)
  {
    match at
    case InLobby(i, j) => AfterLoss(s, i, AfterEvent(s.lobbies[i], j, outcome))
    case InLine(q) => WithConn(s, at, outcome.0)
  }
}
