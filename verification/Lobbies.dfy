// gamelobby.cpp: the state of a lobby and its handlers, as functions on values.
module Lobbies {
  import opened Bytes
  import opened Grids
  import opened Rules
  import opened Messages
  import opened Connections

  // `conns` holds every connection that was ever added, in order: the subscribers of the
  // lobby's signals, which are never disconnected. A seat (a slot of the C++ `players`
  // vector) holds the index of a connection, or None for a null pointer.
  datatype Lobby = Lobby(
    lobbyIsOpen: bool,
    isPlayingGame: bool,
    game: Option<Game>,
    maxPlayers: u8,
    numReady: u8,
    numPlayers: u8,
    seats: seq<Option<nat>>,
    conns: seq<Conn>
  )

  function StartedLobby(maxPlayers: u8): Lobby {
    Lobby(true, false, None, maxPlayers, 0, 0, seq(maxPlayers, _ => None), [])
  }

  predicate IsFull(l: Lobby) {
    l.numPlayers == l.maxPlayers
  }

  predicate AllPlayersAreReady(l: Lobby) {
    l.numReady == l.numPlayers
  }

  predicate CanAddPlayers(l: Lobby) {
    l.lobbyIsOpen && !l.isPlayingGame && !IsFull(l)
  }

  // ---------------------------------------------------------------- signals

  // gameStarted()
  function SignalGameStart(conns: seq<Conn>, numPlayers: u8, g: Game): (r: seq<Conn>)
    ensures |r| == |conns|
  {
    seq(|conns|, i requires 0 <= i < |conns| => OnGameStart(conns[i], numPlayers, g))
  }

  // gameEnded(winner)
  function SignalGameEnd(conns: seq<Conn>, winner: u8): (r: seq<Conn>)
    ensures |r| == |conns|
  {
    seq(|conns|, i requires 0 <= i < |conns| => OnGameEnd(conns[i], winner))
  }

  // takeTurn(player)
  function SignalTurn(conns: seq<Conn>, player: u8): (r: seq<Conn>)
    ensures |r| == |conns|
  {
    seq(|conns|, i requires 0 <= i < |conns| => OnTurn(conns[i], player))
  }

  // tookTurn(player, column, result)
  function SignalTurnResult(conns: seq<Conn>, player: u8, column: u8, result: TurnResult): (r: seq<Conn>)
    ensures |r| == |conns|
  {
    seq(|conns|, i requires 0 <= i < |conns| => OnUpdate(conns[i], player, column, result))
  }

  // ---------------------------------------------------------------- seats

  function Taken(seats: seq<Option<nat>>): set<nat> {
    set i: nat | i < |seats| && seats[i].Some?
  }

  // getFirstAvailableId: the first empty seat from i on, or the number of seats.
  function FirstFree(seats: seq<Option<nat>>, i: nat): (k: nat)
    requires i <= |seats|
    ensures i <= k <= |seats|
    ensures k < |seats| ==> seats[k].None?
    ensures forall m | i <= m < k :: seats[m].Some?
    decreases |seats| - i
  {
    if i == |seats| || seats[i].None? then i else FirstFree(seats, i + 1)
  }

  predicate SeatHasId(l: Lobby, i: nat, id: u8)
    requires i < |l.seats|
  {
    l.seats[i].Some? && l.seats[i].value < |l.conns| && l.conns[l.seats[i].value].id == id
  }

  // The find_if by id: the first seat from i on whose connection has the id, or the number
  // of seats.
  function FindPlayer(l: Lobby, id: u8, i: nat): (k: nat)
    requires i <= |l.seats|
    ensures i <= k <= |l.seats|
    ensures k < |l.seats| ==> SeatHasId(l, k, id)
    ensures forall m | i <= m < k :: !SeatHasId(l, m, id)
    decreases |l.seats| - i
  {
    if i == |l.seats| || SeatHasId(l, i, id) then i else FindPlayer(l, id, i + 1)
  }

  // ---------------------------------------------------------------- handlers

  // addPlayer: silently does nothing when players cannot be added. If they could be and no seat
  // were free, the C++ would index past its vector; LobbyInvariants.FreeSeatExists excludes that.
  function AddPlayer(l: Lobby, c: Conn): Lobby {
    var i := FirstFree(l.seats, 0);
    if !CanAddPlayers(l) || i == |l.seats| then l
    else
      l.(seats := l.seats[i := Some(|l.conns|)],
         conns := l.conns + [SetId(c, Wrap(i + 1))],
         numPlayers := Wrap(l.numPlayers + 1))
  }

  function StartGame(l: Lobby): Lobby
    requires l.game.Some?
  {
    if l.lobbyIsOpen && !l.isPlayingGame then
      var g := l.game.value;
      l.(isPlayingGame := true,
         conns := SignalTurn(SignalGameStart(l.conns, l.numPlayers, g), g.currentPlayer))
    else
      l
  }

  function OnGameOver(l: Lobby): Lobby
    requires l.game.Some?
  {
    l.(conns := SignalGameEnd(l.conns, l.game.value.winner),
       game := None,
       isPlayingGame := false,
       numReady := 0)
  }

  // The game a lobby creates: as many players as it has seats, on the smallest board.
  function LobbyGame(maxPlayers: u8, first: u8): Game {
    NewGame(maxPlayers, first, MIN_COLUMNS, MIN_ROWS).value
  }

  // `first` is the randomly picked first player.
  function OnReady(l: Lobby, id: u8, first: u8): Lobby {
    CountIfSeated(l, FindPlayer(l, id, 0) < |l.seats|, first)
  }

  function CountIfSeated(l: Lobby, seated: bool, first: u8): Lobby {
    if seated then StartIfReady(l.(numReady := Wrap(l.numReady + 1)), first) else l
  }

  function StartIfReady(l: Lobby, first: u8): Lobby {
    if AllPlayersAreReady(l) && IsFull(l) then
      StartGame(l.(game := Some(LobbyGame(l.maxPlayers, first))))
    else
      l
  }

  function OnTakeTurn(l: Lobby, id: u8, column: u8): Lobby
    requires l.isPlayingGame ==> l.game.Some?
  {
    if !l.isPlayingGame then
      l.(conns := SignalTurnResult(l.conns, id, column, Error))
    else
      var (g, result) := TakeTurn(l.game.value, id, column);
      AfterTurn(l.(game := Some(g), conns := SignalTurnResult(l.conns, id, column, result)), result)
  }

  // Once everybody was told: the game is over, or the next player is asked.
  function AfterTurn(l: Lobby, result: TurnResult): Lobby
    requires l.game.Some?
  {
    if Over(l.game.value) then OnGameOver(l)
    else if result == Success then l.(conns := SignalTurn(l.conns, l.game.value.currentPlayer))
    else l
  }

  // The second result says whether lobbyAvailable was raised, the handler's last action.
  function OnDisconnect(l: Lobby, id: u8): (Lobby, bool)
    requires l.isPlayingGame ==> l.game.Some?
  {
    var i := FindPlayer(l, id, 0);
    if i == |l.seats| then (l, false)
    else
      var wasReady := l.conns[l.seats[i].value].ready;
      var left := l.(
        numReady := if wasReady && l.numReady > 0 then Wrap(l.numReady - 1) else l.numReady,
        seats := l.seats[i := None],
        numPlayers := if l.numPlayers > 0 then Wrap(l.numPlayers - 1) else l.numPlayers);
      var after := if left.isPlayingGame then OnGameOver(left) else left;
      (after, CanAddPlayers(after))
  }

  // ---------------------------------------------------------------- events at a connection

  // Connection j reads a message; the signal it raises is handled by the lobby.
  function ReadMessage(l: Lobby, j: nat, m: Message, first: u8): Lobby
    requires j < |l.conns| && (l.isPlayingGame ==> l.game.Some?)
  {
    var (c, event) := OnRead(l.conns[j], m);
    var read := l.(conns := l.conns[j := c]);
    match event
    case Readied => OnReady(read, c.id, first)
    case TookTurn(column) => OnTakeTurn(read, c.id, column)
    case _ => read
  }

  // The outcome of a handler that may have disconnected connection j.
  function AfterEvent(l: Lobby, j: nat, outcome: (Conn, Event)): (Lobby, bool)
    requires j < |l.conns| && (l.isPlayingGame ==> l.game.Some?)
  {
    var after := l.(conns := l.conns[j := outcome.0]);
    if outcome.1 == Lost then OnDisconnect(after, outcome.0.id) else (after, false)
  }

  function ReadFails(l: Lobby, j: nat): (Lobby, bool)
    requires j < |l.conns| && (l.isPlayingGame ==> l.game.Some?)
  {
    AfterEvent(l, j, HandleDisconnect(l.conns[j]))
  }

  function TimerFires(l: Lobby, j: nat): (Lobby, bool)
    requires j < |l.conns| && (l.isPlayingGame ==> l.game.Some?)
  {
    AfterEvent(l, j, OnTimer(l.conns[j]))
  }

  // ---------------------------------------------------------------- invariants

  // numPlayers counts the taken seats; the connection in seat i has id i + 1; a connection
  // that is still connected sits in the seat of its id.
  ghost predicate SeatsOK(l: Lobby) {
    l.maxPlayers >= 2 && |l.seats| == l.maxPlayers
    && l.numPlayers == |Taken(l.seats)|
    && (forall j | 0 <= j < |l.conns| :: 1 <= l.conns[j].id <= l.maxPlayers)
    && (forall i | 0 <= i < |l.seats| && l.seats[i].Some? ::
          l.seats[i].value < |l.conns| && l.conns[l.seats[i].value].id == i + 1)
    && (forall j {:trigger l.conns[j].connected} | 0 <= j < |l.conns| && l.conns[j].connected ::
          l.seats[l.conns[j].id - 1] == Some(j))
  }

  // A lobby that plays is full and has a game in progress.
  ghost predicate PlayOK(l: Lobby) {
    l.lobbyIsOpen
    && (l.isPlayingGame <==> l.game.Some?)
    && (l.isPlayingGame ==> IsFull(l) && InProgress(l.game.value, l.maxPlayers))
  }

  ghost predicate InProgress(g: Game, players: u8) {
    Sound(g) && Settled(g) && !Over(g) && g.numPlayers == players && |g.stacks| == MIN_COLUMNS && g.rows == MIN_ROWS
  }

  ghost predicate LobbyOK(l: Lobby) {
    SeatsOK(l) && PlayOK(l)
  }
}
