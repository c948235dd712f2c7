// gamelobby.cpp as an object that its handlers update.
module LobbyObjects {
  import opened Bytes
  import opened Grids
  import opened Rules
  import opened Messages
  import opened Games
  import C = Connections
  import opened ConnectionObjects
  import L = Lobbies

  class GameLobby {
    const maxPlayers: u8
    const players: array<Connection?>
    var lobbyIsOpen: bool
    var isPlayingGame: bool
    var game: FourAcross?
    var numReady: u8
    var numPlayers: u8
    // The slots of the lobby's four signals, in the order in which they were connected.
    var subscribers: seq<Connection>

    // Which subscriber each slot of `players` points to.
    ghost var seats: seq<Option<nat>>

    ghost function Repr(): set<object>
      reads this
    {
      {this, players} + (set c | c in subscribers) + if game != null then game.Repr() else {}
    }

    // The object graph is as expected. What the fields say is kept in order too: the handlers
    // are equal to functions of module Lobbies, and module LobbyInvariants is about those.
    ghost predicate Valid()
      reads this, Repr()
    {
      players.Length == maxPlayers == |seats|
      && (forall i, j | 0 <= i < j < |subscribers| :: subscribers[i] != subscribers[j])
      && (forall i | 0 <= i < |seats| ::
            seats[i].None? || seats[i].value < |subscribers|)
      && (forall i | 0 <= i < |seats| ::
            players[i] == if seats[i].None? then null else subscribers[seats[i].value])
      && (game != null ==> game.Valid() && game.Repr() !! {this, players} + set c | c in subscribers)
    }

    ghost function Conns(): (r: seq<C.Conn>)
      reads this, subscribers
      ensures |r| == |subscribers|
    {
      seq(|subscribers|, i requires 0 <= i < |subscribers| reads this, subscribers => subscribers[i].View())
    }

    ghost function View(): L.Lobby
      reads this, Repr()
    {
      L.Lobby(lobbyIsOpen, isPlayingGame, if game != null then Some(game.View()) else None,
              maxPlayers, numReady, numPlayers, seats, Conns())
    }

    constructor (maxPlayers: u8)
      ensures Valid() && fresh(Repr())
      ensures View() == L.StartedLobby(maxPlayers).(lobbyIsOpen := false)
    {
      this.maxPlayers := maxPlayers;
      players := new Connection?[maxPlayers](_ => null);
      lobbyIsOpen := false;
      isPlayingGame := false;
      game := null;
      numReady := 0;
      numPlayers := 0;
      subscribers := [];
      seats := seq(maxPlayers, _ => None);
      new;
      assert seats == L.StartedLobby(maxPlayers).seats;
    }

    method Start()
      requires Valid()
      modifies this
      ensures Valid() && View() == old(View()).(lobbyIsOpen := true) && Repr() == old(Repr())
    {
      if lobbyIsOpen {
        return;
      }
      lobbyIsOpen := true;
    }

    // ---------------------------------------------------------------- queries

    predicate IsFull()
      reads this
    {
      numPlayers == maxPlayers
    }

    predicate AllPlayersAreReady()
      reads this
    {
      numReady == numPlayers
    }

    predicate CanAddPlayers()
      reads this
    {
      lobbyIsOpen && !isPlayingGame && !IsFull()
    }

    method GetFirstAvailableId() returns (index: u8)
      requires Valid()
      ensures index == L.FirstFree(seats, 0)
    {
      index := 0;
      while index < maxPlayers && players[index] != null
        invariant index <= maxPlayers && L.FirstFree(seats, 0) == L.FirstFree(seats, index)
      {
        index := index + 1;
      }
    }

    // The find_if by id.
    method FindPlayer(id: u8) returns (index: u8)
      requires Valid()
      ensures index == L.FindPlayer(View(), id, 0)
    {
      index := 0;
      while index < maxPlayers
        invariant index <= maxPlayers && L.FindPlayer(View(), id, 0) == L.FindPlayer(View(), id, index)
      {
        if players[index] != null && players[index].id == id {
          return;
        }
        index := index + 1;
      }
    }

    // ---------------------------------------------------------------- signals

    method GameStarted()
      requires Valid() && game != null
      modifies subscribers
      ensures Valid() && Conns() == L.SignalGameStart(old(Conns()), numPlayers, game.View())
      ensures game != null ==> game.View() == old(game.View())
    {
      for i := 0 to |subscribers|
        invariant Valid() && (game != null ==> game.View() == old(game.View()))
        invariant forall k | 0 <= k < i ::
                    subscribers[k].View() == L.SignalGameStart(old(Conns()), numPlayers, game.View())[k]
        invariant forall k | i <= k < |subscribers| :: subscribers[k].View() == old(Conns())[k]
      {
        subscribers[i].OnGameStart(numPlayers, game);
      }
    }

    method GameEnded(winner: u8)
      requires Valid()
      modifies subscribers
      ensures Valid() && Conns() == L.SignalGameEnd(old(Conns()), winner)
      ensures game != null ==> game.View() == old(game.View())
    {
      for i := 0 to |subscribers|
        invariant Valid() && (game != null ==> game.View() == old(game.View()))
        invariant forall k | 0 <= k < i :: subscribers[k].View() == L.SignalGameEnd(old(Conns()), winner)[k]
        invariant forall k | i <= k < |subscribers| :: subscribers[k].View() == old(Conns())[k]
      {
        subscribers[i].OnGameEnd(winner);
      }
    }

    method TakeTurn(player: u8)
      requires Valid()
      modifies subscribers
      ensures Valid() && Conns() == L.SignalTurn(old(Conns()), player)
      ensures game != null ==> game.View() == old(game.View())
    {
      for i := 0 to |subscribers|
        invariant Valid() && (game != null ==> game.View() == old(game.View()))
        invariant forall k | 0 <= k < i :: subscribers[k].View() == L.SignalTurn(old(Conns()), player)[k]
        invariant forall k | i <= k < |subscribers| :: subscribers[k].View() == old(Conns())[k]
      {
        subscribers[i].OnTurn(player);
      }
    }

    method TookTurn(player: u8, column: u8, result: TurnResult)
      requires Valid()
      modifies subscribers
      ensures Valid() && Conns() == L.SignalTurnResult(old(Conns()), player, column, result)
      ensures game != null ==> game.View() == old(game.View())
    {
      for i := 0 to |subscribers|
        invariant Valid() && (game != null ==> game.View() == old(game.View()))
        invariant forall k | 0 <= k < i ::
                    subscribers[k].View() == L.SignalTurnResult(old(Conns()), player, column, result)[k]
        invariant forall k | i <= k < |subscribers| :: subscribers[k].View() == old(Conns())[k]
      {
        subscribers[i].OnUpdate(player, column, result);
      }
    }

    // ---------------------------------------------------------------- handlers

    // There is a free seat whenever players can be added: LobbyInvariants.FreeSeatExists.
    method AddPlayer(connection: Connection)
      requires Valid() && connection !in Repr()
      requires CanAddPlayers() ==> L.FirstFree(seats, 0) < |seats|
      modifies this, players, connection
      ensures Valid() && View() == L.AddPlayer(old(View()), old(connection.View()))
      ensures Repr() == old(Repr()) + if old(CanAddPlayers()) then {connection} else {}
      ensures !old(CanAddPlayers()) ==> unchanged(this) && unchanged(players) && unchanged(connection)
    {
      if !CanAddPlayers() {
        return;
      }
      TakeFirstSeat(connection);
    }

    method TakeFirstSeat(connection: Connection)
      requires Valid() && connection !in Repr() && L.FirstFree(seats, 0) < |seats|
      modifies this, players, connection
      ensures Valid() && Repr() == old(Repr()) + {connection}
      ensures View() == var i := L.FirstFree(old(seats), 0);
                        old(View()).(seats := old(seats)[i := Some(|old(subscribers)|)],
                                     conns := old(Conns()) + [C.SetId(old(connection.View()), Wrap(i + 1))],
                                     numPlayers := Wrap(old(numPlayers) + 1))
    {
      var id := GetFirstAvailableId();
      Seat(connection, id);
    }

    method Seat(connection: Connection, id: u8)
      requires Valid() && connection !in Repr() && id < maxPlayers
      modifies this, players, connection
      ensures Valid() && Repr() == old(Repr()) + {connection}
      ensures View() == old(View()).(seats := old(seats)[id := Some(|old(subscribers)|)],
                                     conns := old(Conns()) + [C.SetId(old(connection.View()), Wrap(id + 1))],
                                     numPlayers := Wrap(old(numPlayers) + 1))
    {
      connection.SetId(Wrap(id + 1));
      Admit(connection, id);
    }

    // The connection takes a slot, and hears the lobby's signals from now on.
    method Admit(connection: Connection, id: u8)
      requires Valid() && connection !in Repr() && id < maxPlayers
      modifies this, players
      ensures Valid() && Repr() == old(Repr()) + {connection}
      ensures View() == old(View()).(seats := old(seats)[id := Some(|old(subscribers)|)],
                                     conns := old(Conns()) + [connection.View()],
                                     numPlayers := Wrap(old(numPlayers) + 1))
    {
      players[id] := connection;
      subscribers := subscribers + [connection];
      seats := seats[id := Some(|subscribers| - 1)];
      numPlayers := Wrap(numPlayers + 1);
    }

    // Starts a game that was just created.
    method StartGame()
      requires Valid() && game != null
      modifies this, subscribers
      ensures Valid() && View() == L.StartGame(old(View())) && Repr() == old(Repr()) && subscribers == old(subscribers)
    {
      if lobbyIsOpen && !isPlayingGame {
        isPlayingGame := true;
        GameStarted();
        TakeTurn(game.currentPlayer);
      }
    }

    method OnGameOver()
      requires Valid() && game != null
      modifies this, subscribers
      ensures Valid() && View() == L.OnGameOver(old(View())) && Repr() <= old(Repr()) && subscribers == old(subscribers)
    {
      if game.winner != NO_WINNER {
        GameEnded(game.winner);
      } else {
        GameEnded(NO_WINNER);
      }
      game := null;
      isPlayingGame := false;
      numReady := 0;
    }

    // `first` is the randomly picked first player.
    method OnReady(connection: Connection, first: u8)
      requires Valid()
      modifies this, subscribers
      ensures Valid() && View() == L.OnReady(old(View()), old(connection.id), first)
      ensures fresh(Repr() - old(Repr())) && subscribers == old(subscribers)
    {
      var seated := IsSeated(connection.id);
      CountIfSeated(seated, first);
    }

    method IsSeated(id: u8) returns (seated: bool)
      requires Valid()
      ensures seated <==> L.FindPlayer(View(), id, 0) < |seats|
    {
      var player := FindPlayer(id);
      seated := player < maxPlayers;
    }

    method CountIfSeated(seated: bool, first: u8)
      requires Valid()
      modifies this, subscribers
      ensures Valid() && fresh(Repr() - old(Repr())) && subscribers == old(subscribers)
      ensures View() == L.CountIfSeated(old(View()), seated, first)
    {
      if seated {
        CountReady(first);
      }
    }

    method CountReady(first: u8)
      requires Valid()
      modifies this, subscribers
      ensures Valid() && View() == L.StartIfReady(old(View()).(numReady := Wrap(old(numReady) + 1)), first)
      ensures fresh(Repr() - old(Repr())) && subscribers == old(subscribers)
    {
      SetNumReady(Wrap(numReady + 1));
      StartIfReady(first);
    }

    method StartIfReady(first: u8)
      requires Valid()
      modifies this, subscribers
      ensures Valid() && View() == L.StartIfReady(old(View()), first)
      ensures fresh(Repr() - old(Repr())) && subscribers == old(subscribers)
    {
      if AllPlayersAreReady() && IsFull() {
        CreateGame(first);
        StartGame();
      }
    }

    method CreateGame(first: u8)
      requires Valid()
      modifies this
      ensures Valid() && game != null && fresh(Repr() - old(Repr())) && subscribers == old(subscribers)
      ensures View() == old(View()).(game := Some(L.LobbyGame(maxPlayers, first)))
    {
      game := new FourAcross(maxPlayers, first, MIN_COLUMNS, MIN_ROWS);
    }

    method OnTakeTurn(connection: Connection, column: u8)
      requires Valid() && (isPlayingGame ==> game != null)
      modifies Repr()
      ensures Valid() && View() == L.OnTakeTurn(old(View()), old(connection.id), column)
      ensures Repr() <= old(Repr()) && subscribers == old(subscribers)
    {
      var id := connection.id;
      if !isPlayingGame {
        TookTurn(id, column, Error);
        return;
      }
      var result := game.TakeTurn(id, column);
      TookTurn(id, column, result);
      AfterTurn(result);
    }

    method AfterTurn(result: TurnResult)
      requires Valid() && game != null
      modifies this, subscribers
      ensures Valid() && View() == L.AfterTurn(old(View()), result) && Repr() <= old(Repr())
      ensures subscribers == old(subscribers)
    {
      var full := game.board.IsFull();
      if game.winner != NO_WINNER || full {
        OnGameOver();
      } else if result == Success {
        TakeTurn(game.currentPlayer);
      }
    }

    // Returns whether lobbyAvailable is raised, as the handler's last action.
    method OnDisconnect(connection: Connection) returns (available: bool)
      requires Valid() && (isPlayingGame ==> game != null)
      modifies this, players, subscribers
      ensures (View(), available) == L.OnDisconnect(old(View()), old(connection.id))
      ensures Valid() && Repr() <= old(Repr()) && subscribers == old(subscribers)
    {
      var player := FindPlayer(connection.id);
      if player == maxPlayers {
        return false;
      }
      Vacate(player);
      if isPlayingGame {
        OnGameOver();
      }
      available := CanAddPlayers();
    }

    // Releases the connection in a slot.
    method Vacate(player: u8)
      requires Valid() && player < maxPlayers && seats[player].Some?
      modifies this, players
      ensures Valid() && Repr() == old(Repr()) && subscribers == old(subscribers) && game == old(game)
      ensures View() == old(View()).(
                numReady := if old(Conns())[old(seats)[player].value].ready && old(numReady) > 0
                            then Wrap(old(numReady) - 1) else old(numReady),
                seats := old(seats)[player := None],
                numPlayers := if old(numPlayers) > 0 then Wrap(old(numPlayers) - 1) else old(numPlayers))
    {
      if players[player].clientIsReady && numReady > 0 {
        SetNumReady(Wrap(numReady - 1));
      }
      ClearSlot(player);
      if numPlayers > 0 {
        SetNumPlayers(Wrap(numPlayers - 1));
      }
    }

    method SetNumReady(count: u8)
      requires Valid()
      modifies this`numReady
      ensures Valid() && Repr() == old(Repr()) && View() == old(View()).(numReady := count)
    {
      numReady := count;
    }

    method SetNumPlayers(count: u8)
      requires Valid()
      modifies this`numPlayers
      ensures Valid() && Repr() == old(Repr()) && View() == old(View()).(numPlayers := count)
    {
      numPlayers := count;
    }

    method ClearSlot(player: u8)
      requires Valid() && player < maxPlayers
      modifies this`seats, players
      ensures Valid() && Repr() == old(Repr()) && View() == old(View()).(seats := old(seats)[player := None])
    {
      players[player] := null;
      seats := seats[player := None];
    }

    // ---------------------------------------------------------------- events at a connection

    // Connection j reads a message and raises its signal, which the lobby handles.
    method OnMessage(j: nat, m: Message, first: u8)
      requires Valid() && j < |subscribers| && (isPlayingGame ==> game != null)
      modifies Repr()
      ensures Valid() && View() == L.ReadMessage(old(View()), j, m, first) && subscribers == old(subscribers)
    {
      var event := Receive(j, m);
      assert subscribers[j].id == Conns()[j].id;
      match event
      case Readied => OnReady(subscribers[j], first);
      case TookTurn(column) => OnTakeTurn(subscribers[j], column);
      case _ =>
    }

    method Receive(j: nat, m: Message) returns (event: C.Event)
      requires Valid() && j < |subscribers|
      modifies subscribers[j]
      ensures Valid() && event == C.OnRead(old(Conns())[j], m).1
      ensures View() == old(View()).(conns := old(Conns())[j := C.OnRead(old(Conns())[j], m).0])
    {
      event := subscribers[j].OnReadSocket(m);
    }

    // Reading from connection j fails.
    method OnReadError(j: nat) returns (available: bool)
      requires Valid() && j < |subscribers| && (isPlayingGame ==> game != null)
      modifies this, players, subscribers
      ensures Valid() && (View(), available) == L.ReadFails(old(View()), j) && subscribers == old(subscribers)
    {
      var event := Break(j);
      assert subscribers[j].id == Conns()[j].id;
      available := false;
      if event == C.Lost {
        available := OnDisconnect(subscribers[j]);
      }
    }

    method Break(j: nat) returns (event: C.Event)
      requires Valid() && j < |subscribers|
      modifies subscribers[j]
      ensures Valid() && event == C.HandleDisconnect(old(Conns())[j]).1
      ensures View() == old(View()).(conns := old(Conns())[j := C.HandleDisconnect(old(Conns())[j]).0])
    {
      event := subscribers[j].HandleDisconnect();
    }

    // The ping timer of connection j expires.
    method OnPingTimer(j: nat) returns (available: bool)
      requires Valid() && j < |subscribers| && (isPlayingGame ==> game != null)
      modifies this, players, subscribers
      ensures Valid() && (View(), available) == L.TimerFires(old(View()), j) && subscribers == old(subscribers)
    {
      var event := Tick(j);
      assert subscribers[j].id == Conns()[j].id;
      available := false;
      if event == C.Lost {
        available := OnDisconnect(subscribers[j]);
      }
    }

    method Tick(j: nat) returns (event: C.Event)
      requires Valid() && j < |subscribers|
      modifies subscribers[j]
      ensures Valid() && event == C.OnTimer(old(Conns())[j]).1
      ensures View() == old(View()).(conns := old(Conns())[j := C.OnTimer(old(Conns())[j]).0])
    {
      event := subscribers[j].PingOnTimer();
    }
  }
}
