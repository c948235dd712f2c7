// client.cpp as an object with a replica of the game that its handlers update.
module ClientObjects {
  import opened Bytes
  import opened Rules
  import opened Messages
  import opened Games
  import K = Clients

  class Client {
    var playerId: u8
    var isConnected: bool
    var game: FourAcross?
    // What the user is being asked for.
    var mode: K.Mode
    // Messages written to the socket and not yet read by the server.
    var socket: seq<Message>

    ghost function Repr(): set<object>
      reads this
    {
      {this} + if game != null then game.Repr() else {}
    }

    ghost predicate Valid()
      reads this, Repr()
    {
      game != null ==> game.Valid() && this !in game.Repr()
    }

    ghost function View(): K.Client
      reads this, Repr()
    {
      K.Client(playerId, isConnected, if game != null then Some(game.View()) else None, mode, socket)
    }

    constructor ()
      ensures Valid() && View() == K.NEW_CLIENT
    {
      playerId := 0;
      isConnected := false;
      game := null;
      mode := K.NotSeated;
      socket := [];
    }

    // A message was read.
    method HandleRead(m: Message)
      requires Valid()
      modifies Repr()
      ensures Valid() && fresh(Repr() - old(Repr()))
      ensures View() == K.HandleRead(old(View()), m)
    {
      if mode == K.Crashed {
        return;
      }
      match m
      case Connected(id) =>
        playerId := id;
        isConnected := true;
        mode := K.AskingReady;
      case Ping =>
        socket := socket + [Pong];
      case GameStart(numPlayers, columns, rows, first) =>
        StartGame(numPlayers, first, columns, rows);
      case GameEnd(winner) =>
        mode := K.AskingReady;
      case TurnMessage(id, column) =>
        if id == playerId && column == MINUS_ONE {
          HandleTurnRequest();
        }
      case ResultMessage(result, column) =>
        CheckTurnResult(result, column);
      case Update(player, column) =>
        TakeOpponentTurn(player, column);
      case _ =>
    }

    method StartGame(numPlayers: u8, first: u8, columns: u8, rows: u8)
      requires Valid()
      modifies this
      ensures Valid() && fresh(Repr() - old(Repr()))
      ensures View() ==
              var g := NewGame(numPlayers, first, columns, rows);
              if g.None? then old(View()).(mode := K.Crashed) else old(View()).(game := g)
    {
      var created := FourAcross.Create(numPlayers, first, columns, rows);
      if created == null {
        mode := K.Crashed;
      } else {
        game := created;
      }
    }

    method HandleTurnRequest()
      requires Valid()
      modifies this
      ensures Valid() && Repr() == old(Repr())
      ensures View() == K.HandleTurnRequest(old(View()))
    {
      mode := if game == null then K.Crashed else K.AskingMove;
    }

    method CheckTurnResult(result: TurnResult, column: u8)
      requires Valid()
      modifies Repr()
      ensures Valid() && Repr() == old(Repr())
      ensures View() == if result == Success then K.ReplayTurn(old(View()), old(playerId), column)
                        else if result == Error then old(View())
                        else K.HandleTurnRequest(old(View()))
    {
      match result
      case Success => TakeOpponentTurn(playerId, column);
      case Error =>
      case _ => HandleTurnRequest();
    }

    // Replays a turn on the replica, assuming that all turns sent by the server are good.
    method TakeOpponentTurn(player: u8, column: u8)
      requires Valid()
      modifies Repr()
      ensures Valid() && Repr() == old(Repr())
      ensures View() == K.ReplayTurn(old(View()), player, column)
    {
      if game == null {
        mode := K.Crashed;
      } else {
        var ignored := game.TakeTurn(player, column);
      }
    }

    // The user is ready.
    method ToggleReady()
      requires Valid()
      modifies this
      ensures Valid() && Repr() == old(Repr())
      ensures View() == K.ToggleReady(old(View()))
    {
      if mode == K.AskingReady {
        socket := socket + [Ready(playerId)];
        mode := K.Idle;
      }
    }

    // The user entered a column.
    method SendTurn(column: u8)
      requires Valid()
      modifies this
      ensures Valid() && Repr() == old(Repr())
      ensures View() == K.SendTurn(old(View()), column)
    {
      if mode == K.AskingMove && game != null && column < game.board.numColumns {
        socket := socket + [TurnMessage(playerId, column)];
        mode := K.Idle;
      }
    }
  }
}
