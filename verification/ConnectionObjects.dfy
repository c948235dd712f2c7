// connection.cpp as an object that its handlers update.
module ConnectionObjects {
  import opened Bytes
  import opened Rules
  import opened Messages
  import opened Games
  import C = Connections

  class Connection {
    // Names the object; see Connections.Conn.
    const serial: nat
    var id: u8
    var clientIsConnected: bool
    var clientIsReady: bool
    var receivedPong: bool
    var missedPongs: u8
    // Messages written to the socket and not yet read by the client.
    var socket: seq<Message>

    ghost function View(): C.Conn
      reads this
    {
      C.Conn(serial, id, clientIsConnected, clientIsReady, receivedPong, missedPongs, socket)
    }

    constructor (serial: nat)
      ensures View() == C.NewConn(serial)
    {
      this.serial := serial;
      id := 0;
      clientIsConnected := true;
      clientIsReady := false;
      receivedPong := false;
      missedPongs := 0;
      socket := [];
    }

    method SendMessage(m: Message)
      modifies this
      ensures View() == C.Send(old(View()), m)
    {
      if !clientIsConnected {
        return;
      }
      socket := socket + [m];
    }

    method OnAccept()
      modifies this
      ensures View() == C.OnAccept(old(View()))
    {
      SendPing();
    }

    method SetId(newId: u8)
      modifies this
      ensures View() == C.SetId(old(View()), newId)
    {
      if id == 0 {
        id := newId;
        SendMessage(Connected(newId));
      }
    }

    method NotifyQueuePosition(position: nat)
      modifies this
      ensures View() == C.NotifyQueuePosition(old(View()), position)
    {
      SendMessage(InQueue(position));
    }

    // The lobby's gameStarted signal. The connection asks its lobby for the player count and
    // the game.
    method OnGameStart(numPlayers: u8, game: FourAcross)
      requires game.Valid() && this !in game.Repr()
      modifies this
      ensures View() == C.OnGameStart(old(View()), numPlayers, game.View())
    {
      SendMessage(GameStart(numPlayers, game.board.numColumns, game.board.numRows, game.currentPlayer));
    }

    // The lobby's gameEnded signal.
    method OnGameEnd(winner: u8)
      modifies this
      ensures View() == C.OnGameEnd(old(View()), winner)
    {
      clientIsReady := false;
      SendMessage(GameEnd(winner));
    }

    // The lobby's takeTurn signal.
    method OnTurn(player: u8)
      modifies this
      ensures View() == C.OnTurn(old(View()), player)
    {
      if player == id {
        SendMessage(TurnMessage(player, MINUS_ONE));
      }
    }

    // The lobby's tookTurn signal.
    method OnUpdate(player: u8, column: u8, result: TurnResult)
      modifies this
      ensures View() == C.OnUpdate(old(View()), player, column, result)
    {
      if player != id {
        if result == Success {
          SendMessage(Update(player, column));
        }
      } else {
        SendMessage(ResultMessage(result, column));
      }
    }

    // A message was read; the result is the signal raised, if any.
    method OnReadSocket(m: Message) returns (event: C.Event)
      modifies this
      ensures (View(), event) == C.OnRead(old(View()), m)
    {
      event := C.Nothing;
      match m
      case Ready(from) =>
        if from == id {
          clientIsReady := true;
          event := C.Readied;
        }
      case TurnMessage(from, column) =>
        if from == id && column != MINUS_ONE {
          event := C.TookTurn(column);
        }
      case Pong =>
        receivedPong := true;
      case _ =>
    }

    // Reading failed because the connection ended.
    method HandleDisconnect() returns (event: C.Event)
      modifies this
      ensures (View(), event) == C.HandleDisconnect(old(View()))
    {
      event := C.Nothing;
      if clientIsConnected {
        clientIsConnected := false;
        event := C.Lost;
      }
    }

    method SendPing()
      modifies this
      ensures View() == C.SendPing(old(View()))
    {
      receivedPong := false;
      SendMessage(Ping);
    }

    // The ping timer expired.
    method PingOnTimer() returns (event: C.Event)
      modifies this
      ensures (View(), event) == C.OnTimer(old(View()))
    {
      event := C.Nothing;
      if clientIsConnected {
        if receivedPong {
          missedPongs := 0;
          SendPing();
        } else {
          missedPongs := Wrap(missedPongs + 1);
          if missedPongs > C.MAX_MISSED_PONGS {
            event := HandleDisconnect();
          } else {
            SendPing();
          }
        }
      }
    }
  }
}
