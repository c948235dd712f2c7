// server.cpp as an object that updates its lobbies and its queue. The lobbies and connections
// it holds are values here; as objects they are in LobbyObjects and ConnectionObjects.
module ServerObjects {
  import opened Rules
  import opened Connections
  import opened Lobbies
  import S = Servers
  import opened ServerInvariants

  class Server {
    var lobbies: seq<Lobby>
    var playerQueue: seq<Conn>
    var lastQueueSize: nat
    // Names the next connection.
    var accepted: nat

    ghost function View(): S.Server
      reads this
    {
      S.Server(lobbies, playerQueue, lastQueueSize, accepted)
    }

    ghost predicate Valid()
      reads this
    {
      ServerOK(View())
    }

    constructor ()
      ensures Valid() && View() == S.EMPTY_SERVER
    {
      lobbies := [];
      playerQueue := [];
      lastQueueSize := 0;
      accepted := 0;
    }

    // A connection was accepted without an error.
    method OnConnectionAccepted()
      requires Valid()
      modifies this
      ensures Valid() && View() == S.OnConnectionAccepted(old(View()), NewConn(old(accepted)))
    {
      ArrivalKeeps(View());
      Accept();
    }

    method Accept()
      modifies this
      ensures View() == S.OnConnectionAccepted(old(View()), NewConn(old(accepted)))
    {
      var connection := OnAccept(NewConn(accepted));
      accepted := accepted + 1;
      SeatOrQueue(connection);
    }

    method SeatOrQueue(connection: Conn)
      modifies this
      ensures View() == S.SeatOrQueue(old(View()), connection)
    {
      var numLobbies := |lobbies|;
      if numLobbies != 0 {
        var lobby := FindAvailableLobby();
        if lobby < |lobbies| {
          AddToLobby(lobby, connection);
        } else if numLobbies < S.MAX_LOBBIES {
          var created := MakeNewLobby();
          AddToLobby(created, connection);
        } else {
          AddToQueue(connection);
        }
      } else {
        // no lobby is below the cap
        var created := MakeNewLobby();
        AddToLobby(created, connection);
      }
    }

    // The index of the first lobby that is not full; the number of lobbies stands for null.
    method FindAvailableLobby() returns (index: nat)
      ensures index == S.FindAvailableLobby(lobbies, 0)
    {
      index := 0;
      while index < |lobbies|
        invariant index <= |lobbies|
        invariant S.FindAvailableLobby(lobbies, 0) == S.FindAvailableLobby(lobbies, index)
      {
        if !IsFull(lobbies[index]) {
          return;
        }
        index := index + 1;
      }
    }

    method MakeNewLobby() returns (index: nat)
      modifies this`lobbies
      ensures index == |old(lobbies)| && lobbies == old(lobbies) + [StartedLobby(MIN_NUM_PLAYERS)]
    {
      index := |lobbies|;
      lobbies := lobbies + [StartedLobby(MIN_NUM_PLAYERS)];
    }

    method AddToLobby(index: nat, connection: Conn)
      requires index < |lobbies|
      modifies this`lobbies
      ensures lobbies == old(lobbies)[index := AddPlayer(old(lobbies)[index], connection)]
    {
      lobbies := lobbies[index := AddPlayer(lobbies[index], connection)];
    }

    method AddToQueue(connection: Conn)
      modifies this`playerQueue
      ensures playerQueue == old(playerQueue) + [NotifyQueuePosition(connection, |old(playerQueue)| + 1)]
    {
      playerQueue := playerQueue + [connection];
      playerQueue := playerQueue[|playerQueue| - 1 := NotifyQueuePosition(connection, |playerQueue|)];
    }

    // Lobby `index` handled the loss of connection j, and may have a seat for somebody who waits.
    method OnLobbyEvent(index: nat, j: nat, outcome: (Conn, Event))
      requires Valid() && S.Occupied(View(), S.InLobby(index, j))
      requires outcome == HandleDisconnect(lobbies[index].conns[j]) || outcome == OnTimer(lobbies[index].conns[j])
      modifies this
      ensures Valid() && View() == S.ServeLoss(old(View()), S.InLobby(index, j), outcome)
    {
      LossKeepsServer(View(), S.InLobby(index, j), outcome);
      var (after, available) := AfterEvent(lobbies[index], j, outcome);
      lobbies := lobbies[index := after];
      if available {
        OnLobbyAvailable(index);
      }
    }

    method OnLobbyAvailable(index: nat)
      requires index < |lobbies|
      modifies this
      ensures View() == S.OnLobbyAvailable(old(View()), index)
    {
      if |playerQueue| > 0 {
        var player := playerQueue[0];
        AddToLobby(index, player);
        playerQueue := playerQueue[1..];
      }
    }

    // The queue timer expired.
    method UpdateQueuePositions()
      requires Valid()
      modifies this
      ensures Valid() && View() == S.UpdateQueuePositions(old(View()))
    {
      QueueTimerKeeps(View());
      RemoveDead();
      var queueSize := |playerQueue|;
      var delta := if queueSize > lastQueueSize then queueSize - lastQueueSize else lastQueueSize - queueSize;
      if queueSize > 0 && (queueSize < 10 || delta >= 10) {
        NotifyPositions();
      }
      lastQueueSize := queueSize;
    }

    // playerQueue.remove_if
    method RemoveDead()
      modifies this`playerQueue
      ensures playerQueue == S.Alive(old(playerQueue))
    {
      var kept: seq<Conn> := [];
      for q := 0 to |playerQueue|
        invariant kept == S.Alive(playerQueue[..q])
      {
        assert playerQueue[..q + 1][..q] == playerQueue[..q];
        if playerQueue[q].connected {
          kept := kept + [playerQueue[q]];
        }
      }
      assert playerQueue[..|playerQueue|] == playerQueue;
      playerQueue := kept;
    }

    method NotifyPositions()
      modifies this`playerQueue
      ensures playerQueue == S.NotifyAll(old(playerQueue))
    {
      var pos := 1;
      while pos <= |playerQueue|
        invariant 1 <= pos <= |playerQueue| + 1 == |old(playerQueue)| + 1
        invariant forall q | 0 <= q < |playerQueue| ::
                    playerQueue[q] == if q < pos - 1 then NotifyQueuePosition(old(playerQueue)[q], q + 1)
                                      else old(playerQueue)[q]
      {
        playerQueue := playerQueue[pos - 1 := NotifyQueuePosition(playerQueue[pos - 1], pos)];
        pos := pos + 1;
      }
    }
  }
}
