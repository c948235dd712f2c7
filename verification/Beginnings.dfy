// When games begin, whatever clients send: exactly on which reads, and that nothing else begins
// one.
module Beginnings {
  import opened Bytes
  import opened Messages
  import opened Connections
  import opened Lobbies
  import opened Servers
  import opened ServerInvariants
  import opened Lifetimes
  import opened Discipline

  // Connection j reads a Ready for an id that has a seat, in a full lobby that is not playing,
  // and the count comes out at the number of players.
  predicate ReadyCompletes(l: Lobby, j: nat, m: Message)
    requires j < |l.conns|
  {
    var c := l.conns[j];
    !l.isPlayingGame && OnRead(c, m).1 == Readied
    && 1 <= c.id <= |l.seats| && l.seats[c.id - 1].Some?
    && IsFull(l) && Wrap(l.numReady + 1) == l.numPlayers
  }

  lemma ReadBegins(l: Lobby, j: nat, m: Message, first: u8)
    requires LobbyOK(l) && !l.isPlayingGame && j < |l.conns|
    ensures ReadMessage(l, j, m, first).isPlayingGame <==> ReadyCompletes(l, j, m)
    ensures ReadyCompletes(l, j, m) ==> ReadMessage(l, j, m, first).game == Some(LobbyGame(l.maxPlayers, first))
  {
    if OnRead(l.conns[j], m).1 == Readied {
      assert m == Ready(l.conns[j].id);
      ReadyIsRead(l, j, first);
    }
  }

  // The event is such a read in lobby i.
  predicate Begins(s: Server, input: Input, i: nat) {
    input.Reads? && input.at.InLobby? && input.at.i == i && Occupied(s, input.at)
    && ReadyCompletes(s.lobbies[i], input.at.j, input.m)
  }

  // In any state, a lobby that does not play plays after an event if and only if the event is
  // the read of a Ready that completes the count.
  lemma EventBegins(s: Server, input: Input, i: nat)
    requires ServerOK(s) && i < |s.lobbies| && !s.lobbies[i].isPlayingGame
    ensures i < |Serve(s, input).lobbies|
    ensures Serve(s, input).lobbies[i].isPlayingGame <==> Begins(s, input, i)
  {
    match input
    case Reads(at, m, first) =>
      if Occupied(s, at) && at.InLobby? && at.i == i {
        ReadBegins(s.lobbies[i], at.j, m, first);
      }
    case ReadError(at) => LossBeginsNothing(s, input, i);
    case Timer(at) => LossBeginsNothing(s, input, i);
    case Arrival =>
    case QueueTimer =>
    case Delivered(_) =>
  }

  lemma LossBeginsNothing(s: Server, input: Input, i: nat)
    requires ServerOK(s) && i < |s.lobbies| && !s.lobbies[i].isPlayingGame && (input.ReadError? || input.Timer?)
    ensures i < |Serve(s, input).lobbies| && !Serve(s, input).lobbies[i].isPlayingGame
  {
    if input.at.InLobby? && Occupied(s, input.at) {
      LossEffect(s, input.at.i, input.at.j, LossAt(s, input));
    }
  }
}
