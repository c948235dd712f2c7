// One seated connection together with its client: what can be in flight between them, and
// how every event at either end keeps it that way.
module Links {
  import opened Bytes
  import opened Rules
  import opened Messages
  import opened Connections
  import opened Clients

  // Messages without effect on the game at either end.
  predicate Noise(m: Message) {
    m.Ping? || m.Pong? || m.InQueue? || (m.ResultMessage? && m.result == Error)
  }

  function Sift(ms: seq<Message>): seq<Message> {
    if ms == [] then [] else if Noise(ms[0]) then Sift(ms[1..]) else [ms[0]] + Sift(ms[1..])
  }

  lemma {:induction false} SiftAppend(ms: seq<Message>, m: Message)
    ensures Sift(ms + [m]) == Sift(ms) + if Noise(m) then [] else [m]
  {
    if ms == [] {
      assert [m][1..] == [];
    } else {
      SiftAppend(ms[1..], m);
      assert (ms + [m])[1..] == ms[1..] + [m];
    }
  }

  // The ready flag the server keeps, and both directions and the client without the noise.
  datatype Link = Link(ready: bool, down: seq<Message>, client: Client)

  function LinkOf(c: Conn, k: Client): Link {
    Link(c.ready, Sift(c.out), k.(out := Sift(k.out)))
  }

  // ---------------------------------------------------------------- replica

  // What reading one message does to a replica, or None when the client's trust in the
  // server would be misplaced: a move it cannot replay, a question out of turn, or a winner
  // that is not the replica's own.
  function SyncOne(g: Option<Game>, id: u8, m: Message): Option<Option<Game>> {
    match m
    case GameStart(numPlayers, columns, rows, first) =>
      var game := NewGame(numPlayers, first, columns, rows);
      if game.Some? then Some(game) else None
    case GameEnd(winner) => if g.Some? && g.value.winner == winner then Some(g) else None
    case Update(player, column) => if player != id then Replayed(g, player, column) else None
    case ResultMessage(result, column) =>
      if result == Error then Some(g)
      else if result == Success then Replayed(g, id, column)
      else Questioned(g, id)
    case TurnMessage(player, column) => if player == id && column == MINUS_ONE then Questioned(g, id) else None
    case Connected(_) => None
    case _ => Some(g)
  }

  function Replayed(g: Option<Game>, player: u8, column: u8): Option<Option<Game>> {
    if g.Some? && TakeTurn(g.value, player, column).1 == Success then
      Some(Some(TakeTurn(g.value, player, column).0))
    else
      None
  }

  function Questioned(g: Option<Game>, id: u8): Option<Option<Game>> {
    if g.Some? && g.value.currentPlayer == id && !Over(g.value) then Some(g) else None
  }

  // The replica after reading everything in flight, in order.
  function Sync(g: Option<Game>, id: u8, down: seq<Message>): Option<Option<Game>>
    decreases |down|
  {
    if down == [] then Some(g)
    else
      var next := SyncOne(g, id, down[0]);
      if next.None? then None else Sync(next.value, id, down[1..])
  }

  lemma {:induction false} SyncAppend(g: Option<Game>, id: u8, down: seq<Message>, m: Message)
    ensures Sync(g, id, down + [m]) ==
            if Sync(g, id, down).None? then None else SyncOne(Sync(g, id, down).value, id, m)
    decreases |down|
  {
    if down == [] {
      assert [m][1..] == [];
    } else {
      assert (down + [m])[1..] == down[1..] + [m];
      if SyncOne(g, id, down[0]).Some? {
        SyncAppend(SyncOne(g, id, down[0]).value, id, down[1..], m);
      }
    }
  }

  lemma {:induction false} SyncSift(g: Option<Game>, id: u8, down: seq<Message>)
    ensures Sync(g, id, Sift(down)) == Sync(g, id, down)
    decreases |down|
  {
    if down != [] {
      if Noise(down[0]) {
        SyncSift(g, id, down[1..]);
      } else if SyncOne(g, id, down[0]).Some? {
        SyncSift(SyncOne(g, id, down[0]).value, id, down[1..]);
        assert Sift(down)[1..] == Sift(down[1..]);
      }
    }
  }

  // ---------------------------------------------------------------- phases

  // Messages that put the client in a position to move.
  predicate Question(m: Message) {
    m.TurnMessage? || (m.ResultMessage? && m.result != Success && m.result != Error)
  }

  // The other messages of a running game.
  predicate News(m: Message) {
    m.GameStart? || m.Update? || (m.ResultMessage? && m.result == Success)
  }

  predicate AllNews(down: seq<Message>) {
    forall j | 0 <= j < |down| :: News(down[j])
  }

  // The turn is with this link: a question in flight, behind the news; or put to the user; or
  // answered by a move in flight.
  predicate HoldsTurn(down: seq<Message>, k: Client, id: u8) {
    (down != [] && AllNews(down[..|down| - 1]) && Question(down[|down| - 1]) && k.mode == Idle && k.out == [])
    || (down == [] && k.mode == AskingMove && k.out == [])
    || (down == [] && k.mode == Idle && |k.out| == 1 && IsMove(k.out[0], id))
  }

  predicate Watches(down: seq<Message>, k: Client) {
    AllNews(down) && k.mode == Idle && k.out == []
  }

  predicate IsMove(m: Message, id: u8) {
    m.TurnMessage? && m.id == id
  }

  // Seated; the client does not know its id yet.
  predicate Joining(x: Link, id: u8) {
    !x.ready && x.down == [Connected(id)] && x.client.mode == NotSeated && x.client.out == []
  }

  // Between games. A move of an aborted game may still be on its way, always ahead of Ready.
  predicate Resting(x: Link, id: u8) {
    var k := x.client;
    x.down == [] && k.playerId == id
    && ((!x.ready && k.mode == AskingReady && (k.out == [] || (|k.out| == 1 && IsMove(k.out[0], id))))
        || (!x.ready && k.mode == Idle
            && (k.out == [Ready(id)] || (|k.out| == 2 && IsMove(k.out[0], id) && k.out[1] == Ready(id))))
        || (x.ready && k.mode == Idle && k.out == []))
  }

  // In a game: the replica is what the messages in flight will make the server's game.
  predicate Playing(x: Link, id: u8, g: Game) {
    var k := x.client;
    x.ready && k.playerId == id
    && Sync(k.game, id, x.down) == Some(Some(g))
    && (if g.currentPlayer == id then
          HoldsTurn(x.down, k, id) && (k.out != [] ==> k.out[0].column < |g.stacks|)
        else
          Watches(x.down, k))
  }

  // The server ended the game; the client has not read about it yet.
  predicate Ending(x: Link, id: u8) {
    var k, n := x.client, |x.down| - 1;
    !x.ready && k.playerId == id
    && n >= 0 && x.down[n].GameEnd?
    && Sync(k.game, id, x.down).Some?
    && (HoldsTurn(x.down[..n], k, id) || Watches(x.down[..n], k))
  }

  predicate LinkOK(x: Link, id: u8, game: Option<Game>) {
    match game
    case Some(g) => Playing(x, id, g)
    case None => Joining(x, id) || Resting(x, id) || Ending(x, id)
  }

  // ---------------------------------------------------------------- client events

  function Received(x: Link): Link
    requires x.down != []
  {
    x.(down := x.down[1..], client := HandleRead(x.client, x.down[0]))
  }

  lemma DeliveryKeepsPlaying(x: Link, id: u8, g: Game)
    requires Playing(x, id, g) && x.down != []
    ensures Playing(Received(x), id, g)
  {
    DeliveryMovesTurn(x.down, x.client, id);
    DeliverySyncs(x, id);
  }

  lemma DeliverySyncs(x: Link, id: u8)
    requires x.down != [] && Sync(x.client.game, id, x.down).Some?
    requires x.client.playerId == id && x.client.mode != Crashed
    ensures Sync(Received(x).client.game, id, Received(x).down) == Sync(x.client.game, id, x.down)
    ensures !x.down[0].Connected? && Received(x).client.mode != Crashed && Received(x).client.playerId == id
  {
  }

  // Reading the next message of a running game keeps the turn where it is.
  lemma DeliveryMovesTurn(down: seq<Message>, k: Client, id: u8)
    requires down != [] && k.playerId == id && SyncOne(k.game, id, down[0]).Some?
    ensures HoldsTurn(down, k, id) ==>
              HoldsTurn(down[1..], HandleRead(k, down[0]), id) && HandleRead(k, down[0]).out == []
    ensures Watches(down, k) ==> Watches(down[1..], HandleRead(k, down[0]))
  {
    if HoldsTurn(down, k, id) && |down| > 1 {
      assert down[1..][..|down| - 2] == down[..|down| - 1][1..];
    }
  }

  lemma DeliveryKeepsLink(x: Link, id: u8, game: Option<Game>)
    requires LinkOK(x, id, game) && x.down != []
    ensures LinkOK(Received(x), id, game)
  {
    if game.Some? {
      DeliveryKeepsPlaying(x, id, game.value);
    } else if Ending(x, id) {
      var n := |x.down| - 1;
      DeliverySyncs(x, id);
      if n > 0 {
        assert x.down[..n][1..] == x.down[1..][..n - 1];
        DeliveryMovesTurn(x.down[..n], x.client, id);
      }
    }
  }

  // Reading a message off the wire: noise does not show, anything else is the link's head.
  lemma DeliveryShortensLink(c: Conn, k: Client)
    requires c.out != []
    ensures var m, x, after := c.out[0], LinkOf(c, k), LinkOf(c.(out := c.out[1..]), HandleRead(k, c.out[0]));
            if Noise(m) then after == x else x.down != [] && x.down[0] == m && after == Received(x)
  {
    var m := c.out[0];
    if Noise(m) {
      NoiseLeavesClient(k, m);
    } else {
      assert Sift(c.out)[1..] == Sift(c.out[1..]);
      ReadingIgnoresUplink(k, m, Sift(k.out));
    }
  }

  lemma NoiseLeavesClient(k: Client, m: Message)
    requires Noise(m)
    ensures HandleRead(k, m).(out := Sift(HandleRead(k, m).out)) == k.(out := Sift(k.out))
  {
    SiftAppend(k.out, Pong);
    assert Sift(k.out) + [] == Sift(k.out);
  }

  lemma ReadingIgnoresUplink(k: Client, m: Message, up: seq<Message>)
    requires !Noise(m)
    ensures HandleRead(k, m).out == k.out && HandleRead(k.(out := up), m) == HandleRead(k, m).(out := up)
  {
  }

  lemma AnsweringExtendsLink(c: Conn, k: Client, column: u8)
    ensures LinkOf(c, ToggleReady(k)) == LinkOf(c, k).(client := ToggleReady(LinkOf(c, k).client))
    ensures LinkOf(c, SendTurn(k, column)) == LinkOf(c, k).(client := SendTurn(LinkOf(c, k).client, column))
  {
    SiftAppend(k.out, Ready(k.playerId));
    SiftAppend(k.out, TurnMessage(k.playerId, column));
  }

  lemma ReadyingKeepsLink(x: Link, id: u8, game: Option<Game>)
    requires LinkOK(x, id, game)
    ensures LinkOK(x.(client := ToggleReady(x.client)), id, game)
  {
  }

  lemma MovingKeepsLink(x: Link, id: u8, game: Option<Game>, column: u8)
    requires LinkOK(x, id, game)
    ensures LinkOK(x.(client := SendTurn(x.client, column)), id, game)
  {
  }

  // ---------------------------------------------------------------- server events

  // What a connection sends reaches the link unless it is noise.
  lemma SendingExtendsLink(c: Conn, k: Client, m: Message)
    requires c.connected
    ensures var x := LinkOf(c, k);
            LinkOf(Send(c, m), k) == if Noise(m) then x else x.(down := x.down + [m])
  {
    SiftAppend(c.out, m);
    assert Sift(c.out) + [] == Sift(c.out);
  }

  function ReadOff(x: Link): Link
    requires x.client.out != []
  {
    x.(client := x.client.(out := x.client.out[1..]))
  }

  function TakeOff(k: Client): Client
    requires k.out != []
  {
    k.(out := k.out[1..])
  }

  lemma ReadingShortensLink(c: Conn, k: Client)
    requires k.out != []
    ensures var m, x := k.out[0], LinkOf(c, k);
            if Noise(m) then LinkOf(c, TakeOff(k)) == x
            else x.client.out != [] && x.client.out[0] == m && LinkOf(c, TakeOff(k)) == ReadOff(x)
  {
  }

  // Between games the server reads a Ready from a client that was not ready, or a move left
  // over from an aborted game.
  lemma ReadingBetweenGames(x: Link, id: u8)
    requires LinkOK(x, id, None) && x.client.out != []
    ensures var m := x.client.out[0];
            && (m == Ready(id) || IsMove(m, id))
            && (m == Ready(id) ==> !x.ready && Resting(ReadOff(x).(ready := true), id))
            && (IsMove(m, id) ==> LinkOK(ReadOff(x), id, None))
  {
  }

  // During a game the server reads only a move of the current player, on the board, made with
  // nothing left to read about the game.
  lemma ReadingDuringGame(x: Link, id: u8, g: Game)
    requires Playing(x, id, g) && x.client.out != []
    ensures var m := x.client.out[0];
            && IsMove(m, id) && id == g.currentPlayer && m.column < |g.stacks|
            && x.down == [] && x.client.out == [m] && x.client.mode == Idle && x.client.game == Some(g)
  {
  }

  lemma StartKeepsLink(x: Link, id: u8, g: Game, m: Message)
    requires Resting(x, id) && x.ready && !Over(g)
    requires m.GameStart? && NewGame(m.numPlayers, m.first, m.columns, m.rows) == Some(g)
    ensures var question := if g.currentPlayer == id then [TurnMessage(id, MINUS_ONE)] else [];
            Playing(x.(down := x.down + [m] + question), id, g)
  {
    SyncAppend(x.client.game, id, [], m);
    assert [] + [m] == [m];
    if g.currentPlayer == id {
      SyncAppend(x.client.game, id, [m], TurnMessage(id, MINUS_ONE));
    }
  }

  // The state of a link once the server has read its move, if it was the mover.
  predicate Informed(x: Link, id: u8, g: Game) {
    x.ready && x.client.playerId == id && Sync(x.client.game, id, x.down) == Some(Some(g)) && Watches(x.down, x.client)
  }

  lemma MoverIsInformed(x: Link, id: u8, g: Game)
    requires Playing(x, id, g)
    ensures g.currentPlayer != id ==> Informed(x, id, g)
    ensures x.client.out != [] ==> Informed(ReadOff(x), id, g)
  {
  }

  // What a link is told about an accepted move.
  function NewsFor(id: u8, mover: u8, column: u8): Message {
    if id == mover then ResultMessage(Success, column) else Update(mover, column)
  }

  lemma NewsSyncs(x: Link, id: u8, g: Game, column: u8)
    requires Informed(x, id, g) && TakeTurn(g, g.currentPlayer, column).1 == Success
    ensures var down := x.down + [NewsFor(id, g.currentPlayer, column)];
            Sync(x.client.game, id, down) == Some(Some(TakeTurn(g, g.currentPlayer, column).0)) && AllNews(down)
  {
    SyncAppend(x.client.game, id, x.down, NewsFor(id, g.currentPlayer, column));
  }

  // An accepted move that does not end the game: everybody is told, then the next player asked.
  lemma AcceptedKeepsLink(x: Link, id: u8, g: Game, column: u8)
    requires Informed(x, id, g) && TakeTurn(g, g.currentPlayer, column).1 == Success
    requires !Over(TakeTurn(g, g.currentPlayer, column).0)
    ensures var after := TakeTurn(g, g.currentPlayer, column).0;
            Playing(x.(down := x.down + [NewsFor(id, g.currentPlayer, column)] +
                               if after.currentPlayer == id then [TurnMessage(id, MINUS_ONE)] else []), id, after)
  {
    var down := x.down + [NewsFor(id, g.currentPlayer, column)];
    NewsSyncs(x, id, g, column);
    SyncAppend(x.client.game, id, down, TurnMessage(id, MINUS_ONE));
    assert down + [] == down;
    assert (down + [TurnMessage(id, MINUS_ONE)])[..|down|] == down;
  }

  // An accepted move that ends the game.
  lemma FinalMoveKeepsLink(x: Link, id: u8, g: Game, column: u8)
    requires Informed(x, id, g) && TakeTurn(g, g.currentPlayer, column).1 == Success
    ensures var after := TakeTurn(g, g.currentPlayer, column).0;
            Ending(x.(ready := false,
                      down := x.down + [NewsFor(id, g.currentPlayer, column)] + [GameEnd(after.winner)]), id)
  {
    var after := TakeTurn(g, g.currentPlayer, column).0;
    NewsSyncs(x, id, g, column);
    SyncAppend(x.client.game, id, x.down + [NewsFor(id, g.currentPlayer, column)], GameEnd(after.winner));
  }

  // A rejected move: the mover alone is told, and asked again.
  lemma RejectedKeepsLink(x: Link, id: u8, g: Game, result: TurnResult, column: u8)
    requires Informed(x, id, g) && id == g.currentPlayer && !Over(g) && x.down == []
    requires result != Success && result != Error
    ensures Playing(x.(down := x.down + [ResultMessage(result, column)]), id, g)
  {
    SyncAppend(x.client.game, id, x.down, ResultMessage(result, column));
  }

  // A game that ends because somebody left.
  lemma AbortKeepsLink(x: Link, id: u8, g: Game)
    requires Playing(x, id, g)
    ensures Ending(x.(ready := false, down := x.down + [GameEnd(g.winner)]), id)
  {
    SyncAppend(x.client.game, id, x.down, GameEnd(g.winner));
  }
}
