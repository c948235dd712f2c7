// client.cpp and the console client on top of it: the replica a client keeps of the game,
// and when it is willing to send something.
module Clients {
  import opened Bytes
  import opened Rules
  import opened Messages

  // What the console client is asking its user for. A crashed client has dereferenced a null
  // game or let an exception escape; it handles nothing any more.
  datatype Mode = NotSeated | AskingReady | Idle | AskingMove | Crashed

  // `out` holds the messages written to the socket and not yet read by the server.
  datatype Client = Client(playerId: u8, isConnected: bool, game: Option<Game>, mode: Mode, out: seq<Message>)

  const NEW_CLIENT := Client(0, false, None, NotSeated, [])

  // handleTurnRequest prints the game before it asks.
  function HandleTurnRequest(k: Client): Client {
    if k.game.None? then k.(mode := Crashed) else k.(mode := AskingMove)
  }

  // The result of the replica's own takeTurn is ignored.
  function ReplayTurn(k: Client, player: u8, column: u8): Client {
    if k.game.None? then k.(mode := Crashed) else k.(game := Some(TakeTurn(k.game.value, player, column).0))
  }

  // handleRead without an error.
  function HandleRead(k: Client, m: Message): Client {
    if k.mode == Crashed then k
    else
      match m
      case Connected(id) => k.(playerId := id, isConnected := true, mode := AskingReady)
      case Ping => k.(out := k.out + [Pong])
      case GameStart(numPlayers, columns, rows, first) =>
        var game := NewGame(numPlayers, first, columns, rows);
        if game.None? then k.(mode := Crashed) else k.(game := game)
      case GameEnd(_) => k.(mode := AskingReady)
      case TurnMessage(id, column) => if id == k.playerId && column == MINUS_ONE then HandleTurnRequest(k) else k
      case ResultMessage(result, column) =>
        if result == Success then ReplayTurn(k, k.playerId, column)
        else if result == Error then k
        else HandleTurnRequest(k)
      case Update(player, column) => ReplayTurn(k, player, column)
      case _ => k
  }

  // The user answers the question about being ready: once per question.
  function ToggleReady(k: Client): Client {
    if k.mode == AskingReady then k.(out := k.out + [Ready(k.playerId)], mode := Idle) else k
  }

  // The user answers the question for a move: once per question, with a column of the board.
  function SendTurn(k: Client, column: u8): Client {
    if k.mode == AskingMove && k.game.Some? && column < |k.game.value.stacks| then
      k.(out := k.out + [TurnMessage(k.playerId, column)], mode := Idle)
    else
      k
  }

  // ---------------------------------------------------------------- what reading does

  // The client after reading messages in order.
  function ReadAll(k: Client, ms: seq<Message>): Client
    decreases |ms|
  {
    if ms == [] then k else ReadAll(HandleRead(k, ms[0]), ms[1..])
  }

  // The message puts its reader in a position to move.
  predicate AsksToMove(k: Client, m: Message) {
    m == TurnMessage(k.playerId, 0xFF) || (m.ResultMessage? && m.result !in {Success, Error})
  }

  // The message reports a successful turn, its reader's own or an opponent's.
  predicate BringsTurn(m: Message) {
    m.Update? || (m.ResultMessage? && m.result == Success)
  }

  predicate IllegalStart(m: Message) {
    m.GameStart? && !(4 <= m.rows < m.columns)
  }

  // What the user is asked afterwards. A client crashes exactly at the start of a game on an
  // illegal board, and at a turn or a request for one while it has no game.
  lemma ReadingAsks(k: Client, m: Message)
    requires k.mode != Crashed
    ensures HandleRead(k, m).mode ==
            if IllegalStart(m) || (k.game.None? && (AsksToMove(k, m) || BringsTurn(m))) then Crashed
            else if m.Connected? || m.GameEnd? then AskingReady
            else if AsksToMove(k, m) then AskingMove
            else k.mode
  {
  }

  // What becomes of the replica: a legal start replaces it, whatever it was; a successful turn
  // is replayed on it; no other message changes it.
  lemma ReadingPlays(k: Client, m: Message)
    requires k.mode != Crashed
    ensures HandleRead(k, m).game ==
            if m.GameStart? && !IllegalStart(m) then NewGame(m.numPlayers, m.first, m.columns, m.rows)
            else if BringsTurn(m) && k.game.Some? then
              Some(TakeTurn(k.game.value, if m.Update? then m.id else k.playerId, m.column).0)
            else k.game
  {
  }

  // The id is that of the last Connected message.
  function LastId(id: u8, ms: seq<Message>): u8 {
    if ms == [] then id
    else if ms[|ms| - 1].Connected? then ms[|ms| - 1].id
    else LastId(id, ms[..|ms| - 1])
  }

  // However many messages a client reads without crashing, it sends one pong for every ping among
  // them and nothing else, it is connected once it was told an id, and it has the last id it was told.
  lemma {:induction false} PingsAreAnswered(k: Client, ms: seq<Message>)
    requires ReadAll(k, ms).mode != Crashed
    ensures ReadAll(k, ms).out == k.out + seq(multiset(ms)[Ping], _ => Pong)
    ensures ReadAll(k, ms).isConnected <==> k.isConnected || exists i :: 0 <= i < |ms| && ms[i].Connected?
    ensures ReadAll(k, ms).playerId == LastId(k.playerId, ms)
  {
    if ms != [] {
      var before, last := ms[..|ms| - 1], ms[|ms| - 1];
      assert ms == before + [last];
      ReadOneMore(k, before, last);
      PingsAreAnswered(k, before);
      OneMoreRead(ReadAll(k, before), last);
    }
  }

  lemma NewClientsAnswer(ms: seq<Message>)
    requires ReadAll(NEW_CLIENT, ms).mode != Crashed
    ensures ReadAll(NEW_CLIENT, ms).out == seq(multiset(ms)[Ping], _ => Pong)
    ensures ReadAll(NEW_CLIENT, ms).isConnected <==> exists i :: 0 <= i < |ms| && ms[i].Connected?
    ensures ReadAll(NEW_CLIENT, ms).playerId == LastId(0, ms)
  {
    PingsAreAnswered(NEW_CLIENT, ms);
    assert [] + seq(multiset(ms)[Ping], _ => Pong) == seq(multiset(ms)[Ping], _ => Pong);
  }

  lemma OneMoreRead(k: Client, m: Message)
    requires HandleRead(k, m).mode != Crashed
    ensures k.mode != Crashed
    ensures var after := HandleRead(k, m);
            && after.out == k.out + (if m == Ping then [Pong] else [])
            && (after.isConnected <==> k.isConnected || m.Connected?)
            && after.playerId == if m.Connected? then m.id else k.playerId
  {
  }

  lemma {:induction false} ReadOneMore(k: Client, ms: seq<Message>, m: Message)
    ensures ReadAll(k, ms + [m]) == HandleRead(ReadAll(k, ms), m)
    decreases |ms|
  {
    if ms == [] {
      assert [m][1..] == [];
    } else {
      assert (ms + [m])[1..] == ms[1..] + [m];
      ReadOneMore(HandleRead(k, ms[0]), ms[1..], m);
    }
  }

  // A user who is asked answers once; the answer carries the id the client was told.
  lemma AnsweringCloses(k: Client, column: u8)
    ensures ToggleReady(ToggleReady(k)) == ToggleReady(k)
    ensures SendTurn(SendTurn(k, column), column) == SendTurn(k, column)
    ensures k.mode == AskingReady ==> ToggleReady(k) == k.(out := k.out + [Ready(k.playerId)], mode := Idle)
    ensures k.mode != AskingReady ==> ToggleReady(k) == k
  {
  }
}
