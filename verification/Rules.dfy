// A Four Across game as a value, one takeTurn as a function on it, and what holds after any
// sequence of takeTurn calls.
module Rules {
  import opened Bytes
  import opened Grids

  datatype TurnResult = Error | Success | WrongPlayer | BadColumn | ColumnFull | GameFinished

  const NO_WINNER: u8 := EMPTY_SLOT
  const DEFAULT_FIRST_PLAYER: u8 := 1
  const MIN_NUM_PLAYERS: u8 := 2

  datatype Game = Game(
    numTurns: u32,
    numPlayers: u8,
    currentPlayer: u8,
    lastMove: (u8, u8),
    winner: u8,
    rows: u8,
    stacks: Stacks
  )

  // The constructor; None stands for the std::invalid_argument that Board throws.
  // The first player is compared with the argument numPlayers, not with the corrected field.
  function NewGame(numPlayers: u8, firstPlayer: u8, columns: u8, rows: u8): Option<Game> {
    if LegalSize(columns, rows) then
      Some(Game(
        0,
        if numPlayers >= MIN_NUM_PLAYERS then numPlayers else MIN_NUM_PLAYERS,
        if firstPlayer > DEFAULT_FIRST_PLAYER && firstPlayer <= numPlayers then firstPlayer else DEFAULT_FIRST_PLAYER,
        (0, 0),
        NO_WINNER,
        rows,
        seq(columns, _ => [])
      ))
    else
      None
  }

  // currentPlayer + 1 in eight bits, which may overflow to 0, wrapped around to player 1.
  function NextPlayer(currentPlayer: u8, numPlayers: u8): u8 {
    var next := Wrap(currentPlayer + 1);
    if next > numPlayers || next == 0 then DEFAULT_FIRST_PLAYER else next
  }

  function TakeTurn(g: Game, player: u8, column: u8): (Game, TurnResult) {
    if g.winner != NO_WINNER then
      (g, GameFinished)
    else if g.currentPlayer != player then
      (g, WrongPlayer)
    else if column >= |g.stacks| then
      (g, BadColumn)
    else if |g.stacks[column]| == g.rows then
      (g, ColumnFull)
    else
      (Moved(g, column), Success)
  }

  // The state after the current player's disk went into a column with room.
  function Moved(g: Game, column: u8): Game
    requires column < |g.stacks|
  {
    var row := |g.stacks[column]|;
    var stacks := Drop(g.stacks, column, g.currentPlayer);
    g.(numTurns := Wrap32(g.numTurns + 1),
       currentPlayer := NextPlayer(g.currentPlayer, g.numPlayers),
       lastMove := (column, Wrap(row)),
       winner := WinnerAt(stacks, column, row),
       stacks := stacks)
  }

  // The game is over on the board, whatever the lobby does about it.
  predicate Over(g: Game) {
    g.winner != NO_WINNER || Full(g.stacks, g.rows)
  }

  // ---------------------------------------------------------------- invariants

  predicate Sound(g: Game) {
    SoundParts(g.stacks, g.rows, g.numPlayers, g.currentPlayer, g.numTurns)
  }

  predicate SoundParts(stacks: Stacks, rows: u8, numPlayers: u8, currentPlayer: u8, numTurns: u32) {
    |stacks| < 0x100 && LegalSize(|stacks|, rows)
    && numPlayers >= MIN_NUM_PLAYERS
    && 1 <= currentPlayer <= numPlayers
    && Fits(stacks, rows)
    && OwnersWithin(stacks, numPlayers)
    && numTurns == Total(stacks)
  }

  // The winner field against the global specification: no line anywhere, or every line
  // on the board is the winner's and passes through the last move.
  ghost predicate Settled(g: Game) {
    Verdict(g.stacks, g.winner, g.lastMove.0, g.lastMove.1)
  }

  ghost predicate Verdict(s: Stacks, winner: u8, x: int, y: int) {
    (winner == NO_WINNER <==> !HasLine(s))
    && forall c, r, dc, dr | Axis(dc, dr) && Four(s, c, r, dc, dr) ::
         Cell(s, c, r) == winner && Covers(c, r, dc, dr, x, y)
  }

  lemma NewGameIsSound(numPlayers: u8, firstPlayer: u8, columns: u8, rows: u8)
    requires LegalSize(columns, rows)
    ensures var g := NewGame(numPlayers, firstPlayer, columns, rows).value;
            Sound(g) && Settled(g) && !Over(g) && g.numTurns == 0 && |g.stacks| == columns
  {
    var g := NewGame(numPlayers, firstPlayer, columns, rows).value;
    TotalOfEmpty(g.stacks);
    assert |g.stacks[0]| == 0;
    forall c, r ensures Cell(g.stacks, c, r) == EMPTY_SLOT {}
    assert !HasLine(g.stacks);
  }

  // A board size is accepted from 5 columns and 4 rows on, with more columns than rows. There are
  // at least two players, and the first player asked for begins if it is one of those asked for.
  lemma NewGamesBegin(numPlayers: u8, firstPlayer: u8, columns: u8, rows: u8)
    ensures NewGame(numPlayers, firstPlayer, columns, rows).Some? <==> 4 <= rows < columns
    ensures 4 <= rows < columns ==>
              var g := NewGame(numPlayers, firstPlayer, columns, rows).value;
              && g.numPlayers >= numPlayers && g.numPlayers >= 2 && (g.numPlayers == numPlayers || g.numPlayers == 2)
              && (1 <= firstPlayer <= numPlayers ==> g.currentPlayer == firstPlayer)
              && (!(1 <= firstPlayer <= numPlayers) ==> g.currentPlayer == 1)
              && |g.stacks| == columns && g.rows == rows && g.numTurns == 0 && g.winner == 0 && g.lastMove == (0, 0)
              && forall c, r :: Cell(g.stacks, c, r) == 0
  {
  }

  lemma {:induction false} TotalOfEmpty(s: Stacks)
    requires forall c | 0 <= c < |s| :: s[c] == []
    ensures Total(s) == 0 && forall p :: Owned(s, p) == 0
  {
    if s != [] {
      TotalOfEmpty(s[1..]);
    }
  }

  lemma TurnKeepsSound(g: Game, player: u8, column: u8)
    requires Sound(g)
    ensures Sound(TakeTurn(g, player, column).0)
  {
    if TakeTurn(g, player, column).1 == Success {
      DropStaysSound(g, column);
    }
  }

  lemma DropStaysSound(g: Game, column: u8)
    requires Sound(g) && column < |g.stacks| && |g.stacks[column]| < g.rows
    ensures SoundParts(Drop(g.stacks, column, g.currentPlayer), g.rows, g.numPlayers,
                       NextPlayer(g.currentPlayer, g.numPlayers), Wrap32(g.numTurns + 1))
  {
    TotalIsSmall(g);
    DropCounts(g.stacks, column, g.currentPlayer, g.currentPlayer);
    DropStaysWithin(g.stacks, g.rows, g.numPlayers, column, g.currentPlayer);
  }

  lemma DropStaysWithin(s: Stacks, rows: u8, players: u8, column: int, player: u8)
    requires Fits(s, rows) && OwnersWithin(s, players) && 1 <= player <= players
    requires 0 <= column < |s| && |s[column]| < rows
    ensures Fits(Drop(s, column, player), rows) && OwnersWithin(Drop(s, column, player), players)
  {
  }

  // numTurns never wraps: the largest board has 255 * 254 cells.
  lemma TotalIsSmall(g: Game)
    requires Sound(g)
    ensures g.numTurns <= 0xFF * 0xFF
  {
    FullByCount(g.stacks, g.rows);
    ProductFits(|g.stacks|, g.rows);
  }

  lemma {:induction false} ProductFits(columns: nat, rows: nat)
    requires columns < 0x100 && rows < 0x100
    ensures columns * rows <= 0xFF * 0xFF
    decreases 0x100 - columns
  {
    if columns < 0xFF {
      ProductFits(columns + 1, rows);
      assert (columns + 1) * rows == columns * rows + rows;
    }
  }

  lemma TurnKeepsSettled(g: Game, player: u8, column: u8)
    requires Sound(g) && Settled(g)
    ensures Settled(TakeTurn(g, player, column).0)
  {
    if TakeTurn(g, player, column).1 == Success {
      MoveSettles(g, column);
    }
  }

  lemma MoveSettles(g: Game, column: u8)
    requires column < |g.stacks| && |g.stacks[column]| < 0x100
    requires !HasLine(g.stacks) && g.currentPlayer != NO_WINNER
    ensures Settled(Moved(g, column))
  {
    DropSettles(g.stacks, column, g.currentPlayer);
    MovedFields(g, column);
  }

  lemma MovedFields(g: Game, column: u8)
    requires column < |g.stacks| && |g.stacks[column]| < 0x100
    ensures var after, row := Moved(g, column), |g.stacks[column]|;
            && after.stacks == Drop(g.stacks, column, g.currentPlayer)
            && after.winner == WinnerAt(after.stacks, column, row)
            && after.lastMove == (column, row)
  {
  }

  // On a board without lines, the windows through a dropped disk decide about all lines.
  lemma DropSettles(s: Stacks, column: int, player: u8)
    requires 0 <= column < |s| && !HasLine(s) && player != NO_WINNER
    ensures var t := Drop(s, column, player);
            Verdict(t, WinnerAt(t, column, |s[column]|), column, |s[column]|)
  {
    var t := Drop(s, column, player);
    forall c, r, dc, dr | Axis(dc, dr) && Four(t, c, r, dc, dr)
      ensures Cell(t, c, r) == player && Covers(c, r, dc, dr, column, |s[column]|)
      ensures WinsAt(t, column, |s[column]|)
    {
      LineAfterDrop(s, column, player, c, r, dc, dr);
    }
    if WinsAt(t, column, |s[column]|) {
      WinIsLine(t, column, |s[column]|);
    }
  }

  lemma WinIsLine(s: Stacks, c: int, r: int)
    requires WinsAt(s, c, r)
    ensures HasLine(s)
  {
    var dc, dr :| Axis(dc, dr) && Through(s, c, r, dc, dr);
    ThroughIsLine(s, c, r, dc, dr);
  }

  // ---------------------------------------------------------------- any sequence of calls

  // A takeTurn call: player and column, both arbitrary bytes.
  type Call = (u8, u8)

  function Play(g: Game, calls: seq<Call>): Game {
    if calls == [] then g
    else
      var last := calls[|calls| - 1];
      TakeTurn(Play(g, calls[..|calls| - 1]), last.0, last.1).0
  }

  // The columns of the calls that returned success, in order.
  function Accepted(g: Game, calls: seq<Call>): seq<u8> {
    if calls == [] then []
    else
      var before, last := calls[..|calls| - 1], calls[|calls| - 1];
      Accepted(g, before) + if TakeTurn(Play(g, before), last.0, last.1).1 == Success then [last.1] else []
  }

  lemma {:induction false} PlayKeeps(g: Game, calls: seq<Call>)
    requires Sound(g) && Settled(g)
    ensures Sound(Play(g, calls)) && Settled(Play(g, calls))
    ensures |Play(g, calls).stacks| == |g.stacks| && Play(g, calls).rows == g.rows
    ensures Play(g, calls).numPlayers == g.numPlayers
  {
    if calls != [] {
      var before, last := calls[..|calls| - 1], calls[|calls| - 1];
      PlayKeeps(g, before);
      TurnKeepsSound(Play(g, before), last.0, last.1);
      TurnKeepsSettled(Play(g, before), last.0, last.1);
    }
  }

  // The incremental check through the last disk agrees with the global specification after
  // every sequence of calls, on every board the constructor accepts.
  lemma LocalCheckIsGlobal(numPlayers: u8, firstPlayer: u8, columns: u8, rows: u8, calls: seq<Call>)
    requires LegalSize(columns, rows)
    ensures var g := Play(NewGame(numPlayers, firstPlayer, columns, rows).value, calls);
            Verdict(g.stacks, g.winner, g.lastMove.0, g.lastMove.1)
  {
    NewGameIsSound(numPlayers, firstPlayer, columns, rows);
    PlayKeeps(NewGame(numPlayers, firstPlayer, columns, rows).value, calls);
  }

  // numTurns counts the disks, never exceeds the number of cells, and reaches it exactly
  // when isFull holds.
  lemma TurnsCountDisks(numPlayers: u8, firstPlayer: u8, columns: u8, rows: u8, calls: seq<Call>)
    requires LegalSize(columns, rows)
    ensures var g := Play(NewGame(numPlayers, firstPlayer, columns, rows).value, calls);
            && g.numTurns == Total(g.stacks) <= columns * rows
            && (Full(g.stacks, rows) <==> g.numTurns == columns * rows)
  {
    NewGameIsSound(numPlayers, firstPlayer, columns, rows);
    PlayKeeps(NewGame(numPlayers, firstPlayer, columns, rows).value, calls);
    FullByCount(Play(NewGame(numPlayers, firstPlayer, columns, rows).value, calls).stacks, rows);
  }
}
