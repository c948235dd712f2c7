// game.cpp: a game played on a Board, with the eight scans of checkForWinner as loops over
// eight-bit indices.
module Games {
  import opened Bytes
  import opened Grids
  import opened Rendering
  import opened Boards
  import opened Rules

  class FourAcross {
    const numPlayers: u8
    const board: Board
    var numTurns: u32
    var currentPlayer: u8
    var lastMove: (u8, u8)
    var winner: u8

    ghost function Repr(): set<object> {
      {this, board, board.columns, board.rowIndices}
    }

    ghost predicate Valid()
      reads this, board, board.columns, board.rowIndices
    {
      board.Valid() && Sound(View())
    }

    ghost function View(): Game
      reads this, board
    {
      Game(numTurns, numPlayers, currentPlayer, lastMove, winner, board.numRows, board.stacks)
    }

    constructor (numPlayers: u8, firstPlayer: u8, numColumns: u8, numRows: u8)
      requires LegalSize(numColumns, numRows)
      ensures Valid() && fresh(Repr())
      ensures Some(View()) == NewGame(numPlayers, firstPlayer, numColumns, numRows)
    {
      numTurns := 0;
      this.numPlayers := if numPlayers >= MIN_NUM_PLAYERS then numPlayers else MIN_NUM_PLAYERS;
      currentPlayer := if firstPlayer > DEFAULT_FIRST_PLAYER && firstPlayer <= numPlayers
                       then firstPlayer else DEFAULT_FIRST_PLAYER;
      lastMove := (0, 0);
      winner := NO_WINNER;
      board := new Board(numColumns, numRows);
      new;
      NewGameIsSound(numPlayers, firstPlayer, numColumns, numRows);
      assert board.stacks == NewGame(numPlayers, firstPlayer, numColumns, numRows).value.stacks;
    }

    // Construction as callers see it: null stands for the exception Board's constructor throws.
    static method Create(numPlayers: u8, firstPlayer: u8, numColumns: u8, numRows: u8) returns (game: FourAcross?)
      ensures game == null <==> NewGame(numPlayers, firstPlayer, numColumns, numRows) == None
      ensures game != null ==>
                && fresh(game.Repr()) && game.Valid()
                && Some(game.View()) == NewGame(numPlayers, firstPlayer, numColumns, numRows)
    {
      if !LegalSize(numColumns, numRows) {
        return null;
      }
      game := new FourAcross(numPlayers, firstPlayer, numColumns, numRows);
    }

    // BadColumn can only come from the drop: the calls after it never throw.
    method TakeTurn(player: u8, column: u8) returns (result: TurnResult)
      requires Valid()
      modifies this, board`stacks, board.columns, board.rowIndices
      ensures Valid()
      ensures (View(), result) == Rules.TakeTurn(old(View()), player, column)
      ensures result != Success ==> unchanged(this) && unchanged(board.columns) && unchanged(board.rowIndices)
    {
      if winner != NO_WINNER {
        return GameFinished;
      }
      if currentPlayer != player {
        return WrongPlayer;
      }
      var dropSuccessful := board.DropPieceInColumn(column, player);
      match dropSuccessful
      case OutOfRange =>
        return BadColumn;
      case Ok(dropped) =>
        if !dropped {
          return ColumnFull;
        }
        RecordTurn(column, old(View()));
        TurnKeepsSound(old(View()), player, column);
        return Success;
    }

    // The rest of a valid turn, once the disk has been dropped.
    method RecordTurn(column: u8, ghost before: Game)
      requires Sound(before) && column < |before.stacks| && |before.stacks[column]| < before.rows
      requires board.Valid() && View() == before.(stacks := Drop(before.stacks, column, before.currentPlayer))
      modifies this
      ensures View() == Moved(before, column)
    {
      AdvanceTurn(column, before);
      MovedToDisk(before, column);
      var found := CheckForWinner();
      winner := found.value;
    }

    // The last move is where the disk went.
    static lemma MovedToDisk(before: Game, column: u8)
      requires Sound(before) && column < |before.stacks| && |before.stacks[column]| < before.rows
      ensures var g := Moved(before, column);
              && Cell(g.stacks, g.lastMove.0, g.lastMove.1) != EMPTY_SLOT
              && g.winner == WinnerAt(g.stacks, g.lastMove.0, g.lastMove.1)
    {
      CellAfterDrop(before.stacks, column, before.currentPlayer);
    }

    method AdvanceTurn(column: u8, ghost before: Game)
      requires Sound(before) && column < |before.stacks| && |before.stacks[column]| < before.rows
      requires board.Valid() && View() == before.(stacks := Drop(before.stacks, column, before.currentPlayer))
      modifies this
      ensures View() == Moved(before, column).(winner := before.winner)
    {
      currentPlayer := GetNextPlayer();
      lastMove := (column, Wrap(board.GetColumnHeight(column).value - 1));
      numTurns := Wrap32(numTurns + 1);
    }

    function GetNextPlayer(): u8
      reads this
    {
      NextPlayer(currentPlayer, numPlayers)
    }

    ghost predicate LastDiskOnBoard()
      reads this, board, board.columns, board.rowIndices
    {
      board.Valid() && Cell(board.stacks, lastMove.0, lastMove.1) != EMPTY_SLOT
    }

    method CheckForWinner() returns (found: Checked<u8>)
      requires LastDiskOnBoard()
      ensures found == Ok(WinnerAt(board.stacks, lastMove.0, lastMove.1))
    {
      var lastPlayer := board.GetDiskOwnerAt(lastMove.0, lastMove.1).value;
      var inColumn := CheckColumn(lastMove.0, lastMove.1, lastPlayer);
      if inColumn {
        return Ok(lastPlayer);
      }
      var inRow := CheckRow(lastMove.0, lastMove.1, lastPlayer);
      if inRow {
        return Ok(lastPlayer);
      }
      var rising := CheckRisingDiagonal(lastMove.0, lastMove.1, lastPlayer);
      if rising {
        return Ok(lastPlayer);
      }
      var falling := CheckFallingDiagonal(lastMove.0, lastMove.1, lastPlayer);
      if falling {
        return Ok(lastPlayer);
      }
      return Ok(NO_WINNER);
    }

    // Up the column, then down, with one counter.
    method CheckColumn(lastColumn: u8, lastRow: u8, lastPlayer: u8) returns (found: bool)
      requires board.Valid() && lastPlayer == Cell(board.stacks, lastColumn, lastRow) != EMPTY_SLOT
      ensures found <==> Through(board.stacks, lastColumn, lastRow, 0, 1)
    {
      var count := ScanUp(lastColumn, lastRow, lastPlayer, 1);
      ghost var middle := count;
      if count < 4 {
        count := ScanDown(lastColumn, lastRow, lastPlayer, count);
      }
      ScansDecide(board.stacks, lastColumn, lastRow, 0, 1, middle, count);
      found := count == 4;
    }

    // Along the row, on the copy that getRow makes.
    method CheckRow(lastColumn: u8, lastRow: u8, lastPlayer: u8) returns (found: bool)
      requires board.Valid() && lastPlayer == Cell(board.stacks, lastColumn, lastRow) != EMPTY_SLOT
      ensures found <==> Through(board.stacks, lastColumn, lastRow, 1, 0)
    {
      var copy := board.GetRow(lastRow);
      var row := copy.value;
      var count := ScanRight(row, lastColumn, lastRow, lastPlayer, 1);
      ghost var middle := count;
      if count < 4 {
        count := ScanLeft(row, lastColumn, lastRow, lastPlayer, count);
      }
      ScansDecide(board.stacks, lastColumn, lastRow, 1, 0, middle, count);
      found := count == 4;
    }

    // Up-right, then down-left.
    method CheckRisingDiagonal(lastColumn: u8, lastRow: u8, lastPlayer: u8) returns (found: bool)
      requires board.Valid() && lastPlayer == Cell(board.stacks, lastColumn, lastRow) != EMPTY_SLOT
      ensures found <==> Through(board.stacks, lastColumn, lastRow, 1, 1)
    {
      var count := ScanUpRight(lastColumn, lastRow, lastPlayer, 1);
      ghost var middle := count;
      if count < 4 {
        count := ScanDownLeft(lastColumn, lastRow, lastPlayer, count);
      }
      ScansDecide(board.stacks, lastColumn, lastRow, 1, 1, middle, count);
      found := count == 4;
    }

    // Up-left, then down-right.
    method CheckFallingDiagonal(lastColumn: u8, lastRow: u8, lastPlayer: u8) returns (found: bool)
      requires board.Valid() && lastPlayer == Cell(board.stacks, lastColumn, lastRow) != EMPTY_SLOT
      ensures found <==> Through(board.stacks, lastColumn, lastRow, 1, -1)
    {
      var count := ScanUpLeft(lastColumn, lastRow, lastPlayer, 1);
      ghost var middle := count;
      if count < 4 {
        count := ScanDownRight(lastColumn, lastRow, lastPlayer, count);
      }
      ScansDecideReversed(board.stacks, lastColumn, lastRow, 1, -1, middle, count);
      found := count == 4;
    }

    // Where counting down from an index has got to: the sentinel, once it passes zero.
    static function Back(last: u8, distance: int): int {
      if distance <= last then last - distance else MINUS_ONE
    }

    // Starting above the last move.
    method ScanUp(lastColumn: u8, lastRow: u8, lastPlayer: u8, start: int) returns (count: int)
      requires board.Valid() && lastPlayer == Cell(board.stacks, lastColumn, lastRow) != EMPTY_SLOT
      requires 1 <= start <= 3
      ensures Scanned(board.stacks, lastColumn, lastRow, 0, 1, start, count)
    {
      count := start;
      var row: u8 := Wrap(lastRow + 1);
      while row < board.numRows
        invariant start <= count <= 3
        invariant row == lastRow + 1 + (count - start)
        invariant Arm(board.stacks, lastColumn, lastRow, 0, 1, count - start)
        decreases 4 - count
      {
        var current := board.columns[lastColumn, row];
        if current != lastPlayer {
          break;
        }
        count := count + 1;
        if count == 4 {
          return;
        }
        row := Wrap(row + 1);
      }
    }

    // Starting below the last move, until the index wraps around.
    method ScanDown(lastColumn: u8, lastRow: u8, lastPlayer: u8, start: int) returns (count: int)
      requires board.Valid() && lastPlayer == Cell(board.stacks, lastColumn, lastRow) != EMPTY_SLOT
      requires 1 <= start <= 3
      ensures Scanned(board.stacks, lastColumn, lastRow, 0, -1, start, count)
    {
      count := start;
      var row: u8 := Wrap(lastRow - 1);
      while row != MINUS_ONE
        invariant start <= count <= 3
        invariant row == Back(lastRow, 1 + (count - start)) && count - start <= lastRow
        invariant Arm(board.stacks, lastColumn, lastRow, 0, -1, count - start)
        decreases 4 - count
      {
        var current := board.columns[lastColumn, row];
        if current != lastPlayer {
          break;
        }
        count := count + 1;
        if count == 4 {
          return;
        }
        row := Wrap(row - 1);
      }
    }

    // Starting one to the right of the last move.
    method ScanRight(row: seq<u8>, lastColumn: u8, ghost lastRow: u8, lastPlayer: u8, start: int) returns (count: int)
      requires board.Valid() && lastRow < board.numRows && row == RowOf(board.stacks, lastRow)
      requires lastPlayer == Cell(board.stacks, lastColumn, lastRow) != EMPTY_SLOT
      requires 1 <= start <= 3
      ensures Scanned(board.stacks, lastColumn, lastRow, 1, 0, start, count)
    {
      count := start;
      var col: u8 := Wrap(lastColumn + 1);
      while col < board.numColumns
        invariant start <= count <= 3
        invariant col == lastColumn + 1 + (count - start)
        invariant Arm(board.stacks, lastColumn, lastRow, 1, 0, count - start)
        decreases 4 - count
      {
        var current := row[col];
        if current != lastPlayer {
          break;
        }
        count := count + 1;
        if count == 4 {
          return;
        }
        col := Wrap(col + 1);
      }
    }

    // Starting one to the left of the last move.
    method ScanLeft(row: seq<u8>, lastColumn: u8, ghost lastRow: u8, lastPlayer: u8, start: int) returns (count: int)
      requires board.Valid() && lastRow < board.numRows && row == RowOf(board.stacks, lastRow)
      requires lastPlayer == Cell(board.stacks, lastColumn, lastRow) != EMPTY_SLOT
      requires 1 <= start <= 3
      ensures Scanned(board.stacks, lastColumn, lastRow, -1, 0, start, count)
    {
      count := start;
      var col: u8 := Wrap(lastColumn - 1);
      while col != MINUS_ONE
        invariant start <= count <= 3
        invariant col == Back(lastColumn, 1 + (count - start)) && count - start <= lastColumn
        invariant Arm(board.stacks, lastColumn, lastRow, -1, 0, count - start)
        decreases 4 - count
      {
        var current := row[col];
        if current != lastPlayer {
          break;
        }
        count := count + 1;
        if count == 4 {
          return;
        }
        col := Wrap(col - 1);
      }
    }

    method ScanUpRight(lastColumn: u8, lastRow: u8, lastPlayer: u8, start: int) returns (count: int)
      requires board.Valid() && lastPlayer == Cell(board.stacks, lastColumn, lastRow) != EMPTY_SLOT
      requires 1 <= start <= 3
      ensures Scanned(board.stacks, lastColumn, lastRow, 1, 1, start, count)
    {
      count := start;
      var row: u8, col: u8 := Wrap(lastRow + 1), Wrap(lastColumn + 1);
      while row < board.numRows && col < board.numColumns
        invariant start <= count <= 3
        invariant row == lastRow + 1 + (count - start)
        invariant col == lastColumn + 1 + (count - start)
        invariant Arm(board.stacks, lastColumn, lastRow, 1, 1, count - start)
        decreases 4 - count
      {
        var current := board.GetDiskOwnerAt(col, row).value;
        if current != lastPlayer {
          break;
        }
        count := count + 1;
        if count == 4 {
          return;
        }
        row, col := Wrap(row + 1), Wrap(col + 1);
      }
    }

    method ScanDownLeft(lastColumn: u8, lastRow: u8, lastPlayer: u8, start: int) returns (count: int)
      requires board.Valid() && lastPlayer == Cell(board.stacks, lastColumn, lastRow) != EMPTY_SLOT
      requires 1 <= start <= 3
      ensures Scanned(board.stacks, lastColumn, lastRow, -1, -1, start, count)
    {
      count := start;
      var row: u8, col: u8 := Wrap(lastRow - 1), Wrap(lastColumn - 1);
      while row != MINUS_ONE && col != MINUS_ONE
        invariant start <= count <= 3
        invariant row == Back(lastRow, 1 + (count - start)) && count - start <= lastRow
        invariant col == Back(lastColumn, 1 + (count - start)) && count - start <= lastColumn
        invariant Arm(board.stacks, lastColumn, lastRow, -1, -1, count - start)
        decreases 4 - count
      {
        var current := board.GetDiskOwnerAt(col, row).value;
        if current != lastPlayer {
          break;
        }
        count := count + 1;
        if count == 4 {
          return;
        }
        row, col := Wrap(row - 1), Wrap(col - 1);
      }
    }

    method ScanUpLeft(lastColumn: u8, lastRow: u8, lastPlayer: u8, start: int) returns (count: int)
      requires board.Valid() && lastPlayer == Cell(board.stacks, lastColumn, lastRow) != EMPTY_SLOT
      requires 1 <= start <= 3
      ensures Scanned(board.stacks, lastColumn, lastRow, -1, 1, start, count)
    {
      count := start;
      var row: u8, col: u8 := Wrap(lastRow + 1), Wrap(lastColumn - 1);
      while row < board.numRows && col != MINUS_ONE
        invariant start <= count <= 3
        invariant row == lastRow + 1 + (count - start)
        invariant col == Back(lastColumn, 1 + (count - start)) && count - start <= lastColumn
        invariant Arm(board.stacks, lastColumn, lastRow, -1, 1, count - start)
        decreases 4 - count
      {
        var current := board.GetDiskOwnerAt(col, row).value;
        if current != lastPlayer {
          break;
        }
        count := count + 1;
        if count == 4 {
          return;
        }
        row, col := Wrap(row + 1), Wrap(col - 1);
      }
    }

    method ScanDownRight(lastColumn: u8, lastRow: u8, lastPlayer: u8, start: int) returns (count: int)
      requires board.Valid() && lastPlayer == Cell(board.stacks, lastColumn, lastRow) != EMPTY_SLOT
      requires 1 <= start <= 3
      ensures Scanned(board.stacks, lastColumn, lastRow, 1, -1, start, count)
    {
      count := start;
      var row: u8, col: u8 := Wrap(lastRow - 1), Wrap(lastColumn + 1);
      while row != MINUS_ONE && col < board.numColumns
        invariant start <= count <= 3
        invariant row == Back(lastRow, 1 + (count - start)) && count - start <= lastRow
        invariant col == lastColumn + 1 + (count - start)
        invariant Arm(board.stacks, lastColumn, lastRow, 1, -1, count - start)
        decreases 4 - count
      {
        var current := board.GetDiskOwnerAt(col, row).value;
        if current != lastPlayer {
          break;
        }
        count := count + 1;
        if count == 4 {
          return;
        }
        row, col := Wrap(row - 1), Wrap(col + 1);
      }
    }
  }
}
