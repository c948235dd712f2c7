// board.cpp: the grid that disks are dropped into.
module Boards {
  import opened Bytes
  import opened Grids
  import opened Rendering

  class Board {
    const numColumns: u8
    const numRows: u8
    const columns: array2<u8>
    const rowIndices: array<u8>

    // The disks as stacks; Valid ties it to the vectors.
    ghost var stacks: Stacks

    ghost predicate Valid()
      reads this, columns, rowIndices
    {
      LegalSize(numColumns, numRows)
      && columns.Length0 == numColumns && columns.Length1 == numRows
      && rowIndices.Length == numColumns
      && |stacks| == numColumns && Fits(stacks, numRows)
      && (forall c | 0 <= c < numColumns :: rowIndices[c] == |stacks[c]|)
      && (forall c, r | 0 <= c < numColumns && 0 <= r < numRows :: columns[c, r] == Cell(stacks, c, r))
    }

    constructor (numColumns: u8, numRows: u8)
      requires LegalSize(numColumns, numRows)
      ensures Valid() && fresh(columns) && fresh(rowIndices)
      ensures this.numColumns == numColumns && this.numRows == numRows
      ensures stacks == seq(numColumns, _ => [])
    {
      this.numColumns := numColumns;
      this.numRows := numRows;
      columns := new u8[numColumns, numRows]((_, _) => EMPTY_SLOT);
      rowIndices := new u8[numColumns](_ => 0);
      stacks := seq(numColumns, _ => []);
    }

    // Construction as callers see it: null stands for the std::invalid_argument thrown.
    static method Create(numColumns: u8, numRows: u8) returns (board: Board?)
      ensures board == null <==> !LegalSize(numColumns, numRows)
      ensures board != null ==>
                && fresh(board) && board.Valid() && fresh(board.columns) && fresh(board.rowIndices)
                && board.numColumns == numColumns && board.numRows == numRows
                && board.stacks == seq(numColumns, _ => [])
    {
      if numColumns < MIN_COLUMNS || numRows < MIN_ROWS || numColumns - numRows < 1 {
        return null;
      }
      board := new Board(numColumns, numRows);
    }

    method IsFull() returns (isBoardFull: bool)
      requires Valid()
      ensures isBoardFull <==> Full(stacks, numRows)
    {
      isBoardFull := true;
      var i: u8 := 0;
      while i < numColumns
        invariant i <= numColumns && isBoardFull
        invariant forall c | 0 <= c < i :: |stacks[c]| == numRows
      {
        if !IsColumnFullInternal(i) {
          isBoardFull := false;
          break;
        }
        i := Wrap(i + 1);
      }
    }

    method DropPieceInColumn(column: u8, playerNum: u8) returns (dropped: Checked<bool>)
      requires Valid()
      modifies this`stacks, columns, rowIndices
      ensures Valid()
      ensures dropped == if column >= numColumns then OutOfRange
                         else Ok(|old(stacks)[column]| < numRows)
      ensures stacks == if dropped == Ok(true) then Drop(old(stacks), column, playerNum) else old(stacks)
      ensures dropped != Ok(true) ==> unchanged(this) && unchanged(columns) && unchanged(rowIndices)
    {
      if !IsColumnInRange(column) {
        return OutOfRange;
      }
      if IsColumnFullInternal(column) {
        return Ok(false);
      }
      CellAfterDrop(stacks, column, playerNum);
      stacks := Drop(stacks, column, playerNum);
      columns[column, rowIndices[column]] := playerNum;
      rowIndices[column] := Wrap(rowIndices[column] + 1);
      return Ok(true);
    }

    function GetDiskOwnerAt(column: u8, row: u8): (owner: Checked<u8>)
      requires Valid()
      reads this, columns, rowIndices
      ensures owner == if column < numColumns && row < numRows then Ok(Cell(stacks, column, row)) else OutOfRange
    {
      if !IsColumnInRange(column) || !IsRowInRange(row) then OutOfRange else Ok(columns[column, row])
    }

    function GetColumnHeight(column: u8): (height: Checked<u8>)
      requires Valid()
      reads this, columns, rowIndices
      ensures height == if column < numColumns then Ok(|stacks[column]|) else OutOfRange
    {
      if !IsColumnInRange(column) then OutOfRange else Ok(rowIndices[column])
    }

    method GetRow(row: u8) returns (boardRow: Checked<seq<u8>>)
      requires Valid()
      ensures boardRow == if row < numRows then Ok(RowOf(stacks, row)) else OutOfRange
    {
      if !IsRowInRange(row) {
        return OutOfRange;
      }
      var owners: seq<u8> := [];
      for c := 0 to numColumns
        invariant owners == RowOf(stacks, row)[..c]
      {
        owners := owners + [columns[c, row]];
      }
      assert owners == RowOf(stacks, row);
      return Ok(owners);
    }

    // operator std::string
    method ToText() returns (text: string)
      requires Valid()
      ensures text == BoardText(stacks, numRows)
    {
      // The grid is shown upright, from the highest row down.
      text := RowToText(numRows - 1);
      text := text + "\n";
      var row: int := numRows - 2;
      while row >= 0
        invariant -1 <= row <= numRows - 2
        invariant text == RowsText(stacks, numRows, numRows - 1 - row)
      {
        text := AppendRow(text, row);
        row := row - 1;
      }
    }

    // The dashed line and the next row below it.
    method AppendRow(text: string, row: u8) returns (longer: string)
      requires Valid() && row < numRows - 1
      requires text == RowsText(stacks, numRows, numRows - 1 - row)
      ensures longer == RowsText(stacks, numRows, numRows - row)
    {
      longer := text + (Dashes(numColumns) + "\n");
      var line := RowToText(row);
      longer := longer + (line + "\n");
    }

    method RowToText(row: u8) returns (line: string)
      requires Valid() && row < numRows
      ensures line == RowText(RowOf(stacks, row))
    {
      var boardRow := GetRow(row);
      var rowView := boardRow.value;
      line := " " + Decimal(rowView[0]);
      assert rowView[..1] == [rowView[0]];
      for col := 1 to numColumns
        invariant line == RowText(rowView[..col])
      {
        line := line + " | " + Decimal(rowView[col]);
        assert rowView[..col + 1][..col] == rowView[..col];
      }
      assert rowView[..numColumns] == rowView;
    }

    predicate IsColumnFullInternal(column: u8)
      requires Valid() && column < numColumns
      reads this, columns, rowIndices
    {
      rowIndices[column] == numRows
    }

    predicate IsColumnInRange(column: u8) {
      column < numColumns
    }

    predicate IsRowInRange(row: u8) {
      row < numRows
    }
  }
}
