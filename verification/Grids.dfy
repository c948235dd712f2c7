// The contents of a board as values: one stack of disks per column, bottom disk first.
module Grids {
  import opened Bytes

  type Stacks = seq<seq<u8>>

  const EMPTY_SLOT: u8 := 0
  const MIN_COLUMNS: u8 := 5
  const MIN_ROWS: u8 := 4

  // The dimensions Board's constructor accepts; the subtraction is in int.
  predicate LegalSize(columns: u8, rows: u8) {
    columns >= MIN_COLUMNS && rows >= MIN_ROWS && columns - rows >= 1
  }

  // The owner of a cell. Anything off the board or above a stack is empty.
  function Cell(s: Stacks, c: int, r: int): u8 {
    if 0 <= c < |s| && 0 <= r < |s[c]| then s[c][r] else EMPTY_SLOT
  }

  predicate Fits(s: Stacks, rows: u8) {
    forall c | 0 <= c < |s| :: |s[c]| <= rows
  }

  predicate Full(s: Stacks, rows: u8) {
    forall c | 0 <= c < |s| :: |s[c]| == rows
  }

  predicate OwnersWithin(s: Stacks, players: u8) {
    forall c, r | 0 <= c < |s| && 0 <= r < |s[c]| :: 1 <= s[c][r] <= players
  }

  function Drop(s: Stacks, c: int, player: u8): (t: Stacks)
    requires 0 <= c < |s|
  {
    s[c := s[c] + [player]]
  }

  // ---------------------------------------------------------------- lines

  // Up a column, along a row, and along the two diagonals.
  predicate Axis(dc: int, dr: int) {
    (dc == 0 && dr == 1) || (dc == 1 && (dr == 0 || dr == 1 || dr == -1))
  }

  // The four cells starting at (c, r) have one owner.
  predicate Four(s: Stacks, c: int, r: int, dc: int, dr: int) {
    var p := Cell(s, c, r);
    p != EMPTY_SLOT
    && Cell(s, c + dc, r + dr) == p
    && Cell(s, c + 2 * dc, r + 2 * dr) == p
    && Cell(s, c + 3 * dc, r + 3 * dr) == p
  }

  // The global specification: four equal disks in a line anywhere.
  ghost predicate HasLine(s: Stacks) {
    exists c, r, dc, dr :: Axis(dc, dr) && Four(s, c, r, dc, dr)
  }

  // (x, y) is one of the four cells starting at (c, r).
  predicate Covers(c: int, r: int, dc: int, dr: int, x: int, y: int) {
    (c == x && r == y)
    || (c + dc == x && r + dr == y)
    || (c + 2 * dc == x && r + 2 * dr == y)
    || (c + 3 * dc == x && r + 3 * dr == y)
  }

  // One of the four windows along the axis that contain (c, r) has one owner.
  predicate Through(s: Stacks, c: int, r: int, dc: int, dr: int) {
    Four(s, c, r, dc, dr)
    || Four(s, c - dc, r - dr, dc, dr)
    || Four(s, c - 2 * dc, r - 2 * dr, dc, dr)
    || Four(s, c - 3 * dc, r - 3 * dr, dc, dr)
  }

  predicate WinsAt(s: Stacks, c: int, r: int) {
    exists dc, dr | 0 <= dc <= 1 && -1 <= dr <= 1 :: Axis(dc, dr) && Through(s, c, r, dc, dr)
  }

  // The owner of (c, r) if a window through it is complete, otherwise nobody.
  function WinnerAt(s: Stacks, c: int, r: int): u8 {
    if WinsAt(s, c, r) then Cell(s, c, r) else EMPTY_SLOT
  }

  // The n cells next to (c, r) in direction (dc, dr) have the same owner as (c, r).
  predicate Arm(s: Stacks, c: int, r: int, dc: int, dr: int, n: nat) {
    n <= 3
    && (n >= 1 ==> Cell(s, c + dc, r + dr) == Cell(s, c, r))
    && (n >= 2 ==> Cell(s, c + 2 * dc, r + 2 * dr) == Cell(s, c, r))
    && (n >= 3 ==> Cell(s, c + 3 * dc, r + 3 * dr) == Cell(s, c, r))
  }

  // An arm shorter than three that cannot be extended: what a scan that stopped before
  // counting to four has established.
  predicate ArmEnds(s: Stacks, c: int, r: int, dc: int, dr: int, n: nat) {
    n <= 2
    && Arm(s, c, r, dc, dr, n)
    && (n == 0 ==> Cell(s, c + dc, r + dr) != Cell(s, c, r))
    && (n == 1 ==> Cell(s, c + 2 * dc, r + 2 * dr) != Cell(s, c, r))
    && (n == 2 ==> Cell(s, c + 3 * dc, r + 3 * dr) != Cell(s, c, r))
  }

  // A scan in one direction raised the counter from `start` to `count`: by the length of an
  // arm, which is maximal unless the counter reached four.
  predicate Scanned(s: Stacks, c: int, r: int, dc: int, dr: int, start: int, count: int) {
    1 <= start <= count <= 4
    && Arm(s, c, r, dc, dr, count - start)
    && (count < 4 ==> ArmEnds(s, c, r, dc, dr, count - start))
  }

  // Two opposite scans sharing a counter that starts at one: it reaches four exactly when
  // some window of four cells through (c, r) has one owner.
  lemma ScansDecide(s: Stacks, c: int, r: int, dc: int, dr: int, middle: int, count: int)
    requires Axis(dc, dr) && Cell(s, c, r) != EMPTY_SLOT
    requires Scanned(s, c, r, dc, dr, 1, middle)
    requires if middle == 4 then count == 4 else Scanned(s, c, r, -dc, -dr, middle, count)
    ensures count == 4 <==> Through(s, c, r, dc, dr)
  {
  }

  // The same with the first scan going against the axis, as on the falling diagonal.
  lemma ScansDecideReversed(s: Stacks, c: int, r: int, dc: int, dr: int, middle: int, count: int)
    requires Axis(dc, dr) && Cell(s, c, r) != EMPTY_SLOT
    requires Scanned(s, c, r, -dc, -dr, 1, middle)
    requires if middle == 4 then count == 4 else Scanned(s, c, r, dc, dr, middle, count)
    ensures count == 4 <==> Through(s, c, r, dc, dr)
  {
  }

  lemma ThroughIsLine(s: Stacks, c: int, r: int, dc: int, dr: int)
    requires Axis(dc, dr) && Through(s, c, r, dc, dr)
    ensures HasLine(s)
  {
  }

  // A line that appears with a drop covers the new disk; every other line was there before.
  lemma LineAfterDrop(s: Stacks, col: int, player: u8, c: int, r: int, dc: int, dr: int)
    requires 0 <= col < |s| && Axis(dc, dr)
    requires Four(Drop(s, col, player), c, r, dc, dr)
    ensures Four(s, c, r, dc, dr) || Covers(c, r, dc, dr, col, |s[col]|)
    ensures Covers(c, r, dc, dr, col, |s[col]|) ==>
              Through(Drop(s, col, player), col, |s[col]|, dc, dr) && Cell(Drop(s, col, player), c, r) == player
  {
    CellAfterDrop(s, col, player);
  }

  lemma CellAfterDrop(s: Stacks, col: int, player: u8)
    requires 0 <= col < |s|
    ensures forall x, y :: Cell(Drop(s, col, player), x, y) ==
                           if x == col && y == |s[col]| then player else Cell(s, x, y)
  {
  }

  // ---------------------------------------------------------------- counting

  // Number of disks on the board: the sum of the column heights.
  function Total(s: Stacks): nat {
    if s == [] then 0 else |s[0]| + Total(s[1..])
  }

  // Number of disks a player owns.
  function Owned(s: Stacks, player: u8): nat {
    if s == [] then 0 else multiset(s[0])[player] + Owned(s[1..], player)
  }

  lemma {:induction false} DropCounts(s: Stacks, col: int, player: u8, p: u8)
    requires 0 <= col < |s|
    ensures Total(Drop(s, col, player)) == Total(s) + 1
    ensures Owned(Drop(s, col, player), p) == Owned(s, p) + if p == player then 1 else 0
  {
    if col == 0 {
      assert Drop(s, col, player)[1..] == s[1..];
    } else {
      assert Drop(s, col, player)[1..] == Drop(s[1..], col - 1, player);
      DropCounts(s[1..], col - 1, player, p);
    }
  }

  // isFull: the board is full exactly when as many disks were dropped as it has cells.
  lemma {:induction false} FullByCount(s: Stacks, rows: u8)
    requires Fits(s, rows)
    ensures Total(s) <= |s| * rows
    ensures Full(s, rows) <==> Total(s) == |s| * rows
  {
    if s != [] {
      FullByCount(s[1..], rows);
      assert |s| * rows == rows + |s[1..]| * rows;
      assert Full(s, rows) <==> |s[0]| == rows && Full(s[1..], rows);
    }
  }
}
