// Board's conversion to a string, as a function of the cells, and why it loses nothing.
module Rendering {
  import opened Bytes
  import opened Grids

  function Decimal(n: nat): (t: string)
    ensures |t| > 0 && forall i | 0 <= i < |t| :: IsDigit(t[i])
  {
    if n < 10 then [DigitChar(n)] else Decimal(n / 10) + [DigitChar(n % 10)]
  }

  function DigitChar(d: nat): char
    requires d < 10
  {
    '0' + d as char
  }

  predicate IsDigit(ch: char) {
    '0' <= ch <= '9'
  }

  predicate NotNewline(ch: char) {
    ch != '\n'
  }

  function RowOf(s: Stacks, r: int): (cells: seq<u8>)
    ensures |cells| == |s|
  {
    seq(|s|, c => Cell(s, c, r))
  }

  // One row: a space, then the owners separated by bars.
  function RowText(cells: seq<u8>): string
    requires cells != []
  {
    var n := |cells| - 1;
    if n == 0 then " " + Decimal(cells[0]) else RowText(cells[..n]) + " | " + Decimal(cells[n])
  }

  function Dashes(columns: int): string
    requires columns > 0
  {
    seq(3 * columns + (columns - 1), _ => '-')
  }

  // The first `shown` rows from the top, with dashed lines between them.
  function RowsText(s: Stacks, rows: nat, shown: nat): string
    requires s != [] && 1 <= shown <= rows
  {
    var row := RowText(RowOf(s, rows - shown)) + "\n";
    if shown == 1 then row else RowsText(s, rows, shown - 1) + (Dashes(|s|) + "\n") + row
  }

  function BoardText(s: Stacks, rows: nat): string
    requires s != [] && rows > 0
  {
    RowsText(s, rows, rows)
  }

  // ---------------------------------------------------------------- by example

  // The top row first, a dashed line between two rows, owners with several digits included.
  lemma BoardByExample()
    ensures BoardText([[1, 2], [12]], 2) == " 2 | 0\n-------\n 1 | 12\n"
  {
    RowsByExample();
    assert Dashes(2) == "-------";
    TextFromRows([[1, 2], [12]]);
  }

  lemma TextFromRows(s: Stacks)
    requires s != []
    ensures BoardText(s, 2) == RowText(RowOf(s, 1)) + "\n" + (Dashes(|s|) + "\n") + (RowText(RowOf(s, 0)) + "\n")
  {
    assert RowsText(s, 2, 1) == RowText(RowOf(s, 1)) + "\n";
  }

  lemma RowsByExample()
    ensures RowText(RowOf([[1, 2], [12]], 1)) == " 2 | 0" && RowText(RowOf([[1, 2], [12]], 0)) == " 1 | 12"
  {
    assert RowOf([[1, 2], [12]], 1) == [2, 0] && RowOf([[1, 2], [12]], 0) == [1, 12];
    RowByExample();
  }

  lemma RowByExample()
    ensures RowText([2, 0]) == " 2 | 0" && RowText([1, 12]) == " 1 | 12"
  {
    DecimalsByExample();
    assert [2, 0][..1] == [2] && [1, 12][..1] == [1];
  }

  lemma DecimalsByExample()
    ensures Decimal(0) == "0" && Decimal(1) == "1" && Decimal(2) == "2" && Decimal(12) == "12"
  {
  }

  // ---------------------------------------------------------------- reading it back

  function ValueOf(t: string): int {
    if t == [] then 0 else ValueOf(t[..|t| - 1]) * 10 + (t[|t| - 1] as int - '0' as int)
  }

  lemma {:induction false} ValueOfDecimal(n: nat)
    ensures ValueOf(Decimal(n)) == n
  {
    if n >= 10 {
      ValueOfDecimal(n / 10);
      assert Decimal(n)[..|Decimal(n)| - 1] == Decimal(n / 10);
    } else {
      assert Decimal(n)[..0] == [];
    }
  }

  // Where a text ends in a run of characters of one kind, the run can be cut off in one way only.
  lemma LastRunIsUnique(x: string, u: string, y: string, v: string, kind: char -> bool)
    requires x + u == y + v
    requires forall i | 0 <= i < |u| :: kind(u[i])
    requires forall i | 0 <= i < |v| :: kind(v[i])
    requires x == [] || !kind(x[|x| - 1])
    requires y == [] || !kind(y[|y| - 1])
    ensures x == y && u == v
  {
    CutIsNotLater(x, u, y, v, kind);
    CutIsNotLater(y, v, x, u, kind);
    assert x == (x + u)[..|x|] && y == (y + v)[..|y|];
    assert u == (x + u)[|x|..] && v == (y + v)[|y|..];
  }

  lemma CutIsNotLater(x: string, u: string, y: string, v: string, kind: char -> bool)
    requires x + u == y + v
    requires forall i | 0 <= i < |u| :: kind(u[i])
    requires y == [] || !kind(y[|y| - 1])
    ensures |y| <= |x|
  {
    if y != [] {
      assert forall i | |x| <= i < |x + u| :: kind((x + u)[i]);
      assert (y + v)[|y| - 1] == y[|y| - 1];
    }
  }

  lemma {:induction false} RowTextHasNoNewline(cells: seq<u8>)
    requires cells != []
    ensures forall i | 0 <= i < |RowText(cells)| :: NotNewline(RowText(cells)[i])
    ensures |RowText(cells)| >= 2
  {
    if |cells| > 1 {
      RowTextHasNoNewline(cells[..|cells| - 1]);
    }
  }

  // What precedes the last number of a row.
  function RowHead(cells: seq<u8>): (t: string)
    requires cells != []
    ensures |t| > 0 && t[|t| - 1] == ' '
    ensures t + Decimal(cells[|cells| - 1]) == RowText(cells)
    ensures |cells| == 1 <==> |t| == 1
    ensures |cells| > 1 ==> t == RowText(cells[..|cells| - 1]) + " | "
  {
    var n := |cells| - 1;
    if n == 0 then " " else RowText(cells[..n]) + " | "
  }

  lemma {:induction false} RowTextIsInjective(a: seq<u8>, b: seq<u8>)
    requires a != [] && b != [] && RowText(a) == RowText(b)
    ensures a == b
  {
    var n, m := |a| - 1, |b| - 1;
    LastRunIsUnique(RowHead(a), Decimal(a[n]), RowHead(b), Decimal(b[m]), IsDigit);
    ValueOfDecimal(a[n]);
    ValueOfDecimal(b[m]);
    if n > 0 {
      SuffixCancels(RowText(a[..n]), RowText(b[..m]), " | ");
      RowTextIsInjective(a[..n], b[..m]);
      assert a == a[..n] + [a[n]] && b == b[..m] + [b[m]];
    }
  }

  lemma SuffixCancels(x: string, y: string, suffix: string)
    requires x + suffix == y + suffix
    ensures x == y
  {
    assert x == (x + suffix)[..|x|] && y == (y + suffix)[..|y|];
  }

  // What precedes the last row.
  function Above(s: Stacks, rows: nat, shown: nat): (t: string)
    requires s != [] && 1 <= shown <= rows
    ensures t == [] || t[|t| - 1] == '\n'
    ensures t == [] <==> shown == 1
    ensures t + RowText(RowOf(s, rows - shown)) + "\n" == RowsText(s, rows, shown)
    ensures shown > 1 ==> t == RowsText(s, rows, shown - 1) + (Dashes(|s|) + "\n")
  {
    if shown == 1 then [] else RowsText(s, rows, shown - 1) + (Dashes(|s|) + "\n")
  }

  // Row r counted from the top.
  function RowFromTop(s: Stacks, rows: nat, r: nat): seq<u8> {
    RowOf(s, rows - r)
  }

  lemma {:induction false} RowsTextIsInjective(s: Stacks, rows: nat, shown: nat, t: Stacks, rows': nat, shown': nat)
    requires s != [] && t != [] && 1 <= shown <= rows && 1 <= shown' <= rows'
    requires RowsText(s, rows, shown) == RowsText(t, rows', shown')
    ensures |s| == |t| && shown == shown'
    ensures forall k | 1 <= k <= shown :: RowFromTop(s, rows, k) == RowFromTop(t, rows', k)
  {
    LastRowsAgree(s, rows, shown, t, rows', shown');
    if shown > 1 {
      SuffixCancels(RowsText(s, rows, shown - 1), RowsText(t, rows', shown' - 1), Dashes(|s|) + "\n");
      RowsTextIsInjective(s, rows, shown - 1, t, rows', shown' - 1);
    }
  }

  lemma LastRowsAgree(s: Stacks, rows: nat, shown: nat, t: Stacks, rows': nat, shown': nat)
    requires s != [] && t != [] && 1 <= shown <= rows && 1 <= shown' <= rows'
    requires RowsText(s, rows, shown) == RowsText(t, rows', shown')
    ensures RowFromTop(s, rows, shown) == RowFromTop(t, rows', shown')
    ensures Above(s, rows, shown) == Above(t, rows', shown')
  {
    var row, row' := RowFromTop(s, rows, shown), RowFromTop(t, rows', shown');
    var x, y := Above(s, rows, shown), Above(t, rows', shown');
    RowTextHasNoNewline(row);
    RowTextHasNoNewline(row');
    SuffixCancels(x + RowText(row), y + RowText(row'), "\n");
    LastRunIsUnique(x, RowText(row), y, RowText(row'), NotNewline);
    RowTextIsInjective(row, row');
  }

  // Boards that print alike have the same dimensions and the same owner in every cell.
  lemma TextDeterminesCells(s: Stacks, rows: nat, t: Stacks, rows': nat)
    requires s != [] && t != [] && rows > 0 && rows' > 0
    requires BoardText(s, rows) == BoardText(t, rows')
    ensures |s| == |t| && rows == rows'
    ensures forall c, r | 0 <= r < rows :: Cell(s, c, r) == Cell(t, c, r)
  {
    RowsTextIsInjective(s, rows, rows, t, rows', rows');
    forall c, r | 0 <= r < rows ensures Cell(s, c, r) == Cell(t, c, r) {
      assert RowFromTop(s, rows, rows - r) == RowFromTop(t, rows', rows - r);
      if 0 <= c < |s| {
        assert RowOf(s, r)[c] == RowOf(t, r)[c];
      }
    }
  }

  // Where every disk has an owner, the heights are determined too.
  lemma TextDeterminesBoard(s: Stacks, rows: u8, t: Stacks, rows': u8, players: u8)
    requires s != [] && t != [] && rows > 0 && rows' > 0
    requires Fits(s, rows) && Fits(t, rows') && OwnersWithin(s, players) && OwnersWithin(t, players)
    ensures BoardText(s, rows) == BoardText(t, rows') <==> s == t && rows == rows'
  {
    if BoardText(s, rows) == BoardText(t, rows') {
      TextDeterminesCells(s, rows, t, rows');
      forall c | 0 <= c < |s| ensures s[c] == t[c] {
        assert |s[c]| < rows ==> Cell(s, c, |s[c]|) == Cell(t, c, |s[c]|);
        assert |t[c]| < rows ==> Cell(s, c, |t[c]|) == Cell(t, c, |t[c]|);
        forall r | 0 <= r < |s[c]| ensures s[c][r] == t[c][r] {
          assert Cell(s, c, r) == Cell(t, c, r);
        }
      }
    }
  }
}
