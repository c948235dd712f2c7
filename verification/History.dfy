// A game is a function of its first player and the accepted columns, and the players'
// disks stay balanced.
module History {
  import opened Bytes
  import opened Grids
  import opened Rules

  // Who makes move i when `first` starts.
  function Mover(first: u8, numPlayers: u8, i: nat): (p: int)
    requires 1 <= first <= numPlayers
    ensures 1 <= p <= numPlayers
  {
    Remainder(first - 1 + i, numPlayers) + 1
  }

  // Division by counting: how many whole rounds of n turns there are in a, and what is left.
  function Rounds(a: nat, n: nat): nat
    requires n > 0
  {
    if a < n then 0 else 1 + Rounds(a - n, n)
  }

  function Remainder(a: nat, n: nat): (r: nat)
    requires n > 0
    ensures r < n
  {
    if a < n then a else Remainder(a - n, n)
  }

  // The indices of the moves in one column, in order.
  function MovesIn(moves: seq<u8>, column: int): seq<nat> {
    if moves == [] then []
    else
      var n := |moves| - 1;
      MovesIn(moves[..n], column) + if moves[n] == column then [n] else []
  }

  lemma {:induction false} MovesInOrder(moves: seq<u8>, column: int)
    ensures forall i :: i in MovesIn(moves, column) <==> 0 <= i < |moves| && moves[i] == column
    ensures forall j, k | 0 <= j < k < |MovesIn(moves, column)| ::
              MovesIn(moves, column)[j] < MovesIn(moves, column)[k]
  {
    if moves != [] {
      var before := moves[..|moves| - 1];
      MovesInOrder(before, column);
      assert forall k | 0 <= k < |MovesIn(before, column)| :: MovesIn(before, column)[k] in MovesIn(before, column);
    }
  }

  // The state that a list of accepted columns leads to, without playing it.
  ghost predicate Explains(g: Game, first: u8, moves: seq<u8>) {
    1 <= first <= g.numPlayers
    && g.numTurns == |moves|
    && g.currentPlayer == Mover(first, g.numPlayers, |moves|)
    && (forall c | 0 <= c < |g.stacks| :: ColumnExplained(g, first, moves, c))
    && (forall m | m in moves :: m < |g.stacks|)
    && (moves != [] ==>
          var last := moves[|moves| - 1];
          last < |g.stacks| && g.lastMove == (last, Wrap(|g.stacks[last]| - 1)))
  }

  // Cell (c, r) belongs to whoever made the r-th accepted move in column c.
  ghost predicate ColumnExplained(g: Game, first: u8, moves: seq<u8>, c: int)
    requires 1 <= first <= g.numPlayers && 0 <= c < |g.stacks|
  {
    var at := MovesIn(moves, c);
    |g.stacks[c]| == |at| && forall r | 0 <= r < |at| :: g.stacks[c][r] == Mover(first, g.numPlayers, at[r])
  }

  lemma MoverAdvances(first: u8, numPlayers: u8, i: nat)
    requires 1 <= first <= numPlayers
    ensures Mover(first, numPlayers, i + 1) == NextPlayer(Mover(first, numPlayers, i), numPlayers)
  {
    RemainderNext(first - 1 + i, numPlayers);
  }

  lemma {:induction false} RemainderNext(a: nat, n: nat)
    requires n > 0
    ensures Remainder(a + 1, n) == if Remainder(a, n) + 1 == n then 0 else Remainder(a, n) + 1
    ensures Rounds(a + 1, n) == if Remainder(a, n) + 1 == n then Rounds(a, n) + 1 else Rounds(a, n)
  {
    if a >= n {
      RemainderNext(a - n, n);
    }
  }

  // The rotation is arithmetic modulo the number of players.
  lemma MoverIsModulo(first: u8, numPlayers: u8, i: nat)
    requires 1 <= first <= numPlayers
    ensures Mover(first, numPlayers, i) == (first - 1 + i) % numPlayers + 1
  {
    RemainderIsModulo(first - 1 + i, numPlayers);
  }

  lemma {:induction false} RemainderIsModulo(a: nat, n: nat)
    requires n > 0
    ensures a == Rounds(a, n) * n + Remainder(a, n)
    ensures Rounds(a, n) == a / n && Remainder(a, n) == a % n
  {
    if a >= n {
      RemainderIsModulo(a - n, n);
      assert Rounds(a, n) * n == Rounds(a - n, n) * n + n;
    }
    QuotientOf(a, n, Rounds(a, n), Remainder(a, n));
  }

  lemma QuotientOf(a: nat, n: nat, q: nat, m: nat)
    requires m < n && a == q * n + m
    ensures a / n == q && a % n == m
  {
    var d := a / n - q;
    assert a == (a / n) * n + a % n;
    assert d * n == m - a % n;
    assert -1 < d < 1 by {
      if d != 0 {
        DistanceOfMultiples(d, n);
      }
    }
  }

  lemma DistanceOfMultiples(d: int, n: nat)
    requires d != 0 && n > 0
    ensures d * n >= n || d * n <= 0 - n
  {
  }

  // The whole state after any calls is determined by the first player and the columns of the
  // calls that succeeded.
  lemma {:induction false} HistoryExplains(g: Game, calls: seq<Call>)
    requires Started(g)
    ensures Explains(Play(g, calls), g.currentPlayer, Accepted(g, calls))
  {
    if calls == [] {
      NothingExplained(g);
    } else {
      var before, last := calls[..|calls| - 1], calls[|calls| - 1];
      HistoryExplains(g, before);
      PlayStaysSound(g, before);
      CallExplained(Play(g, before), g.currentPlayer, Accepted(g, before), last);
    }
  }

  ghost predicate Started(g: Game) {
    Sound(g) && Settled(g) && g.numTurns == 0
  }

  lemma PlayStaysSound(g: Game, calls: seq<Call>)
    requires Started(g)
    ensures Sound(Play(g, calls)) && Play(g, calls).numPlayers == g.numPlayers
  {
    PlayKeeps(g, calls);
  }

  lemma NothingExplained(g: Game)
    requires Started(g)
    ensures Explains(g, g.currentPlayer, [])
  {
    EmptyStacks(g.stacks);
    forall c | 0 <= c < |g.stacks| ensures ColumnExplained(g, g.currentPlayer, [], c) {}
  }

  lemma CallExplained(g: Game, first: u8, moves: seq<u8>, call: Call)
    requires Sound(g) && Explains(g, first, moves)
    ensures var (after, result) := TakeTurn(g, call.0, call.1);
            Explains(after, first, moves + if result == Success then [call.1] else [])
  {
    if TakeTurn(g, call.0, call.1).1 == Success {
      MoveExplained(g, first, moves, call.1);
    } else {
      assert moves + [] == moves;
    }
  }

  lemma {:induction false} EmptyStacks(s: Stacks)
    requires Total(s) == 0
    ensures forall c | 0 <= c < |s| :: s[c] == []
  {
    if s != [] {
      EmptyStacks(s[1..]);
      assert forall c | 1 <= c < |s| :: s[c] == s[1..][c - 1];
    }
  }

  lemma MoveExplained(g: Game, first: u8, moves: seq<u8>, column: u8)
    requires Sound(g) && Explains(g, first, moves)
    requires column < |g.stacks| && |g.stacks[column]| < g.rows
    ensures Explains(Moved(g, column), first, moves + [column])
  {
    CountersStayExplained(g, first, moves, column);
    ColumnsStayExplained(g, first, moves, column);
    assert forall m | m in moves + [column] :: m in moves || m == column;
    assert (moves + [column])[|moves|] == column;
  }

  lemma CountersStayExplained(g: Game, first: u8, moves: seq<u8>, column: u8)
    requires Sound(g) && 1 <= first <= g.numPlayers && column < |g.stacks| && |g.stacks[column]| < g.rows
    requires g.numTurns == |moves| && g.currentPlayer == Mover(first, g.numPlayers, |moves|)
    ensures var after := Moved(g, column);
            && after.numTurns == |moves + [column]|
            && after.currentPlayer == Mover(first, g.numPlayers, |moves + [column]|)
            && after.lastMove == (column, Wrap(|after.stacks[column]| - 1))
  {
    TotalIsSmall(g);
    MoverAdvances(first, g.numPlayers, |moves|);
  }

  lemma ColumnsStayExplained(g: Game, first: u8, moves: seq<u8>, column: u8)
    requires 1 <= first <= g.numPlayers && column < |g.stacks|
    requires g.currentPlayer == Mover(first, g.numPlayers, |moves|)
    requires forall c | 0 <= c < |g.stacks| :: ColumnExplained(g, first, moves, c)
    ensures forall c | 0 <= c < |g.stacks| :: ColumnExplained(Moved(g, column), first, moves + [column], c)
  {
    forall c | 0 <= c < |g.stacks| ensures ColumnExplained(Moved(g, column), first, moves + [column], c) {
      ColumnStaysExplained(g, first, moves, column, c);
    }
  }

  lemma ColumnStaysExplained(g: Game, first: u8, moves: seq<u8>, column: u8, c: int)
    requires 1 <= first <= g.numPlayers && 0 <= c < |g.stacks| && column < |g.stacks|
    requires g.currentPlayer == Mover(first, g.numPlayers, |moves|) && ColumnExplained(g, first, moves, c)
    ensures ColumnExplained(Moved(g, column), first, moves + [column], c)
  {
    assert (moves + [column])[..|moves|] == moves;
  }

  // The calls that a list of accepted columns amounts to.
  function Replay(first: u8, numPlayers: u8, moves: seq<u8>): seq<Call>
    requires 1 <= first <= numPlayers
  {
    seq(|moves|, i requires 0 <= i < |moves| => (Mover(first, numPlayers, i), moves[i]))
  }

  // Rejected calls leave no trace: playing only the accepted columns gives the same game in
  // every field, the winner included.
  lemma {:induction false} RejectedCallsLeaveNoTrace(g: Game, calls: seq<Call>)
    requires Started(g)
    ensures Play(g, calls) == Play(g, Replay(g.currentPlayer, g.numPlayers, Accepted(g, calls)))
  {
    if calls != [] {
      var before, last := calls[..|calls| - 1], calls[|calls| - 1];
      RejectedCallsLeaveNoTrace(g, before);
      HistoryExplains(g, before);
      PlayStaysSound(g, before);
      ReplayExtends(g, Play(g, before), Accepted(g, before), last);
    }
  }

  lemma ReplayExtends(start: Game, g: Game, moves: seq<u8>, call: Call)
    requires Sound(start) && g.numPlayers == start.numPlayers && Explains(g, start.currentPlayer, moves)
    requires g == Play(start, Replay(start.currentPlayer, start.numPlayers, moves))
    ensures var (after, result) := TakeTurn(g, call.0, call.1);
            after == Play(start, Replay(start.currentPlayer, start.numPlayers,
                                        moves + if result == Success then [call.1] else []))
  {
    if TakeTurn(g, call.0, call.1).1 == Success {
      ReplayGrows(start.currentPlayer, start.numPlayers, moves, call.1);
      PlayGrows(start, Replay(start.currentPlayer, start.numPlayers, moves), call);
    } else {
      assert moves + [] == moves;
    }
  }

  lemma ReplayGrows(first: u8, numPlayers: u8, moves: seq<u8>, column: u8)
    requires 1 <= first <= numPlayers
    ensures Replay(first, numPlayers, moves + [column])
            == Replay(first, numPlayers, moves) + [(Mover(first, numPlayers, |moves|), column)]
  {
  }

  lemma PlayGrows(g: Game, calls: seq<Call>, call: Call)
    ensures Play(g, calls + [call]) == TakeTurn(Play(g, calls), call.0, call.1).0
  {
    assert (calls + [call])[..|calls|] == calls;
  }

  // ---------------------------------------------------------------- answers

  // What a call of takeTurn is answered, in terms of the lines on the board and of the accepted
  // moves: after any calls on any new game, the first of these that applies.
  ghost function Answer(stacks: Stacks, rows: u8, numPlayers: u8, first: u8, moves: seq<u8>, call: Call): TurnResult
    requires 1 <= first <= numPlayers
  {
    if HasLine(stacks) then GameFinished
    else if call.0 != Mover(first, numPlayers, |moves|) then WrongPlayer
    else if call.1 >= |stacks| then BadColumn
    else if |MovesIn(moves, call.1)| == rows as int then ColumnFull
    else Success
  }

  lemma AnswersExplained(numPlayers: u8, firstPlayer: u8, columns: u8, rows: u8, calls: seq<Call>, call: Call)
    requires LegalSize(columns, rows)
    ensures var start := NewGame(numPlayers, firstPlayer, columns, rows).value;
            var g, moves := Play(start, calls), Accepted(start, calls);
            var first := if 1 <= firstPlayer <= numPlayers then firstPlayer else 1;
            var players: u8 := if numPlayers < 2 then 2 else numPlayers;
            TakeTurn(g, call.0, call.1).1 == Answer(g.stacks, rows, players, first, moves, call)
  {
    var start := NewGame(numPlayers, firstPlayer, columns, rows).value;
    NewGameIsSound(numPlayers, firstPlayer, columns, rows);
    LocalCheckIsGlobal(numPlayers, firstPlayer, columns, rows, calls);
    NewGamesBegin(numPlayers, firstPlayer, columns, rows);
    PlayKeeps(start, calls);
    HistoryExplains(start, calls);
    AnswerFromHistory(Play(start, calls), start.currentPlayer, Accepted(start, calls), call);
  }

  lemma AnswerFromHistory(g: Game, first: u8, moves: seq<u8>, call: Call)
    requires Explains(g, first, moves) && (g.winner == NO_WINNER <==> !HasLine(g.stacks))
    ensures TakeTurn(g, call.0, call.1).1 == Answer(g.stacks, g.rows, g.numPlayers, first, moves, call)
  {
    if call.1 < |g.stacks| {
      assert ColumnExplained(g, first, moves, call.1);
    }
  }

  // ---------------------------------------------------------------- balance

  // How many of the first t moves a player makes.
  function Share(first: u8, numPlayers: u8, p: int, t: nat): nat
    requires 1 <= first <= numPlayers
  {
    if t == 0 then 0 else Share(first, numPlayers, p, t - 1) + if Mover(first, numPlayers, t - 1) == p then 1 else 0
  }

  // A player's place in the first round.
  function Place(first: u8, numPlayers: u8, p: int): int {
    if p >= first then p - first else p - first + numPlayers
  }

  lemma {:induction false} ShareByRounds(first: u8, numPlayers: u8, p: int, t: nat)
    requires 1 <= first <= numPlayers && 1 <= p <= numPlayers
    ensures Share(first, numPlayers, p, t) ==
            Rounds(t, numPlayers) + if Place(first, numPlayers, p) < Remainder(t, numPlayers) then 1 else 0
  {
    if t > 0 {
      ShareByRounds(first, numPlayers, p, t - 1);
      RemainderNext(t - 1, numPlayers);
      MoverByPlace(first, numPlayers, p, t - 1);
    }
  }

  lemma MoverByPlace(first: u8, numPlayers: u8, p: int, i: nat)
    requires 1 <= first <= numPlayers && 1 <= p <= numPlayers
    ensures Mover(first, numPlayers, i) == p <==> Remainder(i, numPlayers) == Place(first, numPlayers, p)
  {
    RemainderOfSum(first - 1, i, numPlayers);
  }

  lemma {:induction false} RemainderOfSum(a: nat, i: nat, n: nat)
    requires a < n
    ensures var m := a + Remainder(i, n);
            Remainder(a + i, n) == if m < n then m else m - n
  {
    if i >= n {
      RemainderOfSum(a, i - n, n);
      assert a + i - n == a + (i - n);
    }
  }

  lemma {:induction false} OwnedIsShare(g: Game, calls: seq<Call>, p: u8)
    requires Started(g)
    ensures Owned(Play(g, calls).stacks, p) ==
            Share(g.currentPlayer, g.numPlayers, p, |Accepted(g, calls)|)
  {
    if calls == [] {
      EmptyStacks(g.stacks);
      TotalOfEmpty(g.stacks);
    } else {
      var before, last := calls[..|calls| - 1], calls[|calls| - 1];
      OwnedIsShare(g, before, p);
      HistoryExplains(g, before);
      PlayStaysSound(g, before);
      ShareGrows(Play(g, before), g.currentPlayer, Accepted(g, before), last, p);
    }
  }

  lemma ShareGrows(g: Game, first: u8, moves: seq<u8>, call: Call, p: u8)
    requires Explains(g, first, moves) && Owned(g.stacks, p) == Share(first, g.numPlayers, p, |moves|)
    ensures var (after, result) := TakeTurn(g, call.0, call.1);
            Owned(after.stacks, p) ==
            Share(first, g.numPlayers, p, |moves + if result == Success then [call.1] else []|)
  {
    if TakeTurn(g, call.0, call.1).1 == Success {
      DropCounts(g.stacks, call.1, call.0, p);
    }
  }

  // After any calls, no player has two disks more than another.
  lemma DisksAreBalanced(g: Game, calls: seq<Call>, p: u8, q: u8)
    requires Started(g)
    requires 1 <= p <= g.numPlayers && 1 <= q <= g.numPlayers
    ensures Owned(Play(g, calls).stacks, p) <= Owned(Play(g, calls).stacks, q) + 1
  {
    OwnedIsShare(g, calls, p);
    OwnedIsShare(g, calls, q);
    ShareByRounds(g.currentPlayer, g.numPlayers, p, |Accepted(g, calls)|);
    ShareByRounds(g.currentPlayer, g.numPlayers, q, |Accepted(g, calls)|);
  }
}
