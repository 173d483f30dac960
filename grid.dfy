/**
 * The nine cells of a board as a value, and the questions the game asks about them:
 * which lines are three in a row, who owns the first such line, whether the board is
 * full, where the first empty cell is, and how many cells hold a given mark.
 */
module Grids {
  import opened PositionStates

  /**
   * The cells in row-major order: row y, column x is at index 3 * y + x,
   * which the players call position 3 * y + x + 1.
   */
  type Grid = g: seq<PositionState> | |g| == 9
    witness [Empty, Empty, Empty, Empty, Empty, Empty, Empty, Empty, Empty]

  /** Row y, column x lands at index 3 * y + x, and that index leads back to the same row and column. */
  lemma RowMajor(y: nat, x: nat)
    requires y < 3 && x < 3
    ensures (3 * y + x) / 3 == y && (3 * y + x) % 3 == x
  {
  }

  /** The board of a new game: every cell empty. */
  const EmptyGrid: Grid := [Empty, Empty, Empty, Empty, Empty, Empty, Empty, Empty, Empty]

  /**
   * The eight lines in the order the win check scans them: the rows top to bottom
   * (k = 0, 1, 2), the columns left to right (k = 3, 4, 5), the main diagonal (k = 6)
   * and the anti-diagonal (k = 7). Each line is given by its three cell indices.
   */
  function Line(k: nat): (l: (nat, nat, nat))
    requires k < 8
    ensures l.0 < 9 && l.1 < 9 && l.2 < 9
    ensures l.0 < l.1 < l.2
  {
    if k < 3 then (3 * k, 3 * k + 1, 3 * k + 2)
    else if k < 6 then (k - 3, k, k + 3)
    else if k == 6 then (0, 4, 8)
    else (2, 4, 6)
  }

  /** Line `k` holds three equal marks that are not empty. */
  predicate LineWins(g: Grid, k: nat)
    requires k < 8
  {
    var (a, b, c) := Line(k);
    g[a] == g[b] && g[b] == g[c] && g[a] != Empty
  }

  /** Some row, column or diagonal is three in a row. */
  predicate HasWin(g: Grid) {
    exists k :: 0 <= k < 8 && LineWins(g, k)
  }

  /** The first winning line at or after `from` in scan order, or 8 when there is none. */
  function FirstWinningLine(g: Grid, from: nat): (k: nat)
    requires from <= 8
    ensures from <= k <= 8
    ensures k < 8 ==> LineWins(g, k)
    ensures forall j :: from <= j < k ==> !LineWins(g, j)
    decreases 8 - from
  {
    if from == 8 then 8
    else if LineWins(g, from) then from
    else FirstWinningLine(g, from + 1)
  }

  /**
   * The mark the win check records: that of the first winning line in scan order,
   * or Empty when no line wins.
   */
  function FirstWinner(g: Grid): (m: PositionState)
    ensures m != Empty <==> HasWin(g)
    ensures m != Empty ==>
      exists k :: 0 <= k < 8 && LineWins(g, k) && g[Line(k).0] == m &&
        forall j :: 0 <= j < k ==> !LineWins(g, j)
  {
    var k := FirstWinningLine(g, 0);
    if k < 8 then g[Line(k).0] else Empty
  }

  /** When line k wins and no earlier line does, the board is won and k's mark is the winner. */
  lemma FirstWinnerIs(g: Grid, k: nat)
    requires k < 8 && LineWins(g, k)
    requires forall j :: 0 <= j < k ==> !LineWins(g, j)
    ensures HasWin(g)
    ensures FirstWinningLine(g, 0) == k
    ensures FirstWinner(g) == g[Line(k).0]
  {
  }

  /** Row y holds three equal marks that are not empty. */
  predicate RowWins(g: Grid, y: nat)
    requires y < 3
  {
    g[3 * y] == g[3 * y + 1] && g[3 * y + 1] == g[3 * y + 2] && g[3 * y] != Empty
  }

  /** Column x holds three equal marks that are not empty. */
  predicate ColumnWins(g: Grid, x: nat)
    requires x < 3
  {
    g[x] == g[x + 3] && g[x + 3] == g[x + 6] && g[x] != Empty
  }

  /**
   * The line table reads the board directly: the board is won exactly when a row, a
   * column, the main diagonal or the anti-diagonal holds three equal marks; lines 0 to 2
   * are the rows, 3 to 5 the columns, 6 the main diagonal and 7 the anti-diagonal.
   */
  lemma LinesReadDirectly(g: Grid)
    ensures forall y :: 0 <= y < 3 ==> (LineWins(g, y) <==> RowWins(g, y))
    ensures forall x :: 0 <= x < 3 ==> (LineWins(g, x + 3) <==> ColumnWins(g, x))
    ensures LineWins(g, 6) <==> g[0] == g[4] && g[4] == g[8] && g[0] != Empty
    ensures LineWins(g, 7) <==> g[2] == g[4] && g[4] == g[6] && g[2] != Empty
    ensures HasWin(g) <==>
      (exists y :: 0 <= y < 3 && RowWins(g, y)) ||
      (exists x :: 0 <= x < 3 && ColumnWins(g, x)) ||
      (g[0] == g[4] && g[4] == g[8] && g[0] != Empty) ||
      (g[2] == g[4] && g[4] == g[6] && g[2] != Empty)
  {
    if HasWin(g) {
      var k :| 0 <= k < 8 && LineWins(g, k);
      if k < 3 {
        assert RowWins(g, k);
      } else if k < 6 {
        assert ColumnWins(g, k - 3);
      }
    }
    if exists y :: 0 <= y < 3 && RowWins(g, y) {
      var y :| 0 <= y < 3 && RowWins(g, y);
      assert LineWins(g, y);
    }
    if exists x :: 0 <= x < 3 && ColumnWins(g, x) {
      var x :| 0 <= x < 3 && ColumnWins(g, x);
      assert LineWins(g, x + 3);
    }
    assert LineWins(g, 6) <==> g[0] == g[4] && g[4] == g[8] && g[0] != Empty;
    assert LineWins(g, 7) <==> g[2] == g[4] && g[4] == g[6] && g[2] != Empty;
  }

  /** A board whose lines all fail to win has no winner. */
  lemma NoLineWins(g: Grid)
    requires !LineWins(g, 0) && !LineWins(g, 1) && !LineWins(g, 2) && !LineWins(g, 3)
    requires !LineWins(g, 4) && !LineWins(g, 5) && !LineWins(g, 6) && !LineWins(g, 7)
    ensures !HasWin(g)
    ensures FirstWinner(g) == Empty
  {
    forall k | 0 <= k < 8
      ensures !LineWins(g, k)
    {
      if k == 0 {} else if k == 1 {} else if k == 2 {} else if k == 3 {}
      else if k == 4 {} else if k == 5 {} else if k == 6 {} else {}
    }
  }

  /** No cell is empty. */
  predicate IsFull(s: seq<PositionState>) {
    forall i :: 0 <= i < |s| ==> s[i] != Empty
  }

  /** The index of the first empty cell at or after `from`, or `|s|` when there is none. */
  function FirstEmpty(s: seq<PositionState>, from: nat): (r: nat)
    requires from <= |s|
    ensures from <= r <= |s|
    ensures r < |s| ==> s[r] == Empty
    ensures forall j :: from <= j < r ==> s[j] != Empty
    decreases |s| - from
  {
    if from == |s| then from
    else if s[from] == Empty then from
    else FirstEmpty(s, from + 1)
  }

  /** The search for an empty cell comes back empty-handed exactly when the board is full. */
  lemma FirstEmptyFull(s: seq<PositionState>)
    ensures FirstEmpty(s, 0) == |s| <==> IsFull(s)
  {
    var r := FirstEmpty(s, 0);
    if r < |s| {
      assert s[r] == Empty;
    }
  }

  /** How many cells hold `m`. */
  function Count(s: seq<PositionState>, m: PositionState): (n: nat)
    ensures n <= |s|
  {
    if |s| == 0 then 0
    else (if s[0] == m then 1 else 0) + Count(s[1..], m)
  }

  /** Overwriting one cell moves one unit of count from the old content to the new one. */
  lemma {:induction false} CountUpdate(s: seq<PositionState>, i: nat, m: PositionState, c: PositionState)
    requires i < |s|
    ensures Count(s[i := m], c) ==
      Count(s, c) - (if s[i] == c then 1 else 0) + (if m == c then 1 else 0)
  {
    if i == 0 {
      assert s[i := m][1..] == s[1..];
    } else {
      assert s[i := m][1..] == s[1..][i - 1 := m];
      CountUpdate(s[1..], i - 1, m, c);
    }
  }

  /** A mark is absent exactly when its count is zero; so a board is full exactly when it has no empty cell. */
  lemma {:induction false} CountZero(s: seq<PositionState>, m: PositionState)
    ensures Count(s, m) == 0 <==> forall i :: 0 <= i < |s| ==> s[i] != m
  {
    if |s| > 0 {
      CountZero(s[1..], m);
      assert forall i :: 1 <= i < |s| ==> s[i] == s[1..][i - 1];
    }
  }

  /**
   * The balance that alternating moves keep: X has placed as many marks as O and it
   * is X's turn, or X has placed one more and it is O's turn.
   */
  predicate Balanced(g: seq<PositionState>, turn: PositionState) {
    (turn == X && Count(g, X) == Count(g, O)) ||
    (turn == O && Count(g, X) == Count(g, O) + 1)
  }

  /** A new game is balanced. */
  lemma EmptyBalanced()
    ensures Balanced(EmptyGrid, X)
  {
    assert Count(EmptyGrid, X) == 0 by { CountZero(EmptyGrid, X); }
    assert Count(EmptyGrid, O) == 0 by { CountZero(EmptyGrid, O); }
  }

  /** Placing the mark whose turn it is on an empty cell and handing the turn over keeps the balance. */
  lemma MovePreservesBalance(g: seq<PositionState>, turn: PositionState, i: nat)
    requires Balanced(g, turn)
    requires i < |g| && g[i] == Empty
    ensures Balanced(g[i := turn], Flip(turn))
  {
    CountUpdate(g, i, turn, X);
    CountUpdate(g, i, turn, O);
  }

  /** A new board is neither won nor full, and has no winner. */
  lemma EmptyGridUndecided()
    ensures !HasWin(EmptyGrid) && !IsFull(EmptyGrid)
    ensures FirstWinner(EmptyGrid) == Empty
  {
    NoLineWins(EmptyGrid);
    assert EmptyGrid[0] == Empty;
  }

  /** X on the main diagonal and nowhere else: the diagonal is the first winning line, for X. */
  lemma MainDiagonalWin()
    ensures FirstWinningLine([X, Empty, Empty, Empty, X, Empty, Empty, Empty, X], 0) == 6
    ensures FirstWinner([X, Empty, Empty, Empty, X, Empty, Empty, Empty, X]) == X
  {
    FirstWinnerIs([X, Empty, Empty, Empty, X, Empty, Empty, Empty, X], 6);
  }

  /** The full board X O X / O X X / O X O has no winning line. */
  lemma FullBoardWithoutWin()
    ensures IsFull([X, O, X, O, X, X, O, X, O])
    ensures !HasWin([X, O, X, O, X, X, O, X, O])
  {
    NoLineWins([X, O, X, O, X, X, O, X, O]);
  }

  /** Being full does not rule out a win: X X X / O O X / X O O is both full and won by X. */
  lemma FullBoardWithWin()
    ensures IsFull([X, X, X, O, O, X, X, O, O])
    ensures HasWin([X, X, X, O, O, X, X, O, O])
    ensures FirstWinner([X, X, X, O, O, X, X, O, O]) == X
  {
    FirstWinnerIs([X, X, X, O, O, X, X, O, O], 0);
  }
}
