/**
 * The game between two first-empty-cell players, as a function of the board and the
 * turn: what one of their moves does, and where repeated moves end.
 */
module GameModel {
  import opened PositionStates
  import opened Grids

  /** The game is over: some line wins or no cell is left. */
  predicate Terminal(g: Grid) {
    HasWin(g) || IsFull(g)
  }

  /**
   * The effect of one first-empty-cell move: the mark whose turn it is goes into the
   * lowest-numbered empty position and the turn passes; a full board stays as it is.
   */
  function HalfTurn(g: Grid, turn: PositionState): (r: (Grid, PositionState))
    ensures IsFull(g) ==> r == (g, turn)
    ensures !IsFull(g) ==>
      exists p :: 0 <= p < 9 && g[p] == Empty && (forall j :: 0 <= j < p ==> g[j] != Empty) &&
        r.0 == g[p := turn] && r.1 == Flip(turn)
  {
    FirstEmptyFull(g);
    var p := FirstEmpty(g, 0);
    if p < 9 then (g[p := turn], Flip(turn)) else (g, turn)
  }

  /** On a board with an empty cell, a first-empty-cell move fills exactly one cell. */
  lemma HalfTurnFillsOne(g: Grid, turn: PositionState)
    requires !IsFull(g) && turn != Empty
    ensures Count(HalfTurn(g, turn).0, Empty) == Count(g, Empty) - 1
    ensures HalfTurn(g, turn).1 == Flip(turn)
  {
    FirstEmptyFull(g);
    CountUpdate(g, FirstEmpty(g, 0), turn, Empty);
  }

  /**
   * Where the game ends when first-empty-cell players move in turn from board `g`
   * with `turn` to move: the first board along the way that is won or full.
   */
  function DumbGame(g: Grid, turn: PositionState): (r: (Grid, PositionState))
    requires turn != Empty
    ensures Terminal(r.0) && r.1 != Empty
    decreases Count(g, Empty)
  {
    if Terminal(g) then (g, turn)
    else
      HalfTurnFillsOne(g, turn);
      var (g', turn') := HalfTurn(g, turn);
      DumbGame(g', turn')
  }

  /** A game that is over stays where it is. */
  lemma TerminalGame(g: Grid, turn: PositionState)
    requires Terminal(g) && turn != Empty
    ensures DumbGame(g, turn) == (g, turn)
  {
  }

  /** A game played by alternating moves ends in a state that is still balanced. */
  lemma {:induction false} DumbGameBalanced(g: Grid, turn: PositionState)
    requires Balanced(g, turn)
    ensures Balanced(DumbGame(g, turn).0, DumbGame(g, turn).1)
    decreases Count(g, Empty)
  {
    if !Terminal(g) {
      HalfTurnFillsOne(g, turn);
      FirstEmptyFull(g);
      MovePreservesBalance(g, turn, FirstEmpty(g, 0));
      var (g', turn') := HalfTurn(g, turn);
      DumbGameBalanced(g', turn');
    }
  }

  /**
   * One step of the game from a board that is not won: the first-empty-cell move goes
   * to cell i, the lowest empty one, and the game continues from there.
   */
  lemma DumbStep(g: Grid, turn: PositionState, i: nat, g': Grid)
    requires turn != Empty && !HasWin(g)
    requires i < 9 && g[i] == Empty && forall j :: 0 <= j < i ==> g[j] != Empty
    requires g' == g[i := turn]
    ensures DumbGame(g, turn) == DumbGame(g', Flip(turn))
  {
    assert FirstEmpty(g, 0) == i;
    assert !IsFull(g);
  }

  /**
   * The board after n first-empty-cell moves from a new board: positions 1 to n hold
   * X, O, X, ... in turn, and the rest are empty.
   */
  function Filled(n: nat): (g: Grid)
    requires n <= 9
  {
    seq(9, i requires 0 <= i < 9 => if i < n then (if i % 2 == 0 then X else O) else Empty)
  }

  /** The mark to move after n moves from a new board. */
  function TurnAfter(n: nat): (t: PositionState) {
    if n % 2 == 0 then X else O
  }

  /** A line that wins on a board still wins once more cells are filled around it. */
  lemma FilledWinGrows(m: nat, n: nat, k: nat)
    requires m <= n <= 9 && k < 8
    requires LineWins(Filled(m), k)
    ensures LineWins(Filled(n), k)
  {
  }

  /** None of the first six alternating fills has a winning line. */
  lemma FilledNoWin(n: nat)
    requires n <= 6
    ensures !HasWin(Filled(n))
  {
    var g := Filled(6);
    assert g == [X, O, X, O, X, O, Empty, Empty, Empty];
    NoLineWins(g);
    if HasWin(Filled(n)) {
      var k :| 0 <= k < 8 && LineWins(Filled(n), k);
      FilledWinGrows(n, 6, k);
    }
  }

  /** While no line is complete, the n-th first-empty-cell move takes position n + 1. */
  lemma FilledStep(n: nat)
    requires n < 7
    ensures DumbGame(Filled(n), TurnAfter(n)) == DumbGame(Filled(n + 1), TurnAfter(n + 1))
  {
    FilledNoWin(n);
    assert Filled(n + 1) == Filled(n)[n := TurnAfter(n)];
    DumbStep(Filled(n), TurnAfter(n), n, Filled(n + 1));
  }

  /** The game that starts after n moves from a new board ends where the one after 7 moves does. */
  lemma {:induction false} FilledGame(n: nat)
    requires n <= 7
    ensures DumbGame(Filled(n), TurnAfter(n)) == DumbGame(Filled(7), TurnAfter(7))
    decreases 7 - n
  {
    if n < 7 {
      FilledStep(n);
      FilledGame(n + 1);
    }
  }

  /**
   * From a new board the first-empty-cell players fill positions 1 to 7 with X, O, X,
   * O, X, O, X, and the game stops there with O to move: O never makes the move that
   * would take position 8.
   */
  lemma FreshDumbGame()
    ensures DumbGame(EmptyGrid, X) == ([X, O, X, O, X, O, X, Empty, Empty], O)
  {
    FilledEnds();
    FilledGame(0);
    TerminalGame(Filled(7), O);
  }

  /** The fills at the two ends of the game, written out. */
  lemma FilledEnds()
    ensures Filled(0) == EmptyGrid
    ensures Filled(7) == [X, O, X, O, X, O, X, Empty, Empty]
    ensures LineWins(Filled(7), 7)
  {
  }

  /**
   * The board the first-empty-cell game ends on: X's fourth mark, at position 7, has
   * completed the anti-diagonal 3-5-7, the first winning line of the scan, so X is the
   * winner; positions 8 and 9 are empty, so it is a win and not a tie.
   */
  lemma FinalDumbBoard()
    ensures FirstWinningLine([X, O, X, O, X, O, X, Empty, Empty], 0) == 7
    ensures FirstWinner([X, O, X, O, X, O, X, Empty, Empty]) == X
    ensures !IsFull([X, O, X, O, X, O, X, Empty, Empty])
  {
    var g7: Grid := [X, O, X, O, X, O, X, Empty, Empty];
    assert LineWins(g7, 7);
    assert !IsFull(g7) by { assert g7[7] == Empty; }
  }
}
