/**
 * The game objects: the board state (a 3 by 3 grid and whose turn it is), the board
 * that owns it and records the winner, and the player that always takes the
 * lowest-numbered free position. Every operation changes these objects in place.
 */
module TicTacToe {
  import opened PositionStates
  import opened Grids
  import opened Rendering
  import opened GameModel

  /** The grid, addressed as board[row, column], and the mark whose move comes next. */
  class BoardState {
    const board: array2<PositionState>
    var turn: PositionState

    /** A new state: three rows of three empty cells, and X to move. */
    constructor ()
      ensures fresh(board)
      ensures board.Length0 == 3 && board.Length1 == 3
      ensures forall y, x :: 0 <= y < 3 && 0 <= x < 3 ==> board[y, x] == Empty
      ensures turn == X
    {
      board := new PositionState[3, 3]((y, x) => Empty);
      turn := X;
    }
  }

  /** A game board: its state, and the winner recorded by the last successful win check. */
  class Board {
    const boardState: BoardState
    var winner: PositionState

    /** The grid is 3 by 3 and the turn is one of the two marks. */
    ghost predicate Valid()
      reads boardState
    {
      boardState.board.Length0 == 3 && boardState.board.Length1 == 3 &&
      boardState.turn != Empty
    }

    /** The cells in row-major order: position p is `Cells()[p - 1]`. */
    ghost function Cells(): (g: Grid)
      reads boardState.board
      requires boardState.board.Length0 == 3 && boardState.board.Length1 == 3
    {
      seq(9, i requires 0 <= i < 9 reads boardState.board => boardState.board[i / 3, i % 3])
    }

    /** Row y, column x of the grid is cell 3 * y + x. */
    lemma CellAt(y: nat, x: nat)
      requires boardState.board.Length0 == 3 && boardState.board.Length1 == 3
      requires y < 3 && x < 3
      ensures boardState.board[y, x] == Cells()[3 * y + x]
    {
      RowMajor(y, x);
    }

    /** A new board: every cell empty, X to move, and no winner. */
    constructor ()
      ensures Valid() && fresh(boardState) && fresh(boardState.board)
      ensures Cells() == EmptyGrid
      ensures boardState.turn == X && winner == Empty
      ensures Balanced(Cells(), boardState.turn)
    {
      boardState := new BoardState();
      winner := Empty;
      new;
      assert Cells() == EmptyGrid;
      EmptyBalanced();
    }

    /**
     * Plays position p (1 to 9, row by row). A position off the board or a cell that
     * is taken is refused and nothing changes; otherwise the mark whose turn it is
     * goes into the cell, the turn passes to the other mark, and no other cell changes.
     */
    method MakeMove(p: int) returns (ok: bool)
      requires Valid()
      modifies boardState, boardState.board
      ensures Valid()
      ensures ok <==> 1 <= p <= 9 && old(Cells())[p - 1] == Empty
      ensures ok ==> Cells() == old(Cells())[p - 1 := old(boardState.turn)]
      ensures ok ==> boardState.turn == Flip(old(boardState.turn))
      ensures !ok ==> Cells() == old(Cells()) && boardState.turn == old(boardState.turn)
      ensures Balanced(old(Cells()), old(boardState.turn)) ==> Balanced(Cells(), boardState.turn)
    {
      if p < 1 || p > 9 {
        return false;
      }
      var x := (p - 1) % 3;
      var y := (p - 1) / 3;
      ghost var before, turn := Cells(), boardState.turn;
      assert p - 1 == 3 * y + x;
      if boardState.board[y, x] == Empty {
        boardState.board[y, x] := boardState.turn;
        forall k | 0 <= k < 9
          ensures Cells()[k] == before[p - 1 := turn][k]
        {
          assert Cells()[k] == boardState.board[k / 3, k % 3];
        }
        if Balanced(before, turn) {
          MovePreservesBalance(before, turn, p - 1);
        }
        boardState.turn := if boardState.turn == O then X else O;
      } else {
        return false;
      }
      return true;
    }

    /**
     * Looks for three equal marks in a row, scanning the rows top to bottom, then the
     * columns left to right, then the main diagonal and the anti-diagonal. It answers
     * whether some line wins; when one does it records that first line's mark as the
     * winner, and when none does it leaves the winner as it was.
     */
    method CheckWin() returns (won: bool)
      requires Valid()
      modifies this
      ensures won == HasWin(Cells())
      ensures won ==> winner == FirstWinner(Cells())
      ensures !won ==> winner == old(winner)
    {
      ghost var g := Cells();
      var b := boardState.board;
      for y := 0 to 3
        invariant forall k :: 0 <= k < y ==> !LineWins(g, k)
        invariant winner == old(winner)
      {
        CellAt(y, 0);
        CellAt(y, 1);
        CellAt(y, 2);
        if b[y, 0] == b[y, 1] && b[y, 1] == b[y, 2] && b[y, 0] != Empty {
          winner := b[y, 0];
          FirstWinnerIs(g, y);
          return true;
        }
      }
      for col := 0 to 3
        invariant forall k :: 0 <= k < 3 + col ==> !LineWins(g, k)
        invariant winner == old(winner)
      {
        CellAt(0, col);
        CellAt(1, col);
        CellAt(2, col);
        if b[0, col] == b[1, col] && b[1, col] == b[2, col] && b[0, col] != Empty {
          winner := b[0, col];
          FirstWinnerIs(g, 3 + col);
          return true;
        }
      }
      CellAt(0, 0);
      CellAt(1, 1);
      CellAt(2, 2);
      if b[0, 0] == b[1, 1] && b[1, 1] == b[2, 2] && b[0, 0] != Empty {
        winner := b[0, 0];
        FirstWinnerIs(g, 6);
        return true;
      }
      CellAt(0, 2);
      CellAt(2, 0);
      if b[0, 2] == b[1, 1] && b[1, 1] == b[2, 0] && b[0, 2] != Empty {
        winner := b[0, 2];
        FirstWinnerIs(g, 7);
        return true;
      }
      NoLineWins(g);
      return false;
    }

    /** Whether every cell is taken; a line of three does not matter here. */
    method CheckTie() returns (tie: bool)
      requires Valid()
      ensures tie == IsFull(Cells())
    {
      ghost var g := Cells();
      for y := 0 to 3
        invariant forall i :: 0 <= i < 3 * y ==> g[i] != Empty
      {
        for x := 0 to 3
          invariant forall i :: 0 <= i < 3 * y + x ==> g[i] != Empty
        {
          CellAt(y, x);
          if boardState.board[y, x] == Empty {
            return false;
          }
        }
      }
      return true;
    }

    /** The text of the board, built row by row. */
    method ToString() returns (s: string)
      requires Valid()
      ensures s == Render(Cells())
    {
      ghost var g := Cells();
      s := "";
      for y := 0 to 3
        invariant s == RowsText(g, y)
      {
        s := AppendRow(s, y);
        s := s + "\n";
        if y != 2 {
          s := s + "-----\n";
        }
      }
    }

    /** The inner loop of the rendering: appends row y's cells, separated by bars, to `s`. */
    method AppendRow(s: string, y: nat) returns (s': string)
      requires Valid() && y < 3
      ensures s' == s + RowText(Cells(), y, 3)
    {
      ghost var g := Cells();
      s' := s;
      for x := 0 to 3
        invariant s' == s + RowText(g, y, x)
      {
        CellAt(y, x);
        s' := s' + Str(boardState.board[y, x]);
        if x < 2 {
          s' := s' + "|";
        }
      }
    }

    /**
     * Lets two first-empty-cell players move in turn, p1 first, until the board is won
     * or full. The game is checked after every single move, so a move that ends it is
     * the last one: the other player is not asked. The cells and the turn end where
     * the game model says, and the winner is that of the final board, or unchanged
     * when the game ended full without a winning line.
     */
    method Play(p1: DumbPlayer, p2: DumbPlayer)
      requires Valid()
      modifies this, boardState, boardState.board
      ensures Valid()
      ensures (Cells(), boardState.turn) == DumbGame(old(Cells()), old(boardState.turn))
      ensures HasWin(Cells()) ==> winner == FirstWinner(Cells())
      ensures !HasWin(Cells()) ==> winner == old(winner)
    {
      ghost var start := DumbGame(Cells(), boardState.turn);
      while true
        invariant Valid()
        invariant DumbGame(Cells(), boardState.turn) == start
        invariant winner == old(winner)
        decreases Count(Cells(), Empty)
      {
        var over := GameOver();
        if over {
          break;
        }
        over := PlayRound(p1, p2);
        if over {
          break;
        }
      }
      TerminalGame(Cells(), boardState.turn);
    }

    /**
     * The body of the game loop, entered on a board that is neither won nor full: p1
     * moves, the game is tested, and unless it is over p2 moves and it is tested again.
     * The answer says whether one of those tests ended the game; when none did, two
     * more cells are taken and the winner is as it was.
     */
    method PlayRound(p1: DumbPlayer, p2: DumbPlayer) returns (over: bool)
      requires Valid() && !Terminal(Cells())
      modifies this, boardState, boardState.board
      ensures Valid()
      ensures over == Terminal(Cells())
      ensures DumbGame(Cells(), boardState.turn) == DumbGame(old(Cells()), old(boardState.turn))
      ensures HasWin(Cells()) ==> winner == FirstWinner(Cells())
      ensures !HasWin(Cells()) ==> winner == old(winner)
      ensures !over ==> Count(Cells(), Empty) == old(Count(Cells(), Empty)) - 2
    {
      HalfTurnStep(p1);
      over := GameOver();
      if over {
        return;
      }
      HalfTurnStep(p2);
      over := GameOver();
    }

    /**
     * The test the game loop makes after each move: the win check, and the tie check
     * when there is no win. A win is recorded as `CheckWin` records it.
     */
    method GameOver() returns (over: bool)
      requires Valid()
      modifies this
      ensures over == Terminal(Cells())
      ensures HasWin(Cells()) ==> winner == FirstWinner(Cells())
      ensures !HasWin(Cells()) ==> winner == old(winner)
    {
      over := CheckWin();
      if !over {
        over := CheckTie();
      }
    }

    /**
     * One move of `player` inside the game loop, made on a board that is neither won
     * nor full: the game model's outcome is the same before and after, and one cell
     * fewer is empty.
     */
    method HalfTurnStep(player: DumbPlayer)
      requires Valid()
      requires !Terminal(Cells())
      modifies boardState, boardState.board
      ensures Valid()
      ensures (Cells(), boardState.turn) == HalfTurn(old(Cells()), old(boardState.turn))
      ensures DumbGame(Cells(), boardState.turn) == DumbGame(old(Cells()), old(boardState.turn))
      ensures Count(Cells(), Empty) == Count(old(Cells()), Empty) - 1
    {
      HalfTurnFillsOne(Cells(), boardState.turn);
      player.MakeMove(this);
    }
  }

  /** A player that takes the lowest-numbered free position; its symbol plays no part in the move. */
  class DumbPlayer {
    const symbol: PositionState

    constructor (symbol: PositionState)
      ensures this.symbol == symbol
    {
      this.symbol := symbol;
    }

    /**
     * Tries positions 1 to 9 in order and plays the first one whose cell is empty. On
     * a full board nothing changes.
     */
    method MakeMove(board: Board)
      requires board.Valid()
      modifies board.boardState, board.boardState.board
      ensures board.Valid()
      ensures var p := FirstEmpty(old(board.Cells()), 0);
        if p < 9 then
          board.Cells() == old(board.Cells())[p := old(board.boardState.turn)] &&
          board.boardState.turn == Flip(old(board.boardState.turn))
        else
          board.Cells() == old(board.Cells()) &&
          board.boardState.turn == old(board.boardState.turn)
    {
      ghost var g := board.Cells();
      for p := 1 to 10
        invariant board.Valid()
        invariant board.Cells() == g && board.boardState.turn == old(board.boardState.turn)
        invariant forall j :: 0 <= j < p - 1 ==> g[j] != Empty
      {
        var x := (p - 1) % 3;
        var y := (p - 1) / 3;
        if board.boardState.board[y, x] == Empty {
          var ok := board.MakeMove(p);
          if ok {
            break;
          }
        }
      }
    }
  }

  /**
   * The game the program's entry point sets up, without its console output: a new
   * board, a first-empty-cell player with X and one with O. X wins on the
   * anti-diagonal after seven moves, with positions 8 and 9 left empty.
   */
  method DumbVersusDumb() returns (board: Board)
    ensures board.Valid()
    ensures board.Cells() == [X, O, X, O, X, O, X, Empty, Empty]
    ensures board.boardState.turn == O
    ensures board.winner == X
  {
    board := new Board();
    var p1 := new DumbPlayer(X);
    var p2 := new DumbPlayer(O);
    board.Play(p1, p2);
    FreshDumbGame();
    FinalDumbBoard();
  }
}
