# Tic-tac-toe board and game loop

A model of the core of a small tic-tac-toe program. The board state is a 3 by 3
grid of cells plus the mark whose turn it is. The board owns that state and
records the winner. The model covers:

- moves by position number 1 to 9, with their validation;
- the win check, which scans rows, then columns, then the main diagonal, then the
  anti-diagonal;
- the tie check (the board is full);
- the board's text;
- the two-player game loop;
- the "dumb" player, which takes the lowest-numbered free position.

The objects are Dafny classes whose methods change them in place:

- `TicTacToe.BoardState` holds an `array2` grid and the turn.
- `TicTacToe.Board` holds its `BoardState` and the winner.
- `TicTacToe.DumbPlayer` is the first-empty-cell player.

Each method is proved against a specification on values. `Board.Cells()` views the
grid as a row-major sequence of nine cells (`Grids.Grid`). These modules hold the
specifications:

- `Grids`: lines, winners, fullness, counts and the X/O balance.
- `Rendering`: the board's text.
- `GameModel`: where a game between two first-empty-cell players ends.

Output and logging are not modelled. The only input, the players, are parameters.

Behaviour of the program that a reader might not expect, and that the model keeps:

- Two first-empty-cell players do not fill the board: X wins after seven moves. X's fourth mark, at
  position 7, completes the anti-diagonal 3-5-7. The game stops there as an X win,
  and O is never asked for the move that would take position 8
  (`GameModel.FreshDumbGame`, `GameModel.FinalDumbBoard`, `TicTacToe.DumbVersusDumb`).
- The tie check ignores wins: a full board is a tie even when a line wins
  (`Grids.FullBoardWithWin` shows such a board). The game loop checks for a win first.
- A failed win check does not reset the winner: it leaves the winner as it was.
- `play` does not check that the two players hold different symbols. The turn, not the
  player's symbol, decides which mark a move places. So `DumbPlayer.MakeMove` does not
  read `symbol`.
- Handing the turn over maps O to X and every other value to O (`PositionStates.Flip`).

## Model

| member | source | states |
|---|---|---|
| PositionStates.Str | tictactoe.py:13-19 | a cell prints as one character: a space when empty, else the mark's letter |
| PositionStates.StrInjective | tictactoe.py:13-19 | different cell contents print differently, so a cell's text determines the cell |
| PositionStates.Flip | tictactoe.py:74 | the next turn is a mark, and it differs from the current mark |
| PositionStates.FlipTwice | tictactoe.py:74 | handing the turn over twice gives it back to the same mark |
| TicTacToe.BoardState.constructor | tictactoe.py:21-24 | a new state is a fresh 3 by 3 grid of empty cells with X to move |
| TicTacToe.Board.constructor | tictactoe.py:27-30 | a new board has all nine cells empty, X to move, no winner, and is balanced |
| TicTacToe.Board.MakeMove | tictactoe.py:63-78 | it succeeds exactly when p is in 1..9 and cell p is empty; it then places the current mark at p, changes no other cell and flips the turn; when refused nothing changes; the X/O balance is kept |
| Grids.EmptyBalanced | tictactoe.py:22-24 | a new game has equal X and O counts with X to move |
| Grids.MovePreservesBalance | tictactoe.py:72-74 | putting the current mark in an empty cell and flipping the turn keeps #X = #O (X to move) or #X = #O + 1 (O to move) |
| Grids.CountUpdate | tictactoe.py:72-73 | overwriting one cell moves one unit of count from the old content to the new one |
| Grids.CountZero | tictactoe.py:105-110 | a mark's count is zero exactly when no cell holds it |
| Grids.Line | tictactoe.py:83-101 | each of the eight lines is three distinct cells of the board, in increasing order |
| Grids.LinesReadDirectly | tictactoe.py:83-101 | lines 0-2 are the rows, 3-5 the columns, 6 the main and 7 the anti-diagonal, so the board is won exactly when a row, a column or a diagonal holds three equal marks |
| Grids.FirstWinningLine | tictactoe.py:80-103 | the first line at or after `from` that wins, in scan order; every line before it fails, and the answer 8 means no line wins from there on |
| Grids.FirstWinner | tictactoe.py:80-103 | the recorded winner is a mark exactly when some line wins, and then it is the mark of a winning line with no earlier winning line |
| Grids.FirstWinnerIs | tictactoe.py:80-103 | if line k wins and no earlier line does, the board is won, k is the first winning line, and k's mark is the winner |
| Grids.NoLineWins | tictactoe.py:103 | when all eight line tests fail, the board has no win and no winner |
| TicTacToe.Board.CheckWin | tictactoe.py:80-103 | answers exactly whether some line wins; when one does it records the first winning line's mark, otherwise the winner is unchanged |
| TicTacToe.Board.CheckTie | tictactoe.py:105-110 | answers exactly whether every cell is taken |
| Grids.FirstEmpty | tictactoe.py:170-175 | the lowest empty index at or after `from`, or the length when all of them are taken |
| Grids.FirstEmptyFull | tictactoe.py:170-178 | the search finds no empty cell exactly when the board is full |
| TicTacToe.DumbPlayer.constructor | tictactoe.py:146-148 | a new player keeps the symbol it is given |
| GameModel.HalfTurn | tictactoe.py:168-178 | with p the lowest empty index, the move writes the current mark at p, writes nothing else and flips the turn; on a full board it changes nothing |
| TicTacToe.DumbPlayer.MakeMove | tictactoe.py:166-178 | the current mark goes into the lowest-numbered empty position and the turn flips, with no other cell changed; on a full board nothing changes |
| Grids.EmptyGridUndecided | test_tictactoe.py:23-35 | a new board has no winning line, is not full, and has no winner |
| Grids.MainDiagonalWin | test_tictactoe.py:27-30 | X at 1, 5 and 9 wins on the main diagonal, and X is the winner |
| Grids.FullBoardWithoutWin | test_tictactoe.py:33-49 | the full board X O X / O X X / O X O has no winning line |
| Grids.FullBoardWithWin | tictactoe.py:105-110 | the full board X X X / O O X / X O O is both full and won by X |
| TicTacToe.Board.ToString | tictactoe.py:32-42 | the board's text is the rendering of its cells |
| TicTacToe.Board.AppendRow | tictactoe.py:35-38 | appends one row's three cell characters, separated by bars |
| Rendering.RowLayout | tictactoe.py:35-38 | a row's text is cell, bar, cell, bar, cell |
| Rendering.RenderLayout | tictactoe.py:32-42 | the text is three rows, each ending in a newline, with a line of five dashes between consecutive rows |
| Rendering.RowCharAt | tictactoe.py:35-38 | a row's text has five characters, with column x's character at index 2x |
| Rendering.RenderCellAt | tictactoe.py:32-42 | the text has 30 characters, with the character of row y, column x at index 12y + 2x |
| Rendering.RenderRows | tictactoe.py:32-42 | row y's text occupies indices 12y to 12y + 5 |
| Rendering.RenderInjective | tictactoe.py:32-42 | two boards with the same text have the same cells |
| Rendering.BlankRender | tictactoe.py:32-42 | a board with no marks has the text of three blank rows |
| Rendering.EmptyRender | test_tictactoe.py:4-9 | a new board's text is exactly the empty-board literal |
| GameModel.HalfTurnFillsOne | tictactoe.py:126 | on a board with a free cell, one first-empty-cell move fills exactly one cell and flips the turn |
| GameModel.DumbGame | tictactoe.py:124-142 | the game between first-empty-cell players always ends on a board that is won or full, with a mark to move; it terminates because the empty-cell count drops |
| GameModel.TerminalGame | tictactoe.py:124 | a game that is already won or full stays as it is |
| GameModel.DumbGameBalanced | tictactoe.py:124-142 | alternating moves keep the X/O balance through the whole game |
| GameModel.DumbStep | tictactoe.py:124-142 | from an unwon board, the game continues from the board with the lowest empty cell filled |
| GameModel.FilledNoWin | tictactoe.py:124-142 | none of the first six alternating fills from a new board has a winning line |
| GameModel.FilledStep | tictactoe.py:124-142 | before move 7, the n-th first-empty-cell move takes position n + 1 |
| GameModel.FilledGame | tictactoe.py:124-142 | the game after n moves from a new board ends where the game after 7 moves does |
| GameModel.FilledEnds | tictactoe.py:124-142 | no moves is the new board; seven moves is X O X / O X O / X with the anti-diagonal won |
| GameModel.FreshDumbGame | tictactoe.py:120-142 | from a new board the game ends after seven moves at X O X / O X O / X _ _ with O to move |
| GameModel.FinalDumbBoard | tictactoe.py:80-110 | on that final board the anti-diagonal is the first winning line, X is the winner, and the board is not full |
| TicTacToe.Board.Play | tictactoe.py:120-142 | the cells and turn end where the game model says; the winner is the final board's first winner, or unchanged if the game ended full with no winner |
| TicTacToe.Board.PlayRound | tictactoe.py:126-142 | one pass of the loop: p1 moves, then p2 unless p1's move ended the game; it reports whether the game is over, keeps the game model's outcome, and when the game goes on exactly two more cells are taken |
| TicTacToe.Board.GameOver | tictactoe.py:128-133 | the game is over exactly when the board is won or full, and a win is recorded |
| TicTacToe.Board.HalfTurnStep | tictactoe.py:125-127 | one player's move inside the loop is the first-empty-cell move, keeps the game outcome, and fills one cell |
| TicTacToe.DumbVersusDumb | tictactoe.py:187-191 | a new board played by a first-empty-cell X player and O player ends as X O X / O X O / X _ _, with O to move and X the winner |

## Left out

- All console output, the logging calls and the `DEBUG` pause (tictactoe.py:5, 64-66, 68, 76, 81, 121-123, 125, 127, 129, 132, 134, 136, 138, 141, 143, 169, 171, 174, 176, 188): they are side output only.
- `HumanPlayer` (tictactoe.py:157-163), the first `play()` (tictactoe.py:112-118) and `main`'s console setup (tictactoe.py:184-186): they read from the console. The first `play()` is also replaced by the definition at line 120.
- The first `make_move(x, y)` (tictactoe.py:53-61): it is dead code, replaced by the definition at line 63.
- `Player.make_move` and `get_name` (tictactoe.py:150-154, 162-163, 180-181): the abstract move only raises, and the names are only printed.
- `__repr__`, `print_board` and `print_turn` (tictactoe.py:44-51): they exist only for output.
- TicTacToe.Board.Play: it accepts only `DumbPlayer` arguments, which is the combination the program runs. Any other player reads the console.
- The test file's `TicTacToeGame`, `RLPlayer`, `BoardState.__str__`, `BoardState.check_win` and `BoardState.check_tie`: they are not defined in tictactoe.py. The test scenarios are stated instead on the `Board` model, in `Grids` and `Rendering`.
- Python's dynamic typing: `p` is modelled as a mathematical integer, and cells and turns as the three-valued `PositionState`.
