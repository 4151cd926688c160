# Tic-tac-toe board logic in Dafny

This project models the board logic of a small tic-tac-toe player
(`tictactoe.py`). A board is a 3×3 grid whose cells hold `X`, `O` or
`EMPTY`. The program offers:

- the initial board;
- whose turn it is (`player`, by counting marks);
- the legal actions (`actions`, the empty cells);
- the move transition (`result`);
- the winner scan (`winner`);
- the end-of-game test (`terminal`);
- the score of a board (`utility`).

Everything is in one module, `TicTacToe`, in `tictactoe.dfy`.

- The board is an `array2<Cell>`. `result` writes the mover's mark into the
  caller's own board and hands that same object back, as the program does
  through its alias `new_board = board`.
  So `Result` is a method with `modifies board`. It is proved against `Put`, a
  function on the board's value.
- `Player` and `Actions` keep the program's loops: row-by-row counting and
  two nested loops over the cells. They are proved against `ToMove` and
  `Moves`, functions on the board's value.
- `Winner`, `Terminal` and `Utility` only read the board. They are
  functions on its value, a `Grid`; `View(board)` gives the value of a board
  object.
- `Winner` follows the program's scan exactly. The row test has no `EMPTY`
  guard, so the first row whose three cells are equal decides the answer,
  even when that row is all empty. After the rows it checks the main
  diagonal, the left column, the middle column, the anti-diagonal and the
  right column, each only when its first cell is taken.

Where the program's docstrings and its code disagree, the model follows the
code:

- The docstring of `result` (tictactoe.py:51) reads as if a new board is
  returned. Line 58 only aliases the input, so the caller's board is changed
  and then returned.
- The docstring of `winner` (tictactoe.py:66) promises the winner "if there
  is one". The scan stops at an all-empty row, so some won boards report no
  winner (see Findings).
- The docstring of `minimax` (tictactoe.py:119) promises an optimal action.
  The function only raises `NotImplementedError`.

## Model

| member | source | states |
|---|---|---|
| `TicTacToe.InitialState` | tictactoe.py:12-20 | returns a new 3×3 board whose every cell is empty |
| `TicTacToe.InitialStateFacts` | tictactoe.py:16-20 | on the initial board all nine cells are actions, X is to move, no winner is reported and the game is not over |
| `TicTacToe.Occurrences` | tictactoe.py:30-31 | a row's count of a mark is at most the row's length, and is zero exactly when the mark is absent |
| `TicTacToe.Player` | tictactoe.py:23-33 | for any board, the player to move is X exactly when the X count equals the O count, and O otherwise; the loop's running counts are the counts of the rows seen so far |
| `TicTacToe.Actions` | tictactoe.py:36-46 | the returned set holds exactly the pairs (i, j) with 0 ≤ i, j < 3 whose cell is empty |
| `TicTacToe.MovesEmptyIffFull` | tictactoe.py:40-46 | the action set is empty exactly when no cell is empty |
| `TicTacToe.Result` | tictactoe.py:49-61 | an action outside the board's actions (occupied or out of range) is refused and the board is left as it was; otherwise the cell gets the old player-to-move's mark, and the same board object is returned |
| `TicTacToe.Put` | tictactoe.py:58-59 | the written cell holds the new mark and every other cell is unchanged |
| `TicTacToe.TallyPut` | tictactoe.py:29-31 | writing one cell moves one unit of count from the old content to the new mark |
| `TicTacToe.TurnPasses` | tictactoe.py:27-59 | when X leads O by zero or one mark, a valid move keeps that balance and the player to move flips |
| `TicTacToe.WinnerSound` | tictactoe.py:69-89 | a reported winner holds all three cells of some row, column or diagonal |
| `TicTacToe.CheckOrderCoversAllLines` | tictactoe.py:68-89 | every row, column and diagonal is one of the eight lines in the scan order |
| `TicTacToe.EmptyRowStopsScan` | tictactoe.py:69-71 | if an all-empty row is the first row scanned with three equal cells, no winner is reported, whatever later lines hold |
| `TicTacToe.WinnerExact` | tictactoe.py:64-89 | `Winner` is determined on every board: it reports nobody when the scan stops at an all-empty row with no held row above it, and otherwise the player of the first complete line in the scan order |
| `TicTacToe.WinnerIsFirstHeldLine` | tictactoe.py:69-89 | unless an all-empty row comes before it, the player of the first complete line in the scan order is the reported winner |
| `TicTacToe.EmptyRowMasksWin` | tictactoe.py:69-71 | on a board with an empty top row, X on the whole middle row and X one mark ahead of O, no winner is reported, though the intended scan reports X |
| `TicTacToe.IntendedWinner` | tictactoe.py:64-89 | the corrected scan reports a player exactly when that player holds a line, and reports nobody exactly when no line is held |
| `TicTacToe.Terminal` | tictactoe.py:92-102 | the game is over exactly when a winner is reported or no cell is empty |
| `TicTacToe.TerminalIffNoMoves` | tictactoe.py:96-102 | the game is over exactly when a winner is reported or the action set is empty |
| `TicTacToe.Utility` | tictactoe.py:105-114 | the value is 1 exactly when X is reported, −1 exactly when O is, 0 exactly when nobody is, so it lies in {−1, 0, 1} |
| `TicTacToe.UtilityDecided` | tictactoe.py:105-114 | a non-zero utility is given only to a finished game, and the favoured player holds a line |

## Left out

- `minimax` (tictactoe.py:117-121) only raises `NotImplementedError`. There is no search to model.
- The unused `import math` (tictactoe.py:5).
- The `NameError` raised for an invalid action becomes the `NotAValidAction` outcome. Python's exception type is not modelled.
- The `is` tests on marks become plain equality. The truthiness test on the winner becomes "is not `Empty`".
- Boards of other shapes, cells holding other values, and boards whose rows are the same list object are not modelled. A board is a 3×3 `array2<Cell>` with independent cells.
- `Winner`, `Terminal` and `Utility` take the board's value (`View(board)`) rather than the board object. They only read it, so nothing is lost.

## Findings

| source | as written | input that shows it | evidently intended | confidence | as-written member | corrected member |
|---|---|---|---|---|---|---|
| tictactoe.py:69-71 | the row test `row[0] == row[1] == row[2]` has no `EMPTY` guard, so an all-empty row returns `None` before later rows and the columns and diagonals are checked | `[[EMPTY, EMPTY, EMPTY], [X, X, X], [O, O, EMPTY]]` (X has three marks, O two): X holds the middle row, but no winner is reported | report the player of the first complete line, as the documented purpose ("Returns the winner of the game, if there is one") says | not executed; proved about the model | `TicTacToe.EmptyRowMasksWin` | `TicTacToe.IntendedWinner` |

`Terminal` and `Utility` keep calling the as-written `Winner`, because that is
what the program does. `WinnerExact` shows that the two scans differ only
where the scan stops at an all-empty row.
