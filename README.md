# Tic-tac-toe game board

This project models the `GameBoard` class of a browser tic-tac-toe game. The
board is square, of any size. It stores its `gameSize` cells row-major in an
array of strings, and `''` marks an empty cell. It also keeps whose turn it
is (`'X'` or `'O'`) and a game-over latch. Five operations act on it:

- `performMove` writes a marker into an empty cell and flips the turn.
- `checkForWinner` scans in a fixed order: the columns, the rows, the main
  diagonal and then the anti-diagonal. It returns 1 when X wins, 2 when O
  wins, 3 for a tie, -1 while the game goes on and -2 once the game is
  over. A win or a tie latches the game over.
- `getCurrentTurn` returns whose turn it is.
- `getCurrentBoard` returns the board.
- `clearBoard` empties the board and reopens the game.

The model has five modules:

- `Lines`: the board geometry. It defines the cell indices that each loop of
  `checkForWinner` visits, and the true lines of the board.
- `Rules`: counting markers along a line. It defines two verdicts on a
  board. `ScanVerdict` is the verdict the scan reaches as written. `Outcome`
  is the verdict the rules of the game call for.
- `Engine`: the board state as a value (`Game`), and each operation as a
  function on it. Lemmas here are about whole sequences of calls.
- `Board`: the class `GameBoard`. Its fields are the source's four fields
  plus `side`, the integer side that stands for `Math.sqrt(gameSize)`; the
  cells are an `array<string>` updated in place. Each method is proved to
  change the object's state exactly as the matching `Engine` function
  changes a `Game`.
- `Finding`: three 3x3 boards on which the anti-diagonal loop, as written,
  disagrees with the rules. On `PhantomBoard` it reports a win where no line
  is complete. On `MissedBoard` it misses a complete line. `PlayedBoard` is
  where `PhantomPlay` ends: alternating moves from the empty board, each
  followed by a check as the page does, with a phantom win at the end.

The source computes the side of the board as `Math.sqrt(gameSize)`. The
model takes the side `S` as a natural number with `gameSize == S * S`, and
requires `S >= 2`. Sides 0 and 1 behave differently in the source, and
"## Left out" says how. A position outside the board reads as `undefined`
in the source, and `undefined == ""` is false (script.js:43, 49-50). The
move is then rejected, and the model does the same.
The class's fields are plain fields here; in the source they are
private (`#gameArray` and the rest).

## Model

| member | source | states |
|---|---|---|
| Board.GameBoard.constructor | script.js:14-20 | The new board has `gameSize` cells, all empty. X is to move and the game is not over. |
| Board.GameBoard.GetCurrentTurn | script.js:27-29 | Returns the current turn, which is always 'X' or 'O'. |
| Board.GameBoard.PerformMove | script.js:39-52 | A finished game ignores the move and nothing changes. Otherwise the move is accepted exactly when the position is a cell of the board and that cell is empty. An accepted move writes playerID into that cell only and flips the turn. A rejected move changes nothing. |
| Board.GameBoard.CountMarks | script.js:67-74 | The counting loop, from start while below stop in steps of step. It returns the number of visited cells holding X and the number holding O. |
| Board.GameBoard.CountColumn | script.js:67-74 | The inner column loop for column j counts the X's and O's of exactly the S cells of column j. |
| Board.GameBoard.CountRow | script.js:92-99 | The inner row loop for row j counts the X's and O's of exactly the S cells of row j. |
| Board.GameBoard.ScanColumns | script.js:66-86 | Returns the verdict of the first column, left to right, whose X count (tested first) or O count equals S. If none does, returns "no winner yet". |
| Board.GameBoard.ScanRows | script.js:91-111 | The same scan over the rows, top to bottom. |
| Board.GameBoard.ScanDiagonals | script.js:117-155 | Tests the main diagonal first. If it does not fire, returns the test of the S+1 cells the anti-diagonal loop visits. |
| Board.GameBoard.HasEmptyCell | script.js:159-164 | Returns true exactly when some cell of the board is empty. |
| Board.GameBoard.Scan | script.js:63-168 | Returns ScanVerdict of the current board: the scan phases in the source's order, then the tie test. |
| Board.GameBoard.CheckForWinner | script.js:59-169 | A finished game returns -2 and nothing changes. Otherwise returns 1, 2, 3 or -1 for the scan verdict. It latches the game over exactly on a win or a tie; the board and the turn are unchanged. |
| Board.GameBoard.GetCurrentBoard | script.js:175-177 | Returns the board's cells. |
| Board.GameBoard.ClearBoard | script.js:185-190 | Afterwards every cell is empty, X is to move and the game is not over; the size is unchanged. Returns the emptied board. |
| Engine.Initial | script.js:14-20 | The initial state is well formed, with every cell empty, X to move and the game not over. |
| Engine.Move | script.js:39-52 | The move is ignored exactly when the game is over. It is accepted exactly when the position is an empty cell of the board, and then only that cell changes and the turn flips. Otherwise the state is unchanged. Well-formedness is kept. |
| Engine.Check | script.js:59-169 | On a finished game, returns AlreadyOver and the state is unchanged. Otherwise returns the scan verdict and leaves cells and turn alone. The game is over afterwards exactly when it already was or the verdict is a win or a tie. |
| Engine.Clear | script.js:185-190 | Clearing gives the initial state for the same side. |
| Engine.Flip | script.js:45-47 | The next turn is always 'X' or 'O'. It is 'O' exactly after 'X', and differs from the current turn when that is 'X' or 'O'. |
| Engine.CheckOnlyLatches | script.js:59-169 | A check changes nothing but the game-over flag. |
| Engine.CheckLatches | script.js:60-62 | Once a check has reported a win or a tie, the next check reports "already over" (-2) and changes nothing. |
| Engine.OccurrencesIsCount | script.js:68-73 | The number of cells holding a marker on the whole board equals the line count of that marker taken over every index of the board. |
| Engine.OccurrencesUpdate | script.js:44 | Writing v over cell i removes one occurrence of the old value and adds one of v; no other marker count changes. |
| Engine.RunKeepsWellFormed | script.js:14-190 | Every sequence of calls keeps the board size fixed and the turn 'X' or 'O'. |
| Engine.FrozenWhileOver | script.js:40-42 | Once the game is over, moves and checks change nothing until the board is cleared. |
| Engine.TurnMatchesFilledMove | script.js:43-48 | A move that does not write '' keeps this invariant: X is to move exactly when an even number of cells is filled. |
| Engine.TurnMatchesFilledStep | script.js:43-48 | One call keeps this invariant: X is to move exactly when an even number of cells is filled. This holds as long as no move writes ''. |
| Engine.TurnMatchesFilledRun | script.js:43-48 | Any such sequence of calls keeps the same invariant. |
| Engine.BalancedStep | script.js:43-48 | One call by the player whose turn it is keeps the marks balanced. |
| Engine.BalancedRun | script.js:43-48 | In a game where each mover plays the current turn's marker, X has as many marks as O when X is to move, and one more when O is to move. |
| Rules.Count | script.js:68-73 | A line's count of a marker is at most the line's length. |
| Rules.CountComplete | script.js:75-81 | A line's count of a marker reaches the line's length exactly when every cell of the line holds the marker. |
| Rules.CountAppend | script.js:139-146 | Counting two lists of cells one after the other adds their counts. |
| Rules.LineVerdict | script.js:75-82 | On a line of S cells, X wins exactly when every cell holds X. O wins exactly when the line is not all X and every cell holds O. Otherwise the line does not fire. On any line, the test compares the X count, then the O count, with S. |
| Rules.FirstWin | script.js:66-155 | A scan over lines only ever returns an X win, an O win or no winner. |
| Rules.FirstWinAt | script.js:75-82 | When line m is the first to fire, the scan returns its verdict. |
| Rules.FirstWinNone | script.js:83-86 | When no line fires, the scan finds no winner. |
| Rules.FirstWinSpec | script.js:66-155 | The scan finds no winner exactly when no line fires. When it finds a verdict, that verdict comes from some line before which no line fires. |
| Rules.FirstWinAppend | script.js:66-155 | Scanning two lists of lines in turn reaches the second only when the first finds nothing. |
| Rules.FirstWinPointwise | script.js:66-155 | Two line lists whose lines get the same verdict place by place give the same scan result. |
| Rules.Code | script.js:57 | The number `checkForWinner` returns for each verdict. The codes are -2 to 3 and never 0; a code is positive exactly when the verdict ends the game (a win or a tie). |
| Rules.ScanVerdict | script.js:63-168 | The verdict the scan reaches on a game that is not over, which is never "already over". |
| Rules.ScanVerdictMeaning | script.js:63-168 | The scan reports a tie exactly when the board is full and no scanned line fires. It reports "no winner yet" exactly when a cell is empty and no scanned line fires. A win is the verdict of a scanned line before which no line fires. |
| Rules.ScanVerdictPhases | script.js:63-168 | The as-written verdict, phase by phase: columns, then rows, then the main diagonal, then the anti-diagonal loop, then the tie test. |
| Rules.OutcomeMeaning | script.js:54-58 | The corrected verdict means what the rules say. X or O wins only with a complete line of its marker, and some win is reported whenever a line is complete. It is a tie exactly when no line is complete and no cell is empty, and "no winner yet" exactly when no line is complete and a cell is empty. |
| Rules.AntiScanCount | script.js:139-146 | The anti-diagonal loop's count is the anti-diagonal's count plus one if the bottom-right corner holds the marker. |
| Rules.AntiScanMissesCompleteDiagonal | script.js:139-155 | When the anti-diagonal is complete and the corner holds the same marker, the loop counts S+1 and its test against S fails. |
| Rules.ScanAgreesAwayFromCorner | script.js:139-155 | While the bottom-right corner holds neither X nor O, the as-written verdict equals the corrected one. |
| Lines.Cell | script.js:92 | The index r*S + c of row r, column c is a cell of the board. |
| Lines.CellDecodes | script.js:92 | Dividing a cell index by S gives its row, and the remainder gives its column. |
| Lines.ColumnCells | script.js:67 | The column loop's cells are the cells of column j, one per row. |
| Lines.RowCells | script.js:92 | The row loop's cells are the cells of row j, one per column. |
| Lines.MainDiagonal | script.js:117 | The main-diagonal loop's cells are the cells (k, k). |
| Lines.AntiDiagonal | script.js:138 | The k-th cell of the true anti-diagonal is the cell in row k, column S-1-k, so its row plus column is S-1. |
| Lines.AntiDiagonalScan | script.js:139 | The anti-diagonal loop visits the anti-diagonal followed by the bottom-right corner, which is not on it. |
| Lines.ColumnStop | script.js:67 | The column loop stops after exactly S cells. |
| Lines.MainStop | script.js:117 | The main-diagonal loop stops after exactly S cells. |
| Lines.AntiStop | script.js:139 | The anti-diagonal loop stops after exactly S+1 cells. |
| Lines.Visited | script.js:67 | The indices a loop from start, while below stop, in steps of step visits. All of them lie in [start, stop), the first is start, and there are none exactly when start >= stop. |
| Lines.VisitedSteps | script.js:67 | A loop from base in steps of step that stops after n indices visits base + t*step for t < n. |
| Lines.VisitedColumn | script.js:67 | The column loop for column j visits exactly the cells of column j. |
| Lines.VisitedRow | script.js:92 | The row loop for row j visits exactly the cells of row j. |
| Lines.VisitedMainDiagonal | script.js:117 | The main-diagonal loop visits exactly the main diagonal. |
| Lines.VisitedAntiDiagonal | script.js:139 | The anti-diagonal loop visits the anti-diagonal and then the bottom-right corner. |
| Lines.ScanLines | script.js:63-155 | The scan's lines in order: the S columns, the S rows, the main diagonal, then the anti-diagonal loop's cells. |
| Lines.WinningLines | script.js:63-155 | The board's true lines in the same order, each of length S, with the true anti-diagonal last. |
| Finding.ScanReportsPhantomWin | script.js:139-151 | On a 3x3 board with X on cells 2, 4 and 8 only, the scan as written reports an X win. |
| Finding.PhantomBoardUndecided | script.js:139-151 | On that board no line is complete, and the corrected verdict is "no winner yet". |
| Finding.ScanMissesRealWin | script.js:139-164 | On a 3x3 board with X on cells 2, 4, 6 and 8 only, the scan as written reports no winner. |
| Finding.MissedBoardWon | script.js:139-151 | On that board the anti-diagonal 2, 4, 6 is complete, and the corrected verdict is an X win. |
| Finding.PlayMoveStep | script.js:39-52 | Each move of PhantomPlay is made by the player to move and is accepted. |
| Finding.QuietBeforeAntiDiagonal | script.js:66-132 | On a 3x3 board with cells 3, 5, 6, 7 and 8 empty, X on 2 and no X on 0, no column, row or main diagonal fires. |
| Finding.Quiet | script.js:63-168 | On such a board the scan as written reports "no winner yet". |
| Finding.CheckQuiet | script.js:59-169 | A check on such a board, while the game is not over, reports "no winner yet" and changes nothing. |
| Finding.PlayCheckStep | script.js:195-199 | Each check PhantomPlay makes between its moves reports "no winner yet" and leaves the state as it was. |
| Finding.PhantomPlayRuns | script.js:39-52 | Starting from an empty 3x3 board, X plays 2, O plays 0, X plays 4, O plays 1 and X plays 8, with a check for a winner after each of the first four moves, as the page's click handler (script.js:195-199) does. Each move is made by the player to move and is accepted. The result is the board with O on 0 and 1 and X on 2, 4 and 8, with O to move, and the game is not over. |
| Finding.PlayedQuietUpToMainDiagonal | script.js:66-132 | On that board no column, row or main diagonal fires. |
| Finding.ScanReportsPlayedWin | script.js:139-151 | On that board the scan as written reports an X win. |
| Finding.PlayedBoardUndecided | script.js:139-151 | On that board no line is complete, and the corrected verdict is "no winner yet". |
| Finding.PhantomWinInPlay | script.js:59-169 | After that play, `checkForWinner` reports an X win and latches the game over, while the rules say the game goes on. |

## Left out

- The page wiring (script.js:1-3 and 193 onward): querying the DOM, click handlers, drawing markers and announcing results. It is I/O outside the class.
- `Math.sqrt` and floating point: the side is an integer parameter with `gameSize == side * side`. A `gameSize` that is not a perfect square is not modelled.
- Boards of side 1 are not modelled. There the anti-diagonal loop steps by 0 (script.js:139). The loop is reached only when cell 0 holds neither X nor O, and then `checkForWinner` never returns. When cell 0 holds X or O, the column scan returns 1 or 2 first (script.js:66-82).
- Boards of side 0 (`gameSize` 0) are not modelled. There no column or row is scanned. The main-diagonal loop counts nothing, and 0 equals `Math.sqrt(0)`, so `checkForWinner` returns 1 (an X win) on the empty board (script.js:117, 125-127).
- Board.GameBoard.PerformMove: `position` is an integer. JavaScript's coercion of other keys (strings, fractions) into array indices is not modelled. Any integer outside the board reads as `undefined`, and the move is rejected.
- Board.GameBoard.PerformMove: `playerID` is a string. The loose `==` on other types is not modelled.
- Board.GameBoard.PerformMove: the three results `true`, `false` and `undefined` (the game is over) are the datatype `MoveResult` (Accepted, Rejected, Ignored).
- Board.GameBoard.GetCurrentBoard and Board.GameBoard.ClearBoard return a copy of the cells, not the live array. A caller writing through the returned array is not modelled.
- Board.GameBoard.CheckForWinner: the scan loops live in helper methods (`ScanColumns`, `ScanRows`, `ScanDiagonals`, `HasEmptyCell`, under `Scan`), and the game is latched over in `CheckForWinner` from their verdict. The source sets the latch at each `return`. The order of tests and the values returned are the same.

## Findings

| source | as written | input that shows it | evidently intended | confidence | as-written member | corrected member |
|---|---|---|---|---|---|---|
| script.js:139-155 | The anti-diagonal loop runs from S-1 in steps of S-1 while below S*S. It visits S+1 cells, the anti-diagonal and then the bottom-right corner, and compares the count with S. | A 3x3 board with X on cells 2, 4 and 8 only is reported as an X win, though no line is complete. With X on 2, 4, 6 and 8 only, the complete anti-diagonal 2, 4, 6 is missed (count 4, not 3), and the result is "no winner yet". The phantom win arises in ordinary alternating play: after X2, O0, X4, O1, X8, with a check after every move, the first four checks report "no winner yet" and the one after X8 reports an X win. The missed-win board does not arise when the check runs after every move: the loop already counts three X's as soon as three of the cells 2, 4, 6 and 8 hold X, and some win is reported then. | Count only the S cells of the anti-diagonal: the loop should stop before the bottom-right corner. | not executed | Finding.PhantomWinInPlay | Rules.OutcomeMeaning |
