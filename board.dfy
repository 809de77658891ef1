/** The class `GameBoard`: a tic-tac-toe board of any square size whose
  * cells live in an array updated in place. Each method is proved to do to
  * the object's state what the matching function of module Engine does to a
  * Game value. */
module Board {
  import opened Lines
  import opened Rules
  import opened Engine

  class GameBoard {
    /** The cells, row-major; '' is an empty cell. */
    const gameArray: array<string>
    const gameSize: nat
    /** The side length, which the source recomputes as Math.sqrt(gameSize). */
    const side: nat
    var currentTurn: string
    var gameOver: bool

    ghost predicate Valid()
      reads this
    {
      side >= 2 && gameSize == side * side && gameArray.Length == gameSize &&
      (currentTurn == "X" || currentTurn == "O")
    }

    /** The object's state as a Game value. */
    ghost function State(): Game
      reads this, gameArray
    {
      Game(side, gameArray[..], currentTurn, gameOver)
    }

    constructor (gameSize: nat, side: nat)
      requires side >= 2 && gameSize == side * side
      ensures Valid() && fresh(gameArray)
      ensures State() == Initial(side)
    {
      this.gameSize := gameSize;
      this.side := side;
      currentTurn := "X";
      gameOver := false;
      gameArray := new string[gameSize](_ => "");
    }

    method GetCurrentTurn() returns (turn: string)
      requires Valid()
      ensures turn == currentTurn && (turn == "X" || turn == "O")
    {
      turn := currentTurn;
    }

    method PerformMove(position: int, playerID: string) returns (result: MoveResult)
      requires Valid()
      modifies gameArray, this`currentTurn
      ensures Valid()
      ensures (State(), result) == Move(old(State()), position, playerID)
    {
      if gameOver {
        return Ignored;
      }
      if 0 <= position < gameArray.Length && gameArray[position] == "" {
        gameArray[position] := playerID;
        if currentTurn == "X" {
          currentTurn := "O";
        } else {
          currentTurn := "X";
        }
        return Accepted;
      } else {
        return Rejected;
      }
    }

    /** The counting loop each of the four scans of `checkForWinner` runs:
      * i from start, while i < stop, in steps of step, counting the cells
      * that hold 'X' and those that hold 'O'. */
    method CountMarks(start: int, stop: int, step: nat) returns (xCount: nat, oCount: nat)
      requires 0 <= start && stop <= gameArray.Length && step > 0
      ensures xCount == Count(gameArray[..], Visited(start, stop, step), "X")
      ensures oCount == Count(gameArray[..], Visited(start, stop, step), "O")
    {
      ghost var b := gameArray[..];
      xCount, oCount := 0, 0;
      var i := start;
      while i < stop
        invariant start <= i
        invariant xCount + Count(b, Visited(i, stop, step), "X") == Count(b, Visited(start, stop, step), "X")
        invariant oCount + Count(b, Visited(i, stop, step), "O") == Count(b, Visited(start, stop, step), "O")
        decreases stop - i
      {
        if gameArray[i] == "X" {
          xCount := xCount + 1;
        }
        if gameArray[i] == "O" {
          oCount := oCount + 1;
        }
        i := i + step;
      }
    }

    /** The inner loop of the column scan: i from j in steps of side. */
    method CountColumn(j: nat) returns (xCount: nat, oCount: nat)
      requires Valid() && j < side
      ensures xCount == Count(gameArray[..], ColumnCells(side, j), "X")
      ensures oCount == Count(gameArray[..], ColumnCells(side, j), "O")
    {
      VisitedColumn(side, j);
      xCount, oCount := CountMarks(j, gameSize, side);
    }

    /** The inner loop of the row scan: i from j*side up to (j+1)*side. */
    method CountRow(j: nat) returns (xCount: nat, oCount: nat)
      requires Valid() && j < side
      ensures xCount == Count(gameArray[..], RowCells(side, j), "X")
      ensures oCount == Count(gameArray[..], RowCells(side, j), "O")
    {
      VisitedRow(side, j);
      MulLe(j + 1, side, side);
      xCount, oCount := CountMarks(j * side, (j + 1) * side, 1);
    }

    /** The column scan of `checkForWinner`: columns 0 to side - 1 in order,
      * stopping at the first whose X count, then O count, equals side. */
    method ScanColumns() returns (verdict: Verdict)
      requires Valid()
      ensures verdict == FirstWin(gameArray[..], side, Columns(side))
    {
      ghost var b := gameArray[..];
      ghost var columns := Columns(side);
      var j := 0;
      while j < side
        invariant 0 <= j <= side
        invariant forall t :: 0 <= t < j ==> LineVerdict(b, side, columns[t]) == NoWinnerYet
      {
        assert columns[j] == ColumnCells(side, j);
        var xCount, oCount := CountColumn(j);
        if xCount == side {
          FirstWinAt(b, side, columns, j);
          return XWins;
        }
        if oCount == side {
          FirstWinAt(b, side, columns, j);
          return OWins;
        }
        j := j + 1;
      }
      FirstWinNone(b, side, columns);
      return NoWinnerYet;
    }

    /** The row scan of `checkForWinner`: rows 0 to side - 1 in order,
      * stopping at the first whose X count, then O count, equals side. */
    method ScanRows() returns (verdict: Verdict)
      requires Valid()
      ensures verdict == FirstWin(gameArray[..], side, Rows(side))
    {
      ghost var b := gameArray[..];
      ghost var rows := Rows(side);
      var j := 0;
      while j < side
        invariant 0 <= j <= side
        invariant forall t :: 0 <= t < j ==> LineVerdict(b, side, rows[t]) == NoWinnerYet
      {
        assert rows[j] == RowCells(side, j);
        var xCount, oCount := CountRow(j);
        if xCount == side {
          FirstWinAt(b, side, rows, j);
          return XWins;
        }
        if oCount == side {
          FirstWinAt(b, side, rows, j);
          return OWins;
        }
        j := j + 1;
      }
      FirstWinNone(b, side, rows);
      return NoWinnerYet;
    }

    /** The scan of `checkForWinner` on a game that is not over: the
      * columns, the rows, the main diagonal and the anti-diagonal (as its
      * loop visits it), stopping at the first line whose X count, then O
      * count, equals side; then the tie test. */
    method Scan() returns (verdict: Verdict)
      requires Valid()
      ensures verdict == ScanVerdict(gameArray[..], side)
    {
      ghost var b := gameArray[..];
      ScanVerdictPhases(b, side);

      verdict := ScanColumns();
      if verdict != NoWinnerYet {
        return;
      }
      verdict := ScanRows();
      if verdict != NoWinnerYet {
        return;
      }

      verdict := ScanDiagonals();
      if verdict != NoWinnerYet {
        return;
      }

      // Tie: no line fired; the game goes on while some cell is empty.
      var open := HasEmptyCell();
      if open {
        return NoWinnerYet;
      }
      return Tie;
    }

    /** The two diagonal scans of `checkForWinner`: the main diagonal, then
      * the anti-diagonal as its loop visits it. */
    method ScanDiagonals() returns (verdict: Verdict)
      requires Valid()
      ensures verdict ==
        var main := LineVerdict(gameArray[..], side, MainDiagonal(side));
        if main != NoWinnerYet then main
        else LineVerdict(gameArray[..], side, AntiDiagonalScan(side))
    {
      // Top-left to bottom-right diagonal.
      VisitedMainDiagonal(side);
      var xCount, oCount := CountMarks(0, gameSize, side + 1);
      if xCount == side {
        return XWins;
      }
      if oCount == side {
        return OWins;
      }

      // Top-right to bottom-left diagonal: from side - 1 in steps of side - 1,
      // which also reaches the bottom-right corner.
      VisitedAntiDiagonal(side);
      xCount, oCount := CountMarks(side - 1, gameSize, side - 1);
      if xCount == side {
        return XWins;
      }
      if oCount == side {
        return OWins;
      }
      return NoWinnerYet;
    }

    /** Returns 1 or 2 for an X or O win, 3 for a tie, -1 when the game goes
      * on, and -2 when the game was already over; a win or a tie latches the
      * game over. */
    method CheckForWinner() returns (code: int)
      requires Valid()
      modifies this`gameOver
      ensures Valid()
      ensures State() == Check(old(State())).0
      ensures code == Code(Check(old(State())).1)
    {
      if gameOver {
        return -2;
      }
      var verdict := Scan();
      match verdict {
        case XWins =>
          gameOver := true;
          code := 1;
        case OWins =>
          gameOver := true;
          code := 2;
        case Tie =>
          gameOver := true;
          code := 3;
        case NoWinnerYet =>
          code := -1;
      }
    }

    /** The tie test of `checkForWinner`: is some cell still empty? */
    method HasEmptyCell() returns (found: bool)
      requires Valid()
      ensures found <==> !Full(gameArray[..])
    {
      var i := 0;
      while i < gameSize
        invariant 0 <= i <= gameSize
        invariant forall t :: 0 <= t < i ==> gameArray[t] != ""
      {
        if gameArray[i] == "" {
          return true;
        }
        i := i + 1;
      }
      return false;
    }

    method GetCurrentBoard() returns (board: seq<string>)
      ensures board == gameArray[..]
    {
      board := gameArray[..];
    }

    /** Empties every cell, reopens the game with X to move, and returns the
      * emptied board. */
    method ClearBoard() returns (board: seq<string>)
      requires Valid()
      modifies gameArray, this`currentTurn, this`gameOver
      ensures Valid()
      ensures State() == Clear(old(State()))
      ensures board == gameArray[..]
    {
      for i := 0 to gameArray.Length
        invariant forall t :: 0 <= t < i ==> gameArray[t] == ""
      {
        gameArray[i] := "";
      }
      gameOver := false;
      currentTurn := "X";
      assert gameArray[..] == seq(side * side, _ => "");
      board := gameArray[..];
    }
  }
}
