/** Geometry of a square board of side S whose S*S cells are stored row-major
  * (the cell in row r, column c sits at index r*S + c), and the sequences of
  * cell indices that the win scan of `GameBoard.checkForWinner` walks. */
module Lines {

  lemma MulLe(a: nat, b: nat, c: nat)
    requires a <= b
    ensures a * c <= b * c
  {}

  /** Index of the cell in row r, column c; decoding it with / and % gives
    * back the row and the column. */
  function Cell(S: nat, r: nat, c: nat): (i: nat)
    requires r < S && c < S
    ensures i < S * S
    ensures i / S == r && i % S == c
  {
    CellDecodes(S, r, c);
    MulLe(r + 1, S, S);
    r * S + c
  }

  lemma CellDecodes(S: nat, r: nat, c: nat)
    requires c < S
    ensures (r * S + c) / S == r && (r * S + c) % S == c
  {
    var i := r * S + c;
    var q, m := i / S, i % S;
    assert i == q * S + m && 0 <= m < S;
    if q > r {
      MulLe(r + 1, q, S);
      assert false;
    } else if q < r {
      MulLe(q + 1, r, S);
      assert false;
    }
  }

  /** Column j as the column loop visits it: start at j, step by S. */
  function ColumnCells(S: nat, j: nat): (cells: seq<int>)
    requires j < S
    ensures |cells| == S
    ensures forall k :: 0 <= k < S ==> cells[k] == Cell(S, k, j)
  {
    seq(S, k => j + k * S)
  }

  /** Row j as the row loop visits it: from j*S up to, not including, (j+1)*S. */
  function RowCells(S: nat, j: nat): (cells: seq<int>)
    requires j < S
    ensures |cells| == S
    ensures forall k :: 0 <= k < S ==> cells[k] == Cell(S, j, k)
  {
    seq(S, k => j * S + k)
  }

  /** The top-left to bottom-right diagonal as its loop visits it: step by S+1. */
  function MainDiagonal(S: nat): (cells: seq<int>)
    ensures |cells| == S
    ensures forall k :: 0 <= k < S ==> cells[k] == Cell(S, k, k)
  {
    seq(S, k => k * (S + 1))
  }

  /** The true top-right to bottom-left diagonal: row k, column S-1-k. */
  function AntiDiagonal(S: nat): (cells: seq<int>)
    ensures |cells| == S
    ensures forall k :: 0 <= k < S ==> cells[k] == Cell(S, k, S - 1 - k)
    ensures forall k :: 0 <= k < S ==> cells[k] / S + cells[k] % S == S - 1
  {
    var cells := seq(S, k requires 0 <= k < S => Cell(S, k, S - 1 - k));
    assert forall k :: 0 <= k < S ==> cells[k] == Cell(S, k, S - 1 - k);
    cells
  }

  /** What the anti-diagonal loop visits: start at S-1, step by S-1 while the
    * index is below S*S. That is S+1 cells: the S cells of the anti-diagonal
    * followed by the bottom-right corner, which is not on it. */
  function AntiDiagonalScan(S: nat): (cells: seq<int>)
    requires S >= 2
    ensures cells == AntiDiagonal(S) + [Cell(S, S - 1, S - 1)]
    ensures forall k :: 0 <= k < S ==> AntiDiagonal(S)[k] != Cell(S, S - 1, S - 1)
  {
    var cells := seq(S + 1, k => (S - 1) + k * (S - 1));
    assert forall k :: 0 <= k < S ==> cells[k] == Cell(S, k, S - 1 - k);
    assert cells[S] == Cell(S, S - 1, S - 1);
    cells
  }

  /** The inner column loop (i from j, step S) stops exactly after S cells. */
  lemma ColumnStop(S: nat, j: nat, k: nat)
    requires j < S
    ensures j + k * S < S * S <==> k < S
  {
    if k < S { MulLe(k + 1, S, S); } else { MulLe(S, k, S); }
  }

  /** The main-diagonal loop (i from 0, step S+1) stops exactly after S cells. */
  lemma MainStop(S: nat, k: nat)
    requires S >= 1
    ensures k * (S + 1) < S * S <==> k < S
  {
    if k < S {
      MulLe(k, S - 1, S + 1);
    } else {
      MulLe(S, k, S + 1);
    }
  }

  /** The anti-diagonal loop (i from S-1, step S-1) stops exactly after S+1 cells:
    * the index it reaches after k steps, (S-1) + k*(S-1), is below S*S iff k <= S. */
  lemma AntiStop(S: nat, k: nat)
    requires S >= 2
    ensures (S - 1) + k * (S - 1) < S * S <==> k < S + 1
  {
    if k <= S {
      MulLe(k + 1, S + 1, S - 1);
    } else {
      MulLe(S + 2, k + 1, S - 1);
    }
  }

  /** The indices a loop `for (i = start; i < stop; i += step)` visits, in order. */
  function Visited(start: int, stop: int, step: nat): (s: seq<int>)
    requires step > 0
    ensures forall k :: 0 <= k < |s| ==> start <= s[k] < stop
    ensures s == [] <==> start >= stop
    ensures s != [] ==> s[0] == start
    decreases stop - start
  {
    if start >= stop then [] else [start] + Visited(start + step, stop, step)
  }

  /** A loop from base in steps of step that stops after exactly n indices
    * visits base, base + step, ..., base + (n-1)*step. */
  lemma {:induction false} VisitedSteps(base: int, step: nat, n: nat, stop: int)
    requires step > 0
    requires n == 0 || base + (n - 1) * step < stop
    requires stop <= base + n * step
    ensures Visited(base, stop, step) == seq(n, t => base + t * step)
    decreases n
  {
    if n > 0 {
      MulLe(0, n - 1, step);
      assert base + step + (n - 1 - 1) * step == base + (n - 1) * step;
      assert base + step + (n - 1) * step == base + n * step;
      VisitedSteps(base + step, step, n - 1, stop);
      var rest := seq(n - 1, t => base + step + t * step);
      assert forall t :: 0 <= t < n - 1 ==> rest[t] == base + (t + 1) * step;
      assert seq(n, t => base + t * step) == [base] + rest;
    }
  }

  /** The column loop for column j visits exactly the cells of column j. */
  lemma VisitedColumn(S: nat, j: nat)
    requires j < S
    ensures Visited(j, S * S, S) == ColumnCells(S, j)
  {
    ColumnStop(S, j, S - 1);
    ColumnStop(S, j, S);
    VisitedSteps(j, S, S, S * S);
  }

  /** The row loop for row j visits exactly the cells of row j. */
  lemma VisitedRow(S: nat, j: nat)
    requires j < S
    ensures Visited(j * S, (j + 1) * S, 1) == RowCells(S, j)
  {
    assert (j + 1) * S == j * S + S;
    VisitedSteps(j * S, 1, S, (j + 1) * S);
  }

  /** The main-diagonal loop visits exactly the cells of the main diagonal. */
  lemma VisitedMainDiagonal(S: nat)
    requires S >= 2
    ensures Visited(0, S * S, S + 1) == MainDiagonal(S)
  {
    MainStop(S, S - 1);
    MainStop(S, S);
    VisitedSteps(0, S + 1, S, S * S);
  }

  /** The anti-diagonal loop visits the S+1 cells of AntiDiagonalScan: the
    * anti-diagonal and then the bottom-right corner. */
  lemma VisitedAntiDiagonal(S: nat)
    requires S >= 2
    ensures Visited(S - 1, S * S, S - 1) == AntiDiagonalScan(S)
  {
    AntiStop(S, S);
    AntiStop(S, S + 1);
    VisitedSteps(S - 1, S - 1, S + 1, S * S);
  }

  /** The S columns in order, each as its loop visits it. */
  function Columns(S: nat): (lines: seq<seq<int>>)
    ensures |lines| == S
    ensures forall c :: 0 <= c < S ==> lines[c] == ColumnCells(S, c)
  {
    seq(S, c requires 0 <= c < S => ColumnCells(S, c))
  }

  /** The S rows in order, each as its loop visits it. */
  function Rows(S: nat): (lines: seq<seq<int>>)
    ensures |lines| == S
    ensures forall c :: 0 <= c < S ==> lines[c] == RowCells(S, c)
  {
    seq(S, c requires 0 <= c < S => RowCells(S, c))
  }

  /** The lines in the order `checkForWinner` scans them: all columns, all rows,
    * the main diagonal, then the anti-diagonal as its loop visits it. */
  function ScanLines(S: nat): (lines: seq<seq<int>>)
    requires S >= 2
    ensures |lines| == 2 * S + 2
    ensures forall c :: 0 <= c < S ==> lines[c] == ColumnCells(S, c)
    ensures forall c :: 0 <= c < S ==> lines[S + c] == RowCells(S, c)
    ensures lines[2 * S] == MainDiagonal(S) && lines[2 * S + 1] == AntiDiagonalScan(S)
  {
    Columns(S) + Rows(S) + [MainDiagonal(S), AntiDiagonalScan(S)]
  }

  /** The winning lines of the game in the same order, with the true
    * anti-diagonal in the last place. */
  function WinningLines(S: nat): (lines: seq<seq<int>>)
    requires S >= 2
    ensures |lines| == 2 * S + 2
    ensures forall t :: 0 <= t < |lines| ==> |lines[t]| == S
    ensures lines[..2 * S + 1] == ScanLines(S)[..2 * S + 1]
    ensures lines[2 * S + 1] == AntiDiagonal(S)
  {
    ScanLines(S)[..2 * S + 1] + [AntiDiagonal(S)]
  }
}
