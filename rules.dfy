/** The win and tie rules of the game: counting markers along a line, the
  * verdict `checkForWinner` reaches by scanning the lines in its fixed order
  * (ScanVerdict, as written), and the verdict the game's rules call for
  * (Outcome, with the true anti-diagonal). */
module Rules {
  import opened Lines

  /** What `checkForWinner` reports; Code gives the number it returns. */
  datatype Verdict = XWins | OWins | Tie | NoWinnerYet | AlreadyOver

  /** The positive codes are exactly the verdicts that end the game. */
  function Code(v: Verdict): (c: int)
    ensures -2 <= c <= 3 && c != 0
    ensures c > 0 <==> v == XWins || v == OWins || v == Tie
  {
    match v
    case XWins => 1
    case OWins => 2
    case Tie => 3
    case NoWinnerYet => -1
    case AlreadyOver => -2
  }

  /** Cell i of board b holds marker m. An index outside the board holds
    * nothing: reading past the end of the source's array gives `undefined`. */
  predicate Holds(b: seq<string>, i: int, m: string)
  {
    0 <= i < |b| && b[i] == m
  }

  /** How many of the given cells hold marker m. */
  function Count(b: seq<string>, cells: seq<int>, m: string): (n: nat)
    ensures n <= |cells|
  {
    if cells == [] then 0
    else (if Holds(b, cells[0], m) then 1 else 0) + Count(b, cells[1..], m)
  }

  /** Every cell of the line holds marker m. */
  predicate Complete(b: seq<string>, line: seq<int>, m: string)
  {
    forall k :: 0 <= k < |line| ==> Holds(b, line[k], m)
  }

  /** No cell of the board is empty. */
  predicate Full(b: seq<string>)
  {
    forall i :: 0 <= i < |b| ==> b[i] != ""
  }

  /** The count reaches the length of the line exactly when every cell of
    * the line holds the marker. */
  lemma {:induction false} CountComplete(b: seq<string>, line: seq<int>, m: string)
    ensures Count(b, line, m) == |line| <==> Complete(b, line, m)
  {
    if line != [] {
      CountComplete(b, line[1..], m);
      assert forall k :: 1 <= k < |line| ==> line[1..][k - 1] == line[k];
    }
  }

  /** Counting along two lists of cells one after the other adds the counts. */
  lemma {:induction false} CountAppend(b: seq<string>, cells1: seq<int>, cells2: seq<int>, m: string)
    ensures Count(b, cells1 + cells2, m) == Count(b, cells1, m) + Count(b, cells2, m)
  {
    if cells1 == [] {
      assert cells1 + cells2 == cells2;
    } else {
      CountAppend(b, cells1[1..], cells2, m);
      assert (cells1 + cells2)[1..] == cells1[1..] + cells2;
    }
  }

  /** The test `checkForWinner` applies to one line: X wins when the number of
    * X's it counted equals the side S, else O wins when the number of O's
    * does. */
  function LineVerdict(b: seq<string>, S: nat, line: seq<int>): (v: Verdict)
    ensures v == XWins <==> Count(b, line, "X") == S
    ensures v == OWins <==> Count(b, line, "X") != S && Count(b, line, "O") == S
    ensures v == XWins || v == OWins || v == NoWinnerYet
    ensures |line| == S ==> (v == XWins <==> Complete(b, line, "X"))
    ensures |line| == S ==> (v == OWins <==> !Complete(b, line, "X") && Complete(b, line, "O"))
  {
    CountComplete(b, line, "X");
    CountComplete(b, line, "O");
    if Count(b, line, "X") == S then XWins
    else if Count(b, line, "O") == S then OWins
    else NoWinnerYet
  }

  /** The verdict of the first line, in order, whose test fires; NoWinnerYet
    * when none does. */
  function FirstWin(b: seq<string>, S: nat, lines: seq<seq<int>>): (v: Verdict)
    ensures v == XWins || v == OWins || v == NoWinnerYet
  {
    if lines == [] then NoWinnerYet
    else if LineVerdict(b, S, lines[0]) != NoWinnerYet then LineVerdict(b, S, lines[0])
    else FirstWin(b, S, lines[1..])
  }

  /** When the test of line m fires and that of no earlier line does, the
    * scan stops at line m. */
  lemma {:induction false} FirstWinAt(b: seq<string>, S: nat, lines: seq<seq<int>>, m: nat)
    requires m < |lines|
    requires forall t :: 0 <= t < m ==> LineVerdict(b, S, lines[t]) == NoWinnerYet
    requires LineVerdict(b, S, lines[m]) != NoWinnerYet
    ensures FirstWin(b, S, lines) == LineVerdict(b, S, lines[m])
  {
    if m > 0 {
      FirstWinAt(b, S, lines[1..], m - 1);
    }
  }

  /** When no line's test fires, the scan finds nothing. */
  lemma {:induction false} FirstWinNone(b: seq<string>, S: nat, lines: seq<seq<int>>)
    requires forall t :: 0 <= t < |lines| ==> LineVerdict(b, S, lines[t]) == NoWinnerYet
    ensures FirstWin(b, S, lines) == NoWinnerYet
  {
    if lines != [] {
      FirstWinNone(b, S, lines[1..]);
    }
  }

  /** The scan finds nothing iff no line's test fires; when it finds a
    * verdict, that is the verdict of a line before which no test fires. */
  lemma {:induction false} FirstWinSpec(b: seq<string>, S: nat, lines: seq<seq<int>>)
    ensures FirstWin(b, S, lines) == NoWinnerYet <==>
      forall t :: 0 <= t < |lines| ==> LineVerdict(b, S, lines[t]) == NoWinnerYet
    ensures FirstWin(b, S, lines) != NoWinnerYet ==>
      exists t :: 0 <= t < |lines| && LineVerdict(b, S, lines[t]) == FirstWin(b, S, lines) &&
        forall u :: 0 <= u < t ==> LineVerdict(b, S, lines[u]) == NoWinnerYet
  {
    if lines != [] {
      FirstWinSpec(b, S, lines[1..]);
      if LineVerdict(b, S, lines[0]) == NoWinnerYet && FirstWin(b, S, lines) != NoWinnerYet {
        var t :| 0 <= t < |lines| - 1 && LineVerdict(b, S, lines[1..][t]) == FirstWin(b, S, lines[1..]) &&
          forall u :: 0 <= u < t ==> LineVerdict(b, S, lines[1..][u]) == NoWinnerYet;
        assert forall u :: 0 <= u < t + 1 ==> LineVerdict(b, S, lines[u]) == NoWinnerYet by {
          forall u | 0 <= u < t + 1 ensures LineVerdict(b, S, lines[u]) == NoWinnerYet {
            if u > 0 { assert lines[u] == lines[1..][u - 1]; }
          }
        }
      }
    }
  }

  /** Scanning two lists of lines one after the other: the second list is
    * reached only when the first finds nothing. */
  lemma {:induction false} FirstWinAppend(b: seq<string>, S: nat, lines1: seq<seq<int>>, lines2: seq<seq<int>>)
    ensures FirstWin(b, S, lines1 + lines2) ==
      if FirstWin(b, S, lines1) != NoWinnerYet then FirstWin(b, S, lines1) else FirstWin(b, S, lines2)
  {
    if lines1 == [] {
      assert lines1 + lines2 == lines2;
    } else {
      FirstWinAppend(b, S, lines1[1..], lines2);
      assert (lines1 + lines2)[1..] == lines1[1..] + lines2;
    }
  }

  /** Two line lists whose lines get the same verdict, place by place, give
    * the same scan result. */
  lemma {:induction false} FirstWinPointwise(b: seq<string>, S: nat, lines1: seq<seq<int>>, lines2: seq<seq<int>>)
    requires |lines1| == |lines2|
    requires forall t :: 0 <= t < |lines1| ==> LineVerdict(b, S, lines1[t]) == LineVerdict(b, S, lines2[t])
    ensures FirstWin(b, S, lines1) == FirstWin(b, S, lines2)
  {
    if lines1 != [] {
      FirstWinPointwise(b, S, lines1[1..], lines2[1..]);
    }
  }

  /** The verdict `checkForWinner` reaches on a game that is not over, as the
    * source computes it: the first line in scan order whose X count, then O
    * count, equals S; otherwise a tie when no cell is empty. */
  function ScanVerdict(b: seq<string>, S: nat): (v: Verdict)
    requires S >= 2
    ensures v != AlreadyOver
  {
    var w := FirstWin(b, S, ScanLines(S));
    if w != NoWinnerYet then w
    else if Full(b) then Tie
    else NoWinnerYet
  }

  /** The scan reports a tie exactly when the board is full and no scanned
    * line fires, and no winner yet exactly when a cell is empty and no
    * scanned line fires; a win is the verdict of the first line that fires. */
  lemma ScanVerdictMeaning(b: seq<string>, S: nat)
    requires S >= 2
    ensures ScanVerdict(b, S) == Tie <==> (Full(b) &&
      forall t :: 0 <= t < 2 * S + 2 ==> LineVerdict(b, S, ScanLines(S)[t]) == NoWinnerYet)
    ensures ScanVerdict(b, S) == NoWinnerYet <==> (!Full(b) &&
      forall t :: 0 <= t < 2 * S + 2 ==> LineVerdict(b, S, ScanLines(S)[t]) == NoWinnerYet)
    ensures (ScanVerdict(b, S) == XWins || ScanVerdict(b, S) == OWins) ==>
      exists t :: 0 <= t < 2 * S + 2 && LineVerdict(b, S, ScanLines(S)[t]) == ScanVerdict(b, S) &&
        forall u :: 0 <= u < t ==> LineVerdict(b, S, ScanLines(S)[u]) == NoWinnerYet
  {
    FirstWinSpec(b, S, ScanLines(S));
  }

  /** ScanVerdict phase by phase, in the order `checkForWinner` runs them:
    * the columns, the rows, the main diagonal, the anti-diagonal loop, then
    * the tie test. */
  lemma ScanVerdictPhases(b: seq<string>, S: nat)
    requires S >= 2
    ensures ScanVerdict(b, S) ==
      var columns := FirstWin(b, S, Columns(S));
      var rows := FirstWin(b, S, Rows(S));
      var main := LineVerdict(b, S, MainDiagonal(S));
      var anti := LineVerdict(b, S, AntiDiagonalScan(S));
      if columns != NoWinnerYet then columns
      else if rows != NoWinnerYet then rows
      else if main != NoWinnerYet then main
      else if anti != NoWinnerYet then anti
      else if Full(b) then Tie
      else NoWinnerYet
  {
    var diagonals := [MainDiagonal(S)] + [AntiDiagonalScan(S)];
    assert ScanLines(S) == Columns(S) + (Rows(S) + diagonals);
    FirstWinAppend(b, S, Columns(S), Rows(S) + diagonals);
    FirstWinAppend(b, S, Rows(S), diagonals);
    FirstWinAppend(b, S, [MainDiagonal(S)], [AntiDiagonalScan(S)]);
    assert [AntiDiagonalScan(S)][1..] == [];
  }

  /** The verdict the rules of the game call for: the same scan over the
    * true lines of the board. */
  function Outcome(b: seq<string>, S: nat): Verdict
    requires S >= 2
  {
    var w := FirstWin(b, S, WinningLines(S));
    if w != NoWinnerYet then w
    else if Full(b) then Tie
    else NoWinnerYet
  }

  /** Some true line of the board is entirely marker m. */
  predicate HasCompleteLine(b: seq<string>, S: nat, m: string)
    requires S >= 2
  {
    exists t :: 0 <= t < 2 * S + 2 && Complete(b, WinningLines(S)[t], m)
  }

  /** Outcome means what the game's rules say: a win for a marker only when
    * one of its lines is complete, some win whenever a line is complete, a
    * tie exactly when no line is complete and no cell is empty. */
  lemma OutcomeMeaning(b: seq<string>, S: nat)
    requires S >= 2
    ensures Outcome(b, S) == XWins ==> HasCompleteLine(b, S, "X")
    ensures Outcome(b, S) == OWins ==> HasCompleteLine(b, S, "O")
    ensures (Outcome(b, S) == XWins || Outcome(b, S) == OWins) <==>
      HasCompleteLine(b, S, "X") || HasCompleteLine(b, S, "O")
    ensures Outcome(b, S) == Tie <==>
      Full(b) && !HasCompleteLine(b, S, "X") && !HasCompleteLine(b, S, "O")
    ensures Outcome(b, S) == NoWinnerYet <==>
      !Full(b) && !HasCompleteLine(b, S, "X") && !HasCompleteLine(b, S, "O")
  {
    var lines := WinningLines(S);
    forall t | 0 <= t < |lines|
      ensures LineVerdict(b, S, lines[t]) == XWins ==> Complete(b, lines[t], "X")
      ensures LineVerdict(b, S, lines[t]) == OWins ==> Complete(b, lines[t], "O")
      ensures LineVerdict(b, S, lines[t]) == NoWinnerYet ==>
        !Complete(b, lines[t], "X") && !Complete(b, lines[t], "O")
    {
      CountComplete(b, lines[t], "X");
      CountComplete(b, lines[t], "O");
    }
    FirstWinSpec(b, S, lines);
  }

  /** The anti-diagonal loop counts one cell more than the anti-diagonal:
    * the bottom-right corner. */
  lemma AntiScanCount(b: seq<string>, S: nat, m: string)
    requires S >= 2
    ensures Count(b, AntiDiagonalScan(S), m) ==
      Count(b, AntiDiagonal(S), m) + (if Holds(b, Cell(S, S - 1, S - 1), m) then 1 else 0)
  {
    CountAppend(b, AntiDiagonal(S), [Cell(S, S - 1, S - 1)], m);
  }

  /** A complete anti-diagonal is missed by its own loop when the corner also
    * holds the same marker: the count is S+1, not S. */
  lemma AntiScanMissesCompleteDiagonal(b: seq<string>, S: nat, m: string)
    requires S >= 2
    requires Complete(b, AntiDiagonal(S), m) && Holds(b, Cell(S, S - 1, S - 1), m)
    ensures Count(b, AntiDiagonalScan(S), m) == S + 1
  {
    AntiScanCount(b, S, m);
    CountComplete(b, AntiDiagonal(S), m);
  }

  /** While the bottom-right corner holds neither marker, the scan as written
    * reaches the verdict the rules call for. */
  lemma ScanAgreesAwayFromCorner(b: seq<string>, S: nat)
    requires S >= 2 && |b| == S * S
    requires b[S * S - 1] != "X" && b[S * S - 1] != "O"
    ensures ScanVerdict(b, S) == Outcome(b, S)
  {
    var scan, lines := ScanLines(S), WinningLines(S);
    assert Cell(S, S - 1, S - 1) == S * S - 1;
    AntiScanCount(b, S, "X");
    AntiScanCount(b, S, "O");
    forall t | 0 <= t < |scan|
      ensures LineVerdict(b, S, scan[t]) == LineVerdict(b, S, lines[t])
    {
      if t < 2 * S + 1 {
        assert scan[t] == scan[..2 * S + 1][t] == lines[t];
      }
    }
    FirstWinPointwise(b, S, scan, lines);
  }
}
