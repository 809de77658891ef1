/** Three 3x3 boards on which the anti-diagonal loop of `checkForWinner`, as
  * written, disagrees with the rules of the game: PhantomBoard (a win
  * reported where no line is complete), MissedBoard (a complete line
  * missed), and PlayedBoard, which PhantomPlay reaches from the empty board
  * in turn-following play with a check after every move. */
module Finding {
  import opened Lines
  import opened Rules
  import opened Engine

  /** The scan lines of a 3x3 board, written out. */
  lemma ScanLines3()
    ensures ScanLines(3) == [[0, 3, 6], [1, 4, 7], [2, 5, 8], [0, 1, 2], [3, 4, 5], [6, 7, 8],
                             [0, 4, 8], [2, 4, 6, 8]]
    ensures WinningLines(3) == ScanLines(3)[..7] + [[2, 4, 6]]
  {
    var scan := ScanLines(3);
    assert scan[0] == [0, 3, 6] && scan[1] == [1, 4, 7] && scan[2] == [2, 5, 8];
    assert scan[3] == [0, 1, 2] && scan[4] == [3, 4, 5] && scan[5] == [6, 7, 8];
    assert scan[6] == [0, 4, 8] && scan[7] == [2, 4, 6, 8];
    assert AntiDiagonal(3) == [2, 4, 6];
  }

  /** The count over a line of three cells is the sum of the counts over
    * each cell. */
  lemma CountOfThree(b: seq<string>, x: int, y: int, z: int, m: string)
    ensures Count(b, [x, y, z], m) == Count(b, [x], m) + Count(b, [y], m) + Count(b, [z], m)
  {
    assert [x, y, z][1..] == [y, z] && [y, z][1..] == [z] && [x][1..] == [] && [y][1..] == [];
  }

  /** The same for the four cells the anti-diagonal loop visits. */
  lemma CountOfFour(b: seq<string>, w: int, x: int, y: int, z: int, m: string)
    ensures Count(b, [w, x, y, z], m) == Count(b, [w], m) + Count(b, [x], m) + Count(b, [y], m) + Count(b, [z], m)
  {
    CountOfThree(b, x, y, z, m);
    assert [w, x, y, z][1..] == [x, y, z] && [w][1..] == [];
  }

  /** On a 3x3 board with no O, cells 0, 1, 3, 5 and 7 empty, no column, row
    * or main diagonal of the scan fires: each of them has an empty cell. */
  lemma QuietUpToMainDiagonal(b: seq<string>)
    requires |b| == 9 && b[0] == b[1] == b[3] == b[5] == b[7] == ""
    requires forall i :: 0 <= i < 9 ==> b[i] != "O"
    ensures forall t :: 0 <= t < 7 ==> LineVerdict(b, 3, ScanLines(3)[t]) == NoWinnerYet
  {
    ScanLines3();
    var scan := ScanLines(3);
    forall t | 0 <= t < 7 ensures LineVerdict(b, 3, scan[t]) == NoWinnerYet {
      var l := scan[t];
      assert |l| == 3 && l == [l[0], l[1], l[2]];
      CountOfThree(b, l[0], l[1], l[2], "X");
      CountOfThree(b, l[0], l[1], l[2], "O");
      var e0, e1, e2 := Holds(b, l[0], ""), Holds(b, l[1], ""), Holds(b, l[2], "");
      assert e0 || e1 || e2;
    }
  }

  /** A 3x3 board on which no scanned column, row or main diagonal fires,
    * the true anti-diagonal does not fire either and some cell is empty is
    * undecided by the rules. */
  lemma UndecidedWhenQuiet(b: seq<string>)
    requires forall t :: 0 <= t < 7 ==> LineVerdict(b, 3, ScanLines(3)[t]) == NoWinnerYet
    requires LineVerdict(b, 3, [2, 4, 6]) == NoWinnerYet
    requires !Full(b)
    ensures Outcome(b, 3) == NoWinnerYet
  {
    ScanLines3();
    var lines := WinningLines(3);
    assert forall t :: 0 <= t < 7 ==> lines[t] == ScanLines(3)[t];
    FirstWinNone(b, 3, lines);
  }

  /** X on cells 2, 4 and 8 of a 3x3 board; nothing else. */
  function PhantomBoard(): seq<string>
  {
    ["", "", "X", "", "X", "", "", "", "X"]
  }

  /** X on cells 2, 4, 6 and 8 of a 3x3 board; nothing else. */
  function MissedBoard(): seq<string>
  {
    ["", "", "X", "", "X", "", "X", "", "X"]
  }

  /** On PhantomBoard the scan as written reports an X win: the anti-diagonal
    * loop counts cells 2, 4, 6 and 8 and finds three X's. */
  lemma ScanReportsPhantomWin()
    ensures ScanVerdict(PhantomBoard(), 3) == XWins
  {
    var b := PhantomBoard();
    ScanLines3();
    var scan := ScanLines(3);
    QuietUpToMainDiagonal(b);
    CountOfFour(b, 2, 4, 6, 8, "X");
    assert LineVerdict(b, 3, scan[7]) == XWins;
    FirstWinAt(b, 3, scan, 7);
  }

  /** On PhantomBoard no line is complete: the game goes on. */
  lemma PhantomBoardUndecided()
    ensures Outcome(PhantomBoard(), 3) == NoWinnerYet
  {
    var b := PhantomBoard();
    QuietUpToMainDiagonal(b);
    CountOfThree(b, 2, 4, 6, "X");
    CountOfThree(b, 2, 4, 6, "O");
    assert b[0] == "";
    UndecidedWhenQuiet(b);
  }

  /** On MissedBoard the scan as written reports no winner: the anti-diagonal
    * loop also counts cell 8 and finds four X's where it tests for three. */
  lemma ScanMissesRealWin()
    ensures ScanVerdict(MissedBoard(), 3) == NoWinnerYet
  {
    var b := MissedBoard();
    ScanLines3();
    var scan := ScanLines(3);
    QuietUpToMainDiagonal(b);
    CountOfFour(b, 2, 4, 6, 8, "X");
    CountOfFour(b, 2, 4, 6, 8, "O");
    assert LineVerdict(b, 3, scan[7]) == NoWinnerYet;
    FirstWinNone(b, 3, scan);
    assert b[0] == "";
  }

  /** On MissedBoard the anti-diagonal 2, 4, 6 is complete: X has won. */
  lemma MissedBoardWon()
    ensures Outcome(MissedBoard(), 3) == XWins
  {
    var b := MissedBoard();
    ScanLines3();
    var scan, lines := ScanLines(3), WinningLines(3);
    QuietUpToMainDiagonal(b);
    CountOfThree(b, 2, 4, 6, "X");
    assert LineVerdict(b, 3, lines[7]) == XWins;
    assert forall t :: 0 <= t < 7 ==> lines[t] == scan[t];
    FirstWinAt(b, 3, lines, 7);
  }

  /** Call k of PhantomPlay: X on 2, O on 0, X on 4, O on 1, X on 8, with a
    * check for a winner after every move but the last. */
  function PlayCall(k: int): Call
  {
    if k == 0 then PerformMove(2, "X")
    else if k == 2 then PerformMove(0, "O")
    else if k == 4 then PerformMove(4, "X")
    else if k == 6 then PerformMove(1, "O")
    else if k == 8 then PerformMove(8, "X")
    else CheckForWinner
  }

  /** Alternating play from an empty 3x3 board, checking for a winner after
    * every move as the page does. */
  function PhantomPlay(): seq<Call>
  {
    seq(9, k => PlayCall(k))
  }

  /** The board PhantomPlay leaves. */
  function PlayedBoard(): seq<string>
  {
    ["O", "O", "X", "", "X", "", "", "", "X"]
  }

  /** The state before call k of PhantomPlay (k < 9), and after the last
    * call (k == 9). */
  function PlayState(k: nat): Game
  {
    if k == 0 then Game(3, ["", "", "", "", "", "", "", "", ""], "X", false)
    else if k <= 2 then Game(3, ["", "", "X", "", "", "", "", "", ""], "O", false)
    else if k <= 4 then Game(3, ["O", "", "X", "", "", "", "", "", ""], "X", false)
    else if k <= 6 then Game(3, ["O", "", "X", "", "X", "", "", "", ""], "O", false)
    else if k <= 8 then Game(3, ["O", "O", "X", "", "X", "", "", "", ""], "X", false)
    else Game(3, PlayedBoard(), "O", false)
  }

  /** The anti-diagonal loop does not fire while cells 6 and 8 are empty. */
  lemma AntiScanQuiet(b: seq<string>)
    requires |b| == 9 && b[6] == b[8] == ""
    ensures LineVerdict(b, 3, [2, 4, 6, 8]) == NoWinnerYet
  {
    CountOfFour(b, 2, 4, 6, 8, "X");
    CountOfFour(b, 2, 4, 6, 8, "O");
  }

  /** On a 3x3 board with cells 3, 5, 6, 7 and 8 empty, X on 2 and no X on
    * 0, no column, row or main diagonal fires: each has an empty cell or
    * holds both an X and a cell that is not O. */
  lemma QuietBeforeAntiDiagonal(b: seq<string>)
    requires |b| == 9 && b[3] == b[5] == b[6] == b[7] == b[8] == ""
    requires b[2] == "X" && b[0] != "X"
    ensures forall t :: 0 <= t < 7 ==> LineVerdict(b, 3, ScanLines(3)[t]) == NoWinnerYet
  {
    QuietLine(b, 0, 3, 6);
    QuietLine(b, 1, 4, 7);
    QuietLine(b, 2, 5, 8);
    QuietLine(b, 0, 1, 2);
    QuietLine(b, 3, 4, 5);
    QuietLine(b, 6, 7, 8);
    QuietLine(b, 0, 4, 8);
    FirstSevenQuiet(b);
  }

  /** Such a board has no winner yet: the anti-diagonal loop does not fire
    * either, and cell 3 is empty. */
  lemma Quiet(b: seq<string>)
    requires |b| == 9 && b[3] == b[5] == b[6] == b[7] == b[8] == ""
    requires b[2] == "X" && b[0] != "X"
    ensures ScanVerdict(b, 3) == NoWinnerYet
  {
    QuietBeforeAntiDiagonal(b);
    AntiScanQuiet(b);
    ScanLines3();
    var scan := ScanLines(3);
    assert scan[7] == [2, 4, 6, 8];
    FirstWinNone(b, 3, scan);
    assert b[3] == "";
  }

  /** A check on a quiet 3x3 board that is not over reports no winner yet
    * and changes nothing. */
  lemma CheckQuiet(g: Game)
    requires g.side == 3 && !g.over
    requires |g.cells| == 9 && g.cells[3] == g.cells[5] == g.cells[6] == g.cells[7] == g.cells[8] == ""
    requires g.cells[2] == "X" && g.cells[0] != "X"
    ensures Check(g) == (g, NoWinnerYet)
    ensures Step(g, CheckForWinner) == g
  {
    Quiet(g.cells);
  }

  /** Each move of PhantomPlay is made by the player to move and accepted. */
  lemma PlayMoveStep(k: nat)
    requires k == 0 || k == 2 || k == 4 || k == 6 || k == 8
    ensures PlayCall(k).PerformMove?
    ensures PlayCall(k).playerID == PlayState(k).turn
    ensures Step(PlayState(k), PlayCall(k)) == PlayState(k + 1)
  {
  }

  /** Each check of PhantomPlay reports no winner yet and changes nothing. */
  lemma PlayCheckStep(k: nat)
    requires k == 1 || k == 3 || k == 5 || k == 7
    ensures PlayCall(k) == CheckForWinner
    ensures Check(PlayState(k)).1 == NoWinnerYet
    ensures Step(PlayState(k), PlayCall(k)) == PlayState(k + 1)
  {
    if k == 1 { CheckQuiet(PlayState(1)); }
    else if k == 3 { CheckQuiet(PlayState(3)); }
    else if k == 5 { CheckQuiet(PlayState(5)); }
    else { assert k == 7; CheckQuiet(PlayState(7)); }
  }

  /** Playing PhantomPlay from its k-th state on follows the turn and ends
    * in its last state. */
  lemma {:induction false} PlayFrom(k: nat)
    requires k <= 9
    ensures FollowsTurn(PlayState(k), PhantomPlay()[k..])
    ensures Run(PlayState(k), PhantomPlay()[k..]) == PlayState(9)
    decreases 9 - k
  {
    if k < 9 {
      if k == 0 || k == 2 || k == 4 || k == 6 || k == 8 {
        PlayMoveStep(k);
      } else {
        PlayCheckStep(k);
      }
      PlayFrom(k + 1);
      assert PhantomPlay()[k..][0] == PlayCall(k);
      assert PhantomPlay()[k..][1..] == PhantomPlay()[k + 1..];
    }
  }

  /** PhantomPlay, from the empty board, follows the turn, and every call
    * in it takes effect as the page expects. */
  lemma PhantomPlayRuns()
    ensures FollowsTurn(Initial(3), PhantomPlay())
    ensures Run(Initial(3), PhantomPlay()) == Game(3, PlayedBoard(), "O", false)
  {
    assert Initial(3) == PlayState(0);
    PlayFrom(0);
    assert PhantomPlay()[0..] == PhantomPlay();
  }

  /** A line of three cells none of whose markers fills it does not fire. */
  lemma QuietLine(b: seq<string>, x: int, y: int, z: int)
    requires !(Holds(b, x, "X") && Holds(b, y, "X") && Holds(b, z, "X"))
    requires !(Holds(b, x, "O") && Holds(b, y, "O") && Holds(b, z, "O"))
    ensures LineVerdict(b, 3, [x, y, z]) == NoWinnerYet
  {
    CountOfThree(b, x, y, z, "X");
    CountOfThree(b, x, y, z, "O");
  }

  /** When none of the three columns, three rows and main diagonal of a 3x3
    * board fires, none of the first seven scanned lines does. */
  lemma FirstSevenQuiet(b: seq<string>)
    requires LineVerdict(b, 3, [0, 3, 6]) == NoWinnerYet && LineVerdict(b, 3, [1, 4, 7]) == NoWinnerYet
    requires LineVerdict(b, 3, [2, 5, 8]) == NoWinnerYet && LineVerdict(b, 3, [0, 1, 2]) == NoWinnerYet
    requires LineVerdict(b, 3, [3, 4, 5]) == NoWinnerYet && LineVerdict(b, 3, [6, 7, 8]) == NoWinnerYet
    requires LineVerdict(b, 3, [0, 4, 8]) == NoWinnerYet
    ensures forall t :: 0 <= t < 7 ==> LineVerdict(b, 3, ScanLines(3)[t]) == NoWinnerYet
  {
    ScanLines3();
    var scan := ScanLines(3);
    forall t | 0 <= t < 7 ensures LineVerdict(b, 3, scan[t]) == NoWinnerYet {
      if t == 0 { assert scan[t] == [0, 3, 6]; }
      else if t == 1 { assert scan[t] == [1, 4, 7]; }
      else if t == 2 { assert scan[t] == [2, 5, 8]; }
      else if t == 3 { assert scan[t] == [0, 1, 2]; }
      else if t == 4 { assert scan[t] == [3, 4, 5]; }
      else if t == 5 { assert scan[t] == [6, 7, 8]; }
      else { assert scan[t] == [0, 4, 8]; }
    }
  }

  /** On PlayedBoard no column, row or main diagonal fires. */
  lemma PlayedQuietUpToMainDiagonal()
    ensures forall t :: 0 <= t < 7 ==> LineVerdict(PlayedBoard(), 3, ScanLines(3)[t]) == NoWinnerYet
  {
    var b := PlayedBoard();
    QuietLine(b, 0, 3, 6);
    QuietLine(b, 1, 4, 7);
    QuietLine(b, 2, 5, 8);
    QuietLine(b, 0, 1, 2);
    QuietLine(b, 3, 4, 5);
    QuietLine(b, 6, 7, 8);
    QuietLine(b, 0, 4, 8);
    FirstSevenQuiet(b);
  }

  /** On PlayedBoard the scan as written reports an X win: the anti-diagonal
    * loop counts X on cells 2, 4 and 8. */
  lemma ScanReportsPlayedWin()
    ensures ScanVerdict(PlayedBoard(), 3) == XWins
  {
    var b := PlayedBoard();
    ScanLines3();
    var scan := ScanLines(3);
    PlayedQuietUpToMainDiagonal();
    CountOfFour(b, 2, 4, 6, 8, "X");
    assert LineVerdict(b, 3, scan[7]) == XWins;
    FirstWinAt(b, 3, scan, 7);
  }

  /** On PlayedBoard no line is complete: the game goes on. */
  lemma PlayedBoardUndecided()
    ensures Outcome(PlayedBoard(), 3) == NoWinnerYet
  {
    var b := PlayedBoard();
    PlayedQuietUpToMainDiagonal();
    CountOfThree(b, 2, 4, 6, "X");
    CountOfThree(b, 2, 4, 6, "O");
    assert b[3] == "";
    UndecidedWhenQuiet(b);
  }

  /** The phantom win arises in ordinary play: after PhantomPlay the check
    * reports an X win and latches the game over, though no line of the
    * board is complete. */
  lemma PhantomWinInPlay()
    ensures Check(Run(Initial(3), PhantomPlay())).1 == XWins
    ensures Check(Run(Initial(3), PhantomPlay())).0.over
    ensures Outcome(Run(Initial(3), PhantomPlay()).cells, 3) == NoWinnerYet
  {
    PhantomPlayRuns();
    ScanReportsPlayedWin();
    PlayedBoardUndecided();
  }
}
