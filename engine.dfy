/** The game engine as a state machine over values: the state `GameBoard`
  * keeps (side, cells, whose turn, the game-over latch) and what each of its
  * operations does to it. The class in module Board is proved to follow
  * these functions; the lemmas here state what holds over whole games. */
module Engine {
  import opened Lines
  import opened Rules

  /** What `performMove` returns: true, false, or nothing once the game is over. */
  datatype MoveResult = Accepted | Rejected | Ignored

  datatype Game = Game(side: nat, cells: seq<string>, turn: string, over: bool)

  predicate WellFormed(g: Game)
  {
    g.side >= 2 && |g.cells| == g.side * g.side && (g.turn == "X" || g.turn == "O")
  }

  /** The next turn marker: 'O' after 'X', 'X' after anything else. */
  function Flip(t: string): (u: string)
    ensures u == "X" || u == "O"
    ensures u == "O" <==> t == "X"
    ensures (t == "X" || t == "O") ==> u != t
  {
    if t == "X" then "O" else "X"
  }

  /** How many cells of s hold marker m. This counts the board by value,
    * where `Rules.Count` counts along a list of indices; the proofs about
    * moves and turns are shorter this way, and OccurrencesIsCount shows
    * that the two agree. */
  function Occurrences(s: seq<string>, m: string): (n: nat)
    ensures n <= |s|
  {
    if s == [] then 0 else (if s[0] == m then 1 else 0) + Occurrences(s[1..], m)
  }

  /** Occurrences over the cells from k on is the count, as the line checks
    * take it, over the indices k, k+1, ..., |s|-1. */
  lemma {:induction false} OccurrencesFrom(s: seq<string>, k: nat, m: string)
    requires k <= |s|
    ensures Occurrences(s[k..], m) == Count(s, seq(|s| - k, i => k + i), m)
    decreases |s| - k
  {
    var cells := seq(|s| - k, i => k + i);
    if k < |s| {
      OccurrencesFrom(s, k + 1, m);
      assert cells[1..] == seq(|s| - (k + 1), i => k + 1 + i);
      assert s[k..][1..] == s[k + 1..];
    } else {
      assert s[k..] == [];
    }
  }

  /** The number of cells holding m on the whole board is the count over
    * every index: the two countings agree. */
  lemma OccurrencesIsCount(s: seq<string>, m: string)
    ensures Occurrences(s, m) == Count(s, seq(|s|, i => i), m)
  {
    OccurrencesFrom(s, 0, m);
    assert s[0..] == s;
    assert seq(|s| - 0, i => 0 + i) == seq(|s|, i => i);
  }

  /** Writing v over cell i trades one occurrence of the old value for one of v. */
  lemma {:induction false} OccurrencesUpdate(s: seq<string>, i: nat, v: string, m: string)
    requires i < |s|
    ensures Occurrences(s[i := v], m) ==
      Occurrences(s, m) - (if s[i] == m then 1 else 0) + (if v == m then 1 else 0)
  {
    if i > 0 {
      OccurrencesUpdate(s[1..], i - 1, v, m);
      assert s[i := v][1..] == s[1..][i - 1 := v];
    }
  }

  /** A board of empty cells holds no marker but the empty one. */
  lemma {:induction false} OccurrencesOfEmpty(s: seq<string>, m: string)
    requires forall i :: 0 <= i < |s| ==> s[i] == ""
    ensures Occurrences(s, m) == if m == "" then |s| else 0
  {
    if s != [] {
      OccurrencesOfEmpty(s[1..], m);
    }
  }

  /** The state the constructor and `clearBoard` leave: every cell empty,
    * X to move, game not over. */
  function Initial(side: nat): (g: Game)
    requires side >= 2
    ensures WellFormed(g) && g.side == side && !g.over && g.turn == "X"
    ensures forall i :: 0 <= i < side * side ==> g.cells[i] == ""
  {
    Game(side, seq(side * side, _ => ""), "X", false)
  }

  /** `performMove(position, playerID)`. */
  function Move(g: Game, position: int, playerID: string): (res: (Game, MoveResult))
    ensures WellFormed(g) ==> WellFormed(res.0)
    ensures res.0.side == g.side && res.0.over == g.over && |res.0.cells| == |g.cells|
    ensures res.1 == Ignored <==> g.over
    ensures res.1 == Accepted <==> !g.over && 0 <= position < |g.cells| && g.cells[position] == ""
    ensures res.1 == Accepted ==>
      res.0.cells[position] == playerID &&
      (forall i :: 0 <= i < |g.cells| && i != position ==> res.0.cells[i] == g.cells[i]) &&
      res.0.turn == Flip(g.turn) && res.0.turn != g.turn
    ensures res.1 != Accepted ==> res.0 == g
  {
    if g.over then (g, Ignored)
    else if 0 <= position < |g.cells| && g.cells[position] == "" then
      (g.(cells := g.cells[position := playerID], turn := Flip(g.turn)), Accepted)
    else (g, Rejected)
  }

  /** `checkForWinner()`: AlreadyOver on a finished game; otherwise the scan
    * verdict, latching the game over on a win or a tie. */
  function Check(g: Game): (res: (Game, Verdict))
    requires g.side >= 2
    ensures res.0.side == g.side && res.0.cells == g.cells && res.0.turn == g.turn
    ensures g.over ==> res == (g, AlreadyOver)
    ensures !g.over ==> res.1 == ScanVerdict(g.cells, g.side) && res.1 != AlreadyOver
    ensures res.0.over <==> g.over || res.1 != NoWinnerYet
  {
    if g.over then (g, AlreadyOver)
    else
      var v := ScanVerdict(g.cells, g.side);
      (g.(over := v != NoWinnerYet), v)
  }

  /** `clearBoard()`: back to the initial state, keeping the board size. */
  function Clear(g: Game): (h: Game)
    requires g.side >= 2
    ensures h == Initial(g.side)
    ensures |h.cells| == g.side * g.side
  {
    Initial(g.side)
  }

  /** Once a check has reported a win or a tie, the next check reports
    * AlreadyOver and changes nothing (FrozenWhileOver extends this to every
    * later move and check until the board is cleared). */
  lemma CheckLatches(g: Game)
    requires g.side >= 2
    requires Check(g).1 != NoWinnerYet
    ensures Check(Check(g).0) == (Check(g).0, AlreadyOver)
  {}

  /** A check changes nothing but the game-over flag. */
  lemma CheckOnlyLatches(g: Game)
    requires g.side >= 2
    ensures Check(g).0 == g.(over := Check(g).0.over)
  {}

  /** The calls that change the engine's state. */
  datatype Call = PerformMove(position: int, playerID: string) | CheckForWinner | ClearBoard

  function Step(g: Game, c: Call): (h: Game)
    requires g.side >= 2
    ensures h.side == g.side
  {
    match c
    case PerformMove(position, playerID) => Move(g, position, playerID).0
    case CheckForWinner => Check(g).0
    case ClearBoard => Clear(g)
  }

  /** The state after a sequence of calls, in order. */
  function Run(g: Game, calls: seq<Call>): (h: Game)
    requires g.side >= 2
    ensures h.side == g.side
    decreases |calls|
  {
    if calls == [] then g else Run(Step(g, calls[0]), calls[1..])
  }

  /** Every sequence of calls keeps the state well formed: in particular the
    * board size never changes and the turn is always 'X' or 'O'. */
  lemma {:induction false} RunKeepsWellFormed(g: Game, calls: seq<Call>)
    requires WellFormed(g)
    ensures WellFormed(Run(g, calls))
    decreases |calls|
  {
    if calls != [] {
      RunKeepsWellFormed(Step(g, calls[0]), calls[1..]);
    }
  }

  /** Once the game is over, no sequence of moves and checks changes
    * anything: every move is ignored and every check reports AlreadyOver. */
  lemma {:induction false} FrozenWhileOver(g: Game, calls: seq<Call>)
    requires g.side >= 2 && g.over
    requires forall i :: 0 <= i < |calls| ==> calls[i] != ClearBoard
    ensures Run(g, calls) == g
    decreases |calls|
  {
    if calls != [] {
      assert Step(g, calls[0]) == g;
      FrozenWhileOver(g, calls[1..]);
    }
  }

  /** The turn is X exactly when an even number of cells is filled: every
    * accepted move fills one empty cell and flips the turn once. */
  predicate TurnMatchesFilled(g: Game)
  {
    WellFormed(g) && (g.turn == "X" <==> (|g.cells| - Occurrences(g.cells, "")) % 2 == 0)
  }

  predicate NonEmptyMarkers(calls: seq<Call>)
  {
    forall i :: 0 <= i < |calls| && calls[i].PerformMove? ==> calls[i].playerID != ""
  }

  lemma TurnMatchesFilledInitially(side: nat)
    requires side >= 2
    ensures TurnMatchesFilled(Initial(side))
  {
    OccurrencesOfEmpty(Initial(side).cells, "");
  }

  lemma ParityFlip(n: int)
    ensures (n + 1) % 2 == 0 <==> n % 2 != 0
  {}

  /** An accepted move fills one more cell and flips the turn. */
  lemma TurnMatchesFilledMove(g: Game, position: int, playerID: string)
    requires TurnMatchesFilled(g) && playerID != ""
    ensures TurnMatchesFilled(Move(g, position, playerID).0)
  {
    if Move(g, position, playerID).1 == Accepted {
      var h := Move(g, position, playerID).0;
      OccurrencesUpdate(g.cells, position, playerID, "");
      assert |h.cells| - Occurrences(h.cells, "") == |g.cells| - Occurrences(g.cells, "") + 1;
      ParityFlip(|g.cells| - Occurrences(g.cells, ""));
    }
  }

  /** One call keeps the turn in step with the number of filled cells,
    * provided a move never writes the empty marker. */
  lemma TurnMatchesFilledStep(g: Game, c: Call)
    requires TurnMatchesFilled(g)
    requires c.PerformMove? ==> c.playerID != ""
    ensures TurnMatchesFilled(Step(g, c))
  {
    if c.PerformMove? {
      TurnMatchesFilledMove(g, c.position, c.playerID);
      assert Step(g, c) == Move(g, c.position, c.playerID).0;
    } else if c.CheckForWinner? {
      CheckOnlyLatches(g);
      assert Step(g, c) == g.(over := Check(g).0.over);
    } else {
      TurnMatchesFilledInitially(g.side);
      assert Step(g, c) == Initial(g.side);
    }
  }

  lemma {:induction false} TurnMatchesFilledRun(g: Game, calls: seq<Call>)
    requires TurnMatchesFilled(g) && NonEmptyMarkers(calls)
    ensures TurnMatchesFilled(Run(g, calls))
    decreases |calls|
  {
    if calls != [] {
      TurnMatchesFilledStep(g, calls[0]);
      assert NonEmptyMarkers(calls[1..]) by {
        forall i | 0 <= i < |calls[1..]| && calls[1..][i].PerformMove?
          ensures calls[1..][i].playerID != ""
        {
          assert calls[1..][i] == calls[i + 1];
        }
      }
      TurnMatchesFilledRun(Step(g, calls[0]), calls[1..]);
    }
  }

  /** Play as the page drives it: the marker of every move is the one whose
    * turn it is. */
  predicate FollowsTurn(g: Game, calls: seq<Call>)
    requires g.side >= 2
    decreases |calls|
  {
    calls == [] ||
    ((calls[0].PerformMove? ==> calls[0].playerID == g.turn) && FollowsTurn(Step(g, calls[0]), calls[1..]))
  }

  /** X and O alternate: X has as many marks as O when X is to move, and
    * one more when O is to move. */
  predicate Balanced(g: Game)
  {
    WellFormed(g) &&
    (g.turn == "X" ==> Occurrences(g.cells, "X") == Occurrences(g.cells, "O")) &&
    (g.turn == "O" ==> Occurrences(g.cells, "X") == Occurrences(g.cells, "O") + 1)
  }

  lemma BalancedInitially(side: nat)
    requires side >= 2
    ensures Balanced(Initial(side))
  {
    OccurrencesOfEmpty(Initial(side).cells, "X");
    OccurrencesOfEmpty(Initial(side).cells, "O");
  }

  /** One call by the player whose turn it is keeps the marks balanced. */
  lemma BalancedStep(g: Game, c: Call)
    requires Balanced(g)
    requires c.PerformMove? ==> c.playerID == g.turn
    ensures Balanced(Step(g, c))
  {
    match c {
      case PerformMove(position, playerID) =>
        if Move(g, position, playerID).1 == Accepted {
          OccurrencesUpdate(g.cells, position, playerID, "X");
          OccurrencesUpdate(g.cells, position, playerID, "O");
        }
      case CheckForWinner =>
        CheckOnlyLatches(g);
      case ClearBoard =>
        BalancedInitially(g.side);
    }
  }

  /** A game played by turns stays balanced, whatever is checked or cleared
    * along the way. */
  lemma {:induction false} BalancedRun(g: Game, calls: seq<Call>)
    requires Balanced(g) && FollowsTurn(g, calls)
    ensures Balanced(Run(g, calls))
    decreases |calls|
  {
    if calls != [] {
      BalancedStep(g, calls[0]);
      BalancedRun(Step(g, calls[0]), calls[1..]);
    }
  }
}
