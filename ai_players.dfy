/**
 * The computer players of ai_players.py.  Both enumerate the blank cells of a
 * board value in row-major order with 1-based coordinates; DumbPlayer picks
 * one of them arbitrarily, MiniMaxPlayer runs an exhaustive minimax over
 * copies of the board and returns the first move of maximal score.
 *
 * The search works on board values: each branch builds its own board with
 * Place, so the caller's board cannot change.
 */
module AIPlayers {
  import opened Rules
  import opened Builtins

  /** A move as the AI players report it: 1-based row and column. */
  datatype Move = Move(row: int, col: int)

  /** m names a blank cell of b. */
  predicate Vacant(b: Board, m: Move)
  {
    1 <= m.row <= 3 && 1 <= m.col <= 3 && b[m.row - 1][m.col - 1] == Empty
  }

  /** Strict row-major order: row ascending, then column ascending. */
  predicate Precedes(m: Move, n: Move)
  {
    m.row < n.row || (m.row == n.row && m.col < n.col)
  }

  predicate RowMajor(ms: seq<Move>)
  {
    forall i, j :: 0 <= i < j < |ms| ==> Precedes(ms[i], ms[j])
  }

  // ------------------------------------------------ enumeration of blank cells

  /** The blank cells among the first n columns of row r, left to right. */
  function BlanksInRow(b: Board, r: int, n: int): seq<Move>
    requires InRange(r) && 0 <= n <= 3
  {
    if n == 0 then []
    else BlanksInRow(b, r, n - 1) + (if b[r][n - 1] == Empty then [Move(r + 1, n)] else [])
  }

  /** The blank cells of the first n rows, in row-major order. */
  function BlanksInRows(b: Board, n: int): seq<Move>
    requires 0 <= n <= 3
  {
    if n == 0 then [] else BlanksInRows(b, n - 1) + BlanksInRow(b, n - 1, 3)
  }

  /** Every blank cell of b, in row-major order, 1-based. */
  function EmptyCells(b: Board): seq<Move>
  {
    BlanksInRows(b, 3)
  }

  lemma {:induction false} BlanksInRowFacts(b: Board, r: int, n: int)
    requires InRange(r) && 0 <= n <= 3
    ensures forall m :: m in BlanksInRow(b, r, n) <==>
              m.row == r + 1 && 1 <= m.col <= n && b[r][m.col - 1] == Empty
    ensures RowMajor(BlanksInRow(b, r, n))
  {
    if n > 0 {
      BlanksInRowFacts(b, r, n - 1);
    }
  }

  lemma {:induction false} BlanksInRowsFacts(b: Board, n: int)
    requires 0 <= n <= 3
    ensures forall m :: m in BlanksInRows(b, n) <==> 1 <= m.row <= n && Vacant(b, m)
    ensures RowMajor(BlanksInRows(b, n))
  {
    if n > 0 {
      BlanksInRowsFacts(b, n - 1);
      BlanksInRowFacts(b, n - 1, 3);
      var front, last := BlanksInRows(b, n - 1), BlanksInRow(b, n - 1, 3);
      forall i, j | 0 <= i < j < |front + last|
        ensures Precedes((front + last)[i], (front + last)[j])
      {
        if j < |front| {
        } else if i >= |front| {
          assert (front + last)[i] == last[i - |front|];
          assert (front + last)[j] == last[j - |front|];
        } else {
          assert (front + last)[i] in front;
          assert (front + last)[j] in last;
        }
      }
    }
  }

  lemma BlanksInRowCount(b: Board, r: int)
    requires InRange(r)
    ensures |BlanksInRow(b, r, 3)| == Blank(b[r][0]) + Blank(b[r][1]) + Blank(b[r][2])
  {
    assert |BlanksInRow(b, r, 1)| == Blank(b[r][0]);
    assert |BlanksInRow(b, r, 2)| == Blank(b[r][0]) + Blank(b[r][1]);
  }

  /**
   * The enumeration lists exactly the blank cells, each once, in row-major
   * order, and there are as many of them as the board has blank cells.
   */
  lemma EmptyCellsSpec(b: Board)
    ensures forall m :: m in EmptyCells(b) <==> Vacant(b, m)
    ensures RowMajor(EmptyCells(b))
    ensures forall i, j :: 0 <= i < j < |EmptyCells(b)| ==> EmptyCells(b)[i] != EmptyCells(b)[j]
    ensures |EmptyCells(b)| == EmptyCount(b)
  {
    BlanksInRowsFacts(b, 3);
    var cells := EmptyCells(b);
    forall i, j | 0 <= i < j < |cells| ensures cells[i] != cells[j] {
      assert Precedes(cells[i], cells[j]);
    }
    BlanksInRowCount(b, 0);
    BlanksInRowCount(b, 1);
    BlanksInRowCount(b, 2);
    assert BlanksInRows(b, 1) == BlanksInRow(b, 0, 3);
    assert |cells| == |BlanksInRows(b, 2)| + |BlanksInRow(b, 2, 3)|;
  }

  /** The session's legality test and the AI's enumeration agree. */
  lemma LegalIffListed(b: Board, row: int, col: int)
    ensures IsLegal(b, row, col) <==> Move(row + 1, col + 1) in EmptyCells(b)
  {
    EmptyCellsSpec(b);
  }

  /** Each move the enumeration lists names a blank cell. */
  lemma EmptyCellsVacant(b: Board)
    ensures forall k :: 0 <= k < |EmptyCells(b)| ==> Vacant(b, EmptyCells(b)[k])
  {
    EmptyCellsSpec(b);
  }

  /** A board that is not terminal offers at least one move. */
  lemma NotTerminalHasMoves(b: Board)
    requires !IsTerminal(b)
    ensures |EmptyCells(b)| > 0
  {
    NotTerminalHasBlank(b);
    EmptyCellsSpec(b);
  }

  /** AIPlayer._get_valid_movements: the nested loop that collects the blank cells. */
  method GetValidMovements(b: Board) returns (moves: seq<Move>)
    ensures moves == EmptyCells(b)
  {
    moves := [];
    for row := 0 to |b|
      invariant moves == BlanksInRows(b, row)
    {
      for column := 0 to |b[row]|
        invariant moves == BlanksInRows(b, row) + BlanksInRow(b, row, column)
      {
        if b[row][column] == Empty {
          moves := moves + [Move(row + 1, column + 1)];
        }
      }
    }
  }

  // ------------------------------------------------ MiniMaxPlayer's own rules

  /**
   * The program's scan for one mark: column i, then row i, for i from the
   * given index to 2, then the main diagonal and the anti-diagonal.
   */
  function ScanLines(b: Board, p: Player, i: int): bool
    requires 0 <= i <= 3
    decreases 3 - i
  {
    if i == 3 then MainDiagonalFilled(b, p) || AntiDiagonalFilled(b, p)
    else ColumnFilled(b, i, p) || RowFilled(b, i, p) || ScanLines(b, p, i + 1)
  }

  lemma {:induction false} ScanLinesFinds(b: Board, p: Player, i: int)
    requires 0 <= i <= 3
    decreases 3 - i
    ensures ScanLines(b, p, i) <==>
              (exists k :: i <= k < 3 && (RowFilled(b, k, p) || ColumnFilled(b, k, p)))
              || MainDiagonalFilled(b, p) || AntiDiagonalFilled(b, p)
  {
    if i < 3 {
      ScanLinesFinds(b, p, i + 1);
      if ColumnFilled(b, i, p) || RowFilled(b, i, p) {
        assert i <= i < 3 && (RowFilled(b, i, p) || ColumnFilled(b, i, p));
      }
    }
  }

  /** The outer loop over the marks, in the order given. */
  function ScanMarks(b: Board, marks: seq<Player>): Option<Player>
  {
    if marks == [] then None
    else if ScanLines(b, marks[0], 0) then Some(marks[0])
    else ScanMarks(b, marks[1..])
  }

  /** MiniMaxPlayer.get_winner: the same answer as the reference rules. */
  function GetWinner(b: Board): (w: Option<Player>)
    ensures w == Winner(b)
  {
    ScanLinesFinds(b, X, 0);
    ScanLinesFinds(b, O, 0);
    assert [X, O][1..] == [O] && [O][1..] == [];
    assert ScanMarks(b, [O]) == if ScanLines(b, O, 0) then Some(O) else None;
    ScanMarks(b, [X, O])
  }

  /** The row-by-row test for a blank cell: true when no row holds one. */
  function NoBlankRow(rows: seq<seq<Cell>>): bool
  {
    rows == [] || (Empty !in rows[0] && NoBlankRow(rows[1..]))
  }

  lemma {:induction false} NoBlankRowAll(rows: seq<seq<Cell>>)
    ensures NoBlankRow(rows) <==> forall i, j :: 0 <= i < |rows| && 0 <= j < |rows[i]| ==> rows[i][j] != Empty
  {
    if rows != [] {
      NoBlankRowAll(rows[1..]);
      assert forall i :: 1 <= i < |rows| ==> rows[i] == rows[1..][i - 1];
      if Empty in rows[0] {
        var j :| 0 <= j < |rows[0]| && rows[0][j] == Empty;
      }
    }
  }

  /** MiniMaxPlayer.check_draw: the same answer as the reference rules. */
  function CheckDraw(b: Board): (d: bool)
    ensures d == IsDraw(b)
  {
    NoBlankRowAll(b);
    if GetWinner(b) != None then false else NoBlankRow(b)
  }

  /** The three values a board can be given. */
  predicate IsScore(r: int) { r == -10 || r == 0 || r == 10 }

  /**
   * MiniMaxPlayer.score from the viewpoint of iam: +10 when iam has won,
   * -10 when the other mark has, 0 for a draw or a board still in play.
   */
  function Score(b: Board, iam: Player): (r: int)
    ensures r == 10 <==> Winner(b) == Some(iam)
    ensures r == -10 <==> Winner(b) == Some(Other(iam))
    ensures r == 0 <==> Winner(b) == None
    ensures IsScore(r)
  {
    if CheckDraw(b) then 0
    else
      var winner := GetWinner(b);
      if winner == Some(iam) then 10
      else if winner.Some? then -10
      else 0
  }

  // ------------------------------------------------ minimax, as a definition

  /** The board after active plays the 1-based move m. */
  function Child(b: Board, m: Move, active: Player): Board
    requires Vacant(b, m)
  {
    Place(b, m.row - 1, m.col - 1, active)
  }

  lemma ChildFillsOne(b: Board, m: Move, active: Player)
    requires Vacant(b, m)
    ensures EmptyCount(Child(b, m, active)) == EmptyCount(b) - 1
  {
    PlaceFillsOne(b, m.row - 1, m.col - 1, active);
  }

  /**
   * The value minimax gives b with active to move, from the viewpoint of iam:
   * the score of a terminal board, otherwise the maximum (iam to move) or
   * minimum (the other mark to move) of the values of the children, taken
   * in enumeration order.  Each child has one blank cell fewer.
   */
  function MinimaxValue(b: Board, active: Player, iam: Player): int
    decreases EmptyCount(b), 1, 0
  {
    if GetWinner(b).Some? || CheckDraw(b) then Score(b, iam)
    else
      NotTerminalHasMoves(b);
      EmptyCellsVacant(b);
      var scores := ChildScores(b, EmptyCells(b), active, iam);
      if active == iam then Max(scores) else Min(scores)
  }

  /** On a finished board minimax is the static score. */
  lemma MinimaxTerminal(b: Board, active: Player, iam: Player)
    requires IsTerminal(b)
    ensures MinimaxValue(b, active, iam) == Score(b, iam)
  {
  }

  /** One step of minimax on a board still in play. */
  lemma MinimaxStep(b: Board, active: Player, iam: Player)
    requires GetWinner(b) == None && !CheckDraw(b)
    ensures |EmptyCells(b)| > 0
    ensures forall k :: 0 <= k < |EmptyCells(b)| ==> Vacant(b, EmptyCells(b)[k])
    ensures MinimaxValue(b, active, iam) ==
              if active == iam then Max(ChildScores(b, EmptyCells(b), active, iam))
              else Min(ChildScores(b, EmptyCells(b), active, iam))
  {
    NotTerminalHasMoves(b);
    EmptyCellsVacant(b);
  }

  /** The values of the children reached by the moves ms, in order. */
  function ChildScores(b: Board, ms: seq<Move>, active: Player, iam: Player): (r: seq<int>)
    requires forall k :: 0 <= k < |ms| ==> Vacant(b, ms[k])
    ensures |r| == |ms|
    decreases EmptyCount(b), 0, |ms|
  {
    if ms == [] then []
    else
      var last := ms[|ms| - 1];
      ChildFillsOne(b, last, active);
      ChildScores(b, ms[..|ms| - 1], active, iam) + [MinimaxValue(Child(b, last, active), Other(active), iam)]
  }

  /** Minimax only ever yields one of the three scores. */
  lemma {:induction false} MinimaxInRange(b: Board, active: Player, iam: Player)
    ensures IsScore(MinimaxValue(b, active, iam))
    decreases EmptyCount(b), 1, 0
  {
    if !(GetWinner(b).Some? || CheckDraw(b)) {
      MinimaxStep(b, active, iam);
      var scores := ChildScores(b, EmptyCells(b), active, iam);
      ChildScoresInRange(b, EmptyCells(b), active, iam);
      if active == iam {
        assert Max(scores) in scores;
      } else {
        assert Min(scores) in scores;
      }
    }
  }

  lemma {:induction false} ChildScoresInRange(b: Board, ms: seq<Move>, active: Player, iam: Player)
    requires forall k :: 0 <= k < |ms| ==> Vacant(b, ms[k])
    ensures forall k :: 0 <= k < |ms| ==> IsScore(ChildScores(b, ms, active, iam)[k])
    decreases EmptyCount(b), 0, |ms|
  {
    if ms != [] {
      var last := ms[|ms| - 1];
      ChildFillsOne(b, last, active);
      MinimaxInRange(Child(b, last, active), Other(active), iam);
      ChildScoresInRange(b, ms[..|ms| - 1], active, iam);
    }
  }

  /** The k-th score is the value of the child reached by the k-th move. */
  lemma {:induction false} ChildScoresAt(b: Board, ms: seq<Move>, active: Player, iam: Player, k: int)
    requires forall j :: 0 <= j < |ms| ==> Vacant(b, ms[j])
    requires 0 <= k < |ms|
    ensures ChildScores(b, ms, active, iam)[k] == MinimaxValue(Child(b, ms[k], active), Other(active), iam)
    decreases |ms|
  {
    if k < |ms| - 1 {
      var front := ms[..|ms| - 1];
      ChildScoresAt(b, front, active, iam, k);
      assert front[k] == ms[k];
    }
  }

  /** Appending the value of the next child extends the list of scores by one. */
  lemma ChildScoresGrow(b: Board, ms: seq<Move>, k: int, active: Player, iam: Player,
                        scores: seq<int>, child: Board, next: Player, v: int)
    requires forall j :: 0 <= j < |ms| ==> Vacant(b, ms[j])
    requires 0 <= k < |ms| && scores == ChildScores(b, ms[..k], active, iam)
    requires child == Child(b, ms[k], active) && next == Other(active)
    requires v == MinimaxValue(child, next, iam)
    ensures scores + [v] == ChildScores(b, ms[..k + 1], active, iam)
  {
    assert ms[..k + 1][..k] == ms[..k];
  }

  /** The scores define_movement collects: one per blank cell, iam moving. */
  function MoveScores(b: Board, iam: Player): (r: seq<int>)
    ensures |r| == |EmptyCells(b)|
  {
    EmptyCellsVacant(b);
    ChildScores(b, EmptyCells(b), iam, iam)
  }

  /** A move that completes a line for iam ends the game at +10. */
  lemma WinningChildIsTen(b: Board, m: Move, iam: Player)
    requires Winner(b) == None && Vacant(b, m) && HasLine(Child(b, m, iam), iam)
    ensures MinimaxValue(Child(b, m, iam), Other(iam), iam) == 10
  {
    PlaceOnlyMoverWins(b, m.row - 1, m.col - 1, iam);
    assert Winner(Child(b, m, iam)) == Some(iam);
  }

  /** Among scores, one +10 makes the maximum +10. */
  lemma MaxOfScoresIsTen(s: seq<int>, k: int)
    requires forall j :: 0 <= j < |s| ==> IsScore(s[j])
    requires 0 <= k < |s| && s[k] == 10
    ensures Max(s) == 10
  {
    var i :| 0 <= i < |s| && s[i] == Max(s);
  }

  /**
   * When iam is to move on a board still in play and one of its moves
   * completes a line, minimax values the board at +10.
   */
  lemma ImmediateWinIsTen(b: Board, iam: Player, m: Move)
    requires !IsTerminal(b) && Vacant(b, m) && HasLine(Child(b, m, iam), iam)
    ensures MinimaxValue(b, iam, iam) == 10
  {
    EmptyCellsSpec(b);
    MinimaxStep(b, iam, iam);
    var cells := EmptyCells(b);
    var k :| 0 <= k < |cells| && cells[k] == m;
    WinningChildIsTen(b, m, iam);
    ChildScoresAt(b, cells, iam, iam, k);
    ChildScoresInRange(b, cells, iam, iam);
    MaxOfScoresIsTen(ChildScores(b, cells, iam, iam), k);
  }

  // ------------------------------------------------ the players

  /** The player that picks any blank cell (random.choice in the program). */
  class DumbPlayer {
    const iam: Player

    constructor (iam: Player)
      ensures this.iam == iam
    {
      this.iam := iam;
    }

    /** DumbPlayer.define_movement: some blank cell; which one is left open. */
    method DefineMovement(b: Board) returns (m: Move)
      requires EmptyCount(b) > 0
      ensures m in EmptyCells(b)
      ensures Vacant(b, m)
    {
      var validMovements := GetValidMovements(b);
      EmptyCellsSpec(b);
      assert validMovements[0] in validMovements;
      m :| m in validMovements;
    }
  }

  /** The player that searches the whole remaining game tree. */
  class MiniMaxPlayer {
    const iam: Player

    constructor (iam: Player)
      ensures this.iam == iam
    {
      this.iam := iam;
    }

    /** MiniMaxPlayer.minimax: recursion over fresh copies of the board. */
    method Minimax(b: Board, activePlayer: Player) returns (s: int)
      ensures s == MinimaxValue(b, activePlayer, iam)
      decreases EmptyCount(b), 1
    {
      var winner := GetWinner(b);
      if winner.Some? || CheckDraw(b) {
        return Score(b, iam);
      }
      var nextPlayer: Player := X;
      if activePlayer == X {
        nextPlayer := O;
      }
      var validMovements := GetValidMovements(b);
      MinimaxStep(b, activePlayer, iam);
      var scores := ScoreMovements(b, validMovements, activePlayer, nextPlayer);
      if activePlayer == iam {
        s := Max(scores);
      } else {
        s := Min(scores);
      }
    }

    /** The loop of minimax: the value of each child, in the order of the moves. */
    method ScoreMovements(b: Board, moves: seq<Move>, activePlayer: Player, nextPlayer: Player)
      returns (scores: seq<int>)
      requires forall k :: 0 <= k < |moves| ==> Vacant(b, moves[k])
      requires nextPlayer == Other(activePlayer)
      ensures scores == ChildScores(b, moves, activePlayer, iam)
      decreases EmptyCount(b), 0
    {
      scores := [];
      for k := 0 to |moves|
        invariant scores == ChildScores(b, moves[..k], activePlayer, iam)
      {
        var move := moves[k];
        var newBoard := Place(b, move.row - 1, move.col - 1, activePlayer);
        ChildFillsOne(b, move, activePlayer);
        var childScore := Minimax(newBoard, nextPlayer);
        ChildScoresGrow(b, moves, k, activePlayer, iam, scores, newBoard, nextPlayer, childScore);
        scores := scores + [childScore];
      }
      assert moves[..|moves|] == moves;
    }

    /**
     * MiniMaxPlayer.define_movement: the first blank cell, in enumeration
     * order, whose score is the largest; on a board still in play that
     * score is the minimax value of the board.
     */
    method DefineMovement(b: Board) returns (m: Move)
      requires EmptyCount(b) > 0
      ensures Vacant(b, m)
      ensures exists i :: 0 <= i < |EmptyCells(b)| && EmptyCells(b)[i] == m && FirstMaxAt(MoveScores(b, iam), i)
      ensures !IsTerminal(b) ==> Max(MoveScores(b, iam)) == MinimaxValue(b, iam, iam)
    {
      var nextPlayer: Player := O;
      if iam == O {
        nextPlayer := X;
      }
      var validMovements := GetValidMovements(b);
      EmptyCellsVacant(b);
      var scores := ScoreMovements(b, validMovements, iam, nextPlayer);
      assert |scores| > 0 by {
        EmptyCellsSpec(b);
      }
      var maxScoreIndex := IndexOf(scores, Max(scores));
      IndexOfMax(scores);
      m := validMovements[maxScoreIndex];
      if !IsTerminal(b) {
        MinimaxStep(b, iam, iam);
      }
    }
  }
}
