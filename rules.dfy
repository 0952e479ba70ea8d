/**
 * The board of the game and its rules, stated once as reference definitions:
 * which lines win, when the board is full, when a move is legal, and what
 * placing a mark does to a board value.  Both the game session (module Game)
 * and the AI players (module AIPlayers) are proved against these.
 */
module Rules {

  datatype Option<+T> = None | Some(value: T)

  /** A square of the board: blank (the string " " in the program), "X" or "O". */
  datatype Cell = Empty | X | O

  /** A mark a player places; also the "active player" during search. */
  type Player = c: Cell | c != Empty witness X

  /** The opponent's mark. */
  function Other(p: Player): (q: Player)
    ensures q != p
  {
    if p == X then O else X
  }

  /** A 3x3 grid of cells, row first, both indices 0-based. */
  type Board = b: seq<seq<Cell>> | |b| == 3 && |b[0]| == 3 && |b[1]| == 3 && |b[2]| == 3
    witness [[Empty, Empty, Empty], [Empty, Empty, Empty], [Empty, Empty, Empty]]

  function EmptyBoard(): (b: Board)
    ensures forall i, j :: 0 <= i < 3 && 0 <= j < 3 ==> b[i][j] == Empty
  {
    [[Empty, Empty, Empty], [Empty, Empty, Empty], [Empty, Empty, Empty]]
  }

  /** Boards are equal when they agree cell by cell. */
  lemma BoardsEqual(a: Board, b: Board)
    requires forall i, j :: 0 <= i < 3 && 0 <= j < 3 ==> a[i][j] == b[i][j]
    ensures a == b
  {
    assert a[0] == b[0] && a[1] == b[1] && a[2] == b[2];
  }

  // ---------------------------------------------------------------- lines

  predicate InRange(i: int) { 0 <= i < 3 }

  predicate RowFilled(b: Board, i: int, p: Player)
    requires InRange(i)
  {
    b[i][0] == p && b[i][1] == p && b[i][2] == p
  }

  predicate ColumnFilled(b: Board, j: int, p: Player)
    requires InRange(j)
  {
    b[0][j] == p && b[1][j] == p && b[2][j] == p
  }

  predicate MainDiagonalFilled(b: Board, p: Player)
  {
    b[0][0] == p && b[1][1] == p && b[2][2] == p
  }

  predicate AntiDiagonalFilled(b: Board, p: Player)
  {
    b[0][2] == p && b[1][1] == p && b[2][0] == p
  }

  /** p holds one of the eight lines: a row, a column or a diagonal. */
  predicate HasLine(b: Board, p: Player)
  {
    (exists i :: 0 <= i < 3 && (RowFilled(b, i, p) || ColumnFilled(b, i, p)))
    || MainDiagonalFilled(b, p) || AntiDiagonalFilled(b, p)
  }

  /**
   * The winner of a board.  X is examined before O, so on a board where both
   * marks hold a line (unreachable in play) the answer is X.
   */
  function Winner(b: Board): Option<Player>
  {
    if HasLine(b, X) then Some(X)
    else if HasLine(b, O) then Some(O)
    else None
  }

  // ---------------------------------------------------------------- filling

  predicate IsFull(b: Board)
  {
    forall i, j :: 0 <= i < 3 && 0 <= j < 3 ==> b[i][j] != Empty
  }

  /** Drawn: nobody holds a line and no cell is blank. */
  predicate IsDraw(b: Board)
  {
    Winner(b) == None && IsFull(b)
  }

  /** Play stops on a terminal board. */
  predicate IsTerminal(b: Board)
  {
    Winner(b) != None || IsDraw(b)
  }

  function Blank(c: Cell): nat
  {
    if c == Empty then 1 else 0
  }

  /** The number of blank cells. */
  function EmptyCount(b: Board): nat
  {
    Blank(b[0][0]) + Blank(b[0][1]) + Blank(b[0][2]) +
    Blank(b[1][0]) + Blank(b[1][1]) + Blank(b[1][2]) +
    Blank(b[2][0]) + Blank(b[2][1]) + Blank(b[2][2])
  }

  /** A legal move: both coordinates in 0..2 and the target cell blank. */
  predicate IsLegal(b: Board, row: int, col: int)
  {
    InRange(row) && InRange(col) && b[row][col] == Empty
  }

  /** The board with one cell overwritten by p; every other cell as before. */
  function Place(b: Board, row: int, col: int, p: Player): (b': Board)
    requires InRange(row) && InRange(col)
    ensures forall i, j :: 0 <= i < 3 && 0 <= j < 3 ==>
              b'[i][j] == if i == row && j == col then p else b[i][j]
  {
    b[row := b[row][col := p]]
  }

  // ---------------------------------------------------------------- lemmas

  lemma OtherTwice(p: Player)
    ensures Other(Other(p)) == p
  {
  }

  /** Full means no blank cell is left to count. */
  lemma FullIffNoneBlank(b: Board)
    ensures IsFull(b) <==> EmptyCount(b) == 0
  {
  }

  /** A win and a draw exclude each other. */
  lemma DrawExcludesWin(b: Board)
    ensures !(IsDraw(b) && Winner(b) != None)
  {
  }

  /** A board that is not terminal still has a blank cell. */
  lemma NotTerminalHasBlank(b: Board)
    requires !IsTerminal(b)
    ensures EmptyCount(b) > 0
  {
    FullIffNoneBlank(b);
  }

  /** Filling a blank cell lowers the count of blank cells by exactly one. */
  lemma PlaceFillsOne(b: Board, row: int, col: int, p: Player)
    requires IsLegal(b, row, col)
    ensures EmptyCount(Place(b, row, col, p)) == EmptyCount(b) - 1
  {
    var b' := Place(b, row, col, p);
    assert Blank(b'[row][col]) == Blank(b[row][col]) - 1;
  }

  /** Placing p never gives the other mark a line it did not already hold. */
  lemma PlaceKeepsOtherLines(b: Board, row: int, col: int, p: Player)
    requires InRange(row) && InRange(col)
    ensures HasLine(Place(b, row, col, p), Other(p)) ==> HasLine(b, Other(p))
  {
    var b', q := Place(b, row, col, p), Other(p);
    if HasLine(b', q) {
      if i :| 0 <= i < 3 && (RowFilled(b', i, q) || ColumnFilled(b', i, q)) {
        assert RowFilled(b, i, q) || ColumnFilled(b, i, q);
      }
    }
  }

  /**
   * On a board without a winner, the only mark a placement can make the
   * winner is the one placed.
   */
  lemma PlaceOnlyMoverWins(b: Board, row: int, col: int, p: Player)
    requires InRange(row) && InRange(col) && Winner(b) == None
    ensures Winner(Place(b, row, col, p)) in {None, Some(p)}
  {
    PlaceKeepsOtherLines(b, row, col, p);
  }
}
