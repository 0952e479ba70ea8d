/**
 * The game session of tic_tac_toe.py: a TicTacToe object owns a mutable 3x3
 * grid and the mark whose turn it is.  Its queries are proved to agree with
 * the reference rules of module Rules applied to a snapshot of the grid; its
 * updates are proved to change exactly what the program changes.  PlayTurn
 * and the two computer turns are the per-move step of the program's game
 * loops, with the console input and output taken away.
 */
module Game {
  import opened Rules
  import opened Builtins
  import AIPlayers

  /** How one step of the game loop ends. */
  datatype TurnOutcome =
    | Rejected            // "Select a valid Movement please": nothing changes
    | Won(winner: Player) // "Player ... wins!": the loop stops
    | Drawn               // "The game is a draw!": the loop stops
    | Continues           // the turn passes to the other mark

  /**
   * Python's list indexing for a list of length 3: -3..-1 count from the
   * end, so the index actually used is i taken modulo 3.
   */
  function PyIndex(i: int): (r: int)
    requires -3 <= i < 3
    ensures InRange(r) && r % 3 == i % 3
  {
    if i < 0 then i + 3 else i
  }

  class TicTacToe {
    const players: seq<Player>
    const board: array2<Cell>
    var currentPlayer: Player

    /** The object as the constructor leaves it: players X then O, a 3x3 grid. */
    predicate Valid()
    {
      players == [X, O] && board.Length0 == 3 && board.Length1 == 3
    }

    /** The grid as a board value. */
    function Snapshot(): (b: Board)
      reads board
      requires Valid()
      ensures forall i, j :: 0 <= i < 3 && 0 <= j < 3 ==> b[i][j] == board[i, j]
    {
      [[board[0, 0], board[0, 1], board[0, 2]],
       [board[1, 0], board[1, 1], board[1, 2]],
       [board[2, 0], board[2, 1], board[2, 2]]]
    }

    /** __init__: an empty grid and X to move. */
    constructor ()
      ensures Valid() && fresh(board)
      ensures Snapshot() == EmptyBoard()
      ensures currentPlayer == X
    {
      players := [X, O];
      board := new Cell[3, 3]((i, j) => Empty);
      currentPlayer := X;
      new;
      BoardsEqual(Snapshot(), EmptyBoard());
    }

    /** change_player: the other mark moves next; the answer is always True. */
    method ChangePlayer() returns (r: bool)
      requires Valid()
      modifies this
      ensures currentPlayer == Other(old(currentPlayer))
      ensures r
    {
      if currentPlayer == players[0] {
        currentPlayer := players[1];
      } else {
        currentPlayer := players[0];
      }
      return true;
    }

    /**
     * get_winner: for X and then O, each column and row, then both
     * diagonals, returning the first mark found holding a line; None stands
     * for the program's False.
     */
    method GetWinner() returns (w: Option<Player>)
      requires Valid()
      ensures w == Winner(Snapshot())
      ensures w == AIPlayers.GetWinner(Snapshot())
    {
      ghost var snap := Snapshot();
      var marks: seq<Player> := [X, O];
      for t := 0 to |marks|
        invariant forall u :: 0 <= u < t ==> !HasLine(snap, marks[u])
      {
        var player := marks[t];
        assert t == 1 ==> marks[0] == X;
        for i := 0 to 3
          invariant forall k :: 0 <= k < i ==> !ColumnFilled(snap, k, player) && !RowFilled(snap, k, player)
        {
          if board[0, i] == player && board[1, i] == player && board[2, i] == player {
            assert ColumnFilled(snap, i, player);
            return Some(player);
          }
          if board[i, 0] == player && board[i, 1] == player && board[i, 2] == player {
            assert RowFilled(snap, i, player);
            return Some(player);
          }
        }
        if board[0, 0] == player && board[1, 1] == player && board[2, 2] == player {
          return Some(player);
        }
        if board[0, 2] == player && board[1, 1] == player && board[2, 0] == player {
          return Some(player);
        }
      }
      assert marks[0] == X && marks[1] == O;
      return None;
    }

    /** check_draw: no winner, and no row of the grid holds a blank cell. */
    method CheckDraw() returns (d: bool)
      requires Valid()
      ensures d == IsDraw(Snapshot())
      ensures d == AIPlayers.CheckDraw(Snapshot())
    {
      var winner := GetWinner();
      if winner != None {
        return false;
      }
      for row := 0 to 3
        invariant forall i, j :: 0 <= i < row && 0 <= j < 3 ==> board[i, j] != Empty
      {
        if board[row, 0] == Empty || board[row, 1] == Empty || board[row, 2] == Empty {
          return false;
        }
      }
      return true;
    }

    /**
     * check_movement_is_valid: both coordinates in 0..2 and the cell blank.
     * The grid is read only once the bounds have been checked.
     */
    method CheckMovementIsValid(row: int, col: int) returns (v: bool)
      requires Valid()
      ensures v == IsLegal(Snapshot(), row, col)
    {
      if row !in [0, 1, 2] || col !in [0, 1, 2] {
        return false;
      }
      var value := board[row, col];
      if value == Empty {
        return true;
      }
      return false;
    }

    /**
     * make_movement: writes the current mark into the cell without checking
     * it.  Python accepts the indices -3..2 (a negative one counts from the
     * end) and raises IndexError outside them.
     */
    method MakeMovement(row: int, col: int) returns (r: bool)
      requires Valid()
      requires -3 <= row < 3 && -3 <= col < 3
      modifies board
      ensures Snapshot() == Place(old(Snapshot()), PyIndex(row), PyIndex(col), currentPlayer)
      ensures r
    {
      board[PyIndex(row), PyIndex(col)] := currentPlayer;
      BoardsEqual(Snapshot(), Place(old(Snapshot()), PyIndex(row), PyIndex(col), currentPlayer));
      return true;
    }

    /**
     * One step of the game loop for the move (row, col), 0-based: an invalid
     * move is refused and nothing changes; otherwise Advance plays it.
     */
    method PlayTurn(row: int, col: int) returns (outcome: TurnOutcome)
      requires Valid()
      modifies this, board
      ensures outcome == Rejected <==> !IsLegal(old(Snapshot()), row, col)
      ensures outcome == Rejected ==> Snapshot() == old(Snapshot()) && currentPlayer == old(currentPlayer)
      ensures outcome != Rejected ==> Snapshot() == Place(old(Snapshot()), row, col, old(currentPlayer))
      ensures outcome != Rejected ==> EmptyCount(Snapshot()) == EmptyCount(old(Snapshot())) - 1
      ensures outcome.Won? <==> outcome != Rejected && Winner(Snapshot()) != None
      ensures outcome.Won? ==> Winner(Snapshot()) == Some(outcome.winner)
      ensures outcome.Won? && Winner(old(Snapshot())) == None ==> outcome.winner == old(currentPlayer)
      ensures outcome == Drawn <==> outcome != Rejected && IsDraw(Snapshot())
      ensures outcome == Continues <==> outcome != Rejected && !IsTerminal(Snapshot())
      ensures currentPlayer == if outcome == Continues then Other(old(currentPlayer)) else old(currentPlayer)
    {
      var valid := CheckMovementIsValid(row, col);
      if !valid {
        return Rejected;
      }
      outcome := Advance(row, col);
    }

    /**
     * The step after a valid move: the mark is placed, then the game is won,
     * drawn, or passes to the other mark.  make_movement always answers True,
     * so the loop's branch for a failed placement is never taken.
     */
    method Advance(row: int, col: int) returns (outcome: TurnOutcome)
      requires Valid() && IsLegal(Snapshot(), row, col)
      modifies this, board
      ensures outcome != Rejected
      ensures Snapshot() == Place(old(Snapshot()), row, col, old(currentPlayer))
      ensures EmptyCount(Snapshot()) == EmptyCount(old(Snapshot())) - 1
      ensures outcome.Won? <==> Winner(Snapshot()) != None
      ensures outcome.Won? ==> Winner(Snapshot()) == Some(outcome.winner)
      ensures outcome.Won? && Winner(old(Snapshot())) == None ==> outcome.winner == old(currentPlayer)
      ensures outcome == Drawn <==> IsDraw(Snapshot())
      ensures outcome == Continues <==> !IsTerminal(Snapshot())
      ensures currentPlayer == if outcome == Continues then Other(old(currentPlayer)) else old(currentPlayer)
    {
      ghost var before := Snapshot();
      assert PyIndex(row) == row && PyIndex(col) == col;
      var made := MakeMovement(row, col);
      PlaceFillsOne(before, row, col, currentPlayer);
      if Winner(before) == None {
        PlaceOnlyMoverWins(before, row, col, currentPlayer);
      }
      var winner := GetWinner();
      if winner.Some? {
        return Won(winner.value);
      }
      var draw := CheckDraw();
      if draw {
        return Drawn;
      }
      var changed := ChangePlayer();
      return Continues;
    }

    /**
     * The computer's turn with MiniMaxPlayer: its move m, 1-based, is the
     * first blank cell of maximal score; shifted to 0-based it is played as
     * any other move.  The move is always legal, so the program's
     * "AI SELECTED WRONG MOVEMENT!" branch is never taken.
     */
    method MiniMaxTurn(ai: AIPlayers.MiniMaxPlayer) returns (m: AIPlayers.Move, outcome: TurnOutcome)
      requires Valid() && EmptyCount(Snapshot()) > 0
      modifies this, board
      ensures exists i :: 0 <= i < |AIPlayers.EmptyCells(old(Snapshot()))| &&
                AIPlayers.EmptyCells(old(Snapshot()))[i] == m &&
                FirstMaxAt(AIPlayers.MoveScores(old(Snapshot()), ai.iam), i)
      ensures !IsTerminal(old(Snapshot())) ==>
                Max(AIPlayers.MoveScores(old(Snapshot()), ai.iam)) == AIPlayers.MinimaxValue(old(Snapshot()), ai.iam, ai.iam)
      ensures outcome != Rejected
      ensures AIPlayers.Vacant(old(Snapshot()), m)
      ensures Snapshot() == Place(old(Snapshot()), m.row - 1, m.col - 1, old(currentPlayer))
      ensures EmptyCount(Snapshot()) == EmptyCount(old(Snapshot())) - 1
      ensures outcome.Won? <==> Winner(Snapshot()) != None
      ensures outcome.Won? ==> Winner(Snapshot()) == Some(outcome.winner)
      ensures outcome.Won? && Winner(old(Snapshot())) == None ==> outcome.winner == old(currentPlayer)
      ensures outcome == Drawn <==> IsDraw(Snapshot())
      ensures outcome == Continues <==> !IsTerminal(Snapshot())
      ensures currentPlayer == if outcome == Continues then Other(old(currentPlayer)) else old(currentPlayer)
    {
      m := ai.DefineMovement(Snapshot());
      outcome := PlayTurn(m.row - 1, m.col - 1);
    }

    /** The computer's turn with DumbPlayer: some listed blank cell is played. */
    method DumbTurn(ai: AIPlayers.DumbPlayer) returns (m: AIPlayers.Move, outcome: TurnOutcome)
      requires Valid() && EmptyCount(Snapshot()) > 0
      modifies this, board
      ensures m in AIPlayers.EmptyCells(old(Snapshot()))
      ensures outcome != Rejected
      ensures AIPlayers.Vacant(old(Snapshot()), m)
      ensures Snapshot() == Place(old(Snapshot()), m.row - 1, m.col - 1, old(currentPlayer))
      ensures EmptyCount(Snapshot()) == EmptyCount(old(Snapshot())) - 1
      ensures outcome.Won? <==> Winner(Snapshot()) != None
      ensures outcome.Won? ==> Winner(Snapshot()) == Some(outcome.winner)
      ensures outcome.Won? && Winner(old(Snapshot())) == None ==> outcome.winner == old(currentPlayer)
      ensures outcome == Drawn <==> IsDraw(Snapshot())
      ensures outcome == Continues <==> !IsTerminal(Snapshot())
      ensures currentPlayer == if outcome == Continues then Other(old(currentPlayer)) else old(currentPlayer)
    {
      m := ai.DefineMovement(Snapshot());
      outcome := PlayTurn(m.row - 1, m.col - 1);
    }
  }
}
