# Tic-tac-toe engine, modelled in Dafny

This project models the engine of a console tic-tac-toe program written in
Python. It has two parts.

- **The game session.** A `TicTacToe` object (tic_tac_toe.py) owns a mutable
  3x3 grid and the mark whose turn it is. It can:
  - switch the player;
  - find the winner, looking at X before O;
  - detect a draw;
  - validate a move;
  - place a mark without checking it.

  The per-move step of the game loop rests on these queries.
- **The computer players** (ai_players.py).
  - `DumbPlayer` picks any blank cell.
  - `MiniMaxPlayer` runs an exhaustive minimax over copies of the board. It
    scores a won board +10, a lost board -10 and a draw 0, then plays the
    first move of maximal score.

The files:

- `rules.dfy` (module `Rules`) holds the reference definitions that the rest
  is proved against:
  - cells, marks and 3x3 board values;
  - the eight winning lines and `Winner`, which looks at X first;
  - `IsFull`, `IsDraw`, `IsLegal`, `EmptyCount`;
  - `Place`, which changes exactly one cell of a board value.

  It also holds lemmas relating these definitions.
- `builtins.dfy` (module `Builtins`) holds the Python built-ins the search
  uses: `max`, `min` and `list.index`. It adds `FirstMaxAt`, which says that
  `s.index(max(s))` is the first position of a largest element.
- `ai_players.dfy` (module `AIPlayers`) holds the computer players.
  - `_get_valid_movements` is a nested loop. It is proved to list exactly the
    blank cells, 1-based, in row-major order, without duplicates.
  - The players' own `get_winner`, `check_draw` and `score` are functions
    over board values. They are proved to agree with the reference rules.
  - Minimax is defined once as a function, `MinimaxValue`. The methods
    `Minimax`, `ScoreMovements` and `DefineMovement` are proved to compute
    it. Their loops copy the board, place one mark and recurse.
- `tic_tac_toe.dfy` (module `Game`) holds class `TicTacToe`, with an
  `array2<Cell>` grid and a `currentPlayer` field.
  - Its queries are proved equal to the reference rules on a snapshot of the
    grid. They are also proved equal to the AI players' versions.
  - `MakeMovement` is proved to change exactly the one cell.
  - `PlayTurn`/`Advance` model the per-move step of the loop: refuse, then win,
    draw or pass the turn.
  - `MiniMaxTurn` and `DumbTurn` model the computer's step. They are proved
    never to take the "AI SELECTED WRONG MOVEMENT!" branch.

How the model maps the program's values:

- The program's strings `" "`, `"X"` and `"O"` are the constructors `Empty`,
  `X` and `O`.
- `get_winner`'s `False` is `None`.
- AI moves are `Move(row, col)` with 1-based coordinates, as in the program.

## Model

| member | source | states |
|---|---|---|
| Rules.EmptyBoard | tic_tac_toe.py:18 | every one of the nine cells of the new grid is blank |
| Rules.OtherTwice | tic_tac_toe.py:28-32 | switching the player twice gives back the original player |
| Rules.Place | tic_tac_toe.py:104 | placing a mark sets exactly the chosen cell to the mark; every other cell keeps its value |
| Rules.FullIffNoneBlank | tic_tac_toe.py:68-71 | no cell is blank exactly when the count of blank cells is zero |
| Rules.DrawExcludesWin | tic_tac_toe.py:65-71 | a board is never both drawn and won |
| Rules.NotTerminalHasBlank | ai_players.py:143-154 | a board with no winner and no draw still has a blank cell |
| Rules.PlaceFillsOne | tic_tac_toe.py:104 | a legal placement lowers the count of blank cells by exactly one |
| Rules.PlaceKeepsOtherLines | tic_tac_toe.py:172-176 | placing p never completes a line for the other mark |
| Rules.PlaceOnlyMoverWins | tic_tac_toe.py:172-176 | on a board without a winner, a placement can only make the mover the winner |
| Builtins.Max | ai_players.py:161 | max of a non-empty list is an element of it, and no element exceeds it |
| Builtins.Min | ai_players.py:163 | min of a non-empty list is an element of it, and no element is below it |
| Builtins.IndexOf | ai_players.py:190 | list.index gives a position holding the value, before which the value does not occur |
| Builtins.IndexOfMax | ai_players.py:190-191 | scores.index(max(scores)) is the first position of a largest score |
| Builtins.FirstMaxUnique | ai_players.py:190-191 | only one position is the first position of a largest score, so the chosen move is determined |
| AIPlayers.BlanksInRow | ai_players.py:29-31 | definition: the blank cells among the first n columns of row r, left to right, as the inner loop appends them; its properties are the rows AIPlayers.BlanksInRowFacts and AIPlayers.BlanksInRowCount |
| AIPlayers.BlanksInRowFacts | ai_players.py:29-31 | the inner loop's list for row r holds exactly the blank cells of that row among its first n columns, 1-based, in strictly increasing column order |
| AIPlayers.BlanksInRowCount | ai_players.py:29-31 | the inner loop appends one move per blank cell of the row, so the row's list is as long as the row's count of blank cells |
| AIPlayers.BlanksInRows | ai_players.py:28-31 | definition: the blank cells of the first n rows, row by row, as the nested loop appends them; its properties are the rows AIPlayers.BlanksInRowsFacts and AIPlayers.EmptyCellsSpec |
| AIPlayers.BlanksInRowsFacts | ai_players.py:28-31 | the first n rows' enumeration holds exactly the blank cells of those rows, in row-major order |
| AIPlayers.EmptyCells | ai_players.py:27-32 | definition: the full enumeration of the board's blank cells, 1-based; its properties are the row AIPlayers.EmptyCellsSpec |
| AIPlayers.GetValidMovements | ai_players.py:27-32 | the nested loop returns exactly the enumeration EmptyCells of the board |
| AIPlayers.EmptyCellsSpec | ai_players.py:27-32 | the enumeration holds a move iff it names a blank cell (1-based); it is in strict row-major order with no duplicates; its length is the number of blank cells |
| AIPlayers.LegalIffListed | tic_tac_toe.py:85-90 | check_movement_is_valid(r, c) holds iff the move (r+1, c+1) is listed by _get_valid_movements |
| AIPlayers.EmptyCellsVacant | ai_players.py:30-31 | every listed move names a blank cell |
| AIPlayers.NotTerminalHasMoves | ai_players.py:143-154 | on a board still in play the list of moves is non-empty, so max and min are defined |
| AIPlayers.ScanLines | ai_players.py:79-88 | definition: the scan for one mark, column i then row i for each i, then both diagonals; its meaning is the row AIPlayers.ScanLinesFinds |
| AIPlayers.ScanMarks | ai_players.py:78-90 | definition: the outer loop over the marks in the given order, answering the first mark whose scan succeeds; its meaning is the row AIPlayers.GetWinner |
| AIPlayers.ScanLinesFinds | ai_players.py:79-88 | the scan for one mark (each column and row, then both diagonals) succeeds iff that mark holds one of the eight lines |
| AIPlayers.GetWinner | ai_players.py:78-90 | MiniMaxPlayer.get_winner equals the reference Winner: X if X holds a line, else O if O does, else no winner |
| AIPlayers.NoBlankRow | ai_players.py:105-108 | definition: the row-by-row test for a blank cell; its meaning is the row AIPlayers.NoBlankRowAll |
| AIPlayers.NoBlankRowAll | ai_players.py:105-108 | the row-by-row test for a blank cell fails iff some cell of the board is blank |
| AIPlayers.CheckDraw | ai_players.py:102-108 | MiniMaxPlayer.check_draw holds iff there is no winner and no blank cell |
| AIPlayers.Score | ai_players.py:122-129 | +10 iff iam has won, -10 iff the other mark has won, 0 iff nobody has; always one of the three |
| AIPlayers.Child | ai_players.py:156-157 | definition: the board after active plays the 1-based move m, a fresh board value with that one cell set and the other eight unchanged (the copy-and-write of one cell, also at ai_players.py:185-186); its properties are the rows Rules.Place, AIPlayers.ChildFillsOne and AIPlayers.WinningChildIsTen |
| AIPlayers.ChildFillsOne | ai_players.py:156-157 | each recursive call is on a board with one blank cell fewer, so minimax terminates |
| AIPlayers.MinimaxValue | ai_players.py:143-163 | definition of minimax: a won or drawn board is worth its static score; otherwise it is the max (iam to move) or min of the children's values in enumeration order, with the other mark to move; its properties are the rows AIPlayers.MinimaxTerminal, AIPlayers.MinimaxStep, AIPlayers.MinimaxInRange and AIPlayers.ImmediateWinIsTen |
| AIPlayers.ChildScores | ai_players.py:154-158 | one value per move, in order; the k-th value is given by the row AIPlayers.ChildScoresAt, and the range by AIPlayers.ChildScoresInRange |
| AIPlayers.MinimaxTerminal | ai_players.py:143-145 | on a won or drawn board minimax is the static score |
| AIPlayers.MinimaxStep | ai_players.py:147-163 | on a board still in play there are moves, each names a blank cell, and the value is the max (iam to move) or min (otherwise) of the children's values in enumeration order |
| AIPlayers.MinimaxInRange | ai_players.py:143-163 | minimax always yields -10, 0 or +10 |
| AIPlayers.ChildScoresInRange | ai_players.py:154-158 | every child score is -10, 0 or +10 |
| AIPlayers.ChildScoresAt | ai_players.py:154-158 | the k-th collected score is the value of the board after the k-th move, with the other mark to move |
| AIPlayers.ChildScoresGrow | ai_players.py:154-158 | one loop iteration appends exactly the next child's value to the scores |
| AIPlayers.MoveScores | ai_players.py:181-187 | define_movement collects one score per listed move, the value of the board after iam plays it (AIPlayers.ChildScoresAt gives each element) |
| AIPlayers.WinningChildIsTen | ai_players.py:143-145 | a move that completes a line for iam yields a board scored +10 |
| AIPlayers.MaxOfScoresIsTen | ai_players.py:161 | a +10 among the scores makes their maximum +10 |
| AIPlayers.ImmediateWinIsTen | ai_players.py:143-163 | with iam to move on a board in play, a move that wins at once makes the board's minimax value +10 |
| AIPlayers.DumbPlayer.constructor | ai_players.py:7-14 | the player keeps the mark it was given |
| AIPlayers.DumbPlayer.DefineMovement | ai_players.py:60-62 | the chosen move is one of the listed moves and names a blank cell |
| AIPlayers.MiniMaxPlayer.constructor | ai_players.py:7-14 | the player keeps the mark it was given |
| AIPlayers.MiniMaxPlayer.Minimax | ai_players.py:143-163 | the recursive method returns the minimax value of the board for the active player |
| AIPlayers.MiniMaxPlayer.ScoreMovements | ai_players.py:154-158 | the loop returns, for each move in order, the value of the board after it, with the other mark to move |
| AIPlayers.MiniMaxPlayer.DefineMovement | ai_players.py:176-191 | the move names a blank cell and is the first listed move of maximal score; on a board in play that score is the minimax value of the board |
| Game.PyIndex | tic_tac_toe.py:104 | a Python index in -3..2 picks the cell at that index modulo 3 |
| Game.TicTacToe.constructor | tic_tac_toe.py:16-18 | a new game has an empty 3x3 grid, players X then O, and X to move |
| Game.TicTacToe.ChangePlayer | tic_tac_toe.py:28-32 | the current player becomes the other mark, and the answer is True |
| Game.TicTacToe.GetWinner | tic_tac_toe.py:43-55 | the answer is the reference Winner of the grid, and equals MiniMaxPlayer.get_winner on the same board |
| Game.TicTacToe.CheckDraw | tic_tac_toe.py:65-71 | true iff there is no winner and no blank cell, and equal to MiniMaxPlayer.check_draw on the same board |
| Game.TicTacToe.CheckMovementIsValid | tic_tac_toe.py:85-90 | true iff both coordinates are in 0..2 and that cell is blank |
| Game.TicTacToe.MakeMovement | tic_tac_toe.py:104-105 | the grid becomes the old grid with exactly the indexed cell set to the current player; the answer is True |
| Game.TicTacToe.PlayTurn | tic_tac_toe.py:167-182 | an invalid move is refused and nothing changes; otherwise the mark is placed and the turn ends Won, Drawn or Continues, as the new board is won, drawn or neither |
| Game.TicTacToe.Advance | tic_tac_toe.py:172-182 | after a valid move, exactly one cell is filled and one blank fewer remains; a winner stops play with the player unchanged; from a board with no winner the winner is the mover; a draw stops play; otherwise the turn passes to the other mark |
| Game.TicTacToe.MiniMaxTurn | tic_tac_toe.py:227-252 | the move played is the first listed blank cell of maximal score (on a board in play, that score is the board's minimax value); shifted to 0-based it always passes check_movement_is_valid; exactly that cell gets the current player's mark (make_movement writes current_player, which in the program is the computer's mark); the outcome is Won, Drawn or Continues as the new board is won, drawn or neither; the player passes to the other mark only on Continues |
| Game.TicTacToe.DumbTurn | tic_tac_toe.py:227-252 | the move played is one of the listed blank cells; shifted to 0-based it always passes check_movement_is_valid; exactly that cell gets the current player's mark (make_movement writes current_player, which in the program is the computer's mark); the outcome is Won, Drawn or Continues as the new board is won, drawn or neither; the player passes to the other mark only on Continues |

## Left out

- `play`'s console loop (tic_tac_toe.py:137-254) is left out: the menu,
  `input()`, the `int()` parsing with its bare `except`, `print` and
  `os.system('cls')`. Only the per-move step is modelled: `PlayTurn` for a
  parsed move and `MiniMaxTurn`/`DumbTurn` for the computer. The loop around
  them is not modelled.
- The else-branches that follow `if self.make_movement(...)`
  (tic_tac_toe.py:184-186, 222-224, 253-254) are not modelled as branches.
  `make_movement` always answers True, which `MakeMovement` proves, so they
  are never taken.
- `display_board` (tic_tac_toe.py:109-124) is printing only and is left out.
- `random.choice` in `DumbPlayer` is modelled as an arbitrary choice (`:|`)
  among the listed moves. Which move is picked is left open.
- The abstract base class `AIPlayer` and `@abstractmethod` are not modelled.
  `_get_valid_movements` becomes the module-level method
  `AIPlayers.GetValidMovements`, shared by both player classes. The game
  cannot take "some AI player" as one type, so there is one turn method per
  player class.
- `iam` is restricted to the two marks: the program only constructs players
  with `"O"`. For the same reason the player's `iam` and the game's
  `currentPlayer` cannot hold an arbitrary string. So `change_player`'s rule
  "anything other than X becomes X" is modelled only for X and O.
- `check_draw` tests `winner != 0` (tic_tac_toe.py:66, ai_players.py:103).
  In Python `False == 0`, so the test means "there is a winner", and it is
  modelled that way.
- Game.TicTacToe.MakeMovement requires both indices in -3..2. That covers
  Python's negative indices (counted from the end). Outside that range Python
  raises IndexError, which the model does not represent. Every caller
  validates the move first.
- In the program, minimax and define_movement each have their own `for` loop
  that copies the board, places the mark and recurses. In the model, both
  loops are the one method `AIPlayers.MiniMaxPlayer.ScoreMovements`, mutually
  recursive with `Minimax`. `define_movement` also builds a list `moves` that
  holds the listed moves in the same order, so it equals the list of valid
  movements. `DefineMovement` indexes that list directly.
- `new_board = [row[:] for row in board]` followed by writing one cell is
  modelled by `Place` on an immutable board value. So "the search never
  modifies its input board" holds by construction and is not stated as a
  separate contract.
- On a board with no blank cell the program raises: `max([])` raises
  ValueError in `define_movement` (ai_players.py:190), and `choice([])`
  raises IndexError in `DumbPlayer.define_movement` (ai_players.py:61). The
  model does not represent these exceptions: both `DefineMovement` methods,
  `MiniMaxTurn` and `DumbTurn` require a blank cell. No call in the program
  reaches that case, because the game loop stops on a win or a draw before
  the computer moves on a full board.
- Whole-game claims such as "the minimax player never loses" are not
  modelled. They would need the verifier to unfold the full game tree.
