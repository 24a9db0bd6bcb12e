# Checkers engine: a verified model of `Game`

This project models the rules engine of a small checkers (draughts) game,
the class `Game` of `checkers/game.py`, and proves what its methods
compute. It covers:

- applying a move to the board (`__handle_move`): promotion of a regular
  piece reaching the far row, relocation, and removal of every piece the
  move passes over;
- the two move generators (`get_required_moves_list` for captures,
  `get_optional_moves_list` for quiet moves) and the forced-capture rule
  that combines them (`get_moves_list`);
- the depth-first look-ahead (`get_predicted_moves_list`), including the
  continuation of capture chains by the same piece;
- the choice of a move (`predict_optimal_moves`): rating every predicted
  line by material, keeping the best-rated lines, picking one, and cutting
  it at the first move of the opponent.

The model has two layers:

- `Engine.Game` is a class that holds the board as a mutable
  two-dimensional array. Its methods are the source's loops, written as
  `while` loops with invariants, and they update the board in place.
  Each method is proved against a pure function of the board. Some longer
  loops are split into one method per nested loop, for example
  `RowCaptures` for the loop over one row.
- The functions and lemmas over grid values are in four modules:
  - `Board` and `MoveEffects`: the effect of a move;
  - `MoveGen` and `MoveGenProofs`: the generators;
  - `Search`: the look-ahead;
  - `Selection`: the rating and the choice.

  They state what the loops compute and prove what that means. Examples:
  - the generators list exactly the legal captures or quiet moves;
  - a capture removes exactly one enemy piece;
  - the recorded lines are exactly the non-empty legal plays within the
    depth limit (`Search.LegalPlayWithin`, `Search.CandidatesLegal`). Such
    a play starts with a legal move. Each later move either continues a
    capture chain with the piece that just captured, by the same side, or
    is a legal move of the opponent on the board reached so far. Every
    move is played at a depth below `MAX_PREDICTION_DEPTH`, the depth being
    the number of times the turn has passed before it;
  - the kept lines are exactly the best-rated ones.

`MoveGen.CellMoves`, the moves of one cell, reaches the per-piece case
analysis `PieceMoves` through one idle step of recursion (`Delayed`).
The verifier expands a recursive function only a bounded number of times.
This step therefore keeps the case analysis of every cell out of the
proofs about whole rows. `CellMovesCases` unfolds it where the cases
matter.

## Model

| member | source | states |
|---|---|---|
| Engine.Game.constructor | checkers/game.py:11-14 | A new game holds the given layout on a board of the rules' size, and the player is to move |
| Engine.Game.HandleMove | checkers/game.py:18-47 | The board afterwards is the grid `Applied(b, m)`: origin emptied, destination holds the (possibly promoted) piece, every cell passed over emptied; the result is true exactly when a passed-over cell held a piece |
| Engine.Game.ClearPath | checkers/game.py:32-45 | The walk from the destination back to the origin empties exactly the cells it visits and reports whether one of the cells strictly between was occupied |
| Engine.CopyField | checkers/game.py:56 | `Field.copy` yields a fresh array with the same dimensions and cells |
| Engine.Game.RegularCaptures | checkers/game.py:152-159 | The jumps of a regular piece, in the order of the offsets: over an adjacent enemy onto an empty cell two steps away, on the board |
| Engine.Game.JumpAlong | checkers/game.py:154-158 | One direction of a regular piece: no move when the landing two steps away is off the board, otherwise the jump exactly when the adjacent cell holds an enemy and the landing is empty |
| Engine.Game.QueenCaptureScan | checkers/game.py:166-186 | The scan of one direction equals the capture-scan function, whose moves are exactly the landings on empty cells beyond exactly one enemy, with nothing else in between |
| Engine.Game.QueenCaptures | checkers/game.py:161-186 | The captures of a queen, direction by direction, skipping directions whose second cell is off the board |
| Engine.Game.CapturesAt | checkers/game.py:150-186 | The captures of the cell: a regular piece's jumps, a queen's captures, nothing for any other cell |
| Engine.Game.RowCaptures | checkers/game.py:149-186 | Appends the captures of the cells of one row, left to right, to those of the earlier rows |
| Engine.Game.RequiredMovesList | checkers/game.py:134-188 | The result is `RequiredMoves` of the current board: every capture of the side in row-major order, empty for a side that is neither white nor black |
| Engine.Game.QueenSlideScan | checkers/game.py:217-223 | The quiet scan of one direction lists the empty cells up to the first occupied one |
| Engine.Game.QuietMovesAt | checkers/game.py:204-223 | The quiet moves of the cell: a regular piece's forward steps onto empty cells, a queen's slides, nothing else |
| Engine.Game.RegularQuietMoves | checkers/game.py:205-210 | The steps of a regular piece, in the order of its forward directions, onto empty cells one step away on the board |
| Engine.Game.QueenQuietMoves | checkers/game.py:213-223 | The quiet moves of a queen, direction by direction, skipping directions whose first cell is off the board |
| Engine.Game.RowQuietMoves | checkers/game.py:203-223 | Appends the quiet moves of the cells of one row, left to right, to those of the earlier rows |
| Engine.Game.OptionalMovesList | checkers/game.py:190-224 | The result is `OptionalMoves` of the current board: every quiet move of the side in row-major order, empty for a side that is neither white nor black |
| Engine.Game.MovesList | checkers/game.py:127-132 | The captures when there is one, otherwise the quiet moves |
| Engine.Game.PredictedMovesList | checkers/game.py:91-125 | Returns the lines `Predicted` describes and leaves the board as it found it |
| Engine.Game.ExploreMoves | checkers/game.py:106-123 | The loop over the moves of one node returns the lines `Explore` describes and restores the board |
| Engine.Game.PlayMove | checkers/game.py:108-123 | One pass of that loop: plays the move, continues the chain or hands over, copies the saved board back |
| Engine.Game.PredictOptimalMoves | checkers/game.py:49-89 | Returns `Chosen(b, side, pick)` and leaves the board unchanged |
| Engine.Game.RateLines | checkers/game.py:55-76 | The rating loop ends with the best rating and the lines rated best, in order, as `Best` defines them |
| Engine.Game.RateLine | checkers/game.py:58-76 | Rates the board a line leaves and restores the saved board |
| Engine.Game.PlayLine | checkers/game.py:58-59 | Playing a line move after move leaves the board `Replay(b, line)` |
| Engine.Game.TrimLine | checkers/game.py:78-89 | The filtering loop returns `Trim`: the prefix of the line before the first move starting on an opponent piece |
| MoveEffects.AppliedCells | checkers/game.py:21-45 | After a move: origin empty, destination holds the promoted piece, cells strictly between empty, all other cells unchanged |
| MoveEffects.PromotionRule | checkers/game.py:21-30 | A white regular piece reaching row 0 or a black one reaching the last row becomes a queen; every other piece keeps its kind |
| MoveEffects.OccupiedAfter | checkers/game.py:28-45 | The occupied cells after a move: those before, minus the captured cells, origin and destination, plus the destination when a piece moved |
| MoveEffects.PieceCount | checkers/game.py:36-47 | A move reports a capture exactly when it passes over a piece; pieces are never created, and a move onto an empty cell loses exactly the captured ones |
| MoveEffects.CaptureShrinks | checkers/game.py:36-47 | A capturing move strictly lowers the number of pieces, which is why capture chains end |
| MoveGenProofs.RegularJumpsExact | checkers/game.py:152-159 | The jumps listed for directions `dirs[..k]` are exactly the two-cell jumps over an enemy onto an empty cell along them |
| MoveGenProofs.QueenScanExact | checkers/game.py:166-186 | The queen's capture scan from `shift` lists exactly the legal queen captures landing at `shift` or beyond |
| MoveGenProofs.QueenJumpsExact | checkers/game.py:161-186 | The queen's captures along `dirs[..k]` are exactly the legal queen captures along those directions |
| MoveGenProofs.RegularStepsExact | checkers/game.py:205-210 | The forward steps listed are exactly the one-cell steps onto empty cells on the board |
| MoveGenProofs.SlideScanExact | checkers/game.py:217-223 | The quiet scan from `shift` lists exactly the empty cells on the board up to the first occupied one |
| MoveGenProofs.QueenSlidesExact | checkers/game.py:213-223 | The queen's slides along `dirs[..k]` are exactly the legal quiet queen moves along those directions |
| Board.Forward | checkers/game.py:206 | A regular piece's quiet directions are offsets: for white the first two (or all, when there are fewer), for black a suffix of the offsets |
| Board.ForwardSplit | checkers/game.py:206 | White's and black's quiet directions together are exactly the offsets, white's first: `MOVE_OFFSETS[:2] + MOVE_OFFSETS[2:]` |
| MoveGen.From | checkers/game.py:111-113 | The filter keeps exactly the moves of the list that start on the given cell |
| MoveGenProofs.CellMovesExact | checkers/game.py:150-223 | The moves listed for one cell are exactly the legal moves of its kind that start there |
| MoveGenProofs.ScanSound | checkers/game.py:148-149 | Every move listed before cell (x, y) starts on an earlier cell and belongs to that cell's list |
| MoveGenProofs.ScanComplete | checkers/game.py:148-149 | Every move of an earlier cell's list is listed before (x, y) |
| MoveGenProofs.GenerateExact | checkers/game.py:134-224 | A generator lists exactly the legal moves of its kind |
| MoveGenProofs.RequiredExact | checkers/game.py:134-188 | `get_required_moves_list` lists exactly the legal captures, and nothing for a side that is neither white nor black |
| MoveGenProofs.OptionalExact | checkers/game.py:190-224 | `get_optional_moves_list` lists exactly the legal quiet moves, and nothing for a side that is neither white nor black |
| MoveGenProofs.ForcedCapture | checkers/game.py:127-132 | With a capture available only captures are offered; otherwise exactly the quiet moves |
| MoveGenProofs.CaptureShape | checkers/game.py:150-186 | Every capture is a diagonal on-board move of the side's piece onto an empty cell that passes over exactly one piece, an enemy |
| MoveGenProofs.QuietShape | checkers/game.py:204-223 | Every quiet move is a diagonal on-board move of the side's piece onto an empty cell that passes over no piece |
| MoveGenProofs.GeneratedWellFormed | checkers/game.py:127-188 | Every offered move is on the board and diagonal and starts on a piece of the side; every required move captures |
| Search.PredictedGrows | checkers/game.py:91-125 | A call only appends to the lines it was given; the recorded lines stay non-empty, well formed and closed under prefixes |
| Search.ExploreGrows | checkers/game.py:106-123 | The loop over a node's moves only appends, keeping the recorded lines well formed and prefix-closed |
| Search.PredictedLines | checkers/game.py:91-125 | A call records the current line, adds only its extensions by a move explored at this node, and below the depth limit records each one-move extension |
| Search.ExploreLines | checkers/game.py:106-123 | The loop records `cur + [m]` for each remaining move m and adds only extensions through those moves |
| Search.PlayedLines | checkers/game.py:108-121 | One pass records `cur + [m]` after the earlier lines and adds only its extensions |
| Search.DepthCutoff | checkers/game.py:96-106 | At the depth limit a call records the current line and nothing else |
| Search.ChainRule | checkers/game.py:109-121 | After a capture with a further capture from the landing cell, the line continues with that capture by the same side; otherwise it continues with a legal move of the opponent |
| Search.CandidatesFacts | checkers/game.py:91-125 | The top-level lines are well formed and prefix-closed, start with a legal move, include every legal first move when the depth limit is positive, and are empty exactly when there is no legal move or the depth limit is 0 |
| Search.PredictedLegal | checkers/game.py:91-125 | Every line a call records is one it was given, or the current line followed by a legal play from the call's board, side and forced continuations, within the depth levels left |
| Search.ExploreLegal | checkers/game.py:106-123 | The loop over a node's moves adds only the current line followed by a legal play within the levels left |
| Search.PlayedLegal | checkers/game.py:108-121 | One pass adds only the current line followed by a legal play that starts with the move played |
| Search.ChainLegal | checkers/game.py:115-118 | When the move captured and the moved piece can capture again, the lines added continue a legal play with the same side at the same depth |
| Search.HandOverLegal | checkers/game.py:119-121 | Otherwise the lines added continue a legal play of the opponent with one depth level less |
| Search.PredictedComplete | checkers/game.py:91-125 | A call records the current line followed by every legal play within the levels left, except the empty line |
| Search.ExploreComplete | checkers/game.py:106-123 | The loop records the current line followed by every legal play that starts with one of the remaining moves |
| Search.PlayedComplete | checkers/game.py:108-121 | One pass records the current line followed by every legal play that starts with the move played |
| Search.ChainComplete | checkers/game.py:115-118 | A legal play that continues a capture chain is recorded through the recursive call with the same side and depth |
| Search.HandOverComplete | checkers/game.py:119-121 | A legal play that hands the turn over is recorded through the recursive call for the opponent one level deeper |
| Search.CandidatesLegal | checkers/game.py:91-125 | `get_predicted_moves_list(side)` returns exactly the non-empty legal plays from the current board, `side` moving first, whose every move is played with fewer than `MAX_PREDICTION_DEPTH` hand-overs of the turn before it |
| Selection.SideScoreZero | checkers/game.py:61-67 | A board without a piece of the side scores zero for it |
| Selection.Rate | checkers/game.py:61-67 | A rating is non-negative, and infinite exactly when the opponent has no material |
| Selection.Keep | checkers/game.py:69-74 | The kept lines are among the lines seen |
| Selection.KeepMaximal | checkers/game.py:69-74 | A line is kept exactly when it was seen at a position no other rating is above; some line is kept once one is seen |
| Selection.KeepInvariant | checkers/game.py:51-74 | The best rating bounds every rating seen and is attained, starts at 0, and the kept lines are exactly those rated best |
| Selection.BestKeepsMaximal | checkers/game.py:51-76 | The kept lines are exactly the best-rated predicted lines, and there is one when a line was predicted |
| Selection.WinningLineKept | checkers/game.py:61-74 | A line that leaves the opponent without material is always kept |
| Selection.Trim | checkers/game.py:78-87 | The trimmed line is a prefix of the line; no move of it starts on an opponent piece, and the next move does |
| Selection.TrimFirstEnemy | checkers/game.py:80-87 | The trimmed line ends exactly at the first move that starts on an opponent piece |
| Selection.PickFacts | checkers/game.py:79-87 | Whatever the pick, it is a best-rated line and its trimmed form starts with a legal move |
| Selection.ChosenFacts | checkers/game.py:49-89 | The chosen moves are a trimmed best line; they are non-empty exactly when the side has a legal move and the depth limit is positive, and then start with a legal move |

## Left out

- The `Field` class is not part of this model. The board is an array of
  pieces indexed by column and row, `is_within` is `Within`, and
  `white_score` / `black_score` are `SideScore` with the regular and queen
  weights as parameters.
- The board size, `MOVE_OFFSETS` and `MAX_PREDICTION_DEPTH` are fields of
  the `Rules` value rather than module constants; their values are not
  part of this model. `ValidRules` assumes only that every offset is
  a one-cell diagonal step (plus or minus 1 in x and in y).
- Drawing is not modelled: the `draw` parameter of `__handle_move`,
  `checkers/draw.py` and `main.py`.
- `random.choice` becomes a parameter `pick`: the kept line at position
  `pick % |kept|` is chosen.
- Ratings are exact real numbers instead of floating point. The
  `ZeroDivisionError` case is the value `Infinite`, and `inf` compares
  above every finite rating and equal to itself, as in Python.
- The mutable default arguments of `get_predicted_moves_list` are explicit
  parameters. The model returns the list as a value, so the sharing of
  one list object between calls is not modelled. Top-level calls clear the
  list, so their results agree.
- Engine.Game.HandleMove: requires the move to be diagonal and on the
  board. In Python any other move makes the removal walk loop forever or
  leave the board. Every generated move meets this.
- Engine.Game.RateLines: requires a side that is white or black. Python
  would fail there with an unbound `result`, but it is never reached,
  because such a side has no moves and so no predicted lines.
- `Game.player_turn` is kept as a field, but nothing in the model reads
  it, as nothing in the engine does.
