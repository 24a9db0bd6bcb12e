/**
 * The `Game` class: the board held in a mutable two-dimensional array,
 * moves applied to it in place, and the generators, the look-ahead and the
 * move choice written as the loops the game runs. Every method is proved
 * against the functions of Board, MoveGen, Search and Selection.
 */
module Engine {
  import opened Board
  import opened MoveGen
  import opened MoveEffects
  import opened MoveGenProofs
  import opened Search
  import opened Selection

  /** The grid an array holds, column by column. */
  function GridOf(a: array2<Piece>): (g: Grid)
    reads a
    ensures |g| == a.Length0
    ensures forall x :: 0 <= x < a.Length0 ==> |g[x]| == a.Length1
    ensures forall x, y :: 0 <= x < a.Length0 && 0 <= y < a.Length1 ==> g[x][y] == a[x, y]
  {
    seq(a.Length0, x requires 0 <= x < a.Length0 reads a =>
      seq(a.Length1, y requires 0 <= y < a.Length1 reads a => a[x, y]))
  }

  /** `Field.copy`: a fresh board with the same cells. */
  method CopyField(a: array2<Piece>) returns (c: array2<Piece>)
    ensures fresh(c) && c.Length0 == a.Length0 && c.Length1 == a.Length1
    ensures GridOf(c) == GridOf(a)
  {
    c := new Piece[a.Length0, a.Length1]((x, y) requires 0 <= x < a.Length0 && 0 <= y < a.Length1 reads a => a[x, y]);
    SameGrid(a, c);
  }

  /** Two arrays with the same dimensions and cells hold the same grid. */
  lemma SameGrid(a: array2<Piece>, c: array2<Piece>)
    requires a.Length0 == c.Length0 && a.Length1 == c.Length1
    requires forall x, y :: 0 <= x < a.Length0 && 0 <= y < a.Length1 ==> a[x, y] == c[x, y]
    ensures GridOf(a) == GridOf(c)
  {
    var ga, gc := GridOf(a), GridOf(c);
    forall x | 0 <= x < a.Length0 ensures ga[x] == gc[x] {
      assert forall y :: 0 <= y < a.Length1 ==> ga[x][y] == gc[x][y];
    }
  }

  /** Some occupied cell among the first j the capture walk visits, short of the origin. */
  ghost predicate PassedOver(r: Rules, b: Grid, m: Move, j: int)
    requires Fits(r, b) && WellFormed(r, m) && j <= Dist(m)
  {
    exists k :: 0 < k <= j && k < Dist(m) && b[WalkX(m, k)][WalkY(m, k)] != None
  }

  lemma PassedOverStep(r: Rules, b: Grid, m: Move, j: int)
    requires Fits(r, b) && WellFormed(r, m) && 1 <= j <= Dist(m)
    ensures PassedOver(r, b, m, j) <==>
              PassedOver(r, b, m, j - 1) || (j < Dist(m) && b[WalkX(m, j)][WalkY(m, j)] != None)
    ensures j == Dist(m) ==> (PassedOver(r, b, m, j) <==> Captures(r, b, m))
  {
    WalkWithin(r, m, j);
  }

  class Game {
    /** The board size, MOVE_OFFSETS, the depth limit and the score weights. */
    const rules: Rules
    /** The board: `field[x, y]` is the piece in column x, row y. */
    var field: array2<Piece>
    /** Whose turn the user interface waits for; the engine never reads it. */
    var playerTurn: bool

    ghost predicate Valid()
      reads this
    {
      ValidRules(rules) && field.Length0 == rules.width && field.Length1 == rules.height
    }

    /** The board as a grid value. */
    function Snapshot(): (g: Grid)
      requires Valid()
      reads this, field
      ensures Fits(rules, g)
    {
      GridOf(field)
    }

    /** A new game on the given starting layout, the player to move. */
    constructor (rules: Rules, layout: Grid)
      requires ValidRules(rules) && Fits(rules, layout)
      ensures Valid() && Snapshot() == layout && playerTurn
    {
      this.rules := rules;
      field := new Piece[rules.width, rules.height]((x, y) requires 0 <= x < |layout| && 0 <= y < |layout[x]| => layout[x][y]);
      playerTurn := true;
      new;
      GridExt(rules, GridOf(field), layout);
    }

    /**
     * `__handle_move`: promote a regular piece reaching the far row, move it,
     * then walk from the destination back to the origin clearing every
     * occupied cell; report whether one was cleared.
     */
    method HandleMove(m: Move) returns (killed: bool)
      requires Valid() && WellFormed(rules, m)
      modifies field
      ensures Valid() && Snapshot() == Applied(rules, old(Snapshot()), m)
      ensures killed == Captures(rules, old(Snapshot()), m)
    {
      ghost var b := Snapshot();
      if m.toY == 0 && field[m.fromX, m.fromY] == WhiteRegular {
        field[m.fromX, m.fromY] := WhiteQueen;
      } else if m.toY == field.Length1 - 1 && field[m.fromX, m.fromY] == BlackRegular {
        field[m.fromX, m.fromY] := BlackQueen;
      }
      assert field[m.fromX, m.fromY] == Promoted(rules, b, m);
      field[m.toX, m.toY] := field[m.fromX, m.fromY];
      field[m.fromX, m.fromY] := None;
      forall cx, cy | 0 <= cx < field.Length0 && 0 <= cy < field.Length1
        ensures field[cx, cy] == Relocated(rules, b, m, cx, cy)
      {
        if (cx, cy) != (m.fromX, m.fromY) && (cx, cy) != (m.toX, m.toY) {
          assert field[cx, cy] == b[cx][cy];
        }
      }
      killed := ClearPath(m, b);
      GridExt(rules, Snapshot(), Applied(rules, b, m));
    }

    /**
     * The capture walk of `__handle_move`: from the destination step toward
     * the origin, clearing every occupied cell passed, and report whether
     * one was cleared.
     */
    method ClearPath(m: Move, ghost b: Grid) returns (killed: bool)
      requires Valid() && WellFormed(rules, m) && Fits(rules, b)
      requires forall cx, cy :: 0 <= cx < field.Length0 && 0 <= cy < field.Length1 ==>
                 field[cx, cy] == Relocated(rules, b, m, cx, cy)
      modifies field
      ensures Valid()
      ensures forall cx, cy :: 0 <= cx < field.Length0 && 0 <= cy < field.Length1 ==>
                field[cx, cy] == if Walked(m, cx, cy, Dist(m)) then None else Relocated(rules, b, m, cx, cy)
      ensures killed == Captures(rules, b, m)
    {
      var dx := if m.fromX < m.toX then -1 else 1;
      var dy := if m.fromY < m.toY then -1 else 1;
      killed := false;
      var x, y := m.toX, m.toY;
      ghost var j := 0;
      while x != m.fromX || y != m.fromY
        invariant 0 <= j <= Dist(m) && x == WalkX(m, j) && y == WalkY(m, j)
        invariant forall cx, cy :: 0 <= cx < field.Length0 && 0 <= cy < field.Length1 ==>
                    field[cx, cy] == if Walked(m, cx, cy, j) then None else Relocated(rules, b, m, cx, cy)
        invariant killed == PassedOver(rules, b, m, j)
        decreases Dist(m) - j
      {
        WalkWithin(rules, m, Dist(m));
        x := x + dx;
        y := y + dy;
        j := j + 1;
        WalkWithin(rules, m, j);
        PassedOverStep(rules, b, m, j);
        if field[x, y] != None {
          field[x, y] := None;
          killed := true;
        }
        forall cx, cy | 0 <= cx < field.Length0 && 0 <= cy < field.Length1
          ensures field[cx, cy] == if Walked(m, cx, cy, j) then None else Relocated(rules, b, m, cx, cy)
        {
          if (cx, cy) != (x, y) {
            assert Walked(m, cx, cy, j) == Walked(m, cx, cy, j - 1);
          }
        }
      }
    }

    /** The captures of the regular piece at (x, y), direction by direction. */
    method RegularCaptures(side: Side, x: int, y: int) returns (found: seq<Move>)
      requires Valid() && Within(rules, x, y)
      ensures found == RegularJumps(rules, Snapshot(), side, x, y, rules.offsets, |rules.offsets|)
    {
      ghost var b := Snapshot();
      found := [];
      var k := 0;
      while k < |rules.offsets|
        invariant 0 <= k <= |rules.offsets|
        invariant found == RegularJumps(rules, b, side, x, y, rules.offsets, k)
      {
        var jump := JumpAlong(side, x, y, rules.offsets[k]);
        assert RegularJumps(rules, b, side, x, y, rules.offsets, k + 1) == found + jump;
        found := found + jump;
        k := k + 1;
      }
    }

    /** The jump of the regular piece at (x, y) along o, if the two-step landing is on the board and it is a capture. */
    method JumpAlong(side: Side, x: int, y: int, o: Offset) returns (jump: seq<Move>)
      requires Valid() && Within(rules, x, y) && o in rules.offsets
      ensures jump == if !Within(rules, RayX(x, o, 2), RayY(y, o, 2)) then []
                      else if RegularJump(rules, Snapshot(), side, x, y, o) then [RayMove(x, y, o, 2)]
                      else []
    {
      jump := [];
      if Within(rules, x + o.x * 2, y + o.y * 2) {
        if IsEnemy(side, field[x + o.x, y + o.y]) && field[x + o.x * 2, y + o.y * 2] == None {
          jump := [Move(x, y, x + o.x * 2, y + o.y * 2)];
        }
      }
    }

    /** The queen's capture scan from (x, y) along one direction. */
    method QueenCaptureScan(side: Side, x: int, y: int, o: Offset) returns (found: seq<Move>)
      requires Valid() && side != NoSide
      ensures found == QueenScan(rules, Snapshot(), side, x, y, o, 1, false)
    {
      ghost var b := Snapshot();
      found := [];
      var hasEnemy := false;
      var shift := 1;
      while shift < rules.size
        invariant 1 <= shift
        invariant found + QueenScan(rules, b, side, x, y, o, shift, hasEnemy) == QueenScan(rules, b, side, x, y, o, 1, false)
        decreases rules.size - shift
      {
        var tx, ty := x + o.x * shift, y + o.y * shift;
        if !Within(rules, tx, ty) {
          shift := shift + 1;
          continue;
        }
        if !hasEnemy {
          if IsEnemy(side, field[tx, ty]) {
            hasEnemy := true;
            shift := shift + 1;
            continue;
          } else if IsFriendly(side, field[tx, ty]) {
            assert QueenScan(rules, b, side, x, y, o, shift, hasEnemy) == [];
            break;
          }
        }
        if hasEnemy {
          if field[tx, ty] == None {
            found := found + [Move(x, y, tx, ty)];
          } else {
            assert QueenScan(rules, b, side, x, y, o, shift, hasEnemy) == [];
            break;
          }
        }
        shift := shift + 1;
      }
    }

    /** The captures of the queen at (x, y), direction by direction. */
    method QueenCaptures(side: Side, x: int, y: int) returns (found: seq<Move>)
      requires Valid() && side != NoSide
      ensures found == QueenJumps(rules, Snapshot(), side, x, y, rules.offsets, |rules.offsets|)
    {
      found := [];
      var k := 0;
      while k < |rules.offsets|
        invariant 0 <= k <= |rules.offsets|
        invariant found == QueenJumps(rules, Snapshot(), side, x, y, rules.offsets, k)
      {
        var o := rules.offsets[k];
        if Within(rules, x + o.x * 2, y + o.y * 2) {
          var scan := QueenCaptureScan(side, x, y, o);
          found := found + scan;
        }
        k := k + 1;
      }
    }

    /** Append the captures of row y to `moves`, column by column. */
    method RowCaptures(side: Side, y: int, moves: seq<Move>) returns (moves': seq<Move>)
      requires Valid() && 0 <= y < rules.height && side != NoSide
      requires moves == Scan(rules, Snapshot(), side, Required, y, 0)
      ensures moves' == Scan(rules, Snapshot(), side, Required, y, rules.width)
    {
      moves' := moves;
      var x := 0;
      while x < field.Length0
        invariant 0 <= x <= rules.width
        invariant moves' == Scan(rules, Snapshot(), side, Required, y, x)
      {
        var found := CapturesAt(side, x, y);
        moves' := moves' + found;
        x := x + 1;
      }
    }

    /** `get_required_moves_list`: every capture of `side`, row by row, column by column. */
    method RequiredMovesList(side: Side) returns (moves: seq<Move>)
      requires Valid()
      ensures moves == RequiredMoves(rules, Snapshot(), side)
    {
      moves := [];
      if side == NoSide {
        return;
      }
      ghost var b := Snapshot();
      var y := 0;
      while y < field.Length1
        invariant 0 <= y <= rules.height
        invariant moves == Scan(rules, b, side, Required, y, 0)
      {
        moves := RowCaptures(side, y, moves);
        y := y + 1;
      }
    }

    /** The captures of the piece at (x, y). */
    method CapturesAt(side: Side, x: int, y: int) returns (found: seq<Move>)
      requires Valid() && Within(rules, x, y) && side != NoSide
      ensures found == CellMoves(rules, Snapshot(), side, Required, x, y)
    {
      // CellMoves reaches its case analysis through Delayed: unfold it to compare with the branches below.
      CellMovesCases(rules, Snapshot(), side, Required, x, y);
      found := [];
      if field[x, y] == RegularOf(side) {
        found := RegularCaptures(side, x, y);
      } else if field[x, y] == QueenOf(side) {
        found := QueenCaptures(side, x, y);
      }
    }

    /** The queen's quiet scan from (x, y) along one direction. */
    method QueenSlideScan(x: int, y: int, o: Offset) returns (found: seq<Move>)
      requires Valid()
      ensures found == SlideScan(rules, Snapshot(), x, y, o, 1)
    {
      ghost var b := Snapshot();
      found := [];
      var shift := 1;
      while shift < rules.size
        invariant 1 <= shift
        invariant found + SlideScan(rules, b, x, y, o, shift) == SlideScan(rules, b, x, y, o, 1)
        decreases rules.size - shift
      {
        var tx, ty := x + o.x * shift, y + o.y * shift;
        if !Within(rules, tx, ty) {
          shift := shift + 1;
          continue;
        }
        if field[tx, ty] == None {
          found := found + [Move(x, y, tx, ty)];
        } else {
          break;
        }
        shift := shift + 1;
      }
    }

    /** The quiet moves of the piece at (x, y). */
    method QuietMovesAt(side: Side, x: int, y: int) returns (found: seq<Move>)
      requires Valid() && Within(rules, x, y) && side != NoSide
      ensures found == CellMoves(rules, Snapshot(), side, Optional, x, y)
    {
      // CellMoves reaches its case analysis through Delayed: unfold it to compare with the branches below.
      CellMovesCases(rules, Snapshot(), side, Optional, x, y);
      found := [];
      if field[x, y] == RegularOf(side) {
        found := RegularQuietMoves(side, x, y);
      } else if field[x, y] == QueenOf(side) {
        found := QueenQuietMoves(x, y);
      }
    }

    /** The forward steps of the regular piece at (x, y) onto empty cells. */
    method RegularQuietMoves(side: Side, x: int, y: int) returns (found: seq<Move>)
      requires Valid()
      ensures found == RegularSteps(rules, Snapshot(), x, y, Forward(rules, side), |Forward(rules, side)|)
    {
      found := [];
      var dirs := Forward(rules, side);
      var k := 0;
      while k < |dirs|
        invariant 0 <= k <= |dirs|
        invariant found == RegularSteps(rules, Snapshot(), x, y, dirs, k)
      {
        var o := dirs[k];
        if Within(rules, x + o.x, y + o.y) {
          if field[x + o.x, y + o.y] == None {
            found := found + [Move(x, y, x + o.x, y + o.y)];
          }
        }
        k := k + 1;
      }
    }

    /** The quiet moves of the queen at (x, y), direction by direction. */
    method QueenQuietMoves(x: int, y: int) returns (found: seq<Move>)
      requires Valid()
      ensures found == QueenSlides(rules, Snapshot(), x, y, rules.offsets, |rules.offsets|)
    {
      found := [];
      var k := 0;
      while k < |rules.offsets|
        invariant 0 <= k <= |rules.offsets|
        invariant found == QueenSlides(rules, Snapshot(), x, y, rules.offsets, k)
      {
        var o := rules.offsets[k];
        if Within(rules, x + o.x, y + o.y) {
          var scan := QueenSlideScan(x, y, o);
          found := found + scan;
        }
        k := k + 1;
      }
    }

    /** Append the quiet moves of row y to `moves`, column by column. */
    method RowQuietMoves(side: Side, y: int, moves: seq<Move>) returns (moves': seq<Move>)
      requires Valid() && 0 <= y < rules.height && side != NoSide
      requires moves == Scan(rules, Snapshot(), side, Optional, y, 0)
      ensures moves' == Scan(rules, Snapshot(), side, Optional, y, rules.width)
    {
      moves' := moves;
      var x := 0;
      while x < field.Length0
        invariant 0 <= x <= rules.width
        invariant moves' == Scan(rules, Snapshot(), side, Optional, y, x)
      {
        var found := QuietMovesAt(side, x, y);
        moves' := moves' + found;
        x := x + 1;
      }
    }

    /** `get_optional_moves_list`: every quiet move of `side`, row by row, column by column. */
    method OptionalMovesList(side: Side) returns (moves: seq<Move>)
      requires Valid()
      ensures moves == OptionalMoves(rules, Snapshot(), side)
    {
      moves := [];
      if side == NoSide {
        return;
      }
      ghost var b := Snapshot();
      var y := 0;
      while y < field.Length1
        invariant 0 <= y <= rules.height
        invariant moves == Scan(rules, b, side, Optional, y, 0)
      {
        moves := RowQuietMoves(side, y, moves);
        y := y + 1;
      }
    }

    /** `get_moves_list`: the captures if there is one, else the quiet moves. */
    method MovesList(side: Side) returns (moves: seq<Move>)
      requires Valid()
      ensures moves == LegalMoves(rules, Snapshot(), side)
    {
      moves := RequiredMovesList(side);
      if moves == [] {
        moves := OptionalMovesList(side);
      }
    }

    /**
     * `get_predicted_moves_list`: record the current line, then play every
     * move from here on a copy of the board, continue a capture chain with
     * the same side or hand over to the opponent one level deeper, and put
     * the board back after each move.
     */
    method PredictedMovesList(side: Side, depth: nat, acc: seq<seq<Move>>, cur: seq<Move>, req: seq<Move>)
      returns (all: seq<seq<Move>>)
      requires Valid() && AllWellFormed(rules, req)
      modifies this, field
      ensures Valid() && Snapshot() == old(Snapshot())
      ensures playerTurn == old(playerTurn)
      ensures fresh(field) || field == old(field)
      ensures all == Predicted(rules, old(Snapshot()), side, depth, acc, cur, req)
      decreases Fuel(rules, depth), |Occupied(Snapshot())|, 2
    {
      ghost var b := Snapshot();
      all := if cur != [] then acc + [cur] else [];
      var moves: seq<Move>;
      if req != [] {
        moves := req;
      } else {
        moves := MovesList(side);
      }
      GeneratedWellFormed(rules, b, side);
      if moves != [] && depth < rules.maxDepth {
        all := ExploreMoves(side, depth, all, cur, moves);
      }
    }

    /**
     * The loop of `get_predicted_moves_list` over the moves from this node,
     * each played on the board and undone by copying back the saved board.
     */
    method ExploreMoves(side: Side, depth: nat, acc: seq<seq<Move>>, cur: seq<Move>, moves: seq<Move>)
      returns (all: seq<seq<Move>>)
      requires Valid() && AllWellFormed(rules, moves) && depth < rules.maxDepth
      modifies this, field
      ensures Valid() && Snapshot() == old(Snapshot())
      ensures playerTurn == old(playerTurn)
      ensures fresh(field) || field == old(field)
      ensures all == Explore(rules, old(Snapshot()), side, depth, acc, cur, moves, 0)
      decreases Fuel(rules, depth), |Occupied(Snapshot())|, 1
    {
      ghost var b := Snapshot();
      ghost var target := Explore(rules, b, side, depth, acc, cur, moves, 0);
      all := acc;
      var saved := CopyField(field);
      var i := 0;
      while i < |moves|
        invariant 0 <= i <= |moves|
        invariant Valid() && Snapshot() == b
        invariant fresh(field) || field == old(field)
        invariant fresh(saved) && saved != field
        invariant playerTurn == old(playerTurn)
        invariant saved.Length0 == rules.width && saved.Length1 == rules.height && GridOf(saved) == b
        invariant Explore(rules, b, side, depth, all, cur, moves, i) == target
      {
        ghost var prev := all;
        all := PlayMove(side, depth, all, cur, moves[i], saved);
        assert Explore(rules, b, side, depth, prev, cur, moves, i) == Explore(rules, b, side, depth, all, cur, moves, i + 1);
        i := i + 1;
      }
    }

    /**
     * One pass of the loop of `get_predicted_moves_list`: play m, compute the
     * moved piece's further captures, recurse, and put the saved board back.
     */
    method PlayMove(side: Side, depth: nat, acc: seq<seq<Move>>, cur: seq<Move>, m: Move, saved: array2<Piece>)
      returns (all: seq<seq<Move>>)
      requires Valid() && WellFormed(rules, m) && depth < rules.maxDepth
      requires saved != field && saved.Length0 == rules.width && saved.Length1 == rules.height
      requires GridOf(saved) == Snapshot()
      modifies this, field
      ensures Valid() && Snapshot() == old(Snapshot()) && fresh(field)
      ensures playerTurn == old(playerTurn)
      ensures all == Played(rules, old(Snapshot()), side, depth, acc, cur, m)
      decreases Fuel(rules, depth), |Occupied(Snapshot())|, 0
    {
      ghost var b := Snapshot();
      var killed := HandleMove(m);
      ghost var b' := Snapshot();
      GeneratedWellFormed(rules, b', side);
      var required := RequiredMovesList(side);
      required := From(required, m.toX, m.toY);
      if killed && required != [] {
        CaptureShrinks(rules, b, m);
        all := PredictedMovesList(side, depth, acc, cur + [m], required);
      } else {
        all := PredictedMovesList(Opposite(side), depth + 1, acc, cur + [m], []);
      }
      field := CopyField(saved);
    }

    /**
     * `predict_optimal_moves`: rate every recorded line on the current board,
     * keep the best ones, choose the one at `pick` and cut it before its
     * first move that starts on an opponent piece.
     */
    method PredictOptimalMoves(side: Side, pick: nat) returns (optimal: seq<Move>)
      requires Valid()
      modifies this, field
      ensures Valid() && Snapshot() == old(Snapshot())
      ensures playerTurn == old(playerTurn)
      ensures optimal == Chosen(rules, old(Snapshot()), side, pick)
    {
      ghost var b := Snapshot();
      var bestResult := Finite(0.0);
      var optimalMoves: seq<seq<Move>> := [];
      var predicted := PredictedMovesList(side, 0, [], [], []);
      CandidatesFacts(rules, b, side);
      if predicted != [] {
        bestResult, optimalMoves := RateLines(side, predicted);
      }
      optimal := [];
      if optimalMoves != [] {
        var chosen := optimalMoves[pick % |optimalMoves|];
        assert chosen in predicted;
        optimal := TrimLine(side, chosen);
      }
    }

    /**
     * The rating loop of `predict_optimal_moves`: play each line on the
     * board, rate the result, keep the strictly better or equal lines, and
     * copy the saved board back.
     */
    method RateLines(side: Side, predicted: seq<seq<Move>>) returns (bestResult: Rating, optimalMoves: seq<seq<Move>>)
      requires Valid() && side != NoSide && AllLines(rules, predicted)
      modifies this, field
      ensures Valid() && Snapshot() == old(Snapshot())
      ensures playerTurn == old(playerTurn)
      ensures (bestResult, optimalMoves) == Best(rules, old(Snapshot()), side, predicted)
    {
      ghost var b := Snapshot();
      ghost var qs := Ratings(rules, b, side, predicted);
      bestResult := Finite(0.0);
      optimalMoves := [];
      var saved := CopyField(field);
      var i := 0;
      while i < |predicted|
        invariant 0 <= i <= |predicted|
        invariant Valid() && Snapshot() == b
        invariant fresh(saved) && saved != field && (field == old(field) || fresh(field))
        invariant playerTurn == old(playerTurn)
        invariant saved.Length0 == rules.width && saved.Length1 == rules.height && GridOf(saved) == b
        invariant (bestResult, optimalMoves) == Keep(predicted[..i], qs[..i])
      {
        var moves := predicted[i];
        assert moves in predicted;
        var result := RateLine(side, moves, saved);
        assert result == qs[i];
        assert predicted[..i + 1][..i] == predicted[..i] && qs[..i + 1][..i] == qs[..i];
        if Above(result, bestResult) {
          bestResult := result;
          optimalMoves := [moves];
        } else if result == bestResult {
          optimalMoves := optimalMoves + [moves];
        }
        i := i + 1;
      }
      assert predicted[..i] == predicted && qs[..i] == qs;
    }

    /** Play one line, rate the board it leaves, and copy the saved board back. */
    method RateLine(side: Side, moves: seq<Move>, saved: array2<Piece>) returns (result: Rating)
      requires Valid() && side != NoSide && AllWellFormed(rules, moves)
      requires saved != field && saved.Length0 == rules.width && saved.Length1 == rules.height
      requires GridOf(saved) == Snapshot()
      modifies this, field
      ensures Valid() && Snapshot() == old(Snapshot()) && fresh(field)
      ensures playerTurn == old(playerTurn)
      ensures result == LineRating(rules, old(Snapshot()), side, moves)
    {
      PlayLine(moves);
      result := Rate(rules, GridOf(field), side);
      field := CopyField(saved);
    }

    /** Play a whole line on the board, move after move. */
    method PlayLine(moves: seq<Move>)
      requires Valid() && AllWellFormed(rules, moves)
      modifies field
      ensures Valid() && Snapshot() == Replay(rules, old(Snapshot()), moves)
    {
      ghost var b := Snapshot();
      var j := 0;
      while j < |moves|
        invariant 0 <= j <= |moves|
        invariant AllWellFormed(rules, moves[..j])
        invariant Valid() && Snapshot() == Replay(rules, b, moves[..j])
      {
        assert moves[..j + 1][..j] == moves[..j];
        var _ := HandleMove(moves[j]);
        j := j + 1;
      }
      assert moves[..j] == moves;
    }

    /**
     * The filtering loop of `predict_optimal_moves`: the moves of the chosen
     * line before the first one whose origin holds an opponent piece.
     */
    method TrimLine(side: Side, chosen: seq<Move>) returns (optimal: seq<Move>)
      requires Valid() && AllWellFormed(rules, chosen)
      ensures optimal == Trim(rules, Snapshot(), side, chosen)
    {
      ghost var b := Snapshot();
      optimal := [];
      var k := 0;
      while k < |chosen|
        invariant 0 <= k <= |chosen|
        invariant optimal == chosen[..k]
        invariant forall j :: 0 <= j < k ==> chosen[j] in chosen && !IsEnemy(side, b[chosen[j].fromX][chosen[j].fromY])
      {
        var move := chosen[k];
        assert move in chosen;
        if side == White && IsBlackPiece(field[move.fromX, move.fromY]) {
          break;
        } else if side == Black && IsWhitePiece(field[move.fromX, move.fromY]) {
          break;
        }
        optimal := optimal + [move];
        k := k + 1;
      }
      TrimFirstEnemy(rules, b, side, chosen, k);
    }
  }
}
