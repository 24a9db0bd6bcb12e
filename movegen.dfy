/**
 * Legal-move generation of `Game` as functions over a grid.
 *
 * The functions follow the loops of `get_required_moves_list` and
 * `get_optional_moves_list` (rows y, then columns x, then MOVE_OFFSETS,
 * then the queen's shift along the offset), so the list they produce is the
 * list the game builds, in the same order. The predicates IsCapture and
 * IsQuiet say, independently of that order, which moves are legal; the
 * lemmas in MoveGenProofs prove that each generator yields exactly those.
 */
module MoveGen {
  import opened Board

  /** The cell s steps from (x, y) along offset o. */
  function RayX(x: int, o: Offset, s: int): int { x + o.x * s }
  function RayY(y: int, o: Offset, s: int): int { y + o.y * s }

  function RayMove(x: int, y: int, o: Offset, s: int): Move {
    Move(x, y, RayX(x, o, s), RayY(y, o, s))
  }

  predicate UnitStep(o: Offset) {
    (o.x == 1 || o.x == -1) && (o.y == 1 || o.y == -1)
  }

  /** Every cell of the ray with lo <= j < hi is on the board and empty. */
  predicate Clear(r: Rules, b: Grid, x: int, y: int, o: Offset, lo: int, hi: int)
    requires Fits(r, b)
  {
    forall j :: lo <= j < hi ==>
      Within(r, RayX(x, o, j), RayY(y, o, j)) && b[RayX(x, o, j)][RayY(y, o, j)] == None
  }

  /** Every cell of the ray with lo <= j < hi that is on the board is empty. */
  predicate ClearOnBoard(r: Rules, b: Grid, x: int, y: int, o: Offset, lo: int, hi: int)
    requires Fits(r, b)
  {
    forall j :: lo <= j < hi && Within(r, RayX(x, o, j), RayY(y, o, j)) ==>
      b[RayX(x, o, j)][RayY(y, o, j)] == None
  }

  /*
   * Reference definitions of the legal moves of one piece at (x, y).
   */

  /** A regular piece jumps two cells along o, over an enemy piece, onto an empty cell. */
  predicate RegularJump(r: Rules, b: Grid, side: Side, x: int, y: int, o: Offset)
    requires Fits(r, b) && Within(r, x, y)
  {
    Within(r, RayX(x, o, 2), RayY(y, o, 2))
    && IsEnemy(side, b[RayX(x, o, 1)][RayY(y, o, 1)])
    && b[RayX(x, o, 2)][RayY(y, o, 2)] == None
  }

  /**
   * A queen lands s cells along o on an empty cell, with exactly one enemy
   * piece before it on the ray and every other cell before it empty; s is
   * below the scan bound.
   */
  predicate QueenJump(r: Rules, b: Grid, side: Side, x: int, y: int, o: Offset, s: int)
    requires Fits(r, b)
  {
    2 <= s < r.size
    && Within(r, RayX(x, o, s), RayY(y, o, s)) && b[RayX(x, o, s)][RayY(y, o, s)] == None
    && exists k :: 1 <= k < s && EnemyOnRay(r, b, side, x, y, o, k)
                   && Clear(r, b, x, y, o, 1, k) && Clear(r, b, x, y, o, k + 1, s)
  }

  predicate EnemyOnRay(r: Rules, b: Grid, side: Side, x: int, y: int, o: Offset, k: int)
    requires Fits(r, b)
  {
    Within(r, RayX(x, o, k), RayY(y, o, k)) && IsEnemy(side, b[RayX(x, o, k)][RayY(y, o, k)])
  }

  /** A regular piece steps one cell along o onto an empty cell. */
  predicate RegularStep(r: Rules, b: Grid, x: int, y: int, o: Offset)
    requires Fits(r, b)
  {
    Clear(r, b, x, y, o, 1, 2)
  }

  /** A queen slides s cells along o over empty cells only; s is below the scan bound. */
  predicate QueenSlide(r: Rules, b: Grid, x: int, y: int, o: Offset, s: int)
    requires Fits(r, b)
  {
    1 <= s < r.size && Clear(r, b, x, y, o, 1, s + 1)
  }

  /** m is a capture of `side`: a regular jump or a queen capture from a piece of that side. */
  ghost predicate IsCapture(r: Rules, b: Grid, side: Side, m: Move)
    requires Fits(r, b)
  {
    var x, y := m.fromX, m.fromY;
    side != NoSide && Within(r, x, y)
    && ((b[x][y] == RegularOf(side)
         && exists o :: o in r.offsets && m == RayMove(x, y, o, 2) && RegularJump(r, b, side, x, y, o))
     || (b[x][y] == QueenOf(side)
         && exists o, s :: o in r.offsets && m == RayMove(x, y, o, s) && QueenJump(r, b, side, x, y, o, s)))
  }

  /** m is a quiet move of `side`: a forward step of a regular piece or a queen's slide. */
  ghost predicate IsQuiet(r: Rules, b: Grid, side: Side, m: Move)
    requires Fits(r, b)
  {
    var x, y := m.fromX, m.fromY;
    side != NoSide && Within(r, x, y)
    && ((b[x][y] == RegularOf(side)
         && exists o :: o in Forward(r, side) && m == RayMove(x, y, o, 1) && RegularStep(r, b, x, y, o))
     || (b[x][y] == QueenOf(side)
         && exists o, s :: o in r.offsets && m == RayMove(x, y, o, s) && QueenSlide(r, b, x, y, o, s)))
  }

  /*
   * The generators, loop by loop.
   */

  /** The queen's capture scan along o from `shift` on; `hasEnemy` is `has_enemy_checker_on_way`. */
  function QueenScan(r: Rules, b: Grid, side: Side, x: int, y: int, o: Offset, shift: int, hasEnemy: bool): seq<Move>
    requires Fits(r, b)
    decreases r.size - shift
  {
    if shift >= r.size then []
    else if !Within(r, RayX(x, o, shift), RayY(y, o, shift)) then QueenScan(r, b, side, x, y, o, shift + 1, hasEnemy)
    else
      var p := b[RayX(x, o, shift)][RayY(y, o, shift)];
      if !hasEnemy && IsEnemy(side, p) then QueenScan(r, b, side, x, y, o, shift + 1, true)
      else if !hasEnemy && IsFriendly(side, p) then []
      else if hasEnemy && p != None then []
      else (if hasEnemy then [RayMove(x, y, o, shift)] else []) + QueenScan(r, b, side, x, y, o, shift + 1, hasEnemy)
  }

  /** The queen's quiet scan along o from `shift` on. */
  function SlideScan(r: Rules, b: Grid, x: int, y: int, o: Offset, shift: int): seq<Move>
    requires Fits(r, b)
    decreases r.size - shift
  {
    if shift >= r.size then []
    else if !Within(r, RayX(x, o, shift), RayY(y, o, shift)) then SlideScan(r, b, x, y, o, shift + 1)
    else if b[RayX(x, o, shift)][RayY(y, o, shift)] == None then [RayMove(x, y, o, shift)] + SlideScan(r, b, x, y, o, shift + 1)
    else []
  }

  /** Captures of a regular piece along dirs[0 .. k-1]. */
  function RegularJumps(r: Rules, b: Grid, side: Side, x: int, y: int, dirs: seq<Offset>, k: nat): seq<Move>
    requires Fits(r, b) && Within(r, x, y) && k <= |dirs|
  {
    if k == 0 then []
    else
      var o := dirs[k - 1];
      RegularJumps(r, b, side, x, y, dirs, k - 1)
      + (if !Within(r, RayX(x, o, 2), RayY(y, o, 2)) then []
         else if RegularJump(r, b, side, x, y, o) then [RayMove(x, y, o, 2)]
         else [])
  }

  /** Captures of a queen along dirs[0 .. k-1]. */
  function QueenJumps(r: Rules, b: Grid, side: Side, x: int, y: int, dirs: seq<Offset>, k: nat): seq<Move>
    requires Fits(r, b) && k <= |dirs|
  {
    if k == 0 then []
    else
      var o := dirs[k - 1];
      QueenJumps(r, b, side, x, y, dirs, k - 1)
      + (if !Within(r, RayX(x, o, 2), RayY(y, o, 2)) then []
         else QueenScan(r, b, side, x, y, o, 1, false))
  }

  /** Quiet steps of a regular piece along dirs[0 .. k-1]. */
  function RegularSteps(r: Rules, b: Grid, x: int, y: int, dirs: seq<Offset>, k: nat): seq<Move>
    requires Fits(r, b) && k <= |dirs|
  {
    if k == 0 then []
    else
      var o := dirs[k - 1];
      RegularSteps(r, b, x, y, dirs, k - 1)
      + (if !Within(r, RayX(x, o, 1), RayY(y, o, 1)) then []
         else if b[RayX(x, o, 1)][RayY(y, o, 1)] == None then [RayMove(x, y, o, 1)]
         else [])
  }

  /** Quiet slides of a queen along dirs[0 .. k-1]. */
  function QueenSlides(r: Rules, b: Grid, x: int, y: int, dirs: seq<Offset>, k: nat): seq<Move>
    requires Fits(r, b) && k <= |dirs|
  {
    if k == 0 then []
    else
      var o := dirs[k - 1];
      QueenSlides(r, b, x, y, dirs, k - 1)
      + (if !Within(r, RayX(x, o, 1), RayY(y, o, 1)) then []
         else SlideScan(r, b, x, y, o, 1))
  }

  /** Which of the two generators: required (captures) or optional (quiet moves). */
  datatype Kind = Required | Optional

  /**
   * The body of the generators' loop for the cell (x, y): the jumps or the
   * forward steps of a regular piece of `side`, the captures or the slides
   * of a queen, nothing for an empty cell or a piece of the other side.
   */
  function PieceMoves(r: Rules, b: Grid, side: Side, kind: Kind, x: int, y: int): seq<Move>
    requires Fits(r, b) && Within(r, x, y) && side != NoSide
  {
    var p := b[x][y];
    if p == RegularOf(side) then
      (if kind == Required then RegularJumps(r, b, side, x, y, r.offsets, |r.offsets|)
       else RegularSteps(r, b, x, y, Forward(r, side), |Forward(r, side)|))
    else if p == QueenOf(side) then
      (if kind == Required then QueenJumps(r, b, side, x, y, r.offsets, |r.offsets|)
       else QueenSlides(r, b, x, y, r.offsets, |r.offsets|))
    else []
  }

  /**
   * PieceMoves, reached after `delay` idle steps. The verifier expands a
   * recursive function only a bounded number of times, so a delay of one
   * keeps the case analysis of every cell out of the proofs about a whole
   * scan; CellMovesCases brings it back where it is needed.
   */
  function Delayed(r: Rules, b: Grid, side: Side, kind: Kind, x: int, y: int, delay: nat): seq<Move>
    requires Fits(r, b) && Within(r, x, y) && side != NoSide
  {
    if delay == 0 then PieceMoves(r, b, side, kind, x, y) else Delayed(r, b, side, kind, x, y, delay - 1)
  }

  /** The moves the generator of `kind` adds for the cell (x, y). */
  function CellMoves(r: Rules, b: Grid, side: Side, kind: Kind, x: int, y: int): seq<Move>
    requires Fits(r, b) && Within(r, x, y) && side != NoSide
  {
    Delayed(r, b, side, kind, x, y, 1)
  }

  /** The moves of a cell are those of the case analysis for the piece on it. */
  lemma CellMovesCases(r: Rules, b: Grid, side: Side, kind: Kind, x: int, y: int)
    requires Fits(r, b) && Within(r, x, y) && side != NoSide
    ensures CellMoves(r, b, side, kind, x, y) == PieceMoves(r, b, side, kind, x, y)
  {
    assert Delayed(r, b, side, kind, x, y, 1) == Delayed(r, b, side, kind, x, y, 0);
  }

  /**
   * The moves of the cells before (x, y) in the order the generators visit
   * them: rows 0 .. y-1 in full, then (0, y) .. (x-1, y).
   */
  function Scan(r: Rules, b: Grid, side: Side, kind: Kind, y: nat, x: nat): seq<Move>
    requires Fits(r, b) && side != NoSide && y <= r.height && x <= r.width && (y == r.height ==> x == 0)
    decreases y, x
  {
    if x > 0 then Scan(r, b, side, kind, y, x - 1) + CellMoves(r, b, side, kind, x - 1, y)
    else if y > 0 then Scan(r, b, side, kind, y - 1, r.width)
    else []
  }

  /** `get_required_moves_list` / `get_optional_moves_list`: nothing for a side that is neither white nor black. */
  function Generate(r: Rules, b: Grid, side: Side, kind: Kind): seq<Move>
    requires Fits(r, b)
  {
    if side == NoSide then [] else Scan(r, b, side, kind, r.height, 0)
  }

  function RequiredMoves(r: Rules, b: Grid, side: Side): seq<Move>
    requires Fits(r, b)
  {
    Generate(r, b, side, Required)
  }

  function OptionalMoves(r: Rules, b: Grid, side: Side): seq<Move>
    requires Fits(r, b)
  {
    Generate(r, b, side, Optional)
  }

  /** `get_moves_list`: the forced-capture rule. */
  function LegalMoves(r: Rules, b: Grid, side: Side): seq<Move>
    requires Fits(r, b)
  {
    var req := RequiredMoves(r, b, side);
    if req != [] then req else OptionalMoves(r, b, side)
  }

  /** The moves of a list that leave the given cell: the filter that picks a chain's continuations. */
  function From(ms: seq<Move>, x: int, y: int): (fs: seq<Move>)
    ensures forall m :: m in fs <==> m in ms && m.fromX == x && m.fromY == y
  {
    if ms == [] then []
    else (if ms[0].fromX == x && ms[0].fromY == y then [ms[0]] else []) + From(ms[1..], x, y)
  }
}
