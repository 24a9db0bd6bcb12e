/**
 * The board of the checkers engine as a value: piece kinds, sides, moves,
 * the rule parameters that the game reads from its constants, and what
 * applying one move does to the grid.
 *
 * A grid is indexed `b[x][y]`, x the column (0 .. width-1) and y the row
 * (0 .. height-1), as `Field.type_at(x, y)` is.
 */
module Board {

  /** The kind held by one cell (CheckerType). */
  datatype Piece = None | WhiteRegular | WhiteQueen | BlackRegular | BlackQueen

  /** The side to move (SideType); NoSide is the sentinel that never moves. */
  datatype Side = White | Black | NoSide

  function Opposite(s: Side): (o: Side)
    ensures s != NoSide ==> o != NoSide && o != s
    ensures s == NoSide ==> o == NoSide
  {
    match s
    case White => Black
    case Black => White
    case NoSide => NoSide
  }

  /** WHITE_CHECKERS and BLACK_CHECKERS, each the pair [regular, queen]. */
  predicate IsWhitePiece(p: Piece) { p == WhiteRegular || p == WhiteQueen }
  predicate IsBlackPiece(p: Piece) { p == BlackRegular || p == BlackQueen }

  predicate IsFriendly(side: Side, p: Piece) {
    (side == White && IsWhitePiece(p)) || (side == Black && IsBlackPiece(p))
  }

  predicate IsEnemy(side: Side, p: Piece) {
    (side == White && IsBlackPiece(p)) || (side == Black && IsWhitePiece(p))
  }

  /** `friendly_checkers[0]`: the regular piece of a moving side. */
  function RegularOf(side: Side): (p: Piece)
    requires side != NoSide
    ensures IsFriendly(side, p) && p != WhiteQueen && p != BlackQueen
  {
    if side == White then WhiteRegular else BlackRegular
  }

  /** `friendly_checkers[1]`: the queen of a moving side. */
  function QueenOf(side: Side): (p: Piece)
    requires side != NoSide
    ensures IsFriendly(side, p) && p != RegularOf(side)
  {
    if side == White then WhiteQueen else BlackQueen
  }

  /** A move is a plain 4-tuple, compared structurally. */
  datatype Move = Move(fromX: int, fromY: int, toX: int, toY: int)

  /** One entry of MOVE_OFFSETS. */
  datatype Offset = Offset(x: int, y: int)

  /**
   * The constants the engine is parameterised by: the board's size
   * (x_size, y_size and the queen scan bound `field.size`), MOVE_OFFSETS,
   * MAX_PREDICTION_DEPTH and the material weights behind white_score and
   * black_score.
   */
  datatype Rules = Rules(
    width: nat,
    height: nat,
    size: int,
    offsets: seq<Offset>,
    maxDepth: nat,
    regularWeight: nat,
    queenWeight: nat)

  /** Every offset is one diagonal step; nothing else is assumed of the constants. */
  predicate ValidRules(r: Rules) {
    forall o :: o in r.offsets ==> (o.x == 1 || o.x == -1) && (o.y == 1 || o.y == -1)
  }

  /** The quiet-move directions of a regular piece: MOVE_OFFSETS[:2] for white, [2:] otherwise. */
  function Forward(r: Rules, side: Side): (fw: seq<Offset>)
    ensures forall o :: o in fw ==> o in r.offsets
    ensures side == White ==> fw <= r.offsets && |fw| == if |r.offsets| < 2 then |r.offsets| else 2
    ensures side != White ==> |fw| <= |r.offsets| && fw == r.offsets[|r.offsets| - |fw|..]
  {
    if side == White then
      (if |r.offsets| >= 2 then r.offsets[..2] else r.offsets)
    else
      (if |r.offsets| >= 2 then r.offsets[2..] else [])
  }

  /** The quiet directions of white and of black split the offsets: the first two, then the rest. */
  lemma ForwardSplit(r: Rules)
    ensures Forward(r, White) + Forward(r, Black) == r.offsets
  {
  }

  type Grid = seq<seq<Piece>>

  /** The grid has the board's dimensions. */
  predicate Fits(r: Rules, b: Grid) {
    |b| == r.width && forall x :: 0 <= x < |b| ==> |b[x]| == r.height
  }

  /** `Field.is_within`. */
  predicate Within(r: Rules, x: int, y: int) {
    0 <= x < r.width && 0 <= y < r.height
  }

  /*
   * Geometry of a move. The capture walk starts at the destination and steps
   * one cell at a time toward the origin (dx = -1 when from_x < to_x, else 1,
   * and likewise dy); its k-th cell is (WalkX(m, k), WalkY(m, k)).
   */

  function Dist(m: Move): nat {
    if m.fromX < m.toX then m.toX - m.fromX else m.fromX - m.toX
  }

  function DistY(m: Move): nat {
    if m.fromY < m.toY then m.toY - m.fromY else m.fromY - m.toY
  }

  /** Both ends on the board and on one diagonal: the walk then ends on the origin. */
  predicate WellFormed(r: Rules, m: Move) {
    Within(r, m.fromX, m.fromY) && Within(r, m.toX, m.toY) && Dist(m) == DistY(m)
  }

  function WalkX(m: Move, k: int): int {
    if m.fromX < m.toX then m.toX - k else m.toX + k
  }

  function WalkY(m: Move, k: int): int {
    if m.fromY < m.toY then m.toY - k else m.toY + k
  }

  /** The number of walk steps from the destination to column x. */
  function WalkIndex(m: Move, x: int): int {
    if m.fromX < m.toX then m.toX - x else x - m.toX
  }

  /** Cell (x, y) is one of the first j cells the walk visits. */
  predicate Walked(m: Move, x: int, y: int, j: int) {
    var k := WalkIndex(m, x);
    1 <= k <= j && y == WalkY(m, k)
  }

  /** Cell (x, y) lies strictly between origin and destination on the move's diagonal. */
  predicate Between(m: Move, x: int, y: int) {
    Walked(m, x, y, Dist(m) - 1)
  }

  lemma WalkWithin(r: Rules, m: Move, k: int)
    requires WellFormed(r, m) && 0 <= k <= Dist(m)
    ensures Within(r, WalkX(m, k), WalkY(m, k))
    ensures Walked(m, WalkX(m, k), WalkY(m, k), k) || k == 0
    ensures k == Dist(m) ==> WalkX(m, k) == m.fromX && WalkY(m, k) == m.fromY
  {
  }

  /** The piece that leaves the origin: promoted when a regular piece reaches the far row. */
  function Promoted(r: Rules, b: Grid, m: Move): (p: Piece)
    requires Fits(r, b) && Within(r, m.fromX, m.fromY)
    ensures b[m.fromX][m.fromY] == WhiteRegular ==> p == (if m.toY == 0 then WhiteQueen else WhiteRegular)
    ensures b[m.fromX][m.fromY] == BlackRegular ==>
              p == (if m.toY == r.height - 1 then BlackQueen else BlackRegular)
    ensures b[m.fromX][m.fromY] in {None, WhiteQueen, BlackQueen} ==> p == b[m.fromX][m.fromY]
  {
    var p := b[m.fromX][m.fromY];
    if m.toY == 0 && p == WhiteRegular then WhiteQueen
    else if m.toY == r.height - 1 && p == BlackRegular then BlackQueen
    else p
  }

  /** The grid after the promotion and relocation steps, before the capture walk. */
  function Relocated(r: Rules, b: Grid, m: Move, x: int, y: int): Piece
    requires Fits(r, b) && WellFormed(r, m) && Within(r, x, y)
  {
    if x == m.fromX && y == m.fromY then None
    else if x == m.toX && y == m.toY then Promoted(r, b, m)
    else b[x][y]
  }

  /** The grid after a whole move: relocation, then every walked cell cleared. */
  function Applied(r: Rules, b: Grid, m: Move): (b': Grid)
    requires Fits(r, b) && WellFormed(r, m)
    ensures Fits(r, b')
  {
    seq(|b|, x requires 0 <= x < |b| =>
      seq(|b[x]|, y requires 0 <= y < |b[x]| =>
        if Walked(m, x, y, Dist(m)) then None else Relocated(r, b, m, x, y)))
  }

  /** The move passes over at least one occupied cell, so `__handle_move` reports a capture. */
  predicate Captures(r: Rules, b: Grid, m: Move)
    requires Fits(r, b) && WellFormed(r, m)
  {
    exists k :: 0 < k < Dist(m) && b[WalkX(m, k)][WalkY(m, k)] != None
  }

  /** The occupied cells the move passes over: the pieces it removes. */
  function CapturedCells(r: Rules, b: Grid, m: Move): set<(int, int)>
    requires Fits(r, b) && WellFormed(r, m)
  {
    set k | 0 < k < Dist(m) && b[WalkX(m, k)][WalkY(m, k)] != None :: (WalkX(m, k), WalkY(m, k))
  }

  /** The cells holding a piece. */
  function Occupied(b: Grid): set<(int, int)> {
    set x, y | 0 <= x < |b| && 0 <= y < |b[x]| && b[x][y] != None :: (x, y)
  }

  /** A grid built cell by cell is the grid with those cells. */
  lemma GridExt(r: Rules, a: Grid, b: Grid)
    requires Fits(r, a) && Fits(r, b)
    requires forall x, y :: 0 <= x < r.width && 0 <= y < r.height ==> a[x][y] == b[x][y]
    ensures a == b
  {
    forall x | 0 <= x < r.width ensures a[x] == b[x] {
      assert forall y :: 0 <= y < r.height ==> a[x][y] == b[x][y];
    }
  }
}
