/**
 * What `Game.__handle_move` does to the board, stated cell by cell and as a
 * piece count.
 */
module MoveEffects {
  import opened Board

  /**
   * The origin is emptied, the destination receives the (possibly promoted)
   * piece, every cell strictly between them is cleared and every other cell
   * keeps its piece.
   */
  lemma AppliedCells(r: Rules, b: Grid, m: Move, x: int, y: int)
    requires Fits(r, b) && WellFormed(r, m) && Within(r, x, y)
    ensures x == m.fromX && y == m.fromY ==> Applied(r, b, m)[x][y] == None
    ensures (x, y) == (m.toX, m.toY) != (m.fromX, m.fromY) ==> Applied(r, b, m)[x][y] == Promoted(r, b, m)
    ensures Between(m, x, y) ==> Applied(r, b, m)[x][y] == None
    ensures !Between(m, x, y) && (x, y) != (m.fromX, m.fromY) && (x, y) != (m.toX, m.toY) ==>
              Applied(r, b, m)[x][y] == b[x][y]
  {
    var n := Dist(m);
    if x == m.fromX && y == m.fromY && n > 0 {
      WalkWithin(r, m, n);
    }
  }

  /** Only a regular piece reaching its far row changes kind; nothing else is promoted. */
  lemma PromotionRule(r: Rules, b: Grid, m: Move)
    requires Fits(r, b) && WellFormed(r, m) && m.fromX != m.toX
    ensures var p := b[m.fromX][m.fromY];
      Applied(r, b, m)[m.toX][m.toY] ==
        if p == WhiteRegular && m.toY == 0 then WhiteQueen
        else if p == BlackRegular && m.toY == r.height - 1 then BlackQueen
        else p
  {
    AppliedCells(r, b, m, m.toX, m.toY);
  }

  /** Cell-by-cell description of the occupied cells after a move. */
  lemma OccupiedAfter(r: Rules, b: Grid, m: Move)
    requires Fits(r, b) && WellFormed(r, m)
    ensures var f, t := (m.fromX, m.fromY), (m.toX, m.toY);
      Occupied(Applied(r, b, m)) ==
        (Occupied(b) - CapturedCells(r, b, m) - {f} - {t}) + (if b[m.fromX][m.fromY] != None && f != t then {t} else {})
  {
    var b' := Applied(r, b, m);
    var f, t := (m.fromX, m.fromY), (m.toX, m.toY);
    var lhs := Occupied(b');
    var rhs := (Occupied(b) - CapturedCells(r, b, m) - {f} - {t}) + (if b[m.fromX][m.fromY] != None && f != t then {t} else {});
    forall c | c in lhs ensures c in rhs {
      var (x, y) := c;
      OccupiedMember(r, b', x, y);
      OccupiedMember(r, b, x, y);
      AppliedCells(r, b, m, x, y);
      if !Between(m, x, y) && c != f && c != t {
        if c in CapturedCells(r, b, m) {
          var k :| 0 < k < Dist(m) && b[WalkX(m, k)][WalkY(m, k)] != None && c == (WalkX(m, k), WalkY(m, k));
          WalkWithin(r, m, k);
        }
      }
    }
    forall c | c in rhs ensures c in lhs {
      var (x, y) := c;
      OccupiedMember(r, b, x, y);
      assert Within(r, x, y);
      OccupiedMember(r, b', x, y);
      AppliedCells(r, b, m, x, y);
    }
  }

  lemma OccupiedMember(r: Rules, b: Grid, x: int, y: int)
    requires Fits(r, b)
    ensures (x, y) in Occupied(b) <==> Within(r, x, y) && b[x][y] != None
  {
    if Within(r, x, y) && b[x][y] != None {
      assert (x, y) in Occupied(b);
    }
  }

  /** A subset is no larger. */
  lemma {:induction false} SubsetCard<T>(a: set<T>, b: set<T>)
    requires a <= b
    ensures |a| <= |b|
    decreases |a|
  {
    if a != {} {
      var e :| e in a;
      SubsetCard(a - {e}, b - {e});
    }
  }

  /** Removing a subset takes away exactly its size. */
  lemma {:induction false} DifferenceCard<T>(a: set<T>, c: set<T>)
    requires c <= a
    ensures |a - c| == |a| - |c|
    decreases |c|
  {
    if c != {} {
      var e :| e in c;
      DifferenceCard(a - {e}, c - {e});
      assert a - c == (a - {e}) - (c - {e});
    }
  }

  /** The passed-over occupied cells are pieces other than the mover and its landing cell. */
  lemma CapturedInside(r: Rules, b: Grid, m: Move)
    requires Fits(r, b) && WellFormed(r, m)
    ensures CapturedCells(r, b, m) <= Occupied(b)
    ensures (m.fromX, m.fromY) !in CapturedCells(r, b, m) && (m.toX, m.toY) !in CapturedCells(r, b, m)
    ensures Captures(r, b, m) <==> CapturedCells(r, b, m) != {}
  {
    var cap := CapturedCells(r, b, m);
    forall c | c in cap ensures c in Occupied(b) && c != (m.fromX, m.fromY) && c != (m.toX, m.toY) {
      var k :| 0 < k < Dist(m) && b[WalkX(m, k)][WalkY(m, k)] != None && c == (WalkX(m, k), WalkY(m, k));
      WalkWithin(r, m, k);
      OccupiedMember(r, b, c.0, c.1);
    }
    if Captures(r, b, m) {
      var k :| 0 < k < Dist(m) && b[WalkX(m, k)][WalkY(m, k)] != None;
      assert (WalkX(m, k), WalkY(m, k)) in cap;
    }
  }

  /** Set arithmetic behind PieceCount. */
  lemma CountAfter<T>(occ: set<T>, cap: set<T>, f: T, t: T, after: set<T>, moved: bool)
    requires cap <= occ && f !in cap && t !in cap
    requires moved ==> f in occ
    requires after == (occ - cap - {f} - {t}) + (if moved && f != t then {t} else {})
    ensures |after| + |cap| <= |occ|
    ensures moved && t !in occ ==> |after| + |cap| == |occ|
  {
    DifferenceCard(occ, cap);
    var rest := occ - cap;
    if moved {
      assert f in rest;
      DifferenceCard(rest, {f});
      var kept := rest - {f} - {t};
      SubsetCard(kept, rest - {f});
      if t !in occ {
        assert kept == rest - {f};
      }
    } else {
      SubsetCard(rest - {f} - {t}, rest);
    }
  }

  /**
   * The pieces a move removes are exactly the occupied cells it passes over:
   * the board loses at least that many pieces, and exactly that many when a
   * piece moves onto an empty cell, as every generated move does.
   * `__handle_move` reports a capture exactly when that set is not empty.
   */
  lemma PieceCount(r: Rules, b: Grid, m: Move)
    requires Fits(r, b) && WellFormed(r, m)
    ensures Captures(r, b, m) <==> CapturedCells(r, b, m) != {}
    ensures |Occupied(Applied(r, b, m))| + |CapturedCells(r, b, m)| <= |Occupied(b)|
    ensures b[m.fromX][m.fromY] != None && b[m.toX][m.toY] == None ==>
              |Occupied(Applied(r, b, m))| + |CapturedCells(r, b, m)| == |Occupied(b)|
  {
    CapturedInside(r, b, m);
    OccupiedAfter(r, b, m);
    OccupiedMember(r, b, m.fromX, m.fromY);
    OccupiedMember(r, b, m.toX, m.toY);
    CountAfter(Occupied(b), CapturedCells(r, b, m), (m.fromX, m.fromY), (m.toX, m.toY),
      Occupied(Applied(r, b, m)), b[m.fromX][m.fromY] != None);
  }

  /** A capturing move strictly lowers the number of pieces on the board. */
  lemma CaptureShrinks(r: Rules, b: Grid, m: Move)
    requires Fits(r, b) && WellFormed(r, m) && Captures(r, b, m)
    ensures |Occupied(Applied(r, b, m))| < |Occupied(b)|
  {
    PieceCount(r, b, m);
  }
}
