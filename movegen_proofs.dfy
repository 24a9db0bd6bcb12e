/**
 * The generators of MoveGen produce exactly the legal moves: every move they
 * list satisfies IsCapture (IsQuiet) and every move satisfying it is listed.
 */
module MoveGenProofs {
  import opened Board
  import opened MoveGen
  import opened MoveEffects

  /** A diagonal ray that starts and ends on the board stays on it in between. */
  lemma RayConvex(r: Rules, x: int, y: int, o: Offset, s: int, j: int)
    requires UnitStep(o) && Within(r, x, y) && Within(r, RayX(x, o, s), RayY(y, o, s)) && 0 <= j <= s
    ensures Within(r, RayX(x, o, j), RayY(y, o, j))
  {
  }

  /** Cells that are empty wherever on the board are all on the board when the ray reaches t >= hi - 1. */
  lemma ClearFromOnBoard(r: Rules, b: Grid, x: int, y: int, o: Offset, lo: int, hi: int, t: int)
    requires Fits(r, b) && UnitStep(o) && Within(r, x, y) && 0 <= lo && hi - 1 <= t
    requires Within(r, RayX(x, o, t), RayY(y, o, t))
    requires ClearOnBoard(r, b, x, y, o, lo, hi)
    ensures Clear(r, b, x, y, o, lo, hi)
  {
    forall j | lo <= j < hi ensures Within(r, RayX(x, o, j), RayY(y, o, j)) {
      RayConvex(r, x, y, o, t, j);
    }
  }

  /** What the capture scan has seen before `shift`: nothing but empty cells, or exactly one enemy. */
  ghost predicate ScanSoFar(r: Rules, b: Grid, side: Side, x: int, y: int, o: Offset, shift: int, hasEnemy: bool)
    requires Fits(r, b)
  {
    if hasEnemy then
      exists k :: 1 <= k < shift && EnemyOnRay(r, b, side, x, y, o, k)
                  && ClearOnBoard(r, b, x, y, o, 1, k) && ClearOnBoard(r, b, x, y, o, k + 1, shift)
    else ClearOnBoard(r, b, x, y, o, 1, shift)
  }

  /** A landing at `shift` is a capture exactly when the scan has already passed one enemy. */
  lemma LandingHere(r: Rules, b: Grid, side: Side, x: int, y: int, o: Offset, shift: int, hasEnemy: bool)
    requires Fits(r, b) && UnitStep(o) && Within(r, x, y) && 1 <= shift < r.size
    requires Within(r, RayX(x, o, shift), RayY(y, o, shift)) && b[RayX(x, o, shift)][RayY(y, o, shift)] == None
    requires ScanSoFar(r, b, side, x, y, o, shift, hasEnemy)
    ensures QueenJump(r, b, side, x, y, o, shift) <==> hasEnemy
  {
    if hasEnemy {
      var k :| 1 <= k < shift && EnemyOnRay(r, b, side, x, y, o, k)
               && ClearOnBoard(r, b, x, y, o, 1, k) && ClearOnBoard(r, b, x, y, o, k + 1, shift);
      ClearFromOnBoard(r, b, x, y, o, 1, k, shift);
      ClearFromOnBoard(r, b, x, y, o, k + 1, shift, shift);
    }
  }

  /** A cell that is occupied but not an enemy before the enemy, or any occupied cell after it, blocks every landing beyond. */
  lemma Blocked(r: Rules, b: Grid, side: Side, x: int, y: int, o: Offset, shift: int, hasEnemy: bool, s: int)
    requires Fits(r, b) && Within(r, x, y) && 1 <= shift <= s
    requires Within(r, RayX(x, o, shift), RayY(y, o, shift))
    requires var p := b[RayX(x, o, shift)][RayY(y, o, shift)];
      if hasEnemy then p != None else IsFriendly(side, p)
    requires ScanSoFar(r, b, side, x, y, o, shift, hasEnemy)
    ensures !QueenJump(r, b, side, x, y, o, s)
  {
    if QueenJump(r, b, side, x, y, o, s) {
      assert false;
    }
  }

  /** One step of a scan: the landing at `shift`, if it is one, followed by those beyond. */
  lemma ScanStep(r: Rules, b: Grid, side: Side, x: int, y: int, o: Offset, shift: int,
                 rest: seq<Move>, emit: bool, out: seq<Move>)
    requires Fits(r, b)
    requires emit <==> QueenJump(r, b, side, x, y, o, shift)
    requires forall m :: m in rest <==>
               exists s :: shift + 1 <= s && m == RayMove(x, y, o, s) && QueenJump(r, b, side, x, y, o, s)
    requires out == (if emit then [RayMove(x, y, o, shift)] else []) + rest
    ensures forall m :: m in out <==>
              exists s :: shift <= s && m == RayMove(x, y, o, s) && QueenJump(r, b, side, x, y, o, s)
  {
    forall s | shift < s && QueenJump(r, b, side, x, y, o, s) ensures RayMove(x, y, o, s) in out {
      assert RayMove(x, y, o, s) in rest;
    }
  }

  /** The scan state after looking at the cell at `shift`, when the scan goes on. */
  lemma ScanAdvance(r: Rules, b: Grid, side: Side, x: int, y: int, o: Offset, shift: int, hasEnemy: bool)
    requires Fits(r, b) && Within(r, x, y) && shift >= 1 && side != NoSide
    requires ScanSoFar(r, b, side, x, y, o, shift, hasEnemy)
    requires Within(r, RayX(x, o, shift), RayY(y, o, shift)) ==>
               var p := b[RayX(x, o, shift)][RayY(y, o, shift)];
               !(!hasEnemy && IsFriendly(side, p)) && !(hasEnemy && p != None)
    ensures var onBoard := Within(r, RayX(x, o, shift), RayY(y, o, shift));
      ScanSoFar(r, b, side, x, y, o, shift + 1,
        hasEnemy || (onBoard && IsEnemy(side, b[RayX(x, o, shift)][RayY(y, o, shift)])))
  {
    var onBoard := Within(r, RayX(x, o, shift), RayY(y, o, shift));
    if hasEnemy {
      var k :| 1 <= k < shift && EnemyOnRay(r, b, side, x, y, o, k)
               && ClearOnBoard(r, b, x, y, o, 1, k) && ClearOnBoard(r, b, x, y, o, k + 1, shift);
      assert ClearOnBoard(r, b, x, y, o, k + 1, shift + 1);
    } else if onBoard && IsEnemy(side, b[RayX(x, o, shift)][RayY(y, o, shift)]) {
      assert EnemyOnRay(r, b, side, x, y, o, shift);
    }
  }

  /** The queen's capture scan from `shift` lists exactly the captures landing at `shift` or beyond. */
  lemma {:induction false} QueenScanExact(r: Rules, b: Grid, side: Side, x: int, y: int, o: Offset, shift: int, hasEnemy: bool)
    requires Fits(r, b) && UnitStep(o) && Within(r, x, y) && shift >= 1 && side != NoSide
    requires ScanSoFar(r, b, side, x, y, o, shift, hasEnemy)
    ensures forall m :: m in QueenScan(r, b, side, x, y, o, shift, hasEnemy) <==>
              exists s :: shift <= s && m == RayMove(x, y, o, s) && QueenJump(r, b, side, x, y, o, s)
    decreases r.size - shift
  {
    if shift >= r.size {
    } else if !Within(r, RayX(x, o, shift), RayY(y, o, shift)) {
      ScanAdvance(r, b, side, x, y, o, shift, hasEnemy);
      QueenScanExact(r, b, side, x, y, o, shift + 1, hasEnemy);
      ScanStep(r, b, side, x, y, o, shift, QueenScan(r, b, side, x, y, o, shift + 1, hasEnemy), false,
        QueenScan(r, b, side, x, y, o, shift, hasEnemy));
    } else {
      var p := b[RayX(x, o, shift)][RayY(y, o, shift)];
      if (!hasEnemy && IsFriendly(side, p)) || (hasEnemy && p != None) {
        forall s | shift <= s ensures !QueenJump(r, b, side, x, y, o, s) {
          Blocked(r, b, side, x, y, o, shift, hasEnemy, s);
        }
      } else {
        var next := hasEnemy || IsEnemy(side, p);
        ScanAdvance(r, b, side, x, y, o, shift, hasEnemy);
        QueenScanExact(r, b, side, x, y, o, shift + 1, next);
        if p == None {
          LandingHere(r, b, side, x, y, o, shift, hasEnemy);
        }
        ScanStep(r, b, side, x, y, o, shift, QueenScan(r, b, side, x, y, o, shift + 1, next), hasEnemy && p == None,
          QueenScan(r, b, side, x, y, o, shift, hasEnemy));
      }
    }
  }

  /** One step of the quiet scan, as ScanStep is for the capture scan. */
  lemma SlideStep(r: Rules, b: Grid, x: int, y: int, o: Offset, shift: int,
                  rest: seq<Move>, emit: bool, out: seq<Move>)
    requires Fits(r, b)
    requires emit <==> QueenSlide(r, b, x, y, o, shift)
    requires forall m :: m in rest <==>
               exists s :: shift + 1 <= s && m == RayMove(x, y, o, s) && QueenSlide(r, b, x, y, o, s)
    requires out == (if emit then [RayMove(x, y, o, shift)] else []) + rest
    ensures forall m :: m in out <==>
              exists s :: shift <= s && m == RayMove(x, y, o, s) && QueenSlide(r, b, x, y, o, s)
  {
    forall s | shift < s && QueenSlide(r, b, x, y, o, s) ensures RayMove(x, y, o, s) in out {
      assert RayMove(x, y, o, s) in rest;
    }
  }

  /** The queen's quiet scan from `shift` lists exactly the slides ending at `shift` or beyond. */
  lemma {:induction false} SlideScanExact(r: Rules, b: Grid, x: int, y: int, o: Offset, shift: int)
    requires Fits(r, b) && UnitStep(o) && Within(r, x, y) && shift >= 1
    requires ClearOnBoard(r, b, x, y, o, 1, shift)
    ensures forall m :: m in SlideScan(r, b, x, y, o, shift) <==>
              exists s :: shift <= s && m == RayMove(x, y, o, s) && QueenSlide(r, b, x, y, o, s)
    decreases r.size - shift
  {
    if shift >= r.size {
    } else if !Within(r, RayX(x, o, shift), RayY(y, o, shift)) {
      assert ClearOnBoard(r, b, x, y, o, 1, shift + 1);
      SlideScanExact(r, b, x, y, o, shift + 1);
      SlideStep(r, b, x, y, o, shift, SlideScan(r, b, x, y, o, shift + 1), false, SlideScan(r, b, x, y, o, shift));
    } else if b[RayX(x, o, shift)][RayY(y, o, shift)] == None {
      assert ClearOnBoard(r, b, x, y, o, 1, shift + 1);
      ClearFromOnBoard(r, b, x, y, o, 1, shift + 1, shift);
      SlideScanExact(r, b, x, y, o, shift + 1);
      SlideStep(r, b, x, y, o, shift, SlideScan(r, b, x, y, o, shift + 1), true, SlideScan(r, b, x, y, o, shift));
    } else {
      assert forall s :: shift <= s ==> !QueenSlide(r, b, x, y, o, s);
    }
  }

  /** No capture or slide along a direction whose first (second) cell is off the board. */
  lemma NoLandingOffBoard(r: Rules, b: Grid, side: Side, x: int, y: int, o: Offset, s: int, first: int)
    requires Fits(r, b) && UnitStep(o) && Within(r, x, y) && 1 <= first <= 2
    requires !Within(r, RayX(x, o, first), RayY(y, o, first))
    ensures !QueenJump(r, b, side, x, y, o, s)
    ensures first == 1 ==> !QueenSlide(r, b, x, y, o, s)
  {
    if QueenJump(r, b, side, x, y, o, s) {
      RayConvex(r, x, y, o, s, first);
    }
  }

  /** Captures of a regular piece along dirs[..k]: exactly the jumps along those offsets. */
  lemma {:induction false} RegularJumpsExact(r: Rules, b: Grid, side: Side, x: int, y: int, dirs: seq<Offset>, k: nat)
    requires Fits(r, b) && Within(r, x, y) && k <= |dirs|
    ensures forall m :: m in RegularJumps(r, b, side, x, y, dirs, k) <==>
              exists o :: o in dirs[..k] && m == RayMove(x, y, o, 2) && RegularJump(r, b, side, x, y, o)
  {
    if k > 0 {
      RegularJumpsExact(r, b, side, x, y, dirs, k - 1);
      assert dirs[..k] == dirs[..k - 1] + [dirs[k - 1]];
    }
  }

  /** Captures of a queen along dirs[..k]: exactly the queen captures along those offsets. */
  lemma {:induction false} QueenJumpsExact(r: Rules, b: Grid, side: Side, x: int, y: int, dirs: seq<Offset>, k: nat)
    requires Fits(r, b) && Within(r, x, y) && k <= |dirs| && side != NoSide
    requires forall o :: o in dirs ==> UnitStep(o)
    ensures forall m :: m in QueenJumps(r, b, side, x, y, dirs, k) <==>
              exists o, s :: o in dirs[..k] && m == RayMove(x, y, o, s) && QueenJump(r, b, side, x, y, o, s)
  {
    if k > 0 {
      var o := dirs[k - 1];
      QueenJumpsExact(r, b, side, x, y, dirs, k - 1);
      assert dirs[..k] == dirs[..k - 1] + [o];
      if Within(r, RayX(x, o, 2), RayY(y, o, 2)) {
        QueenScanExact(r, b, side, x, y, o, 1, false);
      } else {
        forall s ensures !QueenJump(r, b, side, x, y, o, s) {
          NoLandingOffBoard(r, b, side, x, y, o, s, 2);
        }
      }
    }
  }

  /** Quiet steps of a regular piece along dirs[..k]: exactly the one-cell steps onto empty cells. */
  lemma {:induction false} RegularStepsExact(r: Rules, b: Grid, x: int, y: int, dirs: seq<Offset>, k: nat)
    requires Fits(r, b) && k <= |dirs|
    ensures forall m :: m in RegularSteps(r, b, x, y, dirs, k) <==>
              exists o :: o in dirs[..k] && m == RayMove(x, y, o, 1) && RegularStep(r, b, x, y, o)
  {
    if k > 0 {
      RegularStepsExact(r, b, x, y, dirs, k - 1);
      assert dirs[..k] == dirs[..k - 1] + [dirs[k - 1]];
    }
  }

  /** Quiet slides of a queen along dirs[..k]: exactly the slides along those offsets. */
  lemma {:induction false} QueenSlidesExact(r: Rules, b: Grid, x: int, y: int, dirs: seq<Offset>, k: nat)
    requires Fits(r, b) && Within(r, x, y) && k <= |dirs|
    requires forall o :: o in dirs ==> UnitStep(o)
    ensures forall m :: m in QueenSlides(r, b, x, y, dirs, k) <==>
              exists o, s :: o in dirs[..k] && m == RayMove(x, y, o, s) && QueenSlide(r, b, x, y, o, s)
  {
    if k > 0 {
      var o := dirs[k - 1];
      QueenSlidesExact(r, b, x, y, dirs, k - 1);
      assert dirs[..k] == dirs[..k - 1] + [o];
      if Within(r, RayX(x, o, 1), RayY(y, o, 1)) {
        SlideScanExact(r, b, x, y, o, 1);
      } else {
        forall s ensures !QueenSlide(r, b, x, y, o, s) {
          NoLandingOffBoard(r, b, NoSide, x, y, o, s, 1);
        }
      }
    }
  }

  /** The legal moves a generator is meant to list. */
  ghost predicate Legal(r: Rules, b: Grid, side: Side, kind: Kind, m: Move)
    requires Fits(r, b)
  {
    if kind == Required then IsCapture(r, b, side, m) else IsQuiet(r, b, side, m)
  }

  /** The moves listed for one cell are exactly the legal moves of the piece on it. */
  lemma CellMovesExact(r: Rules, b: Grid, side: Side, kind: Kind, x: int, y: int)
    requires ValidRules(r) && Fits(r, b) && Within(r, x, y) && side != NoSide
    ensures forall m :: m in CellMoves(r, b, side, kind, x, y) <==>
              m.fromX == x && m.fromY == y && Legal(r, b, side, kind, m)
  {
    // CellMoves reaches its case analysis through Delayed: unfold it before splitting on the piece.
    CellMovesCases(r, b, side, kind, x, y);
    var p := b[x][y];
    var fw := Forward(r, side);
    assert r.offsets[..|r.offsets|] == r.offsets;
    assert fw[..|fw|] == fw;
    if p == RegularOf(side) {
      if kind == Required {
        RegularJumpsExact(r, b, side, x, y, r.offsets, |r.offsets|);
      } else {
        RegularStepsExact(r, b, x, y, fw, |fw|);
      }
    } else if p == QueenOf(side) {
      if kind == Required {
        QueenJumpsExact(r, b, side, x, y, r.offsets, |r.offsets|);
      } else {
        QueenSlidesExact(r, b, x, y, r.offsets, |r.offsets|);
      }
    }
  }

  lemma CellMovesFrom(r: Rules, b: Grid, side: Side, kind: Kind, x: int, y: int, m: Move)
    requires ValidRules(r) && Fits(r, b) && Within(r, x, y) && side != NoSide
    requires m in CellMoves(r, b, side, kind, x, y)
    ensures m.fromX == x && m.fromY == y
  {
    CellMovesExact(r, b, side, kind, x, y);
  }

  /** The cells before (x, y) in row-major order. */
  predicate Before(m: Move, y: int, x: int) {
    m.fromY < y || (m.fromY == y && m.fromX < x)
  }

  /** Every move the scan up to (x, y) lists comes from the list of a cell before (x, y). */
  lemma {:induction false} ScanSound(r: Rules, b: Grid, side: Side, kind: Kind, y: nat, x: nat)
    requires ValidRules(r) && Fits(r, b) && side != NoSide
    requires y <= r.height && x <= r.width && (y == r.height ==> x == 0)
    ensures forall m :: m in Scan(r, b, side, kind, y, x) ==>
              Within(r, m.fromX, m.fromY) && Before(m, y, x) && m in CellMoves(r, b, side, kind, m.fromX, m.fromY)
    decreases y, x
  {
    if x > 0 {
      ScanSound(r, b, side, kind, y, x - 1);
      forall m | m in CellMoves(r, b, side, kind, x - 1, y) ensures m.fromX == x - 1 && m.fromY == y {
        CellMovesFrom(r, b, side, kind, x - 1, y, m);
      }
    } else if y > 0 {
      ScanSound(r, b, side, kind, y - 1, r.width);
    }
  }

  /** Every move of the list of a cell before (x, y) is listed by the scan up to (x, y). */
  lemma {:induction false} ScanComplete(r: Rules, b: Grid, side: Side, kind: Kind, y: nat, x: nat)
    requires ValidRules(r) && Fits(r, b) && side != NoSide
    requires y <= r.height && x <= r.width && (y == r.height ==> x == 0)
    ensures forall m: Move ::
              (Within(r, m.fromX, m.fromY) && Before(m, y, x) && m in CellMoves(r, b, side, kind, m.fromX, m.fromY))
              ==> m in Scan(r, b, side, kind, y, x)
    decreases y, x
  {
    if x > 0 {
      ScanComplete(r, b, side, kind, y, x - 1);
    } else if y > 0 {
      ScanComplete(r, b, side, kind, y - 1, r.width);
    }
  }

  /** A generator lists exactly the legal moves of its kind. */
  lemma GenerateExact(r: Rules, b: Grid, side: Side, kind: Kind)
    requires ValidRules(r) && Fits(r, b)
    ensures forall m :: m in Generate(r, b, side, kind) <==> Legal(r, b, side, kind, m)
  {
    if side != NoSide {
      ScanSound(r, b, side, kind, r.height, 0);
      ScanComplete(r, b, side, kind, r.height, 0);
      forall m ensures m in Generate(r, b, side, kind) <==> Legal(r, b, side, kind, m) {
        if Within(r, m.fromX, m.fromY) {
          CellMovesExact(r, b, side, kind, m.fromX, m.fromY);
        }
      }
    }
  }

  /** `get_required_moves_list` lists exactly the captures of the side, and nothing for NoSide. */
  lemma RequiredExact(r: Rules, b: Grid, side: Side)
    requires ValidRules(r) && Fits(r, b)
    ensures forall m :: m in RequiredMoves(r, b, side) <==> IsCapture(r, b, side, m)
    ensures side == NoSide ==> RequiredMoves(r, b, side) == []
  {
    GenerateExact(r, b, side, Required);
  }

  /** `get_optional_moves_list` lists exactly the quiet moves of the side, and nothing for NoSide. */
  lemma OptionalExact(r: Rules, b: Grid, side: Side)
    requires ValidRules(r) && Fits(r, b)
    ensures forall m :: m in OptionalMoves(r, b, side) <==> IsQuiet(r, b, side, m)
    ensures side == NoSide ==> OptionalMoves(r, b, side) == []
  {
    GenerateExact(r, b, side, Optional);
  }

  /**
   * The forced-capture rule of `get_moves_list`: when the side has a capture
   * it may play captures only, and otherwise exactly its quiet moves.
   */
  lemma ForcedCapture(r: Rules, b: Grid, side: Side)
    requires ValidRules(r) && Fits(r, b)
    ensures (exists c :: IsCapture(r, b, side, c)) ==>
              forall m :: m in LegalMoves(r, b, side) <==> IsCapture(r, b, side, m)
    ensures (forall c :: !IsCapture(r, b, side, c)) ==>
              forall m :: m in LegalMoves(r, b, side) <==> IsQuiet(r, b, side, m)
  {
    RequiredExact(r, b, side);
    OptionalExact(r, b, side);
    if exists c :: IsCapture(r, b, side, c) {
      var c :| IsCapture(r, b, side, c);
      assert c in RequiredMoves(r, b, side);
    }
    var req := RequiredMoves(r, b, side);
    if req != [] {
      assert req[0] in req;
    }
  }

  /** The removal walk of a move along a ray visits the ray's cells backwards. */
  lemma WalkOnRay(r: Rules, x: int, y: int, o: Offset, s: int, k: int)
    requires UnitStep(o) && s >= 1
    ensures Dist(RayMove(x, y, o, s)) == s == DistY(RayMove(x, y, o, s))
    ensures WalkX(RayMove(x, y, o, s), k) == RayX(x, o, s - k)
    ensures WalkY(RayMove(x, y, o, s), k) == RayY(y, o, s - k)
  {
  }

  /** The cells a move along a ray passes over, when exactly one of them (at k0) is occupied. */
  lemma CapturedOnRay(r: Rules, b: Grid, x: int, y: int, o: Offset, s: int, k0: int)
    requires Fits(r, b) && UnitStep(o) && Within(r, x, y) && 1 <= k0 < s
    requires Within(r, RayX(x, o, s), RayY(y, o, s))
    requires Clear(r, b, x, y, o, 1, k0) && Clear(r, b, x, y, o, k0 + 1, s)
    requires Within(r, RayX(x, o, k0), RayY(y, o, k0)) && b[RayX(x, o, k0)][RayY(y, o, k0)] != None
    ensures WellFormed(r, RayMove(x, y, o, s))
    ensures CapturedCells(r, b, RayMove(x, y, o, s)) == {(RayX(x, o, k0), RayY(y, o, k0))}
  {
    var m := RayMove(x, y, o, s);
    WalkOnRay(r, x, y, o, s, s - k0);
    var cap := CapturedCells(r, b, m);
    forall c | c in cap ensures c == (RayX(x, o, k0), RayY(y, o, k0)) {
      var k :| 0 < k < Dist(m) && b[WalkX(m, k)][WalkY(m, k)] != None && c == (WalkX(m, k), WalkY(m, k));
      WalkOnRay(r, x, y, o, s, k);
    }
    assert (WalkX(m, s - k0), WalkY(m, s - k0)) in cap;
  }

  /** The facts CaptureShape states, for a capture along a ray passing one enemy at k. */
  lemma RayCaptureShape(r: Rules, b: Grid, side: Side, x: int, y: int, o: Offset, s: int, k: int)
    requires Fits(r, b) && UnitStep(o) && Within(r, x, y) && IsFriendly(side, b[x][y]) && 1 <= k < s
    requires Within(r, RayX(x, o, s), RayY(y, o, s)) && b[RayX(x, o, s)][RayY(y, o, s)] == None
    requires Clear(r, b, x, y, o, 1, k) && Clear(r, b, x, y, o, k + 1, s) && EnemyOnRay(r, b, side, x, y, o, k)
    ensures var m := RayMove(x, y, o, s);
      WellFormed(r, m) && m.fromX != m.toX && |CapturedCells(r, b, m)| == 1 && Captures(r, b, m)
      && forall c :: c in CapturedCells(r, b, m) ==> IsEnemy(side, b[c.0][c.1])
  {
    var m := RayMove(x, y, o, s);
    CapturedOnRay(r, b, x, y, o, s, k);
    WalkOnRay(r, x, y, o, s, 0);
    PieceCount(r, b, m);
  }

  /**
   * Every capture the generator lists is a diagonal move of a piece of the
   * side onto an empty cell that passes over exactly one piece, an enemy.
   */
  lemma CaptureShape(r: Rules, b: Grid, side: Side, m: Move)
    requires ValidRules(r) && Fits(r, b) && IsCapture(r, b, side, m)
    ensures WellFormed(r, m) && m.fromX != m.toX
    ensures IsFriendly(side, b[m.fromX][m.fromY]) && b[m.toX][m.toY] == None
    ensures |CapturedCells(r, b, m)| == 1 && Captures(r, b, m)
    ensures forall c :: c in CapturedCells(r, b, m) ==> IsEnemy(side, b[c.0][c.1])
  {
    var x, y := m.fromX, m.fromY;
    if b[x][y] == RegularOf(side) && exists o :: o in r.offsets && m == RayMove(x, y, o, 2) && RegularJump(r, b, side, x, y, o) {
      var o :| o in r.offsets && m == RayMove(x, y, o, 2) && RegularJump(r, b, side, x, y, o);
      RayCaptureShape(r, b, side, x, y, o, 2, 1);
    } else {
      var o, s :| o in r.offsets && m == RayMove(x, y, o, s) && QueenJump(r, b, side, x, y, o, s);
      var k :| 1 <= k < s && EnemyOnRay(r, b, side, x, y, o, k)
               && Clear(r, b, x, y, o, 1, k) && Clear(r, b, x, y, o, k + 1, s);
      RayCaptureShape(r, b, side, x, y, o, s, k);
    }
  }

  /** Every quiet move the generator lists is a diagonal move of a piece of the side onto an empty cell that captures nothing. */
  lemma QuietShape(r: Rules, b: Grid, side: Side, m: Move)
    requires ValidRules(r) && Fits(r, b) && IsQuiet(r, b, side, m)
    ensures WellFormed(r, m) && m.fromX != m.toX
    ensures IsFriendly(side, b[m.fromX][m.fromY]) && b[m.toX][m.toY] == None
    ensures CapturedCells(r, b, m) == {} && !Captures(r, b, m)
  {
    var x, y := m.fromX, m.fromY;
    var o, s;
    if b[x][y] == RegularOf(side) && exists o :: o in Forward(r, side) && m == RayMove(x, y, o, 1) && RegularStep(r, b, x, y, o) {
      o :| o in Forward(r, side) && m == RayMove(x, y, o, 1) && RegularStep(r, b, x, y, o);
      s := 1;
    } else {
      o, s :| o in r.offsets && m == RayMove(x, y, o, s) && QueenSlide(r, b, x, y, o, s);
    }
    WalkOnRay(r, x, y, o, s, 0);
    assert Within(r, RayX(x, o, s), RayY(y, o, s));
    forall c | c in CapturedCells(r, b, m) ensures false {
      var k :| 0 < k < Dist(m) && b[WalkX(m, k)][WalkY(m, k)] != None && c == (WalkX(m, k), WalkY(m, k));
      WalkOnRay(r, x, y, o, s, k);
    }
    PieceCount(r, b, m);
  }

  /** Every listed move is on the board and diagonal, and every listed capture removes a piece. */
  lemma GeneratedWellFormed(r: Rules, b: Grid, side: Side)
    requires ValidRules(r) && Fits(r, b)
    ensures forall m :: m in RequiredMoves(r, b, side) ==> WellFormed(r, m) && Captures(r, b, m)
    ensures forall m :: m in LegalMoves(r, b, side) ==>
              WellFormed(r, m) && IsFriendly(side, b[m.fromX][m.fromY])
  {
    RequiredExact(r, b, side);
    OptionalExact(r, b, side);
    forall m | m in RequiredMoves(r, b, side)
      ensures WellFormed(r, m) && Captures(r, b, m) && IsFriendly(side, b[m.fromX][m.fromY])
    {
      CaptureShape(r, b, side, m);
    }
    forall m | m in OptionalMoves(r, b, side) ensures WellFormed(r, m) && IsFriendly(side, b[m.fromX][m.fromY]) {
      QuietShape(r, b, side, m);
    }
  }
}
