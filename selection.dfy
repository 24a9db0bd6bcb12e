/**
 * How `Game.predict_optimal_moves` rates the recorded lines and picks one.
 *
 * Each line is replayed on the current board and rated as the searching
 * side's material divided by the opponent's; no opponent material rates as
 * infinity. The best rating seen so far starts at 0, a strictly better line
 * replaces the kept ones and an equal one joins them. One kept line is
 * chosen and cut before its first move that starts on a piece of the
 * opponent.
 */
module Selection {
  import opened Board
  import opened MoveGen
  import opened Search
  import opened MoveGenProofs

  /** A rating: an exact ratio, or the infinity of a board without opponent material. */
  datatype Rating = Finite(value: real) | Infinite

  /** The strict order of `result > best_result`. */
  predicate Above(a: Rating, c: Rating) {
    match a
    case Infinite => c.Finite?
    case Finite(x) => c.Finite? && x > c.value
  }

  /** Two ratings are equal or one is above the other. */
  lemma AboveTotal(a: Rating, c: Rating)
    ensures a == c || Above(a, c) || Above(c, a)
    ensures !(Above(a, c) && Above(c, a)) && !Above(a, a)
  {
  }

  /** The material weight of one cell for `side`: queens and regular pieces weigh differently. */
  function Weight(r: Rules, side: Side, p: Piece): (w: nat)
    ensures !IsFriendly(side, p) ==> w == 0
  {
    if !IsFriendly(side, p) then 0
    else if p == WhiteQueen || p == BlackQueen then r.queenWeight
    else r.regularWeight
  }

  /** The weights of `side` in one column. */
  function ColumnScore(r: Rules, col: seq<Piece>, side: Side): nat {
    if col == [] then 0 else Weight(r, side, col[0]) + ColumnScore(r, col[1..], side)
  }

  /** `white_score` / `black_score`: the material of `side` on the whole board. */
  function SideScore(r: Rules, b: Grid, side: Side): nat {
    if b == [] then 0 else ColumnScore(r, b[0], side) + SideScore(r, b[1..], side)
  }

  /** A column without a piece of `side` scores nothing. */
  lemma {:induction false} ColumnScoreZero(r: Rules, col: seq<Piece>, side: Side)
    requires forall y :: 0 <= y < |col| ==> !IsFriendly(side, col[y])
    ensures ColumnScore(r, col, side) == 0
    decreases |col|
  {
    if col != [] {
      ColumnScoreZero(r, col[1..], side);
    }
  }

  /** A board without a piece of `side` scores nothing for it, whatever the weights. */
  lemma {:induction false} SideScoreZero(r: Rules, b: Grid, side: Side)
    requires forall x, y :: 0 <= x < |b| && 0 <= y < |b[x]| ==> !IsFriendly(side, b[x][y])
    ensures SideScore(r, b, side) == 0
    decreases |b|
  {
    if b != [] {
      ColumnScoreZero(r, b[0], side);
      assert forall x, y :: 0 <= x < |b[1..]| && 0 <= y < |b[1..][x]| ==> b[1..][x][y] == b[x + 1][y];
      SideScoreZero(r, b[1..], side);
    }
  }

  /** The rating of a board for the searching side. */
  function Rate(r: Rules, b: Grid, side: Side): (q: Rating)
    requires side != NoSide
    ensures q.Finite? ==> q.value >= 0.0
    ensures q == Infinite <==> SideScore(r, b, Opposite(side)) == 0
  {
    var own := SideScore(r, b, side);
    var enemy := SideScore(r, b, Opposite(side));
    if enemy == 0 then Infinite else Finite(own as real / enemy as real)
  }

  /** The board after playing a line of moves in order. */
  function Replay(r: Rules, b: Grid, ms: seq<Move>): (b': Grid)
    requires Fits(r, b) && AllWellFormed(r, ms)
    ensures Fits(r, b')
    decreases |ms|
  {
    if ms == [] then b
    else Applied(r, Replay(r, b, ms[..|ms| - 1]), ms[|ms| - 1])
  }

  /** The rating of one recorded line. */
  function LineRating(r: Rules, b: Grid, side: Side, c: seq<Move>): Rating
    requires Fits(r, b) && AllWellFormed(r, c) && side != NoSide
  {
    Rate(r, Replay(r, b, c), side)
  }

  /** All lines of a list are well formed. */
  predicate AllLines(r: Rules, cs: seq<seq<Move>>) {
    forall c :: c in cs ==> AllWellFormed(r, c)
  }

  /** The rating of each line, in order. */
  function Ratings(r: Rules, b: Grid, side: Side, cs: seq<seq<Move>>): (qs: seq<Rating>)
    requires Fits(r, b) && AllLines(r, cs) && side != NoSide
    ensures |qs| == |cs|
    ensures forall i :: 0 <= i < |cs| ==> qs[i] == LineRating(r, b, side, cs[i])
  {
    seq(|cs|, i requires 0 <= i < |cs| => LineRating(r, b, side, cs[i]))
  }

  /** No rating is below zero. */
  predicate NonNegative(qs: seq<Rating>) {
    forall i :: 0 <= i < |qs| ==> qs[i].Finite? ==> qs[i].value >= 0.0
  }

  /**
   * The best rating and the kept lines after the loop has seen the lines
   * `cs`, rated `qs`, in order.
   */
  function Keep(cs: seq<seq<Move>>, qs: seq<Rating>): (p: (Rating, seq<seq<Move>>))
    requires |qs| == |cs|
    ensures forall c :: c in p.1 ==> c in cs
  {
    if cs == [] then (Finite(0.0), [])
    else
      var n := |cs| - 1;
      var prev := Keep(cs[..n], qs[..n]);
      if Above(qs[n], prev.0) then (qs[n], [cs[n]])
      else if qs[n] == prev.0 then (prev.0, prev.1 + [cs[n]])
      else prev
  }

  /** Line `i` has no rating above it. */
  predicate TopAt(qs: seq<Rating>, i: int)
    requires 0 <= i < |qs|
  {
    forall j :: 0 <= j < |qs| ==> !Above(qs[j], qs[i])
  }

  /**
   * The loop keeps exactly the lines of maximal rating: a line is kept iff it
   * was seen at a position no other position rates above; the best rating is
   * attained as soon as a line was seen.
   */
  lemma {:induction false} KeepMaximal(cs: seq<seq<Move>>, qs: seq<Rating>)
    requires |qs| == |cs| && NonNegative(qs)
    ensures var p := Keep(cs, qs);
      (forall c :: c in p.1 <==> exists i :: 0 <= i < |cs| && cs[i] == c && TopAt(qs, i)) &&
      (cs != [] <==> p.1 != [])
    decreases |cs|
  {
    if cs != [] {
      KeepInvariant(cs, qs);
      var p := Keep(cs, qs);
      forall c | c in p.1 ensures exists i :: 0 <= i < |cs| && cs[i] == c && TopAt(qs, i) {
        var i :| 0 <= i < |cs| && cs[i] == c && qs[i] == p.0;
        forall j | 0 <= j < |qs| ensures !Above(qs[j], qs[i]) {
        }
      }
      forall c | exists i :: 0 <= i < |cs| && cs[i] == c && TopAt(qs, i) ensures c in p.1 {
        var i :| 0 <= i < |cs| && cs[i] == c && TopAt(qs, i);
        var w :| 0 <= w < |cs| && qs[w] == p.0;
        assert !Above(qs[w], qs[i]);
        AboveTotal(qs[i], p.0);
      }
    }
  }

  /** What the loop maintains: the best rating bounds every seen one and is attained; kept lines are those rated best. */
  lemma {:induction false} KeepInvariant(cs: seq<seq<Move>>, qs: seq<Rating>)
    requires |qs| == |cs| && NonNegative(qs)
    ensures var p := Keep(cs, qs);
      (forall j :: 0 <= j < |qs| ==> !Above(qs[j], p.0)) &&
      (cs != [] ==> exists w :: 0 <= w < |cs| && qs[w] == p.0) &&
      (cs == [] ==> p.0 == Finite(0.0)) &&
      (forall i :: 0 <= i < |cs| && qs[i] == p.0 ==> cs[i] in p.1) &&
      (forall c :: c in p.1 ==> exists i :: 0 <= i < |cs| && cs[i] == c && qs[i] == p.0)
    decreases |cs|
  {
    if cs != [] {
      var n := |cs| - 1;
      var cs', qs' := cs[..n], qs[..n];
      assert NonNegative(qs') by {
        forall i | 0 <= i < |qs'| ensures qs'[i].Finite? ==> qs'[i].value >= 0.0 {
          assert qs'[i] == qs[i];
        }
      }
      KeepInvariant(cs', qs');
      var prev := Keep(cs', qs');
      var p := Keep(cs, qs);
      assert forall j :: 0 <= j < n ==> qs[j] == qs'[j] && cs[j] == cs'[j];
      AboveTotal(qs[n], prev.0);
      forall j | 0 <= j < |qs| ensures !Above(qs[j], p.0) {
        if j < n {
          assert qs[j] == qs'[j];
          AboveTotal(qs[j], prev.0);
        }
      }
      if Above(qs[n], prev.0) {
        assert cs[n] == p.1[0];
        forall i | 0 <= i < |cs| && qs[i] == p.0 ensures cs[i] in p.1 {
          assert i == n;
        }
      } else if qs[n] == prev.0 {
        assert cs[n] == p.1[|p.1| - 1];
        forall i | 0 <= i < |cs| && qs[i] == p.0 ensures cs[i] in p.1 {
          if i < n {
            assert qs[i] == qs'[i] && cs[i] == cs'[i];
          }
        }
        forall c | c in p.1 ensures exists i :: 0 <= i < |cs| && cs[i] == c && qs[i] == p.0 {
          if c in prev.1 {
            var i :| 0 <= i < |cs'| && cs'[i] == c && qs'[i] == prev.0;
            assert cs[i] == c && qs[i] == p.0;
          }
        }
      } else {
        forall i | 0 <= i < |cs| && qs[i] == p.0 ensures cs[i] in p.1 {
          if i < n {
            assert qs[i] == qs'[i] && cs[i] == cs'[i];
          }
        }
        forall c | c in p.1 ensures exists i :: 0 <= i < |cs| && cs[i] == c && qs[i] == p.0 {
          var i :| 0 <= i < |cs'| && cs'[i] == c && qs'[i] == prev.0;
          assert cs[i] == c && qs[i] == p.0;
        }
      }
      if n > 0 && !Above(qs[n], prev.0) {
        var w :| 0 <= w < |cs'| && qs'[w] == prev.0;
        assert qs[w] == qs'[w];
      }
    }
  }

  /** The best rating and the kept lines of `predict_optimal_moves` on board `b`. */
  function Best(r: Rules, b: Grid, side: Side, cs: seq<seq<Move>>): (Rating, seq<seq<Move>>)
    requires Fits(r, b) && AllLines(r, cs) && side != NoSide
  {
    Keep(cs, Ratings(r, b, side, cs))
  }

  /** A line of `cs` that no line of `cs` rates above. */
  predicate BestLine(r: Rules, b: Grid, side: Side, cs: seq<seq<Move>>, c: seq<Move>)
    requires Fits(r, b)
  {
    side != NoSide && AllLines(r, cs) && c in cs &&
    forall d :: d in cs ==> !Above(LineRating(r, b, side, d), LineRating(r, b, side, c))
  }

  /** The kept lines are exactly the best lines, and some line is kept when there is one. */
  lemma BestKeepsMaximal(r: Rules, b: Grid, side: Side, cs: seq<seq<Move>>)
    requires Fits(r, b) && AllLines(r, cs) && side != NoSide
    ensures forall c :: c in Best(r, b, side, cs).1 <==> BestLine(r, b, side, cs, c)
    ensures cs != [] <==> Best(r, b, side, cs).1 != []
  {
    var qs := Ratings(r, b, side, cs);
    KeepMaximal(cs, qs);
    forall c ensures c in Best(r, b, side, cs).1 <==> BestLine(r, b, side, cs, c) {
      if c in Best(r, b, side, cs).1 {
        var i :| 0 <= i < |cs| && cs[i] == c && TopAt(qs, i);
        forall d | d in cs ensures !Above(LineRating(r, b, side, d), LineRating(r, b, side, c)) {
          var j :| 0 <= j < |cs| && cs[j] == d;
          assert !Above(qs[j], qs[i]);
        }
      }
      if BestLine(r, b, side, cs, c) {
        var i :| 0 <= i < |cs| && cs[i] == c;
        forall j | 0 <= j < |qs| ensures !Above(qs[j], qs[i]) {
          assert cs[j] in cs;
        }
        assert TopAt(qs, i);
      }
    }
  }

  /**
   * A line after which the opponent has no material rates infinite, so it
   * is always among the kept lines.
   */
  lemma WinningLineKept(r: Rules, b: Grid, side: Side, cs: seq<seq<Move>>, c: seq<Move>)
    requires Fits(r, b) && AllLines(r, cs) && side != NoSide && c in cs
    requires SideScore(r, Replay(r, b, c), Opposite(side)) == 0
    ensures c in Best(r, b, side, cs).1
  {
    BestKeepsMaximal(r, b, side, cs);
  }

  /**
   * The filtering loop: the moves of the line up to, not including, the
   * first one whose origin holds a piece of the opponent on the board `b`.
   */
  function Trim(r: Rules, b: Grid, side: Side, c: seq<Move>): (t: seq<Move>)
    requires Fits(r, b) && AllWellFormed(r, c)
    ensures t <= c
    ensures forall m :: m in t ==> m in c && !IsEnemy(side, b[m.fromX][m.fromY])
    ensures |t| < |c| ==> c[|t|] in c && IsEnemy(side, b[c[|t|].fromX][c[|t|].fromY])
  {
    if c == [] then []
    else
      assert c[0] in c;
      if IsEnemy(side, b[c[0].fromX][c[0].fromY]) then []
    else [c[0]] + Trim(r, b, side, c[1..])
  }

  /** The trimmed line ends exactly at the first move that starts on an opponent piece. */
  lemma TrimFirstEnemy(r: Rules, b: Grid, side: Side, c: seq<Move>, k: nat)
    requires Fits(r, b) && AllWellFormed(r, c) && k <= |c|
    requires forall j :: 0 <= j < k ==> c[j] in c && !IsEnemy(side, b[c[j].fromX][c[j].fromY])
    requires k < |c| ==> c[k] in c && IsEnemy(side, b[c[k].fromX][c[k].fromY])
    ensures Trim(r, b, side, c) == c[..k]
  {
    var t := Trim(r, b, side, c);
    if |t| < k {
      assert false;
    } else if k < |t| {
      assert false;
    }
  }

  /**
   * `predict_optimal_moves(side)` on board `b`: the kept line at position
   * `pick` (the random choice among the tied best), trimmed; nothing when
   * there is no line.
   */
  function Chosen(r: Rules, b: Grid, side: Side, pick: nat): seq<Move>
    requires ValidRules(r) && Fits(r, b)
  {
    var cs := Candidates(r, b, side);
    if cs == [] then []
    else
      CandidatesFacts(r, b, side);
      var kept := Best(r, b, side, cs).1;
      if kept == [] then []
      else Trim(r, b, side, kept[pick % |kept|])
  }

  /** The pick among the kept lines of a non-empty list of lines that all start with a legal move. */
  lemma PickFacts(r: Rules, b: Grid, side: Side, cs: seq<seq<Move>>, pick: nat)
    requires ValidRules(r) && Fits(r, b) && AllLines(r, cs) && side != NoSide && cs != []
    requires forall c :: c in cs ==> c != [] && c[0] in LegalMoves(r, b, side)
    ensures var kept := Best(r, b, side, cs).1;
      kept != [] &&
      var t := Trim(r, b, side, kept[pick % |kept|]);
      BestLine(r, b, side, cs, kept[pick % |kept|]) && t != [] && t[0] in LegalMoves(r, b, side)
  {
    var kept := Best(r, b, side, cs).1;
    BestKeepsMaximal(r, b, side, cs);
    var c := kept[pick % |kept|];
    assert c in kept;
    GeneratedWellFormed(r, b, side);
    var m := c[0];
    assert m in LegalMoves(r, b, side);
    assert !IsEnemy(side, b[m.fromX][m.fromY]);
  }

  /**
   * The chosen turn is the trimmed form of a recorded line of maximal
   * rating; it is empty exactly when the side has no legal move (or the
   * depth limit is 0), and otherwise begins with a move `get_moves_list(side)`
   * offers.
   */
  lemma ChosenFacts(r: Rules, b: Grid, side: Side, pick: nat)
    requires ValidRules(r) && Fits(r, b)
    ensures var t := Chosen(r, b, side, pick);
      var cs := Candidates(r, b, side);
      (t != [] ==> exists c :: BestLine(r, b, side, cs, c) && t == Trim(r, b, side, c)) &&
      (t != [] <==> LegalMoves(r, b, side) != [] && 0 < r.maxDepth) &&
      (t != [] ==> t[0] in LegalMoves(r, b, side))
  {
    var cs := Candidates(r, b, side);
    CandidatesFacts(r, b, side);
    if cs != [] {
      PickFacts(r, b, side, cs, pick);
    }
  }
}
