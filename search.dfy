/**
 * The look-ahead of `Game.get_predicted_moves_list` as functions over a grid.
 *
 * The game tries every move of the side to move on a scratch copy of the
 * board. A move that captured and leaves the moved piece with a further
 * capture is continued by the same side at the same depth, restricted to
 * that piece's captures; any other move hands the turn to the opponent one
 * level deeper. Every line of play reached this way is recorded, in the
 * order the depth-first search reaches it. The list the game threads
 * through the recursion is the accumulator `acc`; the line being extended
 * is `cur`; the forced continuations are `req`.
 */
module Search {
  import opened Board
  import opened MoveGen
  import opened MoveEffects
  import opened MoveGenProofs

  /** Every move of the line is on the board and diagonal. */
  predicate AllWellFormed(r: Rules, ms: seq<Move>) {
    forall m :: m in ms ==> WellFormed(r, m)
  }

  /** Every recorded line is a non-empty line of well-formed moves. */
  predicate Shaped(r: Rules, cs: seq<seq<Move>>) {
    forall c :: c in cs ==> c != [] && AllWellFormed(r, c)
  }

  /** Every non-empty prefix of a recorded line is recorded too. */
  predicate PrefixClosed(cs: seq<seq<Move>>) {
    forall c, k :: c in cs && 0 < k <= |c| ==> c[..k] in cs
  }

  /** Search levels still allowed below `depth`. */
  function Fuel(r: Rules, depth: nat): nat {
    if depth < r.maxDepth then r.maxDepth - depth else 0
  }

  /** The moves explored from a node: the forced continuations if any, else every legal move. */
  function Choices(r: Rules, b: Grid, side: Side, req: seq<Move>): seq<Move>
    requires Fits(r, b)
  {
    if req != [] then req else LegalMoves(r, b, side)
  }

  /** One call of `get_predicted_moves_list`: the recorded lines after it returns. */
  function Predicted(r: Rules, b: Grid, side: Side, depth: nat,
                     acc: seq<seq<Move>>, cur: seq<Move>, req: seq<Move>): seq<seq<Move>>
    requires ValidRules(r) && Fits(r, b) && AllWellFormed(r, req)
    decreases Fuel(r, depth), |Occupied(b)|, 2, 0
  {
    var start := if cur != [] then acc + [cur] else [];
    var moves := Choices(r, b, side, req);
    if moves != [] && depth < r.maxDepth then
      GeneratedWellFormed(r, b, side);
      Explore(r, b, side, depth, start, cur, moves, 0)
    else
      start
  }

  /** The loop over `moves[i..]` of one call: play each move, recurse, restore. */
  function Explore(r: Rules, b: Grid, side: Side, depth: nat,
                   acc: seq<seq<Move>>, cur: seq<Move>, moves: seq<Move>, i: nat): seq<seq<Move>>
    requires ValidRules(r) && Fits(r, b) && AllWellFormed(r, moves)
    requires depth < r.maxDepth && i <= |moves|
    decreases Fuel(r, depth), |Occupied(b)|, 1, |moves| - i
  {
    if i == |moves| then acc
    else
      Explore(r, b, side, depth, Played(r, b, side, depth, acc, cur, moves[i]), cur, moves, i + 1)
  }

  /**
   * One pass of the loop: play m, then continue the capture chain with the
   * same side when m captured and the moved piece can capture again, else
   * hand over to the opponent one level deeper.
   */
  function Played(r: Rules, b: Grid, side: Side, depth: nat,
                  acc: seq<seq<Move>>, cur: seq<Move>, m: Move): seq<seq<Move>>
    requires ValidRules(r) && Fits(r, b) && WellFormed(r, m) && depth < r.maxDepth
    decreases Fuel(r, depth), |Occupied(b)|, 0, 0
  {
    var b' := Applied(r, b, m);
    var next := From(RequiredMoves(r, b', side), m.toX, m.toY);
    GeneratedWellFormed(r, b', side);
    if Captures(r, b, m) && next != [] then
      CaptureShrinks(r, b, m);
      Predicted(r, b', side, depth, acc, cur + [m], next)
    else
      Predicted(r, b', Opposite(side), depth + 1, acc, cur + [m], [])
  }

  /** The top-level call `get_predicted_moves_list(side)`. */
  function Candidates(r: Rules, b: Grid, side: Side): seq<seq<Move>>
    requires ValidRules(r) && Fits(r, b)
  {
    Predicted(r, b, side, 0, [], [], [])
  }

  /** What a call keeps of what it was given, and what it adds. */
  predicate Grows(acc: seq<seq<Move>>, res: seq<seq<Move>>, cur: seq<Move>) {
    acc <= res && PrefixClosed(res) && (cur != [] ==> cur in res)
  }

  /**
   * A call appends to the lines it was given, keeps them prefix-closed and
   * well-shaped, and records the current line itself.
   */
  lemma {:induction false} PredictedGrows(r: Rules, b: Grid, side: Side, depth: nat,
                                          acc: seq<seq<Move>>, cur: seq<Move>, req: seq<Move>)
    requires ValidRules(r) && Fits(r, b) && AllWellFormed(r, req) && AllWellFormed(r, cur)
    requires cur != [] ==> PrefixClosed(acc) && Shaped(r, acc)
    requires forall k :: 0 < k < |cur| ==> cur[..k] in acc
    ensures var res := Predicted(r, b, side, depth, acc, cur, req);
      Shaped(r, res) && PrefixClosed(res) && (cur != [] ==> Grows(acc, res, cur))
    decreases Fuel(r, depth), |Occupied(b)|, 2, 0
  {
    var start := if cur != [] then acc + [cur] else [];
    var moves := Choices(r, b, side, req);
    if cur != [] {
      forall c, k | c in start && 0 < k <= |c| ensures c[..k] in start {
        if c in acc {
          assert c[..k] in acc;
        } else if k < |cur| {
          assert c == cur && cur[..k] in acc;
        } else {
          assert c[..k] == cur;
        }
      }
      assert cur == start[|start| - 1];
    }
    if moves != [] && depth < r.maxDepth {
      GeneratedWellFormed(r, b, side);
      ExploreGrows(r, b, side, depth, start, cur, moves, 0);
    }
  }

  lemma {:induction false} ExploreGrows(r: Rules, b: Grid, side: Side, depth: nat,
                                        acc: seq<seq<Move>>, cur: seq<Move>, moves: seq<Move>, i: nat)
    requires ValidRules(r) && Fits(r, b) && AllWellFormed(r, moves)
    requires depth < r.maxDepth && i <= |moves|
    requires AllWellFormed(r, cur) && PrefixClosed(acc) && Shaped(r, acc)
    requires forall k :: 0 < k <= |cur| ==> cur[..k] in acc
    ensures var res := Explore(r, b, side, depth, acc, cur, moves, i);
      Shaped(r, res) && acc <= res && PrefixClosed(res)
    decreases Fuel(r, depth), |Occupied(b)|, 1, |moves| - i
  {
    if i < |moves| {
      var m := moves[i];
      var b' := Applied(r, b, m);
      var next := From(RequiredMoves(r, b', side), m.toX, m.toY);
      GeneratedWellFormed(r, b', side);
      var line := cur + [m];
      assert AllWellFormed(r, line);
      forall k | 0 < k < |line| ensures line[..k] in acc {
        assert line[..k] == cur[..k];
      }
      var acc';
      if Captures(r, b, m) && next != [] {
        CaptureShrinks(r, b, m);
        acc' := Predicted(r, b', side, depth, acc, line, next);
        PredictedGrows(r, b', side, depth, acc, line, next);
      } else {
        acc' := Predicted(r, b', Opposite(side), depth + 1, acc, line, []);
        PredictedGrows(r, b', Opposite(side), depth + 1, acc, line, []);
      }
      assert forall k :: 0 < k <= |cur| ==> cur[..k] in acc';
      ExploreGrows(r, b, side, depth, acc', cur, moves, i + 1);
    }
  }

  /**
   * Every line a call records is either one it was given or the current line
   * followed by one of the moves explored from this node; below the depth
   * limit each of those moves is recorded as a one-move extension.
   */
  lemma {:induction false} PredictedLines(r: Rules, b: Grid, side: Side, depth: nat,
                                          acc: seq<seq<Move>>, cur: seq<Move>, req: seq<Move>)
    requires ValidRules(r) && Fits(r, b) && AllWellFormed(r, req)
    ensures var res := Predicted(r, b, side, depth, acc, cur, req);
      var moves := Choices(r, b, side, req);
      (cur != [] ==> acc + [cur] <= res) &&
      (forall c :: c in res ==> (cur != [] && c in acc) || (cur <= c && (|c| > |cur| ==> c[|cur|] in moves))) &&
      (depth < r.maxDepth ==> forall m :: m in moves ==> cur + [m] in res)
    decreases Fuel(r, depth), |Occupied(b)|, 2, 0
  {
    var start := if cur != [] then acc + [cur] else [];
    var moves := Choices(r, b, side, req);
    if moves != [] && depth < r.maxDepth {
      GeneratedWellFormed(r, b, side);
      ExploreLines(r, b, side, depth, start, cur, moves, 0);
      var res := Predicted(r, b, side, depth, acc, cur, req);
      forall c | c in res
        ensures (cur != [] && c in acc) || (cur <= c && (|c| > |cur| ==> c[|cur|] in moves))
      {
        if c in start && !(cur != [] && c in acc) {
          assert c == cur;
        }
      }
    }
  }

  lemma {:induction false} ExploreLines(r: Rules, b: Grid, side: Side, depth: nat,
                                        acc: seq<seq<Move>>, cur: seq<Move>, moves: seq<Move>, i: nat)
    requires ValidRules(r) && Fits(r, b) && AllWellFormed(r, moves)
    requires depth < r.maxDepth && i <= |moves|
    ensures var res := Explore(r, b, side, depth, acc, cur, moves, i);
      acc <= res &&
      (forall c :: c in res ==> c in acc || (cur <= c && |c| > |cur| && c[|cur|] in moves[i..])) &&
      (forall j :: i <= j < |moves| ==> cur + [moves[j]] in res)
    decreases Fuel(r, depth), |Occupied(b)|, 1, |moves| - i
  {
    if i < |moves| {
      var m := moves[i];
      var line := cur + [m];
      var acc' := Played(r, b, side, depth, acc, cur, m);
      PlayedLines(r, b, side, depth, acc, cur, m);
      assert line in acc' by {
        assert line == (acc + [line])[|acc|];
      }
      ExploreLines(r, b, side, depth, acc', cur, moves, i + 1);
      var res := Explore(r, b, side, depth, acc, cur, moves, i);
      assert acc <= res;
      forall c | c in res ensures c in acc || (cur <= c && |c| > |cur| && c[|cur|] in moves[i..]) {
        if c in acc' && c !in acc {
          assert line <= c;
          assert c[|cur|] == line[|cur|] == m;
        }
      }
      forall j | i <= j < |moves| ensures cur + [moves[j]] in res {
        if j == i {
          assert line in acc';
        }
      }
    }
  }

  /** One pass of the loop keeps the lines it was given, records `cur + [m]`, and adds only extensions of it. */
  lemma PlayedLines(r: Rules, b: Grid, side: Side, depth: nat,
                    acc: seq<seq<Move>>, cur: seq<Move>, m: Move)
    requires ValidRules(r) && Fits(r, b) && WellFormed(r, m) && depth < r.maxDepth
    ensures var res := Played(r, b, side, depth, acc, cur, m);
      acc + [cur + [m]] <= res && forall c :: c in res ==> c in acc || cur + [m] <= c
    decreases Fuel(r, depth), |Occupied(b)|, 0, 0
  {
    var b' := Applied(r, b, m);
    var next := From(RequiredMoves(r, b', side), m.toX, m.toY);
    GeneratedWellFormed(r, b', side);
    if Captures(r, b, m) && next != [] {
      CaptureShrinks(r, b, m);
      PredictedLines(r, b', side, depth, acc, cur + [m], next);
    } else {
      PredictedLines(r, b', Opposite(side), depth + 1, acc, cur + [m], []);
    }
  }

  /** At the depth limit a call records the current line and explores nothing. */
  lemma DepthCutoff(r: Rules, b: Grid, side: Side, depth: nat,
                    acc: seq<seq<Move>>, cur: seq<Move>, req: seq<Move>)
    requires ValidRules(r) && Fits(r, b) && AllWellFormed(r, req) && r.maxDepth <= depth
    ensures var res := Predicted(r, b, side, depth, acc, cur, req);
      forall c :: c in res ==> (cur != [] && c in acc) || c == cur
  {
  }

  /**
   * The continuation rule. After move `m` the line `cur + [m]` is recorded;
   * a longer line through it goes on with a capture by the piece that just
   * moved, by the same side, when `m` captured and that piece can capture
   * again, and otherwise with a move the opponent may make on the new board.
   */
  lemma ChainRule(r: Rules, b: Grid, side: Side, depth: nat,
                  acc: seq<seq<Move>>, cur: seq<Move>, m: Move)
    requires ValidRules(r) && Fits(r, b) && WellFormed(r, m) && depth < r.maxDepth
    ensures var res := Played(r, b, side, depth, acc, cur, m);
      var line := cur + [m];
      var b' := Applied(r, b, m);
      var next := From(RequiredMoves(r, b', side), m.toX, m.toY);
      acc + [line] <= res &&
      forall c: seq<Move> :: c in res && c !in acc && |c| > |line| ==>
        line <= c &&
        if Captures(r, b, m) && next != [] then
          c[|line|] in RequiredMoves(r, b', side) && c[|line|].fromX == m.toX && c[|line|].fromY == m.toY
        else
          c[|line|] in LegalMoves(r, b', Opposite(side))
  {
    var b' := Applied(r, b, m);
    var next := From(RequiredMoves(r, b', side), m.toX, m.toY);
    GeneratedWellFormed(r, b', side);
    if Captures(r, b, m) && next != [] {
      CaptureShrinks(r, b, m);
      PredictedLines(r, b', side, depth, acc, cur + [m], next);
    } else {
      PredictedLines(r, b', Opposite(side), depth + 1, acc, cur + [m], []);
    }
  }

  /**
   * The moves `ms` are a legal play from board `b` with `side` to move and
   * `req` the forced continuations, with `fuel` search levels left (the
   * levels below the depth limit): a move is only played while a level is
   * left; it is one of the
   * choices (`req`, or the legal moves when there is none); after it the
   * same side goes on, with the same fuel, with a capture by the piece that
   * moved when the move captured and such a capture exists, and otherwise
   * the opponent moves next with one unit of fuel less.
   */
  predicate LegalPlayWithin(r: Rules, b: Grid, side: Side, req: seq<Move>, ms: seq<Move>, fuel: nat)
    requires ValidRules(r) && Fits(r, b)
    decreases |ms|
  {
    ms == [] ||
    (var m := ms[0];
     0 < fuel && m in Choices(r, b, side, req) && WellFormed(r, m) &&
     var b' := Applied(r, b, m);
     var next := From(RequiredMoves(r, b', side), m.toX, m.toY);
     if Captures(r, b, m) && next != [] then LegalPlayWithin(r, b', side, next, ms[1..], fuel)
     else LegalPlayWithin(r, b', Opposite(side), [], ms[1..], fuel - 1))
  }

  /** Every line a call records is one it was given or the current line followed by a legal play within the levels left. */
  lemma {:induction false} PredictedLegal(r: Rules, b: Grid, side: Side, depth: nat,
                                          acc: seq<seq<Move>>, cur: seq<Move>, req: seq<Move>)
    requires ValidRules(r) && Fits(r, b) && AllWellFormed(r, req)
    ensures forall c :: c in Predicted(r, b, side, depth, acc, cur, req) ==>
              c in acc || (cur <= c && LegalPlayWithin(r, b, side, req, c[|cur|..], Fuel(r, depth)))
    decreases Fuel(r, depth), |Occupied(b)|, 2, 0
  {
    var start := if cur != [] then acc + [cur] else [];
    var moves := Choices(r, b, side, req);
    assert cur[|cur|..] == [];
    if moves != [] && depth < r.maxDepth {
      GeneratedWellFormed(r, b, side);
      ExploreLegal(r, b, side, depth, start, cur, req, moves, 0);
    }
  }

  lemma {:induction false} ExploreLegal(r: Rules, b: Grid, side: Side, depth: nat,
                                        acc: seq<seq<Move>>, cur: seq<Move>, req: seq<Move>, moves: seq<Move>, i: nat)
    requires ValidRules(r) && Fits(r, b) && AllWellFormed(r, moves)
    requires depth < r.maxDepth && i <= |moves|
    requires forall j :: i <= j < |moves| ==> moves[j] in Choices(r, b, side, req)
    ensures forall c :: c in Explore(r, b, side, depth, acc, cur, moves, i) ==>
              c in acc || (cur <= c && LegalPlayWithin(r, b, side, req, c[|cur|..], Fuel(r, depth)))
    decreases Fuel(r, depth), |Occupied(b)|, 1, |moves| - i
  {
    if i < |moves| {
      var acc' := Played(r, b, side, depth, acc, cur, moves[i]);
      PlayedLegal(r, b, side, depth, acc, cur, req, moves[i]);
      ExploreLegal(r, b, side, depth, acc', cur, req, moves, i + 1);
    }
  }

  /** One pass of the loop adds only `cur` followed by a legal play that starts with `m`. */
  lemma PlayedLegal(r: Rules, b: Grid, side: Side, depth: nat,
                    acc: seq<seq<Move>>, cur: seq<Move>, req: seq<Move>, m: Move)
    requires ValidRules(r) && Fits(r, b) && WellFormed(r, m) && depth < r.maxDepth
    requires m in Choices(r, b, side, req)
    ensures forall c :: c in Played(r, b, side, depth, acc, cur, m) ==>
              c in acc || (cur <= c && LegalPlayWithin(r, b, side, req, c[|cur|..], Fuel(r, depth)))
    decreases Fuel(r, depth), |Occupied(b)|, 0, 1
  {
    if Captures(r, b, m) && From(RequiredMoves(r, Applied(r, b, m), side), m.toX, m.toY) != [] {
      ChainLegal(r, b, side, depth, acc, cur, req, m);
    } else {
      HandOverLegal(r, b, side, depth, acc, cur, req, m);
    }
  }

  /** A capture with a further capture from the landing cell: the chain goes on at the same depth. */
  lemma ChainLegal(r: Rules, b: Grid, side: Side, depth: nat,
                   acc: seq<seq<Move>>, cur: seq<Move>, req: seq<Move>, m: Move)
    requires ValidRules(r) && Fits(r, b) && WellFormed(r, m) && depth < r.maxDepth
    requires m in Choices(r, b, side, req)
    requires Captures(r, b, m) && From(RequiredMoves(r, Applied(r, b, m), side), m.toX, m.toY) != []
    ensures forall c :: c in Played(r, b, side, depth, acc, cur, m) ==>
              c in acc || (cur <= c && LegalPlayWithin(r, b, side, req, c[|cur|..], Fuel(r, depth)))
    decreases Fuel(r, depth), |Occupied(b)|, 0, 0
  {
    var b' := Applied(r, b, m);
    var next := From(RequiredMoves(r, b', side), m.toX, m.toY);
    var line := cur + [m];
    assert AllWellFormed(r, next) by {
      GeneratedWellFormed(r, b', side);
    }
    assert |Occupied(b')| < |Occupied(b)| by {
      CaptureShrinks(r, b, m);
    }
    PredictedLegal(r, b', side, depth, acc, line, next);
    forall c | c in Played(r, b, side, depth, acc, cur, m) && c !in acc
      ensures cur <= c && LegalPlayWithin(r, b, side, req, c[|cur|..], Fuel(r, depth))
    {
      assert line <= c;
      assert c[|cur|..][0] == m;
      assert c[|cur|..][1..] == c[|line|..];
    }
  }

  /** Any other move: the opponent moves next, one level deeper. */
  lemma HandOverLegal(r: Rules, b: Grid, side: Side, depth: nat,
                      acc: seq<seq<Move>>, cur: seq<Move>, req: seq<Move>, m: Move)
    requires ValidRules(r) && Fits(r, b) && WellFormed(r, m) && depth < r.maxDepth
    requires m in Choices(r, b, side, req)
    requires !(Captures(r, b, m) && From(RequiredMoves(r, Applied(r, b, m), side), m.toX, m.toY) != [])
    ensures forall c :: c in Played(r, b, side, depth, acc, cur, m) ==>
              c in acc || (cur <= c && LegalPlayWithin(r, b, side, req, c[|cur|..], Fuel(r, depth)))
    decreases Fuel(r, depth), |Occupied(b)|, 0, 0
  {
    var b' := Applied(r, b, m);
    var line := cur + [m];
    PredictedLegal(r, b', Opposite(side), depth + 1, acc, line, []);
    forall c | c in Played(r, b, side, depth, acc, cur, m) && c !in acc
      ensures cur <= c && LegalPlayWithin(r, b, side, req, c[|cur|..], Fuel(r, depth))
    {
      assert line <= c;
      assert c[|cur|..][0] == m;
      assert c[|cur|..][1..] == c[|line|..];
    }
  }

  /** A call records the current line followed by every legal play within the levels left, unless both are empty. */
  lemma {:induction false} PredictedComplete(r: Rules, b: Grid, side: Side, depth: nat,
                                             acc: seq<seq<Move>>, cur: seq<Move>, req: seq<Move>)
    requires ValidRules(r) && Fits(r, b) && AllWellFormed(r, req)
    ensures forall ms {:trigger LegalPlayWithin(r, b, side, req, ms, Fuel(r, depth))} ::
              LegalPlayWithin(r, b, side, req, ms, Fuel(r, depth)) && cur + ms != [] ==>
              cur + ms in Predicted(r, b, side, depth, acc, cur, req)
    decreases Fuel(r, depth), |Occupied(b)|, 2, 0
  {
    var start := if cur != [] then acc + [cur] else [];
    var moves := Choices(r, b, side, req);
    PredictedLines(r, b, side, depth, acc, cur, req);
    if moves != [] && depth < r.maxDepth {
      GeneratedWellFormed(r, b, side);
      ExploreComplete(r, b, side, depth, start, cur, req, moves, 0);
    }
    forall ms | LegalPlayWithin(r, b, side, req, ms, Fuel(r, depth)) && cur + ms != []
      ensures cur + ms in Predicted(r, b, side, depth, acc, cur, req)
    {
      if ms == [] {
        assert cur + ms == cur == (acc + [cur])[|acc|];
      } else {
        assert ms[0] in moves[0..];
      }
    }
  }

  lemma {:induction false} ExploreComplete(r: Rules, b: Grid, side: Side, depth: nat,
                                           acc: seq<seq<Move>>, cur: seq<Move>, req: seq<Move>, moves: seq<Move>, i: nat)
    requires ValidRules(r) && Fits(r, b) && AllWellFormed(r, moves)
    requires depth < r.maxDepth && i <= |moves|
    ensures forall ms {:trigger LegalPlayWithin(r, b, side, req, ms, Fuel(r, depth))} ::
              LegalPlayWithin(r, b, side, req, ms, Fuel(r, depth)) && ms != [] && ms[0] in moves[i..] ==>
              cur + ms in Explore(r, b, side, depth, acc, cur, moves, i)
    decreases Fuel(r, depth), |Occupied(b)|, 1, |moves| - i
  {
    if i < |moves| {
      var acc' := Played(r, b, side, depth, acc, cur, moves[i]);
      ExploreComplete(r, b, side, depth, acc', cur, req, moves, i + 1);
      ExploreLines(r, b, side, depth, acc', cur, moves, i + 1);
      forall ms | LegalPlayWithin(r, b, side, req, ms, Fuel(r, depth)) && ms != [] && ms[0] in moves[i..]
        ensures cur + ms in Explore(r, b, side, depth, acc, cur, moves, i)
      {
        if ms[0] == moves[i] {
          PlayedComplete(r, b, side, depth, acc, cur, req, moves[i], ms);
        } else {
          assert ms[0] in moves[i + 1..];
        }
      }
    }
  }

  /** One pass of the loop records `cur` followed by any legal play that starts with `m`. */
  lemma PlayedComplete(r: Rules, b: Grid, side: Side, depth: nat,
                       acc: seq<seq<Move>>, cur: seq<Move>, req: seq<Move>, m: Move, ms: seq<Move>)
    requires ValidRules(r) && Fits(r, b) && WellFormed(r, m) && depth < r.maxDepth
    requires LegalPlayWithin(r, b, side, req, ms, Fuel(r, depth)) && ms != [] && ms[0] == m
    ensures cur + ms in Played(r, b, side, depth, acc, cur, m)
    decreases Fuel(r, depth), |Occupied(b)|, 0, 1
  {
    var b' := Applied(r, b, m);
    if Captures(r, b, m) && From(RequiredMoves(r, b', side), m.toX, m.toY) != [] {
      ChainComplete(r, b, side, depth, acc, cur, req, ms);
    } else {
      HandOverComplete(r, b, side, depth, acc, cur, req, ms);
    }
  }

  /** A capture with a further capture from the landing cell: the chain goes on at the same depth. */
  lemma ChainComplete(r: Rules, b: Grid, side: Side, depth: nat,
                      acc: seq<seq<Move>>, cur: seq<Move>, req: seq<Move>, ms: seq<Move>)
    requires ValidRules(r) && Fits(r, b) && depth < r.maxDepth
    requires LegalPlayWithin(r, b, side, req, ms, Fuel(r, depth)) && ms != [] && WellFormed(r, ms[0])
    requires var m := ms[0]; Captures(r, b, m) && From(RequiredMoves(r, Applied(r, b, m), side), m.toX, m.toY) != []
    ensures cur + ms in Played(r, b, side, depth, acc, cur, ms[0])
    decreases Fuel(r, depth), |Occupied(b)|, 0, 0
  {
    var m := ms[0];
    var b' := Applied(r, b, m);
    var next := From(RequiredMoves(r, b', side), m.toX, m.toY);
    assert AllWellFormed(r, next) by {
      GeneratedWellFormed(r, b', side);
    }
    assert |Occupied(b')| < |Occupied(b)| by {
      CaptureShrinks(r, b, m);
    }
    assert LegalPlayWithin(r, b', side, next, ms[1..], Fuel(r, depth));
    PredictedComplete(r, b', side, depth, acc, cur + [m], next);
    assert cur + ms == (cur + [m]) + ms[1..];
  }

  /** Any other move: the opponent moves next, one level deeper. */
  lemma HandOverComplete(r: Rules, b: Grid, side: Side, depth: nat,
                         acc: seq<seq<Move>>, cur: seq<Move>, req: seq<Move>, ms: seq<Move>)
    requires ValidRules(r) && Fits(r, b) && depth < r.maxDepth
    requires LegalPlayWithin(r, b, side, req, ms, Fuel(r, depth)) && ms != [] && WellFormed(r, ms[0])
    requires var m := ms[0]; !(Captures(r, b, m) && From(RequiredMoves(r, Applied(r, b, m), side), m.toX, m.toY) != [])
    ensures cur + ms in Played(r, b, side, depth, acc, cur, ms[0])
    decreases Fuel(r, depth), |Occupied(b)|, 0, 0
  {
    var m := ms[0];
    var b' := Applied(r, b, m);
    assert LegalPlayWithin(r, b', Opposite(side), [], ms[1..], Fuel(r, depth + 1));
    PredictedComplete(r, b', Opposite(side), depth + 1, acc, cur + [m], []);
    assert cur + ms == (cur + [m]) + ms[1..];
  }

  /**
   * `get_predicted_moves_list(side)` returns exactly the non-empty legal
   * plays from the board, `side` moving first, in which every move is
   * played with fewer than `MAX_PREDICTION_DEPTH` hand-overs of the turn
   * before it.
   */
  lemma CandidatesLegal(r: Rules, b: Grid, side: Side)
    requires ValidRules(r) && Fits(r, b)
    ensures forall c :: c in Candidates(r, b, side) <==> c != [] && LegalPlayWithin(r, b, side, [], c, r.maxDepth)
  {
    PredictedLegal(r, b, side, 0, [], [], []);
    PredictedComplete(r, b, side, 0, [], [], []);
    PredictedGrows(r, b, side, 0, [], [], []);
    assert Fuel(r, 0) == r.maxDepth;
    forall c ensures c in Candidates(r, b, side) <==> c != [] && LegalPlayWithin(r, b, side, [], c, r.maxDepth) {
      assert c[0..] == c && [] + c == c;
    }
  }

  /**
   * What `get_predicted_moves_list(side)` returns: non-empty lines of
   * well-formed moves, closed under non-empty prefixes, each starting with a
   * move `get_moves_list(side)` offers; every offered move is itself a line
   * when the depth limit allows one level, and a side that is neither white
   * nor black has no lines.
   */
  lemma CandidatesFacts(r: Rules, b: Grid, side: Side)
    requires ValidRules(r) && Fits(r, b)
    ensures var cs := Candidates(r, b, side);
      Shaped(r, cs) && PrefixClosed(cs) &&
      (forall c :: c in cs ==> c[0] in LegalMoves(r, b, side)) &&
      (0 < r.maxDepth ==> forall m :: m in LegalMoves(r, b, side) ==> [m] in cs) &&
      (cs != [] <==> LegalMoves(r, b, side) != [] && 0 < r.maxDepth) &&
      (side == NoSide ==> cs == [])
  {
    var cs := Candidates(r, b, side);
    PredictedGrows(r, b, side, 0, [], [], []);
    PredictedLines(r, b, side, 0, [], [], []);
    assert forall m: Move {:trigger [m]} :: [] + [m] == [m];
    if LegalMoves(r, b, side) != [] && 0 < r.maxDepth {
      assert [LegalMoves(r, b, side)[0]] in cs;
    }
  }
}
