/**
 * The computer opponent: the static evaluation of a board (evaluateBoard),
 * the depth-bounded minimax over copied boards (minimax) and the choice of
 * the move to play (findBestAIMove). Seat 2 (the computer) maximizes, seat
 * 1 minimizes; the seats always alternate, whether or not a move scored.
 */
module Search {
  import opened Wrappers
  import opened Lattice
  import opened Board
  import opened Moves

  /** How many plies the computer looks ahead, its own move included. */
  const AI_SEARCH_DEPTH: nat := 3

  // ----- evaluateBoard -----

  /** How many of `keys` name an edge of `lines` that is drawn. */
  function DrawnCount(lines: map<Key, Line>, keys: seq<Key>): (n: nat)
    ensures n <= |keys|
  {
    if keys == [] then 0
    else
      var k := keys[|keys| - 1];
      DrawnCount(lines, keys[..|keys| - 1]) + (if k in lines && lines[k].drawn then 1 else 0)
  }

  /** How many of `keys` name a drawn edge owned by seat `p`. */
  function OwnedCount(lines: map<Key, Line>, keys: seq<Key>, p: int): (n: nat)
    ensures n <= DrawnCount(lines, keys)
  {
    if keys == [] then 0
    else
      var k := keys[|keys| - 1];
      OwnedCount(lines, keys[..|keys| - 1], p) + (if k in lines && lines[k].drawn && lines[k].player == p then 1 else 0)
  }

  /** A setup: an unfilled cell one edge short of complete. */
  predicate IsSetup(lines: map<Key, Line>, t: Triangle)
  {
    !t.filled && DrawnCount(lines, t.lineKeys) == 2
  }

  /** A setup in which seat `p` owns more of the drawn edges than the other seat. */
  predicate SetupFor(lines: map<Key, Line>, t: Triangle, p: int)
  {
    IsSetup(lines, t) && OwnedCount(lines, t.lineKeys, p) > OwnedCount(lines, t.lineKeys, HUMAN + AI - p)
  }

  /** `humanScore`: filled cells whose owner is not the computer. */
  function OthersFilled(tris: seq<Triangle>): nat
  {
    if tris == [] then 0
    else
      var t := tris[|tris| - 1];
      OthersFilled(tris[..|tris| - 1]) + (if t.filled && t.player != AI then 1 else 0)
  }

  /** `aiSetups` (p = 2) and `humanSetups` (p = 1). */
  function SetupsFor(lines: map<Key, Line>, tris: seq<Triangle>, p: int): nat
  {
    if tris == [] then 0
    else
      var t := tris[|tris| - 1];
      SetupsFor(lines, tris[..|tris| - 1], p) + (if SetupFor(lines, t, p) then 1 else 0)
  }

  /** evaluateBoard: 100 per cell of the computer minus the others' cells, 10 per setup of the computer minus the human's. */
  function EvaluateBoard(lines: map<Key, Line>, tris: seq<Triangle>): int
  {
    (FilledBy(tris, AI) * 100 - OthersFilled(tris) * 100)
    + (SetupsFor(lines, tris, AI) * 10 - SetupsFor(lines, tris, HUMAN) * 10)
  }

  /**
   * What one cell contributes, read off the cell alone: +-100 once filled,
   * +-10 for a setup whose drawn edges one seat owns more of, 0 otherwise
   * (a 1-1 setup included).
   */
  function CellValue(lines: map<Key, Line>, t: Triangle): (v: int)
    ensures -100 <= v <= 100
    ensures t.filled ==> (v == 100 <==> t.player == AI) && (v == -100 <==> t.player != AI)
    ensures !t.filled ==> v in {-10, 0, 10}
    ensures !IsSetup(lines, t) && !t.filled ==> v == 0
  {
    if t.filled then (if t.player == AI then 100 else -100)
    else if IsSetup(lines, t) then
      var human, ai := OwnedCount(lines, t.lineKeys, HUMAN), OwnedCount(lines, t.lineKeys, AI);
      if human > ai then -10 else if ai > human then 10 else 0
    else 0
  }

  function CellSum(lines: map<Key, Line>, tris: seq<Triangle>): int
  {
    if tris == [] then 0 else CellSum(lines, tris[..|tris| - 1]) + CellValue(lines, tris[|tris| - 1])
  }

  /** The evaluation is the sum of the cells' own contributions. */
  lemma {:induction false} EvaluateIsCellSum(lines: map<Key, Line>, tris: seq<Triangle>)
    ensures EvaluateBoard(lines, tris) == CellSum(lines, tris)
  {
    if tris != [] {
      EvaluateIsCellSum(lines, tris[..|tris| - 1]);
    }
  }

  /** Each cell moves the evaluation by at most 100 either way. */
  lemma {:induction false} EvaluateBounds(lines: map<Key, Line>, tris: seq<Triangle>)
    ensures -100 * |tris| <= EvaluateBoard(lines, tris) <= 100 * |tris|
  {
    CellSumBounds(lines, tris);
    EvaluateIsCellSum(lines, tris);
  }

  lemma {:induction false} CellSumBounds(lines: map<Key, Line>, tris: seq<Triangle>)
    ensures -100 * |tris| <= CellSum(lines, tris) <= 100 * |tris|
  {
    if tris != [] {
      CellSumBounds(lines, tris[..|tris| - 1]);
    }
  }

  /** Every filled cell is counted once, for the computer or for the others. */
  lemma {:induction false} FilledSplit(tris: seq<Triangle>)
    ensures FilledBy(tris, AI) + OthersFilled(tris) == FilledCount(tris)
  {
    if tris != [] {
      FilledSplit(tris[..|tris| - 1]);
    }
  }

  /**
   * On a board the game reaches, the score term is exactly 100 times the
   * difference of the two seats' scores.
   */
  lemma EvaluateOnConsistent(b: Board)
    requires Consistent(b)
    ensures OthersFilled(b.triangles) == FilledBy(b.triangles, HUMAN)
    ensures EvaluateBoard(b.lines, b.triangles)
         == 100 * (FilledBy(b.triangles, AI) - FilledBy(b.triangles, HUMAN))
          + 10 * (SetupsFor(b.lines, b.triangles, AI) - SetupsFor(b.lines, b.triangles, HUMAN))
  {
    FilledSplit(b.triangles);
    ScoreConservation(b);
  }

  /** A setup is credited to at most one seat; a tie in ownership credits neither. */
  lemma SetupCredit(lines: map<Key, Line>, t: Triangle)
    ensures !(SetupFor(lines, t, AI) && SetupFor(lines, t, HUMAN))
    ensures IsSetup(lines, t) && OwnedCount(lines, t.lineKeys, HUMAN) == OwnedCount(lines, t.lineKeys, AI) ==>
      !SetupFor(lines, t, AI) && !SetupFor(lines, t, HUMAN) && CellValue(lines, t) == 0
    ensures SetupFor(lines, t, AI) <==> !t.filled && CellValue(lines, t) == 10
    ensures SetupFor(lines, t, HUMAN) <==> !t.filled && CellValue(lines, t) == -10
  {
  }

  // ----- minimax -----

  /** A value of minimax, with the -Infinity and +Infinity that seed its accumulators. */
  datatype Score = NegInf | Fin(v: int) | PosInf

  /** The strict order of the extended integers (`>` on numbers). */
  predicate Below(a: Score, b: Score)
  {
    match a
    case NegInf => !b.NegInf?
    case Fin(x) => b.PosInf? || (b.Fin? && x < b.v)
    case PosInf => false
  }

  predicate AtMost(a: Score, b: Score)
  {
    !Below(b, a)
  }

  /** `Math.max` and `Math.min` on the extended integers. */
  function MaxScore(a: Score, b: Score): (m: Score)
    ensures AtMost(a, m) && AtMost(b, m) && (m == a || m == b)
  {
    if Below(a, b) then b else a
  }

  function MinScore(a: Score, b: Score): (m: Score)
    ensures AtMost(m, a) && AtMost(m, b) && (m == a || m == b)
  {
    if Below(b, a) then b else a
  }

  /** The seat that moves when `maximizing` (the computer) or not (the human). */
  function Mover(maximizing: bool): int
  {
    if maximizing then AI else HUMAN
  }

  /** The seed of the accumulator: -Infinity for the maximizer, +Infinity for the minimizer. */
  function Seed(maximizing: bool): Score
  {
    if maximizing then NegInf else PosInf
  }

  /** One step of the accumulator: `Math.max` for the maximizer, `Math.min` for the minimizer. */
  function Combine(maximizing: bool, acc: Score, v: Score): Score
  {
    if maximizing then MaxScore(acc, v) else MinScore(acc, v)
  }

  /** `a` is at least as good as `b` for the side to move. */
  predicate NoWorse(maximizing: bool, a: Score, b: Score)
  {
    if maximizing then AtMost(b, a) else AtMost(a, b)
  }

  /**
   * minimax: the evaluation at depth 0 or when no stroke is legal; otherwise
   * the best, for the side to move, of the values of the boards its legal
   * strokes lead to, searched one ply shallower with the other side to move.
   */
  function Minimax(lens: seq<nat>, required: int, b: Board, depth: nat, maximizing: bool): Score
    decreases depth, 1
  {
    var moves := ValidMoves(lens, required, b.lines);
    if depth == 0 || |moves| == 0 then Fin(EvaluateBoard(b.lines, b.triangles))
    else Best(lens, required, b, depth, maximizing, moves, 0, Seed(maximizing))
  }

  /** The accumulator loop over `moves[i..]`; a move whose simulation fails is skipped. */
  function Best(lens: seq<nat>, required: int, b: Board, depth: nat, maximizing: bool,
                moves: seq<Move>, i: nat, acc: Score): Score
    requires 0 < depth && i <= |moves|
    decreases depth, 0, |moves| - i
  {
    if i == |moves| then acc
    else
      match SimulateMove(moves[i].segmentIds, b, Mover(maximizing))
      case None => Best(lens, required, b, depth, maximizing, moves, i + 1, acc)
      case Some(sim) =>
        var value := Minimax(lens, required, sim.board, depth - 1, !maximizing);
        Best(lens, required, b, depth, maximizing, moves, i + 1, Combine(maximizing, acc, value))
  }

  /** The value minimax sees behind move `m`: the neutral seed when its simulation fails. */
  function Child(lens: seq<nat>, required: int, b: Board, depth: nat, maximizing: bool, m: Move): Score
    requires 0 < depth
  {
    match SimulateMove(m.segmentIds, b, Mover(maximizing))
    case None => Seed(maximizing)
    case Some(sim) => Minimax(lens, required, sim.board, depth - 1, !maximizing)
  }

  lemma BestStep(lens: seq<nat>, required: int, b: Board, depth: nat, maximizing: bool,
                 moves: seq<Move>, i: nat, acc: Score)
    requires 0 < depth && i < |moves|
    ensures Best(lens, required, b, depth, maximizing, moves, i, acc)
         == Best(lens, required, b, depth, maximizing, moves, i + 1,
                 if SimulateMove(moves[i].segmentIds, b, Mover(maximizing)).None? then acc
                 else Combine(maximizing, acc, Child(lens, required, b, depth, maximizing, moves[i])))
  {
  }

  /** The accumulator step keeps the better of the two, and that is one of them. */
  lemma CombineSpec(maximizing: bool, acc: Score, v: Score)
    ensures var n := Combine(maximizing, acc, v);
      NoWorse(maximizing, n, acc) && NoWorse(maximizing, n, v) && (n == acc || n == v)
  {
  }

  lemma NoWorseTrans(maximizing: bool, a: Score, b: Score, c: Score)
    requires NoWorse(maximizing, a, b) && NoWorse(maximizing, b, c)
    ensures NoWorse(maximizing, a, c)
  {
  }

  /**
   * The accumulator loop ends with a value no worse than its seed and than
   * every child from i on, and that value is the seed or one of those children.
   */
  lemma {:induction false} BestSpec(lens: seq<nat>, required: int, b: Board, depth: nat, maximizing: bool,
                                    moves: seq<Move>, i: nat, acc: Score) returns (w: int)
    requires 0 < depth && i <= |moves|
    ensures var r := Best(lens, required, b, depth, maximizing, moves, i, acc);
      && NoWorse(maximizing, r, acc)
      && (forall j :: i <= j < |moves| ==> NoWorse(maximizing, r, Child(lens, required, b, depth, maximizing, moves[j])))
      && ((w == -1 && r == acc) || (i <= w < |moves| && r == Child(lens, required, b, depth, maximizing, moves[w])))
    decreases |moves| - i
  {
    w := -1;
    if i < |moves| {
      var next := BestNext(lens, required, b, depth, maximizing, moves, i, acc);
      w := BestSpec(lens, required, b, depth, maximizing, moves, i + 1, next);
      var r := Best(lens, required, b, depth, maximizing, moves, i + 1, next);
      var c := Child(lens, required, b, depth, maximizing, moves[i]);
      if w == -1 && next == c {
        w := i;
      }
      NoWorseTrans(maximizing, r, next, acc);
      NoWorseTrans(maximizing, r, next, c);
    }
  }

  /** One step of the loop moves the accumulator to a value no worse than it and than the child, and equal to one of them. */
  lemma BestNext(lens: seq<nat>, required: int, b: Board, depth: nat, maximizing: bool,
                 moves: seq<Move>, i: nat, acc: Score) returns (next: Score)
    requires 0 < depth && i < |moves|
    ensures Best(lens, required, b, depth, maximizing, moves, i, acc) == Best(lens, required, b, depth, maximizing, moves, i + 1, next)
    ensures var c := Child(lens, required, b, depth, maximizing, moves[i]);
      NoWorse(maximizing, next, acc) && NoWorse(maximizing, next, c) && (next == acc || next == c)
  {
    var c := Child(lens, required, b, depth, maximizing, moves[i]);
    next := if SimulateMove(moves[i].segmentIds, b, Mover(maximizing)).None? then acc else Combine(maximizing, acc, c);
    BestStep(lens, required, b, depth, maximizing, moves, i, acc);
    CombineSpec(maximizing, acc, c);
  }

  /** At a leaf (depth 0, or no legal stroke) minimax is the static evaluation. */
  lemma MinimaxLeaf(lens: seq<nat>, required: int, b: Board, depth: nat, maximizing: bool)
    requires depth == 0 || |ValidMoves(lens, required, b.lines)| == 0
    ensures Minimax(lens, required, b, depth, maximizing) == Fin(EvaluateBoard(b.lines, b.triangles))
  {
  }

  /**
   * Below the leaves, minimax is the maximum (computer to move) or the
   * minimum (human to move) of the children's values, and some legal stroke
   * attains it.
   */
  lemma MinimaxChoice(lens: seq<nat>, required: int, b: Board, depth: nat, maximizing: bool) returns (best: Move)
    requires 0 < depth && |ValidMoves(lens, required, b.lines)| > 0
    ensures var r, moves := Minimax(lens, required, b, depth, maximizing), ValidMoves(lens, required, b.lines);
      && (forall m :: m in moves ==> NoWorse(maximizing, r, Child(lens, required, b, depth, maximizing, m)))
      && best in moves && r == Child(lens, required, b, depth, maximizing, best)
  {
    var moves := ValidMoves(lens, required, b.lines);
    var w := BestSpec(lens, required, b, depth, maximizing, moves, 0, Seed(maximizing));
    var r := Minimax(lens, required, b, depth, maximizing);
    forall m | m in moves
      ensures NoWorse(maximizing, r, Child(lens, required, b, depth, maximizing, m))
    {
      var j :| 0 <= j < |moves| && moves[j] == m;
    }
    if w == -1 {
      best := moves[0];
      assert NoWorse(maximizing, r, Child(lens, required, b, depth, maximizing, best));
    } else {
      best := moves[w];
    }
  }

  /**
   * Minimax is always a finite number: every legal stroke simulates, so the
   * infinite seeds never survive a non-empty loop.
   */
  lemma {:induction false} MinimaxFinite(lens: seq<nat>, required: int, b: Board, depth: nat, maximizing: bool)
    ensures Minimax(lens, required, b, depth, maximizing).Fin?
    decreases depth
  {
    var moves := ValidMoves(lens, required, b.lines);
    if depth > 0 && |moves| > 0 {
      var m := MinimaxChoice(lens, required, b, depth, maximizing);
      ValidMovesSimulate(lens, required, b, m, Mover(maximizing));
      var sim := SimulateMove(m.segmentIds, b, Mover(maximizing)).value;
      MinimaxFinite(lens, required, sim.board, depth - 1, !maximizing);
    }
  }

  /**
   * minimax as the source runs it: list the legal strokes, then the
   * accumulator loop over them, each child searched by a recursive call.
   */
  method MinimaxSearch(lens: seq<nat>, required: int, b: Board, depth: nat, maximizing: bool) returns (value: Score)
    ensures value == Minimax(lens, required, b, depth, maximizing)
    decreases depth, 1
  {
    var allMoves := FindAllValidMoves(lens, required, b.lines);
    if depth == 0 || |allMoves| == 0 {
      return Fin(EvaluateBoard(b.lines, b.triangles));
    }
    value := Seed(maximizing);
    var i := 0;
    while i < |allMoves|
      invariant 0 <= i <= |allMoves|
      invariant Best(lens, required, b, depth, maximizing, allMoves, i, value) == Minimax(lens, required, b, depth, maximizing)
    {
      BestStep(lens, required, b, depth, maximizing, allMoves, i, value);
      value := SearchChild(lens, required, b, depth, maximizing, allMoves[i], value);
      i := i + 1;
    }
  }

  /** One iteration of the accumulator loop: skip a move that does not simulate, else fold in its child's value. */
  method SearchChild(lens: seq<nat>, required: int, b: Board, depth: nat, maximizing: bool, m: Move, acc: Score)
    returns (next: Score)
    requires 0 < depth
    ensures next == if SimulateMove(m.segmentIds, b, Mover(maximizing)).None? then acc
                    else Combine(maximizing, acc, Child(lens, required, b, depth, maximizing, m))
    decreases depth, 0
  {
    next := acc;
    var sim := SimulateMove(m.segmentIds, b, Mover(maximizing));
    if sim.Some? {
      var value := MinimaxSearch(lens, required, sim.value.board, depth - 1, !maximizing);
      next := Combine(maximizing, acc, value);
    }
  }

  // ----- findBestAIMove -----

  /** The value findBestAIMove gives stroke `m`: the human's best reply searched AI_SEARCH_DEPTH - 1 plies. */
  function RootValue(lens: seq<nat>, required: int, b: Board, m: Move): Score
  {
    match SimulateMove(m.segmentIds, b, AI)
    case None => NegInf
    case Some(sim) => Minimax(lens, required, sim.board, AI_SEARCH_DEPTH - 1, false)
  }

  /** The values of the strokes of `order`, in order. */
  function RootValues(lens: seq<nat>, required: int, b: Board, order: seq<Move>): (vals: seq<Score>)
    ensures |vals| == |order|
  {
    seq(|order|, j requires 0 <= j < |order| => RootValue(lens, required, b, order[j]))
  }

  /**
   * Among vals[..k], vals[at] is the first strictly greatest: every value
   * before it is smaller, none after it is greater.
   */
  predicate Leads(vals: seq<Score>, at: int, k: int)
  {
    && 0 <= at < k <= |vals|
    && (forall j :: 0 <= j < at ==> Below(vals[j], vals[at]))
    && (forall j :: at < j < k ==> AtMost(vals[j], vals[at]))
  }

  /** order[i] is the first stroke of `order` whose value is strictly greatest. */
  predicate FirstBest(lens: seq<nat>, required: int, b: Board, order: seq<Move>, i: int)
  {
    Leads(RootValues(lens, required, b, order), i, |order|)
  }

  /**
   * findBestAIMove: nothing when no stroke is legal; otherwise the first
   * stroke, in the given order (a shuffle of the legal strokes), whose value
   * is strictly greater than every value before it and at least every value
   * after it; so no legal stroke is worth more.
   */
  method FindBestAIMove(lens: seq<nat>, required: int, b: Board, order: seq<Move>) returns (best: Option<Move>)
    requires multiset(order) == multiset(ValidMoves(lens, required, b.lines))
    ensures best.None? <==> |ValidMoves(lens, required, b.lines)| == 0
    ensures best.Some? ==> exists i :: FirstBest(lens, required, b, order, i) && order[i] == best.value
    ensures best.Some? ==> best.value in ValidMoves(lens, required, b.lines)
    ensures best.Some? ==> forall m :: m in ValidMoves(lens, required, b.lines) ==>
      AtMost(RootValue(lens, required, b, m), RootValue(lens, required, b, best.value))
  {
    var allMoves := FindAllValidMoves(lens, required, b.lines);
    if |allMoves| == 0 {
      return None;
    }
    ghost var vals := RootValues(lens, required, b, order);
    PermutationSize(order, allMoves);
    FirstSearched(lens, required, b, order);
    best := None;
    var bestValue := NegInf;
    ghost var at := -1;
    var k := 0;
    while k < |order|
      invariant 0 <= k <= |order|
      invariant best.None? <==> k == 0
      invariant best.None? ==> bestValue == NegInf
      invariant best.Some? ==> Leads(vals, at, k) && order[at] == best.value && bestValue == vals[at]
    {
      var moveValue := RootStep(lens, required, b, order, k);
      if Below(bestValue, moveValue) {
        if best.Some? {
          LeadsReplace(vals, at, k);
        }
        bestValue, best := moveValue, Some(order[k]);
        at := k;
      } else {
        LeadsKeep(vals, at, k);
      }
      k := k + 1;
    }
    OrderHasAll(lens, required, b, order, at);
  }

  /** One iteration: simulate the computer's stroke and search the human's replies. */
  method RootStep(lens: seq<nat>, required: int, b: Board, order: seq<Move>, k: int) returns (value: Score)
    requires 0 <= k < |order|
    ensures value == RootValues(lens, required, b, order)[k]
  {
    var sim := SimulateMove(order[k].segmentIds, b, AI);
    if sim.None? {
      return NegInf;
    }
    value := MinimaxSearch(lens, required, sim.value.board, AI_SEARCH_DEPTH - 1, false);
  }

  /** A strictly greater value takes the lead. */
  lemma LeadsReplace(vals: seq<Score>, at: int, k: int)
    requires Leads(vals, at, k) && k < |vals| && Below(vals[at], vals[k])
    ensures Leads(vals, k, k + 1)
  {
    forall j | 0 <= j < k
      ensures Below(vals[j], vals[k])
    {
      if j != at {
        assert Below(vals[j], vals[at]) || AtMost(vals[j], vals[at]);
      }
    }
  }

  /** A value that is not strictly greater leaves the lead where it is. */
  lemma LeadsKeep(vals: seq<Score>, at: int, k: int)
    requires Leads(vals, at, k) && k < |vals| && !Below(vals[at], vals[k])
    ensures Leads(vals, at, k + 1)
  {
  }

  /** The leader is at least every value. */
  lemma LeadsBeats(vals: seq<Score>, i: int, j: int)
    requires Leads(vals, i, |vals|) && 0 <= j < |vals|
    ensures AtMost(vals[j], vals[i])
  {
    if j < i {
      assert Below(vals[j], vals[i]);
    }
  }

  /** Every stroke of the order is legal, so each has a finite value. */
  lemma FirstSearched(lens: seq<nat>, required: int, b: Board, order: seq<Move>)
    requires multiset(order) == multiset(ValidMoves(lens, required, b.lines))
    ensures forall j :: 0 <= j < |order| ==> RootValues(lens, required, b, order)[j].Fin?
  {
    forall j | 0 <= j < |order|
      ensures RootValues(lens, required, b, order)[j].Fin?
    {
      PermutationMember(order, ValidMoves(lens, required, b.lines), order[j]);
      RootValueFinite(lens, required, b, order[j]);
    }
  }

  lemma RootValueFinite(lens: seq<nat>, required: int, b: Board, m: Move)
    requires m in ValidMoves(lens, required, b.lines)
    ensures RootValue(lens, required, b, m).Fin?
  {
    ValidMovesSimulate(lens, required, b, m, AI);
    var sim := SimulateMove(m.segmentIds, b, AI).value;
    MinimaxFinite(lens, required, sim.board, AI_SEARCH_DEPTH - 1, false);
  }

  /** The first strictly greatest stroke of a shuffle of the legal strokes is legal and no legal stroke beats it. */
  lemma OrderHasAll(lens: seq<nat>, required: int, b: Board, order: seq<Move>, i: int)
    requires multiset(order) == multiset(ValidMoves(lens, required, b.lines))
    requires FirstBest(lens, required, b, order, i)
    ensures order[i] in ValidMoves(lens, required, b.lines)
    ensures forall m :: m in ValidMoves(lens, required, b.lines) ==>
      AtMost(RootValue(lens, required, b, m), RootValue(lens, required, b, order[i]))
  {
    var all := ValidMoves(lens, required, b.lines);
    var vals := RootValues(lens, required, b, order);
    PermutationMember(order, all, order[i]);
    forall m | m in all
      ensures AtMost(RootValue(lens, required, b, m), RootValue(lens, required, b, order[i]))
    {
      var j := PermutationIndex(order, all, m);
      LeadsBeats(vals, i, j);
    }
  }

  lemma PermutationSize(order: seq<Move>, all: seq<Move>)
    requires multiset(order) == multiset(all)
    ensures |order| == |all|
  {
    assert |multiset(order)| == |multiset(all)|;
  }

  lemma PermutationMember(order: seq<Move>, all: seq<Move>, m: Move)
    requires multiset(order) == multiset(all) && m in order
    ensures m in all
  {
    assert m in multiset(order);
  }

  lemma PermutationIndex(order: seq<Move>, all: seq<Move>, m: Move) returns (j: int)
    requires multiset(order) == multiset(all) && m in all
    ensures 0 <= j < |order| && order[j] == m
  {
    assert m in multiset(all);
    assert m in order;
    j :| 0 <= j < |order| && order[j] == m;
  }
}
