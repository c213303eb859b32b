/**
 * The per-game mutable state of the board as values, and the state mutator
 * shared by live play and by the search: trace the segments of a move, then
 * fill and score every cell whose three edges are drawn.
 */
module Board {
  import opened Lattice
  import opened Wrappers

  /** Seat 1 is the first player (the human), seat 2 the second (the computer); 0 is nobody. */
  const HUMAN: int := 1
  const AI: int := 2

  predicate IsSeat(p: int)
  {
    p == HUMAN || p == AI
  }

  /** The mutable attributes of an edge (`lines[id]`). */
  datatype Line = Line(drawn: bool, player: int, sharedBy: int)

  /** An edge as the builder creates it. */
  const Undrawn: Line := Line(false, 0, 0)

  /** A triangular cell: the keys of its three edges, and who filled it. */
  datatype Triangle = Triangle(lineKeys: seq<Key>, filled: bool, player: int)

  /** The `lines` dictionary and the `triangles` list of one game. */
  datatype Board = Board(lines: map<Key, Line>, triangles: seq<Triangle>)

  /** What simulateMove returns: the new board and the cells scored by the move. */
  datatype Sim = Sim(board: Board, scoreGained: nat)

  // ----- edges -----

  /**
   * An edge in a state the game can reach: an undrawn edge belongs to nobody;
   * a drawn one belongs to a seat; an overlay owner is a seat other than the owner.
   */
  predicate WellFormedLine(l: Line)
  {
    && (!l.drawn ==> l.player == 0 && l.sharedBy == 0)
    && (l.drawn ==> IsSeat(l.player))
    && (l.sharedBy != 0 ==> IsSeat(l.sharedBy) && l.sharedBy != l.player)
  }

  /** `actor` traces one segment over edge `l`: draw it, or overlay another seat's edge once. */
  function Overlay(l: Line, actor: int): Line
  {
    if !l.drawn then l.(drawn := true, player := actor)
    else if l.player != 0 && l.player != actor then
      (if l.sharedBy == 0 then l.(sharedBy := actor) else l)
    else l
  }

  /** Tracing the same edge twice in one move has the effect of tracing it once. */
  lemma OverlayIdempotent(l: Line, actor: int)
    ensures Overlay(Overlay(l, actor), actor) == Overlay(l, actor)
  {
  }

  /** One iteration of the segment loop: a key missing from `lines` is skipped. */
  function DrawSegment(lines: map<Key, Line>, id: Key, actor: int): map<Key, Line>
  {
    if id in lines then lines[id := Overlay(lines[id], actor)] else lines
  }

  /** The segment loop: the keys of `ids` traced in order by `actor`. */
  function DrawSegments(lines: map<Key, Line>, ids: seq<Key>, actor: int): (r: map<Key, Line>)
    ensures r.Keys == lines.Keys
    decreases |ids|
  {
    if ids == [] then lines
    else DrawSegment(DrawSegments(lines, ids[..|ids| - 1], actor), ids[|ids| - 1], actor)
  }

  /** `newSegmentDrawn`: some key of the move names an edge that is not drawn yet. */
  predicate NewSegmentDrawn(lines: map<Key, Line>, ids: seq<Key>)
  {
    exists k :: k in ids && k in lines && !lines[k].drawn
  }

  /** The order of the segments does not matter: every edge of the move is traced once. */
  lemma {:induction false} DrawSegmentsPointwise(lines: map<Key, Line>, ids: seq<Key>, actor: int)
    ensures DrawSegments(lines, ids, actor)
         == map k | k in lines :: if k in ids then Overlay(lines[k], actor) else lines[k]
    decreases |ids|
  {
    if ids != [] {
      var init, last := ids[..|ids| - 1], ids[|ids| - 1];
      DrawSegmentsPointwise(lines, init, actor);
      assert ids == init + [last];
      if last in lines {
        OverlayIdempotent(lines[last], actor);
      }
    }
  }

  /**
   * The edge update of a move, key by key: an undrawn segment becomes drawn
   * by `actor`; another seat's drawn segment gets `actor` as its overlay owner
   * if it has none; a drawn edge keeps its owner and a set overlay owner is
   * never rewritten; edges outside the move do not change.
   */
  lemma DrawSegmentsEffect(lines: map<Key, Line>, ids: seq<Key>, actor: int, k: Key)
    requires k in lines
    ensures var l, n := lines[k], DrawSegments(lines, ids, actor)[k];
      && (k !in ids ==> n == l)
      && (k in ids ==> n.drawn)
      && (k in ids && !l.drawn ==> n == Line(true, actor, l.sharedBy))
      && (l.drawn ==> n.player == l.player)
      && (k in ids && l.drawn && l.player != 0 && l.player != actor && l.sharedBy == 0 ==>
            n == l.(sharedBy := actor))
      && (l.drawn && (l.sharedBy != 0 || l.player == 0 || l.player == actor) ==> n == l)
  {
    DrawSegmentsPointwise(lines, ids, actor);
  }

  /**
   * One more iteration of the segment loop: the next key is traced, and a
   * new segment has been drawn once one was drawn before or the next key
   * names an edge still undrawn at that point.
   */
  lemma DrawSegmentsStep(lines: map<Key, Line>, ids: seq<Key>, i: int, actor: int)
    requires 0 <= i < |ids|
    ensures DrawSegments(lines, ids[..i + 1], actor) == DrawSegment(DrawSegments(lines, ids[..i], actor), ids[i], actor)
    ensures var current := DrawSegments(lines, ids[..i], actor);
      NewSegmentDrawn(lines, ids[..i + 1]) <==>
        NewSegmentDrawn(lines, ids[..i]) || (ids[i] in current && !current[ids[i]].drawn)
  {
    assert ids[..i + 1][..i] == ids[..i];
    var id := ids[i];
    if id in lines {
      DrawSegmentsEffect(lines, ids[..i], actor, id);
      if !lines[id].drawn {
        assert id in ids[..i + 1];
      }
    }
    if NewSegmentDrawn(lines, ids[..i + 1]) && !NewSegmentDrawn(lines, ids[..i]) {
      var k :| k in ids[..i + 1] && k in lines && !lines[k].drawn;
      assert k !in ids[..i];
      DrawSegmentsEffect(lines, ids[..i], actor, k);
    }
  }

  /** The edges not drawn yet. */
  function UndrawnKeys(lines: map<Key, Line>): set<Key>
  {
    set k | k in lines && !lines[k].drawn
  }

  /**
   * Progress: a move that draws a new segment strictly shrinks the set of
   * undrawn edges, so the strokes that draw something number at most the
   * edges. This does not make every game end: a stroke is only legal at the
   * required length, and an edge no such stroke covers is never drawn.
   */
  lemma DrawingProgress(lines: map<Key, Line>, ids: seq<Key>, actor: int)
    requires NewSegmentDrawn(lines, ids)
    ensures UndrawnKeys(DrawSegments(lines, ids, actor)) < UndrawnKeys(lines)
    ensures |UndrawnKeys(DrawSegments(lines, ids, actor))| < |UndrawnKeys(lines)|
  {
    var n := DrawSegments(lines, ids, actor);
    DrawSegmentsPointwise(lines, ids, actor);
    var k :| k in ids && k in lines && !lines[k].drawn;
    assert k in UndrawnKeys(lines) && k !in UndrawnKeys(n);
    assert UndrawnKeys(n) <= UndrawnKeys(lines);
    SmallerSet(UndrawnKeys(n), UndrawnKeys(lines), k);
  }

  lemma SmallerSet(a: set<Key>, b: set<Key>, k: Key)
    requires a <= b && k in b && k !in a
    ensures |a| < |b|
  {
    var rest := b - a;
    assert b == a + rest;
    assert a * rest == {};
    assert k in rest;
  }

  /** Tracing a move by a seat keeps every edge well formed. */
  lemma DrawSegmentsWellFormed(lines: map<Key, Line>, ids: seq<Key>, actor: int)
    requires IsSeat(actor)
    requires forall k :: k in lines ==> WellFormedLine(lines[k])
    ensures var n := DrawSegments(lines, ids, actor);
      forall k :: k in n ==> WellFormedLine(n[k])
  {
    DrawSegmentsPointwise(lines, ids, actor);
  }

  // ----- cells -----

  /** Every edge of the cell exists and is drawn (`lineKeys.every(...)`). */
  predicate Complete(lines: map<Key, Line>, t: Triangle)
  {
    forall k :: k in t.lineKeys ==> k in lines && lines[k].drawn
  }

  /** One iteration of the scoring loop. */
  function FillTriangle(lines: map<Key, Line>, t: Triangle, actor: int): Triangle
  {
    if !t.filled && Complete(lines, t) then t.(filled := true, player := actor) else t
  }

  /** The scoring loop over all cells. */
  function FillTriangles(lines: map<Key, Line>, tris: seq<Triangle>, actor: int): (r: seq<Triangle>)
    ensures |r| == |tris|
  {
    seq(|tris|, i requires 0 <= i < |tris| => FillTriangle(lines, tris[i], actor))
  }

  /** `scoreGained`: the cells not yet filled whose three edges are drawn. */
  function Gained(lines: map<Key, Line>, tris: seq<Triangle>): nat
  {
    if tris == [] then 0
    else
      var t := tris[|tris| - 1];
      Gained(lines, tris[..|tris| - 1]) + (if !t.filled && Complete(lines, t) then 1 else 0)
  }

  /** The number of filled cells. */
  function FilledCount(tris: seq<Triangle>): nat
  {
    if tris == [] then 0
    else FilledCount(tris[..|tris| - 1]) + (if tris[|tris| - 1].filled then 1 else 0)
  }

  /** The number of cells filled by seat `p`. */
  function FilledBy(tris: seq<Triangle>, p: int): nat
  {
    if tris == [] then 0
    else
      var t := tris[|tris| - 1];
      FilledBy(tris[..|tris| - 1], p) + (if t.filled && t.player == p then 1 else 0)
  }

  /**
   * After scoring, no cell is left unfilled with all edges drawn; filled cells
   * keep their owner; each newly filled cell belongs to `actor`; the edges of
   * a cell never change.
   */
  lemma FillTrianglesEffect(lines: map<Key, Line>, tris: seq<Triangle>, actor: int, i: int)
    requires 0 <= i < |tris|
    ensures var t, n := tris[i], FillTriangles(lines, tris, actor)[i];
      && n.lineKeys == t.lineKeys
      && (n.filled <==> t.filled || Complete(lines, t))
      && (t.filled ==> n == t)
      && (!t.filled && n.filled ==> n.player == actor)
      && (!n.filled ==> n == t)
  {
  }

  /**
   * Each newly filled cell adds exactly one to the actor's tally and to the
   * number of filled cells; the other seats' tallies do not move.
   */
  lemma {:induction false} GainedCountsNewCells(lines: map<Key, Line>, tris: seq<Triangle>, actor: int, q: int)
    ensures var n := FillTriangles(lines, tris, actor);
      && FilledCount(n) == FilledCount(tris) + Gained(lines, tris)
      && FilledBy(n, actor) == FilledBy(tris, actor) + Gained(lines, tris)
      && (q != actor ==> FilledBy(n, q) == FilledBy(tris, q))
    decreases |tris|
  {
    if tris != [] {
      var init := tris[..|tris| - 1];
      GainedCountsNewCells(lines, init, actor, q);
      var n := FillTriangles(lines, tris, actor);
      assert n[..|n| - 1] == FillTriangles(lines, init, actor);
    }
  }

  // ----- the whole move -----

  /**
   * simulateMove: trace `ids` for `actor`, then fill and count the completed
   * cells. `None` when no segment of the move was undrawn.
   */
  function SimulateMove(ids: seq<Key>, b: Board, actor: int): (r: Option<Sim>)
    ensures r.None? <==> !NewSegmentDrawn(b.lines, ids)
    ensures r.Some? ==> r.value.board.lines.Keys == b.lines.Keys
    ensures r.Some? ==> |r.value.board.triangles| == |b.triangles|
  {
    var lines := DrawSegments(b.lines, ids, actor);
    if !NewSegmentDrawn(b.lines, ids) then None
    else Some(Sim(Board(lines, FillTriangles(lines, b.triangles, actor)), Gained(lines, b.triangles)))
  }

  /**
   * The invariant of every board the game reaches: edges are well formed,
   * every edge of a cell exists, a cell is filled exactly when its three
   * edges are drawn, and a filled cell belongs to a seat.
   */
  ghost predicate Consistent(b: Board)
  {
    && (forall k :: k in b.lines ==> WellFormedLine(b.lines[k]))
    && (forall i :: 0 <= i < |b.triangles| ==> CellOk(b.lines, b.triangles[i]))
  }

  predicate CellOk(lines: map<Key, Line>, t: Triangle)
  {
    && (forall k :: k in t.lineKeys ==> k in lines)
    && (t.filled <==> Complete(lines, t))
    && (if t.filled then IsSeat(t.player) else t.player == 0)
  }

  /** The keys of the sides of all cells. */
  function CellKeys(tris: seq<Triangle>): set<Key>
  {
    if tris == [] then {} else CellKeys(tris[..|tris| - 1]) + Sides(tris[|tris| - 1].lineKeys)
  }

  function Sides(ks: seq<Key>): set<Key>
  {
    set k | k in ks
  }

  /** A key is a side of the list exactly when it is a side of one of its cells. */
  lemma {:induction false} CellKeysSpec(tris: seq<Triangle>, k: Key)
    ensures k in CellKeys(tris) <==> exists i :: 0 <= i < |tris| && k in tris[i].lineKeys
  {
    if tris != [] {
      var init := tris[..|tris| - 1];
      CellKeysSpec(init, k);
      if k in CellKeys(init) {
        var i :| 0 <= i < |init| && k in init[i].lineKeys;
        assert tris[i] == init[i];
      }
      if exists i :: 0 <= i < |tris| && k in tris[i].lineKeys {
        var i :| 0 <= i < |tris| && k in tris[i].lineKeys;
        if i < |init| {
          assert init[i] == tris[i];
        }
      }
    }
  }

  /** Lists whose cells have the same sides, cell by cell, have the same side keys. */
  lemma {:induction false} CellKeysSameSides(s: seq<Triangle>, t: seq<Triangle>)
    requires |s| == |t| && forall i :: 0 <= i < |s| ==> s[i].lineKeys == t[i].lineKeys
    ensures CellKeys(s) == CellKeys(t)
  {
    if s != [] {
      CellKeysSameSides(s[..|s| - 1], t[..|t| - 1]);
    }
  }

  /** Every edge is a side of some cell. */
  ghost predicate Covered(b: Board)
  {
    b.lines.Keys <= CellKeys(b.triangles)
  }

  /** A move changes neither the edge keys nor any cell's sides, so it keeps every edge on a cell. */
  lemma SimulatePreservesCovered(ids: seq<Key>, b: Board, actor: int)
    requires Covered(b)
    requires SimulateMove(ids, b, actor).Some?
    ensures Covered(SimulateMove(ids, b, actor).value.board)
  {
    var n := SimulateMove(ids, b, actor).value.board;
    forall i | 0 <= i < |b.triangles| ensures n.triangles[i].lineKeys == b.triangles[i].lineKeys {
      FillTrianglesEffect(n.lines, b.triangles, actor, i);
    }
    CellKeysSameSides(n.triangles, b.triangles);
  }

  /** At most every cell is filled, and all of them exactly when each one is. */
  lemma {:induction false} FilledCountBound(tris: seq<Triangle>)
    ensures FilledCount(tris) <= |tris|
    ensures FilledCount(tris) == |tris| <==> forall i :: 0 <= i < |tris| ==> tris[i].filled
  {
    if tris != [] {
      var init := tris[..|tris| - 1];
      FilledCountBound(init);
      assert forall i :: 0 <= i < |init| ==> init[i] == tris[i];
    }
  }

  /**
   * When every cell is filled on a consistent board whose edges all lie on
   * cells, every edge is drawn: nothing is left for a move to draw.
   */
  lemma FullBoardAllDrawn(b: Board)
    requires Consistent(b) && Covered(b)
    requires FilledCount(b.triangles) == |b.triangles|
    ensures forall k :: k in b.lines ==> b.lines[k].drawn
    ensures UndrawnKeys(b.lines) == {}
  {
    FilledCountBound(b.triangles);
    forall k | k in b.lines ensures b.lines[k].drawn {
      CellKeysSpec(b.triangles, k);
      var i :| 0 <= i < |b.triangles| && k in b.triangles[i].lineKeys;
      assert CellOk(b.lines, b.triangles[i]);
    }
  }

  /** A move by a seat keeps the board consistent. */
  lemma SimulatePreservesConsistent(ids: seq<Key>, b: Board, actor: int)
    requires Consistent(b) && IsSeat(actor)
    requires SimulateMove(ids, b, actor).Some?
    ensures Consistent(SimulateMove(ids, b, actor).value.board)
  {
    var lines := DrawSegments(b.lines, ids, actor);
    DrawSegmentsPointwise(b.lines, ids, actor);
    var n := SimulateMove(ids, b, actor).value.board;
    forall i | 0 <= i < |n.triangles|
      ensures CellOk(n.lines, n.triangles[i])
    {
      var t := b.triangles[i];
      assert CellOk(b.lines, t);
      if t.filled {
        forall k | k in t.lineKeys ensures k in lines && lines[k].drawn {
          assert k in b.lines && b.lines[k].drawn;
        }
      }
    }
  }

  /**
   * A cell is filled at the instant its last edge is drawn: on a consistent
   * board, a cell the move fills has an edge that the move drew.
   */
  lemma NewCellNeedsNewEdge(ids: seq<Key>, b: Board, actor: int, i: int)
    requires Consistent(b)
    requires SimulateMove(ids, b, actor).Some?
    requires 0 <= i < |b.triangles|
    requires !b.triangles[i].filled && SimulateMove(ids, b, actor).value.board.triangles[i].filled
    ensures exists k :: k in b.triangles[i].lineKeys && k in ids && !b.lines[k].drawn
  {
    var t := b.triangles[i];
    assert CellOk(b.lines, t);
    DrawSegmentsPointwise(b.lines, ids, actor);
    var lines := DrawSegments(b.lines, ids, actor);
    assert Complete(lines, t);
    var k :| k in t.lineKeys && !(k in b.lines && b.lines[k].drawn);
    assert k in lines && lines[k].drawn;
  }

  /** On a consistent board, the two seats' cells together are all the filled cells. */
  lemma {:induction false} ScoreConservation(b: Board)
    requires Consistent(b)
    ensures FilledBy(b.triangles, HUMAN) + FilledBy(b.triangles, AI) == FilledCount(b.triangles)
    decreases |b.triangles|
  {
    if b.triangles != [] {
      var init := b.triangles[..|b.triangles| - 1];
      assert CellOk(b.lines, b.triangles[|b.triangles| - 1]);
      ScoreConservation(Board(b.lines, init));
    }
  }
}
