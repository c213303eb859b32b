/**
 * The move resolver: the dots a straight stroke between two dots passes
 * through (findIntermediateDots), the legality test of a stroke
 * (isValidPreviewLine) and the list of every legal stroke
 * (findAllValidMoves). All geometry is on the integer coordinates of
 * module Lattice: the angle test becomes "horizontal or |dX| == |dY|", the
 * collinearity test an integer cross product equal to zero, the widened
 * bounding box an inclusive range and the sort an order on (X, Y).
 */
module Moves {
  import opened Lattice
  import opened Board
  import Builder

  // ----- findIntermediateDots -----

  function Min(a: int, b: int): int { if a <= b then a else b }
  function Max(a: int, b: int): int { if a <= b then b else a }

  /** `p` lies in the bounding box of `a` and `b` and on the straight line through them. */
  predicate OnSegment(lens: seq<nat>, a: Point, b: Point, p: Point)
  {
    var xa, ya, xb, yb, xp, yp := X(lens, a), Y(a), X(lens, b), Y(b), X(lens, p), Y(p);
    && Min(xa, xb) <= xp <= Max(xa, xb)
    && Min(ya, yb) <= yp <= Max(ya, yb)
    && (yb - ya) * (xp - xb) - (yp - yb) * (xb - xa) == 0
  }

  /** The dots of `ds`, in order, that lie on the segment from `a` to `b`. */
  function FilterOnSegment(lens: seq<nat>, a: Point, b: Point, ds: seq<Point>): seq<Point>
  {
    if ds == [] then []
    else (if OnSegment(lens, a, b, ds[0]) then [ds[0]] else []) + FilterOnSegment(lens, a, b, ds[1..])
  }

  /** The filter keeps exactly the dots on the segment and repeats none. */
  lemma {:induction false} FilterOnSegmentSpec(lens: seq<nat>, a: Point, b: Point, ds: seq<Point>)
    ensures var r := FilterOnSegment(lens, a, b, ds);
      && (forall p :: p in r <==> p in ds && OnSegment(lens, a, b, p))
      && ((forall i, j :: 0 <= i < j < |ds| ==> ds[i] != ds[j]) ==> forall i, j :: 0 <= i < j < |r| ==> r[i] != r[j])
  {
    if ds != [] {
      FilterOnSegmentSpec(lens, a, b, ds[1..]);
      assert ds == [ds[0]] + ds[1..];
      if forall i, j :: 0 <= i < j < |ds| ==> ds[i] != ds[j] {
        assert ds[0] !in ds[1..];
      }
    }
  }

  /** The sort comparator: by X, then by Y. */
  predicate NotAfter(lens: seq<nat>, p: Point, q: Point)
  {
    X(lens, p) < X(lens, q) || (X(lens, p) == X(lens, q) && Y(p) <= Y(q))
  }

  predicate SortedXY(lens: seq<nat>, s: seq<Point>)
  {
    forall i, j :: 0 <= i < j < |s| ==> NotAfter(lens, s[i], s[j])
  }

  /** Insert `p` into `s` before the first dot it does not come after. */
  function Insert(lens: seq<nat>, p: Point, s: seq<Point>): seq<Point>
  {
    if s == [] then [p]
    else if NotAfter(lens, p, s[0]) then [p] + s
    else [s[0]] + Insert(lens, p, s[1..])
  }

  /** `intermediateDots.sort(...)`, as an insertion sort. */
  function SortXY(lens: seq<nat>, s: seq<Point>): seq<Point>
  {
    if s == [] then [] else Insert(lens, s[0], SortXY(lens, s[1..]))
  }

  /** Inserting adds exactly the one dot. */
  lemma {:induction false} InsertPerm(lens: seq<nat>, p: Point, s: seq<Point>)
    ensures multiset(Insert(lens, p, s)) == multiset(s) + multiset{p}
  {
    if s != [] && !NotAfter(lens, p, s[0]) {
      InsertPerm(lens, p, s[1..]);
      assert s == [s[0]] + s[1..];
    }
  }

  /** Inserting into a sorted sequence keeps it sorted. */
  lemma {:induction false} InsertSorted(lens: seq<nat>, p: Point, s: seq<Point>)
    requires SortedXY(lens, s)
    ensures SortedXY(lens, Insert(lens, p, s))
  {
    if s != [] && !NotAfter(lens, p, s[0]) {
      var rest := Insert(lens, p, s[1..]);
      InsertSorted(lens, p, s[1..]);
      InsertPerm(lens, p, s[1..]);
      forall j | 0 <= j < |rest| ensures NotAfter(lens, s[0], rest[j]) {
        assert rest[j] in multiset(rest);
        if rest[j] != p {
          assert rest[j] in multiset(s[1..]);
          var k :| 0 <= k < |s[1..]| && s[1..][k] == rest[j];
          assert s[k + 1] == rest[j];
        }
      }
      assert Insert(lens, p, s) == [s[0]] + rest;
    }
  }

  /** The sort returns a sorted permutation of its input. */
  lemma {:induction false} SortXYSpec(lens: seq<nat>, s: seq<Point>)
    ensures multiset(SortXY(lens, s)) == multiset(s)
    ensures SortedXY(lens, SortXY(lens, s))
  {
    if s != [] {
      SortXYSpec(lens, s[1..]);
      InsertPerm(lens, s[0], SortXY(lens, s[1..]));
      InsertSorted(lens, s[0], SortXY(lens, s[1..]));
      assert s == [s[0]] + s[1..];
    }
  }

  /**
   * findIntermediateDots: the dots of the board on the segment from `a` to
   * `b`, ordered by X and then by Y.
   */
  function DotsOnLine(lens: seq<nat>, a: Point, b: Point): seq<Point>
  {
    SortXY(lens, FilterOnSegment(lens, a, b, AllDots(lens)))
  }

  /**
   * The dots on the stroke are exactly the dots of the board on the segment;
   * they include both ends, appear once each, and run strictly along (X, Y),
   * so any correct sort yields this very sequence.
   */
  lemma DotsOnLineSpec(lens: seq<nat>, a: Point, b: Point)
    requires InLattice(lens, a) && InLattice(lens, b)
    ensures var ds := DotsOnLine(lens, a, b);
      && (forall p :: p in ds <==> InLattice(lens, p) && OnSegment(lens, a, b, p))
      && a in ds && b in ds
      && (forall i, j :: 0 <= i < j < |ds| ==> ds[i] != ds[j])
      && (forall i, j :: 0 <= i < j < |ds| ==> X(lens, ds[i]) < X(lens, ds[j])
                                                || (X(lens, ds[i]) == X(lens, ds[j]) && Y(ds[i]) < Y(ds[j])))
  {
    DotsOnLineMembers(lens, a, b);
    DotsOnLineOrder(lens, a, b);
    EndsOnSegment(lens, a, b);
  }

  lemma DotsOnLineMembers(lens: seq<nat>, a: Point, b: Point)
    ensures forall p :: p in DotsOnLine(lens, a, b) <==> InLattice(lens, p) && OnSegment(lens, a, b, p)
  {
    var all := AllDots(lens);
    var found := FilterOnSegment(lens, a, b, all);
    AllDotsSpec(lens);
    FilterOnSegmentSpec(lens, a, b, all);
    SortXYSpec(lens, found);
    MultisetPreservesMembership(found, SortXY(lens, found));
  }

  lemma DotsOnLineOrder(lens: seq<nat>, a: Point, b: Point)
    ensures var ds := DotsOnLine(lens, a, b);
      && (forall i, j :: 0 <= i < j < |ds| ==> ds[i] != ds[j])
      && (forall i, j :: 0 <= i < j < |ds| ==> X(lens, ds[i]) < X(lens, ds[j])
                                                || (X(lens, ds[i]) == X(lens, ds[j]) && Y(ds[i]) < Y(ds[j])))
  {
    var all := AllDots(lens);
    var found := FilterOnSegment(lens, a, b, all);
    var ds := SortXY(lens, found);
    AllDotsDistinct(lens);
    FilterOnSegmentSpec(lens, a, b, all);
    SortXYSpec(lens, found);
    DistinctPermutation(found, ds);
    DotsOnLineMembers(lens, a, b);
    SortedDistinctIsStrict(lens, ds);
  }

  lemma EndsOnSegment(lens: seq<nat>, a: Point, b: Point)
    ensures OnSegment(lens, a, b, a) && OnSegment(lens, a, b, b)
  {
    var xa, ya, xb, yb := X(lens, a), Y(a), X(lens, b), Y(b);
    assert (yb - ya) * (xa - xb) - (ya - yb) * (xb - xa) == 0 by {
      assert (ya - yb) * (xb - xa) == (yb - ya) * (xa - xb);
    }
  }

  lemma AllDotsDistinct(lens: seq<nat>)
    ensures forall i, j :: 0 <= i < j < |AllDots(lens)| ==> AllDots(lens)[i] != AllDots(lens)[j]
  {
    AllDotsSpec(lens);
    var all := AllDots(lens);
    forall i, j | 0 <= i < j < |all| ensures all[i] != all[j] {
      assert Precedes(all[i], all[j]);
    }
  }

  /** Distinct dots of the board never share both coordinates, so a sorted run of them is strictly sorted. */
  lemma SortedDistinctIsStrict(lens: seq<nat>, ds: seq<Point>)
    requires forall p :: p in ds ==> InLattice(lens, p)
    requires forall i, j :: 0 <= i < j < |ds| ==> ds[i] != ds[j]
    requires SortedXY(lens, ds)
    ensures forall i, j :: 0 <= i < j < |ds| ==>
      X(lens, ds[i]) < X(lens, ds[j]) || (X(lens, ds[i]) == X(lens, ds[j]) && Y(ds[i]) < Y(ds[j]))
  {
    forall i, j | 0 <= i < j < |ds|
      ensures X(lens, ds[i]) < X(lens, ds[j]) || (X(lens, ds[i]) == X(lens, ds[j]) && Y(ds[i]) < Y(ds[j]))
    {
      assert ds[i] in ds && ds[j] in ds;
      PositionInjective(lens, ds[i], ds[j]);
      assert NotAfter(lens, ds[i], ds[j]);
    }
  }

  lemma MultisetPreservesMembership(s: seq<Point>, t: seq<Point>)
    requires multiset(s) == multiset(t)
    ensures forall p :: p in s <==> p in t
  {
    forall p ensures p in s <==> p in t {
      assert p in s <==> p in multiset(s);
      assert p in t <==> p in multiset(t);
    }
  }

  /** A permutation of a sequence without repetitions has none either. */
  lemma DistinctPermutation(s: seq<Point>, t: seq<Point>)
    requires multiset(s) == multiset(t)
    requires forall i, j :: 0 <= i < j < |s| ==> s[i] != s[j]
    ensures forall i, j :: 0 <= i < j < |t| ==> t[i] != t[j]
  {
    forall i, j | 0 <= i < j < |t| ensures t[i] != t[j] {
      if t[i] == t[j] {
        var p := t[i];
        assert t == t[..i] + [p] + t[i + 1..j] + [p] + t[j + 1..];
        assert multiset(t)[p] >= 2;
        DistinctCount(s, p);
        assert false;
      }
    }
  }

  lemma {:induction false} DistinctCount(s: seq<Point>, p: Point)
    requires forall i, j :: 0 <= i < j < |s| ==> s[i] != s[j]
    ensures multiset(s)[p] <= 1
  {
    if s != [] {
      assert s == [s[0]] + s[1..];
      DistinctCount(s[1..], p);
      if s[0] == p {
        assert p !in s[1..];
      }
    }
  }

  /** The collinearity and box tests do not depend on which end is `a`. */
  lemma OnSegmentSymmetric(lens: seq<nat>, a: Point, b: Point, p: Point)
    ensures OnSegment(lens, a, b, p) == OnSegment(lens, b, a, p)
  {
    var xa, ya, xb, yb, xp, yp := X(lens, a), Y(a), X(lens, b), Y(b), X(lens, p), Y(p);
    var ux, uy := xb - xa, yb - ya;
    assert (ya - yb) * (xp - xa) - (yp - ya) * (xa - xb)
        == -((yb - ya) * (xp - xb) - (yp - yb) * (xb - xa)) by {
      assert xp - xa == (xp - xb) + ux;
      assert yp - ya == (yp - yb) + uy;
      assert (ya - yb) * (xp - xa) == -uy * (xp - xb) - uy * ux;
      assert (yp - ya) * (xa - xb) == -(yp - yb) * ux - uy * ux;
    }
  }

  lemma {:induction false} FilterSymmetric(lens: seq<nat>, a: Point, b: Point, ds: seq<Point>)
    ensures FilterOnSegment(lens, a, b, ds) == FilterOnSegment(lens, b, a, ds)
  {
    if ds != [] {
      assert ds[0] in ds;
      OnSegmentSymmetric(lens, a, b, ds[0]);
      FilterSymmetric(lens, a, b, ds[1..]);
    }
  }

  /** A stroke from a dot to itself passes through that dot alone. */
  lemma DotsOnLineSamePoint(lens: seq<nat>, a: Point)
    requires InLattice(lens, a)
    ensures DotsOnLine(lens, a, a) == [a]
  {
    var ds := DotsOnLine(lens, a, a);
    DotsOnLineSpec(lens, a, a);
    forall p | p in ds ensures p == a {
      PositionInjective(lens, p, a);
    }
    AllEqualCount(ds, a);
    DistinctCount(ds, a);
  }

  lemma {:induction false} AllEqualCount(ds: seq<Point>, a: Point)
    requires forall p :: p in ds ==> p == a
    ensures multiset(ds)[a] == |ds|
  {
    if ds != [] {
      assert ds == [ds[0]] + ds[1..];
      assert ds[0] in ds;
      assert forall p :: p in ds[1..] ==> p in ds;
      AllEqualCount(ds[1..], a);
      assert multiset(ds) == multiset{ds[0]} + multiset(ds[1..]);
    }
  }

  // ----- isValidPreviewLine -----

  /** The 0, 60, 120 or 180 degree test (a stroke from a dot to itself is not tested). */
  predicate LatticeDirection(lens: seq<nat>, a: Point, b: Point)
  {
    var dx, dy := X(lens, b) - X(lens, a), Y(b) - Y(a);
    dy == 0 || dx == dy || dx == -dy
  }

  /** The keys of the unit segments between consecutive dots of `ds`. */
  function SegmentIds(ds: seq<Point>): seq<Key>
  {
    if |ds| <= 1 then [] else SegmentIds(ds[..|ds| - 1]) + [LineId(ds[|ds| - 2], ds[|ds| - 1])]
  }

  /** One segment per pair of consecutive dots, in order; none for fewer than two dots. */
  lemma {:induction false} SegmentIdsSpec(ds: seq<Point>)
    ensures |SegmentIds(ds)| == if ds == [] then 0 else |ds| - 1
    ensures forall k :: 0 <= k < |SegmentIds(ds)| ==> SegmentIds(ds)[k] == LineId(ds[k], ds[k + 1])
  {
    if |ds| > 1 {
      var init := ds[..|ds| - 1];
      SegmentIdsSpec(init);
      assert forall k :: 0 <= k < |init| ==> init[k] == ds[k];
    }
  }

  /** The segments of the stroke from `a` to `b`. */
  function StrokeIds(lens: seq<nat>, a: Point, b: Point): seq<Key>
  {
    SegmentIds(DotsOnLine(lens, a, b))
  }

  /**
   * isValidPreviewLine: a lattice direction, a non-empty stroke of exactly
   * `required` segments, every segment an edge of `lines`, and at least one
   * of them not drawn yet.
   */
  predicate IsValidPreviewLine(lens: seq<nat>, required: int, a: Point, b: Point, lines: map<Key, Line>)
  {
    && LatticeDirection(lens, a, b)
    && var ids := StrokeIds(lens, a, b);
    && |ids| != 0
    && |ids| == required
    && (forall k :: k in ids ==> k in lines)
    && NewSegmentDrawn(lines, ids)
  }

  /** Swapping the two dots changes neither the segments nor the verdict. */
  lemma ValidPreviewLineSymmetric(lens: seq<nat>, required: int, a: Point, b: Point, lines: map<Key, Line>)
    ensures DotsOnLine(lens, a, b) == DotsOnLine(lens, b, a)
    ensures StrokeIds(lens, a, b) == StrokeIds(lens, b, a)
    ensures IsValidPreviewLine(lens, required, a, b, lines) == IsValidPreviewLine(lens, required, b, a, lines)
  {
    FilterSymmetric(lens, a, b, AllDots(lens));
  }

  /** The stroke has a segment exactly when its two dots differ; so a dot joined to itself is rejected. */
  lemma StrokeNonEmpty(lens: seq<nat>, required: int, a: Point, b: Point, lines: map<Key, Line>)
    requires InLattice(lens, a) && InLattice(lens, b)
    ensures |StrokeIds(lens, a, b)| != 0 <==> a != b
    ensures a == b ==> !IsValidPreviewLine(lens, required, a, b, lines)
  {
    DotsOnLineSpec(lens, a, b);
    if a == b {
      DotsOnLineSamePoint(lens, a);
    }
  }

  /**
   * On the builder's edge dictionary, a legal stroke is a chain of unit
   * steps of the lattice between consecutive dots.
   */
  lemma ValidStrokeUnitSteps(lens: seq<nat>, required: int, a: Point, b: Point, lines: map<Key, Line>)
    requires UnitSteps(lens)
    requires lines.Keys == Builder.EdgeSet(lens)
    requires IsValidPreviewLine(lens, required, a, b, lines)
    ensures var ds := DotsOnLine(lens, a, b);
      forall i :: 0 <= i < |ds| - 1 ==> UnitStep(lens, ds[i], ds[i + 1])
  {
    var ds := DotsOnLine(lens, a, b);
    var ids := SegmentIds(ds);
    SegmentIdsSpec(ds);
    forall i | 0 <= i < |ds| - 1 ensures UnitStep(lens, ds[i], ds[i + 1]) {
      assert ids[i] == LineId(ds[i], ds[i + 1]);
      assert ids[i] in lines;
      Builder.EdgeEndpoints(lens, ids[i]);
    }
  }

  /**
   * A segment through two neighbouring dots of one row lies along that row:
   * both ends of the segment sit on the row.
   */
  lemma RowSegmentIsHorizontal(lens: seq<nat>, a: Point, b: Point, p: Point, q: Point)
    requires 0 <= p.r < |lens| && q == Point(p.r, p.c + 1)
    requires OnSegment(lens, a, b, p) && OnSegment(lens, a, b, q)
    ensures Y(a) == p.r && Y(b) == p.r
  {
    var xa, ya, xb, yb := X(lens, a), Y(a), X(lens, b), Y(b);
    var d := yb - ya;
    assert X(lens, q) == X(lens, p) + 2;
    assert d * (X(lens, q) - xb) == d * (X(lens, p) - xb) + 2 * d;
    assert 2 * d == 0;
  }

  /** Strictly rising columns climb at least one per step. */
  lemma {:induction false} ColumnsClimb(ds: seq<Point>, j: int)
    requires 0 <= j < |ds|
    requires forall i :: 0 <= i < |ds| - 1 ==> ds[i].c < ds[i + 1].c
    ensures ds[0].c + j <= ds[j].c
    decreases j
  {
    if j > 0 {
      ColumnsClimb(ds, j - 1);
    }
  }

  /** Both ends of a segment of the stroke are dots of the stroke. */
  lemma SegmentEndsOnStroke(lens: seq<nat>, a: Point, b: Point, p: Point, q: Point)
    requires LineId(p, q) in StrokeIds(lens, a, b)
    ensures p in DotsOnLine(lens, a, b) && q in DotsOnLine(lens, a, b)
  {
    var ds := DotsOnLine(lens, a, b);
    SegmentIdsSpec(ds);
    var i :| 0 <= i < |SegmentIds(ds)| && SegmentIds(ds)[i] == LineId(p, q);
    assert LineId(p, q) == LineId(ds[i], ds[i + 1]);
    assert {p, q} == {ds[i], ds[i + 1]};
  }

  /** The dots of a stroke along row r are dots of that row, in rising columns. */
  lemma StrokeAlongRow(lens: seq<nat>, a: Point, b: Point, r: int)
    requires 0 <= r < |lens| && Y(a) == r && Y(b) == r
    ensures var ds := DotsOnLine(lens, a, b);
      && (forall j :: 0 <= j < |ds| ==> ds[j].r == r && 0 <= ds[j].c < lens[r])
      && (forall j :: 0 <= j < |ds| - 1 ==> ds[j].c < ds[j + 1].c)
  {
    var ds := DotsOnLine(lens, a, b);
    DotsOnLineMembers(lens, a, b);
    DotsOnLineOrder(lens, a, b);
    forall j | 0 <= j < |ds| ensures ds[j].r == r && 0 <= ds[j].c < lens[r] {
      assert ds[j] in ds;
    }
    forall j | 0 <= j < |ds| - 1 ensures ds[j].c < ds[j + 1].c {
      assert X(lens, ds[j]) < X(lens, ds[j + 1]);
    }
  }

  /**
   * A stroke through the edge between dots (r, c) and (r, c + 1) runs along
   * row r, so it has fewer segments than that row has dots.
   */
  lemma HorizontalStrokeLength(lens: seq<nat>, a: Point, b: Point, r: int, c: int)
    requires 0 <= r < |lens| && 0 <= c && c + 1 < lens[r]
    requires LineId(Point(r, c), Point(r, c + 1)) in StrokeIds(lens, a, b)
    ensures |StrokeIds(lens, a, b)| < lens[r]
  {
    var ds := DotsOnLine(lens, a, b);
    var p, q := Point(r, c), Point(r, c + 1);
    SegmentEndsOnStroke(lens, a, b, p, q);
    DotsOnLineMembers(lens, a, b);
    RowSegmentIsHorizontal(lens, a, b, p, q);
    StrokeAlongRow(lens, a, b, r);
    ColumnsClimb(ds, |ds| - 1);
    SegmentIdsSpec(ds);
  }

  /**
   * An edge of a row with no more dots than the required length is on no
   * legal stroke: every stroke through it is too short.
   */
  lemma ShortRowNeverTraced(lens: seq<nat>, required: int, a: Point, b: Point, lines: map<Key, Line>, r: int, c: int)
    requires 0 <= r < |lens| && 0 <= c && c + 1 < lens[r] && lens[r] <= required
    ensures IsValidPreviewLine(lens, required, a, b, lines) ==>
      LineId(Point(r, c), Point(r, c + 1)) !in StrokeIds(lens, a, b)
  {
    if LineId(Point(r, c), Point(r, c + 1)) in StrokeIds(lens, a, b) {
      HorizontalStrokeLength(lens, a, b, r, c);
    }
  }

  /**
   * Such an edge, once undrawn, stays undrawn after any legal stroke, and so
   * does every unfilled cell it borders: the filled cells never reach the
   * total, and the end test never fires.
   */
  lemma ShortRowCellStaysOpen(lens: seq<nat>, required: int, a: Point, b: Point, board: Board, actor: int, r: int, c: int, i: int)
    requires 0 <= r < |lens| && 0 <= c && c + 1 < lens[r] && lens[r] <= required
    requires IsValidPreviewLine(lens, required, a, b, board.lines)
    requires LineId(Point(r, c), Point(r, c + 1)) in board.lines
    requires !board.lines[LineId(Point(r, c), Point(r, c + 1))].drawn
    requires 0 <= i < |board.triangles| && !board.triangles[i].filled
    requires LineId(Point(r, c), Point(r, c + 1)) in board.triangles[i].lineKeys
    ensures SimulateMove(StrokeIds(lens, a, b), board, actor).Some?
    ensures var next := SimulateMove(StrokeIds(lens, a, b), board, actor).value.board;
      && !next.lines[LineId(Point(r, c), Point(r, c + 1))].drawn
      && !next.triangles[i].filled
  {
    var k := LineId(Point(r, c), Point(r, c + 1));
    var ids := StrokeIds(lens, a, b);
    ShortRowNeverTraced(lens, required, a, b, board.lines, r, c);
    DrawSegmentsEffect(board.lines, ids, actor, k);
    var lines := DrawSegments(board.lines, ids, actor);
    assert !Complete(lines, board.triangles[i]);
    FillTrianglesEffect(lines, board.triangles, actor, i);
  }

  // ----- findAllValidMoves -----

  /**
   * On the small board with strokes of three segments, the edge between the
   * first two dots of the top row is in the dictionary and is a side of a
   * cell, yet no legal stroke covers it: that edge is never drawn, its cell
   * never fills, and the filled cells never reach totalTriangles.
   */
  lemma SmallBoardTopEdgeUntraceable(a: Point, b: Point, lines: map<Key, Line>)
    ensures var lens, k := ComputeRowLengths("small"), LineId(Point(0, 0), Point(0, 1));
      && k in Builder.EdgeSet(lens)
      && (exists t :: t in Builder.InitialTriangles(lens) && k in t.lineKeys)
      && (IsValidPreviewLine(lens, 3, a, b, lines) ==> k !in StrokeIds(lens, a, b))
  {
    var lens, k := ComputeRowLengths("small"), LineId(Point(0, 0), Point(0, 1));
    assert lens == [3, 4, 5, 4, 3];
    Builder.PointEdgesInEdgeSet(lens, 0, 0);
    assert k in Builder.PointEdges(lens, 0, 0);
    var t := Builder.EdgeHasCell(lens, k);
    ShortRowNeverTraced(lens, 3, a, b, lines, 0, 0);
  }

  /**
   * Once every cell is filled (on a consistent board whose edges all lie on
   * cells), no stroke is legal and the list of legal strokes is empty.
   */
  lemma FullBoardNoMoves(lens: seq<nat>, required: int, b: Board)
    requires Consistent(b) && Covered(b)
    requires FilledCount(b.triangles) == |b.triangles|
    ensures forall p, q :: !IsValidPreviewLine(lens, required, p, q, b.lines)
    ensures ValidMoves(lens, required, b.lines) == []
  {
    FullBoardAllDrawn(b);
    if ValidMoves(lens, required, b.lines) != [] {
      ValidMovesSound(lens, required, b.lines, ValidMoves(lens, required, b.lines)[0]);
    }
  }

  /** A legal stroke: its two dots and its segments. */
  datatype Move = Move(dot1: Point, dot2: Point, segmentIds: seq<Key>)

  function MoveOf(lens: seq<nat>, a: Point, b: Point): Move
  {
    Move(a, b, StrokeIds(lens, a, b))
  }

  /** The pairs the inner loop visits: ds[i] with ds[j], ds[j + 1], ... */
  function PairsFrom(ds: seq<Point>, i: nat, j: nat): seq<(Point, Point)>
    requires i < |ds| && j <= |ds|
  {
    seq(|ds| - j, n requires 0 <= n < |ds| - j => (ds[i], ds[j + n]))
  }

  /** The pairs the two loops visit from outer index i on. */
  function AllPairsFrom(ds: seq<Point>, i: nat): seq<(Point, Point)>
    requires i <= |ds|
    decreases |ds| - i
  {
    if i == |ds| then [] else PairsFrom(ds, i, i + 1) + AllPairsFrom(ds, i + 1)
  }

  /** The moves of the legal pairs of `ps`, in order. */
  function Legal(lens: seq<nat>, required: int, lines: map<Key, Line>, ps: seq<(Point, Point)>): seq<Move>
  {
    if ps == [] then []
    else
      (if IsValidPreviewLine(lens, required, ps[0].0, ps[0].1, lines) then [MoveOf(lens, ps[0].0, ps[0].1)] else [])
      + Legal(lens, required, lines, ps[1..])
  }

  /** findAllValidMoves as a value: the legal pairs i < j of `dots.flat()`, in loop order. */
  function ValidMoves(lens: seq<nat>, required: int, lines: map<Key, Line>): seq<Move>
  {
    Legal(lens, required, lines, AllPairsFrom(AllDots(lens), 0))
  }

  /** Every pair h < k at or after outer index i is visited. */
  lemma {:induction false} AllPairsFromHas(ds: seq<Point>, i: nat, h: nat, k: nat)
    requires i <= h < k < |ds|
    ensures (ds[h], ds[k]) in AllPairsFrom(ds, i)
    decreases h - i
  {
    assert AllPairsFrom(ds, i) == PairsFrom(ds, i, i + 1) + AllPairsFrom(ds, i + 1);
    if h == i {
      assert PairsFrom(ds, i, i + 1)[k - i - 1] == (ds[i], ds[k]);
    } else {
      AllPairsFromHas(ds, i + 1, h, k);
    }
  }

  /** Only pairs h < k at or after outer index i are visited. */
  lemma {:induction false} AllPairsFromOnly(ds: seq<Point>, i: nat, p: (Point, Point))
    requires i <= |ds| && p in AllPairsFrom(ds, i)
    ensures exists h, k :: i <= h < k < |ds| && p == (ds[h], ds[k])
    decreases |ds| - i
  {
    if i < |ds| {
      var first := PairsFrom(ds, i, i + 1);
      assert AllPairsFrom(ds, i) == first + AllPairsFrom(ds, i + 1);
      if p in first {
        var n :| 0 <= n < |first| && first[n] == p;
        assert i <= i < i + 1 + n < |ds| && p == (ds[i], ds[i + 1 + n]);
      } else {
        AllPairsFromOnly(ds, i + 1, p);
        var h, k :| i + 1 <= h < k < |ds| && p == (ds[h], ds[k]);
        assert i <= h < k < |ds|;
      }
    }
  }

  lemma {:induction false} LegalMembers(lens: seq<nat>, required: int, lines: map<Key, Line>, ps: seq<(Point, Point)>, m: Move)
    ensures m in Legal(lens, required, lines, ps) <==>
      exists p :: p in ps && IsValidPreviewLine(lens, required, p.0, p.1, lines) && m == MoveOf(lens, p.0, p.1)
  {
    if ps != [] {
      LegalMembers(lens, required, lines, ps[1..], m);
      assert ps == [ps[0]] + ps[1..];
      if IsValidPreviewLine(lens, required, ps[0].0, ps[0].1, lines) && m == MoveOf(lens, ps[0].0, ps[0].1) {
        assert ps[0] in ps;
      }
    }
  }

  lemma {:induction false} LegalConcat(lens: seq<nat>, required: int, lines: map<Key, Line>, ps: seq<(Point, Point)>, qs: seq<(Point, Point)>)
    ensures Legal(lens, required, lines, ps + qs) == Legal(lens, required, lines, ps) + Legal(lens, required, lines, qs)
  {
    if ps != [] {
      LegalConcat(lens, required, lines, ps[1..], qs);
      var p := ps[0];
      var head := if IsValidPreviewLine(lens, required, p.0, p.1, lines) then [MoveOf(lens, p.0, p.1)] else [];
      assert (ps + qs)[0] == p && (ps + qs)[1..] == ps[1..] + qs;
      assert Legal(lens, required, lines, ps + qs) == head + Legal(lens, required, lines, ps[1..] + qs);
      assert Legal(lens, required, lines, ps) == head + Legal(lens, required, lines, ps[1..]);
    } else {
      assert ps + qs == qs;
    }
  }

  /**
   * The moves listed are exactly the legal strokes whose first dot precedes
   * the second in (row, column) order, each with its own segments.
   */
  lemma ValidMovesMembers(lens: seq<nat>, required: int, lines: map<Key, Line>, m: Move)
    ensures m in ValidMoves(lens, required, lines) <==>
      && InLattice(lens, m.dot1) && InLattice(lens, m.dot2)
      && Precedes(m.dot1, m.dot2)
      && IsValidPreviewLine(lens, required, m.dot1, m.dot2, lines)
      && m.segmentIds == StrokeIds(lens, m.dot1, m.dot2)
  {
    if m in ValidMoves(lens, required, lines) {
      ValidMovesSound(lens, required, lines, m);
    }
    if InLattice(lens, m.dot1) && InLattice(lens, m.dot2) && Precedes(m.dot1, m.dot2)
       && IsValidPreviewLine(lens, required, m.dot1, m.dot2, lines)
       && m.segmentIds == StrokeIds(lens, m.dot1, m.dot2) {
      ValidMovesHas(lens, required, lines, m.dot1, m.dot2);
    }
  }

  lemma ValidMovesSound(lens: seq<nat>, required: int, lines: map<Key, Line>, m: Move)
    requires m in ValidMoves(lens, required, lines)
    ensures InLattice(lens, m.dot1) && InLattice(lens, m.dot2) && Precedes(m.dot1, m.dot2)
    ensures IsValidPreviewLine(lens, required, m.dot1, m.dot2, lines) && m == MoveOf(lens, m.dot1, m.dot2)
  {
    var ds := AllDots(lens);
    var ps := AllPairsFrom(ds, 0);
    LegalMembers(lens, required, lines, ps, m);
    var p :| p in ps && IsValidPreviewLine(lens, required, p.0, p.1, lines) && m == MoveOf(lens, p.0, p.1);
    AllPairsFromOnly(ds, 0, p);
    var h, k :| 0 <= h < k < |ds| && p == (ds[h], ds[k]);
    AllDotsSpec(lens);
    assert ds[h] in ds && ds[k] in ds;
  }

  lemma ValidMovesHas(lens: seq<nat>, required: int, lines: map<Key, Line>, a: Point, b: Point)
    requires InLattice(lens, a) && InLattice(lens, b) && Precedes(a, b)
    requires IsValidPreviewLine(lens, required, a, b, lines)
    ensures MoveOf(lens, a, b) in ValidMoves(lens, required, lines)
  {
    var ds := AllDots(lens);
    AllDotsSpec(lens);
    var h :| 0 <= h < |ds| && ds[h] == a;
    var k :| 0 <= k < |ds| && ds[k] == b;
    assert h < k;
    AllPairsFromHas(ds, 0, h, k);
    LegalMembers(lens, required, lines, AllPairsFrom(ds, 0), MoveOf(lens, a, b));
  }


  /**
   * Every legal stroke between two dots of the board is listed, in one of
   * its two orientations, with the same segments.
   */
  lemma ValidMovesComplete(lens: seq<nat>, required: int, lines: map<Key, Line>, a: Point, b: Point)
    requires InLattice(lens, a) && InLattice(lens, b)
    requires IsValidPreviewLine(lens, required, a, b, lines)
    ensures exists m ::
      && m in ValidMoves(lens, required, lines)
      && ((m.dot1 == a && m.dot2 == b) || (m.dot1 == b && m.dot2 == a))
      && m.segmentIds == StrokeIds(lens, a, b)
  {
    StrokeNonEmpty(lens, required, a, b, lines);
    ValidPreviewLineSymmetric(lens, required, a, b, lines);
    var m := if Precedes(a, b) then MoveOf(lens, a, b) else MoveOf(lens, b, a);
    ValidMovesMembers(lens, required, lines, m);
  }

  /** simulateMove never returns null for a listed move: each one draws a new segment. */
  lemma ValidMovesSimulate(lens: seq<nat>, required: int, b: Board, m: Move, actor: int)
    requires m in ValidMoves(lens, required, b.lines)
    ensures NewSegmentDrawn(b.lines, m.segmentIds)
    ensures SimulateMove(m.segmentIds, b, actor).Some?
  {
    ValidMovesMembers(lens, required, b.lines, m);
  }

  /**
   * findAllValidMoves: the nested loops over pairs i < j of `dots.flat()`,
   * pushing each legal stroke with its segments.
   */
  method FindAllValidMoves(lens: seq<nat>, required: int, lines: map<Key, Line>) returns (moves: seq<Move>)
    ensures moves == ValidMoves(lens, required, lines)
  {
    var ds := AllDots(lens);
    moves := [];
    var i := 0;
    while i < |ds|
      invariant 0 <= i <= |ds|
      invariant moves + Legal(lens, required, lines, AllPairsFrom(ds, i)) == ValidMoves(lens, required, lines)
    {
      AllPairsStep(lens, required, lines, ds, i, moves);
      moves := PushPairMoves(lens, required, lines, ds, i, moves);
      i := i + 1;
    }
  }

  lemma AllPairsStep(lens: seq<nat>, required: int, lines: map<Key, Line>, ds: seq<Point>, i: nat, before: seq<Move>)
    requires i < |ds|
    ensures before + Legal(lens, required, lines, AllPairsFrom(ds, i))
         == before + Legal(lens, required, lines, PairsFrom(ds, i, i + 1)) + Legal(lens, required, lines, AllPairsFrom(ds, i + 1))
  {
    LegalConcat(lens, required, lines, PairsFrom(ds, i, i + 1), AllPairsFrom(ds, i + 1));
  }

  /** The inner loop: the legal strokes from ds[i] to each later dot, appended to `moves`. */
  method PushPairMoves(lens: seq<nat>, required: int, lines: map<Key, Line>, ds: seq<Point>, i: nat, moves0: seq<Move>)
    returns (moves: seq<Move>)
    requires i < |ds|
    ensures moves == moves0 + Legal(lens, required, lines, PairsFrom(ds, i, i + 1))
  {
    ghost var target := moves0 + Legal(lens, required, lines, PairsFrom(ds, i, i + 1));
    moves := moves0;
    var j := i + 1;
    while j < |ds|
      invariant i + 1 <= j <= |ds|
      invariant moves + Legal(lens, required, lines, PairsFrom(ds, i, j)) == target
    {
      LegalStep(lens, required, lines, ds, i, j, moves);
      var found := PairMove(lens, required, lines, ds[i], ds[j]);
      moves, j := moves + found, j + 1;
    }
  }

  /** The loop body: the move for the stroke from dotA to dotB, if it is legal. */
  method PairMove(lens: seq<nat>, required: int, lines: map<Key, Line>, dotA: Point, dotB: Point)
    returns (found: seq<Move>)
    ensures found == if IsValidPreviewLine(lens, required, dotA, dotB, lines) then [MoveOf(lens, dotA, dotB)] else []
  {
    found := [];
    if IsValidPreviewLine(lens, required, dotA, dotB, lines) {
      var segmentIds := CollectSegments(DotsOnLine(lens, dotA, dotB));
      found := [Move(dotA, dotB, segmentIds)];
    }
  }

  lemma LegalStep(lens: seq<nat>, required: int, lines: map<Key, Line>, ds: seq<Point>, i: nat, j: nat, before: seq<Move>)
    requires i < |ds| && j < |ds|
    ensures before + Legal(lens, required, lines, PairsFrom(ds, i, j))
         == before + (if IsValidPreviewLine(lens, required, ds[i], ds[j], lines) then [MoveOf(lens, ds[i], ds[j])] else [])
            + Legal(lens, required, lines, PairsFrom(ds, i, j + 1))
  {
    var ps := PairsFrom(ds, i, j);
    assert ps[0] == (ds[i], ds[j]);
    assert ps[1..] == PairsFrom(ds, i, j + 1);
  }

  /** The segment loop `segmentIds.push(getLineId(d[k], d[k + 1]))`. */
  method CollectSegments(ds: seq<Point>) returns (ids: seq<Key>)
    ensures ids == SegmentIds(ds)
  {
    ids := [];
    if ds == [] {
      return;
    }
    var k := 0;
    while k < |ds| - 1
      invariant 0 <= k <= |ds| - 1
      invariant ids == SegmentIds(ds[..k + 1])
    {
      ids := ids + [LineId(ds[k], ds[k + 1])];
      k := k + 1;
      assert ds[..k + 1][..k] == ds[..k];
    }
    assert ds[..k + 1] == ds;
  }
}
