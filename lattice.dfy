/**
 * Points of the triangular lattice, the canonical key of the edge between two
 * points, row-length profiles and the exact integer embedding of the board.
 *
 * On the canvas, dot (r, c) of a row of length len sits at
 * x = c * S + ((maxLen - len) * S) / 2 + padding and y = r * S * sqrt(3) / 2 + padding.
 * Doubling x / S and dropping the padding gives the integer coordinates
 * X = 2c + maxLen - len and Y = r used here; every geometric test of the
 * game (angles, collinearity, bounding boxes, the sort along a line) is
 * stated on them.
 */
module Lattice {

  /** A dot of the board: row `r`, column `c` within that row. */
  datatype Point = Point(r: int, c: int)

  /** Strict (row, column) lexicographic order on points. */
  predicate Precedes(p: Point, q: Point)
  {
    p.r < q.r || (p.r == q.r && p.c < q.c)
  }

  /** The canonical key of an edge: `lo` never comes after `hi`. */
  datatype Key = Key(lo: Point, hi: Point)

  /** getLineId: the key of the edge between `a` and `b`, endpoints in (row, column) order. */
  function LineId(a: Point, b: Point): (k: Key)
    ensures !Precedes(k.hi, k.lo)
    ensures (k.lo == a && k.hi == b) || (k.lo == b && k.hi == a)
  {
    if a.r > b.r || (a.r == b.r && a.c > b.c) then Key(b, a) else Key(a, b)
  }

  /** The key does not depend on the order of the arguments. */
  lemma LineIdSymmetric(a: Point, b: Point)
    ensures LineId(a, b) == LineId(b, a)
  {
  }

  /** Distinct unordered pairs of points have distinct keys. */
  lemma LineIdInjective(a: Point, b: Point, c: Point, d: Point)
    requires LineId(a, b) == LineId(c, d)
    ensures (a == c && b == d) || (a == d && b == c)
  {
  }

  // ----- row-length profiles -----

  /**
   * A profile the board builder can work on: a row is never more than one
   * dot longer than the row below it, so every "down-right" neighbour the
   * shrinking rule asks for exists.
   */
  predicate ValidProfile(lens: seq<nat>)
  {
    forall r :: 0 <= r < |lens| - 1 ==> lens[r] <= lens[r + 1] + 1
  }

  /** Adjacent rows differ by exactly one dot. */
  predicate UnitSteps(lens: seq<nat>)
  {
    forall r :: 0 <= r < |lens| - 1 ==> lens[r + 1] == lens[r] + 1 || lens[r] == lens[r + 1] + 1
  }

  /** The rows grow by one up to the middle row and shrink by one after it. */
  predicate Rhombus(lens: seq<nat>)
  {
    && |lens| % 2 == 1
    && (forall r :: 0 <= r < |lens| / 2 ==> lens[r + 1] == lens[r] + 1)
    && (forall r :: |lens| / 2 <= r < |lens| - 1 ==> lens[r] == lens[r + 1] + 1)
  }

  /**
   * The shape of every board the game offers: at least five rows, growing by
   * one dot to the middle row and shrinking by one after it, symmetric, and
   * no row shorter than three dots.
   */
  predicate BoardShape(lens: seq<nat>)
  {
    && Rhombus(lens) && |lens| >= 5
    && UnitSteps(lens) && ValidProfile(lens)
    && (forall r :: 0 <= r < |lens| ==> lens[r] == lens[|lens| - 1 - r] && lens[r] >= 3)
  }

  /** computeRowLengths: the three board sizes; anything but "small" or "large" is medium. */
  function ComputeRowLengths(size: string): (lens: seq<nat>)
    ensures BoardShape(lens)
  {
    if size == "small" then SmallShape(); [3, 4, 5, 4, 3]
    else if size == "large" then LargeShape(); [5, 6, 7, 8, 9, 8, 7, 6, 5]
    else MediumShape(); [4, 5, 6, 7, 6, 5, 4]
  }

  /** Rows m, m + 1, ..., m + h, ..., m + 1, m: a hexagon-like board with 2h + 1 rows. */
  function Diamond(m: nat, h: nat): seq<nat>
  {
    seq(2 * h + 1, r requires 0 <= r < 2 * h + 1 => if r <= h then m + r else m + 2 * h - r)
  }

  lemma DiamondShape(m: nat, h: nat)
    requires m >= 3 && h >= 2
    ensures BoardShape(Diamond(m, h))
  {
    var lens := Diamond(m, h);
    assert |lens| / 2 == h;
    forall r | 0 <= r < |lens|
      ensures lens[r] == lens[|lens| - 1 - r] && lens[r] >= 3
    {
    }
  }

  lemma SmallShape()
    ensures BoardShape([3, 4, 5, 4, 3])
  {
    assert [3, 4, 5, 4, 3] == Diamond(3, 2);
    DiamondShape(3, 2);
  }

  lemma MediumShape()
    ensures BoardShape([4, 5, 6, 7, 6, 5, 4])
  {
    assert [4, 5, 6, 7, 6, 5, 4] == Diamond(4, 3);
    DiamondShape(4, 3);
  }

  lemma LargeShape()
    ensures BoardShape([5, 6, 7, 8, 9, 8, 7, 6, 5])
  {
    assert [5, 6, 7, 8, 9, 8, 7, 6, 5] == Diamond(5, 4);
    DiamondShape(5, 4);
  }


  /** A point that exists on the board of profile `lens`. */
  predicate InLattice(lens: seq<nat>, p: Point)
  {
    0 <= p.r < |lens| && 0 <= p.c < lens[p.r]
  }

  // ----- integer coordinates -----

  /** Math.max over the row lengths (0 for the empty profile, which has no dots). */
  function MaxLen(lens: seq<nat>): nat
  {
    if |lens| == 0 then 0
    else
      var m := MaxLen(lens[..|lens| - 1]);
      if lens[|lens| - 1] > m then lens[|lens| - 1] else m
  }

  /** MaxLen is the longest row: no row is longer, and some row has that length. */
  lemma {:induction false} MaxLenSpec(lens: seq<nat>)
    ensures forall r :: 0 <= r < |lens| ==> lens[r] <= MaxLen(lens)
    ensures |lens| > 0 ==> MaxLen(lens) in lens
  {
    if |lens| > 0 {
      var init := lens[..|lens| - 1];
      MaxLenSpec(init);
      assert forall r :: 0 <= r < |init| ==> init[r] == lens[r];
      assert MaxLen(init) in init ==> MaxLen(init) in lens;
    }
  }

  /**
   * Horizontal coordinate of a dot, in half dot spacings. Only dots of the
   * board are ever measured; a row outside the profile is given no offset.
   */
  function X(lens: seq<nat>, p: Point): int
  {
    2 * p.c + MaxLen(lens) - (if 0 <= p.r < |lens| then lens[p.r] else 0)
  }

  /** Vertical coordinate of a dot, in row heights. */
  function Y(p: Point): int
  {
    p.r
  }

  /**
   * One step in one of the six directions of the triangular lattice: two
   * half spacings along a row, or one row up or down and one half spacing
   * sideways.
   */
  predicate UnitStep(lens: seq<nat>, p: Point, q: Point)
  {
    var dx, dy := X(lens, q) - X(lens, p), Y(q) - Y(p);
    (dy == 0 && (dx == 2 || dx == -2)) || ((dy == 1 || dy == -1) && (dx == 1 || dx == -1))
  }

  /** Two dots of the board never share a position. */
  lemma PositionInjective(lens: seq<nat>, p: Point, q: Point)
    requires 0 <= p.r < |lens| && 0 <= q.r < |lens|
    ensures X(lens, p) == X(lens, q) && Y(p) == Y(q) ==> p == q
  {
  }

  // ----- the dots of the board, row by row (dots.flat()) -----

  /** The dots of row `r`, left to right. */
  function RowDots(r: nat, n: nat): (ds: seq<Point>)
    ensures |ds| == n
    ensures forall c :: 0 <= c < n ==> ds[c] == Point(r, c)
  {
    seq(n, c => Point(r, c))
  }

  /** The dots of rows `r` and below, in row-major order. */
  function DotsFrom(lens: seq<nat>, r: nat): seq<Point>
    requires r <= |lens|
    decreases |lens| - r
  {
    if r == |lens| then [] else RowDots(r, lens[r]) + DotsFrom(lens, r + 1)
  }

  lemma {:induction false} DotsFromSpec(lens: seq<nat>, r: nat)
    requires r <= |lens|
    ensures var ds := DotsFrom(lens, r);
      && (forall p :: p in ds <==> r <= p.r && InLattice(lens, p))
      && (forall i, j :: 0 <= i < j < |ds| ==> Precedes(ds[i], ds[j]))
    decreases |lens| - r
  {
    if r < |lens| {
      DotsFromSpec(lens, r + 1);
      var row := RowDots(r, lens[r]);
      assert forall p :: p in row <==> p.r == r && 0 <= p.c < lens[r];
    }
  }

  /** All dots of the board, in the order `dots.flat()` lists them. */
  function AllDots(lens: seq<nat>): seq<Point>
  {
    DotsFrom(lens, 0)
  }

  /** Every dot of the board is listed, nothing else is, in strict (row, column) order. */
  lemma AllDotsSpec(lens: seq<nat>)
    ensures forall p :: p in AllDots(lens) <==> InLattice(lens, p)
    ensures forall i, j :: 0 <= i < j < |AllDots(lens)| ==> Precedes(AllDots(lens)[i], AllDots(lens)[j])
  {
    DotsFromSpec(lens, 0);
  }
}
