/**
 * The topology part of initGame: the edges and cells built from a
 * row-length profile. The spec functions follow the visiting order of the
 * builder's loops; BuildLattice runs those loops.
 */
module Builder {
  import opened Lattice
  import opened Board

  // ----- edges -----

  /** The edges from dot (r, c) to the next dot of its row and to the row below, in assignment order. */
  function PointEdges(lens: seq<nat>, r: nat, c: nat): seq<Key>
    requires r < |lens|
  {
    RightEdges(lens, r, c) + (if r + 1 < |lens| then DownEdges(lens, r, c) else [])
  }

  /** The edge to the next dot of the same row, if there is one. */
  function RightEdges(lens: seq<nat>, r: nat, c: nat): seq<Key>
    requires r < |lens|
  {
    if c + 1 < lens[r] then [LineId(Point(r, c), Point(r, c + 1))] else []
  }

  /**
   * The "growing" rule (the row below is longer: same and next column) and the
   * "shrinking" rule (same column if it exists, previous column if c > 0).
   */
  function DownEdges(lens: seq<nat>, r: nat, c: nat): seq<Key>
    requires r + 1 < |lens|
  {
    var p := Point(r, c);
    if lens[r + 1] > lens[r] then [LineId(p, Point(r + 1, c)), LineId(p, Point(r + 1, c + 1))]
    else
      (if c < lens[r + 1] then [LineId(p, Point(r + 1, c))] else [])
      + (if c > 0 then [LineId(p, Point(r + 1, c - 1))] else [])
  }

  /** The keys assigned while visiting the first `c` dots of row `r`. */
  function RowEdges(lens: seq<nat>, r: nat, c: nat): set<Key>
    requires r < |lens|
  {
    if c == 0 then {} else RowEdges(lens, r, c - 1) + KeysOf(PointEdges(lens, r, c - 1))
  }

  function KeysOf(ks: seq<Key>): set<Key>
  {
    set k | k in ks
  }

  /** The keys assigned while visiting rows 0 .. r-1. */
  function EdgesBefore(lens: seq<nat>, r: nat): set<Key>
    requires r <= |lens|
  {
    if r == 0 then {} else EdgesBefore(lens, r - 1) + RowEdges(lens, r - 1, lens[r - 1])
  }

  /** Every key of the `lines` dictionary. */
  function EdgeSet(lens: seq<nat>): set<Key>
  {
    EdgesBefore(lens, |lens|)
  }

  /** The number of assignments made while visiting the first `c` dots of row `r`. */
  function RowEdgeCount(lens: seq<nat>, r: nat, c: nat): nat
    requires r < |lens|
  {
    if c == 0 then 0 else RowEdgeCount(lens, r, c - 1) + PointEdgeCount(lens, r, c - 1)
  }

  /** How many assignments the builder makes at dot (r, c), counted rule by rule. */
  function PointEdgeCount(lens: seq<nat>, r: nat, c: nat): nat
    requires r < |lens|
  {
    (if c + 1 < lens[r] then 1 else 0)
    + (if r + 1 == |lens| then 0
       else if lens[r + 1] > lens[r] then 2
       else (if c < lens[r + 1] then 1 else 0) + (if c > 0 then 1 else 0))
  }

  function EdgeCountBefore(lens: seq<nat>, r: nat): nat
    requires r <= |lens|
  {
    if r == 0 then 0 else EdgeCountBefore(lens, r - 1) + RowEdgeCount(lens, r - 1, lens[r - 1])
  }

  /** The number of edge assignments the builder makes. */
  function EdgeCount(lens: seq<nat>): nat
  {
    EdgeCountBefore(lens, |lens|)
  }

  /** A dictionary of undrawn edges. */
  function Fresh(keys: set<Key>): map<Key, Line>
  {
    map k | k in keys :: Undrawn
  }

  /** `lines` as initGame leaves it. */
  function InitialLines(lens: seq<nat>): map<Key, Line>
  {
    Fresh(EdgeSet(lens))
  }

  /** Every edge assigned at dot (r, c) starts at that dot and the assignments there are distinct. */
  lemma PointEdgesShape(lens: seq<nat>, r: nat, c: nat)
    requires r < |lens|
    ensures forall k :: k in PointEdges(lens, r, c) ==> k.lo == Point(r, c)
    ensures forall i, j :: 0 <= i < j < |PointEdges(lens, r, c)| ==>
      PointEdges(lens, r, c)[i] != PointEdges(lens, r, c)[j]
  {
  }

  lemma PointEdgeLo(lens: seq<nat>, r: nat, c: nat, k: Key)
    requires r < |lens| && k in KeysOf(PointEdges(lens, r, c))
    ensures k.lo == Point(r, c)
  {
    PointEdgesShape(lens, r, c);
  }

  lemma RowEdgesLo(lens: seq<nat>, r: nat, c: nat)
    requires r < |lens|
    ensures forall k :: k in RowEdges(lens, r, c) ==> k.lo.r == r && 0 <= k.lo.c < c
  {
    forall k | k in RowEdges(lens, r, c)
      ensures k.lo.r == r && 0 <= k.lo.c < c
    {
      RowEdgeLo(lens, r, c, k);
    }
  }

  lemma {:induction false} RowEdgeLo(lens: seq<nat>, r: nat, c: nat, k: Key)
    requires r < |lens| && k in RowEdges(lens, r, c)
    ensures k.lo.r == r && 0 <= k.lo.c < c
  {
    if c > 0 {
      var p := c - 1;
      if k in RowEdges(lens, r, p) {
        RowEdgeLo(lens, r, p, k);
      } else {
        PointEdgeLo(lens, r, p, k);
      }
    }
  }

  lemma {:induction false} EdgeBeforeLo(lens: seq<nat>, r: nat, k: Key)
    requires r <= |lens| && k in EdgesBefore(lens, r)
    ensures 0 <= k.lo.r < r
  {
    if r > 0 {
      var p := r - 1;
      if k in EdgesBefore(lens, p) {
        EdgeBeforeLo(lens, p, k);
      } else {
        RowEdgeLo(lens, p, lens[p], k);
      }
    }
  }

  /**
   * No edge is created twice: the keys assigned at dot (r, c) are distinct
   * and none of them was assigned at an earlier dot.
   */
  lemma NoEdgeCreatedTwice(lens: seq<nat>, r: nat, c: nat)
    requires r < |lens|
    ensures forall k :: k in PointEdges(lens, r, c) ==> k !in EdgesBefore(lens, r) + RowEdges(lens, r, c)
    ensures forall i, j :: 0 <= i < j < |PointEdges(lens, r, c)| ==>
      PointEdges(lens, r, c)[i] != PointEdges(lens, r, c)[j]
  {
    PointEdgesShape(lens, r, c);
    forall k | k in EdgesBefore(lens, r)
      ensures k.lo.r < r
    {
      EdgeBeforeLo(lens, r, k);
    }
    RowEdgesLo(lens, r, c);
  }

  lemma {:induction false} KeysOfSize(ks: seq<Key>)
    requires forall i, j :: 0 <= i < j < |ks| ==> ks[i] != ks[j]
    ensures |KeysOf(ks)| == |ks|
  {
    if ks != [] {
      var init := ks[..|ks| - 1];
      KeysOfSize(init);
      assert KeysOf(ks) == KeysOf(init) + {ks[|ks| - 1]};
    }
  }

  lemma AddDisjoint(a: set<Key>, b: set<Key>)
    requires forall k :: k in a ==> k !in b
    ensures |a + b| == |a| + |b|
  {
    assert a * b == {};
  }

  lemma {:induction false} RowEdgesSize(lens: seq<nat>, r: nat, c: nat)
    requires r < |lens|
    ensures |RowEdges(lens, r, c)| == RowEdgeCount(lens, r, c)
  {
    if c > 0 {
      var p := c - 1;
      RowEdgesSize(lens, r, p);
      RowEdgesStep(lens, r, p);
      assert RowEdgeCount(lens, r, p + 1) == RowEdgeCount(lens, r, p) + PointEdgeCount(lens, r, p);
    }
  }

  lemma RowEdgesStep(lens: seq<nat>, r: nat, c: nat)
    requires r < |lens|
    ensures |RowEdges(lens, r, c + 1)| == |RowEdges(lens, r, c)| + PointEdgeCount(lens, r, c)
  {
    assert |PointEdges(lens, r, c)| == PointEdgeCount(lens, r, c);
    PointKeysFresh(lens, r, c);
    AddDisjoint(RowEdges(lens, r, c), KeysOf(PointEdges(lens, r, c)));
  }

  lemma PointKeysFresh(lens: seq<nat>, r: nat, c: nat)
    requires r < |lens|
    ensures forall k :: k in RowEdges(lens, r, c) ==> k !in KeysOf(PointEdges(lens, r, c))
    ensures |KeysOf(PointEdges(lens, r, c))| == |PointEdges(lens, r, c)|
  {
    RowEdgesLo(lens, r, c);
    PointEdgesShape(lens, r, c);
    KeysOfSize(PointEdges(lens, r, c));
  }

  lemma {:induction false} EdgeSetPrefixSize(lens: seq<nat>, r: nat)
    requires r <= |lens|
    ensures |EdgesBefore(lens, r)| == EdgeCountBefore(lens, r)
  {
    if r > 0 {
      var p := r - 1;
      EdgeSetPrefixSize(lens, p);
      RowEdgesSize(lens, p, lens[p]);
      EdgesBeforeStep(lens, p);
      assert EdgeCountBefore(lens, p + 1) == EdgeCountBefore(lens, p) + RowEdgeCount(lens, p, lens[p]);
    }
  }

  lemma EdgesBeforeStep(lens: seq<nat>, r: nat)
    requires r < |lens|
    ensures |EdgesBefore(lens, r + 1)| == |EdgesBefore(lens, r)| + |RowEdges(lens, r, lens[r])|
  {
    RowEdgesLo(lens, r, lens[r]);
    forall k | k in EdgesBefore(lens, r)
      ensures k !in RowEdges(lens, r, lens[r])
    {
      EdgeBeforeLo(lens, r, k);
    }
    AddDisjoint(EdgesBefore(lens, r), RowEdges(lens, r, lens[r]));
  }

  /** The dictionary has one entry per assignment: no assignment overwrites an earlier edge. */
  lemma EdgeSetSize(lens: seq<nat>)
    ensures |InitialLines(lens)| == |EdgeSet(lens)| == EdgeCount(lens)
  {
    EdgeSetPrefixSize(lens, |lens|);
    assert InitialLines(lens).Keys == EdgeSet(lens);
  }

  /** A key assigned among the first c dots of a row stays assigned as the row goes on. */
  lemma {:induction false} RowEdgeGrow(lens: seq<nat>, r: nat, c: nat, c': nat, k: Key)
    requires r < |lens| && c <= c' && k in RowEdges(lens, r, c)
    ensures k in RowEdges(lens, r, c')
    decreases c' - c
  {
    if c < c' {
      RowEdgeKeep(lens, r, c, k);
      RowEdgeGrow(lens, r, c + 1, c', k);
    }
  }

  lemma RowEdgeKeep(lens: seq<nat>, r: nat, c: nat, k: Key)
    requires r < |lens| && k in RowEdges(lens, r, c)
    ensures k in RowEdges(lens, r, c + 1)
  {
  }

  /** A key assigned in the first r rows stays in the dictionary as later rows are visited. */
  lemma {:induction false} EdgeBeforeGrow(lens: seq<nat>, r: nat, r': nat, k: Key)
    requires r <= r' <= |lens| && k in EdgesBefore(lens, r)
    ensures k in EdgesBefore(lens, r')
    decreases r' - r
  {
    if r < r' {
      EdgeBeforeKeep(lens, r, k);
      EdgeBeforeGrow(lens, r + 1, r', k);
    }
  }

  lemma EdgeBeforeKeep(lens: seq<nat>, r: nat, k: Key)
    requires r < |lens| && k in EdgesBefore(lens, r)
    ensures k in EdgesBefore(lens, r + 1)
  {
  }

  lemma RowEdgeBefore(lens: seq<nat>, r: nat, k: Key)
    requires r < |lens| && k in RowEdges(lens, r, lens[r])
    ensures k in EdgesBefore(lens, r + 1)
  {
  }

  lemma PointEdgeInRow(lens: seq<nat>, r: nat, c: nat, k: Key)
    requires r < |lens| && k in PointEdges(lens, r, c)
    ensures k in RowEdges(lens, r, c + 1)
  {
  }

  /** Every edge assigned at a dot of the board is in the dictionary at the end. */
  lemma PointEdgesInEdgeSet(lens: seq<nat>, r: nat, c: nat)
    requires r < |lens| && c < lens[r]
    ensures forall k :: k in PointEdges(lens, r, c) ==> k in EdgeSet(lens)
  {
    forall k | k in PointEdges(lens, r, c)
      ensures k in EdgeSet(lens)
    {
      PointEdgeInRow(lens, r, c, k);
      RowEdgeGrow(lens, r, c + 1, lens[r], k);
      RowEdgeBefore(lens, r, k);
      EdgeBeforeGrow(lens, r + 1, |lens|, k);
    }
  }

  /** Every key of the dictionary was assigned at some dot of the board. */
  lemma {:induction false} EdgeOrigin(lens: seq<nat>, r: nat, c: nat, k: Key) returns (r0: nat, c0: nat)
    requires r < |lens| && c <= lens[r]
    requires k in EdgesBefore(lens, r) || k in RowEdges(lens, r, c)
    ensures r0 < |lens| && c0 < lens[r0] && k in PointEdges(lens, r0, c0)
    decreases r, c
  {
    if k in RowEdges(lens, r, c) {
      var p := c - 1;
      if k in KeysOf(PointEdges(lens, r, p)) {
        r0, c0 := r, p;
      } else {
        r0, c0 := EdgeOrigin(lens, r, p, k);
      }
    } else {
      var p := r - 1;
      EdgesBeforeSplit(lens, p, k);
      r0, c0 := EdgeOrigin(lens, p, lens[p], k);
    }
  }

  lemma EdgesBeforeSplit(lens: seq<nat>, r: nat, k: Key)
    requires r < |lens| && k in EdgesBefore(lens, r + 1)
    ensures k in EdgesBefore(lens, r) || k in RowEdges(lens, r, lens[r])
  {
  }

  /**
   * No dangling edges: on a valid profile every edge joins two dots of the
   * board, the first before the second; when adjacent rows differ by one
   * dot, every edge is a unit step in one of the six lattice directions.
   */
  lemma DownEdgeEndpoints(lens: seq<nat>, r: nat, c: nat, k: Key)
    requires ValidProfile(lens)
    requires r + 1 < |lens| && c < lens[r]
    requires k in DownEdges(lens, r, c)
    ensures k.lo == Point(r, c) && k.hi.r == r + 1 && InLattice(lens, k.hi)
    ensures UnitSteps(lens) ==> UnitStep(lens, k.lo, k.hi)
  {
    assert lens[r] <= lens[r + 1] + 1;
  }

  lemma EdgeEndpoints(lens: seq<nat>, k: Key)
    requires ValidProfile(lens)
    requires k in EdgeSet(lens)
    ensures InLattice(lens, k.lo) && InLattice(lens, k.hi) && Precedes(k.lo, k.hi)
    ensures UnitSteps(lens) ==> UnitStep(lens, k.lo, k.hi)
  {
    if |lens| == 0 {
      assert false;
    }
    var last := |lens| - 1;
    EdgesBeforeSplit(lens, last, k);
    var r, c := EdgeOrigin(lens, last, lens[last], k);
    if k !in RightEdges(lens, r, c) {
      DownEdgeEndpoints(lens, r, c, k);
    }
  }

  // ----- cells -----

  /** A new cell: three edge keys, unfilled, owned by nobody. */
  function Cell(k1: Key, k2: Key, k3: Key): Triangle
  {
    Triangle([k1, k2, k3], false, 0)
  }

  /** The number of columns the cell loop visits for row pair (r, r + 1). */
  function PairWidth(lens: seq<nat>, r: nat): nat
    requires r + 1 < |lens|
  {
    if lens[r + 1] > lens[r] then lens[r] else lens[r + 1]
  }

  /** The cells pushed at column c of row pair (r, r + 1): up to two, each only if its three dots exist. */
  function CellsAt(lens: seq<nat>, r: nat, c: nat): seq<Triangle>
    requires r + 1 < |lens|
  {
    if lens[r + 1] > lens[r] then
      var d1, d2, d3 := Point(r, c), Point(r + 1, c), Point(r + 1, c + 1);
      (if InLattice(lens, d1) && InLattice(lens, d2) && InLattice(lens, d3)
       then [Cell(LineId(d1, d2), LineId(d1, d3), LineId(d2, d3))] else [])
      + (if c + 1 < lens[r] then
           var d4 := Point(r, c + 1);
           if InLattice(lens, d1) && InLattice(lens, d4) && InLattice(lens, d3)
           then [Cell(LineId(d1, d4), LineId(d1, d3), LineId(d4, d3))] else []
         else [])
    else
      var d1, d2, d3 := Point(r, c), Point(r, c + 1), Point(r + 1, c);
      (if InLattice(lens, d1) && InLattice(lens, d2) && InLattice(lens, d3)
       then [Cell(LineId(d1, d2), LineId(d1, d3), LineId(d2, d3))] else [])
      + (if c + 1 < lens[r + 1] then
           var d4 := Point(r + 1, c + 1);
           if InLattice(lens, d2) && InLattice(lens, d3) && InLattice(lens, d4)
           then [Cell(LineId(d2, d3), LineId(d2, d4), LineId(d3, d4))] else []
         else [])
  }

  /** The cells pushed for the first `c` columns of row pair (r, r + 1). */
  function RowPairCells(lens: seq<nat>, r: nat, c: nat): seq<Triangle>
    requires r + 1 < |lens|
  {
    if c == 0 then [] else RowPairCells(lens, r, c - 1) + CellsAt(lens, r, c - 1)
  }

  /** The cells pushed for row pairs 0 .. r-1. */
  function CellsBefore(lens: seq<nat>, r: nat): seq<Triangle>
    requires r == 0 || r < |lens|
  {
    if r == 0 then [] else CellsBefore(lens, r - 1) + RowPairCells(lens, r - 1, PairWidth(lens, r - 1))
  }

  /** `triangles` as initGame leaves it. */
  function InitialTriangles(lens: seq<nat>): seq<Triangle>
  {
    CellsBefore(lens, if |lens| == 0 then 0 else |lens| - 1)
  }

  /** A cell as the builder pushes it: three keys of the dictionary, unfilled, owned by nobody. */
  predicate NewCell(lens: seq<nat>, t: Triangle)
  {
    |t.lineKeys| == 3 && !t.filled && t.player == 0 && forall k :: k in t.lineKeys ==> k in EdgeSet(lens)
  }

  lemma CellsAtClosed(lens: seq<nat>, r: nat, c: nat)
    requires r + 1 < |lens|
    ensures forall t :: t in CellsAt(lens, r, c) ==> NewCell(lens, t)
  {
    if c < lens[r] {
      PointEdgesInEdgeSet(lens, r, c);
    }
    if c + 1 < lens[r] {
      PointEdgesInEdgeSet(lens, r, c + 1);
    }
    if c < lens[r + 1] {
      PointEdgesInEdgeSet(lens, r + 1, c);
    }
  }

  lemma CellAtClosed(lens: seq<nat>, r: nat, c: nat, t: Triangle)
    requires r + 1 < |lens| && t in CellsAt(lens, r, c)
    ensures NewCell(lens, t)
  {
    CellsAtClosed(lens, r, c);
  }

  lemma {:induction false} RowPairCellClosed(lens: seq<nat>, r: nat, c: nat, t: Triangle)
    requires r + 1 < |lens| && t in RowPairCells(lens, r, c)
    ensures NewCell(lens, t)
  {
    if c > 0 {
      var p := c - 1;
      RowPairCellsSplit(lens, r, p, t);
      if t in RowPairCells(lens, r, p) {
        RowPairCellClosed(lens, r, p, t);
      } else {
        CellAtClosed(lens, r, p, t);
      }
    }
  }

  lemma RowPairCellsSplit(lens: seq<nat>, r: nat, c: nat, t: Triangle)
    requires r + 1 < |lens| && t in RowPairCells(lens, r, c + 1)
    ensures t in RowPairCells(lens, r, c) || t in CellsAt(lens, r, c)
  {
  }

  lemma {:induction false} CellBeforeClosed(lens: seq<nat>, r: nat, t: Triangle)
    requires (r == 0 || r < |lens|) && t in CellsBefore(lens, r)
    ensures NewCell(lens, t)
  {
    if r > 0 {
      var p := r - 1;
      CellsBeforeSplit(lens, p, t);
      if t in CellsBefore(lens, p) {
        CellBeforeClosed(lens, p, t);
      } else {
        RowPairCellClosed(lens, p, PairWidth(lens, p), t);
      }
    }
  }

  lemma CellsBeforeSplit(lens: seq<nat>, r: nat, t: Triangle)
    requires r + 1 < |lens| && t in CellsBefore(lens, r + 1)
    ensures t in CellsBefore(lens, r) || t in RowPairCells(lens, r, PairWidth(lens, r))
  {
  }

  /** Every cell the builder pushes for row pairs 0 .. r-1 is a new cell over existing edges. */
  lemma CellsBeforeClosed(lens: seq<nat>, r: nat)
    requires r == 0 || r < |lens|
    ensures forall t :: t in CellsBefore(lens, r) ==> NewCell(lens, t)
  {
    forall t | t in CellsBefore(lens, r)
      ensures NewCell(lens, t)
    {
      CellBeforeClosed(lens, r, t);
    }
  }

  /**
   * Every cell refers to three edges that exist (for any profile), and the
   * board a new game starts from satisfies the invariant the state mutator
   * keeps: nothing drawn, nothing filled, nobody scored.
   */
  lemma InitialBoardConsistent(lens: seq<nat>)
    ensures forall t :: t in InitialTriangles(lens) ==> NewCell(lens, t)
    ensures Consistent(Board(InitialLines(lens), InitialTriangles(lens)))
    ensures FilledCount(InitialTriangles(lens)) == 0
    ensures FilledBy(InitialTriangles(lens), HUMAN) == 0 && FilledBy(InitialTriangles(lens), AI) == 0
  {
    var tris := InitialTriangles(lens);
    CellsBeforeClosed(lens, if |lens| == 0 then 0 else |lens| - 1);
    forall i | 0 <= i < |tris|
      ensures CellOk(InitialLines(lens), tris[i])
    {
      assert tris[i] in tris;
      assert tris[i].lineKeys[0] in tris[i].lineKeys;
    }
    NothingFilled(tris);
  }

  lemma {:induction false} NothingFilled(tris: seq<Triangle>)
    requires forall t :: t in tris ==> !t.filled
    ensures FilledCount(tris) == 0 && FilledBy(tris, HUMAN) == 0 && FilledBy(tris, AI) == 0
  {
    if tris != [] {
      NothingFilled(tris[..|tris| - 1]);
    }
  }

  /**
   * When adjacent rows differ by exactly one dot, a row pair of width w
   * (the shorter row's length) holds 2w - 1 cells: two per column, one at
   * the last; the first c < w columns hold 2c.
   */
  lemma {:induction false} RowPairCellCount(lens: seq<nat>, r: nat, c: nat)
    requires r + 1 < |lens|
    requires lens[r + 1] == lens[r] + 1 || lens[r] == lens[r + 1] + 1
    requires c <= PairWidth(lens, r)
    ensures |RowPairCells(lens, r, c)| == if 0 < c == PairWidth(lens, r) then 2 * c - 1 else 2 * c
  {
    if c > 0 {
      var p := c - 1;
      CellsAtCount(lens, r, p);
      RowPairCellCount(lens, r, p);
      assert RowPairCells(lens, r, p + 1) == RowPairCells(lens, r, p) + CellsAt(lens, r, p);
    }
  }

  lemma CellsAtCount(lens: seq<nat>, r: nat, c: nat)
    requires r + 1 < |lens|
    requires lens[r + 1] == lens[r] + 1 || lens[r] == lens[r + 1] + 1
    requires c < PairWidth(lens, r)
    ensures |CellsAt(lens, r, c)| == if c + 1 < PairWidth(lens, r) then 2 else 1
  {
  }

  lemma CellsBeforeCount(lens: seq<nat>, r: nat)
    requires r + 1 < |lens|
    ensures |CellsBefore(lens, r + 1)| == |CellsBefore(lens, r)| + |RowPairCells(lens, r, PairWidth(lens, r))|
  {
  }

  /** The small board [3, 4, 5, 4, 3] has 5 + 7 + 7 + 5 = 24 cells. */
  lemma SmallBoardCells()
    ensures |InitialTriangles(ComputeRowLengths("small"))| == 24
  {
    var lens := ComputeRowLengths("small");
    assert lens == [3, 4, 5, 4, 3];
    RowPairCellCount(lens, 0, 3);
    RowPairCellCount(lens, 1, 4);
    RowPairCellCount(lens, 2, 4);
    RowPairCellCount(lens, 3, 3);
    CellsBeforeCount(lens, 0);
    CellsBeforeCount(lens, 1);
    CellsBeforeCount(lens, 2);
    CellsBeforeCount(lens, 3);
  }

  // ----- every edge borders a cell -----

  lemma RowPairCellKeep(lens: seq<nat>, r: nat, c: nat, t: Triangle)
    requires r + 1 < |lens| && t in RowPairCells(lens, r, c)
    ensures t in RowPairCells(lens, r, c + 1)
  {
  }

  lemma {:induction false} RowPairCellGrow(lens: seq<nat>, r: nat, c: nat, c': nat, t: Triangle)
    requires r + 1 < |lens| && c <= c' && t in RowPairCells(lens, r, c)
    ensures t in RowPairCells(lens, r, c')
    decreases c' - c
  {
    if c < c' {
      RowPairCellKeep(lens, r, c, t);
      RowPairCellGrow(lens, r, c + 1, c', t);
    }
  }

  lemma CellIndexKeep(lens: seq<nat>, r: nat, i: nat, t: Triangle)
    requires r + 1 < |lens| && i < |CellsBefore(lens, r)| && CellsBefore(lens, r)[i] == t
    ensures i < |CellsBefore(lens, r + 1)| && CellsBefore(lens, r + 1)[i] == t
  {
  }

  /** The cells pushed for the first r row pairs keep their places as later pairs are visited. */
  lemma {:induction false} CellIndexGrow(lens: seq<nat>, r: nat, r': nat, i: nat, t: Triangle)
    requires r <= r' < |lens| && i < |CellsBefore(lens, r)| && CellsBefore(lens, r)[i] == t
    ensures i < |CellsBefore(lens, r')| && CellsBefore(lens, r')[i] == t
    decreases r' - r
  {
    if r < r' {
      CellIndexKeep(lens, r, i, t);
      CellIndexGrow(lens, r + 1, r', i, t);
    }
  }

  lemma CellAtPushed(lens: seq<nat>, r: nat, c: nat, t: Triangle)
    requires r + 1 < |lens| && t in CellsAt(lens, r, c)
    ensures t in RowPairCells(lens, r, c + 1)
  {
  }

  lemma RowPairPushed(lens: seq<nat>, r: nat, t: Triangle)
    requires r + 1 < |lens| && t in RowPairCells(lens, r, PairWidth(lens, r))
    ensures t in CellsBefore(lens, r + 1)
  {
  }

  /** A cell pushed at a column the cell loop visits stays in the finished list. */
  lemma CellAtInitial(lens: seq<nat>, r: nat, c: nat, t: Triangle)
    requires r + 1 < |lens| && c < PairWidth(lens, r) && t in CellsAt(lens, r, c)
    ensures t in InitialTriangles(lens)
  {
    CellAtPushed(lens, r, c, t);
    RowPairCellGrow(lens, r, c + 1, PairWidth(lens, r), t);
    PairCellInitial(lens, r, t);
  }

  /** A cell of a finished row pair stays in the finished list. */
  lemma PairCellInitial(lens: seq<nat>, r: nat, t: Triangle)
    requires r + 1 < |lens| && t in RowPairCells(lens, r, PairWidth(lens, r))
    ensures t in InitialTriangles(lens)
  {
    RowPairPushed(lens, r, t);
    var i := IndexOf(CellsBefore(lens, r + 1), t);
    BeforeCellInitial(lens, r + 1, i, t);
  }

  lemma BeforeCellInitial(lens: seq<nat>, r: nat, i: nat, t: Triangle)
    requires r < |lens| && i < |CellsBefore(lens, r)| && CellsBefore(lens, r)[i] == t
    ensures t in InitialTriangles(lens)
  {
    CellIndexGrow(lens, r, |lens| - 1, i, t);
    AtIndex(CellsBefore(lens, |lens| - 1), i, t);
  }

  lemma IndexOf(s: seq<Triangle>, t: Triangle) returns (i: nat)
    requires t in s
    ensures i < |s| && s[i] == t
  {
    i :| 0 <= i < |s| && s[i] == t;
  }

  lemma AtIndex(s: seq<Triangle>, i: nat, t: Triangle)
    requires i < |s| && s[i] == t
    ensures t in s
  {
  }

  /** The edge from (r, c) to (r, c + 1) is a side of a cell of row pair (r, r + 1). */
  lemma RightEdgeCellBelow(lens: seq<nat>, r: nat, c: nat) returns (t: Triangle)
    requires UnitSteps(lens) && r + 1 < |lens| && c + 1 < lens[r]
    ensures t in InitialTriangles(lens) && LineId(Point(r, c), Point(r, c + 1)) in t.lineKeys
  {
    var d1, d4 := Point(r, c), Point(r, c + 1);
    var d3 := if lens[r + 1] > lens[r] then Point(r + 1, c + 1) else Point(r + 1, c);
    t := Cell(LineId(d1, d4), LineId(d1, d3), LineId(d4, d3));
    assert t in CellsAt(lens, r, c);
    CellAtInitial(lens, r, c, t);
  }

  /** The edge from (r + 1, c) to (r + 1, c + 1) is a side of a cell of row pair (r, r + 1). */
  lemma RightEdgeCellAbove(lens: seq<nat>, r: nat, c: nat) returns (t: Triangle)
    requires UnitSteps(lens) && r + 1 < |lens| && c + 1 < lens[r + 1]
    ensures t in InitialTriangles(lens) && LineId(Point(r + 1, c), Point(r + 1, c + 1)) in t.lineKeys
  {
    var d3, d4 := Point(r + 1, c), Point(r + 1, c + 1);
    if lens[r + 1] > lens[r] {
      var d1 := Point(r, c);
      t := Cell(LineId(d1, d3), LineId(d1, d4), LineId(d3, d4));
    } else {
      var d2 := Point(r, c + 1);
      t := Cell(LineId(d2, d3), LineId(d2, d4), LineId(d3, d4));
    }
    assert t in CellsAt(lens, r, c);
    CellAtInitial(lens, r, c, t);
  }

  /** An edge from (r, c) down to row r + 1 is a side of a cell of row pair (r, r + 1). */
  lemma DownEdgeCell(lens: seq<nat>, r: nat, c: nat, k: Key) returns (t: Triangle)
    requires UnitSteps(lens) && r + 1 < |lens| && c < lens[r] && k in DownEdges(lens, r, c)
    ensures t in InitialTriangles(lens) && k in t.lineKeys
  {
    var d1 := Point(r, c);
    if lens[r + 1] > lens[r] {
      var d2, d3 := Point(r + 1, c), Point(r + 1, c + 1);
      t := Cell(LineId(d1, d2), LineId(d1, d3), LineId(d2, d3));
      assert t in CellsAt(lens, r, c);
      CellAtInitial(lens, r, c, t);
    } else if c < lens[r + 1] && k == LineId(d1, Point(r + 1, c)) {
      var d2, d3 := Point(r, c + 1), Point(r + 1, c);
      t := Cell(LineId(d1, d2), LineId(d1, d3), LineId(d2, d3));
      assert t in CellsAt(lens, r, c);
      CellAtInitial(lens, r, c, t);
    } else {
      var e1, e3 := Point(r, c - 1), Point(r + 1, c - 1);
      t := Cell(LineId(e1, d1), LineId(e1, e3), LineId(d1, e3));
      assert t in CellsAt(lens, r, c - 1);
      CellAtInitial(lens, r, c - 1, t);
    }
  }

  /**
   * Every edge of the dictionary is a side of some cell of the list (the
   * converse of every cell's edges being in the dictionary): no edge lies
   * outside the cells.
   */
  lemma EdgeHasCell(lens: seq<nat>, k: Key) returns (t: Triangle)
    requires UnitSteps(lens) && |lens| >= 2 && k in EdgeSet(lens)
    ensures t in InitialTriangles(lens) && k in t.lineKeys
  {
    var last := |lens| - 1;
    EdgesBeforeSplit(lens, last, k);
    var r, c := EdgeOrigin(lens, last, lens[last], k);
    if k in RightEdges(lens, r, c) {
      if r + 1 < |lens| {
        t := RightEdgeCellBelow(lens, r, c);
      } else {
        t := RightEdgeCellAbove(lens, r - 1, c);
      }
    } else {
      t := DownEdgeCell(lens, r, c, k);
    }
  }

  /** The board a new game starts from has every edge on a cell. */
  lemma InitialCovered(lens: seq<nat>)
    requires UnitSteps(lens) && |lens| >= 2
    ensures Covered(Board(InitialLines(lens), InitialTriangles(lens)))
  {
    var tris := InitialTriangles(lens);
    forall k | k in InitialLines(lens)
      ensures k in CellKeys(tris)
    {
      var t := EdgeHasCell(lens, k);
      var i :| 0 <= i < |tris| && tris[i] == t;
      CellKeysSpec(tris, k);
    }
  }

  // ----- the builder's loops -----

  /**
   * initGame, steps 4 and 5: the edge dictionary and the cell list of a new
   * game.
   */
  method BuildLattice(lens: seq<nat>) returns (lines: map<Key, Line>, triangles: seq<Triangle>, totalTriangles: nat)
    ensures lines == InitialLines(lens)
    ensures triangles == InitialTriangles(lens)
    ensures totalTriangles == |triangles|
  {
    lines := BuildLines(lens);
    triangles, totalTriangles := BuildCells(lens);
  }

  /** Step 4: visit every dot row by row and assign its edges. */
  method BuildLines(lens: seq<nat>) returns (lines: map<Key, Line>)
    ensures lines == InitialLines(lens)
  {
    lines := map[];
    var r := 0;
    while r < |lens|
      invariant 0 <= r <= |lens|
      invariant lines == Fresh(EdgesBefore(lens, r))
    {
      lines := AssignRowEdges(lens, r, lines);
      r := r + 1;
    }
  }

  /** Step 4, one row: visit its dots left to right. */
  method AssignRowEdges(lens: seq<nat>, r: nat, lines0: map<Key, Line>) returns (lines: map<Key, Line>)
    requires r < |lens|
    requires lines0 == Fresh(EdgesBefore(lens, r))
    ensures lines == Fresh(EdgesBefore(lens, r + 1))
  {
    lines := lines0;
    var c := 0;
    assert EdgesBefore(lens, r) + RowEdges(lens, r, 0) == EdgesBefore(lens, r);
    while c < lens[r]
      invariant 0 <= c <= lens[r]
      invariant lines == Fresh(EdgesBefore(lens, r) + RowEdges(lens, r, c))
    {
      var next := AssignDotEdges(lens, r, c, lines);
      FreshAssigns(EdgesBefore(lens, r) + RowEdges(lens, r, c), lines, next, PointEdges(lens, r, c));
      RowEdgesUnfold(lens, r, c, EdgesBefore(lens, r));
      lines := next;
      c := c + 1;
    }
  }

  lemma FreshAssigns(keys: set<Key>, lines: map<Key, Line>, next: map<Key, Line>, ks: seq<Key>)
    requires lines == Fresh(keys) && Assigns(lines, next, ks)
    ensures next == Fresh(keys + KeysOf(ks))
  {
  }

  lemma RowEdgesUnfold(lens: seq<nat>, r: nat, c: nat, base: set<Key>)
    requires r < |lens|
    ensures base + RowEdges(lens, r, c + 1) == base + RowEdges(lens, r, c) + KeysOf(PointEdges(lens, r, c))
  {
  }

  /** `next` is `lines` with an undrawn entry (re)assigned for each key of `ks`. */
  ghost predicate Assigns(lines: map<Key, Line>, next: map<Key, Line>, ks: seq<Key>)
  {
    && next.Keys == lines.Keys + KeysOf(ks)
    && (forall k :: k in next ==> next[k] == if k in ks then Undrawn else lines[k])
  }

  /** The assignments made while visiting dot (r, c). */
  method AssignDotEdges(lens: seq<nat>, r: nat, c: nat, lines: map<Key, Line>) returns (next: map<Key, Line>)
    requires r < |lens|
    ensures Assigns(lines, next, PointEdges(lens, r, c))
  {
    next := AssignRightEdge(lens, r, c, lines);
    if r + 1 < |lens| {
      var down := AssignDownEdges(lens, r, c, next);
      AssignsTrans(lines, next, down, RightEdges(lens, r, c), DownEdges(lens, r, c));
      next := down;
    } else {
      assert PointEdges(lens, r, c) == RightEdges(lens, r, c) + [];
    }
  }

  /** Step 4a: the edge to the next dot of the row. */
  method AssignRightEdge(lens: seq<nat>, r: nat, c: nat, lines: map<Key, Line>) returns (next: map<Key, Line>)
    requires r < |lens|
    ensures Assigns(lines, next, RightEdges(lens, r, c))
  {
    next := lines;
    if c + 1 < lens[r] {
      next := next[LineId(Point(r, c), Point(r, c + 1)) := Undrawn];
    }
  }

  /** Step 4b: the edges to the row below, by the growing or the shrinking rule. */
  method AssignDownEdges(lens: seq<nat>, r: nat, c: nat, lines: map<Key, Line>) returns (next: map<Key, Line>)
    requires r + 1 < |lens|
    ensures Assigns(lines, next, DownEdges(lens, r, c))
  {
    var d1 := Point(r, c);
    ghost var done: seq<Key> := [];
    AssignsNothing(lines);
    next := lines;
    if lens[r + 1] > lens[r] {
      next, done := AssignEdge(lines, next, done, LineId(d1, Point(r + 1, c)));
      next, done := AssignEdge(lines, next, done, LineId(d1, Point(r + 1, c + 1)));
    } else {
      if c < lens[r + 1] {
        next, done := AssignEdge(lines, next, done, LineId(d1, Point(r + 1, c)));
      }
      if c > 0 {
        next, done := AssignEdge(lines, next, done, LineId(d1, Point(r + 1, c - 1)));
      }
    }
    assert done == DownEdges(lens, r, c);
  }

  /** One assignment `lines[id] = { drawn: false, player: 0, sharedBy: 0 }`. */
  method AssignEdge(lines: map<Key, Line>, m: map<Key, Line>, ghost done: seq<Key>, id: Key)
    returns (next: map<Key, Line>, ghost done': seq<Key>)
    requires Assigns(lines, m, done)
    ensures next == m[id := Undrawn] && done' == done + [id]
    ensures Assigns(lines, next, done')
  {
    next := m[id := Undrawn];
    done' := done + [id];
    assert KeysOf(done') == KeysOf(done) + {id};
  }

  lemma AssignsNothing(m: map<Key, Line>)
    ensures Assigns(m, m, [])
  {
    assert KeysOf([]) == {};
  }

  lemma AssignsTrans(m0: map<Key, Line>, m1: map<Key, Line>, m2: map<Key, Line>, ks1: seq<Key>, ks2: seq<Key>)
    requires Assigns(m0, m1, ks1) && Assigns(m1, m2, ks2)
    ensures Assigns(m0, m2, ks1 + ks2)
  {
    assert KeysOf(ks1 + ks2) == KeysOf(ks1) + KeysOf(ks2);
  }

  /** Step 5: visit every row pair column by column and push its cells. */
  method BuildCells(lens: seq<nat>) returns (triangles: seq<Triangle>, totalTriangles: nat)
    ensures triangles == InitialTriangles(lens)
    ensures totalTriangles == |triangles|
  {
    triangles := [];
    totalTriangles := 0;
    var r := 0;
    while r < |lens| - 1
      invariant 0 <= r && (r == 0 || r < |lens|)
      invariant triangles == CellsBefore(lens, r)
      invariant totalTriangles == |triangles|
    {
      var len1, len2 := lens[r], lens[r + 1];
      if len2 > len1 {
        triangles, totalTriangles := PushGrowingCells(lens, r, triangles, totalTriangles);
      } else {
        triangles, totalTriangles := PushShrinkingCells(lens, r, triangles, totalTriangles);
      }
      r := r + 1;
    }
  }

  /** Step 5, upper half: the next row is longer; two cell shapes per column. */
  method PushGrowingCells(lens: seq<nat>, r: nat, cells: seq<Triangle>, count: nat)
    returns (triangles: seq<Triangle>, totalTriangles: nat)
    requires r + 1 < |lens| && lens[r + 1] > lens[r]
    requires count == |cells|
    ensures triangles == cells + RowPairCells(lens, r, PairWidth(lens, r))
    ensures totalTriangles == |triangles|
  {
    triangles, totalTriangles := cells, count;
    var width := lens[r];
    assert width == PairWidth(lens, r);
    var c := 0;
    while c < width
      invariant 0 <= c <= width
      invariant triangles == cells + RowPairCells(lens, r, c)
      invariant totalTriangles == |triangles|
    {
      var next, n := PushGrowingColumn(lens, r, c, triangles, totalTriangles);
      RowPairCellsStep(cells, lens, r, c);
      triangles, totalTriangles, c := next, n, c + 1;
    }
  }

  /** One column of the upper half: the cell pointing down, then the cell pointing up. */
  method PushGrowingColumn(lens: seq<nat>, r: nat, c: nat, cells: seq<Triangle>, count: nat)
    returns (triangles: seq<Triangle>, totalTriangles: nat)
    requires r + 1 < |lens| && lens[r + 1] > lens[r] && c < lens[r]
    requires count == |cells|
    ensures triangles == cells + CellsAt(lens, r, c)
    ensures totalTriangles == |triangles|
  {
    triangles, totalTriangles := cells, count;
    var d1, d2, d3 := Point(r, c), Point(r + 1, c), Point(r + 1, c + 1);
    if InLattice(lens, d1) && InLattice(lens, d2) && InLattice(lens, d3) {
      triangles := triangles + [Cell(LineId(d1, d2), LineId(d1, d3), LineId(d2, d3))];
      totalTriangles := totalTriangles + 1;
    }
    if c < lens[r] - 1 {
      var d4 := Point(r, c + 1);
      if InLattice(lens, d1) && InLattice(lens, d4) && InLattice(lens, d3) {
        triangles := triangles + [Cell(LineId(d1, d4), LineId(d1, d3), LineId(d4, d3))];
        totalTriangles := totalTriangles + 1;
      }
    }
  }

  /** Step 5, lower half: the next row is not longer; two cell shapes per column, mirrored. */
  method PushShrinkingCells(lens: seq<nat>, r: nat, cells: seq<Triangle>, count: nat)
    returns (triangles: seq<Triangle>, totalTriangles: nat)
    requires r + 1 < |lens| && lens[r + 1] <= lens[r]
    requires count == |cells|
    ensures triangles == cells + RowPairCells(lens, r, PairWidth(lens, r))
    ensures totalTriangles == |triangles|
  {
    triangles, totalTriangles := cells, count;
    var width := lens[r + 1];
    assert width == PairWidth(lens, r);
    var c := 0;
    while c < width
      invariant 0 <= c <= width
      invariant triangles == cells + RowPairCells(lens, r, c)
      invariant totalTriangles == |triangles|
    {
      var next, n := PushShrinkingColumn(lens, r, c, triangles, totalTriangles);
      RowPairCellsStep(cells, lens, r, c);
      triangles, totalTriangles, c := next, n, c + 1;
    }
  }

  /** One column of the lower half: the cell pointing up, then the cell pointing down. */
  method PushShrinkingColumn(lens: seq<nat>, r: nat, c: nat, cells: seq<Triangle>, count: nat)
    returns (triangles: seq<Triangle>, totalTriangles: nat)
    requires r + 1 < |lens| && lens[r + 1] <= lens[r] && c < lens[r + 1]
    requires count == |cells|
    ensures triangles == cells + CellsAt(lens, r, c)
    ensures totalTriangles == |triangles|
  {
    triangles, totalTriangles := cells, count;
    var d1, d2, d3 := Point(r, c), Point(r, c + 1), Point(r + 1, c);
    if InLattice(lens, d1) && InLattice(lens, d2) && InLattice(lens, d3) {
      triangles := triangles + [Cell(LineId(d1, d2), LineId(d1, d3), LineId(d2, d3))];
      totalTriangles := totalTriangles + 1;
    }
    if c < lens[r + 1] - 1 {
      var d4 := Point(r + 1, c + 1);
      if InLattice(lens, d2) && InLattice(lens, d3) && InLattice(lens, d4) {
        triangles := triangles + [Cell(LineId(d2, d3), LineId(d2, d4), LineId(d3, d4))];
        totalTriangles := totalTriangles + 1;
      }
    }
  }

  lemma RowPairCellsStep(cells: seq<Triangle>, lens: seq<nat>, r: nat, c: nat)
    requires r + 1 < |lens|
    ensures cells + RowPairCells(lens, r, c) + CellsAt(lens, r, c) == cells + RowPairCells(lens, r, c + 1)
  {
  }
}
