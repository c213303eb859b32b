/**
 * One game in progress: the state initGame sets up and that confirmLine
 * (a human stroke), makeAIMove (the computer's stroke) and switchPlayer
 * update in place.
 */
module Game {
  import opened Wrappers
  import opened Lattice
  import opened Board
  import opened Builder
  import opened Moves
  import opened Search

  /** switchPlayer's toggle: seat 1 hands over to seat 2, any other seat to seat 1. */
  function Other(p: int): (q: int)
    ensures IsSeat(q)
    ensures IsSeat(p) ==> q != p
  {
    if p == HUMAN then AI else HUMAN
  }

  /** How a turn ends. */
  datatype Outcome =
    | Rejected               // the stroke is not legal; nothing changes
    | Ignored                // makeAIMove's guard: not the computer's turn, or no computer player
    | Ended                  // every cell is filled: the game is over
    | Switched(aiToMove: bool)  // the turn passed; aiToMove: the computer's move is due

  /**
   * The end test that confirmLine and the computer's move both run after a
   * stroke (`totalFilledThisGame === totalTriangles`), stated as an
   * if-and-only-if: the game is over exactly when the filled cells number
   * totalTriangles, and the actor stays recorded as the last to move;
   * otherwise the turn passes, scored or not, to the other seat.
   */
  function AfterStroke(filled: nat, totalTriangles: nat, actor: int, aiActive: bool): (r: (Outcome, int))
    ensures r.0 == Ended <==> filled == totalTriangles
    ensures r.0 == Ended ==> r.1 == actor
    ensures r.0 != Ended ==> r.0 == Switched(aiActive && r.1 == AI) && r.1 == Other(actor)
  {
    if filled == totalTriangles then (Ended, actor)
    else (Switched(aiActive && Other(actor) == AI), Other(actor))
  }

  /** One iteration of the scoring loop: the cell after it, and the point it earns. */
  method ScoreCell(lines: map<Key, Line>, tri: Triangle, actor: int) returns (next: Triangle, gained: nat)
    ensures next == FillTriangle(lines, tri, actor)
    ensures gained == (if !tri.filled && Complete(lines, tri) then 1 else 0)
  {
    next, gained := tri, 0;
    if !tri.filled && Complete(lines, tri) {
      next, gained := tri.(filled := true, player := actor), 1;
    }
  }

  /**
   * The `triangles.forEach` loop: each unfilled cell whose edges are all
   * drawn becomes `actor`'s, earning one point; the filled cells, old and
   * new, are counted.
   */
  method FillCells(lines: map<Key, Line>, cells: seq<Triangle>, actor: int)
    returns (tris: seq<Triangle>, points: nat, totalFilled: nat)
    ensures tris == FillTriangles(lines, cells, actor)
    ensures points == Gained(lines, cells)
    ensures totalFilled == FilledCount(tris)
  {
    tris, points, totalFilled := cells, 0, 0;
    var i := 0;
    while i < |cells|
      invariant 0 <= i <= |cells| && |tris| == |cells|
      invariant forall j :: 0 <= j < i ==> tris[j] == FillTriangle(lines, cells[j], actor)
      invariant forall j :: i <= j < |tris| ==> tris[j] == cells[j]
      invariant points == Gained(lines, cells[..i])
      invariant totalFilled == FilledCount(tris[..i])
    {
      var next, gained := ScoreCell(lines, tris[i], actor);
      tris := tris[i := next];
      points := points + gained;
      if next.filled {
        totalFilled := totalFilled + 1;
      }
      CountStep(lines, cells, tris, i);
      i := i + 1;
    }
    assert cells[..|cells|] == cells;
    assert tris[..|tris|] == tris;
  }

  /** Extending the scanned prefix by cell `i` adds that cell to both counts. */
  lemma CountStep(lines: map<Key, Line>, cells: seq<Triangle>, tris: seq<Triangle>, i: int)
    requires 0 <= i < |cells| && i < |tris|
    ensures Gained(lines, cells[..i + 1]) == Gained(lines, cells[..i]) + (if !cells[i].filled && Complete(lines, cells[i]) then 1 else 0)
    ensures FilledCount(tris[..i + 1]) == FilledCount(tris[..i]) + (if tris[i].filled then 1 else 0)
  {
    assert cells[..i + 1][..i] == cells[..i];
    assert tris[..i + 1][..i] == tris[..i];
  }

  /** `scores` holds one tally per seat, equal to the number of cells that seat filled. */
  ghost predicate Tallied(b: Board, scores: map<int, int>)
  {
    && scores.Keys == {HUMAN, AI}
    && scores[HUMAN] == FilledBy(b.triangles, HUMAN)
    && scores[AI] == FilledBy(b.triangles, AI)
  }

  /**
   * A stroke that draws a new segment keeps the board consistent, and
   * crediting the actor with simulateMove's score keeps every tally equal
   * to the cells its seat owns.
   */
  lemma StrokeKeepsTally(b: Board, scores: map<int, int>, actor: int, ids: seq<Key>)
    requires Consistent(b) && Tallied(b, scores) && IsSeat(actor)
    requires NewSegmentDrawn(b.lines, ids)
    ensures var sim := SimulateMove(ids, b, actor).value;
      && Consistent(sim.board)
      && Tallied(sim.board, scores[actor := scores[actor] + sim.scoreGained])
  {
    var sim := SimulateMove(ids, b, actor).value;
    SimulatePreservesConsistent(ids, b, actor);
    GainedCountsNewCells(sim.board.lines, b.triangles, actor, Other(actor));
  }

  class Game {
    var lens: seq<nat>
    var required: int
    var lines: map<Key, Line>
    var triangles: seq<Triangle>
    var totalTriangles: nat
    var scores: map<int, int>
    var currentPlayer: int
    var aiActive: bool

    /**
     * The game's invariant: the board is consistent, every edge is a side
     * of a cell, totalTriangles counts the cells, the player to move is a
     * seat, and each seat's score is the number of cells it filled.
     */
    ghost predicate Valid()
      reads this
    {
      && Consistent(Board(lines, triangles))
      && Covered(Board(lines, triangles))
      && Tallied(Board(lines, triangles), scores)
      && totalTriangles == |triangles|
      && IsSeat(currentPlayer)
    }

    function State(): Board
      reads this
    {
      Board(lines, triangles)
    }

    /** initGame: the profile of the chosen size, an untouched board, seat 1 to move, no score. */
    constructor (size: string, required: int, aiActive: bool)
      ensures Valid()
      ensures lens == ComputeRowLengths(size) && this.required == required && this.aiActive == aiActive
      ensures lines == InitialLines(lens) && triangles == InitialTriangles(lens)
      ensures currentPlayer == HUMAN && scores == map[HUMAN := 0, AI := 0]
    {
      var profile := ComputeRowLengths(size);
      var builtLines, builtTriangles, total := BuildLattice(profile);
      InitialBoardConsistent(profile);
      InitialCovered(profile);
      lens := profile;
      this.required := required;
      lines := builtLines;
      triangles := builtTriangles;
      totalTriangles := total;
      scores := map[HUMAN := 0, AI := 0];
      currentPlayer := HUMAN;
      this.aiActive := aiActive;
    }

    /** switchPlayer: hand the turn to the other seat; report whether the computer's move is now due. */
    method SwitchPlayer() returns (aiToMove: bool)
      modifies this
      ensures currentPlayer == Other(old(currentPlayer))
      ensures aiToMove == (aiActive && currentPlayer == AI)
      ensures lens == old(lens) && required == old(required) && lines == old(lines) && triangles == old(triangles)
      ensures totalTriangles == old(totalTriangles) && scores == old(scores) && aiActive == old(aiActive)
    {
      currentPlayer := if currentPlayer == HUMAN then AI else HUMAN;
      aiToMove := aiActive && currentPlayer == AI;
    }

    /**
     * The segment loop of confirmLine and makeAIMove: trace `ids` in order
     * for the player to move, and report whether some segment was undrawn.
     */
    method DrawMove(ids: seq<Key>) returns (newSegmentDrawn: bool)
      modifies this
      ensures lines == DrawSegments(old(lines), ids, currentPlayer)
      ensures newSegmentDrawn == NewSegmentDrawn(old(lines), ids)
      ensures lens == old(lens) && required == old(required) && triangles == old(triangles)
      ensures totalTriangles == old(totalTriangles) && scores == old(scores)
      ensures currentPlayer == old(currentPlayer) && aiActive == old(aiActive)
    {
      var start, actor := lines, currentPlayer;
      var current := start;
      newSegmentDrawn := false;
      var i := 0;
      while i < |ids|
        invariant 0 <= i <= |ids|
        invariant current == DrawSegments(start, ids[..i], actor)
        invariant newSegmentDrawn == NewSegmentDrawn(start, ids[..i])
        modifies {}
      {
        DrawSegmentsStep(start, ids, i, actor);
        var id := ids[i];
        if id in current {
          if !current[id].drawn {
            current := current[id := current[id].(drawn := true, player := actor)];
            newSegmentDrawn := true;
          } else if current[id].player != 0 && current[id].player != actor {
            if current[id].sharedBy == 0 {
              current := current[id := current[id].(sharedBy := actor)];
            }
          }
        }
        i := i + 1;
      }
      assert ids[..|ids|] == ids;
      lines := current;
    }

    /**
     * The scoring step of confirmLine and makeAIMove: fill the completed
     * cells for the player to move, credit that seat one point per cell,
     * and count the filled cells.
     */
    method ScoreCells() returns (totalFilled: nat)
      requires currentPlayer in scores
      modifies this
      ensures lens == old(lens) && required == old(required) && lines == old(lines)
      ensures totalTriangles == old(totalTriangles) && currentPlayer == old(currentPlayer) && aiActive == old(aiActive)
      ensures triangles == FillTriangles(lines, old(triangles), currentPlayer)
      ensures scores == old(scores)[currentPlayer := old(scores)[currentPlayer] + Gained(lines, old(triangles))]
      ensures totalFilled == FilledCount(triangles)
    {
      var tris, points;
      tris, points, totalFilled := FillCells(lines, triangles, currentPlayer);
      triangles, scores := tris, scores[currentPlayer := scores[currentPlayer] + points];
    }

    /**
     * What a stroke along `ids` by `actor` did, from board `before` and
     * tallies `scoresBefore`: the board is simulateMove's result, the actor
     * gained simulateMove's score, and the end test decided `outcome`.
     */
    ghost predicate Played(before: Board, scoresBefore: map<int, int>, actor: int, ids: seq<Key>, outcome: Outcome)
      reads this
    {
      var sim := SimulateMove(ids, before, actor);
      && sim.Some? && State() == sim.value.board
      && actor in scoresBefore
      && scores == scoresBefore[actor := scoresBefore[actor] + sim.value.scoreGained]
      && (outcome, currentPlayer) == AfterStroke(FilledCount(triangles), totalTriangles, actor, aiActive)
    }

    /**
     * Steps 4 to 6 of a stroke: trace the segments, then score. The board
     * becomes simulateMove's board and the player to move gains its score.
     */
    method ApplyStroke(ids: seq<Key>) returns (totalFilled: nat)
      requires Valid() && NewSegmentDrawn(lines, ids)
      modifies this
      ensures lens == old(lens) && required == old(required) && totalTriangles == old(totalTriangles)
      ensures currentPlayer == old(currentPlayer) && aiActive == old(aiActive)
      ensures Valid()
      ensures var sim := SimulateMove(ids, old(State()), currentPlayer);
        && sim.Some? && State() == sim.value.board
        && scores == old(scores)[currentPlayer := old(scores)[currentPlayer] + sim.value.scoreGained]
      ensures totalFilled == FilledCount(triangles)
      ensures |UndrawnKeys(lines)| < |UndrawnKeys(old(lines))|
    {
      ghost var before, scores0 := State(), scores;
      var newSegmentDrawn := DrawMove(ids);
      if !newSegmentDrawn {
        assert false;
      }
      totalFilled := ScoreCells();
      StrokeKeepsTally(before, scores0, currentPlayer, ids);
      SimulatePreservesCovered(ids, before, currentPlayer);
      DrawingProgress(before.lines, ids, currentPlayer);
    }

    /**
     * The common tail of confirmLine and makeAIMove once the segments are
     * known: trace and score them, then end the game or pass the turn.
     */
    method PlayStroke(ids: seq<Key>) returns (outcome: Outcome)
      requires Valid() && NewSegmentDrawn(lines, ids)
      modifies this
      ensures Valid()
      ensures Played(old(State()), old(scores), old(currentPlayer), ids, outcome)
      ensures |UndrawnKeys(lines)| < |UndrawnKeys(old(lines))|
      ensures outcome == Ended ==> scores[HUMAN] + scores[AI] == totalTriangles
      ensures lens == old(lens) && required == old(required) && totalTriangles == old(totalTriangles) && aiActive == old(aiActive)
    {
      var totalFilled := ApplyStroke(ids);
      if totalFilled == totalTriangles {
        ScoreConservation(State());
        return Ended;
      }
      var aiToMove := SwitchPlayer();
      outcome := Switched(aiToMove);
    }

    /**
     * confirmLine: reject an illegal stroke and change nothing; otherwise
     * play its segments for the player to move.
     */
    method ConfirmLine(a: Point, b: Point) returns (outcome: Outcome)
      requires Valid()
      modifies this
      ensures Valid()
      ensures outcome == Rejected <==> !IsValidPreviewLine(lens, required, a, b, old(lines))
      ensures FilledCount(old(triangles)) == totalTriangles ==> outcome == Rejected
      ensures outcome == Rejected ==> State() == old(State()) && scores == old(scores) && currentPlayer == old(currentPlayer)
      ensures outcome != Rejected ==> Played(old(State()), old(scores), old(currentPlayer), StrokeIds(lens, a, b), outcome)
      ensures outcome != Rejected ==> |UndrawnKeys(lines)| < |UndrawnKeys(old(lines))|
      ensures outcome == Ended ==> scores[HUMAN] + scores[AI] == totalTriangles
      ensures lens == old(lens) && required == old(required) && totalTriangles == old(totalTriangles) && aiActive == old(aiActive)
    {
      if FilledCount(triangles) == totalTriangles {
        FullBoardNoMoves(lens, required, State());
      }
      if !IsValidPreviewLine(lens, required, a, b, lines) {
        return Rejected;
      }
      var segmentIds := CollectSegments(DotsOnLine(lens, a, b));
      outcome := PlayStroke(segmentIds);
    }

    /**
     * makeAIMove: only on the computer's turn with the computer enabled.
     * With `order` the shuffled list of legal strokes, play the stroke
     * findBestAIMove picks (`played`), or pass the turn when there is none.
     */
    method MakeAIMove(order: seq<Move>) returns (outcome: Outcome, played: Option<Move>)
      requires Valid()
      requires multiset(order) == multiset(ValidMoves(lens, required, lines))
      modifies this
      ensures Valid()
      ensures outcome == Ignored <==> old(currentPlayer) != AI || !aiActive
      ensures outcome == Ignored ==> played.None? && State() == old(State()) && scores == old(scores) && currentPlayer == old(currentPlayer)
      ensures outcome != Ignored ==> (played.None? <==> |ValidMoves(lens, required, old(lines))| == 0)
      ensures FilledCount(old(triangles)) == totalTriangles ==> played.None?
      ensures outcome != Ignored && played.None? ==>
        State() == old(State()) && scores == old(scores) && currentPlayer == HUMAN && outcome == Switched(false)
      ensures played.Some? ==> played.value in ValidMoves(lens, required, old(lines))
      ensures played.Some? ==> forall m :: m in ValidMoves(lens, required, old(lines)) ==>
        AtMost(RootValue(lens, required, old(State()), m), RootValue(lens, required, old(State()), played.value))
      ensures played.Some? ==> Played(old(State()), old(scores), AI, played.value.segmentIds, outcome)
      ensures played.Some? ==> |UndrawnKeys(lines)| < |UndrawnKeys(old(lines))|
      ensures outcome == Ended ==> scores[HUMAN] + scores[AI] == totalTriangles
      ensures lens == old(lens) && required == old(required) && totalTriangles == old(totalTriangles) && aiActive == old(aiActive)
    {
      played := None;
      if FilledCount(triangles) == totalTriangles {
        FullBoardNoMoves(lens, required, State());
      }
      if currentPlayer != AI || !aiActive {
        return Ignored, played;
      }
      var best := FindBestAIMove(lens, required, State(), order);
      if best.None? {
        var aiToMove := SwitchPlayer();
        return Switched(aiToMove), played;
      }
      var m := best.value;
      ValidMovesSound(lens, required, lines, m);
      var segmentIds := CollectSegments(DotsOnLine(lens, m.dot1, m.dot2));
      outcome := PlayStroke(segmentIds);
      played := best;
    }
  }
}
