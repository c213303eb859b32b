# Triangle lattice line game — a Dafny model

The game is played on a diamond of dots laid out in rows, with adjacent rows
differing by one dot. Between neighbouring dots run edges, and every three
mutually adjacent dots bound a triangular cell.

- **Strokes.** Two seats take turns. Seat 1 is the human; seat 2 is the human
  or the computer. A turn draws one straight stroke along the lattice. The
  stroke must be exactly `required` edges long and contain at least one edge
  nobody has drawn yet.
- **Overlay.** The stroke draws every undrawn edge for the player who made it.
  An edge the other seat already drew gets that player as its overlay owner.
- **Scoring.** A cell whose three edges are all drawn is filled for the player
  who completed it, and that player gains one point.
- **End.** The game ends when every cell is filled. Otherwise the turn passes,
  whether or not the stroke scored.
- **Computer player.** It lists every legal stroke and scores each by a
  depth-3 minimax over a heuristic evaluation. It plays the first stroke of
  best value in a shuffled order.

The end test only fires when every cell is filled, and that can be out of
reach. An edge of a row is covered only by strokes along that row, and a row
of n dots carries strokes of at most n - 1 segments. So when the required
length is at least the row's dot count, that edge is never drawn, the cells
it borders never fill, and the game never ends. The small board
`[3, 4, 5, 4, 3]` with strokes of three segments is such a case: once no
legal stroke is left, the computer passes its turn and the human has no
stroke to play.

The project models this core of `script.js`: the board builder, the stroke
resolver, the state mutator, the search, and the turn logic.

| file | module | what it holds |
|---|---|---|
| `lattice.dfy` | `Lattice` | dots `Point(r, c)`; edge keys (`getLineId`); the three row profiles (`computeRowLengths`); integer drawing coordinates; the flattened dot list |
| `board.dfy` | `Board` | `Line`, `Triangle`, `Board` values; tracing a stroke, filling cells, `simulateMove`; the invariant every reachable board keeps |
| `builder.dfy` | `Builder` | the edge dictionary and the cell list a new game starts with, as specification functions and as the nested loops of `initGame` |
| `moves.dfy` | `Moves` | `findIntermediateDots`, `isValidPreviewLine`, `findAllValidMoves` |
| `search.dfy` | `Search` | `evaluateBoard`, `minimax`, `findBestAIMove` |
| `game.dfy` | `Game` | class `Game`: the in-place state of one game and `initGame`, `confirmLine`, `makeAIMove`, `switchPlayer` |
| `wrappers.dfy` | `Wrappers` | `Option` |

## Geometry

The source works on floating-point canvas positions. Its tests are:

- an angle test with a 1.5° tolerance;
- a cross product compared with `1e-6`;
- a bounding box widened by one pixel;
- a sort by x, then y.

The model gives dot `(r, c)` the integer position `X = 2c + maxLen - len[r]`,
`Y = r`. This is the canvas position scaled by `DOT_SPACING_X / 2` horizontally and
`DOT_SPACING_Y` vertically, shifted by a constant. On that position the tests
become exact:

- the allowed directions are "horizontal, or `|dX| == |dY|`";
- collinearity is an integer cross product equal to zero;
- the box is inclusive;
- the sort orders by `(X, Y)`.

Distinct dots get distinct positions (`Lattice.PositionInjective`).

## Model

| member | source | states |
|---|---|---|
| Lattice.LineId | script.js:77-85 | the key of an edge is its two dots ordered by (row, column), so no key has its second dot before its first |
| Lattice.LineIdInjective | script.js:77-85 | two dot pairs share a key only if they are the same pair, in either order |
| Lattice.ComputeRowLengths | script.js:41-51 | every size, including an unknown one (medium), gives a diamond: an odd number of at least five rows, growing by one dot to the middle row and shrinking by one after it, symmetric, no row shorter than three dots |
| Lattice.DiamondShape | script.js:41-51 | every diamond of base width at least 3 and half-height at least 2 has that shape, so the properties proved for profiles hold for all three sizes |
| Lattice.PositionInjective | script.js:116-128 | two dots of the board at the same drawing position are the same dot |
| Lattice.AllDotsSpec | script.js:116-128 | `dots.flat()` holds exactly the dots of the board, in strictly increasing (row, column) order |
| Board.DrawSegmentsPointwise | script.js:698-711 | tracing a stroke updates each edge it names once, whatever the order or repetition of its keys, and leaves the others alone |
| Board.DrawSegmentsEffect | script.js:698-711 | key by key: an undrawn edge becomes drawn by the actor; another seat's edge without an overlay owner gets the actor as one; an owner is never rewritten; edges off the stroke do not change |
| Board.DrawSegmentsStep | script.js:432-446 | one iteration of the segment loop traces the next key, and `newSegmentDrawn` becomes true exactly when that key names an edge still undrawn |
| Board.DrawingProgress | script.js:432-446 | a stroke that draws a new segment strictly shrinks the set of undrawn edges, so the strokes that draw something number at most the edges |
| Board.DrawSegmentsWellFormed | script.js:698-711 | a seat's stroke keeps every edge well formed: undrawn edges are unowned, drawn ones belong to a seat, and an overlay owner differs from the owner |
| Board.FillTrianglesEffect | script.js:718-727 | after scoring, a cell is filled exactly when it was already filled or its three edges are drawn; old fills keep their owner, new ones belong to the actor |
| Board.GainedCountsNewCells | script.js:718-727 | `scoreGained` counts the newly filled cells: the filled count and the actor's count grow by it, and the other seat's count does not move |
| Board.SimulateMove | script.js:692-730 | `null` exactly when no segment of the move is undrawn; otherwise the same edge keys and the same number of cells |
| Board.SimulatePreservesConsistent | script.js:692-730 | a seat's move keeps the board consistent: a cell is filled exactly when its three edges are drawn, and it belongs to a seat |
| Board.NewCellNeedsNewEdge | script.js:718-727 | a cell filled by a move has an edge that was undrawn before the move and is on the stroke |
| Board.ScoreConservation | script.js:459-476 | on a consistent board, the two seats' cell counts add up to the number of filled cells |
| Board.SimulatePreservesCovered | script.js:692-730 | a move changes neither the edge keys nor the sides of any cell, so every edge stays a side of some cell |
| Board.FilledCountBound | script.js:488-491 | the filled cells never outnumber the cells, and equal them exactly when every cell is filled |
| Board.FullBoardAllDrawn | script.js:459-491 | on a reachable board whose cells are all filled, every edge is drawn |
| Builder.NoEdgeCreatedTwice | script.js:135-170 | no edge key is assigned at two dots of the nested loop, nor twice at one dot |
| Builder.EdgeSetSize | script.js:135-170 | the edge dictionary has exactly one entry per assignment of the loop |
| Builder.EdgeEndpoints | script.js:135-170 | every edge joins two dots of the board, the first before the second; with rows differing by one dot, it is a unit step of the lattice |
| Builder.InitialBoardConsistent | script.js:103-109 | a new board is consistent; every cell names three existing edges, unfilled and unowned; nobody has filled anything |
| Builder.RowPairCellCount | script.js:173-230 | a row pair whose shorter row has w dots holds 2w - 1 cells |
| Builder.SmallBoardCells | script.js:173-230 | the small board `[3, 4, 5, 4, 3]` has 24 cells |
| Builder.BuildLattice | script.js:135-230 | the nested loops of `initGame` build exactly the specified edge dictionary and cell list, and `totalTriangles` counts the cells |
| Builder.EdgeHasCell | script.js:135-230 | every edge the loops create is a side of some cell the loops push (the converse of every cell naming existing edges) |
| Builder.InitialCovered | script.js:135-230 | on a new board, every edge is a side of some cell |
| Moves.SortXYSpec | script.js:547-550 | the sort returns a sorted permutation of its input |
| Moves.DotsOnLineSpec | script.js:530-553 | the dots of a stroke are exactly the board's dots on the segment; both ends are included, each appears once, and they run strictly along (X, Y) |
| Moves.ValidPreviewLineSymmetric | script.js:556-617 | swapping the two dots changes neither the segments nor the verdict |
| Moves.StrokeNonEmpty | script.js:575-582 | a stroke has a segment exactly when its dots differ, so a dot joined to itself is rejected |
| Moves.ValidStrokeUnitSteps | script.js:591-603 | on the built dictionary, a legal stroke is a chain of unit lattice steps |
| Moves.ValidMovesMembers | script.js:778-802 | the listed moves are exactly the legal strokes whose first dot precedes the second, each with its own segments |
| Moves.RowSegmentIsHorizontal | script.js:530-545 | a segment through two neighbouring dots of one row has both its ends on that row |
| Moves.HorizontalStrokeLength | script.js:530-553 | a stroke through an edge of row r runs along row r, so it has fewer segments than the row has dots |
| Moves.ShortRowNeverTraced | script.js:556-617 | an edge of a row with no more dots than the required length is on no legal stroke |
| Moves.ShortRowCellStaysOpen | script.js:692-730 | after any legal stroke, such an edge, if undrawn, stays undrawn, and an unfilled cell it borders stays unfilled |
| Moves.SmallBoardTopEdgeUntraceable | script.js:556-617 | on the small board with strokes of three segments, the first edge of the top row is in the dictionary and a side of a cell, but no legal stroke covers it |
| Moves.FullBoardNoMoves | script.js:556-617 | once every cell of a reachable board is filled, no stroke is legal and the list of legal strokes is empty |
| Moves.ValidMovesComplete | script.js:778-802 | every legal stroke between two dots is listed in one of its orientations |
| Moves.ValidMovesSimulate | script.js:692-715 | every listed move draws a new segment, so `simulateMove` never returns `null` for it |
| Moves.FindAllValidMoves | script.js:778-802 | the nested loops return exactly the list of legal strokes, in pair order |
| Moves.CollectSegments | script.js:421-425 | the segment loop yields one key per pair of consecutive dots |
| Search.CellValue | script.js:740-767 | a cell contributes +100 when filled by seat 2 and -100 when filled by anyone else; ±10 for a setup, 0 otherwise |
| Search.EvaluateIsCellSum | script.js:734-775 | the evaluation is the sum of the per-cell contributions |
| Search.EvaluateBounds | script.js:734-775 | the evaluation lies within ±100 per cell |
| Search.EvaluateOnConsistent | script.js:734-775 | on a reachable board, the filled term is 100 times the difference of the two seats' scores |
| Search.SetupCredit | script.js:754-766 | a setup is credited to at most one seat; a tie in ownership credits neither |
| Search.BestSpec | script.js:817-842 | the move loop's result is no worse for the mover than its start value or any child; it is either the start value or one child's value |
| Search.MinimaxLeaf | script.js:809-815 | at depth 0 or with no legal stroke, minimax is the static evaluation |
| Search.MinimaxChoice | script.js:806-843 | for a non-leaf board, minimax is the maximum (seat 2 to move) or minimum (seat 1) of its children's values, and some legal move attains it |
| Search.MinimaxFinite | script.js:806-843 | minimax never returns ±Infinity: a non-leaf board always has a child |
| Search.MinimaxSearch | script.js:806-843 | the recursive search with its loops computes the minimax value |
| Search.FindBestAIMove | script.js:846-878 | no move exactly when no stroke is legal; otherwise a legal stroke of maximal value, the first such in the shuffled order |
| Game.Other | script.js:625 | the toggle hands the turn to the other seat |
| Game.AfterStroke | script.js:488-494 | the game ends exactly when every cell is filled; otherwise the turn passes, and the computer's move is due exactly when it is enabled and now to move |
| Game.FillCells | script.js:459-476 | the scoring loop fills the completed cells, earns one point per cell it fills, and counts the filled cells |
| Game.StrokeKeepsTally | script.js:459-476 | after a stroke, the board stays consistent and each seat's score still equals the cells it owns |
| Game.Game.constructor | script.js:89-232 | a new game: the chosen profile, the built board, seat 1 to move, both scores 0 |
| Game.Game.SwitchPlayer | script.js:621-637 | the other seat moves; the computer is triggered exactly when enabled and now to move |
| Game.Game.DrawMove | script.js:432-446 | the segment loop leaves `lines` as the traced stroke and reports whether a new segment was drawn |
| Game.Game.ScoreCells | script.js:459-476 | cells are filled for the player to move, whose score grows by the number of cells it filled |
| Game.Game.PlayStroke | script.js:432-494 | the board becomes `simulateMove`'s board, the mover gains its score, and the end test decides; undrawn edges shrink, and at the end the two scores add up to `totalTriangles` |
| Game.Game.ConfirmLine | script.js:405-496 | an illegal stroke is rejected and nothing changes; a legal one is played as `simulateMove` plays it; once every cell is filled, every stroke is rejected; the game invariant is kept |
| Game.Game.MakeAIMove | script.js:905-987 | nothing happens unless it is the computer's turn; with no legal stroke the turn passes; once every cell is filled, no stroke is played; otherwise the stroke of best root value is played |

## Left out

- Rendering, the DOM, alerts, the score pulse, the 750 ms timer, the "thinking" message and the AI toggle button are not modelled. They do not change the game state.
- Canvas size, padding, dot radius and the mobile layout are left out. The geometry is the exact integer lattice described above.
- `findNearestDot`, click handling and the selection state (`selectedDot1`, `selectedDot2`, `cancelLine`) are left out. `ConfirmLine` takes the two selected dots as parameters.
- The `if (!dotA || !dotB)` null checks and `getLineId`'s `null` result are left out: dots are always present as values.
- `getLineId` returns a `Key` pair rather than the string `"r1,c1_r2,c2"`. The pair carries the same information, and distinct pairs give distinct keys.
- The `p1`, `p2` and `id` fields of an edge and the `dots` of a cell are left out. Play never reads them.
- The `Math.random()` shuffle of `findBestAIMove` is the parameter `order`, any permutation of the legal strokes. Using a random comparator may not produce a uniform shuffle; the model does not claim it does.
- The `parseInt` of the line length selector is the parameter `required`.
- `deepCopy` is implicit: boards are values.
- The `try`/`catch` of `makeAIMove` is left out. The model proves that the AI's stroke is legal and always draws a new segment, so nothing in the modelled state can fail there.
- `endGame`'s winner message is left out. Its inputs, the two scores, are modelled.
- Builder.BuildLattice: the edge dictionary and the cell list are built for every profile. The endpoint, unit-step and cell-count lemmas assume rows that differ by one dot, which is what `computeRowLengths` returns.
- Game.Game.MakeAIMove: the source's `!newSegmentDrawn` branch (switch and return) is unreachable, because every listed move draws a new segment. The model proves this and does not keep the branch.
- Game.Game.ConfirmLine: the second `!newSegmentDrawn` check is unreachable after `isValidPreviewLine` accepts. The model proves this and does not keep the branch.
- Search.MinimaxSearch: `minimax` is modelled with scores `-Infinity`, finite and `+Infinity`. Floating-point arithmetic is not modelled; evaluations are integers.
