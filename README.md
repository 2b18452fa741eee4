# Movement rules of the Pawn, Knight, Bishop and Rook

This project models the movement engine of a multi-player chess variant. The board is split
into colour regions and also holds immovable walls. Four pieces are modelled: Pawn, Knight,
Bishop and Rook. Each piece has a colour and a fixed table of step patterns. A pattern is a
sequence of directions (FORWARD, BACKWARD, LEFT, RIGHT) taken relative to the piece's colour.
Each piece answers two queries against the board's square-to-occupant map:

- a legality check (`canMove`, or `isLegalMove` for the Knight): may the piece go from `start`
  to `end`?
- a destination generator (`getHighlightPolygons`): the set of squares it may go to from `start`.

Layout, one module per file:

- `common.dfy` (`Common`): positions, colours, directions, the step engine, the board map and
  wall positions.
- `rays.dfy` (`Rays`): the legality ray shared by Rook and Bishop `canMove`.
- `pawn.dfy` (`Pawns`), `knight.dfy` (`Knights`), `bishop.dfy` (`Bishops`), `rook.dfy` (`Rooks`):
  one class per piece, holding its colour and its `directions` table. Each query method has a
  loop and is proved equal to a pure specification function; lemmas about those functions
  state the rules and relate the two queries of the piece.
- `pieces.dfy` (`Pieces`): properties shared by all four pieces.

The step engine and the coordinate system are parameters, bundled in the datatype
`Geometry`. `step(colour, path, from, flipped)` returns `None` when the path leaves the board.
That `None` stands both for the exception thrown by `step` and for the null returned by
`stepOrNull`, so the two are assumed to agree. The three-argument `step` is `flipped = false`.
Positions and colours are opaque values compared by value.

The occupant of a square is reduced to what the rules look at: its colour and whether it is a
wall. The wall positions are the squares whose occupant is a wall. The Bishop computes that
set from the map; the others read it from the board's wall mapping.

Rays have no termination argument in the source. Here each ray takes at most `squares` steps
(the number of board squares). The step that would exceed this bound is treated as leaving
the board, in both queries.

Where the design description and the code disagree, the model follows the code:

- The description asks the two queries of a piece never to diverge. In the code they do
  diverge, and the model pins down exactly where:
  - For Pawn, Rook and Knight, a square is highlighted iff the legality check accepts it, it
    is not a wall, and it holds no piece of the mover's colour (`Pawns.TargetsExact`,
    `Rooks.TargetsExact`, `Knights.HighlightIffLegal`).
  - The Pawn's diagonal in `canMove` accepts any occupant, including its own pieces and walls
    (`Pawns.DiagonalDivergence`).
  - The Bishop's highlight rays stop on squares already collected, so its set is only
    contained in the Rook-style set (`Bishops.TargetsWithinUnguarded`).
- The description suggests that the legality ray should stop once `end` is reached. The code's
  loop condition, `(tmp != end && empty) || ownWall`, passes over an own-colour wall even when
  it is `end`. The model keeps that reading (`Rays.Continues`).

## Model

| member | source | states |
|---|---|---|
| `Rays.CastRay` | backend/src/main/java/model/Rook.java:57-62 | the ray of one pattern stops where `RayEnd` says; when it stops, it is never on an own-colour wall, and it is either on `end` or on an occupied square |
| `Rays.RayStopIsBlocker` | backend/src/main/java/model/Bishop.java:61-64 | at every point of the ray, its stop is `end` or an occupied square, and never a wall of the mover's colour |
| `Rays.OwnWallNeverReached` | backend/src/main/java/model/Bishop.java:58-70 | the sliding legality check is false whenever `end` holds a wall of the mover's colour, whatever the patterns |
| `Rays.BlockerStopsRay` | backend/src/main/java/model/Rook.java:58-59 | any occupant other than an own-colour wall (an opposing wall included) ends the ray on its square |
| `Rooks.RookTable` | backend/src/main/java/model/Rook.java:39 | the table has four single-step patterns |
| `Rooks.RookTableIsOrthogonal` | backend/src/main/java/model/Rook.java:38-40 | every direction is in the table, and no pattern is listed twice |
| `Rooks.Rook.constructor` | backend/src/main/java/model/Rook.java:29-32 | a new Rook has the given colour and the Rook table |
| `Rooks.Rook.SetupDirections` | backend/src/main/java/model/Rook.java:38-40 | afterwards, `directions` is the Rook table |
| `Rooks.Rook.CanMove` | backend/src/main/java/model/Rook.java:50-71 | true iff some pattern's ray stops exactly on `end`; off-board rays contribute nothing; the occupant's colour is not examined |
| `Rooks.Rook.GetHighlightPolygons` | backend/src/main/java/model/Rook.java:80-115 | the result is the union of the highlight rays minus every wall position; it is total, so going off the board never raises, and the map lookup after each ray is on an occupied square |
| `Rooks.Rook.ToString` | backend/src/main/java/model/Rook.java:122-124 | the colour's name followed by `R` |
| `Rooks.HighlightRaySafe` | backend/src/main/java/model/Rook.java:89-104 | every square a highlight ray adds is empty, an own-colour wall, or held by another colour |
| `Rooks.HighlightRayMatchesLegality` | backend/src/main/java/model/Rook.java:57-104 | for a square that is neither a wall nor own-coloured, the highlight ray adds it iff the legality ray for it stops on it |
| `Rooks.CollectedMatchesLegality` | backend/src/main/java/model/Rook.java:55-105 | over any list of patterns, collected squares that are neither walls nor own-coloured are exactly those the legality check accepts |
| `Rooks.CollectedSafe` | backend/src/main/java/model/Rook.java:88-112 | a collected square that is not a wall holds no piece of the mover's colour |
| `Rooks.TargetsExact` | backend/src/main/java/model/Rook.java:50-115 | a square is highlighted iff `canMove` accepts it, it is not a wall, and it holds no own-colour piece |
| `Rooks.TargetsAdmissible` | backend/src/main/java/model/Rook.java:97-112 | the highlight set holds no wall and no own-colour square |
| `Bishops.BishopTable` | backend/src/main/java/model/Bishop.java:41-43 | the table has eight patterns |
| `Bishops.BishopTableIsAllDiagonals` | backend/src/main/java/model/Bishop.java:40-44 | the table is exactly the set of two-step paths made of one vertical and one horizontal direction, with no pattern listed twice |
| `Bishops.Bishop.constructor` | backend/src/main/java/model/Bishop.java:32-34 | a new Bishop has the given colour and the Bishop table |
| `Bishops.Bishop.SetupDirections` | backend/src/main/java/model/Bishop.java:40-44 | afterwards, `directions` is the Bishop table |
| `Bishops.Bishop.CanMove` | backend/src/main/java/model/Bishop.java:54-71 | true iff some pattern's ray stops exactly on `end`; the ray is the same as the Rook's |
| `Bishops.Bishop.GetHighlightPolygons` | backend/src/main/java/model/Bishop.java:80-115 | the result is the guarded rays, cast in order into one shared set, minus every wall position |
| `Bishops.Bishop.ToString` | backend/src/main/java/model/Bishop.java:122-124 | the colour's name followed by `B` |
| `Bishops.GuardedRayGrows` | backend/src/main/java/model/Bishop.java:89-104 | a guarded ray only adds squares to the shared set |
| `Bishops.GuardedRaySound` | backend/src/main/java/model/Bishop.java:87-104 | every square a guarded ray adds is a wall, or is admissible and is where the legality ray for it stops |
| `Bishops.CollectedSound` | backend/src/main/java/model/Bishop.java:87-105 | every collected square that is not a wall is admissible and accepted by `canMove` |
| `Bishops.TargetsSound` | backend/src/main/java/model/Bishop.java:80-115 | every highlighted square is accepted by `canMove`, is not a wall, and holds no own-colour piece |
| `Bishops.TargetsWithinUnguarded` | backend/src/main/java/model/Bishop.java:89-90 | the seen-set guard only loses squares: the Bishop's set is contained in the set that the Rook's unguarded rays would give with the same patterns |
| `Bishops.GuardedRayKeepsFirst` | backend/src/main/java/model/Bishop.java:88-100 | a ray that starts on an admissible square leaves that square in the set |
| `Bishops.CollectedGrows` | backend/src/main/java/model/Bishop.java:87-105 | rays cast for later patterns never remove squares collected by earlier ones |
| `Bishops.FirstSquaresHighlighted` | backend/src/main/java/model/Bishop.java:87-112 | the first square of every pattern is highlighted whenever it is empty or holds an opposing piece that is not a wall |
| `Knights.KnightTable` | backend/src/main/java/model/Knight.java:41-49 | the table has sixteen patterns |
| `Knights.KnightTableIsAllHops` | backend/src/main/java/model/Knight.java:40-50 | the table is exactly the set of three-step L-shaped hops (two equal adjacent steps along one axis, one step along the other), with no pattern listed twice |
| `Knights.TargetsExtend` | backend/src/main/java/model/Knight.java:96-114 | one more pattern adds its landing square exactly when that square is on the board and admissible |
| `Knights.Knight.constructor` | backend/src/main/java/model/Knight.java:32-34 | a new Knight has the given colour and the Knight table |
| `Knights.Knight.SetupDirections` | backend/src/main/java/model/Knight.java:40-50 | afterwards, `directions` is the Knight table |
| `Knights.Knight.IsLegalMove` | backend/src/main/java/model/Knight.java:60-79 | false when `end` holds an own-colour piece or a wall (of any colour); otherwise true iff some pattern resolves on the board to exactly `end` |
| `Knights.Knight.GetHighlightPolygons` | backend/src/main/java/model/Knight.java:88-117 | exactly the on-board landing squares that are not walls and are empty or held by another colour |
| `Knights.Knight.ToString` | backend/src/main/java/model/Knight.java:124-126 | the colour's name followed by `N` |
| `Knights.HighlightIffLegal` | backend/src/main/java/model/Knight.java:60-117 | for every square, it is highlighted iff `isLegalMove` accepts it |
| `Pawns.PawnTable` | backend/src/main/java/model/Pawn.java:39-41 | the table has six patterns |
| `Pawns.PawnTableRoles` | backend/src/main/java/model/Pawn.java:38-42 | pattern 0 is one step forward, pattern 1 is two steps forward, and patterns 2 to 5 are exactly the four forward diagonals, with no pattern listed twice |
| `Pawns.TargetsExtend` | backend/src/main/java/model/Pawn.java:93-118 | one more pattern adds its landing square exactly when that square is on the board, is not a wall, and passes the highlight rule of its index |
| `Pawns.Pawn.constructor` | backend/src/main/java/model/Pawn.java:30-32 | a new Pawn has the given colour and the Pawn table |
| `Pawns.Pawn.SetupDirections` | backend/src/main/java/model/Pawn.java:38-42 | afterwards, `directions` is the Pawn table |
| `Pawns.Pawn.CanMove` | backend/src/main/java/model/Pawn.java:52-76 | true iff some pattern resolves on the board to `end` and the rule of its index accepts it: index 0 needs an empty `end`; index 1 needs an empty `end`, a start on row 1 of the mover's region and an empty row-2 square in the start column; later indices need any occupant on `end` |
| `Pawns.Pawn.GetHighlightPolygons` | backend/src/main/java/model/Pawn.java:85-121 | exactly the on-board landing squares that are not walls and pass the same rules, except that a diagonal needs an occupant of another colour |
| `Pawns.Pawn.ToString` | backend/src/main/java/model/Pawn.java:128-130 | the colour's name followed by `P` |
| `Pawns.TargetsExact` | backend/src/main/java/model/Pawn.java:52-121 | a square is highlighted iff `canMove` accepts it, it is not a wall, and it holds no own-colour piece |
| `Pawns.DiagonalDivergence` | backend/src/main/java/model/Pawn.java:66 | a diagonal landing on a wall or on an own-colour piece is accepted by `canMove` but never highlighted |
| `Pawns.DoubleStepGated` | backend/src/main/java/model/Pawn.java:63-65 | off row 1 of its own region, a Pawn reaches nothing through the double-step pattern, in either query |
| `Pawns.DiagonalGated` | backend/src/main/java/model/Pawn.java:105-109 | with the Pawn table, a square that neither forward step reaches is highlighted iff a diagonal reaches it and it holds a non-wall piece of another colour; an empty diagonal square is never highlighted |
| `Pieces.NamesIdentifyPieces` | backend/src/main/java/model/Pawn.java:128-130 | the names of the four pieces differ from each other, and equal Pawn names mean equal colour names |
| `Pieces.NoOwnColourDestinations` | backend/src/main/java/model/Knight.java:99-112 | with their own tables, none of the four highlight sets holds a wall or an own-colour square |

## Left out

- The step engine (`MovementUtil.step` and `stepOrNull`), `Position`, `Colour`, `Direction`
  and the internals of `Board` are not part of this model. Their behaviour comes in through
  the `Geometry` parameter. Neither the board layout nor the rotation applied when a ray
  crosses into another region is modelled.
- `Position.get` is the `at` field of `Geometry`; `None` stands for its exception.
  `Colour.toString` is the `colourName` argument of each `ToString`.
- Jester is not part of this model. Only its test is available, and the destination sets it
  expects depend on the concrete coordinate system.
- Rays stay contiguous when they cross into another colour region, but this depends on the
  step engine, so it is not stated. The same holds for the example destinations that are
  written as concrete squares.
- Ray bound: the source's ray loops have no bound. If the step engine ever cycled, the
  source's `canMove` would not terminate, and its highlight loops could not terminate except
  through the Bishop's seen-set guard. The model stops every ray after `squares` steps.
- `Bishops.TargetsSound`: states only that the Bishop's highlight set is contained in what the
  legality check accepts. The converse does not hold: the seen-set guard shared across patterns
  cuts later rays short. Only first squares are proved always present
  (`Bishops.FirstSquaresHighlighted`).
- Logging (`Log.d`, `Log.e`) is a side effect only and is not modelled.
- `Util.toList` returns the set itself, so no result has duplicates.
- The `BasePiece` constructor is not part of this model. Each constructor sets the table
  directly, as `setupDirections` does. The Rook's second call to `setupDirections` is not
  modelled separately.
- The Bishop takes the raw map while the other pieces take the `Board`. All four are modelled
  over the map, with walls derived from it.
- The `mover == null` test in `Knight.isLegalMove` can never be true, so it is not modelled.
- Check, turn order, rendering and persistence are outside these files.
