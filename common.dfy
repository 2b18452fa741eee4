/** Coordinates, directions, the step engine and the board as the piece queries see them.

    The coordinate system itself (how a square is laid out, how a relative direction turns into
    a board delta for a colour, how a step that crosses into another colour region is
    reinterpreted) is not part of this model: positions and colours are opaque values compared
    by value, and the step engine is a function supplied by the caller. */
module Common {

  /** A player colour; it also names the colour region of the board that player starts in. */
  type Colour(==)

  /** A square of the board. Equality is by value. */
  type Position(==)

  /** A direction relative to the orientation of the moving piece's colour. */
  datatype Direction = Forward | Backward | Left | Right

  /** One step pattern of a piece: directions applied in order from the start square. */
  type Path = seq<Direction>

  datatype Option<T> = None | Some(value: T)

  predicate Vertical(d: Direction) {
    d == Forward || d == Backward
  }

  /** Two directions at a right angle to each other. */
  predicate Perpendicular(a: Direction, b: Direction) {
    Vertical(a) != Vertical(b)
  }

  /** The position model and the step engine.
      - `step(c, dirs, from, flipped)` resolves `dirs` from `from` for a piece of colour `c`;
        `None` stands for both the exception thrown by `step` and the null returned by
        `stepOrNull` when the path leaves the board. The three-argument `step` is
        `flipped == false`.
      - `region`, `row`, `column` are the colour region, row and column of a position.
      - `at(c, row, column)` is the position with those coordinates, `None` when there is none.
      - `squares` is the number of squares on the board; rays take at most that many steps. */
  datatype Geometry = Geometry(
    step: (Colour, Path, Position, bool) -> Option<Position>,
    region: Position -> Colour,
    row: Position -> int,
    column: Position -> int,
    at: (Colour, int, int) -> Option<Position>,
    squares: nat)

  /** The first resolution of a pattern from the square a piece stands on. */
  function Resolve(g: Geometry, c: Colour, path: Path, start: Position): Option<Position> {
    g.step(c, path, start, false)
  }

  /** The flip flag passed when a ray is extended from `p`: whether `p` lies in another colour
      region than the ray's start. */
  predicate Crossed(g: Geometry, start: Position, p: Position) {
    g.region(p) != g.region(start)
  }

  /** An occupant of a square, reduced to what the movement rules inspect: its colour and
      whether it is a wall. */
  datatype Piece = Piece(colour: Colour, isWall: bool)

  /** The board's square-to-occupant mapping; a square absent from the map is empty. */
  type BoardMap = map<Position, Piece>

  /** The squares occupied by walls: the board's wall-position collection. */
  function Walls(board: BoardMap): set<Position> {
    set p | p in board && board[p].isWall
  }

  /** `p` holds a piece of colour `c` (a wall included). */
  predicate OwnPiece(board: BoardMap, c: Colour, p: Position) {
    p in board && board[p].colour == c
  }

  /** `p` holds a wall of colour `c`. */
  predicate OwnWall(board: BoardMap, c: Colour, p: Position) {
    p in board && board[p].isWall && board[p].colour == c
  }

  /** A square a sliding piece of colour `c` moves through: empty, or a wall of its own colour. */
  predicate Passable(board: BoardMap, c: Colour, p: Position) {
    p !in board || OwnWall(board, c, p)
  }

  /** A destination the highlight sets admit: not a wall and not held by the mover's colour. */
  predicate Admissible(board: BoardMap, c: Colour, p: Position) {
    p !in Walls(board) && !OwnPiece(board, c, p)
  }

  lemma AdmissibleMeans(board: BoardMap, c: Colour, p: Position)
    ensures Admissible(board, c, p) <==> p !in board || (!board[p].isWall && board[p].colour != c)
  {
  }
}
