/** The ray cast shared by the legality checks of the sliding pieces (Rook and Bishop):
    from `start`, resolve one pattern, then keep resolving it from the square reached,
    while the square is an empty square other than `end` or a wall of the mover's colour. */
module Rays {
  import opened Common

  /** The loop condition of the legality ray as the source writes it, where `&&` binds tighter
      than `||`: an own-colour wall is passed even when it is `end`. */
  predicate Continues(board: BoardMap, c: Colour, end: Position, p: Position) {
    (p != end && p !in board) || OwnWall(board, c, p)
  }

  /** The square on which the legality ray that is at `tmp` with `fuel` steps left stops, or
      `None` when a step leaves the board (or the fuel runs out first). */
  function RayStop(g: Geometry, c: Colour, dir: Path, start: Position, board: BoardMap,
                   end: Position, tmp: Position, fuel: nat): Option<Position>
    decreases fuel
  {
    if !Continues(board, c, end, tmp) then Some(tmp)
    else if fuel == 0 then None
    else match g.step(c, dir, tmp, Crossed(g, start, tmp))
      case None => None
      case Some(next) => RayStop(g, c, dir, start, board, end, next, fuel - 1)
  }

  /** Where the legality ray of pattern `dir` cast from `start` stops. */
  function RayEnd(g: Geometry, c: Colour, dir: Path, start: Position, board: BoardMap,
                  end: Position): Option<Position>
  {
    match Resolve(g, c, dir, start)
    case None => None
    case Some(first) => RayStop(g, c, dir, start, board, end, first, g.squares)
  }

  /** The legality check of a sliding piece: some pattern's ray stops exactly on `end`. */
  predicate SlideReaches(g: Geometry, c: Colour, steps: seq<Path>, board: BoardMap,
                         start: Position, end: Position)
  {
    exists i :: 0 <= i < |steps| && RayEnd(g, c, steps[i], start, board, end) == Some(end)
  }

  /** Casts the legality ray of one pattern: the body of the `try` block of `canMove`. */
  method CastRay(g: Geometry, c: Colour, dir: Path, start: Position, board: BoardMap,
                 end: Position) returns (stop: Option<Position>)
    ensures stop == RayEnd(g, c, dir, start, board, end)
    ensures stop.Some? ==> !OwnWall(board, c, stop.value)
    ensures stop.Some? ==> stop.value == end || stop.value in board
  {
    var first := Resolve(g, c, dir, start);
    if first.None? {
      return None;
    }
    var tmp := first.value;
    var fuel := g.squares;
    while Continues(board, c, end, tmp)
      invariant RayStop(g, c, dir, start, board, end, tmp, fuel) == RayEnd(g, c, dir, start, board, end)
      decreases fuel
    {
      if fuel == 0 {
        return None;
      }
      var next := g.step(c, dir, tmp, Crossed(g, start, tmp));
      if next.None? {
        return None;
      }
      tmp, fuel := next.value, fuel - 1;
    }
    stop := Some(tmp);
  }

  /** A legality ray only ever stops on `end` or on an occupied square, and never on a wall of
      the mover's colour: such a wall is passed, even when it is `end`. */
  lemma {:induction false} RayStopIsBlocker(g: Geometry, c: Colour, dir: Path, start: Position,
                                            board: BoardMap, end: Position, tmp: Position, fuel: nat)
    ensures RayStop(g, c, dir, start, board, end, tmp, fuel).Some? ==>
      var p := RayStop(g, c, dir, start, board, end, tmp, fuel).value;
      !OwnWall(board, c, p) && (p == end || p in board)
    decreases fuel
  {
    if Continues(board, c, end, tmp) && fuel > 0 {
      match g.step(c, dir, tmp, Crossed(g, start, tmp))
      case None =>
      case Some(next) => RayStopIsBlocker(g, c, dir, start, board, end, next, fuel - 1);
    }
  }

  /** Wall permeability: the legality check never accepts a wall of the mover's own colour as
      `end`, whatever the patterns, because the ray passes over it. */
  lemma OwnWallNeverReached(g: Geometry, c: Colour, steps: seq<Path>, board: BoardMap,
                            start: Position, end: Position)
    requires OwnWall(board, c, end)
    ensures !SlideReaches(g, c, steps, board, start, end)
  {
    if SlideReaches(g, c, steps, board, start, end) {
      var i :| 0 <= i < |steps| && RayEnd(g, c, steps[i], start, board, end) == Some(end);
      var first := Resolve(g, c, steps[i], start).value;
      RayStopIsBlocker(g, c, steps[i], start, board, end, first, g.squares);
    }
  }

  /** An occupied square other than an own-colour wall stops the ray that reaches it: it is the
      stop, whatever `end` is, so nothing behind it is ever reachable. */
  lemma BlockerStopsRay(g: Geometry, c: Colour, dir: Path, start: Position, board: BoardMap,
                        end: Position, tmp: Position, fuel: nat)
    requires tmp in board && !OwnWall(board, c, tmp)
    ensures RayStop(g, c, dir, start, board, end, tmp, fuel) == Some(tmp)
  {
  }
}
