/** The Bishop: a sliding piece whose eight patterns are two-step diagonals. Its highlight rays
    share one result set and stop on a square already in it. */
module Bishops {
  import opened Common
  import opened Rays
  import Rooks

  /** A two-step diagonal: one vertical and one horizontal direction, in either order. */
  predicate Diagonal(p: Path) {
    |p| == 2 && Perpendicular(p[0], p[1])
  }

  /** The Bishop's pattern table. */
  function BishopTable(): (t: seq<Path>)
    ensures |t| == 8
  {
    [[Forward, Left], [Forward, Right], [Left, Forward], [Right, Forward],
     [Backward, Left], [Backward, Right], [Left, Backward], [Right, Backward]]
  }

  /** The table is exactly the set of all two-step diagonals, each listed once. */
  lemma BishopTableIsAllDiagonals()
    ensures forall p :: p in BishopTable() <==> Diagonal(p)
    ensures forall i, j :: 0 <= i < j < |BishopTable()| ==> BishopTable()[i] != BishopTable()[j]
  {
    var t := BishopTable();
    forall p | Diagonal(p) ensures p in t {
      assert p == [p[0], p[1]];
    }
  }

  /** The result set after the highlight ray of one pattern, given the set `seen` built so far
      and the ray at `tmp` with `fuel` steps left: each square that is new and empty or an
      own-colour wall is added and the ray goes on; the ray stops at any other square (one
      already in the set included), which is added if it holds a piece of another colour. */
  function GuardedRay(g: Geometry, c: Colour, dir: Path, start: Position, board: BoardMap,
                      seen: set<Position>, tmp: Option<Position>, fuel: nat): set<Position>
    decreases fuel
  {
    match tmp
    case None => seen
    case Some(p) =>
      if p !in seen && Passable(board, c, p) then
        if fuel == 0 then seen + {p}
        else GuardedRay(g, c, dir, start, board, seen + {p}, g.step(c, dir, p, Crossed(g, start, p)), fuel - 1)
      else if p in board && board[p].colour != c then seen + {p}
      else seen
  }

  /** The result set after the rays of all `steps`, cast in order, before walls are removed. */
  function Collected(g: Geometry, c: Colour, steps: seq<Path>, board: BoardMap, start: Position): set<Position>
    decreases |steps|
  {
    if steps == [] then {}
    else
      var last := steps[|steps| - 1];
      GuardedRay(g, c, last, start, board, Collected(g, c, steps[..|steps| - 1], board, start),
                 Resolve(g, c, last, start), g.squares)
  }

  /** The highlight set: the collected squares minus every wall position. */
  function Targets(g: Geometry, c: Colour, steps: seq<Path>, board: BoardMap, start: Position): set<Position> {
    Collected(g, c, steps, board, start) - Walls(board)
  }

  class Bishop {
    const colour: Colour
    var directions: seq<Path>

    constructor (colour: Colour)
      ensures this.colour == colour && directions == BishopTable()
    {
      this.colour := colour;
      directions := BishopTable();
    }

    method SetupDirections()
      modifies this
      ensures directions == BishopTable()
    {
      directions := BishopTable();
    }

    /** Whether the Bishop can move from `start` to `end`: some pattern's ray stops on `end`.
        The colour of what stands on `end` is not examined. */
    method CanMove(g: Geometry, board: BoardMap, start: Position, end: Position) returns (ok: bool)
      ensures ok == SlideReaches(g, colour, directions, board, start, end)
    {
      var steps := directions;
      for i := 0 to |steps|
        invariant forall j :: 0 <= j < i ==> RayEnd(g, colour, steps[j], start, board, end) != Some(end)
      {
        var stop := CastRay(g, colour, steps[i], start, board, end);
        if stop == Some(end) {
          return true;
        }
      }
      return false;
    }

    /** The Bishop's destination set from `start`. */
    method GetHighlightPolygons(g: Geometry, board: BoardMap, start: Position) returns (positionSet: set<Position>)
      ensures positionSet == Targets(g, colour, directions, board, start)
    {
      var walls := Walls(board);
      var steps := directions;
      positionSet := {};
      for k := 0 to |steps|
        invariant positionSet == Collected(g, colour, steps[..k], board, start)
      {
        var dir := steps[k];
        ghost var goal := GuardedRay(g, colour, dir, start, board, positionSet, Resolve(g, colour, dir, start), g.squares);
        var tmp := Resolve(g, colour, dir, start);
        var fuel := g.squares;
        while tmp.Some? && tmp.value !in positionSet && Passable(board, colour, tmp.value)
          invariant GuardedRay(g, colour, dir, start, board, positionSet, tmp, fuel) == goal
          decreases fuel, if tmp.Some? then 1 else 0
        {
          var p := tmp.value;
          positionSet := positionSet + {p};
          if fuel == 0 {
            tmp := None;
          } else {
            tmp, fuel := g.step(colour, dir, p, Crossed(g, start, p)), fuel - 1;
          }
        }
        if tmp.Some? && tmp.value in board {
          if board[tmp.value].colour != colour {
            positionSet := positionSet + {tmp.value};
          }
        }
        assert steps[..k + 1][..k] == steps[..k];
      }
      assert steps[..|steps|] == steps;
      ghost var collected := positionSet;
      var rest := walls;
      while rest != {}
        invariant rest <= walls
        invariant positionSet == collected - (walls - rest)
        decreases rest
      {
        var w :| w in rest;
        if w in positionSet {
          positionSet := positionSet - {w};
        }
        rest := rest - {w};
      }
    }

    /** The Bishop's name: its colour's name followed by "B". */
    function ToString(colourName: Colour -> string): (s: string)
      ensures |s| == |colourName(colour)| + 1 && s[..|s| - 1] == colourName(colour) && s[|s| - 1] == 'B'
    {
      colourName(colour) + "B"
    }
  }

  /** A guarded ray only adds to the set it is given. */
  lemma {:induction false} GuardedRayGrows(g: Geometry, c: Colour, dir: Path, start: Position, board: BoardMap,
                                           seen: set<Position>, tmp: Option<Position>, fuel: nat)
    ensures seen <= GuardedRay(g, c, dir, start, board, seen, tmp, fuel)
    decreases fuel
  {
    if tmp.Some? && tmp.value !in seen && Passable(board, c, tmp.value) && fuel > 0 {
      var p := tmp.value;
      GuardedRayGrows(g, c, dir, start, board, seen + {p}, g.step(c, dir, p, Crossed(g, start, p)), fuel - 1);
    }
  }

  /** Every square a guarded ray adds is a wall, or is admissible and the stop of the legality
      ray for `end` equal to that square. */
  lemma {:induction false} GuardedRaySound(g: Geometry, c: Colour, dir: Path, start: Position, board: BoardMap,
                                           seen: set<Position>, tmp: Position, fuel: nat, e: Position)
    requires e in GuardedRay(g, c, dir, start, board, seen, Some(tmp), fuel) && e !in seen
    ensures e in Walls(board)
         || (Admissible(board, c, e) && RayStop(g, c, dir, start, board, e, tmp, fuel) == Some(e))
    decreases fuel
  {
    if tmp !in seen && Passable(board, c, tmp) && fuel > 0 && e != tmp {
      match g.step(c, dir, tmp, Crossed(g, start, tmp))
      case None =>
      case Some(next) => GuardedRaySound(g, c, dir, start, board, seen + {tmp}, next, fuel - 1, e);
    }
  }

  /** Soundness of the Bishop's highlight set: every square in it is admissible and accepted by
      the legality check. */
  lemma {:induction false} CollectedSound(g: Geometry, c: Colour, steps: seq<Path>, board: BoardMap,
                                          start: Position, e: Position)
    requires e in Collected(g, c, steps, board, start) && e !in Walls(board)
    ensures Admissible(board, c, e) && SlideReaches(g, c, steps, board, start, e)
    decreases |steps|
  {
    var n := |steps| - 1;
    var init := steps[..n];
    if e in Collected(g, c, init, board, start) {
      CollectedSound(g, c, init, board, start, e);
      var i :| 0 <= i < |init| && RayEnd(g, c, init[i], start, board, e) == Some(e);
      assert steps[i] == init[i];
    } else {
      var first := Resolve(g, c, steps[n], start);
      GuardedRaySound(g, c, steps[n], start, board, Collected(g, c, init, board, start), first.value, g.squares, e);
    }
  }

  lemma TargetsSound(g: Geometry, c: Colour, steps: seq<Path>, board: BoardMap, start: Position, e: Position)
    requires e in Targets(g, c, steps, board, start)
    ensures Admissible(board, c, e) && SlideReaches(g, c, steps, board, start, e)
  {
    CollectedSound(g, c, steps, board, start, e);
  }

  /** The seen-set guard only ever loses destinations: over the same patterns, the Bishop's
      highlight set is contained in the one an unguarded ray (as in the Rook) produces. */
  lemma TargetsWithinUnguarded(g: Geometry, c: Colour, steps: seq<Path>, board: BoardMap, start: Position)
    ensures Targets(g, c, steps, board, start) <= Rooks.Targets(g, c, steps, board, start)
  {
    forall e | e in Targets(g, c, steps, board, start)
      ensures e in Rooks.Targets(g, c, steps, board, start)
    {
      TargetsSound(g, c, steps, board, start, e);
      Rooks.TargetsExact(g, c, steps, board, start, e);
    }
  }

  /** A ray that starts on an admissible square `p` leaves `p` in the set, whether it was new
      (added as passable or as a capture) or already there. */
  lemma GuardedRayKeepsFirst(g: Geometry, c: Colour, dir: Path, start: Position, board: BoardMap,
                             seen: set<Position>, p: Position, fuel: nat)
    requires Admissible(board, c, p)
    ensures p in GuardedRay(g, c, dir, start, board, seen, Some(p), fuel)
  {
    if p !in seen && Passable(board, c, p) && fuel > 0 {
      GuardedRayGrows(g, c, dir, start, board, seen + {p}, g.step(c, dir, p, Crossed(g, start, p)), fuel - 1);
    }
  }

  /** Collecting more patterns only adds squares. */
  lemma {:induction false} CollectedGrows(g: Geometry, c: Colour, steps: seq<Path>, board: BoardMap,
                                          start: Position, k: nat)
    requires k <= |steps|
    ensures Collected(g, c, steps[..k], board, start) <= Collected(g, c, steps, board, start)
    decreases |steps|
  {
    if k < |steps| {
      var n := |steps| - 1;
      assert steps[..n][..k] == steps[..k];
      CollectedGrows(g, c, steps[..n], board, start, k);
      GuardedRayGrows(g, c, steps[n], start, board, Collected(g, c, steps[..n], board, start),
                      Resolve(g, c, steps[n], start), g.squares);
    } else {
      assert steps[..k] == steps;
    }
  }

  /** Whatever the guard cuts off, the first square of every pattern is highlighted when it is
      admissible (empty, or held by a non-wall piece of another colour). */
  lemma FirstSquaresHighlighted(g: Geometry, c: Colour, steps: seq<Path>, board: BoardMap,
                                start: Position, i: nat, p: Position)
    requires i < |steps| && Resolve(g, c, steps[i], start) == Some(p)
    requires Admissible(board, c, p)
    ensures p in Targets(g, c, steps, board, start)
  {
    var pre := steps[..i + 1];
    assert pre[..i] == steps[..i];
    assert pre[|pre| - 1] == steps[i];
    GuardedRayKeepsFirst(g, c, steps[i], start, board, Collected(g, c, steps[..i], board, start), p, g.squares);
    CollectedGrows(g, c, steps, board, start, i + 1);
  }
}
