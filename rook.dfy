/** The Rook: a sliding piece whose four patterns are single orthogonal steps. */
module Rooks {
  import opened Common
  import opened Rays

  /** The Rook's pattern table: BACKWARD, LEFT, RIGHT, FORWARD, one step each. */
  function RookTable(): (t: seq<Path>)
    ensures |t| == 4
    ensures forall i :: 0 <= i < |t| ==> |t[i]| == 1
  {
    [[Backward], [Left], [Right], [Forward]]
  }

  /** The table holds every direction exactly once. */
  lemma RookTableIsOrthogonal()
    ensures forall d: Direction :: [d] in RookTable()
    ensures forall i, j :: 0 <= i < j < |RookTable()| ==> RookTable()[i] != RookTable()[j]
  {
    var t := RookTable();
    forall d: Direction ensures [d] in t {
      match d
      case Backward => assert t[0] == [d];
      case Left => assert t[1] == [d];
      case Right => assert t[2] == [d];
      case Forward => assert t[3] == [d];
    }
  }

  /** The squares the highlight ray of one pattern adds when it is at `tmp` with `fuel` steps
      left: every empty or own-colour-wall square, then the square that stopped it if that holds
      a piece of another colour. A ray that leaves the board (`None`) adds nothing more. */
  function HighlightRay(g: Geometry, c: Colour, dir: Path, start: Position, board: BoardMap,
                        tmp: Option<Position>, fuel: nat): set<Position>
    decreases fuel
  {
    match tmp
    case None => {}
    case Some(p) =>
      if Passable(board, c, p) then
        {p} + (if fuel == 0 then {} else HighlightRay(g, c, dir, start, board, g.step(c, dir, p, Crossed(g, start, p)), fuel - 1))
      else if board[p].colour != c then {p}
      else {}
  }

  /** The squares collected by the highlight rays of all `steps`, before walls are removed. */
  function Collected(g: Geometry, c: Colour, steps: seq<Path>, board: BoardMap, start: Position): set<Position>
    decreases |steps|
  {
    if steps == [] then {}
    else
      var last := steps[|steps| - 1];
      Collected(g, c, steps[..|steps| - 1], board, start)
        + HighlightRay(g, c, last, start, board, Resolve(g, c, last, start), g.squares)
  }

  /** The highlight set: the collected squares minus every wall position. */
  function Targets(g: Geometry, c: Colour, steps: seq<Path>, board: BoardMap, start: Position): set<Position> {
    Collected(g, c, steps, board, start) - Walls(board)
  }

  class Rook {
    const colour: Colour
    var directions: seq<Path>

    constructor (colour: Colour)
      ensures this.colour == colour && directions == RookTable()
    {
      this.colour := colour;
      directions := RookTable();
    }

    method SetupDirections()
      modifies this
      ensures directions == RookTable()
    {
      directions := RookTable();
    }

    /** Whether the Rook can move from `start` to `end`: some pattern's ray stops on `end`.
        The colour of what stands on `end` is not examined. */
    method CanMove(g: Geometry, board: BoardMap, start: Position, end: Position) returns (ok: bool)
      ensures ok == SlideReaches(g, colour, directions, board, start, end)
    {
      var steps := directions;
      for i := 0 to |steps|
        invariant forall j :: 0 <= j < i ==> RayEnd(g, colour, steps[j], start, board, end) != Some(end)
      {
        var stop := CastRay(g, colour, steps[i], start, board, end);
        if stop == Some(end) {
          return true;
        }
      }
      return false;
    }

    /** The Rook's destination set from `start`. */
    method GetHighlightPolygons(g: Geometry, board: BoardMap, start: Position) returns (positionSet: set<Position>)
      ensures positionSet == Targets(g, colour, directions, board, start)
    {
      var walls := Walls(board);
      var steps := directions;
      positionSet := {};
      for k := 0 to |steps|
        invariant positionSet == Collected(g, colour, steps[..k], board, start)
      {
        var dir := steps[k];
        ghost var before := positionSet;
        var tmp := Resolve(g, colour, dir, start);
        var fuel := g.squares;
        while tmp.Some? && Passable(board, colour, tmp.value)
          invariant positionSet + HighlightRay(g, colour, dir, start, board, tmp, fuel)
                 == before + HighlightRay(g, colour, dir, start, board, Resolve(g, colour, dir, start), g.squares)
          decreases fuel, if tmp.Some? then 1 else 0
        {
          var p := tmp.value;
          positionSet := positionSet + {p};
          if fuel == 0 {
            tmp := None;
          } else {
            tmp, fuel := g.step(colour, dir, p, Crossed(g, start, p)), fuel - 1;
          }
        }
        if tmp.Some? {
          // the loop stopped on an occupied square, so the lookup below finds a piece
          if board[tmp.value].colour != colour {
            positionSet := positionSet + {tmp.value};
          }
        }
        assert steps[..k + 1][..k] == steps[..k];
      }
      assert steps[..|steps|] == steps;
      ghost var collected := positionSet;
      var rest := walls;
      while rest != {}
        invariant rest <= walls
        invariant positionSet == collected - (walls - rest)
        decreases rest
      {
        var w :| w in rest;
        if w in positionSet {
          positionSet := positionSet - {w};
        }
        rest := rest - {w};
      }
    }

    /** The Rook's name: its colour's name followed by "R". */
    function ToString(colourName: Colour -> string): (s: string)
      ensures |s| == |colourName(colour)| + 1 && s[..|s| - 1] == colourName(colour) && s[|s| - 1] == 'R'
    {
      colourName(colour) + "R"
    }
  }

  /** Every square a highlight ray adds is empty, an own-colour wall or held by another colour. */
  lemma {:induction false} HighlightRaySafe(g: Geometry, c: Colour, dir: Path, start: Position,
                                            board: BoardMap, tmp: Option<Position>, fuel: nat, e: Position)
    requires e in HighlightRay(g, c, dir, start, board, tmp, fuel)
    ensures Passable(board, c, e) || board[e].colour != c
    decreases fuel
  {
    var p := tmp.value;
    if Passable(board, c, p) && e != p {
      HighlightRaySafe(g, c, dir, start, board, g.step(c, dir, p, Crossed(g, start, p)), fuel - 1, e);
    }
  }

  /** For an admissible square `e`, the highlight ray and the legality ray agree: the highlight
      ray from `tmp` adds `e` exactly when the legality ray for `end == e` stops on `e`. */
  lemma {:induction false} HighlightRayMatchesLegality(g: Geometry, c: Colour, dir: Path, start: Position,
                                                       board: BoardMap, tmp: Position, fuel: nat, e: Position)
    requires Admissible(board, c, e)
    ensures e in HighlightRay(g, c, dir, start, board, Some(tmp), fuel)
        <==> RayStop(g, c, dir, start, board, e, tmp, fuel) == Some(e)
    decreases fuel
  {
    if Passable(board, c, tmp) && tmp != e && fuel > 0 {
      match g.step(c, dir, tmp, Crossed(g, start, tmp))
      case None =>
      case Some(next) => HighlightRayMatchesLegality(g, c, dir, start, board, next, fuel - 1, e);
    }
  }

  /** For an admissible square, collecting over a prefix of patterns agrees with the legality
      check over the same patterns. */
  lemma {:induction false} CollectedMatchesLegality(g: Geometry, c: Colour, steps: seq<Path>,
                                                    board: BoardMap, start: Position, e: Position)
    requires Admissible(board, c, e)
    ensures e in Collected(g, c, steps, board, start) <==> SlideReaches(g, c, steps, board, start, e)
    decreases |steps|
  {
    if steps != [] {
      var n := |steps| - 1;
      var init := steps[..n];
      CollectedMatchesLegality(g, c, init, board, start, e);
      var first := Resolve(g, c, steps[n], start);
      var inLast := e in HighlightRay(g, c, steps[n], start, board, first, g.squares);
      var lastReaches := RayEnd(g, c, steps[n], start, board, e) == Some(e);
      if first.Some? {
        HighlightRayMatchesLegality(g, c, steps[n], start, board, first.value, g.squares, e);
      }
      assert inLast <==> lastReaches;
      if SlideReaches(g, c, steps, board, start, e) {
        var i :| 0 <= i < |steps| && RayEnd(g, c, steps[i], start, board, e) == Some(e);
        if i < n {
          assert init[i] == steps[i];
        }
      }
      if SlideReaches(g, c, init, board, start, e) {
        var i :| 0 <= i < |init| && RayEnd(g, c, init[i], start, board, e) == Some(e);
        assert steps[i] == init[i];
      }
    }
  }

  /** No own-colour piece survives in the collected squares except walls, which are removed. */
  lemma {:induction false} CollectedSafe(g: Geometry, c: Colour, steps: seq<Path>, board: BoardMap,
                                         start: Position, e: Position)
    requires e in Collected(g, c, steps, board, start) && e !in Walls(board)
    ensures !OwnPiece(board, c, e)
    decreases |steps|
  {
    var n := |steps| - 1;
    if e in Collected(g, c, steps[..n], board, start) {
      CollectedSafe(g, c, steps[..n], board, start, e);
    } else {
      HighlightRaySafe(g, c, steps[n], start, board, Resolve(g, c, steps[n], start), g.squares, e);
    }
  }

  /** The two queries of a sliding piece with an unguarded highlight ray differ exactly by the
      destination filter: a square is highlighted iff the legality check accepts it, it is not a
      wall, and it does not hold a piece of the mover's colour. */
  lemma TargetsExact(g: Geometry, c: Colour, steps: seq<Path>, board: BoardMap, start: Position, e: Position)
    ensures e in Targets(g, c, steps, board, start)
        <==> SlideReaches(g, c, steps, board, start, e) && Admissible(board, c, e)
  {
    if e in Targets(g, c, steps, board, start) {
      CollectedSafe(g, c, steps, board, start, e);
    }
    if Admissible(board, c, e) {
      CollectedMatchesLegality(g, c, steps, board, start, e);
    }
  }

  /** The Rook's highlight set never holds a wall or a square of the mover's own colour. */
  lemma TargetsAdmissible(g: Geometry, c: Colour, steps: seq<Path>, board: BoardMap, start: Position)
    ensures forall e :: e in Targets(g, c, steps, board, start) ==> Admissible(board, c, e)
  {
    forall e | e in Targets(g, c, steps, board, start) ensures Admissible(board, c, e) {
      CollectedSafe(g, c, steps, board, start, e);
    }
  }
}
