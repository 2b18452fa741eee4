/** The Knight: a single-hop leaper with sixteen three-step patterns. */
module Knights {
  import opened Common

  /** A knight hop: three steps, two along one axis and one along the other, where the two
      steps along the same axis are equal and adjacent (first two or last two). */
  predicate Hop(p: Path) {
    |p| == 3 && Perpendicular(p[0], p[2]) && (p[1] == p[0] || p[1] == p[2])
  }

  /** The Knight's pattern table. */
  function KnightTable(): (t: seq<Path>)
    ensures |t| == 16
  {
    [[Forward, Forward, Left], [Forward, Forward, Right], [Forward, Left, Left],
     [Forward, Right, Right], [Backward, Backward, Left], [Backward, Backward, Right],
     [Backward, Left, Left], [Backward, Right, Right], [Left, Left, Forward],
     [Left, Left, Backward], [Left, Forward, Forward], [Left, Backward, Backward],
     [Right, Right, Forward], [Right, Right, Backward], [Right, Forward, Forward],
     [Right, Backward, Backward]]
  }

  /** The table is exactly the set of knight hops, each listed once. */
  lemma KnightTableIsAllHops()
    ensures forall p :: p in KnightTable() <==> Hop(p)
    ensures forall i, j :: 0 <= i < j < |KnightTable()| ==> KnightTable()[i] != KnightTable()[j]
  {
    var t := KnightTable();
    forall p | Hop(p) ensures p in t {
      assert p == [p[0], p[1], p[2]];
    }
  }

  /** Pattern `i` takes the Knight from `start` to `e`. */
  predicate Lands(g: Geometry, c: Colour, steps: seq<Path>, start: Position, i: int, e: Position) {
    0 <= i < |steps| && Resolve(g, c, steps[i], start) == Some(e)
  }

  /** Some pattern takes the Knight from `start` to `e`; off-board patterns take it nowhere. */
  predicate Reaches(g: Geometry, c: Colour, steps: seq<Path>, start: Position, e: Position) {
    exists i :: 0 <= i < |steps| && Lands(g, c, steps, start, i, e)
  }

  /** The legality rule: `end` holds no piece of the mover's colour, is not a wall, and some
      pattern resolves on the board to exactly `end`. */
  predicate LegalMove(g: Geometry, c: Colour, steps: seq<Path>, board: BoardMap, start: Position, end: Position) {
    && !OwnPiece(board, c, end)
    && end !in Walls(board)
    && Reaches(g, c, steps, start, end)
  }

  /** The highlight set: the landing squares of all patterns that are admissible. */
  function Targets(g: Geometry, c: Colour, steps: seq<Path>, board: BoardMap, start: Position): set<Position> {
    set i | 0 <= i < |steps| && Resolve(g, c, steps[i], start).Some?
                             && Admissible(board, c, Resolve(g, c, steps[i], start).value)
          :: Resolve(g, c, steps[i], start).value
  }

  /** Taking one more pattern into account adds its landing square when that is admissible. */
  lemma TargetsExtend(g: Geometry, c: Colour, steps: seq<Path>, board: BoardMap, start: Position, k: nat)
    requires k < |steps|
    ensures Targets(g, c, steps[..k + 1], board, start) ==
      Targets(g, c, steps[..k], board, start) +
      (var r := Resolve(g, c, steps[k], start); if r.Some? && Admissible(board, c, r.value) then {r.value} else {})
  {
    var pre, pre' := steps[..k], steps[..k + 1];
    assert forall i :: 0 <= i < k ==> pre'[i] == pre[i];
    assert pre'[k] == steps[k];
  }

  class Knight {
    const colour: Colour
    var directions: seq<Path>

    constructor (colour: Colour)
      ensures this.colour == colour && directions == KnightTable()
    {
      this.colour := colour;
      directions := KnightTable();
    }

    method SetupDirections()
      modifies this
      ensures directions == KnightTable()
    {
      directions := KnightTable();
    }

    /** Whether the Knight may move from `start` to `end`. */
    method IsLegalMove(g: Geometry, board: BoardMap, start: Position, end: Position) returns (ok: bool)
      ensures ok <==> LegalMove(g, colour, directions, board, start, end)
      ensures OwnPiece(board, colour, end) ==> !ok
      ensures end in Walls(board) ==> !ok
    {
      if end in board && colour == board[end].colour {
        return false;
      }
      var walls := Walls(board);
      if end in walls {
        return false;
      }
      var steps := directions;
      for i := 0 to |steps|
        invariant forall j :: 0 <= j < i ==> !Lands(g, colour, steps, start, j, end)
      {
        var dest := Resolve(g, colour, steps[i], start);
        if dest == Some(end) {
          assert Lands(g, colour, steps, start, i, end);
          return true;
        }
      }
      return false;
    }

    /** The Knight's destination set from `start`: every on-board landing square that is not a
        wall and does not hold a piece of the mover's colour. */
    method GetHighlightPolygons(g: Geometry, board: BoardMap, start: Position) returns (positionSet: set<Position>)
      ensures positionSet == Targets(g, colour, directions, board, start)
    {
      var walls := Walls(board);
      var steps := directions;
      positionSet := {};
      for k := 0 to |steps|
        invariant positionSet == Targets(g, colour, steps[..k], board, start)
      {
        TargetsExtend(g, colour, steps, board, start, k);
        var end := Resolve(g, colour, steps[k], start);
        if end.Some? && end.value !in positionSet && end.value !in walls {
          var target := end.value;
          if target in board {
            if board[target].colour != colour {
              positionSet := positionSet + {target};
            }
          } else {
            positionSet := positionSet + {target};
          }
        }
      }
      assert steps[..|steps|] == steps;
    }

    /** The Knight's name: its colour's name followed by "N". */
    function ToString(colourName: Colour -> string): (s: string)
      ensures |s| == |colourName(colour)| + 1 && s[..|s| - 1] == colourName(colour) && s[|s| - 1] == 'N'
    {
      colourName(colour) + "N"
    }
  }

  /** The two queries agree: a square is highlighted iff the legality check accepts it. */
  lemma HighlightIffLegal(g: Geometry, c: Colour, steps: seq<Path>, board: BoardMap, start: Position, e: Position)
    ensures e in Targets(g, c, steps, board, start) <==> LegalMove(g, c, steps, board, start, e)
  {
    if LegalMove(g, c, steps, board, start, e) {
      var i :| 0 <= i < |steps| && Lands(g, c, steps, start, i, e);
      assert Resolve(g, c, steps[i], start).value == e;
    }
    if e in Targets(g, c, steps, board, start) {
      var i :| 0 <= i < |steps| && Resolve(g, c, steps[i], start).Some?
               && Resolve(g, c, steps[i], start).value == e;
      assert Lands(g, c, steps, start, i, e);
    }
  }
}
