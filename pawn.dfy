/** The Pawn: a leaper whose patterns have positional roles. Pattern 0 is the single step,
    pattern 1 the double step from the starting row, and every later pattern a diagonal
    capture. */
module Pawns {
  import opened Common

  /** A forward diagonal: one step forward and one sideways, in either order. */
  predicate ForwardDiagonal(p: Path) {
    |p| == 2 && Forward in p && (Left in p || Right in p)
  }

  /** The Pawn's pattern table. */
  function PawnTable(): (t: seq<Path>)
    ensures |t| == 6
  {
    [[Forward], [Forward, Forward], [Forward, Left], [Left, Forward], [Forward, Right], [Right, Forward]]
  }

  /** The roles of the table: a single forward step, a double forward step, and then exactly
      the four forward diagonals, each listed once. */
  lemma PawnTableRoles()
    ensures PawnTable()[0] == [Forward] && PawnTable()[1] == [Forward, Forward]
    ensures forall p :: p in PawnTable()[2..] <==> ForwardDiagonal(p)
    ensures forall i, j :: 0 <= i < j < |PawnTable()| ==> PawnTable()[i] != PawnTable()[j]
  {
    var t := PawnTable();
    forall p | ForwardDiagonal(p) ensures p in t[2..] {
      assert p == [p[0], p[1]];
    }
  }

  /** The double-step gate: `start` is on row 1 of the mover's own colour region, and the square
      on row 2 of that region in the same column exists and is empty. A lookup of a square that
      does not exist raises an exception, which the caller catches: the gate is then closed. */
  predicate DoubleStepOpen(g: Geometry, c: Colour, board: BoardMap, start: Position) {
    && g.region(start) == c
    && g.row(start) == 1
    && match g.at(c, 2, g.column(start))
       case None => false
       case Some(mid) => mid !in board
  }

  /** The condition `canMove` puts on pattern `i` landing on `end`: an empty `end` for the single
      step, an empty `end` and an open gate for the double step, an occupied `end` (by anything)
      for a diagonal. */
  predicate MoveRule(g: Geometry, c: Colour, board: BoardMap, start: Position, end: Position, i: int) {
    || (end !in board && i == 0)
    || (end !in board && i == 1 && DoubleStepOpen(g, c, board, start))
    || (end in board && i > 1)
  }

  /** The condition `getHighlightPolygons` puts on pattern `i` landing on `end`: the same,
      except that a diagonal needs a piece of another colour on `end`. */
  predicate HighlightRule(g: Geometry, c: Colour, board: BoardMap, start: Position, end: Position, i: int) {
    || (end !in board && i == 0)
    || (end !in board && i == 1 && DoubleStepOpen(g, c, board, start))
    || (end in board && board[end].colour != c && i > 1)
  }

  /** Pattern `i` resolves on the board to `end` and its rule accepts `end`. */
  predicate MoveVia(g: Geometry, c: Colour, steps: seq<Path>, board: BoardMap, start: Position, end: Position, i: int) {
    0 <= i < |steps| && Resolve(g, c, steps[i], start) == Some(end) && MoveRule(g, c, board, start, end, i)
  }

  /** The legality check: some pattern resolves to exactly `end` and its rule accepts it. */
  predicate CanMoveTo(g: Geometry, c: Colour, steps: seq<Path>, board: BoardMap, start: Position, end: Position) {
    exists i :: 0 <= i < |steps| && MoveVia(g, c, steps, board, start, end, i)
  }

  /** The highlight set: every on-board landing square that is not a wall and that the
      highlight rule of its pattern accepts. */
  function Targets(g: Geometry, c: Colour, steps: seq<Path>, board: BoardMap, start: Position): set<Position> {
    set i | 0 <= i < |steps| && Resolve(g, c, steps[i], start).Some?
                             && Resolve(g, c, steps[i], start).value !in Walls(board)
                             && HighlightRule(g, c, board, start, Resolve(g, c, steps[i], start).value, i)
          :: Resolve(g, c, steps[i], start).value
  }

  /** Taking one more pattern into account adds its landing square when that is accepted. */
  lemma TargetsExtend(g: Geometry, c: Colour, steps: seq<Path>, board: BoardMap, start: Position, k: nat)
    requires k < |steps|
    ensures Targets(g, c, steps[..k + 1], board, start) ==
      Targets(g, c, steps[..k], board, start) +
      (var r := Resolve(g, c, steps[k], start);
       if r.Some? && r.value !in Walls(board) && HighlightRule(g, c, board, start, r.value, k) then {r.value} else {})
  {
    var pre, pre' := steps[..k], steps[..k + 1];
    assert forall i :: 0 <= i < k ==> pre'[i] == pre[i];
    assert pre'[k] == steps[k];
  }

  class Pawn {
    const colour: Colour
    var directions: seq<Path>

    constructor (colour: Colour)
      ensures this.colour == colour && directions == PawnTable()
    {
      this.colour := colour;
      directions := PawnTable();
    }

    method SetupDirections()
      modifies this
      ensures directions == PawnTable()
    {
      directions := PawnTable();
    }

    /** Whether the Pawn can move from `start` to `end`. */
    method CanMove(g: Geometry, board: BoardMap, start: Position, end: Position) returns (ok: bool)
      ensures ok == CanMoveTo(g, colour, directions, board, start, end)
    {
      var empty := end !in board;
      var steps := directions;
      for i := 0 to |steps|
        invariant forall j :: 0 <= j < i ==> !MoveVia(g, colour, steps, board, start, end, j)
      {
        var dest := Resolve(g, colour, steps[i], start);
        if dest == Some(end) {
          if empty && i == 0 {
            assert MoveVia(g, colour, steps, board, start, end, i);
            return true;
          }
          if empty && i == 1 && g.region(start) == colour && g.row(start) == 1 {
            var mid := g.at(colour, 2, g.column(start));
            // a missing square is the exception the loop body catches
            if mid.Some? && mid.value !in board {
              assert MoveVia(g, colour, steps, board, start, end, i);
              return true;
            }
          }
          if !empty && i > 1 {
            assert MoveVia(g, colour, steps, board, start, end, i);
            return true;
          }
        }
      }
      return false;
    }

    /** The Pawn's destination set from `start`. */
    method GetHighlightPolygons(g: Geometry, board: BoardMap, start: Position) returns (positionSet: set<Position>)
      ensures positionSet == Targets(g, colour, directions, board, start)
    {
      var walls := Walls(board);
      var steps := directions;
      positionSet := {};
      for i := 0 to |steps|
        invariant positionSet == Targets(g, colour, steps[..i], board, start)
      {
        TargetsExtend(g, colour, steps, board, start, i);
        var end := Resolve(g, colour, steps[i], start);
        if end.Some? && end.value !in walls && end.value !in positionSet {
          var e := end.value;
          var add := false;
          if e !in board && i == 0 {
            add := true;
          } else if e !in board && i == 1 && g.region(start) == colour && g.row(start) == 1 {
            var mid := g.at(colour, 2, g.column(start));
            // a missing square is the exception the loop body catches
            add := mid.Some? && mid.value !in board;
          } else if e in board && board[e].colour != colour && i > 1 {
            add := true;
          }
          if add {
            positionSet := positionSet + {e};
          }
        }
      }
      assert steps[..|steps|] == steps;
    }

    /** The Pawn's name: its colour's name followed by "P". */
    function ToString(colourName: Colour -> string): (s: string)
      ensures |s| == |colourName(colour)| + 1 && s[..|s| - 1] == colourName(colour) && s[|s| - 1] == 'P'
    {
      colourName(colour) + "P"
    }
  }

  /** The two queries differ exactly by the destination filter: a square is highlighted iff the
      legality check accepts it, it is not a wall, and it holds no piece of the mover's colour. */
  lemma TargetsExact(g: Geometry, c: Colour, steps: seq<Path>, board: BoardMap, start: Position, e: Position)
    ensures e in Targets(g, c, steps, board, start)
        <==> CanMoveTo(g, c, steps, board, start, e) && Admissible(board, c, e)
  {
    if e in Targets(g, c, steps, board, start) {
      var i :| 0 <= i < |steps| && Resolve(g, c, steps[i], start).Some?
               && Resolve(g, c, steps[i], start).value == e
               && e !in Walls(board) && HighlightRule(g, c, board, start, e, i);
      assert MoveVia(g, c, steps, board, start, e, i);
    }
    if CanMoveTo(g, c, steps, board, start, e) && Admissible(board, c, e) {
      var i :| 0 <= i < |steps| && MoveVia(g, c, steps, board, start, e, i);
      assert HighlightRule(g, c, board, start, e, i);
    }
  }

  /** Where the two queries part: a diagonal landing on a wall or on a piece of the mover's own
      colour passes the legality check but is never highlighted. */
  lemma DiagonalDivergence(g: Geometry, c: Colour, steps: seq<Path>, board: BoardMap, start: Position,
                           e: Position, i: nat)
    requires 2 <= i < |steps| && Resolve(g, c, steps[i], start) == Some(e)
    requires e in board && (board[e].isWall || board[e].colour == c)
    ensures CanMoveTo(g, c, steps, board, start, e)
    ensures e !in Targets(g, c, steps, board, start)
  {
    assert MoveVia(g, c, steps, board, start, e, i);
    TargetsExact(g, c, steps, board, start, e);
  }

  /** Double-step gating: away from row 1 of its own colour region, a Pawn reaches nothing
      through the double-step pattern, in either query. */
  lemma DoubleStepGated(g: Geometry, c: Colour, steps: seq<Path>, board: BoardMap, start: Position, e: Position)
    requires !(g.region(start) == c && g.row(start) == 1)
    ensures CanMoveTo(g, c, steps, board, start, e) ==>
      exists j :: 0 <= j < |steps| && j != 1 && MoveVia(g, c, steps, board, start, e, j)
    ensures e in Targets(g, c, steps, board, start) ==>
      exists j :: 0 <= j < |steps| && j != 1 && MoveVia(g, c, steps, board, start, e, j)
  {
    TargetsExact(g, c, steps, board, start, e);
  }

  /** Diagonal gating for the Pawn's table: a square that neither forward step reaches is
      highlighted iff some diagonal reaches it and it holds a non-wall piece of another colour;
      in particular an empty diagonal square is never highlighted. */
  lemma DiagonalGated(g: Geometry, c: Colour, board: BoardMap, start: Position, e: Position)
    requires Resolve(g, c, PawnTable()[0], start) != Some(e)
    requires Resolve(g, c, PawnTable()[1], start) != Some(e)
    ensures e in Targets(g, c, PawnTable(), board, start) <==>
      (exists i :: 2 <= i < 6 && Resolve(g, c, PawnTable()[i], start) == Some(e))
      && e in board && !board[e].isWall && board[e].colour != c
  {
    var t := PawnTable();
    TargetsExact(g, c, t, board, start, e);
    if e in Targets(g, c, t, board, start) {
      var i :| 0 <= i < |t| && MoveVia(g, c, t, board, start, e, i);
      assert 2 <= i;
    }
    if exists i :: 2 <= i < 6 && Resolve(g, c, t[i], start) == Some(e) {
      var i :| 2 <= i < 6 && Resolve(g, c, t[i], start) == Some(e);
      if e in board {
        assert MoveVia(g, c, t, board, start, e, i);
      }
    }
  }
}
