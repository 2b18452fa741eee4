/** Properties shared by the four pieces. */
module Pieces {
  import opened Common
  import Pawns
  import Knights
  import Bishops
  import Rooks

  /** A piece's name tells its kind and its colour's name apart: two names are equal only for
      pieces of the same kind whose colours have the same name. */
  lemma NamesIdentifyPieces(n: Colour -> string, p: Pawns.Pawn, k: Knights.Knight, b: Bishops.Bishop,
                            r: Rooks.Rook, p': Pawns.Pawn)
    ensures p.ToString(n) != k.ToString(n) && p.ToString(n) != b.ToString(n) && p.ToString(n) != r.ToString(n)
    ensures k.ToString(n) != b.ToString(n) && k.ToString(n) != r.ToString(n) && b.ToString(n) != r.ToString(n)
    ensures p.ToString(n) == p'.ToString(n) ==> n(p.colour) == n(p'.colour)
  {
    var s, s' := p.ToString(n), p'.ToString(n);
    if s == s' {
      assert s[..|s| - 1] == s'[..|s'| - 1];
    }
  }

  /** Own-colour non-capture for every piece: no highlight set, with the piece's own table,
      holds a square occupied by the mover's colour or by a wall. */
  lemma NoOwnColourDestinations(g: Geometry, c: Colour, board: BoardMap, start: Position, e: Position)
    requires e in Pawns.Targets(g, c, Pawns.PawnTable(), board, start)
          || e in Knights.Targets(g, c, Knights.KnightTable(), board, start)
          || e in Bishops.Targets(g, c, Bishops.BishopTable(), board, start)
          || e in Rooks.Targets(g, c, Rooks.RookTable(), board, start)
    ensures !OwnPiece(board, c, e) && e !in Walls(board)
  {
    Pawns.TargetsExact(g, c, Pawns.PawnTable(), board, start, e);
    Knights.HighlightIffLegal(g, c, Knights.KnightTable(), board, start, e);
    if e in Bishops.Targets(g, c, Bishops.BishopTable(), board, start) {
      Bishops.TargetsSound(g, c, Bishops.BishopTable(), board, start, e);
    }
    Rooks.TargetsExact(g, c, Rooks.RookTable(), board, start, e);
  }
}
