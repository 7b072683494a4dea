/** The direction and offset tables of src/brain/moves.ts. */
module MoveTables {
  import opened Types

  function Abs(n: int): nat
  {
    if n < 0 then -n else n
  }

  const KnightMoves: seq<PieceMove> := [
    PieceMove(-2, -1), PieceMove(-1, -2), PieceMove(1, -2), PieceMove(2, -1),
    PieceMove(2, 1), PieceMove(1, 2), PieceMove(-1, 2), PieceMove(-2, 1)
  ]

  const BishopMoves: seq<PieceMove> := [
    PieceMove(1, -1), PieceMove(-1, 1), PieceMove(-1, -1), PieceMove(1, 1)
  ]

  const RookMoves: seq<PieceMove> := [
    PieceMove(0, -1), PieceMove(0, 1), PieceMove(-1, 0), PieceMove(1, 0)
  ]

  const QueenMoves: seq<PieceMove> := BishopMoves + RookMoves

  const KingMoves: seq<PieceMove> := [
    PieceMove(1, 1), PieceMove(1, 0), PieceMove(1, -1), PieceMove(0, -1),
    PieceMove(0, 1), PieceMove(-1, 1), PieceMove(-1, 0), PieceMove(-1, -1)
  ]

  predicate Distinct(s: seq<PieceMove>)
  {
    forall i, j | 0 <= i < j < |s| :: s[i] != s[j]
  }

  /** A knight jump: one coordinate changes by one, the other by two. */
  predicate IsKnightJump(m: PieceMove)
  {
    (Abs(m.dx) == 1 && Abs(m.dy) == 2) || (Abs(m.dx) == 2 && Abs(m.dy) == 1)
  }

  /** A king step: Chebyshev length exactly one. */
  predicate IsKingStep(m: PieceMove)
  {
    Abs(m.dx) <= 1 && Abs(m.dy) <= 1 && m != PieceMove(0, 0)
  }

  predicate IsDiagonalUnit(m: PieceMove)
  {
    Abs(m.dx) == 1 && Abs(m.dy) == 1
  }

  predicate IsOrthogonalUnit(m: PieceMove)
  {
    Abs(m.dx) + Abs(m.dy) == 1
  }

  /** The sliding tables never contain the null vector, so a slide always leaves the board. */
  predicate NonZero(dirs: seq<PieceMove>)
  {
    forall i | 0 <= i < |dirs| :: dirs[i].dx != 0 || dirs[i].dy != 0
  }

  lemma KnightTable()
    ensures |KnightMoves| == 8 && Distinct(KnightMoves)
    ensures forall m | m in KnightMoves :: IsKnightJump(m)
    ensures forall m: PieceMove | IsKnightJump(m) :: m in KnightMoves
  {
    forall m: PieceMove | IsKnightJump(m) ensures m in KnightMoves {
      if m.dx == -2 {
        assert m.dy == -1 || m.dy == 1;
      } else if m.dx == -1 {
        assert m.dy == -2 || m.dy == 2;
      } else if m.dx == 1 {
        assert m.dy == -2 || m.dy == 2;
      } else {
        assert m.dx == 2;
      }
    }
  }

  lemma BishopTable()
    ensures |BishopMoves| == 4 && Distinct(BishopMoves) && NonZero(BishopMoves)
    ensures forall m | m in BishopMoves :: IsDiagonalUnit(m)
    ensures forall m: PieceMove | IsDiagonalUnit(m) :: m in BishopMoves
  {
  }

  lemma RookTable()
    ensures |RookMoves| == 4 && Distinct(RookMoves) && NonZero(RookMoves)
    ensures forall m | m in RookMoves :: IsOrthogonalUnit(m)
    ensures forall m: PieceMove | IsOrthogonalUnit(m) :: m in RookMoves
  {
  }

  lemma QueenTable()
    ensures QueenMoves == BishopMoves + RookMoves
    ensures |QueenMoves| == 8 && Distinct(QueenMoves) && NonZero(QueenMoves)
    ensures forall m | m in QueenMoves :: IsDiagonalUnit(m) || IsOrthogonalUnit(m)
  {
  }

  lemma KingTable()
    ensures |KingMoves| == 8 && Distinct(KingMoves)
    ensures forall m | m in KingMoves :: IsKingStep(m)
    ensures forall m: PieceMove | IsKingStep(m) :: m in KingMoves
  {
  }
}
