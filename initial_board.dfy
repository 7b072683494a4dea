/**
 * `getInitialBoard` of src/brain/board.ts: the standard starting position, with
 * Black on rows 0 and 1 and White on rows 6 and 7.  The back-rank pieces carry
 * no `hasMoved` field; the pawns carry `hasMoved: false`.
 */
module InitialBoard {
  import opened Wrappers
  import opened Types
  import opened Squares
  import opened Safety

  /** The back-rank piece types from column 0 to column 7. */
  function BackRankKinds(): seq<PieceType>
  {
    [Rook, Knight, Bishop, Queen, King, Bishop, Knight, Rook]
  }

  /** `Array(8).fill(null).map((_, i) => pawn with id base + i + 1)`. */
  function PawnRow(color: Color, base: int): seq<Option<Piece>>
  {
    seq(8, i => Some(Piece(base + i + 1, Pawn, color, Some(false), "")))
  }

  /** `Array(8).fill(null)`. */
  function EmptyRow(): seq<Option<Piece>>
  {
    seq(8, i => None)
  }

  /** `getInitialBoard`. */
  function GetInitialBoard(): Board
  {
    [ [ Some(Piece(1, Rook, Black, None, "R")),
        Some(Piece(2, Knight, Black, None, "N")),
        Some(Piece(3, Bishop, Black, None, "B")),
        Some(Piece(4, Queen, Black, None, "Q")),
        Some(Piece(5, King, Black, None, "K")),
        Some(Piece(6, Bishop, Black, None, "B")),
        Some(Piece(7, Knight, Black, None, "N")),
        Some(Piece(8, Rook, Black, None, "R")) ],
      PawnRow(Black, 10),
      EmptyRow(), EmptyRow(), EmptyRow(), EmptyRow(),
      PawnRow(White, 60),
      [ Some(Piece(71, Rook, White, None, "R")),
        Some(Piece(72, Knight, White, None, "N")),
        Some(Piece(73, Bishop, White, None, "B")),
        Some(Piece(74, Queen, White, None, "Q")),
        Some(Piece(75, King, White, None, "K")),
        Some(Piece(76, Bishop, White, None, "B")),
        Some(Piece(77, Knight, White, None, "N")),
        Some(Piece(78, Rook, White, None, "R")) ] ]
  }

  /** The id offset of a row: ids on row `x` are `IdBase(x) + y + 1`. */
  function IdBase(x: int): int
  {
    if x == 0 then 0 else if x == 1 then 10 else if x == 6 then 60 else 70
  }

  // ---------------------------------------------------------------------------
  // Properties

  /** Rows 2 to 5 are empty. */
  lemma InitialMiddleEmpty(q: Position)
    requires IsSquareWithInBounds(q) && 2 <= q.x <= 5
    ensures IsSquareEmpty(GetInitialBoard(), q)
  {
  }

  /**
   * Row 0 holds Black's R N B Q K B N R with ids 1 to 8 and row 7 White's with
   * ids 71 to 78; none of them has a `hasMoved` field, and each carries its type's
   * notation letter.
   */
  lemma InitialBackRanks(y: int)
    requires 0 <= y < 8
    ensures var kind := BackRankKinds()[y];
            At(GetInitialBoard(), Position(0, y)) == Some(Piece(1 + y, kind, Black, None, CharacterMap(kind).notation))
            && At(GetInitialBoard(), Position(7, y)) == Some(Piece(71 + y, kind, White, None, CharacterMap(kind).notation))
  {
  }

  /** Row 1 holds Black pawns with ids 11 to 18 and row 6 White pawns with ids 61 to 68, all with `hasMoved: false`. */
  lemma InitialPawns(y: int)
    requires 0 <= y < 8
    ensures At(GetInitialBoard(), Position(1, y)) == Some(Piece(11 + y, Pawn, Black, Some(false), ""))
    ensures At(GetInitialBoard(), Position(6, y)) == Some(Piece(61 + y, Pawn, White, Some(false), ""))
  {
  }

  /**
   * Pieces stand only on rows 0, 1, 6 and 7, Black's on the first two and White's
   * on the last two, and the id of each is fixed by its square.
   */
  lemma InitialOccupancy(q: Position)
    requires IsSquareWithInBounds(q)
    ensures At(GetInitialBoard(), q).Some? <==> q.x in {0, 1, 6, 7}
    ensures At(GetInitialBoard(), q).Some? ==>
              At(GetInitialBoard(), q).value.id == IdBase(q.x) + q.y + 1
              && (At(GetInitialBoard(), q).value.color == Black <==> q.x < 2)
  {
    if q.x in {0, 7} {
      InitialBackRanks(q.y);
    } else if q.x in {1, 6} {
      InitialPawns(q.y);
    } else {
      InitialMiddleEmpty(q);
    }
  }

  /** All 32 ids on the starting board are distinct. */
  lemma InitialIdsDistinct(p: Position, q: Position)
    requires IsSquareWithInBounds(p) && IsSquareWithInBounds(q) && p != q
    requires At(GetInitialBoard(), p).Some? && At(GetInitialBoard(), q).Some?
    ensures At(GetInitialBoard(), p).value.id != At(GetInitialBoard(), q).value.id
  {
    InitialOccupancy(p);
    InitialOccupancy(q);
  }

  /** Every piece starts unmoved, so each `!piece.hasMoved` test passes. */
  lemma InitialUnmoved(q: Position)
    requires At(GetInitialBoard(), q).Some?
    ensures !HasMoved(At(GetInitialBoard(), q).value)
  {
    if q.x in {0, 7} {
      InitialBackRanks(q.y);
    } else if q.x in {1, 6} {
      InitialPawns(q.y);
    } else {
      InitialMiddleEmpty(q);
    }
  }

  /** Each side has exactly one king: Black's on (0, 4), White's on (7, 4). */
  lemma InitialKings(color: Color, q: Position)
    ensures IsKingOf(GetInitialBoard(), color, q) <==> q == Position(if color == White then 7 else 0, 4)
  {
    if IsSquareWithInBounds(q) {
      if q.x in {0, 7} {
        InitialBackRanks(q.y);
      } else if q.x in {1, 6} {
        InitialPawns(q.y);
      } else {
        InitialMiddleEmpty(q);
      }
    }
  }

  /** `getKing` finds each side's king on its starting square. */
  lemma InitialGetKing(color: Color)
    ensures var row := if color == White then 7 else 0;
            GetKing(GetInitialBoard(), color).Some?
            && GetKing(GetInitialBoard(), color).value.position == Position(row, 4)
  {
    var row := if color == White then 7 else 0;
    var r := GetKing(GetInitialBoard(), color);
    GetKingExact(GetInitialBoard(), color);
    InitialKings(color, Position(row, 4));
    if r.Some? {
      InitialKings(color, r.value.position);
    }
  }
}
