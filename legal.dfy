/**
 * The legal-move layer of src/brain/move.ts: `getSlidingMoves` with the king-threat
 * check, `canKingCastle` and `getValidMoves`.  Every candidate except the castle
 * destinations (and, as written, the right-hand en passant capture) is filtered
 * through `willKingBeSafeAfterMove` for the moving piece.
 */
module Legal {
  import opened Wrappers
  import opened Types
  import opened Squares
  import opened MoveTables
  import opened Geometry
  import opened Pseudo
  import opened Apply
  import opened Safety

  /** The verdict passed when `checkKingThreat` is true. */
  function KingSafety(b: Board, piece: Piece, pos: Position): Position -> bool
  {
    q => WillKingBeSafeAfterMove(b, piece, pos, q)
  }

  /** `getSlidingMoves(piece, position, movesMap, board, checkKingThreat)`. */
  function GetSlidingMoves(piece: Piece, pos: Position, dirs: seq<PieceMove>, b: Board, checkKingThreat: bool): (r: seq<Position>)
    requires NonZero(dirs)
    ensures forall q | q in r :: IsSquareWithInBounds(q) && !IsFriend(b, piece, q)
    ensures checkKingThreat ==> forall q | q in r :: WillKingBeSafeAfterMove(b, piece, pos, q)
  {
    SlidingMoves(b, piece, pos, dirs, if checkKingThreat then KingSafety(b, piece, pos) else NoThreatCheck)
  }

  /** The result of `canKingCastle`. */
  datatype CastleRights = CastleRights(canCastleLeft: bool, canCastleRight: bool)

  /** The back row of `color`. */
  function HomeRow(color: Color): (row: int)
    ensures row == 0 || row == 7
    ensures color == White <==> row == 7
  {
    if color == White then 7 else 0
  }

  /**
   * The loop over `leftSquares` / `rightSquares`: every square of the corridor is
   * empty and safe for the king to step on (a corridor without squares would leave
   * the flag at its initial `false`).
   */
  predicate CorridorSafe(b: Board, king: PieceWithPosition, squares: seq<Position>)
  {
    |squares| > 0
    && forall i | 0 <= i < |squares| ::
         IsSquareEmpty(b, squares[i]) && WillKingBeSafeAfterMove(b, king.piece, king.position, squares[i])
  }

  function LeftSquares(row: int): seq<Position>
  {
    [Position(row, 2), Position(row, 3)]
  }

  function RightSquares(row: int): seq<Position>
  {
    [Position(row, 5), Position(row, 6)]
  }

  /** An unmoved piece, of any type or colour, stands on the corner `q`. */
  predicate UnmovedCorner(b: Board, q: Position)
  {
    At(b, q).Some? && !HasMoved(At(b, q).value)
  }

  /** `canKingCastle`. */
  function CanKingCastle(b: Board, color: Color): (r: CastleRights)
    ensures (r.canCastleLeft || r.canCastleRight) ==>
              GetKing(b, color).Some? && !HasMoved(GetKing(b, color).value.piece)
              && !IsKingInCheck(b, GetKing(b, color).value.position)
    ensures r.canCastleLeft ==>
              var row := HomeRow(color);
              UnmovedCorner(b, Position(row, 0)) && IsSquareEmpty(b, Position(row, 1))
              && IsSquareEmpty(b, Position(row, 2)) && IsSquareEmpty(b, Position(row, 3))
    ensures r.canCastleRight ==>
              var row := HomeRow(color);
              UnmovedCorner(b, Position(row, 7)) && IsSquareEmpty(b, Position(row, 5)) && IsSquareEmpty(b, Position(row, 6))
  {
    match GetKing(b, color)
    case None => CastleRights(false, false)
    case Some(king) =>
      if king.piece.kind != King || HasMoved(king.piece) || IsKingInCheck(b, king.position) then
        CastleRights(false, false)
      else
        var row := HomeRow(color);
        var left := UnmovedCorner(b, Position(row, 0)) && IsSquareEmpty(b, Position(row, 1))
                    && CorridorSafe(b, king, LeftSquares(row));
        var right := UnmovedCorner(b, Position(row, 7)) && CorridorSafe(b, king, RightSquares(row));
        assert left ==> IsSquareEmpty(b, LeftSquares(row)[0]) && IsSquareEmpty(b, LeftSquares(row)[1]);
        assert right ==> IsSquareEmpty(b, RightSquares(row)[0]) && IsSquareEmpty(b, RightSquares(row)[1]);
        CastleRights(left, right)
  }

  /**
   * The en passant test of `getValidMoves` toward column `y + dy`: an enemy pawn
   * stands beside the pawn and it is the piece of the last move, a two-row move by
   * the other side.
   */
  predicate ValidEnPassant(b: Board, piece: Piece, pos: Position, h: seq<Move>, dy: int)
  {
    var side := Position(pos.x, pos.y + dy);
    var opponent := At(b, side);
    var lastMove := LastMove(h);
    var wasEnPassant :=
      lastMove.Some? && opponent.Some? && lastMove.value.piece.id == opponent.value.id
      && lastMove.value.piece.color != piece.color && IsTwoRowMove(lastMove.value);
    !IsSquareEmpty(b, side) && opponent.Some? && wasEnPassant
    && opponent.value.kind == Pawn && opponent.value.color != piece.color
  }

  /**
   * The pawn case of `getValidMoves`, for the verdict `safe`.  The right-hand en
   * passant capture is judged by the verdict on `(oneStep, y - 1)` but pushes
   * `(oneStep, y + 1)`.
   */
  function PawnValidMoves(b: Board, piece: Piece, pos: Position, h: seq<Move>, safe: Position -> bool): (r: seq<Position>)
    ensures var oneStep := pos.x + PawnDirection(piece.color);
            forall q | q in r ::
              safe(q)
              || (q == Position(oneStep, pos.y + 1) && ValidEnPassant(b, piece, pos, h, 1) && safe(Position(oneStep, pos.y - 1)))
  {
    ValidEnPassantMoves(b, piece, pos, h, safe)
    + ForwardMoves(b, piece, pos, safe)
    + DiagonalCapture(b, piece, pos, -1, safe)
    + DiagonalCapture(b, piece, pos, 1, safe)
  }

  /**
   * The two en passant captures of the pawn case of `getValidMoves`, both judged
   * by the verdict on `(oneStep, y - 1)`.
   */
  function ValidEnPassantMoves(b: Board, piece: Piece, pos: Position, h: seq<Move>, safe: Position -> bool): seq<Position>
  {
    ValidEnPassantMove(b, piece, pos, h, -1, safe) + ValidEnPassantMove(b, piece, pos, h, 1, safe)
  }

  /** The en passant capture toward column `y + dy`, judged by the verdict on `(oneStep, y - 1)`. */
  function ValidEnPassantMove(b: Board, piece: Piece, pos: Position, h: seq<Move>, dy: int, safe: Position -> bool): seq<Position>
  {
    var oneStep := pos.x + PawnDirection(piece.color);
    if ValidEnPassant(b, piece, pos, h, dy) && safe(Position(oneStep, pos.y - 1)) then [Position(oneStep, pos.y + dy)] else []
  }

  /** The king case of `getValidMoves`: castle destinations first, unfiltered, then the safe steps. */
  function KingValidMoves(b: Board, piece: Piece, pos: Position): seq<Position>
  {
    CastleDestinations(CanKingCastle(b, piece.color), HomeRow(piece.color))
    + OffsetMoves(b, piece, pos, KingMoves, KingSafety(b, piece, pos))
  }

  /** The castle destinations pushed for `rights` on `row`, queen side first. */
  function CastleDestinations(rights: CastleRights, row: int): seq<Position>
  {
    (if rights.canCastleLeft then [Position(row, 2)] else [])
    + (if rights.canCastleRight then [Position(row, 6)] else [])
  }

  /** `getValidMoves`. */
  function GetValidMoves(b: Board, pos: Position, h: seq<Move>): seq<Position>
  {
    match At(b, pos)
    case None => []
    case Some(piece) =>
      match piece.kind
      case Pawn => PawnValidMoves(b, piece, pos, h, KingSafety(b, piece, pos))
      case Knight => OffsetMoves(b, piece, pos, KnightMoves, KingSafety(b, piece, pos))
      case Bishop => GetSlidingMoves(piece, pos, SlidingDirections(Bishop), b, true)
      case Rook => GetSlidingMoves(piece, pos, SlidingDirections(Rook), b, true)
      case Queen => GetSlidingMoves(piece, pos, SlidingDirections(Queen), b, true)
      case King => KingValidMoves(b, piece, pos)
  }
}
