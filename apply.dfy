/**
 * `movePiece` and `promote` of src/brain/move.ts as functions on board values:
 * each returns the copy with the source's cell writes applied in the source's
 * order (a later write to the same cell wins).
 */
module Apply {
  import opened Wrappers
  import opened Types
  import opened Squares
  import opened MoveTables

  /** `{ ...piece, hasMoved: true }`. */
  function Moved(p: Piece): (r: Piece)
    ensures HasMoved(r)
    ensures r.id == p.id && r.kind == p.kind && r.color == p.color && r.notation == p.notation
  {
    p.(hasMoved := Some(true))
  }

  /** An enemy pawn of `piece` stands on `q`. */
  predicate IsEnemyPawn(b: Board, piece: Piece, q: Position)
  {
    At(b, q).Some? && At(b, q).value.kind == Pawn && At(b, q).value.color != piece.color
  }

  /** The squares `movePiece` may write: the source, the target, the en passant victim and the castling squares. */
  predicate MayBeWritten(from: Position, to: Position, q: Position)
  {
    q == from || q == to || q == Position(from.x, to.y)
    || q == Position(to.x, 0) || q == Position(to.x, 7)
    || q == Position(to.x, from.y - 1) || q == Position(to.x, from.y + 1)
  }

  /** The pawn branch of `movePiece`. */
  function PawnMove(b: Board, piece: Piece, from: Position, to: Position): Board
  {
    var isEmpty := IsSquareEmpty(b, to);
    var hasMovedStraight := from.y == to.y;
    var hasMovedDiagonal := Abs(from.y - to.y) == 1;
    var canPerformEnPassant := isEmpty && IsEnemyPawn(b, piece, Position(from.x, to.y));
    if hasMovedDiagonal && canPerformEnPassant then
      Put(Put(Put(b, from, None), Position(from.x, to.y), None), to, Some(Moved(piece)))
    else if hasMovedStraight && isEmpty then
      Put(Put(b, from, None), to, Some(Moved(piece)))
    else if hasMovedDiagonal && At(b, to).Some? then
      Put(Put(b, from, None), to, Some(Moved(piece)))
    else b
  }

  /** The king branch of `movePiece`: a two-column move also relocates the corner piece. */
  function KingMove(b: Board, piece: Piece, from: Position, to: Position): Board
  {
    var placed := Put(b, to, Some(Moved(piece)));
    var castled :=
      if Abs(to.y - from.y) == 2 then
        var col := if to.y == 2 then 0 else 7;
        var dir := if col == 0 then -1 else 1;
        var rook := At(b, Position(to.x, col));
        Put(Put(placed, Position(to.x, col), None), Position(to.x, from.y + dir), rook)
      else placed;
    Put(castled, from, None)
  }

  /** `movePiece` (the `silent` flag only selects sound playback). */
  function MovePiece(b: Board, from: Position, to: Position): (r: Board)
    ensures At(b, from).None? ==> r == b
    ensures forall q {:trigger At(r, q)} | !MayBeWritten(from, to, q) :: At(r, q) == At(b, q)
  {
    match At(b, from)
    case None => b
    case Some(piece) =>
      match piece.kind
      case Pawn => PawnMove(b, piece, from, to)
      case King => KingMove(b, piece, from, to)
      case _ => Put(Put(b, from, None), to, Some(Moved(piece)))
  }

  /** `promote`: only the square at `pos` changes, and only when it holds a piece. */
  function Promote(b: Board, promoteTo: PieceType, pos: Position, color: Color): (r: Board)
    ensures forall q {:trigger At(r, q)} | q != pos :: At(r, q) == At(b, q)
    ensures At(b, pos).None? ==> r == b
    ensures At(b, pos).Some? ==>
              var old_ := At(b, pos).value;
              At(r, pos) == Some(Piece(old_.id, promoteTo, color, old_.hasMoved, CharacterMap(promoteTo).notation))
  {
    match At(b, pos)
    case None => b
    case Some(piece) =>
      Put(b, pos, Some(piece.(notation := CharacterMap(promoteTo).notation, kind := promoteTo, color := color)))
  }

  // ---------------------------------------------------------------------------
  // Properties of movePiece, one per branch

  /**
   * A knight, bishop, rook or queen leaves its square and lands on the target
   * (capturing whatever stood there) marked as moved; nothing else changes.
   */
  lemma PieceMoveEffect(b: Board, from: Position, to: Position)
    requires At(b, from).Some? && At(b, from).value.kind in {Knight, Bishop, Rook, Queen}
    requires IsSquareWithInBounds(to)
    ensures var piece := At(b, from).value;
            var r := MovePiece(b, from, to);
            At(r, to) == Some(Moved(piece))
            && (from != to ==> At(r, from) == None)
            && forall q | q != from && q != to :: At(r, q) == At(b, q)
  {
  }

  /** A single king step behaves like any other piece move, except that a null move empties the square. */
  lemma KingStepEffect(b: Board, from: Position, to: Position)
    requires At(b, from).Some? && At(b, from).value.kind == King
    requires IsSquareWithInBounds(to) && Abs(to.y - from.y) != 2
    ensures var piece := At(b, from).value;
            var r := MovePiece(b, from, to);
            (from != to ==> At(r, to) == Some(Moved(piece)))
            && At(r, from) == None
            && forall q | q != from && q != to :: At(r, q) == At(b, q)
  {
  }

  /** The corner square a two-column king move empties: column 0 when the king goes to column 2, else column 7. */
  function CastleCorner(to: Position): Position
  {
    Position(to.x, if to.y == 2 then 0 else 7)
  }

  /** The square the corner piece is written to: one column from the king's source, toward the corner. */
  function CastleBeside(from: Position, to: Position): Position
  {
    Position(to.x, if to.y == 2 then from.y - 1 else from.y + 1)
  }

  /**
   * Any two-column king move (castling, or a simulated one from another square or
   * row): the king lands marked as moved, the piece from the corner of the target's
   * row goes to the square beside the king's source keeping its own `hasMoved`, and
   * the corner and the king's square are emptied; nothing else changes. The side
   * conditions keep the four squares apart and the corner piece's square on the board.
   */
  lemma KingCastleEffect(b: Board, from: Position, to: Position)
    requires At(b, from).Some? && At(b, from).value.kind == King
    requires IsSquareWithInBounds(to) && Abs(to.y - from.y) == 2
    requires IsSquareWithInBounds(CastleBeside(from, to))
    requires CastleCorner(to) != to && CastleCorner(to) != CastleBeside(from, to)
    ensures var piece := At(b, from).value;
            var r := MovePiece(b, from, to);
            var corner := CastleCorner(to);
            var beside := CastleBeside(from, to);
            At(r, to) == Some(Moved(piece))
            && At(r, beside) == At(b, corner)
            && At(r, corner) == None
            && At(r, from) == None
            && forall q | q != from && q != to && q != corner && q != beside :: At(r, q) == At(b, q)
  {
  }

  /**
   * A two-column king move from column 0 to column 2, or from column 7 to column 5,
   * writes the corner piece to column -1 or 8. `Put` drops that write, so the corner
   * piece leaves the board while the king lands on the target.
   */
  lemma KingCastleBesideOffBoard(b: Board, from: Position, to: Position)
    requires At(b, from).Some? && At(b, from).value.kind == King
    requires IsSquareWithInBounds(to) && Abs(to.y - from.y) == 2
    requires !IsSquareWithInBounds(CastleBeside(from, to))
    ensures (from.y == 0 && to.y == 2) || (from.y == 7 && to.y == 5)
    ensures var piece := At(b, from).value;
            var r := MovePiece(b, from, to);
            var corner := CastleCorner(to);
            At(r, to) == Some(Moved(piece))
            && At(r, corner) == None
            && At(r, from) == None
            && forall q | q != from && q != to && q != corner :: At(r, q) == At(b, q)
  {
  }

  /** A pawn moving straight onto an empty square lands there marked as moved. */
  lemma PawnPushEffect(b: Board, from: Position, to: Position)
    requires At(b, from).Some? && At(b, from).value.kind == Pawn
    requires to.y == from.y && IsSquareEmpty(b, to)
    ensures var piece := At(b, from).value;
            var r := MovePiece(b, from, to);
            At(r, to) == Some(Moved(piece)) && At(r, from) == None
            && forall q | q != from && q != to :: At(r, q) == At(b, q)
  {
  }

  /**
   * En passant: a diagonal pawn move onto an empty square beside an enemy pawn
   * also removes that pawn from `(from.x, to.y)`.
   */
  lemma PawnEnPassantEffect(b: Board, from: Position, to: Position)
    requires At(b, from).Some? && At(b, from).value.kind == Pawn
    requires Abs(from.y - to.y) == 1 && IsSquareEmpty(b, to) && IsEnemyPawn(b, At(b, from).value, Position(from.x, to.y))
    ensures var piece := At(b, from).value;
            var r := MovePiece(b, from, to);
            var victim := Position(from.x, to.y);
            At(r, to) == Some(Moved(piece)) && At(r, from) == None && At(r, victim) == None
            && forall q | q != from && q != to && q != victim :: At(r, q) == At(b, q)
  {
  }

  /** A diagonal pawn move onto an occupied square replaces the occupant (its colour is not examined here). */
  lemma PawnCaptureEffect(b: Board, from: Position, to: Position)
    requires At(b, from).Some? && At(b, from).value.kind == Pawn
    requires Abs(from.y - to.y) == 1 && At(b, to).Some?
    ensures var piece := At(b, from).value;
            var r := MovePiece(b, from, to);
            At(r, to) == Some(Moved(piece)) && At(r, from) == None
            && forall q | q != from && q != to :: At(r, q) == At(b, q)
  {
  }

  /**
   * Pawn moves the branch does not recognise leave the board as it was: a straight
   * move onto a square that is occupied or off the board, any move of more than one
   * column, a diagonal move onto an empty square with no enemy pawn beside, or a
   * diagonal move off the board (where the source's read of `board[x]` throws).
   */
  lemma PawnMoveRefused(b: Board, from: Position, to: Position)
    requires At(b, from).Some? && At(b, from).value.kind == Pawn
    requires (to.y == from.y && !IsSquareEmpty(b, to))
             || Abs(from.y - to.y) > 1
             || (Abs(from.y - to.y) == 1 && At(b, to).None?
                 && !(IsSquareEmpty(b, to) && IsEnemyPawn(b, At(b, from).value, Position(from.x, to.y))))
    ensures MovePiece(b, from, to) == b
  {
  }

  /** The promoted piece's notation letter reads back as its new type. */
  lemma PromoteNotation(b: Board, promoteTo: PieceType, pos: Position, color: Color)
    requires At(b, pos).Some?
    ensures var p := At(Promote(b, promoteTo, pos, color), pos);
            p.Some? && p.value.kind == promoteTo && TypeOfNotation(p.value.notation) == Some(promoteTo)
  {
    NotationRoundTrip(promoteTo);
  }
}
