/**
 * The legal-move routines of src/brain/move.ts that sit on top of the king-safety
 * recursion: `getValidMoves` with its pawn and king cases, `canKingCastle`,
 * `isKingCheckMate` and `isAnyMoveLeft`, each a method over the mutable board
 * proved to compute the function of the same name in `Legal` or `Terminal`.
 */
module EngineLegal {
  import opened Wrappers
  import opened Types
  import opened Squares
  import opened MoveTables
  import opened Geometry
  import opened BoardArrays
  import Pseudo
  import Safety
  import Legal
  import Terminal
  import EngineBoard
  import Engine

  /**
   * One of the two en passant blocks of the pawn case of `getValidMoves`, for the
   * neighbour in column `y + dy`.  Both blocks consult `willKingBeSafeAfterMove`
   * on `(oneStep, y - 1)`; the right-hand one (`dy == 1`) then pushes `(oneStep, y + 1)`.
   */
  method PushValidEnPassant(board: Grid, piece: Piece, position: Position, history: seq<Move>, dy: int, moves: seq<Position>)
    returns (r: seq<Position>)
    requires IsBoard(board)
    ensures r == moves + Legal.ValidEnPassantMove(Contents(board), piece, position, history, dy, Legal.KingSafety(Contents(board), piece, position))
  {
    ghost var b := Contents(board);
    ghost var safe := Legal.KingSafety(b, piece, position);
    var x, y := position.x, position.y;
    var oneStep := x + Pseudo.PawnDirection(piece.color);
    var passing := false;
    if !IsCellEmpty(board, Position(x, y + dy)) {
      var opponent := Cell(board, Position(x, y + dy));
      var lastMove := Pseudo.LastMove(history);
      var wasEnPassant :=
        lastMove.Some? && opponent.Some? && lastMove.value.piece.id == opponent.value.id
        && lastMove.value.piece.color != piece.color && Pseudo.IsTwoRowMove(lastMove.value);
      passing := opponent.Some? && wasEnPassant && opponent.value.kind == Pawn && opponent.value.color != piece.color;
    }
    assert passing == Legal.ValidEnPassant(b, piece, position, history, dy);
    if passing {
      r := PushSafeCapture(board, piece, position, Position(oneStep, y - 1), Position(oneStep, y + dy), moves);
    } else {
      r := moves;
    }
    assert r == moves + Legal.ValidEnPassantMove(b, piece, position, history, dy, safe);
  }

  /** The capture square of an en passant block, when the king is safe after the pawn steps to `probe`. */
  function SafeCapture(safe: Position -> bool, probe: Position, target: Position): seq<Position>
  {
    if safe(probe) then [target] else []
  }

  /** The `willKingBeSafeAfterMove` call of an en passant block and the push it guards. */
  method PushSafeCapture(board: Grid, piece: Piece, position: Position, probe: Position, target: Position, moves: seq<Position>)
    returns (r: seq<Position>)
    requires IsBoard(board)
    ensures r == moves + SafeCapture(Legal.KingSafety(Contents(board), piece, position), probe, target)
  {
    var willKingBeSafe := Engine.WillKingBeSafeAfterMove(board, piece, position, probe);
    r := moves;
    if willKingBeSafe {
      r := r + [target];
    }
  }

  /** The pawn case of `getValidMoves`, its blocks in the source's order. */
  method GetPawnValidMoves(board: Grid, piece: Piece, position: Position, history: seq<Move>) returns (moves: seq<Position>)
    requires IsBoard(board)
    ensures moves == Legal.PawnValidMoves(Contents(board), piece, position, history, Legal.KingSafety(Contents(board), piece, position))
  {
    ghost var b := Contents(board);
    ghost var safe := Legal.KingSafety(b, piece, position);
    assert Engine.Verdict(b, piece, position, true) == safe;
    moves := PushValidEnPassant(board, piece, position, history, -1, []);
    moves := PushValidEnPassant(board, piece, position, history, 1, moves);
    assert moves == Legal.ValidEnPassantMoves(b, piece, position, history, safe);
    moves := Engine.PushForwardMoves(board, piece, position, true, moves);
    moves := Engine.PushDiagonalCapture(board, piece, position, -1, true, moves);
    moves := Engine.PushDiagonalCapture(board, piece, position, 1, true, moves);
    assert Contents(board) == b;
  }

  /**
   * The loop over `leftSquares` / `rightSquares` in `canKingCastle`: it leaves at
   * the first occupied square or the first square the king may not step on.
   */
  method IsCorridorSafe(board: Grid, king: PieceWithPosition, squares: seq<Position>) returns (canCastle: bool)
    requires IsBoard(board)
    ensures canCastle == Legal.CorridorSafe(Contents(board), king, squares)
  {
    ghost var b := Contents(board);
    canCastle := false;
    for i := 0 to |squares|
      invariant canCastle <==> 0 < i
      invariant forall k | 0 <= k < i ::
                  IsSquareEmpty(b, squares[k]) && Safety.WillKingBeSafeAfterMove(b, king.piece, king.position, squares[k])
    {
      var isEmpty := IsCellEmpty(board, squares[i]);
      if !isEmpty {
        canCastle := false;
        break;
      }
      var willKingBeSafe := Engine.WillKingBeSafeAfterMove(board, king.piece, king.position, squares[i]);
      canCastle := willKingBeSafe;
      if !canCastle {
        break;
      }
      forall k | 0 <= k < i + 1
        ensures IsSquareEmpty(b, squares[k]) && Safety.WillKingBeSafeAfterMove(b, king.piece, king.position, squares[k])
      {
      }
    }
  }

  /** What `canKingCastle` reports once the king has passed the three early exits. */
  lemma CastleRightsOf(b: Board, color: Color, king: PieceWithPosition)
    requires Safety.GetKing(b, color) == Some(king)
    requires king.piece.kind == King && !HasMoved(king.piece) && !Safety.IsKingInCheck(b, king.position)
    ensures var row := Legal.HomeRow(color);
            Legal.CanKingCastle(b, color)
            == Legal.CastleRights(
                 Legal.UnmovedCorner(b, Position(row, 0)) && IsSquareEmpty(b, Position(row, 1))
                 && Legal.CorridorSafe(b, king, Legal.LeftSquares(row)),
                 Legal.UnmovedCorner(b, Position(row, 7)) && Legal.CorridorSafe(b, king, Legal.RightSquares(row)))
  {
  }

  /** `canKingCastle`. */
  method CanKingCastle(board: Grid, color: Color) returns (rights: Legal.CastleRights)
    requires IsBoard(board)
    ensures rights == Legal.CanKingCastle(Contents(board), color)
  {
    ghost var b := Contents(board);
    var kingPiece := EngineBoard.GetKing(board, color);
    var canCastleLeft, canCastleRight := false, false;
    if kingPiece.None? || kingPiece.value.piece.kind != King {
      return Legal.CastleRights(canCastleLeft, canCastleRight);
    }
    if HasMoved(kingPiece.value.piece) {
      return Legal.CastleRights(canCastleLeft, canCastleRight);
    }
    var inCheck := Engine.IsKingInCheck(board, kingPiece.value.position);
    if inCheck {
      return Legal.CastleRights(canCastleLeft, canCastleRight);
    }
    CastleRightsOf(b, color, kingPiece.value);
    var row := Legal.HomeRow(color);
    var leftRook := board[row, 0];
    var rightRook := board[row, 7];
    assert leftRook == At(b, Position(row, 0)) && rightRook == At(b, Position(row, 7));
    if leftRook.Some? && !HasMoved(leftRook.value) {
      if IsCellEmpty(board, Position(row, 1)) {
        canCastleLeft := IsCorridorSafe(board, kingPiece.value, Legal.LeftSquares(row));
      }
    }
    assert canCastleLeft == (Legal.UnmovedCorner(b, Position(row, 0)) && IsSquareEmpty(b, Position(row, 1))
                             && Legal.CorridorSafe(b, kingPiece.value, Legal.LeftSquares(row)));
    if rightRook.Some? && !HasMoved(rightRook.value) {
      canCastleRight := IsCorridorSafe(board, kingPiece.value, Legal.RightSquares(row));
    }
    assert canCastleRight == (Legal.UnmovedCorner(b, Position(row, 7)) && Legal.CorridorSafe(b, kingPiece.value, Legal.RightSquares(row)));
    return Legal.CastleRights(canCastleLeft, canCastleRight);
  }

  /** The king case of `getValidMoves`: the castle destinations, then the `KING_MOVES` loop. */
  method GetKingValidMoves(board: Grid, piece: Piece, position: Position) returns (moves: seq<Position>)
    requires IsBoard(board)
    ensures moves == Legal.KingValidMoves(Contents(board), piece, position)
  {
    ghost var b := Contents(board);
    assert Engine.Verdict(b, piece, position, true) == Legal.KingSafety(b, piece, position);
    var rights := CanKingCastle(board, piece.color);
    assert rights == Legal.CanKingCastle(b, piece.color);
    var row := Legal.HomeRow(piece.color);
    moves := PushCastleDestinations(rights, row);
    moves := Engine.PushOffsetMoves(board, piece, position, KingMoves, true, moves);
  }

  /** The two `if (canCastle...) moves.push(...)` statements of the king case. */
  method PushCastleDestinations(rights: Legal.CastleRights, row: int) returns (moves: seq<Position>)
    ensures moves == Legal.CastleDestinations(rights, row)
  {
    moves := [];
    if rights.canCastleLeft {
      moves := moves + [Position(row, 2)];
    }
    if rights.canCastleRight {
      moves := moves + [Position(row, 6)];
    }
  }

  /** `getValidMoves`: the moves of the piece on `position` that leave its own king safe. */
  method GetValidMoves(board: Grid, position: Position, history: seq<Move>) returns (moves: seq<Position>)
    requires IsBoard(board)
    ensures moves == Legal.GetValidMoves(Contents(board), position, history)
  {
    var piece := Cell(board, position);
    if piece.None? {
      return [];
    }
    ghost var b := Contents(board);
    assert Engine.Verdict(b, piece.value, position, true) == Legal.KingSafety(b, piece.value, position);
    BishopTable();
    RookTable();
    QueenTable();
    match piece.value.kind
    case Pawn =>
      moves := GetPawnValidMoves(board, piece.value, position, history);
    case Knight =>
      moves := Engine.PushOffsetMoves(board, piece.value, position, KnightMoves, true, []);
    case Bishop =>
      moves := Engine.GetSlidingMoves(piece.value, position, BishopMoves, board, true);
    case Rook =>
      moves := Engine.GetSlidingMoves(piece.value, position, RookMoves, board, true);
    case Queen =>
      moves := Engine.GetSlidingMoves(piece.value, position, QueenMoves, board, true);
    case King =>
      moves := GetKingValidMoves(board, piece.value, position);
  }

  /** `getValidMoves(board, position).length > 0`, the test both end-of-game loops make. */
  method HasValidMove(board: Grid, position: Position) returns (can: bool)
    requires IsBoard(board)
    ensures can == Terminal.CanMove(Contents(board), position)
  {
    var moves := GetValidMoves(board, position, []);
    can := |moves| > 0;
  }

  /** `isKingCheckMate`: the loop over the pieces of `color`, leaving at the first one that can move. */
  method IsKingCheckMate(board: Grid, color: Color) returns (isKingCheckMate: bool)
    requires IsBoard(board)
    ensures isKingCheckMate == Terminal.IsKingCheckMate(Contents(board), color)
  {
    ghost var b := Contents(board);
    isKingCheckMate := true;
    var pieces := EngineBoard.GetSameColoredPieces(board, color);
    for i := 0 to |pieces|
      invariant isKingCheckMate
      invariant forall k | 0 <= k < i :: !Terminal.CanMove(b, pieces[k].position)
    {
      var can := HasValidMove(board, pieces[i].position);
      if can {
        assert Terminal.CanMove(b, pieces[i].position);
        isKingCheckMate := false;
        break;
      }
    }
  }

  /** `isAnyMoveLeft`: `pieces.some(...)` over the pieces of `color`. */
  method IsAnyMoveLeft(board: Grid, color: Color) returns (anyMoveLeft: bool)
    requires IsBoard(board)
    ensures anyMoveLeft == Terminal.IsAnyMoveLeft(Contents(board), color)
  {
    ghost var b := Contents(board);
    var pieces := EngineBoard.GetSameColoredPieces(board, color);
    var some := false;
    for i := 0 to |pieces|
      invariant !some
      invariant forall k | 0 <= k < i :: !Terminal.CanMove(b, pieces[k].position)
    {
      var can := HasValidMove(board, pieces[i].position);
      if can {
        assert Terminal.CanMove(b, pieces[i].position);
        some := true;
        break;
      }
    }
    var isStalemate := !some;
    anyMoveLeft := !isStalemate;
  }
}
