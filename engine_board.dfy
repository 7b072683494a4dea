/**
 * The board-writing and board-scanning routines of src/brain/move.ts in their
 * own imperative form: `movePiece` and `promote` write cells of a fresh copy,
 * `getSameColoredPieces` and `getKing` walk the rows and columns.  Each is proved
 * to compute the function of the same name in `Apply` or `Safety`.
 */
module EngineBoard {
  import opened Wrappers
  import opened Types
  import opened Squares
  import opened MoveTables
  import opened BoardArrays
  import Apply
  import Safety

  /**
   * `movePiece`: without a piece on `from` the input array itself is returned;
   * otherwise a fresh copy with the branch's writes applied in the source's order.
   */
  method MovePiece(board: Grid, from: Position, to: Position) returns (r: Grid)
    requires IsBoard(board)
    ensures IsBoard(r)
    ensures Contents(r) == Apply.MovePiece(Contents(board), from, to)
    ensures At(Contents(board), from).None? ==> r == board
    ensures At(Contents(board), from).Some? ==> fresh(r)
  {
    var newBoard := GetDeepCopiedBoard(board);
    var cell := Cell(board, from);
    if cell.None? {
      return board;
    }
    var piece := cell.value;
    var isEmpty := IsSquareEmpty(Contents(newBoard), to);
    var opponent := Cell(board, to);
    match piece.kind
    case Pawn =>
      var hasMovedStraight := from.y == to.y;
      var hasMovedDiagonal := Abs(from.y - to.y) == 1;
      var anotherOpponent := Cell(board, Position(from.x, to.y));
      var canPerformEnPassant :=
        isEmpty && anotherOpponent.Some? && anotherOpponent.value.kind == Pawn && anotherOpponent.value.color != piece.color;
      if hasMovedDiagonal && canPerformEnPassant {
        Write(newBoard, from, None);
        Write(newBoard, Position(from.x, to.y), None);
        Write(newBoard, to, Some(Apply.Moved(piece)));
      } else if hasMovedStraight && isEmpty {
        Write(newBoard, from, None);
        Write(newBoard, to, Some(Apply.Moved(piece)));
      } else if hasMovedDiagonal && opponent.Some? {
        Write(newBoard, from, None);
        Write(newBoard, to, Some(Apply.Moved(piece)));
      }
      r := newBoard;
    case King =>
      var isCastle := Abs(to.y - from.y) == 2;
      Write(newBoard, to, Some(Apply.Moved(piece)));
      if isCastle {
        var col := if to.y == 2 then 0 else 7;
        var dir := if col == 0 then -1 else 1;
        var rook := Cell(board, Position(to.x, col));
        Write(newBoard, Position(to.x, col), None);
        Write(newBoard, Position(to.x, from.y + dir), rook);
      }
      Write(newBoard, from, None);
      r := newBoard;
    case _ =>
      Write(newBoard, from, None);
      Write(newBoard, to, Some(Apply.Moved(piece)));
      r := newBoard;
  }

  /** `promote`: a fresh copy, with the piece on `position` (if any) retyped and recoloured. */
  method Promote(board: Grid, promoteTo: PieceType, position: Position, color: Color) returns (r: Grid)
    requires IsBoard(board)
    ensures fresh(r) && IsBoard(r)
    ensures Contents(r) == Apply.Promote(Contents(board), promoteTo, position, color)
  {
    r := GetDeepCopiedBoard(board);
    var piece := Cell(r, position);
    if piece.None? {
      return;
    }
    Write(r, position, Some(piece.value.(notation := CharacterMap(promoteTo).notation, kind := promoteTo, color := color)));
  }

  /** `getSameColoredPieces`: the `forEach` over rows and cells pushing each piece of `color`. */
  method GetSameColoredPieces(board: Grid, color: Color) returns (pieces: seq<PieceWithPosition>)
    requires IsBoard(board)
    ensures pieces == Safety.GetSameColoredPieces(Contents(board), color)
  {
    ghost var b := Contents(board);
    pieces := [];
    for x := 0 to 8
      invariant pieces == Safety.PiecesBefore(b, color, x)
    {
      ghost var rows := pieces;
      for y := 0 to 8
        invariant pieces == rows + Safety.RowPiecesBefore(b, color, x, y)
      {
        var piece := board[x, y];
        assert piece == At(b, Position(x, y));
        if piece.Some? && piece.value.color == color {
          pieces := pieces + [PieceWithPosition(piece.value, Position(x, y))];
        }
        assert pieces == rows + Safety.RowPiecesBefore(b, color, x, y + 1);
      }
    }
  }

  /** `getKing`: the nested index loops, returning at the first king of `color`. */
  method GetKing(board: Grid, color: Color) returns (r: Option<PieceWithPosition>)
    requires IsBoard(board)
    ensures r == Safety.GetKing(Contents(board), color)
  {
    ghost var b := Contents(board);
    for i := 0 to 8
      invariant Safety.KingFrom(b, color, i, 0) == Safety.GetKing(b, color)
    {
      for j := 0 to 8
        invariant Safety.KingFrom(b, color, i, j) == Safety.GetKing(b, color)
      {
        var piece := board[i, j];
        assert piece == At(b, Position(i, j));
        if piece.Some? && piece.value.color == color && piece.value.kind == King {
          return Some(PieceWithPosition(piece.value, Position(i, j)));
        }
      }
    }
    return None;
  }
}
