/**
 * The board scans and the king-safety test of src/brain/move.ts:
 * `getSameColoredPieces`, `getKing`, `isKingInCheck` and `willKingBeSafeAfterMove`.
 */
module Safety {
  import opened Wrappers
  import opened Types
  import opened Squares
  import opened Pseudo
  import opened Apply

  /** Row-major index of a square: the order in which the scans visit it. */
  function SquareIndex(p: Position): int
  {
    8 * p.x + p.y
  }

  predicate HasColor(b: Board, color: Color, q: Position)
  {
    At(b, q).Some? && At(b, q).value.color == color
  }

  /** The pieces of `color` in cells `0` to `y - 1` of row `x`, from left to right. */
  function RowPiecesBefore(b: Board, color: Color, x: int, y: nat): seq<PieceWithPosition>
    requires 0 <= x < 8 && y <= 8
  {
    if y == 0 then []
    else
      var p := Position(x, y - 1);
      RowPiecesBefore(b, color, x, y - 1) + (if HasColor(b, color, p) then [PieceWithPosition(At(b, p).value, p)] else [])
  }

  /** The pieces of `color` in rows `0` to `x - 1`, in row-major order. */
  function PiecesBefore(b: Board, color: Color, x: nat): seq<PieceWithPosition>
    requires x <= 8
  {
    if x == 0 then [] else PiecesBefore(b, color, x - 1) + RowPiecesBefore(b, color, x - 1, 8)
  }

  /** `pw` is a piece of `color` standing on its square, visited between steps `lo` and `hi`. */
  predicate CollectedBetween(b: Board, color: Color, lo: int, hi: int, pw: PieceWithPosition)
  {
    lo <= SquareIndex(pw.position) < hi && IsSquareWithInBounds(pw.position)
    && At(b, pw.position) == Some(pw.piece) && pw.piece.color == color
  }

  /** The entries are in strictly increasing visiting order. */
  predicate InScanOrder(r: seq<PieceWithPosition>)
  {
    forall i, j | 0 <= i < j < |r| :: SquareIndex(r[i].position) < SquareIndex(r[j].position)
  }

  /** Two runs in scan order, the first entirely before step `k` and the second from it on, join in scan order. */
  lemma OrderedJoin(r0: seq<PieceWithPosition>, r1: seq<PieceWithPosition>, k: int)
    requires InScanOrder(r0) && InScanOrder(r1)
    requires forall pw | pw in r0 :: SquareIndex(pw.position) < k
    requires forall pw | pw in r1 :: k <= SquareIndex(pw.position)
    ensures InScanOrder(r0 + r1)
  {
    var r := r0 + r1;
    forall i, j | 0 <= i < j < |r|
      ensures SquareIndex(r[i].position) < SquareIndex(r[j].position)
    {
      if j < |r0| {
        assert r[i] == r0[i] && r[j] == r0[j];
      } else if i < |r0| {
        assert r[i] == r0[i] && r0[i] in r0;
        assert r[j] == r1[j - |r0|] && r1[j - |r0|] in r1;
      } else {
        assert r[i] == r1[i - |r0|] && r[j] == r1[j - |r0|];
      }
    }
  }

  /** The first `y` cells of row `x` yield pieces of `color` on their squares, in order. */
  lemma {:induction false} RowPiecesSound(b: Board, color: Color, x: int, y: nat)
    requires 0 <= x < 8 && y <= 8
    ensures forall pw | pw in RowPiecesBefore(b, color, x, y) :: CollectedBetween(b, color, 8 * x, 8 * x + y, pw)
    ensures InScanOrder(RowPiecesBefore(b, color, x, y))
    decreases y
  {
    if y > 0 {
      RowPiecesSound(b, color, x, y - 1);
      var p := Position(x, y - 1);
      var r0 := RowPiecesBefore(b, color, x, y - 1);
      var r1 := if HasColor(b, color, p) then [PieceWithPosition(At(b, p).value, p)] else [];
      assert RowPiecesBefore(b, color, x, y) == r0 + r1;
      OrderedJoin(r0, r1, 8 * x + y - 1);
    }
  }

  /** Every piece of `color` in the first `y` cells of row `x` is collected. */
  lemma {:induction false} RowPiecesComplete(b: Board, color: Color, x: int, y: nat)
    requires 0 <= x < 8 && y <= 8
    ensures forall q | IsSquareWithInBounds(q) && q.x == x && q.y < y && HasColor(b, color, q) ::
              PieceWithPosition(At(b, q).value, q) in RowPiecesBefore(b, color, x, y)
    decreases y
  {
    if y > 0 {
      RowPiecesComplete(b, color, x, y - 1);
    }
  }

  /** The first `x` rows yield pieces of `color` on their squares, in order. */
  lemma {:induction false} PiecesBeforeSound(b: Board, color: Color, x: nat)
    requires x <= 8
    ensures forall pw | pw in PiecesBefore(b, color, x) :: CollectedBetween(b, color, 0, 8 * x, pw)
    ensures InScanOrder(PiecesBefore(b, color, x))
    decreases x
  {
    if x > 0 {
      PiecesBeforeSound(b, color, x - 1);
      RowPiecesSound(b, color, x - 1, 8);
      OrderedJoin(PiecesBefore(b, color, x - 1), RowPiecesBefore(b, color, x - 1, 8), 8 * (x - 1));
    }
  }

  /** Every piece of `color` in the first `x` rows is collected. */
  lemma {:induction false} PiecesBeforeComplete(b: Board, color: Color, x: nat)
    requires x <= 8
    ensures forall q | IsSquareWithInBounds(q) && q.x < x && HasColor(b, color, q) ::
              PieceWithPosition(At(b, q).value, q) in PiecesBefore(b, color, x)
    decreases x
  {
    if x > 0 {
      PiecesBeforeComplete(b, color, x - 1);
      RowPiecesComplete(b, color, x - 1, 8);
    }
  }

  /** `getSameColoredPieces`: the pieces of `color` with their squares, in row-major order. */
  function GetSameColoredPieces(b: Board, color: Color): seq<PieceWithPosition>
  {
    PiecesBefore(b, color, 8)
  }

  /**
   * `getSameColoredPieces` lists pieces of `color` on their squares, every such
   * piece appears, and the list is in row-major order (so without repetitions).
   */
  lemma GetSameColoredPiecesExact(b: Board, color: Color)
    ensures forall pw | pw in GetSameColoredPieces(b, color) ::
              IsSquareWithInBounds(pw.position) && At(b, pw.position) == Some(pw.piece) && pw.piece.color == color
    ensures forall q | IsSquareWithInBounds(q) && HasColor(b, color, q) ::
              PieceWithPosition(At(b, q).value, q) in GetSameColoredPieces(b, color)
    ensures InScanOrder(GetSameColoredPieces(b, color))
  {
    PiecesBeforeSound(b, color, 8);
    PiecesBeforeComplete(b, color, 8);
  }

  /** The square holds a king of `color`. */
  predicate IsKingOf(b: Board, color: Color, q: Position)
  {
    At(b, q).Some? && At(b, q).value.color == color && At(b, q).value.kind == King
  }

  /** The first king of `color` met by the row-major scan from row `x`, column `y` on. */
  function KingFrom(b: Board, color: Color, x: nat, y: nat): Option<PieceWithPosition>
    requires x <= 8 && y <= 8
    decreases 8 - x, 8 - y
  {
    if x == 8 then None
    else if y == 8 then KingFrom(b, color, x + 1, 0)
    else if IsKingOf(b, color, Position(x, y)) then Some(PieceWithPosition(At(b, Position(x, y)).value, Position(x, y)))
    else KingFrom(b, color, x, y + 1)
  }

  /** `getKing`: the first king of `color` in row-major order, or none (see `GetKingExact`). */
  function GetKing(b: Board, color: Color): Option<PieceWithPosition>
  {
    KingFrom(b, color, 0, 0)
  }

  /** No square visited from step `lo` up to (not including) step `hi` holds a king of `color`. */
  ghost predicate NoKingBetween(b: Board, color: Color, lo: int, hi: int)
  {
    forall q | IsSquareWithInBounds(q) && lo <= SquareIndex(q) < hi :: !IsKingOf(b, color, q)
  }

  /** The step at which a scan result was found, or 64 when there is none. */
  function FoundAt(r: Option<PieceWithPosition>): int
  {
    if r.None? then 64 else SquareIndex(r.value.position)
  }

  /** A reported king stands, with its own piece, on a square of the board. */
  predicate IsKingEntry(b: Board, color: Color, r: Option<PieceWithPosition>)
  {
    r.Some? ==> IsSquareWithInBounds(r.value.position) && IsKingOf(b, color, r.value.position)
                && At(b, r.value.position) == Some(r.value.piece)
  }

  /** The scan from `(x, y)` reports a king at or after that step, with no king of `color` in between. */
  lemma {:induction false} KingFromExact(b: Board, color: Color, x: nat, y: nat)
    requires x <= 8 && y <= 8 && 8 * x + y <= 64
    ensures IsKingEntry(b, color, KingFrom(b, color, x, y))
    ensures 8 * x + y <= FoundAt(KingFrom(b, color, x, y))
    ensures NoKingBetween(b, color, 8 * x + y, FoundAt(KingFrom(b, color, x, y)))
    decreases 8 - x, 8 - y
  {
    if x < 8 {
      if y == 8 {
        KingFromExact(b, color, x + 1, 0);
      } else if !IsKingOf(b, color, Position(x, y)) {
        KingFromExact(b, color, x, y + 1);
        var r := KingFrom(b, color, x, y + 1);
        assert KingFrom(b, color, x, y) == r;
        forall q | IsSquareWithInBounds(q) && 8 * x + y <= SquareIndex(q) < FoundAt(r)
          ensures !IsKingOf(b, color, q)
        {
          if SquareIndex(q) == 8 * x + y {
            assert q == Position(x, y);
          }
        }
      }
    }
  }

  /**
   * `getKing` reports a king of `color` standing on its square, no king of `color`
   * comes before it in row-major order, and it reports none exactly when the board
   * has no king of that colour.
   */
  lemma GetKingExact(b: Board, color: Color)
    ensures IsKingEntry(b, color, GetKing(b, color))
    ensures GetKing(b, color).Some? ==>
              forall q | IsSquareWithInBounds(q) && SquareIndex(q) < SquareIndex(GetKing(b, color).value.position) :: !IsKingOf(b, color, q)
    ensures GetKing(b, color).None? <==> forall q | IsSquareWithInBounds(q) :: !IsKingOf(b, color, q)
  {
    KingFromExact(b, color, 0, 0);
    var r := GetKing(b, color);
    assert NoKingBetween(b, color, 0, FoundAt(r));
    forall q | IsSquareWithInBounds(q) && SquareIndex(q) < FoundAt(r)
      ensures !IsKingOf(b, color, q)
    {
      assert 0 <= SquareIndex(q);
    }
    if r.None? {
      forall q | IsSquareWithInBounds(q)
        ensures !IsKingOf(b, color, q)
      {
        assert SquareIndex(q) < 64;
      }
    } else {
      assert IsKingOf(b, color, r.value.position);
    }
  }

  /** Some piece of the side opposing `color` has `target` among its pseudo-legal moves (no history). */
  ghost predicate Attacked(b: Board, color: Color, target: Position)
  {
    exists q :: IsSquareWithInBounds(q) && HasColor(b, Opponent(color), q) && target in GetPseudoLegalMoves(b, q, [])
  }

  /** The opponent pieces in `pieces` one of whose pseudo-legal moves hits `target`. */
  predicate AnyHits(b: Board, pieces: seq<PieceWithPosition>, target: Position)
  {
    exists i | 0 <= i < |pieces| :: target in GetPseudoLegalMoves(b, pieces[i].position, [])
  }

  /** `isKingInCheck`: false unless a king stands on `kingPosition`. */
  predicate IsKingInCheck(b: Board, kingPosition: Position)
  {
    match At(b, kingPosition)
    case None => false
    case Some(piece) =>
      piece.kind == King && AnyHits(b, GetSameColoredPieces(b, Opponent(piece.color)), kingPosition)
  }

  /** `willKingBeSafeAfterMove`: simulate the move, find the mover's king, ask whether it is in check. */
  predicate WillKingBeSafeAfterMove(b: Board, piece: Piece, currentPosition: Position, newPosition: Position)
  {
    var newBoard := MovePiece(b, currentPosition, newPosition);
    match GetKing(newBoard, piece.color)
    case None => true
    case Some(king) => !IsKingInCheck(newBoard, king.position)
  }

  // ---------------------------------------------------------------------------
  // Properties

  /**
   * A square is in check exactly when it holds a king and some piece of the other
   * side reaches it with a pseudo-legal move.
   */
  lemma IsKingInCheckExact(b: Board, kingPosition: Position)
    ensures IsKingInCheck(b, kingPosition) <==>
            At(b, kingPosition).Some? && IsKingOf(b, At(b, kingPosition).value.color, kingPosition)
            && Attacked(b, At(b, kingPosition).value.color, kingPosition)
  {
    if At(b, kingPosition).Some? && At(b, kingPosition).value.kind == King {
      var color := At(b, kingPosition).value.color;
      var hits := q => kingPosition in GetPseudoLegalMoves(b, q, []);
      SomePieceSatisfies(b, Opponent(color), hits);
    }
  }

  lemma PieceListSound(b: Board, color: Color, P: Position -> bool, i: int)
    requires 0 <= i < |GetSameColoredPieces(b, color)| && P(GetSameColoredPieces(b, color)[i].position)
    ensures exists q :: IsSquareWithInBounds(q) && HasColor(b, color, q) && P(q)
  {
    var q := GetSameColoredPieces(b, color)[i].position;
    GetSameColoredPiecesExact(b, color);
    assert GetSameColoredPieces(b, color)[i] in GetSameColoredPieces(b, color);
    assert IsSquareWithInBounds(q) && HasColor(b, color, q) && P(q);
  }

  lemma PieceListComplete(b: Board, color: Color, P: Position -> bool, q: Position)
    requires IsSquareWithInBounds(q) && HasColor(b, color, q) && P(q)
    ensures exists i | 0 <= i < |GetSameColoredPieces(b, color)| :: P(GetSameColoredPieces(b, color)[i].position)
  {
    var pieces := GetSameColoredPieces(b, color);
    GetSameColoredPiecesExact(b, color);
    var pw := PieceWithPosition(At(b, q).value, q);
    assert pw in pieces;
    var i :| 0 <= i < |pieces| && pieces[i] == pw;
    assert P(pieces[i].position);
  }

  /** Some piece of the list `getSameColoredPieces` returns passes `P` exactly when some square of that colour does. */
  lemma SomePieceSatisfies(b: Board, color: Color, P: Position -> bool)
    ensures var pieces := GetSameColoredPieces(b, color);
            (exists i | 0 <= i < |pieces| :: P(pieces[i].position)) <==>
            (exists q :: IsSquareWithInBounds(q) && HasColor(b, color, q) && P(q))
  {
    var pieces := GetSameColoredPieces(b, color);
    forall i | 0 <= i < |pieces| && P(pieces[i].position)
      ensures exists q :: IsSquareWithInBounds(q) && HasColor(b, color, q) && P(q)
    {
      PieceListSound(b, color, P, i);
    }
    forall q | IsSquareWithInBounds(q) && HasColor(b, color, q) && P(q)
      ensures exists i | 0 <= i < |pieces| :: P(pieces[i].position)
    {
      PieceListComplete(b, color, P, q);
    }
  }

  /**
   * After simulating the move, the mover is safe exactly when the board has no king
   * of its colour, or the first such king is not attacked.
   */
  lemma WillKingBeSafeExact(b: Board, piece: Piece, currentPosition: Position, newPosition: Position)
    ensures var newBoard := MovePiece(b, currentPosition, newPosition);
            var king := GetKing(newBoard, piece.color);
            WillKingBeSafeAfterMove(b, piece, currentPosition, newPosition) <==>
            ((forall q | IsSquareWithInBounds(q) :: !IsKingOf(newBoard, piece.color, q))
             || (king.Some? && !Attacked(newBoard, piece.color, king.value.position)))
  {
    var newBoard := MovePiece(b, currentPosition, newPosition);
    var king := GetKing(newBoard, piece.color);
    GetKingExact(newBoard, piece.color);
    if king.Some? {
      IsKingInCheckExact(newBoard, king.value.position);
    }
  }

  /** Moving from an empty square changes nothing, so it is safe exactly when the board is already safe. */
  lemma SafetyOfNullMove(b: Board, piece: Piece, currentPosition: Position, newPosition: Position)
    requires At(b, currentPosition).None?
    ensures WillKingBeSafeAfterMove(b, piece, currentPosition, newPosition) <==>
            (GetKing(b, piece.color).None? || !IsKingInCheck(b, GetKing(b, piece.color).value.position))
  {
  }

  /**
   * A pawn move to a square off the board leaves the board as it was, so it is judged
   * on the unchanged board (the source's read of `board[x]` at move.ts:434 throws here).
   */
  lemma SafetyOfOffBoardPawnMove(b: Board, piece: Piece, currentPosition: Position, newPosition: Position)
    requires At(b, currentPosition).Some? && At(b, currentPosition).value.kind == Pawn
    requires !IsSquareWithInBounds(newPosition)
    ensures MovePiece(b, currentPosition, newPosition) == b
    ensures WillKingBeSafeAfterMove(b, piece, currentPosition, newPosition) <==>
            (GetKing(b, piece.color).None? || !IsKingInCheck(b, GetKing(b, piece.color).value.position))
  {
  }
}
