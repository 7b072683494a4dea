/**
 * The move generators and the king-safety test of src/brain/move.ts in their own
 * imperative form, on the array board: `getSlidingMoves`, the knight and king
 * `forEach` loops, `willKingBeSafeAfterMove`, `isKingInCheck` and
 * `getPseudoLegalMoves`.  They call each other (a sliding move with the threat
 * check simulates the move, which scans the opponent's pseudo-legal moves, which
 * slide without the check), so each carries a rank that every call lowers.  Each
 * is proved to compute the function of the same name on `Contents(board)`.
 */
module Engine {
  import opened Wrappers
  import opened Types
  import opened Squares
  import opened MoveTables
  import opened Geometry
  import opened BoardArrays
  import EngineBoard
  import Pseudo
  import Safety
  import Legal

  /** The verdict the geometry is given: `willKingBeSafeAfterMove` when `checkKingThreat` is set, else "always safe". */
  function Verdict(b: Board, piece: Piece, pos: Position, checkKingThreat: bool): Position -> bool
  {
    if checkKingThreat then Legal.KingSafety(b, piece, pos) else NoThreatCheck
  }

  /** One unfolding of `SlidingMoves` at direction `i`. */
  lemma SlidingStep(b: Board, piece: Piece, pos: Position, dirs: seq<PieceMove>, safe: Position -> bool, i: nat)
    requires NonZero(dirs) && i < |dirs|
    ensures SlidingMoves(b, piece, pos, dirs[i..], safe)
            == Ray(b, piece, pos, dirs[i], safe) + SlidingMoves(b, piece, pos, dirs[i + 1..], safe)
  {
    assert dirs[i..][1..] == dirs[i + 1..];
  }

  /** Pushing `q` and then the rest of the walk gives the walk from the square before. */
  lemma PushThenRest(moves: seq<Position>, q: seq<Position>, rest: seq<Position>)
    ensures (moves + q) + rest == moves + (q + rest)
  {
  }

  /** `getSlidingMoves(piece, position, movesMap, board, checkKingThreat)`: the `forEach` over the directions. */
  method GetSlidingMoves(piece: Piece, position: Position, movesMap: seq<PieceMove>, board: Grid, checkKingThreat: bool)
    returns (moves: seq<Position>)
    requires IsBoard(board) && NonZero(movesMap)
    ensures moves == Legal.GetSlidingMoves(piece, position, movesMap, Contents(board), checkKingThreat)
    decreases if checkKingThreat then 4 else 0, 1
  {
    ghost var b := Contents(board);
    ghost var safe := Verdict(b, piece, position, checkKingThreat);
    moves := [];
    for i := 0 to |movesMap|
      invariant moves + SlidingMoves(b, piece, position, movesMap[i..], safe) == SlidingMoves(b, piece, position, movesMap, safe)
    {
      SlidingStep(b, piece, position, movesMap, safe, i);
      ghost var start := moves;
      moves := Slide(piece, position, movesMap[i], board, checkKingThreat, moves);
      PushThenRest(start, Ray(b, piece, position, movesMap[i], safe), SlidingMoves(b, piece, position, movesMap[i + 1..], safe));
    }
  }

  /**
   * One step of the walk from `cur`: with `r` pushed so far and the rest of the ray
   * still to come, each branch of the loop body either finishes the ray or leaves
   * the rest of the ray from the next square to come.
   */
  lemma RayAdvance(b: Board, piece: Piece, cur: Position, d: PieceMove, safe: Position -> bool, r: seq<Position>, target: seq<Position>)
    requires d.dx != 0 || d.dy != 0
    requires r + Ray(b, piece, cur, d, safe) == target
    ensures var next := Shift(cur, d);
            (!IsSquareWithInBounds(next) ==> r == target)
            && (IsSquareWithInBounds(next) && IsFriend(b, piece, next) ==> r == target)
            && (IsSquareWithInBounds(next) && !IsFriend(b, piece, next) && safe(next) && IsEnemy(b, piece, next) ==> r + [next] == target)
            && (IsSquareWithInBounds(next) && !IsFriend(b, piece, next) && !(safe(next) && IsEnemy(b, piece, next)) ==>
                  (if safe(next) then r + [next] else r) + Ray(b, piece, next, d, safe) == target)
  {
    var next := Shift(cur, d);
    if IsSquareWithInBounds(next) && !IsFriend(b, piece, next) && !(safe(next) && IsEnemy(b, piece, next)) {
      PushThenRest(r, if safe(next) then [next] else [], Ray(b, piece, next, d, safe));
    }
  }

  /** The `while (true)` walk of `getSlidingMoves` along one direction, pushing onto `moves`. */
  method Slide(piece: Piece, position: Position, move: PieceMove, board: Grid, checkKingThreat: bool, moves: seq<Position>)
    returns (r: seq<Position>)
    requires IsBoard(board) && (move.dx != 0 || move.dy != 0)
    ensures r == moves + Ray(Contents(board), piece, position, move, Verdict(Contents(board), piece, position, checkKingThreat))
    decreases if checkKingThreat then 4 else 0, 0
  {
    ghost var b := Contents(board);
    ghost var safe := Verdict(b, piece, position, checkKingThreat);
    ghost var target := moves + Ray(b, piece, position, move, safe);
    r := moves;
    var newX := position.x;
    var newY := position.y;
    while true
      invariant r + Ray(b, piece, Position(newX, newY), move, safe) == target
      decreases ExitDistance(Position(newX, newY), move)
    {
      RayAdvance(b, piece, Position(newX, newY), move, safe, r, target);
      newX := newX + move.dx;
      newY := newY + move.dy;
      var next := Position(newX, newY);
      var isInBound := IsSquareWithInBounds(next);
      if !isInBound {
        break;
      }
      var opponent := board[newX, newY];
      assert opponent == At(b, next);
      var willKingBeSafe := true;
      if checkKingThreat {
        willKingBeSafe := WillKingBeSafeAfterMove(board, piece, position, next);
      }
      assert willKingBeSafe == safe(next);
      if opponent.Some? && opponent.value.color == piece.color {
        break;
      } else if willKingBeSafe && opponent.Some? && opponent.value.color != piece.color {
        r := r + [next];
        break;
      } else {
        if willKingBeSafe {
          r := r + [next];
        }
      }
    }
  }

  /** `willKingBeSafeAfterMove`: simulate the move on a copy, find the mover's king, ask whether it is in check. */
  method WillKingBeSafeAfterMove(board: Grid, piece: Piece, currentPosition: Position, newPosition: Position)
    returns (willKingBeSafe: bool)
    requires IsBoard(board)
    ensures willKingBeSafe == Safety.WillKingBeSafeAfterMove(Contents(board), piece, currentPosition, newPosition)
    decreases 3, 0
  {
    var newBoard := EngineBoard.MovePiece(board, currentPosition, newPosition);
    var king := EngineBoard.GetKing(newBoard, piece.color);
    willKingBeSafe := true;
    if king.Some? {
      var inCheck := IsKingInCheck(newBoard, king.value.position);
      willKingBeSafe := !inCheck;
    }
  }

  /**
   * One offset: the target is pushed when it is on the board, the verdict accepts
   * it and it is empty or holds an enemy piece.
   */
  lemma OffsetAdvance(b: Board, piece: Piece, pos: Position, offsets: seq<PieceMove>, safe: Position -> bool, k: nat)
    requires k < |offsets|
    ensures OffsetMoves(b, piece, pos, offsets[k..], safe)
            == Landing(b, piece, Shift(pos, offsets[k]), safe) + OffsetMoves(b, piece, pos, offsets[k + 1..], safe)
  {
    assert offsets[k..][1..] == offsets[k + 1..];
  }

  /** The target pushed by one offset: on the board, accepted, and empty or an enemy. */
  function Landing(b: Board, piece: Piece, t: Position, safe: Position -> bool): seq<Position>
  {
    if IsSquareWithInBounds(t) && safe(t) && (IsSquareEmpty(b, t) || IsEnemy(b, piece, t)) then [t] else []
  }

  /**
   * The `KNIGHT_MOVES.forEach` / `KING_MOVES.forEach` loops of both generators,
   * pushing onto `moves`.
   */
  method PushOffsetMoves(board: Grid, piece: Piece, position: Position, offsets: seq<PieceMove>, checkKingThreat: bool, moves: seq<Position>)
    returns (r: seq<Position>)
    requires IsBoard(board)
    ensures r == moves + OffsetMoves(Contents(board), piece, position, offsets, Verdict(Contents(board), piece, position, checkKingThreat))
    decreases if checkKingThreat then 4 else 0, 1
  {
    ghost var b := Contents(board);
    ghost var safe := Verdict(b, piece, position, checkKingThreat);
    r := moves;
    for k := 0 to |offsets|
      invariant r + OffsetMoves(b, piece, position, offsets[k..], safe) == moves + OffsetMoves(b, piece, position, offsets, safe)
    {
      OffsetAdvance(b, piece, position, offsets, safe, k);
      ghost var before := r;
      var move := offsets[k];
      r := PushOffset(board, piece, position, Shift(position, move), checkKingThreat, r);
      PushThenRest(before, Landing(b, piece, Shift(position, move), safe), OffsetMoves(b, piece, position, offsets[k + 1..], safe));
    }
  }

  /**
   * The body of those loops for one target: on the board, and (with
   * `checkKingThreat`) after simulating the move, an empty or enemy square is pushed.
   */
  method PushOffset(board: Grid, piece: Piece, position: Position, target: Position, checkKingThreat: bool, moves: seq<Position>)
    returns (r: seq<Position>)
    requires IsBoard(board)
    ensures r == moves + Landing(Contents(board), piece, target, Verdict(Contents(board), piece, position, checkKingThreat))
    decreases if checkKingThreat then 4 else 0, 0
  {
    ghost var b := Contents(board);
    ghost var safe := Verdict(b, piece, position, checkKingThreat);
    r := moves;
    if IsSquareWithInBounds(target) {
      var opponent := board[target.x, target.y];
      assert opponent == At(b, target);
      var willKingBeSafe := true;
      if checkKingThreat {
        willKingBeSafe := WillKingBeSafeAfterMove(board, piece, position, target);
      }
      assert willKingBeSafe == safe(target);
      if willKingBeSafe {
        if IsCellEmpty(board, target) {
          r := r + [target];
        } else if opponent.Some? && opponent.value.color != piece.color {
          r := r + [target];
        }
      }
    }
  }

  /** `isKingInCheck`: does some opponent piece have `kingPosition` among its pseudo-legal moves? */
  method IsKingInCheck(board: Grid, kingPosition: Position) returns (canBeChecked: bool)
    requires IsBoard(board)
    ensures canBeChecked == Safety.IsKingInCheck(Contents(board), kingPosition)
    decreases 2, 0
  {
    ghost var b := Contents(board);
    var piece := Cell(board, kingPosition);
    if piece.None? || piece.value.kind != King {
      return false;
    }
    var opponentPieces := EngineBoard.GetSameColoredPieces(board, Opponent(piece.value.color));
    canBeChecked := false;
    for i := 0 to |opponentPieces|
      invariant canBeChecked <==> exists k | 0 <= k < i :: kingPosition in Pseudo.GetPseudoLegalMoves(b, opponentPieces[k].position, [])
    {
      var moves := GetPseudoLegalMoves(board, opponentPieces[i].position, []);
      var hit := Contains(moves, kingPosition);
      canBeChecked := canBeChecked || hit;
    }
  }

  /** The inner `for (const move of moves)` of `isKingInCheck`, leaving at the first match. */
  method Contains(moves: seq<Position>, target: Position) returns (found: bool)
    ensures found <==> target in moves
  {
    for j := 0 to |moves|
      invariant target !in moves[..j]
    {
      if moves[j] == target {
        return true;
      }
      assert moves[..j + 1] == moves[..j] + [moves[j]];
    }
    assert moves[..|moves|] == moves;
    return false;
  }

  /** The pawn case of `getPseudoLegalMoves`, its blocks in the source's order. */
  method GetPawnPseudoLegalMoves(board: Grid, piece: Piece, position: Position, history: seq<Move>) returns (moves: seq<Position>)
    requires IsBoard(board)
    ensures moves == Pseudo.PawnPseudoMoves(Contents(board), piece, position, history)
    decreases 0, 2
  {
    ghost var b := Contents(board);
    assert Verdict(b, piece, position, false) == NoThreatCheck;
    ghost var oneStep := position.x + Pseudo.PawnDirection(piece.color);
    ghost var passing :=
      (if Pseudo.PseudoEnPassantLeft(b, piece, position, history) then [Position(oneStep, position.y - 1)] else [])
      + (if Pseudo.PseudoEnPassantRight(b, piece, position, history) then [Position(oneStep, position.y + 1)] else []);
    moves := PushPseudoEnPassant(board, piece, position, history, []);
    assert moves == passing;
    moves := PushForwardMoves(board, piece, position, false, moves);
    moves := PushDiagonalCapture(board, piece, position, -1, false, moves);
    moves := PushDiagonalCapture(board, piece, position, 1, false, moves);
  }

  /** The two en passant blocks of the pawn case of `getPseudoLegalMoves`. */
  method PushPseudoEnPassant(board: Grid, piece: Piece, position: Position, history: seq<Move>, moves: seq<Position>)
    returns (r: seq<Position>)
    requires IsBoard(board)
    ensures var oneStep := position.x + Pseudo.PawnDirection(piece.color);
            r == moves
                 + (if Pseudo.PseudoEnPassantLeft(Contents(board), piece, position, history) then [Position(oneStep, position.y - 1)] else [])
                 + (if Pseudo.PseudoEnPassantRight(Contents(board), piece, position, history) then [Position(oneStep, position.y + 1)] else [])
  {
    var x, y := position.x, position.y;
    var oneStep := x + Pseudo.PawnDirection(piece.color);
    r := moves;
    if !IsCellEmpty(board, Position(x, y - 1)) {
      var opponent := Cell(board, Position(x, y - 1));
      var lastMove := Pseudo.LastMove(history);
      var wasEnPassant := lastMove.Some? && lastMove.value.piece.color != piece.color && Pseudo.IsTwoRowMove(lastMove.value);
      if opponent.Some? && wasEnPassant && opponent.value.kind == Pawn && opponent.value.color != piece.color {
        r := r + [Position(oneStep, y - 1)];
      }
    }
    if !IsCellEmpty(board, Position(x, y + 1)) {
      var opponent := Cell(board, Position(x, y + 1));
      var opponentMoves := if opponent.Some? then Pseudo.MovesOfPiece(history, opponent.value.id) else [];
      var wasEnPassant := |opponentMoves| == 1 && Pseudo.IsTwoRowMove(opponentMoves[0]);
      if opponent.Some? && wasEnPassant && opponent.value.kind == Pawn && opponent.value.color != piece.color {
        r := r + [Position(oneStep, y + 1)];
      }
    }
  }

  /** `[q]` when the verdict accepts `q`, else nothing. */
  function IfSafe(safe: Position -> bool, q: Position): seq<Position>
  {
    if safe(q) then [q] else []
  }

  /**
   * The `willKingBeSafe` test the pawn blocks put in front of each push: with
   * `checkKingThreat` the move to `target` is simulated, otherwise it is pushed.
   */
  method PushIfSafe(board: Grid, piece: Piece, position: Position, target: Position, checkKingThreat: bool, moves: seq<Position>)
    returns (r: seq<Position>)
    requires IsBoard(board)
    ensures r == moves + IfSafe(Verdict(Contents(board), piece, position, checkKingThreat), target)
    decreases if checkKingThreat then 4 else 0, 0
  {
    ghost var safe := Verdict(Contents(board), piece, position, checkKingThreat);
    var willKingBeSafe := true;
    if checkKingThreat {
      willKingBeSafe := WillKingBeSafeAfterMove(board, piece, position, target);
    }
    assert willKingBeSafe == safe(target);
    r := moves;
    if willKingBeSafe {
      r := r + [target];
    }
  }

  /** The one- and two-square advance of the pawn cases of both generators. */
  method PushForwardMoves(board: Grid, piece: Piece, position: Position, checkKingThreat: bool, moves: seq<Position>)
    returns (r: seq<Position>)
    requires IsBoard(board)
    ensures r == moves + Pseudo.ForwardMoves(Contents(board), piece, position, Verdict(Contents(board), piece, position, checkKingThreat))
    decreases if checkKingThreat then 4 else 0, 1
  {
    ghost var b := Contents(board);
    ghost var safe := Verdict(b, piece, position, checkKingThreat);
    var direction := Pseudo.PawnDirection(piece.color);
    var oneStep := Position(position.x + direction, position.y);
    var twoStep := Position(position.x + 2 * direction, position.y);
    r := moves;
    if IsCellEmpty(board, oneStep) {
      r := PushIfSafe(board, piece, position, oneStep, checkKingThreat, r);
      ghost var first := r;
      if !HasMoved(piece) && IsCellEmpty(board, twoStep) {
        r := PushIfSafe(board, piece, position, twoStep, checkKingThreat, r);
      }
      assert r == first + (if !HasMoved(piece) && IsSquareEmpty(b, twoStep) && safe(twoStep) then [twoStep] else []);
    }
  }

  /** The plain diagonal capture toward column `y + dy`. */
  method PushDiagonalCapture(board: Grid, piece: Piece, position: Position, dy: int, checkKingThreat: bool, moves: seq<Position>)
    returns (r: seq<Position>)
    requires IsBoard(board)
    ensures r == moves + Pseudo.DiagonalCapture(Contents(board), piece, position, dy, Verdict(Contents(board), piece, position, checkKingThreat))
    decreases if checkKingThreat then 4 else 0, 1
  {
    var target := Position(position.x + Pseudo.PawnDirection(piece.color), position.y + dy);
    r := moves;
    if IsSquareWithInBounds(target) {
      var opponent := board[target.x, target.y];
      if opponent.Some? && opponent.value.color != piece.color {
        r := PushIfSafe(board, piece, position, target, checkKingThreat, r);
      }
    }
  }

  /** `getPseudoLegalMoves`: the raw movement pattern of the piece on `position`. */
  method GetPseudoLegalMoves(board: Grid, position: Position, history: seq<Move>) returns (moves: seq<Position>)
    requires IsBoard(board)
    ensures moves == Pseudo.GetPseudoLegalMoves(Contents(board), position, history)
    decreases 1, 0
  {
    var piece := Cell(board, position);
    if piece.None? {
      return [];
    }
    BishopTable();
    RookTable();
    QueenTable();
    match piece.value.kind
    case Pawn =>
      moves := GetPawnPseudoLegalMoves(board, piece.value, position, history);
    case Knight =>
      moves := PushOffsetMoves(board, piece.value, position, KnightMoves, false, []);
    case Bishop =>
      moves := GetSlidingMoves(piece.value, position, BishopMoves, board, false);
    case Rook =>
      moves := GetSlidingMoves(piece.value, position, RookMoves, board, false);
    case Queen =>
      moves := GetSlidingMoves(piece.value, position, QueenMoves, board, false);
    case King =>
      moves := PushOffsetMoves(board, piece.value, position, KingMoves, false, []);
  }
}
