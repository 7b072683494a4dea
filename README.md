# Chess rules engine (vlakhara/chess), modelled in Dafny

This project models the rules engine of the vlakhara/chess web application:
- `src/brain/move.ts`: move generation, king safety, castling, en passant, move application, promotion, check and end of game;
- the tables in `src/brain/moves.ts` and the records in `src/brain/types.ts`;
- the starting position in `src/brain/board.ts`;
- the move-list notation of `src/components/History.tsx`.

The engine works on an 8x8 board. Row 0 is Black's back rank and row 7 is White's. A pawn of White moves toward row 0.

## How the model is laid out

- **Values.**
  - `Types` holds the records: `Piece`, `Position`, `Move`, `PieceWithPosition`, `GameStatus` and the notation map.
  - `MoveTables` holds the offset tables.
  - `Squares` holds the board as a value: `Board` is an 8x8 `seq<seq<Option<Piece>>>`. `At` reads it and `Put` writes it.
- **Specification functions.** Each function of `move.ts` is written as a Dafny function on board values, in layers:
  - `Apply` gives `movePiece` and `promote`;
  - `Geometry` gives the ray and offset walks;
  - `Pseudo` gives `getPseudoLegalMoves`;
  - `Safety` gives `getSameColoredPieces`, `getKing`, `isKingInCheck` and `willKingBeSafeAfterMove`;
  - `Legal` gives `getSlidingMoves`, `canKingCastle` and `getValidMoves`;
  - `Terminal` gives `isKingCheckMate` and `isAnyMoveLeft`;
  - `InitialBoard` gives `getInitialBoard`;
  - `Notation` gives the History line.
- **The `checkKingThreat` flag.** The flag, and the `willKingBeSafeAfterMove` calls that `getValidMoves` makes, become a *verdict* `safe: Position -> bool` handed to the shared walks:
  - `NoThreatCheck` accepts every square;
  - `KingSafety(b, piece, pos)` is `willKingBeSafeAfterMove` for the moving piece.

  This keeps the pseudo-legal layer free of the legal layer, as the source intends.
- **The imperative engine.** The source works on a mutable array of rows with `forEach`/`for`/`while` loops. That engine is modelled in imperative Dafny:
  - `BoardArrays` holds the `array2` board, `getDeepCopiedBoard` and the cell write;
  - `EngineBoard` holds `movePiece`, `promote`, `getKing` and `getSameColoredPieces`;
  - `Engine` holds `getSlidingMoves`, `getPseudoLegalMoves`, `isKingInCheck` and `willKingBeSafeAfterMove`;
  - `EngineLegal` holds `getValidMoves`, `canKingCastle`, `isKingCheckMate` and `isAnyMoveLeft`.

  Each method's loops carry invariants, and its `ensures` ties the result to the specification function on `Contents(board)`. The methods call one another exactly as the source does. `getSlidingMoves` with the flag set goes to `willKingBeSafeAfterMove`, then to `isKingInCheck`, then to `getPseudoLegalMoves`, and back to `getSlidingMoves` with the flag cleared. Termination follows from that ranking.
- **Properties** of the specification functions are lemmas, mostly in `LegalProperties`, `Geometry`, `Pseudo`, `Safety`, `Terminal`, `InitialBoard` and `Notation`.

## Behaviour kept as the code has it

- The right-hand en passant capture of `getValidMoves` asks `willKingBeSafeAfterMove` about the square `(oneStep, y - 1)` but offers `(oneStep, y + 1)` (move.ts:93-96). `Legal.PawnValidMoves` keeps this. `LegalProperties.RightEnPassantJudgedOnLeft` proves the capture is offered whenever the left-hand square is judged safe.
- The en passant tests are not the same in the two generators:
  - `getValidMoves`, on both sides, asks that the last move of history be a two-row move by the pawn beside it (move.ts:36-98);
  - the left test of `getPseudoLegalMoves` asks only that the last move be a two-row move by any enemy piece (move.ts:256-278);
  - the right test of `getPseudoLegalMoves` asks that the whole history of the pawn beside it be a single two-row move (move.ts:280-300).

  All three are kept as written, not made symmetric.
- With the king-threat check on, a slider's ray continues past an enemy piece whose capture would be unsafe (move.ts:405-411). So `getValidMoves` can offer a square behind an enemy that `getPseudoLegalMoves` cannot reach (`LegalProperties.ValidSliderPassesUnsafeCapture`).
- The castle destinations are pushed without a further safety filter. The corner tests accept any unmoved piece on the corner, of any type or colour (move.ts:604-605, 629, 657).
- A `movePiece` of a pawn that is neither a push onto an empty square nor a diagonal move onto a piece or beside an enemy pawn returns a copy of the board with nothing moved (move.ts:437-463). The diagonal capture does not look at the colour of the piece it replaces (move.ts:456).
- Castling carries the corner piece across as it is, so its `hasMoved` is not set (move.ts:486-495).
- The knight and king loops of `getValidMoves` call `willKingBeSafeAfterMove` on every target on the board before looking at its occupant (move.ts:154-181, 206-231). `Geometry.OffsetMoves` and `Engine.PushOffset` ask the verdict in the same order.
- An absent `history` behaves like an empty one.
- An absent `hasMoved` counts as not moved.
- The checkmate test does not look at check. It is true exactly when no piece of the side has a move. So it is also true in stalemate, and it is the negation of `isAnyMoveLeft`.

## Model

| member | source | states |
|---|---|---|
| Types.Opponent | src/brain/move.ts:529-532 | the opposing colour differs from the given one |
| Types.GameStatus.Index | src/brain/types.ts:19-26 | each of the six statuses has a position below 6 |
| Types.AllStatuses | src/brain/types.ts:19-26 | the six statuses are all listed, once each, and each sits at its own index |
| Types.CharacterMap | src/brain/types.ts:1-8 | a piece's notation letter is empty exactly for a pawn and is at most one character |
| Types.TypeOfNotation | src/brain/types.ts:1-8 | a letter read back as a piece type is that type's notation |
| Types.NotationRoundTrip | src/brain/types.ts:1-17 | every piece type is recovered from its notation letter |
| MoveTables.KnightTable | src/brain/moves.ts:3-12 | the knight table is the eight distinct (1,2)/(2,1) jumps, and every such jump is in it |
| MoveTables.BishopTable | src/brain/moves.ts:14-19 | the bishop table is exactly the four distinct diagonal unit steps |
| MoveTables.RookTable | src/brain/moves.ts:21-26 | the rook table is exactly the four distinct orthogonal unit steps |
| MoveTables.QueenTable | src/brain/moves.ts:28 | the queen table is the bishop table followed by the rook table: eight distinct unit steps |
| MoveTables.KingTable | src/brain/moves.ts:30-39 | the king table is exactly the eight distinct king steps |
| Squares.At | src/brain/move.ts:742-745 | a piece is only ever read from a square on the board, and on the board it is the cell's content |
| Squares.ProbesAgree | src/brain/move.ts:736-745 | `isSquareEmpty` holds iff the square is on the board and holds no piece; an off-board square is never empty |
| Squares.Put | src/brain/move.ts:424-499 | a cell write changes only its own square, and a write off the board changes nothing |
| BoardArrays.Contents | src/brain/types.ts:36 | the array board read as a value agrees with every cell |
| BoardArrays.Cell | src/brain/move.ts:25 | reading `board[x][y]` from the array agrees with the value board, with no piece off the board |
| BoardArrays.IsCellEmpty | src/brain/move.ts:736-740 | `isSquareEmpty` on the array agrees with the value board |
| BoardArrays.Write | src/brain/move.ts:447-499 | an in-place cell write leaves the array holding the board updated at that square |
| BoardArrays.GetDeepCopiedBoard | src/brain/move.ts:727-734 | the copy is a new array holding the same pieces |
| Apply.Moved | src/brain/move.ts:452-499 | the moved piece has `hasMoved` set and keeps its id, type, colour and notation |
| Apply.MovePiece | src/brain/move.ts:418-503 | an empty source returns the board unchanged; only the source, the destination and the en passant or castling squares can change |
| Apply.Promote | src/brain/move.ts:682-701 | only the promoted square changes; it gets the new type, colour and notation with the old id and `hasMoved`; an empty square leaves the board unchanged |
| Apply.PieceMoveEffect | src/brain/move.ts:464-477 | a knight, bishop, rook or queen lands moved on the destination, leaves its source empty, and nothing else changes |
| Apply.KingStepEffect | src/brain/move.ts:478-499 | a king move that is not two columns lands moved and empties the source, and nothing else changes |
| Apply.KingCastleEffect | src/brain/move.ts:486-499 | any two-column king move, from any column and row, lands the king marked as moved on the target, takes the corner piece of the target's row (column 0 when the target is column 2, else column 7) to the square beside the king's source, and empties the corner and the source; nothing else changes, whenever the corner piece's new square is on the board and apart from the target and the corner |
| Apply.PawnPushEffect | src/brain/move.ts:452-455 | a straight pawn move onto an empty square lands moved and empties the source |
| Apply.PawnEnPassantEffect | src/brain/move.ts:440-451 | a diagonal pawn move onto an empty square beside an enemy pawn removes that pawn as well |
| Apply.PawnCaptureEffect | src/brain/move.ts:456-459 | a diagonal pawn capture replaces the captured piece and empties the source |
| Apply.PawnMoveRefused | src/brain/move.ts:437-463 | a blocked straight pawn move, a jump of more than one column, or a diagonal move onto an empty square with no enemy pawn beside it leaves the board unchanged |
| Apply.PromoteNotation | src/brain/move.ts:692-698 | the promoted piece carries the new type's notation letter and keeps its id |
| EngineBoard.MovePiece | src/brain/move.ts:418-503 | the in-place `movePiece` yields `Apply.MovePiece` of the input; on an empty source it returns the input array itself, otherwise a fresh copy |
| EngineBoard.Promote | src/brain/move.ts:682-701 | the in-place `promote` returns a fresh array holding `Apply.Promote` of the input |
| EngineBoard.GetSameColoredPieces | src/brain/move.ts:712-725 | the nested scan returns exactly `Safety.GetSameColoredPieces` |
| EngineBoard.GetKing | src/brain/move.ts:505-519 | the nested scan with early return yields exactly `Safety.GetKing` |
| Safety.GetSameColoredPiecesExact | src/brain/move.ts:712-725 | the list holds every piece of the colour with its own square, nothing else, in row-major order |
| Safety.PiecesBeforeSound | src/brain/move.ts:715-723 | the rows scanned so far contribute only pieces of the colour on those rows, in scan order |
| Safety.PiecesBeforeComplete | src/brain/move.ts:715-723 | every piece of the colour on the rows scanned so far has been collected |
| Safety.GetKingExact | src/brain/move.ts:505-519 | a found entry is a king of the colour with its true square and no such king comes earlier in scan order; none is found iff the colour has no king |
| Safety.IsKingInCheckExact | src/brain/move.ts:521-550 | `isKingInCheck` holds iff a king stands on the square and a pseudo-legal move of some piece of the other colour reaches it |
| Safety.SomePieceSatisfies | src/brain/move.ts:712-725 | a test holds for some listed piece iff it holds for some square holding a piece of the colour |
| Safety.WillKingBeSafeExact | src/brain/move.ts:567-584 | the move is judged safe iff after `movePiece` the side has no king, or its first king is not attacked |
| Safety.SafetyOfNullMove | src/brain/move.ts:567-584 | from an empty square the verdict is whether the side's king is out of check on the unchanged board |
| Geometry.Ray | src/brain/move.ts:385-412 | every square of a ray is on the board, not held by a friend, and accepted by the verdict |
| Geometry.SlidingMoves | src/brain/move.ts:382-413 | every square of the walk over all directions is on the board, not a friend's, and accepted |
| Geometry.OffsetMoves | src/brain/move.ts:154-181 | an offset walk yields at most one square per offset |
| Geometry.RaySound | src/brain/move.ts:385-412 | a square on a ray lies k steps out, lands legally, and every square before it is passable |
| Geometry.RayComplete | src/brain/move.ts:385-412 | a square k steps out that lands legally behind passable squares is on the ray |
| Geometry.RayMembership | src/brain/move.ts:385-412 | both directions: on the ray iff some step count reaches it over passable squares |
| Geometry.SlidingMembership | src/brain/move.ts:382-413 | a square is offered iff it lies on the ray of one of the directions |
| Geometry.OffsetMembership | src/brain/move.ts:154-181 | a square is offered iff it is an offset target on the board, not a friend's, and accepted |
| Geometry.OpenUpToWithoutThreatCheck | src/brain/move.ts:396-411 | with no threat check, the squares before the target are passable iff they are empty |
| Geometry.PseudoRayMembership | src/brain/move.ts:385-412 | a pseudo-legal ray square is one k steps out, not a friend's, with only empty squares before it |
| Geometry.RayStopsAtFirstPiece | src/brain/move.ts:405-408 | a square holding a piece is reached iff it is an enemy, and nothing beyond it on that ray is reached |
| Geometry.RayPassesRefusedEnemy | src/brain/move.ts:406-411 | when the verdict refuses capturing an adjacent enemy, the ray goes on to the square behind it |
| Pseudo.PawnDirection | src/brain/move.ts:31 | a pawn moves one row at a time, toward row 0 exactly for White |
| Pseudo.LastMove | src/brain/move.ts:38-42 | the last entry of history when there is one |
| Pseudo.MovesOfPiece | src/brain/move.ts:284-286 | the filtered history holds exactly the moves of the piece with that id |
| Pseudo.ForwardMoves | src/brain/move.ts:100-118 | forward pawn moves stay in the column, land on empty squares and are accepted |
| Pseudo.DiagonalCapture | src/brain/move.ts:120-150 | a diagonal pawn move lands on an enemy and is accepted |
| Pseudo.SlidingDirections | src/brain/move.ts:342-350 | each slider's table holds no zero step |
| Pseudo.PseudoEmptySource | src/brain/move.ts:246 | an empty source square has no pseudo-legal moves |
| Pseudo.LeaperPseudoMembership | src/brain/move.ts:325-367 | a knight or king reaches exactly the offset targets on the board not held by a friend |
| Pseudo.SliderPseudoSound | src/brain/move.ts:342-350 | each slider move is k steps along one direction, not a friend's, with only empty squares before it |
| Pseudo.SliderPseudoComplete | src/brain/move.ts:342-350 | every such square is offered |
| Pseudo.SlideBlockedBeyond | src/brain/move.ts:405-408 | a slider never jumps over the piece next to it |
| Pseudo.PawnPseudoSound | src/brain/move.ts:250-324 | a pawn goes one row, or two rows when unmoved over an empty square, onto an empty square; or one row diagonally onto an enemy or beside an enemy pawn |
| Pseudo.PawnPseudoComplete | src/brain/move.ts:250-324 | each push, double step, capture and en passant the rules allow is offered |
| Legal.GetSlidingMoves | src/brain/move.ts:373-416 | offered squares are on the board and not a friend's; with the threat check each leaves the king safe |
| Legal.HomeRow | src/brain/move.ts:602 | the back row is 7 for White and 0 for Black |
| Legal.CanKingCastle | src/brain/move.ts:586-680 | any right needs an unmoved king not in check; the queen side also needs an unmoved corner piece and empty columns 1-3; the king side needs an unmoved corner and empty columns 5-6 |
| Legal.PawnValidMoves | src/brain/move.ts:30-153 | every pawn move is judged safe, except the right en passant, which is judged on the left square |
| LegalProperties.CastleRightsExact | src/brain/move.ts:586-680 | both directions for each side: the right holds iff the king is unmoved and not in check, the corner piece is unmoved, and the corridor squares are empty and safe for the king |
| LegalProperties.CorridorExact | src/brain/move.ts:637-654 | the corridor loop accepts iff both of its squares are empty and safe for the king |
| LegalProperties.ValidEmptySource | src/brain/move.ts:25-26 | an empty source square has no valid moves |
| LegalProperties.ValidMoveGuarded | src/brain/move.ts:19-237 | every valid move leaves the king safe, apart from the castle destinations the rights allow and the right en passant judged on the left square |
| LegalProperties.LeaperGuarded | src/brain/move.ts:154-181 | every knight move leaves the king safe |
| LegalProperties.SliderGuarded | src/brain/move.ts:182-190 | every bishop, rook or queen move leaves the king safe |
| LegalProperties.KingGuarded | src/brain/move.ts:191-233 | every king move is safe or an allowed castle destination |
| LegalProperties.PawnGuarded | src/brain/move.ts:30-153 | every pawn move is safe or the right en passant with a safe left square |
| LegalProperties.KnightValidMembership | src/brain/move.ts:154-181 | both directions: a knight can go to a square iff it is a knight jump on the board, not a friend's, and safe |
| LegalProperties.KingValidMembership | src/brain/move.ts:191-233 | both directions: a king can go to a square iff it is an allowed castle destination, or a step on the board, not a friend's, and safe |
| LegalProperties.CastleDestinationsOffered | src/brain/move.ts:192-205 | each castle right makes its destination a valid king move |
| LegalProperties.ValidSliderPassesUnsafeCapture | src/brain/move.ts:405-411 | behind an enemy whose capture is unsafe, a slider is offered a square that the pseudo-legal list lacks |
| LegalProperties.SliderValidSound | src/brain/move.ts:182-190 | a valid slider move is k steps along one direction, lands legally, and has only passable squares before it |
| LegalProperties.SliderValidComplete | src/brain/move.ts:182-190 | every such square is a valid slider move |
| LegalProperties.RightEnPassantJudgedOnLeft | src/brain/move.ts:68-98 | the right en passant capture is offered once the left diagonal square is judged safe |
| LegalProperties.PawnValidSound | src/brain/move.ts:30-153 | a valid pawn move has the shape of a push, double step, diagonal capture or en passant, and is safe unless it is the right en passant |
| Terminal.AnyMoveLeftIsNotCheckMate | src/brain/move.ts:703-710 | `isAnyMoveLeft` is the negation of `isKingCheckMate` |
| Terminal.AnyMoveLeftExact | src/brain/move.ts:703-710 | some move is left iff some square holding a piece of the side has a valid move; checkmate iff none has |
| Terminal.NoPiecesIsCheckMate | src/brain/move.ts:552-565 | a side with no pieces is checkmated and has no move left |
| InitialBoard.InitialMiddleEmpty | src/brain/board.ts:27-29 | rows 2 to 5 start empty |
| InitialBoard.InitialBackRanks | src/brain/board.ts:6-40 | the back ranks hold R N B Q K B N R, ids 1-8 for Black and 71-78 for White, with no `hasMoved` and the type's letter |
| InitialBoard.InitialPawns | src/brain/board.ts:17-50 | row 1 holds Black pawns 11-18 and row 6 White pawns 61-68, with `hasMoved: false` |
| InitialBoard.InitialOccupancy | src/brain/board.ts:3-53 | pieces stand only on rows 0, 1, 6 and 7, Black on the first two, and each id is fixed by its square |
| InitialBoard.InitialIdsDistinct | src/brain/board.ts:3-53 | no two pieces share an id |
| InitialBoard.InitialUnmoved | src/brain/board.ts:3-53 | every piece starts unmoved |
| InitialBoard.InitialKings | src/brain/board.ts:6-40 | each side has exactly one king, Black's at (0, 4) and White's at (7, 4) |
| InitialBoard.InitialGetKing | src/brain/board.ts:3-53 | `getKing` finds each side's king on its home square |
| Engine.GetSlidingMoves | src/brain/move.ts:373-416 | the loop over directions returns exactly `Legal.GetSlidingMoves` |
| Engine.Slide | src/brain/move.ts:383-412 | the `while` walk of one direction appends exactly that direction's ray |
| Engine.WillKingBeSafeAfterMove | src/brain/move.ts:567-584 | the copy, move, king search and check test return exactly the safety predicate |
| Engine.PushOffsetMoves | src/brain/move.ts:325-367 | the loop over an offset table appends exactly the offset walk |
| Engine.PushOffset | src/brain/move.ts:156-176 | one offset step appends its target iff on the board, not a friend's, and accepted |
| Engine.IsKingInCheck | src/brain/move.ts:521-550 | the loops over enemy pieces and their moves return exactly `Safety.IsKingInCheck` |
| Engine.Contains | src/brain/move.ts:541-546 | the inner loop finds the king square iff it is among the moves |
| Engine.GetPawnPseudoLegalMoves | src/brain/move.ts:250-324 | the pawn case returns exactly `Pseudo.PawnPseudoMoves` |
| Engine.PushPseudoEnPassant | src/brain/move.ts:256-300 | the two en passant tests append their diagonals, left first |
| Engine.PushIfSafe | src/brain/move.ts:100-118 | a candidate is appended iff the verdict accepts it |
| Engine.PushForwardMoves | src/brain/move.ts:100-118 | the forward block appends exactly the accepted forward moves |
| Engine.PushDiagonalCapture | src/brain/move.ts:120-150 | a diagonal block appends exactly the accepted capture |
| Engine.GetPseudoLegalMoves | src/brain/move.ts:239-371 | the method returns exactly `Pseudo.GetPseudoLegalMoves` |
| EngineLegal.PushValidEnPassant | src/brain/move.ts:36-98 | an en passant block appends its capture iff the test holds and the left diagonal square is safe |
| EngineLegal.PushSafeCapture | src/brain/move.ts:57-64 | the target is appended iff the probed square is judged safe |
| EngineLegal.GetPawnValidMoves | src/brain/move.ts:30-153 | the pawn case returns exactly `Legal.PawnValidMoves` judged by king safety |
| EngineLegal.IsCorridorSafe | src/brain/move.ts:637-654 | the corridor loop with breaks returns exactly `Legal.CorridorSafe` |
| EngineLegal.CanKingCastle | src/brain/move.ts:586-680 | the method returns exactly `Legal.CanKingCastle` |
| EngineLegal.PushCastleDestinations | src/brain/move.ts:199-205 | the castle destinations are pushed queen side first |
| EngineLegal.GetKingValidMoves | src/brain/move.ts:191-233 | the king case returns exactly `Legal.KingValidMoves` |
| EngineLegal.GetValidMoves | src/brain/move.ts:19-237 | the method returns exactly `Legal.GetValidMoves` |
| EngineLegal.HasValidMove | src/brain/move.ts:703-710 | a square has a move iff its valid move list is non-empty |
| EngineLegal.IsKingCheckMate | src/brain/move.ts:552-565 | the loop with break returns exactly `Terminal.IsKingCheckMate` |
| EngineLegal.IsAnyMoveLeft | src/brain/move.ts:703-710 | the `some` loop returns exactly `Terminal.IsAnyMoveLeft` |
| Notation.NatToString | src/components/History.tsx:43 | the printed number is a non-empty string of digits |
| Notation.NatRoundTrip | src/components/History.tsx:43 | the printed number reads back as itself |
| Notation.EntryNumberRoundTrip | src/components/History.tsx:42-50 | every line, castle or not, starts with `i + 1` followed by `". "` |
| Notation.SquareRoundTrip | src/components/History.tsx:49 | a board square is named by a file `a`-`h` and a rank `1`-`8` that read back as that square |
| Notation.DestinationReadBack | src/components/History.tsx:42-49 | an ordinary line ends with the destination square's name |
| Notation.CaptureReadBack | src/components/History.tsx:43-49 | an ordinary line starts with the number and the mover's letter, and the text before the square is `dx` exactly for a pawn capture, `x` exactly for another capture, and empty exactly when nothing was taken |
| Notation.CastleLine | src/components/History.tsx:50 | a castle line is the number then `o-o-o` for column 2, else `o-o`, and never ends in a square name |

## Left out

- Sound playback and the `silent` flag of `movePiece` are not modelled. The flag only selects which sound plays.
- Reading `board[x]` for a row off the board throws a TypeError in the source (move.ts:25, 245, 429, 434, 525). The model reads no piece there instead. The engine reaches such a read on one path: on a constructed board a pawn stands on its last row (row 0 for White, row 7 for Black) beside an enemy pawn whose last move was a two-row move. The en passant tests of `getValidMoves` (move.ts:36-98) then ask `willKingBeSafeAfterMove` about `(oneStep, y - 1)` with `oneStep` off the board, and `movePiece` throws at move.ts:434. In the model `movePiece` returns the board unchanged there, so the verdict is whether the king is out of check on the current board (`Safety.SafetyOfOffBoardPawnMove`). `Legal.PawnValidMoves` then offers the off-board square `(oneStep, y - 1)` or `(oneStep, y + 1)` when that verdict holds, where the source throws.
- A write `newBoard[x][y] = …` with an off-board row would also throw. A write with an off-board column does not throw in the source. That write happens at move.ts:494 for a two-column king move from column 0 to column 2 or from column 7 to column 5. `canKingCastle` can simulate such moves on a constructed board, for a king on column 0 or 7 off its home row. `Squares.Put` drops the write, so in the model the corner piece leaves the board (`Apply.KingCastleBesideOffBoard`). The source behaves differently for the two columns:
  - Column -1 becomes a stray property of the row array. `forEach`, `map` and index loops never visit it, so dropping it changes nothing.
  - Column 8 makes the row array nine cells long. The loops of `getKing` (move.ts:510-516) and `getSameColoredPieces` (move.ts:718) do visit it. So inside `isKingInCheck` the corner piece is listed at `(row, 8)`, and it can attack the king on `(row, 5)` along the row when it is an enemy rook or queen and `(row, 6)` is empty. `canKingCastle` still returns the same result: with `(row, 6)` empty, its next simulation moves the king one column to `(row, 6)`, where the same piece, still on `(row, 7)`, attacks it in the source and in the model alike. A piece on `(row, 8)` of any other kind, or of the king's own colour, cannot reach `(row, 5)`. The model does not prove this argument; it rests on the source's loops as read.
- The user interface is not part of this model:
  - the board component's click handling, turn switching, promotion dialog and sockets;
  - the lobby;
  - the JSX, keys and scrolling of `History.tsx`;
  - the wire records (`Player`, `MovePayload`, `GameState`, dates, move history as sent).
- The draw rules are not detected by the source, so the model has none: no repetition, no fifty-move rule, no insufficient material. `RESIGNED` and `DRAW` appear only in the `GameStatus` enumeration.
- The promotion choice is a separate later call to `promote`, as in the source. The pending-promotion step of the game flow lives in the user interface.
- Several methods are helpers that carry out one block of a source function inline, so each block can be proved against its piece of the specification:
  - `Engine.Slide`, `Engine.PushOffsetMoves`, `Engine.PushOffset` and `Engine.PushIfSafe`;
  - `Engine.PushForwardMoves`, `Engine.PushDiagonalCapture`, `Engine.PushPseudoEnPassant` and `Engine.Contains`;
  - `EngineLegal.PushValidEnPassant`, `EngineLegal.PushSafeCapture`, `EngineLegal.IsCorridorSafe`, `EngineLegal.PushCastleDestinations`, `EngineLegal.HasValidMove`, `EngineLegal.GetPawnValidMoves` and `EngineLegal.GetKingValidMoves`.
- Some lemmas only unfold one case of a specification function for the proofs of others, and promise nothing of their own:
  - `Pseudo.LeaperCase` and `Pseudo.SliderCase`;
  - `LegalProperties.SlidingWithoutThreatCheck`, `LegalProperties.ValidKnightCase`, `LegalProperties.ValidKingCase`, `LegalProperties.ValidPawnCase` and `LegalProperties.ValidSliderCase`;
  - `LegalProperties.SafetyVerdict`, `EngineLegal.CastleRightsOf`, `Notation.MoveLine` and `Types.OpponentInvolutive`.

  The properties those cases serve are `Pseudo.LeaperPseudoMembership`, `Pseudo.SliderPseudoSound`, `Pseudo.SliderPseudoComplete`, `LegalProperties.KnightValidMembership`, `LegalProperties.KingValidMembership`, `LegalProperties.SliderValidSound`, `LegalProperties.SliderValidComplete`, `LegalProperties.PawnGuarded`, `LegalProperties.CastleRightsExact` and `Notation.CaptureReadBack`.
- `history.filter` is modelled as the function `Pseudo.MovesOfPiece`, not as a loop.
- `pieces.some` in `isAnyMoveLeft` is modelled as a loop that stops at the first piece with a move.
- The `default` branches of the `switch` statements are unreachable, because every piece type has its own case.
- The display names of `CHARACTER_MAP` are kept in `Types.Glyphs`. The model uses only the notation letters.
- KingCastleEffect: the two-column king moves from column 5 to column 7 (the king lands on the corner and is then erased by the corner write) and from column 6 to column 4 (the corner piece is written back to its own square) are not stated. No caller of `movePiece` makes them: the castling simulation moves the king only to columns 2, 3, 5 and 6, and the castle destinations are columns 2 and 6. The moves whose corner write falls off the board are stated by `Apply.KingCastleBesideOffBoard`.
- Legal.CanKingCastle: the function's own contract states the necessary conditions only. The exact iff is `LegalProperties.CastleRightsExact`.
- Legal.PawnValidMoves: the function's contract states only that moves are judged safe. Their shapes are stated by `LegalProperties.PawnValidSound` and, for pseudo-legal moves, by `Pseudo.PawnPseudoComplete`.
- Geometry.OffsetMoves: the function's contract bounds only the length. Membership is the iff of `Geometry.OffsetMembership`.
- Types.GameStatus.Index: the status enumeration has no behaviour in the engine. It is modelled only to show that its six values are distinct.
