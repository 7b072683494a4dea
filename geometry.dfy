/**
 * The raw movement geometry shared by both move generators of src/brain/move.ts:
 * the sliding loop of `getSlidingMoves` and the offset loop used for knights and
 * kings.  Both take the king-safety verdict as a parameter `safe`: the pseudo-legal
 * layer passes `NoThreatCheck` (the default `checkKingThreat = false`), the legal
 * layer passes `willKingBeSafeAfterMove` for the moving piece.
 */
module Geometry {
  import opened Wrappers
  import opened Types
  import opened Squares
  import opened MoveTables

  /** The verdict used when `checkKingThreat` is false: every destination counts as safe. */
  const NoThreatCheck: Position -> bool := q => true

  /** How many more steps along `d` before the walk is certainly off the board. */
  function ExitDistance(cur: Position, d: PieceMove): int
  {
    if d.dx > 0 then 8 - cur.x
    else if d.dx < 0 then cur.x + 1
    else if d.dy > 0 then 8 - cur.y
    else cur.y + 1
  }

  /**
   * One direction of the `while (true)` loop of `getSlidingMoves`: the squares
   * pushed after `cur`.  A friendly piece stops the ray; an enemy piece is pushed and
   * stops it when the move is safe; otherwise the square is pushed if safe and the
   * walk goes on (so an enemy whose capture is unsafe does not stop the ray).
   */
  function Ray(b: Board, piece: Piece, cur: Position, d: PieceMove, safe: Position -> bool): (r: seq<Position>)
    requires d.dx != 0 || d.dy != 0
    ensures forall q | q in r :: IsSquareWithInBounds(q) && !IsFriend(b, piece, q) && safe(q)
    decreases ExitDistance(cur, d)
  {
    var next := Shift(cur, d);
    if !IsSquareWithInBounds(next) then []
    else if IsFriend(b, piece, next) then []
    else if safe(next) && IsEnemy(b, piece, next) then [next]
    else (if safe(next) then [next] else []) + Ray(b, piece, next, d, safe)
  }

  /** `movesMap.forEach(...)` of `getSlidingMoves`: the rays in table order. */
  function SlidingMoves(b: Board, piece: Piece, pos: Position, dirs: seq<PieceMove>, safe: Position -> bool): (r: seq<Position>)
    requires NonZero(dirs)
    ensures forall q | q in r :: IsSquareWithInBounds(q) && !IsFriend(b, piece, q) && safe(q)
  {
    if |dirs| == 0 then [] else Ray(b, piece, pos, dirs[0], safe) + SlidingMoves(b, piece, pos, dirs[1..], safe)
  }

  /**
   * The `KNIGHT_MOVES.forEach` / `KING_MOVES.forEach` loops: an in-bounds target
   * that the verdict accepts is pushed when it is empty or holds an enemy piece.
   */
  function OffsetMoves(b: Board, piece: Piece, pos: Position, offsets: seq<PieceMove>, safe: Position -> bool): (r: seq<Position>)
    ensures |r| <= |offsets|
  {
    if |offsets| == 0 then []
    else
      var t := Shift(pos, offsets[0]);
      (if IsSquareWithInBounds(t) && safe(t) && (IsSquareEmpty(b, t) || IsEnemy(b, piece, t)) then [t] else [])
      + OffsetMoves(b, piece, pos, offsets[1..], safe)
  }

  // ---------------------------------------------------------------------------
  // Reference description of a ray

  /** The square `k` steps from `cur` along `d`. */
  function Walk(cur: Position, d: PieceMove, k: nat): Position
    decreases k
  {
    if k == 0 then cur else Walk(Shift(cur, d), d, k - 1)
  }

  /** A slide may pass over `q`: it is empty, or an enemy whose capture the verdict refuses. */
  predicate Passable(b: Board, piece: Piece, q: Position, safe: Position -> bool)
  {
    IsSquareEmpty(b, q) || (IsEnemy(b, piece, q) && !safe(q))
  }

  /** The squares strictly between `cur` and `Walk(cur, d, k)` are all passable. */
  predicate OpenUpTo(b: Board, piece: Piece, cur: Position, d: PieceMove, k: nat, safe: Position -> bool)
    decreases k
  {
    k <= 1 || (Passable(b, piece, Shift(cur, d), safe) && OpenUpTo(b, piece, Shift(cur, d), d, k - 1, safe))
  }

  /** The squares strictly between `cur` and `Walk(cur, d, k)` are all empty. */
  predicate ClearUpTo(b: Board, cur: Position, d: PieceMove, k: nat)
    decreases k
  {
    k <= 1 || (IsSquareEmpty(b, Shift(cur, d)) && ClearUpTo(b, Shift(cur, d), d, k - 1))
  }

  /** A ray may end on `q`: in bounds, not friendly, and accepted by the verdict. */
  predicate Lands(b: Board, piece: Piece, q: Position, safe: Position -> bool)
  {
    IsSquareWithInBounds(q) && !IsFriend(b, piece, q) && safe(q)
  }

  /** Every square a ray pushes lies some `k >= 1` steps along it, past passable squares only. */
  lemma {:induction false} RaySound(b: Board, piece: Piece, cur: Position, d: PieceMove, safe: Position -> bool, q: Position) returns (k: nat)
    requires d.dx != 0 || d.dy != 0
    requires q in Ray(b, piece, cur, d, safe)
    ensures 1 <= k && q == Walk(cur, d, k) && Lands(b, piece, q, safe) && OpenUpTo(b, piece, cur, d, k, safe)
    decreases ExitDistance(cur, d)
  {
    var next := Shift(cur, d);
    assert Walk(cur, d, 1) == next;
    if q == next {
      k := 1;
    } else {
      assert q in Ray(b, piece, next, d, safe);
      assert Passable(b, piece, next, safe);
      var k' := RaySound(b, piece, next, d, safe, q);
      k := k' + 1;
      assert Walk(cur, d, k) == Walk(next, d, k');
    }
  }

  /** Every square `k >= 1` steps along a ray, past passable squares only, that may be landed on is pushed. */
  lemma {:induction false} RayComplete(b: Board, piece: Piece, cur: Position, d: PieceMove, safe: Position -> bool, k: nat)
    requires d.dx != 0 || d.dy != 0
    requires 1 <= k && Lands(b, piece, Walk(cur, d, k), safe) && OpenUpTo(b, piece, cur, d, k, safe)
    ensures Walk(cur, d, k) in Ray(b, piece, cur, d, safe)
    decreases k
  {
    var next := Shift(cur, d);
    if k > 1 {
      assert Passable(b, piece, next, safe);
      assert Walk(cur, d, k) == Walk(next, d, k - 1);
      RayComplete(b, piece, next, d, safe, k - 1);
    }
  }

  /**
   * Exact content of one direction of `getSlidingMoves`, for any verdict: `q` is
   * pushed iff it lies `k >= 1` steps along `d`, may be landed on, and every square
   * before it is empty or an enemy whose capture was judged unsafe.
   */
  lemma RayMembership(b: Board, piece: Piece, cur: Position, d: PieceMove, safe: Position -> bool, q: Position)
    requires d.dx != 0 || d.dy != 0
    ensures q in Ray(b, piece, cur, d, safe) <==>
            exists k: nat :: 1 <= k && q == Walk(cur, d, k) && Lands(b, piece, q, safe) && OpenUpTo(b, piece, cur, d, k, safe)
  {
    if q in Ray(b, piece, cur, d, safe) {
      var k := RaySound(b, piece, cur, d, safe, q);
    }
    if exists k: nat :: 1 <= k && q == Walk(cur, d, k) && Lands(b, piece, q, safe) && OpenUpTo(b, piece, cur, d, k, safe) {
      var k: nat :| 1 <= k && q == Walk(cur, d, k) && Lands(b, piece, q, safe) && OpenUpTo(b, piece, cur, d, k, safe);
      RayComplete(b, piece, cur, d, safe, k);
    }
  }

  /** One direction per table entry: `q` is a sliding move iff some direction's ray pushes it. */
  lemma {:induction false} SlidingMembership(b: Board, piece: Piece, pos: Position, dirs: seq<PieceMove>, safe: Position -> bool, q: Position)
    requires NonZero(dirs)
    ensures q in SlidingMoves(b, piece, pos, dirs, safe) <==> exists i :: 0 <= i < |dirs| && q in Ray(b, piece, pos, dirs[i], safe)
    decreases |dirs|
  {
    if |dirs| > 0 {
      SlidingMembership(b, piece, pos, dirs[1..], safe, q);
      if exists i :: 0 <= i < |dirs| && q in Ray(b, piece, pos, dirs[i], safe) {
        var i :| 0 <= i < |dirs| && q in Ray(b, piece, pos, dirs[i], safe);
        if i > 0 {
          assert dirs[1..][i - 1] == dirs[i];
        }
      }
      if q in SlidingMoves(b, piece, pos, dirs[1..], safe) {
        var i :| 0 <= i < |dirs[1..]| && q in Ray(b, piece, pos, dirs[1..][i], safe);
        assert dirs[i + 1] == dirs[1..][i];
      }
    }
  }

  /** Exact content of the offset loop: in-bounds offset targets, not friendly, accepted by the verdict. */
  lemma {:induction false} OffsetMembership(b: Board, piece: Piece, pos: Position, offsets: seq<PieceMove>, safe: Position -> bool, q: Position)
    ensures q in OffsetMoves(b, piece, pos, offsets, safe) <==>
            exists i :: 0 <= i < |offsets| && q == Shift(pos, offsets[i]) && IsSquareWithInBounds(q) && !IsFriend(b, piece, q) && safe(q)
    decreases |offsets|
  {
    if |offsets| > 0 {
      OffsetMembership(b, piece, pos, offsets[1..], safe, q);
      if exists i :: 0 <= i < |offsets| && q == Shift(pos, offsets[i]) && IsSquareWithInBounds(q) && !IsFriend(b, piece, q) && safe(q) {
        var i :| 0 <= i < |offsets| && q == Shift(pos, offsets[i]) && IsSquareWithInBounds(q) && !IsFriend(b, piece, q) && safe(q);
        if i > 0 {
          assert offsets[1..][i - 1] == offsets[i];
        }
      }
      if q in OffsetMoves(b, piece, pos, offsets[1..], safe) {
        var i :| 0 <= i < |offsets[1..]| && q == Shift(pos, offsets[1..][i]) && IsSquareWithInBounds(q) && !IsFriend(b, piece, q) && safe(q);
        assert offsets[i + 1] == offsets[1..][i];
      }
    }
  }

  // ---------------------------------------------------------------------------
  // The pseudo-legal ray (no threat check)

  lemma {:induction false} OpenUpToWithoutThreatCheck(b: Board, piece: Piece, cur: Position, d: PieceMove, k: nat)
    ensures OpenUpTo(b, piece, cur, d, k, NoThreatCheck) == ClearUpTo(b, cur, d, k)
    decreases k
  {
    if k > 1 {
      OpenUpToWithoutThreatCheck(b, piece, Shift(cur, d), d, k - 1);
    }
  }

  /**
   * Exact content of a pseudo-legal ray: `q` is pushed iff it is in bounds, lies
   * `k >= 1` steps along `d`, does not hold a friendly piece, and every square
   * strictly before it is empty.
   */
  lemma PseudoRayMembership(b: Board, piece: Piece, cur: Position, d: PieceMove, q: Position)
    requires d.dx != 0 || d.dy != 0
    ensures q in Ray(b, piece, cur, d, NoThreatCheck) <==>
            exists k: nat :: 1 <= k && q == Walk(cur, d, k) && IsSquareWithInBounds(q) && !IsFriend(b, piece, q) && ClearUpTo(b, cur, d, k)
  {
    RayMembership(b, piece, cur, d, NoThreatCheck, q);
    forall k: nat ensures OpenUpTo(b, piece, cur, d, k, NoThreatCheck) == ClearUpTo(b, cur, d, k) {
      OpenUpToWithoutThreatCheck(b, piece, cur, d, k);
    }
  }

  lemma {:induction false} ExitDistanceOfWalk(p: Position, d: PieceMove, m: nat)
    requires d.dx != 0 || d.dy != 0
    ensures ExitDistance(Walk(p, d, m), d) <= ExitDistance(p, d) - m
    decreases m
  {
    if m > 0 {
      ExitDistanceOfWalk(Shift(p, d), d, m - 1);
    }
  }

  lemma {:induction false} WalkSplit(p: Position, d: PieceMove, i: nat, j: nat)
    ensures Walk(p, d, i + j) == Walk(Walk(p, d, i), d, j)
    decreases i
  {
    if i > 0 {
      WalkSplit(Shift(p, d), d, i - 1, j);
    }
  }

  /** A ray never visits a square twice. */
  lemma {:induction false} WalkInjective(p: Position, d: PieceMove, i: nat, j: nat)
    requires d.dx != 0 || d.dy != 0
    requires Walk(p, d, i) == Walk(p, d, j)
    ensures i == j
  {
    if i != j {
      var lo, hi := if i < j then i else j, if i < j then j else i;
      WalkSplit(p, d, lo, hi - lo);
      ExitDistanceOfWalk(Walk(p, d, lo), d, hi - lo);
    }
  }

  lemma {:induction false} ClearUpToAt(b: Board, cur: Position, d: PieceMove, k: nat, i: nat)
    requires ClearUpTo(b, cur, d, k) && 1 <= i < k
    ensures IsSquareEmpty(b, Walk(cur, d, i))
    decreases k
  {
    if i > 1 {
      ClearUpToAt(b, Shift(cur, d), d, k - 1, i - 1);
    }
  }

  /**
   * The pseudo-legal ray stops at the first occupied square: that square is pushed
   * iff it holds an enemy piece, and nothing beyond it is pushed.
   */
  lemma RayStopsAtFirstPiece(b: Board, piece: Piece, cur: Position, d: PieceMove, k: nat, j: nat)
    requires d.dx != 0 || d.dy != 0
    requires 1 <= k < j && IsSquareWithInBounds(Walk(cur, d, k)) && ClearUpTo(b, cur, d, k)
    requires At(b, Walk(cur, d, k)).Some?
    ensures Walk(cur, d, k) in Ray(b, piece, cur, d, NoThreatCheck) <==> IsEnemy(b, piece, Walk(cur, d, k))
    ensures Walk(cur, d, j) !in Ray(b, piece, cur, d, NoThreatCheck)
  {
    PseudoRayMembership(b, piece, cur, d, Walk(cur, d, k));
    var q := Walk(cur, d, j);
    PseudoRayMembership(b, piece, cur, d, q);
    if q in Ray(b, piece, cur, d, NoThreatCheck) {
      var k': nat :| 1 <= k' && q == Walk(cur, d, k') && IsSquareWithInBounds(q) && !IsFriend(b, piece, q) && ClearUpTo(b, cur, d, k');
      WalkInjective(cur, d, k', j);
      ClearUpToAt(b, cur, d, j, k);
      assert false;
    }
  }
  /** `Walk` in closed form. */
  lemma {:induction false} WalkClosedForm(pos: Position, d: PieceMove, k: nat)
    ensures Walk(pos, d, k) == Position(pos.x + k * d.dx, pos.y + k * d.dy)
    decreases k
  {
    if k > 0 {
      WalkClosedForm(Shift(pos, d), d, k - 1);
    }
  }

  /**
   * With a verdict, a ray passes over an enemy whose capture is refused: the square
   * behind it is pushed when it may be landed on.
   */
  lemma RayPassesRefusedEnemy(b: Board, piece: Piece, pos: Position, d: PieceMove, safe: Position -> bool)
    requires d.dx != 0 || d.dy != 0
    requires IsEnemy(b, piece, Shift(pos, d)) && !safe(Shift(pos, d)) && Lands(b, piece, Walk(pos, d, 2), safe)
    ensures Walk(pos, d, 2) in Ray(b, piece, pos, d, safe)
  {
    assert OpenUpTo(b, piece, Shift(pos, d), d, 1, safe);
    RayComplete(b, piece, pos, d, safe, 2);
  }
}
