/**
  Attack detection: whether a square is attacked by the opponent of a given
  colour, and whether the side to move is in check.

  `SquareUnderAttack` follows the engine's order of tests (pawns, knights,
  sliding pieces along the eight rays, then the enemy king); `Attacked` is an
  independent reference definition, "some enemy piece attacks the square by
  its own movement pattern", and the two are proved equal.
 */
module Attacks {
  import opened Pieces
  import opened GameState

  /** (dr, dc) is one of the eight king-step directions. */
  predicate IsUnit(dr: int, dc: int) {
    -1 <= dr <= 1 && -1 <= dc <= 1 && (dr != 0 || dc != 0)
  }

  /** How many more steps of size d fit on the board from coordinate x. */
  function Span(d: int, x: int): int {
    if d > 0 then 8 - x else if d < 0 then x + 1 else 0
  }

  /** (tr, tc) is reached from (fr, fc) by one or more steps of (dr, dc), on the board,
      with every square strictly between empty. */
  predicate Sight(b: Board, fr: int, fc: int, dr: int, dc: int, tr: int, tc: int)
    requires IsUnit(dr, dc)
    decreases Span(dr, fr) + Span(dc, fc)
  {
    var nr, nc := fr + dr, fc + dc;
    OnBoard(nr, nc) && ((nr == tr && nc == tc) || (b[nr][nc] == Empty && Sight(b, nr, nc, dr, dc, tr, tc)))
  }

  /** p is a piece of colour `opp` that slides along direction (dr, dc): a queen, a rook on
      a row or column, or a bishop on a diagonal. */
  predicate SlidesAlong(p: Piece, opp: Color, dr: int, dc: int) {
    && p.Occupied? && p.color == opp
    && (|| p.kind == Queen
        || (p.kind == Rook && (dr == 0 || dc == 0))
        || (p.kind == Bishop && dr != 0 && dc != 0))
  }

  /** Walks from (fr, fc) along (dr, dc) to the first occupied square and reports whether
      the piece there is an enemy slider for that direction. */
  function RayHits(b: Board, fr: int, fc: int, dr: int, dc: int, opp: Color): (hit: bool)
    requires IsUnit(dr, dc)
    decreases Span(dr, fr) + Span(dc, fc)
    ensures hit <==> exists tr: Coord, tc: Coord :: Sight(b, fr, fc, dr, dc, tr, tc) && SlidesAlong(b[tr][tc], opp, dr, dc)
  {
    var nr, nc := fr + dr, fc + dc;
    if !OnBoard(nr, nc) then
      false
    else if b[nr][nc] != Empty then
      assert Sight(b, fr, fc, dr, dc, nr, nc);
      SlidesAlong(b[nr][nc], opp, dr, dc)
    else
      RayHits(b, nr, nc, dr, dc, opp)
  }

  /** An enemy pawn stands diagonally in front of (r, c), seen from the defender's side. */
  function PawnAttack(b: Board, r: int, c: int, defender: Color): bool {
    var direction := if defender == White then 1 else -1;
    var pawn := Occupied(defender.Opponent(), Pawn);
    HasAt(b, r - direction, c - 1, pawn) || HasAt(b, r - direction, c + 1, pawn)
  }

  /** An enemy knight stands a knight's jump away from (r, c). */
  function KnightAttack(b: Board, r: int, c: int, opp: Color): bool {
    var n := Occupied(opp, Knight);
    || HasAt(b, r - 2, c - 1, n) || HasAt(b, r - 2, c + 1, n)
    || HasAt(b, r - 1, c - 2, n) || HasAt(b, r - 1, c + 2, n)
    || HasAt(b, r + 1, c - 2, n) || HasAt(b, r + 1, c + 2, n)
    || HasAt(b, r + 2, c - 1, n) || HasAt(b, r + 2, c + 1, n)
  }

  /** An enemy queen, rook or bishop sees (r, c) along one of the eight rays. */
  function SlidingAttack(b: Board, r: int, c: int, opp: Color): bool {
    || RayHits(b, r, c, -1, 0, opp) || RayHits(b, r, c, 1, 0, opp)
    || RayHits(b, r, c, 0, -1, opp) || RayHits(b, r, c, 0, 1, opp)
    || RayHits(b, r, c, -1, -1, opp) || RayHits(b, r, c, -1, 1, opp)
    || RayHits(b, r, c, 1, -1, opp) || RayHits(b, r, c, 1, 1, opp)
  }

  /** The enemy king stands next to (r, c). */
  function KingAttack(b: Board, r: int, c: int, opp: Color): bool {
    var k := Occupied(opp, King);
    || HasAt(b, r - 1, c - 1, k) || HasAt(b, r - 1, c, k) || HasAt(b, r - 1, c + 1, k)
    || HasAt(b, r, c - 1, k) || HasAt(b, r, c + 1, k)
    || HasAt(b, r + 1, c - 1, k) || HasAt(b, r + 1, c, k) || HasAt(b, r + 1, c + 1, k)
  }

  /** Whether a piece of the defender's opponent attacks square (r, c). The square need
      not be on the board: the check-test passes (-1, -1) when it finds no king. */
  function SquareUnderAttack(b: Board, r: int, c: int, defender: Color): bool {
    var opp := defender.Opponent();
    PawnAttack(b, r, c, defender) || KnightAttack(b, r, c, opp) || SlidingAttack(b, r, c, opp) || KingAttack(b, r, c, opp)
  }

  // ---------------------------------------------------------------------------
  // Reference definition of an attack

  predicate KnightJump(pr: int, pc: int, r: int, c: int) {
    (Abs(r - pr) == 1 && Abs(c - pc) == 2) || (Abs(r - pr) == 2 && Abs(c - pc) == 1)
  }

  predicate KingStep(pr: int, pc: int, r: int, c: int) {
    Abs(r - pr) <= 1 && Abs(c - pc) <= 1 && (r != pr || c != pc)
  }

  /** (pr, pc) is in clear sight of (r, c) along a row or column. */
  predicate OrthogonalSight(b: Board, r: int, c: int, pr: int, pc: int) {
    || Sight(b, r, c, -1, 0, pr, pc) || Sight(b, r, c, 1, 0, pr, pc)
    || Sight(b, r, c, 0, -1, pr, pc) || Sight(b, r, c, 0, 1, pr, pc)
  }

  /** (pr, pc) is in clear sight of (r, c) along a diagonal. */
  predicate DiagonalSight(b: Board, r: int, c: int, pr: int, pc: int) {
    || Sight(b, r, c, -1, -1, pr, pc) || Sight(b, r, c, -1, 1, pr, pc)
    || Sight(b, r, c, 1, -1, pr, pc) || Sight(b, r, c, 1, 1, pr, pc)
  }

  /** The piece on (pr, pc) attacks (r, c) by its own movement pattern. */
  predicate Threatens(b: Board, pr: Coord, pc: Coord, r: int, c: int) {
    match b[pr][pc]
    case Empty => false
    case Occupied(color, kind) =>
      match kind
      case Pawn => r == pr + Forward(color) && Abs(c - pc) == 1
      case Knight => KnightJump(pr, pc, r, c)
      case Bishop => DiagonalSight(b, r, c, pr, pc)
      case Rook => OrthogonalSight(b, r, c, pr, pc)
      case Queen => OrthogonalSight(b, r, c, pr, pc) || DiagonalSight(b, r, c, pr, pc)
      case King => KingStep(pr, pc, r, c)
  }

  /** Some piece of the defender's opponent attacks (r, c). */
  ghost predicate Attacked(b: Board, r: int, c: int, defender: Color) {
    exists pr: Coord, pc: Coord :: IsOwn(b[pr][pc], defender.Opponent()) && Threatens(b, pr, pc, r, c)
  }

  lemma AttackedBy(b: Board, pr: Coord, pc: Coord, r: int, c: int, defender: Color)
    requires IsOwn(b[pr][pc], defender.Opponent()) && Threatens(b, pr, pc, r, c)
    ensures Attacked(b, r, c, defender)
  {
  }

  /** A ray that hits yields an attacker of the ray's origin. */
  lemma RayHitAttacks(b: Board, r: int, c: int, dr: int, dc: int, defender: Color)
    requires IsUnit(dr, dc) && RayHits(b, r, c, dr, dc, defender.Opponent())
    ensures Attacked(b, r, c, defender)
  {
    var tr: Coord, tc: Coord :| Sight(b, r, c, dr, dc, tr, tc) && SlidesAlong(b[tr][tc], defender.Opponent(), dr, dc);
    AttackedBy(b, tr, tc, r, c, defender);
  }

  lemma PawnAttackSound(b: Board, r: int, c: int, defender: Color)
    requires PawnAttack(b, r, c, defender)
    ensures Attacked(b, r, c, defender)
  {
    var row := if defender == White then r - 1 else r + 1;
    if HasAt(b, row, c - 1, Occupied(defender.Opponent(), Pawn)) {
      AttackedBy(b, row, c - 1, r, c, defender);
    } else {
      AttackedBy(b, row, c + 1, r, c, defender);
    }
  }

  lemma KnightAttackSound(b: Board, r: int, c: int, defender: Color)
    requires KnightAttack(b, r, c, defender.Opponent())
    ensures Attacked(b, r, c, defender)
  {
    var n := Occupied(defender.Opponent(), Knight);
    if HasAt(b, r - 2, c - 1, n) { AttackedBy(b, r - 2, c - 1, r, c, defender); }
    else if HasAt(b, r - 2, c + 1, n) { AttackedBy(b, r - 2, c + 1, r, c, defender); }
    else if HasAt(b, r - 1, c - 2, n) { AttackedBy(b, r - 1, c - 2, r, c, defender); }
    else if HasAt(b, r - 1, c + 2, n) { AttackedBy(b, r - 1, c + 2, r, c, defender); }
    else if HasAt(b, r + 1, c - 2, n) { AttackedBy(b, r + 1, c - 2, r, c, defender); }
    else if HasAt(b, r + 1, c + 2, n) { AttackedBy(b, r + 1, c + 2, r, c, defender); }
    else if HasAt(b, r + 2, c - 1, n) { AttackedBy(b, r + 2, c - 1, r, c, defender); }
    else { AttackedBy(b, r + 2, c + 1, r, c, defender); }
  }

  lemma SlidingAttackSound(b: Board, r: int, c: int, defender: Color)
    requires SlidingAttack(b, r, c, defender.Opponent())
    ensures Attacked(b, r, c, defender)
  {
    var opp := defender.Opponent();
    if RayHits(b, r, c, -1, 0, opp) { RayHitAttacks(b, r, c, -1, 0, defender); }
    else if RayHits(b, r, c, 1, 0, opp) { RayHitAttacks(b, r, c, 1, 0, defender); }
    else if RayHits(b, r, c, 0, -1, opp) { RayHitAttacks(b, r, c, 0, -1, defender); }
    else if RayHits(b, r, c, 0, 1, opp) { RayHitAttacks(b, r, c, 0, 1, defender); }
    else if RayHits(b, r, c, -1, -1, opp) { RayHitAttacks(b, r, c, -1, -1, defender); }
    else if RayHits(b, r, c, -1, 1, opp) { RayHitAttacks(b, r, c, -1, 1, defender); }
    else if RayHits(b, r, c, 1, -1, opp) { RayHitAttacks(b, r, c, 1, -1, defender); }
    else { RayHitAttacks(b, r, c, 1, 1, defender); }
  }

  lemma KingAttackSound(b: Board, r: int, c: int, defender: Color)
    requires KingAttack(b, r, c, defender.Opponent())
    ensures Attacked(b, r, c, defender)
  {
    var k := Occupied(defender.Opponent(), King);
    if HasAt(b, r - 1, c - 1, k) { AttackedBy(b, r - 1, c - 1, r, c, defender); }
    else if HasAt(b, r - 1, c, k) { AttackedBy(b, r - 1, c, r, c, defender); }
    else if HasAt(b, r - 1, c + 1, k) { AttackedBy(b, r - 1, c + 1, r, c, defender); }
    else if HasAt(b, r, c - 1, k) { AttackedBy(b, r, c - 1, r, c, defender); }
    else if HasAt(b, r, c + 1, k) { AttackedBy(b, r, c + 1, r, c, defender); }
    else if HasAt(b, r + 1, c - 1, k) { AttackedBy(b, r + 1, c - 1, r, c, defender); }
    else if HasAt(b, r + 1, c, k) { AttackedBy(b, r + 1, c, r, c, defender); }
    else { AttackedBy(b, r + 1, c + 1, r, c, defender); }
  }

  lemma PawnDetected(b: Board, pr: Coord, pc: Coord, r: int, c: int, defender: Color)
    requires b[pr][pc] == Occupied(defender.Opponent(), Pawn) && Threatens(b, pr, pc, r, c)
    ensures PawnAttack(b, r, c, defender)
  {
    assert pr == r - (if defender == White then 1 else -1);
  }

  lemma KnightDetected(b: Board, pr: Coord, pc: Coord, r: int, c: int, opp: Color)
    requires b[pr][pc] == Occupied(opp, Knight) && Threatens(b, pr, pc, r, c)
    ensures KnightAttack(b, r, c, opp)
  {
    assert KnightJump(pr, pc, r, c);
  }

  lemma KingDetected(b: Board, pr: Coord, pc: Coord, r: int, c: int, opp: Color)
    requires b[pr][pc] == Occupied(opp, King) && Threatens(b, pr, pc, r, c)
    ensures KingAttack(b, r, c, opp)
  {
    assert KingStep(pr, pc, r, c);
  }

  /** Every attacker the reference definition names is found by one of the four tests. */
  lemma AttackerDetected(b: Board, pr: Coord, pc: Coord, r: int, c: int, defender: Color)
    requires IsOwn(b[pr][pc], defender.Opponent()) && Threatens(b, pr, pc, r, c)
    ensures SquareUnderAttack(b, r, c, defender)
  {
    var opp := defender.Opponent();
    match b[pr][pc].kind
    case Pawn =>
      PawnDetected(b, pr, pc, r, c, defender);
    case Knight =>
      KnightDetected(b, pr, pc, r, c, opp);
    case King =>
      KingDetected(b, pr, pc, r, c, opp);
    case _ =>
      SightHits(b, r, c, pr, pc, opp);
  }

  /** Attack detection agrees with the reference definition: a square is reported
      attacked exactly when some enemy piece attacks it by its own movement pattern. */
  lemma SquareUnderAttackIsAttacked(b: Board, r: int, c: int, defender: Color)
    ensures SquareUnderAttack(b, r, c, defender) <==> Attacked(b, r, c, defender)
  {
    var opp := defender.Opponent();
    if PawnAttack(b, r, c, defender) {
      PawnAttackSound(b, r, c, defender);
    } else if KnightAttack(b, r, c, opp) {
      KnightAttackSound(b, r, c, defender);
    } else if SlidingAttack(b, r, c, opp) {
      SlidingAttackSound(b, r, c, defender);
    } else if KingAttack(b, r, c, opp) {
      KingAttackSound(b, r, c, defender);
    }
    if Attacked(b, r, c, defender) {
      var pr: Coord, pc: Coord :| IsOwn(b[pr][pc], opp) && Threatens(b, pr, pc, r, c);
      AttackerDetected(b, pr, pc, r, c, defender);
    }
  }

  /** An enemy slider in clear sight along a direction it moves in makes that ray hit. */
  lemma SightHits(b: Board, r: int, c: int, pr: Coord, pc: Coord, opp: Color)
    requires IsOwn(b[pr][pc], opp) && b[pr][pc].kind in {Bishop, Rook, Queen}
    requires b[pr][pc].kind != Bishop ==> OrthogonalSight(b, r, c, pr, pc) || (b[pr][pc].kind == Queen && DiagonalSight(b, r, c, pr, pc))
    requires b[pr][pc].kind == Bishop ==> DiagonalSight(b, r, c, pr, pc)
    ensures SlidingAttack(b, r, c, opp)
  {
  }

  // ---------------------------------------------------------------------------
  // Finding the king and testing for check

  /** (r, c) comes at or after (r0, c0) in the row-major scan. */
  predicate AtOrAfter(r0: int, c0: int, r: int, c: int) {
    r0 < r || (r0 == r && c0 <= c)
  }

  /** Scans the board row by row from (r, c) for the king of `color`; (-1, -1) when there is none. */
  function FindKingFrom(b: Board, color: Color, r: int, c: int): (k: (int, int))
    requires 0 <= r <= 8 && 0 <= c <= 8
    decreases 8 - r, 8 - c
    ensures k == (-1, -1) <==> forall i: Coord, j: Coord :: AtOrAfter(r, c, i, j) ==> b[i][j] != Occupied(color, King)
    ensures k != (-1, -1) ==>
      && OnBoard(k.0, k.1) && AtOrAfter(r, c, k.0, k.1) && b[k.0][k.1] == Occupied(color, King)
      && forall i: Coord, j: Coord :: AtOrAfter(r, c, i, j) && !AtOrAfter(k.0, k.1, i, j) ==> b[i][j] != Occupied(color, King)
  {
    if r == 8 then (-1, -1)
    else if c == 8 then FindKingFrom(b, color, r + 1, 0)
    else if b[r][c] == Occupied(color, King) then (r, c)
    else FindKingFrom(b, color, r, c + 1)
  }

  /** The first square in row-major order holding the king of `color`, or (-1, -1). */
  function FindKing(b: Board, color: Color): (k: (int, int))
    ensures k == (-1, -1) <==> forall i: Coord, j: Coord :: b[i][j] != Occupied(color, King)
    ensures k != (-1, -1) ==>
      && OnBoard(k.0, k.1) && b[k.0][k.1] == Occupied(color, King)
      && forall i: Coord, j: Coord :: !AtOrAfter(k.0, k.1, i, j) ==> b[i][j] != Occupied(color, King)
  {
    FindKingFrom(b, color, 0, 0)
  }

  /** Whether the side to move's king is attacked. */
  function InCheck(s: State): bool {
    var color := s.ToMove();
    var k := FindKing(s.board, color);
    SquareUnderAttack(s.board, k.0, k.1, color)
  }

  /** With its king on the board, the side to move is in check exactly when some enemy piece
      attacks the first square holding that king. */
  lemma InCheckMeansKingAttacked(s: State, kr: Coord, kc: Coord)
    requires s.board[kr][kc] == Occupied(s.ToMove(), King)
    ensures FindKing(s.board, s.ToMove()) != (-1, -1)
    ensures InCheck(s) <==> Attacked(s.board, FindKing(s.board, s.ToMove()).0, FindKing(s.board, s.ToMove()).1, s.ToMove())
  {
    var k := FindKing(s.board, s.ToMove());
    SquareUnderAttackIsAttacked(s.board, k.0, k.1, s.ToMove());
  }
}
