/**
  Pseudo-legal move generation: for every piece of the side to move, in
  row-major board order, the moves its movement pattern allows, without
  asking whether the mover's king is left attacked.

  Each generator is given a reference description of the moves it must
  produce (a `...Pattern` predicate) and is proved to produce exactly those.
 */
module Generation {
  import opened Wrappers
  import opened Pieces
  import opened Moves
  import opened GameState
  import opened Attacks

  /** m is the ordinary move from (r, c) to m's end square, built against b. */
  predicate PlainTo(b: Board, r: Coord, c: Coord, m: Move) {
    m == Plain(b, r, c, m.endRow, m.endCol)
  }

  // ---------------------------------------------------------------------------
  // Knights and king steps

  /** The move from (r, c) by (dr, dc) when the target is on the board and not held by the
      mover's own colour; nothing otherwise. */
  function Jump(b: Board, r: Coord, c: Coord, color: Color, dr: int, dc: int): (ms: seq<Move>)
    ensures forall m :: m in ms <==>
      PlainTo(b, r, c, m) && CanLand(b[m.endRow][m.endCol], color) && m.endRow == r + dr && m.endCol == c + dc
  {
    if OnBoard(r + dr, c + dc) && CanLand(b[r + dr][c + dc], color) then [Plain(b, r, c, r + dr, c + dc)] else []
  }

  /** (er, ec) is (r, c) moved by one of the offsets. */
  predicate OffsetOf(offsets: seq<(int, int)>, r: int, c: int, er: int, ec: int) {
    exists i :: 0 <= i < |offsets| && er == r + offsets[i].0 && ec == c + offsets[i].1
  }

  /** An offset list is its first offset followed by the rest. */
  lemma OffsetOfCons(offsets: seq<(int, int)>, r: int, c: int, er: int, ec: int)
    requires |offsets| > 0
    ensures OffsetOf(offsets, r, c, er, ec) <==>
      (er == r + offsets[0].0 && ec == c + offsets[0].1) || OffsetOf(offsets[1..], r, c, er, ec)
  {
    if OffsetOf(offsets[1..], r, c, er, ec) {
      var j :| 0 <= j < |offsets[1..]| && er == r + offsets[1..][j].0 && ec == c + offsets[1..][j].1;
      assert offsets[1..][j] == offsets[j + 1];
    }
    if OffsetOf(offsets, r, c, er, ec) {
      var i :| 0 <= i < |offsets| && er == r + offsets[i].0 && ec == c + offsets[i].1;
      if i > 0 {
        assert offsets[1..][i - 1] == offsets[i];
      }
    }
  }

  /** The jumps from (r, c) by each of the given offsets, one after another. */
  function Jumps(b: Board, r: Coord, c: Coord, color: Color, offsets: seq<(int, int)>): (ms: seq<Move>)
    ensures forall m :: m in ms <==>
      PlainTo(b, r, c, m) && CanLand(b[m.endRow][m.endCol], color) && OffsetOf(offsets, r, c, m.endRow, m.endCol)
  {
    if offsets == [] then
      []
    else
      var first := Jump(b, r, c, color, offsets[0].0, offsets[0].1);
      var rest := Jumps(b, r, c, color, offsets[1..]);
      assert forall m: Move :: OffsetOf(offsets, r, c, m.endRow, m.endCol) <==>
        (m.endRow == r + offsets[0].0 && m.endCol == c + offsets[0].1) || OffsetOf(offsets[1..], r, c, m.endRow, m.endCol) by {
        forall m: Move {
          OffsetOfCons(offsets, r, c, m.endRow, m.endCol);
        }
      }
      first + rest
  }

  const KnightOffsets: seq<(int, int)> := [(-2, -1), (-2, 1), (-1, -2), (-1, 2), (1, -2), (1, 2), (2, -1), (2, 1)]

  /** The eight neighbours, in the order of the engine's two nested loops. */
  const KingOffsets: seq<(int, int)> := [(-1, -1), (-1, 0), (-1, 1), (0, -1), (0, 1), (1, -1), (1, 0), (1, 1)]

  lemma KnightOffsetsAreJumps(r: int, c: int, er: int, ec: int)
    ensures KnightJump(r, c, er, ec) <==> OffsetOf(KnightOffsets, r, c, er, ec)
  {
    var o := KnightOffsets;
    assert o[0] == (-2, -1) && o[1] == (-2, 1) && o[2] == (-1, -2) && o[3] == (-1, 2);
    assert o[4] == (1, -2) && o[5] == (1, 2) && o[6] == (2, -1) && o[7] == (2, 1);
    if KnightJump(r, c, er, ec) {
      var i :=
        if er - r == -2 then (if ec - c == -1 then 0 else 1)
        else if er - r == -1 then (if ec - c == -2 then 2 else 3)
        else if er - r == 1 then (if ec - c == -2 then 4 else 5)
        else (if ec - c == -1 then 6 else 7);
      assert er == r + o[i].0 && ec == c + o[i].1;
    }
  }

  lemma KingOffsetsAreSteps(r: int, c: int, er: int, ec: int)
    ensures KingStep(r, c, er, ec) <==> OffsetOf(KingOffsets, r, c, er, ec)
  {
    var o := KingOffsets;
    assert o[0] == (-1, -1) && o[1] == (-1, 0) && o[2] == (-1, 1) && o[3] == (0, -1);
    assert o[4] == (0, 1) && o[5] == (1, -1) && o[6] == (1, 0) && o[7] == (1, 1);
    if KingStep(r, c, er, ec) {
      var i :=
        if er - r == -1 then ec - c + 1
        else if er - r == 0 then (if ec - c == -1 then 3 else 4)
        else ec - c + 6;
      assert er == r + o[i].0 && ec == c + o[i].1;
    }
  }

  predicate KnightPattern(b: Board, r: Coord, c: Coord, color: Color, m: Move) {
    PlainTo(b, r, c, m) && KnightJump(r, c, m.endRow, m.endCol) && CanLand(b[m.endRow][m.endCol], color)
  }

  /** The knight's eight jumps, in the engine's order. */
  function KnightMoves(b: Board, r: Coord, c: Coord, color: Color): (ms: seq<Move>)
    ensures forall m :: m in ms <==> KnightPattern(b, r, c, color, m)
  {
    var ms := Jumps(b, r, c, color, KnightOffsets);
    assert forall m :: m in ms <==> KnightPattern(b, r, c, color, m) by {
      forall m: Move {
        KnightOffsetsAreJumps(r, c, m.endRow, m.endCol);
      }
    }
    ms
  }

  predicate KingStepPattern(b: Board, r: Coord, c: Coord, color: Color, m: Move) {
    PlainTo(b, r, c, m) && KingStep(r, c, m.endRow, m.endCol) && CanLand(b[m.endRow][m.endCol], color)
  }

  /** The king's eight one-square steps, in the engine's order. */
  function KingSteps(b: Board, r: Coord, c: Coord, color: Color): (ms: seq<Move>)
    ensures forall m :: m in ms <==> KingStepPattern(b, r, c, color, m)
  {
    var ms := Jumps(b, r, c, color, KingOffsets);
    assert forall m :: m in ms <==> KingStepPattern(b, r, c, color, m) by {
      forall m: Move {
        KingOffsetsAreSteps(r, c, m.endRow, m.endCol);
      }
    }
    ms
  }

  // ---------------------------------------------------------------------------
  // Sliding pieces

  /** The moves along one ray from (r, c), continuing from (fr, fc): every empty square,
      then the first occupied square if it holds an enemy. */
  function Ray(b: Board, r: Coord, c: Coord, color: Color, dr: int, dc: int, fr: int, fc: int): (ms: seq<Move>)
    requires IsUnit(dr, dc)
    decreases Span(dr, fr) + Span(dc, fc)
    ensures forall m :: m in ms <==>
      PlainTo(b, r, c, m) && Sight(b, fr, fc, dr, dc, m.endRow, m.endCol) && CanLand(b[m.endRow][m.endCol], color)
  {
    var nr, nc := fr + dr, fc + dc;
    if !OnBoard(nr, nc) then
      []
    else if b[nr][nc] == Empty then
      [Plain(b, r, c, nr, nc)] + Ray(b, r, c, color, dr, dc, nr, nc)
    else if b[nr][nc].color != color then
      [Plain(b, r, c, nr, nc)]
    else
      []
  }

  /** A list of ray directions, each a unit step. */
  ghost predicate AllUnit(dirs: seq<(int, int)>) {
    forall i :: 0 <= i < |dirs| ==> IsUnit(dirs[i].0, dirs[i].1)
  }

  /** The rays from (r, c) in each of the given directions, one after another. */
  function Slide(b: Board, r: Coord, c: Coord, color: Color, dirs: seq<(int, int)>): (ms: seq<Move>)
    requires AllUnit(dirs)
    ensures forall m :: m in ms <==>
      && PlainTo(b, r, c, m) && CanLand(b[m.endRow][m.endCol], color)
      && exists i :: 0 <= i < |dirs| && Sight(b, r, c, dirs[i].0, dirs[i].1, m.endRow, m.endCol)
  {
    if dirs == [] then
      []
    else
      var rest := Slide(b, r, c, color, dirs[1..]);
      assert forall m :: m in rest ==> exists i :: 0 <= i < |dirs| && Sight(b, r, c, dirs[i].0, dirs[i].1, m.endRow, m.endCol) by {
        forall m | m in rest
          ensures exists i :: 0 <= i < |dirs| && Sight(b, r, c, dirs[i].0, dirs[i].1, m.endRow, m.endCol)
        {
          var j :| 0 <= j < |dirs[1..]| && Sight(b, r, c, dirs[1..][j].0, dirs[1..][j].1, m.endRow, m.endCol);
          assert dirs[1..][j] == dirs[j + 1];
        }
      }
      assert forall m: Move, i :: (0 < i < |dirs| && Sight(b, r, c, dirs[i].0, dirs[i].1, m.endRow, m.endCol)
        && PlainTo(b, r, c, m) && CanLand(b[m.endRow][m.endCol], color)) ==> m in rest by {
        forall m: Move, i | 0 < i < |dirs| && Sight(b, r, c, dirs[i].0, dirs[i].1, m.endRow, m.endCol) && PlainTo(b, r, c, m)
          && CanLand(b[m.endRow][m.endCol], color)
          ensures m in rest
        {
          assert dirs[1..][i - 1] == dirs[i];
        }
      }
      Ray(b, r, c, color, dirs[0].0, dirs[0].1, r, c) + rest
  }

  const RookDirections: seq<(int, int)> := [(-1, 0), (1, 0), (0, -1), (0, 1)]
  const BishopDirections: seq<(int, int)> := [(-1, -1), (-1, 1), (1, -1), (1, 1)]
  const QueenDirections: seq<(int, int)> := RookDirections + BishopDirections

  /** A slider's move: an ordinary move to a square in clear sight along a row or column
      (when `orthogonal`) or a diagonal (when `diagonal`), empty or held by an enemy. */
  predicate SlidePattern(b: Board, r: Coord, c: Coord, color: Color, orthogonal: bool, diagonal: bool, m: Move) {
    && PlainTo(b, r, c, m) && CanLand(b[m.endRow][m.endCol], color)
    && ((orthogonal && OrthogonalSight(b, r, c, m.endRow, m.endCol)) || (diagonal && DiagonalSight(b, r, c, m.endRow, m.endCol)))
  }

  function RookMoves(b: Board, r: Coord, c: Coord, color: Color): (ms: seq<Move>)
    ensures forall m :: m in ms <==> SlidePattern(b, r, c, color, true, false, m)
  {
    var dirs := RookDirections;
    assert dirs[0] == (-1, 0) && dirs[1] == (1, 0) && dirs[2] == (0, -1) && dirs[3] == (0, 1);
    Slide(b, r, c, color, dirs)
  }

  function BishopMoves(b: Board, r: Coord, c: Coord, color: Color): (ms: seq<Move>)
    ensures forall m :: m in ms <==> SlidePattern(b, r, c, color, false, true, m)
  {
    var dirs := BishopDirections;
    assert dirs[0] == (-1, -1) && dirs[1] == (-1, 1) && dirs[2] == (1, -1) && dirs[3] == (1, 1);
    Slide(b, r, c, color, dirs)
  }

  function QueenMoves(b: Board, r: Coord, c: Coord, color: Color): (ms: seq<Move>)
    ensures forall m :: m in ms <==> SlidePattern(b, r, c, color, true, true, m)
  {
    var dirs := QueenDirections;
    assert dirs[0] == (-1, 0) && dirs[1] == (1, 0) && dirs[2] == (0, -1) && dirs[3] == (0, 1);
    assert dirs[4] == (-1, -1) && dirs[5] == (-1, 1) && dirs[6] == (1, -1) && dirs[7] == (1, 1);
    Slide(b, r, c, color, dirs)
  }

  // ---------------------------------------------------------------------------
  // Pawns

  /** The row a pawn of `color` may advance two rows from. */
  function PawnHomeRow(color: Color): Coord {
    if color == White then 6 else 1
  }

  /** The row a pawn of `color` must stand on to capture en passant. */
  function PassantRow(color: Color): Coord {
    if color == White then 3 else 4
  }

  /** A diagonal capture onto (nr, nc) when it is on the board and holds an enemy. */
  function PawnCapture(b: Board, r: Coord, c: Coord, color: Color, nr: int, nc: int): (ms: seq<Move>)
    ensures forall m :: m in ms <==>
      PlainTo(b, r, c, m) && m.endRow == nr && m.endCol == nc && IsEnemy(b[m.endRow][m.endCol], color)
  {
    if OnBoard(nr, nc) && IsEnemy(b[nr][nc], color) then [Plain(b, r, c, nr, nc)] else []
  }

  /** A pawn advance: one row forward onto an empty square, or two rows from the home row
      when both squares are empty. */
  predicate PushPattern(b: Board, r: Coord, c: Coord, color: Color, m: Move) {
    var dir := Forward(color);
    && PlainTo(b, r, c, m) && m.endCol == c
    && (|| (m.endRow == r + dir && b[m.endRow][c] == Empty)
        || (&& r == PawnHomeRow(color) && m.endRow == r + 2 * dir
            && b[r + dir][c] == Empty && b[m.endRow][c] == Empty))
  }

  /** A pawn capture: one row forward and one column aside onto an enemy. */
  predicate CapturePattern(b: Board, r: Coord, c: Coord, color: Color, m: Move) {
    PlainTo(b, r, c, m) && m.endRow == r + Forward(color) && Abs(m.endCol - c) == 1 && IsEnemy(b[m.endRow][m.endCol], color)
  }

  /** An en-passant capture onto the recorded square, from the en-passant row, in a column next to it. */
  predicate PassantPattern(s: State, r: Coord, c: Coord, color: Color, m: Move) {
    && m == NewMove(r, c, m.endRow, m.endCol, s.board, false, true)
    && s.enPassant == Some(Square(m.endRow, m.endCol))
    && r == PassantRow(color) && Abs(c - m.endCol) == 1
  }

  /** The moves of the pawn of `color` on (r, c). */
  predicate PawnPattern(s: State, r: Coord, c: Coord, color: Color, m: Move) {
    || PushPattern(s.board, r, c, color, m)
    || CapturePattern(s.board, r, c, color, m)
    || PassantPattern(s, r, c, color, m)
  }

  function PawnPushes(b: Board, r: Coord, c: Coord, color: Color): (ms: seq<Move>)
    ensures forall m :: m in ms <==> PushPattern(b, r, c, color, m)
  {
    var dir := Forward(color);
    if OnBoard(r + dir, c) && b[r + dir][c] == Empty then
      [Plain(b, r, c, r + dir, c)] +
      (if r == PawnHomeRow(color) && b[r + 2 * dir][c] == Empty then [Plain(b, r, c, r + 2 * dir, c)] else [])
    else
      []
  }

  function PawnCaptures(b: Board, r: Coord, c: Coord, color: Color): (ms: seq<Move>)
    ensures forall m :: m in ms <==> CapturePattern(b, r, c, color, m)
  {
    var dir := Forward(color);
    PawnCapture(b, r, c, color, r + dir, c - 1) + PawnCapture(b, r, c, color, r + dir, c + 1)
  }

  function PassantCaptures(s: State, r: Coord, c: Coord, color: Color): (ms: seq<Move>)
    ensures forall m :: m in ms <==> PassantPattern(s, r, c, color, m)
  {
    match s.enPassant
    case None => []
    case Some(sq) =>
      if r == PassantRow(color) && Abs(c - sq.col) == 1 then [NewMove(r, c, sq.row, sq.col, s.board, false, true)]
      else []
  }

  /** The pawn's advances, then its diagonal captures, then its en-passant capture. */
  function PawnMoves(s: State, r: Coord, c: Coord, color: Color): (ms: seq<Move>)
    ensures forall m :: m in ms <==> PawnPattern(s, r, c, color, m)
  {
    PawnPushes(s.board, r, c, color) + PawnCaptures(s.board, r, c, color) + PassantCaptures(s, r, c, color)
  }

  // ---------------------------------------------------------------------------
  // King and castling

  /** The row on which the king and rooks of `color` start. */
  function HomeRow(color: Color): (row: Coord)
    ensures InitialBoard()[row][4] == Occupied(color, King)
  {
    match color
    case White => 7
    case Black => 0
  }

  /** The conditions the engine checks for castling on one side, all on the home row of
      `color`: the right is still held, the corner holds a rook of that colour, and the two
      squares next to the king on that side are empty and not attacked. */
  predicate SideClear(s: State, color: Color, kingside: bool) {
    var b := s.board;
    var home := HomeRow(color);
    if kingside then
      && KingsideRight(s.rights, color)
      && b[home][5] == Empty && b[home][6] == Empty && b[home][7] == Occupied(color, Rook)
      && !SquareUnderAttack(b, home, 5, color) && !SquareUnderAttack(b, home, 6, color)
    else
      && QueensideRight(s.rights, color)
      && b[home][1] == Empty && b[home][2] == Empty && b[home][0] == Occupied(color, Rook)
      && !SquareUnderAttack(b, home, 1, color) && !SquareUnderAttack(b, home, 2, color)
  }

  /** A castle the engine generates for the king of `color` on (r, c): the side to move is
      not in check, the king is on column 4, and the side of choice is clear; the king moves
      two columns along its own row. */
  predicate CastlePattern(s: State, r: Coord, c: Coord, color: Color, m: Move) {
    && m == NewMove(r, c, r, m.endCol, s.board, true, false)
    && !InCheck(s) && c == 4
    && ((m.endCol == 6 && SideClear(s, color, true)) || (m.endCol == 2 && SideClear(s, color, false)))
  }

  /** The castles of a king on (r, c), given whether it is in check and whether each side is clear. */
  function CastleChoices(b: Board, r: Coord, c: Coord, inCheck: bool, short: bool, long: bool): (ms: seq<Move>)
    ensures forall m :: m in ms <==>
      && m == NewMove(r, c, r, m.endCol, b, true, false)
      && !inCheck && c == 4
      && ((m.endCol == 6 && short) || (m.endCol == 2 && long))
  {
    if inCheck || c != 4 then
      []
    else
      (if short then [NewMove(r, c, r, c + 2, b, true, false)] else [])
      + (if long then [NewMove(r, c, r, c - 2, b, true, false)] else [])
  }

  function CastleMoves(s: State, r: Coord, c: Coord, color: Color): (ms: seq<Move>)
    ensures forall m :: m in ms <==> CastlePattern(s, r, c, color, m)
  {
    CastleChoices(s.board, r, c, InCheck(s), SideClear(s, color, true), SideClear(s, color, false))
  }

  function KingMoves(s: State, r: Coord, c: Coord, color: Color): (ms: seq<Move>)
    ensures forall m :: m in ms <==> KingStepPattern(s.board, r, c, color, m) || CastlePattern(s, r, c, color, m)
  {
    KingSteps(s.board, r, c, color) + CastleMoves(s, r, c, color)
  }

  // ---------------------------------------------------------------------------
  // All pieces

  /** The reference description of a pseudo-legal move of the piece on (r, c). */
  predicate PseudoLegal(s: State, r: Coord, c: Coord, m: Move) {
    var b := s.board;
    match b[r][c]
    case Empty => false
    case Occupied(color, kind) =>
      match kind
      case Pawn => PawnPattern(s, r, c, color, m)
      case Knight => KnightPattern(b, r, c, color, m)
      case Bishop => SlidePattern(b, r, c, color, false, true, m)
      case Rook => SlidePattern(b, r, c, color, true, false, m)
      case Queen => SlidePattern(b, r, c, color, true, true, m)
      case King => KingStepPattern(b, r, c, color, m) || CastlePattern(s, r, c, color, m)
  }

  /** The moves of the piece on (r, c), chosen by its kind. */
  function PieceMoves(s: State, r: Coord, c: Coord): (ms: seq<Move>)
    ensures forall m :: m in ms <==> PseudoLegal(s, r, c, m)
  {
    var b := s.board;
    match b[r][c]
    case Empty => []
    case Occupied(color, kind) =>
      match kind
      case Pawn => PawnMoves(s, r, c, color)
      case Knight => KnightMoves(b, r, c, color)
      case Bishop => BishopMoves(b, r, c, color)
      case Rook => RookMoves(b, r, c, color)
      case Queen => QueenMoves(b, r, c, color)
      case King => KingMoves(s, r, c, color)
  }

  /** Every pseudo-legal move of the piece on (r, c) starts on (r, c). */
  lemma PseudoLegalStarts(s: State, r: Coord, c: Coord, m: Move)
    requires PseudoLegal(s, r, c, m)
    ensures m.startRow == r && m.startCol == c
  {
  }

  /** m is a pseudo-legal move of a piece of the side to move. */
  predicate Generated(s: State, m: Move) {
    IsOwn(s.board[m.startRow][m.startCol], s.ToMove()) && PseudoLegal(s, m.startRow, m.startCol, m)
  }

  /** The moves of the piece on (r, c) when it belongs to the side to move, else none. */
  function OwnMoves(s: State, r: Coord, c: Coord): (ms: seq<Move>)
    ensures forall m :: m in ms <==> Generated(s, m) && m.startRow == r && m.startCol == c
  {
    if IsOwn(s.board[r][c], s.ToMove()) then
      var ms := PieceMoves(s, r, c);
      assert forall m :: m in ms ==> m.startRow == r && m.startCol == c by {
        forall m | m in ms ensures m.startRow == r && m.startCol == c {
          PseudoLegalStarts(s, r, c, m);
        }
      }
      ms
    else
      []
  }

  /** The moves of the side to move's pieces on squares at or after (r, c) in row-major order. */
  function MovesFrom(s: State, r: int, c: int): (ms: seq<Move>)
    requires 0 <= r <= 8 && 0 <= c <= 8
    decreases 8 - r, 8 - c
    ensures forall m :: m in ms <==> AtOrAfter(r, c, m.startRow, m.startCol) && Generated(s, m)
  {
    if r == 8 then
      []
    else if c == 8 then
      MovesFrom(s, r + 1, 0)
    else
      OwnMoves(s, r, c) + MovesFrom(s, r, c + 1)
  }

  /** All pseudo-legal moves of the side to move, square by square in row-major order. */
  function AllPossibleMoves(s: State): (ms: seq<Move>)
    ensures forall m :: m in ms <==> Generated(s, m)
  {
    MovesFrom(s, 0, 0)
  }

  // ---------------------------------------------------------------------------
  // What generated moves look like

  /** The facts every generated move satisfies, stated for the piece of `color` on its start square. */
  predicate WellShaped(s: State, color: Color, m: Move) {
    && BuiltAgainst(s.board, m)
    && IsOwn(m.pieceMoved, color)
    && (m.startRow != m.endRow || m.startCol != m.endCol)
    && (!m.isEnPassant && !m.isCastle ==> CanLand(s.board[m.endRow][m.endCol], color))
    && (m.isCastle ==> CastleShaped(m) && m.pieceMoved.kind == King)
    && (m.isEnPassant ==> !m.isCastle && m.pieceMoved.kind == Pawn)
  }

  lemma PawnShape(s: State, r: Coord, c: Coord, color: Color, m: Move)
    requires s.board[r][c] == Occupied(color, Pawn) && PawnPattern(s, r, c, color, m)
    ensures WellShaped(s, color, m)
  {
  }

  lemma KnightShape(s: State, r: Coord, c: Coord, color: Color, m: Move)
    requires s.board[r][c] == Occupied(color, Knight) && KnightPattern(s.board, r, c, color, m)
    ensures WellShaped(s, color, m)
  {
  }

  lemma SlideShape(s: State, r: Coord, c: Coord, color: Color, orthogonal: bool, diagonal: bool, m: Move)
    requires IsOwn(s.board[r][c], color) && s.board[r][c].kind != King && s.board[r][c].kind != Pawn
    requires SlidePattern(s.board, r, c, color, orthogonal, diagonal, m)
    ensures WellShaped(s, color, m)
  {
  }

  lemma KingStepShape(s: State, r: Coord, c: Coord, color: Color, m: Move)
    requires s.board[r][c] == Occupied(color, King) && KingStepPattern(s.board, r, c, color, m)
    ensures WellShaped(s, color, m)
  {
  }

  /** A castle starts from column 4, which the pattern demands, and moves two columns along its row. */
  lemma CastleShape(s: State, r: Coord, c: Coord, color: Color, m: Move)
    requires s.board[r][c] == Occupied(color, King) && CastlePattern(s, r, c, color, m)
    ensures WellShaped(s, color, m)
  {
    assert m.startCol == 4 && m.endRow == r && (m.endCol == 6 || m.endCol == 2);
  }

  /** A generated move is built against the current board, moves a piece of the side to
      move to a different square, lands on an empty or enemy square unless it captures en
      passant or castles, and is a king's castle or a pawn's en-passant capture when flagged so. */
  lemma GeneratedShape(s: State, m: Move)
    requires Generated(s, m)
    ensures WellShaped(s, s.ToMove(), m)
  {
    var b := s.board;
    var r, c := m.startRow, m.startCol;
    var color := s.ToMove();
    match b[r][c].kind
    case Pawn => PawnShape(s, r, c, color, m);
    case Knight => KnightShape(s, r, c, color, m);
    case Bishop => SlideShape(s, r, c, color, false, true, m);
    case Rook => SlideShape(s, r, c, color, true, false, m);
    case Queen => SlideShape(s, r, c, color, true, true, m);
    case King =>
      if KingStepPattern(b, r, c, color, m) {
        KingStepShape(s, r, c, color, m);
      } else {
        CastleShape(s, r, c, color, m);
      }
  }

  /** A castle generated for a king on its home row: the king lands on an empty square, and
      apply/undo restores it exactly when it is kingside or column 3 of that row is empty,
      because the queenside check looks only at columns 1 and 2. */
  lemma HomeCastleRestorable(s: State, m: Move)
    requires Generated(s, m) && m.isCastle && m.startRow == HomeRow(s.ToMove())
    ensures s.board[m.endRow][m.endCol] == Empty
    ensures Restorable(s.board, m) <==> IsKingside(m) || s.board[m.startRow][3] == Empty
  {
    GeneratedShape(s, m);
    assert CastlePattern(s, m.startRow, m.startCol, s.ToMove(), m);
  }

  /** A generated pawn move either advances or captures one row forward, advances two rows
      from the home row, or captures en passant from its en-passant row onto the recorded square. */
  lemma GeneratedPawnRows(s: State, m: Move)
    requires Generated(s, m) && m.pieceMoved == Occupied(s.ToMove(), Pawn)
    ensures !m.isEnPassant ==>
      || m.endRow == m.startRow + Forward(s.ToMove())
      || (m.startRow == PawnHomeRow(s.ToMove()) && m.endRow == m.startRow + 2 * Forward(s.ToMove()))
    ensures m.isEnPassant ==> m.startRow == PassantRow(s.ToMove()) && s.enPassant == Some(Square(m.endRow, m.endCol))
  {
    GeneratedShape(s, m);
    assert PawnPattern(s, m.startRow, m.startCol, s.ToMove(), m);
  }
}
