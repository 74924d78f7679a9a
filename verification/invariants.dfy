/**
  A consistency invariant of positions reached by play. In such a position every
  castling right still held is backed by the king on column 4 and the rook on the
  matching corner of its colour's home row, and a recorded en-passant square lies on
  the row the pawn of the side not to move skipped. The starting position has it,
  and applying any generated move that does not capture a king keeps it.
 */
module Invariants {
  import opened Pieces
  import opened Moves
  import opened GameState
  import opened Generation
  import opened Legality

  /** The only king of `color` on b stands on (r, c). */
  predicate OnlyKingAt(b: Board, color: Color, r: Coord, c: Coord) {
    forall i: Coord, j: Coord :: b[i][j] == Occupied(color, King) ==> i == r && j == c
  }

  /** The right of `color` on the given side, if still held, is backed by its only king on
      column 4 and its rook on the corner of the home row. */
  predicate RightBacked(s: State, color: Color, kingside: bool) {
    var home := HomeRow(color);
    var corner: Coord := if kingside then 7 else 0;
    (if kingside then KingsideRight(s.rights, color) else QueensideRight(s.rights, color)) ==>
      && s.board[home][4] == Occupied(color, King) && OnlyKingAt(s.board, color, home, 4)
      && s.board[home][corner] == Occupied(color, Rook)
  }

  /** The en-passant square, if any, is empty and on row 5 after a White double advance
      (Black to move) or on row 2 after a Black one (White to move). */
  predicate PassantSane(s: State) {
    s.enPassant.Some? ==>
      && s.enPassant.value.row == (if s.whiteToMove then 2 else 5)
      && s.board[s.enPassant.value.row][s.enPassant.value.col] == Empty
  }

  predicate Consistent(s: State) {
    && PassantSane(s)
    && RightBacked(s, White, true) && RightBacked(s, White, false)
    && RightBacked(s, Black, true) && RightBacked(s, Black, false)
  }

  predicate TakesKing(m: Move) {
    m.pieceCaptured.Occupied? && m.pieceCaptured.kind == King
  }

  lemma InitConsistent()
    ensures Consistent(Init())
  {
  }

  /** From a consistent position, a generated move that does not capture a king keeps one
      backed right backed. */
  lemma MakeKeepsRight(s: State, m: Move, color: Color, kingside: bool)
    requires Consistent(s) && Generated(s, m) && !TakesKing(m)
    ensures RightBacked(MakeMove(s, m), color, kingside)
  {
    var t := MakeMove(s, m);
    var home := HomeRow(color);
    var corner: Coord := if kingside then 7 else 0;
    GeneratedShape(s, m);
    if (if kingside then KingsideRight(t.rights, color) else QueensideRight(t.rights, color)) {
      assert !Disturbs(m, color, corner);
      assert s.board[home][4] == Occupied(color, King) && s.board[home][corner] == Occupied(color, Rook);
      if m.pieceMoved.kind == Pawn {
        GeneratedPawnRows(s, m);
      }
      assert !Touches(m, home, 4);
      assert !Touches(m, home, corner);
      forall i: Coord, j: Coord | t.board[i][j] == Occupied(color, King)
        ensures i == home && j == 4
      {
        NoNewKing(s, m, color, i, j);
      }
    }
  }

  /** From a consistent position, a generated move that captures no king and does not move a
      king of `color` creates no king of `color` on a square: any such king afterwards was
      there before. */
  lemma NoNewKing(s: State, m: Move, color: Color, i: Coord, j: Coord)
    requires Consistent(s) && Generated(s, m) && !TakesKing(m)
    requires m.pieceMoved != Occupied(color, King)
    requires MakeMove(s, m).board[i][j] == Occupied(color, King)
    ensures s.board[i][j] == Occupied(color, King)
  {
    var t := MakeMove(s, m);
    GeneratedShape(s, m);
    if m.pieceMoved.kind == Pawn {
      GeneratedPawnRows(s, m);
    }
  }

  /** From a consistent position, a generated move leaves the en-passant square empty and on
      the row the invariant expects. */
  lemma MakeKeepsPassant(s: State, m: Move)
    requires Consistent(s) && Generated(s, m)
    ensures PassantSane(MakeMove(s, m))
  {
    var t := MakeMove(s, m);
    GeneratedShape(s, m);
    if m.pieceMoved.kind == Pawn {
      GeneratedPawnRows(s, m);
      if t.enPassant.Some? {
        var ep := t.enPassant.value;
        assert PawnPattern(s, m.startRow, m.startCol, s.ToMove(), m);
        assert s.board[ep.row][ep.col] == Empty;
        assert !Touches(m, ep.row, ep.col);
      }
    }
  }

  /** Play keeps positions consistent: the starting position is, and so is the result of
      applying any generated move that does not capture a king. */
  lemma MakeKeepsConsistent(s: State, m: Move)
    requires Consistent(s) && Generated(s, m) && !TakesKing(m)
    ensures Consistent(MakeMove(s, m))
  {
    MakeKeepsPassant(s, m);
    MakeKeepsRight(s, m, White, true);
    MakeKeepsRight(s, m, White, false);
    MakeKeepsRight(s, m, Black, true);
    MakeKeepsRight(s, m, Black, false);
  }

  /** In a consistent position a castle is only generated for the king on its home row. */
  lemma CastleFromHome(s: State, m: Move)
    requires Consistent(s) && Generated(s, m) && m.isCastle
    ensures m.startRow == HomeRow(s.ToMove())
  {
    GeneratedShape(s, m);
    var mover := s.ToMove();
    assert CastlePattern(s, m.startRow, m.startCol, mover, m);
    assert RightBacked(s, mover, IsKingside(m));
  }

  /** In a consistent position every generated move is restorable, except a queenside
      castle with a piece on column 3 of the king's row: apply/undo then loses that piece. */
  lemma ConsistentRestorable(s: State)
    requires Consistent(s)
    ensures AllRestorable(s, AllPossibleMoves(s)) <==>
      forall m :: m in AllPossibleMoves(s) && m.isCastle && !IsKingside(m) ==> s.board[m.startRow][3] == Empty
  {
    forall m | m in AllPossibleMoves(s)
      ensures BuiltAgainst(s.board, m) && (m.isCastle ==> CastleShaped(m))
      ensures Restorable(s.board, m) <==> (m.isCastle && !IsKingside(m) ==> s.board[m.startRow][3] == Empty)
    {
      GeneratedShape(s, m);
      if m.isCastle {
        CastleFromHome(s, m);
        HomeCastleRestorable(s, m);
      } else if m.isEnPassant {
        GeneratedPawnRows(s, m);
      }
    }
  }

  /** In a consistent position without such a queenside castle, the engine's legal-move
      computation leaves the state exactly as it found it and keeps exactly the generated
      moves after which the mover is not in check. */
  lemma ConsistentValidMoves(s: State)
    requires Consistent(s)
    requires forall m :: m in AllPossibleMoves(s) && m.isCastle && !IsKingside(m) ==> s.board[m.startRow][3] == Empty
    ensures ValidMoves(s).0 == s
    ensures forall m :: m in ValidMoves(s).1 <==> Generated(s, m) && KeepsKingSafe(s, m)
  {
    ConsistentRestorable(s);
    ValidMovesExact(s);
  }
}
