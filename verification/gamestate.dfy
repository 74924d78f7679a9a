/**
  The game state and its two mutators, apply and undo.

  Applying a move pushes a snapshot of the auxiliary state (castling rights,
  en-passant square, game-ended flag and winner) and the move itself; undoing
  pops both and puts the pieces back from what the move recorded.
 */
module GameState {
  import opened Wrappers
  import opened Pieces
  import opened Moves

  /** The four castling rights. */
  datatype Rights = Rights(whiteKingside: bool, whiteQueenside: bool, blackKingside: bool, blackQueenside: bool)

  function KingsideRight(rights: Rights, color: Color): bool {
    if color == White then rights.whiteKingside else rights.blackKingside
  }

  function QueensideRight(rights: Rights, color: Color): bool {
    if color == White then rights.whiteQueenside else rights.blackQueenside
  }

  /** `a` holds no right that `b` does not hold. */
  predicate NoNewRights(a: Rights, b: Rights) {
    && (a.whiteKingside ==> b.whiteKingside)
    && (a.whiteQueenside ==> b.whiteQueenside)
    && (a.blackKingside ==> b.blackKingside)
    && (a.blackQueenside ==> b.blackQueenside)
  }

  /** What apply saves before changing anything, and undo puts back verbatim. */
  datatype Snapshot = Snapshot(rights: Rights, enPassant: Option<Square>, gameEnded: bool, winner: Option<Color>)

  datatype State = State(
    board: Board,
    whiteToMove: bool,
    moveLog: seq<Move>,
    rights: Rights,
    enPassant: Option<Square>,
    history: seq<Snapshot>,
    gameEnded: bool,
    winner: Option<Color>)
  {
    /** The colour of the side to move. */
    function ToMove(): Color {
      if whiteToMove then White else Black
    }

    function Snap(): Snapshot {
      Snapshot(rights, enPassant, gameEnded, winner)
    }
  }

  /** The state of a new game. */
  function Init(): (s: State)
    ensures s.board == InitialBoard() && s.whiteToMove
    ensures s.moveLog == [] && s.history == []
    ensures s.rights == Rights(true, true, true, true) && s.enPassant == None
    ensures !s.gameEnded && s.winner == None
  {
    State(InitialBoard(), true, [], Rights(true, true, true, true), None, [], false, None)
  }

  /** Resetting forgets the whole game, whatever state it was in. */
  function ResetGame(s: State): (t: State)
    ensures t == Init()
    ensures UndoMove(t) == t
  {
    State(InitialBoard(), true, [], Rights(true, true, true, true), None, [], false, None)
  }

  // ---------------------------------------------------------------------------
  // Apply

  /** A castle is kingside when the king travels two columns to the right. */
  predicate IsKingside(m: Move) {
    m.endCol - m.startCol == 2
  }

  /** The column a castle's rook starts on. */
  function RookFrom(m: Move): Coord {
    if IsKingside(m) then 7 else 0
  }

  /** The column a castle's rook lands on. */
  function RookTo(m: Move): Coord {
    if IsKingside(m) then 5 else 3
  }

  /** Square (r, c) is one that applying m may write. */
  predicate Touches(m: Move, r: Coord, c: Coord) {
    || (r == m.startRow && c == m.startCol)
    || (r == m.endRow && c == m.endCol)
    || (m.isEnPassant && r == m.startRow && c == m.endCol)
    || (m.isCastle && r == m.startRow && (c == RookFrom(m) || c == RookTo(m)))
  }

  /** The en-passant square after m: the square a pawn passed over on a two-row advance. */
  function UpdateEnPassant(m: Move): (ep: Option<Square>)
    ensures ep.Some? <==> m.pieceMoved.Occupied? && m.pieceMoved.kind == Pawn && Abs(m.endRow - m.startRow) == 2
    ensures ep.Some? ==> ep.value.col == m.endCol
    ensures ep.Some? ==> ep.value.row - m.startRow == m.endRow - ep.value.row != 0
  {
    if m.pieceMoved.Occupied? && m.pieceMoved.kind == Pawn && Abs(m.endRow - m.startRow) == 2 then
      Some(Square((m.startRow + m.endRow) / 2, m.endCol))
    else
      None
  }

  /** m costs `color` the castling right on the side whose rook starts on column rookCol:
      that colour's king moves, its rook leaves that column, or its rook is captured there. */
  predicate Disturbs(m: Move, color: Color, rookCol: Coord) {
    MovedAway(m, color, rookCol) || TakenAt(m, color, rookCol)
  }

  predicate MovedAway(m: Move, color: Color, rookCol: Coord) {
    || m.pieceMoved == Occupied(color, King)
    || (m.pieceMoved == Occupied(color, Rook) && m.startCol == rookCol)
  }

  predicate TakenAt(m: Move, color: Color, rookCol: Coord) {
    m.pieceCaptured == Occupied(color, Rook) && m.endCol == rookCol
  }

  /** Clears the rights lost by the piece that moves: a king loses both of its colour's
      rights, a rook leaving column 7 or 0 loses the kingside or queenside one. */
  function ClearForMoved(rights: Rights, m: Move): (r: Rights)
    ensures r.whiteKingside == (rights.whiteKingside && !MovedAway(m, White, 7))
    ensures r.whiteQueenside == (rights.whiteQueenside && !MovedAway(m, White, 0))
    ensures r.blackKingside == (rights.blackKingside && !MovedAway(m, Black, 7))
    ensures r.blackQueenside == (rights.blackQueenside && !MovedAway(m, Black, 0))
  {
    match m.pieceMoved
    case Occupied(White, King) => rights.(whiteKingside := false, whiteQueenside := false)
    case Occupied(Black, King) => rights.(blackKingside := false, blackQueenside := false)
    case Occupied(White, Rook) =>
      if m.startCol == 7 then rights.(whiteKingside := false)
      else if m.startCol == 0 then rights.(whiteQueenside := false)
      else rights
    case Occupied(Black, Rook) =>
      if m.startCol == 7 then rights.(blackKingside := false)
      else if m.startCol == 0 then rights.(blackQueenside := false)
      else rights
    case _ => rights
  }

  /** Clears the right of a rook captured on column 7 or 0. */
  function ClearForCaptured(rights: Rights, m: Move): (r: Rights)
    ensures r.whiteKingside == (rights.whiteKingside && !TakenAt(m, White, 7))
    ensures r.whiteQueenside == (rights.whiteQueenside && !TakenAt(m, White, 0))
    ensures r.blackKingside == (rights.blackKingside && !TakenAt(m, Black, 7))
    ensures r.blackQueenside == (rights.blackQueenside && !TakenAt(m, Black, 0))
  {
    match m.pieceCaptured
    case Occupied(White, Rook) =>
      if m.endCol == 7 then rights.(whiteKingside := false)
      else if m.endCol == 0 then rights.(whiteQueenside := false)
      else rights
    case Occupied(Black, Rook) =>
      if m.endCol == 7 then rights.(blackKingside := false)
      else if m.endCol == 0 then rights.(blackQueenside := false)
      else rights
    case _ => rights
  }

  /** Clears the castling rights a move disturbs, and only those. */
  function UpdateCastlingRights(rights: Rights, m: Move): (r: Rights)
    ensures r.whiteKingside == (rights.whiteKingside && !Disturbs(m, White, 7))
    ensures r.whiteQueenside == (rights.whiteQueenside && !Disturbs(m, White, 0))
    ensures r.blackKingside == (rights.blackKingside && !Disturbs(m, Black, 7))
    ensures r.blackQueenside == (rights.blackQueenside && !Disturbs(m, Black, 0))
    ensures NoNewRights(r, rights)
  {
    ClearForCaptured(ClearForMoved(rights, m), m)
  }

  /** First step of applying a castle: its rook goes from the corner to its landing column. */
  function MoveCastleRook(b: Board, m: Move): (nb: Board)
    ensures m.isCastle ==> nb[m.startRow][RookTo(m)] == b[m.startRow][RookFrom(m)] && nb[m.startRow][RookFrom(m)] == Empty
    ensures forall r: Coord, c: Coord :: !(m.isCastle && r == m.startRow && (c == RookFrom(m) || c == RookTo(m))) ==> nb[r][c] == b[r][c]
  {
    if m.isCastle then Put(Put(b, m.startRow, RookTo(m), b[m.startRow][RookFrom(m)]), m.startRow, RookFrom(m), Empty)
    else b
  }

  /** Second step: an en-passant capture empties the square beside the start. */
  function RemovePassantVictim(b: Board, m: Move): (nb: Board)
    ensures m.isEnPassant ==> nb[m.startRow][m.endCol] == Empty
    ensures forall r: Coord, c: Coord :: !(m.isEnPassant && r == m.startRow && c == m.endCol) ==> nb[r][c] == b[r][c]
  {
    if m.isEnPassant then Put(b, m.startRow, m.endCol, Empty) else b
  }

  /** Last step: the start square is emptied, then the moved piece is put on the end square. */
  function PlacePiece(b: Board, m: Move): (nb: Board)
    ensures nb[m.endRow][m.endCol] == m.pieceMoved
    ensures (m.startRow != m.endRow || m.startCol != m.endCol) ==> nb[m.startRow][m.startCol] == Empty
    ensures forall r: Coord, c: Coord :: !(r == m.startRow && c == m.startCol) && !(r == m.endRow && c == m.endCol) ==> nb[r][c] == b[r][c]
  {
    Put(Put(b, m.startRow, m.startCol, Empty), m.endRow, m.endCol, m.pieceMoved)
  }

  /** Applies m without checking it: the rook of a castle moves first, an en-passant
      capture empties the square beside the start, a captured king ends the game in the
      mover's favour, then the piece moves and the turn passes. */
  function MakeMove(s: State, m: Move): (t: State)
    ensures t.whiteToMove == !s.whiteToMove
    ensures t.moveLog == s.moveLog + [m] && t.history == s.history + [s.Snap()]
    ensures t.board[m.endRow][m.endCol] == m.pieceMoved
    ensures (m.startRow != m.endRow || m.startCol != m.endCol) ==> t.board[m.startRow][m.startCol] == Empty
    ensures forall r: Coord, c: Coord :: !Touches(m, r, c) ==> t.board[r][c] == s.board[r][c]
    ensures m.isCastle && CastleShaped(m) ==>
      t.board[m.startRow][RookTo(m)] == s.board[m.startRow][RookFrom(m)] && t.board[m.startRow][RookFrom(m)] == Empty
    ensures m.isEnPassant && m.endRow != m.startRow ==> t.board[m.startRow][m.endCol] == Empty
    ensures t.rights == UpdateCastlingRights(s.rights, m) && t.enPassant == UpdateEnPassant(m)
    ensures NoNewRights(t.rights, s.rights)
    ensures t.gameEnded <==> s.gameEnded || (m.pieceCaptured.Occupied? && m.pieceCaptured.kind == King)
    ensures m.pieceCaptured.Occupied? && m.pieceCaptured.kind == King ==> t.winner == Some(s.ToMove())
    ensures !(m.pieceCaptured.Occupied? && m.pieceCaptured.kind == King) ==> t.winner == s.winner
  {
    var afterRook := MoveCastleRook(s.board, m);
    var afterPassant := RemovePassantVictim(afterRook, m);
    var kingTaken := m.pieceCaptured.Occupied? && m.pieceCaptured.kind == King;
    State(
      PlacePiece(afterPassant, m),
      !s.whiteToMove,
      s.moveLog + [m],
      UpdateCastlingRights(s.rights, m),
      UpdateEnPassant(m),
      s.history + [s.Snap()],
      if kingTaken then true else s.gameEnded,
      if kingTaken then Some(s.ToMove()) else s.winner)
  }

  // ---------------------------------------------------------------------------
  // Undo

  /** Takes back the last applied move, or does nothing when there is none. */
  function UndoMove(s: State): (t: State)
    ensures |s.moveLog| == 0 || |s.history| == 0 ==> t == s
    ensures |s.moveLog| > 0 && |s.history| > 0 ==>
      && t.moveLog == s.moveLog[..|s.moveLog| - 1]
      && t.history == s.history[..|s.history| - 1]
      && t.Snap() == s.history[|s.history| - 1]
      && t.whiteToMove == !s.whiteToMove
  {
    if |s.moveLog| != 0 && |s.history| != 0 then
      var m := s.moveLog[|s.moveLog| - 1];
      var snap := s.history[|s.history| - 1];
      var row := m.startRow;
      var afterPiece := Put(Put(s.board, row, m.startCol, m.pieceMoved), m.endRow, m.endCol, m.pieceCaptured);
      var afterPassant :=
        if m.isEnPassant then Put(Put(afterPiece, row, m.endCol, m.pieceCaptured), m.endRow, m.endCol, Empty)
        else afterPiece;
      var afterRook :=
        if m.isCastle then Put(Put(afterPassant, row, RookFrom(m), afterPassant[row][RookTo(m)]), row, RookTo(m), Empty)
        else afterPassant;
      State(
        afterRook,
        !s.whiteToMove,
        s.moveLog[..|s.moveLog| - 1],
        snap.rights,
        snap.enPassant,
        s.history[..|s.history| - 1],
        snap.gameEnded,
        snap.winner)
    else
      s
  }

  // ---------------------------------------------------------------------------
  // Apply then undo

  /** A castle as the generator builds it: the king leaves column 4 for column 6 or 2 on its own row. */
  predicate CastleShaped(m: Move) {
    m.startCol == 4 && m.endRow == m.startRow && (m.endCol == 6 || m.endCol == 2) && !m.isEnPassant
  }

  /** Undo can only rebuild what the move recorded: an en-passant destination must have
      been empty, and so must the square a castle's rook lands on. */
  predicate Restorable(b: Board, m: Move) {
    && (m.isEnPassant ==> b[m.endRow][m.endCol] == Empty)
    && (m.isCastle ==> b[m.startRow][RookTo(m)] == Empty)
  }

  lemma BoardsEqual(a: Board, b: Board)
    requires forall r: Coord, c: Coord :: a[r][c] == b[r][c]
    ensures a == b
  {
    forall r | 0 <= r < 8
      ensures a[r] == b[r]
    {
      assert forall c: Coord :: a[r][c] == b[r][c];
    }
  }

  /** Whatever m is, apply then undo restores everything but the board: the side to move,
      both logs, the castling rights, the en-passant square, the game-ended flag and the winner. */
  lemma UndoMakeKeepsAuxiliary(s: State, m: Move)
    ensures UndoMove(MakeMove(s, m)) == s.(board := UndoMove(MakeMove(s, m)).board)
  {
    var t := MakeMove(s, m);
    assert t.moveLog[..|t.moveLog| - 1] == s.moveLog;
    assert t.history[..|t.history| - 1] == s.history;
  }

  /** The apply/undo inverse law: for a move built against the current board (a castle
      shaped as generated), undo after apply gives back exactly the state it started
      from if and only if the move is restorable. */
  lemma UndoMakeRoundTrip(s: State, m: Move)
    requires BuiltAgainst(s.board, m)
    requires m.isCastle ==> CastleShaped(m)
    ensures UndoMove(MakeMove(s, m)) == s <==> Restorable(s.board, m)
  {
    var t := UndoMove(MakeMove(s, m));
    UndoMakeKeepsAuxiliary(s, m);
    if Restorable(s.board, m) {
      forall r: Coord, c: Coord
        ensures t.board[r][c] == s.board[r][c]
      {
      }
      BoardsEqual(t.board, s.board);
    } else if m.isEnPassant {
      assert t.board[m.endRow][m.endCol] == Empty != s.board[m.endRow][m.endCol];
    } else {
      assert t.board[m.startRow][RookTo(m)] == Empty != s.board[m.startRow][RookTo(m)];
    }
  }

  /** Queenside castling overwrites whatever stands on column 3 of the king's row, and
      undoing it leaves that square empty: the piece that stood there is lost. */
  lemma QueensideCastleLosesColumnThree(s: State, m: Move)
    requires BuiltAgainst(s.board, m) && m.isCastle && CastleShaped(m) && m.endCol == 2
    requires s.board[m.startRow][3] != Empty
    ensures UndoMove(MakeMove(s, m)).board[m.startRow][3] == Empty
    ensures UndoMove(MakeMove(s, m)) != s
  {
    UndoMakeRoundTrip(s, m);
  }

  /** Only a king capture ends the game, and the side that captured it wins. */
  lemma GameEndsOnlyByKingCapture(s: State, m: Move)
    requires !s.gameEnded
    ensures MakeMove(s, m).gameEnded <==> m.pieceCaptured.Occupied? && m.pieceCaptured.kind == King
    ensures MakeMove(s, m).gameEnded ==> MakeMove(s, m).winner == Some(s.ToMove())
  {
  }
}
