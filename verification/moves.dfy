/**
  Move values: a move remembers its squares, the piece it moves and the piece
  it captures, both read off the board it was built against, and its two
  special-move flags. Squares convert to algebraic names ("e2") and back.
 */
module Moves {
  import opened Wrappers
  import opened Pieces

  datatype Move = Move(
    startRow: Coord, startCol: Coord, endRow: Coord, endCol: Coord,
    pieceMoved: Piece, pieceCaptured: Piece,
    isCastle: bool, isEnPassant: bool)

  /** The square an en-passant capture removes: the mover's row, the destination's column. */
  function CapturedSquare(m: Move): (Coord, Coord) {
    if m.isEnPassant then (m.startRow, m.endCol) else (m.endRow, m.endCol)
  }

  /** m carries exactly the pieces board b held when m was built. */
  predicate BuiltAgainst(b: Board, m: Move) {
    && m.pieceMoved == b[m.startRow][m.startCol]
    && m.pieceCaptured == b[CapturedSquare(m).0][CapturedSquare(m).1]
  }

  /** m goes from (sr, sc) to (er, ec) and carries the given flags. */
  predicate Shaped(m: Move, sr: int, sc: int, er: int, ec: int, castle: bool, ep: bool) {
    && m.startRow == sr && m.startCol == sc && m.endRow == er && m.endCol == ec
    && m.isCastle == castle && m.isEnPassant == ep
  }

  /** The move constructor: the moved piece is read from the start square and the captured
      piece from the end square, or, for en passant, from the square beside the start. */
  function NewMove(sr: Coord, sc: Coord, er: Coord, ec: Coord, b: Board, castle: bool, ep: bool): (m: Move)
    ensures Shaped(m, sr, sc, er, ec, castle, ep) && BuiltAgainst(b, m)
    ensures forall m': Move :: Shaped(m', sr, sc, er, ec, castle, ep) && BuiltAgainst(b, m') ==> m' == m
  {
    Move(sr, sc, er, ec, b[sr][sc], if ep then b[sr][ec] else b[er][ec], castle, ep)
  }

  /** An ordinary move (neither castle nor en passant) from (sr, sc) to (er, ec). */
  function Plain(b: Board, sr: Coord, sc: Coord, er: Coord, ec: Coord): Move {
    NewMove(sr, sc, er, ec, b, false, false)
  }

  /** Two moves with the same start and end squares, whatever their pieces and flags. */
  predicate SameSquares(m: Move, n: Move) {
    m.startRow == n.startRow && m.startCol == n.startCol && m.endRow == n.endRow && m.endCol == n.endCol
  }

  // ---------------------------------------------------------------------------
  // Algebraic square names

  /** The file letter of a column: column 0 is 'a'. */
  function FileChar(c: Coord): char {
    (('a' as int) + c) as char
  }

  /** The rank digit of a row: row 0 is '8'. */
  function RankChar(r: Coord): char {
    (('8' as int) - r) as char
  }

  /** The algebraic name of square (r, c): its file letter followed by its rank digit. */
  function RankFile(r: Coord, c: Coord): (s: string)
    ensures |s| == 2 && 'a' <= s[0] <= 'h' && '1' <= s[1] <= '8'
    ensures s[0] as int - 'a' as int == c && '8' as int - s[1] as int == r
  {
    [FileChar(c), RankChar(r)]
  }

  /** The column of a file letter, the inverse of `FileChar`. */
  function ColOfFile(ch: char): (o: Option<Coord>)
    ensures o.Some? <==> 'a' <= ch <= 'h'
    ensures o.Some? ==> FileChar(o.value) == ch
  {
    if 'a' <= ch <= 'h' then Some(ch as int - 'a' as int) else None
  }

  /** The row of a rank digit, the inverse of `RankChar`. */
  function RowOfRank(ch: char): (o: Option<Coord>)
    ensures o.Some? <==> '1' <= ch <= '8'
    ensures o.Some? ==> RankChar(o.value) == ch
  {
    if '1' <= ch <= '8' then Some('8' as int - ch as int) else None
  }

  /** The square named by a two-character algebraic name, if it names one. */
  function ParseSquare(s: string): (o: Option<(Coord, Coord)>)
    ensures o.Some? <==> |s| == 2 && 'a' <= s[0] <= 'h' && '1' <= s[1] <= '8'
    ensures o.Some? ==> RankFile(o.value.0, o.value.1) == s
  {
    if |s| == 2 && ColOfFile(s[0]).Some? && RowOfRank(s[1]).Some? then
      Some((RowOfRank(s[1]).value, ColOfFile(s[0]).value))
    else
      None
  }

  /** Naming a square and reading the name back gives the square again. */
  lemma ParseRankFile(r: Coord, c: Coord)
    ensures ParseSquare(RankFile(r, c)) == Some((r, c))
  {
  }

  /** Distinct squares have distinct names. */
  lemma RankFileInjective(r: Coord, c: Coord, r': Coord, c': Coord)
    requires RankFile(r, c) == RankFile(r', c')
    ensures r == r' && c == c'
  {
    ParseRankFile(r, c);
    ParseRankFile(r', c');
  }

  /** The display notation of a move. */
  function Notation(m: Move): (s: string)
    ensures m.isCastle ==> s == "O-O" || s == "O-O-O"
    ensures m.isCastle ==> (s == "O-O" <==> m.endCol - m.startCol == 2)
    ensures !m.isCastle ==> |s| == (if m.isEnPassant then 9 else 4)
    ensures !m.isCastle ==> ParseSquare(s[..2]) == Some((m.startRow, m.startCol))
    ensures !m.isCastle ==> ParseSquare(s[2..4]) == Some((m.endRow, m.endCol))
    ensures !m.isCastle && m.isEnPassant ==> s[4..] == " e.p."
  {
    if m.isCastle then
      if m.endCol - m.startCol == 2 then "O-O" else "O-O-O"
    else
      var squares := RankFile(m.startRow, m.startCol) + RankFile(m.endRow, m.endCol);
      ParseRankFile(m.startRow, m.startCol);
      ParseRankFile(m.endRow, m.endCol);
      assert squares[..2] == RankFile(m.startRow, m.startCol);
      assert squares[2..4] == RankFile(m.endRow, m.endCol);
      if m.isEnPassant then squares + " e.p." else squares
  }

  /** A castle's notation never reads as a square pair, so the two forms cannot be confused. */
  lemma CastleNotationIsNotSquares(m: Move)
    requires m.isCastle
    ensures ParseSquare(Notation(m)[..2]) == None
  {
  }
}
